/** Reminder scheduling of the notifications app (notifications/services.py,
 *  ReminderService, and the admin actions of notifications/admin.py).
 *  Times are whole seconds; the task queue is a list of scheduled tasks. */
module Reminders {
  import opened Wrappers
  import opened Seqs

  /** Seconds in a day. */
  const Day: int := 86400

  datatype Frequency = Once | Daily | Weekly | Monthly | Yearly
  datatype ReminderStatus = Active | Completed | Cancelled | Failed

  /** What a reminder is about and how it reads. */
  datatype Details = Details(
    supermarket: Option<nat>,
    reminderType: string,
    title: string,
    description: Option<string>,
    relatedObjectType: Option<string>,
    relatedObjectId: Option<string>,
    emailSubject: Option<string>)

  datatype Reminder = Reminder(
    id: nat,
    user: nat,
    details: Details,
    remindAt: Option<int>,
    targetDate: Option<int>,
    daysBefore: int,
    frequency: Frequency,
    isRecurring: bool,
    nextReminder: Option<int>,
    status: ReminderStatus,
    isSent: bool,
    sentAt: Option<int>,
    taskId: Option<nat>,
    sendEmail: bool,
    updatedAt: int)

  /** Task names: "reminder_<id>" for the first run, "reminder_<id>_next"
   *  for a recurrence. */
  datatype TaskName = First(reminder: nat) | Next(reminder: nat)

  /** A one-off task of the queue. */
  datatype ScheduledTask = ScheduledTask(id: nat, name: TaskName, runAt: int)

  datatype LogStatus = Success | Skipped | LogFailed
  datatype ReminderLog = ReminderLog(reminder: nat, status: LogStatus, emailSent: bool, errorMessage: Option<string>)

  /** The in-app notification raised by a reminder. */
  datatype Notice = Notice(user: nat, notificationType: string, title: string, message: string, priority: string)

  // ---------------------------------------------------------------------
  // Pure rules

  /** The reminder time of a new reminder: the explicit one, or
   *  days_before days ahead of the target date. */
  function DefaultRemindAt(remindAt: Option<int>, targetDate: Option<int>, daysBefore: int): (r: Option<int>)
    ensures r.Some? <==> remindAt.Some? || targetDate.Some?
    ensures remindAt.Some? ==> r == remindAt
    ensures remindAt.None? && targetDate.Some? ==> r.value + daysBefore * Day == targetDate.value
  {
    if remindAt.None? && targetDate.Some? then Some(targetDate.value - daysBefore * Day) else remindAt
  }

  /** The step of each recurring frequency, in days; None for ONCE. */
  function FrequencyDays(f: Frequency): (r: Option<nat>)
    ensures r.None? <==> f == Once
  {
    match f
    case Once => None
    case Daily => Some(1)
    case Weekly => Some(7)
    case Monthly => Some(30)
    case Yearly => Some(365)
  }

  /** _calculate_next_reminder: one step after the target date, days_before
   *  days early, and only if that is still to come. */
  function NextReminderAt(r: Reminder, now: int): (next: Option<int>)
    ensures next.Some? ==> (r.isRecurring && r.targetDate.Some? && FrequencyDays(r.frequency).Some?
      && next.value == r.targetDate.value + FrequencyDays(r.frequency).value * Day - r.daysBefore * Day
      && next.value > now)
    ensures next.None? && r.isRecurring && r.targetDate.Some? && FrequencyDays(r.frequency).Some? ==>
      r.targetDate.value + FrequencyDays(r.frequency).value * Day - r.daysBefore * Day <= now
  {
    if !r.isRecurring || r.targetDate.None? then None
    else
      var step := FrequencyDays(r.frequency);
      if step.None? then None
      else
        var at := r.targetDate.value + step.value * Day - r.daysBefore * Day;
        if at > now then Some(at) else None
  }

  /** The notification type of each reminder type, SYSTEM otherwise. */
  function NotificationTypeFor(reminderType: string): (r: string)
    ensures reminderType == "EXPIRY" ==> r == "EXPIRY"
    ensures reminderType !in {"EXPIRY", "LOW_STOCK", "REORDER", "CUSTOM", "MAINTENANCE", "REPORT"} ==> r == "SYSTEM"
  {
    if reminderType == "EXPIRY" then "EXPIRY"
    else if reminderType == "LOW_STOCK" || reminderType == "REORDER" then "LOW_STOCK"
    else if reminderType == "REPORT" then "REPORT_READY"
    else "SYSTEM"
  }

  /** The notification priority of each reminder type, MEDIUM otherwise. */
  function PriorityFor(reminderType: string): (r: string)
    ensures r in {"HIGH", "MEDIUM", "LOW"}
    ensures r == "HIGH" <==> reminderType == "EXPIRY"
  {
    if reminderType == "EXPIRY" then "HIGH"
    else if reminderType == "MAINTENANCE" || reminderType == "REPORT" then "LOW"
    else "MEDIUM"
  }

  /** _create_notification: the description, or "Reminder: <title>". */
  function NoticeFor(r: Reminder): Notice
  {
    var d := r.details;
    Notice(r.user, NotificationTypeFor(d.reminderType), d.title,
      if d.description.Some? && d.description.value != "" then d.description.value else "Reminder: " + d.title,
      PriorityFor(d.reminderType))
  }

  /** The reminder after a successful run at `now`: sent, and either kept
   *  active with its next date and the new task, or completed. */
  function Executed(r: Reminder, now: int, next: Option<int>, task: nat): Reminder
  {
    r.(isSent := true, sentAt := Some(now),
       nextReminder := if next.Some? then next else r.nextReminder,
       taskId := if next.Some? then Some(task) else r.taskId,
       status := if next.Some? then r.status else Completed,
       updatedAt := now)
  }

  /** A run never moves the target date or the schedule parameters, so
   *  the next date it computes is the one any later run computes too. */
  lemma {:induction false} RunKeepsNextDate(r: Reminder, now: int, next: Option<int>, task: nat, later: int)
    ensures NextReminderAt(Executed(r, now, next, task), later) == NextReminderAt(r, later)
  {
  }

  /** Consequently a recurring reminder recurs at most once: its second run,
   *  at the scheduled next date or later, finds no later date and
   *  completes it. */
  lemma {:induction false} RecurrenceStopsAfterOne(r: Reminder, now: int, task: nat, later: int, task2: nat)
    requires NextReminderAt(r, now).Some? && later >= NextReminderAt(r, now).value
    ensures var r1 := Executed(r, now, NextReminderAt(r, now), task);
      NextReminderAt(r1, later).None?
      && Executed(r1, later, NextReminderAt(r1, later), task2).status == Completed
  {
    RunKeepsNextDate(r, now, NextReminderAt(r, now), task, later);
  }

  /** The run with the target date moved on by one step whenever a next
   *  date is scheduled, so that the following run computes a later one. */
  function ExecutedAdvancing(r: Reminder, now: int, next: Option<int>, task: nat): Reminder
  {
    var s := Executed(r, now, next, task);
    if next.Some? && r.targetDate.Some? && FrequencyDays(r.frequency).Some? then
      s.(targetDate := Some(r.targetDate.value + FrequencyDays(r.frequency).value * Day))
    else s
  }

  /** With the target advanced, a run at the scheduled next date schedules
   *  another one, one step later, and the reminder stays active. */
  lemma {:induction false} AdvancingKeepsRecurring(r: Reminder, now: int, task: nat, task2: nat)
    requires NextReminderAt(r, now).Some?
    ensures var d := NextReminderAt(r, now).value;
      var r1 := ExecutedAdvancing(r, now, NextReminderAt(r, now), task);
      NextReminderAt(r1, d) == Some(d + FrequencyDays(r.frequency).value * Day)
      && ExecutedAdvancing(r1, d, NextReminderAt(r1, d), task2).status == r.status
  {
  }

  // ---------------------------------------------------------------------
  // The service

  /** A created reminder: active, not sent, with the given fields and
   *  the computed reminder time. send_email is not passed on, so the
   *  record keeps the model default. */
  function NewReminder(id: nat, user: nat, details: Details, targetDate: Option<int>, daysBefore: int,
                       frequency: Frequency, isRecurring: bool, remindAt: Option<int>, task: Option<nat>, now: int): Reminder
  {
    Reminder(id, user, details, DefaultRemindAt(remindAt, targetDate, daysBefore), targetDate, daysBefore,
      frequency, isRecurring, None, Active, false, None, task, DefaultSendEmail, now)
  }

  /** The default of send_email. The Reminder model is not in the repository; the
   *  model takes the default to be true. */
  const DefaultSendEmail := true

  /** The reminder table, the task queue, the execution log and the
   *  notifications. */
  class ReminderStore {
    var reminders: map<nat, Reminder>
    var nextId: nat
    var tasks: seq<ScheduledTask>
    var nextTask: nat
    var logs: seq<ReminderLog>
    var notices: seq<Notice>

    /** Every reminder is stored under its own id, below the next id. */
    ghost predicate Valid()
      reads this
    {
      forall id :: id in reminders ==> id < nextId && reminders[id].id == id
    }

    constructor ()
      ensures Valid() && reminders == map[] && tasks == [] && logs == [] && notices == []
    {
      reminders := map[];
      nextId := 0;
      tasks := [];
      nextTask := 0;
      logs := [];
      notices := [];
    }

    /** schedule(...): queue a one-off task and return its id. */
    method Schedule(name: TaskName, runAt: int) returns (task: nat)
      modifies this`tasks, this`nextTask
      ensures task == old(nextTask) && nextTask == task + 1
      ensures tasks == old(tasks) + [ScheduledTask(task, name, runAt)]
    {
      task := nextTask;
      tasks := tasks + [ScheduledTask(task, name, runAt)];
      nextTask := nextTask + 1;
    }

    /** Schedule.objects.filter(name=...).delete() */
    method Unschedule(name: TaskName)
      modifies this`tasks
      ensures tasks == Filter(old(tasks), (t: ScheduledTask) => t.name != name)
    {
      tasks := Filter(tasks, (t: ScheduledTask) => t.name != name);
    }

    /** create_reminder: store an active reminder whose reminder time
     *  defaults to days_before days ahead of the target; a task is queued
     *  only when there is a reminder time. */
    method CreateReminder(user: nat, details: Details, targetDate: Option<int>, daysBefore: int,
                          frequency: Frequency, isRecurring: bool, remindAt: Option<int>, sendEmail: bool, now: int)
      returns (id: nat)
      requires Valid()
      modifies this`reminders, this`nextId, this`tasks, this`nextTask
      ensures Valid() && id == old(nextId) && nextId == id + 1 && id !in old(reminders)
      ensures var at := DefaultRemindAt(remindAt, targetDate, daysBefore);
        var task := if at.Some? then Some(old(nextTask)) else None;
        reminders == old(reminders)[id := NewReminder(id, user, details, targetDate, daysBefore, frequency, isRecurring, remindAt, task, now)]
        && tasks == old(tasks) + (if at.Some? then [ScheduledTask(old(nextTask), First(id), at.value)] else [])
    {
      id := nextId;
      nextId := nextId + 1;
      var at := DefaultRemindAt(remindAt, targetDate, daysBefore);
      var task: Option<nat> := None;
      if at.Some? {
        var t := Schedule(First(id), at.value);
        task := Some(t);
      }
      reminders := reminders[id := NewReminder(id, user, details, targetDate, daysBefore, frequency, isRecurring, remindAt, task, now)];
    }

    /** execute_reminder: a missing reminder changes nothing; one that is
     *  not active is logged as skipped; otherwise the e-mail (when enabled
     *  and the user has an address) and the notification go out, the
     *  reminder is marked sent, and a recurring one with a next date is
     *  queued again while any other is completed. The target date is left
     *  where it was. */
    method ExecuteReminder(id: nat, now: int, userHasEmail: bool, mailDelivered: bool)
      requires Valid()
      modifies this`reminders, this`tasks, this`nextTask, this`logs, this`notices
      ensures Valid()
      ensures id !in old(reminders) ==>
        reminders == old(reminders) && tasks == old(tasks) && logs == old(logs) && notices == old(notices)
      ensures id in old(reminders) && old(reminders)[id].status != Active ==>
        reminders == old(reminders) && tasks == old(tasks) && notices == old(notices)
        && logs == old(logs) + [ReminderLog(id, Skipped, false, Some("Reminder status is " + StatusName(old(reminders)[id].status)))]
      ensures id in old(reminders) && old(reminders)[id].status == Active ==>
        var r := old(reminders)[id];
        var next := NextReminderAt(r, now);
        reminders == old(reminders)[id := Executed(r, now, next, old(nextTask))]
        && tasks == old(tasks) + (if next.Some? then [ScheduledTask(old(nextTask), Next(id), next.value)] else [])
        && notices == old(notices) + [NoticeFor(r)]
        && logs == old(logs) + [ReminderLog(id, Success, r.sendEmail && userHasEmail && mailDelivered, None)]
    {
      Run(id, now, userHasEmail, mailDelivered, false);
    }

    /** execute_reminder with the target date moved on one step whenever a
     *  next run is queued (ExecutedAdvancing), so that a recurring
     *  reminder keeps recurring; otherwise as ExecuteReminder. */
    method ExecuteReminderAdvancing(id: nat, now: int, userHasEmail: bool, mailDelivered: bool)
      requires Valid()
      modifies this`reminders, this`tasks, this`nextTask, this`logs, this`notices
      ensures Valid()
      ensures id !in old(reminders) ==>
        reminders == old(reminders) && tasks == old(tasks) && logs == old(logs) && notices == old(notices)
      ensures id in old(reminders) && old(reminders)[id].status != Active ==>
        reminders == old(reminders) && tasks == old(tasks) && notices == old(notices)
        && logs == old(logs) + [ReminderLog(id, Skipped, false, Some("Reminder status is " + StatusName(old(reminders)[id].status)))]
      ensures id in old(reminders) && old(reminders)[id].status == Active ==>
        var r := old(reminders)[id];
        var next := NextReminderAt(r, now);
        reminders == old(reminders)[id := ExecutedAdvancing(r, now, next, old(nextTask))]
        && tasks == old(tasks) + (if next.Some? then [ScheduledTask(old(nextTask), Next(id), next.value)] else [])
        && notices == old(notices) + [NoticeFor(r)]
        && logs == old(logs) + [ReminderLog(id, Success, r.sendEmail && userHasEmail && mailDelivered, None)]
    {
      Run(id, now, userHasEmail, mailDelivered, true);
    }

    /** The run shared by both: `advance` chooses ExecutedAdvancing over
     *  Executed for the stored reminder. */
    method Run(id: nat, now: int, userHasEmail: bool, mailDelivered: bool, advance: bool)
      requires Valid()
      modifies this`reminders, this`tasks, this`nextTask, this`logs, this`notices
      ensures Valid()
      ensures id !in old(reminders) ==>
        reminders == old(reminders) && tasks == old(tasks) && logs == old(logs) && notices == old(notices)
      ensures id in old(reminders) && old(reminders)[id].status != Active ==>
        reminders == old(reminders) && tasks == old(tasks) && notices == old(notices)
        && logs == old(logs) + [ReminderLog(id, Skipped, false, Some("Reminder status is " + StatusName(old(reminders)[id].status)))]
      ensures id in old(reminders) && old(reminders)[id].status == Active ==>
        var r := old(reminders)[id];
        var next := NextReminderAt(r, now);
        reminders == old(reminders)[id := if advance then ExecutedAdvancing(r, now, next, old(nextTask))
                                          else Executed(r, now, next, old(nextTask))]
        && tasks == old(tasks) + (if next.Some? then [ScheduledTask(old(nextTask), Next(id), next.value)] else [])
        && notices == old(notices) + [NoticeFor(r)]
        && logs == old(logs) + [ReminderLog(id, Success, r.sendEmail && userHasEmail && mailDelivered, None)]
    {
      if id !in reminders {
        return;
      }
      var r := reminders[id];
      if r.status != Active {
        logs := logs + [ReminderLog(id, Skipped, false, Some("Reminder status is " + StatusName(r.status)))];
        return;
      }
      var emailSent := r.sendEmail && userHasEmail && mailDelivered;
      notices := notices + [NoticeFor(r)];
      var next := NextReminderAt(r, now);
      var task := nextTask;
      if next.Some? {
        task := Schedule(Next(id), next.value);
      }
      var after := if advance then ExecutedAdvancing(r, now, next, task) else Executed(r, now, next, task);
      reminders := reminders[id := after];
      logs := logs + [ReminderLog(id, Success, emailSent, None)];
    }

    /** cancel_reminder: any stored reminder, whatever its status, becomes
     *  CANCELLED and its first-run task is dropped when it has one; a
     *  missing id gives false. */
    method CancelReminder(id: nat, now: int) returns (ok: bool)
      requires Valid()
      modifies this`reminders, this`tasks
      ensures Valid()
      ensures ok <==> id in old(reminders)
      ensures !ok ==> reminders == old(reminders) && tasks == old(tasks)
      ensures ok ==> reminders == old(reminders)[id := old(reminders)[id].(status := Cancelled, updatedAt := now)]
      ensures ok ==> tasks == if old(reminders)[id].taskId.Some? then Filter(old(tasks), (t: ScheduledTask) => t.name != First(id)) else old(tasks)
    {
      if id !in reminders {
        return false;
      }
      if reminders[id].taskId.Some? {
        Unschedule(First(id));
      }
      reminders := reminders[id := reminders[id].(status := Cancelled, updatedAt := now)];
      ok := true;
    }

    /** update_reminder: the given fields are set, the reminder time is
     *  recomputed when the target or days_before was passed, and the
     *  first-run task is replaced when the time changed, the reminder is
     *  active and the new time is still to come. A changed time that is
     *  now missing on an active reminder cannot be compared with the
     *  clock: the call gives None after the update was saved. */
    method UpdateReminder(id: nat, updates: seq<Update>, now: int) returns (result: Option<Reminder>)
      requires Valid()
      modifies this`reminders, this`tasks, this`nextTask
      ensures Valid()
      ensures id !in old(reminders) ==> result.None? && reminders == old(reminders) && tasks == old(tasks)
      ensures id in old(reminders) ==>
        var old_ := old(reminders)[id];
        var u := Updated(old_, updates).(updatedAt := now);
        var moved := u.remindAt != old_.remindAt && u.status == Active;
        (moved && u.remindAt.Some? && u.remindAt.value > now ==>
          var tasks0 := if u.taskId.Some? then Filter(old(tasks), (t: ScheduledTask) => t.name != First(id)) else old(tasks);
          tasks == tasks0 + [ScheduledTask(old(nextTask), First(id), u.remindAt.value)]
          && reminders == old(reminders)[id := u.(taskId := Some(old(nextTask)))]
          && result == Some(reminders[id]))
        && (!(moved && u.remindAt.Some? && u.remindAt.value > now) ==>
          tasks == old(tasks) && reminders == old(reminders)[id := u]
          && result == if moved && u.remindAt.None? then None else Some(u))
    {
      if id !in reminders {
        return None;
      }
      var old_ := reminders[id];
      UpdateKeepsIdentity(old_, updates);
      var u := Updated(old_, updates).(updatedAt := now);
      assert u.id == id;
      reminders := reminders[id := u];
      if u.remindAt != old_.remindAt && u.status == Active {
        if u.remindAt.None? {
          return None;
        }
        if u.remindAt.value > now {
          u := Reschedule(id, u);
        }
      }
      result := Some(u);
    }

    /** The first-run task of a saved reminder replaced by one at its new
     *  reminder time. */
    method Reschedule(id: nat, u: Reminder) returns (r: Reminder)
      requires Valid() && id in reminders && u.id == id && u.remindAt.Some?
      modifies this`reminders, this`tasks, this`nextTask
      ensures Valid() && r == u.(taskId := Some(old(nextTask))) && reminders == old(reminders)[id := r]
      ensures tasks == (if u.taskId.Some? then Filter(old(tasks), (t: ScheduledTask) => t.name != First(id)) else old(tasks))
        + [ScheduledTask(old(nextTask), First(id), u.remindAt.value)]
    {
      if u.taskId.Some? {
        Unschedule(First(id));
      }
      var task := Schedule(First(id), u.remindAt.value);
      r := u.(taskId := Some(task));
      reminders := reminders[id := r];
    }

    /** Save a loaded reminder as ACTIVE again. */
    method Revive(id: nat, r: Reminder, now: int)
      requires Valid() && id in reminders && r.id == id
      modifies this`reminders
      ensures Valid() && reminders == old(reminders)[id := r.(status := Active, updatedAt := now)]
    {
      reminders := reminders[id := r.(status := Active, updatedAt := now)];
    }

    /** cleanup_old_reminders: delete the finished reminders (completed,
     *  cancelled or failed) not saved for days_old days, and count them. */
    method CleanupOldReminders(daysOld: int, now: int) returns (count: nat)
      requires Valid()
      modifies this`reminders
      ensures Valid()
      ensures forall id :: id in reminders <==> id in old(reminders) && !Stale(old(reminders)[id], now - daysOld * Day)
      ensures forall id :: id in reminders ==> reminders[id] == old(reminders)[id]
      ensures count == |old(reminders).Keys| - |reminders.Keys|
    {
      var cutoff := now - daysOld * Day;
      var kept := map id | id in reminders && !Stale(reminders[id], cutoff) :: reminders[id];
      var gone := set id | id in reminders && Stale(reminders[id], cutoff);
      assert reminders.Keys == kept.Keys + gone && kept.Keys !! gone;
      count := |gone|;
      reminders := kept;
    }
  }

  /** One product of a bulk expiry request. */
  datatype ExpiryInput = ExpiryInput(name: string, expiryDate: int, productId: Option<string>, supermarket: Option<nat>)

  /** The texts of create_expiry_reminder; the date is rendered by the
   *  given formatter. */
  function ExpiryDetails(p: ExpiryInput, formatDate: int -> string): Details
  {
    Details(p.supermarket, "EXPIRY", "Product Expiry Alert: " + p.name,
      Some("The product '" + p.name + "' will expire on " + formatDate(p.expiryDate)),
      Some("product"), p.productId, Some("Product Expiry Alert: " + p.name))
  }

  /** An active once-only reminder for the product's expiry. */
  predicate IsExpiryReminder(r: Reminder, p: ExpiryInput, daysBefore: int, formatDate: int -> string)
  {
    r.details == ExpiryDetails(p, formatDate) && r.targetDate == Some(p.expiryDate)
    && r.remindAt == Some(p.expiryDate - daysBefore * Day) && r.status == Active && !r.isRecurring
  }

  /** create_expiry_reminder: create_reminder with the product's texts
   *  and its expiry date as the target. */
  method CreateExpiryReminder(st: ReminderStore, user: nat, p: ExpiryInput, daysBefore: int,
                              formatDate: int -> string, now: int) returns (id: nat)
    requires st.Valid()
    modifies st`reminders, st`nextId, st`tasks, st`nextTask
    ensures st.Valid() && id == old(st.nextId) && st.nextId == id + 1
    ensures st.reminders.Keys == old(st.reminders).Keys + {id} && id !in old(st.reminders)
    ensures IsExpiryReminder(st.reminders[id], p, daysBefore, formatDate)
    ensures forall k :: k in old(st.reminders) ==> st.reminders[k] == old(st.reminders)[k]
  {
    id := st.CreateReminder(user, ExpiryDetails(p, formatDate), Some(p.expiryDate), daysBefore, Once, false, None, true, now);
  }

  /** create_bulk_expiry_reminders: one once-only EXPIRY reminder per
   *  product, in order, each due days_before days ahead of its expiry
   *  date; the reminders already stored are left alone. */
  method CreateBulkExpiryReminders(st: ReminderStore, user: nat, products: seq<ExpiryInput>, daysBefore: int,
                                   formatDate: int -> string, now: int) returns (ids: seq<nat>)
    requires st.Valid()
    modifies st`reminders, st`nextId, st`tasks, st`nextTask
    ensures st.Valid() && |ids| == |products|
    ensures forall k :: 0 <= k < |ids| ==>
      ids[k] in st.reminders && ids[k] !in old(st.reminders)
      && IsExpiryReminder(st.reminders[ids[k]], products[k], daysBefore, formatDate)
    ensures forall k, l :: 0 <= k < l < |ids| ==> ids[k] < ids[l]
    ensures forall id :: id in old(st.reminders) ==> id in st.reminders && st.reminders[id] == old(st.reminders)[id]
  {
    ids := [];
    ghost var start := st.nextId;
    var i := 0;
    while i < |products|
      invariant 0 <= i <= |products| && |ids| == i && st.Valid() && st.nextId == start + i
      invariant forall k :: 0 <= k < i ==> ids[k] == start + k
      invariant forall k :: 0 <= k < i ==>
        ids[k] in st.reminders && IsExpiryReminder(st.reminders[ids[k]], products[k], daysBefore, formatDate)
      invariant forall id :: id in old(st.reminders) ==> id in st.reminders && st.reminders[id] == old(st.reminders)[id]
    {
      var p := products[i];
      ghost var prev := st.reminders;
      var id := CreateExpiryReminder(st, user, p, daysBefore, formatDate, now);
      assert forall k :: 0 <= k < i ==> ids[k] in prev && st.reminders[ids[k]] == prev[ids[k]];
      ids := ids + [id];
      i := i + 1;
    }
  }

  function StatusName(s: ReminderStatus): string
  {
    match s
    case Active => "ACTIVE"
    case Completed => "COMPLETED"
    case Cancelled => "CANCELLED"
    case Failed => "FAILED"
  }

  /** A finished reminder last saved before the cutoff. */
  predicate Stale(r: Reminder, cutoff: int)
  {
    r.status in {Completed, Cancelled, Failed} && r.updatedAt < cutoff
  }

  // ---------------------------------------------------------------------
  // Updates

  /** One keyword argument of update_reminder; Unknown stands for a name
   *  the reminder has no attribute for. */
  datatype Update =
    | Title(title: string)
    | Description(description: Option<string>)
    | RemindAt(remindAt: Option<int>)
    | TargetDate(targetDate: Option<int>)
    | DaysBefore(daysBefore: int)
    | SetFrequency(frequency: Frequency)
    | Recurring(isRecurring: bool)
    | SetStatus(status: ReminderStatus)
    | SendEmail(sendEmail: bool)
    | Unknown(name: string)

  function Apply(r: Reminder, u: Update): Reminder
  {
    match u
    case Title(t) => r.(details := r.details.(title := t))
    case Description(d) => r.(details := r.details.(description := d))
    case RemindAt(a) => r.(remindAt := a)
    case TargetDate(t) => r.(targetDate := t)
    case DaysBefore(d) => r.(daysBefore := d)
    case SetFrequency(f) => r.(frequency := f)
    case Recurring(b) => r.(isRecurring := b)
    case SetStatus(s) => r.(status := s)
    case SendEmail(b) => r.(sendEmail := b)
    case Unknown(_) => r
  }

  /** The keyword arguments set in order. */
  function ApplyAll(r: Reminder, updates: seq<Update>): Reminder
    decreases |updates|
  {
    if |updates| == 0 then r else ApplyAll(Apply(r, updates[0]), updates[1..])
  }

  /** target_date or days_before was passed. */
  predicate TouchesSchedule(updates: seq<Update>)
  {
    exists k :: 0 <= k < |updates| && (updates[k].TargetDate? || updates[k].DaysBefore?)
  }

  /** The reminder after the update: the fields set, then the reminder time
   *  recomputed when the target or days_before was passed and both are
   *  truthy (a days_before of 0 keeps the time). */
  function Updated(r: Reminder, updates: seq<Update>): (u: Reminder)
    ensures TouchesSchedule(updates) && u.targetDate.Some? && u.daysBefore != 0 ==>
      u.remindAt.Some? && u.remindAt.value + u.daysBefore * Day == u.targetDate.value
    ensures !TouchesSchedule(updates) || u.targetDate.None? || u.daysBefore == 0 ==>
      u == ApplyAll(r, updates)
  {
    var s := ApplyAll(r, updates);
    if TouchesSchedule(updates) && s.targetDate.Some? && s.daysBefore != 0 then
      s.(remindAt := Some(s.targetDate.value - s.daysBefore * Day))
    else s
  }

  /** Arguments naming no attribute of the reminder change nothing. */
  lemma {:induction false} UnknownArgumentsIgnored(r: Reminder, updates: seq<Update>)
    ensures ApplyAll(r, updates) == ApplyAll(r, Known(updates))
    decreases |updates|
  {
    if |updates| > 0 {
      UnknownArgumentsIgnored(Apply(r, updates[0]), updates[1..]);
      if !updates[0].Unknown? {
        assert Known(updates) == [updates[0]] + Known(updates[1..]);
        assert (Known(updates))[1..] == Known(updates[1..]);
      }
    }
  }

  function Known(updates: seq<Update>): (r: seq<Update>)
    ensures forall k :: 0 <= k < |r| ==> !r[k].Unknown?
    decreases |updates|
  {
    if |updates| == 0 then []
    else if updates[0].Unknown? then Known(updates[1..])
    else [updates[0]] + Known(updates[1..])
  }

  /** The identity, owner, sending state and task are never set by an
   *  update. */
  lemma {:induction false} UpdateKeepsIdentity(r: Reminder, updates: seq<Update>)
    ensures var u := ApplyAll(r, updates);
      u.id == r.id && u.user == r.user && u.isSent == r.isSent && u.taskId == r.taskId
      && u.nextReminder == r.nextReminder
    decreases |updates|
  {
    if |updates| > 0 {
      UpdateKeepsIdentity(Apply(r, updates[0]), updates[1..]);
    }
  }

  /** Only a status argument changes the status. */
  lemma {:induction false} UpdateKeepsStatus(r: Reminder, updates: seq<Update>)
    requires forall k :: 0 <= k < |updates| ==> !updates[k].SetStatus?
    ensures ApplyAll(r, updates).status == r.status
    decreases |updates|
  {
    if |updates| > 0 {
      assert forall k :: 0 <= k < |updates| - 1 ==> updates[1..][k] == updates[k + 1];
      UpdateKeepsStatus(Apply(r, updates[0]), updates[1..]);
    }
  }

  // ---------------------------------------------------------------------
  // Admin actions

  /** The selected reminders a CANCELLED-or-ACTIVE filter keeps. The
   *  filtered queryset yields each reminder once, however often its id was
   *  selected. */
  function Selected(reminders: map<nat, Reminder>, selection: seq<nat>, status: ReminderStatus): (r: seq<nat>)
    ensures forall k :: 0 <= k < |r| ==> r[k] in reminders && reminders[r[k]].status == status && r[k] in selection
    ensures forall id :: id in selection && id in reminders && reminders[id].status == status ==> id in r
    decreases |selection|
  {
    if |selection| == 0 then []
    else
      var rest := Selected(reminders, selection[1..], status);
      assert forall id :: id in selection[1..] ==> id in selection;
      if selection[0] in reminders && reminders[selection[0]].status == status && selection[0] !in rest
      then [selection[0]] + rest
      else rest
  }

  /** A reminder selected twice is still cancelled or revived, and counted,
   *  once. */
  lemma {:induction false} SelectedOnce(reminders: map<nat, Reminder>, selection: seq<nat>, status: ReminderStatus)
    ensures NoDup(Selected(reminders, selection, status))
    decreases |selection|
  {
    if |selection| > 0 {
      var rest := Selected(reminders, selection[1..], status);
      SelectedOnce(reminders, selection[1..], status);
      var r := Selected(reminders, selection, status);
      if r != rest {
        assert r == [selection[0]] + rest && selection[0] !in rest;
        forall j, k | 0 <= j < k < |r|
          ensures r[j] != r[k]
        {
          assert r[k] == rest[k - 1];
          if j > 0 {
            assert r[j] == rest[j - 1];
          }
        }
      }
      assert NoDup(r);
    }
  }

  /** The reminders with the listed ids set to a status and saved. */
  function MarkAll(m: map<nat, Reminder>, ids: seq<nat>, status: ReminderStatus, now: int): (r: map<nat, Reminder>)
    ensures r.Keys == m.Keys
  {
    map id | id in m :: if id in ids then m[id].(status := status, updatedAt := now) else m[id]
  }

  lemma {:induction false} MarkAllStep(m: map<nat, Reminder>, ids: seq<nat>, x: nat, status: ReminderStatus, now: int)
    requires x in m
    ensures MarkAll(m, ids + [x], status, now) == MarkAll(m, ids, status, now)[x := m[x].(status := status, updatedAt := now)]
    ensures MarkAll(m, ids + [x], status, now)
      == MarkAll(m, ids, status, now)[x := MarkAll(m, ids, status, now)[x].(status := status, updatedAt := now)]
  {
    var a := MarkAll(m, ids + [x], status, now);
    var b := MarkAll(m, ids, status, now)[x := m[x].(status := status, updatedAt := now)];
    assert a.Keys == b.Keys;
    assert forall id :: id in a ==> a[id] == b[id];
  }

  /** cancel_reminders: every ACTIVE reminder of the selection goes through
   *  cancel_reminder; the count is the number of calls that succeeded. */
  method CancelReminders(st: ReminderStore, selection: seq<nat>, now: int) returns (count: nat)
    requires st.Valid()
    modifies st`reminders, st`tasks
    ensures st.Valid()
    ensures count == |Selected(old(st.reminders), selection, Active)|
    ensures st.reminders == MarkAll(old(st.reminders), Selected(old(st.reminders), selection, Active), Cancelled, now)
  {
    var todo := Selected(st.reminders, selection, Active);
    ghost var before := st.reminders;
    count := 0;
    var i := 0;
    while i < |todo|
      invariant 0 <= i <= |todo| && count == i && st.Valid()
      invariant st.reminders == MarkAll(before, todo[..i], Cancelled, now)
    {
      CancelOne(st, before, todo, i, now);
      count := count + 1;
      i := i + 1;
    }
    assert todo[..i] == todo;
  }

  /** One cancel_reminder call of the admin action. */
  method CancelOne(st: ReminderStore, ghost before: map<nat, Reminder>, todo: seq<nat>, i: nat, now: int)
    requires st.Valid() && i < |todo| && todo[i] in before
    requires st.reminders == MarkAll(before, todo[..i], Cancelled, now)
    modifies st`reminders, st`tasks
    ensures st.Valid() && st.reminders == MarkAll(before, todo[..i + 1], Cancelled, now)
  {
    var ok := st.CancelReminder(todo[i], now);
    assert todo[..i + 1] == todo[..i] + [todo[i]];
    MarkAllStep(before, todo[..i], todo[i], Cancelled, now);
  }

  /** activate_reminders: the selection's CANCELLED reminders, as loaded,
   *  whose time is still to come become ACTIVE, in turn; the count is the number
   *  of reminders changed. A CANCELLED reminder without a reminder time makes the
   *  comparison with the clock raise TypeError: the action stops there
   *  (`aborted`), and the reminders saved before it stay saved, since no
   *  transaction wraps the action. */
  method ActivateReminders(st: ReminderStore, selection: seq<nat>, now: int) returns (count: nat, aborted: bool)
    requires st.Valid()
    modifies st`reminders
    ensures st.Valid()
    ensures var todo := Selected(old(st.reminders), selection, Cancelled);
      aborted <==> TimedRun(old(st.reminders), todo) < |todo|
    ensures var todo := Selected(old(st.reminders), selection, Cancelled);
      var revived := Revived(old(st.reminders), todo[..TimedRun(old(st.reminders), todo)], now);
      st.reminders == MarkAll(old(st.reminders), revived, Active, now) && count == |revived|
  {
    var loaded := st.reminders;
    var todo := Selected(loaded, selection, Cancelled);
    count, aborted := ReviveRun(st, loaded, todo, now);
  }

  /** The loop of activate_reminders over the filtered reminders `todo`, as
   *  loaded before the loop. */
  method ReviveRun(st: ReminderStore, loaded: map<nat, Reminder>, todo: seq<nat>, now: int)
    returns (count: nat, aborted: bool)
    requires st.Valid() && st.reminders == loaded
    requires forall k :: 0 <= k < |todo| ==> todo[k] in loaded && loaded[todo[k]].status == Cancelled
    modifies st`reminders
    ensures st.Valid()
    ensures aborted <==> TimedRun(loaded, todo) < |todo|
    ensures var revived := Revived(loaded, todo[..TimedRun(loaded, todo)], now);
      st.reminders == MarkAll(loaded, revived, Active, now) && count == |revived|
  {
    count := 0;
    aborted := false;
    ghost var n := TimedRun(loaded, todo);
    var i := 0;
    while i < |todo|
      invariant 0 <= i <= n && st.Valid()
      invariant count == |Revived(loaded, todo[..i], now)|
      invariant st.reminders == MarkAll(loaded, Revived(loaded, todo[..i], now), Active, now)
    {
      var id := todo[i];
      var r := loaded[id];
      if r.remindAt.None? {
        assert i == n;
        aborted := true;
        return;
      }
      assert i < n;
      RevivedSnoc(loaded, todo, i, now);
      if r.remindAt.value > now {
        st.Revive(id, r, now);
        count := count + 1;
        MarkAllStep(loaded, Revived(loaded, todo[..i], now), id, Active, now);
      }
      i := i + 1;
    }
    assert todo[..i] == todo;
  }

  /** How many of `ids` come before the first whose reminder has no reminder
   *  time (all of them when none lacks one). */
  function TimedRun(m: map<nat, Reminder>, ids: seq<nat>): (n: nat)
    ensures n <= |ids|
    ensures forall k :: 0 <= k < n ==> ids[k] !in m || m[ids[k]].remindAt.Some?
    ensures n < |ids| ==> ids[n] in m && m[ids[n]].remindAt.None?
    decreases |ids|
  {
    if |ids| == 0 then 0
    else if ids[0] in m && m[ids[0]].remindAt.None? then 0
    else 1 + TimedRun(m, ids[1..])
  }

  lemma {:induction false} RevivedSnoc(m: map<nat, Reminder>, ids: seq<nat>, i: nat, now: int)
    requires i < |ids| && ids[i] in m && m[ids[i]].status == Cancelled
    ensures Revived(m, ids[..i + 1], now)
      == Revived(m, ids[..i], now) + (if m[ids[i]].remindAt.Some? && m[ids[i]].remindAt.value > now then [ids[i]] else [])
  {
    assert ids[..i + 1][..i] == ids[..i];
  }

  /** The listed ids whose loaded reminder is revivable, in order. */
  function Revived(m: map<nat, Reminder>, ids: seq<nat>, now: int): seq<nat>
  {
    if |ids| == 0 then []
    else
      var rest := Revived(m, ids[..|ids| - 1], now);
      var last := ids[|ids| - 1];
      if last in m && Revivable(m[last], now) then rest + [last] else rest
  }

  /** Cancelled with a reminder time still to come (a missing time is
   *  treated as not to come). */
  predicate Revivable(r: Reminder, now: int)
  {
    r.status == Cancelled && r.remindAt.Some? && r.remindAt.value > now
  }
}
