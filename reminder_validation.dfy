/** The request checks of the reminder serializers
 *  (notifications/serializers.py). Each check accepts or rejects with the
 *  first message the serializer raises. */
module ReminderValidation {
  import opened Wrappers
  import opened Seqs
  import opened Reminders

  datatype Check = Accept | Reject(message: string)

  const TargetPast := "Target date must be in the future"
  const RemindPast := "Reminder time must be in the future"
  const DaysNegative := "Days before must be a positive number"
  const Inconsistent := "Remind time is not consistent with target date and days_before"
  const NeedTime := "Either 'remind_at' or 'target_date' must be provided"
  const RecurringNeedsTarget := "Target date is required for recurring reminders"
  const RecurringNeedsFrequency := "Frequency cannot be 'ONCE' for recurring reminders"

  /** The fields the reminder checks read; None for a field not sent. */
  datatype ReminderData = ReminderData(
    targetDate: Option<int>,
    remindAt: Option<int>,
    daysBefore: Option<int>,
    isRecurring: Option<bool>,
    frequency: Option<Frequency>)

  /** The allowed gap between the reminder time and the time the target
   *  and days_before imply: one hour. */
  const Tolerance: int := 3600

  function Abs(x: int): nat
  {
    if x < 0 then -x else x
  }

  /** ReminderSerializer.validate: a given target and reminder time lie in
   *  the future, days_before (30 when absent) is not negative, and with
   *  both times the reminder time is within an hour of the target minus
   *  days_before. */
  function ValidateReminder(d: ReminderData, now: int): (r: Check)
    ensures r == Accept <==>
      (d.targetDate.Some? ==> d.targetDate.value > now)
      && (d.remindAt.Some? ==> d.remindAt.value > now)
      && d.daysBefore.GetOr(30) >= 0
      && (d.targetDate.Some? && d.remindAt.Some? ==>
            Abs(d.remindAt.value - (d.targetDate.value - d.daysBefore.GetOr(30) * Day)) <= Tolerance)
    ensures d.targetDate.Some? && d.targetDate.value <= now ==> r == Reject(TargetPast)
  {
    var days := d.daysBefore.GetOr(30);
    if d.targetDate.Some? && d.targetDate.value <= now then Reject(TargetPast)
    else if d.remindAt.Some? && d.remindAt.value <= now then Reject(RemindPast)
    else if days < 0 then Reject(DaysNegative)
    else if d.targetDate.Some? && d.remindAt.Some?
      && Abs(d.remindAt.value - (d.targetDate.value - days * Day)) > Tolerance then Reject(Inconsistent)
    else Accept
  }

  /** The reminder time create_reminder computes agrees with the check: a
   *  future target with a non-negative days_before whose default reminder
   *  time is still to come passes with that time. */
  lemma {:induction false} DefaultRemindAtPasses(target: int, daysBefore: int, now: int)
    requires target > now && daysBefore >= 0
    requires DefaultRemindAt(None, Some(target), daysBefore).value > now
    ensures ValidateReminder(ReminderData(Some(target), DefaultRemindAt(None, Some(target), daysBefore), Some(daysBefore), None, None), now) == Accept
  {
  }

  /** ReminderCreateSerializer.validate: a reminder time or a target is
   *  required, the times lie in the future, days_before is not negative,
   *  and a recurring reminder needs a target and a frequency other than
   *  ONCE (the default). */
  function ValidateReminderCreate(d: ReminderData, now: int): (r: Check)
    ensures r == Accept <==>
      (d.remindAt.Some? || d.targetDate.Some?)
      && (d.targetDate.Some? ==> d.targetDate.value > now)
      && (d.remindAt.Some? ==> d.remindAt.value > now)
      && d.daysBefore.GetOr(30) >= 0
      && (d.isRecurring.GetOr(false) ==> d.targetDate.Some? && d.frequency.GetOr(Once) != Once)
    ensures d.remindAt.None? && d.targetDate.None? ==> r == Reject(NeedTime)
  {
    if d.remindAt.None? && d.targetDate.None? then Reject(NeedTime)
    else if d.targetDate.Some? && d.targetDate.value <= now then Reject(TargetPast)
    else if d.remindAt.Some? && d.remindAt.value <= now then Reject(RemindPast)
    else if d.daysBefore.GetOr(30) < 0 then Reject(DaysNegative)
    else if d.isRecurring.GetOr(false) && d.targetDate.None? then Reject(RecurringNeedsTarget)
    else if d.isRecurring.GetOr(false) && d.frequency.GetOr(Once) == Once then Reject(RecurringNeedsFrequency)
    else Accept
  }

  /** An accepted create request gives a reminder with a reminder time, and
   *  an accepted recurring one has what the next-date rule needs: a target
   *  and a step. */
  lemma {:induction false} AcceptedCreateSchedules(d: ReminderData, now: int)
    requires ValidateReminderCreate(d, now) == Accept
    ensures DefaultRemindAt(d.remindAt, d.targetDate, d.daysBefore.GetOr(30)).Some?
    ensures d.isRecurring.GetOr(false) ==> d.targetDate.Some? && FrequencyDays(d.frequency.GetOr(Once)).Some?
  {
  }

  const StatusLocked := "Cannot change status from completed/failed to active"

  /** ReminderUpdateSerializer.validate_status: a completed or failed
   *  reminder may only be cancelled. */
  function ValidateStatus(current: Option<ReminderStatus>, value: ReminderStatus): (r: Check)
    ensures r == Accept <==> current.None? || current.value !in {Completed, Failed} || value == Cancelled
  {
    if current.Some? && current.value in {Completed, Failed} && value != Cancelled then Reject(StatusLocked)
    else Accept
  }

  /** ReminderUpdateSerializer.validate: only the fields sent are checked. */
  function ValidateReminderUpdate(d: ReminderData, now: int): (r: Check)
    ensures r == Accept <==>
      (d.targetDate.Some? ==> d.targetDate.value > now)
      && (d.remindAt.Some? ==> d.remindAt.value > now)
      && (d.daysBefore.Some? ==> d.daysBefore.value >= 0)
  {
    if d.targetDate.Some? && d.targetDate.value <= now then Reject(TargetPast)
    else if d.remindAt.Some? && d.remindAt.value <= now then Reject(RemindPast)
    else if d.daysBefore.Some? && d.daysBefore.value < 0 then Reject(DaysNegative)
    else Accept
  }

  /** An update request that sends no days_before passes the update check
   *  whenever it passes the general one: the update check is the weaker. */
  lemma {:induction false} UpdateCheckWeaker(d: ReminderData, now: int)
    requires ValidateReminder(d, now) == Accept
    ensures ValidateReminderUpdate(d, now) == Accept
  {
  }

  // ---------------------------------------------------------------------
  // Expiry reminders

  const DaysTooSmall := "Ensure this value is greater than or equal to 1."
  const DaysTooLarge := "Ensure this value is less than or equal to 365."
  const ExpiryPast := "Expiry date must be in the future"
  const ReminderInPast := "Reminder would be scheduled in the past. Reduce days_before or choose a later expiry date."

  /** One expiry reminder request. */
  datatype ExpiryRequest = ExpiryRequest(productName: string, expiryDate: int, daysBefore: Option<int>)

  /** ExpiryReminderCreateSerializer: days_before (30 when absent) lies in
   *  1..365, the expiry date is in the future, and so is the reminder time
   *  it implies. */
  function ValidateExpiryReminder(e: ExpiryRequest, now: int): (r: Check)
    ensures r == Accept <==>
      1 <= e.daysBefore.GetOr(30) <= 365 && e.expiryDate > now && e.expiryDate - e.daysBefore.GetOr(30) * Day > now
  {
    var days := e.daysBefore.GetOr(30);
    if days < 1 then Reject(DaysTooSmall)
    else if days > 365 then Reject(DaysTooLarge)
    else if e.expiryDate <= now then Reject(ExpiryPast)
    else if e.expiryDate - days * Day <= now then Reject(ReminderInPast)
    else Accept
  }

  /** The last check implies the one before it: with days_before at least
   *  1, a reminder time in the future means an expiry date in the future. */
  lemma {:induction false} ExpiryCheckSubsumed(e: ExpiryRequest, now: int)
    requires 1 <= e.daysBefore.GetOr(30) <= 365 && e.expiryDate - e.daysBefore.GetOr(30) * Day > now
    ensures ValidateExpiryReminder(e, now) == Accept
  {
  }

  const TooFewProducts := "Ensure this field has at least 1 elements."
  const TooManyProducts := "Ensure this field has no more than 100 elements."
  const DuplicateNames := "Duplicate product names are not allowed"

  function Names(products: seq<ExpiryRequest>): (r: seq<string>)
    ensures |r| == |products| && forall k :: 0 <= k < |r| ==> r[k] == products[k].productName
  {
    seq(|products|, k requires 0 <= k < |products| => products[k].productName)
  }

  /** The first product whose own check fails, if any. */
  function FirstRejected(products: seq<ExpiryRequest>, now: int): (r: Option<nat>)
    ensures r.None? <==> forall k :: 0 <= k < |products| ==> ValidateExpiryReminder(products[k], now) == Accept
    ensures r.Some? ==> r.value < |products| && ValidateExpiryReminder(products[r.value], now).Reject?
    decreases |products|
  {
    if |products| == 0 then None
    else if ValidateExpiryReminder(products[0], now).Reject? then Some(0)
    else
      var rest := FirstRejected(products[1..], now);
      if rest.None? then None else Some(rest.value + 1)
  }

  /** BulkExpiryReminderCreateSerializer: every product passes its own
   *  check, there are 1 to 100 of them, and no two share a name. */
  function ValidateBulk(products: seq<ExpiryRequest>, now: int): (r: Check)
    ensures r == Accept <==>
      (forall k :: 0 <= k < |products| ==> ValidateExpiryReminder(products[k], now) == Accept)
      && 1 <= |products| <= 100 && NoDup(Names(products))
  {
    var bad := FirstRejected(products, now);
    if bad.Some? then ValidateExpiryReminder(products[bad.value], now)
    else if |products| < 1 then Reject(TooFewProducts)
    else if |products| > 100 then Reject(TooManyProducts)
    else if !NoDup(Names(products)) then Reject(DuplicateNames)
    else Accept
  }

  /** The reminders of an accepted bulk request are all due in the future:
   *  what create_bulk_expiry_reminders stores for each product (see
   *  IsExpiryReminder) has a reminder time after now. */
  lemma {:induction false} AcceptedBulkDueLater(products: seq<ExpiryRequest>, now: int, k: nat, r: Reminder, formatDate: int -> string)
    requires ValidateBulk(products, now) == Accept && k < |products|
    requires IsExpiryReminder(r, ExpiryInput(products[k].productName, products[k].expiryDate, None, None),
      products[k].daysBefore.GetOr(30), formatDate)
    ensures r.remindAt.Some? && r.remindAt.value > now
  {
    assert ValidateExpiryReminder(products[k], now) == Accept;
  }
}
