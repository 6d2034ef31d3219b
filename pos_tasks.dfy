/** The POS synchronisation jobs (pos_integration/tasks.py): running one
 *  sync and recording its outcome on the sync log and the integration, and
 *  the periodic job that decides which integrations are due. Times are
 *  whole seconds; the Square API call is a parameter (its result). */
module PosTasks {
  import opened Wrappers

  datatype PosType = Square | Shopify | Custom
  datatype IntegrationStatus = Active | Inactive | Error | Syncing
  datatype SyncType = Full | Incremental | ProductSync | InventorySync | PriceSync
  datatype LogStatus = Success | Partial | Failed

  const Unsupported := "POS type not supported yet"
  const UnknownError := "Unknown error"
  const IntegrationMissing := "POSIntegration matching query does not exist."

  /** The dictionary a sync returns: success, and synced_count or error
   *  when present. */
  datatype SyncResult = SyncResult(success: bool, syncedCount: Option<int>, error: Option<string>)

  /** The result perform_pos_sync works with: Square's own sync result,
   *  or a fixed failure for every other POS type. */
  function ResultFor(posType: PosType, squareResult: SyncResult): (r: SyncResult)
    ensures posType == Square ==> r == squareResult
    ensures posType != Square ==> !r.success && r.error == Some(Unsupported)
  {
    if posType == Square then squareResult else SyncResult(false, None, Some(Unsupported))
  }

  /** What a finished sync writes: the log's status, item counts (only on
   *  success) and error message (only on failure), and the integration's
   *  status and last error. */
  datatype Outcome = Outcome(logStatus: LogStatus, items: Option<int>, errorMessage: Option<string>,
                             integrationStatus: IntegrationStatus, lastError: Option<string>)

  function OutcomeOf(r: SyncResult): (o: Outcome)
    ensures o.logStatus == Success <==> r.success
    ensures o.logStatus == Success <==> o.integrationStatus == Active
    ensures o.logStatus != Success ==> o.logStatus == Failed && o.integrationStatus == Error
    ensures r.success ==> o.items == Some(r.syncedCount.GetOr(0)) && o.errorMessage.None? && o.lastError.None?
    ensures !r.success ==> o.items.None? && o.errorMessage == Some(r.error.GetOr(UnknownError)) && o.lastError == r.error
  {
    if r.success then Outcome(Success, Some(r.syncedCount.GetOr(0)), None, Active, None)
    else Outcome(Failed, None, Some(r.error.GetOr(UnknownError)), Error, r.error)
  }

  /** An integration with any POS type but Square always ends in ERROR
   *  with the "not supported" message, whatever Square would have said. */
  lemma {:induction false} UnsupportedAlwaysFails(posType: PosType, squareResult: SyncResult)
    requires posType != Square
    ensures OutcomeOf(ResultFor(posType, squareResult)) ==
      Outcome(Failed, None, Some(Unsupported), Error, Some(Unsupported))
  {
  }

  /** A failed result without an error text leaves "Unknown error" on the
   *  log but no last error on the integration. */
  lemma {:induction false} SilentFailure(r: SyncResult)
    requires !r.success && r.error.None?
    ensures OutcomeOf(r).errorMessage == Some(UnknownError) && OutcomeOf(r).lastError.None?
  {
  }

  class Integration {
    const id: nat
    const posType: PosType
    var status: IntegrationStatus
    var lastSync: Option<int>
    var lastError: Option<string>

    constructor (id: nat, posType: PosType)
      ensures this.id == id && this.posType == posType
      ensures status == Inactive && lastSync.None? && lastError.None?
    {
      this.id := id;
      this.posType := posType;
      status := Inactive;
      lastSync := None;
      lastError := None;
    }
  }

  class SyncLog {
    const id: nat
    const integration: nat
    const syncType: SyncType
    var status: LogStatus
    var startedAt: Option<int>
    var completedAt: Option<int>
    var duration: Option<int>
    var successfulItems: int
    var totalItems: int
    var errorMessage: Option<string>

    /** A log as POSIntegrationService.trigger_sync creates it. */
    constructor (id: nat, integration: nat, syncType: SyncType, startedAt: int)
      ensures this.id == id && this.integration == integration && this.syncType == syncType
      ensures status == Success && this.startedAt == Some(startedAt)
      ensures completedAt.None? && duration.None? && successfulItems == 0 && totalItems == 0 && errorMessage.None?
    {
      this.id := id;
      this.integration := integration;
      this.syncType := syncType;
      status := Success;
      this.startedAt := Some(startedAt);
      completedAt := None;
      duration := None;
      successfulItems := 0;
      totalItems := 0;
      errorMessage := None;
    }
  }

  /** perform_pos_sync. A null integration or log is one the lookup does
   *  not find. Without the integration, the error is written to the log;
   *  without the log nothing changes. Otherwise the sync runs from `start`
   *  to `finish`, and the log and the integration take the outcome of the
   *  result; the integration's last sync is `now`. */
  method PerformPosSync(integration: Integration?, log: SyncLog?, squareResult: SyncResult,
                        start: int, finish: int, now: int)
    modifies integration, log
    ensures integration == null && log != null ==>
      log.status == Failed && log.errorMessage == Some(IntegrationMissing) && log.completedAt == Some(finish)
      && log.startedAt == old(log.startedAt) && log.successfulItems == old(log.successfulItems)
    ensures integration != null && log == null ==>
      integration.status == old(integration.status) && integration.lastSync == old(integration.lastSync)
      && integration.lastError == old(integration.lastError)
    ensures integration != null && log != null ==>
      var o := OutcomeOf(ResultFor(integration.posType, squareResult));
      log.startedAt == Some(start) && log.completedAt == Some(finish) && log.duration == Some(finish - start)
      && log.status == o.logStatus
      && (o.items.Some? ==> log.successfulItems == o.items.value && log.totalItems == o.items.value)
      && (o.items.None? ==> log.successfulItems == old(log.successfulItems) && log.totalItems == old(log.totalItems))
      && (o.errorMessage.Some? ==> log.errorMessage == o.errorMessage)
      && (o.errorMessage.None? ==> log.errorMessage == old(log.errorMessage))
      && integration.lastSync == Some(now) && integration.status == o.integrationStatus
      && integration.lastError == o.lastError
  {
    if integration == null {
      if log != null {
        log.status := Failed;
        log.errorMessage := Some(IntegrationMissing);
        log.completedAt := Some(finish);
      }
      return;
    }
    if log == null {
      return;
    }
    log.startedAt := Some(start);
    var result := if integration.posType == Square then squareResult else SyncResult(false, None, Some(Unsupported));
    log.completedAt := Some(finish);
    log.duration := Some(finish - start);
    if result.success {
      log.status := Success;
      log.successfulItems := result.syncedCount.GetOr(0);
      log.totalItems := result.syncedCount.GetOr(0);
    } else {
      log.status := Failed;
      log.errorMessage := Some(result.error.GetOr(UnknownError));
    }
    integration.lastSync := Some(now);
    integration.status := if result.success then Active else Error;
    integration.lastError := if !result.success then result.error else None;
  }

  // ---------------------------------------------------------------------
  // The periodic job

  /** The fields schedule_auto_syncs reads from an integration row. */
  datatype IntegrationRow = IntegrationRow(id: nat, status: IntegrationStatus, autoSyncEnabled: bool,
                                           syncInterval: int, lastSync: Option<int>)

  /** The sync an integration is due for: none unless it is ACTIVE with
   *  auto-sync on; a FULL sync when it never synced; an INCREMENTAL one
   *  once sync_interval minutes have passed since the last sync. */
  function DueSync(row: IntegrationRow, now: int): (r: Option<SyncType>)
    ensures r.Some? ==> row.status == Active && row.autoSyncEnabled
    ensures r == Some(Full) <==> row.status == Active && row.autoSyncEnabled && row.lastSync.None?
    ensures r == Some(Incremental) <==>
      row.status == Active && row.autoSyncEnabled && row.lastSync.Some? && now - row.lastSync.value >= row.syncInterval * 60
  {
    if !(row.status == Active && row.autoSyncEnabled) then None
    else if row.lastSync.None? then Some(Full)
    else if now - row.lastSync.value >= row.syncInterval * 60 then Some(Incremental)
    else None
  }

  /** A task queued for perform_pos_sync. */
  datatype Task = Task(integration: nat, syncType: SyncType, logId: Option<nat>)

  /** The tasks schedule_auto_syncs queues, in table order: each with no
   *  sync log (None). */
  function AutoTasks(rows: seq<IntegrationRow>, now: int): (r: seq<Task>)
    ensures |r| <= |rows|
  {
    if |rows| == 0 then []
    else
      var prev := AutoTasks(rows[..|rows| - 1], now);
      var row := rows[|rows| - 1];
      match DueSync(row, now)
      case None => prev
      case Some(t) => prev + [Task(row.id, t, None)]
  }

  /** The queued tasks are exactly the due integrations, and none names a
   *  sync log. */
  lemma {:induction false} AutoTasksDue(rows: seq<IntegrationRow>, now: int)
    ensures forall t :: t in AutoTasks(rows, now) ==>
      t.logId.None? && exists row :: row in rows && row.id == t.integration && DueSync(row, now) == Some(t.syncType)
    ensures forall row :: row in rows && DueSync(row, now).Some? ==>
      Task(row.id, DueSync(row, now).value, None) in AutoTasks(rows, now)
  {
    if |rows| > 0 {
      var init := rows[..|rows| - 1];
      AutoTasksDue(init, now);
      assert forall row :: row in init ==> row in rows;
      assert forall row :: row in rows ==> row in init || row == rows[|rows| - 1];
    }
  }

  /** schedule_auto_syncs as written: one task per due integration, all
   *  with None for the sync log id. */
  method ScheduleAutoSyncs(rows: seq<IntegrationRow>, now: int) returns (tasks: seq<Task>)
    ensures tasks == AutoTasks(rows, now)
  {
    tasks := [];
    var i := 0;
    while i < |rows|
      invariant 0 <= i <= |rows|
      invariant tasks == AutoTasks(rows[..i], now)
    {
      assert rows[..i + 1][..i] == rows[..i];
      var row := rows[i];
      if row.status == Active && row.autoSyncEnabled {
        if row.lastSync.Some? {
          if now - row.lastSync.value >= row.syncInterval * 60 {
            tasks := tasks + [Task(row.id, Incremental, None)];
          }
        } else {
          tasks := tasks + [Task(row.id, Full, None)];
        }
      }
      i := i + 1;
    }
    assert rows[..i] == rows;
  }

  /** A queued task run as written: its sync log id is None, which the log
   *  lookup never finds, so the sync never runs and the integration keeps
   *  its state. */
  method RunAutoTaskAsWritten(integration: Integration, squareResult: SyncResult, start: int, finish: int, now: int)
    modifies integration
    ensures integration.status == old(integration.status) && integration.lastSync == old(integration.lastSync)
  {
    PerformPosSync(integration, null, squareResult, start, finish, now);
  }

  /** An integration that never synced is due, yet its task is queued
   *  without a sync log. */
  lemma {:induction false} AutoSyncWithoutLog(id: nat, interval: int, now: int)
    ensures AutoTasks([IntegrationRow(id, Active, true, interval, None)], now) == [Task(id, Full, None)]
  {
    assert [IntegrationRow(id, Active, true, interval, None)][..0] == [];
  }

  /** The tasks when each due integration first gets a sync log, numbered
   *  from `firstLog`, as trigger_sync does for a manual sync. */
  function LoggedTasks(rows: seq<IntegrationRow>, now: int, firstLog: nat): (r: seq<Task>)
    ensures |r| == |AutoTasks(rows, now)|
    ensures forall k :: 0 <= k < |r| ==>
      r[k] == AutoTasks(rows, now)[k].(logId := Some(firstLog + k))
  {
    if |rows| == 0 then []
    else
      var prev := LoggedTasks(rows[..|rows| - 1], now, firstLog);
      var row := rows[|rows| - 1];
      match DueSync(row, now)
      case None => prev
      case Some(t) => prev + [Task(row.id, t, Some(firstLog + |prev|))]
  }

  /** schedule_auto_syncs with a sync log created for each due integration
   *  before its task is queued. The logs are returned with the tasks; each
   *  task names its own log. */
  method ScheduleAutoSyncsWithLogs(rows: seq<IntegrationRow>, now: int, firstLog: nat)
    returns (tasks: seq<Task>, logs: seq<SyncLog>)
    ensures tasks == LoggedTasks(rows, now, firstLog) && |logs| == |tasks|
    ensures forall k :: 0 <= k < |tasks| ==>
      fresh(logs[k]) && logs[k].id == firstLog + k && tasks[k].logId == Some(logs[k].id)
      && logs[k].integration == tasks[k].integration && logs[k].syncType == tasks[k].syncType
      && logs[k].startedAt == Some(now)
  {
    tasks, logs := [], [];
    var i := 0;
    while i < |rows|
      invariant 0 <= i <= |rows|
      invariant tasks == LoggedTasks(rows[..i], now, firstLog) && |logs| == |tasks|
      invariant forall k :: 0 <= k < |tasks| ==>
        fresh(logs[k]) && logs[k].id == firstLog + k && tasks[k].logId == Some(logs[k].id)
        && logs[k].integration == tasks[k].integration && logs[k].syncType == tasks[k].syncType
        && logs[k].startedAt == Some(now)
    {
      assert rows[..i + 1][..i] == rows[..i];
      var row := rows[i];
      var due := DueSync(row, now);
      if due.Some? {
        var log := new SyncLog(firstLog + |tasks|, row.id, due.value, now);
        tasks := tasks + [Task(row.id, due.value, Some(log.id))];
        logs := logs + [log];
      }
      i := i + 1;
    }
    assert rows[..i] == rows;
  }

  /** A queued task with its log runs the sync: the integration takes the
   *  outcome of the result. */
  method RunLoggedTask(integration: Integration, log: SyncLog, squareResult: SyncResult, start: int, finish: int, now: int)
    modifies integration, log
    ensures integration.lastSync == Some(now)
    ensures integration.status == OutcomeOf(ResultFor(integration.posType, squareResult)).integrationStatus
  {
    PerformPosSync(integration, log, squareResult, start, finish, now);
  }
}
