/**
  The task records of the daemon and the effect of every store operation on them, as
  functions on a map from task id to record. The class in TaskStore.dfy is the in-place
  form; TaskInvariants.dfy and TaskRuns.dfy say what these functions keep.
 */
module TaskModel {
  import opened Prelude

  datatype Status = Pending | InProgress | Blocked | Completed | Failed | Cancelled

  datatype StartMode = DefaultStart | FreshStart
  datatype WorkflowMode = Parallel | Serial
  datatype Priority = Low | Normal | High | Urgent

  datatype TaskLog = TaskLog(timestamp: Time, workspace: string, message: string)

  datatype Rollup = Rollup(
    total: int, pending: int, inProgress: int, blocked: int,
    completed: int, failed: int, cancelled: int, terminal: int, active: int,
    lastChildUpdateAt: Option<Time>, allTerminal: bool, needsReconciliation: bool,
    summary: string)

  /** The part of a task that is written once, at creation. */
  datatype Brief = Brief(
    id: string, title: string, description: string, assignee: string, createdBy: string,
    parentId: string, startMode: StartMode, workflowMode: WorkflowMode, priority: Priority,
    staleAfterSeconds: int, dispatchMessage: string, dispatchConfigPath: string, createdAt: Time)

  datatype Task = Task(
    brief: Brief, childIds: seq<string>, version: int, status: Status,
    dispatchCount: int, attemptCount: int,
    lastDispatchAt: Option<Time>, lastAttemptAt: Option<Time>, nextRetryAt: Option<Time>,
    claimedAt: Option<Time>, claimedBy: string, claimSource: string,
    result: string, logs: seq<TaskLog>, rollup: Option<Rollup>,
    removedAt: Option<Time>, removedBy: string, removeReason: string, updatedAt: Time)

  type Tasks = map<string, Task>

  datatype CreateInput = CreateInput(
    title: string, description: string, assignee: string, createdBy: string,
    parentTaskId: string, startMode: StartMode, workflowMode: WorkflowMode, priority: Priority,
    staleAfterSeconds: int, dispatchBody: string, dispatchConfigPath: string)

  /** The text classifiers, which the source implements with regular expressions. */
  datatype TextRules = TextRules(
    concreteEvidence: string -> bool, noopMessage: string -> bool, normalize: string -> string)

  datatype Error =
    | ParentNotFound(parent: string) | ParentRemoved(parent: string)
    | NotFound | Removed
    | UnauthorisedUpdate | UnauthorisedResult | UnauthorisedStatus
    | InvalidTransition(current: Status, next: Status)
    | VersionMismatch(have: int, want: int)
    | UnauthorisedControl | NotRetryable | AlreadyTerminal | NotTerminalForRemove
    | MissingCompletionEvidence | CompletionRequiresConfirmation
    | Persist

  datatype Outcome =
    | Done(task: Task) | Refused(error: Error) | Ignored | Recovered(ids: seq<string>)

  datatype Op =
    | Create(id: string, input: CreateInput)
    | Update(id: string, status: Option<Status>, result: Option<string>, log: Option<string>,
             confirm: Option<bool>, workspace: string)
    | Cancel(id: string, reason: string, workspace: string, expected: Option<int>)
    | Remove(id: string, reason: string, workspace: string, expected: Option<int>)
    | Retry(id: string, note: string, workspace: string, expected: Option<int>)
    | ToolActivity(id: string, who: string, whenAt: Time)
    | Dispatch(id: string, to: string, whenAt: Time)
      // the ids whose assignee answered the session probe with "not running"
    | Recover(dead: set<string>)

  /** One call on the store: the operation, its clock reading, and whether its disk write succeeded. */
  datatype Event = Event(op: Op, now: Time, persistOk: bool)

  datatype Applied = Applied(tasks: Tasks, outcome: Outcome)

  const OPERATOR := "_cli"
  const LEFTOVER_MARKER := "remaining owned dirty files="
  const SUPPRESSION_WINDOW: int := 15 * NANOS
  const EVIDENCE_HINT := "evidence hint"

  // ---------- status machine and validation ----------

  predicate Terminal(s: Status) { s.Completed? || s.Failed? || s.Cancelled? }

  predicate Open(s: Status) { s.Pending? || s.InProgress? || s.Blocked? }

  predicate AllowedTransition(current: Status, next: Status) {
    || current == next
    || match current
       case Pending => !next.Pending?
       case InProgress => !next.InProgress? && !next.Pending?
       case Blocked => !next.Blocked?
       case _ => false
  }

  function StatusLabel(s: Status): string {
    match s
    case Pending => "pending"
    case InProgress => "in_progress"
    case Blocked => "blocked"
    case Completed => "completed"
    case Failed => "failed"
    case Cancelled => "cancelled"
  }

  predicate HasLeftoverDeclaration(result: string) { Contains(result, LEFTOVER_MARKER) }

  function UpdateError(t: Task, op: Op): Option<Error>
    requires op.Update?
  {
    if t.removedAt.Some? then Some(Removed)
    else if op.workspace != t.brief.assignee && op.workspace != t.brief.createdBy then Some(UnauthorisedUpdate)
    else if op.result.Some? && Trim(op.result.value) != ""
         && op.workspace != t.brief.assignee then Some(UnauthorisedResult)
    else if op.status.None? then None
    else if op.workspace != t.brief.assignee && op.status.value != t.status then Some(UnauthorisedStatus)
    else if !AllowedTransition(t.status, op.status.value) then Some(InvalidTransition(t.status, op.status.value))
    else if op.status.value.Completed? && !t.status.Completed? then
      var effective := if op.result.Some? then op.result.value else t.result;
      if !HasLeftoverDeclaration(effective) then Some(MissingCompletionEvidence)
      else if op.confirm != Some(true) then Some(CompletionRequiresConfirmation)
      else None
    else None
  }

  function ControlError(t: Task, workspace: string, expected: Option<int>, allowAssignee: bool): Option<Error> {
    if t.removedAt.Some? then Some(Removed)
    else if expected.Some? && t.version != expected.value then Some(VersionMismatch(t.version, expected.value))
    else if workspace == OPERATOR || workspace == t.brief.createdBy then None
    else if allowAssignee && workspace == t.brief.assignee then None
    else Some(UnauthorisedControl)
  }

  // ---------- claims, retries, logs ----------

  function ClaimSource(status: Option<Status>, result: Option<string>, log: Option<string>): Option<string> {
    if status.Some? then Some("status:" + StatusLabel(status.value))
    else if result.Some? then Some("result")
    else if log.Some? then Some("log")
    else None
  }

  function Claim(t: Task, workspace: string, source: string, now: Time): Task {
    if t.claimedAt.Some? || workspace != t.brief.assignee then t
    else t.(claimedAt := Some(now), claimedBy := workspace, claimSource := source,
            attemptCount := t.attemptCount + 1, lastAttemptAt := Some(now), nextRetryAt := None)
  }

  function Unclaim(t: Task): Task { t.(claimedAt := None, claimedBy := "", claimSource := "") }

  predicate IsDuplicateLog(t: Task, workspace: string, message: string, now: Time, rules: TextRules) {
    var normalized := rules.normalize(message);
    && normalized != "" && rules.noopMessage(normalized) && t.logs != []
    && var last := t.logs[|t.logs| - 1];
       && last.workspace == workspace
       && 0 <= now - last.timestamp <= SUPPRESSION_WINDOW
       && rules.normalize(last.message) == normalized
  }

  function Log(t: Task, workspace: string, message: string, now: Time): Task {
    t.(logs := t.logs + [TaskLog(now, workspace, message)])
  }

  function Bump(t: Task, now: Time): Task { t.(version := t.version + 1, updatedAt := now) }

  // ---------- rollups ----------

  function CountStatus(ids: seq<string>, tasks: Tasks, st: Status): nat {
    if ids == [] then 0 else
      var last := ids[|ids| - 1];
      CountStatus(ids[..|ids| - 1], tasks, st)
      + if last in tasks && tasks[last].status == st then 1 else 0
  }

  function LastUpdate(ids: seq<string>, tasks: Tasks): Option<Time> {
    if ids == [] then None else
      var before := LastUpdate(ids[..|ids| - 1], tasks);
      var last := ids[|ids| - 1];
      if last !in tasks || (before.Some? && tasks[last].updatedAt <= before.value) then before
      else Some(tasks[last].updatedAt)
  }

  function RollupSummary(parent: Task, r: Rollup): string
    requires r.total >= 0 && r.active >= 0 && r.completed >= 0 && r.failed >= 0
    requires r.cancelled >= 0 && r.pending >= 0 && r.inProgress >= 0 && r.blocked >= 0
  {
    "Child rollup: total=" + Decimal(r.total) + " active=" + Decimal(r.active)
    + " completed=" + Decimal(r.completed) + " failed=" + Decimal(r.failed)
    + " cancelled=" + Decimal(r.cancelled) + " pending=" + Decimal(r.pending)
    + " in_progress=" + Decimal(r.inProgress) + " blocked=" + Decimal(r.blocked) + "."
    + if r.needsReconciliation then " All child tasks are terminal; parent reconciliation is still required."
      else if r.allTerminal then " All child tasks are terminal."
      else if parent.status.Pending? then " Parent is waiting on child progress."
      else " Parent remains open while child work is still active."
  }

  /** A recount of the given children: the counters of a rollup, its other fields blank. */
  function Recount(ids: seq<string>, tasks: Tasks): Rollup {
    var completed := CountStatus(ids, tasks, Completed);
    var failed := CountStatus(ids, tasks, Failed);
    var cancelled := CountStatus(ids, tasks, Cancelled);
    var pending := CountStatus(ids, tasks, Pending);
    var inProgress := CountStatus(ids, tasks, InProgress);
    var terminal := completed + failed + cancelled;
    Rollup(|ids|, pending, inProgress, CountStatus(ids, tasks, Blocked), completed, failed, cancelled,
           terminal, pending + inProgress, None, |ids| > 0 && terminal == |ids|, false, "")
  }

  function Summarize(parent: Task, tasks: Tasks): Option<Rollup> {
    if parent.childIds == [] then None else
      var counted := Recount(parent.childIds, tasks);
      var r := counted.(lastChildUpdateAt := LastUpdate(parent.childIds, tasks),
                        needsReconciliation := counted.allTerminal && !Terminal(parent.status));
      Some(r.(summary := RollupSummary(parent, r)))
  }

  predicate ShouldAppendRollupLog(t: Task, message: string) {
    message != "" && (t.logs == [] || t.logs[|t.logs| - 1].message != message)
  }

  /** The parent after its rollup has been replaced; equal when the recount changed nothing. */
  function WithRollup(parent: Task, rollup: Option<Rollup>, now: Time): Task {
    var changed := parent.rollup != rollup;
    if rollup.Some? && ShouldAppendRollupLog(parent, rollup.value.summary) then
      Bump(Log(parent.(rollup := rollup), parent.brief.assignee, rollup.value.summary, now), now)
    else if changed then Bump(parent.(rollup := rollup), now)
    else parent
  }

  function Refresh(tasks: Tasks, parentId: string, now: Time): Tasks {
    var p := Trim(parentId);
    if p == "" || p !in tasks || tasks[p].removedAt.Some? then tasks
    else tasks[p := WithRollup(tasks[p], Summarize(tasks[p], tasks), now)]
  }

  // ---------- operations ----------

  function DispatchMessage(id: string, body: string): string { "Task ID: " + id + "\n\n" + Trim(body) }

  function NewTask(id: string, input: CreateInput, now: Time): Task {
    var body := Trim(input.dispatchBody);
    Task(
      Brief(id, input.title, input.description, input.assignee, input.createdBy,
            Trim(input.parentTaskId), input.startMode, input.workflowMode, input.priority,
            input.staleAfterSeconds, if body == "" then "" else DispatchMessage(id, body),
            Trim(input.dispatchConfigPath), now),
      [], 1, Pending, 0, 0, None, None, None, None, "", "", "", [], None, None, "", "", now)
  }

  function AddChild(parent: Task, id: string, now: Time): Task {
    if id in parent.childIds then parent else Bump(parent.(childIds := parent.childIds + [id]), now)
  }

  function CreateTask(tasks: Tasks, id: string, input: CreateInput, now: Time): (r: (Tasks, Option<Error>)) {
    var t := NewTask(id, input, now);
    var p := t.brief.parentId;
    var inserted := tasks[id := t];
    if p == "" then (inserted, None)
    else if p !in inserted then (inserted - {id}, Some(ParentNotFound(p)))
    else if inserted[p].removedAt.Some? then (inserted - {id}, Some(ParentRemoved(p)))
    else (Refresh(inserted[p := AddChild(inserted[p], id, now)], p, now), None)
  }

  /** The log entries an accepted update appends: the caller's unless suppressed, then the evidence hint. */
  function UpdateLogs(t: Task, op: Op, status: Status, result: string, now: Time, rules: TextRules): seq<TaskLog>
    requires op.Update?
  {
    (if op.log.Some? && !IsDuplicateLog(t, op.workspace, op.log.value, now, rules)
     then [TaskLog(now, op.workspace, op.log.value)] else [])
    + (if status.Completed? && !t.status.Completed? && !rules.concreteEvidence(result)
       then [TaskLog(now, OPERATOR, EVIDENCE_HINT)] else [])
  }

  /** The record after an accepted update, before the version is touched. */
  function Updated(t: Task, op: Op, now: Time, rules: TextRules): Task
    requires op.Update?
  {
    var source := ClaimSource(op.status, op.result, op.log);
    var claimed := if source.Some? then Claim(t, op.workspace, source.value, now) else t;
    var status := if op.status.Some? then op.status.value else t.status;
    var result := if op.result.Some? then op.result.value else t.result;
    var parked := op.status.Some? && (status.Blocked? || Terminal(status));
    claimed.(status := status, result := result,
             nextRetryAt := if parked then None else claimed.nextRetryAt,
             logs := t.logs + UpdateLogs(t, op, status, result, now, rules))
  }

  function CancelText(workspace: string, reason: string): string {
    "Cancelled by " + workspace + if Trim(reason) == "" then "" else ": " + Trim(reason)
  }

  function CancelledTask(t: Task, workspace: string, reason: string, now: Time): Task {
    var message := CancelText(workspace, reason);
    Bump(Log(Claim(t, workspace, "cancel", now).(status := Cancelled, result := message),
             workspace, message, now), now)
  }

  function RemovedTask(t: Task, workspace: string, reason: string, now: Time): Task {
    t.(removedAt := Some(now), removedBy := workspace, removeReason := Trim(reason), version := t.version + 1)
  }

  function RetryText(workspace: string, note: string): string {
    "Recovery action: retry requested by " + workspace + if Trim(note) == "" then "" else ": " + Trim(note)
  }

  function RetriedTask(t: Task, workspace: string, note: string, now: Time): Task {
    Bump(Log(Unclaim(t).(status := Pending, result := "", nextRetryAt := None),
             workspace, RetryText(workspace, note), now), now)
  }

  function RecoveryText(assignee: string): string {
    "Recovery on startup: assignee session " + assignee + " not found; reset in_progress -> pending"
  }

  function RecoveredTask(t: Task, now: Time): Task {
    Bump(Log(Unclaim(t).(status := Pending, nextRetryAt := None), OPERATOR, RecoveryText(t.brief.assignee), now), now)
  }

  function DispatchedTask(t: Task, stamp: Time): Task {
    Bump(t.(dispatchCount := t.dispatchCount + 1, lastDispatchAt := Some(stamp)), stamp)
  }

  /** The tasks a recovery sweep resets, in id order. */
  function RecoveryCandidates(tasks: Tasks, dead: set<string>): seq<string> {
    SortedKeys(set id | id in tasks && tasks[id].removedAt.None? && tasks[id].status.InProgress?
                        && tasks[id].brief.assignee != "" && id in dead)
  }

  function ResetAll(tasks: Tasks, ids: seq<string>, now: Time): Tasks {
    if ids == [] then tasks else
      var before := ResetAll(tasks, ids[..|ids| - 1], now);
      var id := ids[|ids| - 1];
      if id in before then before[id := RecoveredTask(before[id], now)] else before
  }

  function RefreshAll(tasks: Tasks, parents: seq<string>, now: Time): Tasks {
    if parents == [] then tasks else
      Refresh(RefreshAll(tasks, parents[..|parents| - 1], now), parents[|parents| - 1], now)
  }

  /** The non-empty parents of the given tasks, sorted and without repetitions. */
  function ParentsOf(tasks: Tasks, ids: seq<string>): seq<string> {
    SortedKeys((set id | id in ids && id in tasks :: tasks[id].brief.parentId) - {""})
  }

  /** Replace a record and refresh its parent: the tail of update, cancel, remove and retry. */
  function Commit(tasks: Tasks, id: string, t: Task, now: Time): Tasks {
    Refresh(tasks[id := t], t.brief.parentId, now)
  }

  /** A failed disk write is reported, but the change in memory stays. */
  function Committed(tasks: Tasks, id: string, t: Task, now: Time, persistOk: bool): Applied {
    var after := Commit(tasks, id, t, now);
    Applied(after, if persistOk then Done(after[id]) else Refused(Persist))
  }

  function ApplyCreate(tasks: Tasks, e: Event): Applied
    requires e.op.Create?
  {
    var (after, error) := CreateTask(tasks, e.op.id, e.op.input, e.now);
    if error.Some? then Applied(after, Refused(error.value))
    else Applied(after, if e.persistOk then Done(after[e.op.id]) else Refused(Persist))
  }

  function ApplyUpdate(tasks: Tasks, e: Event, rules: TextRules): Applied
    requires e.op.Update?
  {
    var id := e.op.id;
    if id !in tasks then Applied(tasks, Refused(NotFound)) else
      var error := UpdateError(tasks[id], e.op);
      if error.Some? then Applied(tasks, Refused(error.value)) else
        var t := Updated(tasks[id], e.op, e.now, rules);
        if t == tasks[id] then Applied(tasks, Done(t))
        else Committed(tasks, id, Bump(t, e.now), e.now, e.persistOk)
  }

  function ApplyCancel(tasks: Tasks, e: Event): Applied
    requires e.op.Cancel?
  {
    var id := e.op.id;
    if id !in tasks then Applied(tasks, Refused(NotFound)) else
      var error := ControlError(tasks[id], e.op.workspace, e.op.expected, true);
      if error.Some? then Applied(tasks, Refused(error.value))
      else if Terminal(tasks[id].status) then Applied(tasks, Refused(AlreadyTerminal))
      else Committed(tasks, id, CancelledTask(tasks[id], e.op.workspace, e.op.reason, e.now), e.now, e.persistOk)
  }

  function ApplyRemove(tasks: Tasks, e: Event): Applied
    requires e.op.Remove?
  {
    var id := e.op.id;
    if id !in tasks then Applied(tasks, Refused(NotFound)) else
      var error := ControlError(tasks[id], e.op.workspace, e.op.expected, false);
      if error.Some? then Applied(tasks, Refused(error.value))
      else if !Terminal(tasks[id].status) then Applied(tasks, Refused(NotTerminalForRemove))
      else Committed(tasks, id, RemovedTask(tasks[id], e.op.workspace, e.op.reason, e.now), e.now, e.persistOk)
  }

  function ApplyRetry(tasks: Tasks, e: Event): Applied
    requires e.op.Retry?
  {
    var id := e.op.id;
    if id !in tasks then Applied(tasks, Refused(NotFound)) else
      var error := ControlError(tasks[id], e.op.workspace, e.op.expected, true);
      if error.Some? then Applied(tasks, Refused(error.value))
      else if !Open(tasks[id].status) then Applied(tasks, Refused(NotRetryable))
      else Committed(tasks, id, RetriedTask(tasks[id], e.op.workspace, e.op.note, e.now), e.now, e.persistOk)
  }

  function ApplyToolActivity(tasks: Tasks, e: Event): Applied
    requires e.op.ToolActivity?
  {
    var id := e.op.id;
    if id !in tasks || tasks[id].removedAt.Some? || !tasks[id].status.InProgress?
       || tasks[id].brief.assignee != e.op.who
    then Applied(tasks, Ignored) else
      var t := Bump(tasks[id], StampOr(e.op.whenAt, e.now));
      Applied(tasks[id := t], Done(t))
  }

  function ApplyDispatch(tasks: Tasks, e: Event): Applied
    requires e.op.Dispatch?
  {
    var id := e.op.id;
    if id !in tasks || tasks[id].removedAt.Some? || tasks[id].brief.assignee != e.op.to
    then Applied(tasks, Ignored) else
      var t := DispatchedTask(tasks[id], StampOr(e.op.whenAt, e.now));
      Applied(tasks[id := t], Done(t))
  }

  function ApplyRecover(tasks: Tasks, e: Event): Applied
    requires e.op.Recover?
  {
    var ids := RecoveryCandidates(tasks, e.op.dead);
    var reset := ResetAll(tasks, ids, e.now);
    Applied(RefreshAll(reset, ParentsOf(reset, ids), e.now), Recovered(ids))
  }

  /** The effect of one call. */
  function Apply(tasks: Tasks, e: Event, rules: TextRules): Applied {
    match e.op
    case Create(_, _) => ApplyCreate(tasks, e)
    case Update(_, _, _, _, _, _) => ApplyUpdate(tasks, e, rules)
    case Cancel(_, _, _, _) => ApplyCancel(tasks, e)
    case Remove(_, _, _, _) => ApplyRemove(tasks, e)
    case Retry(_, _, _, _) => ApplyRetry(tasks, e)
    case ToolActivity(_, _, _) => ApplyToolActivity(tasks, e)
    case Dispatch(_, _, _) => ApplyDispatch(tasks, e)
    case Recover(_) => ApplyRecover(tasks, e)
  }

  // ---------- selectors ----------

  predicate Runnable(t: Task, assignee: string, now: Time) {
    && t.removedAt.None? && t.brief.assignee == assignee
    && t.status.Pending? && t.lastDispatchAt.Some? && t.claimedAt.None?
    && (t.nextRetryAt.Some? ==> t.nextRetryAt.value <= now)
  }

  /** The tasks to offer again to an assignee, in id order. */
  function RunnableIds(tasks: Tasks, assignee: string, now: Time): seq<string> {
    SortedKeys(set id | id in tasks && Runnable(tasks[id], assignee, now))
  }

  predicate Silent(t: Task, now: Time, threshold: int) {
    t.removedAt.None? && t.status.InProgress? && t.brief.assignee != "" && now - t.updatedAt >= threshold
  }

  /** The tasks in progress without a recent update, in id order. */
  function SilentIds(tasks: Tasks, now: Time, threshold: int): seq<string> {
    SortedKeys(set id | id in tasks && Silent(tasks[id], now, threshold))
  }
}
