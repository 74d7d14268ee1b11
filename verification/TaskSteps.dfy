/**
  What a single call on the task store does and keeps: the invariant survives, records only
  evolve, and nothing but the target and its parent moves.
 */
module TaskSteps {
  import opened Prelude
  import opened TaskIds
  import opened TaskModel
  import opened TaskInvariants

  // ---------- one call ----------

  ghost predicate Admissible(tasks: Tasks, e: Event) {
    e.op.Create? ==> Fresh(tasks, e.op.id, e.op.input)
  }

  /** The call got past every check, whether or not its disk write succeeded. */
  predicate Accepted(r: Applied) { r.outcome.Done? || r.outcome == Refused(Persist) }

  lemma NotOwnParent(tasks: Tasks, id: string)
    requires Forest(tasks) && id in tasks
    ensures tasks[id].brief.parentId != id && Trim(tasks[id].brief.parentId) != id
  {
    assert LinkedAt(tasks, id);
    UuidTrims(id);
    ParentTrimmed(tasks, id);
    var rank :| RankOk(tasks, rank);
  }

  /** Nothing but the bookkeeping of a parent differs. */
  ghost predicate OnlyRollup(a: Task, b: Task, now: Time) {
    b == a || b == a.(childIds := b.childIds, rollup := b.rollup, logs := b.logs, version := b.version,
                      updatedAt := now)
  }

  lemma RefreshFrame(tasks: Tasks, p: string, now: Time)
    ensures var after := Refresh(tasks, p, now);
            && after.Keys == tasks.Keys
            && forall x :: x in tasks ==> OnlyRollup(tasks[x], after[x], now) && (x != Trim(p) ==> after[x] == tasks[x])
  {}

  /** A committed record is stored as given; besides it only its parent's bookkeeping moves. */
  lemma CommitFrame(tasks: Tasks, id: string, t: Task, now: Time)
    requires Forest(tasks) && id in tasks && t.brief == tasks[id].brief
    ensures var after := Commit(tasks, id, t, now);
            && after.Keys == tasks.Keys && after[id] == t
            && (forall x :: x in tasks && x != id ==> OnlyRollup(tasks[x], after[x], now))
            && (forall x :: x in tasks && x != id && x != t.brief.parentId ==> after[x] == tasks[x])
  {
    NotOwnParent(tasks, id);
    ParentTrimmed(tasks, id);
    RefreshFrame(tasks[id := t], t.brief.parentId, now);
  }

  lemma UpdatedFits(t: Task, op: Op, now: Time, rules: TextRules)
    requires op.Update? && Sound(t) && UpdateError(t, op).None?
    ensures var u := Bump(Updated(t, op, now, rules), now);
            SameFrame(t, u) && Evolves(t, u) && Sound(u)
  {}

  lemma ControlledFits(t: Task, workspace: string, text: string, now: Time)
    requires Sound(t) && t.removedAt.None?
    ensures Open(t.status) ==>
              var u := CancelledTask(t, workspace, text, now);
              SameFrame(t, u) && Evolves(t, u) && Sound(u)
    ensures Open(t.status) ==>
              var u := RetriedTask(t, workspace, text, now);
              SameFrame(t, u) && Evolves(t, u) && Sound(u)
    ensures Terminal(t.status) ==>
              var u := RemovedTask(t, workspace, text, now);
              SameFrame(t, u) && Evolves(t, u) && Sound(u)
  {}

  lemma ReplaceEvolves(tasks: Tasks, id: string, t: Task)
    requires AllSound(tasks) && id in tasks && Evolves(tasks[id], t) && Sound(t)
    ensures AllSound(tasks[id := t]) && AllEvolve(tasks, tasks[id := t])
  {}

  lemma ReplaceKeeps(tasks: Tasks, id: string, t: Task)
    requires Inv(tasks) && id in tasks
    requires SameFrame(tasks[id], t) && Evolves(tasks[id], t) && Sound(t) && t.status == tasks[id].status
    ensures Inv(tasks[id := t]) && AllEvolve(tasks, tasks[id := t])
  {
    var after := tasks[id := t];
    assert Forest(after) by { ReplaceKeepsForest(tasks, id, t); }
    assert RollupsExcept(after, {}) by { ReplaceKeepsRollups(tasks, id, t, {}); }
    ReplaceEvolves(tasks, id, t);
  }

  /** Every call keeps the invariant, and every record only evolves. */
  ghost predicate StepKept(tasks: Tasks, after: Tasks) { Inv(after) && AllEvolve(tasks, after) }

  lemma UpdateKeeps(tasks: Tasks, e: Event, rules: TextRules)
    requires Inv(tasks) && e.op.Update?
    ensures StepKept(tasks, ApplyUpdate(tasks, e, rules).tasks)
  {
    var id := e.op.id;
    if id in tasks && UpdateError(tasks[id], e.op).None? {
      UpdatedFits(tasks[id], e.op, e.now, rules);
      CommitKeeps(tasks, id, Bump(Updated(tasks[id], e.op, e.now, rules), e.now), e.now);
    }
  }

  lemma CancelKeeps(tasks: Tasks, e: Event)
    requires Inv(tasks) && e.op.Cancel?
    ensures StepKept(tasks, ApplyCancel(tasks, e).tasks)
  {
    var id := e.op.id;
    if id in tasks && ControlError(tasks[id], e.op.workspace, e.op.expected, true).None?
       && !Terminal(tasks[id].status) {
      ControlledFits(tasks[id], e.op.workspace, e.op.reason, e.now);
      CommitKeeps(tasks, id, CancelledTask(tasks[id], e.op.workspace, e.op.reason, e.now), e.now);
    }
  }

  lemma RemoveKeeps(tasks: Tasks, e: Event)
    requires Inv(tasks) && e.op.Remove?
    ensures StepKept(tasks, ApplyRemove(tasks, e).tasks)
  {
    var id := e.op.id;
    if id in tasks && ControlError(tasks[id], e.op.workspace, e.op.expected, false).None?
       && Terminal(tasks[id].status) {
      ControlledFits(tasks[id], e.op.workspace, e.op.reason, e.now);
      CommitKeeps(tasks, id, RemovedTask(tasks[id], e.op.workspace, e.op.reason, e.now), e.now);
    }
  }

  lemma RetryKeeps(tasks: Tasks, e: Event)
    requires Inv(tasks) && e.op.Retry?
    ensures StepKept(tasks, ApplyRetry(tasks, e).tasks)
  {
    var id := e.op.id;
    if id in tasks && ControlError(tasks[id], e.op.workspace, e.op.expected, true).None? && Open(tasks[id].status) {
      ControlledFits(tasks[id], e.op.workspace, e.op.note, e.now);
      CommitKeeps(tasks, id, RetriedTask(tasks[id], e.op.workspace, e.op.note, e.now), e.now);
    }
  }

  lemma TouchKeeps(tasks: Tasks, e: Event)
    requires Inv(tasks)
    ensures e.op.ToolActivity? ==> StepKept(tasks, ApplyToolActivity(tasks, e).tasks)
    ensures e.op.Dispatch? ==> StepKept(tasks, ApplyDispatch(tasks, e).tasks)
  {
    match e.op
    case ToolActivity(id, _, whenAt) =>
      if id in tasks && tasks[id].removedAt.None? {
        ReplaceKeeps(tasks, id, Bump(tasks[id], StampOr(whenAt, e.now)));
      }
    case Dispatch(id, _, whenAt) =>
      if id in tasks && tasks[id].removedAt.None? {
        ReplaceKeeps(tasks, id, DispatchedTask(tasks[id], StampOr(whenAt, e.now)));
      }
    case _ =>
  }

  lemma ApplyKeeps(tasks: Tasks, e: Event, rules: TextRules)
    requires Inv(tasks) && Admissible(tasks, e)
    ensures StepKept(tasks, Apply(tasks, e, rules).tasks)
  {
    match e.op
    case Create(id, input) => CreateKeeps(tasks, id, input, e.now);
    case Update(_, _, _, _, _, _) => UpdateKeeps(tasks, e, rules);
    case Recover(dead) => RecoverKeeps(tasks, RecoveryCandidates(tasks, dead), e.now);
    case Cancel(_, _, _, _) => CancelKeeps(tasks, e);
    case Remove(_, _, _, _) => RemoveKeeps(tasks, e);
    case Retry(_, _, _, _) => RetryKeeps(tasks, e);
    case _ => TouchKeeps(tasks, e);
  }

  // ---------- what a call does to each record ----------

  /** The instant a call writes into `updated_at`. */
  function Stamp(e: Event): Time {
    if e.op.ToolActivity? || e.op.Dispatch? then StampOr(e.op.whenAt, e.now) else e.now
  }

  function Held(t: Task): nat { if t.claimedAt.Some? then 1 else 0 }

  /** Attempts grow with each new claim and with nothing else. */
  ghost predicate Ledger(a: Task, b: Task) {
    b.attemptCount - Held(b) == a.attemptCount - Held(a) + if Held(a) == 1 && Held(b) == 0 then 1 else 0
  }

  ghost predicate ConfirmedBy(a: Task, b: Task, op: Op) {
    && op.Update? && op.id == a.brief.id && op.workspace == a.brief.assignee
    && op.status == Some(Completed) && op.confirm == Some(true)
    && HasLeftoverDeclaration(b.result)
  }

  predicate Counts(a: Task, op: Op) {
    op.Dispatch? && op.id == a.brief.id && a.removedAt.None? && a.brief.assignee == op.to
  }

  ghost predicate RecordStep(a: Task, b: Task, e: Event) {
    && (b.updatedAt == a.updatedAt || b.updatedAt == Stamp(e))
    && Ledger(a, b)
    && (b.status.Completed? && !a.status.Completed? ==> ConfirmedBy(a, b, e.op))
    && b.dispatchCount == a.dispatchCount + (if Counts(a, e.op) then 1 else 0)
  }

  lemma OnlyRollupIsStep(a: Task, b: Task, e: Event)
    requires OnlyRollup(a, b, e.now)
    requires !e.op.Dispatch? && !e.op.ToolActivity?
    ensures RecordStep(a, b, e)
  {}

  lemma CommittedStep(tasks: Tasks, t: Task, e: Event, x: string)
    requires Forest(tasks) && x in tasks && t.brief.id in tasks && t.brief == tasks[t.brief.id].brief
    requires !e.op.Dispatch? && !e.op.ToolActivity?
    requires RecordStep(tasks[t.brief.id], t, e)
    ensures x in Commit(tasks, t.brief.id, t, e.now)
    ensures RecordStep(tasks[x], Commit(tasks, t.brief.id, t, e.now)[x], e)
  {
    CommitFrame(tasks, t.brief.id, t, e.now);
    if x != t.brief.id { OnlyRollupIsStep(tasks[x], Commit(tasks, t.brief.id, t, e.now)[x], e); }
  }

  lemma UpdatedStep(t: Task, e: Event, rules: TextRules)
    requires e.op.Update? && e.op.id == t.brief.id && UpdateError(t, e.op).None?
    ensures RecordStep(t, Bump(Updated(t, e.op, e.now, rules), e.now), e)
  {}

  lemma ControlledStep(t: Task, e: Event, text: string, workspace: string)
    requires e.op.Cancel? || e.op.Remove? || e.op.Retry?
    ensures RecordStep(t, CancelledTask(t, workspace, text, e.now), e)
    ensures RecordStep(t, RemovedTask(t, workspace, text, e.now), e)
    ensures RecordStep(t, RetriedTask(t, workspace, text, e.now), e)
  {}

  /** Nothing was gained: the record is the same, or back to pending without a claim. */
  ghost predicate SweptTo(a: Task, b: Task, now: Time) {
    || b == a
    || (b.status.Pending? && b.claimedAt.None? && b.updatedAt == now
        && b.attemptCount == a.attemptCount && b.dispatchCount == a.dispatchCount)
  }

  predicate IsReset(t: Task) { t.status.Pending? && t.claimedAt.None? && t.nextRetryAt.None? }

  lemma SweptIsStep(a: Task, b: Task, e: Event)
    requires SweptTo(a, b, e.now) && e.op.Recover?
    ensures RecordStep(a, b, e)
  {}

  lemma {:induction false} ResetAllFrame(tasks: Tasks, ids: seq<string>, now: Time)
    ensures var after := ResetAll(tasks, ids, now);
            && after.Keys == tasks.Keys
            && forall x :: x in tasks ==> SweptTo(tasks[x], after[x], now)
                                          && if x in ids then IsReset(after[x]) else after[x] == tasks[x]
  {
    if ids != [] {
      var init := ids[..|ids| - 1];
      ResetAllFrame(tasks, init, now);
      assert forall x :: x in ids <==> x in init || x == ids[|ids| - 1];
    }
  }

  lemma {:induction false} RefreshAllFrame(tasks: Tasks, parents: seq<string>, now: Time)
    ensures var after := RefreshAll(tasks, parents, now);
            after.Keys == tasks.Keys && forall x :: x in tasks ==> OnlyRollup(tasks[x], after[x], now)
  {
    if parents != [] {
      var init := parents[..|parents| - 1];
      RefreshAllFrame(tasks, init, now);
      RefreshFrame(RefreshAll(tasks, init, now), parents[|parents| - 1], now);
    }
  }

  lemma StepThenRollup(a: Task, b: Task, c: Task, e: Event)
    requires RecordStep(a, b, e) && OnlyRollup(b, c, e.now)
    requires !e.op.Dispatch? && !e.op.ToolActivity?
    ensures RecordStep(a, c, e)
  {}

  lemma RecoverStep(tasks: Tasks, e: Event, x: string)
    requires e.op.Recover? && x in tasks
    ensures x in ApplyRecover(tasks, e).tasks && RecordStep(tasks[x], ApplyRecover(tasks, e).tasks[x], e)
  {
    var ids := RecoveryCandidates(tasks, e.op.dead);
    var reset := ResetAll(tasks, ids, e.now);
    assert x in reset && SweptTo(tasks[x], reset[x], e.now) by { ResetAllFrame(tasks, ids, e.now); }
    SweptIsStep(tasks[x], reset[x], e);
    var after := RefreshAll(reset, ParentsOf(reset, ids), e.now);
    assert x in after && OnlyRollup(reset[x], after[x], e.now) by {
      RefreshAllFrame(reset, ParentsOf(reset, ids), e.now);
    }
    StepThenRollup(tasks[x], reset[x], after[x], e);
  }

  lemma AdoptFrame(tasks: Tasks, id: string, t: Task, now: Time)
    requires id !in tasks && t.brief.parentId in tasks && Trim(t.brief.parentId) == t.brief.parentId
    ensures var after := Refresh(Adopted(tasks, id, t, now), t.brief.parentId, now);
            && after.Keys == tasks.Keys + {id} && after[id] == t
            && forall x :: x in tasks ==> OnlyRollup(tasks[x], after[x], now)
  {
    var mid := Adopted(tasks, id, t, now);
    RefreshFrame(mid, t.brief.parentId, now);
    assert forall x :: x in tasks ==> OnlyRollup(tasks[x], mid[x], now);
  }

  /** A refused creation leaves no trace; an accepted one adds one record and tells only its parent. */
  lemma CreateFrame(tasks: Tasks, id: string, input: CreateInput, now: Time)
    requires Forest(tasks) && Fresh(tasks, id, input)
    ensures var r := CreateTask(tasks, id, input, now);
            if r.1.Some? then r.0 == tasks
            else && r.0.Keys == tasks.Keys + {id} && r.0[id] == NewTask(id, input, now)
                 && forall x :: x in tasks ==> OnlyRollup(tasks[x], r.0[x], now)
  {
    var t := NewTask(id, input, now);
    var p := t.brief.parentId;
    if p == "" {
    } else if p !in tasks || tasks[p].removedAt.Some? {
      assert tasks[id := t] - {id} == tasks;
    } else {
      assert LinkedAt(tasks, p);
      UuidTrims(p);
      AdoptFrame(tasks, id, t, now);
    }
  }

  lemma CreateStep(tasks: Tasks, e: Event, x: string)
    requires Forest(tasks) && Admissible(tasks, e) && e.op.Create? && x in tasks
    ensures x in ApplyCreate(tasks, e).tasks && RecordStep(tasks[x], ApplyCreate(tasks, e).tasks[x], e)
  {
    CreateFrame(tasks, e.op.id, e.op.input, e.now);
    OnlyRollupIsStep(tasks[x], CreateTask(tasks, e.op.id, e.op.input, e.now).0[x], e);
  }

  lemma UpdateStep(tasks: Tasks, e: Event, rules: TextRules, x: string)
    requires Forest(tasks) && e.op.Update? && x in tasks
    ensures x in ApplyUpdate(tasks, e, rules).tasks
    ensures RecordStep(tasks[x], ApplyUpdate(tasks, e, rules).tasks[x], e)
  {
    var id := e.op.id;
    if id in tasks && UpdateError(tasks[id], e.op).None? {
      assert LinkedAt(tasks, id);
      UpdatedStep(tasks[id], e, rules);
      CommittedStep(tasks, Bump(Updated(tasks[id], e.op, e.now, rules), e.now), e, x);
    }
  }

  lemma CancelStep(tasks: Tasks, e: Event, x: string)
    requires Forest(tasks) && e.op.Cancel? && x in tasks
    ensures x in ApplyCancel(tasks, e).tasks && RecordStep(tasks[x], ApplyCancel(tasks, e).tasks[x], e)
  {
    if e.op.id in tasks {
      assert LinkedAt(tasks, e.op.id);
      ControlledStep(tasks[e.op.id], e, e.op.reason, e.op.workspace);
      CommittedStep(tasks, CancelledTask(tasks[e.op.id], e.op.workspace, e.op.reason, e.now), e, x);
    }
  }

  lemma RemoveStep(tasks: Tasks, e: Event, x: string)
    requires Forest(tasks) && e.op.Remove? && x in tasks
    ensures x in ApplyRemove(tasks, e).tasks && RecordStep(tasks[x], ApplyRemove(tasks, e).tasks[x], e)
  {
    if e.op.id in tasks {
      assert LinkedAt(tasks, e.op.id);
      ControlledStep(tasks[e.op.id], e, e.op.reason, e.op.workspace);
      CommittedStep(tasks, RemovedTask(tasks[e.op.id], e.op.workspace, e.op.reason, e.now), e, x);
    }
  }

  lemma RetryStep(tasks: Tasks, e: Event, x: string)
    requires Forest(tasks) && e.op.Retry? && x in tasks
    ensures x in ApplyRetry(tasks, e).tasks && RecordStep(tasks[x], ApplyRetry(tasks, e).tasks[x], e)
  {
    if e.op.id in tasks {
      assert LinkedAt(tasks, e.op.id);
      ControlledStep(tasks[e.op.id], e, e.op.note, e.op.workspace);
      CommittedStep(tasks, RetriedTask(tasks[e.op.id], e.op.workspace, e.op.note, e.now), e, x);
    }
  }

  lemma TouchStep(tasks: Tasks, e: Event, x: string)
    requires x in tasks && tasks[x].brief.id == x
    ensures e.op.ToolActivity? ==> RecordStep(tasks[x], ApplyToolActivity(tasks, e).tasks[x], e)
    ensures e.op.Dispatch? ==> RecordStep(tasks[x], ApplyDispatch(tasks, e).tasks[x], e)
  {}

  /** What any call does to any record that existed before it. */
  lemma StepRecords(tasks: Tasks, e: Event, rules: TextRules, x: string)
    requires Forest(tasks) && Admissible(tasks, e) && x in tasks
    ensures x in Apply(tasks, e, rules).tasks
    ensures RecordStep(tasks[x], Apply(tasks, e, rules).tasks[x], e)
  {
    assert tasks[x].brief.id == x by { assert LinkedAt(tasks, x); }
    match e.op
    case Create(_, _) => CreateStep(tasks, e, x);
    case Update(_, _, _, _, _, _) => UpdateStep(tasks, e, rules, x);
    case Cancel(_, _, _, _) => CancelStep(tasks, e, x);
    case Remove(_, _, _, _) => RemoveStep(tasks, e, x);
    case Retry(_, _, _, _) => RetryStep(tasks, e, x);
    case Recover(_) => RecoverStep(tasks, e, x);
    case _ => TouchStep(tasks, e, x);
  }

  lemma CommittedKeys(tasks: Tasks, id: string, t: Task, now: Time, persistOk: bool)
    requires id in tasks
    ensures Committed(tasks, id, t, now, persistOk).tasks.Keys == tasks.Keys
  {
    RefreshFrame(tasks[id := t], t.brief.parentId, now);
  }

  lemma UpdateKeys(tasks: Tasks, e: Event, rules: TextRules)
    requires e.op.Update?
    ensures ApplyUpdate(tasks, e, rules).tasks.Keys == tasks.Keys
  {
    if e.op.id in tasks {
      var t := Bump(Updated(tasks[e.op.id], e.op, e.now, rules), e.now);
      CommittedKeys(tasks, e.op.id, t, e.now, e.persistOk);
    }
  }

  lemma ControlKeys(tasks: Tasks, e: Event)
    ensures e.op.Cancel? ==> ApplyCancel(tasks, e).tasks.Keys == tasks.Keys
    ensures e.op.Remove? ==> ApplyRemove(tasks, e).tasks.Keys == tasks.Keys
    ensures e.op.Retry? ==> ApplyRetry(tasks, e).tasks.Keys == tasks.Keys
  {
    match e.op
    case Cancel(id, reason, w, _) =>
      if id in tasks { CommittedKeys(tasks, id, CancelledTask(tasks[id], w, reason, e.now), e.now, e.persistOk); }
    case Remove(id, reason, w, _) =>
      if id in tasks { CommittedKeys(tasks, id, RemovedTask(tasks[id], w, reason, e.now), e.now, e.persistOk); }
    case Retry(id, note, w, _) =>
      if id in tasks { CommittedKeys(tasks, id, RetriedTask(tasks[id], w, note, e.now), e.now, e.persistOk); }
    case _ =>
  }

  lemma RecoverKeys(tasks: Tasks, e: Event)
    requires e.op.Recover?
    ensures ApplyRecover(tasks, e).tasks.Keys == tasks.Keys
  {
    var ids := RecoveryCandidates(tasks, e.op.dead);
    ResetAllFrame(tasks, ids, e.now);
    RefreshAllFrame(ResetAll(tasks, ids, e.now), ParentsOf(ResetAll(tasks, ids, e.now), ids), e.now);
  }

  /** Records are added by creation alone, as the pending, unclaimed task that was asked for; none ever leaves. */
  lemma NewcomersAreNew(tasks: Tasks, e: Event, rules: TextRules, x: string)
    requires Forest(tasks) && Admissible(tasks, e) && x !in tasks && x in Apply(tasks, e, rules).tasks
    ensures e.op.Create? && e.op.id == x
    ensures Apply(tasks, e, rules).tasks[x] == NewTask(x, e.op.input, e.now)
  {
    match e.op
    case Create(id, input) => CreateFrame(tasks, id, input, e.now);
    case Update(_, _, _, _, _, _) => UpdateKeys(tasks, e, rules);
    case Recover(_) => RecoverKeys(tasks, e);
    case _ => ControlKeys(tasks, e);
  }
}
