/**
  The task store as the daemon runs it: one mutable map of records, changed in place by each
  call. Every method is proved to do exactly what TaskModel.Apply says of its event.
 */
module TaskStoreClass {
  import opened Prelude
  import opened TaskModel

  function RollupEqual(a: Option<Rollup>, b: Option<Rollup>): (same: bool)
    ensures same <==> a == b
  {
    match (a, b)
    case (None, None) => true
    case (Some(x), Some(y)) =>
      && x.total == y.total && x.pending == y.pending && x.inProgress == y.inProgress
      && x.blocked == y.blocked && x.completed == y.completed && x.failed == y.failed
      && x.cancelled == y.cancelled && x.terminal == y.terminal && x.active == y.active
      && x.allTerminal == y.allTerminal && x.needsReconciliation == y.needsReconciliation
      && x.summary == y.summary && x.lastChildUpdateAt == y.lastChildUpdateAt
    case _ => false
  }

  /** One pass over the children, keeping all counters at once. */
  method CountChildren(ids: seq<string>, all: Tasks) returns (r: Rollup, last: Option<Time>)
    ensures r == Recount(ids, all) && last == LastUpdate(ids, all)
  {
    var pending, inProgress, blocked, completed, failed, cancelled := 0, 0, 0, 0, 0, 0;
    var terminal, active := 0, 0;
    last := None;
    for i := 0 to |ids|
      invariant pending == CountStatus(ids[..i], all, Pending)
      invariant inProgress == CountStatus(ids[..i], all, InProgress)
      invariant blocked == CountStatus(ids[..i], all, Blocked)
      invariant completed == CountStatus(ids[..i], all, Completed)
      invariant failed == CountStatus(ids[..i], all, Failed)
      invariant cancelled == CountStatus(ids[..i], all, Cancelled)
      invariant terminal == completed + failed + cancelled && active == pending + inProgress
      invariant last == LastUpdate(ids[..i], all)
    {
      assert ids[..i + 1][..i] == ids[..i];
      if ids[i] in all {
        var child := all[ids[i]];
        match child.status {
          case Pending => pending := pending + 1;
          case InProgress => inProgress := inProgress + 1;
          case Blocked => blocked := blocked + 1;
          case Completed => completed := completed + 1; terminal := terminal + 1;
          case Failed => failed := failed + 1; terminal := terminal + 1;
          case Cancelled => cancelled := cancelled + 1; terminal := terminal + 1;
        }
        if child.status.Pending? || child.status.InProgress? {
          active := active + 1;
        }
        if last.None? || child.updatedAt > last.value {
          last := Some(child.updatedAt);
        }
      }
    }
    assert ids[..|ids|] == ids;
    r := Rollup(|ids|, pending, inProgress, blocked, completed, failed, cancelled, terminal, active,
                None, |ids| > 0 && terminal == |ids|, false, "");
  }

  method SummarizeTaskRollup(parent: Task, all: Tasks) returns (rollup: Option<Rollup>)
    ensures rollup == Summarize(parent, all)
  {
    if parent.childIds == [] {
      return None;
    }
    var r, last := CountChildren(parent.childIds, all);
    r := r.(lastChildUpdateAt := last, needsReconciliation := r.allTerminal && !Terminal(parent.status));
    r := r.(summary := RollupSummary(parent, r));
    rollup := Some(r);
  }

  method ReplaceRollup(before: Task, rollup: Option<Rollup>, now: Time) returns (parent: Task)
    ensures parent == WithRollup(before, rollup, now)
  {
    var changed := !RollupEqual(before.rollup, rollup);
    parent := before.(rollup := rollup);
    if rollup.Some? {
      var summary := rollup.value.summary;
      if summary != "" && ShouldAppendRollupLog(parent, summary) {
        parent := parent.(logs := parent.logs + [TaskLog(now, parent.brief.assignee, summary)]);
        changed := true;
      }
    }
    if changed {
      parent := parent.(version := parent.version + 1, updatedAt := now);
    }
  }

  /** The claim, if this call makes one. */
  method MarkTaskClaimed(before: Task, workspace: string, source: string, now: Time) returns (task: Task, claimed: bool)
    ensures task == Claim(before, workspace, source, now)
    ensures claimed <==> task != before
  {
    task, claimed := before, false;
    if task.claimedAt.None? && workspace == task.brief.assignee {
      task := task.(claimedAt := Some(now), claimedBy := workspace, claimSource := source);
      task := task.(attemptCount := task.attemptCount + 1, lastAttemptAt := Some(now), nextRetryAt := None);
      claimed := true;
    }
  }

  method ResetRecord(before: Task, now: Time) returns (task: Task)
    ensures task == RecoveredTask(before, now)
  {
    task := before.(status := Pending, claimedAt := None, claimedBy := "", claimSource := "");
    task := task.(nextRetryAt := None);
    task := task.(logs := task.logs + [TaskLog(now, OPERATOR, RecoveryText(task.brief.assignee))]);
    task := task.(version := task.version + 1, updatedAt := now);
  }

  /** The logs of an accepted update and whether they grew. */
  method AppendLogs(task: Task, op: Op, status: Status, result: string, now: Time, rules: TextRules)
    returns (logs: seq<TaskLog>, grew: bool)
    requires op.Update?
    ensures logs == task.logs + UpdateLogs(task, op, status, result, now, rules)
    ensures grew <==> logs != task.logs
  {
    logs, grew := task.logs, false;
    if op.log.Some? && !IsDuplicateLog(task, op.workspace, op.log.value, now, rules) {
      logs := logs + [TaskLog(now, op.workspace, op.log.value)];
      grew := true;
    }
    if status.Completed? && !task.status.Completed? && !rules.concreteEvidence(result) {
      logs := logs + [TaskLog(now, OPERATOR, EVIDENCE_HINT)];
      grew := true;
    }
    assert grew <==> |logs| > |task.logs|;
  }

  /** The record part of an update, with the flag that decides whether anything is written. */
  method UpdateRecord(before: Task, op: Op, now: Time, rules: TextRules) returns (task: Task, changed: bool)
    requires op.Update?
    ensures task == Updated(before, op, now, rules)
    ensures changed <==> task != before
  {
    task, changed := before, false;
    var source := ClaimSource(op.status, op.result, op.log);
    if op.workspace == task.brief.assignee && source.Some? {
      task, changed := MarkTaskClaimed(task, op.workspace, source.value, now);
    }
    if op.status.Some? {
      if task.status != op.status.value {
        task := task.(status := op.status.value);
        changed := true;
      }
      if (op.status.value.Blocked? || Terminal(op.status.value)) && task.nextRetryAt.Some? {
        task := task.(nextRetryAt := None);
        changed := true;
      }
    }
    if op.result.Some? && task.result != op.result.value {
      task := task.(result := op.result.value);
      changed := true;
    }
    var logs, grew := AppendLogs(before, op, task.status, task.result, now, rules);
    task := task.(logs := logs);
    changed := changed || grew;
  }

  /** A fresh record for a creation request. */
  method BuildTask(input: CreateInput, id: string, now: Time) returns (task: Task)
    ensures task == NewTask(id, input, now)
  {
    var brief := Brief(
      id, input.title, input.description, input.assignee, input.createdBy, Trim(input.parentTaskId),
      input.startMode, input.workflowMode, input.priority, input.staleAfterSeconds,
      "", Trim(input.dispatchConfigPath), now);
    var body := Trim(input.dispatchBody);
    if body != "" {
      brief := brief.(dispatchMessage := DispatchMessage(id, body));
    }
    task := Task(brief, [], 1, Pending, 0, 0, None, None, None, None, "", "", "", [], None, None, "", "", now);
  }

  /** The parent with the child listed, once. */
  method Adopt(before: Task, id: string, now: Time) returns (parent: Task)
    ensures parent == AddChild(before, id, now)
  {
    parent := before;
    if id !in parent.childIds {
      parent := parent.(childIds := parent.childIds + [id], version := parent.version + 1, updatedAt := now);
    }
  }

  class TaskStore {
    var inner: Tasks
    const rules: TextRules

    constructor (rules: TextRules)
      ensures inner == map[] && this.rules == rules
    {
      inner := map[];
      this.rules := rules;
    }

    method RefreshParentRollup(parentId: string, now: Time)
      modifies this
      ensures inner == Refresh(old(inner), parentId, now)
    {
      var p := Trim(parentId);
      if p == "" || p !in inner {
        return;
      }
      var parent := inner[p];
      if parent.removedAt.Some? {
        return;
      }
      var rollup := SummarizeTaskRollup(parent, inner);
      parent := ReplaceRollup(parent, rollup, now);
      inner := inner[p := parent];
    }

    method Create(input: CreateInput, id: string, now: Time, persistOk: bool) returns (r: Outcome)
      modifies this
      ensures Applied(inner, r) == Apply(old(inner), Event(Op.Create(id, input), now, persistOk), rules)
    {
      var task := BuildTask(input, id, now);
      var parentId := task.brief.parentId;
      inner := inner[id := task];
      if parentId != "" {
        if parentId !in inner {
          inner := inner - {id};
          return Refused(ParentNotFound(parentId));
        }
        if inner[parentId].removedAt.Some? {
          inner := inner - {id};
          return Refused(ParentRemoved(parentId));
        }
        var parent := Adopt(inner[parentId], id, now);
        inner := inner[parentId := parent];
        RefreshParentRollup(parentId, now);
      }
      if !persistOk {
        return Refused(Persist);
      }
      return Done(inner[id]);
    }

    /** Put a changed record back, refresh its parent, and report the outcome of the write. */
    method Store(id: string, task: Task, now: Time, persistOk: bool) returns (r: Outcome)
      modifies this
      ensures Applied(inner, r) == Committed(old(inner), id, task, now, persistOk)
    {
      inner := inner[id := task];
      RefreshParentRollup(task.brief.parentId, now);
      if !persistOk {
        return Refused(Persist);
      }
      return Done(inner[id]);
    }

    method UpdateWithConfirm(id: string, status: Option<Status>, result: Option<string>, log: Option<string>,
                             confirm: Option<bool>, workspace: string, now: Time, persistOk: bool)
      returns (r: Outcome)
      modifies this
      ensures Applied(inner, r)
              == Apply(old(inner), Event(Update(id, status, result, log, confirm, workspace), now, persistOk), rules)
    {
      if id !in inner {
        return Refused(NotFound);
      }
      var op := Update(id, status, result, log, confirm, workspace);
      var error := UpdateError(inner[id], op);
      if error.Some? {
        return Refused(error.value);
      }
      var task, changed := UpdateRecord(inner[id], op, now, rules);
      if changed {
        task := task.(version := task.version + 1, updatedAt := now);
        r := Store(id, task, now, persistOk);
        return;
      }
      return Done(inner[id]);
    }

    method Cancel(id: string, reason: string, workspace: string, expected: Option<int>, now: Time, persistOk: bool)
      returns (r: Outcome)
      modifies this
      ensures Applied(inner, r)
              == Apply(old(inner), Event(Op.Cancel(id, reason, workspace, expected), now, persistOk), rules)
    {
      if id !in inner {
        return Refused(NotFound);
      }
      var task := inner[id];
      var error := ControlError(task, workspace, expected, true);
      if error.Some? {
        return Refused(error.value);
      }
      if Terminal(task.status) {
        return Refused(AlreadyTerminal);
      }
      var message := CancelText(workspace, reason);
      if workspace == task.brief.assignee {
        task := Claim(task, workspace, "cancel", now);
      }
      task := task.(status := Cancelled, result := message);
      task := task.(logs := task.logs + [TaskLog(now, workspace, message)]);
      task := task.(version := task.version + 1, updatedAt := now);
      r := Store(id, task, now, persistOk);
    }

    method Remove(id: string, reason: string, workspace: string, expected: Option<int>, now: Time, persistOk: bool)
      returns (r: Outcome)
      modifies this
      ensures Applied(inner, r)
              == Apply(old(inner), Event(Op.Remove(id, reason, workspace, expected), now, persistOk), rules)
    {
      if id !in inner {
        return Refused(NotFound);
      }
      var task := inner[id];
      var error := ControlError(task, workspace, expected, false);
      if error.Some? {
        return Refused(error.value);
      }
      if !Terminal(task.status) {
        return Refused(NotTerminalForRemove);
      }
      task := task.(removedAt := Some(now), removedBy := workspace, removeReason := Trim(reason));
      task := task.(version := task.version + 1);
      r := Store(id, task, now, persistOk);
    }

    method Retry(id: string, note: string, workspace: string, expected: Option<int>, now: Time, persistOk: bool)
      returns (r: Outcome)
      modifies this
      ensures Applied(inner, r)
              == Apply(old(inner), Event(Op.Retry(id, note, workspace, expected), now, persistOk), rules)
    {
      if id !in inner {
        return Refused(NotFound);
      }
      var task := inner[id];
      var error := ControlError(task, workspace, expected, true);
      if error.Some? {
        return Refused(error.value);
      }
      if !Open(task.status) {
        return Refused(NotRetryable);
      }
      task := task.(status := Pending, result := "");
      task := task.(claimedAt := None, claimedBy := "", claimSource := "");
      task := task.(nextRetryAt := None);
      task := task.(logs := task.logs + [TaskLog(now, workspace, RetryText(workspace, note))]);
      task := task.(version := task.version + 1, updatedAt := now);
      r := Store(id, task, now, persistOk);
    }

    method MarkToolActivity(id: string, who: string, whenAt: Time, now: Time, persistOk: bool) returns (r: Outcome)
      modifies this
      ensures Applied(inner, r) == Apply(old(inner), Event(ToolActivity(id, who, whenAt), now, persistOk), rules)
    {
      if id !in inner {
        return Ignored;
      }
      var task := inner[id];
      if task.removedAt.Some? || !task.status.InProgress? || task.brief.assignee != who {
        return Ignored;
      }
      task := task.(updatedAt := StampOr(whenAt, now), version := task.version + 1);
      inner := inner[id := task];
      return Done(task);
    }

    method RecordDispatch(id: string, to: string, whenAt: Time, now: Time, persistOk: bool) returns (r: Outcome)
      modifies this
      ensures Applied(inner, r) == Apply(old(inner), Event(Dispatch(id, to, whenAt), now, persistOk), rules)
    {
      if id !in inner {
        return Ignored;
      }
      var task := inner[id];
      if task.removedAt.Some? || task.brief.assignee != to {
        return Ignored;
      }
      var stamp := StampOr(whenAt, now);
      task := task.(dispatchCount := task.dispatchCount + 1, lastDispatchAt := Some(stamp));
      task := task.(updatedAt := stamp, version := task.version + 1);
      inner := inner[id := task];
      return Done(task);
    }

    method ResetStale(ids: seq<string>, now: Time)
      modifies this
      ensures inner == ResetAll(old(inner), ids, now)
    {
      for i := 0 to |ids|
        invariant inner == ResetAll(old(inner), ids[..i], now)
      {
        assert ids[..i + 1][..i] == ids[..i];
        if ids[i] in inner {
          var task := ResetRecord(inner[ids[i]], now);
          inner := inner[ids[i] := task];
        }
      }
      assert ids[..|ids|] == ids;
    }

    method RefreshParents(parents: seq<string>, now: Time)
      modifies this
      ensures inner == RefreshAll(old(inner), parents, now)
    {
      for i := 0 to |parents|
        invariant inner == RefreshAll(old(inner), parents[..i], now)
      {
        assert parents[..i + 1][..i] == parents[..i];
        RefreshParentRollup(parents[i], now);
      }
      assert parents[..|parents|] == parents;
    }

    method RecoverStaleInProgress(dead: set<string>, now: Time, persistOk: bool) returns (r: Outcome)
      modifies this
      ensures Applied(inner, r) == Apply(old(inner), Event(Recover(dead), now, persistOk), rules)
    {
      var ids := RecoveryCandidates(inner, dead);
      ResetStale(ids, now);
      var parents := ParentsOf(inner, ids);
      RefreshParents(parents, now);
      r := Recovered(ids);
    }
  }
}
