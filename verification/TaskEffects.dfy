/**
  What an accepted call brings about and when a call is accepted, told without reference
  to the order in which the store checks and edits things.
 */
module TaskEffects {
  import opened Prelude
  import opened TaskModel
  import opened TaskInvariants
  import opened TaskSteps

  /** Who may update a task, and to what. */
  ghost predicate MayUpdate(t: Task, op: Op)
    requires op.Update?
  {
    && t.removedAt.None?
    && (|| op.workspace == t.brief.assignee
        || (op.workspace == t.brief.createdBy
            && (op.status.None? || op.status == Some(t.status))
            && (op.result.None? || Trim(op.result.value) == "")))
    && (op.status.Some? && op.status.value != t.status ==>
          !Terminal(t.status) && !(t.status.InProgress? && op.status.value.Pending?))
    && (op.status == Some(Completed) && !t.status.Completed? ==>
          && op.confirm == Some(true)
          && HasLeftoverDeclaration(if op.result.Some? then op.result.value else t.result))
  }

  /** Who may cancel, retry (`assigneeToo`) or remove a task, and against which version. */
  ghost predicate MayControl(t: Task, workspace: string, expected: Option<int>, assigneeToo: bool) {
    && t.removedAt.None?
    && (expected.None? || expected.value == t.version)
    && (workspace == "_cli" || workspace == t.brief.createdBy || (assigneeToo && workspace == t.brief.assignee))
  }

  /** An update is accepted exactly when it is allowed; otherwise nothing changes. */
  lemma UpdateAcceptedIff(tasks: Tasks, e: Event, rules: TextRules)
    requires e.op.Update?
    ensures Accepted(Apply(tasks, e, rules)) <==> e.op.id in tasks && MayUpdate(tasks[e.op.id], e.op)
    ensures !Accepted(Apply(tasks, e, rules)) ==> Apply(tasks, e, rules).tasks == tasks
  {
    if e.op.id in tasks {
      assert UpdateError(tasks[e.op.id], e.op).None? <==> MayUpdate(tasks[e.op.id], e.op);
      assert UpdateError(tasks[e.op.id], e.op) != Some(Persist);
    }
  }

  /** The requested fields are set, the rest of the record stands, and the version tells whether it moved. */
  ghost predicate UpdateDone(a: Task, b: Task, op: Op, now: Time)
    requires op.Update?
  {
    && b.status == (if op.status.Some? then op.status.value else a.status)
    && b.result == (if op.result.Some? then op.result.value else a.result)
    && a.logs <= b.logs && |b.logs| <= |a.logs| + 2
    && (forall k :: |a.logs| <= k < |b.logs| ==>
          b.logs[k] == TaskLog(now, OPERATOR, EVIDENCE_HINT)
          || (op.log.Some? && b.logs[k] == TaskLog(now, op.workspace, op.log.value)))
    && (op.workspace == a.brief.assignee && (op.status.Some? || op.result.Some? || op.log.Some?) ==> b.claimedAt.Some?)
    && (b.claimedAt == a.claimedAt || (a.claimedAt.None? && b.claimedAt == Some(now) && b.claimedBy == op.workspace))
    && (op.status.Some? && (Terminal(op.status.value) || op.status.value.Blocked?) ==> b.nextRetryAt.None?)
    && b == a.(status := b.status, result := b.result, logs := b.logs, version := b.version, updatedAt := b.updatedAt,
               claimedAt := b.claimedAt, claimedBy := b.claimedBy, claimSource := b.claimSource,
               attemptCount := b.attemptCount, lastAttemptAt := b.lastAttemptAt, nextRetryAt := b.nextRetryAt)
    && (b == a || (b.version == a.version + 1 && b.updatedAt == now))
  }

  lemma UpdatedDone(t: Task, op: Op, now: Time, rules: TextRules)
    requires op.Update?
    ensures var u := Updated(t, op, now, rules);
            UpdateDone(t, if u == t then t else Bump(u, now), op, now)
  {}

  lemma UpdateTakesEffect(tasks: Tasks, e: Event, rules: TextRules)
    requires Forest(tasks) && e.op.Update? && Accepted(Apply(tasks, e, rules))
    ensures var after := Apply(tasks, e, rules).tasks;
            && e.op.id in tasks && e.op.id in after
            && UpdateDone(tasks[e.op.id], after[e.op.id], e.op, e.now)
            && (Apply(tasks, e, rules).outcome.Done? ==> Apply(tasks, e, rules).outcome.task == after[e.op.id])
  {
    var id := e.op.id;
    var t := Updated(tasks[id], e.op, e.now, rules);
    UpdatedDone(tasks[id], e.op, e.now, rules);
    CommitFrame(tasks, id, Bump(t, e.now), e.now);
  }

  lemma ControlAcceptedIff(tasks: Tasks, e: Event, rules: TextRules)
    requires e.op.Cancel? || e.op.Remove? || e.op.Retry?
    ensures Accepted(Apply(tasks, e, rules)) <==>
              && e.op.id in tasks
              && MayControl(tasks[e.op.id], e.op.workspace, e.op.expected, !e.op.Remove?)
              && (Terminal(tasks[e.op.id].status) <==> e.op.Remove?)
    ensures !Accepted(Apply(tasks, e, rules)) ==> Apply(tasks, e, rules).tasks == tasks
  {
    if e.op.id in tasks {
      var t := tasks[e.op.id];
      assert ControlError(t, e.op.workspace, e.op.expected, !e.op.Remove?).None?
        <==> MayControl(t, e.op.workspace, e.op.expected, !e.op.Remove?);
      assert ControlError(t, e.op.workspace, e.op.expected, !e.op.Remove?) != Some(Persist);
    }
  }

  /** Cancelling and retrying both leave one log entry; a retry also gives the claim back. */
  ghost predicate ControlDone(a: Task, b: Task, op: Op, now: Time)
    requires op.Cancel? || op.Remove? || op.Retry?
  {
    && b.version == a.version + 1
    && match op
       case Cancel(_, reason, workspace, _) =>
         && b.status.Cancelled? && |b.logs| == |a.logs| + 1 && a.logs <= b.logs
         && b.logs[|a.logs|] == TaskLog(now, workspace, b.result) && "Cancelled by " + workspace <= b.result
         && (a.claimedAt.Some? || workspace == a.brief.assignee <==> b.claimedAt.Some?)
         && b.updatedAt == now
       case Remove(_, reason, workspace, _) =>
         b == a.(removedAt := Some(now), removedBy := workspace, removeReason := Trim(reason), version := b.version)
       case Retry(_, note, workspace, _) =>
         && b.status.Pending? && b.result == "" && b.claimedAt.None? && b.nextRetryAt.None?
         && |b.logs| == |a.logs| + 1 && a.logs <= b.logs
         && b.logs[|a.logs|].timestamp == now && b.logs[|a.logs|].workspace == workspace
         && b.attemptCount == a.attemptCount && b.updatedAt == now
       case _ => true
  }

  lemma ControlTakesEffect(tasks: Tasks, e: Event, rules: TextRules)
    requires Forest(tasks) && (e.op.Cancel? || e.op.Remove? || e.op.Retry?) && Accepted(Apply(tasks, e, rules))
    ensures var after := Apply(tasks, e, rules).tasks;
            && e.op.id in tasks && e.op.id in after
            && ControlDone(tasks[e.op.id], after[e.op.id], e.op, e.now)
            && forall x :: x in tasks && x != e.op.id && x != tasks[e.op.id].brief.parentId ==>
                 x in after && after[x] == tasks[x]
  {
    ControlAcceptedIff(tasks, e, rules);
    var t := tasks[e.op.id];
    match e.op
    case Cancel(id, reason, workspace, _) => CommitFrame(tasks, id, CancelledTask(t, workspace, reason, e.now), e.now);
    case Remove(id, reason, workspace, _) => CommitFrame(tasks, id, RemovedTask(t, workspace, reason, e.now), e.now);
    case Retry(id, note, workspace, _) => CommitFrame(tasks, id, RetriedTask(t, workspace, note, e.now), e.now);
  }

  lemma SweptRecord(tasks: Tasks, ids: seq<string>, parents: seq<string>, now: Time, x: string)
    requires x in tasks
    ensures var after := RefreshAll(ResetAll(tasks, ids, now), parents, now);
            x in after && if x in ids then IsReset(after[x]) else OnlyRollup(tasks[x], after[x], now)
  {
    ResetAllFrame(tasks, ids, now);
    RefreshAllFrame(ResetAll(tasks, ids, now), parents, now);
  }

  predicate Strands(t: Task, x: string, dead: set<string>) {
    t.removedAt.None? && t.status.InProgress? && t.brief.assignee != "" && x in dead
  }

  lemma CandidateIff(tasks: Tasks, dead: set<string>, x: string)
    requires x in tasks
    ensures x in RecoveryCandidates(tasks, dead) <==> Strands(tasks[x], x, dead)
  {}

  lemma RecoverRecord(tasks: Tasks, e: Event, x: string)
    requires e.op.Recover? && x in tasks
    ensures var after := ApplyRecover(tasks, e).tasks;
            x in after && if x in RecoveryCandidates(tasks, e.op.dead) then IsReset(after[x])
                          else OnlyRollup(tasks[x], after[x], e.now)
  {
    var ids := RecoveryCandidates(tasks, e.op.dead);
    SweptRecord(tasks, ids, ParentsOf(ResetAll(tasks, ids, e.now), ids), e.now, x);
  }

  /** A recovery sweep resets exactly the in-progress tasks whose assignee is set and not running. */
  lemma RecoverTakesEffect(tasks: Tasks, e: Event, rules: TextRules, x: string)
    requires e.op.Recover? && x in tasks
    ensures var after := Apply(tasks, e, rules).tasks;
            && x in after
            && if Strands(tasks[x], x, e.op.dead) then IsReset(after[x])
               else OnlyRollup(tasks[x], after[x], e.now)
  {
    CandidateIff(tasks, e.op.dead, x);
    RecoverRecord(tasks, e, x);
  }
}
