/**
  What every call on the task store keeps: the parent and child links form a forest, the
  stored rollup counters equal a recount, claims follow the status, and records only evolve.
 */
module TaskInvariants {
  import opened Prelude
  import opened TaskIds
  import opened TaskModel

  // ---------- the state invariant ----------

  ghost predicate NoDup(s: seq<string>) {
    forall i, j :: 0 <= i < j < |s| ==> s[i] != s[j]
  }

  /** The links of one record agree with the records they point at. */
  ghost predicate LinkedAt(tasks: Tasks, id: string)
    requires id in tasks
  {
    var t := tasks[id];
    && t.brief.id == id && IsUuid(id)
    && (t.brief.parentId != "" ==> t.brief.parentId in tasks && id in tasks[t.brief.parentId].childIds)
    && (forall c :: c in t.childIds ==> c in tasks && tasks[c].brief.parentId == id)
    && NoDup(t.childIds)
  }

  ghost predicate RankOk(tasks: Tasks, rank: map<string, nat>) {
    forall id :: id in tasks ==>
      && id in rank
      && (tasks[id].brief.parentId != "" ==>
            tasks[id].brief.parentId in rank && rank[tasks[id].brief.parentId] < rank[id])
  }

  /** Parent links strictly descend in some ranking, so they have no cycle. */
  ghost predicate Ranked(tasks: Tasks) {
    exists rank: map<string, nat> :: RankOk(tasks, rank)
  }

  ghost predicate Forest(tasks: Tasks) {
    (forall id {:trigger LinkedAt(tasks, id)} :: id in tasks ==> LinkedAt(tasks, id)) && Ranked(tasks)
  }

  /** The counters of a rollup: everything but the three fields no operation keeps current. */
  ghost function Counters(r: Option<Rollup>): Option<Rollup> {
    if r.None? then None
    else Some(r.value.(lastChildUpdateAt := None, needsReconciliation := false, summary := ""))
  }

  /** The stored counters are those of a recount; a task without children has no rollup. */
  ghost predicate CountersMatch(t: Task, tasks: Tasks) {
    Counters(t.rollup) == if t.childIds == [] then None else Some(Recount(t.childIds, tasks))
  }

  ghost predicate RollupAgrees(tasks: Tasks, id: string)
    requires id in tasks
  {
    tasks[id].removedAt.None? ==> CountersMatch(tasks[id], tasks)
  }

  ghost predicate RollupsExcept(tasks: Tasks, stale: set<string>) {
    forall id {:trigger RollupAgrees(tasks, id)} :: id in tasks && id !in stale ==> RollupAgrees(tasks, id)
  }

  /** What holds of each record by itself. */
  ghost predicate Sound(t: Task) {
    && (t.status.InProgress? || t.status.Blocked? || t.status.Completed? || t.status.Failed? ==> t.claimedAt.Some?)
    && (t.claimedAt.Some? ==> t.claimedBy == t.brief.assignee)
    && (t.removedAt.Some? ==> Terminal(t.status))
    && (t.brief.dispatchMessage == "" || "Task ID: " + t.brief.id + "\n\n" <= t.brief.dispatchMessage)
    && t.version >= 1 && t.dispatchCount >= 0 && t.attemptCount >= 0
    && (t.lastDispatchAt.Some? <==> t.dispatchCount > 0)
  }

  ghost predicate AllSound(tasks: Tasks) {
    forall id :: id in tasks ==> Sound(tasks[id])
  }

  ghost predicate Inv(tasks: Tasks) {
    Forest(tasks) && RollupsExcept(tasks, {}) && AllSound(tasks)
  }

  // ---------- what one record may do ----------

  ghost predicate Evolves(a: Task, b: Task) {
    && b.brief == a.brief
    && a.version <= b.version && (a.version == b.version ==> a == b)
    && a.childIds <= b.childIds
    && a.logs <= b.logs
    && (Terminal(a.status) ==> b.status == a.status)
    && (a.removedAt.Some? ==> b == a)
    && a.dispatchCount <= b.dispatchCount
  }

  ghost predicate AllEvolve(s: Tasks, t: Tasks) {
    forall id :: id in s ==> id in t && Evolves(s[id], t[id])
  }

  lemma AllEvolveTransitive(s: Tasks, t: Tasks, u: Tasks)
    requires AllEvolve(s, t) && AllEvolve(t, u)
    ensures AllEvolve(s, u)
  {}

  // ---------- counting ----------

  lemma {:induction false} CountStable(ids: seq<string>, s: Tasks, t: Tasks, st: Status)
    requires forall c :: c in ids ==> (c in s <==> c in t) && (c in s ==> s[c].status == t[c].status)
    ensures CountStatus(ids, s, st) == CountStatus(ids, t, st)
  {
    if ids != [] {
      assert ids[|ids| - 1] in ids;
      CountStable(ids[..|ids| - 1], s, t, st);
    }
  }

  /** Every child is counted under exactly one status. */
  lemma {:induction false} CountsSum(ids: seq<string>, tasks: Tasks)
    requires forall c :: c in ids ==> c in tasks
    ensures CountStatus(ids, tasks, Pending) + CountStatus(ids, tasks, InProgress)
            + CountStatus(ids, tasks, Blocked) + CountStatus(ids, tasks, Completed)
            + CountStatus(ids, tasks, Failed) + CountStatus(ids, tasks, Cancelled) == |ids|
  {
    if ids != [] {
      assert ids[|ids| - 1] in ids;
      CountsSum(ids[..|ids| - 1], tasks);
    }
  }

  lemma RecountStable(ids: seq<string>, s: Tasks, t: Tasks)
    requires forall c :: c in ids ==> (c in s <==> c in t) && (c in s ==> s[c].status == t[c].status)
    ensures Recount(ids, s) == Recount(ids, t)
  {
    CountStable(ids, s, t, Pending);
    CountStable(ids, s, t, InProgress);
    CountStable(ids, s, t, Blocked);
    CountStable(ids, s, t, Completed);
    CountStable(ids, s, t, Failed);
    CountStable(ids, s, t, Cancelled);
  }

  lemma SummarizeMatches(parent: Task, tasks: Tasks, now: Time)
    ensures CountersMatch(WithRollup(parent, Summarize(parent, tasks), now), tasks)
  {}

  // ---------- the two building blocks: replacing a record, refreshing a parent ----------

  /** The replacement keeps what links and rollups are made of. */
  ghost predicate SameFrame(a: Task, b: Task) {
    && b.brief == a.brief && b.childIds == a.childIds && b.rollup == a.rollup
    && (a.removedAt.Some? ==> b.removedAt.Some?)
  }

  lemma ReplaceKeepsForest(tasks: Tasks, id: string, t: Task)
    requires Forest(tasks) && id in tasks
    requires t.brief == tasks[id].brief && t.childIds == tasks[id].childIds
    ensures Forest(tasks[id := t])
  {
    var after := tasks[id := t];
    forall x | x in after ensures LinkedAt(after, x) {
      assert LinkedAt(tasks, x);
    }
    var rank :| RankOk(tasks, rank);
    assert RankOk(after, rank);
  }

  /** Replacing a record can only put its parent's rollup out of date. */
  lemma ReplaceKeepsRollups(tasks: Tasks, id: string, t: Task, stale: set<string>)
    requires Forest(tasks) && id in tasks && SameFrame(tasks[id], t)
    requires RollupsExcept(tasks, stale)
    ensures RollupsExcept(tasks[id := t], stale + {t.brief.parentId})
    ensures t.status == tasks[id].status ==> RollupsExcept(tasks[id := t], stale)
  {
    var after := tasks[id := t];
    forall x | x in after && x !in stale && (x != t.brief.parentId || t.status == tasks[id].status)
      ensures RollupAgrees(after, x)
    {
      assert RollupAgrees(tasks, x);
      assert LinkedAt(tasks, x);
      RecountStable(tasks[x].childIds, tasks, after);
    }
  }

  lemma RefreshKeepsForest(tasks: Tasks, p: string, now: Time)
    requires Forest(tasks)
    ensures Forest(Refresh(tasks, p, now))
  {
    var q := Trim(p);
    if q != "" && q in tasks && tasks[q].removedAt.None? {
      ReplaceKeepsForest(tasks, q, WithRollup(tasks[q], Summarize(tasks[q], tasks), now));
    }
  }

  /** A refresh repairs the one rollup it recomputes and spoils none. */
  lemma RefreshRepairs(tasks: Tasks, p: string, now: Time, stale: set<string>)
    requires Forest(tasks) && RollupsExcept(tasks, stale)
    requires Trim(p) == p
    ensures RollupsExcept(Refresh(tasks, p, now), stale - {p})
  {
    var after := Refresh(tasks, p, now);
    forall x | x in after && x !in stale - {p} ensures RollupAgrees(after, x) {
      if x == p {
        RefreshedAgrees(tasks, p, now);
      } else {
        assert RollupAgrees(tasks, x);
        OthersAgree(tasks, p, now, x);
      }
    }
  }

  lemma RefreshedAgrees(tasks: Tasks, p: string, now: Time)
    requires Forest(tasks) && p in tasks && Trim(p) == p
    ensures RollupAgrees(Refresh(tasks, p, now), p)
  {
    assert LinkedAt(tasks, p);
    UuidTrims(p);
    if tasks[p].removedAt.None? {
      SummarizeMatches(tasks[p], tasks, now);
      RecountStable(tasks[p].childIds, tasks, Refresh(tasks, p, now));
    }
  }

  lemma OthersAgree(tasks: Tasks, p: string, now: Time, x: string)
    requires Forest(tasks) && x in tasks && x != p && Trim(p) == p && RollupAgrees(tasks, x)
    ensures RollupAgrees(Refresh(tasks, p, now), x)
  {
    assert LinkedAt(tasks, x);
    RecountStable(tasks[x].childIds, tasks, Refresh(tasks, p, now));
  }

  lemma RefreshEvolves(tasks: Tasks, p: string, now: Time)
    ensures AllEvolve(tasks, Refresh(tasks, p, now))
    ensures Refresh(tasks, p, now).Keys == tasks.Keys
  {}

  lemma RefreshKeepsSound(tasks: Tasks, p: string, now: Time)
    requires AllSound(tasks)
    ensures AllSound(Refresh(tasks, p, now))
  {}

  /** A parent id as stored is already trimmed. */
  lemma ParentTrimmed(tasks: Tasks, id: string)
    requires Forest(tasks) && id in tasks
    ensures Trim(tasks[id].brief.parentId) == tasks[id].brief.parentId
  {
    var p := tasks[id].brief.parentId;
    assert LinkedAt(tasks, id);
    if p != "" {
      assert LinkedAt(tasks, p);
      UuidTrims(p);
    }
  }

  lemma CommitKeepsForest(tasks: Tasks, id: string, t: Task, now: Time)
    requires Forest(tasks) && RollupsExcept(tasks, {}) && id in tasks && SameFrame(tasks[id], t)
    ensures Forest(Commit(tasks, id, t, now)) && RollupsExcept(Commit(tasks, id, t, now), {})
  {
    var mid := tasks[id := t];
    var p := t.brief.parentId;
    ParentTrimmed(tasks, id);
    ReplaceKeepsForest(tasks, id, t);
    ReplaceKeepsRollups(tasks, id, t, {});
    RefreshKeepsForest(mid, p, now);
    assert {} + {p} == {p};
    RefreshRepairs(mid, p, now, {p});
    assert {p} - {p} == {};
  }

  lemma CommitEvolves(tasks: Tasks, id: string, t: Task, now: Time)
    requires id in tasks && Evolves(tasks[id], t)
    ensures AllEvolve(tasks, Commit(tasks, id, t, now))
  {
    var mid := tasks[id := t];
    assert AllEvolve(tasks, mid);
    RefreshEvolves(mid, t.brief.parentId, now);
    AllEvolveTransitive(tasks, mid, Commit(tasks, id, t, now));
  }

  lemma CommitKeeps(tasks: Tasks, id: string, t: Task, now: Time)
    requires Inv(tasks) && id in tasks
    requires SameFrame(tasks[id], t) && Evolves(tasks[id], t) && Sound(t)
    ensures Inv(Commit(tasks, id, t, now))
    ensures AllEvolve(tasks, Commit(tasks, id, t, now))
  {
    CommitKeepsForest(tasks, id, t, now);
    CommitEvolves(tasks, id, t, now);
    var mid := tasks[id := t];
    assert AllSound(mid);
    RefreshKeepsSound(mid, t.brief.parentId, now);
  }

  // ---------- creation ----------

  /** A freshly generated id occurs neither in the store nor in the request. */
  ghost predicate Fresh(tasks: Tasks, id: string, input: CreateInput) {
    IsUuid(id) && id !in tasks && id != Trim(input.parentTaskId)
  }

  /** The store right after a new record and its parent's link to it have been written. */
  ghost function Adopted(tasks: Tasks, id: string, t: Task, now: Time): Tasks
    requires t.brief.parentId in tasks
  {
    tasks[id := t][t.brief.parentId := AddChild(tasks[t.brief.parentId], id, now)]
  }

  lemma AdoptedLinks(tasks: Tasks, id: string, t: Task, now: Time, x: string)
    requires Forest(tasks) && id !in tasks && IsUuid(id)
    requires t.brief.id == id && t.childIds == [] && t.brief.parentId in tasks
    requires x in Adopted(tasks, id, t, now)
    ensures LinkedAt(Adopted(tasks, id, t, now), x)
  {
    var p := t.brief.parentId;
    var after := Adopted(tasks, id, t, now);
    assert LinkedAt(tasks, p);
    assert id !in tasks[p].childIds;
    assert after[p].childIds == tasks[p].childIds + [id];
    if x == p {
      assert NoDup(after[p].childIds);
    } else if x != id {
      assert LinkedAt(tasks, x);
    }
  }

  lemma AdoptKeepsForest(tasks: Tasks, id: string, t: Task, now: Time)
    requires Forest(tasks) && id !in tasks && IsUuid(id)
    requires t.brief.id == id && t.childIds == [] && t.brief.parentId in tasks
    ensures Forest(Adopted(tasks, id, t, now))
  {
    var after := Adopted(tasks, id, t, now);
    forall x | x in after ensures LinkedAt(after, x) {
      AdoptedLinks(tasks, id, t, now, x);
    }
    var rank :| RankOk(tasks, rank);
    forall x | x in tasks ensures tasks[x].brief.parentId != id {
      assert LinkedAt(tasks, x);
      UuidTrims(id);
    }
    assert RankOk(after, rank[id := rank[t.brief.parentId] + 1]);
  }

  lemma AdoptKeepsRollups(tasks: Tasks, id: string, t: Task, now: Time)
    requires Forest(tasks) && RollupsExcept(tasks, {}) && id !in tasks
    requires t.childIds == [] && t.rollup.None? && t.brief.parentId in tasks
    ensures RollupsExcept(Adopted(tasks, id, t, now), {t.brief.parentId})
  {
    var p := t.brief.parentId;
    var after := Adopted(tasks, id, t, now);
    forall x | x in after && x != p ensures RollupAgrees(after, x) {
      if x != id {
        assert RollupAgrees(tasks, x) && LinkedAt(tasks, x);
        RecountStable(tasks[x].childIds, tasks, after);
      }
    }
  }

  lemma RootKeeps(tasks: Tasks, id: string, t: Task)
    requires Inv(tasks) && id !in tasks && IsUuid(id)
    requires t.brief.id == id && t.childIds == [] && t.rollup.None? && t.brief.parentId == "" && Sound(t)
    ensures Inv(tasks[id := t]) && AllEvolve(tasks, tasks[id := t])
  {
    var after := tasks[id := t];
    forall x | x in after ensures LinkedAt(after, x) && RollupAgrees(after, x) {
      if x != id {
        assert LinkedAt(tasks, x) && RollupAgrees(tasks, x);
        RecountStable(tasks[x].childIds, tasks, after);
      }
    }
    var rank :| RankOk(tasks, rank);
    assert RankOk(after, rank[id := 0]) by {
      forall x | x in tasks ensures tasks[x].brief.parentId != id {
        assert LinkedAt(tasks, x);
      }
    }
  }

  lemma NewTaskSound(id: string, input: CreateInput, now: Time)
    ensures Sound(NewTask(id, input, now))
  {}

  lemma CreateKeeps(tasks: Tasks, id: string, input: CreateInput, now: Time)
    requires Inv(tasks) && Fresh(tasks, id, input)
    ensures Inv(CreateTask(tasks, id, input, now).0)
    ensures AllEvolve(tasks, CreateTask(tasks, id, input, now).0)
    ensures CreateTask(tasks, id, input, now).1.Some? ==> CreateTask(tasks, id, input, now).0 == tasks
  {
    var t := NewTask(id, input, now);
    var p := t.brief.parentId;
    NewTaskSound(id, input, now);
    if p == "" {
      RootKeeps(tasks, id, t);
    } else if p !in tasks || tasks[p].removedAt.Some? {
      assert tasks[id := t] - {id} == tasks;
    } else {
      var mid := Adopted(tasks, id, t, now);
      AdoptKeepsForest(tasks, id, t, now);
      AdoptKeepsRollups(tasks, id, t, now);
      assert LinkedAt(tasks, p);
      UuidTrims(p);
      RefreshKeepsForest(mid, p, now);
      RefreshRepairs(mid, p, now, {p});
      assert {p} - {p} == {};
      AdoptKeepsRecords(tasks, id, t, now);
      RefreshKeepsSound(mid, p, now);
      RefreshEvolves(mid, p, now);
      AllEvolveTransitive(tasks, mid, Refresh(mid, p, now));
    }
  }

  lemma AdoptKeepsRecords(tasks: Tasks, id: string, t: Task, now: Time)
    requires AllSound(tasks) && Sound(t) && id !in tasks && t.brief.parentId in tasks
    requires tasks[t.brief.parentId].removedAt.None?
    ensures AllSound(Adopted(tasks, id, t, now)) && AllEvolve(tasks, Adopted(tasks, id, t, now))
  {}

  // ---------- recovery ----------

  ghost function ParentSet(tasks: Tasks, ids: seq<string>): set<string> {
    set id | id in ids && id in tasks :: tasks[id].brief.parentId
  }

  lemma RecoveredFits(t: Task, now: Time)
    requires Sound(t) && t.removedAt.None? && !Terminal(t.status)
    ensures SameFrame(t, RecoveredTask(t, now)) && Evolves(t, RecoveredTask(t, now)) && Sound(RecoveredTask(t, now))
  {}

  ghost predicate Resettable(tasks: Tasks, ids: seq<string>) {
    forall x :: x in ids ==> x in tasks && tasks[x].removedAt.None? && !Terminal(tasks[x].status)
  }

  /** Still resettable if it was, and evolved to a sound record. */
  ghost predicate ResetFine(a: Task, b: Task) {
    && Evolves(a, b) && Sound(b)
    && b.removedAt == a.removedAt && (Terminal(b.status) <==> Terminal(a.status))
  }

  lemma ResetFineStep(a: Task, b: Task, now: Time)
    requires ResetFine(a, b) && a.removedAt.None? && !Terminal(a.status)
    ensures ResetFine(a, RecoveredTask(b, now))
  {}

  lemma {:induction false} ResetAllFine(tasks: Tasks, ids: seq<string>, now: Time)
    requires AllSound(tasks) && Resettable(tasks, ids)
    ensures ResetAll(tasks, ids, now).Keys == tasks.Keys
    ensures forall x :: x in tasks ==> ResetFine(tasks[x], ResetAll(tasks, ids, now)[x])
  {
    if ids != [] {
      var id := ids[|ids| - 1];
      assert id in ids;
      ResetAllFine(tasks, ids[..|ids| - 1], now);
      ResetFineStep(tasks[id], ResetAll(tasks, ids[..|ids| - 1], now)[id], now);
    }
  }

  lemma ResetAllEvolves(tasks: Tasks, ids: seq<string>, now: Time)
    requires AllSound(tasks) && Resettable(tasks, ids)
    ensures var after := ResetAll(tasks, ids, now);
            && after.Keys == tasks.Keys
            && AllSound(after) && AllEvolve(tasks, after)
            && forall x :: x in tasks ==> after[x].removedAt == tasks[x].removedAt
                                          && Terminal(after[x].status) == Terminal(tasks[x].status)
  {
    ResetAllFine(tasks, ids, now);
  }

  lemma ParentSetSnoc(tasks: Tasks, ids: seq<string>, id: string)
    requires id in tasks
    ensures ParentSet(tasks, ids + [id]) == ParentSet(tasks, ids) + {tasks[id].brief.parentId}
  {}

  lemma ResetKeepsForest(tasks: Tasks, id: string, now: Time, stale: set<string>)
    requires Forest(tasks) && RollupsExcept(tasks, stale)
    requires id in tasks && Sound(tasks[id]) && tasks[id].removedAt.None? && !Terminal(tasks[id].status)
    ensures var after := tasks[id := RecoveredTask(tasks[id], now)];
            Forest(after) && RollupsExcept(after, stale + {tasks[id].brief.parentId})
  {
    var t := RecoveredTask(tasks[id], now);
    RecoveredFits(tasks[id], now);
    ReplaceKeepsForest(tasks, id, t);
    ReplaceKeepsRollups(tasks, id, t, stale);
  }

  lemma {:induction false} ResetAllKeepsForest(tasks: Tasks, ids: seq<string>, now: Time)
    requires Inv(tasks) && Resettable(tasks, ids)
    ensures Forest(ResetAll(tasks, ids, now))
    ensures RollupsExcept(ResetAll(tasks, ids, now), ParentSet(tasks, ids))
  {
    if ids != [] {
      var init := ids[..|ids| - 1];
      var id := ids[|ids| - 1];
      assert id in ids && ids == init + [id];
      ResetAllKeepsForest(tasks, init, now);
      ResetAllEvolves(tasks, init, now);
      ResetKeepsForest(ResetAll(tasks, init, now), id, now, ParentSet(tasks, init));
      ParentSetSnoc(tasks, init, id);
    }
  }

  lemma {:induction false} RefreshAllRepairs(tasks: Tasks, parents: seq<string>, now: Time, stale: set<string>)
    requires Forest(tasks) && AllSound(tasks) && RollupsExcept(tasks, stale)
    requires forall p :: p in parents ==> Trim(p) == p
    ensures var after := RefreshAll(tasks, parents, now);
            && Forest(after) && AllSound(after)
            && RollupsExcept(after, stale - (set p | p in parents))
            && AllEvolve(tasks, after)
  {
    if parents == [] {
      assert stale - (set p | p in parents) == stale;
    } else {
      var init := parents[..|parents| - 1];
      var p := parents[|parents| - 1];
      assert p in parents && parents == init + [p];
      RefreshAllRepairs(tasks, init, now, stale);
      var before := RefreshAll(tasks, init, now);
      RefreshKeepsForest(before, p, now);
      RefreshKeepsSound(before, p, now);
      RefreshRepairs(before, p, now, stale - (set q | q in init));
      assert stale - (set q | q in init) - {p} == stale - (set q | q in parents);
      RefreshEvolves(before, p, now);
      AllEvolveTransitive(tasks, before, Refresh(before, p, now));
    }
  }

  lemma ParentsOfCovers(tasks: Tasks, ids: seq<string>, now: Time)
    requires Inv(tasks) && Resettable(tasks, ids)
    ensures var parents := ParentsOf(ResetAll(tasks, ids, now), ids);
            && ParentSet(tasks, ids) - (set p | p in parents) <= {""}
            && forall p :: p in parents ==> Trim(p) == p
  {
    ResetAllEvolves(tasks, ids, now);
    var reset := ResetAll(tasks, ids, now);
    forall id | id in ids ensures reset[id].brief == tasks[id].brief {
      assert Evolves(tasks[id], reset[id]);
    }
    forall p | p in ParentsOf(reset, ids) ensures Trim(p) == p {
      var id :| id in ids && id in reset && reset[id].brief.parentId == p;
      ParentTrimmed(tasks, id);
    }
  }

  lemma RecoverKeeps(tasks: Tasks, ids: seq<string>, now: Time)
    requires Inv(tasks) && Resettable(tasks, ids)
    ensures var reset := ResetAll(tasks, ids, now);
            var after := RefreshAll(reset, ParentsOf(reset, ids), now);
            Inv(after) && AllEvolve(tasks, after)
  {
    ResetAllEvolves(tasks, ids, now);
    ResetAllKeepsForest(tasks, ids, now);
    ParentsOfCovers(tasks, ids, now);
    var reset := ResetAll(tasks, ids, now);
    var parents := ParentsOf(reset, ids);
    RefreshAllRepairs(reset, parents, now, ParentSet(tasks, ids));
    var after := RefreshAll(reset, parents, now);
    forall x | x in after ensures RollupAgrees(after, x) {
      assert LinkedAt(after, x);
      UuidTrims(x);
    }
    AllEvolveTransitive(tasks, reset, after);
  }
}
