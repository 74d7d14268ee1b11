/**
  Laws of the task store over whole runs that start from an empty store: versions identify
  content, rollups agree with a recount, claims are accounted for, terminal and removed
  states are final, and completion is always an explicit act of the assignee.
 */
module TaskRuns {
  import opened Prelude
  import opened TaskIds
  import opened TaskModel
  import opened TaskInvariants
  import opened TaskSteps

  /** `states[i + 1]` is the store after `events[i]`; ids are fresh, disk writes may fail. */
  ghost predicate IsRun(states: seq<Tasks>, events: seq<Event>, rules: TextRules) {
    && |states| == |events| + 1
    && states[0] == map[]
    && forall i :: 0 <= i < |events| ==>
         Admissible(states[i], events[i]) && states[i + 1] == Apply(states[i], events[i], rules).tasks
  }

  lemma {:induction false} RunInvariant(states: seq<Tasks>, events: seq<Event>, rules: TextRules, n: nat)
    requires IsRun(states, events, rules) && n < |states|
    ensures Inv(states[n])
  {
    if n == 0 {
      assert RankOk(states[0], map[]);
    } else {
      RunInvariant(states, events, rules, n - 1);
      ApplyKeeps(states[n - 1], events[n - 1], rules);
    }
  }

  lemma {:induction false} RunEvolves(states: seq<Tasks>, events: seq<Event>, rules: TextRules, i: nat, j: nat)
    requires IsRun(states, events, rules) && i <= j < |states|
    ensures AllEvolve(states[i], states[j])
  {
    if i < j {
      RunEvolves(states, events, rules, i, j - 1);
      RunInvariant(states, events, rules, j - 1);
      ApplyKeeps(states[j - 1], events[j - 1], rules);
      AllEvolveTransitive(states[i], states[j - 1], states[j]);
    }
  }

  // ---------- versions ----------

  /** Versions never decrease, and two moments with the same version hold the same record. */
  lemma VersionIdentifiesContent(states: seq<Tasks>, events: seq<Event>, rules: TextRules, i: nat, j: nat, id: string)
    requires IsRun(states, events, rules) && i <= j < |states|
    requires id in states[i]
    ensures id in states[j] && states[i][id].version <= states[j][id].version
    ensures states[i][id].version == states[j][id].version <==> states[i][id] == states[j][id]
  {
    RunEvolves(states, events, rules, i, j);
  }

  /** A control call that names the version its caller read acts on exactly the record the caller read. */
  lemma ExpectedVersionGuards(states: seq<Tasks>, events: seq<Event>, rules: TextRules, i: nat, j: nat)
    requires IsRun(states, events, rules) && i <= j < |events|
    requires events[j].op.Cancel? || events[j].op.Remove? || events[j].op.Retry?
    requires events[j].op.id in states[i]
    requires events[j].op.expected == Some(states[i][events[j].op.id].version)
    requires Accepted(Apply(states[j], events[j], rules))
    ensures states[j][events[j].op.id] == states[i][events[j].op.id]
  {
    VersionIdentifiesContent(states, events, rules, i, j, events[j].op.id);
  }

  // ---------- links and rollups ----------

  /** The n-th ancestor of a task; none past the root. */
  function Ancestor(tasks: Tasks, id: string, n: nat): Option<string>
    decreases n
  {
    if id !in tasks then None
    else if n == 0 then Some(id)
    else Ancestor(tasks, tasks[id].brief.parentId, n - 1)
  }

  lemma {:induction false} AncestorsDescend(tasks: Tasks, rank: map<string, nat>, id: string, n: nat)
    requires Forest(tasks) && RankOk(tasks, rank) && id in tasks
    ensures Ancestor(tasks, id, n).Some? ==>
              && Ancestor(tasks, id, n).value in tasks
              && rank[Ancestor(tasks, id, n).value] + n <= rank[id]
    decreases n
  {
    if n > 0 {
      var p := tasks[id].brief.parentId;
      assert LinkedAt(tasks, id);
      if p in tasks {
        assert LinkedAt(tasks, p);
        UuidTrims(p);
        AncestorsDescend(tasks, rank, p, n - 1);
      }
    }
  }

  /** No task is its own ancestor, and every ancestor chain ends. */
  lemma ForestIsAcyclic(tasks: Tasks, id: string)
    requires Forest(tasks) && id in tasks
    ensures forall n: nat :: n > 0 ==> Ancestor(tasks, id, n) != Some(id)
    ensures exists n: nat :: Ancestor(tasks, id, n).None?
  {
    var rank :| RankOk(tasks, rank);
    forall n: nat | n > 0 ensures Ancestor(tasks, id, n) != Some(id) {
      AncestorsDescend(tasks, rank, id, n);
    }
    AncestorsDescend(tasks, rank, id, rank[id] + 1);
  }

  ghost predicate CountersTell(r: Rollup, ids: seq<string>, tasks: Tasks) {
    && r.pending == CountStatus(ids, tasks, Pending)
    && r.inProgress == CountStatus(ids, tasks, InProgress)
    && r.blocked == CountStatus(ids, tasks, Blocked)
    && r.completed == CountStatus(ids, tasks, Completed)
    && r.failed == CountStatus(ids, tasks, Failed)
    && r.cancelled == CountStatus(ids, tasks, Cancelled)
    && r.total == |ids|
    && r.pending + r.inProgress + r.blocked + r.completed + r.failed + r.cancelled == r.total
    && r.terminal == r.completed + r.failed + r.cancelled
    && r.active == r.pending + r.inProgress
    && (r.allTerminal <==> forall c :: c in ids ==> c in tasks && Terminal(tasks[c].status))
  }

  lemma {:induction false} TerminalCount(ids: seq<string>, tasks: Tasks)
    requires forall c :: c in ids ==> c in tasks
    ensures CountStatus(ids, tasks, Completed) + CountStatus(ids, tasks, Failed)
            + CountStatus(ids, tasks, Cancelled) == |ids|
            <==> forall c :: c in ids ==> Terminal(tasks[c].status)
    ensures CountStatus(ids, tasks, Completed) + CountStatus(ids, tasks, Failed)
            + CountStatus(ids, tasks, Cancelled) <= |ids|
  {
    if ids != [] {
      var init := ids[..|ids| - 1];
      var last := ids[|ids| - 1];
      assert last in ids && ids == init + [last];
      TerminalCount(init, tasks);
      assert (forall c :: c in ids ==> Terminal(tasks[c].status))
        <==> (forall c :: c in init ==> Terminal(tasks[c].status)) && Terminal(tasks[last].status);
    }
  }

  /**
    In every reachable state, parent and child links are mutual inverses without repetition, no task
    is its own ancestor, and the rollup of every task that is not removed tells the truth about its children.
   */
  lemma RollupsAlwaysAgree(states: seq<Tasks>, events: seq<Event>, rules: TextRules, n: nat, id: string)
    requires IsRun(states, events, rules) && n < |states| && id in states[n]
    ensures var tasks := states[n]; var t := tasks[id];
            && (forall c :: c in t.childIds <==> c in tasks && tasks[c].brief.parentId == id)
            && NoDup(t.childIds)
            && (t.brief.parentId != "" ==> t.brief.parentId in tasks)
            && (forall k: nat :: k > 0 ==> Ancestor(tasks, id, k) != Some(id))
    ensures var tasks := states[n]; var t := tasks[id];
            t.removedAt.None? ==>
              if t.childIds == [] then t.rollup.None?
              else t.rollup.Some? && CountersTell(t.rollup.value, t.childIds, tasks)
  {
    RunInvariant(states, events, rules, n);
    var tasks := states[n];
    assert LinkedAt(tasks, id) && RollupAgrees(tasks, id);
    UuidTrims(id);
    forall c | c in tasks && tasks[c].brief.parentId == id ensures c in tasks[id].childIds {
      assert LinkedAt(tasks, c);
    }
    ForestIsAcyclic(tasks, id);
    CountsSum(tasks[id].childIds, tasks);
    TerminalCount(tasks[id].childIds, tasks);
  }

  // ---------- finality, logs ----------

  /** Terminal statuses are absorbing, removed tasks are terminal and frozen, logs only grow at the end. */
  lemma FinalStatesAreFinal(states: seq<Tasks>, events: seq<Event>, rules: TextRules, i: nat, j: nat, id: string)
    requires IsRun(states, events, rules) && i <= j < |states| && id in states[i]
    ensures id in states[j]
    ensures Terminal(states[i][id].status) ==> states[j][id].status == states[i][id].status
    ensures states[i][id].removedAt.Some? ==> Terminal(states[i][id].status) && states[j][id] == states[i][id]
    ensures states[i][id].logs <= states[j][id].logs
    ensures states[j][id].brief == states[i][id].brief
  {
    RunInvariant(states, events, rules, i);
    RunEvolves(states, events, rules, i, j);
  }

  // ---------- completion ----------

  /** Every entry into Completed is one confirmed update by the assignee whose result declares the leftover scope. */
  lemma CompletionIsExplicit(states: seq<Tasks>, events: seq<Event>, rules: TextRules, i: nat, id: string)
    requires IsRun(states, events, rules) && i < |events|
    requires id in states[i + 1] && states[i + 1][id].status.Completed?
    requires id !in states[i] || !states[i][id].status.Completed?
    ensures id in states[i]
    ensures var op := events[i].op;
            && op.Update? && op.id == id && op.workspace == states[i][id].brief.assignee
            && op.status == Some(Completed) && op.confirm == Some(true)
            && Contains(states[i + 1][id].result, "remaining owned dirty files=")
  {
    RunInvariant(states, events, rules, i);
    if id in states[i] {
      assert LinkedAt(states[i], id);
      StepRecords(states[i], events[i], rules, id);
    } else {
      NewcomersAreNew(states[i], events[i], rules, id);
      assert false;
    }
  }

  // ---------- claims ----------

  /** How often, over the given states, the task's claim was released. */
  ghost function Releases(states: seq<Tasks>, id: string): nat {
    if |states| < 2 then 0 else
      var a := states[|states| - 2];
      var b := states[|states| - 1];
      Releases(states[..|states| - 1], id)
      + if id in a && id in b && Held(a[id]) == 1 && Held(b[id]) == 0 then 1 else 0
  }

  lemma {:induction false} AttemptsAccounted(states: seq<Tasks>, events: seq<Event>, rules: TextRules, n: nat,
                                             id: string)
    requires IsRun(states, events, rules) && n < |states| && id in states[n]
    ensures states[n][id].attemptCount == Releases(states[..n + 1], id) + Held(states[n][id])
  {
    if n > 0 {
      var init := states[..n];
      assert states[..n + 1][..n] == init;
      RunInvariant(states, events, rules, n - 1);
      if id in states[n - 1] {
        AttemptsAccounted(states, events, rules, n - 1, id);
        StepRecords(states[n - 1], events[n - 1], rules, id);
      } else {
        NewcomersAreNew(states[n - 1], events[n - 1], rules, id);
        NeverReleasedBefore(states, events, rules, n - 1, id);
      }
    }
  }

  /** A task that does not exist yet has had no claim to release. */
  lemma {:induction false} NeverReleasedBefore(states: seq<Tasks>, events: seq<Event>, rules: TextRules, n: nat,
                                               id: string)
    requires IsRun(states, events, rules) && n < |states| && id !in states[n]
    ensures Releases(states[..n + 1], id) == 0
  {
    if n > 0 {
      assert states[..n + 1][..n] == states[..n];
      if id in states[n - 1] { RunEvolves(states, events, rules, n - 1, n); }
      NeverReleasedBefore(states, events, rules, n - 1, id);
    }
  }

  /**
    Claim discipline: work that has started or ended (other than by cancellation) is claimed by its
    assignee, a task offered for dispatch is not, and attempts count the claims that were ever made.
   */
  lemma ClaimDiscipline(states: seq<Tasks>, events: seq<Event>, rules: TextRules, n: nat, id: string)
    requires IsRun(states, events, rules) && n < |states| && id in states[n]
    ensures var t := states[n][id];
            && (t.status.InProgress? || t.status.Blocked? || t.status.Completed? || t.status.Failed? ==>
                  t.claimedAt.Some? && t.claimedBy == t.brief.assignee)
            && (t.claimedAt.Some? ==> t.claimedBy == t.brief.assignee)
            && t.attemptCount == Releases(states[..n + 1], id) + (if t.claimedAt.Some? then 1 else 0)
    ensures forall now: Time :: id in RunnableIds(states[n], states[n][id].brief.assignee, now) ==>
              states[n][id].attemptCount == Releases(states[..n + 1], id)
  {
    RunInvariant(states, events, rules, n);
    AttemptsAccounted(states, events, rules, n, id);
  }
}
