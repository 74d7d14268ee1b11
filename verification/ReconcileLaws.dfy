/** What the reconciler guarantees, within one pass and over whole runs of the broker. */
module ReconcileLaws {
  import opened Prelude
  import opened TaskModel
  import opened TaskInvariants
  import opened TaskSteps
  import opened QueueModel
  import opened Broker
  import RefillLaws

  // ---------- one pass ----------

  ghost predicate Listed(tasks: Tasks, ids: seq<string>, now: Time) {
    && NoDup(ids)
    && forall id :: id in ids ==> id in tasks && tasks[id].brief.id == id && Silent(tasks[id], now, SILENT_THRESHOLD)
  }

  ghost predicate Receives(tasks: Tasks, sent: seq<string>, w: string) {
    exists id :: id in sent && id in tasks && tasks[id].brief.assignee == w
  }

  /** At most one message for each assignee, and only into an empty inbox. */
  ghost predicate OnePerAssignee(s: State, r: Swept) {
    && (forall i, j :: 0 <= i < j < |r.sent| && r.sent[i] in s.tasks && r.sent[j] in s.tasks ==>
          s.tasks[r.sent[i]].brief.assignee != s.tasks[r.sent[j]].brief.assignee)
    && (forall w :: Receives(s.tasks, r.sent, w) ==> Inbox(s.queue, w) == [] && |Inbox(r.state.queue, w)| == 1)
    && (forall w :: !Receives(s.tasks, r.sent, w) ==> Inbox(r.state.queue, w) == Inbox(s.queue, w))
  }

  ghost predicate PassKept(s: State, r: Swept, ids: seq<string>, now: Time) {
    && NoDup(r.sent)
    && (forall id :: id in r.sent ==> id in ids && id in s.tasks && s.tasks[id].dispatchCount < NUDGE_CAP)
    && r.state.tasks == Redispatched(s.tasks, r.sent, now)
    && OnePerAssignee(s, r)
  }

  lemma PostArrives(q: Queue, m: Message)
    requires Inbox(q, m.to) == []
    ensures Inbox(Enqueued(q, m), m.to) == [m]
    ensures forall w :: w != m.to ==> Inbox(Enqueued(q, m), w) == Inbox(q, w)
  {
    assert ([] + [m])[0..] == [m];
  }

  lemma NudgeOneKeeps(s: State, before: Swept, ids: seq<string>, id: string, probes: Probes, now: Time, newId: string)
    requires PassKept(s, before, ids, now) && id !in before.sent
    requires id in s.tasks && s.tasks[id].brief.id == id && Silent(s.tasks[id], now, SILENT_THRESHOLD)
    ensures PassKept(s, NudgeOne(before, s.tasks[id], id, probes, now, newId), ids + [id], now)
  {
    var t := s.tasks[id];
    if Nudgeable(t, id, before.state.queue, probes) {
      var w := t.brief.assignee;
      var m := Stamped(TaskMessage(RECONCILER, w, ReminderText(t, NUDGE_NOTE), now), newId, now);
      PostArrives(before.state.queue, m);
      assert m.createdAt == now;
      RefillLaws.DispatchOneMore(s.tasks, before.sent, id, w, now);
      var after := NudgeOne(before, t, id, probes, now, newId);
      assert !Receives(s.tasks, before.sent, w);
      assert forall x :: x in after.sent <==> x in before.sent || x == id;
      assert OnePerAssignee(s, after) by {
        NudgedArrivals(s, before, after, id);
      }
    }
  }

  lemma NudgedArrivals(s: State, before: Swept, after: Swept, id: string)
    requires OnePerAssignee(s, before) && id in s.tasks && after.sent == before.sent + [id]
    requires var w := s.tasks[id].brief.assignee;
             && !Receives(s.tasks, before.sent, w)
             && Inbox(before.state.queue, w) == [] && |Inbox(after.state.queue, w)| == 1
             && forall v :: v != w ==> Inbox(after.state.queue, v) == Inbox(before.state.queue, v)
    ensures OnePerAssignee(s, after)
  {
    var w := s.tasks[id].brief.assignee;
    forall v ensures Receives(s.tasks, after.sent, v) <==> Receives(s.tasks, before.sent, v) || v == w {
      assert id in after.sent;
      assert forall x :: x in after.sent <==> x in before.sent || x == id;
    }
    forall i, j | 0 <= i < j < |after.sent| && after.sent[i] in s.tasks && after.sent[j] in s.tasks
      ensures s.tasks[after.sent[i]].brief.assignee != s.tasks[after.sent[j]].brief.assignee
    {
      assert after.sent[i] == before.sent[i];
      if j == |before.sent| {
        assert before.sent[i] in before.sent;
      }
    }
  }

  lemma {:induction false} NudgeOverKeeps(s: State, ids: seq<string>, probes: Probes, now: Time,
                                          newId: string -> string)
    requires Listed(s.tasks, ids, now)
    requires forall id :: id in ids ==> id in s.tasks
    ensures PassKept(s, NudgeOver(s, ids, probes, now, newId), ids, now)
  {
    if ids == [] {
      assert Redispatched(s.tasks, [], now) == s.tasks;
    } else {
      var init := ids[..|ids| - 1];
      var id := ids[|ids| - 1];
      assert ids == init + [id] && id in ids && id !in init;
      assert forall x :: x in init ==> x in ids;
      NudgeOverKeeps(s, init, probes, now, newId);
      NudgeOneKeeps(s, NudgeOver(s, init, probes, now, newId), init, id, probes, now, newId(id));
    }
  }

  function AfterRecovery(s: State, recoverNow: Time, probes: Probes): State {
    s.(tasks := ApplyRecover(s.tasks, Event(Recover(probes.dead), recoverNow, true)).tasks)
  }

  /**
    A single pass: every nudged task was silent for the threshold after the recovery sweep and below the cap,
    its dispatch is recorded at the instant of the pass, and no assignee receives more than one message.
   */
  lemma PassIsGentle(s: State, recoverNow: Time, now: Time, probes: Probes, newId: string -> string)
    requires Inv(s.tasks)
    ensures var mid := AfterRecovery(s, recoverNow, probes);
            var r := Reconcile(s, recoverNow, now, probes, newId);
            && PassKept(mid, r, SilentIds(mid.tasks, now, SILENT_THRESHOLD), now)
            && (forall id :: id in r.sent ==> id in mid.tasks && now - mid.tasks[id].updatedAt >= 180 * NANOS)
            && Inv(mid.tasks)
  {
    var e := Event(Recover(probes.dead), recoverNow, true);
    var mid := AfterRecovery(s, recoverNow, probes);
    RecoverKeeps(s.tasks, RecoveryCandidates(s.tasks, probes.dead), recoverNow);
    var ids := SilentIds(mid.tasks, now, SILENT_THRESHOLD);
    assert Listed(mid.tasks, ids, now) by {
      forall id | id in ids ensures mid.tasks[id].brief.id == id { assert LinkedAt(mid.tasks, id); }
    }
    NudgeOverKeeps(mid, ids, probes, now, newId);
  }

  // ---------- runs ----------

  datatype BrokerEvent =
    | StoreCall(event: Event)
    | QueueCall(queueOp: QueueOp)
    | WakeCall(wakeOp: W.WakeOp)
    | RefillCall(workspace: string, sender: string, now: Time, newId: string -> string)
    | ReconcileCall(recoverNow: Time, now: Time, probes: Probes, newId: string -> string)

  function Next(s: State, ev: BrokerEvent, rules: TextRules): State {
    match ev
    case StoreCall(e) => s.(tasks := Apply(s.tasks, e, rules).tasks)
    case QueueCall(op) => s.(queue := QueueModel.Step(s.queue, op))
    case WakeCall(op) => s.(wakes := W.Step(s.wakes, op))
    case RefillCall(ws, sender, now, newId) => Refill(s, ws, sender, now, newId).state
    case ReconcileCall(recoverNow, now, probes, newId) => Reconcile(s, recoverNow, now, probes, newId).state
  }

  /** The tasks an event nudges. */
  function Nudged(s: State, ev: BrokerEvent): seq<string> {
    if ev.ReconcileCall? then Reconcile(s, ev.recoverNow, ev.now, ev.probes, ev.newId).sent else []
  }

  /** Every clock reading of the event lies between the given instants. */
  predicate ClockFits(ev: BrokerEvent, lo: Time, hi: Time) {
    match ev
    case StoreCall(e) => lo <= e.now <= hi && lo <= Stamp(e) <= hi
    case RefillCall(_, _, now, _) => lo <= now <= hi
    case ReconcileCall(recoverNow, now, _, _) => lo <= recoverNow <= now <= hi
    case _ => lo <= hi
  }

  /** A sequential run from an empty store: `times[i]` is the clock when event `i` starts. */
  ghost predicate IsRun(states: seq<State>, events: seq<BrokerEvent>, times: seq<Time>, rules: TextRules) {
    && |states| == |times| == |events| + 1
    && states[0].tasks == map[]
    && forall i :: 0 <= i < |events| ==>
         && ClockFits(events[i], times[i], times[i + 1])
         && (events[i].StoreCall? ==> Admissible(states[i].tasks, events[i].event))
         && states[i + 1] == Next(states[i], events[i], rules)
  }

  /** The instants at which a task was nudged during the first `n` events. */
  ghost function NudgeTimes(states: seq<State>, events: seq<BrokerEvent>, id: string, n: nat): seq<Time>
    requires n <= |events| <= |states|
  {
    if n == 0 then [] else
      NudgeTimes(states, events, id, n - 1)
      + if id in Nudged(states[n - 1], events[n - 1]) then [events[n - 1].now] else []
  }

  // ---------- how an event moves a record ----------

  /** The record keeps its update time or takes one within the event, and dispatches are never forgotten. */
  ghost predicate Moves(a: Task, b: Task, lo: Time, hi: Time) {
    (b.updatedAt == a.updatedAt || lo <= b.updatedAt <= hi) && a.dispatchCount <= b.dispatchCount
  }

  ghost predicate AllMove(s: Tasks, t: Tasks, lo: Time, hi: Time) {
    s.Keys == t.Keys && forall x :: x in s ==> Moves(s[x], t[x], lo, hi)
  }

  lemma AllMoveTransitive(s: Tasks, t: Tasks, u: Tasks, lo: Time, hi: Time)
    requires AllMove(s, t, lo, hi) && AllMove(t, u, lo, hi)
    ensures AllMove(s, u, lo, hi)
  {}

  lemma PostMoves(s: State, t: Task, sender: string, content: string, now: Time, newId: string)
    requires Inv(s.tasks)
    ensures Inv(Post(s, t, sender, content, now, newId).tasks)
    ensures AllMove(s.tasks, Post(s, t, sender, content, now, newId).tasks, now, now)
  {
    var m := Stamped(TaskMessage(sender, t.brief.assignee, content, now), newId, now);
    assert m.createdAt == now;
    TouchKeeps(s.tasks, Event(Dispatch(t.brief.id, m.to, m.createdAt), now, true));
  }

  lemma {:induction false} RefillMoves(s: State, ids: seq<string>, ws: string, sender: string, now: Time,
                                       newId: string -> string)
    requires Inv(s.tasks)
    requires forall id :: id in ids ==> id in s.tasks
    ensures var after := RefillOver(s, ids, ws, sender, now, newId).state.tasks;
            Inv(after) && AllMove(s.tasks, after, now, now)
  {
    if ids != [] {
      var init := ids[..|ids| - 1];
      var id := ids[|ids| - 1];
      assert id in ids && forall x :: x in init ==> x in ids;
      RefillMoves(s, init, ws, sender, now, newId);
      var before := RefillOver(s, init, ws, sender, now, newId).state;
      PostMoves(before, s.tasks[id], sender, DispatchContent(s.tasks[id]), now, newId(id));
      var after := Post(before, s.tasks[id], sender, DispatchContent(s.tasks[id]), now, newId(id));
      AllMoveTransitive(s.tasks, before.tasks, after.tasks, now, now);
    }
  }

  lemma {:induction false} NudgeMoves(s: State, ids: seq<string>, probes: Probes, now: Time, newId: string -> string)
    requires Inv(s.tasks)
    requires forall id :: id in ids ==> id in s.tasks
    ensures Inv(NudgeOver(s, ids, probes, now, newId).state.tasks)
  {
    if ids != [] {
      var init := ids[..|ids| - 1];
      var id := ids[|ids| - 1];
      assert id in ids && forall x :: x in init ==> x in ids;
      NudgeMoves(s, init, probes, now, newId);
      var before := NudgeOver(s, init, probes, now, newId).state;
      PostMoves(before, s.tasks[id], RECONCILER, ReminderText(s.tasks[id], NUDGE_NOTE), now, newId(id));
    }
  }

  lemma RecoveryMoves(tasks: Tasks, dead: set<string>, now: Time)
    requires Inv(tasks)
    ensures AllMove(tasks, ApplyRecover(tasks, Event(Recover(dead), now, true)).tasks, now, now)
  {
    var e := Event(Recover(dead), now, true);
    RecoverKeys(tasks, e);
    forall x | x in tasks ensures Moves(tasks[x], ApplyRecover(tasks, e).tasks[x], now, now) {
      RecoverStep(tasks, e, x);
    }
  }

  /** What an event does to a task that exists: it moves within the event, and a nudge meets its conditions. */
  ghost predicate Stepped(a: Task, b: Task, lo: Time, hi: Time, nudgedAt: Option<Time>) {
    && Moves(a, b, lo, hi)
    && (nudgedAt.Some? ==>
          && a.dispatchCount < NUDGE_CAP && b.dispatchCount > a.dispatchCount
          && b.updatedAt == nudgedAt.value
          && (a.updatedAt <= lo ==> nudgedAt.value - a.updatedAt >= SILENT_THRESHOLD))
  }

  function NudgedAt(s: State, ev: BrokerEvent, id: string): Option<Time> {
    if id in Nudged(s, ev) then Some(ev.now) else None
  }

  /** The facts of one pass about one task. */
  lemma PassRecord(s: State, recoverNow: Time, now: Time, probes: Probes, newId: string -> string, id: string)
    requires Inv(s.tasks) && id in s.tasks
    ensures var mid := AfterRecovery(s, recoverNow, probes).tasks;
            var r := Reconcile(s, recoverNow, now, probes, newId);
            && mid.Keys == r.state.tasks.Keys == s.tasks.Keys
            && r.state.tasks[id] == (if id in r.sent then DispatchedTask(mid[id], now) else mid[id])
            && (id in r.sent ==> mid[id].dispatchCount < NUDGE_CAP && now - mid[id].updatedAt >= SILENT_THRESHOLD)
  {
    RecoverKeys(s.tasks, Event(Recover(probes.dead), recoverNow, true));
    PassIsGentle(s, recoverNow, now, probes, newId);
    KeptRecord(AfterRecovery(s, recoverNow, probes), Reconcile(s, recoverNow, now, probes, newId),
               SilentIds(AfterRecovery(s, recoverNow, probes).tasks, now, SILENT_THRESHOLD), now, id);
  }

  lemma KeptRecord(mid: State, r: Swept, ids: seq<string>, now: Time, id: string)
    requires PassKept(mid, r, ids, now) && id in mid.tasks
    ensures mid.tasks.Keys == r.state.tasks.Keys
    ensures r.state.tasks[id] == (if id in r.sent then DispatchedTask(mid.tasks[id], now) else mid.tasks[id])
    ensures id in r.sent ==> mid.tasks[id].dispatchCount < NUDGE_CAP
  {}

  lemma NudgeArithmetic(a: Task, mid: Task, b: Task, lo: Time, hi: Time, recoverNow: Time, now: Time, nudged: bool)
    requires lo <= recoverNow <= now <= hi
    requires Moves(a, mid, recoverNow, recoverNow) && mid.dispatchCount == a.dispatchCount
    requires b == if nudged then DispatchedTask(mid, now) else mid
    requires nudged ==> mid.dispatchCount < NUDGE_CAP && now - mid.updatedAt >= SILENT_THRESHOLD
    ensures Stepped(a, b, lo, hi, if nudged then Some(now) else None)
  {}

  lemma ReconcileSteps(s: State, ev: BrokerEvent, lo: Time, hi: Time, id: string)
    requires Inv(s.tasks) && ev.ReconcileCall? && ClockFits(ev, lo, hi) && id in s.tasks
    ensures var after := Reconcile(s, ev.recoverNow, ev.now, ev.probes, ev.newId).state.tasks;
            after.Keys == s.tasks.Keys && Stepped(s.tasks[id], after[id], lo, hi, NudgedAt(s, ev, id))
  {
    PassRecord(s, ev.recoverNow, ev.now, ev.probes, ev.newId, id);
    RecoveryMoves(s.tasks, ev.probes.dead, ev.recoverNow);
    RecoveryCountsNothing(s.tasks, ev.probes.dead, ev.recoverNow, id);
    NudgeArithmetic(s.tasks[id], AfterRecovery(s, ev.recoverNow, ev.probes).tasks[id],
                    Reconcile(s, ev.recoverNow, ev.now, ev.probes, ev.newId).state.tasks[id],
                    lo, hi, ev.recoverNow, ev.now, id in Nudged(s, ev));
  }

  lemma RecoveryCountsNothing(tasks: Tasks, dead: set<string>, now: Time, id: string)
    requires id in tasks
    ensures var after := ApplyRecover(tasks, Event(Recover(dead), now, true)).tasks;
            id in after && after[id].dispatchCount == tasks[id].dispatchCount
  {
    RecoverStep(tasks, Event(Recover(dead), now, true), id);
  }

  lemma StoreCallSteps(s: State, ev: BrokerEvent, lo: Time, hi: Time, rules: TextRules, id: string)
    requires Inv(s.tasks) && ev.StoreCall? && Admissible(s.tasks, ev.event) && ClockFits(ev, lo, hi)
    ensures var after := Next(s, ev, rules).tasks;
            && Inv(after)
            && (id in s.tasks ==> id in after && Moves(s.tasks[id], after[id], lo, hi))
            && (id !in s.tasks && id in after ==> after[id].dispatchCount == 0 && lo <= after[id].updatedAt <= hi)
  {
    ApplyKeeps(s.tasks, ev.event, rules);
    if id in s.tasks {
      StepRecords(s.tasks, ev.event, rules, id);
    } else if id in Next(s, ev, rules).tasks {
      NewcomersAreNew(s.tasks, ev.event, rules, id);
    }
  }

  lemma EventKeepsInv(s: State, ev: BrokerEvent, rules: TextRules)
    requires Inv(s.tasks) && (ev.StoreCall? ==> Admissible(s.tasks, ev.event))
    ensures Inv(Next(s, ev, rules).tasks)
  {
    match ev
    case StoreCall(e) => ApplyKeeps(s.tasks, e, rules);
    case RefillCall(ws, sender, now, newId) => RefillMoves(s, RunnableIds(s.tasks, ws, now), ws, sender, now, newId);
    case ReconcileCall(recoverNow, now, probes, newId) =>
      RecoverKeeps(s.tasks, RecoveryCandidates(s.tasks, probes.dead), recoverNow);
      var mid := AfterRecovery(s, recoverNow, probes);
      NudgeMoves(mid, SilentIds(mid.tasks, now, SILENT_THRESHOLD), probes, now, newId);
    case _ =>
  }

  /** Any event, any task: it moves within the event, or it is new with nothing on record. */
  lemma EventSteps(s: State, ev: BrokerEvent, lo: Time, hi: Time, rules: TextRules, id: string)
    requires Inv(s.tasks) && (ev.StoreCall? ==> Admissible(s.tasks, ev.event)) && ClockFits(ev, lo, hi)
    ensures var after := Next(s, ev, rules).tasks;
            && (id in s.tasks ==> id in after && Stepped(s.tasks[id], after[id], lo, hi, NudgedAt(s, ev, id)))
            && (id !in s.tasks ==>
                  NudgedAt(s, ev, id).None?
                  && (id in after ==> after[id].dispatchCount == 0 && lo <= after[id].updatedAt <= hi))
  {
    match ev
    case StoreCall(e) => StoreCallSteps(s, ev, lo, hi, rules, id);
    case RefillCall(ws, sender, now, newId) => RefillMoves(s, RunnableIds(s.tasks, ws, now), ws, sender, now, newId);
    case ReconcileCall(_, _, _, _) => ReconcileEventSteps(s, ev, lo, hi, id);
    case _ =>
  }

  lemma ReconcileEventSteps(s: State, ev: BrokerEvent, lo: Time, hi: Time, id: string)
    requires Inv(s.tasks) && ev.ReconcileCall? && ClockFits(ev, lo, hi)
    ensures var after := Reconcile(s, ev.recoverNow, ev.now, ev.probes, ev.newId).state.tasks;
            && (id in s.tasks ==> id in after && Stepped(s.tasks[id], after[id], lo, hi, NudgedAt(s, ev, id)))
            && (id !in s.tasks ==> id !in after && NudgedAt(s, ev, id).None?)
  {
    if id in s.tasks {
      ReconcileSteps(s, ev, lo, hi, id);
    } else {
      PassIsGentle(s, ev.recoverNow, ev.now, ev.probes, ev.newId);
      RecoverKeys(s.tasks, Event(Recover(ev.probes.dead), ev.recoverNow, true));
    }
  }

  // ---------- the promise ----------

  ghost predicate Spaced(log: seq<Time>) {
    forall i :: 0 <= i < |log| - 1 ==> log[i + 1] - log[i] >= SILENT_THRESHOLD
  }

  /** What a task's record remembers of its nudges. */
  ghost predicate Remembers(t: Task, log: seq<Time>, clock: Time) {
    && |log| <= t.dispatchCount && |log| <= NUDGE_CAP
    && t.updatedAt <= clock && (log != [] ==> log[|log| - 1] <= t.updatedAt)
  }

  lemma RememberStep(a: Task, b: Task, log: seq<Time>, lo: Time, hi: Time, nudgedAt: Option<Time>)
    requires lo <= hi && Remembers(a, log, lo) && Spaced(log) && Stepped(a, b, lo, hi, nudgedAt)
    requires nudgedAt.Some? ==> nudgedAt.value <= hi
    ensures var log' := log + if nudgedAt.Some? then [nudgedAt.value] else [];
            Remembers(b, log', hi) && Spaced(log')
  {
    var log' := log + if nudgedAt.Some? then [nudgedAt.value] else [];
    if nudgedAt.None? { assert log' == log; }
  }

  lemma {:induction false} RunInv(states: seq<State>, events: seq<BrokerEvent>, times: seq<Time>, rules: TextRules,
                                  n: nat)
    requires IsRun(states, events, times, rules) && n <= |events|
    ensures Inv(states[n].tasks)
  {
    if n == 0 {
      assert RankOk(states[0].tasks, map[]);
    } else {
      RunInv(states, events, times, rules, n - 1);
      EventKeepsInv(states[n - 1], events[n - 1], rules);
    }
  }

  /** The books of one task before and after an event. */
  ghost predicate Tracked(s: State, id: string, log: seq<Time>, clock: Time) {
    Spaced(log) && if id in s.tasks then Remembers(s.tasks[id], log, clock) else log == []
  }

  lemma TrackStep(s: State, ev: BrokerEvent, after: State, lo: Time, hi: Time, rules: TextRules, id: string,
                  log: seq<Time>)
    requires Inv(s.tasks) && (ev.StoreCall? ==> Admissible(s.tasks, ev.event)) && ClockFits(ev, lo, hi)
    requires Tracked(s, id, log, lo) && after == Next(s, ev, rules)
    ensures Tracked(after, id, log + if id in Nudged(s, ev) then [ev.now] else [], hi)
  {
    EventSteps(s, ev, lo, hi, rules, id);
    assert log + [] == log;
    if id in s.tasks {
      RememberStep(s.tasks[id], after.tasks[id], log, lo, hi, NudgedAt(s, ev, id));
    }
  }

  lemma {:induction false} RunTracks(states: seq<State>, events: seq<BrokerEvent>, times: seq<Time>, rules: TextRules,
                                     id: string, n: nat)
    requires IsRun(states, events, times, rules) && n <= |events|
    ensures Tracked(states[n], id, NudgeTimes(states, events, id, n), times[n])
  {
    if n > 0 {
      var k := n - 1;
      RunTracks(states, events, times, rules, id, k);
      RunInv(states, events, times, rules, k);
      var log := NudgeTimes(states, events, id, k);
      assert ClockFits(events[k], times[k], times[k + 1]);
      TrackStep(states[k], events[k], states[n], times[k], times[n], rules, id, log);
      assert NudgeTimes(states, events, id, n)
          == log + if id in Nudged(states[k], events[k]) then [events[k].now] else [];
    }
  }

  /** Over every sequential run, a task is nudged at most five times, and two nudges are at least 180 seconds apart. */
  lemma NudgesAreBounded(states: seq<State>, events: seq<BrokerEvent>, times: seq<Time>, rules: TextRules, id: string)
    requires IsRun(states, events, times, rules)
    ensures var log := NudgeTimes(states, events, id, |events|);
            |log| <= 5 && forall i, j :: 0 <= i < j < |log| ==> log[j] - log[i] >= 180 * NANOS * (j - i)
  {
    RunTracks(states, events, times, rules, id, |events|);
    var log := NudgeTimes(states, events, id, |events|);
    forall i, j | 0 <= i < j < |log| ensures log[j] - log[i] >= 180 * NANOS * (j - i) {
      SpacedApart(log, i, j);
    }
  }

  lemma {:induction false} SpacedApart(log: seq<Time>, i: nat, j: nat)
    requires Spaced(log) && i < j < |log|
    ensures log[j] - log[i] >= 180 * NANOS * (j - i)
  {
    if i + 1 < j { SpacedApart(log, i, j - 1); }
    assert log[j - 1 + 1] - log[j - 1] >= SILENT_THRESHOLD;
  }
}
