/**
  The retry schedule for workspaces with unread messages: an entry fires when it is due, and
  each counted attempt pushes the next one further out until the tenth ends the schedule.
 */
module WakeScheduling {
  import opened Prelude

  datatype Wake = Wake(sender: string, attempts: nat, nextRetry: Time)

  type Pending = map<string, Wake>

  const CHECK_INTERVAL: int := 3 * NANOS
  const FIRST_RETRY: int := 5 * NANOS
  const MAX_ATTEMPTS: nat := 10

  function BackoffSeconds(attempt: nat): nat {
    match attempt
    case 0 => 5
    case 1 => 10
    case 2 => 20
    case 3 => 40
    case _ => 60
  }

  function Backoff(attempt: nat): int { BackoffSeconds(attempt) * NANOS }

  /** What a due entry finds: an empty inbox even after the refill, no session, a busy agent, or an idle one. */
  datatype Probe = NoMail | NoSession(ensured: bool) | Busy | Woken(ok: bool)

  /** The probe, the answer of the retry policy, and the clock when the entry is put off. */
  datatype Reading = Reading(probe: Probe, keepRetrying: bool, at: Time)

  /** Session creation and key presses count as attempts. */
  predicate Counts(p: Probe) { (p.NoSession? && p.ensured) || p.Woken? }

  function Advance(w: Wake, failed: bool, keepRetrying: bool, at: Time): Option<Wake> {
    var attempts := w.attempts + 1;
    if failed || attempts >= MAX_ATTEMPTS || !keepRetrying then None
    else Some(w.(attempts := attempts, nextRetry := at + Backoff(attempts)))
  }

  /** What becomes of a due entry; none when it leaves the schedule. */
  function Fire(w: Wake, r: Reading): Option<Wake> {
    match r.probe
    case NoMail => None
    case NoSession(ensured) => if ensured then Advance(w, false, r.keepRetrying, r.at) else None
    case Busy => Some(w.(nextRetry := r.at + CHECK_INTERVAL))
    case Woken(ok) => Advance(w, !ok, r.keepRetrying, r.at)
  }

  predicate Due(w: Wake, now: Time) { w.nextRetry <= now }

  /** One pass over the schedule, entry by entry. */
  function Processed(p: Pending, now: Time, readings: string -> Reading): Pending {
    map ws | ws in p && (Due(p[ws], now) ==> Fire(p[ws], readings(ws)).Some?) ::
      if Due(p[ws], now) then Fire(p[ws], readings(ws)).value else p[ws]
  }

  datatype WakeOp =
    | Schedule(workspace: string, sender: string, now: Time)
    | CancelWake(workspace: string)
    | Process(now: Time, readings: string -> Reading)

  function Step(p: Pending, op: WakeOp): Pending {
    match op
    case Schedule(ws, sender, now) => p[ws := Wake(sender, 0, now + FIRST_RETRY)]
    case CancelWake(ws) => p - {ws}
    case Process(now, readings) => Processed(p, now, readings)
  }

  // ---------- one pass ----------

  /** A pass leaves entries that were not due alone, and no entry it fired is due again within three seconds. */
  lemma PassSettles(p: Pending, now: Time, readings: string -> Reading, ws: string)
    requires forall w :: readings(w).at >= now
    requires ws in p
    ensures !Due(p[ws], now) ==> ws in Processed(p, now, readings) && Processed(p, now, readings)[ws] == p[ws]
    ensures Due(p[ws], now) && ws in Processed(p, now, readings) ==>
              && Processed(p, now, readings)[ws].nextRetry >= now + CHECK_INTERVAL
              && Processed(p, now, readings)[ws].sender == p[ws].sender
  {}

  /** A second pass at the same instant does nothing, whatever it would find. */
  lemma SecondPassIsIdle(p: Pending, now: Time, readings: string -> Reading, again: string -> Reading)
    requires forall w :: readings(w).at >= now
    ensures Processed(Processed(p, now, readings), now, again) == Processed(p, now, readings)
  {
    var once := Processed(p, now, readings);
    forall ws | ws in once ensures !Due(once[ws], now) {
      assert readings(ws).at >= now;
    }
    assert Processed(once, now, again).Keys == once.Keys;
  }

  function Fired(p: Pending, ws: string, r: Reading): Pending
    requires ws in p
  {
    var next := Fire(p[ws], r);
    if next.Some? then p[ws := next.value] else p - {ws}
  }

  /** The schedule when a pass has fired the given entries. */
  function PartlyProcessed(p: Pending, fired: set<string>, readings: string -> Reading): Pending {
    map ws | ws in p && (ws in fired ==> Fire(p[ws], readings(ws)).Some?) ::
      if ws in fired then Fire(p[ws], readings(ws)).value else p[ws]
  }

  lemma FireOneMore(p: Pending, fired: set<string>, readings: string -> Reading, ws: string)
    requires ws in p && ws !in fired
    ensures var before := PartlyProcessed(p, fired, readings);
            ws in before && Fired(before, ws, readings(ws)) == PartlyProcessed(p, fired + {ws}, readings)
  {}

  // ---------- a pass in steps ----------

  /**
    A pass holds the schedule's lock only while it collects the due entries, and again for each entry it fires, so
    schedule and cancel calls may come in between. `ready` are the entries still to be fired.
   */
  datatype Scheduler = Scheduler(pending: Pending, ready: set<string>, passNow: Time)

  datatype Move =
    | Reschedule(workspace: string, sender: string, now: Time)
    | Drop(workspace: string)
    | Collect(now: Time)
    | FireNext(workspace: string, reading: Reading)

  function DueEntries(p: Pending, now: Time): set<string> {
    set ws | ws in p && Due(p[ws], now)
  }

  /** An entry that has gone in the meantime is not fired. */
  function FiredIfThere(p: Pending, ws: string, r: Reading): Pending {
    if ws in p then Fired(p, ws, r) else p
  }

  /** There is one pass at a time, and the clock does not run backwards while it is under way. */
  predicate Allowed(s: Scheduler, m: Move) {
    match m
    case Collect(_) => s.ready == {}
    case FireNext(ws, r) => ws in s.ready && r.at >= s.passNow
    case _ => true
  }

  function Moved(s: Scheduler, m: Move): Scheduler {
    match m
    case Reschedule(ws, sender, now) => s.(pending := Step(s.pending, Schedule(ws, sender, now)))
    case Drop(ws) => s.(pending := Step(s.pending, CancelWake(ws)))
    case Collect(now) => s.(ready := DueEntries(s.pending, now), passNow := now)
    case FireNext(ws, r) => s.(pending := FiredIfThere(s.pending, ws, r), ready := s.ready - {ws})
  }

  function Run(s: Scheduler, moves: seq<Move>): Scheduler
    decreases |moves|
  {
    if moves == [] then s else Run(Moved(s, moves[0]), moves[1..])
  }

  predicate Fits(s: Scheduler, moves: seq<Move>)
    decreases |moves|
  {
    moves == [] || (Allowed(s, moves[0]) && Fits(Moved(s, moves[0]), moves[1..]))
  }

  function Fires(order: seq<string>, readings: string -> Reading): seq<Move> {
    seq(|order|, i requires 0 <= i < |order| => FireNext(order[i], readings(order[i])))
  }

  lemma {:induction false} FiresRun(p: Pending, fired: set<string>, order: seq<string>, readings: string -> Reading,
                                    now: Time)
    requires forall i, j :: 0 <= i < j < |order| ==> order[i] != order[j]
    requires forall i :: 0 <= i < |order| ==> order[i] in p && order[i] !in fired && readings(order[i]).at >= now
    ensures var all := set i | 0 <= i < |order| :: order[i];
            var start := Scheduler(PartlyProcessed(p, fired, readings), all, now);
            && Fits(start, Fires(order, readings))
            && Run(start, Fires(order, readings)) == Scheduler(PartlyProcessed(p, fired + all, readings), {}, now)
    decreases |order|
  {
    var all := set i | 0 <= i < |order| :: order[i];
    if order == [] {
      assert fired + all == fired;
    } else {
      var ws, rest := order[0], order[1..];
      var others := set i | 0 <= i < |rest| :: rest[i];
      assert all - {ws} == others by {
        forall x | x in all - {ws} ensures x in others {
          var i :| 0 <= i < |order| && order[i] == x;
          assert rest[i - 1] == x;
        }
        assert forall i :: 0 <= i < |rest| ==> rest[i] == order[i + 1];
      }
      FireOneMore(p, fired, readings, ws);
      FiresRun(p, fired + {ws}, rest, readings, now);
      assert Fires(order, readings)[1..] == Fires(rest, readings);
      assert fired + {ws} + others == fired + all;
    }
  }

  /** A pass that nothing interrupts, in whatever order it fires the due entries, is the pass as one step. */
  lemma PassIsItsSteps(p: Pending, t: Time, now: Time, order: seq<string>, readings: string -> Reading)
    requires forall i, j :: 0 <= i < j < |order| ==> order[i] != order[j]
    requires forall ws :: ws in order <==> ws in DueEntries(p, now)
    requires forall ws :: readings(ws).at >= now
    ensures var moves := [Collect(now)] + Fires(order, readings);
            && Fits(Scheduler(p, {}, t), moves)
            && Run(Scheduler(p, {}, t), moves) == Scheduler(Processed(p, now, readings), {}, now)
  {
    var moves := [Collect(now)] + Fires(order, readings);
    var all := set i | 0 <= i < |order| :: order[i];
    assert forall i :: 0 <= i < |order| ==> order[i] in order;
    assert all == DueEntries(p, now) by {
      forall ws | ws in DueEntries(p, now) ensures ws in all { var i :| 0 <= i < |order| && order[i] == ws; }
    }
    assert PartlyProcessed(p, {}, readings) == p && {} + all == all;
    FiresRun(p, {}, order, readings, now);
    assert moves[1..] == Fires(order, readings);
    assert PartlyProcessed(p, all, readings) == Processed(p, now, readings);
  }

  // ---------- attempts ----------

  /** The step makes a counted attempt at waking the workspace. */
  predicate Attempts(s: Scheduler, m: Move, ws: string) {
    m.FireNext? && m.workspace == ws && ws in s.pending && Counts(m.reading.probe)
  }

  /** For each counted attempt at a workspace, the instant at which its pass found the entry due. */
  function AttemptLog(s: Scheduler, moves: seq<Move>, ws: string): seq<Time>
    decreases |moves|
  {
    if moves == [] then [] else
      (if Attempts(s, moves[0], ws) then [s.passNow] else []) + AttemptLog(Moved(s, moves[0]), moves[1..], ws)
  }

  /** Seconds from scheduling to the earliest possible k-th attempt: 5 plus the first k - 1 backoffs. */
  function Lead(k: nat): nat
    requires k > 0
  {
    if k == 1 then 5 else Lead(k - 1) + BackoffSeconds(k - 1)
  }

  lemma TenthLead()
    ensures Lead(10) == 435
  {
    assert Lead(2) == 15 && Lead(4) == 75;
    assert Lead(6) == 195;
    assert Lead(8) == 315;
  }

  /** In every reachable schedule, fewer than ten attempts are on record for any entry. */
  lemma {:induction false} AttemptsStayBelowCap(moves: seq<Move>, s: Scheduler, ws: string)
    requires forall w :: w in s.pending ==> s.pending[w].attempts < MAX_ATTEMPTS
    ensures var end := Run(s, moves).pending;
            ws in end ==> end[ws].attempts < MAX_ATTEMPTS
    decreases |moves|
  {
    if moves != [] { AttemptsStayBelowCap(moves[1..], Moved(s, moves[0]), ws); }
  }

  ghost predicate NoReschedule(moves: seq<Move>, ws: string) {
    forall i :: 0 <= i < |moves| ==> !(moves[i].Reschedule? && moves[i].workspace == ws)
  }

  lemma NoRescheduleTail(moves: seq<Move>, ws: string)
    requires NoReschedule(moves, ws) && moves != []
    ensures NoReschedule(moves[1..], ws)
  {
    assert forall i :: 0 <= i < |moves[1..]| ==> moves[1..][i] == moves[i + 1];
  }

  lemma {:induction false} GoneStaysGone(s: Scheduler, moves: seq<Move>, ws: string)
    requires NoReschedule(moves, ws) && ws !in s.pending
    ensures AttemptLog(s, moves, ws) == []
    decreases |moves|
  {
    if moves != [] {
      NoRescheduleTail(moves, ws);
      GoneStaysGone(Moved(s, moves[0]), moves[1..], ws);
    }
  }

  /** Whatever comes in between, an entry with `done` attempts on record makes at most ten in all. */
  lemma {:induction false} AttemptsBounded(s: Scheduler, moves: seq<Move>, ws: string, done: nat)
    requires NoReschedule(moves, ws) && done < MAX_ATTEMPTS && (ws in s.pending ==> s.pending[ws].attempts == done)
    ensures |AttemptLog(s, moves, ws)| <= MAX_ATTEMPTS - done
    decreases |moves|
  {
    if moves != [] {
      var next, rest := Moved(s, moves[0]), moves[1..];
      NoRescheduleTail(moves, ws);
      if ws !in next.pending {
        GoneStaysGone(next, rest, ws);
      } else {
        AttemptsBounded(next, rest, ws, if Attempts(s, moves[0], ws) then done + 1 else done);
      }
    }
  }

  /** The entry is not due before its lead time from a base instant, and no pass under way found it due earlier. */
  ghost predicate Armed(s: Scheduler, ws: string, base: Time, done: nat) {
    ws in s.pending ==>
      && s.pending[ws].attempts == done
      && s.pending[ws].nextRetry >= base + Lead(done + 1) * NANOS
      && (ws in s.ready ==> s.passNow >= base + Lead(done + 1) * NANOS)
  }

  lemma MoveArms(s: Scheduler, m: Move, ws: string, base: Time, done: nat)
    requires Allowed(s, m) && !(m.Reschedule? && m.workspace == ws) && Armed(s, ws, base, done)
    ensures Attempts(s, m, ws) ==> s.passNow >= base + Lead(done + 1) * NANOS && Armed(Moved(s, m), ws, base, done + 1)
    ensures !Attempts(s, m, ws) ==> Armed(Moved(s, m), ws, base, done)
  {
    assert Lead(done + 2) == Lead(done + 1) + BackoffSeconds(done + 1);
  }

  /** The attempts after the first `done` come no earlier than their lead times. */
  ghost predicate Late(log: seq<Time>, base: Time, done: nat) {
    forall i :: 0 <= i < |log| ==> log[i] >= base + Lead(done + 1 + i) * NANOS
  }

  lemma LateCons(at: Time, tail: seq<Time>, base: Time, done: nat)
    requires at >= base + Lead(done + 1) * NANOS && Late(tail, base, done + 1)
    ensures Late([at] + tail, base, done)
  {
    var log := [at] + tail;
    forall i | 0 <= i < |log| ensures log[i] >= base + Lead(done + 1 + i) * NANOS {
      if i > 0 {
        assert log[i] == tail[i - 1];
        assert done + 1 + 1 + (i - 1) == done + 1 + i;
      }
    }
  }

  lemma {:induction false} AttemptsAreLate(s: Scheduler, moves: seq<Move>, ws: string, base: Time, done: nat)
    requires Fits(s, moves) && NoReschedule(moves, ws) && Armed(s, ws, base, done)
    ensures Late(AttemptLog(s, moves, ws), base, done)
    decreases |moves|
  {
    if moves != [] {
      var next, rest := Moved(s, moves[0]), moves[1..];
      NoRescheduleTail(moves, ws);
      MoveArms(s, moves[0], ws, base, done);
      var tail := AttemptLog(next, rest, ws);
      if Attempts(s, moves[0], ws) {
        AttemptsAreLate(next, rest, ws, base, done + 1);
        LateCons(s.passNow, tail, base, done);
      } else {
        AttemptsAreLate(next, rest, ws, base, done);
        assert [] + tail == tail;
      }
    }
  }

  /**
    Between two schedule calls for a workspace there are at most ten counted attempts, under every interleaving.
    Unless the first call comes while a pass is about to fire the workspace, the k-th is made by a pass no earlier
    than the lead time of k, which is 435 seconds for the tenth.
   */
  lemma BoundedPatience(s: Scheduler, ws: string, sender: string, now: Time, moves: seq<Move>)
    requires Fits(Moved(s, Reschedule(ws, sender, now)), moves) && NoReschedule(moves, ws)
    ensures var log := AttemptLog(Moved(s, Reschedule(ws, sender, now)), moves, ws);
            && |log| <= 10
            && (ws !in s.ready ==> forall i :: 0 <= i < |log| ==> log[i] >= now + Lead(i + 1) * NANOS)
            && (ws !in s.ready && |log| == 10 ==> log[9] >= now + 435 * NANOS)
  {
    var start := Moved(s, Reschedule(ws, sender, now));
    AttemptsBounded(start, moves, ws, 0);
    if ws !in s.ready { AttemptsAreLate(start, moves, ws, now, 0); }
    TenthLead();
  }

  /** A schedule call that comes while a pass is about to fire the workspace is followed by an attempt at once. */
  lemma InterruptedPassIsEarly(s: Scheduler, ws: string, sender: string, now: Time) returns (moves: seq<Move>)
    requires ws in s.ready && s.passNow <= now
    ensures Fits(Moved(s, Reschedule(ws, sender, now)), moves) && NoReschedule(moves, ws)
    ensures AttemptLog(Moved(s, Reschedule(ws, sender, now)), moves, ws) == [s.passNow]
    ensures s.passNow < now + Lead(1) * NANOS
  {
    var start := Moved(s, Reschedule(ws, sender, now));
    moves := [FireNext(ws, Reading(Woken(true), true, now))];
    assert moves[1..] == [];
    assert AttemptLog(Moved(start, moves[0]), [], ws) == [];
  }

  /** So the lead times hold for everything that may follow a schedule call exactly when no pass is about to fire it. */
  lemma LeadTimesIff(s: Scheduler, ws: string, sender: string, now: Time)
    requires s.passNow <= now
    ensures ws !in s.ready <==>
            forall moves :: Fits(Moved(s, Reschedule(ws, sender, now)), moves) && NoReschedule(moves, ws)
                            ==> Late(AttemptLog(Moved(s, Reschedule(ws, sender, now)), moves, ws), now, 0)
  {
    var start := Moved(s, Reschedule(ws, sender, now));
    if ws in s.ready {
      var moves := InterruptedPassIsEarly(s, ws, sender, now);
      assert !Late(AttemptLog(start, moves, ws), now, 0) by { assert AttemptLog(start, moves, ws)[0] == s.passNow; }
    } else {
      forall moves | Fits(start, moves) && NoReschedule(moves, ws) ensures Late(AttemptLog(start, moves, ws), now, 0) {
        AttemptsAreLate(start, moves, ws, now, 0);
      }
    }
  }

  // ---------- the scheduler in place ----------

  class WakeScheduler {
    var pending: Pending

    constructor ()
      ensures pending == map[]
    {
      pending := map[];
    }

    method Schedule(workspace: string, sender: string, now: Time)
      modifies this
      ensures pending == Step(old(pending), WakeOp.Schedule(workspace, sender, now))
    {
      var next := now + FIRST_RETRY;
      pending := pending[workspace := Wake(sender, 0, next)];
    }

    method Cancel(workspace: string)
      modifies this
      ensures pending == Step(old(pending), CancelWake(workspace))
    {
      pending := pending - {workspace};
    }

    method AdvanceAttempt(workspace: string, failed: bool, keepRetrying: bool, at: Time)
      modifies this
      ensures workspace !in old(pending) ==> pending == old(pending)
      ensures workspace in old(pending) ==>
                var next := Advance(old(pending)[workspace], failed, keepRetrying, at);
                pending == if next.Some? then old(pending)[workspace := next.value] else old(pending) - {workspace}
    {
      if workspace !in pending {
        return;
      }
      var entry := pending[workspace];
      entry := entry.(attempts := entry.attempts + 1);
      if failed || entry.attempts >= MAX_ATTEMPTS || !keepRetrying {
        pending := pending - {workspace};
        return;
      }
      entry := entry.(nextRetry := at + Backoff(entry.attempts));
      pending := pending[workspace := entry];
    }

    /** The step a due entry takes, unless it has gone since the pass collected it. */
    method FireEntry(workspace: string, r: Reading)
      modifies this
      ensures pending == FiredIfThere(old(pending), workspace, r)
    {
      match r.probe
      case NoMail => Cancel(workspace);
      case NoSession(ensured) =>
        if !ensured {
          Cancel(workspace);
        } else {
          AdvanceAttempt(workspace, false, r.keepRetrying, r.at);
        }
      case Busy =>
        if workspace in pending {
          pending := pending[workspace := pending[workspace].(nextRetry := r.at + CHECK_INTERVAL)];
        }
      case Woken(ok) => AdvanceAttempt(workspace, !ok, r.keepRetrying, r.at);
    }

    method FireAll(ready: seq<string>, readings: string -> Reading)
      requires forall i, j :: 0 <= i < j < |ready| ==> ready[i] != ready[j]
      requires forall i :: 0 <= i < |ready| ==> ready[i] in pending
      modifies this
      ensures pending == PartlyProcessed(old(pending), set i | 0 <= i < |ready| :: ready[i], readings)
    {
      ghost var fired: set<string> := {};
      for i := 0 to |ready|
        invariant fired == set k | 0 <= k < i :: ready[k]
        invariant pending == PartlyProcessed(old(pending), fired, readings)
      {
        FireOneMore(old(pending), fired, readings, ready[i]);
        FireEntry(ready[i], readings(ready[i]));
        fired := fired + {ready[i]};
      }
    }

    /** The entries a pass is going to fire. */
    method CollectDue(now: Time) returns (ready: seq<string>)
      ensures forall i, j :: 0 <= i < j < |ready| ==> ready[i] != ready[j]
      ensures forall ws :: ws in ready <==> ws in DueEntries(pending, now)
    {
      ready := SortedKeys(set ws | ws in pending && Due(pending[ws], now));
    }

    /** A pass that nothing interrupts. */
    method Process(now: Time, readings: string -> Reading)
      modifies this
      ensures pending == Step(old(pending), WakeOp.Process(now, readings))
    {
      var ready := CollectDue(now);
      assert forall i :: 0 <= i < |ready| ==> ready[i] in ready;
      FireAll(ready, readings);
      assert (set i | 0 <= i < |ready| :: ready[i]) == DueEntries(old(pending), now) by {
        forall ws | ws in DueEntries(old(pending), now) ensures ws in (set i | 0 <= i < |ready| :: ready[i]) {
          var i :| 0 <= i < |ready| && ready[i] == ws;
        }
      }
    }
  }
}
