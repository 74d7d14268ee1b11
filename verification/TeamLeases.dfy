/**
  Applying a team reconfiguration. A begin first plans against the stored state, without holding the lease
  table, and later commits the plan under the table's lock: it stores the planned state and takes a two-minute
  lease. A finish redeems the token under that lock, lets go of it, fetches the stored state and puts it back with
  a report. The steps of different calls may interleave.
 */
module TeamLeases {
  import opened Prelude

  const LEASE_TTL: int := 120 * NANOS

  datatype Mode = ArtifactsOnly | StartMissing

  /** A ticket token names its team and the instant of issue. */
  datatype Token = Token(team: string, issuedAt: Time)

  datatype Lease = Lease(token: Token, startedAt: Time, expiry: Time, mode: Mode)

  datatype Report = Report(startedAt: Time, finishedAt: Time, success: bool, mode: Mode)

  datatype TeamState<O> = TeamState(revision: int, overlay: O, lastApply: Option<Report>)

  /** A begin between its plan and its commit: the state it is going to store. */
  datatype Call<O> = Call(team: string, next: TeamState<O>, mode: Mode)

  /** A finish that has redeemed its lease, and then fetched the state it is going to put back. */
  datatype Closing<O> =
    | Redeemed(lease: Lease, success: bool, finishedAt: Time)
    | Fetched(team: string, next: TeamState<O>)

  datatype Controller<O> = Controller(
    store: map<string, TeamState<O>>, leases: map<string, Lease>, calls: map<nat, Call<O>>, closings: map<nat,
    Closing<O>>)

  datatype TeamError =
    | FeatureDisabled | RevisionMismatch(expected: int, got: int) | PlanFailed
    | ApplyInProgress | TokenNotFound | StateNotFound | Persist

  /**
    A step. `planned` is the overlay the requested changes lead to, none when they are refused or the result
    cannot be materialised; `materialised` and `persistOk` are the outcomes of the writes. A call goes by one
    identity through its steps.
   */
  datatype Event<O> =
    | Plan(id: nat, team: string, expected: Option<int>, planned: Option<O>, mode: Option<Mode>, feature: bool)
    | Commit(id: nat, now: Time, materialised: bool, persistOk: bool)
    | Redeem(id: nat, token: Token, success: bool, now: Time)
    | Fetch(id: nat)
    | Record(id: nat, persistOk: bool)

  datatype Outcome<O> =
    | Pending | Granted(token: Token) | Finished(state: TeamState<O>) | Refused(error: TeamError)

  datatype Stepped<O> = Stepped(controller: Controller<O>, outcome: Outcome<O>)

  /** The state a team starts from: its stored one, or revision zero over the default overlay. */
  function Current<O>(c: Controller<O>, team: string, initial: O): TeamState<O> {
    if team in c.store then c.store[team] else TeamState(0, initial, None)
  }

  function PlanApply<O>(c: Controller<O>, e: Event<O>, initial: O): Stepped<O>
    requires e.Plan?
  {
    var current := Current(c, e.team, initial);
    if !e.feature then Stepped(c, Refused(FeatureDisabled))
    else if e.expected.Some? && e.expected.value != current.revision
    then Stepped(c, Refused(RevisionMismatch(e.expected.value, current.revision)))
    else if e.planned.None? then Stepped(c, Refused(PlanFailed))
    else
      var next := current.(revision := current.revision + 1, overlay := e.planned.value);
      var call := Call(e.team, next, if e.mode.Some? then e.mode.value else ArtifactsOnly);
      Stepped(c.(calls := c.calls[e.id := call]), Pending)
  }

  function CommitError<O>(c: Controller<O>, e: Event<O>): Option<TeamError>
    requires e.Commit? && e.id in c.calls
  {
    var team := c.calls[e.id].team;
    if team in c.leases && c.leases[team].expiry > e.now then Some(ApplyInProgress)
    else if !e.materialised then Some(PlanFailed)
    else None
  }

  /** The planned state is stored as it is, whatever is stored by then; a failed write keeps it but grants nothing. */
  function CommitApply<O>(c: Controller<O>, e: Event<O>): Stepped<O>
    requires e.Commit? && e.id in c.calls
  {
    var call, done := c.calls[e.id], c.(calls := c.calls - {e.id});
    var error := CommitError(c, e);
    if error.Some? then Stepped(done, Refused(error.value)) else
      var stored := done.(store := c.store[call.team := call.next]);
      if !e.persistOk then Stepped(stored, Refused(Persist)) else
        var token := Token(call.team, e.now);
        Stepped(stored.(leases := c.leases[call.team := Lease(token, e.now, e.now + LEASE_TTL, call.mode)]),
                Granted(token))
  }

  function Holders(leases: map<string, Lease>, token: Token): set<string> {
    set t | t in leases && leases[t].token == token
  }

  /** The lease goes even when the rest of the call fails; its expiry is not looked at. */
  function RedeemLease<O>(c: Controller<O>, e: Event<O>): Stepped<O>
    requires e.Redeem?
  {
    var holders := Holders(c.leases, e.token);
    if holders == {} then Stepped(c, Refused(TokenNotFound)) else
      var holder := MinKey(holders);
      Stepped(c.(leases := c.leases - {holder},
                 closings := c.closings[e.id := Redeemed(c.leases[holder], e.success, e.now)]),
              Pending)
  }

  /** The stored state with the report of the apply. */
  function Reported<O>(state: TeamState<O>, closing: Closing<O>): TeamState<O>
    requires closing.Redeemed?
  {
    state.(lastApply := Some(Report(closing.lease.startedAt, closing.finishedAt, closing.success, closing.lease.mode)))
  }

  function FetchState<O>(c: Controller<O>, e: Event<O>): Stepped<O>
    requires e.Fetch? && e.id in c.closings && c.closings[e.id].Redeemed?
  {
    var closing := c.closings[e.id];
    var team := closing.lease.token.team;
    if team !in c.store then Stepped(c.(closings := c.closings - {e.id}), Refused(StateNotFound))
    else Stepped(c.(closings := c.closings[e.id := Fetched(team, Reported(c.store[team], closing))]), Pending)
  }

  /** The fetched state is put back as it is, whatever is stored by then. */
  function RecordReport<O>(c: Controller<O>, e: Event<O>): Stepped<O>
    requires e.Record? && e.id in c.closings && c.closings[e.id].Fetched?
  {
    var closing := c.closings[e.id];
    Stepped(c.(store := c.store[closing.team := closing.next], closings := c.closings - {e.id}),
            if e.persistOk then Finished(closing.next) else Refused(Persist))
  }

  /** A call takes its steps in order. */
  predicate Enabled<O>(c: Controller<O>, e: Event<O>) {
    match e
    case Commit(id, _, _, _) => id in c.calls
    case Fetch(id) => id in c.closings && c.closings[id].Redeemed?
    case Record(id, _) => id in c.closings && c.closings[id].Fetched?
    case _ => true
  }

  function Step<O>(c: Controller<O>, e: Event<O>, initial: O): Stepped<O>
    requires Enabled(c, e)
  {
    match e
    case Plan(_, _, _, _, _, _) => PlanApply(c, e, initial)
    case Commit(_, _, _, _) => CommitApply(c, e)
    case Redeem(_, _, _, _) => RedeemLease(c, e)
    case Fetch(_) => FetchState(c, e)
    case Record(_, _) => RecordReport(c, e)
  }

  // ---------- runs ----------

  function Empty<O>(): Controller<O> { Controller(map[], map[], map[], map[]) }

  /** Different calls have different identities. */
  predicate Apart<O>(a: Event<O>, b: Event<O>) {
    (a.Plan? && b.Plan?) || (a.Redeem? && b.Redeem?) || (a.Fetch? && b.Fetch?) ==> a.id != b.id
  }

  ghost predicate IsRun<O>(states: seq<Controller<O>>, events: seq<Event<O>>, initial: O) {
    && |states| == |events| + 1
    && states[0] == Empty()
    && (forall i :: 0 <= i < |events| ==>
          Enabled(states[i], events[i]) && states[i + 1] == Step(states[i], events[i], initial).controller)
    && (forall i, j :: 0 <= i < j < |events| ==> Apart(events[i], events[j]))
  }

  predicate LeaseOk<O>(lease: Lease, team: string, store: map<string, TeamState<O>>) {
    && lease.token == Token(team, lease.startedAt)
    && lease.expiry == lease.startedAt + LEASE_TTL
    && team in store
  }

  /** Leases are filed under the team of their token, run for the full term, and only for stored teams. */
  ghost predicate LeasesOk<O>(c: Controller<O>) {
    forall t :: t in c.leases ==> LeaseOk(c.leases[t], t, c.store)
  }

  lemma StepKeepsLeases<O>(c: Controller<O>, e: Event<O>, initial: O)
    requires LeasesOk(c) && Enabled(c, e)
    ensures LeasesOk(Step(c, e, initial).controller)
  {}

  lemma {:induction false} RunLeases<O>(states: seq<Controller<O>>, events: seq<Event<O>>, initial: O, n: nat)
    requires IsRun(states, events, initial) && n < |states|
    ensures LeasesOk(states[n])
  {
    if n > 0 {
      RunLeases(states, events, initial, n - 1);
      StepKeepsLeases(states[n - 1], events[n - 1], initial);
    }
  }

  // ---------- revisions ----------

  /** The step commits a plan for the team and reaches the store. */
  predicate Stores<O>(c: Controller<O>, e: Event<O>, team: string) {
    e.Commit? && e.id in c.calls && c.calls[e.id].team == team && CommitError(c, e).None?
  }

  /** How many commits for the team reached the store during the events from `i` up to `j`. */
  ghost function Commits<O>(states: seq<Controller<O>>, events: seq<Event<O>>, team: string, i: nat, j: nat): nat
    requires i <= j <= |events| <= |states|
    decreases j - i
  {
    if i == j then 0 else
      Commits(states, events, team, i, j - 1) + if Stores(states[j - 1], events[j - 1], team) then 1 else 0
  }

  lemma {:induction false} CommitsSplit<O>(states: seq<Controller<O>>, events: seq<Event<O>>, team: string, i: nat,
                                           j: nat, k: nat)
    requires i <= j <= k <= |events| <= |states|
    ensures Commits(states, events, team, i, k)
            == Commits(states, events, team, i, j) + Commits(states, events, team, j, k)
    decreases k
  {
    if j < k { CommitsSplit(states, events, team, i, j, k - 1); }
  }

  /** The pending call holds what its plan step computed. */
  ghost predicate PlannedAt<O>(states: seq<Controller<O>>, events: seq<Event<O>>, initial: O, i: nat, id: nat,
                               call: Call<O>)
    requires i < |events| <= |states|
  {
    var current := Current(states[i], call.team, initial);
    && events[i].Plan? && events[i].id == id && events[i].team == call.team && events[i].planned.Some?
    && (events[i].expected.Some? ==> events[i].expected.value == current.revision)
    && call.next == current.(revision := current.revision + 1, overlay := events[i].planned.value)
  }

  lemma {:induction false} PlanOf<O>(states: seq<Controller<O>>, events: seq<Event<O>>, initial: O, n: nat, id: nat)
    returns (i: nat)
    requires IsRun(states, events, initial) && n < |states| && id in states[n].calls
    ensures i < n && PlannedAt(states, events, initial, i, id, states[n].calls[id])
  {
    if id in states[n - 1].calls && states[n - 1].calls[id] == states[n].calls[id] {
      i := PlanOf(states, events, initial, n - 1, id);
    } else {
      i := n - 1;
    }
  }

  /** A finish about to put back holds the revision and the overlay that were stored when it fetched. */
  ghost predicate FetchedAt<O>(states: seq<Controller<O>>, events: seq<Event<O>>, initial: O, i: nat, id: nat,
                               closing: Closing<O>)
    requires i < |events| <= |states| && closing.Fetched?
  {
    && events[i].Fetch? && events[i].id == id
    && closing.next.revision == Current(states[i], closing.team, initial).revision
    && closing.next.overlay == Current(states[i], closing.team, initial).overlay
  }

  lemma {:induction false} FetchOf<O>(states: seq<Controller<O>>, events: seq<Event<O>>, initial: O, n: nat, id: nat)
    returns (i: nat)
    requires IsRun(states, events, initial) && n < |states| && id in states[n].closings
             && states[n].closings[id].Fetched?
    ensures i < n && FetchedAt(states, events, initial, i, id, states[n].closings[id])
  {
    if id in states[n - 1].closings && states[n - 1].closings[id] == states[n].closings[id] {
      i := FetchOf(states, events, initial, n - 1, id);
    } else {
      i := n - 1;
    }
  }

  /** The step puts a fetched state of the team back. */
  predicate PutsBack<O>(c: Controller<O>, e: Event<O>, team: string) {
    e.Record? && e.id in c.closings && c.closings[e.id].Fetched? && c.closings[e.id].team == team
  }

  /** A step that neither stores a plan for the team nor puts its state back leaves its state alone. */
  lemma OtherStepsKeepState<O>(c: Controller<O>, e: Event<O>, initial: O, team: string)
    requires Enabled(c, e) && !Stores(c, e, team) && !PutsBack(c, e, team)
    ensures Current(Step(c, e, initial).controller, team, initial) == Current(c, team, initial)
  {}

  /** No commit for the team lands between the plan of a begin and the commit by which it reaches the store. */
  ghost predicate BeginsSerial<O>(states: seq<Controller<O>>, events: seq<Event<O>>, team: string, n: nat)
    requires n <= |events| <= |states|
  {
    forall i, j ::
      (0 <= i < j < n && events[i].Plan? && events[j].Commit? && events[i].id == events[j].id
       && Stores(states[j], events[j], team))
      ==> Commits(states, events, team, i, j) == 0
  }

  /** No commit for the team lands between the fetch of a finish and its putting the state back. */
  ghost predicate FinishesSerial<O>(states: seq<Controller<O>>, events: seq<Event<O>>, team: string, n: nat)
    requires n <= |events| <= |states|
  {
    forall i, j ::
      (0 <= i < j < n && events[i].Fetch? && events[j].Record? && events[i].id == events[j].id
       && PutsBack(states[j], events[j], team))
      ==> Commits(states, events, team, i, j) == 0
  }

  ghost predicate Serial<O>(states: seq<Controller<O>>, events: seq<Event<O>>, team: string, n: nat)
    requires n <= |events| <= |states|
  {
    BeginsSerial(states, events, team, n) && FinishesSerial(states, events, team, n)
  }

  /** The stored revision is the number of commits, at every point up to `n`. */
  ghost predicate Counted<O>(states: seq<Controller<O>>, events: seq<Event<O>>, initial: O, team: string, n: nat)
    requires n <= |events| < |states|
  {
    forall m :: 0 <= m <= n ==> Current(states[m], team, initial).revision == Commits(states, events, team, 0, m)
  }

  /** Calls that run one at a time, each step right after the one before it, are serial. */
  lemma OneAtATimeIsSerial<O>(states: seq<Controller<O>>, events: seq<Event<O>>, initial: O, team: string)
    requires IsRun(states, events, initial)
    requires forall j :: 0 <= j < |events| && (events[j].Commit? || events[j].Record?) ==>
               && j > 0
               && (events[j].Commit? ==> events[j - 1].Plan? && events[j - 1].id == events[j].id)
               && (events[j].Record? ==> events[j - 1].Fetch? && events[j - 1].id == events[j].id)
    ensures Serial(states, events, team, |events|)
  {
    forall i, j | 0 <= i < j < |events| && events[j].Commit? && events[i].Plan? && events[i].id == events[j].id
      ensures Commits(states, events, team, i, j) == 0
    {
      var k := j - 1;
      assert events[k].Plan? && events[k].id == events[i].id;
      SameStep(states, events, initial, i, k);
      assert Commits(states, events, team, i, i) == 0;
    }
    forall i, j | 0 <= i < j < |events| && events[j].Record? && events[i].Fetch? && events[i].id == events[j].id
      ensures Commits(states, events, team, i, j) == 0
    {
      var k := j - 1;
      assert events[k].Fetch? && events[k].id == events[i].id;
      SameStep(states, events, initial, i, k);
      assert Commits(states, events, team, i, i) == 0;
    }
  }

  /** A call plans once and fetches once. */
  lemma SameStep<O>(states: seq<Controller<O>>, events: seq<Event<O>>, initial: O, i: nat, k: nat)
    requires IsRun(states, events, initial) && i < |events| && k < |events|
    requires (events[i].Plan? && events[k].Plan?) || (events[i].Fetch? && events[k].Fetch?)
    requires events[i].id == events[k].id
    ensures i == k
  {
    assert i < k ==> Apart(events[i], events[k]);
    assert k < i ==> Apart(events[k], events[i]);
  }

  lemma CommitAdvances<O>(states: seq<Controller<O>>, events: seq<Event<O>>, initial: O, team: string, j: nat)
    returns (i: nat)
    requires IsRun(states, events, initial) && j < |events| && Stores(states[j], events[j], team)
    ensures i < j && PlannedAt(states, events, initial, i, events[j].id, states[j].calls[events[j].id])
    ensures Current(states[j + 1], team, initial).revision == Current(states[i], team, initial).revision + 1
    ensures Current(states[j + 1], team, initial).overlay == events[i].planned.value
  {
    i := PlanOf(states, events, initial, j, events[j].id);
  }

  lemma PutBackRestores<O>(states: seq<Controller<O>>, events: seq<Event<O>>, initial: O, team: string, j: nat)
    returns (i: nat)
    requires IsRun(states, events, initial) && j < |events| && PutsBack(states[j], events[j], team)
    ensures i < j && events[i].Fetch? && events[i].id == events[j].id
    ensures Current(states[j + 1], team, initial).revision == Current(states[i], team, initial).revision
    ensures Current(states[j + 1], team, initial).overlay == Current(states[i], team, initial).overlay
  {
    i := FetchOf(states, events, initial, j, events[j].id);
  }

  lemma {:induction false} SerialCounts<O>(states: seq<Controller<O>>, events: seq<Event<O>>, initial: O, team: string,
                                           n: nat)
    requires IsRun(states, events, initial) && n <= |events| && Serial(states, events, team, n)
    ensures Counted(states, events, initial, team, n)
  {
    if n > 0 {
      SerialCounts(states, events, initial, team, n - 1);
      CountNext(states, events, initial, team, n - 1);
    }
  }

  lemma CountNext<O>(states: seq<Controller<O>>, events: seq<Event<O>>, initial: O, team: string, n: nat)
    requires IsRun(states, events, initial) && n < |events|
    requires Serial(states, events, team, n + 1) && Counted(states, events, initial, team, n)
    ensures Current(states[n + 1], team, initial).revision == Commits(states, events, team, 0, n + 1)
  {
    if Stores(states[n], events[n], team) {
      var i := CommitAdvances(states, events, initial, team, n);
      CommitsSplit(states, events, team, 0, i, n);
    } else if PutsBack(states[n], events[n], team) {
      var i := PutBackRestores(states, events, initial, team, n);
      CommitsSplit(states, events, team, 0, i, n);
    } else {
      OtherStepsKeepState(states[n], events[n], initial, team);
    }
  }

  lemma CountedIsSerial<O>(states: seq<Controller<O>>, events: seq<Event<O>>, initial: O, team: string, n: nat)
    requires IsRun(states, events, initial) && n <= |events| && Counted(states, events, initial, team, n)
    ensures Serial(states, events, team, n)
  {
    forall i, j | 0 <= i < j < n && events[i].Plan? && events[j].Commit? && events[i].id == events[j].id
                  && Stores(states[j], events[j], team)
      ensures Commits(states, events, team, i, j) == 0
    {
      var p := CommitAdvances(states, events, initial, team, j);
      SameStep(states, events, initial, i, p);
      CommitsSplit(states, events, team, 0, i, j);
      assert Commits(states, events, team, 0, j + 1) == Commits(states, events, team, 0, j) + 1;
    }
    forall i, j | 0 <= i < j < n && events[i].Fetch? && events[j].Record? && events[i].id == events[j].id
                  && PutsBack(states[j], events[j], team)
      ensures Commits(states, events, team, i, j) == 0
    {
      var p := PutBackRestores(states, events, initial, team, j);
      SameStep(states, events, initial, i, p);
      CommitsSplit(states, events, team, 0, i, j);
      assert Commits(states, events, team, 0, j + 1) == Commits(states, events, team, 0, j);
    }
  }

  /**
    The stored revision counts the applies that reached the store exactly when calls of the team do not overlap
    harmfully: no commit falls between a begin's plan and its own commit, and none between a finish's fetch and its
    putting the state back.
   */
  lemma RevisionCountsIffSerial<O>(states: seq<Controller<O>>, events: seq<Event<O>>, initial: O, team: string)
    requires IsRun(states, events, initial)
    ensures Counted(states, events, initial, team, |events|) <==> Serial(states, events, team, |events|)
  {
    if Serial(states, events, team, |events|) { SerialCounts(states, events, initial, team, |events|); }
    if Counted(states, events, initial, team, |events|) { CountedIsSerial(states, events, initial, team, |events|); }
  }

  /** In a serial run only commits change the overlay. */
  lemma {:induction false} QuietKeepsOverlay<O>(states: seq<Controller<O>>, events: seq<Event<O>>, initial: O,
                                                team: string, i: nat, j: nat)
    requires IsRun(states, events, initial) && Serial(states, events, team, |events|)
    requires i <= j < |states| && Commits(states, events, team, i, j) == 0
    ensures Current(states[j], team, initial).overlay == Current(states[i], team, initial).overlay
    decreases j
  {
    if i < j {
      QuietKeepsOverlay(states, events, initial, team, i, j - 1);
      if PutsBack(states[j - 1], events[j - 1], team) {
        var f := PutBackRestores(states, events, initial, team, j - 1);
        QuietKeepsOverlay(states, events, initial, team, f, j - 1);
      } else {
        OtherStepsKeepState(states[j - 1], events[j - 1], initial, team);
      }
    }
  }

  /**
    In a serial run, a begin that names the revision its caller read reaches the store only if no apply
    intervened since that read: it replaces the overlay its caller saw, and makes the next revision.
   */
  lemma ExpectedRevisionGuards<O>(states: seq<Controller<O>>, events: seq<Event<O>>, initial: O, team: string, r: nat,
                                  i: nat, j: nat)
    requires IsRun(states, events, initial) && Serial(states, events, team, |events|) && r <= i < j < |events|
    requires events[i].Plan? && events[i].expected == Some(Current(states[r], team, initial).revision)
    requires events[j].Commit? && events[j].id == events[i].id && Stores(states[j], events[j], team)
    ensures Commits(states, events, team, r, j) == 0
    ensures Current(states[j], team, initial).overlay == Current(states[r], team, initial).overlay
    ensures Current(states[j + 1], team, initial).revision == Current(states[r], team, initial).revision + 1
  {
    SerialCounts(states, events, initial, team, |events|);
    var p := CommitAdvances(states, events, initial, team, j);
    SameStep(states, events, initial, i, p);
    assert Counted(states, events, initial, team, |events|);
    CommitsSplit(states, events, team, 0, r, i);
    CommitsSplit(states, events, team, r, i, j);
    QuietKeepsOverlay(states, events, initial, team, r, j);
  }

  // ---------- runs that lose an update ----------

  function PlanOn<O>(id: nat, team: string, revision: int, planned: O): Event<O> {
    Plan(id, team, Some(revision), Some(planned), None, true)
  }

  /** A plan on the stored revision, pending in the new state. */
  lemma PlanPends<O>(c: Controller<O>, id: nat, team: string, planned: O, initial: O) returns (after: Controller<O>)
    ensures after == Step(c, PlanOn(id, team, Current(c, team, initial).revision, planned), initial).controller
    ensures after.store == c.store && after.leases == c.leases && after.closings == c.closings
    ensures after.calls.Keys == c.calls.Keys + {id} && forall x :: x in c.calls && x != id ==>
              after.calls[x] == c.calls[x]
    ensures after.calls[id].team == team && after.calls[id].next.revision == Current(c, team, initial).revision + 1
    ensures after.calls[id].next.overlay == planned
  {
    after := Step(c, PlanOn(id, team, Current(c, team, initial).revision, planned), initial).controller;
  }

  /** A commit for a team without a lease. */
  lemma CommitLands<O>(c: Controller<O>, id: nat, now: Time, initial: O) returns (after: Controller<O>)
    requires id in c.calls && c.leases == map[]
    ensures var call := c.calls[id];
            && after == Step(c, Commit(id, now, true, true), initial).controller
            && after.store == c.store[call.team := call.next] && after.calls == c.calls - {id}
               && after.closings == c.closings
            && after.leases == map[call.team := Lease(Token(call.team, now), now, now + LEASE_TTL, call.mode)]
            && Grants(c, Commit(id, now, true, true), call.team)
  {
    after := Step(c, Commit(id, now, true, true), initial).controller;
  }

  /** The only lease is redeemed and its team's state fetched. */
  lemma RedeemFetches<O>(c: Controller<O>, id: nat, team: string, now: Time, mode: Mode, initial: O)
    returns (mid: Controller<O>, after: Controller<O>)
    requires team in c.store && c.leases == map[team := Lease(Token(team, now), now, now + LEASE_TTL, mode)]
    ensures var redeem: Event<O> := Redeem(id, Token(team, now), true, now);
            && mid == Step(c, redeem, initial).controller && Redeems(c, redeem, Token(team, now))
            && Enabled(mid, Fetch(id)) && after == Step(mid, Fetch(id), initial).controller
    ensures after.store == c.store && after.leases == map[] && after.calls == c.calls
    ensures after.closings.Keys == c.closings.Keys + {id} && after.closings[id].Fetched?
            && after.closings[id].team == team
    ensures after.closings[id].next.revision == c.store[team].revision
            && after.closings[id].next.overlay == c.store[team].overlay
  {
    assert Holders(c.leases, Token(team, now)) == {team};
    mid := Step(c, Redeem(id, Token(team, now), true, now), initial).controller;
    after := Step(mid, Fetch(id), initial).controller;
  }

  /** A run goes on by one more step. */
  lemma Extend<O>(states: seq<Controller<O>>, events: seq<Event<O>>, e: Event<O>, next: Controller<O>, initial: O)
    requires IsRun(states, events, initial) && Enabled(states[|events|], e)
    requires next == Step(states[|events|], e, initial).controller
    requires forall i :: 0 <= i < |events| ==> Apart(events[i], e)
    ensures IsRun(states + [next], events + [e], initial)
  {
    var s, v := states + [next], events + [e];
    forall i | 0 <= i < |v| ensures Enabled(s[i], v[i]) && s[i + 1] == Step(s[i], v[i], initial).controller {
      if i < |events| { assert s[i] == states[i] && v[i] == events[i]; }
    }
    forall i, j | 0 <= i < j < |v| ensures Apart(v[i], v[j]) {
      if j < |events| { assert Apart(events[i], events[j]); }
    }
  }

  /** The commit of a pending call is granted, in a run that has no lease. */
  lemma CommitNext<O>(states: seq<Controller<O>>, events: seq<Event<O>>, id: nat, team: string, now: Time, initial: O)
    returns (next: Controller<O>)
    requires IsRun(states, events, initial) && id in states[|events|].calls && states[|events|].calls[id].team == team
    requires states[|events|].leases == map[]
    ensures IsRun(states + [next], events + [Commit(id, now, true, true)], initial)
    ensures Grants(states[|events|], Commit(id, now, true, true), team)
    ensures var c := states[|events|];
            && next.store == c.store[team := c.calls[id].next] && next.calls == c.calls - {id}
               && next.closings == c.closings
            && next.leases == map[team := Lease(Token(team, now), now, now + LEASE_TTL, c.calls[id].mode)]
  {
    next := CommitLands(states[|events|], id, now, initial);
    Extend(states, events, Commit(id, now, true, true), next, initial);
  }

  lemma PlanNext<O>(states: seq<Controller<O>>, events: seq<Event<O>>, id: nat, team: string, revision: int, planned: O,
                    initial: O)
    returns (next: Controller<O>)
    requires IsRun(states, events, initial) && forall i :: 0 <= i < |events| && events[i].Plan? ==> events[i].id != id
    requires revision == Current(states[|events|], team, initial).revision
    ensures IsRun(states + [next], events + [PlanOn(id, team, revision, planned)], initial)
    ensures var c := states[|events|];
            && next.store == c.store && next.leases == c.leases && next.closings == c.closings
            && next.calls.Keys == c.calls.Keys + {id}
               && (forall x :: x in c.calls && x != id ==> next.calls[x] == c.calls[x])
            && next.calls[id] == Call(team, Current(c, team, initial).(revision := revision + 1, overlay := planned),
                                      ArtifactsOnly)
  {
    next := PlanPends(states[|events|], id, team, planned, initial);
    Extend(states, events, PlanOn(id, team, revision, planned), next, initial);
  }

  lemma RedeemNext<O>(states: seq<Controller<O>>, events: seq<Event<O>>, id: nat, team: string, now: Time, initial: O)
    returns (mid: Controller<O>, next: Controller<O>)
    requires IsRun(states, events, initial)
    requires forall i :: 0 <= i < |events| && (events[i].Redeem? || events[i].Fetch?) ==> events[i].id != id
    requires var c := states[|events|];
             team in c.store && c.leases == map[team := Lease(Token(team, now), now, now + LEASE_TTL, ArtifactsOnly)]
    ensures IsRun(states + [mid] + [next], events + [Redeem(id, Token(team, now), true, now)] + [Fetch(id)], initial)
    ensures Redeems(states[|events|], Redeem(id, Token(team, now), true, now), Token(team, now))
    ensures var c := states[|events|];
            && next.store == c.store && next.leases == map[] && next.calls == c.calls
            && id in next.closings && next.closings[id].Fetched? && next.closings[id].team == team
            && next.closings[id].next.revision == c.store[team].revision
            && next.closings[id].next.overlay == c.store[team].overlay
  {
    mid, next := RedeemFetches(states[|events|], id, team, now, ArtifactsOnly, initial);
    var redeem: Event<O> := Redeem(id, Token(team, now), true, now);
    Extend(states, events, redeem, mid, initial);
    Extend(states + [mid], events + [redeem], Fetch(id), next, initial);
  }

  lemma RecordNext<O>(states: seq<Controller<O>>, events: seq<Event<O>>, id: nat, initial: O)
    returns (next: Controller<O>)
    requires IsRun(states, events, initial) && id in states[|events|].closings && states[|events|].closings[id].Fetched?
    ensures IsRun(states + [next], events + [Record(id, true)], initial)
    ensures var c := states[|events|];
            next.store == c.store[c.closings[id].team := c.closings[id].next] && next.leases == c.leases
            && next.calls == c.calls
  {
    var record: Event<O> := Record(id, true);
    next := Step(states[|events|], record, initial).controller;
    Extend(states, events, record, next, initial);
  }

  /** The first apply of a team, up to the point where its finish has fetched the state. */
  lemma Opening<O>(initial: O, a: O, team: string, now: Time)
    returns (states: seq<Controller<O>>, events: seq<Event<O>>)
    ensures IsRun(states, events, initial)
    ensures events == [PlanOn(0, team, 0, a), Commit(0, now, true, true), Redeem(0, Token(team, now), true, now),
                       Fetch(0)]
    ensures Grants(states[1], events[1], team) && Redeems(states[2], events[2], Token(team, now))
    ensures var c := states[4];
            && team in c.store && c.store[team].revision == 1 && c.store[team].overlay == a && c.leases == map[]
               && c.calls == map[]
            && 0 in c.closings && c.closings[0].Fetched? && c.closings[0].team == team
            && c.closings[0].next.revision == 1 && c.closings[0].next.overlay == a
  {
    states, events := [Empty()], [];
    var s1 := PlanNext(states, events, 0, team, 0, a, initial);
    states, events := states + [s1], events + [PlanOn(0, team, 0, a)];
    var s2 := CommitNext(states, events, 0, team, now, initial);
    states, events := states + [s2], events + [Commit(0, now, true, true)];
    var s3, s4 := RedeemNext(states, events, 0, team, now, initial);
    states, events := states + [s3] + [s4], events + [Redeem(0, Token(team, now), true, now)] + [Fetch(0)];
  }

  /**
    Overlapping begins lose an update: two calls that both expect revision 0 are both granted when the first
    lease is redeemed before the second commit. The first overlay is gone and the revision stands at 1.
   */
  lemma OverlappingBeginsLoseUpdate<O>(initial: O, a: O, b: O, team: string, now: Time)
    returns (states: seq<Controller<O>>, events: seq<Event<O>>)
    ensures IsRun(states, events, initial) && |events| == 6
    ensures events[0] == PlanOn(0, team, 0, a) && events[1] == PlanOn(1, team, 0, b)
    ensures Grants(states[2], events[2], team) && Grants(states[5], events[5], team)
    ensures Current(states[6], team, initial).revision == 1 && Current(states[6], team, initial).overlay == b
  {
    states, events := [Empty()], [];
    var s1 := PlanNext(states, events, 0, team, 0, a, initial);
    states, events := states + [s1], events + [PlanOn(0, team, 0, a)];
    var s2 := PlanNext(states, events, 1, team, 0, b, initial);
    states, events := states + [s2], events + [PlanOn(1, team, 0, b)];
    var s3 := CommitNext(states, events, 0, team, now, initial);
    states, events := states + [s3], events + [Commit(0, now, true, true)];
    var s4, s5 := RedeemNext(states, events, 0, team, now, initial);
    states, events := states + [s4] + [s5], events + [Redeem(0, Token(team, now), true, now)] + [Fetch(0)];
    var s6 := CommitNext(states, events, 1, team, now, initial);
    states, events := states + [s6], events + [Commit(1, now, true, true)];
  }

  /**
    So does a begin inside a finish: the finish fetches revision 1, a whole begin makes revision 2, and the finish
    puts revision 1 back. No commit falls between a begin's plan and its commit, yet the second overlay is gone.
   */
  lemma BeginInsideFinishLosesUpdate<O>(initial: O, a: O, b: O, team: string, now: Time)
    returns (states: seq<Controller<O>>, events: seq<Event<O>>)
    ensures IsRun(states, events, initial) && |events| == 7
    ensures Grants(states[1], events[1], team) && Grants(states[5], events[5], team)
    ensures events[4] == PlanOn(1, team, 1, b) && BeginsSerial(states, events, team, 7)
    ensures Current(states[6], team, initial).revision == 2 && Current(states[6], team, initial).overlay == b
    ensures Current(states[7], team, initial).revision == 1 && Current(states[7], team, initial).overlay == a
  {
    states, events := Opening(initial, a, team, now);
    var s5 := PlanNext(states, events, 1, team, 1, b, initial);
    states, events := states + [s5], events + [PlanOn(1, team, 1, b)];
    var s6 := CommitNext(states, events, 1, team, now, initial);
    states, events := states + [s6], events + [Commit(1, now, true, true)];
    var s7 := RecordNext(states, events, 0, initial);
    states, events := states + [s7], events + [Record(0, true)];
    PairedBegins(states, events, team);
  }

  lemma PairedBegins<O>(states: seq<Controller<O>>, events: seq<Event<O>>, team: string)
    requires |states| == 8 && |events| == 7
    requires events[0].Plan? && events[1].Commit? && events[2].Redeem? && events[3].Fetch? && events[4].Plan?
             && events[5].Commit?
    requires events[0].id == 0 && events[1].id == 0 && events[4].id == 1 && events[5].id == 1 && events[6].Record?
    ensures BeginsSerial(states, events, team, 7)
  {
    assert Commits(states, events, team, 0, 0) == 0 && Commits(states, events, team, 4, 4) == 0;
    assert Commits(states, events, team, 0, 1) == 0 && Commits(states, events, team, 4, 5) == 0;
  }

  // ---------- exclusion ----------

  predicate Grants<O>(c: Controller<O>, e: Event<O>, team: string) {
    Stores(c, e, team) && e.persistOk
  }

  /** The step grants the team a lease, at the given instant or later. */
  predicate GrantsFrom<O>(c: Controller<O>, e: Event<O>, team: string, at: Time) {
    Grants(c, e, team) && e.now >= at
  }

  /** The step takes the lease of the token away. */
  predicate Redeems<O>(c: Controller<O>, e: Event<O>, token: Token) {
    e.Redeem? && e.token == token && Holders(c.leases, token) != {}
  }

  lemma LeaseStep<O>(c: Controller<O>, e: Event<O>, initial: O, team: string)
    requires LeasesOk(c) && Enabled(c, e) && team in c.leases
    ensures var after := Step(c, e, initial).controller;
            || (team in after.leases && after.leases[team] == c.leases[team])
            || Redeems(c, e, c.leases[team].token)
            || (Grants(c, e, team) && e.now >= c.leases[team].expiry)
  {
    if e.Redeem? && Holders(c.leases, e.token) != {} {
      assert MinKey(Holders(c.leases, e.token)) == e.token.team;
    }
  }

  /** A lease that was granted is held until it is redeemed or a later grant finds it expired. */
  lemma {:induction false} LeaseHolds<O>(states: seq<Controller<O>>, events: seq<Event<O>>, initial: O, team: string,
                                         i: nat, j: nat)
    requires IsRun(states, events, initial) && i < j < |states| && Grants(states[i], events[i], team)
    requires forall k :: i < k < j ==>
               && !Redeems(states[k], events[k], Token(team, events[i].now))
               && !GrantsFrom(states[k], events[k], team, events[i].now + LEASE_TTL)
    ensures team in states[j].leases
    ensures states[j].leases[team].token == Token(team, events[i].now)
    ensures states[j].leases[team].expiry == events[i].now + LEASE_TTL
    decreases j
  {
    if j > i + 1 {
      LeaseHolds(states, events, initial, team, i, j - 1);
      RunLeases(states, events, initial, j - 1);
      LeaseStep(states[j - 1], events[j - 1], initial, team);
    }
  }

  /**
    At most one unexpired lease for a team: after a grant, up to and including any later grant of the team, the
    lease was redeemed in between or some grant came at least 120 seconds after the first.
   */
  lemma GrantsExclude<O>(states: seq<Controller<O>>, events: seq<Event<O>>, initial: O, team: string, i: nat, j: nat)
    requires IsRun(states, events, initial) && i < j < |events|
    requires Grants(states[i], events[i], team) && Grants(states[j], events[j], team)
    ensures (exists k :: i < k < j && Redeems(states[k], events[k], Token(team, events[i].now)))
            || (exists k :: i < k <= j && GrantsFrom(states[k], events[k], team, events[i].now + 120 * NANOS))
  {
    if !(exists k :: i < k < j && Redeems(states[k], events[k], Token(team, events[i].now)))
       && !(exists k :: i < k < j && GrantsFrom(states[k], events[k], team, events[i].now + LEASE_TTL)) {
      LeaseHolds(states, events, initial, team, i, j);
      assert GrantsFrom(states[j], events[j], team, events[i].now + LEASE_TTL);
    }
  }

  /** The clock never goes backwards from one commit to a later one. */
  ghost predicate ClockForward<O>(events: seq<Event<O>>) {
    forall i, j :: 0 <= i < j < |events| && events[i].Commit? && events[j].Commit? ==> events[i].now <= events[j].now
  }

  /** Then a second grant comes after the first lease was redeemed, or at least 120 seconds after it was granted. */
  lemma GrantsKeepTerm<O>(states: seq<Controller<O>>, events: seq<Event<O>>, initial: O, team: string, i: nat, j: nat)
    requires IsRun(states, events, initial) && ClockForward(events) && i < j < |events|
    requires Grants(states[i], events[i], team) && Grants(states[j], events[j], team)
    ensures || (exists k :: i < k < j && Redeems(states[k], events[k], Token(team, events[i].now)))
            || events[j].now >= events[i].now + 120 * NANOS
  {
    GrantsExclude(states, events, initial, team, i, j);
  }

  // ---------- tokens ----------

  ghost function Redemptions<O>(states: seq<Controller<O>>, events: seq<Event<O>>, token: Token, n: nat): nat
    requires n <= |events| <= |states|
  {
    if n == 0 then 0 else
      Redemptions(states, events, token, n - 1) + if Redeems(states[n - 1], events[n - 1], token) then 1 else 0
  }

  ghost function Issues<O>(states: seq<Controller<O>>, events: seq<Event<O>>, token: Token, n: nat): nat
    requires n <= |events| <= |states|
  {
    if n == 0 then 0 else
      Issues(states, events, token, n - 1)
      + if Grants(states[n - 1], events[n - 1], token.team) && events[n - 1].now == token.issuedAt then 1 else 0
  }

  function Outstanding<O>(c: Controller<O>, token: Token): nat {
    if token.team in c.leases && c.leases[token.team].token == token then 1 else 0
  }

  lemma TokenStep<O>(c: Controller<O>, e: Event<O>, initial: O, token: Token)
    requires LeasesOk(c) && Enabled(c, e)
    ensures Outstanding(Step(c, e, initial).controller, token) + (if Redeems(c, e, token) then 1 else 0)
            <= Outstanding(c, token) + (if Grants(c, e, token.team) && e.now == token.issuedAt then 1 else 0)
  {
    if e.Redeem? && Holders(c.leases, e.token) != {} {
      assert MinKey(Holders(c.leases, e.token)) == e.token.team;
    }
  }

  /** A token is redeemed, or waiting to be, no more often than it was issued. */
  lemma {:induction false} RedeemedAtMostIssued<O>(states: seq<Controller<O>>, events: seq<Event<O>>, initial: O,
                                                   token: Token, n: nat)
    requires IsRun(states, events, initial) && n <= |events|
    ensures Redemptions(states, events, token, n) + Outstanding(states[n], token) <= Issues(states, events, token, n)
  {
    if n > 0 {
      RedeemedAtMostIssued(states, events, initial, token, n - 1);
      RunLeases(states, events, initial, n - 1);
      TokenStep(states[n - 1], events[n - 1], initial, token);
    }
  }

  /** Grants for one team happen at different instants. */
  ghost predicate DistinctInstants<O>(states: seq<Controller<O>>, events: seq<Event<O>>, team: string) {
    |events| <= |states| &&
    forall i, j :: 0 <= i < j < |events| && Grants(states[i], events[i], team) && Grants(states[j], events[j], team)
      ==> events[i].now != events[j].now
  }

  ghost predicate IssuedAt<O>(states: seq<Controller<O>>, events: seq<Event<O>>, token: Token, k: nat)
    requires k < |events| <= |states|
  {
    Grants(states[k], events[k], token.team) && events[k].now == token.issuedAt
  }

  lemma {:induction false} IssuesCount<O>(states: seq<Controller<O>>, events: seq<Event<O>>, token: Token, n: nat)
    requires n <= |events| <= |states|
    ensures Issues(states, events, token, n) >= 1 ==> exists k :: 0 <= k < n && IssuedAt(states, events, token, k)
    ensures Issues(states, events, token, n) >= 2 ==>
              exists i, j :: 0 <= i < j < n && IssuedAt(states, events, token, i) && IssuedAt(states, events, token, j)
  {
    if n > 0 {
      IssuesCount(states, events, token, n - 1);
      assert IssuedAt(states, events, token, n - 1)
             || Issues(states, events, token, n) == Issues(states, events, token, n - 1);
    }
  }

  lemma {:induction false} RedemptionsCount<O>(states: seq<Controller<O>>, events: seq<Event<O>>, token: Token, k: nat,
                                               n: nat)
    requires k < n <= |events| <= |states| && Redeems(states[k], events[k], token)
    ensures Redemptions(states, events, token, n) >= 1
  {
    if k < n - 1 { RedemptionsCount(states, events, token, k, n - 1); }
  }

  /** At some moment the token has been redeemed and is good for another redemption. */
  ghost predicate ComesBack<O>(states: seq<Controller<O>>, events: seq<Event<O>>, token: Token) {
    |events| < |states| &&
    exists n :: 0 <= n <= |events| && Redemptions(states, events, token, n) >= 1 && Outstanding(states[n], token) == 1
  }

  /** Two grants of the token's team carry its instant. */
  ghost predicate Repeats<O>(states: seq<Controller<O>>, events: seq<Event<O>>, token: Token) {
    |events| <= |states| &&
    exists i, j :: 0 <= i < j < |events| && IssuedAt(states, events, token, i) && IssuedAt(states, events, token, j)
  }

  /**
    With a clock that never goes backwards, a redeemed token becomes good again exactly when two grants of its team
    carry the same instant.
   */
  lemma TokenComesBackIff<O>(states: seq<Controller<O>>, events: seq<Event<O>>, initial: O, token: Token)
    requires IsRun(states, events, initial) && ClockForward(events)
    ensures ComesBack(states, events, token) <==> Repeats(states, events, token)
  {
    if n :| 0 <= n <= |events| && Redemptions(states, events, token, n) >= 1 && Outstanding(states[n], token) == 1 {
      RedeemedAtMostIssued(states, events, initial, token, n);
      IssuesCount(states, events, token, n);
    }
    if i, j :| 0 <= i < j < |events| && IssuedAt(states, events, token, i) && IssuedAt(states, events, token, j) {
      SecondIssue(states, events, initial, token, i, j);
    }
  }

  lemma SecondIssue<O>(states: seq<Controller<O>>, events: seq<Event<O>>, initial: O, token: Token, i: nat, j: nat)
    requires IsRun(states, events, initial) && ClockForward(events) && i < j < |events|
    requires IssuedAt(states, events, token, i) && IssuedAt(states, events, token, j)
    ensures Redemptions(states, events, token, j + 1) >= 1 && Outstanding(states[j + 1], token) == 1
  {
    GrantsKeepTerm(states, events, initial, token.team, i, j);
    var k :| i < k < j && Redeems(states[k], events[k], Token(token.team, events[i].now));
    RedemptionsCount(states, events, token, k, j + 1);
  }

  /** So when the grants of a team happen at different instants, every token is redeemed at most once. */
  lemma TokenRedeemedOnce<O>(states: seq<Controller<O>>, events: seq<Event<O>>, initial: O, token: Token)
    requires IsRun(states, events, initial) && DistinctInstants(states, events, token.team)
    ensures Redemptions(states, events, token, |events|) <= 1
  {
    RedeemedAtMostIssued(states, events, initial, token, |events|);
    IssuesCount(states, events, token, |events|);
  }

  /** Otherwise a token can be issued and redeemed twice at one instant. */
  lemma SameInstantRepeatsToken<O>(initial: O, team: string, now: Time)
    returns (states: seq<Controller<O>>, events: seq<Event<O>>)
    ensures IsRun(states, events, initial) && |events| == 8
    ensures Redemptions(states, events, Token(team, now), 8) == 2
  {
    var token := Token(team, now);
    states, events := Opening(initial, initial, team, now);
    var s5 := PlanNext(states, events, 1, team, 1, initial, initial);
    states, events := states + [s5], events + [PlanOn(1, team, 1, initial)];
    var s6 := CommitNext(states, events, 1, team, now, initial);
    states, events := states + [s6], events + [Commit(1, now, true, true)];
    var s7, s8 := RedeemNext(states, events, 1, team, now, initial);
    states, events := states + [s7] + [s8], events + [Redeem(1, token, true, now)] + [Fetch(1)];
    CountTwo(states, events, token);
  }

  lemma CountTwo<O>(states: seq<Controller<O>>, events: seq<Event<O>>, token: Token)
    requires |events| == 8 && |states| == 9 && forall i :: 0 <= i < 8 ==> (events[i].Redeem? <==> i == 2 || i == 6)
    requires Redeems(states[2], events[2], token) && Redeems(states[6], events[6], token)
    ensures Redemptions(states, events, token, 8) == 2
  {
    assert Redemptions(states, events, token, 2) == 0 by { assert Redemptions(states, events, token, 1) == 0; }
    assert Redemptions(states, events, token, 3) == 1;
    assert Redemptions(states, events, token, 5) == 1 by { assert Redemptions(states, events, token, 4) == 1; }
    assert Redemptions(states, events, token, 6) == 1;
  }

  // ---------- the controller in place ----------

  class TeamController<O> {
    var store: map<string, TeamState<O>>
    var leases: map<string, Lease>
    const initial: O

    /** The controller's state beside the given calls in flight. */
    ghost function State(calls: map<nat, Call<O>>, closings: map<nat, Closing<O>>): Controller<O>
      reads this
    {
      Controller(store, leases, calls, closings)
    }

    constructor (initial: O)
      ensures State(map[], map[]) == Empty() && this.initial == initial
    {
      store, leases := map[], map[];
      this.initial := initial;
    }

    method PlanInner(id: nat, team: string, expected: Option<int>, planned: Option<O>, mode: Option<Mode>,
                     feature: bool,
                     ghost calls: map<nat, Call<O>>, ghost closings: map<nat, Closing<O>>)
      returns (error: Option<TeamError>, call: Option<Call<O>>)
      ensures var after := Step(State(calls, closings), Plan(id, team, expected, planned, mode, feature), initial);
              if error.Some? then after == Stepped(State(calls, closings), Refused(error.value))
              else call.Some? && after == Stepped(State(calls[id := call.value], closings), Pending)
    {
      if !feature {
        return Some(FeatureDisabled), None;
      }
      var state := if team in store then store[team] else TeamState(0, initial, None);
      if expected.Some? && state.revision != expected.value {
        return Some(RevisionMismatch(expected.value, state.revision)), None;
      }
      if planned.None? {
        return Some(PlanFailed), None;
      }
      state := state.(revision := state.revision + 1, overlay := planned.value);
      return None, Some(Call(team, state, if mode.Some? then mode.value else ArtifactsOnly));
    }

    method CommitApply(id: nat, call: Call<O>, now: Time, materialised: bool, persistOk: bool,
                       ghost calls: map<nat, Call<O>>, ghost closings: map<nat, Closing<O>>)
      returns (r: Outcome<O>)
      requires id in calls && calls[id] == call
      modifies this
      ensures Stepped(State(calls - {id}, closings), r)
              == Step(old(State(calls, closings)), Commit(id, now, materialised, persistOk), initial)
    {
      if call.team in leases && leases[call.team].expiry > now {
        return Refused(ApplyInProgress);
      }
      if !materialised {
        return Refused(PlanFailed);
      }
      store := store[call.team := call.next];
      if !persistOk {
        return Refused(Persist);
      }
      var token := Token(call.team, now);
      leases := leases[call.team := Lease(token, now, now + LEASE_TTL, call.mode)];
      return Granted(token);
    }

    /** The part of a finish that holds the lease table. */
    method RedeemLease(id: nat, token: Token, success: bool, now: Time,
                       ghost calls: map<nat, Call<O>>, ghost closings: map<nat, Closing<O>>)
      returns (r: Option<Closing<O>>)
      modifies this
      ensures var after := Step(old(State(calls, closings)), Redeem(id, token, success, now), initial);
              if r.None? then after == Stepped(State(calls, closings), Refused(TokenNotFound))
              else r.value.Redeemed? && after == Stepped(State(calls, closings[id := r.value]), Pending)
    {
      var holders := set t | t in leases && leases[t].token == token;
      if holders == {} {
        return None;
      }
      var holder := MinKey(holders);
      var lease := leases[holder];
      leases := leases - {holder};
      return Some(Redeemed(lease, success, now));
    }

    /** The read of a finish, which holds no lock afterwards. */
    method FetchState(id: nat, closing: Closing<O>, ghost calls: map<nat, Call<O>>, ghost closings: map<nat,
                      Closing<O>>)
      returns (r: Option<Closing<O>>)
      requires id in closings && closings[id] == closing && closing.Redeemed?
      ensures var after := Step(State(calls, closings), Fetch(id), initial);
              if r.None? then after == Stepped(State(calls, closings - {id}), Refused(StateNotFound))
              else r.value.Fetched? && after == Stepped(State(calls, closings[id := r.value]), Pending)
    {
      var team := closing.lease.token.team;
      if team !in store {
        return None;
      }
      var state := store[team];
      state := state.(lastApply := Some(Report(closing.lease.startedAt, closing.finishedAt, closing.success,
                                               closing.lease.mode)));
      return Some(Fetched(team, state));
    }

    /** The write of a finish. */
    method RecordReport(id: nat, closing: Closing<O>, persistOk: bool,
                        ghost calls: map<nat, Call<O>>, ghost closings: map<nat, Closing<O>>)
      returns (r: Outcome<O>)
      requires id in closings && closings[id] == closing && closing.Fetched?
      modifies this
      ensures Stepped(State(calls, closings - {id}), r)
              == Step(old(State(calls, closings)), Record(id, persistOk), initial)
    {
      store := store[closing.team := closing.next];
      if !persistOk {
        return Refused(Persist);
      }
      return Finished(closing.next);
    }

    /** A finish that nothing interrupts: the stored revision and overlay stay, and the report is added. */
    method FinishApply(token: Token, success: bool, now: Time, persistOk: bool) returns (r: Outcome<O>)
      modifies this
      ensures leases == (if Holders(old(leases), token) == {} then old(leases)
                         else old(leases) - {MinKey(Holders(old(leases), token))})
      ensures forall t :: t in store <==> t in old(store)
      ensures forall t :: t in store ==>
                store[t].revision == old(store)[t].revision && store[t].overlay == old(store)[t].overlay
      ensures r.Finished? ==> token.team in store && store[token.team] == r.state && r.state.lastApply.Some?
                              && r.state.lastApply.value.finishedAt == now && r.state.lastApply.value.success == success
    {
      var redeemed := RedeemLease(0, token, success, now, map[], map[]);
      if redeemed.None? {
        return Refused(TokenNotFound);
      }
      var fetched := FetchState(0, redeemed.value, map[], map[0 := redeemed.value]);
      if fetched.None? {
        return Refused(StateNotFound);
      }
      r := RecordReport(0, fetched.value, persistOk, map[], map[0 := fetched.value]);
    }
  }
}
