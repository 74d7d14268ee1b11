/**
  Durable memories and their supersession: a new memory may retire active ones, all or nothing,
  and a failed disk write undoes every edit.
 */
module MemoryModel {
  import opened Prelude

  datatype Memory = Memory(
    id: string, scope: string, kind: string, subject: string, content: string, tags: seq<string>,
    createdBy: string, supersedes: seq<string>, supersededBy: string, supersededAt: Option<Time>,
    createdAt: Time, updatedAt: Time)

  type Memories = map<string, Memory>

  /** A request; scope, kind and tags arrive in normal form. */
  datatype Request = Request(
    scope: string, kind: string, subject: string, content: string, tags: seq<string>,
    createdBy: string, supersedes: seq<string>)

  datatype MemoryError =
    | ScopeRequired | ContentRequired | CreatedByRequired
    | NotFound(id: string) | AlreadySuperseded(id: string) | Persist

  datatype Answer = Stored(memory: Memory) | Failed(error: MemoryError)

  /** Trimmed, without blanks and repetitions, in ascending order. */
  function NormalizeIds(ids: seq<string>): seq<string> {
    SortedKeys((set id | id in ids :: Trim(id)) - {""})
  }

  /** The first target that cannot be superseded. */
  function TargetError(store: Memories, ids: seq<string>): Option<MemoryError> {
    if ids == [] then None
    else if ids[0] !in store then Some(NotFound(ids[0]))
    else if store[ids[0]].supersededAt.Some? then Some(AlreadySuperseded(ids[0]))
    else TargetError(store, ids[1..])
  }

  function RequestError(store: Memories, req: Request): Option<MemoryError> {
    if req.scope == "" then Some(ScopeRequired)
    else if Trim(req.content) == "" then Some(ContentRequired)
    else if Trim(req.createdBy) == "" then Some(CreatedByRequired)
    else TargetError(store, NormalizeIds(req.supersedes))
  }

  function NewMemory(req: Request, id: string, now: Time): Memory {
    Memory(id, req.scope, req.kind, Trim(req.subject), Trim(req.content), req.tags, Trim(req.createdBy),
           NormalizeIds(req.supersedes), "", None, now, now)
  }

  function Retired(m: Memory, successor: string, now: Time): Memory {
    m.(supersededAt := Some(now), supersededBy := successor, updatedAt := now)
  }

  function RetireAll(store: Memories, ids: seq<string>, successor: string, now: Time): Memories {
    map k | k in store :: if k in ids then Retired(store[k], successor, now) else store[k]
  }

  datatype Remembered = Remembered(store: Memories, answer: Answer)

  function Remember(store: Memories, req: Request, id: string, now: Time, persistOk: bool): Remembered {
    var error := RequestError(store, req);
    if error.Some? then Remembered(store, Failed(error.value))
    else if !persistOk then Remembered(store, Failed(Persist))
    else
      var m := NewMemory(req, id, now);
      Remembered(RetireAll(store, m.supersedes, id, now)[id := m], Stored(m))
  }

  // ---------- the invariant ----------

  ghost predicate LinkedAt(store: Memories, k: string)
    requires k in store
  {
    var m := store[k];
    && m.id == k && k != ""
    && (m.supersededBy != "" <==> m.supersededAt.Some?)
    && (m.supersededBy != "" ==> m.supersededBy in store && k in store[m.supersededBy].supersedes)
    && (forall c :: c in m.supersedes ==> c in store && store[c].supersededBy == k)
    && Ascending(m.supersedes)
  }

  ghost predicate RankOk(store: Memories, rank: map<string, nat>) {
    forall k :: k in store ==>
      && k in rank
      && (store[k].supersededBy != "" ==>
            store[k].supersededBy in rank && rank[k] < rank[store[k].supersededBy])
  }

  ghost predicate Forest(store: Memories) {
    && (forall k {:trigger LinkedAt(store, k)} :: k in store ==> LinkedAt(store, k))
    && exists rank: map<string, nat> :: RankOk(store, rank)
  }

  ghost predicate Fresh(store: Memories, id: string) { id !in store && id != "" }

  lemma {:induction false} TargetsOk(store: Memories, ids: seq<string>)
    ensures TargetError(store, ids).None? <==>
              forall k :: k in ids ==> k in store && store[k].supersededAt.None?
  {
    if ids != [] {
      TargetsOk(store, ids[1..]);
      assert forall k :: k in ids <==> k == ids[0] || k in ids[1..];
    }
  }

  function MaxRank(rank: map<string, nat>, ids: seq<string>): (r: nat)
    requires forall k :: k in ids ==> k in rank
    ensures forall k :: k in ids ==> rank[k] <= r
  {
    if ids == [] then 0 else
      var r := MaxRank(rank, ids[1..]);
      assert forall k :: k in ids <==> k == ids[0] || k in ids[1..];
      if rank[ids[0]] > r then rank[ids[0]] else r
  }

  lemma RetireLinks(store: Memories, m: Memory, now: Time, k: string)
    requires Forest(store) && Fresh(store, m.id) && m.supersededBy == "" && m.supersededAt.None?
    requires Ascending(m.supersedes)
    requires forall c :: c in m.supersedes ==> c in store && store[c].supersededAt.None?
    requires k in store || k == m.id
    ensures LinkedAt(RetireAll(store, m.supersedes, m.id, now)[m.id := m], k)
  {
    var after := RetireAll(store, m.supersedes, m.id, now)[m.id := m];
    if k in store {
      assert LinkedAt(store, k);
      forall c | c in store[k].supersedes ensures c in after && after[c].supersededBy == k {
        assert LinkedAt(store, c);
      }
    }
  }

  lemma RetireKeepsForest(store: Memories, m: Memory, now: Time)
    requires Forest(store) && Fresh(store, m.id) && m.supersededBy == "" && m.supersededAt.None?
    requires Ascending(m.supersedes)
    requires forall c :: c in m.supersedes ==> c in store && store[c].supersededAt.None?
    ensures Forest(RetireAll(store, m.supersedes, m.id, now)[m.id := m])
  {
    var after := RetireAll(store, m.supersedes, m.id, now)[m.id := m];
    forall k | k in after ensures LinkedAt(after, k) {
      RetireLinks(store, m, now, k);
    }
    var rank: map<string, nat> :| RankOk(store, rank);
    assert forall k :: k in m.supersedes ==> k in rank;
    var rank' := rank[m.id := MaxRank(rank, m.supersedes) + 1];
    forall k | k in store && store[k].supersededBy != "" ensures store[k].supersededBy != m.id {
      assert LinkedAt(store, k);
    }
    assert RankOk(after, rank');
  }

  lemma RememberKeepsForest(store: Memories, req: Request, id: string, now: Time, persistOk: bool)
    requires Forest(store) && Fresh(store, id)
    ensures Forest(Remember(store, req, id, now, persistOk).store)
  {
    TargetsOk(store, NormalizeIds(req.supersedes));
    if RequestError(store, req).None? && persistOk {
      RetireKeepsForest(store, NewMemory(req, id, now), now);
    }
  }

  // ---------- chains ----------

  /** The memory `n` supersessions after `k`; none past the end of the chain. */
  function Successor(store: Memories, k: string, n: nat): Option<string>
    decreases n
  {
    if k !in store then None
    else if n == 0 then Some(k)
    else Successor(store, store[k].supersededBy, n - 1)
  }

  predicate Active(store: Memories, k: string) { k in store && store[k].supersededAt.None? }

  ghost function Above(store: Memories, rank: map<string, nat>, k: string): set<string>
    requires RankOk(store, rank) && k in store
  {
    set x | x in store && rank[x] > rank[k]
  }

  lemma {:induction false} ChainEnds(store: Memories, rank: map<string, nat>, k: string) returns (n: nat, end: string)
    requires Forest(store) && RankOk(store, rank) && k in store
    ensures Successor(store, k, n) == Some(end) && Active(store, end)
    decreases |Above(store, rank, k)|
  {
    assert LinkedAt(store, k);
    var next := store[k].supersededBy;
    if next == "" {
      n, end := 0, k;
    } else {
      assert next in Above(store, rank, k) && next !in Above(store, rank, next);
      assert Above(store, rank, next) < Above(store, rank, k);
      SubsetSize(Above(store, rank, next), Above(store, rank, k));
      n, end := ChainEnds(store, rank, next);
      n := n + 1;
    }
  }

  lemma {:induction false} SubsetSize(a: set<string>, b: set<string>)
    requires a < b
    ensures |a| < |b|
  {
    var x :| x in b && x !in a;
    if a == {} {
      assert |b| > 0;
    } else {
      var y :| y in a;
      SubsetSize(a - {y}, b - {y});
    }
  }

  lemma {:induction false} SuccessorAdds(store: Memories, k: string, n: nat, m: nat)
    requires Successor(store, k, n).Some?
    ensures Successor(store, k, n + m) == Successor(store, Successor(store, k, n).value, m)
    decreases n
  {
    if n > 0 { SuccessorAdds(store, store[k].supersededBy, n - 1, m); }
  }

  /** Nothing follows an active memory. */
  lemma ActiveIsLast(store: Memories, k: string, n: nat)
    requires Forest(store) && Active(store, k) && n > 0
    ensures Successor(store, k, n).None?
  {
    assert LinkedAt(store, k);
    NoBlankKey(store);
  }

  lemma NoBlankKey(store: Memories)
    requires Forest(store)
    ensures "" !in store
  {
    assert "" in store ==> LinkedAt(store, "");
  }

  /** The chain from `k` reaches an active memory after `n` steps, and none earlier or later. */
  ghost predicate EndsAfter(store: Memories, k: string, n: nat) {
    && Successor(store, k, n).Some? && Active(store, Successor(store, k, n).value)
    && forall m: nat :: Successor(store, k, m).Some? && Active(store, Successor(store, k, m).value) ==> m == n
  }

  /** Every chain of supersessions ends, and in exactly one active memory. */
  lemma ChainHasOneActiveEnd(store: Memories, k: string)
    requires Forest(store) && k in store
    ensures exists n: nat :: EndsAfter(store, k, n)
  {
    var rank: map<string, nat> :| RankOk(store, rank);
    var n, end := ChainEnds(store, rank, k);
    forall m: nat | Successor(store, k, m).Some? && Active(store, Successor(store, k, m).value) ensures m == n {
      if m < n {
        SuccessorAdds(store, k, m, n - m);
        ActiveIsLast(store, Successor(store, k, m).value, n - m);
      } else if m > n {
        SuccessorAdds(store, k, n, m - n);
        ActiveIsLast(store, end, m - n);
      }
    }
    assert EndsAfter(store, k, n);
  }

  // ---------- runs ----------

  datatype MemoryEvent = MemoryEvent(req: Request, id: string, now: Time, persistOk: bool)

  ghost predicate IsRun(states: seq<Memories>, events: seq<MemoryEvent>) {
    && |states| == |events| + 1
    && states[0] == map[]
    && forall i :: 0 <= i < |events| ==>
         && Fresh(states[i], events[i].id)
         && states[i + 1] == Remember(states[i], events[i].req, events[i].id, events[i].now, events[i].persistOk).store
  }

  lemma {:induction false} RunForest(states: seq<Memories>, events: seq<MemoryEvent>, n: nat)
    requires IsRun(states, events) && n < |states|
    ensures Forest(states[n])
  {
    if n == 0 {
      assert RankOk(states[0], map[]);
    } else {
      RunForest(states, events, n - 1);
      var e := events[n - 1];
      RememberKeepsForest(states[n - 1], e.req, e.id, e.now, e.persistOk);
    }
  }

  /** What is written stays, and a memory is retired at most once. */
  ghost predicate Evolves(a: Memory, b: Memory) {
    && b == a.(supersededBy := b.supersededBy, supersededAt := b.supersededAt, updatedAt := b.updatedAt)
    && (a.supersededAt.Some? ==> b == a)
  }

  lemma RememberEvolves(store: Memories, e: MemoryEvent, k: string)
    requires Forest(store) && Fresh(store, e.id) && k in store
    ensures var after := Remember(store, e.req, e.id, e.now, e.persistOk).store;
            k in after && Evolves(store[k], after[k])
  {
    TargetsOk(store, NormalizeIds(e.req.supersedes));
  }

  lemma {:induction false} RunEvolves(states: seq<Memories>, events: seq<MemoryEvent>, i: nat, j: nat, k: string)
    requires IsRun(states, events) && i <= j < |states| && k in states[i]
    ensures k in states[j] && Evolves(states[i][k], states[j][k])
  {
    if i < j {
      RunEvolves(states, events, i, j - 1, k);
      RunForest(states, events, j - 1);
      RememberEvolves(states[j - 1], events[j - 1], k);
    }
  }

  /** The two directions of supersession agree. */
  ghost predicate LinksAgree(store: Memories, k: string)
    requires k in store
  {
    && (forall s :: s in store ==> (k in store[s].supersedes <==> store[k].supersededBy == s))
    && (store[k].supersededBy != "" ==> store[k].supersededBy in store)
    && (store[k].supersededAt.None? <==> store[k].supersededBy == "")
  }

  lemma ForestLinksAgree(store: Memories, k: string)
    requires Forest(store) && k in store
    ensures LinksAgree(store, k)
  {
    assert LinkedAt(store, k);
    forall s | s in store ensures k in store[s].supersedes <==> store[k].supersededBy == s {
      assert LinkedAt(store, s);
    }
  }

  /**
    In every reachable state supersession is a forest: the two link directions agree, no memory has two
    successors, and every chain ends in exactly one active memory; a retired memory never changes again.
   */
  lemma SupersessionIsAForest(states: seq<Memories>, events: seq<MemoryEvent>, i: nat, j: nat, k: string)
    requires IsRun(states, events) && i <= j < |states| && k in states[i]
    ensures LinksAgree(states[i], k)
    ensures exists n: nat :: EndsAfter(states[i], k, n)
    ensures k in states[j] && (states[i][k].supersededAt.Some? ==> states[j][k] == states[i][k])
  {
    RunForest(states, events, i);
    ForestLinksAgree(states[i], k);
    ChainHasOneActiveEnd(states[i], k);
    RunEvolves(states, events, i, j, k);
  }

  lemma RequestOk(store: Memories, req: Request, ids: seq<string>)
    requires ids == NormalizeIds(req.supersedes)
    ensures RequestError(store, req).None? <==>
              req.scope != "" && Trim(req.content) != "" && Trim(req.createdBy) != "" && forall k :: k in ids ==>
                Active(store, k)
  {
    TargetsOk(store, ids);
    assert forall k :: Active(store, k) <==> k in store && store[k].supersededAt.None?;
  }

  /** A request is stored exactly when it is complete and all its targets are active; otherwise nothing changes. */
  lemma RememberStoredIff(store: Memories, req: Request, id: string, now: Time, persistOk: bool)
    ensures var r := Remember(store, req, id, now, persistOk);
            && (r.answer.Stored? <==>
                  && persistOk && req.scope != "" && Trim(req.content) != "" && Trim(req.createdBy) != ""
                  && forall k :: k in NormalizeIds(req.supersedes) ==> Active(store, k))
            && (r.answer.Failed? ==> r.store == store)
  {
    RequestOk(store, req, NormalizeIds(req.supersedes));
  }

  lemma Normalized(ids: seq<string>, k: string)
    ensures k in NormalizeIds(ids) <==> exists x :: x in ids && Trim(x) == k && k != ""
  {
    var trimmed := set id | id in ids :: Trim(id);
    assert k in trimmed <==> exists x :: x in ids && Trim(x) == k;
  }

  /** A stored request adds one active memory and retires exactly its targets. */
  lemma RememberRetiresTargets(store: Memories, req: Request, id: string, now: Time, persistOk: bool)
    requires Fresh(store, id) && Remember(store, req, id, now, persistOk).answer.Stored?
    ensures var after := Remember(store, req, id, now, persistOk).store;
            && after.Keys == store.Keys + {id}
            && after[id] == Remember(store, req, id, now, persistOk).answer.memory && Active(after, id)
            && forall k :: k in store ==>
                 if exists x :: x in req.supersedes && Trim(x) == k && k != ""
                 then after[k].supersededBy == id && after[k].supersededAt == Some(now)
                 else after[k] == store[k]
  {
    var m := NewMemory(req, id, now);
    assert Remember(store, req, id, now, persistOk)
           == Remembered(RetireAll(store, m.supersedes, id, now)[id := m], Stored(m));
    forall k | k in store
      ensures k in m.supersedes <==> exists x :: x in req.supersedes && Trim(x) == k && k != ""
    {
      Normalized(req.supersedes, k);
    }
  }
}
