/** The memory store as the daemon runs it: records edited in place, undone from snapshots when the write fails. */
module MemoryStoreClass {
  import opened Prelude
  import opened MemoryModel

  datatype Snapshot = Snapshot(supersededAt: Option<Time>, supersededBy: string, updatedAt: Time)

  function SnapshotOf(m: Memory): Snapshot { Snapshot(m.supersededAt, m.supersededBy, m.updatedAt) }

  lemma RetireOneMore(store: Memories, ids: seq<string>, k: string, successor: string, now: Time)
    requires k in store && k !in ids
    ensures RetireAll(store, ids, successor, now)[k := Retired(store[k], successor, now)]
            == RetireAll(store, ids + [k], successor, now)
  {}

  lemma RetireOneLess(store: Memories, ids: seq<string>, k: string, successor: string, now: Time)
    requires k in store && k !in ids
    ensures RetireAll(store, [k] + ids, successor, now)[k := store[k]] == RetireAll(store, ids, successor, now)
  {}

  lemma {:induction false} TargetErrorSkips(store: Memories, ids: seq<string>, i: nat)
    requires i <= |ids|
    requires forall j :: 0 <= j < i ==> ids[j] in store && store[ids[j]].supersededAt.None?
    ensures TargetError(store, ids) == TargetError(store, ids[i..])
  {
    if i > 0 {
      TargetErrorSkips(store, ids[1..], i - 1);
      assert ids[1..][i - 1..] == ids[i..];
    } else {
      assert ids[0..] == ids;
    }
  }

  // ---------- listing ----------

  datatype Query = Query(scopes: set<string>, kind: Option<string>, tags: set<string>, includeSuperseded: bool,
                         limit: int)

  const DEFAULT_LIMIT: nat := 10

  predicate Matches(m: Memory, q: Query) {
    && (q.includeSuperseded || m.supersededAt.None?)
    && (q.scopes == {} || m.scope in q.scopes)
    && (q.kind.Some? ==> m.kind == q.kind.value)
    && (q.tags == {} || exists t :: t in m.tags && t in q.tags)
  }

  /** Active before superseded, then most recently updated, most recently created, id. */
  predicate Before(a: Memory, b: Memory) {
    if a.supersededAt.None? != b.supersededAt.None? then a.supersededAt.None?
    else if a.updatedAt != b.updatedAt then a.updatedAt > b.updatedAt
    else if a.createdAt != b.createdAt then a.createdAt > b.createdAt
    else a.id != b.id && Leq(a.id, b.id)
  }

  lemma BeforeTransitive(a: Memory, b: Memory, c: Memory)
    requires Before(a, b) && Before(b, c)
    ensures Before(a, c)
  {
    if Leq(a.id, b.id) && Leq(b.id, c.id) {
      LeqTransitive(a.id, b.id, c.id);
      if a.id == c.id { LeqAntisymmetric(a.id, b.id); }
    }
  }

  lemma BeforeTotal(a: Memory, b: Memory)
    requires a.id != b.id
    ensures Before(a, b) || Before(b, a)
  {
    LeqTotal(a.id, b.id);
  }

  ghost predicate InOrder(s: seq<Memory>) {
    forall i, j :: 0 <= i < j < |s| ==> Before(s[i], s[j])
  }

  /** Put a memory in its place. */
  method Insert(s: seq<Memory>, m: Memory) returns (r: seq<Memory>)
    requires InOrder(s) && forall i :: 0 <= i < |s| ==> s[i].id != m.id
    ensures InOrder(r) && forall x :: x in r <==> x in s || x == m
  {
    var k := 0;
    while k < |s| && Before(s[k], m)
      invariant 0 <= k <= |s|
      invariant forall i :: 0 <= i < k ==> Before(s[i], m)
    {
      k := k + 1;
    }
    forall j | k <= j < |s| ensures Before(m, s[j]) {
      BeforeTotal(s[k], m);
      if j > k { BeforeTransitive(m, s[k], s[j]); }
    }
    r := s[..k] + [m] + s[k..];
    assert s == s[..k] + s[k..];
  }

  /** Cutting the complete ordered list off at the limit leaves the best. */
  lemma TruncateListing(store: Memories, q: Query, all: seq<Memory>)
    requires InOrder(all) && forall m :: m in all <==> m in Hits(store, q)
    ensures IsListing(store, q, if |all| > Limit(q) then all[..Limit(q)] else all)
  {
    if |all| > Limit(q) {
      var r := all[..Limit(q)];
      forall m | m in all && m !in r ensures forall x :: x in r ==> Before(x, m) {
        var j :| 0 <= j < |all| && all[j] == m;
        assert forall i :: 0 <= i < Limit(q) ==> r[i] == all[i] && r[i] in r;
      }
    }
  }

  /** The matching memories among the given keys. */
  ghost function HitsAmong(store: Memories, keys: set<string>, q: Query): set<Memory> {
    set k | k in keys && k in store && Matches(store[k], q) :: store[k]
  }

  ghost function Hits(store: Memories, q: Query): set<Memory> { HitsAmong(store, store.Keys, q) }

  lemma HitsGrow(store: Memories, keys: set<string>, q: Query, k: string)
    requires k in store && k !in keys && forall x :: x in store ==> store[x].id == x
    ensures HitsAmong(store, keys + {k}, q)
            == HitsAmong(store, keys, q) + (if Matches(store[k], q) then {store[k]} else {})
    ensures forall m :: m in HitsAmong(store, keys, q) ==> m.id != k
  {}

  function Limit(q: Query): nat { if q.limit <= 0 then DEFAULT_LIMIT else q.limit }

  /** The best matches, best first, none twice, as many as the limit allows, and nothing better left out. */
  ghost predicate IsListing(store: Memories, q: Query, r: seq<Memory>) {
    && InOrder(r)
    && (forall m :: m in r ==> m in Hits(store, q))
    && |r| <= Limit(q)
    && (forall m :: m in Hits(store, q) && m !in r ==> |r| == Limit(q) && forall x :: x in r ==> Before(x, m))
  }

  lemma HitsStep(store: Memories, todo: set<string>, q: Query, k: string, s: seq<Memory>)
    requires k in todo && todo <= store.Keys && forall x :: x in store ==> store[x].id == x
    requires forall m :: m in s <==> m in HitsAmong(store, store.Keys - todo, q)
    ensures forall i :: 0 <= i < |s| ==> s[i].id != k
    ensures forall m :: m in HitsAmong(store, store.Keys - (todo - {k}), q)
                        <==> m in s || (Matches(store[k], q) && m == store[k])
  {
    HitsGrow(store, store.Keys - todo, q, k);
    assert store.Keys - (todo - {k}) == store.Keys - todo + {k};
    assert forall i :: 0 <= i < |s| ==> s[i] in s;
  }

  /** The filter and the sort, over the records in key order. */
  method SortedHits(store: Memories, q: Query) returns (r: seq<Memory>)
    requires forall k :: k in store ==> store[k].id == k
    ensures InOrder(r) && forall m :: m in r <==> m in Hits(store, q)
  {
    var todo := store.Keys;
    r := [];
    while todo != {}
      invariant todo <= store.Keys && InOrder(r)
      invariant forall m :: m in r <==> m in HitsAmong(store, store.Keys - todo, q)
      decreases |todo|
    {
      var k := MinKey(todo);
      HitsStep(store, todo, q, k, r);
      if Matches(store[k], q) {
        r := Insert(r, store[k]);
      }
      todo := todo - {k};
    }
    assert store.Keys - {} == store.Keys;
  }

  class MemoryStore {
    var inner: Memories

    constructor ()
      ensures inner == map[]
    {
      inner := map[];
    }

    /** Check every target before any edit; keep what is needed to undo the edits. */
    method Validate(ids: seq<string>) returns (error: Option<MemoryError>, snapshots: map<string, Snapshot>)
      requires Ascending(ids)
      ensures error == TargetError(inner, ids)
      ensures error.None? ==> forall k :: k in ids ==>
                k in inner && k in snapshots && snapshots[k] == SnapshotOf(inner[k])
    {
      snapshots := map[];
      for i := 0 to |ids|
        invariant forall j :: 0 <= j < i ==> ids[j] in inner && inner[ids[j]].supersededAt.None?
        invariant forall j :: 0 <= j < i ==> ids[j] in snapshots && snapshots[ids[j]] == SnapshotOf(inner[ids[j]])
      {
        TargetErrorSkips(inner, ids, i);
        if ids[i] !in inner {
          return Some(NotFound(ids[i])), snapshots;
        }
        if inner[ids[i]].supersededAt.Some? {
          return Some(AlreadySuperseded(ids[i])), snapshots;
        }
        snapshots := snapshots[ids[i] := SnapshotOf(inner[ids[i]])];
      }
      TargetErrorSkips(inner, ids, |ids|);
      return None, snapshots;
    }

    method Supersede(ids: seq<string>, successor: string, now: Time)
      requires Ascending(ids) && forall k :: k in ids ==> k in inner
      modifies this
      ensures inner == RetireAll(old(inner), ids, successor, now)
    {
      assert RetireAll(inner, [], successor, now) == inner;
      for i := 0 to |ids|
        invariant inner == RetireAll(old(inner), ids[..i], successor, now)
      {
        var k := ids[i];
        assert k in ids && k !in ids[..i] && ids[..i + 1] == ids[..i] + [k];
        RetireOneMore(old(inner), ids[..i], k, successor, now);
        var target := inner[k];
        target := target.(supersededAt := Some(now), supersededBy := successor);
        target := target.(updatedAt := now);
        inner := inner[k := target];
      }
      assert ids[..|ids|] == ids;
    }

    method RollBack(ids: seq<string>, snapshots: map<string, Snapshot>, ghost before: Memories,
                    ghost successor: string, ghost now: Time)
      requires Ascending(ids)
      requires forall k :: k in ids ==> k in before && k in snapshots && snapshots[k] == SnapshotOf(before[k])
      requires inner == RetireAll(before, ids, successor, now)
      modifies this
      ensures inner == before
    {
      assert ids[0..] == ids;
      for i := 0 to |ids|
        invariant inner == RetireAll(before, ids[i..], successor, now)
      {
        var k := ids[i];
        assert k in ids && k !in ids[i + 1..] && ids[i..] == [k] + ids[i + 1..];
        RetireOneLess(before, ids[i + 1..], k, successor, now);
        if k in inner {
          var snap := snapshots[k];
          inner := inner[k := inner[k].(supersededAt := snap.supersededAt, supersededBy := snap.supersededBy,
                                        updatedAt := snap.updatedAt)];
        }
      }
      assert RetireAll(before, [], successor, now) == before;
    }

    method Remember(req: Request, id: string, now: Time, persistOk: bool) returns (answer: Answer)
      requires id !in inner
      modifies this
      ensures Remembered(inner, answer) == MemoryModel.Remember(old(inner), req, id, now, persistOk)
    {
      if req.scope == "" {
        return Failed(ScopeRequired);
      }
      if Trim(req.content) == "" {
        return Failed(ContentRequired);
      }
      if Trim(req.createdBy) == "" {
        return Failed(CreatedByRequired);
      }
      var targets := NormalizeIds(req.supersedes);
      var entry := NewMemory(req, id, now);
      var error, snapshots := Validate(targets);
      if error.Some? {
        return Failed(error.value);
      }
      Supersede(targets, id, now);
      inner := inner[id := entry];
      if !persistOk {
        inner := inner - {id};
        assert inner == RetireAll(old(inner), targets, id, now);
        RollBack(targets, snapshots, old(inner), id, now);
        return Failed(Persist);
      }
      return Stored(entry);
    }

    method List(q: Query) returns (r: seq<Memory>)
      requires forall k :: k in inner ==> inner[k].id == k
      ensures IsListing(inner, q, r)
    {
      r := SortedHits(inner, q);
      TruncateListing(inner, q, r);
      if |r| > Limit(q) {
        r := r[..Limit(q)];
      }
    }
  }
}
