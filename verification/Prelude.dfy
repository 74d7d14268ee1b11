/**
  Shared vocabulary: optional values, time, Rust's string helpers, and the byte order
  in which Rust's ordered maps hand out their keys.
 */
module Prelude {

  datatype Option<+T> = None | Some(value: T)

  /** An instant, in nanoseconds since the Unix epoch. */
  type Time = int

  const NANOS: int := 1_000_000_000

  /** Whole seconds of an instant, rounded towards the past, as chrono's `timestamp()`. */
  function Seconds(t: Time): int { t / NANOS }

  /** The instant a caller-supplied timestamp stands for: second zero means "unset". */
  function StampOr(whenAt: Time, now: Time): Time {
    if Seconds(whenAt) == 0 then now else whenAt
  }

  // ---------- strings ----------

  /** The Unicode White_Space characters, which `str::trim` strips. */
  predicate IsSpace(c: char) {
    || '\U{0009}' <= c <= '\U{000D}'
    || c == ' '
    || c == '\U{0085}'
    || c == '\U{00A0}'
    || c == '\U{1680}'
    || '\U{2000}' <= c <= '\U{200A}'
    || c == '\U{2028}'
    || c == '\U{2029}'
    || c == '\U{202F}'
    || c == '\U{205F}'
    || c == '\U{3000}'
  }

  function TrimStart(s: string): string {
    if s != [] && IsSpace(s[0]) then TrimStart(s[1..]) else s
  }

  function TrimEnd(s: string): string {
    if s != [] && IsSpace(s[|s| - 1]) then TrimEnd(s[..|s| - 1]) else s
  }

  function Trim(s: string): string { TrimEnd(TrimStart(s)) }

  predicate Contains(s: string, part: string) {
    part <= s || (s != [] && Contains(s[1..], part))
  }

  /** Decimal rendering of a count. */
  function Decimal(n: nat): string {
    if n < 10 then ["0123456789"[n]] else Decimal(n / 10) + ["0123456789"[n % 10]]
  }

  /** A string whose two ends are not blank is its own trimming. */
  lemma TrimFixed(s: string)
    requires s != [] ==> !IsSpace(s[0]) && !IsSpace(s[|s| - 1])
    ensures Trim(s) == s
  {}

  // ---------- key order ----------

  /** Lexicographic order on code points, which is how Rust compares strings. */
  predicate Leq(a: string, b: string) {
    a == [] || (b != [] && (a[0] < b[0] || (a[0] == b[0] && Leq(a[1..], b[1..]))))
  }

  lemma {:induction false} LeqTotal(a: string, b: string)
    ensures Leq(a, b) || Leq(b, a)
  {
    if a != [] && b != [] && a[0] == b[0] { LeqTotal(a[1..], b[1..]); }
  }

  lemma {:induction false} LeqAntisymmetric(a: string, b: string)
    requires Leq(a, b) && Leq(b, a)
    ensures a == b
  {
    if a != [] {
      LeqAntisymmetric(a[1..], b[1..]);
      assert a == [a[0]] + a[1..] && b == [b[0]] + b[1..];
    }
  }

  lemma {:induction false} LeqTransitive(a: string, b: string, c: string)
    requires Leq(a, b) && Leq(b, c)
    ensures Leq(a, c)
  {
    if a != [] && a[0] == b[0] && b[0] == c[0] { LeqTransitive(a[1..], b[1..], c[1..]); }
  }

  lemma {:induction false} MinExists(s: set<string>)
    requires s != {}
    ensures exists m :: m in s && forall x :: x in s ==> Leq(m, x)
  {
    var y :| y in s;
    LeqTotal(y, y);
    if s == {y} {
      assert forall x :: x in s ==> Leq(y, x);
    } else {
      MinExists(s - {y});
      var m :| m in s - {y} && forall x :: x in s - {y} ==> Leq(m, x);
      SmallerOfTwo(s, y, m);
    }
  }

  lemma SmallerOfTwo(s: set<string>, y: string, m: string)
    requires y in s && m in s && forall x :: x in s - {y} ==> Leq(m, x)
    ensures exists a :: a in s && forall x :: x in s ==> Leq(a, x)
  {
    LeqTotal(y, y);
    LeqTotal(m, y);
    var a := if Leq(m, y) then m else y;
    forall x | x in s ensures Leq(a, x) {
      if a == y && x != y { LeqTransitive(y, m, x); }
    }
  }

  /** The least key of a non-empty set. */
  function MinKey(s: set<string>): (m: string)
    requires s != {}
    ensures m in s && forall x :: x in s ==> Leq(m, x)
  {
    MinExists(s);
    assert forall a, b | a in s && b in s && Leq(a, b) && Leq(b, a) :: a == b by {
      forall a, b | a in s && b in s && Leq(a, b) && Leq(b, a) ensures a == b {
        LeqAntisymmetric(a, b);
      }
    }
    var m :| m in s && forall x :: x in s ==> Leq(m, x);
    m
  }

  /** Strictly increasing, hence free of repetitions. */
  ghost predicate Ascending(r: seq<string>) {
    forall i, j :: 0 <= i < j < |r| ==> r[i] != r[j] && Leq(r[i], r[j])
  }

  /** The keys of a set in ascending order: the iteration order of a `BTreeMap`. */
  function SortedKeys(s: set<string>): (r: seq<string>)
    ensures Ascending(r)
    ensures forall x :: x in r <==> x in s
    ensures |r| == |s|
  {
    if s == {} then [] else
      var m := MinKey(s);
      var rest := SortedKeys(s - {m});
      assert forall i :: 0 <= i < |rest| ==> rest[i] in s - {m};
      [m] + rest
  }

  /** An ascending enumeration is determined by the set it enumerates. */
  lemma {:induction false} AscendingUnique(a: seq<string>, b: seq<string>)
    requires Ascending(a) && Ascending(b)
    requires forall x :: x in a <==> x in b
    ensures a == b
  {
    if a == [] {
      assert forall i :: 0 <= i < |b| ==> b[i] !in a;
    } else {
      assert a[0] in a && a[0] in b && b != [];
      assert b[0] in b && b[0] in a;
      LeqTotal(a[0], a[0]); LeqTotal(b[0], b[0]);
      assert Leq(a[0], b[0]) && Leq(b[0], a[0]);
      LeqAntisymmetric(a[0], b[0]);
      forall x ensures x in a[1..] <==> x in b[1..] {
        assert x in a <==> x == a[0] || x in a[1..];
        assert x in b <==> x == b[0] || x in b[1..];
        assert a[0] !in a[1..] && b[0] !in b[1..];
      }
      AscendingUnique(a[1..], b[1..]);
      assert a == [a[0]] + a[1..] && b == [b[0]] + b[1..];
    }
  }
}
