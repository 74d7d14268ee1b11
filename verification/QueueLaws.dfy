/**
  What the message queue conserves. A ledger books, for one inbox, every message that was ever
  enqueued, delivered, dropped by the cap or removed with its task; over any sequence of calls
  the books balance, and no two messages of one sender ever change their order.
 */
module QueueLaws {
  import opened Prelude
  import opened QueueModel

  // ---------- subsequences ----------

  /** `a` is what remains of `b` after striking out some elements. */
  ghost predicate Subseq<T>(a: seq<T>, b: seq<T>) {
    || a == []
    || (b != [] && ((a[0] == b[0] && Subseq(a[1..], b[1..])) || Subseq(a, b[1..])))
  }

  lemma {:induction false} SubseqRefl<T>(a: seq<T>)
    ensures Subseq(a, a)
  {
    if a != [] { SubseqRefl(a[1..]); }
  }

  lemma {:induction false} SubseqTail<T>(a: seq<T>, b: seq<T>)
    requires a != [] && Subseq(a, b)
    ensures Subseq(a[1..], b)
  {
    if a[0] == b[0] && Subseq(a[1..], b[1..]) {
      if a[1..] != [] { assert Subseq(a[1..], b); }
    } else {
      SubseqTail(a, b[1..]);
      if a[1..] != [] { assert Subseq(a[1..], b); }
    }
  }

  lemma {:induction false} SubseqTrans<T>(a: seq<T>, b: seq<T>, c: seq<T>)
    requires Subseq(a, b) && Subseq(b, c)
    ensures Subseq(a, c)
    decreases |b| + |c|
  {
    if a != [] {
      if b[0] == c[0] && Subseq(b[1..], c[1..]) {
        if a[0] == b[0] && Subseq(a[1..], b[1..]) {
          SubseqTrans(a[1..], b[1..], c[1..]);
        } else {
          SubseqTrans(a, b[1..], c[1..]);
        }
      } else {
        SubseqTrans(a, b, c[1..]);
      }
    }
  }

  lemma {:induction false} SubseqConcat<T>(a: seq<T>, b: seq<T>, c: seq<T>, d: seq<T>)
    requires Subseq(a, b) && Subseq(c, d)
    ensures Subseq(a + c, b + d)
    decreases |b| + |d|
  {
    if a == [] {
      assert a + c == c;
      if b == [] {
        assert b + d == d;
      } else {
        SubseqConcat(a, b[1..], c, d);
        assert (b + d)[1..] == b[1..] + d;
      }
    } else {
      assert (b + d)[1..] == b[1..] + d;
      assert (a + c)[1..] == a[1..] + c;
      if a[0] == b[0] && Subseq(a[1..], b[1..]) {
        SubseqConcat(a[1..], b[1..], c, d);
      } else {
        SubseqConcat(a, b[1..], c, d);
      }
    }
  }

  // ---------- one sender's messages ----------

  function BySender(s: seq<Message>, f: string): seq<Message> {
    if s == [] then [] else (if s[0].sender == f then [s[0]] else []) + BySender(s[1..], f)
  }

  lemma {:induction false} BySenderConcat(s: seq<Message>, t: seq<Message>, f: string)
    ensures BySender(s + t, f) == BySender(s, f) + BySender(t, f)
  {
    if s == [] {
      assert s + t == t;
    } else {
      BySenderConcat(s[1..], t, f);
      assert (s + t)[1..] == s[1..] + t;
      JoinLeft(if s[0].sender == f then [s[0]] else [], BySender(s[1..], f), BySender(t, f));
    }
  }

  /** A suffix keeps a subsequence of every sender. */
  lemma SuffixSubseq(s: seq<Message>, k: nat, f: string)
    requires k <= |s|
    ensures Subseq(BySender(s[k..], f), BySender(s, f))
  {
    BySenderConcat(s[..k], s[k..], f);
    assert s[..k] + s[k..] == s;
    SubseqRefl(BySender(s[k..], f));
    SubseqConcat([], BySender(s[..k], f), BySender(s[k..], f), BySender(s[k..], f));
    assert [] + BySender(s[k..], f) == BySender(s[k..], f);
  }

  lemma {:induction false} NotOfTaskSubseq(s: seq<Message>, taskId: string, f: string)
    ensures Subseq(BySender(NotOfTask(s, taskId), f), BySender(s, f))
  {
    if s != [] {
      NotOfTaskSubseq(s[1..], taskId, f);
      var own := BySender([s[0]], f);
      var rest := NotOfTask(s[1..], taskId);
      BySenderConcat([s[0]], s[1..], f);
      assert [s[0]] + s[1..] == s;
      if MessageTaskId(s[0]) == taskId {
        SubseqConcat([], own, BySender(rest, f), BySender(s[1..], f));
        assert [] + BySender(rest, f) == BySender(rest, f);
      } else {
        BySenderConcat([s[0]], rest, f);
        SubseqRefl(own);
        SubseqConcat(own, own, BySender(rest, f), BySender(s[1..], f));
      }
    }
  }

  lemma {:induction false} TaskSplit(s: seq<Message>, taskId: string)
    ensures multiset(s) == multiset(OfTask(s, taskId)) + multiset(NotOfTask(s, taskId))
  {
    if s != [] {
      TaskSplit(s[1..], taskId);
      assert s == [s[0]] + s[1..];
    }
  }

  // ---------- dequeue ----------

  lemma {:induction false} DequeueSplit(s: seq<Message>, limit: nat, sender: Option<string>)
    ensures multiset(s) == multiset(Taken(s, limit, sender)) + multiset(Left(s, limit, sender))
    decreases |s|
  {
    if s != [] && limit > 0 {
      assert s == [s[0]] + s[1..];
      DequeueSplit(s[1..], if Wanted(s[0], sender) then limit - 1 else limit, sender);
    }
  }

  lemma JoinLeft(a: seq<Message>, b: seq<Message>, c: seq<Message>)
    ensures (a + b) + c == a + (b + c)
  {}

  lemma JoinMiddle(a: seq<Message>, b: seq<Message>, c: seq<Message>)
    requires a == [] || b == []
    ensures b + (a + c) == a + (b + c)
  {}

  /** Per sender, what is handed out followed by what stays is exactly what was there. */
  lemma {:induction false} DequeueKeepsOrder(s: seq<Message>, limit: nat, sender: Option<string>, f: string)
    ensures BySender(Taken(s, limit, sender), f) + BySender(Left(s, limit, sender), f) == BySender(s, f)
    decreases |s|
  {
    if s != [] && limit > 0 {
      var own := BySender([s[0]], f);
      BySenderConcat([s[0]], s[1..], f);
      assert [s[0]] + s[1..] == s;
      if Wanted(s[0], sender) {
        var taken, left := Taken(s[1..], limit - 1, sender), Left(s[1..], limit - 1, sender);
        DequeueKeepsOrder(s[1..], limit - 1, sender, f);
        BySenderConcat([s[0]], taken, f);
        JoinLeft(own, BySender(taken, f), BySender(left, f));
      } else {
        var taken, left := Taken(s[1..], limit, sender), Left(s[1..], limit, sender);
        DequeueKeepsOrder(s[1..], limit, sender, f);
        BySenderConcat([s[0]], left, f);
        if s[0].sender == f { NoneTaken(s[1..], limit, sender, f); } else { assert own == []; }
        JoinMiddle(own, BySender(taken, f), BySender(left, f));
      }
    }
  }

  /** A filter for one sender hands out nothing of another. */
  lemma {:induction false} NoneTaken(s: seq<Message>, limit: nat, sender: Option<string>, f: string)
    requires sender.Some? && sender.value != f
    ensures BySender(Taken(s, limit, sender), f) == []
    decreases |s|
  {
    if s != [] && limit > 0 {
      if Wanted(s[0], sender) {
        NoneTaken(s[1..], limit - 1, sender, f);
        BySenderConcat([s[0]], Taken(s[1..], limit - 1, sender), f);
      } else {
        NoneTaken(s[1..], limit, sender, f);
      }
    }
  }

  function Matching(s: seq<Message>, sender: Option<string>): seq<Message> {
    if s == [] then [] else (if Wanted(s[0], sender) then [s[0]] else []) + Matching(s[1..], sender)
  }

  /** A dequeue hands out the oldest matching messages, as many as the limit allows, and keeps every other one. */
  lemma {:induction false} DequeueTakesOldest(s: seq<Message>, limit: nat, sender: Option<string>)
    ensures var m := Matching(s, sender); var n := if limit < |m| then limit else |m|;
            && Taken(s, limit, sender) == m[..n]
            && Matching(Left(s, limit, sender), sender) == m[n..]
            && Subseq(Left(s, limit, sender), s)
            && |Left(s, limit, sender)| == |s| - n
    decreases |s|
  {
    if s == [] || limit == 0 {
      SubseqRefl(s);
    } else {
      var m' := Matching(s[1..], sender);
      if Wanted(s[0], sender) {
        DequeueTakesOldest(s[1..], limit - 1, sender);
        var n := if limit - 1 < |m'| then limit - 1 else |m'|;
        assert Matching(s, sender) == [s[0]] + m';
        assert ([s[0]] + m')[..n + 1] == [s[0]] + m'[..n] && ([s[0]] + m')[n + 1..] == m'[n..];
      } else {
        DequeueTakesOldest(s[1..], limit, sender);
        assert Matching(s, sender) == m';
        var left := Left(s[1..], limit, sender);
        assert ([s[0]] + left)[1..] == left;
      }
    }
  }

  // ---------- the ledger of one inbox ----------

  datatype Ledger = Ledger(
    enqueued: seq<Message>, delivered: seq<Message>, dropped: seq<Message>, removed: seq<Message>)

  /** What a call on `q` enters into the books of one inbox. */
  function Booked(l: Ledger, q: Queue, op: QueueOp, workspace: string): Ledger {
    var box := Inbox(q, workspace);
    match op
    case Enqueue(m, newId, now) =>
      var msg := Stamped(m, newId, now);
      if msg.to != workspace then l else
        var all := box + [msg];
        l.(enqueued := l.enqueued + [msg], dropped := l.dropped + all[..Overflow(|all|, q.maxSize)])
    case Dequeue(w, limit, sender) =>
      if w != workspace then l else l.(delivered := l.delivered + Taken(box, limit, sender))
    case RemoveTask(w, taskId) =>
      if w != workspace || Trim(taskId) == "" then l else l.(removed := l.removed + OfTask(box, Trim(taskId)))
    case SetMaxSize(_) => l
  }

  function RunQueue(ops: seq<QueueOp>): Queue {
    if ops == [] then EmptyQueue() else Step(RunQueue(ops[..|ops| - 1]), ops[|ops| - 1])
  }

  function RunLedger(ops: seq<QueueOp>, workspace: string): Ledger {
    if ops == [] then Ledger([], [], [], []) else
      Booked(RunLedger(ops[..|ops| - 1], workspace), RunQueue(ops[..|ops| - 1]), ops[|ops| - 1], workspace)
  }

  ghost predicate Balanced(l: Ledger, box: seq<Message>) {
    multiset(l.enqueued) == multiset(l.delivered) + multiset(l.dropped) + multiset(l.removed) + multiset(box)
  }

  ghost predicate InOrder(l: Ledger, box: seq<Message>, f: string) {
    Subseq(BySender(l.delivered, f) + BySender(box, f), BySender(l.enqueued, f))
  }

  /** Appending to both the tail of the record and the tail of the inbox keeps the order. */
  lemma AppendKeepsOrder(d: seq<Message>, box: seq<Message>, enqueued: seq<Message>, m: Message, f: string)
    requires Subseq(BySender(d, f) + BySender(box, f), BySender(enqueued, f))
    ensures Subseq(BySender(d, f) + BySender(box + [m], f), BySender(enqueued + [m], f))
  {
    var own := BySender([m], f);
    BySenderConcat(box, [m], f);
    BySenderConcat(enqueued, [m], f);
    SubseqRefl(own);
    SubseqConcat(BySender(d, f) + BySender(box, f), BySender(enqueued, f), own, own);
    assert BySender(d, f) + BySender(box + [m], f) == BySender(d, f) + BySender(box, f) + own;
  }

  /** Losing part of the inbox keeps the order. */
  lemma ShrinkKeepsOrder(d: seq<Message>, fewer: seq<Message>, box: seq<Message>, all: seq<Message>)
    requires Subseq(fewer, box) && Subseq(d + box, all)
    ensures Subseq(d + fewer, all)
  {
    SubseqRefl(d);
    SubseqConcat(d, d, fewer, box);
    SubseqTrans(d + fewer, d + box, all);
  }

  lemma EnqueueBalances(l: Ledger, box: seq<Message>, m: Message, k: nat)
    requires Balanced(l, box) && k <= |box| + 1
    ensures Balanced(l.(enqueued := l.enqueued + [m], dropped := l.dropped + (box + [m])[..k]), (box + [m])[k..])
  {
    var all := box + [m];
    assert all == all[..k] + all[k..];
    assert multiset(all[..k] + all[k..]) == multiset(all[..k]) + multiset(all[k..]);
    assert multiset(l.enqueued + [m]) == multiset(l.enqueued) + multiset([m]);
    assert multiset(box + [m]) == multiset(box) + multiset([m]);
    assert multiset(l.dropped + all[..k]) == multiset(l.dropped) + multiset(all[..k]);
    var d, x, r := multiset(l.delivered), multiset(l.dropped), multiset(l.removed);
    calc {
      multiset(l.enqueued + [m]);
      d + x + r + (multiset(box) + multiset([m]));
      d + x + r + (multiset(all[..k]) + multiset(all[k..]));
      d + (x + multiset(all[..k])) + r + multiset(all[k..]);
    }
  }

  lemma EnqueueInOrder(l: Ledger, box: seq<Message>, m: Message, k: nat, f: string)
    requires InOrder(l, box, f) && k <= |box| + 1
    ensures InOrder(l.(enqueued := l.enqueued + [m], dropped := l.dropped + (box + [m])[..k]), (box + [m])[k..], f)
  {
    var all := box + [m];
    AppendKeepsOrder(l.delivered, box, l.enqueued, m, f);
    SuffixSubseq(all, k, f);
    ShrinkKeepsOrder(BySender(l.delivered, f), BySender(all[k..], f), BySender(all, f), BySender(l.enqueued + [m], f));
  }

  lemma DequeueBalances(l: Ledger, box: seq<Message>, limit: nat, sender: Option<string>)
    requires Balanced(l, box)
    ensures Balanced(l.(delivered := l.delivered + Taken(box, limit, sender)), Left(box, limit, sender))
  {
    DequeueSplit(box, limit, sender);
  }

  lemma DequeueInOrder(l: Ledger, box: seq<Message>, limit: nat, sender: Option<string>, f: string)
    requires InOrder(l, box, f)
    ensures InOrder(l.(delivered := l.delivered + Taken(box, limit, sender)), Left(box, limit, sender), f)
  {
    var taken, left := BySender(Taken(box, limit, sender), f), BySender(Left(box, limit, sender), f);
    var d := BySender(l.delivered, f);
    DequeueKeepsOrder(box, limit, sender, f);
    BySenderConcat(l.delivered, Taken(box, limit, sender), f);
    assert d + taken + left == d + (taken + left);
  }

  lemma RemoveBalances(l: Ledger, box: seq<Message>, taskId: string)
    requires Balanced(l, box)
    ensures Balanced(l.(removed := l.removed + OfTask(box, taskId)), NotOfTask(box, taskId))
  {
    TaskSplit(box, taskId);
  }

  lemma RemoveInOrder(l: Ledger, box: seq<Message>, taskId: string, f: string)
    requires InOrder(l, box, f)
    ensures InOrder(l.(removed := l.removed + OfTask(box, taskId)), NotOfTask(box, taskId), f)
  {
    NotOfTaskSubseq(box, taskId, f);
    ShrinkKeepsOrder(BySender(l.delivered, f), BySender(NotOfTask(box, taskId), f), BySender(box, f),
                     BySender(l.enqueued, f));
  }

  lemma StepBalances(l: Ledger, q: Queue, op: QueueOp, workspace: string)
    requires Balanced(l, Inbox(q, workspace))
    ensures Balanced(Booked(l, q, op, workspace), Inbox(Step(q, op), workspace))
  {
    var box := Inbox(q, workspace);
    var book, after := Booked(l, q, op, workspace), Inbox(Step(q, op), workspace);
    if Touches(op, workspace) {
      StepEntry(l, q, op, workspace);
      match op
      case Enqueue(m, newId, now) => EnqueueBalances(l, box, Stamped(m, newId, now), Overflow(|box| + 1, q.maxSize));
      case Dequeue(_, limit, sender) => DequeueBalances(l, box, limit, sender);
      case RemoveTask(_, taskId) => RemoveBalances(l, box, Trim(taskId));
    } else {
      assert book == l && after == box;
    }
  }

  /** The call is about the inbox. */
  predicate Touches(op: QueueOp, workspace: string) {
    match op
    case Enqueue(m, _, _) => m.to == workspace
    case Dequeue(w, _, _) => w == workspace
    case RemoveTask(w, taskId) => w == workspace && Trim(taskId) != ""
    case SetMaxSize(_) => false
  }

  /** What a call about the inbox enters into its books, and what it leaves in it. */
  lemma StepEntry(l: Ledger, q: Queue, op: QueueOp, workspace: string)
    requires Touches(op, workspace)
    ensures var box := Inbox(q, workspace);
            var book, after := Booked(l, q, op, workspace), Inbox(Step(q, op), workspace);
            match op
            case Enqueue(m, newId, now) =>
              var msg, k := Stamped(m, newId, now), Overflow(|box| + 1, q.maxSize);
              book == l.(enqueued := l.enqueued + [msg], dropped := l.dropped + (box + [msg])[..k])
              && after == (box + [msg])[k..]
            case Dequeue(_, limit, sender) =>
              book == l.(delivered := l.delivered + Taken(box, limit, sender)) && after == Left(box, limit, sender)
            case RemoveTask(_, taskId) =>
              book == l.(removed := l.removed + OfTask(box, Trim(taskId))) && after == NotOfTask(box, Trim(taskId))
            case SetMaxSize(_) => true
  {}

  lemma StepKeepsOrder(l: Ledger, q: Queue, op: QueueOp, workspace: string, f: string)
    requires InOrder(l, Inbox(q, workspace), f)
    ensures InOrder(Booked(l, q, op, workspace), Inbox(Step(q, op), workspace), f)
  {
    var box := Inbox(q, workspace);
    var book, after := Booked(l, q, op, workspace), Inbox(Step(q, op), workspace);
    if Touches(op, workspace) {
      StepEntry(l, q, op, workspace);
      match op
      case Enqueue(m, newId, now) => EnqueueInOrder(l, box, Stamped(m, newId, now), Overflow(|box| + 1, q.maxSize), f);
      case Dequeue(_, limit, sender) => DequeueInOrder(l, box, limit, sender, f);
      case RemoveTask(_, taskId) => RemoveInOrder(l, box, Trim(taskId), f);
    } else {
      assert book == l && after == box;
    }
  }

  /**
    Over every sequence of calls and for every inbox: what was enqueued is what was delivered, dropped,
    removed or is still pending; and for every sender, delivered followed by pending is a subsequence of enqueued.
   */
  lemma {:induction false} QueueConserves(ops: seq<QueueOp>, workspace: string, f: string)
    ensures var l := RunLedger(ops, workspace); var box := Inbox(RunQueue(ops), workspace);
            && multiset(l.enqueued)
               == multiset(l.delivered) + multiset(l.dropped) + multiset(l.removed) + multiset(box)
            && Subseq(BySender(l.delivered, f) + BySender(box, f), BySender(l.enqueued, f))
  {
    if ops != [] {
      var init := ops[..|ops| - 1];
      QueueConserves(init, workspace, f);
      StepBalances(RunLedger(init, workspace), RunQueue(init), ops[|ops| - 1], workspace);
      StepKeepsOrder(RunLedger(init, workspace), RunQueue(init), ops[|ops| - 1], workspace, f);
    }
  }

  /** The cap holds after every enqueue, drops only the oldest messages, and never the newcomer. */
  lemma CapDropsOldest(q: Queue, m: Message)
    ensures var after := Inbox(Enqueued(q, m), m.to);
            && (q.maxSize > 0 ==> |after| <= q.maxSize)
            && after != [] && after[|after| - 1] == m
            && exists k :: 0 <= k <= |Inbox(q, m.to)| && after == Inbox(q, m.to)[k..] + [m]
                           && (k > 0 ==> |after| == q.maxSize)
    ensures forall w :: w != m.to ==> Inbox(Enqueued(q, m), w) == Inbox(q, w)
  {
    var all := Inbox(q, m.to) + [m];
    var k := Overflow(|all|, q.maxSize);
    assert all[k..] == Inbox(q, m.to)[k..] + [m];
  }

  /** After a removal no message of the task is left, every other message is, and its order stands. */
  lemma {:induction false} RemovalIsExact(s: seq<Message>, taskId: string)
    ensures forall m :: m in NotOfTask(s, taskId) <==> m in s && MessageTaskId(m) != taskId
    ensures Subseq(NotOfTask(s, taskId), s)
    ensures |NotOfTask(s, taskId)| + |OfTask(s, taskId)| == |s|
  {
    if s != [] {
      RemovalIsExact(s[1..], taskId);
      var rest := NotOfTask(s[1..], taskId);
      assert ([s[0]] + rest)[1..] == rest;
    }
  }
}
