/**
  Persisting the queue. A flush takes a snapshot under the queue lock, writes it without that lock,
  and re-arms the dirty flag if the write failed; other calls run between any two of these steps.
  The persist lock admits one flush at a time.
 */
module FlushProtocol {
  import opened Prelude
  import opened QueueModel

  datatype Phase =
    | Idle
    | Writing(snapshot: Inboxes)  // snapshot taken, write not yet finished
    | Unsaved                     // the write failed, the flag is not yet set again

  datatype System = System(queue: Queue, disk: Inboxes, phase: Phase)

  datatype Action =
    | Call(op: QueueOp)
    | TakeSnapshot
    | WriteSucceeds
    | WriteFails
    | Rearm

  predicate Enabled(s: System, a: Action) {
    match a
    case Call(_) => true
    case TakeSnapshot => s.phase.Idle?
    case WriteSucceeds => s.phase.Writing?
    case WriteFails => s.phase.Writing?
    case Rearm => s.phase.Unsaved?
  }

  /** A write is atomic: it replaces the file or leaves it alone. */
  function Next(s: System, a: Action): System
    requires Enabled(s, a)
  {
    match a
    case Call(op) => s.(queue := Step(s.queue, op))
    case TakeSnapshot =>
      if s.queue.dirty then s.(queue := s.queue.(dirty := false), phase := Writing(s.queue.inboxes)) else s
    case WriteSucceeds => s.(disk := s.phase.snapshot, phase := Idle)
    case WriteFails => s.(phase := Unsaved)
    case Rearm => s.(queue := s.queue.(dirty := true), phase := Idle)
  }

  /** A whole flush with nothing in between. */
  function FlushAlone(s: System, writeOk: bool): System
    requires s.phase.Idle?
  {
    var taken := Next(s, TakeSnapshot);
    if taken.phase.Idle? then taken
    else if writeOk then Next(taken, WriteSucceeds)
    else Next(Next(taken, WriteFails), Rearm)
  }

  /** A daemon starts with its memory loaded from disk. */
  predicate Initial(s: System) { s.disk == s.queue.inboxes && !s.queue.dirty && s.phase.Idle? }

  ghost predicate IsRun(states: seq<System>, actions: seq<Action>) {
    && |states| == |actions| + 1
    && Initial(states[0])
    && forall i :: 0 <= i < |actions| ==> Enabled(states[i], actions[i]) && states[i + 1] == Next(states[i], actions[i])
  }

  ghost predicate Synced(s: System) {
    && (s.phase.Idle? && !s.queue.dirty ==> s.disk == s.queue.inboxes)
    && (s.phase.Writing? && !s.queue.dirty ==> s.phase.snapshot == s.queue.inboxes)
  }

  lemma {:induction false} NothingTaken(s: seq<Message>, limit: nat, sender: Option<string>)
    requires Taken(s, limit, sender) == []
    ensures Left(s, limit, sender) == s
    decreases |s|
  {
    if s != [] && limit > 0 { NothingTaken(s[1..], limit, sender); }
  }

  lemma {:induction false} NothingRemoved(s: seq<Message>, taskId: string)
    requires OfTask(s, taskId) == []
    ensures NotOfTask(s, taskId) == s
  {
    if s != [] { NothingRemoved(s[1..], taskId); }
  }

  /** No call clears the flag, and a call that does not set it has left every inbox as it was. */
  lemma CleanCallChangesNothing(q: Queue, op: QueueOp)
    ensures q.dirty ==> Step(q, op).dirty
    ensures !Step(q, op).dirty ==> Step(q, op).inboxes == q.inboxes
  {
    match op
    case Dequeue(w, limit, sender) =>
      if !Step(q, op).dirty && w in q.inboxes { NothingTaken(q.inboxes[w], limit, sender); }
    case RemoveTask(w, taskId) =>
      if !Step(q, op).dirty && w in q.inboxes && Trim(taskId) != "" { NothingRemoved(q.inboxes[w], Trim(taskId)); }
    case _ =>
  }

  lemma {:induction false} RunSynced(states: seq<System>, actions: seq<Action>, n: nat)
    requires IsRun(states, actions) && n < |states|
    ensures Synced(states[n])
  {
    if n > 0 {
      RunSynced(states, actions, n - 1);
      if actions[n - 1].Call? { CleanCallChangesNothing(states[n - 1].queue, actions[n - 1].op); }
    }
  }

  /**
    Under every interleaving: when no flush is under way and the flag is clear, the file holds exactly
    what memory holds; and between a failed write and the next snapshot the flag stays set.
   */
  lemma CleanMeansSaved(states: seq<System>, actions: seq<Action>, n: nat)
    requires IsRun(states, actions) && n < |states|
    ensures states[n].phase.Idle? && !states[n].queue.dirty ==> states[n].disk == states[n].queue.inboxes
  {
    RunSynced(states, actions, n);
  }

  lemma {:induction false} FailureKeepsFlag(states: seq<System>, actions: seq<Action>, i: nat, j: nat)
    requires IsRun(states, actions) && i < j < |states| && actions[i].WriteFails?
    requires forall k :: i < k < j ==> !actions[k].TakeSnapshot?
    ensures states[j].phase.Unsaved? || (states[j].phase.Idle? && states[j].queue.dirty)
  {
    if j > i + 1 {
      FailureKeepsFlag(states, actions, i, j - 1);
      if actions[j - 1].Call? { CleanCallChangesNothing(states[j - 1].queue, actions[j - 1].op); }
    }
  }

  // ---------- what a crash can lose ----------

  /** The moment whose memory the snapshot in flight shows; the moment of the file when none is. */
  ghost function SnapshotAge(states: seq<System>, actions: seq<Action>, n: nat): nat
    requires IsRun(states, actions) && n < |states|
    decreases n, 1
  {
    if n == 0 then 0
    else if actions[n - 1].TakeSnapshot? && states[n].phase.Writing? then n - 1
    else if states[n].phase.Writing? then SnapshotAge(states, actions, n - 1)
    else DiskAge(states, actions, n)
  }

  /** The moment whose memory the file shows. */
  ghost function DiskAge(states: seq<System>, actions: seq<Action>, n: nat): nat
    requires IsRun(states, actions) && n < |states|
    decreases n, 0
  {
    if n == 0 then 0
    else if actions[n - 1].WriteSucceeds? then SnapshotAge(states, actions, n - 1)
    else DiskAge(states, actions, n - 1)
  }

  lemma {:induction false} AgesTell(states: seq<System>, actions: seq<Action>, n: nat)
    requires IsRun(states, actions) && n < |states|
    ensures DiskAge(states, actions, n) <= SnapshotAge(states, actions, n) <= n
    ensures states[n].disk == states[DiskAge(states, actions, n)].queue.inboxes
    ensures states[n].phase.Writing? ==>
              states[n].phase.snapshot == states[SnapshotAge(states, actions, n)].queue.inboxes
  {
    if n > 0 { AgesTell(states, actions, n - 1); }
  }

  lemma {:induction false} DiskNeverGoesBack(states: seq<System>, actions: seq<Action>, i: nat, j: nat)
    requires IsRun(states, actions) && i <= j < |states|
    ensures DiskAge(states, actions, i) <= DiskAge(states, actions, j)
  {
    if i < j {
      DiskNeverGoesBack(states, actions, i, j - 1);
      AgesTell(states, actions, j - 1);
    }
  }

  /** At every moment the file is the memory of one earlier moment, and later files show later moments. */
  lemma CrashLosesOnlyASuffix(states: seq<System>, actions: seq<Action>, i: nat, j: nat)
    requires IsRun(states, actions) && i <= j < |states|
    ensures exists a: nat, b: nat ::
              a <= b <= j && a <= i
              && states[i].disk == states[a].queue.inboxes && states[j].disk == states[b].queue.inboxes
              && a == DiskAge(states, actions, i) && b == DiskAge(states, actions, j)
  {
    AgesTell(states, actions, i);
    AgesTell(states, actions, j);
    DiskNeverGoesBack(states, actions, i, j);
  }
}
