/** The message queue as the daemon runs it: inboxes changed in place, a dirty flag, and a flush. */
module MessageQueueClass {
  import opened Prelude
  import opened QueueModel
  import opened FlushProtocol

  /** Drain an inbox from the front, sorting each message into those handed out and those kept. */
  method TakeFrom(all: seq<Message>, limit: nat, sender: Option<string>)
    returns (out: seq<Message>, kept: seq<Message>)
    ensures out == Taken(all, limit, sender)
    ensures kept == Left(all, limit, sender)
  {
    var queue := all;
    out, kept := [], [];
    while queue != []
      invariant |out| <= limit
      invariant Taken(all, limit, sender) == out + Taken(queue, limit - |out|, sender)
      invariant Left(all, limit, sender) == kept + Left(queue, limit - |out|, sender)
      decreases |queue|
    {
      var msg := queue[0];
      ghost var rest := queue[1..];
      ghost var room := limit - |out|;
      queue := queue[1..];
      if |out| >= limit {
        assert kept + ([msg] + rest) == (kept + [msg]) + rest;
        kept := kept + [msg];
      } else if sender.Some? && msg.sender != sender.value {
        assert kept + ([msg] + Left(rest, room, sender)) == (kept + [msg]) + Left(rest, room, sender);
        kept := kept + [msg];
      } else {
        assert out + ([msg] + Taken(rest, room - 1, sender)) == (out + [msg]) + Taken(rest, room - 1, sender);
        out := out + [msg];
      }
    }
    assert out + [] == out && kept + [] == kept;
  }

  lemma TaskStep(m: Message, rest: seq<Message>, id: string)
    ensures NotOfTask([m] + rest, id) == (if MessageTaskId(m) == id then [] else [m]) + NotOfTask(rest, id)
    ensures |OfTask([m] + rest, id)| == (if MessageTaskId(m) == id then 1 else 0) + |OfTask(rest, id)|
  {
    assert ([m] + rest)[1..] == rest;
  }

  /** Keep the messages of every other task. */
  method Retain(all: seq<Message>, id: string) returns (kept: seq<Message>, removed: nat)
    ensures kept == NotOfTask(all, id)
    ensures removed == |OfTask(all, id)| == |all| - |kept|
  {
    kept, removed := [], 0;
    for i := 0 to |all|
      invariant NotOfTask(all, id) == kept + NotOfTask(all[i..], id)
      invariant |OfTask(all, id)| == removed + |OfTask(all[i..], id)|
      invariant removed + |kept| == i
    {
      ghost var rest := all[i + 1..];
      assert all[i..] == [all[i]] + rest;
      TaskStep(all[i], rest, id);
      if MessageTaskId(all[i]) != id {
        assert kept + ([all[i]] + NotOfTask(rest, id)) == kept + [all[i]] + NotOfTask(rest, id);
        kept := kept + [all[i]];
      } else {
        removed := removed + 1;
      }
    }
    assert all[|all|..] == [] && kept + [] == kept;
  }

  /** Whether a message belongs to the task. */
  method FindTask(queue: seq<Message>, id: string) returns (found: bool)
    ensures found <==> exists m :: m in queue && MessageTaskId(m) == id
  {
    for i := 0 to |queue|
      invariant forall m :: m in queue[..i] ==> MessageTaskId(m) != id
    {
      if MessageTaskId(queue[i]) == id {
        assert queue[i] in queue;
        return true;
      }
      assert queue[..i + 1] == queue[..i] + [queue[i]];
    }
    assert queue[..|queue|] == queue;
    return false;
  }

  class MessageQueue {
    var inboxes: Inboxes
    var dirty: bool
    var maxSize: nat
    var disk: Inboxes

    ghost function State(): Queue
      reads this
    {
      Queue(inboxes, dirty, maxSize)
    }

    /** A queue whose file holds the given inboxes. */
    constructor (stored: Inboxes)
      ensures State() == Queue(stored, false, DEFAULT_MAX_SIZE) && disk == stored
    {
      inboxes := stored;
      disk := stored;
      dirty := false;
      maxSize := DEFAULT_MAX_SIZE;
    }

    method SetMaxSize(n: nat)
      modifies this`maxSize
      ensures State() == QueueModel.Step(old(State()), QueueOp.SetMaxSize(n))
    {
      maxSize := n;
    }

    method Enqueue(message: Message, newId: string, now: Time) returns (msg: Message)
      modifies this`inboxes, this`dirty
      ensures State() == QueueModel.Step(old(State()), QueueOp.Enqueue(message, newId, now))
      ensures msg == Stamped(message, newId, now)
    {
      msg := message;
      if msg.id == "" {
        msg := msg.(id := "msg-" + newId);
      }
      if Seconds(msg.createdAt) == 0 {
        msg := msg.(createdAt := now);
      }
      var queue := if msg.to in inboxes then inboxes[msg.to] else [];
      queue := queue + [msg];
      if maxSize > 0 && |queue| > maxSize {
        var dropCount := |queue| - maxSize;
        ghost var all := queue;
        for i := 0 to dropCount
          invariant i <= dropCount && queue == all[i..]
        {
          queue := queue[1..];
        }
      }
      inboxes := inboxes[msg.to := queue];
      dirty := true;
    }

    method Dequeue(workspace: string, limit: nat, sender: Option<string>) returns (out: seq<Message>)
      modifies this`inboxes, this`dirty
      ensures State() == QueueModel.Step(old(State()), QueueOp.Dequeue(workspace, limit, sender))
      ensures out == Taken(Inbox(old(State()), workspace), limit, sender)
    {
      if workspace !in inboxes {
        return [];
      }
      var kept;
      out, kept := TakeFrom(inboxes[workspace], limit, sender);
      inboxes := inboxes[workspace := kept];
      if out != [] {
        dirty := true;
      }
    }

    method PendingCount(workspace: string) returns (n: nat)
      ensures n == |Inbox(State(), workspace)|
    {
      n := if workspace in inboxes then |inboxes[workspace]| else 0;
    }

    method RemoveTaskMessages(workspace: string, taskId: string) returns (removed: nat)
      modifies this`inboxes, this`dirty
      ensures State() == QueueModel.Step(old(State()), RemoveTask(workspace, taskId))
      ensures Trim(taskId) != "" ==> removed == |OfTask(Inbox(old(State()), workspace), Trim(taskId))|
      ensures Trim(taskId) == "" ==> removed == 0
    {
      var id := Trim(taskId);
      if id == "" || workspace !in inboxes {
        return 0;
      }
      var kept;
      kept, removed := Retain(inboxes[workspace], id);
      inboxes := inboxes[workspace := kept];
      if removed > 0 {
        dirty := true;
      }
    }

    method HasTaskMessage(workspace: string, taskId: string) returns (found: bool)
      ensures found == QueueModel.HasTaskMessage(State(), workspace, taskId)
    {
      var id := Trim(taskId);
      if id == "" {
        return false;
      }
      found := FindTask(if workspace in inboxes then inboxes[workspace] else [], id);
    }

    /** A flush that runs without interruption; `writeOk` is the outcome of its disk write. */
    method Flush(writeOk: bool) returns (ok: bool)
      modifies this`dirty, this`disk
      ensures System(State(), disk, Idle) == FlushAlone(System(old(State()), old(disk), Idle), writeOk)
      ensures ok <==> !dirty
    {
      if !dirty {
        return true;
      }
      dirty := false;
      var snapshot := inboxes;
      if writeOk {
        disk := snapshot;
        return true;
      }
      dirty := true;
      return false;
    }
  }
}
