/**
  The per-workspace inboxes of the daemon: capped enqueue, filtered dequeue and the removal of
  a task's messages, as functions on the map of inboxes.
 */
module QueueModel {
  import opened Prelude
  import opened TaskIds

  datatype Message = Message(id: string, sender: string, to: string, content: string, taskId: string, createdAt: Time)

  type Inboxes = map<string, seq<Message>>

  /** Cap zero means no cap. */
  datatype Queue = Queue(inboxes: Inboxes, dirty: bool, maxSize: nat)

  const DEFAULT_MAX_SIZE: nat := 1000

  function EmptyQueue(): Queue { Queue(map[], false, DEFAULT_MAX_SIZE) }

  function Inbox(q: Queue, workspace: string): seq<Message> {
    if workspace in q.inboxes then q.inboxes[workspace] else []
  }

  /** The task a message belongs to: its tag, or else the id found in its body. */
  function MessageTaskId(m: Message): string {
    if Trim(m.taskId) != "" then Trim(m.taskId) else ExtractTaskId(m.content)
  }

  /** Blank ids and timestamps are filled in on arrival. */
  function Stamped(m: Message, newId: string, now: Time): Message {
    m.(id := if m.id == "" then "msg-" + newId else m.id, createdAt := StampOr(m.createdAt, now))
  }

  function Overflow(length: nat, maxSize: nat): nat {
    if maxSize > 0 && length > maxSize then length - maxSize else 0
  }

  predicate Wanted(m: Message, sender: Option<string>) { sender.None? || m.sender == sender.value }

  /** The messages a dequeue hands out. */
  function Taken(s: seq<Message>, limit: nat, sender: Option<string>): seq<Message> {
    if s == [] || limit == 0 then []
    else if Wanted(s[0], sender) then [s[0]] + Taken(s[1..], limit - 1, sender)
    else Taken(s[1..], limit, sender)
  }

  /** The messages a dequeue leaves behind. */
  function Left(s: seq<Message>, limit: nat, sender: Option<string>): seq<Message> {
    if s == [] || limit == 0 then s
    else if Wanted(s[0], sender) then Left(s[1..], limit - 1, sender)
    else [s[0]] + Left(s[1..], limit, sender)
  }

  function OfTask(s: seq<Message>, taskId: string): seq<Message> {
    if s == [] then []
    else if MessageTaskId(s[0]) == taskId then [s[0]] + OfTask(s[1..], taskId)
    else OfTask(s[1..], taskId)
  }

  function NotOfTask(s: seq<Message>, taskId: string): seq<Message> {
    if s == [] then []
    else if MessageTaskId(s[0]) == taskId then NotOfTask(s[1..], taskId)
    else [s[0]] + NotOfTask(s[1..], taskId)
  }

  predicate HasTaskMessage(q: Queue, workspace: string, taskId: string) {
    Trim(taskId) != "" && exists m :: m in Inbox(q, workspace) && MessageTaskId(m) == Trim(taskId)
  }

  datatype QueueOp =
    | Enqueue(message: Message, newId: string, now: Time)
    | Dequeue(workspace: string, limit: nat, sender: Option<string>)
    | RemoveTask(workspace: string, taskId: string)
    | SetMaxSize(size: nat)

  function Enqueued(q: Queue, m: Message): Queue {
    var all := Inbox(q, m.to) + [m];
    q.(inboxes := q.inboxes[m.to := all[Overflow(|all|, q.maxSize)..]], dirty := true)
  }

  function Dequeued(q: Queue, workspace: string, limit: nat, sender: Option<string>): Queue {
    if workspace !in q.inboxes then q else
      var s := q.inboxes[workspace];
      q.(inboxes := q.inboxes[workspace := Left(s, limit, sender)],
         dirty := q.dirty || Taken(s, limit, sender) != [])
  }

  function Removed(q: Queue, workspace: string, taskId: string): Queue {
    var id := Trim(taskId);
    if id == "" || workspace !in q.inboxes then q else
      var s := q.inboxes[workspace];
      q.(inboxes := q.inboxes[workspace := NotOfTask(s, id)], dirty := q.dirty || OfTask(s, id) != [])
  }

  function Step(q: Queue, op: QueueOp): Queue {
    match op
    case Enqueue(m, newId, now) => Enqueued(q, Stamped(m, newId, now))
    case Dequeue(workspace, limit, sender) => Dequeued(q, workspace, limit, sender)
    case RemoveTask(workspace, taskId) => Removed(q, workspace, taskId)
    case SetMaxSize(size) => q.(maxSize := size)
  }
}
