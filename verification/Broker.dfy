/**
  The two loops that turn tasks back into messages: the refill, which re-offers runnable tasks to an
  empty inbox, and the reconciler, which resets stranded tasks and nudges silent ones.
 */
module Broker {
  import opened Prelude
  import opened TaskIds
  import opened TaskModel
  import opened QueueModel
  import W = WakeScheduling

  datatype State = State(tasks: Tasks, queue: Queue, wakes: W.Pending)

  const SILENT_THRESHOLD: int := 180 * NANOS
  const NUDGE_CAP: int := 5
  const RECONCILER := "reconciler"
  const NUDGE_NOTE := "assignee looks idle"

  // ---------- messages about a task ----------

  function ReminderText(t: Task, note: string): string {
    "Task ID: " + t.brief.id + "\n\nTask: " + Trim(t.brief.title)
    + (if Trim(t.brief.description) == "" then "" else "\nDescription: " + Trim(t.brief.description))
    + "\nCurrent task status: " + StatusLabel(t.status)
    + (if note == "" then "" else "\n\nOperator note: " + note)
  }

  /** The stored dispatch message when there is one, a reminder otherwise. */
  function DispatchContent(t: Task): string {
    if Trim(t.brief.dispatchMessage) != "" then t.brief.dispatchMessage else ReminderText(t, "")
  }

  function TaskMessage(sender: string, to: string, content: string, now: Time): Message {
    Message("", sender, to, content, ExtractTaskId(content), now)
  }

  /** Enqueue a message for the task's assignee and record the dispatch. */
  function Post(s: State, t: Task, sender: string, content: string, now: Time, newId: string): State {
    var m := Stamped(TaskMessage(sender, t.brief.assignee, content, now), newId, now);
    s.(queue := Enqueued(s.queue, m),
       tasks := ApplyDispatch(s.tasks, Event(Dispatch(t.brief.id, m.to, m.createdAt), now, true)).tasks)
  }

  datatype Swept = Swept(state: State, sent: seq<string>)

  /** The records after a dispatch of each of the given tasks. */
  function Redispatched(tasks: Tasks, ids: seq<string>, now: Time): Tasks {
    map id | id in tasks :: if id in ids then DispatchedTask(tasks[id], now) else tasks[id]
  }

  // ---------- refill ----------

  /** One turn of the refill loop; `t` is the task as the loop's snapshot shows it. */
  function RefillOne(before: Swept, t: Task, id: string, ws: string, sender: string, now: Time, newId: string): Swept {
    if HasTaskMessage(before.state.queue, ws, id) then before
    else Swept(Post(before.state, t, sender, DispatchContent(t), now, newId), before.sent + [id])
  }

  /** The refill loop after the given tasks of its snapshot. */
  function RefillOver(s: State, ids: seq<string>, ws: string, sender: string, now: Time, newId: string -> string): Swept
    requires forall id :: id in ids ==> id in s.tasks
  {
    if ids == [] then Swept(s, []) else
      var id := ids[|ids| - 1];
      RefillOne(RefillOver(s, ids[..|ids| - 1], ws, sender, now, newId), s.tasks[id], id, ws, sender, now, newId(id))
  }

  function Refill(s: State, ws: string, sender: string, now: Time, newId: string -> string): Swept {
    RefillOver(s, RunnableIds(s.tasks, ws, now), ws, sender, now, newId)
  }

  // ---------- reconciler ----------

  /** What the session probes answered, task by task. */
  datatype Probes = Probes(dead: set<string>, alive: string -> bool, idle: string -> bool)

  predicate Nudgeable(t: Task, id: string, queue: Queue, probes: Probes) {
    t.dispatchCount < NUDGE_CAP && probes.alive(id) && probes.idle(id) && Inbox(queue, t.brief.assignee) == []
  }

  function Nudge(s: State, t: Task, now: Time, newId: string): State {
    var posted := Post(s, t, RECONCILER, ReminderText(t, NUDGE_NOTE), now, newId);
    posted.(wakes := W.Step(posted.wakes, W.Schedule(t.brief.assignee, RECONCILER, now)))
  }

  /** One turn of the nudge loop; `t` is the task as the loop's snapshot shows it. */
  function NudgeOne(before: Swept, t: Task, id: string, probes: Probes, now: Time, newId: string): Swept {
    if !Nudgeable(t, id, before.state.queue, probes) then before
    else Swept(Nudge(before.state, t, now, newId), before.sent + [id])
  }

  function NudgeOver(s: State, ids: seq<string>, probes: Probes, now: Time, newId: string -> string): Swept
    requires forall id :: id in ids ==> id in s.tasks
  {
    if ids == [] then Swept(s, []) else
      var id := ids[|ids| - 1];
      NudgeOne(NudgeOver(s, ids[..|ids| - 1], probes, now, newId), s.tasks[id], id, probes, now, newId(id))
  }

  /** One pass: reset tasks whose session is gone, then nudge the silent ones. */
  function Reconcile(s: State, recoverNow: Time, now: Time, probes: Probes, newId: string -> string): Swept {
    var swept := s.(tasks := ApplyRecover(s.tasks, Event(Recover(probes.dead), recoverNow, true)).tasks);
    NudgeOver(swept, SilentIds(swept.tasks, now, SILENT_THRESHOLD), probes, now, newId)
  }
}

/** What the refill guarantees. */
module RefillLaws {
  import opened Prelude
  import opened TaskIds
  import opened TaskModel
  import opened TaskInvariants
  import opened QueueModel
  import opened Broker

  /** The tasks among `ids` that have no message waiting. */
  function Missing(q: Queue, ws: string, ids: seq<string>): seq<string> {
    if ids == [] then [] else
      Missing(q, ws, ids[..|ids| - 1])
      + if HasTaskMessage(q, ws, ids[|ids| - 1]) then [] else [ids[|ids| - 1]]
  }

  /** No message is missing, or the inbox has room for one per task without one. */
  predicate Roomy(q: Queue, ws: string, ids: seq<string>) {
    q.maxSize == 0 || Missing(q, ws, ids) == [] || |Inbox(q, ws)| + |Missing(q, ws, ids)| <= q.maxSize
  }

  /** The messages a refill owes the given tasks. */
  function Notices(tasks: Tasks, ids: seq<string>, ws: string, sender: string, now: Time,
                   newId: string -> string): seq<Message>
    requires forall id :: id in ids ==> id in tasks
  {
    seq(|ids|, i requires 0 <= i < |ids| =>
      Stamped(TaskMessage(sender, ws, DispatchContent(tasks[ids[i]]), now), newId(ids[i]), now))
  }

  /** A message that a refill sends names its task. */
  lemma NoticeNamesTask(t: Task, sender: string, ws: string, newId: string, now: Time)
    requires Sound(t) && IsUuid(t.brief.id)
    ensures MessageTaskId(Stamped(TaskMessage(sender, ws, DispatchContent(t), now), newId, now)) == t.brief.id
  {
    var u := t.brief.id;
    var content := DispatchContent(t);
    UuidTrims(u);
    var header := "Task ID: " + u;
    if Trim(t.brief.dispatchMessage) != "" {
      assert Trim("") == "";
      assert header + "\n\n" <= content;
      assert content == header + content[|header|..];
      ExtractStamped(u, content[|header|..]);
    } else {
      assert header <= content;
      assert content == header + content[|header|..];
      ExtractStamped(u, content[|header|..]);
    }
  }

  // ---------- the loop, message by message ----------

  function QueueAfter(q: Queue, ws: string, notices: seq<Message>): Queue {
    if notices == [] then q else q.(inboxes := q.inboxes[ws := Inbox(q, ws) + notices], dirty := true)
  }

  lemma EnqueueOneMore(q: Queue, ws: string, notices: seq<Message>, m: Message)
    requires m.to == ws
    requires q.maxSize == 0 || |Inbox(q, ws)| + |notices| + 1 <= q.maxSize
    ensures Enqueued(QueueAfter(q, ws, notices), m) == QueueAfter(q, ws, notices + [m])
  {
    var before := QueueAfter(q, ws, notices);
    assert Inbox(before, ws) == Inbox(q, ws) + notices;
    assert Inbox(q, ws) + notices + [m] == Inbox(q, ws) + (notices + [m]);
    assert (Inbox(before, ws) + [m])[0..] == Inbox(before, ws) + [m];
    assert before.inboxes[ws := Inbox(before, ws) + [m]] == q.inboxes[ws := Inbox(before, ws) + [m]];
  }

  lemma HasAfter(q: Queue, ws: string, notices: seq<Message>, id: string)
    requires IsUuid(id)
    ensures HasTaskMessage(QueueAfter(q, ws, notices), ws, id)
            <==> HasTaskMessage(q, ws, id) || exists m :: m in notices && MessageTaskId(m) == id
  {
    UuidTrims(id);
    assert Inbox(QueueAfter(q, ws, notices), ws) == Inbox(q, ws) + notices;
  }

  lemma DispatchOneMore(tasks: Tasks, ids: seq<string>, id: string, ws: string, now: Time)
    requires id in tasks && id !in ids && tasks[id].removedAt.None? && tasks[id].brief.assignee == ws
    ensures ApplyDispatch(Redispatched(tasks, ids, now), Event(Dispatch(id, ws, now), now, true)).tasks
            == Redispatched(tasks, ids + [id], now)
  {
    assert StampOr(now, now) == now;
    var before := Redispatched(tasks, ids, now);
    var after := Redispatched(tasks, ids + [id], now);
    assert before[id] == tasks[id];
    assert before[id := DispatchedTask(tasks[id], now)] == after;
  }

  ghost predicate Offerable(tasks: Tasks, id: string, ws: string, now: Time) {
    id in tasks && Runnable(tasks[id], ws, now) && Sound(tasks[id]) && IsUuid(id) && tasks[id].brief.id == id
  }

  /** Each of the given tasks can be offered, and each is listed once. */
  ghost predicate Offers(tasks: Tasks, ids: seq<string>, ws: string, now: Time) {
    (forall id :: id in ids ==> Offerable(tasks, id, ws, now)) && NoDup(ids)
  }

  lemma {:induction false} MissingSubset(q: Queue, ws: string, ids: seq<string>)
    ensures forall id :: id in Missing(q, ws, ids) <==> id in ids && !HasTaskMessage(q, ws, id)
  {
    if ids != [] {
      MissingSubset(q, ws, ids[..|ids| - 1]);
      assert forall id :: id in ids <==> id in ids[..|ids| - 1] || id == ids[|ids| - 1];
    }
  }

  lemma NoticesName(tasks: Tasks, ids: seq<string>, ws: string, sender: string, now: Time, newId: string -> string,
                    id: string)
    requires forall x :: x in ids ==> x in tasks
    requires forall x :: x in ids ==> Offerable(tasks, x, ws, now)
    ensures (exists m :: m in Notices(tasks, ids, ws, sender, now, newId) && MessageTaskId(m) == id) <==> id in ids
  {
    var ns := Notices(tasks, ids, ws, sender, now, newId);
    forall i | 0 <= i < |ids| ensures MessageTaskId(ns[i]) == ids[i] {
      assert ids[i] in ids;
      NoticeNamesTask(tasks[ids[i]], sender, ws, newId(ids[i]), now);
    }
    if id in ids {
      var i :| 0 <= i < |ids| && ids[i] == id;
      assert ns[i] in ns;
    }
  }

  lemma NoticesSnoc(tasks: Tasks, ids: seq<string>, id: string, ws: string, sender: string, now: Time,
                    newId: string -> string)
    requires id in tasks && forall x :: x in ids ==> x in tasks
    ensures Notices(tasks, ids + [id], ws, sender, now, newId)
            == Notices(tasks, ids, ws, sender, now, newId)
               + [Stamped(TaskMessage(sender, ws, DispatchContent(tasks[id]), now), newId(id), now)]
  {
    var all := ids + [id];
    assert forall i :: 0 <= i < |ids| ==> all[i] == ids[i];
  }

  /** The state a refill of the given tasks leads to when there is room. */
  ghost function RefilledState(s: State, ids: seq<string>, ws: string, sender: string, now: Time,
                               newId: string -> string): State
    requires forall x :: x in ids ==> x in s.tasks
  {
    s.(queue := QueueAfter(s.queue, ws, Notices(s.tasks, ids, ws, sender, now, newId)),
       tasks := Redispatched(s.tasks, ids, now))
  }

  lemma RefillOneMore(s: State, sent: seq<string>, id: string, ws: string, sender: string, now: Time,
                      newId: string -> string)
    requires forall x :: x in sent ==> x in s.tasks
    requires forall x :: x in sent ==> Offerable(s.tasks, x, ws, now)
    requires Offerable(s.tasks, id, ws, now) && id !in sent
    requires s.queue.maxSize == 0 || |Inbox(s.queue, ws)| + |sent| + 1 <= s.queue.maxSize
    ensures var before := RefilledState(s, sent, ws, sender, now, newId);
            && (HasTaskMessage(before.queue, ws, id) <==> HasTaskMessage(s.queue, ws, id))
            && Post(before, s.tasks[id], sender, DispatchContent(s.tasks[id]), now, newId(id))
               == RefilledState(s, sent + [id], ws, sender, now, newId)
  {
    RefillHas(s, sent, id, ws, sender, now, newId);
    var notices := Notices(s.tasks, sent, ws, sender, now, newId);
    var m := Stamped(TaskMessage(sender, ws, DispatchContent(s.tasks[id]), now), newId(id), now);
    assert m.createdAt == now && m.to == ws;
    EnqueueOneMore(s.queue, ws, notices, m);
    NoticesSnoc(s.tasks, sent, id, ws, sender, now, newId);
    DispatchOneMore(s.tasks, sent, id, ws, now);
  }

  lemma RefillHas(s: State, sent: seq<string>, id: string, ws: string, sender: string, now: Time,
                  newId: string -> string)
    requires forall x :: x in sent ==> x in s.tasks
    requires forall x :: x in sent ==> Offerable(s.tasks, x, ws, now)
    requires IsUuid(id)
    ensures HasTaskMessage(RefilledState(s, sent, ws, sender, now, newId).queue, ws, id)
            <==> HasTaskMessage(s.queue, ws, id) || id in sent
  {
    HasAfter(s.queue, ws, Notices(s.tasks, sent, ws, sender, now, newId), id);
    NoticesName(s.tasks, sent, ws, sender, now, newId, id);
  }

  lemma OffersInit(tasks: Tasks, ids: seq<string>, ws: string, now: Time)
    requires Offers(tasks, ids, ws, now) && ids != []
    ensures Offers(tasks, ids[..|ids| - 1], ws, now)
    ensures Offerable(tasks, ids[|ids| - 1], ws, now) && ids[|ids| - 1] !in ids[..|ids| - 1]
  {
    assert ids[|ids| - 1] in ids && forall x :: x in ids[..|ids| - 1] ==> x in ids;
  }

  lemma MissingOffers(s: State, ids: seq<string>, ws: string, now: Time)
    requires Offers(s.tasks, ids, ws, now)
    ensures var missing := Missing(s.queue, ws, ids);
            forall x :: x in missing ==> x in s.tasks && Offerable(s.tasks, x, ws, now) && x in ids
  {
    MissingSubset(s.queue, ws, ids);
  }

  lemma RefillOneIs(s: State, sent: seq<string>, id: string, ws: string, sender: string, now: Time,
                    newId: string -> string)
    requires forall x :: x in sent ==> x in s.tasks
    requires forall x :: x in sent ==> Offerable(s.tasks, x, ws, now)
    requires Offerable(s.tasks, id, ws, now) && id !in sent
    requires !HasTaskMessage(s.queue, ws, id) ==>
               s.queue.maxSize == 0 || |Inbox(s.queue, ws)| + |sent| + 1 <= s.queue.maxSize
    ensures var sent' := if HasTaskMessage(s.queue, ws, id) then sent else sent + [id];
            && (forall x :: x in sent' ==> x in s.tasks)
            && RefillOne(Swept(RefilledState(s, sent, ws, sender, now, newId), sent), s.tasks[id], id, ws, sender, now,
                         newId(id))
               == Swept(RefilledState(s, sent', ws, sender, now, newId), sent')
  {
    RefillHas(s, sent, id, ws, sender, now, newId);
    if !HasTaskMessage(s.queue, ws, id) { RefillOneMore(s, sent, id, ws, sender, now, newId); }
  }

  lemma {:induction false} RefillOverIs(s: State, ids: seq<string>, ws: string, sender: string, now: Time,
                                        newId: string -> string)
    requires Offers(s.tasks, ids, ws, now) && Roomy(s.queue, ws, ids)
    requires forall id :: id in ids ==> id in s.tasks
    ensures var missing := Missing(s.queue, ws, ids);
            && (forall x :: x in missing ==> x in s.tasks)
            && RefillOver(s, ids, ws, sender, now, newId)
               == Swept(RefilledState(s, missing, ws, sender, now, newId), missing)
  {
    if ids == [] {
      assert Redispatched(s.tasks, [], now) == s.tasks;
    } else {
      var init := ids[..|ids| - 1];
      OffersInit(s.tasks, ids, ws, now);
      assert forall id :: id in init ==> id in ids;
      RefillOverIs(s, init, ws, sender, now, newId);
      MissingOffers(s, init, ws, now);
      var sent := Missing(s.queue, ws, init);
      var id := ids[|ids| - 1];
      RefillOneIs(s, sent, id, ws, sender, now, newId);
      assert sent + [] == sent;
      assert Missing(s.queue, ws, ids) == if HasTaskMessage(s.queue, ws, id) then sent else sent + [id];
    }
  }

  /** The runnable tasks of a sound store can all be offered. */
  lemma RunnableOffers(tasks: Tasks, ws: string, now: Time)
    requires Inv(tasks)
    ensures Offers(tasks, RunnableIds(tasks, ws, now), ws, now)
  {
    forall id | id in RunnableIds(tasks, ws, now) ensures Offerable(tasks, id, ws, now) {
      assert LinkedAt(tasks, id);
    }
  }

  /** Recording a dispatch makes no task more or less runnable. */
  lemma RunnableStays(tasks: Tasks, ids: seq<string>, ws: string, now: Time)
    requires forall x :: x in ids ==> x in tasks && Runnable(tasks[x], ws, now)
    ensures RunnableIds(Redispatched(tasks, ids, now), ws, now) == RunnableIds(tasks, ws, now)
  {
    var after := Redispatched(tasks, ids, now);
    forall id | id in tasks ensures Runnable(after[id], ws, now) <==> Runnable(tasks[id], ws, now) {}
    assert (set id | id in after && Runnable(after[id], ws, now))
           == (set id | id in tasks && Runnable(tasks[id], ws, now));
  }

  // ---------- the guarantees ----------

  /**
    A refill with room sends one message to each runnable task that has none: afterwards every runnable task
    has a message waiting, the dispatch count of exactly the tasks written to has risen by one, nothing else
    has moved, and an immediate second refill sends nothing and changes nothing.
   */
  lemma RefillIsIdempotent(s: State, ws: string, sender: string, now: Time, newId: string -> string,
                           again: string -> string)
    requires Inv(s.tasks) && Roomy(s.queue, ws, RunnableIds(s.tasks, ws, now))
    ensures var r := Refill(s, ws, sender, now, newId);
            && (forall id :: id in RunnableIds(r.state.tasks, ws, now) ==> HasTaskMessage(r.state.queue, ws, id))
            && (forall id :: id in r.sent <==> id in RunnableIds(s.tasks, ws, now) && !HasTaskMessage(s.queue, ws, id))
            && r.state.tasks == Redispatched(s.tasks, r.sent, now)
            && |Inbox(r.state.queue, ws)| == |Inbox(s.queue, ws)| + |r.sent|
            && Inbox(s.queue, ws) <= Inbox(r.state.queue, ws)
            && Refill(r.state, ws, sender, now, again) == Swept(r.state, [])
  {
    var ids := RunnableIds(s.tasks, ws, now);
    RunnableOffers(s.tasks, ws, now);
    RefillOverIs(s, ids, ws, sender, now, newId);
    MissingSubset(s.queue, ws, ids);
    RefilledSettles(s, ids, Missing(s.queue, ws, ids), ws, sender, now, newId, again);
  }

  lemma RefilledSettles(s: State, ids: seq<string>, sent: seq<string>, ws: string, sender: string, now: Time,
                        newId: string -> string, again: string -> string)
    requires Offers(s.tasks, ids, ws, now) && ids == RunnableIds(s.tasks, ws, now)
    requires forall x :: x in sent ==> x in s.tasks
    requires forall x :: x in sent <==> x in ids && !HasTaskMessage(s.queue, ws, x)
    ensures var after := RefilledState(s, sent, ws, sender, now, newId);
            && RunnableIds(after.tasks, ws, now) == ids
            && (forall id :: id in ids ==> HasTaskMessage(after.queue, ws, id))
            && Inbox(after.queue, ws) == Inbox(s.queue, ws) + Notices(s.tasks, sent, ws, sender, now, newId)
            && Refill(after, ws, sender, now, again) == Swept(after, [])
  {
    var after := RefilledState(s, sent, ws, sender, now, newId);
    assert forall x :: x in sent ==> Offerable(s.tasks, x, ws, now);
    RunnableStays(s.tasks, sent, ws, now);
    forall id | id in ids ensures HasTaskMessage(after.queue, ws, id) {
      assert Offerable(s.tasks, id, ws, now);
      RefillHas(s, sent, id, ws, sender, now, newId);
    }
    RefillSkips(after, ids, ws, sender, now, again);
  }

  /** A loop over tasks that all have messages does nothing. */
  lemma {:induction false} RefillSkips(s: State, ids: seq<string>, ws: string, sender: string, now: Time,
                                       newId: string -> string)
    requires forall id :: id in ids ==> id in s.tasks
    requires forall id :: id in ids ==> HasTaskMessage(s.queue, ws, id)
    ensures RefillOver(s, ids, ws, sender, now, newId) == Swept(s, [])
  {
    if ids != [] {
      assert ids[|ids| - 1] in ids;
      RefillSkips(s, ids[..|ids| - 1], ws, sender, now, newId);
    }
  }

  // ---------- the cap ----------

  lemma {:induction false} MissingFewer(q: Queue, ws: string, ids: seq<string>)
    ensures |Missing(q, ws, ids)| <= |ids|
  {
    if ids != [] { MissingFewer(q, ws, ids[..|ids| - 1]); }
  }

  /** Whatever the cap, the loop dispatches each task it writes to once and touches no other record. */
  lemma {:induction false} RefillTouchesSent(s: State, ids: seq<string>, ws: string, sender: string, now: Time,
                                             newId: string -> string)
    requires Offers(s.tasks, ids, ws, now)
    requires forall id :: id in ids ==> id in s.tasks
    ensures var r := RefillOver(s, ids, ws, sender, now, newId);
            (forall id :: id in r.sent ==> id in ids) && r.state.tasks == Redispatched(s.tasks, r.sent, now)
  {
    if ids == [] {
      assert Redispatched(s.tasks, [], now) == s.tasks;
    } else {
      var init, id := ids[..|ids| - 1], ids[|ids| - 1];
      OffersInit(s.tasks, ids, ws, now);
      assert forall x :: x in init ==> x in ids;
      RefillTouchesSent(s, init, ws, sender, now, newId);
      var before := RefillOver(s, init, ws, sender, now, newId);
      if !HasTaskMessage(before.state.queue, ws, id) { PostDispatches(s, before, id, ws, sender, now, newId(id)); }
      assert id in ids;
    }
  }

  lemma PostDispatches(s: State, before: Swept, id: string, ws: string, sender: string, now: Time, newId: string)
    requires Offerable(s.tasks, id, ws, now) && id !in before.sent
    requires before.state.tasks == Redispatched(s.tasks, before.sent, now)
    ensures Post(before.state, s.tasks[id], sender, DispatchContent(s.tasks[id]), now, newId).tasks
            == Redispatched(s.tasks, before.sent + [id], now)
  {
    var m := Stamped(TaskMessage(sender, ws, DispatchContent(s.tasks[id]), now), newId, now);
    assert m.createdAt == now && m.to == ws;
    DispatchOneMore(s.tasks, before.sent, id, ws, now);
  }

  /** The loop never fills an inbox past the cap. */
  lemma {:induction false} RefillKeepsCap(s: State, ids: seq<string>, ws: string, sender: string, now: Time,
                                          newId: string -> string)
    requires forall id :: id in ids ==> id in s.tasks
    requires forall id :: id in ids ==> s.tasks[id].brief.assignee == ws
    requires s.queue.maxSize > 0 && |Inbox(s.queue, ws)| <= s.queue.maxSize
    ensures var q := RefillOver(s, ids, ws, sender, now, newId).state.queue;
            q.maxSize == s.queue.maxSize && |Inbox(q, ws)| <= q.maxSize
  {
    if ids != [] {
      assert ids[|ids| - 1] in ids;
      RefillKeepsCap(s, ids[..|ids| - 1], ws, sender, now, newId);
    }
  }

  /** A loop that sends nothing found a message for every task. */
  lemma {:induction false} NothingSent(s: State, ids: seq<string>, ws: string, sender: string, now: Time,
                                       newId: string -> string)
    requires forall id :: id in ids ==> id in s.tasks
    requires RefillOver(s, ids, ws, sender, now, newId).sent == []
    ensures RefillOver(s, ids, ws, sender, now, newId).state == s
    ensures forall id :: id in ids ==> HasTaskMessage(s.queue, ws, id)
  {
    if ids != [] {
      var init := ids[..|ids| - 1];
      NothingSent(s, init, ws, sender, now, newId);
      assert forall id :: id in ids <==> id in init || id == ids[|ids| - 1];
    }
  }

  /** An inbox holds messages of no more tasks than it has messages. */
  lemma {:induction false} TasksFit(box: seq<Message>, ids: set<string>)
    requires forall id :: id in ids ==> exists m :: m in box && MessageTaskId(m) == id
    ensures |ids| <= |box|
  {
    if box == [] {
      assert ids == {};
    } else {
      var named := MessageTaskId(box[0]);
      forall id | id in ids - {named} ensures exists m :: m in box[1..] && MessageTaskId(m) == id {
        var m :| m in box && MessageTaskId(m) == id;
        assert m in box[1..];
      }
      TasksFit(box[1..], ids - {named});
      if named !in ids { assert ids - {named} == ids; }
    }
  }

  lemma {:induction false} ListedSet(ids: seq<string>)
    requires NoDup(ids)
    ensures |set id | id in ids| == |ids|
  {
    if ids != [] {
      var init, last := ids[..|ids| - 1], ids[|ids| - 1];
      ListedSet(init);
      assert (set id | id in ids) == (set id | id in init) + {last};
    }
  }

  lemma CapTooSmall(q: Queue, ws: string, ids: seq<string>)
    requires NoDup(ids) && forall id :: id in ids ==> IsUuid(id) && HasTaskMessage(q, ws, id)
    ensures |ids| <= |Inbox(q, ws)|
  {
    var all := set id | id in ids;
    forall id | id in all ensures exists m :: m in Inbox(q, ws) && MessageTaskId(m) == id {
      UuidTrims(id);
    }
    TasksFit(Inbox(q, ws), all);
    ListedSet(ids);
  }

  /** There is no cap, or it leaves room for one message per runnable task. */
  predicate CapFits(s: State, ws: string, now: Time) {
    s.queue.maxSize == 0 || |RunnableIds(s.tasks, ws, now)| <= s.queue.maxSize
  }

  /**
    Into an empty inbox, which is where the daemon refills, the promise holds exactly when the cap is not below
    the number of runnable tasks: then every one of them has a message afterwards, and a second refill sends
    nothing. With more runnable tasks than the cap, both fail.
   */
  lemma RefillSettlesIff(s: State, ws: string, sender: string, now: Time, newId: string -> string,
                         again: string -> string)
    requires Inv(s.tasks) && Inbox(s.queue, ws) == []
    ensures var after := Refill(s, ws, sender, now, newId).state;
            && ((forall id :: id in RunnableIds(after.tasks, ws, now) ==> HasTaskMessage(after.queue, ws, id)) <==>
                  CapFits(s, ws, now))
            && (Refill(after, ws, sender, now, again).sent == [] <==> CapFits(s, ws, now))
  {
    var ids := RunnableIds(s.tasks, ws, now);
    if CapFits(s, ws, now) {
      MissingFewer(s.queue, ws, ids);
      RefillIsIdempotent(s, ws, sender, now, newId, again);
    } else {
      CappedRefillFallsShort(s, ws, sender, now, newId);
      var after := Refill(s, ws, sender, now, newId).state;
      if Refill(after, ws, sender, now, again).sent == [] { NothingSent(after, ids, ws, sender, now, again); }
    }
  }

  /** With more runnable tasks than the cap, a refill leaves one of them without a message. */
  lemma CappedRefillFallsShort(s: State, ws: string, sender: string, now: Time, newId: string -> string)
    requires Inv(s.tasks) && 0 < s.queue.maxSize < |RunnableIds(s.tasks, ws, now)|
             && |Inbox(s.queue, ws)| <= s.queue.maxSize
    ensures var after := Refill(s, ws, sender, now, newId).state;
            && RunnableIds(after.tasks, ws, now) == RunnableIds(s.tasks, ws, now)
            && exists id :: id in RunnableIds(s.tasks, ws, now) && !HasTaskMessage(after.queue, ws, id)
  {
    var ids := RunnableIds(s.tasks, ws, now);
    var r := Refill(s, ws, sender, now, newId);
    RunnableOffers(s.tasks, ws, now);
    assert forall id :: id in ids ==> Offerable(s.tasks, id, ws, now);
    RefillTouchesSent(s, ids, ws, sender, now, newId);
    RunnableStays(s.tasks, r.sent, ws, now);
    RefillKeepsCap(s, ids, ws, sender, now, newId);
    if forall id :: id in ids ==> HasTaskMessage(r.state.queue, ws, id) { CapTooSmall(r.state.queue, ws, ids); }
  }
}
