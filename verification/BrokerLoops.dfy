/** The refill and reconciler loops over the daemon's own stores, proved against the functions in Broker. */
module BrokerLoops {
  import opened Prelude
  import opened TaskModel
  import opened Broker
  import opened TaskStoreClass
  import opened MessageQueueClass

  /** Enqueue a message for the task's assignee, then record the dispatch. */
  method EnqueueTaskMessage(store: TaskStore, queue: MessageQueue, t: Task, sender: string, content: string,
                            now: Time, newId: string, ghost wakes: W.Pending)
    modifies store, queue
    ensures State(store.inner, queue.State(), wakes)
            == Post(State(old(store.inner), old(queue.State()), wakes), t, sender, content, now, newId)
  {
    var msg := queue.Enqueue(TaskMessage(sender, t.brief.assignee, content, now), newId, now);
    var _ := store.RecordDispatch(t.brief.id, msg.to, msg.createdAt, now, true);
  }

  method RefillRunnableTaskMessages(store: TaskStore, queue: MessageQueue, workspace: string, sender: string,
                                    now: Time, newId: string -> string) returns (count: nat)
    modifies store, queue
    ensures var r := Refill(State(old(store.inner), old(queue.State()), map[]), workspace, sender, now, newId);
            State(store.inner, queue.State(), map[]) == r.state && count == |r.sent|
  {
    var ids := RunnableIds(store.inner, workspace, now);
    var snapshot := store.inner;
    ghost var start := State(store.inner, queue.State(), map[]);
    count := 0;
    for i := 0 to |ids|
      invariant forall id :: id in ids ==> id in snapshot
      invariant var r := RefillOver(start, ids[..i], workspace, sender, now, newId);
                State(store.inner, queue.State(), map[]) == r.state && count == |r.sent|
    {
      var id := ids[i];
      assert id in ids && ids[..i + 1][..i] == ids[..i];
      var found := queue.HasTaskMessage(workspace, id);
      if !found {
        EnqueueTaskMessage(store, queue, snapshot[id], sender, DispatchContent(snapshot[id]), now, newId(id), map[]);
        count := count + 1;
      }
    }
    assert ids[..|ids|] == ids;
  }

  method ReconcileOnce(store: TaskStore, queue: MessageQueue, scheduler: W.WakeScheduler, probes: Probes,
                       recoverNow: Time, now: Time, newId: string -> string)
    modifies store, queue, scheduler
    ensures State(store.inner, queue.State(), scheduler.pending)
            == Reconcile(State(old(store.inner), old(queue.State()), old(scheduler.pending)),
                         recoverNow, now, probes, newId).state
  {
    ghost var start := State(store.inner, queue.State(), scheduler.pending);
    var _ := store.RecoverStaleInProgress(probes.dead, recoverNow, true);
    ReconcileSplits(start, store.inner, recoverNow, now, probes, newId);
    NudgeSilent(store, queue, scheduler, probes, now, newId);
  }

  /** A pass is the recovery sweep followed by the reminders. */
  lemma ReconcileSplits(s: State, recovered: Tasks, recoverNow: Time, now: Time, probes: Probes,
                        newId: string -> string)
    requires recovered == ApplyRecover(s.tasks, Event(Recover(probes.dead), recoverNow, true)).tasks
    ensures Reconcile(s, recoverNow, now, probes, newId)
            == NudgeOver(s.(tasks := recovered), SilentIds(recovered, now, SILENT_THRESHOLD), probes, now, newId)
  {}

  method NudgeSilent(store: TaskStore, queue: MessageQueue, scheduler: W.WakeScheduler, probes: Probes,
                     now: Time, newId: string -> string)
    modifies store, queue, scheduler
    ensures State(store.inner, queue.State(), scheduler.pending)
            == NudgeOver(State(old(store.inner), old(queue.State()), old(scheduler.pending)),
                         SilentIds(old(store.inner), now, SILENT_THRESHOLD), probes, now, newId).state
  {
    var ids := SilentIds(store.inner, now, SILENT_THRESHOLD);
    var snapshot := store.inner;
    ghost var start := State(store.inner, queue.State(), scheduler.pending);
    for i := 0 to |ids|
      invariant forall id :: id in ids ==> id in snapshot
      invariant State(store.inner, queue.State(), scheduler.pending)
                == NudgeOver(start, ids[..i], probes, now, newId).state
    {
      assert ids[i] in ids;
      NudgeOverNext(start, ids, i, probes, now, newId);
      NudgeTask(store, queue, scheduler, snapshot[ids[i]], ids[i], probes, now, newId(ids[i]));
    }
    assert ids[..|ids|] == ids;
  }

  lemma NudgeOverNext(s: State, ids: seq<string>, i: nat, probes: Probes, now: Time, newId: string -> string)
    requires i < |ids| && forall id :: id in ids ==> id in s.tasks
    ensures var done := NudgeOver(s, ids[..i], probes, now, newId);
            NudgeOver(s, ids[..i + 1], probes, now, newId).state
            == NudgeOne(Swept(done.state, []), s.tasks[ids[i]], ids[i], probes, now, newId(ids[i])).state
  {
    assert ids[..i + 1][..i] == ids[..i];
  }

  /** Remind the assignee of one silent task, unless it is capped, gone, busy or has messages waiting. */
  method NudgeTask(store: TaskStore, queue: MessageQueue, scheduler: W.WakeScheduler, task: Task, id: string,
                   probes: Probes, now: Time, newId: string)
    modifies store, queue, scheduler
    ensures State(store.inner, queue.State(), scheduler.pending)
            == NudgeOne(Swept(State(old(store.inner), old(queue.State()), old(scheduler.pending)), []), task, id,
                        probes, now, newId).state
  {
    if task.dispatchCount >= NUDGE_CAP {
      return;
    }
    if !probes.alive(id) {
      return;
    }
    if !probes.idle(id) {
      return;
    }
    var waiting := queue.PendingCount(task.brief.assignee);
    if waiting > 0 {
      return;
    }
    EnqueueTaskMessage(store, queue, task, RECONCILER, ReminderText(task, NUDGE_NOTE), now, newId,
                       scheduler.pending);
    scheduler.Schedule(task.brief.assignee, RECONCILER, now);
  }
}
