/** Whole runs of the in-memory backend: what every request keeps, from the
    empty store on, in any order and however many callers interleave. */
module MemoryRuns {
  import opened Lifecycle
  import opened Protocol
  import opened Queues
  import opened MemorySpec
  import opened MemoryWorld
  import opened MemoryFound
  import opened MemoryCounters
  import opened MemoryQueues
  import opened Totals

  // ----- idempotency keys -----

  /** Every bound key names a job that was created. */
  predicate KeysBound(w: World) {
    forall key :: key in w.store.idempotency ==> w.store.idempotency[key] in Used(w)
  }

  /** Two keys never share a job: each creation binds at most one key. */
  predicate KeysApart(s: Store) {
    forall k, l :: k in s.idempotency && l in s.idempotency && k != l ==> s.idempotency[k] != s.idempotency[l]
  }

  // ----- the run theorems -----

  ghost predicate BasicInv(w: World) {
    && WellFormed(w.store) && AllFound(w.store)
    && CountersAgree(w)
    && (forall q :: Ledger(w, q))
    && PushesKnown(w)
    && KeysBound(w) && KeysApart(w.store)
  }

  lemma KeysUntouched(s: Store, op: Op, out: Outcome)
    requires WellFormed(s) && MemorySpec.Allowed(s, op, out)
    ensures MemorySpec.Apply(s, op, out).idempotency == s.idempotency
  {
    hide PromoteAll, Erase, MoveState, RequeueJob, MarkDeleted, RetryLater, EnqueueJob, ScheduleJob, TakeFrom;
  }

  lemma EventKeepsBasicInv(w: World, ev: Event)
    requires BasicInv(w) && Permits(w, Do(ev))
    ensures BasicInv(After(w, ev))
    ensures Used(After(w, ev)) == UsedAfter(Used(w), ev.op)
    ensures After(w, ev).store.idempotency == w.store.idempotency
  {
    hide WellFormed, AllFound, CountersAgree, MemorySpec.Allowed, MemorySpec.Apply, Ledger, Pushes, Pops, Bury;
    StepKeepsFound(w.store, Used(w), ev);
    StepKeepsCounters(w, ev);
    forall q ensures Ledger(After(w, ev), q) { StepKeepsLedger(w, ev, q); }
    StepKeepsPushesKnown(w, ev);
    UsedGrows(w, ev);
    KeysUntouched(w.store, ev.op, ev.out);
  }

  lemma StepKeepsBasicInv(w: World, step: Step)
    requires BasicInv(w) && Permits(w, step)
    ensures BasicInv(Next(w, step))
  {
    hide After, WellFormed, EnqueueJob, AllFound, CountersAgree, Ledger;
    match step
    case Do(ev) => EventKeepsBasicInv(w, ev);
    case DoIdempotent(queue, id, job, key, now) =>
      var ev := Event(Op.Enqueue(queue, id, job, now), Created(id));
      EventKeepsBasicInv(w, ev);
      if key != "" && key !in w.store.idempotency {
        assert KeysBound(w);
        BindKeepsBasicInv(After(w, ev), key, id);
      }
  }

  lemma BindKeepsFound(w: World, key: string, id: JobId)
    requires WellFormed(w.store) && AllFound(w.store)
    ensures WellFormed(Bind(w, key, id).store) && AllFound(Bind(w, key, id).store)
  {
    forall i | i in w.store.states ensures Found(Bind(w, key, id).store, i) { assert Found(w.store, i); }
  }

  lemma BindKeepsCounters(w: World, key: string, id: JobId)
    requires CountersAgree(w)
    ensures CountersAgree(Bind(w, key, id))
  {
    hide Total, Merge;
  }

  lemma BindKeepsBasicInv(w: World, key: string, id: JobId)
    requires BasicInv(w) && id in Used(w)
    requires forall k :: k in w.store.idempotency ==> w.store.idempotency[k] != id
    ensures BasicInv(Bind(w, key, id))
  {
    hide WellFormed, AllFound, CountersAgree, QueueOf, OnQueue;
    var v := Bind(w, key, id);
    BindKeepsFound(w, key, id);
    BindKeepsCounters(w, key, id);
    forall q ensures Ledger(v, q) { assert Ledger(w, q) && QueueOf(v.store, q) == QueueOf(w.store, q) by { QueuesOnly(w.store, v.store, q); } }
  }

  lemma QueuesOnly(s: Store, t: Store, q: Queue)
    requires s.queues == t.queues
    ensures QueueOf(s, q) == QueueOf(t, q)
  {
  }

  /** In every run from the empty store no job is lost, the counters add up,
      every queue is first in first out, and idempotency keys name distinct jobs. */
  lemma {:induction false} BasicRunsKeepInv(w: World, steps: seq<Step>)
    requires BasicInv(w) && BasicRun(w, steps)
    ensures BasicInv(RunTo(w, steps))
    decreases |steps|
  {
    if steps != [] {
      StepKeepsBasicInv(w, steps[0]);
      BasicRunsKeepInv(Next(w, steps[0]), steps[1..]);
    }
  }

  /** An idempotent enqueue reports a creation exactly for a key that is not bound, or for
      none; then the new job is there and the key is its own, and else nothing changes and
      the bound job is named. */
  lemma CreatesIff(s: Store, queue: Queue, id: JobId, job: Job, key: string, now: Time)
    requires WellFormed(s)
    ensures var (t, named, created) := EnqueueIdempotent(s, queue, id, job, key, now);
      && (created <==> key == "" || key !in s.idempotency)
      && (created ==>
            && named == id && id in t.jobs && t.states[id] == [Entry(Enqueued, now)] && id in QueueOf(t, queue)
            && (key != "" ==> key in t.idempotency && t.idempotency[key] == id)
            && forall k :: k != key ==> (k in t.idempotency <==> k in s.idempotency) && (k in s.idempotency ==> t.idempotency[k] == s.idempotency[k]))
      && (!created ==> t == s && named == s.idempotency[key])
  {
    var t := EnqueueJob(s, queue, id, job, now);
    assert Last(QueueOf(t, queue)) == id;
    hide Filled;
  }

  /** A bound key stays bound to its job for ever, even after the job expired. */
  lemma {:induction false} KeyIsBoundForever(w: World, steps: seq<Step>, key: string)
    requires BasicInv(w) && BasicRun(w, steps) && key in w.store.idempotency
    ensures key in RunTo(w, steps).store.idempotency
    ensures RunTo(w, steps).store.idempotency[key] == w.store.idempotency[key]
    decreases |steps|
  {
    if |steps| > 0 {
      StepKeepsBasicInv(w, steps[0]);
      BindingStays(w, steps[0], key);
      hide BasicInv, Permits, Next;
      KeyIsBoundForever(Next(w, steps[0]), steps[1..], key);
    }
  }

  lemma BindingStays(w: World, step: Step, key: string)
    requires BasicInv(w) && Permits(w, step) && key in w.store.idempotency
    ensures key in Next(w, step).store.idempotency && Next(w, step).store.idempotency[key] == w.store.idempotency[key]
  {
    hide BasicInv, After, WellFormed, EnqueueJob, MemorySpec.Apply;
    match step
    case Do(ev) => EventKeepsBasicInv(w, ev);
    case DoIdempotent(queue, id, job, _, now) =>
      EventKeepsBasicInv(w, Event(Op.Enqueue(queue, id, job, now), Created(id)));
  }

  lemma StartCounters()
    ensures CountersAgree(START)
  {
    forall name ensures Total(map[], name) == 0 { TotalOfNone(name); }
    hide Total;
    assert Merge(map[], map[]) == map[];
  }

  lemma StartIsBasic()
    ensures BasicInv(START)
  {
    hide CountersAgree;
    StartCounters();
  }

  /** Every basic run from the empty store: well formed, no job lost, counters equal to
      what the histories say, each queue first in first out, keys on jobs of their own. */
  lemma EveryBasicRun(steps: seq<Step>)
    requires BasicRun(START, steps)
    ensures var w := RunTo(START, steps);
      && WellFormed(w.store) && AllFound(w.store) && CountersAgree(w)
      && (forall q :: Ledger(w, q)) && KeysBound(w) && KeysApart(w.store)
  {
    StartIsBasic();
    BasicRunsKeepInv(START, steps);
    hide BasicRun, WellFormed, AllFound, CountersAgree, Ledger, KeysBound, KeysApart;
  }

  // ----- consequences over runs -----

  /** An entry at position k of a queue leaves it with exactly the (k+1)-st pop of
      that queue, whatever else is enqueued, requeued or promoted meanwhile. */
  lemma FirstInFirstOut(w: World, steps: seq<Step>, q: Queue, k: nat)
    requires BasicInv(w) && BasicRun(w, steps) && k < |QueueOf(w.store, q)|
    ensures var v := RunTo(w, steps);
      var before, after := OnQueue(w.popped, q), OnQueue(v.popped, q);
      && |before| <= |after|
      && (|after| - |before| <= k ==>
            k - (|after| - |before|) < |QueueOf(v.store, q)|
            && QueueOf(v.store, q)[k - (|after| - |before|)] == QueueOf(w.store, q)[k])
      && (|after| - |before| > k ==> after[|before| + k] == QueueOf(w.store, q)[k])
  {
    hide *;
    BasicRunsKeepInv(w, steps);
    LogsGrow(w, steps, q);
    var v := RunTo(w, steps);
    LedgerOf(w, q);
    LedgerOf(v, q);
    KeepsItsPlace(OnQueue(w.pushed, q), OnQueue(v.pushed, q), OnQueue(w.popped, q), OnQueue(v.popped, q),
                  QueueOf(w.store, q), QueueOf(v.store, q), k);
  }

  /** A ledger that only grows: the entry at place k waits at place k minus the pops since. */
  lemma KeepsItsPlace(pushed: seq<JobId>, pushed': seq<JobId>, popped: seq<JobId>, popped': seq<JobId>,
                      waiting: seq<JobId>, waiting': seq<JobId>, k: nat)
    requires pushed == popped + waiting && pushed' == popped' + waiting'
    requires pushed <= pushed' && popped <= popped' && k < |waiting|
    ensures |popped'| - |popped| <= k ==>
      k - (|popped'| - |popped|) < |waiting'| && waiting'[k - (|popped'| - |popped|)] == waiting[k]
    ensures |popped'| - |popped| > k ==> popped'[|popped| + k] == waiting[k]
  {
    assert pushed[|popped| + k] == waiting[k];
    assert pushed'[|popped| + k] == pushed[|popped| + k];
  }

  lemma LedgerOf(w: World, q: Queue)
    requires BasicInv(w)
    ensures OnQueue(w.pushed, q) == OnQueue(w.popped, q) + QueueOf(w.store, q)
  {
    assert Ledger(w, q);
  }

  lemma {:induction false} LogsGrow(w: World, steps: seq<Step>, q: Queue)
    requires BasicRun(w, steps)
    ensures OnQueue(w.pushed, q) <= OnQueue(RunTo(w, steps).pushed, q)
    ensures OnQueue(w.popped, q) <= OnQueue(RunTo(w, steps).popped, q)
    decreases |steps|
  {
    if |steps| > 0 {
      LogsGrowOnce(w, steps[0], q);
      LogsGrow(Next(w, steps[0]), steps[1..], q);
    }
  }

  lemma LogsGrowOnce(w: World, step: Step, q: Queue)
    requires Permits(w, step)
    ensures OnQueue(w.pushed, q) <= OnQueue(Next(w, step).pushed, q)
    ensures OnQueue(w.popped, q) <= OnQueue(Next(w, step).popped, q)
  {
    var ev := if step.Do? then step.ev else Event(Op.Enqueue(step.queue, step.id, step.job, step.now), Created(step.id));
    OnQueueConcat(w.pushed, Pushes(w.store, ev), q);
    OnQueueConcat(w.popped, Pops(w.store, ev), q);
    hide OnQueue, Pushes, Pops, MemorySpec.Apply, Bury;
  }

  /** The dequeue that finds no job behind an id (and so unlocks the mutex twice)
      happens exactly when the head of the queue names a job already erased. */
  lemma MissingMeansErased(w: World, queues: seq<Queue>, now: Time, out: Outcome)
    requires BasicInv(w) && Permits(w, Do(Event(Op.Dequeue(queues, now), out))) && !out.Refused?
    ensures out.Missing? <==> out.id in w.buried
  {
    var i := FirstNonEmpty(w.store.queues, queues);
    var id := QueueOf(w.store, queues[i])[0];
    assert out == TakeOutcome(w.store, queues[i]);
    assert Ledger(w, queues[i]);
    QueuedIsKnown(w, queues[i], id);
    assert Apart(w.store.states, w.buried);
  }

  /** One job, in one state, and its place at the head of its queue. */
  predicate Sole(w: World, id: JobId, queue: Queue, name: State, now: Time) {
    && WellFormed(w.store) && w.store.states.Keys == {id} && Is(w.store, id, name)
    && Last(w.store.states[id]).at == now && QueueOf(w.store, queue) == [id]
  }

  lemma CreateSole(id: JobId, job: Job, now: Time)
    requires job.queue != NO_QUEUE
    ensures var step := Do(Event(Op.Enqueue(job.queue, id, job, now), Created(id)));
      Permits(START, step) && Sole(Next(START, step), id, job.queue, Enqueued, now)
  {
  }

  lemma DeleteSole(w: World, id: JobId, queue: Queue, now: Time)
    requires Sole(w, id, queue, Enqueued, now)
    ensures var step := Do(Event(Op.DeleteJob(id, now), Done));
      Permits(w, step) && Sole(Next(w, step), id, queue, Deleted, now)
  {
  }

  lemma ExpireSole(w: World, id: JobId, queue: Queue, now: Time)
    requires Sole(w, id, queue, Deleted, now)
    ensures var step := Do(Event(RemoveExpired(now + 1), Removed({id})));
      Permits(w, step) && WellFormed(Next(w, step).store)
      && id !in Next(w, step).store.jobs && QueueOf(Next(w, step).store, queue) == [id]
  {
    assert Expired(w.store, now + 1, id);
    assert AllExpired(w.store, now + 1) == {id};
  }

  lemma MissingNext(s: Store, id: JobId, queue: Queue, now: Time)
    requires WellFormed(s) && id !in s.jobs && QueueOf(s, queue) == [id]
    ensures MemorySpec.Allowed(s, Op.Dequeue([queue], now), Missing(id))
  {
    assert FirstNonEmpty(s.queues, [queue]) == 0;
  }

  /** It can happen: delete a queued job, let it expire, dequeue. */
  lemma MissingIsReachable(id: JobId, job: Job, now: Time)
    requires job.queue != NO_QUEUE
    ensures exists steps ::
      && BasicRun(START, steps) && WellFormed(RunTo(START, steps).store)
      && MemorySpec.Allowed(RunTo(START, steps).store, Op.Dequeue([job.queue], now), Missing(id))
  {
    hide Permits, Next, Sole, MemorySpec.Allowed;
    var steps := [
      Do(Event(Op.Enqueue(job.queue, id, job, now), Created(id))),
      Do(Event(Op.DeleteJob(id, now), Done)),
      Do(Event(RemoveExpired(now + 1), Removed({id})))];
    CreateSole(id, job, now);
    var w1 := Next(START, steps[0]);
    DeleteSole(w1, id, job.queue, now);
    var w2 := Next(w1, steps[1]);
    ExpireSole(w2, id, job.queue, now);
    MissingNext(Next(w2, steps[2]).store, id, job.queue, now);
    hide BasicRun, RunTo;
    RunOfThree(START, steps);
  }

  lemma RunOfThree(w: World, steps: seq<Step>)
    requires |steps| == 3 && Permits(w, steps[0])
    requires Permits(Next(w, steps[0]), steps[1])
    requires Permits(Next(Next(w, steps[0]), steps[1]), steps[2])
    ensures BasicRun(w, steps)
    ensures RunTo(w, steps) == Next(Next(Next(w, steps[0]), steps[1]), steps[2])
  {
    hide Next;
    var rest := steps[1..];
    assert rest[0] == steps[1] && rest[1..][0] == steps[2] && |rest[1..]| == 1;
    var v := Next(w, steps[0]);
    assert BasicRun(Next(v, rest[0]), rest[1..]) && RunTo(Next(v, rest[0]), rest[1..]) == Next(Next(v, rest[0]), steps[2]);
    assert BasicRun(v, rest) && RunTo(v, rest) == RunTo(Next(v, rest[0]), rest[1..]);
  }

  /** A live history only grows at its end; an expired one never changes again. */
  lemma {:induction false} HistoriesGrow(w: World, steps: seq<Step>, id: JobId)
    requires BasicInv(w) && BasicRun(w, steps) && id in All(w)
    ensures id in All(RunTo(w, steps)) && All(w)[id] <= All(RunTo(w, steps))[id]
    ensures id in w.buried ==> id in RunTo(w, steps).buried && id !in RunTo(w, steps).store.states
    decreases |steps|
  {
    if |steps| > 0 {
      var v := Next(w, steps[0]);
      StepKeepsBasicInv(w, steps[0]);
      HistoryGrowsOnce(w, steps[0], id);
      hide BasicInv, Next, Allowed, All;
      HistoriesGrow(v, steps[1..], id);
    } else {
      BuriedIsNotLive(w, id);
    }
  }

  lemma BuriedIsNotLive(w: World, id: JobId)
    requires BasicInv(w)
    ensures id in w.buried ==> id !in w.store.states
  {
    assert Apart(w.store.states, w.buried);
  }

  lemma StatesExtend(s: Store, op: Op, out: Outcome, id: JobId)
    requires WellFormed(s) && MemorySpec.Allowed(s, op, out) && id in s.states && !(Creates(op) && op.id == id)
    ensures (out.Removed? && id in out.gone) || (id in MemorySpec.Apply(s, op, out).states && s.states[id] <= MemorySpec.Apply(s, op, out).states[id])
  {
    if op.GetDueScheduled? {
      PromoteExtends(s, out.ids, op.now, id);
      hide PromoteAll, WellFormed;
    } else if op.Dequeue? {
      hide PromoteAll, Erase, MoveState, RequeueJob, MarkDeleted, RetryLater, EnqueueJob, ScheduleJob;
    } else {
      hide PromoteAll, TakeFrom, Push, FirstNonEmpty;
    }
  }

  lemma PromoteExtends(s: Store, ids: seq<JobId>, now: Time, id: JobId)
    requires WellFormed(s) && (forall x :: x in ids ==> x in s.jobs) && id in s.states
    ensures id in PromoteAll(s, ids, now).states && s.states[id] <= PromoteAll(s, ids, now).states[id]
  {
  }

  lemma HistoryGrowsOnce(w: World, step: Step, id: JobId)
    requires BasicInv(w) && Permits(w, step) && id in All(w)
    ensures id in All(Next(w, step)) && All(w)[id] <= All(Next(w, step))[id]
    ensures id in w.buried ==> id in Next(w, step).buried
  {
    var ev := if step.Do? then step.ev else Event(Op.Enqueue(step.queue, step.id, step.job, step.now), Created(step.id));
    BuriedIsNotLive(w, id);
    hide BasicInv, After, Merge, WellFormed, EnqueueJob, MemorySpec.Apply;
    if step.Do? || step.key == "" || step.key !in w.store.idempotency {
      EventHistoryGrows(w, ev, id);
    }
  }

  lemma EventHistoryGrows(w: World, ev: Event, id: JobId)
    requires (id in w.buried ==> id !in w.store.states) && Enabled(w, ev) && id in All(w)
    ensures id in All(After(w, ev)) && All(w)[id] <= All(After(w, ev))[id]
    ensures id in w.buried ==> id in After(w, ev).buried
  {
    hide Pushes, Pops;
    if id in w.store.states {
      StatesExtend(w.store, ev.op, ev.out, id);
    }
    StatesGrow(w.store, ev.op, ev.out);
    hide MemorySpec.Apply;
  }
}
