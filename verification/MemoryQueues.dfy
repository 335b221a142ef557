/** Queues are first in, first out: what was pushed is what was popped, followed
    by what still waits. */
module MemoryQueues {
  import opened Lifecycle
  import opened Protocol
  import opened Queues
  import opened MemorySpec
  import opened MemoryWorld

  /** What was pushed is what was popped, followed by what still waits. */
  predicate Ledger(w: World, q: Queue) {
    OnQueue(w.pushed, q) == OnQueue(w.popped, q) + QueueOf(w.store, q)
  }

  lemma PromoteOnePushes(s: Store, id: JobId, now: Time, q: Queue)
    requires WellFormed(s) && id in s.jobs
    ensures QueueOf(Promote(s, id, now), q) == QueueOf(s, q) + if s.jobs[id].queue == q then [id] else []
  {
    hide WellFormed;
  }

  lemma {:induction false} PromotePushes(s: Store, ids: seq<JobId>, now: Time, log: seq<(Queue, JobId)>, q: Queue)
    requires WellFormed(s) && forall id :: id in ids ==> id in s.jobs
    requires |log| == |ids| && forall i :: 0 <= i < |ids| ==> log[i] == (s.jobs[ids[i]].queue, ids[i])
    ensures QueueOf(PromoteAll(s, ids, now), q) == QueueOf(s, q) + OnQueue(log, q)
  {
    hide WellFormed, QueueOf, Promote, OnQueue;
    if |ids| > 0 {
      var front := PromoteAll(s, ids[..|ids| - 1], now);
      PromotePushes(s, ids[..|ids| - 1], now, log[..|log| - 1], q);
      PromoteOnePushes(front, Last(ids), now, q);
      OnQueueMore(log, q);
    } else {
      OnQueueNone(q);
    }
  }

  lemma TakePops(s: Store, from: Queue, now: Time, q: Queue)
    requires WellFormed(s) && |QueueOf(s, from)| > 0
    ensures QueueOf(s, q) == (if from == q then [QueueOf(s, from)[0]] else []) + QueueOf(TakeFrom(s, from, now), q)
  {
    hide WellFormed;
    assert QueueOf(s, from) == [QueueOf(s, from)[0]] + QueueOf(s, from)[1..];
  }

  lemma DequeuePops(s: Store, ev: Event, q: Queue)
    requires WellFormed(s) && MemorySpec.Allowed(s, ev.op, ev.out) && ev.op.Dequeue?
    ensures QueueOf(s, q) == OnQueue(Pops(s, ev), q) + QueueOf(MemorySpec.Apply(s, ev.op, ev.out), q)
    ensures Pushes(s, ev) == []
  {
    hide WellFormed, OnQueue, QueueOf, TakeFrom, FirstNonEmpty;
    if ev.out.Refused? {
      OnQueueNone(q);
    } else {
      var from := ev.op.queues[FirstNonEmpty(s.queues, ev.op.queues)];
      FirstHolds(s, ev.op.queues);
      TakePops(s, from, ev.op.now, q);
      OnQueueOne(from, ev.out.id, q);
    }
  }

  lemma FirstHolds(s: Store, requested: seq<Queue>)
    requires FirstNonEmpty(s.queues, requested) < |requested|
    ensures |QueueOf(s, requested[FirstNonEmpty(s.queues, requested)])| > 0
  {
  }

  lemma PromotionPushes(s: Store, ev: Event, q: Queue)
    requires WellFormed(s) && MemorySpec.Allowed(s, ev.op, ev.out) && ev.op.GetDueScheduled?
    ensures QueueOf(MemorySpec.Apply(s, ev.op, ev.out), q) == QueueOf(s, q) + OnQueue(Pushes(s, ev), q)
    ensures Pops(s, ev) == []
  {
    hide PromoteAll, OnQueue, QueueOf;
    PromotePushes(s, ev.out.ids, ev.op.now, Pushes(s, ev), q);
  }

  lemma EnqueuePushes(s: Store, ev: Event, q: Queue)
    requires WellFormed(s) && MemorySpec.Allowed(s, ev.op, ev.out) && (ev.op.Enqueue? || ev.op.Requeue?)
    ensures QueueOf(MemorySpec.Apply(s, ev.op, ev.out), q) == QueueOf(s, q) + OnQueue(Pushes(s, ev), q)
    ensures Pops(s, ev) == []
  {
    hide WellFormed, PromoteAll, TakeFrom;
  }

  lemma QueuesUntouched(s: Store, op: Op, out: Outcome)
    requires WellFormed(s) && MemorySpec.Allowed(s, op, out)
    requires !op.Dequeue? && !op.GetDueScheduled? && !op.Enqueue? && !op.Requeue?
    ensures MemorySpec.Apply(s, op, out).queues == s.queues
  {
  }

  /** What is pushed onto one end and popped off the other keeps the account. */
  lemma AccountMoves(pushed: seq<JobId>, popped: seq<JobId>, waiting: seq<JobId>,
                     pushes: seq<JobId>, pops: seq<JobId>, left: seq<JobId>)
    requires pushed == popped + waiting
    requires (pops == [] && left == waiting + pushes) || (pushes == [] && waiting == pops + left)
    ensures pushed + pushes == popped + pops + left
  {
  }

  lemma LedgerMoves(w: World, v: World, pushes: seq<(Queue, JobId)>, pops: seq<(Queue, JobId)>, q: Queue)
    requires Ledger(w, q) && v.pushed == w.pushed + pushes && v.popped == w.popped + pops
    requires
      || (pops == [] && QueueOf(v.store, q) == QueueOf(w.store, q) + OnQueue(pushes, q))
      || (pushes == [] && QueueOf(w.store, q) == OnQueue(pops, q) + QueueOf(v.store, q))
    ensures Ledger(v, q)
  {
    hide QueueOf, OnQueue;
    OnQueueNone(q);
    OnQueueConcat(w.pushed, pushes, q);
    OnQueueConcat(w.popped, pops, q);
    AccountMoves(OnQueue(w.pushed, q), OnQueue(w.popped, q), QueueOf(w.store, q), OnQueue(pushes, q), OnQueue(pops, q), QueueOf(v.store, q));
  }

  lemma PushNothing(s: Store, t: Store, ev: Event, q: Queue)
    requires WellFormed(s) && MemorySpec.Allowed(s, ev.op, ev.out) && t.queues == s.queues
    requires !ev.op.Dequeue? && !ev.op.GetDueScheduled? && !ev.op.Enqueue? && !ev.op.Requeue?
    ensures QueueOf(t, q) == QueueOf(s, q) + OnQueue(Pushes(s, ev), q)
    ensures Pops(s, ev) == []
  {
    hide WellFormed, MemorySpec.Allowed;
  }

  lemma StepKeepsLedger(w: World, ev: Event, q: Queue)
    requires Ledger(w, q) && WellFormed(w.store) && MemorySpec.Allowed(w.store, ev.op, ev.out)
    ensures Ledger(After(w, ev), q)
  {
    hide WellFormed, MemorySpec.Allowed, MemorySpec.Apply, Pushes, Pops, QueueOf, Bury, Ledger;
    if ev.op.GetDueScheduled? {
      PromotionPushes(w.store, ev, q);
    } else if ev.op.Dequeue? {
      DequeuePops(w.store, ev, q);
    } else if ev.op.Enqueue? || ev.op.Requeue? {
      EnqueuePushes(w.store, ev, q);
    } else {
      QueuesUntouched(w.store, ev.op, ev.out);
      PushNothing(w.store, After(w, ev).store, ev, q);
    }
    LedgerMoves(w, After(w, ev), Pushes(w.store, ev), Pops(w.store, ev), q);
  }

  /** Every id ever pushed names a job that was created. */
  predicate PushesKnown(w: World) {
    forall i :: 0 <= i < |w.pushed| ==> w.pushed[i].1 in Used(w)
  }

  lemma OnQueueFromLog(log: seq<(Queue, JobId)>, q: Queue, id: JobId)
    requires id in OnQueue(log, q)
    ensures exists i :: 0 <= i < |log| && log[i].1 == id
  {
    if |log| > 0 && id in OnQueue(log[..|log| - 1], q) {
      OnQueueFromLog(log[..|log| - 1], q, id);
    }
  }

  lemma QueuedIsKnown(w: World, q: Queue, id: JobId)
    requires Ledger(w, q) && PushesKnown(w) && id in QueueOf(w.store, q)
    ensures id in Used(w)
  {
    hide QueueOf, Used;
    OnQueueFromLog(w.pushed, q, id);
  }

  lemma PushesAreUsed(s: Store, ev: Event, i: nat)
    requires WellFormed(s) && MemorySpec.Allowed(s, ev.op, ev.out) && i < |Pushes(s, ev)|
    ensures Pushes(s, ev)[i].1 in UsedAfter(s.states.Keys, ev.op)
  {
  }

  lemma StepKeepsPushesKnown(w: World, ev: Event)
    requires PushesKnown(w) && WellFormed(w.store) && MemorySpec.Allowed(w.store, ev.op, ev.out)
    ensures PushesKnown(After(w, ev))
  {
    UsedGrows(w, ev);
    var v := After(w, ev);
    hide WellFormed, MemorySpec.Allowed, MemorySpec.Apply, Pushes, Pops, Bury;
    forall i | 0 <= i < |v.pushed| ensures v.pushed[i].1 in Used(v) {
      if i >= |w.pushed| { PushesAreUsed(w.store, ev, i - |w.pushed|); }
    }
  }
}
