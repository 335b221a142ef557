/** No job is lost: whatever its state, one of the engine's loops can reach it. */
module MemoryFound {
  import opened Lifecycle
  import opened Protocol
  import opened Queues
  import opened MemorySpec

  /** One of the engine's loops can pick the job up: a worker from its queue, the
      scheduler from the schedule, the coordinator from the progress map, where it also
      finds a failed job that nobody settled. */
  predicate Found(s: Store, id: JobId) {
    && (Is(s, id, Enqueued) ==> id in s.jobs && id in QueueOf(s, s.jobs[id].queue))
    && (Is(s, id, Scheduled) ==> id in s.scheduled)
    && (Is(s, id, Processing) ==> id in s.processing && id in s.progress)
    && (Is(s, id, Failed) ==> id in s.progress)
  }

  predicate AllFound(s: Store) {
    forall id :: id in s.states ==> Found(s, id)
  }

  lemma PushAt(queues: map<Queue, seq<JobId>>, q: Queue, id: JobId)
    ensures id in Waiting(Push(queues, q, id), q)
    ensures forall p, x :: x in Waiting(queues, p) ==> x in Waiting(Push(queues, q, id), p)
  {
  }

  lemma PromoteKeepsFoundAt(s: Store, id: JobId, now: Time, x: JobId)
    requires WellFormed(s) && id in s.jobs && x in s.states && Found(s, x)
    ensures Found(Promote(s, id, now), x)
  {
    hide WellFormed, Push, Waiting;
    PushAt(s.queues, s.jobs[id].queue, id);
    var t := Promote(s, id, now);
    assert if x == id then Current(t, x) == Enqueued else t.states[x] == s.states[x];
  }

  lemma {:induction false} PromoteKeepsFound(s: Store, ids: seq<JobId>, now: Time)
    requires WellFormed(s) && AllFound(s) && forall id :: id in ids ==> id in s.jobs
    ensures AllFound(PromoteAll(s, ids, now)) && PromoteAll(s, ids, now).states.Keys == s.states.Keys
  {
    if |ids| > 0 {
      PromoteKeepsFound(s, ids[..|ids| - 1], now);
      var front := PromoteAll(s, ids[..|ids| - 1], now);
      hide WellFormed, Promote, Found;
      PromoteKeepsKeys(front, Last(ids), now);
      forall x | x in front.states ensures Found(Promote(front, Last(ids), now), x) {
        PromoteKeepsFoundAt(front, Last(ids), now, x);
      }
    }
  }

  lemma PromoteKeepsKeys(s: Store, id: JobId, now: Time)
    requires WellFormed(s) && id in s.jobs
    ensures Promote(s, id, now).states.Keys == s.states.Keys
  {
  }

  lemma TakeKeepsFoundAt(s: Store, q: Queue, now: Time, id: JobId)
    requires WellFormed(s) && |QueueOf(s, q)| > 0 && id in s.states && Found(s, id)
    ensures Found(TakeFrom(s, q, now), id)
  {
    var head := QueueOf(s, q)[0];
    var t := TakeFrom(s, q, now);
    if id == head {
      assert Current(t, id) == Processing;
    } else {
      assert Current(t, id) == Current(s, id);
      assert QueueOf(s, q) == [head] + QueueOf(s, q)[1..];
    }
  }

  lemma DequeueKeepsFound(s: Store, q: Queue, now: Time)
    requires WellFormed(s) && AllFound(s) && |QueueOf(s, q)| > 0
    ensures AllFound(TakeFrom(s, q, now))
  {
    forall id | id in s.states ensures Found(TakeFrom(s, q, now), id) { TakeKeepsFoundAt(s, q, now, id); }
    assert TakeFrom(s, q, now).states.Keys == s.states.Keys;
  }

  lemma CreationKeepsFound(s: Store, ev: Event)
    requires WellFormed(s) && AllFound(s) && MemorySpec.Allowed(s, ev.op, ev.out) && Creates(ev.op)
    requires ev.op.id !in s.states && (ev.op.Enqueue? ==> ev.op.queue == ev.op.job.queue != NO_QUEUE)
    ensures AllFound(MemorySpec.Apply(s, ev.op, ev.out))
  {
  }

  lemma MoveKeepsFound(s: Store, ev: Event)
    requires WellFormed(s) && AllFound(s) && MemorySpec.Allowed(s, ev.op, ev.out)
    requires ev.op.ApplyState? && EngineMove(ev.op.expected, ev.op.next)
    ensures AllFound(MemorySpec.Apply(s, ev.op, ev.out))
  {
  }

  lemma RequeueKeepsFound(s: Store, id: JobId, now: Time)
    requires WellFormed(s) && AllFound(s) && id in s.jobs
    ensures AllFound(RequeueJob(s, id, now))
  {
    var t := RequeueJob(s, id, now);
    PushAt(s.queues, s.jobs[id].queue, id);
    hide WellFormed, Push, Waiting;
    forall x | x in t.states ensures Found(t, x) {
      assert Found(s, x);
      assert if x == id then Current(t, x) == Enqueued else t.states[x] == s.states[x];
    }
  }

  lemma AppendKeepsFound(s: Store, ev: Event)
    requires WellFormed(s) && AllFound(s) && MemorySpec.Allowed(s, ev.op, ev.out)
    requires ev.op.ScheduleRetry? || ev.op.DeleteJob?
    ensures AllFound(MemorySpec.Apply(s, ev.op, ev.out))
  {
  }

  lemma OtherKeepsFound(s: Store, ev: Event)
    requires WellFormed(s) && AllFound(s) && MemorySpec.Allowed(s, ev.op, ev.out)
    requires ev.op.RemoveExpired? || ev.op.SetJobResult? || ev.op.HeartbeatJob? || ev.op.AddContinuation?
    ensures AllFound(MemorySpec.Apply(s, ev.op, ev.out))
  {
  }

  lemma DequeueEventKeepsFound(s: Store, ev: Event)
    requires WellFormed(s) && AllFound(s) && MemorySpec.Allowed(s, ev.op, ev.out) && ev.op.Dequeue?
    ensures AllFound(MemorySpec.Apply(s, ev.op, ev.out))
  {
    hide TakeFrom, Found;
    if !ev.out.Refused? {
      DequeueKeepsFound(s, ev.op.queues[FirstNonEmpty(s.queues, ev.op.queues)], ev.op.now);
    }
  }

  /** No request loses a job. */
  lemma StepKeepsFound(s: Store, used: set<JobId>, ev: Event)
    requires WellFormed(s) && AllFound(s) && s.states.Keys <= used
    requires MemorySpec.Allowed(s, ev.op, ev.out) && BasicOp(used, ev.op)
    ensures AllFound(MemorySpec.Apply(s, ev.op, ev.out))
  {
    hide AllFound, WellFormed, MemorySpec.Allowed, MemorySpec.Apply, PromoteAll;
    match ev.op
    case Enqueue(_, _, _, _) => CreationKeepsFound(s, ev);
    case AddScheduled(_, _, _, _) => CreationKeepsFound(s, ev);
    case Dequeue(_, _) => DequeueEventKeepsFound(s, ev);
    case ApplyState(_, _, _, _) => MoveKeepsFound(s, ev);
    case Requeue(_, _) => RequeueEventKeepsFound(s, ev);
    case ScheduleRetry(_, _, _) => AppendKeepsFound(s, ev);
    case DeleteJob(_, _) => AppendKeepsFound(s, ev);
    case GetDueScheduled(now, _) => PromoteEventKeepsFound(s, ev);
    case _ => OtherKeepsFound(s, ev);
  }

  lemma RequeueEventKeepsFound(s: Store, ev: Event)
    requires WellFormed(s) && AllFound(s) && MemorySpec.Allowed(s, ev.op, ev.out) && ev.op.Requeue?
    ensures AllFound(MemorySpec.Apply(s, ev.op, ev.out))
  {
    hide Found, RequeueJob;
    if !ev.out.Refused? { RequeueKeepsFound(s, ev.op.id, ev.op.now); }
  }

  lemma PromoteEventKeepsFound(s: Store, ev: Event)
    requires WellFormed(s) && AllFound(s) && MemorySpec.Allowed(s, ev.op, ev.out) && ev.op.GetDueScheduled?
    ensures AllFound(MemorySpec.Apply(s, ev.op, ev.out))
  {
    hide PromoteAll, Found;
    PromoteKeepsFound(s, ev.out.ids, ev.op.now);
  }
}
