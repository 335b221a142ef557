/** The in-memory backend as the object it is: a mutex-guarded set of maps.
    Each method is one critical section, so one atomic step. */
module MemoryStorage {
  import opened Lifecycle
  import opened Protocol
  import opened Queues
  import Spec = MemorySpec

  class Storage {
    var jobs: map<JobId, Job>
    var states: map<JobId, seq<Entry>>
    var queues: map<Queue, seq<JobId>>
    var scheduled: map<JobId, Time>
    var processing: map<JobId, string>
    var progress: map<JobId, Time>
    var continuations: map<JobId, seq<Continuation>>
    var counters: Spec.Counters
    var idempotency: map<string, JobId>

    ghost function View(): Spec.Store
      reads this
    {
      Spec.Store(jobs, states, queues, scheduled, processing, progress, continuations, counters, idempotency)
    }

    ghost predicate Valid()
      reads this
    {
      Spec.WellFormed(View())
    }

    /** A call that got outcome `out` did what the request does, and no more. */
    twostate predicate Did(op: Op, out: Outcome)
      reads this
    {
      && old(Valid()) && Valid()
      && Spec.Allowed(old(View()), op, out)
      && View() == Spec.Apply(old(View()), op, out)
    }

    constructor ()
      ensures Valid() && View() == Spec.EMPTY
    {
      jobs, states, queues := map[], map[], map[];
      scheduled, processing, progress, continuations := map[], map[], map[], map[];
      counters := Spec.Counters(0, 0, 0, 0, 0, 0);
      idempotency := map[];
    }

    method PushBack(queue: Queue, id: JobId)
      modifies this`queues
      ensures queues == Spec.Push(old(queues), queue, id)
    {
      if queue !in queues {
        queues := queues[queue := []];
      }
      queues := queues[queue := queues[queue] + [id]];
    }

    method AppendState(id: JobId, name: State, now: Time)
      requires id in states
      modifies this`states
      ensures states == Spec.Record(old(states), id, name, now)
    {
      states := states[id := states[id] + [Entry(name, now)]];
    }

    method Enqueue(queue: Queue, id: JobId, job: Job, now: Time) returns (out: Outcome)
      requires Valid()
      modifies this
      ensures Did(Op.Enqueue(queue, id, job, now), out)
    {
      var filled := job;
      if filled.queue == NO_QUEUE {
        filled := filled.(queue := DEFAULT_QUEUE);
      }
      if filled.retryMax == 0 {
        filled := filled.(retryMax := DEFAULT_RETRY_MAX);
      }
      jobs := jobs[id := filled];
      states := states[id := [Entry(Enqueued, now)]];
      PushBack(queue, id);
      counters := counters.(enqueued := counters.enqueued + 1);
      out := Created(id);
      assert View() == Spec.EnqueueJob(old(View()), queue, id, job, now);
      hide Spec.EnqueueJob, Spec.WellFormed;
    }

    /** Removes the front element of a non-empty queue and starts its job. */
    method Take(q: Queue, now: Time) returns (out: Outcome)
      requires Valid() && q in queues && |queues[q]| > 0
      modifies this
      ensures View() == Spec.TakeFrom(old(View()), q, now) && out == Spec.TakeOutcome(old(View()), q)
    {
      var id := queues[q][0];
      queues := queues[q := queues[q][1..]];
      if id !in jobs {
        return Missing(id);
      }
      processing := processing[id := "local"];
      progress := progress[id := now];
      AppendState(id, Processing, now);
      counters := counters.(dequeued := counters.dequeued + 1);
      out := Ticket(id);
    }

    /** One pass over the requested queues; the caller polls until its deadline. */
    method Dequeue(requested: seq<Queue>, now: Time) returns (out: Outcome)
      requires Valid()
      modifies this
      ensures Did(Op.Dequeue(requested, now), out)
    {
      var i := 0;
      while i < |requested|
        invariant i <= |requested|
        invariant View() == old(View())
        invariant FirstNonEmpty(queues, requested) == i + FirstNonEmpty(queues, requested[i..])
      {
        var q := requested[i];
        if q in queues && |queues[q]| > 0 {
          out := Take(q, now);
          return;
        }
        i := i + 1;
      }
      out := Refused(QueueEmpty);
    }

    /** Back to the queue, once the state permits it. */
    method PutBack(id: JobId, now: Time)
      requires Valid() && id in jobs
      modifies this
      ensures View() == Spec.RequeueJob(old(View()), id, now)
    {
      processing := processing - {id};
      AppendState(id, Enqueued, now);
      PushBack(jobs[id].queue, id);
    }

    method Requeue(id: JobId, now: Time) returns (out: Outcome)
      requires Valid()
      modifies this
      ensures Did(Op.Requeue(id, now), out)
    {
      if id !in jobs {
        return Refused(NotFound);
      }
      if Irreversible(Last(states[id]).name) {
        return Refused(TerminalState);
      }
      hide Spec.RequeueJob;
      PutBack(id, now);
      out := Done;
    }

    method CountState(name: State)
      modifies this`counters
      ensures counters == Spec.Counted(old(counters), name)
    {
      match name {
        case Succeeded => counters := counters.(succeeded := counters.succeeded + 1);
        case Failed => counters := counters.(failed := counters.failed + 1);
        case Dead => counters := counters.(dead := counters.dead + 1);
        case _ =>
      }
    }

    /** The state change itself, once the compare has succeeded. */
    method Move(id: JobId, from: State, to: State, now: Time)
      requires Valid() && id in states
      modifies this
      ensures View() == Spec.MoveState(old(View()), id, from, to, now)
    {
      AppendState(id, to, now);
      if from == Processing && to != Processing {
        processing := processing - {id};
      }
      CountState(to);
    }

    method ApplyState(id: JobId, expected: State, next: State, now: Time) returns (out: Outcome)
      requires Valid()
      modifies this
      ensures Did(Op.ApplyState(id, expected, next, now), out)
    {
      if id !in states {
        return Refused(NotFound);
      }
      if Last(states[id]).name != expected {
        return Refused(StateConflict);
      }
      hide Spec.MoveState;
      Move(id, expected, next, now);
      out := Done;
    }

    method ScheduleRetry(id: JobId, at: Time, now: Time) returns (out: Outcome)
      requires Valid()
      modifies this
      ensures Did(Op.ScheduleRetry(id, at, now), out)
    {
      if id !in states {
        return Refused(NotFound);
      }
      if Last(states[id]).name != Failed {
        return Refused(StateConflict);
      }
      AppendState(id, Scheduled, now);
      scheduled := scheduled[id := at];
      counters := counters.(scheduled := counters.scheduled + 1);
      out := Done;
      assert View() == Spec.RetryLater(old(View()), id, at, now);
      hide Spec.RetryLater, Spec.WellFormed;
    }

    method SetJobResult(id: JobId, result: seq<bv8>, now: Time) returns (out: Outcome)
      requires Valid()
      modifies this
      ensures Did(Op.SetJobResult(id, result, now), out)
    {
      var kept := if |result| > RESULT_CAP then result[..RESULT_CAP] else result;
      if id !in jobs {
        return Refused(NotFound);
      }
      jobs := jobs[id := jobs[id].(result := kept)];
      out := Done;
    }

    method HeartbeatJob(id: JobId, now: Time) returns (out: Outcome)
      requires Valid()
      modifies this
      ensures Did(Op.HeartbeatJob(id, now), out)
    {
      if id !in jobs {
        return Refused(NotFound);
      }
      progress := progress[id := now];
      out := Done;
    }

    /** The orphan scan has no state filter: it reads the heartbeat map alone. */
    method GetOrphanedJobs(staleAge: Time, now: Time) returns (ids: set<JobId>)
      ensures ids == set id | id in progress && progress[id] < now - staleAge
    {
      ids := set id | id in progress && progress[id] < now - staleAge;
    }

    method AddScheduled(at: Time, id: JobId, job: Job, now: Time) returns (out: Outcome)
      requires Valid()
      modifies this
      ensures Did(Op.AddScheduled(at, id, job, now), out)
    {
      var filled := job;
      if filled.queue == NO_QUEUE {
        filled := filled.(queue := DEFAULT_QUEUE);
      }
      jobs := jobs[id := filled];
      states := states[id := [Entry(Scheduled, now)]];
      scheduled := scheduled[id := at];
      counters := counters.(scheduled := counters.scheduled + 1);
      out := Created(id);
      assert View() == Spec.ScheduleJob(old(View()), at, id, job, now);
      hide Spec.ScheduleJob, Spec.WellFormed;
    }

    /** Picks due ids in whatever order the map yields them, stopping at a full batch. */
    method PickDue(now: Time, batch: int) returns (due: seq<JobId>)
      ensures Spec.Picked(scheduled, now, batch, due)
    {
      due := [];
      var rest := scheduled.Keys;
      while rest != {}
        invariant rest <= scheduled.Keys
        invariant Distinct(due)
        invariant forall id :: id in due ==> id in scheduled && scheduled[id] <= now && id !in rest
        invariant forall id :: id in scheduled && scheduled[id] <= now ==> id in due || id in rest
        invariant |due| == 0 || |due| < batch
        decreases |rest|
      {
        var id :| id in rest;
        rest := rest - {id};
        if scheduled[id] <= now {
          due := due + [id];
        }
        if |due| >= batch {
          return;
        }
      }
    }

    method PromoteOne(id: JobId, now: Time)
      requires Valid() && id in jobs
      modifies this
      ensures View() == Spec.Promote(old(View()), id, now)
    {
      scheduled := scheduled - {id};
      AppendState(id, Enqueued, now);
      PushBack(jobs[id].queue, id);
      counters := counters.(scheduled := counters.scheduled - 1);
      counters := counters.(enqueued := counters.enqueued + 1);
    }

    method PromoteEach(due: seq<JobId>, now: Time)
      requires Valid() && forall id :: id in due ==> id in jobs
      modifies this
      ensures View() == Spec.PromoteAll(old(View()), due, now)
    {
      ghost var before := View();
      for i := 0 to |due|
        invariant Valid() && jobs == before.jobs
        invariant View() == Spec.PromoteAll(before, due[..i], now)
      {
        PromoteOne(due[i], now);
        Spec.PromoteAllStep(before, due, i, now);
      }
      assert due[..|due|] == due;
    }

    method GetDueScheduled(now: Time, batch: int) returns (out: Outcome)
      requires Valid()
      modifies this
      ensures Did(Op.GetDueScheduled(now, batch), out)
    {
      var due := PickDue(now, batch);
      PromoteEach(due, now);
      out := Promoted(due);
    }

    method EraseOne(id: JobId)
      modifies this
      ensures View() == Spec.Erase(old(View()), {id})
    {
      jobs := jobs - {id};
      states := states - {id};
      processing := processing - {id};
      progress := progress - {id};
      scheduled := scheduled - {id};
      continuations := continuations - {id};
    }

    /** Erases expired jobs one by one, in whatever order the map yields them. */
    method EraseEach(cutoff: Time) returns (gone: set<JobId>, deleted: nat)
      requires Valid()
      modifies this
      ensures gone == Spec.AllExpired(old(View()), cutoff) && deleted == |gone|
      ensures View() == Spec.Erase(old(View()), gone)
    {
      ghost var before := View();
      var rest := states.Keys;
      gone, deleted := {}, 0;
      Spec.EraseNone(before);
      while rest != {}
        invariant rest <= before.states.Keys && gone <= before.states.Keys - rest
        invariant forall id :: id in before.states && id !in rest ==> (id in gone <==> Spec.Expired(before, cutoff, id))
        invariant View() == Spec.Erase(before, gone)
        invariant deleted == |gone|
        decreases |rest|
      {
        var id :| id in rest;
        rest := rest - {id};
        assert id in states && states[id] == before.states[id];
        var last := Last(states[id]);
        if Expirable(last.name) && last.at < cutoff {
          EraseOne(id);
          Spec.EraseMore(before, gone, id);
          deleted := deleted + 1;
          gone := gone + {id};
        }
      }
    }

    method RemoveExpired(cutoff: Time) returns (out: Outcome, deleted: nat)
      requires Valid()
      modifies this
      ensures Did(Op.RemoveExpired(cutoff), out)
      ensures out.Removed? && deleted == |out.gone|
    {
      var gone;
      gone, deleted := EraseEach(cutoff);
      out := Removed(gone);
    }

    method DeleteJob(id: JobId, now: Time) returns (out: Outcome)
      requires Valid()
      modifies this
      ensures Did(Op.DeleteJob(id, now), out)
    {
      if id !in states {
        return Refused(NotFound);
      }
      if Irreversible(Last(states[id]).name) {
        return Refused(TerminalState);
      }
      AppendState(id, Deleted, now);
      processing := processing - {id};
      progress := progress - {id};
      out := Done;
      assert View() == Spec.MarkDeleted(old(View()), id, now);
      hide Spec.MarkDeleted, Spec.WellFormed;
    }

    method AddContinuation(parent: JobId, entry: Continuation) returns (out: Outcome)
      requires Valid()
      modifies this
      ensures Did(Op.AddContinuation(parent, entry), out)
    {
      continuations := continuations[parent := (if parent in continuations then continuations[parent] else []) + [entry]];
      out := Done;
    }

    method EnqueueIdempotent(queue: Queue, freshId: JobId, job: Job, key: string, now: Time)
      returns (id: JobId, created: bool)
      requires Valid()
      modifies this
      ensures Valid()
      ensures (View(), id, created) == Spec.EnqueueIdempotent(old(View()), queue, freshId, job, key, now)
    {
      if key != "" && key in idempotency {
        return idempotency[key], false;
      }
      var out := Enqueue(queue, freshId, job, now);
      if key != "" {
        idempotency := idempotency[key := freshId];
      }
      return freshId, true;
    }
  }
}
