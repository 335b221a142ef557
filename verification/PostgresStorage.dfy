/** The Postgres backend as an object over its tables: each method is one transaction
    of row inserts, updates and deletes, and commits or changes nothing. */
module PostgresStorage {
  import opened Lifecycle
  import opened Protocol
  import opened DueSelection
  import A = AbstractJobs
  import Spec = PostgresSpec

  class Storage {
    var jobs: map<JobId, Spec.Row>
    var states: map<JobId, seq<State>>
    var scheduled: map<JobId, Time>
    var continuations: map<JobId, seq<Continuation>>
    var nextToken: int

    ghost function View(): Spec.Tables
      reads this
    {
      Spec.Tables(jobs, states, scheduled, continuations, nextToken)
    }

    ghost predicate Valid()
      reads this
    {
      Spec.Rows(View())
    }

    /** A transaction with outcome `out` did what the request does, and no more. */
    twostate predicate Did(op: Op, out: Outcome)
      reads this
    {
      && old(Valid()) && Valid()
      && Spec.Allowed(old(View()), op, out)
      && View() == Spec.Apply(old(View()), op, out)
    }

    constructor ()
      ensures Valid() && View() == Spec.EMPTY
    {
      jobs, states, scheduled, continuations := map[], map[], map[], map[];
      nextToken := 0;
    }

    method InsertJob(id: JobId, name: string, queue: Queue, retryMax: int, state: State, now: Time)
      modifies this`jobs, this`nextToken
      ensures jobs == old(jobs)[id := Spec.Row(name, queue, EffectiveRetryMax(retryMax), state, old(nextToken), Spec.Null, now, [])]
      ensures nextToken == old(nextToken) + 1
    {
      var kept := retryMax;
      if kept == 0 {
        kept := DEFAULT_RETRY_MAX;
      }
      jobs := jobs[id := Spec.Row(name, queue, kept, state, nextToken, Spec.Null, now, [])];
      nextToken := nextToken + 1;
    }

    method InsertState(id: JobId, name: State)
      requires id in states
      modifies this`states
      ensures states == old(states)[id := old(states)[id] + [name]]
    {
      states := states[id := states[id] + [name]];
    }

    method UpdateJob(id: JobId, state: State, progress: Spec.Progress, now: Time)
      requires id in jobs
      modifies this`jobs
      ensures jobs == old(jobs)[id := old(jobs)[id].(state := state, progress := progress, updated := now)]
    {
      jobs := jobs[id := jobs[id].(state := state, progress := progress, updated := now)];
    }

    method Enqueue(queue: Queue, id: JobId, job: Job, now: Time) returns (out: Outcome)
      requires Valid()
      modifies this
      ensures Did(Op.Enqueue(queue, id, job, now), out)
    {
      var named := queue;
      if named == NO_QUEUE {
        named := DEFAULT_QUEUE;
      }
      InsertJob(id, job.name, named, job.retryMax, Enqueued, now);
      states := states[id := [Enqueued]];
      out := Created(id);
    }

    method AddScheduled(at: Time, id: JobId, job: Job, now: Time) returns (out: Outcome)
      requires Valid()
      modifies this
      ensures Did(Op.AddScheduled(at, id, job, now), out)
    {
      var named := job.queue;
      if named == NO_QUEUE {
        named := DEFAULT_QUEUE;
      }
      InsertJob(id, job.name, named, job.retryMax, Scheduled, now);
      states := states[id := [Scheduled]];
      scheduled := scheduled[id := at];
      out := Created(id);
    }

    /** SELECT ... WHERE state AND queue ORDER BY queue_token LIMIT 1. */
    method SelectOldest(queues: seq<Queue>) returns (found: bool, id: JobId)
      ensures found ==> Spec.Oldest(View(), queues, id)
      ensures !found ==> forall x :: !Spec.Candidate(View(), queues, x)
    {
      found, id := false, JobId(0);
      var rest := jobs.Keys;
      while rest != {}
        invariant rest <= jobs.Keys
        invariant found ==> Spec.Candidate(View(), queues, id)
        invariant forall x :: Spec.Candidate(View(), queues, x) && x !in rest ==> found && jobs[id].token <= jobs[x].token
        decreases |rest|
      {
        var x :| x in rest;
        rest := rest - {x};
        if jobs[x].state == Enqueued && jobs[x].queue in queues && (!found || jobs[x].token < jobs[id].token) {
          found, id := true, x;
        }
      }
    }

    method TryDequeue(queues: seq<Queue>, now: Time) returns (out: Outcome)
      requires Valid()
      modifies this
      ensures Did(Op.Dequeue(queues, now), out)
    {
      var found, id := SelectOldest(queues);
      if !found {
        return Refused(QueueEmpty);
      }
      UpdateJob(id, Processing, Spec.Beat(now), now);
      InsertState(id, Processing);
      out := Ticket(id);
    }

    method Requeue(id: JobId, now: Time) returns (out: Outcome)
      requires Valid()
      modifies this
      ensures Did(Op.Requeue(id, now), out)
    {
      if id !in jobs {
        return Refused(NotFound);
      }
      if Irreversible(jobs[id].state) {
        return Refused(TerminalState);
      }
      UpdateJob(id, Enqueued, Spec.Null, now);
      InsertState(id, Enqueued);
      out := Done;
    }

    method ApplyState(id: JobId, expected: State, next: State, now: Time) returns (out: Outcome)
      requires Valid()
      modifies this
      ensures Did(Op.ApplyState(id, expected, next, now), out)
    {
      if id !in jobs {
        return Refused(NotFound);
      }
      if jobs[id].state != expected {
        return Refused(StateConflict);
      }
      var clearProgress := next != Processing;
      UpdateJob(id, next, if clearProgress then Spec.Null else jobs[id].progress, now);
      InsertState(id, next);
      out := Done;
    }

    method ScheduleRetry(id: JobId, at: Time, now: Time) returns (out: Outcome)
      requires Valid()
      modifies this
      ensures Did(Op.ScheduleRetry(id, at, now), out)
    {
      if id !in jobs {
        return Refused(NotFound);
      }
      if jobs[id].state != Failed {
        return Refused(StateConflict);
      }
      UpdateJob(id, Scheduled, jobs[id].progress, now);
      InsertState(id, Scheduled);
      scheduled := scheduled[id := at];
      out := Done;
    }

    method SetJobResult(id: JobId, result: seq<bv8>, now: Time) returns (out: Outcome)
      requires Valid()
      modifies this
      ensures Did(Op.SetJobResult(id, result, now), out)
    {
      var kept := if |result| > RESULT_CAP then result[..RESULT_CAP] else result;
      if id !in jobs {
        return Refused(NotFound);
      }
      jobs := jobs[id := jobs[id].(result := kept, updated := now)];
      out := Done;
    }

    method HeartbeatJob(id: JobId, now: Time) returns (out: Outcome)
      requires Valid()
      modifies this
      ensures Did(Op.HeartbeatJob(id, now), out)
    {
      if id !in jobs {
        return Refused(NotFound);
      }
      jobs := jobs[id := jobs[id].(progress := Spec.Beat(now), updated := now)];
      out := Done;
    }

    method GetOrphanedJobs(staleAge: Time, now: Time) returns (ids: set<JobId>)
      ensures ids == Spec.Orphans(View(), now - staleAge)
    {
      ids := set id | id in jobs && jobs[id].state == Processing
                && jobs[id].progress.Beat? && jobs[id].progress.at < now - staleAge;
    }

    /** The statements of one round of the promotion loop. */
    method PromoteOne(id: JobId, now: Time)
      requires id in jobs && id in states
      modifies this
      ensures View() == Spec.Set(old(View()), id, Enqueued, old(jobs)[id].progress, now).(scheduled := old(scheduled) - {id})
    {
      scheduled := scheduled - {id};
      UpdateJob(id, Enqueued, jobs[id].progress, now);
      InsertState(id, Enqueued);
    }

    method PromoteEach(due: seq<JobId>, now: Time)
      requires Valid() && Distinct(due) && forall id :: id in due ==> id in scheduled
      modifies this
      ensures View() == Spec.PromoteAll(old(View()), due, now)
    {
      ghost var before := View();
      Spec.PromoteNone(before, now);
      hide Spec.PromoteAll, Spec.Set, Spec.Rows, Distinct;
      for i := 0 to |due|
        invariant View() == Spec.PromoteAll(before, due[..i], now)
      {
        Spec.PromoteOneMore(before, due, i, now);
        PromoteOne(due[i], now);
      }
      assert due[..|due|] == due;
    }

    method GetDueScheduled(now: Time, batch: int) returns (out: Outcome)
      requires Valid()
      modifies this
      ensures Did(Op.GetDueScheduled(now, batch), out)
    {
      var due := SelectDue(scheduled, now, Limit(batch));
      assert forall i :: 0 <= i < |due| ==> Spec.Due(View(), now, due[i]);
      PromoteEach(due, now);
      out := Promoted(due);
    }

    method DeleteJob(id: JobId, now: Time) returns (out: Outcome)
      requires Valid()
      modifies this
      ensures Did(Op.DeleteJob(id, now), out)
    {
      if id !in jobs {
        return Refused(NotFound);
      }
      if Irreversible(jobs[id].state) {
        return Refused(TerminalState);
      }
      UpdateJob(id, Deleted, Spec.Null, now);
      InsertState(id, Deleted);
      out := Done;
    }

    /** One DELETE statement; the foreign keys cascade. */
    method RemoveExpired(cutoff: Time) returns (out: Outcome, deleted: nat)
      requires Valid()
      modifies this
      ensures Did(Op.RemoveExpired(cutoff), out)
      ensures out.Removed? && deleted == |out.gone|
    {
      var gone := set id | id in jobs && Expirable(jobs[id].state) && jobs[id].updated < cutoff;
      jobs := jobs - gone;
      states := states - gone;
      scheduled := scheduled - gone;
      continuations := continuations - gone;
      out, deleted := Removed(gone), |gone|;
    }

    method AddContinuation(parent: JobId, entry: Continuation) returns (out: Outcome)
      requires Valid()
      modifies this
      ensures Did(Op.AddContinuation(parent, entry), out)
    {
      var kept := entry;
      if kept.childQueue == NO_QUEUE {
        kept := kept.(childQueue := DEFAULT_QUEUE);
      }
      if parent !in jobs || !A.KnownCondition(entry.condition) {
        return Refused(Constraint);
      }
      continuations := continuations[parent := (if parent in continuations then continuations[parent] else []) + [kept]];
      out := Done;
    }

    /** A coordinator tick with nothing in between: exactly the orphans are requeued,
        each with one history row, and nothing else changes. */
    method CoordinatorTick(staleAge: Time, now: Time)
      requires Valid()
      modifies this
      ensures Valid()
      ensures View() == Spec.Recovered(old(View()), Spec.Orphans(old(View()), now - staleAge), now)
      ensures Spec.Orphans(View(), now - staleAge) == {}
    {
      ghost var before := View();
      var orphans := GetOrphanedJobs(staleAge, now);
      RequeueEach(orphans, now);
      Spec.SecondSweepFindsNothing(before, now - staleAge, now);
    }

    method RequeueEach(orphans: set<JobId>, now: Time)
      requires Valid() && forall id :: id in orphans ==> Spec.Has(View(), id, Processing)
      modifies this
      ensures Valid()
      ensures View() == Spec.Recovered(old(View()), orphans, now)
    {
      ghost var before := View();
      var rest := orphans;
      Spec.RecoverNone(before, now);
      assert orphans - rest == {} && before.states.Keys == before.jobs.Keys;
      hide Spec.Recovered, Spec.Set, Spec.Rows;
      while rest != {}
        invariant rest <= orphans && Valid()
        invariant View() == Spec.Recovered(before, orphans - rest, now)
        decreases |rest|
      {
        var id :| id in rest;
        Spec.RecoverMore(before, orphans - rest, id, now);
        Spec.RestIsUntouched(before, orphans - rest, id, now);
        assert orphans - (rest - {id}) == orphans - rest + {id};
        rest := rest - {id};
        RequeueProcessing(id, now);
      }
      assert orphans - {} == orphans;
    }

    /** Requeue as the coordinator meets it: of a job that is processing. */
    method RequeueProcessing(id: JobId, now: Time)
      requires Valid() && Spec.Has(View(), id, Processing)
      modifies this
      ensures Valid() && id in old(View()).states && View() == Spec.Set(old(View()), id, Enqueued, Spec.Null, now)
    {
      var out := Requeue(id, now);
    }
  }
}
