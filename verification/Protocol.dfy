/** The alphabet the storage backends share: what a caller may ask and what it
    may hear back. A backend is then a pair of a guard (which outcome may this
    request have in this state?) and an effect (what does the state become?). */
module Protocol {
  import opened Lifecycle

  datatype Op =
    | Enqueue(queue: Queue, id: JobId, job: Job, now: Time)
    | AddScheduled(at: Time, id: JobId, job: Job, now: Time)
    | Dequeue(queues: seq<Queue>, now: Time)
    | Requeue(id: JobId, now: Time)
    | ApplyState(id: JobId, expected: State, next: State, now: Time)
    | ScheduleRetry(id: JobId, at: Time, now: Time)
    | SetJobResult(id: JobId, result: seq<bv8>, now: Time)
    | HeartbeatJob(id: JobId, now: Time)
    | GetDueScheduled(now: Time, batch: int)
    | DeleteJob(id: JobId, now: Time)
    | RemoveExpired(cutoff: Time)
    | AddContinuation(id: JobId, entry: Continuation)

  datatype Error = NotFound | StateConflict | TerminalState | QueueEmpty | Constraint

  datatype Outcome =
    | Created(id: JobId)
    | Ticket(id: JobId)
    | Done
    | Promoted(ids: seq<JobId>)
    | Removed(gone: set<JobId>)
    | Refused(error: Error)
    /** A popped id without a job: the pass has unlocked and will unlock again. */
    | Missing(id: JobId)

  datatype Event = Event(op: Op, out: Outcome)

  predicate Distinct<T(==)>(s: seq<T>) {
    forall i, j :: 0 <= i < j < |s| ==> s[i] != s[j]
  }

  lemma DistinctFront<T>(ids: seq<T>)
    requires |ids| > 0 && Distinct(ids)
    ensures Distinct(ids[..|ids| - 1]) && Last(ids) !in ids[..|ids| - 1]
    ensures forall id :: id in ids <==> id in ids[..|ids| - 1] || id == Last(ids)
  {
    assert ids == ids[..|ids| - 1] + [Last(ids)];
  }

  /** The only state changes the engine asks for. */
  predicate EngineMove(from: State, to: State) {
    || (from == Processing && (to == Succeeded || to == Failed || to == Cancelled))
    || (from == Failed && to == Dead)
  }

  predicate Creates(op: Op) {
    op.Enqueue? || op.AddScheduled?
  }

  /** What the engine and the HTTP handlers promise about a request: new ids are
      new, a job is enqueued on its own queue, states move as the engine moves them. */
  predicate BasicOp(used: set<JobId>, op: Op) {
    && (Creates(op) ==> op.id !in used)
    && (op.Enqueue? ==> op.queue == op.job.queue != NO_QUEUE)
    && (op.ApplyState? ==> EngineMove(op.expected, op.next))
  }

  function UsedAfter(used: set<JobId>, op: Op): set<JobId> {
    if Creates(op) then used + {op.id} else used
  }
}
