/** The in-memory backend as values: its state, and for every request the
    outcome it gets and the state it leaves (internal/storage/memory/memory.go).
    The class in MemoryStorage.dfy is proved against these functions. */
module MemorySpec {
  import opened Lifecycle
  import opened Protocol
  import opened Queues

  datatype Counters = Counters(
    enqueued: int, dequeued: int, succeeded: int, failed: int, dead: int, scheduled: int)

  datatype Store = Store(
    jobs: map<JobId, Job>,
    states: map<JobId, seq<Entry>>,
    queues: map<Queue, seq<JobId>>,
    scheduled: map<JobId, Time>,
    processing: map<JobId, string>,
    progress: map<JobId, Time>,
    continuations: map<JobId, seq<Continuation>>,
    counters: Counters,
    idempotency: map<string, JobId>)

  const EMPTY := Store(map[], map[], map[], map[], map[], map[], map[], Counters(0, 0, 0, 0, 0, 0), map[])

  /** What every last-element read and every job dereference relies on. */
  predicate WellFormed(s: Store) {
    && s.jobs.Keys == s.states.Keys
    && (forall id :: id in s.states ==> |s.states[id]| > 0)
    && s.scheduled.Keys <= s.states.Keys
    && s.processing.Keys <= s.states.Keys
    && s.progress.Keys <= s.states.Keys
  }

  function Current(s: Store, id: JobId): State
    requires id in s.states && |s.states[id]| > 0
  {
    Last(s.states[id]).name
  }

  predicate Is(s: Store, id: JobId, name: State) {
    id in s.states && |s.states[id]| > 0 && Current(s, id) == name
  }

  predicate Settled(s: Store, id: JobId) {
    id in s.states && |s.states[id]| > 0 && Irreversible(Current(s, id))
  }

  function QueueOf(s: Store, q: Queue): seq<JobId> {
    Waiting(s.queues, q)
  }

  function Push(queues: map<Queue, seq<JobId>>, q: Queue, id: JobId): map<Queue, seq<JobId>> {
    queues[q := Waiting(queues, q) + [id]]
  }

  function Record(states: map<JobId, seq<Entry>>, id: JobId, name: State, now: Time): map<JobId, seq<Entry>>
    requires id in states
  {
    states[id := states[id] + [Entry(name, now)]]
  }

  /** The defaults filled in before a job is stored. */
  function Filled(job: Job): Job {
    job.(queue := QueueOrDefault(job.queue), retryMax := EffectiveRetryMax(job.retryMax))
  }

  function EnqueueJob(s: Store, queue: Queue, id: JobId, job: Job, now: Time): (t: Store)
    requires WellFormed(s)
    ensures WellFormed(t) && t.states.Keys == s.states.Keys + {id}
    ensures t.idempotency == s.idempotency
  {
    s.(jobs := s.jobs[id := Filled(job)],
       states := s.states[id := [Entry(Enqueued, now)]],
       queues := Push(s.queues, queue, id),
       counters := s.counters.(enqueued := s.counters.enqueued + 1))
  }

  function ScheduleJob(s: Store, at: Time, id: JobId, job: Job, now: Time): (t: Store)
    requires WellFormed(s)
    ensures WellFormed(t) && t.states.Keys == s.states.Keys + {id}
    ensures t.idempotency == s.idempotency
  {
    s.(jobs := s.jobs[id := job.(queue := QueueOrDefault(job.queue))],
       states := s.states[id := [Entry(Scheduled, now)]],
       scheduled := s.scheduled[id := at],
       counters := s.counters.(scheduled := s.counters.scheduled + 1))
  }

  function TakeFrom(s: Store, q: Queue, now: Time): (t: Store)
    requires WellFormed(s) && |QueueOf(s, q)| > 0
    ensures WellFormed(t) && t.states.Keys == s.states.Keys
    ensures t.idempotency == s.idempotency
  {
    var id := QueueOf(s, q)[0];
    if id !in s.jobs then s.(queues := s.queues[q := QueueOf(s, q)[1..]]) else
    s.(queues := s.queues[q := QueueOf(s, q)[1..]],
       states := Record(s.states, id, Processing, now),
       processing := s.processing[id := "local"],
       progress := s.progress[id := now],
       counters := s.counters.(dequeued := s.counters.dequeued + 1))
  }

  function TakeOutcome(s: Store, q: Queue): Outcome
    requires |QueueOf(s, q)| > 0
  {
    if QueueOf(s, q)[0] in s.jobs then Ticket(QueueOf(s, q)[0]) else Missing(QueueOf(s, q)[0])
  }

  function RequeueJob(s: Store, id: JobId, now: Time): (t: Store)
    requires WellFormed(s) && id in s.jobs
    ensures WellFormed(t) && t.states.Keys == s.states.Keys
    ensures t.idempotency == s.idempotency
  {
    s.(states := Record(s.states, id, Enqueued, now),
       processing := s.processing - {id},
       queues := Push(s.queues, s.jobs[id].queue, id))
  }

  function Counted(c: Counters, s: State): Counters {
    match s
    case Succeeded => c.(succeeded := c.succeeded + 1)
    case Failed => c.(failed := c.failed + 1)
    case Dead => c.(dead := c.dead + 1)
    case _ => c
  }

  function MoveState(s: Store, id: JobId, from: State, to: State, now: Time): (t: Store)
    requires WellFormed(s) && id in s.states
    ensures WellFormed(t) && t.states.Keys == s.states.Keys
    ensures t.idempotency == s.idempotency
  {
    s.(states := Record(s.states, id, to, now),
       processing := if from == Processing && to != Processing then s.processing - {id} else s.processing,
       counters := Counted(s.counters, to))
  }

  function RetryLater(s: Store, id: JobId, at: Time, now: Time): (t: Store)
    requires WellFormed(s) && id in s.states
    ensures WellFormed(t) && t.states.Keys == s.states.Keys
    ensures t.idempotency == s.idempotency
  {
    s.(states := Record(s.states, id, Scheduled, now),
       scheduled := s.scheduled[id := at],
       counters := s.counters.(scheduled := s.counters.scheduled + 1))
  }

  function Promote(s: Store, id: JobId, now: Time): (t: Store)
    requires WellFormed(s) && id in s.jobs
    ensures WellFormed(t) && t.jobs == s.jobs
    ensures t.idempotency == s.idempotency
  {
    s.(states := Record(s.states, id, Enqueued, now),
       scheduled := s.scheduled - {id},
       queues := Push(s.queues, s.jobs[id].queue, id),
       counters := s.counters.(scheduled := s.counters.scheduled - 1, enqueued := s.counters.enqueued + 1))
  }

  function PromoteAll(s: Store, ids: seq<JobId>, now: Time): (t: Store)
    requires WellFormed(s) && forall id :: id in ids ==> id in s.jobs
    ensures WellFormed(t) && t.jobs == s.jobs
    ensures t.idempotency == s.idempotency
  {
    if |ids| == 0 then s else
    Promote(PromoteAll(s, ids[..|ids| - 1], now), Last(ids), now)
  }

  lemma PromoteAllStep(s: Store, ids: seq<JobId>, i: nat, now: Time)
    requires WellFormed(s) && i < |ids| && forall id :: id in ids ==> id in s.jobs
    ensures PromoteAll(s, ids[..i + 1], now) == Promote(PromoteAll(s, ids[..i], now), ids[i], now)
  {
    assert ids[..i + 1][..i] == ids[..i];
  }

  /** What one pass over the schedule may pick, whatever order the map iterates in:
      due ids, at most a batch of them, and all of them when the batch is not full. */
  predicate Picked(scheduled: map<JobId, Time>, now: Time, batch: int, ids: seq<JobId>) {
    && Distinct(ids)
    && (forall id :: id in ids ==> id in scheduled && scheduled[id] <= now)
    && |ids| <= (if batch < 1 then 1 else batch)
    && (|ids| < batch ==> forall id :: id in scheduled && scheduled[id] <= now ==> id in ids)
  }

  predicate Expired(s: Store, cutoff: Time, id: JobId) {
    && id in s.states && |s.states[id]| > 0
    && Expirable(Current(s, id)) && Last(s.states[id]).at < cutoff
  }

  function AllExpired(s: Store, cutoff: Time): set<JobId> {
    set id | id in s.states && Expired(s, cutoff, id)
  }

  function Erase(s: Store, gone: set<JobId>): (t: Store)
    ensures t.idempotency == s.idempotency
    ensures WellFormed(s) ==> WellFormed(t)
    ensures t.states.Keys == s.states.Keys - gone
  {
    s.(jobs := s.jobs - gone, states := s.states - gone, scheduled := s.scheduled - gone,
       processing := s.processing - gone, progress := s.progress - gone,
       continuations := s.continuations - gone)
  }

  lemma EraseNone(s: Store)
    ensures Erase(s, {}) == s
  {
    assert s.jobs - {} == s.jobs && s.states - {} == s.states;
    assert s.scheduled - {} == s.scheduled && s.processing - {} == s.processing;
    assert s.progress - {} == s.progress && s.continuations - {} == s.continuations;
  }

  lemma EraseMore(s: Store, gone: set<JobId>, id: JobId)
    ensures Erase(Erase(s, gone), {id}) == Erase(s, gone + {id})
  {
    assert s.jobs - gone - {id} == s.jobs - (gone + {id});
    assert s.states - gone - {id} == s.states - (gone + {id});
    assert s.scheduled - gone - {id} == s.scheduled - (gone + {id});
    assert s.processing - gone - {id} == s.processing - (gone + {id});
    assert s.progress - gone - {id} == s.progress - (gone + {id});
    assert s.continuations - gone - {id} == s.continuations - (gone + {id});
  }

  function MarkDeleted(s: Store, id: JobId, now: Time): (t: Store)
    requires WellFormed(s) && id in s.states
    ensures WellFormed(t) && t.states.Keys == s.states.Keys
    ensures t.idempotency == s.idempotency
  {
    s.(states := Record(s.states, id, Deleted, now), processing := s.processing - {id}, progress := s.progress - {id})
  }

  function Conts(s: Store, parent: JobId): seq<Continuation> {
    if parent in s.continuations then s.continuations[parent] else []
  }

  function Capped(result: seq<bv8>): seq<bv8> {
    if |result| > RESULT_CAP then result[..RESULT_CAP] else result
  }

  /** The outcome of a request; only the pick of due jobs is left open. */
  predicate Allowed(s: Store, op: Op, out: Outcome)
    requires WellFormed(s)
  {
    match op
    case Enqueue(_, id, _, _) => out == Created(id)
    case AddScheduled(_, id, _, _) => out == Created(id)
    case Dequeue(queues, _) =>
      var i := FirstNonEmpty(s.queues, queues);
      out == if i == |queues| then Refused(QueueEmpty) else TakeOutcome(s, queues[i])
    case Requeue(id, _) =>
      out == if id !in s.jobs then Refused(NotFound) else if Settled(s, id) then Refused(TerminalState) else Done
    case ApplyState(id, expected, _, _) =>
      out == if id !in s.states then Refused(NotFound) else if Current(s, id) != expected then Refused(StateConflict) else Done
    case ScheduleRetry(id, _, _) =>
      out == if id !in s.states then Refused(NotFound) else if Current(s, id) != Failed then Refused(StateConflict) else Done
    case SetJobResult(id, _, _) => out == if id in s.jobs then Done else Refused(NotFound)
    case HeartbeatJob(id, _) => out == if id in s.jobs then Done else Refused(NotFound)
    case GetDueScheduled(now, batch) => out.Promoted? && Picked(s.scheduled, now, batch, out.ids)
    case DeleteJob(id, _) =>
      out == if id !in s.states then Refused(NotFound) else if Settled(s, id) then Refused(TerminalState) else Done
    case RemoveExpired(cutoff) => out == Removed(AllExpired(s, cutoff))
    case AddContinuation(_, _) => out == Done
  }

  function Apply(s: Store, op: Op, out: Outcome): (t: Store)
    requires WellFormed(s) && Allowed(s, op, out)
    ensures WellFormed(t)
  {
    if out.Refused? then s else
    match op
    case Enqueue(queue, id, job, now) => EnqueueJob(s, queue, id, job, now)
    case AddScheduled(at, id, job, now) => ScheduleJob(s, at, id, job, now)
    case Dequeue(queues, now) => TakeFrom(s, queues[FirstNonEmpty(s.queues, queues)], now)
    case Requeue(id, now) => RequeueJob(s, id, now)
    case ApplyState(id, expected, next, now) => MoveState(s, id, expected, next, now)
    case ScheduleRetry(id, at, now) => RetryLater(s, id, at, now)
    case SetJobResult(id, result, _) => s.(jobs := s.jobs[id := s.jobs[id].(result := Capped(result))])
    case HeartbeatJob(id, now) => s.(progress := s.progress[id := now])
    case GetDueScheduled(now, _) => PromoteAll(s, out.ids, now)
    case DeleteJob(id, now) => MarkDeleted(s, id, now)
    case RemoveExpired(_) => Erase(s, out.gone)
    case AddContinuation(id, entry) => s.(continuations := s.continuations[id := Conts(s, id) + [entry]])
  }

  /** An enqueue with an idempotency key creates a job only for an unused key. */
  function EnqueueIdempotent(s: Store, queue: Queue, id: JobId, job: Job, key: string, now: Time): (r: (Store, JobId, bool))
    requires WellFormed(s)
    ensures WellFormed(r.0)
  {
    if key != "" && key in s.idempotency then (s, s.idempotency[key], false) else
    var t := EnqueueJob(s, queue, id, job, now);
    (if key != "" then t.(idempotency := t.idempotency[key := id]) else t, id, true)
  }
}
