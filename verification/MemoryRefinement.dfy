/** In disciplined runs every job of the in-memory backend is in exactly one place,
    the one its current state names, and every request is a step of the abstract
    machine with the same outcome. */
module MemoryRefinement {
  import opened Lifecycle
  import opened Protocol
  import opened Queues
  import opened MemorySpec
  import A = AbstractJobs

  // ----- the abstraction -----

  function AbsJobs(jobs: map<JobId, Job>, states: map<JobId, seq<Entry>>): map<JobId, A.AJob> {
    map id | id in jobs && id in states ::
      A.AJob(jobs[id].name, jobs[id].queue, EffectiveRetryMax(jobs[id].retryMax), Names(states[id]))
  }

  function Normals(cs: seq<Continuation>): seq<Continuation> {
    seq(|cs|, i requires 0 <= i < |cs| => A.Normal(cs[i]))
  }

  function AbsConts(conts: map<JobId, seq<Continuation>>): map<JobId, seq<Continuation>> {
    map id | id in conts :: Normals(conts[id])
  }

  /** The queues and the processing and progress maps do not appear: they are redundant. */
  function AbsOf(s: Store): A.Abs {
    A.Abs(AbsJobs(s.jobs, s.states), s.scheduled, AbsConts(s.continuations))
  }

  // ----- one place per job -----

  predicate WaitsOn(s: Store, id: JobId, q: Queue) {
    Is(s, id, Enqueued) && id in s.jobs && s.jobs[id].queue == q
  }

  /** An enqueued job is once in its own queue; no other job is in any queue. */
  predicate InPlace(s: Store, q: Queue, id: JobId) {
    multiset(QueueOf(s, q))[id] == if WaitsOn(s, id, q) then 1 else 0
  }

  ghost predicate QueuesPlaced(s: Store) {
    forall q, id :: InPlace(s, q, id)
  }

  ghost predicate Placed(s: Store) {
    && QueuesPlaced(s)
    && (forall id :: id in s.scheduled <==> Is(s, id, Scheduled))
    && (forall id :: id in s.processing <==> Is(s, id, Processing))
  }

  ghost predicate SamePlace(s: Store, t: Store, id: JobId) {
    forall q :: WaitsOn(s, id, q) <==> WaitsOn(t, id, q)
  }

  lemma PushKeepsQueues(s: Store, t: Store, q: Queue, id: JobId)
    requires QueuesPlaced(s) && t.queues == Push(s.queues, q, id)
    requires !Is(s, id, Enqueued) && WaitsOn(t, id, q)
    requires forall x :: x != id ==> SamePlace(s, t, x)
    ensures QueuesPlaced(t)
  {
    forall p, x ensures InPlace(t, p, x) {
      assert InPlace(s, p, x);
      hide Is;
      assert x != id ==> SamePlace(s, t, x);
      if p == q { assert QueueOf(t, p) == QueueOf(s, p) + [id]; }
    }
  }

  lemma PopKeepsQueues(s: Store, t: Store, q: Queue)
    requires QueuesPlaced(s) && |QueueOf(s, q)| > 0
    requires t.queues == s.queues[q := QueueOf(s, q)[1..]]
    requires !Is(t, QueueOf(s, q)[0], Enqueued)
    requires forall x :: x != QueueOf(s, q)[0] ==> SamePlace(s, t, x)
    ensures QueuesPlaced(t)
  {
    var id := QueueOf(s, q)[0];
    forall p, x ensures InPlace(t, p, x) {
      assert InPlace(s, p, x) && InPlace(s, q, id) && InPlace(s, p, id);
      assert x != id ==> SamePlace(s, t, x);
      assert QueueOf(s, q) == [id] + QueueOf(t, q);
      assert multiset(QueueOf(s, q))[id] >= 1;
    }
  }

  lemma SameKeepsQueues(s: Store, t: Store)
    requires QueuesPlaced(s) && t.queues == s.queues && forall x :: SamePlace(s, t, x)
    ensures QueuesPlaced(t)
  {
    forall p, x ensures InPlace(t, p, x) {
      assert InPlace(s, p, x) && SamePlace(s, t, x);
    }
  }

  /** The head of a queue is always a live, enqueued job of that queue: a dequeue
      never meets a missing job. */
  lemma HeadIsEnqueued(s: Store, q: Queue)
    requires QueuesPlaced(s) && |QueueOf(s, q)| > 0
    ensures WaitsOn(s, QueueOf(s, q)[0], q) && TakeOutcome(s, q) == Ticket(QueueOf(s, q)[0])
  {
    var id := QueueOf(s, q)[0];
    assert InPlace(s, q, id);
    assert id in multiset(QueueOf(s, q));
  }

  lemma EmptyHasNone(s: Store, q: Queue, id: JobId)
    requires QueuesPlaced(s) && |QueueOf(s, q)| == 0
    ensures !WaitsOn(s, id, q)
  {
    assert InPlace(s, q, id);
  }

  // ----- how the abstraction follows the updates -----

  lemma AbsJobsAppend(jobs: map<JobId, Job>, states: map<JobId, seq<Entry>>, id: JobId, name: State, now: Time)
    requires id in jobs && id in states
    ensures id in AbsJobs(jobs, states)
    ensures var before := AbsJobs(jobs, states);
      AbsJobs(jobs, Record(states, id, name, now)) == before[id := before[id].(hist := before[id].hist + [name])]
  {
    NamesAppend(states[id], Entry(name, now));
  }

  lemma AbsJobsInsert(jobs: map<JobId, Job>, states: map<JobId, seq<Entry>>, id: JobId, job: Job, first: State, now: Time)
    requires id !in states
    ensures AbsJobs(jobs[id := job], states[id := [Entry(first, now)]])
      == AbsJobs(jobs, states)[id := A.AJob(job.name, job.queue, EffectiveRetryMax(job.retryMax), [first])]
  {
    assert Names([Entry(first, now)]) == [first];
  }

  lemma AbsJobsErase(jobs: map<JobId, Job>, states: map<JobId, seq<Entry>>, gone: set<JobId>)
    ensures AbsJobs(jobs - gone, states - gone) == AbsJobs(jobs, states) - gone
  {
  }

  lemma AbsContsErase(conts: map<JobId, seq<Continuation>>, gone: set<JobId>)
    ensures AbsConts(conts - gone) == AbsConts(conts) - gone
  {
  }

  /** The abstract machine reads the states the backend reads. */
  lemma ReadsAgree(s: Store, id: JobId)
    requires WellFormed(s)
    ensures id in AbsOf(s).jobs <==> id in s.jobs
    ensures forall st :: A.In(AbsOf(s), id, st) <==> Is(s, id, st)
    ensures A.Stuck(AbsOf(s), id) <==> Settled(s, id)
    ensures id in s.jobs ==> AbsOf(s).jobs[id].queue == s.jobs[id].queue
  {
  }

  // ----- one lemma per request -----

  ghost predicate Simulates(s: Store, ev: Event)
    requires WellFormed(s) && Allowed(s, ev.op, ev.out)
  {
    && A.Allowed(AbsOf(s), ev.op, ev.out)
    && AbsOf(Apply(s, ev.op, ev.out)) == A.Apply(AbsOf(s), ev.op, ev.out)
    && Placed(Apply(s, ev.op, ev.out))
  }

  ghost predicate Ready(s: Store, ev: Event) {
    && WellFormed(s) && Placed(s) && Allowed(s, ev.op, ev.out)
  }

  lemma EnqueuePlaced(s: Store, queue: Queue, id: JobId, job: Job, now: Time)
    requires WellFormed(s) && Placed(s) && id !in s.states && queue == job.queue != NO_QUEUE
    ensures Placed(EnqueueJob(s, queue, id, job, now))
  {
    PushKeepsQueues(s, EnqueueJob(s, queue, id, job, now), queue, id);
  }

  lemma EnqueueIsAbstract(s: Store, queue: Queue, id: JobId, job: Job, now: Time)
    requires WellFormed(s) && id !in s.states
    ensures AbsOf(EnqueueJob(s, queue, id, job, now)) == AbsOf(s).(jobs := AbsOf(s).jobs[id := A.NewJob(job, Enqueued)])
  {
    AbsJobsInsert(s.jobs, s.states, id, Filled(job), Enqueued, now);
    hide AbsJobs, AbsConts;
  }

  lemma EnqueueSimulates(s: Store, ev: Event)
    requires Ready(s, ev) && ev.op.Enqueue? && ev.op.id !in s.states && ev.op.queue == ev.op.job.queue != NO_QUEUE
    ensures Simulates(s, ev)
  {
    EnqueuePlaced(s, ev.op.queue, ev.op.id, ev.op.job, ev.op.now);
    EnqueueIsAbstract(s, ev.op.queue, ev.op.id, ev.op.job, ev.op.now);
    hide AbsOf, Placed, EnqueueJob, A.NewJob, WellFormed;
  }

  lemma SchedulePlaced(s: Store, at: Time, id: JobId, job: Job, now: Time)
    requires WellFormed(s) && Placed(s) && id !in s.states
    ensures Placed(ScheduleJob(s, at, id, job, now))
  {
    SameKeepsQueues(s, ScheduleJob(s, at, id, job, now));
  }

  lemma ScheduleIsAbstract(s: Store, at: Time, id: JobId, job: Job, now: Time)
    requires WellFormed(s) && id !in s.states
    ensures AbsOf(ScheduleJob(s, at, id, job, now))
      == AbsOf(s).(jobs := AbsOf(s).jobs[id := A.NewJob(job, Scheduled)], due := AbsOf(s).due[id := at])
  {
    AbsJobsInsert(s.jobs, s.states, id, job.(queue := QueueOrDefault(job.queue)), Scheduled, now);
    hide AbsJobs, AbsConts;
  }

  lemma AddScheduledSimulates(s: Store, ev: Event)
    requires Ready(s, ev) && ev.op.AddScheduled? && ev.op.id !in s.states
    ensures Simulates(s, ev)
  {
    SchedulePlaced(s, ev.op.at, ev.op.id, ev.op.job, ev.op.now);
    ScheduleIsAbstract(s, ev.op.at, ev.op.id, ev.op.job, ev.op.now);
    hide AbsOf, Placed, ScheduleJob, A.NewJob, WellFormed;
  }

  lemma DequeueSimulates(s: Store, ev: Event)
    requires Ready(s, ev) && ev.op.Dequeue?
    ensures Simulates(s, ev) && !ev.out.Missing?
  {
    var i := FirstNonEmpty(s.queues, ev.op.queues);
    if i < |ev.op.queues| {
      TakeSimulates(s, ev, ev.op.queues[i]);
    } else {
      forall id | A.In(AbsOf(s), id, Enqueued) ensures AbsOf(s).jobs[id].queue !in ev.op.queues {
        ReadsAgree(s, id);
        if s.jobs[id].queue in ev.op.queues { EmptyHasNone(s, s.jobs[id].queue, id); }
      }
    }
  }

  lemma TakePlaced(s: Store, q: Queue, now: Time)
    requires WellFormed(s) && Placed(s) && |QueueOf(s, q)| > 0
    ensures Placed(TakeFrom(s, q, now))
  {
    HeadIsEnqueued(s, q);
    PopKeepsQueues(s, TakeFrom(s, q, now), q);
  }

  lemma TakeIsAbstract(s: Store, q: Queue, now: Time)
    requires WellFormed(s) && |QueueOf(s, q)| > 0 && QueueOf(s, q)[0] in s.jobs
    ensures QueueOf(s, q)[0] in AbsOf(s).jobs
    ensures AbsOf(TakeFrom(s, q, now)) == A.Append(AbsOf(s), QueueOf(s, q)[0], Processing)
  {
    AbsJobsAppend(s.jobs, s.states, QueueOf(s, q)[0], Processing, now);
    hide AbsJobs, AbsConts;
  }

  lemma TakeSimulates(s: Store, ev: Event, q: Queue)
    requires Ready(s, ev) && ev.op.Dequeue? && !ev.out.Refused? && q == ev.op.queues[FirstNonEmpty(s.queues, ev.op.queues)]
    ensures Simulates(s, ev) && !ev.out.Missing?
  {
    HeadIsEnqueued(s, q);
    ReadsAgree(s, QueueOf(s, q)[0]);
    TakePlaced(s, q, ev.op.now);
    TakeIsAbstract(s, q, ev.op.now);
    hide AbsOf, Placed, TakeFrom, A.Append, A.In, WellFormed;
  }

  lemma RequeuePlaced(s: Store, id: JobId, now: Time)
    requires WellFormed(s) && Placed(s) && id in s.jobs && !Is(s, id, Enqueued) && !Is(s, id, Scheduled)
    ensures Placed(RequeueJob(s, id, now))
  {
    PushKeepsQueues(s, RequeueJob(s, id, now), s.jobs[id].queue, id);
  }

  lemma RequeueIsAbstract(s: Store, id: JobId, now: Time)
    requires WellFormed(s) && id in s.jobs
    ensures id in AbsOf(s).jobs && AbsOf(RequeueJob(s, id, now)) == A.Append(AbsOf(s), id, Enqueued)
  {
    AbsJobsAppend(s.jobs, s.states, id, Enqueued, now);
    hide AbsJobs, AbsConts;
  }

  lemma RequeueSimulates(s: Store, ev: Event)
    requires Ready(s, ev) && ev.op.Requeue?
    requires !Is(s, ev.op.id, Enqueued) && !Is(s, ev.op.id, Scheduled)
    ensures Simulates(s, ev)
  {
    ReadsAgree(s, ev.op.id);
    if ev.out.Done? {
      RequeuePlaced(s, ev.op.id, ev.op.now);
      RequeueIsAbstract(s, ev.op.id, ev.op.now);
    }
    hide AbsOf, Placed, RequeueJob, A.Append, A.In, A.Stuck, WellFormed, Is;
  }

  lemma MovePlaced(s: Store, id: JobId, from: State, to: State, now: Time)
    requires WellFormed(s) && Placed(s) && Is(s, id, from) && EngineMove(from, to)
    ensures Placed(MoveState(s, id, from, to, now))
  {
    SameKeepsQueues(s, MoveState(s, id, from, to, now));
  }

  lemma MoveIsAbstract(s: Store, id: JobId, from: State, to: State, now: Time)
    requires WellFormed(s) && id in s.states
    ensures id in AbsOf(s).jobs && AbsOf(MoveState(s, id, from, to, now)) == A.Append(AbsOf(s), id, to)
  {
    AbsJobsAppend(s.jobs, s.states, id, to, now);
    hide AbsJobs, AbsConts;
  }

  lemma ApplyStateSimulates(s: Store, ev: Event)
    requires Ready(s, ev) && ev.op.ApplyState? && EngineMove(ev.op.expected, ev.op.next)
    ensures Simulates(s, ev)
  {
    ReadsAgree(s, ev.op.id);
    if ev.out.Done? {
      MovePlaced(s, ev.op.id, ev.op.expected, ev.op.next, ev.op.now);
      MoveIsAbstract(s, ev.op.id, ev.op.expected, ev.op.next, ev.op.now);
    }
    hide AbsOf, Placed, MoveState, A.Append, A.In, A.Stuck, WellFormed, EngineMove;
  }

  lemma RetryPlaced(s: Store, id: JobId, at: Time, now: Time)
    requires WellFormed(s) && Placed(s) && Is(s, id, Failed)
    ensures Placed(RetryLater(s, id, at, now))
  {
    SameKeepsQueues(s, RetryLater(s, id, at, now));
  }

  lemma RetryIsAbstract(s: Store, id: JobId, at: Time, now: Time)
    requires WellFormed(s) && id in s.states
    ensures id in AbsOf(s).jobs
    ensures AbsOf(RetryLater(s, id, at, now)) == A.Append(AbsOf(s), id, Scheduled).(due := AbsOf(s).due[id := at])
  {
    AbsJobsAppend(s.jobs, s.states, id, Scheduled, now);
    hide AbsJobs, AbsConts;
  }

  lemma ScheduleRetrySimulates(s: Store, ev: Event)
    requires Ready(s, ev) && ev.op.ScheduleRetry?
    ensures Simulates(s, ev)
  {
    ReadsAgree(s, ev.op.id);
    if ev.out.Done? {
      RetryPlaced(s, ev.op.id, ev.op.at, ev.op.now);
      RetryIsAbstract(s, ev.op.id, ev.op.at, ev.op.now);
    }
    hide AbsOf, Placed, RetryLater, A.Append, A.In, A.Stuck, WellFormed;
  }

  lemma DeletePlaced(s: Store, id: JobId, now: Time)
    requires WellFormed(s) && Placed(s) && id in s.jobs && !Is(s, id, Enqueued) && !Is(s, id, Scheduled)
    ensures Placed(MarkDeleted(s, id, now))
  {
    SameKeepsQueues(s, MarkDeleted(s, id, now));
  }

  lemma DeleteIsAbstract(s: Store, id: JobId, now: Time)
    requires WellFormed(s) && id in s.states
    ensures id in AbsOf(s).jobs && AbsOf(MarkDeleted(s, id, now)) == A.Append(AbsOf(s), id, Deleted)
  {
    AbsJobsAppend(s.jobs, s.states, id, Deleted, now);
    hide AbsJobs, AbsConts;
  }

  lemma DeleteSimulates(s: Store, ev: Event)
    requires Ready(s, ev) && ev.op.DeleteJob?
    requires !Is(s, ev.op.id, Enqueued) && !Is(s, ev.op.id, Scheduled)
    ensures Simulates(s, ev)
  {
    ReadsAgree(s, ev.op.id);
    if ev.out.Done? {
      assert ev.op.id in s.jobs;
      DeletePlaced(s, ev.op.id, ev.op.now);
      DeleteIsAbstract(s, ev.op.id, ev.op.now);
    }
    hide AbsOf, Placed, MarkDeleted, A.Append, A.In, A.Stuck, Is;
  }

  lemma ErasePlaced(s: Store, cutoff: Time)
    requires WellFormed(s) && Placed(s)
    ensures Placed(Erase(s, AllExpired(s, cutoff)))
  {
    SameKeepsQueues(s, Erase(s, AllExpired(s, cutoff)));
  }

  lemma EraseIsAbstract(s: Store, gone: set<JobId>)
    ensures AbsOf(Erase(s, gone)) == A.Abs(AbsOf(s).jobs - gone, AbsOf(s).due - gone, AbsOf(s).conts - gone)
  {
    AbsJobsErase(s.jobs, s.states, gone);
    AbsContsErase(s.continuations, gone);
    hide AbsJobs, AbsConts;
  }

  lemma ExpiredIsExpirable(s: Store, cutoff: Time, id: JobId)
    requires WellFormed(s) && id in AllExpired(s, cutoff)
    ensures id in AbsOf(s).jobs && |AbsOf(s).jobs[id].hist| > 0 && Expirable(Last(AbsOf(s).jobs[id].hist))
  {
  }

  lemma ExpirySimulates(s: Store, ev: Event)
    requires Ready(s, ev) && ev.op.RemoveExpired?
    ensures Simulates(s, ev)
  {
    forall id | id in ev.out.gone ensures id in AbsOf(s).jobs && |AbsOf(s).jobs[id].hist| > 0 && Expirable(Last(AbsOf(s).jobs[id].hist)) {
      ExpiredIsExpirable(s, ev.op.cutoff, id);
    }
    ErasePlaced(s, ev.op.cutoff);
    EraseIsAbstract(s, ev.out.gone);
    hide AbsOf, Placed, Erase, WellFormed, Expired, AllExpired;
  }

  lemma AbsJobsResult(jobs: map<JobId, Job>, states: map<JobId, seq<Entry>>, id: JobId, result: seq<bv8>)
    requires id in jobs
    ensures AbsJobs(jobs[id := jobs[id].(result := result)], states) == AbsJobs(jobs, states)
  {
  }

  lemma SetResultSimulates(s: Store, ev: Event)
    requires Ready(s, ev) && ev.op.SetJobResult?
    ensures Simulates(s, ev)
  {
    ReadsAgree(s, ev.op.id);
    if ev.out.Done? {
      AbsJobsResult(s.jobs, s.states, ev.op.id, Capped(ev.op.result));
      hide AbsJobs, AbsConts, Capped;
      SameKeepsQueues(s, Apply(s, ev.op, ev.out));
    }
  }

  lemma HeartbeatSimulates(s: Store, ev: Event)
    requires Ready(s, ev) && ev.op.HeartbeatJob?
    ensures Simulates(s, ev)
  {
    ReadsAgree(s, ev.op.id);
    hide AbsJobs, AbsConts;
    SameKeepsQueues(s, Apply(s, ev.op, ev.out));
  }

  lemma AddContinuationIsAbstract(s: Store, id: JobId, entry: Continuation)
    ensures AbsConts(s.continuations[id := Conts(s, id) + [entry]])
      == AbsConts(s.continuations)[id := A.Conts(AbsOf(s), id) + [A.Normal(entry)]]
  {
    assert Normals(Conts(s, id) + [entry]) == Normals(Conts(s, id)) + [A.Normal(entry)];
  }

  lemma ContinuationSimulates(s: Store, ev: Event)
    requires Ready(s, ev) && ev.op.AddContinuation?
    ensures Simulates(s, ev)
  {
    AddContinuationIsAbstract(s, ev.op.id, ev.op.entry);
    SameKeepsQueues(s, Apply(s, ev.op, ev.out));
    hide AbsJobs, AbsConts, A.Conts, Conts, QueuesPlaced, WellFormed;
  }

  // ----- promotion, one due job at a time -----

  lemma PromoteOnePlaced(s: Store, id: JobId, now: Time)
    requires WellFormed(s) && Placed(s) && id in s.scheduled
    ensures Placed(Promote(s, id, now))
    ensures Promote(s, id, now).scheduled == s.scheduled - {id}
  {
    PushKeepsQueues(s, Promote(s, id, now), s.jobs[id].queue, id);
  }

  lemma PromoteOneIsAbstract(s: Store, id: JobId, now: Time)
    requires WellFormed(s) && id in s.scheduled
    ensures AbsOf(Promote(s, id, now)) == A.Promote(AbsOf(s), [id])
  {
    AbsJobsAppend(s.jobs, s.states, id, Enqueued, now);
    hide AbsJobs, AbsConts;
  }

  lemma PromoteAllSimulates(s: Store, ids: seq<JobId>, now: Time)
    requires WellFormed(s) && Placed(s) && Distinct(ids) && forall id :: id in ids ==> id in s.scheduled
    ensures forall id :: id in ids ==> id in s.jobs
    ensures Placed(PromoteAll(s, ids, now)) && AbsOf(PromoteAll(s, ids, now)) == A.Promote(AbsOf(s), ids)
    ensures forall id :: id in PromoteAll(s, ids, now).scheduled <==> id in s.scheduled && id !in ids
  {
    assert forall id :: id in ids ==> id in s.jobs;
    if |ids| > 0 {
      hide Promote, AbsOf, A.Promote, WellFormed, Distinct, Placed;
      var front, id := ids[..|ids| - 1], Last(ids);
      DistinctFront(ids);
      PromoteAllSimulates(s, front, now);
      var r := PromoteAll(s, front, now);
      PromoteOnePlaced(r, id, now);
      PromoteOneIsAbstract(r, id, now);
      A.PromoteThen(AbsOf(s), front, id, ids);
    } else {
      hide AbsOf, A.Promote;
      A.PromoteNone(AbsOf(s));
    }
  }

  lemma DueIsAllowed(s: Store, now: Time, batch: int, ids: seq<JobId>)
    requires WellFormed(s) && Picked(s.scheduled, now, batch, ids)
    ensures A.Allowed(AbsOf(s), Op.GetDueScheduled(now, batch), Outcome.Promoted(ids))
  {
    forall id | id in ids ensures id in AbsOf(s).due && id in AbsOf(s).jobs && AbsOf(s).due[id] <= now {
      ReadsAgree(s, id);
    }
  }

  lemma PromotionSimulates(s: Store, ev: Event)
    requires Ready(s, ev) && ev.op.GetDueScheduled?
    ensures Simulates(s, ev)
  {
    DueIsAllowed(s, ev.op.now, ev.op.batch, ev.out.ids);
    hide AbsOf, A.Allowed, A.Promote, WellFormed, Placed, PromoteAll;
    PromoteAllSimulates(s, ev.out.ids, ev.op.now);
  }

  // ----- the refinement theorem -----

  /** Every disciplined request of the in-memory backend is a request of the abstract
      machine with the same outcome, and keeps every job in its one place. */
  lemma MemoryRefines(s: Store, used: set<JobId>, ev: Event)
    requires Ready(s, ev) && s.jobs.Keys <= used && A.Disciplined(AbsOf(s), used, ev.op)
    ensures Simulates(s, ev)
  {
    assert forall id :: id in s.states ==> id in used;
    if ev.op.Requeue? || ev.op.DeleteJob? { ReadsAgree(s, ev.op.id); }
    hide AbsOf, Simulates, WellFormed, Placed, Allowed, Is, A.Stuck;
    match ev.op
    case Enqueue(_, _, _, _) => EnqueueSimulates(s, ev);
    case AddScheduled(_, _, _, _) => AddScheduledSimulates(s, ev);
    case Dequeue(_, _) => DequeueSimulates(s, ev);
    case Requeue(_, _) => RequeueSimulates(s, ev);
    case ApplyState(_, _, _, _) => ApplyStateSimulates(s, ev);
    case ScheduleRetry(_, _, _) => ScheduleRetrySimulates(s, ev);
    case SetJobResult(_, _, _) => SetResultSimulates(s, ev);
    case HeartbeatJob(_, _) => HeartbeatSimulates(s, ev);
    case GetDueScheduled(_, _) => PromotionSimulates(s, ev);
    case DeleteJob(_, _) => DeleteSimulates(s, ev);
    case RemoveExpired(_) => ExpirySimulates(s, ev);
    case AddContinuation(_, _) => ContinuationSimulates(s, ev);
  }

  lemma EmptyIsPlaced()
    ensures Placed(EMPTY) && AbsOf(EMPTY) == A.EMPTY
  {
  }
}
