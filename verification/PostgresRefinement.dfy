/** In disciplined runs the tables stay consistent, and every transaction is a step
    of the abstract machine with the same outcome. */
module PostgresRefinement {
  import opened Lifecycle
  import opened Protocol
  import opened PostgresSpec
  import A = AbstractJobs

  function AbsJobs(jobs: map<JobId, Row>, states: map<JobId, seq<State>>): map<JobId, A.AJob> {
    map id | id in jobs && id in states ::
      A.AJob(jobs[id].name, jobs[id].queue, EffectiveRetryMax(jobs[id].retryMax), states[id])
  }

  /** The state column, the tokens and the progress column do not appear. */
  function AbsOf(s: Tables): A.Abs {
    A.Abs(AbsJobs(s.jobs, s.states), s.scheduled, s.continuations)
  }

  lemma ReadsAgree(s: Tables, id: JobId)
    requires Consistent(s)
    ensures id in AbsOf(s).jobs <==> id in s.jobs
    ensures forall st :: A.In(AbsOf(s), id, st) <==> Has(s, id, st)
    ensures A.Stuck(AbsOf(s), id) <==> id in s.jobs && Irreversible(s.jobs[id].state)
    ensures id in s.jobs ==> AbsOf(s).jobs[id].queue == s.jobs[id].queue
  {
  }

  ghost predicate Simulates(s: Tables, ev: Event)
    requires Rows(s) && Allowed(s, ev.op, ev.out)
  {
    && A.Allowed(AbsOf(s), ev.op, ev.out)
    && AbsOf(Apply(s, ev.op, ev.out)) == A.Apply(AbsOf(s), ev.op, ev.out)
    && Consistent(Apply(s, ev.op, ev.out))
  }

  ghost predicate Ready(s: Tables, ev: Event) {
    Rows(s) && Consistent(s) && Allowed(s, ev.op, ev.out)
  }

  lemma AbsSet(s: Tables, id: JobId, state: State, progress: Progress, now: Time)
    requires id in s.jobs && id in s.states
    ensures AbsOf(Set(s, id, state, progress, now)) == A.Append(AbsOf(s), id, state)
  {
    var t := Set(s, id, state, progress, now);
    assert AbsJobs(t.jobs, t.states) == A.Append(AbsOf(s), id, state).jobs;
  }

  lemma AbsInsert(s: Tables, id: JobId, name: string, queue: Queue, retryMax: int, state: State, now: Time)
    requires id !in s.jobs && id !in s.states
    ensures var t := Insert(s, id, name, queue, retryMax, state, now);
      AbsJobs(t.jobs, t.states) == AbsJobs(s.jobs, s.states)[id := A.AJob(name, queue, EffectiveRetryMax(retryMax), [state])]
  {
  }

  lemma InsertKeepsConsistent(s: Tables, id: JobId, name: string, queue: Queue, retryMax: int, now: Time)
    requires Consistent(s) && id !in s.jobs
    ensures Consistent(Insert(s, id, name, queue, retryMax, Enqueued, now))
  {
  }

  lemma InsertScheduledKeepsConsistent(s: Tables, id: JobId, name: string, queue: Queue, retryMax: int, now: Time, at: Time)
    requires Consistent(s) && id !in s.jobs
    ensures Consistent(Insert(s, id, name, queue, retryMax, Scheduled, now).(scheduled := s.scheduled[id := at]))
  {
  }

  /** A state change of one job, with its schedule row kept in step. */
  lemma SetKeepsConsistent(s: Tables, id: JobId, state: State, progress: Progress, now: Time, at: Time)
    requires Consistent(s) && id in s.jobs && s.jobs[id].state != Scheduled
    requires state == Processing ==> progress.Beat?
    ensures state != Scheduled ==> Consistent(Set(s, id, state, progress, now))
    ensures state == Scheduled ==> Consistent(Set(s, id, state, progress, now).(scheduled := s.scheduled[id := at]))
  {
  }

  lemma EnqueueSimulates(s: Tables, ev: Event)
    requires Ready(s, ev) && ev.op.Enqueue? && ev.op.id !in s.jobs && ev.op.queue == ev.op.job.queue != NO_QUEUE
    ensures Simulates(s, ev)
  {
    AbsInsert(s, ev.op.id, ev.op.job.name, QueueOrDefault(ev.op.queue), ev.op.job.retryMax, Enqueued, ev.op.now);
    InsertKeepsConsistent(s, ev.op.id, ev.op.job.name, QueueOrDefault(ev.op.queue), ev.op.job.retryMax, ev.op.now);
    hide AbsJobs, Consistent, Insert, Rows;
    InsertFrame(s, ev.op.id, ev.op.job.name, QueueOrDefault(ev.op.queue), ev.op.job.retryMax, Enqueued, ev.op.now);
  }

  lemma InsertFrame(s: Tables, id: JobId, name: string, queue: Queue, retryMax: int, state: State, now: Time)
    ensures Insert(s, id, name, queue, retryMax, state, now).scheduled == s.scheduled
    ensures Insert(s, id, name, queue, retryMax, state, now).continuations == s.continuations
  {
  }

  lemma AddScheduledSimulates(s: Tables, ev: Event)
    requires Ready(s, ev) && ev.op.AddScheduled? && ev.op.id !in s.jobs
    ensures Simulates(s, ev)
  {
    AbsInsert(s, ev.op.id, ev.op.job.name, QueueOrDefault(ev.op.job.queue), ev.op.job.retryMax, Scheduled, ev.op.now);
    InsertScheduledKeepsConsistent(s, ev.op.id, ev.op.job.name, QueueOrDefault(ev.op.job.queue), ev.op.job.retryMax, ev.op.now, ev.op.at);
    hide AbsJobs, Consistent, Insert, Rows;
    InsertFrame(s, ev.op.id, ev.op.job.name, QueueOrDefault(ev.op.job.queue), ev.op.job.retryMax, Scheduled, ev.op.now);
  }

  lemma DequeueSimulates(s: Tables, ev: Event)
    requires Ready(s, ev) && ev.op.Dequeue?
    ensures Simulates(s, ev)
  {
    if ev.out.Ticket? {
      var id, now := ev.out.id, ev.op.now;
      ReadsAgree(s, id);
      AbsSet(s, id, Processing, Beat(now), now);
      SetKeepsConsistent(s, id, Processing, Beat(now), now, 0);
      hide AbsOf, Consistent, Set, Rows, A.Append, A.In;
    } else {
      forall id | A.In(AbsOf(s), id, Enqueued) ensures AbsOf(s).jobs[id].queue !in ev.op.queues {
        ReadsAgree(s, id);
        assert !Candidate(s, ev.op.queues, id);
      }
      hide AbsJobs, Consistent;
    }
  }

  lemma RequeueSimulates(s: Tables, ev: Event)
    requires Ready(s, ev) && (ev.op.Requeue? || ev.op.DeleteJob?)
    requires !Has(s, ev.op.id, Scheduled)
    ensures Simulates(s, ev)
  {
    hide AbsOf, Consistent, Set, A.Append, A.In, A.Stuck;
    var id := ev.op.id;
    ReadsAgree(s, id);
    if ev.out.Done? { LiveRowIsSet(s, id, if ev.op.Requeue? then Enqueued else Deleted, ev.op.now); }
  }

  lemma LiveRowIsSet(s: Tables, id: JobId, state: State, now: Time)
    requires Rows(s) && Consistent(s) && id in s.jobs && !Has(s, id, Scheduled) && state != Scheduled && state != Processing
    ensures id in s.states && id in AbsOf(s).jobs
    ensures AbsOf(Set(s, id, state, Null, now)) == A.Append(AbsOf(s), id, state) && Consistent(Set(s, id, state, Null, now))
  {
    AbsSet(s, id, state, Null, now);
    SetKeepsConsistent(s, id, state, Null, now, 0);
    hide Set;
  }

  lemma ApplyStateSimulates(s: Tables, ev: Event)
    requires Ready(s, ev) && ev.op.ApplyState? && EngineMove(ev.op.expected, ev.op.next)
    ensures Simulates(s, ev)
  {
    ReadsAgree(s, ev.op.id);
    if ev.out.Done? {
      AbsSet(s, ev.op.id, ev.op.next, Null, ev.op.now);
      SetKeepsConsistent(s, ev.op.id, ev.op.next, Null, ev.op.now, 0);
    }
    hide AbsOf, Consistent, Set, Rows, A.Append, A.In;
  }

  lemma ScheduleRetrySimulates(s: Tables, ev: Event)
    requires Ready(s, ev) && ev.op.ScheduleRetry?
    ensures Simulates(s, ev)
  {
    ReadsAgree(s, ev.op.id);
    if ev.out.Done? {
      var row := s.jobs[ev.op.id];
      AbsSet(s, ev.op.id, Scheduled, row.progress, ev.op.now);
      SetKeepsConsistent(s, ev.op.id, Scheduled, row.progress, ev.op.now, ev.op.at);
      SetFrame(s, ev.op.id, Scheduled, row.progress, ev.op.now);
    }
    hide AbsJobs, Consistent, Set, Rows, A.In;
  }

  lemma SetFrame(s: Tables, id: JobId, state: State, progress: Progress, now: Time)
    requires id in s.jobs && id in s.states
    ensures Set(s, id, state, progress, now).scheduled == s.scheduled
    ensures Set(s, id, state, progress, now).continuations == s.continuations
  {
  }

  /** Columns other than the state column do not matter. */
  lemma ColumnIsAbstract(s: Tables, id: JobId, row: Row)
    requires Consistent(s) && id in s.jobs
    requires row.name == s.jobs[id].name && row.queue == s.jobs[id].queue && row.retryMax == s.jobs[id].retryMax && row.state == s.jobs[id].state
    requires s.jobs[id].progress.Beat? ==> row.progress.Beat?
    ensures Consistent(s.(jobs := s.jobs[id := row])) && AbsOf(s.(jobs := s.jobs[id := row])) == AbsOf(s)
  {
    assert AbsJobs(s.jobs[id := row], s.states) == AbsJobs(s.jobs, s.states);
  }

  lemma ColumnSimulates(s: Tables, ev: Event)
    requires Ready(s, ev) && (ev.op.SetJobResult? || ev.op.HeartbeatJob?)
    ensures Simulates(s, ev)
  {
    ReadsAgree(s, ev.op.id);
    if ev.out.Done? { ColumnIsAbstract(s, ev.op.id, Apply(s, ev.op, ev.out).jobs[ev.op.id]); }
    hide AbsOf, Consistent, Rows, A.In;
  }

  lemma PromotionIsAbstract(s: Tables, ids: seq<JobId>, now: Time)
    ensures AbsOf(PromoteAll(s, ids, now)) == A.Promote(AbsOf(s), ids)
  {
    var t := PromoteAll(s, ids, now);
    assert AbsOf(t).jobs == A.Promote(AbsOf(s), ids).jobs;
  }

  lemma PromotionKeepsConsistent(s: Tables, ids: seq<JobId>, now: Time)
    requires Consistent(s) && forall id :: id in ids ==> id in s.scheduled
    ensures Consistent(PromoteAll(s, ids, now))
  {
  }

  lemma DueIsAllowed(s: Tables, now: Time, batch: int, ids: seq<JobId>)
    requires Consistent(s) && Selected(s, now, batch, ids)
    ensures A.Allowed(AbsOf(s), GetDueScheduled(now, batch), Outcome.Promoted(ids))
    ensures forall id :: id in ids ==> id in s.scheduled
  {
    forall id | id in ids ensures id in AbsOf(s).due && id in AbsOf(s).jobs && AbsOf(s).due[id] <= now {
      assert Due(s, now, id);
      ReadsAgree(s, id);
    }
    hide Consistent, AbsJobs;
  }

  lemma PromotionSimulates(s: Tables, ev: Event)
    requires Ready(s, ev) && ev.op.GetDueScheduled?
    ensures Simulates(s, ev)
  {
    PromotionIsAbstract(s, ev.out.ids, ev.op.now);
    DueIsAllowed(s, ev.op.now, ev.op.batch, ev.out.ids);
    PromotionKeepsConsistent(s, ev.out.ids, ev.op.now);
    hide AbsOf, Consistent, Rows, PromoteAll, Selected, A.Promote, A.Allowed;
  }

  lemma ExpirySimulates(s: Tables, ev: Event)
    requires Ready(s, ev) && ev.op.RemoveExpired?
    ensures Simulates(s, ev)
  {
    forall id | id in ev.out.gone ensures id in AbsOf(s).jobs && |AbsOf(s).jobs[id].hist| > 0 && Expirable(Last(AbsOf(s).jobs[id].hist)) {
      ExpiredIsExpirable(s, ev.op.cutoff, id);
    }
    EraseIsAbstract(s, ev.out.gone);
    EraseKeepsConsistent(s, ev.out.gone);
    hide AbsOf, Erase, AllExpired, Consistent, Rows;
  }

  lemma ExpiredIsExpirable(s: Tables, cutoff: Time, id: JobId)
    requires Rows(s) && Consistent(s) && id in AllExpired(s, cutoff)
    ensures id in AbsOf(s).jobs && |AbsOf(s).jobs[id].hist| > 0 && Expirable(Last(AbsOf(s).jobs[id].hist))
  {
  }

  lemma EraseIsAbstract(s: Tables, gone: set<JobId>)
    ensures AbsOf(Erase(s, gone)) == A.Abs(AbsOf(s).jobs - gone, AbsOf(s).due - gone, AbsOf(s).conts - gone)
  {
    var t := Erase(s, gone);
    assert AbsJobs(t.jobs, t.states) == AbsJobs(s.jobs, s.states) - gone;
  }

  lemma EraseKeepsConsistent(s: Tables, gone: set<JobId>)
    requires Consistent(s)
    ensures Consistent(Erase(s, gone))
  {
  }

  lemma ContinuationSimulates(s: Tables, ev: Event)
    requires Ready(s, ev) && ev.op.AddContinuation?
    ensures Simulates(s, ev)
  {
    ReadsAgree(s, ev.op.id);
    hide AbsJobs;
  }

  /** Every disciplined transaction of the Postgres backend is a request of the
      abstract machine with the same outcome, and keeps the tables consistent. */
  lemma PostgresRefines(s: Tables, used: set<JobId>, ev: Event)
    requires Ready(s, ev) && s.jobs.Keys <= used && A.Disciplined(AbsOf(s), used, ev.op)
    ensures Simulates(s, ev)
  {
    if ev.op.Requeue? || ev.op.DeleteJob? { ReadsAgree(s, ev.op.id); }
    hide AbsOf, Simulates, Consistent, Rows, Allowed, A.Stuck;
    match ev.op
    case Enqueue(_, _, _, _) => EnqueueSimulates(s, ev);
    case AddScheduled(_, _, _, _) => AddScheduledSimulates(s, ev);
    case Dequeue(_, _) => DequeueSimulates(s, ev);
    case Requeue(_, _) => RequeueSimulates(s, ev);
    case ApplyState(_, _, _, _) => ApplyStateSimulates(s, ev);
    case ScheduleRetry(_, _, _) => ScheduleRetrySimulates(s, ev);
    case SetJobResult(_, _, _) => ColumnSimulates(s, ev);
    case HeartbeatJob(_, _) => ColumnSimulates(s, ev);
    case GetDueScheduled(_, _) => PromotionSimulates(s, ev);
    case DeleteJob(_, _) => RequeueSimulates(s, ev);
    case RemoveExpired(_) => ExpirySimulates(s, ev);
    case AddContinuation(_, _) => ContinuationSimulates(s, ev);
  }

  lemma EmptyIsConsistent()
    ensures Consistent(EMPTY) && Rows(EMPTY) && AbsOf(EMPTY) == A.EMPTY
  {
  }
}
