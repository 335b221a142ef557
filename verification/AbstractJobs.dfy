/** The abstract machine both backends refine: each live job is an append-only
    history of states; a scheduled job has a due time; a parent has the
    continuations registered on it. There is no queue: a dequeue may hand out
    any enqueued job of the requested queues. */
module AbstractJobs {
  import opened Lifecycle
  import opened Protocol

  datatype AJob = AJob(name: string, queue: Queue, retryMax: int, hist: seq<State>)

  datatype Abs = Abs(
    jobs: map<JobId, AJob>,
    due: map<JobId, Time>,
    conts: map<JobId, seq<Continuation>>)

  const EMPTY := Abs(map[], map[], map[])

  /** The current state, read as the code reads it. */
  predicate In(a: Abs, id: JobId, s: State) {
    id in a.jobs && |a.jobs[id].hist| > 0 && Last(a.jobs[id].hist) == s
  }

  predicate Stuck(a: Abs, id: JobId) {
    id in a.jobs && |a.jobs[id].hist| > 0 && Irreversible(Last(a.jobs[id].hist))
  }

  function Append(a: Abs, id: JobId, s: State): Abs
    requires id in a.jobs
  {
    a.(jobs := a.jobs[id := a.jobs[id].(hist := a.jobs[id].hist + [s])])
  }

  function NewJob(job: Job, first: State): AJob {
    AJob(job.name, QueueOrDefault(job.queue), EffectiveRetryMax(job.retryMax), [first])
  }

  function Normal(c: Continuation): Continuation {
    c.(childQueue := QueueOrDefault(c.childQueue))
  }

  function Conts(a: Abs, parent: JobId): seq<Continuation> {
    if parent in a.conts then a.conts[parent] else []
  }

  predicate KnownCondition(c: string) {
    c == ON_SUCCEEDED || c == ON_FAILED || c == ON_ANY
  }

  /** Which outcome may a request have? */
  ghost predicate Allowed(a: Abs, op: Op, out: Outcome) {
    match op
    case Enqueue(_, id, _, _) => out == Created(id)
    case AddScheduled(_, id, _, _) => out == Created(id)
    case Dequeue(queues, _) =>
      || (out.Ticket? && In(a, out.id, Enqueued) && a.jobs[out.id].queue in queues)
      || (out == Refused(QueueEmpty) && forall id :: In(a, id, Enqueued) ==> a.jobs[id].queue !in queues)
    case Requeue(id, _) =>
      out == if id !in a.jobs then Refused(NotFound) else if Stuck(a, id) then Refused(TerminalState) else Done
    case ApplyState(id, expected, _, _) =>
      out == if id !in a.jobs then Refused(NotFound) else if !In(a, id, expected) then Refused(StateConflict) else Done
    case ScheduleRetry(id, _, _) =>
      out == if id !in a.jobs then Refused(NotFound) else if !In(a, id, Failed) then Refused(StateConflict) else Done
    case SetJobResult(id, _, _) => out == if id in a.jobs then Done else Refused(NotFound)
    case HeartbeatJob(id, _) => out == if id in a.jobs then Done else Refused(NotFound)
    case GetDueScheduled(now, _) =>
      && out.Promoted?
      && Distinct(out.ids)
      && forall id :: id in out.ids ==> id in a.due && id in a.jobs && a.due[id] <= now
    case DeleteJob(id, _) =>
      out == if id !in a.jobs then Refused(NotFound) else if Stuck(a, id) then Refused(TerminalState) else Done
    case RemoveExpired(_) =>
      out.Removed? && forall id :: id in out.gone ==> id in a.jobs && |a.jobs[id].hist| > 0 && Expirable(Last(a.jobs[id].hist))
    case AddContinuation(id, entry) =>
      out == Done || (out == Refused(Constraint) && (id !in a.jobs || !KnownCondition(entry.condition)))
  }

  /** What a request with that outcome does. */
  ghost function Apply(a: Abs, op: Op, out: Outcome): Abs
    requires Allowed(a, op, out)
  {
    if out.Refused? then a else
    match op
    case Enqueue(_, id, job, _) => a.(jobs := a.jobs[id := NewJob(job, Enqueued)])
    case AddScheduled(at, id, job, _) =>
      a.(jobs := a.jobs[id := NewJob(job, Scheduled)], due := a.due[id := at])
    case Dequeue(_, _) => Append(a, out.id, Processing)
    case Requeue(id, _) => Append(a, id, Enqueued)
    case ApplyState(id, _, next, _) => Append(a, id, next)
    case ScheduleRetry(id, at, _) => Append(a, id, Scheduled).(due := a.due[id := at])
    case SetJobResult(_, _, _) => a
    case HeartbeatJob(_, _) => a
    case GetDueScheduled(_, _) => Promote(a, out.ids)
    case DeleteJob(id, _) => Append(a, id, Deleted)
    case RemoveExpired(_) =>
      Abs(a.jobs - out.gone, a.due - out.gone, a.conts - out.gone)
    case AddContinuation(id, entry) => a.(conts := a.conts[id := Conts(a, id) + [Normal(entry)]])
  }

  function Promoted(job: AJob, picked: bool): AJob {
    if picked then job.(hist := job.hist + [Enqueued]) else job
  }

  /** All promoted jobs move at once. */
  ghost function Promote(a: Abs, ids: seq<JobId>): Abs {
    Abs(map id | id in a.jobs :: Promoted(a.jobs[id], id in ids),
        map id | id in a.due && id !in ids :: a.due[id],
        a.conts)
  }

  /** Promoting a batch is promoting its members one after the other. */
  lemma PromoteThen(a: Abs, front: seq<JobId>, id: JobId, ids: seq<JobId>)
    requires id !in front && forall x :: x in ids <==> x in front || x == id
    ensures Promote(Promote(a, front), [id]) == Promote(a, ids)
  {
  }

  lemma PromoteNone(a: Abs)
    ensures Promote(a, []) == a
  {
  }

  /** A disciplined request: requeue and delete meet only jobs that are
      processing or failed, or that refuse them anyway. */
  ghost predicate Disciplined(a: Abs, used: set<JobId>, op: Op) {
    && BasicOp(used, op)
    && (op.Requeue? || op.DeleteJob? ==>
          op.id !in a.jobs || In(a, op.id, Processing) || In(a, op.id, Failed) || Stuck(a, op.id))
  }

  /** The invariant of the abstract machine. */
  ghost predicate AbsInv(a: Abs, used: set<JobId>) {
    && a.jobs.Keys <= used
    && (forall id :: id in a.jobs ==> LegalHistory(a.jobs[id].hist))
    && (forall id :: id in a.due <==> In(a, id, Scheduled))
  }

  lemma AbsStepKeepsLegal(a: Abs, used: set<JobId>, op: Op, out: Outcome, id: JobId)
    requires AbsInv(a, used) && Disciplined(a, used, op) && Allowed(a, op, out) && id in Apply(a, op, out).jobs
    ensures LegalHistory(Apply(a, op, out).jobs[id].hist)
  {
    var b := Apply(a, op, out);
    if id in a.jobs && b.jobs[id].hist != a.jobs[id].hist {
      LegalHistoryExtends(a.jobs[id].hist, Last(b.jobs[id].hist));
    }
  }

  lemma AbsStepKeepsDue(a: Abs, used: set<JobId>, op: Op, out: Outcome)
    requires AbsInv(a, used) && Disciplined(a, used, op) && Allowed(a, op, out)
    ensures forall id :: id in Apply(a, op, out).due <==> In(Apply(a, op, out), id, Scheduled)
  {
    hide LegalHistory;
  }

  lemma AbsStepKeepsUsed(a: Abs, used: set<JobId>, op: Op, out: Outcome)
    requires AbsInv(a, used) && Allowed(a, op, out)
    ensures Apply(a, op, out).jobs.Keys <= UsedAfter(used, op)
  {
    hide LegalHistory, Stuck;
  }

  lemma AbsStepKeepsInv(a: Abs, used: set<JobId>, op: Op, out: Outcome)
    requires AbsInv(a, used) && Disciplined(a, used, op) && Allowed(a, op, out)
    ensures AbsInv(Apply(a, op, out), UsedAfter(used, op))
  {
    forall id | id in Apply(a, op, out).jobs ensures LegalHistory(Apply(a, op, out).jobs[id].hist) {
      AbsStepKeepsLegal(a, used, op, out, id);
    }
    AbsStepKeepsDue(a, used, op, out);
    AbsStepKeepsUsed(a, used, op, out);
    hide Apply, Allowed, Disciplined, LegalHistory, In;
  }

  /** A surviving history only ever grows at its end. */
  lemma AbsHistoryGrows(a: Abs, used: set<JobId>, op: Op, out: Outcome, id: JobId)
    requires AbsInv(a, used) && Disciplined(a, used, op) && Allowed(a, op, out)
    requires id in a.jobs && id in Apply(a, op, out).jobs
    ensures a.jobs[id].hist <= Apply(a, op, out).jobs[id].hist
    ensures a.jobs[id].name == Apply(a, op, out).jobs[id].name
    ensures a.jobs[id].queue == Apply(a, op, out).jobs[id].queue
    ensures a.jobs[id].retryMax == Apply(a, op, out).jobs[id].retryMax
  {
  }

  /** An irreversible job never moves again: it keeps its history until it is erased. */
  lemma AbsIrreversibleStays(a: Abs, used: set<JobId>, op: Op, out: Outcome, id: JobId)
    requires AbsInv(a, used) && Disciplined(a, used, op) && Allowed(a, op, out)
    requires Stuck(a, id)
    ensures id !in Apply(a, op, out).jobs || Apply(a, op, out).jobs[id] == a.jobs[id]
  {
  }

  /** An erased id never names a job again. */
  lemma AbsNothingComesBack(a: Abs, used: set<JobId>, op: Op, out: Outcome, id: JobId)
    requires Disciplined(a, used, op) && Allowed(a, op, out) && id in used && id !in a.jobs
    ensures id !in Apply(a, op, out).jobs
  {
  }

  // ----- what a request touches -----

  ghost predicate Touches(ev: Event, id: JobId) {
    if ev.out.Refused? then false else
    match ev.op
    case Enqueue(_, x, _, _) => x == id
    case AddScheduled(_, x, _, _) => x == id
    case Dequeue(_, _) => ev.out.Ticket? && ev.out.id == id
    case Requeue(x, _) => x == id
    case ApplyState(x, _, _, _) => x == id
    case ScheduleRetry(x, _, _) => x == id
    case DeleteJob(x, _) => x == id
    case GetDueScheduled(_, _) => ev.out.Promoted? && id in ev.out.ids
    case RemoveExpired(_) => ev.out.Removed? && id in ev.out.gone
    case _ => false
  }

  lemma UntouchedIsSame(a: Abs, ev: Event, id: JobId)
    requires Allowed(a, ev.op, ev.out) && !Touches(ev, id)
    ensures id in Apply(a, ev.op, ev.out).jobs <==> id in a.jobs
    ensures id in a.jobs ==> Apply(a, ev.op, ev.out).jobs[id] == a.jobs[id]
  {
  }

  // ----- the legal moves are the moves that are made -----

  /** The request may be made, and takes the job into this state. */
  ghost predicate Takes(a: Abs, used: set<JobId>, ev: Event, id: JobId, to: State) {
    && Disciplined(a, used, ev.op) && Allowed(a, ev.op, ev.out) && id in a.jobs
    && id in Apply(a, ev.op, ev.out).jobs
    && Apply(a, ev.op, ev.out).jobs[id].hist == a.jobs[id].hist + [to]
  }

  function RequestFor(a: Abs, id: JobId, from: State, to: State): Event
    requires id in a.jobs && (from == Scheduled ==> id in a.due)
  {
    if from == Enqueued then Event(Dequeue([a.jobs[id].queue], 0), Ticket(id))
    else if from == Scheduled then Event(GetDueScheduled(a.due[id], 1), Outcome.Promoted([id]))
    else if to == Enqueued then Event(Op.Requeue(id, 0), Done)
    else if to == Deleted then Event(DeleteJob(id, 0), Done)
    else if to == Scheduled then Event(ScheduleRetry(id, 0, 0), Done)
    else Event(ApplyState(id, from, to, 0), Done)
  }

  lemma LegalMoveIsMade(a: Abs, used: set<JobId>, id: JobId, to: State)
    requires AbsInv(a, used) && id in a.jobs && LegalHistory(a.jobs[id].hist) && Legal(Last(a.jobs[id].hist), to)
    ensures exists ev :: Takes(a, used, ev, id, to)
  {
    var from := Last(a.jobs[id].hist);
    assert In(a, id, from);
    hide LegalHistory;
    assert Takes(a, used, RequestFor(a, id, from, to), id, to);
  }

  /** From a state a disciplined request can take a job into exactly the states that the
      life cycle permits: no legal move is idle, and no other is ever made. */
  lemma LegalIff(a: Abs, used: set<JobId>, id: JobId, to: State)
    requires AbsInv(a, used) && id in a.jobs
    ensures |a.jobs[id].hist| > 0
    ensures Legal(Last(a.jobs[id].hist), to) <==> exists ev :: Takes(a, used, ev, id, to)
  {
    var h := a.jobs[id].hist;
    assert LegalHistory(h);
    if Legal(Last(h), to) { LegalMoveIsMade(a, used, id, to); }
    hide Disciplined, Allowed, Apply;
    forall ev | Takes(a, used, ev, id, to) ensures Legal(Last(h), to) {
      AbsStepKeepsLegal(a, used, ev.op, ev.out, id);
      assert (h + [to])[|h| - 1] == Last(h) && (h + [to])[|h|] == to;
    }
  }
}
