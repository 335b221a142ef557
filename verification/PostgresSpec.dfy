/** The Postgres backend as tables: one row per job with its current state, one
    history row per state change, one row per scheduled job. There is no queue: a
    dequeue selects by the state column. Each transaction is one atomic step
    (internal/storage/postgres). */
module PostgresSpec {
  import opened Lifecycle
  import opened Protocol
  import opened DueSelection
  import A = AbstractJobs

  datatype Progress = Null | Beat(at: Time)

  datatype Row = Row(name: string, queue: Queue, retryMax: int, state: State, token: int, progress: Progress, updated: Time, result: seq<bv8>)

  datatype Tables = Tables(
    jobs: map<JobId, Row>,
    states: map<JobId, seq<State>>,
    scheduled: map<JobId, Time>,
    continuations: map<JobId, seq<Continuation>>,
    nextToken: int)

  const EMPTY := Tables(map[], map[], map[], map[], 0)

  /** In disciplined runs the state column repeats the last history row, a job has a
      schedule row exactly while it is Scheduled, and processing implies progress. */
  ghost predicate Consistent(s: Tables) {
    && (forall id :: id in s.jobs <==> id in s.states)
    && (forall id :: id in s.states ==> |s.states[id]| > 0 && Last(s.states[id]) == s.jobs[id].state)
    && (forall id :: id in s.scheduled <==> id in s.jobs && s.jobs[id].state == Scheduled)
    && (forall id :: id in s.jobs && s.jobs[id].state == Processing ==> s.jobs[id].progress.Beat?)
  }

  predicate Has(s: Tables, id: JobId, state: State) {
    id in s.jobs && s.jobs[id].state == state
  }

  /** The foreign keys: every row of another table belongs to a job. */
  predicate Rows(s: Tables) {
    s.states.Keys == s.jobs.Keys && s.scheduled.Keys <= s.jobs.Keys
  }

  function Insert(s: Tables, id: JobId, name: string, queue: Queue, retryMax: int, state: State, now: Time): Tables {
    s.(jobs := s.jobs[id := Row(name, queue, EffectiveRetryMax(retryMax), state, s.nextToken, Null, now, [])],
       states := s.states[id := [state]],
       nextToken := s.nextToken + 1)
  }

  /** An update of one job row together with its history row. */
  function Set(s: Tables, id: JobId, state: State, progress: Progress, now: Time): Tables
    requires id in s.jobs && id in s.states
  {
    s.(jobs := s.jobs[id := s.jobs[id].(state := state, progress := progress, updated := now)],
       states := s.states[id := s.states[id] + [state]])
  }

  predicate Candidate(s: Tables, queues: seq<Queue>, id: JobId) {
    Has(s, id, Enqueued) && s.jobs[id].queue in queues
  }

  /** The oldest candidate by queue token. */
  ghost predicate Oldest(s: Tables, queues: seq<Queue>, id: JobId) {
    Candidate(s, queues, id) && forall x :: Candidate(s, queues, x) ==> s.jobs[id].token <= s.jobs[x].token
  }

  predicate Due(s: Tables, now: Time, id: JobId) {
    IsDue(s.scheduled, now, id)
  }

  ghost predicate Selected(s: Tables, now: Time, batch: int, ids: seq<JobId>) {
    EarliestDue(s.scheduled, now, Limit(batch), ids)
  }

  function PromotedRow(row: Row, now: Time): Row {
    row.(state := Enqueued, updated := now)
  }

  function PromoteAll(s: Tables, ids: seq<JobId>, now: Time): Tables {
    s.(jobs := map id | id in s.jobs :: if id in ids then PromotedRow(s.jobs[id], now) else s.jobs[id],
       states := map id | id in s.states :: if id in ids then s.states[id] + [Enqueued] else s.states[id],
       scheduled := map id | id in s.scheduled && id !in ids :: s.scheduled[id])
  }

  lemma PromoteNone(s: Tables, now: Time)
    ensures PromoteAll(s, [], now) == s
  {
    assert PromoteAll(s, [], now).jobs == s.jobs && PromoteAll(s, [], now).states == s.states;
    assert PromoteAll(s, [], now).scheduled == s.scheduled;
  }

  /** The statements of one round of the promotion loop. */
  lemma PromoteOneMore(s: Tables, ids: seq<JobId>, i: nat, now: Time)
    requires Rows(s) && i < |ids| && Distinct(ids) && ids[i] in s.scheduled
    ensures var t, id := PromoteAll(s, ids[..i], now), ids[i];
      id in t.jobs && id in t.states &&
      PromoteAll(s, ids[..i + 1], now) == Set(t, id, Enqueued, t.jobs[id].progress, now).(scheduled := t.scheduled - {id})
  {
    var t, id, u := PromoteAll(s, ids[..i], now), ids[i], PromoteAll(s, ids[..i + 1], now);
    assert ids[..i + 1] == ids[..i] + [id] && id !in ids[..i];
    var v := Set(t, id, Enqueued, t.jobs[id].progress, now).(scheduled := t.scheduled - {id});
    assert u.jobs == v.jobs;
    assert u.states == v.states;
    assert u.scheduled == v.scheduled;
  }

  predicate Expired(s: Tables, cutoff: Time, id: JobId) {
    id in s.jobs && Expirable(s.jobs[id].state) && s.jobs[id].updated < cutoff
  }

  function AllExpired(s: Tables, cutoff: Time): set<JobId> {
    set id | id in s.jobs && Expired(s, cutoff, id)
  }

  /** Deleting job rows cascades to the tables that refer to them. */
  function Erase(s: Tables, gone: set<JobId>): Tables {
    s.(jobs := s.jobs - gone, states := s.states - gone, scheduled := s.scheduled - gone, continuations := s.continuations - gone)
  }

  function Conts(s: Tables, parent: JobId): seq<Continuation> {
    if parent in s.continuations then s.continuations[parent] else []
  }

  ghost predicate Allowed(s: Tables, op: Op, out: Outcome) {
    match op
    case Enqueue(_, id, _, _) => out == Created(id)
    case AddScheduled(_, id, _, _) => out == Created(id)
    case Dequeue(queues, _) =>
      || (out.Ticket? && Oldest(s, queues, out.id))
      || (out == Refused(QueueEmpty) && forall id :: !Candidate(s, queues, id))
    case Requeue(id, _) =>
      out == if id !in s.jobs then Refused(NotFound) else if Irreversible(s.jobs[id].state) then Refused(TerminalState) else Done
    case ApplyState(id, expected, _, _) =>
      out == if id !in s.jobs then Refused(NotFound) else if s.jobs[id].state != expected then Refused(StateConflict) else Done
    case ScheduleRetry(id, _, _) =>
      out == if id !in s.jobs then Refused(NotFound) else if s.jobs[id].state != Failed then Refused(StateConflict) else Done
    case SetJobResult(id, _, _) => out == if id in s.jobs then Done else Refused(NotFound)
    case HeartbeatJob(id, _) => out == if id in s.jobs then Done else Refused(NotFound)
    case GetDueScheduled(now, batch) => out.Promoted? && Selected(s, now, batch, out.ids)
    case DeleteJob(id, _) =>
      out == if id !in s.jobs then Refused(NotFound) else if Irreversible(s.jobs[id].state) then Refused(TerminalState) else Done
    case RemoveExpired(cutoff) => out == Removed(AllExpired(s, cutoff))
    case AddContinuation(id, entry) =>
      out == if id in s.jobs && A.KnownCondition(entry.condition) then Done else Refused(Constraint)
  }

  ghost function Apply(s: Tables, op: Op, out: Outcome): Tables
    requires Rows(s) && Allowed(s, op, out)
  {
    if out.Refused? then s else
    match op
    case Enqueue(queue, id, job, now) => Insert(s, id, job.name, QueueOrDefault(queue), job.retryMax, Enqueued, now)
    case AddScheduled(at, id, job, now) =>
      Insert(s, id, job.name, QueueOrDefault(job.queue), job.retryMax, Scheduled, now).(scheduled := s.scheduled[id := at])
    case Dequeue(_, now) => Set(s, out.id, Processing, Beat(now), now)
    case Requeue(id, now) => Set(s, id, Enqueued, Null, now)
    case ApplyState(id, _, next, now) =>
      Set(s, id, next, if next != Processing then Null else s.jobs[id].progress, now)
    case ScheduleRetry(id, at, now) => Set(s, id, Scheduled, s.jobs[id].progress, now).(scheduled := s.scheduled[id := at])
    case SetJobResult(id, result, now) =>
      s.(jobs := s.jobs[id := s.jobs[id].(result := if |result| > RESULT_CAP then result[..RESULT_CAP] else result, updated := now)])
    case HeartbeatJob(id, now) => s.(jobs := s.jobs[id := s.jobs[id].(progress := Beat(now), updated := now)])
    case GetDueScheduled(now, _) => PromoteAll(s, out.ids, now)
    case DeleteJob(id, now) => Set(s, id, Deleted, Null, now)
    case RemoveExpired(_) => Erase(s, out.gone)
    case AddContinuation(id, entry) =>
      s.(continuations := s.continuations[id := Conts(s, id) + [A.Normal(entry)]])
  }

  lemma ApplyKeepsRows(s: Tables, op: Op, out: Outcome)
    requires Rows(s) && Allowed(s, op, out)
    ensures Rows(Apply(s, op, out))
  {
  }

  // ----- orphan recovery -----

  /** Processing with a heartbeat older than the cutoff. */
  predicate Orphan(s: Tables, cutoff: Time, id: JobId) {
    Has(s, id, Processing) && s.jobs[id].progress.Beat? && s.jobs[id].progress.at < cutoff
  }

  function Orphans(s: Tables, cutoff: Time): set<JobId> {
    set id | id in s.jobs && Orphan(s, cutoff, id)
  }

  function RequeuedRow(row: Row, now: Time): Row {
    row.(state := Enqueued, progress := Null, updated := now)
  }

  /** What requeueing a set of jobs leaves behind. */
  function Recovered(s: Tables, ids: set<JobId>, now: Time): Tables {
    s.(jobs := map id | id in s.jobs :: if id in ids then RequeuedRow(s.jobs[id], now) else s.jobs[id],
       states := map id | id in s.states :: if id in ids then s.states[id] + [Enqueued] else s.states[id])
  }

  /** A second sweep at the same instant finds nothing to recover. */
  lemma SecondSweepFindsNothing(s: Tables, cutoff: Time, now: Time)
    ensures Orphans(Recovered(s, Orphans(s, cutoff), now), cutoff) == {}
    ensures Recovered(Recovered(s, Orphans(s, cutoff), now), {}, now) == Recovered(s, Orphans(s, cutoff), now)
  {
    var t := Recovered(s, Orphans(s, cutoff), now);
    forall id ensures !Orphan(t, cutoff, id) {}
    RecoverNone(t, now);
  }

  lemma RecoverNone(s: Tables, now: Time)
    ensures Recovered(s, {}, now) == s
  {
    assert Recovered(s, {}, now).jobs == s.jobs && Recovered(s, {}, now).states == s.states;
  }

  lemma RecoverMore(s: Tables, ids: set<JobId>, id: JobId, now: Time)
    requires id !in ids && id in s.jobs && id in s.states
    ensures Set(Recovered(s, ids, now), id, Enqueued, Null, now) == Recovered(s, ids + {id}, now)
  {
    var t, u := Set(Recovered(s, ids, now), id, Enqueued, Null, now), Recovered(s, ids + {id}, now);
    assert t.jobs == u.jobs;
    assert t.states == u.states;
  }

  lemma RestIsUntouched(s: Tables, ids: set<JobId>, id: JobId, now: Time)
    requires id !in ids && id in s.jobs
    ensures id in Recovered(s, ids, now).jobs && Recovered(s, ids, now).jobs[id] == s.jobs[id]
  {
  }
}
