/** The tables hold what the log tells: over every basic run each row repeats the job as
    it was handed in, its result, its states in order, its last sign of life, and the
    instant at which it was last written. */
module PostgresChronicle {
  import opened Lifecycle
  import opened Protocol
  import opened PostgresSpec
  import opened Chronicle

  /** A request the tables answer; ids are fresh and jobs are enqueued on their own queue. */
  ghost predicate Granted(s: Tables, used: set<JobId>, ev: Event) {
    Rows(s) && s.jobs.Keys <= used && Allowed(s, ev.op, ev.out) && BasicOp(used, ev.op)
  }

  ghost predicate Run(s: Tables, used: set<JobId>, evs: seq<Event>)
    decreases |evs|
  {
    |evs| == 0
    || (Granted(s, used, evs[0]) && Run(Apply(s, evs[0].op, evs[0].out), UsedAfter(used, evs[0].op), evs[1..]))
  }

  ghost function After(s: Tables, used: set<JobId>, evs: seq<Event>): Tables
    requires Run(s, used, evs)
    decreases |evs|
  {
    if |evs| == 0 then s else After(Apply(s, evs[0].op, evs[0].out), UsedAfter(used, evs[0].op), evs[1..])
  }

  // ----- what a row says beside the tale -----

  /** The instant at which the row was last written. */
  function WriteAfter(last: Time, ev: Event, id: JobId): Time {
    if CreatesIt(ev, id) || SetsItsResult(ev, id) || IsSign(ev, id) || ChangeOf(ev, id).Entered? then Instant(ev.op) else last
  }

  datatype Account = Account(tale: Tale, written: Time, sign: Sign)

  function Accounted(a: Account, ev: Event, id: JobId): Account {
    Account(Continued(a.tale, ev, id), WriteAfter(a.written, ev, id), ProgressAfter(a.sign, ev, id))
  }

  function Reckoned(a: Account, evs: seq<Event>, id: JobId): Account
    decreases |evs|
  {
    if |evs| == 0 then a else Reckoned(Accounted(a, evs[0], id), evs[1..], id)
  }

  const NOTHING := Account(Untold, 0, None)

  lemma {:induction false} TaleOfAccount(a: Account, evs: seq<Event>, id: JobId)
    ensures Reckoned(a, evs, id).tale == Retold(a.tale, evs, id)
    decreases |evs|
  {
    if |evs| > 0 { TaleOfAccount(Accounted(a, evs[0], id), evs[1..], id); }
  }

  ghost predicate Agrees(s: Tables, a: Account, id: JobId) {
    && (a.tale.Untold? <==> id !in s.jobs) && (id in s.jobs <==> id in s.states)
    && (a.tale.Tale? ==>
          var row, t := s.jobs[id], a.tale;
          && |t.history| > 0 && s.states[id] == Names(t.history) && row.state == Last(t.history).name
          && row.name == t.job.name && row.queue == QueueOrDefault(t.job.queue)
          && row.retryMax == EffectiveRetryMax(t.job.retryMax)
          && row.result == (if t.result.Result? then t.result.bytes else [])
          && row.updated == a.written
          && row.progress == if a.sign.Heard? then Beat(a.sign.at) else Null)
  }

  // ----- one request -----

  lemma CreationAgrees(s: Tables, used: set<JobId>, ev: Event, a: Account, id: JobId)
    requires Granted(s, used, ev) && Agrees(s, a, id) && Creates(ev.op)
    ensures Agrees(Apply(s, ev.op, ev.out), Accounted(a, ev, id), id)
  {
  }

  /** One row set, with its history row. */
  lemma SetAgrees(s: Tables, u: Tables, ev: Event, x: JobId, state: State, progress: Progress, now: Time, a: Account, id: JobId)
    requires Agrees(s, a, id) && x in s.jobs && x in s.states
    requires u.jobs == Set(s, x, state, progress, now).jobs && u.states == Set(s, x, state, progress, now).states
    requires !Creates(ev.op) && !ev.out.Removed? && !ev.op.SetJobResult? && !ev.op.HeartbeatJob? && Instant(ev.op) == now
    requires ChangeOf(ev, id) == if x == id then Entered(state, now) else Unchanged
    requires x == id ==> progress == (if ProgressAfter(a.sign, ev, id).Heard? then Beat(ProgressAfter(a.sign, ev, id).at) else Null)
    requires x != id ==> !IsSign(ev, id)
    ensures Agrees(u, Accounted(a, ev, id), id)
  {
    hide ChangeOf, IsSign;
    if a.tale.Tale? && x == id { NamesAppend(a.tale.history, Entry(state, now)); }
  }

  lemma NothingNew(s: Tables, u: Tables, ev: Event, a: Account, id: JobId)
    requires Agrees(s, a, id) && u.jobs == s.jobs && u.states == s.states
    requires !CreatesIt(ev, id) && !ErasesIt(ev, id) && !SetsItsResult(ev, id) && !IsSign(ev, id) && ChangeOf(ev, id) == Unchanged
    ensures Agrees(u, Accounted(a, ev, id), id)
  {
    hide ChangeOf, CreatesIt, ErasesIt, SetsItsResult, IsSign;
  }

  lemma DequeueAgrees(s: Tables, used: set<JobId>, ev: Event, a: Account, id: JobId)
    requires Granted(s, used, ev) && Agrees(s, a, id) && ev.op.Dequeue?
    ensures Agrees(Apply(s, ev.op, ev.out), Accounted(a, ev, id), id)
  {
    hide Agrees, Accounted, Set;
    var u := Apply(s, ev.op, ev.out);
    if ev.out.Ticket? {
      SetAgrees(s, u, ev, ev.out.id, Processing, Beat(ev.op.now), ev.op.now, a, id);
    } else {
      NothingNew(s, u, ev, a, id);
    }
  }

  lemma ProgressIsKept(s: Tables, a: Account, id: JobId)
    requires Agrees(s, a, id) && id in s.jobs
    ensures s.jobs[id].progress == if a.sign.Heard? then Beat(a.sign.at) else Null
  {
  }

  lemma MoveAgrees(s: Tables, used: set<JobId>, ev: Event, a: Account, id: JobId)
    requires Granted(s, used, ev) && Agrees(s, a, id)
    requires ev.op.Requeue? || ev.op.ApplyState? || ev.op.ScheduleRetry? || ev.op.DeleteJob?
    ensures Agrees(Apply(s, ev.op, ev.out), Accounted(a, ev, id), id)
  {
    hide Agrees, Accounted, Set, Irreversible;
    var u := Apply(s, ev.op, ev.out);
    if ev.out.Done? {
      var x := ev.op.id;
      var state := if ev.op.Requeue? then Enqueued else if ev.op.ApplyState? then ev.op.next
        else if ev.op.ScheduleRetry? then Scheduled else Deleted;
      if x == id { ProgressIsKept(s, a, id); }
      SetAgrees(s, u, ev, x, state, if ev.op.ScheduleRetry? then s.jobs[x].progress else Null, ev.op.now, a, id);
    } else {
      NothingNew(s, u, ev, a, id);
    }
  }

  lemma PromotionAgrees(s: Tables, used: set<JobId>, ev: Event, a: Account, id: JobId)
    requires Granted(s, used, ev) && Agrees(s, a, id) && ev.op.GetDueScheduled?
    ensures Agrees(Apply(s, ev.op, ev.out), Accounted(a, ev, id), id)
  {
    hide Selected;
    if a.tale.Tale? { NamesAppend(a.tale.history, Entry(Enqueued, ev.op.now)); }
  }

  lemma ExpiryAgrees(s: Tables, used: set<JobId>, ev: Event, a: Account, id: JobId)
    requires Granted(s, used, ev) && Agrees(s, a, id) && ev.op.RemoveExpired?
    ensures Agrees(Apply(s, ev.op, ev.out), Accounted(a, ev, id), id)
  {
    hide AllExpired;
  }

  lemma WriteAgrees(s: Tables, used: set<JobId>, ev: Event, a: Account, id: JobId)
    requires Granted(s, used, ev) && Agrees(s, a, id) && (ev.op.SetJobResult? || ev.op.HeartbeatJob? || ev.op.AddContinuation?)
    ensures Agrees(Apply(s, ev.op, ev.out), Accounted(a, ev, id), id)
  {
  }

  lemma StepAgrees(s: Tables, used: set<JobId>, ev: Event, a: Account, id: JobId)
    requires Granted(s, used, ev) && Agrees(s, a, id)
    ensures Agrees(Apply(s, ev.op, ev.out), Accounted(a, ev, id), id)
  {
    hide Apply, Accounted, Agrees, Granted;
    match ev.op
    case Enqueue(_, _, _, _) => CreationAgrees(s, used, ev, a, id);
    case AddScheduled(_, _, _, _) => CreationAgrees(s, used, ev, a, id);
    case Dequeue(_, _) => DequeueAgrees(s, used, ev, a, id);
    case GetDueScheduled(_, _) => PromotionAgrees(s, used, ev, a, id);
    case RemoveExpired(_) => ExpiryAgrees(s, used, ev, a, id);
    case SetJobResult(_, _, _) => WriteAgrees(s, used, ev, a, id);
    case HeartbeatJob(_, _) => WriteAgrees(s, used, ev, a, id);
    case AddContinuation(_, _) => WriteAgrees(s, used, ev, a, id);
    case _ => MoveAgrees(s, used, ev, a, id);
  }

  // ----- runs -----

  lemma {:induction false} RunIsTold(s: Tables, used: set<JobId>, evs: seq<Event>, a: Account, id: JobId)
    requires Run(s, used, evs) && Agrees(s, a, id)
    ensures Agrees(After(s, used, evs), Reckoned(a, evs, id), id)
    decreases |evs|
  {
    if |evs| > 0 {
      hide Agrees, Accounted, Apply, Rows, Allowed;
      StepAgrees(s, used, evs[0], a, id);
      RunIsTold(Apply(s, evs[0].op, evs[0].out), UsedAfter(used, evs[0].op), evs[1..], Accounted(a, evs[0], id), id);
    }
  }

  /** In every basic run from the empty tables, the row of a job says exactly what the
      log tells, and there is none if it was never created or was erased. */
  lemma TablesTellTheTale(evs: seq<Event>, id: JobId)
    requires Run(EMPTY, {}, evs)
    ensures Agrees(After(EMPTY, {}, evs), Reckoned(NOTHING, evs, id), id)
    ensures Reckoned(NOTHING, evs, id).tale == Told(evs, id)
  {
    RunIsTold(EMPTY, {}, evs, NOTHING, id);
    TaleOfAccount(NOTHING, evs, id);
  }

  /** Every request that names one job is answered as its tale says. */
  lemma AnswersAreTold(evs: seq<Event>, op: Op, out: Outcome)
    requires Run(EMPTY, {}, evs) && NamesOne(op) && Allowed(After(EMPTY, {}, evs), op, out)
    ensures var t := Told(evs, op.id);
      (t.Tale? ==> |t.history| > 0) && out == AnswerTo(t, op)
  {
    hide Run, After, Told, Reckoned, Apply;
    TablesTellTheTale(evs, op.id);
  }

  /** A continuation is registered exactly on a job that exists, and on one of the three
      conditions. */
  lemma RegistrationIff(evs: seq<Event>, parent: JobId, entry: Continuation, out: Outcome)
    requires Run(EMPTY, {}, evs) && Allowed(After(EMPTY, {}, evs), Op.AddContinuation(parent, entry), out)
    ensures out == Done || out == Refused(Constraint)
    ensures out == Done <==>
      && Told(evs, parent).Tale?
      && (entry.condition == "OnSucceeded" || entry.condition == "OnFailed" || entry.condition == "OnAny")
  {
    hide Run, After, Told, Reckoned, Apply;
    TablesTellTheTale(evs, parent);
  }

  /** The bytes last stored for a job, or the first 65536 of them, are its result until
      it is erased. */
  lemma ResultIsKept(evs: seq<Event>, i: nat, id: JobId)
    requires Run(EMPTY, {}, evs) && i < |evs| && SetsItsResult(evs[i], id) && Told(evs[..i], id).Tale?
    requires forall j :: i < j < |evs| ==> LeavesResult(evs[j], id)
    ensures var s, bytes := After(EMPTY, {}, evs), evs[i].op.result;
      id in s.jobs && s.jobs[id].result == if |bytes| <= 65536 then bytes else bytes[..65536]
  {
    TablesTellTheTale(evs, id);
    LastResultIsKept(evs, i, id);
    hide Run, After, Told, Reckoned;
  }

  /** The sweep erases exactly the rows in Succeeded, Failed or Deleted that were last
      written before the cutoff. Unlike in memory, a result or a heartbeat counts. */
  lemma SweepIsRetention(evs: seq<Event>, cutoff: Time, out: Outcome, id: JobId)
    requires Run(EMPTY, {}, evs) && Allowed(After(EMPTY, {}, evs), Op.RemoveExpired(cutoff), out)
    ensures out.Removed?
    ensures var a := Reckoned(NOTHING, evs, id);
      id in out.gone <==>
        && a.tale.Tale? && |a.tale.history| > 0 && a.written < cutoff
        && var name := Last(a.tale.history).name; name == Succeeded || name == Failed || name == Deleted
  {
    hide Run, After, Told, Reckoned, Apply;
    TablesTellTheTale(evs, id);
  }

  /** The orphan scan lists exactly the jobs whose last state is Processing and that were
      last heard of before the cutoff. */
  lemma ScanIsSilence(evs: seq<Event>, cutoff: Time, id: JobId)
    requires Run(EMPTY, {}, evs)
    ensures var a := Reckoned(NOTHING, evs, id);
      id in Orphans(After(EMPTY, {}, evs), cutoff) <==>
        && a.tale.Tale? && |a.tale.history| > 0 && Last(a.tale.history).name == Processing
        && a.sign.Heard? && a.sign.at < cutoff
  {
    hide Run, After, Told, Reckoned, Apply;
    TablesTellTheTale(evs, id);
  }

  // ----- continuations -----

  lemma StepRegisters(s: Tables, used: set<JobId>, ev: Event, entries: seq<Continuation>, parent: JobId)
    requires Granted(s, used, ev) && Conts(s, parent) == entries
    ensures Conts(Apply(s, ev.op, ev.out), parent) == RegisteredAfter(entries, ev, parent)
  {
    hide Selected, Oldest, EffectiveRetryMax, Irreversible;
  }

  lemma {:induction false} RunRegisters(s: Tables, used: set<JobId>, evs: seq<Event>, entries: seq<Continuation>, parent: JobId)
    requires Run(s, used, evs) && Conts(s, parent) == entries
    ensures Conts(After(s, used, evs), parent) == Registered(entries, evs, parent)
    decreases |evs|
  {
    hide Conts, RegisteredAfter, Apply, Rows, Allowed;
    if |evs| > 0 {
      StepRegisters(s, used, evs[0], entries, parent);
      RunRegisters(Apply(s, evs[0].op, evs[0].out), UsedAfter(used, evs[0].op), evs[1..], RegisteredAfter(entries, evs[0], parent), parent);
    }
  }

  /** The entries stored for a parent are those registered on it, in order, unless it was
      erased since. */
  lemma EntriesAreRegistered(evs: seq<Event>, parent: JobId)
    requires Run(EMPTY, {}, evs)
    ensures Conts(After(EMPTY, {}, evs), parent) == Registered([], evs, parent)
  {
    RunRegisters(EMPTY, {}, evs, [], parent);
  }
}
