/** Workers over a concrete backend. Every disciplined run of any number of workers
    over the in-memory store or over the Postgres tables is a run over the abstract
    machine, so what holds there holds of both. */
module Backends {
  import opened Lifecycle
  import opened Protocol
  import A = AbstractJobs
  import M = MemorySpec
  import MR = MemoryRefinement
  import P = PostgresSpec
  import PR = PostgresRefinement
  import W = Workers
  import Continuations
  import Custody
  import RetryBound
  import RetryTermination

  datatype Backend = InMemory(store: M.Store) | Postgres(tables: P.Tables)

  function View(b: Backend): A.Abs {
    match b
    case InMemory(store) => MR.AbsOf(store)
    case Postgres(tables) => PR.AbsOf(tables)
  }

  /** The backend's own redundancy is in order. */
  ghost predicate Sound(b: Backend) {
    match b
    case InMemory(store) => M.WellFormed(store) && MR.Placed(store)
    case Postgres(tables) => P.Rows(tables) && P.Consistent(tables)
  }

  ghost predicate Allowed(b: Backend, ev: Event) {
    match b
    case InMemory(store) => M.WellFormed(store) && M.Allowed(store, ev.op, ev.out)
    case Postgres(tables) => P.Rows(tables) && P.Allowed(tables, ev.op, ev.out)
  }

  ghost function Apply(b: Backend, ev: Event): Backend
    requires Allowed(b, ev)
  {
    match b
    case InMemory(store) => InMemory(M.Apply(store, ev.op, ev.out))
    case Postgres(tables) => Postgres(P.Apply(tables, ev.op, ev.out))
  }

  lemma JobsAgree(b: Backend)
    requires Sound(b)
    ensures b.InMemory? ==> View(b).jobs.Keys == b.store.jobs.Keys
    ensures b.Postgres? ==> View(b).jobs.Keys == b.tables.jobs.Keys
  {
  }

  /** One disciplined request, whichever backend serves it. */
  lemma RequestRefines(b: Backend, used: set<JobId>, ev: Event)
    requires Sound(b) && Allowed(b, ev) && View(b).jobs.Keys <= used && A.Disciplined(View(b), used, ev.op)
    ensures Sound(Apply(b, ev))
    ensures A.Allowed(View(b), ev.op, ev.out) && View(Apply(b, ev)) == A.Apply(View(b), ev.op, ev.out)
  {
    JobsAgree(b);
    hide MR.AbsOf, PR.AbsOf, M.WellFormed, MR.Placed, P.Consistent, M.Apply, P.Apply, M.Allowed, P.Allowed, A.Apply, A.Allowed, A.Disciplined;
    match b
    case InMemory(store) =>
      MR.MemoryRefines(store, used, ev);
    case Postgres(tables) =>
      PR.PostgresRefines(tables, used, ev);
      P.ApplyKeepsRows(tables, ev.op, ev.out);
  }

  // ----- workers on a backend -----

  datatype Cluster = Cluster(backend: Backend, used: set<JobId>, control: W.Control)

  const ON_MEMORY := Cluster(InMemory(M.EMPTY), {}, W.Control(map[], []))
  const ON_POSTGRES := Cluster(Postgres(P.EMPTY), {}, W.Control(map[], []))

  function Abstract(c: Cluster): W.Sys {
    W.Sys(View(c.backend), c.used, c.control)
  }

  ghost predicate Enabled(c: Cluster, act: W.Act) {
    && W.Guard(c.control, act)
    && match W.Asks(c.control, act)
       case Silent => true
       case Ask(ev) => Allowed(c.backend, ev) && A.Disciplined(View(c.backend), c.used, ev.op)
  }

  ghost function Next(c: Cluster, act: W.Act): Cluster
    requires Enabled(c, act)
  {
    var control := W.Control'(View(c.backend), c.control, act);
    match W.Asks(c.control, act)
    case Silent => Cluster(c.backend, c.used, control)
    case Ask(ev) => Cluster(Apply(c.backend, ev), UsedAfter(c.used, ev.op), control)
  }

  ghost predicate Run(c: Cluster, acts: seq<W.Act>)
    decreases |acts|
  {
    |acts| == 0 || (Enabled(c, acts[0]) && Run(Next(c, acts[0]), acts[1..]))
  }

  ghost function After(c: Cluster, acts: seq<W.Act>): Cluster
    requires Run(c, acts)
    decreases |acts|
  {
    if |acts| == 0 then c else After(Next(c, acts[0]), acts[1..])
  }

  lemma OneAct(c: Cluster, act: W.Act, rest: seq<W.Act>)
    requires Enabled(c, act) && Run(Next(c, act), rest)
    ensures Run(c, [act] + rest) && After(c, [act] + rest) == After(Next(c, act), rest)
  {
    hide Enabled, Next;
    assert ([act] + rest)[1..] == rest;
  }

  lemma {:induction false} RunMore(c: Cluster, acts: seq<W.Act>, act: W.Act)
    requires Run(c, acts) && Enabled(After(c, acts), act)
    ensures Run(c, acts + [act]) && After(c, acts + [act]) == Next(After(c, acts), act)
    decreases |acts|
  {
    hide Enabled, Next;
    if |acts| == 0 {
      assert [] + [act] == [act];
    } else {
      RunMore(Next(c, acts[0]), acts[1..], act);
      assert (acts + [act])[1..] == acts[1..] + [act];
    }
  }

  lemma {:induction false} RunConcat(c: Cluster, acts: seq<W.Act>, more: seq<W.Act>)
    requires Run(c, acts) && Run(After(c, acts), more)
    ensures Run(c, acts + more) && After(c, acts + more) == After(After(c, acts), more)
    decreases |acts|
  {
    hide Enabled, Next;
    if |acts| == 0 {
      assert [] + more == more;
    } else {
      RunConcat(Next(c, acts[0]), acts[1..], more);
      assert (acts + more)[1..] == acts[1..] + more;
    }
  }

  ghost predicate Inv(c: Cluster) {
    Sound(c.backend) && A.AbsInv(View(c.backend), c.used)
  }

  lemma ActRefines(c: Cluster, act: W.Act)
    requires Inv(c) && Enabled(c, act)
    ensures Inv(Next(c, act))
    ensures W.Enabled(Abstract(c), act) && W.Next(Abstract(c), act) == Abstract(Next(c, act))
  {
    hide View, Sound, Allowed, Apply, A.Apply, A.Allowed, A.Disciplined, W.Control';
    var asked := W.Asks(c.control, act);
    if asked.Ask? {
      RequestRefines(c.backend, c.used, asked.ev);
      A.AbsStepKeepsInv(View(c.backend), c.used, asked.ev.op, asked.ev.out);
    }
  }

  /** The run-level refinement: same acts, same workers, and the store seen through
      the abstraction is the abstract store. */
  lemma {:induction false} RunRefines(c: Cluster, acts: seq<W.Act>)
    requires Inv(c) && Run(c, acts)
    ensures Inv(After(c, acts))
    ensures W.Run(Abstract(c), acts) && W.After(Abstract(c), acts) == Abstract(After(c, acts))
    decreases |acts|
  {
    hide Inv, Enabled, Next, W.Enabled, W.Next, Abstract;
    if |acts| > 0 {
      ActRefines(c, acts[0]);
      RunRefines(Next(c, acts[0]), acts[1..]);
    }
  }

  predicate Fresh(c: Cluster) {
    c == ON_MEMORY || c == ON_POSTGRES
  }

  lemma FreshIsStart(c: Cluster)
    requires Fresh(c)
    ensures Inv(c) && Abstract(c) == W.START
  {
    if c == ON_MEMORY { MR.EmptyIsPlaced(); } else { PR.EmptyIsConsistent(); }
  }

  /** From an empty backend every run is an abstract run from the start. */
  lemma RunIsAbstract(c: Cluster, acts: seq<W.Act>)
    requires Fresh(c) && Run(c, acts)
    ensures Inv(After(c, acts))
    ensures W.Run(W.START, acts) && W.After(W.START, acts) == Abstract(After(c, acts))
  {
    FreshIsStart(c);
    RunRefines(c, acts);
    hide *;
  }

  // ----- what follows for both backends -----

  lemma {:induction false} StaysInMemory(c: Cluster, acts: seq<W.Act>)
    requires Run(c, acts)
    ensures After(c, acts).backend.InMemory? == c.backend.InMemory?
    decreases |acts|
  {
    if |acts| > 0 {
      assert Next(c, acts[0]).backend.InMemory? == c.backend.InMemory? by { hide Allowed, W.Control', W.Guard; }
      hide Enabled, Next;
      StaysInMemory(Next(c, acts[0]), acts[1..]);
    }
  }

  /** In every disciplined run each in-memory job is in exactly the place its current
      state names, its history is legal, and no dequeue meets a missing job. */
  lemma EveryJobInItsPlace(acts: seq<W.Act>, queues: seq<Queue>, now: Time, out: Outcome)
    requires Run(ON_MEMORY, acts)
    ensures After(ON_MEMORY, acts).backend.InMemory?
    ensures var s := After(ON_MEMORY, acts).backend.store;
      && M.WellFormed(s) && MR.Placed(s)
      && (forall id :: id in s.states ==> LegalHistory(Names(s.states[id])))
      && (M.Allowed(s, Op.Dequeue(queues, now), out) ==> !out.Missing?)
  {
    RunIsAbstract(ON_MEMORY, acts);
    StaysInMemory(ON_MEMORY, acts);
    var s := After(ON_MEMORY, acts).backend.store;
    assert M.WellFormed(s) && MR.Placed(s);
    if M.Allowed(s, Op.Dequeue(queues, now), out) {
      MR.DequeueSimulates(s, Event(Op.Dequeue(queues, now), out));
    }
    forall id | id in s.states ensures LegalHistory(Names(s.states[id])) {
      MR.ReadsAgree(s, id);
      assert MR.AbsOf(s).jobs[id].hist == Names(s.states[id]);
    }
  }

  /** The tables of every disciplined run: the state column repeats the last history
      row, schedule rows belong to Scheduled jobs, Processing has a heartbeat, and
      every history is legal. */
  lemma TablesStayConsistent(acts: seq<W.Act>)
    requires Run(ON_POSTGRES, acts)
    ensures After(ON_POSTGRES, acts).backend.Postgres?
    ensures var s := After(ON_POSTGRES, acts).backend.tables;
      P.Consistent(s) && forall id :: id in s.states ==> LegalHistory(s.states[id])
  {
    RunIsAbstract(ON_POSTGRES, acts);
    StaysInMemory(ON_POSTGRES, acts);
    var s := After(ON_POSTGRES, acts).backend.tables;
    forall id | id in s.states ensures LegalHistory(s.states[id]) {
      assert PR.AbsOf(s).jobs[id].hist == s.states[id];
    }
  }

  /** On either backend: one firing per parent, never while a retry is scheduled, and
      one child per matching entry that firing read. */
  lemma BackendFiresOnce(c: Cluster, acts: seq<W.Act>, i: nat, j: nat)
    requires Fresh(c) && Run(c, acts)
    requires i < |After(c, acts).control.calls| && j < |After(c, acts).control.calls|
    ensures var end := After(c, acts);
      var call := end.control.calls[i];
      && (end.control.calls[j].parent == call.parent ==> i == j)
      && call.parent !in View(end.backend).due
      && (call.parent in View(end.backend).jobs ==> A.Stuck(View(end.backend), call.parent))
      && (call.done ==>
            && Continuations.ReadInRun(acts, i, call.entries)
            && Continuations.FiredFaithfully(View(end.backend), end.used, call)
            && exists picks :: Continuations.FiredFor(call, picks))
  {
    RunIsAbstract(c, acts);
    hide Fresh, Run, View, W.Run, A.Stuck, Continuations.FiredFaithfully, Continuations.ReadInRun, Continuations.FiredFor;
    Continuations.ContinuationsFireOnce(acts, i, j);
  }

  /** Every successful requeue is the recovery of a processing job that nobody runs. */
  ghost predicate AllRecover(c: Cluster, acts: seq<W.Act>)
    requires Run(c, acts)
    decreases |acts|
  {
    |acts| == 0 || (RetryBound.Recovers(Abstract(c), acts[0]) && AllRecover(Next(c, acts[0]), acts[1..]))
  }

  lemma {:induction false} RecoveriesRefine(c: Cluster, acts: seq<W.Act>)
    requires Inv(c) && Run(c, acts) && AllRecover(c, acts)
    ensures W.Run(Abstract(c), acts) && RetryBound.AllRecover(Abstract(c), acts)
    decreases |acts|
  {
    hide Inv, Enabled, Next, W.Enabled, W.Next, Abstract, RetryBound.Recovers;
    if |acts| > 0 {
      ActRefines(c, acts[0]);
      RecoveriesRefine(Next(c, acts[0]), acts[1..]);
    }
  }

  /** On either backend, crashes, deletes and recoveries included: as long as nothing but
      a processing job that nobody runs is requeued, no job fails more often than its
      budget, and no two workers run it or settle it at once. */
  lemma BackendFailsWithinBudget(c: Cluster, acts: seq<W.Act>, id: JobId)
    requires Fresh(c) && Run(c, acts) && AllRecover(c, acts) && id in View(After(c, acts).backend).jobs
    ensures var end := After(c, acts);
      && Count(View(end.backend).jobs[id].hist, Failed) <= Budget(View(end.backend).jobs[id].retryMax)
      && Custody.OneRunner(end.control) && RetryBound.OneSettler(end.control)
  {
    RunIsAbstract(c, acts);
    FreshIsStart(c);
    RecoveriesRefine(c, acts);
    hide Fresh, Run, View, W.Run, AllRecover, RetryBound.AllRecover, Custody.OneRunner, RetryBound.OneSettler;
    RetryBound.FailuresWithinBudget(acts, id);
  }

  /** On either backend: a job that exists is acted on a bounded number of times more,
      whatever the handlers do, as long as workers finish what they start. */
  lemma BackendRetriesTerminate(c: Cluster, before: seq<W.Act>, acts: seq<W.Act>, id: JobId)
    requires Fresh(c) && Run(c, before) && RetryTermination.AllCrashFree(before)
    requires Run(After(c, before), acts) && RetryTermination.AllCrashFree(acts)
    requires id in View(After(c, before).backend).jobs
    ensures W.Run(Abstract(After(c, before)), acts)
    ensures RetryTermination.ConcernCount(Abstract(After(c, before)), acts, id)
      <= 32 * Budget(View(After(c, before).backend).jobs[id].retryMax) + 13
  {
    RunIsAbstract(c, before);
    RunRefines(After(c, before), acts);
    hide Fresh, Run, View, W.Run, Inv, RetryTermination.AllCrashFree, RetryTermination.ConcernCount, RetryTermination.CanAct;
    RetryTermination.RetriesTerminate(before, acts, id);
  }
}
