/** A fixed pool of workers settles every job. However the run so far went, as long as
    workers finish what they start, the pool and the scheduler can go on to settle any
    job by themselves: nothing they wait for depends on a worker that is not there. */
module Progress {
  import opened Lifecycle
  import opened Protocol
  import opened AbstractJobs
  import opened Workers
  import opened RetryBudget
  import opened RetryTermination
  import Continuations

  /** Only workers of the pool have anything in hand. */
  ghost predicate InPool(c: Control, pool: set<nat>) {
    forall w :: !At(c, w).Idle? ==> w in pool
  }

  /** What the pool and the scheduler do by themselves. */
  ghost predicate OfPool(act: Act, pool: set<nat>) {
    if act.Env? then act.ev.op.GetDueScheduled? else act.w in pool && !act.Crash?
  }

  ghost predicate AllOfPool(acts: seq<Act>, pool: set<nat>) {
    forall i :: 0 <= i < |acts| ==> OfPool(acts[i], pool)
  }

  /** The acts a worker still has before it is idle: the phase it is in, and in the
      last phase the entries it has not handled. */
  function Ahead(p: Proc): nat {
    match p
    case Idle => 0
    case Spawning(_) => 1
    case Looking(_) => 2
    case Firing(_) => 3
    case _ => 3 + Phase(p)
  }

  function EntriesLeft(c: Control, w: nat): nat {
    var p := At(c, w);
    if p.Spawning? && p.call < |c.calls| && c.calls[p.call].next <= |c.calls[p.call].entries|
    then |c.calls[p.call].entries| - c.calls[p.call].next else 0
  }

  predicate Nearer(c: Control, d: Control, w: nat) {
    Ahead(At(d, w)) < Ahead(At(c, w)) || (Ahead(At(d, w)) == Ahead(At(c, w)) && EntriesLeft(d, w) < EntriesLeft(c, w))
  }

  /** Everything that holds of every crash-free quiet run. */
  ghost predicate GoingWell(sys: Sys, pool: set<nat>) {
    QuietInv(sys) && Cared(sys) && Continuations.FiresInv(sys) && InPool(sys.control, pool)
  }

  lemma ActKeepsGoing(sys: Sys, act: Act, pool: set<nat>)
    requires GoingWell(sys, pool) && Enabled(sys, act) && CrashFree(act) && (act.Env? || act.w in pool)
    ensures GoingWell(Next(sys, act), pool)
  {
    var c := Next(sys, act).control;
    assert InPool(sys.control, pool);
    forall w | !At(c, w).Idle? ensures w in pool {
      if act.Env? || w != act.w { OnlyTheActorMoves(sys.abs, sys.control, act, w); }
    }
    hide QuietInv, Cared, Continuations.FiresInv, Enabled, Next;
    ActKeepsQuiet(sys, act);
    ActKeepsCared(sys, act);
    Continuations.ActKeepsFires(sys, act);
  }

  // ----- a worker comes free -----

  lemma FreshJob(used: set<JobId>) returns (id: JobId)
    ensures id !in used
  {
    var n, rest := 0, used;
    while rest != {}
      invariant rest <= used
      invariant forall x :: x in used && x !in rest ==> x.uuid < n
      decreases |rest|
    {
      var x :| x in rest;
      rest := rest - {x};
      if x.uuid >= n { n := x.uuid + 1; }
    }
    id := JobId(n);
  }

  lemma FiringGoesOn(sys: Sys, w: nat) returns (act: Act)
    requires Continuations.WorkerOk(sys.control, w)
    requires At(sys.control, w).Firing? || At(sys.control, w).Looking?
    ensures Enabled(sys, act) && CrashFree(act) && !act.Env? && act.w == w
    ensures Nearer(sys.control, Next(sys, act).control, w)
  {
    act := if At(sys.control, w).Firing? then Read(w) else Look(w);
  }

  lemma SpawningGoesOn(sys: Sys, w: nat) returns (act: Act)
    requires Continuations.WorkerOk(sys.control, w) && At(sys.control, w).Spawning?
    requires var call := sys.control.calls[At(sys.control, w).call]; call.next <= |call.entries|
    ensures Enabled(sys, act) && CrashFree(act) && !act.Env? && act.w == w
    ensures Nearer(sys.control, Next(sys, act).control, w)
  {
    var call := sys.control.calls[At(sys.control, w).call];
    if call.next == |call.entries| {
      act := Close(w);
    } else if Matches(call.state, call.entries[call.next].condition) {
      var child := FreshJob(sys.used);
      act := Spawn(w, child, 0, Created(child));
    } else {
      act := Skip(w);
    }
  }

  lemma HolderGoesOn(sys: Sys, w: nat) returns (act: Act)
    requires Continuations.WorkerOk(sys.control, w) && Phase(At(sys.control, w)) > 0
    ensures Enabled(sys, act) && CrashFree(act) && !act.Env? && act.w == w
    ensures Nearer(sys.control, Next(sys, act).control, w)
  {
    var p := At(sys.control, w);
    var missing := p.id !in sys.abs.jobs;
    var saved := if missing then Refused(NotFound) else Done;
    var expected := if p.Settling? then Failed else Processing;
    var stored := if missing then Refused(NotFound) else if In(sys.abs, p.id, expected) then Done else Refused(StateConflict);
    act := match p
      case Taken(_, _) => Load(w)
      case Running(_, _, _, _) => Return(w, Failure)
      case Saving(_, _, _, _, _) => Save(w, 0, saved)
      case Finishing(_, _, _, _, _) => Finish(w, 0, stored)
      case _ => Settle(w, 0, 0, stored);
  }

  /** A worker that is not idle can go on, and gets nearer to being idle. */
  lemma WorkerGoesOn(sys: Sys, w: nat) returns (act: Act)
    requires Continuations.FiresInv(sys) && !At(sys.control, w).Idle?
    ensures Enabled(sys, act) && CrashFree(act) && !act.Env? && act.w == w
    ensures Nearer(sys.control, Next(sys, act).control, w)
  {
    var p := At(sys.control, w);
    assert Continuations.WorkerOk(sys.control, w);
    assert p.Spawning? ==> Continuations.Faithful(sys.used, sys.control.calls[p.call]);
    hide Continuations.FiresInv, Continuations.WorkerOk, Enabled, Next, Nearer, CrashFree;
    if p.Firing? || p.Looking? {
      act := FiringGoesOn(sys, w);
    } else if p.Spawning? {
      act := SpawningGoesOn(sys, w);
    } else {
      act := HolderGoesOn(sys, w);
    }
  }

  // ----- towards one job -----

  /** The next act of the pool, or of the scheduler, towards settling a job. With one
      worker in mind for a queued job, it lowers the job's rank, or leaves the rank
      alone and brings that worker nearer to being idle. */
  lemma PoolGoesOn(sys: Sys, pool: set<nat>, w: nat, id: JobId) returns (act: Act)
    requires GoingWell(sys, pool) && w in pool && id in sys.abs.jobs && !Stuck(sys.abs, id)
    ensures Enabled(sys, act) && CrashFree(act) && OfPool(act, pool)
    ensures Concerns(sys, act, id) || Nearer(sys.control, Next(sys, act).control, w)
  {
    PlaceOnPath(sys.abs.jobs[id].hist, Budget(sys.abs.jobs[id].retryMax));
    hide Concerns, Enabled, Next, QuietInv, Continuations.FiresInv, Nearer;
    if In(sys.abs, id, Enqueued) {
      if At(sys.control, w).Idle? {
        act := IdleTakesIt(sys, w, id);
      } else {
        act := WorkerGoesOn(sys, w);
      }
    } else if In(sys.abs, id, Scheduled) {
      act := ScheduledCanBePromoted(sys, id);
    } else {
      assert Processed(sys.control, id) || BeingSettled(sys.control, id);
      var v :| Holds(At(sys.control, v), id);
      act := HolderCanAct(sys, id, v);
    }
  }

  lemma IdleTakesIt(sys: Sys, w: nat, id: JobId) returns (act: Act)
    requires In(sys.abs, id, Enqueued) && At(sys.control, w).Idle?
    ensures CanAct(sys, id, act) && !act.Env? && act.w == w
  {
    act := Poll(w, [sys.abs.jobs[id].queue], 0, Ticket(id));
  }

  predicate Settled(a: Abs, id: JobId) {
    id in a.jobs ==> Stuck(a, id)
  }

  lemma RankNeverRises(sys: Sys, act: Act, id: JobId)
    requires QuietInv(sys) && Enabled(sys, act) && CrashFree(act) && id in sys.abs.jobs
    ensures 0 <= Rank(Next(sys, act), id) <= Rank(sys, id)
    ensures Concerns(sys, act, id) ==> Rank(Next(sys, act), id) < Rank(sys, id)
  {
    RankFalls(sys, act, id);
    ActKeepsQuiet(sys, act);
    RankIsPositive(Next(sys, act), id);
    hide QuietInv, Enabled, Next, Rank, Concerns;
  }

  /** The pool and the scheduler alone can settle the job. */
  lemma {:induction false} PoolSettles(sys: Sys, pool: set<nat>, w: nat, id: JobId) returns (acts: seq<Act>)
    requires GoingWell(sys, pool) && w in pool
    ensures Run(sys, acts) && AllOfPool(acts, pool) && Settled(After(sys, acts).abs, id)
    decreases Rank(sys, id) + 1, Ahead(At(sys.control, w)), EntriesLeft(sys.control, w)
  {
    acts := [];
    if id in sys.abs.jobs && !Stuck(sys.abs, id) {
      var act := PoolGoesOn(sys, pool, w, id);
      var next := Next(sys, act);
      ActKeepsGoing(sys, act, pool);
      RankNeverRises(sys, act, id);
      hide GoingWell, Enabled, Next, Rank, Concerns, OfPool, Stuck;
      var rest := PoolSettles(next, pool, w, id);
      acts := [act] + rest;
      assert acts[1..] == rest;
    }
  }

  // ----- from the start -----

  ghost predicate AllInPool(acts: seq<Act>, pool: set<nat>) {
    forall i :: 0 <= i < |acts| ==> acts[i].Env? || acts[i].w in pool
  }

  lemma {:induction false} RunsKeepGoing(sys: Sys, acts: seq<Act>, pool: set<nat>)
    requires GoingWell(sys, pool) && Run(sys, acts) && AllCrashFree(acts) && AllInPool(acts, pool)
    ensures GoingWell(After(sys, acts), pool)
    decreases |acts|
  {
    if |acts| > 0 {
      assert CrashFree(acts[0]) && (acts[0].Env? || acts[0].w in pool);
      assert AllCrashFree(acts[1..]) && AllInPool(acts[1..], pool);
      hide GoingWell, Enabled, Next, CrashFree;
      ActKeepsGoing(sys, acts[0], pool);
      RunsKeepGoing(Next(sys, acts[0]), acts[1..], pool);
    }
  }

  /** After every run of a non-empty pool in which no worker died and nobody requeued or
      deleted, and for every job: the pool and the scheduler can settle it by themselves. */
  lemma EveryJobCanBeSettled(before: seq<Act>, pool: set<nat>, id: JobId) returns (acts: seq<Act>)
    requires Run(START, before) && AllCrashFree(before) && AllInPool(before, pool) && pool != {}
    ensures Run(After(START, before), acts) && AllOfPool(acts, pool)
    ensures Settled(After(After(START, before), acts).abs, id)
  {
    StartIsQuiet();
    Continuations.StartFires();
    assert GoingWell(START, pool);
    var w :| w in pool;
    hide GoingWell, Enabled, Next, Settled;
    RunsKeepGoing(START, before, pool);
    acts := PoolSettles(After(START, before), pool, w, id);
  }
}
