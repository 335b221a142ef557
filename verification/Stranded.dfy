/** Failures nobody settles. A worker stores a failure in one request and buries or
    reschedules the job in another; if it dies in between, the job stays Failed until
    somebody outside the engine requeues, deletes or erases it. The orphan scan over
    the tables never sees such a job; the one over the in-memory store does. */
module Stranded {
  import opened Lifecycle
  import opened Protocol
  import opened AbstractJobs
  import opened Workers
  import RetryBound
  import SingleJob
  import B = Backends
  import P = PostgresSpec
  import PR = PostgresRefinement

  ghost predicate Stranded(sys: Sys, id: JobId) {
    In(sys.abs, id, Failed) && forall w :: !RetryBound.Settles(sys.control, w, id)
  }

  /** The only worker about to settle the job's failure dies. */
  ghost predicate Strands(sys: Sys, act: Act, id: JobId) {
    && act.Crash? && In(sys.abs, id, Failed) && RetryBound.Settles(sys.control, act.w, id)
    && forall v :: RetryBound.Settles(sys.control, v, id) ==> v == act.w
  }

  /** Somebody outside the engine requeues, deletes or erases the job. */
  ghost predicate Rescues(act: Act, id: JobId) {
    act.Env? && Touches(act.ev, id)
  }

  ghost predicate Step(sys: Sys, act: Act) {
    AbsInv(sys.abs, sys.used) && Enabled(sys, act)
  }

  // ----- one act -----

  /** A failed job that changes is moved by its settler, or from outside. */
  lemma FailedMoves(sys: Sys, act: Act, id: JobId)
    requires Step(sys, act) && In(sys.abs, id, Failed) && Asks(sys.control, act).Ask?
    requires Touches(Asks(sys.control, act).ev, id)
    ensures !In(Next(sys, act).abs, id, Failed)
    ensures Rescues(act, id) || (act.Settle? && RetryBound.Settles(sys.control, act.w, id))
  {
  }

  /** A settler of a failed job moves it. */
  lemma SettlingMoves(sys: Sys, act: Act, id: JobId)
    requires Step(sys, act) && In(sys.abs, id, Failed) && act.Settle? && RetryBound.Settles(sys.control, act.w, id)
    ensures Touches(Asks(sys.control, act).ev, id)
  {
  }

  lemma UntouchedFailed(sys: Sys, act: Act, id: JobId)
    requires Step(sys, act) && (Asks(sys.control, act).Ask? ==> !Touches(Asks(sys.control, act).ev, id))
    ensures In(Next(sys, act).abs, id, Failed) == In(sys.abs, id, Failed)
  {
    if Asks(sys.control, act).Ask? { UntouchedIsSame(sys.abs, Asks(sys.control, act).ev, id); }
    hide Allowed, Apply, Disciplined, AbsInv, Touches;
  }

  /** While the job stays as it is, only a death takes a settler away, and nobody new
      comes to settle it. */
  lemma SettlersStay(sys: Sys, act: Act, id: JobId, w: nat)
    requires Step(sys, act) && In(sys.abs, id, Failed)
    requires Asks(sys.control, act).Ask? ==> !Touches(Asks(sys.control, act).ev, id)
    ensures RetryBound.Settles(Next(sys, act).control, w, id)
      <==> RetryBound.Settles(sys.control, w, id) && !(act.Crash? && act.w == w)
  {
    if act.Env? || act.w != w {
      OnlyTheActorMoves(sys.abs, sys.control, act, w);
    } else {
      ActorSettles(sys, act, id);
    }
    hide Allowed, Apply, Disciplined, AbsInv, Touches;
  }

  lemma ActorSettles(sys: Sys, act: Act, id: JobId)
    requires Step(sys, act) && In(sys.abs, id, Failed) && !act.Env?
    requires Asks(sys.control, act).Ask? ==> !Touches(Asks(sys.control, act).ev, id)
    ensures RetryBound.Settles(Next(sys, act).control, act.w, id)
      <==> RetryBound.Settles(sys.control, act.w, id) && !act.Crash?
  {
    hide AbsInv, Disciplined, Apply;
  }

  /** A job that has just failed is in the hands of the worker that stored the failure. */
  lemma FailureHasItsSettler(sys: Sys, act: Act, id: JobId)
    requires Step(sys, act) && !In(sys.abs, id, Failed) && In(Next(sys, act).abs, id, Failed)
    ensures !Stranded(Next(sys, act), id)
  {
    if !(Asks(sys.control, act).Ask? && Touches(Asks(sys.control, act).ev, id)) {
      UntouchedFailed(sys, act, id);
    } else {
      FailureIsStored(sys, act, id);
      assert RetryBound.Settles(Next(sys, act).control, act.w, id);
    }
    hide Allowed, Apply, Disciplined, AbsInv, Touches;
  }

  lemma FailureIsStored(sys: Sys, act: Act, id: JobId)
    requires Step(sys, act) && In(Next(sys, act).abs, id, Failed)
    requires Asks(sys.control, act).Ask? && Touches(Asks(sys.control, act).ev, id)
    ensures act.Finish? && RetryBound.Settles(Next(sys, act).control, act.w, id)
  {
  }

  /** Exactly how a job comes to be stranded by an act, or stays so. */
  lemma StrandedStepIff(sys: Sys, act: Act, id: JobId)
    requires Step(sys, act)
    ensures Stranded(Next(sys, act), id) <==> Strands(sys, act, id) || (Stranded(sys, id) && !Rescues(act, id))
  {
    var touched := Asks(sys.control, act).Ask? && Touches(Asks(sys.control, act).ev, id);
    hide AbsInv, Enabled, Next, Step, Touches, Asks, Guard;
    if !In(sys.abs, id, Failed) {
      if In(Next(sys, act).abs, id, Failed) { FailureHasItsSettler(sys, act, id); }
    } else if touched {
      FailedMoves(sys, act, id);
      if act.Crash? { CrashAsksNothing(sys.control, act); }
      EnvAsksItself(sys.control, act);
    } else {
      UntouchedFailed(sys, act, id);
      forall w ensures RetryBound.Settles(Next(sys, act).control, w, id)
          <==> RetryBound.Settles(sys.control, w, id) && !(act.Crash? && act.w == w)
      {
        SettlersStay(sys, act, id, w);
      }
      EnvAsksItself(sys.control, act);
    }
  }

  lemma CrashAsksNothing(c: Control, act: Act)
    requires act.Crash?
    ensures Guard(c, act) && Asks(c, act) == Silent
  {
  }

  lemma EnvAsksItself(c: Control, act: Act)
    ensures act.Env? && Guard(c, act) ==> Asks(c, act) == Ask(act.ev)
  {
  }

  // ----- runs -----

  /** At some point of the run its last settler died, and nobody rescued it since. */
  ghost predicate LeftBehind(acts: seq<Act>, id: JobId)
    requires Run(START, acts)
    decreases |acts|
  {
    && |acts| > 0
    && var front := acts[..|acts| - 1];
       && Run(START, front)
       && (Strands(After(START, front), Last(acts), id) || (LeftBehind(front, id) && !Rescues(Last(acts), id)))
  }

  lemma {:induction false} RunKeepsAbsInv(sys: Sys, acts: seq<Act>)
    requires AbsInv(sys.abs, sys.used) && Run(sys, acts)
    ensures AbsInv(After(sys, acts).abs, After(sys, acts).used)
    decreases |acts|
  {
    if |acts| > 0 {
      if Asks(sys.control, acts[0]).Ask? {
        var ev := Asks(sys.control, acts[0]).ev;
        AbsStepKeepsInv(sys.abs, sys.used, ev.op, ev.out);
      }
      hide AbsInv, Allowed, Apply, Disciplined;
      RunKeepsAbsInv(Next(sys, acts[0]), acts[1..]);
    }
  }

  /** Over every disciplined run: a job is Failed with nobody to settle it exactly when
      its last settler died and nobody has requeued, deleted or erased it since. */
  lemma {:induction false} StrandedIff(acts: seq<Act>, id: JobId)
    requires Run(START, acts)
    ensures Stranded(After(START, acts), id) <==> LeftBehind(acts, id)
    decreases |acts|
  {
    if |acts| > 0 {
      var front := acts[..|acts| - 1];
      RunLast(START, acts);
      StrandedIff(front, id);
      RunKeepsAbsInv(START, front);
      hide Stranded, Strands, Rescues, Run, After, Enabled, Next, AbsInv;
      StrandedStepIff(After(START, front), Last(acts), id);
    }
  }

  /** No worker, no scheduler and no recovery of processing jobs ever moves it. */
  lemma {:induction false} StrandedForever(sys: Sys, acts: seq<Act>, id: JobId)
    requires AbsInv(sys.abs, sys.used) && Run(sys, acts) && Stranded(sys, id)
    requires forall i :: 0 <= i < |acts| ==> !Rescues(acts[i], id)
    ensures Stranded(After(sys, acts), id)
    decreases |acts|
  {
    if |acts| > 0 {
      StrandedStepIff(sys, acts[0], id);
      RunKeepsAbsInv(sys, [acts[0]]);
      assert Run(Next(sys, acts[0]), []) && After(sys, [acts[0]]) == Next(sys, acts[0]);
      hide Stranded, Strands, Rescues, Enabled, Next, AbsInv;
      StrandedForever(Next(sys, acts[0]), acts[1..], id);
    }
  }

  /** The coordinator's scan over the tables overlooks it, however long it waits. */
  lemma ScanOverlooks(c: B.Cluster, id: JobId, cutoff: Time)
    requires c.backend.Postgres? && B.Inv(c) && Stranded(B.Abstract(c), id)
    ensures id !in P.Orphans(c.backend.tables, cutoff)
  {
    PR.ReadsAgree(c.backend.tables, id);
    hide PR.AbsOf;
  }

  /** It happens: the worker that stored a failure dies before it buries the job. */
  lemma StrandedIsReachable() returns (sys: Sys)
    ensures SingleJob.Reachable(sys) && Stranded(sys, SingleJob.ID)
  {
    SingleJob.ReachSettling();
    var hist := [Enqueued, Processing, Failed];
    var settling := SingleJob.Stage(hist, map[0 := Settling(SingleJob.ID, 0, 1)], []);
    sys := SingleJob.Stage(hist, map[0 := Idle], []);
    SingleJob.Moves(settling, Crash(0), sys);
    hide SingleJob.Reachable;
  }

  /** Requeued by hand it starts with the failure it had, and its budget is spent. */
  lemma RescueKeepsTheFailure() returns (sys: Sys, act: Act)
    ensures SingleJob.Reachable(sys) && Stranded(sys, SingleJob.ID) && Enabled(sys, act)
    ensures In(Next(sys, act).abs, SingleJob.ID, Enqueued)
    ensures var job := Next(sys, act).abs.jobs[SingleJob.ID]; Count(job.hist, Failed) == Budget(job.retryMax)
  {
    SingleJob.ReachSettling();
    var hist := [Enqueued, Processing, Failed];
    var settling := SingleJob.Stage(hist, map[0 := Settling(SingleJob.ID, 0, 1)], []);
    sys := SingleJob.Stage(hist, map[0 := Idle], []);
    SingleJob.Moves(settling, Crash(0), sys);
    hide SingleJob.Reachable;
    act := Env(Event(Op.Requeue(SingleJob.ID, 0), Done));
    assert In(sys.abs, SingleJob.ID, Failed);
    SingleJob.CountsSoFar();
    CountAppend(hist, Enqueued, Failed);
    hide Count;
  }

  /** A Dead job is reached too, and refuses to be requeued. */
  lemma DeadIsReachable() returns (sys: Sys)
    ensures SingleJob.Reachable(sys) && In(sys.abs, SingleJob.ID, Dead)
    ensures forall now, out :: Allowed(sys.abs, Op.Requeue(SingleJob.ID, now), out) ==> out == Refused(TerminalState)
  {
    SingleJob.ReachSettling();
    var settling := SingleJob.Stage([Enqueued, Processing, Failed], map[0 := Settling(SingleJob.ID, 0, 1)], []);
    var hist := [Enqueued, Processing, Failed, Dead];
    sys := SingleJob.Stage(hist, map[0 := Firing(0)], [NewCall(0, SingleJob.ID, Dead)]);
    SingleJob.StageGrows([Enqueued, Processing, Failed], Dead, hist, map[], []);
    SingleJob.Moves(settling, Settle(0, 0, 0, Done), sys);
    hide SingleJob.Reachable;
  }
}
