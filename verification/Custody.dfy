/** Who may speak for a job. While nobody requeues a job under a worker that runs it,
    each processing episode belongs to the one worker that took it, and a worker only
    ever finishes the episode whose ticket it holds; as soon as somebody does, an older
    worker may finish a newer episode, because the token of a ticket is never checked. */
module Custody {
  import opened Lifecycle
  import opened Protocol
  import opened AbstractJobs
  import opened Workers
  import SingleJob

  predicate Busy(p: Proc) {
    p.Taken? || p.Running? || p.Saving? || p.Finishing?
  }

  predicate Runs(c: Control, w: nat, id: JobId) {
    Busy(At(c, w)) && At(c, w).id == id
  }

  ghost predicate OneRunner(c: Control) {
    forall v, w, id :: Runs(c, v, id) && Runs(c, w, id) ==> v == w
  }

  /** Settled for good, or already erased. */
  ghost predicate Gone(a: Abs, id: JobId) {
    id in a.jobs ==> Stuck(a, id)
  }

  /** The worker's job is gone, or in the very episode it took, with the failures and
      the retry maximum it read. */
  ghost predicate Holding(a: Abs, p: Proc)
    requires Busy(p)
  {
    && (p.Finishing? ==> EngineMove(Processing, p.to))
    && (Gone(a, p.id)
        || (In(a, p.id, Processing) && Episodes(a, p.id) == p.token
            && (p.Taken? || (Count(a.jobs[p.id].hist, Failed) == p.attempt && a.jobs[p.id].retryMax == p.retryMax))))
  }

  ghost predicate AllHolding(a: Abs, used: set<JobId>, c: Control) {
    forall w :: Busy(At(c, w)) ==> At(c, w).id in used && Holding(a, At(c, w))
  }

  ghost predicate CustodyInv(sys: Sys) {
    AbsInv(sys.abs, sys.used) && AllHolding(sys.abs, sys.used, sys.control) && OneRunner(sys.control)
  }

  /** The act requeues no job that some worker is running. */
  ghost predicate Respects(sys: Sys, act: Act) {
    act.Env? && act.ev.op.Requeue? && act.ev.out.Done? ==> forall w :: !Runs(sys.control, w, act.ev.op.id)
  }

  // ----- the store -----

  lemma GoneStays(a: Abs, used: set<JobId>, ev: Event, id: JobId)
    requires AbsInv(a, used) && Disciplined(a, used, ev.op) && Allowed(a, ev.op, ev.out) && id in used && Gone(a, id)
    ensures Gone(Apply(a, ev.op, ev.out), id)
  {
    if id in a.jobs {
      AbsIrreversibleStays(a, used, ev.op, ev.out, id);
    } else {
      AbsNothingComesBack(a, used, ev.op, ev.out, id);
    }
    hide Apply, Allowed, Disciplined;
  }

  /** The requests that take a processing job out of its episode. */
  predicate Ends(ev: Event, id: JobId) {
    ev.out.Done? && ((ev.op.Requeue? && ev.op.id == id) || (ev.op.ApplyState? && ev.op.id == id && ev.op.expected == Processing))
  }

  lemma ProcessingIsLeftAlone(a: Abs, used: set<JobId>, ev: Event, id: JobId)
    requires AbsInv(a, used) && Disciplined(a, used, ev.op) && Allowed(a, ev.op, ev.out) && id in used
    requires In(a, id, Processing) && !Ends(ev, id) && Touches(ev, id)
    ensures Gone(Apply(a, ev.op, ev.out), id)
  {
  }

  lemma StoreKeepsHolding(a: Abs, used: set<JobId>, ev: Event, p: Proc)
    requires AbsInv(a, used) && Disciplined(a, used, ev.op) && Allowed(a, ev.op, ev.out)
    requires Busy(p) && p.id in used && Holding(a, p) && (Ends(ev, p.id) ==> Gone(a, p.id))
    ensures Holding(Apply(a, ev.op, ev.out), p)
  {
    if Gone(a, p.id) {
      GoneStays(a, used, ev, p.id);
    } else if Touches(ev, p.id) {
      ProcessingIsLeftAlone(a, used, ev, p.id);
    } else {
      UntouchedIsSame(a, ev, p.id);
    }
    hide Apply, Allowed, Disciplined, AbsInv, Touches, Ends;
  }

  // ----- one act -----

  /** The acts that leave the acting worker where it was, or no longer running anything,
      or one step further with the same job. */
  lemma HolderMoves(a: Abs, c: Control, act: Act)
    requires Guard(c, act) && !act.Env? && !act.Poll?
    requires Busy(At(c, act.w)) ==> Holding(a, At(c, act.w))
    ensures var p := At(Control'(a, c, act), act.w);
      Busy(p) ==> Busy(At(c, act.w)) && p.id == At(c, act.w).id && Holding(a, p) && !act.Finish? && !act.Crash?
  {
  }

  /** A successful request of a worker's own takes no other worker's job away. */
  lemma RequestsEndOwnJob(sys: Sys, act: Act, v: nat)
    requires CustodyInv(sys) && Enabled(sys, act) && Respects(sys, act) && Asks(sys.control, act).Ask?
    requires Busy(At(sys.control, v)) && (act.Finish? ==> act.w != v)
    ensures Ends(Asks(sys.control, act).ev, At(sys.control, v).id) ==> Gone(sys.abs, At(sys.control, v).id)
  {
    var ev, id := Asks(sys.control, act).ev, At(sys.control, v).id;
    assert Runs(sys.control, v, id);
    assert act.Finish? ==> Runs(sys.control, act.w, ev.op.id);
    hide AbsInv, Apply, Holding;
  }

  lemma EnqueuedIsFree(sys: Sys, v: nat, id: JobId)
    requires CustodyInv(sys) && In(sys.abs, id, Enqueued)
    ensures !Runs(sys.control, v, id)
  {
    hide AbsInv, OneRunner;
  }

  /** The job of a ticket is run by nobody yet, and its new episode is the ticket's. */
  lemma TicketStartsEpisode(sys: Sys, act: Act)
    requires CustodyInv(sys) && Enabled(sys, act) && act.Poll? && act.out.Ticket?
    ensures var p, b := Taken(act.out.id, Episodes(sys.abs, act.out.id) + 1), Next(sys, act).abs;
      && At(Next(sys, act).control, act.w) == p && p.id in sys.used && Holding(b, p)
    ensures forall v :: !Runs(sys.control, v, act.out.id)
  {
    var id := act.out.id;
    forall v ensures !Runs(sys.control, v, id) { EnqueuedIsFree(sys, v, id); }
    CountAppend(sys.abs.jobs[id].hist, Processing, Processing);
    hide AllHolding, OneRunner;
  }

  ghost predicate Safeguarded(sys: Sys, act: Act) {
    CustodyInv(sys) && Enabled(sys, act) && Respects(sys, act)
  }

  /** A worker that is busy after an act was busy with the same job before, or has just
      taken a job that nobody ran. */
  lemma BusyAfter(sys: Sys, act: Act, v: nat)
    requires Safeguarded(sys, act) && Busy(At(Next(sys, act).control, v))
    ensures var p := At(Next(sys, act).control, v);
      if act.Poll? && act.w == v && act.out.Ticket?
      then p.id == act.out.id && forall u :: !Runs(sys.control, u, p.id)
      else Runs(sys.control, v, p.id) && (act.Finish? ==> act.w != v)
  {
    if act.Poll? && act.w == v && act.out.Ticket? {
      TicketStartsEpisode(sys, act);
    } else if act.Env? || act.w != v {
      OnlyTheActorMoves(sys.abs, sys.control, act, v);
    } else {
      HolderMoves(sys.abs, sys.control, act);
    }
    hide CustodyInv, Apply, Allowed, Disciplined, Respects;
  }

  lemma BusyKeepsHolding(sys: Sys, act: Act, v: nat)
    requires Safeguarded(sys, act) && Busy(At(Next(sys, act).control, v))
    ensures At(Next(sys, act).control, v).id in Next(sys, act).used
    ensures Holding(Next(sys, act).abs, At(Next(sys, act).control, v))
  {
    BusyAfter(sys, act, v);
    var asked := Asks(sys.control, act);
    if act.Poll? && act.w == v && act.out.Ticket? {
      TicketStartsEpisode(sys, act);
    } else {
      var p := At(Control'(sys.abs, sys.control, act), v);
      SameHolding(sys, act, v);
      if asked.Ask? {
        RequestsEndOwnJob(sys, act, v);
        StoreKeepsHolding(sys.abs, sys.used, asked.ev, p);
      }
    }
    hide CustodyInv, Respects, Apply, Allowed, Disciplined, Holding;
  }

  /** Before the store is looked at, the worker holds what it held. */
  lemma SameHolding(sys: Sys, act: Act, v: nat)
    requires CustodyInv(sys) && Enabled(sys, act) && Busy(At(Control'(sys.abs, sys.control, act), v))
    requires !(act.Poll? && act.w == v && act.out.Ticket?)
    ensures Busy(At(sys.control, v))
    ensures var p := At(Control'(sys.abs, sys.control, act), v);
      p.id == At(sys.control, v).id && p.id in sys.used && Holding(sys.abs, p)
  {
    if act.Env? || act.w != v {
      OnlyTheActorMoves(sys.abs, sys.control, act, v);
    } else if !act.Poll? {
      HolderMoves(sys.abs, sys.control, act);
    }
    hide AbsInv, OneRunner, Apply, Allowed, Disciplined;
  }

  lemma ActKeepsCustody(sys: Sys, act: Act)
    requires Safeguarded(sys, act)
    ensures CustodyInv(Next(sys, act))
  {
    var next := Next(sys, act);
    if Asks(sys.control, act).Ask? {
      var ev := Asks(sys.control, act).ev;
      AbsStepKeepsInv(sys.abs, sys.used, ev.op, ev.out);
    }
    assert OneRunner(sys.control) && AbsInv(next.abs, next.used);
    hide CustodyInv, Enabled, Next, AbsInv, Holding, Safeguarded;
    forall v | Busy(At(next.control, v)) ensures At(next.control, v).id in next.used && Holding(next.abs, At(next.control, v)) {
      BusyKeepsHolding(sys, act, v);
    }
    forall v, w, id | Runs(next.control, v, id) && Runs(next.control, w, id) ensures v == w {
      BusyAfter(sys, act, v);
      BusyAfter(sys, act, w);
    }
    assert AllHolding(next.abs, next.used, next.control) && OneRunner(next.control);
    CustodyFromParts(next);
  }

  lemma CustodyFromParts(sys: Sys)
    requires AbsInv(sys.abs, sys.used) && AllHolding(sys.abs, sys.used, sys.control) && OneRunner(sys.control)
    ensures CustodyInv(sys)
  {
  }

  // ----- runs -----

  ghost predicate AllRespect(sys: Sys, acts: seq<Act>)
    requires Run(sys, acts)
    decreases |acts|
  {
    |acts| == 0 || (Respects(sys, acts[0]) && AllRespect(Next(sys, acts[0]), acts[1..]))
  }

  lemma {:induction false} RunsKeepCustody(sys: Sys, acts: seq<Act>)
    requires CustodyInv(sys) && Run(sys, acts) && AllRespect(sys, acts)
    ensures CustodyInv(After(sys, acts))
    decreases |acts|
  {
    hide CustodyInv, Enabled, Next, Respects;
    if |acts| > 0 {
      ActKeepsCustody(sys, acts[0]);
      RunsKeepCustody(Next(sys, acts[0]), acts[1..]);
    }
  }

  lemma StartIsInCustody()
    ensures CustodyInv(START)
  {
  }

  // ----- stale workers -----

  /** A worker's verdict is stored for a later episode than the one it took. */
  ghost predicate FinishesNewerEpisode(sys: Sys, act: Act) {
    act.Finish? && act.out.Done? && At(sys.control, act.w).Finishing?
    && At(sys.control, act.w).token < Episodes(sys.abs, At(sys.control, act.w).id)
  }

  /** As long as no running job is requeued, a worker finishes its own episode only. */
  lemma CustodyForbidsStale(sys: Sys, act: Act)
    requires CustodyInv(sys) && Enabled(sys, act)
    ensures !FinishesNewerEpisode(sys, act)
  {
    if act.Finish? { assert Holding(sys.abs, At(sys.control, act.w)); }
    hide AbsInv, OneRunner;
  }

  lemma {:induction false} NoStaleWhileRespected(acts: seq<Act>, act: Act)
    requires Run(START, acts) && AllRespect(START, acts) && Enabled(After(START, acts), act)
    ensures !FinishesNewerEpisode(After(START, acts), act)
  {
    StartIsInCustody();
    RunsKeepCustody(START, acts);
    CustodyForbidsStale(After(START, acts), act);
  }

  // ----- how a worker becomes stale -----

  /** A run of acts that respect every running worker, and then the stale finish. */
  ghost predicate LeadsToStale(sys: Sys, acts: seq<Act>, act: Act) {
    Run(sys, acts) && AllRespect(sys, acts) && Enabled(After(sys, acts), act) && FinishesNewerEpisode(After(sys, acts), act)
  }

  lemma LeadsEarlier(sys: Sys, first: Act, acts: seq<Act>, act: Act)
    requires Enabled(sys, first) && Respects(sys, first) && LeadsToStale(Next(sys, first), acts, act)
    ensures LeadsToStale(sys, [first] + acts, act)
  {
    hide Enabled, Next, Respects, FinishesNewerEpisode;
    assert ([first] + acts)[1..] == acts;
  }

  /** The worker's job is being processed, in an episode newer than the worker's. */
  ghost predicate Outrun(sys: Sys, w: nat) {
    Busy(At(sys.control, w)) && In(sys.abs, At(sys.control, w).id, Processing)
    && At(sys.control, w).token < Episodes(sys.abs, At(sys.control, w).id)
  }

  function Hurry(w: nat, p: Proc): Act {
    match p
    case Taken(_, _) => Load(w)
    case Running(_, _, _, _) => Return(w, Success([]))
    case Saving(_, _, _, _, _) => Save(w, 0, Done)
    case _ => Finish(w, 0, Done)
  }

  function ToFinish(p: Proc): nat {
    match p
    case Taken(_, _) => 2
    case Running(_, _, _, _) => 1
    case Saving(_, _, _, _, _) => 1
    case _ => 0
  }

  lemma OutrunGoesOn(sys: Sys, w: nat)
    requires Outrun(sys, w) && !At(sys.control, w).Finishing?
    ensures var act := Hurry(w, At(sys.control, w));
      && Enabled(sys, act) && Respects(sys, act)
      && Outrun(Next(sys, act), w) && ToFinish(At(Next(sys, act).control, w)) < ToFinish(At(sys.control, w))
  {
    hide Stuck;
  }

  lemma OutrunFinishes(sys: Sys, w: nat)
    requires Outrun(sys, w) && At(sys.control, w).Finishing? && At(sys.control, w).to != Enqueued
    requires EngineMove(Processing, At(sys.control, w).to)
    ensures Enabled(sys, Finish(w, 0, Done)) && FinishesNewerEpisode(sys, Finish(w, 0, Done))
  {
  }

  /** A worker that was outrun can go on and finish the newer episode. */
  lemma {:induction false} OutrunIsStale(sys: Sys, w: nat) returns (acts: seq<Act>, act: Act)
    requires Outrun(sys, w) && (At(sys.control, w).Finishing? ==> EngineMove(Processing, At(sys.control, w).to))
    ensures LeadsToStale(sys, acts, act)
    decreases ToFinish(At(sys.control, w))
  {
    if At(sys.control, w).Finishing? {
      OutrunFinishes(sys, w);
      acts, act := [], Finish(w, 0, Done);
    } else {
      var first := Hurry(w, At(sys.control, w));
      OutrunGoesOn(sys, w);
      HurryMovesLegally(sys, w);
      hide Enabled, Next, Respects, Outrun;
      acts, act := OutrunIsStale(Next(sys, first), w);
      LeadsEarlier(sys, first, acts, act);
      acts := [first] + acts;
    }
  }

  lemma HurryMovesLegally(sys: Sys, w: nat)
    requires Busy(At(sys.control, w)) && !At(sys.control, w).Finishing? && Enabled(sys, Hurry(w, At(sys.control, w)))
    ensures var p := At(Next(sys, Hurry(w, At(sys.control, w))).control, w);
      p.Finishing? ==> EngineMove(Processing, p.to)
  {
    hide Allowed, Disciplined, Apply;
  }

  /** After the requeue of a running job, the next worker to take it outruns the first. */
  lemma RequeueThenOutrun(sys: Sys, act: Act, w: nat, v: nat)
    requires CustodyInv(sys) && Enabled(sys, act) && act.Env? && act.ev.op.Requeue? && act.ev.out.Done?
    requires Runs(sys.control, w, act.ev.op.id) && At(sys.control, v).Idle?
    ensures var id, next := act.ev.op.id, Next(sys, act);
      && id in sys.abs.jobs
      && var poll := Poll(v, [sys.abs.jobs[id].queue], 0, Ticket(id));
         && Enabled(next, poll) && Respects(next, poll)
         && Outrun(Next(next, poll), w) && At(Next(next, poll).control, w) == At(sys.control, w)
  {
    var id := act.ev.op.id;
    assert Holding(sys.abs, At(sys.control, w));
    var h := sys.abs.jobs[id].hist;
    CountAppend(h, Enqueued, Processing);
    CountAppend(h + [Enqueued], Processing, Processing);
    hide AbsInv, OneRunner, AllHolding;
  }

  lemma FreshWorker(busy: set<nat>) returns (w: nat)
    ensures w !in busy
  {
    w := 0;
    var rest := busy;
    while rest != {}
      invariant forall v :: v in busy && v !in rest ==> v < w
      decreases |rest|
    {
      var v :| v in rest;
      rest := rest - {v};
      if v >= w { w := v + 1; }
    }
  }

  lemma RunnerIsLegal(sys: Sys, w: nat)
    requires CustodyInv(sys) && At(sys.control, w).Finishing?
    ensures EngineMove(Processing, At(sys.control, w).to)
  {
  }

  lemma RequeueMakesStale(sys: Sys, act: Act, w: nat) returns (acts: seq<Act>, last: Act)
    requires CustodyInv(sys) && Enabled(sys, act) && act.Env? && act.ev.op.Requeue? && act.ev.out.Done?
    requires Runs(sys.control, w, act.ev.op.id)
    ensures LeadsToStale(Next(sys, act), acts, last)
  {
    var v := FreshWorker(sys.control.workers.Keys);
    RequeueThenOutrun(sys, act, w, v);
    if At(sys.control, w).Finishing? { RunnerIsLegal(sys, w); }
    hide CustodyInv, Enabled, Next, Outrun, Respects, Runs;
    var poll := Poll(v, [sys.abs.jobs[act.ev.op.id].queue], 0, Ticket(act.ev.op.id));
    var more;
    more, last := OutrunIsStale(Next(Next(sys, act), poll), w);
    LeadsEarlier(Next(sys, act), poll, more, last);
    acts := [poll] + more;
  }

  /** The exact condition: of all the runs that respect the running workers from here on,
      some ends with a worker finishing a newer episode exactly if this requeue meets a
      job that a worker is running. */
  lemma StaleFinishIff(before: seq<Act>, act: Act)
    requires Run(START, before) && AllRespect(START, before) && Enabled(After(START, before), act)
    requires act.Env? && act.ev.op.Requeue? && act.ev.out.Done?
    ensures var sys := After(START, before);
      (exists acts, last :: LeadsToStale(Next(sys, act), acts, last)) <==> (exists w :: Runs(sys.control, w, act.ev.op.id))
  {
    var sys := After(START, before);
    StartIsInCustody();
    RunsKeepCustody(START, before);
    if w :| Runs(sys.control, w, act.ev.op.id) {
      var acts, last := RequeueMakesStale(sys, act, w);
    } else {
      ActKeepsCustody(sys, act);
      forall acts, last ensures !LeadsToStale(Next(sys, act), acts, last) {
        if LeadsToStale(Next(sys, act), acts, last) { CustodyIsNeverStale(Next(sys, act), acts, last); }
      }
    }
  }

  lemma CustodyIsNeverStale(sys: Sys, acts: seq<Act>, last: Act)
    requires CustodyInv(sys) && Run(sys, acts) && AllRespect(sys, acts) && Enabled(After(sys, acts), last)
    ensures !FinishesNewerEpisode(After(sys, acts), last)
  {
    RunsKeepCustody(sys, acts);
    CustodyForbidsStale(After(sys, acts), last);
  }

  /** It happens: a job is requeued by hand while its worker runs it, is taken again,
      and the first worker's success is stored for the second episode. */
  lemma StaleFinishIsReachable() returns (sys: Sys, act: Act)
    ensures SingleJob.Reachable(sys) && Enabled(sys, act) && FinishesNewerEpisode(sys, act)
  {
    SingleJob.ReachRunning();
    var running := SingleJob.Stage([Enqueued, Processing], map[0 := Running(SingleJob.ID, 1, 0, 1)], []);
    RunningIsInCustody(running);
    var requeue := Env(Event(Op.Requeue(SingleJob.ID, 0), Done));
    assert In(running.abs, SingleJob.ID, Processing) && Enabled(running, requeue);
    assert Runs(running.control, 0, SingleJob.ID);
    hide CustodyInv, Enabled, Next, FinishesNewerEpisode, SingleJob.Reachable;
    var acts;
    acts, act := RequeueMakesStale(running, requeue, 0);
    SingleJob.ReachMore(running, requeue);
    SingleJob.ReachAfter(Next(running, requeue), acts);
    sys := After(Next(running, requeue), acts);
  }

  lemma RunningIsInCustody(sys: Sys)
    requires sys == SingleJob.Stage([Enqueued, Processing], map[0 := Running(SingleJob.ID, 1, 0, 1)], [])
    ensures CustodyInv(sys)
  {
    var h := [Enqueued, Processing];
    SingleJob.CountsSoFar();
    hide Count;
    assert Legal(h[0], h[0 + 1]);
  }
}
