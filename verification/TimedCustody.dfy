/** With one coordinator that waits long enough, recovery is the kind of requeue that
    custody and the retry budget allow, so both hold in every timed run. */
module TimedCustody {
  import opened Lifecycle
  import opened Custody
  import opened TimedSafety
  import A = AbstractJobs
  import B = Backends
  import P = PostgresSpec
  import PR = PostgresRefinement
  import RetryBound
  import W = Workers

  function View(t: Timed): W.Sys {
    B.Abstract(t.cluster)
  }

  /** Nobody requeues by hand. */
  predicate NoManual(m: Move) {
    m.Work? && m.act.Env? ==> !m.act.ev.op.Requeue?
  }

  lemma ProcessingRow(t: Timed, id: JobId)
    requires t.cluster.backend.Postgres? && B.Inv(t.cluster)
    ensures A.In(View(t).abs, id, Processing) <==> P.Has(t.cluster.backend.tables, id, Processing)
    ensures A.Stuck(View(t).abs, id) <==> id in t.cluster.backend.tables.jobs && Irreversible(t.cluster.backend.tables.jobs[id].state)
    ensures id in View(t).abs.jobs <==> id in t.cluster.backend.tables.jobs
  {
    PR.ReadsAgree(t.cluster.backend.tables, id);
  }

  /** A requeue by hand never meets a job that somebody runs: it is not processing. */
  lemma HandsOffRespects(cfg: Config, t: Timed, m: Move)
    requires Safe(cfg, t) && Enabled(cfg, t, m) && m.Work? && CustodyInv(View(t))
    ensures Respects(View(t), m.act)
  {
    var act := m.act;
    if act.Env? && act.ev.op.Requeue? && act.ev.out.Done? {
      var id := act.ev.op.id;
      SafeParts(cfg, t);
      ProcessingRow(t, id);
      WorkIsTimely(cfg, t, act);
      B.ActRefines(t.cluster, act);
      assert A.Allowed(View(t).abs, act.ev.op, act.ev.out);
      forall w ensures !Runs(View(t).control, w, id) { FreeUnlessProcessing(View(t), w, id); }
    }
  }

  lemma FreeUnlessProcessing(sys: W.Sys, w: nat, id: JobId)
    requires CustodyInv(sys) && id in sys.abs.jobs && !A.Stuck(sys.abs, id) && !A.In(sys.abs, id, Processing)
    ensures !Runs(sys.control, w, id)
  {
  }

  /** The coordinator's requeue meets a processing job that nobody runs. */
  lemma RecoveryRecovers(cfg: Config, t: Timed, m: Move)
    requires Safe(cfg, t) && Enabled(cfg, t, m) && m.Recover?
    ensures RetryBound.Recovers(View(t), W.Env(RecoverEvent(t, m)))
  {
    var id := Pending(t, m.node)[0];
    SafeParts(cfg, t);
    ProcessingRow(t, id);
    PendingIsLoose(cfg, t, m.node, id);
    LooseRequeue(cfg, t, m);
    hide Safe, PR.AbsOf, B.Inv;
  }

  /** The act of a move, if it makes one, takes no running job away; and without
      requeues by hand it requeues only to recover. */
  lemma MoveIsFair(cfg: Config, t: Timed, m: Move)
    requires Safe(cfg, t) && Enabled(cfg, t, m) && CustodyInv(View(t)) && |ActsOf(t, m)| > 0
    ensures Respects(View(t), ActsOf(t, m)[0])
    ensures NoManual(m) ==> RetryBound.Recovers(View(t), ActsOf(t, m)[0])
  {
    if m.Work? {
      HandsOffRespects(cfg, t, m);
    } else if m.Recover? {
      RecoveryRecovers(cfg, t, m);
    }
    hide Safe, CustodyInv, Enabled;
  }

  lemma MoveIsAnAct(cfg: Config, t: Timed, m: Move)
    requires Safe(cfg, t) && Enabled(cfg, t, m)
    ensures var acts, u := ActsOf(t, m), Next(cfg, t, m);
      if |acts| == 0 then View(u) == View(t)
      else W.Enabled(View(t), acts[0]) && W.Next(View(t), acts[0]) == View(u)
  {
    var acts := ActsOf(t, m);
    ActsFollow(cfg, t, m);
    SafeParts(cfg, t);
    hide Next, Enabled, ActsOf, Safe, B.Next, B.Enabled;
    if |acts| > 0 { B.ActRefines(t.cluster, acts[0]); }
  }

  lemma MoveKeepsCustody(cfg: Config, t: Timed, m: Move)
    requires Safe(cfg, t) && Enabled(cfg, t, m) && CustodyInv(View(t))
    ensures CustodyInv(View(Next(cfg, t, m)))
  {
    var acts := ActsOf(t, m);
    hide Safe, Enabled, Next, CustodyInv, ActsOf, Respects;
    MoveIsAnAct(cfg, t, m);
    if |acts| > 0 {
      MoveIsFair(cfg, t, m);
      ActKeepsCustody(View(t), acts[0]);
    }
  }

  lemma MoveKeepsBudget(cfg: Config, t: Timed, m: Move)
    requires Safe(cfg, t) && Enabled(cfg, t, m) && NoManual(m) && RetryBound.BudgetInv(View(t))
    ensures RetryBound.BudgetInv(View(Next(cfg, t, m)))
  {
    assert CustodyInv(View(t));
    var acts := ActsOf(t, m);
    hide Safe, Enabled, Next, CustodyInv, ActsOf, RetryBound.BudgetInv, RetryBound.Recovers, NoManual;
    MoveIsAnAct(cfg, t, m);
    if |acts| > 0 {
      MoveIsFair(cfg, t, m);
      RetryBound.ActKeepsBudget(View(t), acts[0]);
    }
  }

  // ----- runs -----

  lemma {:induction false} RunsKeepCustody(cfg: Config, t: Timed, moves: seq<Move>)
    requires Safe(cfg, t) && InTime(cfg) && Run(cfg, t, moves) && CustodyInv(View(t))
    ensures CustodyInv(View(After(cfg, t, moves)))
    decreases |moves|
  {
    hide Safe, Next, Enabled, CustodyInv;
    if |moves| > 0 {
      MoveKeepsSafe(cfg, t, moves[0]);
      MoveKeepsCustody(cfg, t, moves[0]);
      RunsKeepCustody(cfg, Next(cfg, t, moves[0]), moves[1..]);
    }
  }

  ghost predicate HandFree(moves: seq<Move>) {
    forall i :: 0 <= i < |moves| ==> NoManual(moves[i])
  }

  lemma {:induction false} RunsKeepBudget(cfg: Config, t: Timed, moves: seq<Move>)
    requires Safe(cfg, t) && InTime(cfg) && Run(cfg, t, moves) && HandFree(moves) && RetryBound.BudgetInv(View(t))
    ensures RetryBound.BudgetInv(View(After(cfg, t, moves)))
    decreases |moves|
  {
    if |moves| > 0 {
      assert NoManual(moves[0]) && HandFree(moves[1..]);
      hide Safe, Next, Enabled, NoManual, RetryBound.BudgetInv;
      MoveKeepsSafe(cfg, t, moves[0]);
      MoveKeepsBudget(cfg, t, moves[0]);
      RunsKeepBudget(cfg, Next(cfg, t, moves[0]), moves[1..]);
    }
  }

  lemma StartIsStart()
    ensures View(START) == W.START
  {
    B.FreshIsStart(B.ON_POSTGRES);
  }

  /** In time, no worker ever finishes a newer episode than it took. */
  lemma NoStaleFinishInTime(cfg: Config, t: Timed, m: Move)
    requires InTime(cfg) && Reachable(cfg, t) && Enabled(cfg, t, m) && m.Work?
    ensures !FinishesNewerEpisode(View(t), m.act)
  {
    StartIsSafe(cfg);
    StartIsStart();
    StartIsInCustody();
    var moves :| Run(cfg, START, moves) && After(cfg, START, moves) == t;
    RunsStaySafe(cfg, START, moves);
    RunsKeepCustody(cfg, START, moves);
    MoveIsAnAct(cfg, t, m);
    hide Safe, CustodyInv, Run, After, Enabled, FinishesNewerEpisode;
    CustodyForbidsStale(View(t), m.act);
  }

  /** Reached without a requeue by hand. */
  ghost predicate HandFreeReachable(cfg: Config, t: Timed) {
    exists moves :: Run(cfg, START, moves) && HandFree(moves) && After(cfg, START, moves) == t
  }

  ghost predicate WithinBudget(t: Timed, id: JobId) {
    id in View(t).abs.jobs ==> Count(View(t).abs.jobs[id].hist, Failed) <= Budget(View(t).abs.jobs[id].retryMax)
  }

  /** In time, and without requeues by hand, no job fails more often than its budget. */
  lemma BudgetHoldsInTime(cfg: Config, t: Timed, id: JobId)
    requires InTime(cfg) && HandFreeReachable(cfg, t)
    ensures WithinBudget(t, id)
  {
    StartIsSafe(cfg);
    StartIsStart();
    RetryBound.StartIsWithinBudget();
    var moves :| Run(cfg, START, moves) && HandFree(moves) && After(cfg, START, moves) == t;
    RunsKeepBudget(cfg, START, moves);
    hide Run, After, HandFree;
    if id in View(t).abs.jobs { RetryBound.BudgetBounds(View(t), id); }
  }
}
