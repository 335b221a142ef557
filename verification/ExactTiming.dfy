/** What needs recovery to be in time, and how exactly: without it each of the four
    guarantees below is broken by some run, and with it none is. */
module ExactTiming {
  import opened Lifecycle
  import opened Protocol
  import opened Custody
  import opened TimedSafety
  import opened TimedCustody
  import opened Stealing
  import Backoff
  import P = PostgresSpec
  import W = Workers

  // ----- stealing -----

  lemma NoStealInTime(cfg: Config, t: Timed, m: Move)
    requires InTime(cfg)
    ensures !StealAt(cfg, t, m)
  {
    if StealAt(cfg, t, m) {
      ReachableIsSafe(cfg, t);
      SafeMeansNoSteal(cfg, t, m);
    }
    hide Safe, Steals, Enabled, Reachable;
  }

  /** A coordinator can requeue a job under its running worker, unless at most one node
      runs one and its scan waits for as long as a running worker may be silent. */
  lemma NoStealIff(cfg: Config)
    ensures (forall t, m :: !StealAt(cfg, t, m)) <==> InTime(cfg)
  {
    hide StealAt, Twins, InTime;
    if InTime(cfg) {
      forall t, m ensures !StealAt(cfg, t, m) { NoStealInTime(cfg, t, m); }
    } else {
      var t, m, u, e := TwinsAreReachable(cfg, 0);
      assert StealAt(cfg, t, m);
    }
  }

  // ----- one runner per job -----

  ghost predicate AlwaysOneRunner(cfg: Config) {
    forall t :: Reachable(cfg, t) ==> OneRunner(t.cluster.control)
  }

  lemma TwinsAreTwo(cfg: Config, t: Timed, v: nat, w: nat, k: nat, e: nat)
    requires Twins(cfg, t, v, w, k, e)
    ensures Reachable(cfg, t) && !OneRunner(t.cluster.control)
  {
    hide Reachable, Only;
    HandFreeIsReachable(cfg, t);
    assert W.At(t.cluster.control, v) == Where(t, v) && W.At(t.cluster.control, w) == Where(t, w);
    assert Runs(t.cluster.control, v, ID) && Runs(t.cluster.control, w, ID);
    hide HandFreeReachable;
  }

  lemma OneRunnerInTime(cfg: Config, t: Timed)
    requires InTime(cfg) && Reachable(cfg, t)
    ensures OneRunner(t.cluster.control)
  {
    ReachableIsSafe(cfg, t);
    SafeParts(cfg, t);
    hide Safe;
  }

  /** At most one worker runs a job, under exactly that condition. */
  lemma OneRunnerIff(cfg: Config)
    ensures AlwaysOneRunner(cfg) <==> InTime(cfg)
  {
    hide StealAt, Twins, InTime, Reachable, OneRunner;
    if InTime(cfg) {
      forall t | Reachable(cfg, t) ensures OneRunner(t.cluster.control) { OneRunnerInTime(cfg, t); }
    } else {
      var t, m, u, e := TwinsAreReachable(cfg, 0);
      TwinsAreTwo(cfg, u, 1, 2, 0, e);
    }
  }

  // ----- each worker finishes its own episode -----

  /** A worker's verdict is stored for a newer processing episode than it took. */
  ghost predicate StaleAt(cfg: Config, t: Timed, m: Move) {
    Reachable(cfg, t) && Enabled(cfg, t, m) && m.Work? && FinishesNewerEpisode(View(t), m.act)
  }

  /** The abstract record behind the one row. */
  lemma ViewOfOnly(t: Timed, state: State, progress: P.Progress, k: nat, e: nat)
    requires Only(t, state, progress, k, e)
    ensures View(t).control == t.cluster.control
    ensures var a := View(t).abs;
      && ID in a.jobs && W.Episodes(a, ID) == e
      && Count(a.jobs[ID].hist, Failed) == k && a.jobs[ID].retryMax == MAX
  {
  }

  /** The older twin's success is stored for the younger one's episode. */
  lemma OlderTwinFinishes(cfg: Config, t: Timed, v: nat, w: nat, k: nat, e: nat) returns (u: Timed, m: Move)
    requires Twins(cfg, t, v, w, k, e)
    ensures StaleAt(cfg, u, m)
  {
    hide Enabled, Next, Only, HandFreeReachable, Reachable;
    var done := Work(W.Return(v, W.Success([])));
    ReturnStep(cfg, t, v, W.Success([]), P.Beat(t.clock), k, e);
    ReachMore(cfg, t, done);
    u := Next(cfg, t, done);
    HandFreeIsReachable(cfg, u);
    FinishStep(cfg, u, v, P.Beat(t.clock), k, e);
    ViewOfOnly(u, Processing, P.Beat(t.clock), k, e);
    assert W.At(u.cluster.control, v) == Where(u, v);
    m := Work(W.Finish(v, u.clock, Done));
    hide View, W.Episodes;
  }

  lemma NoStaleInTime(cfg: Config, t: Timed, m: Move)
    requires InTime(cfg)
    ensures !StaleAt(cfg, t, m)
  {
    if StaleAt(cfg, t, m) { NoStaleFinishInTime(cfg, t, m); }
    hide Enabled, Reachable, FinishesNewerEpisode;
  }

  /** No verdict is ever stored for an episode newer than the worker's own, although
      nothing looks at the token of its ticket, under exactly that condition. */
  lemma StaleFinishIff(cfg: Config)
    ensures (forall t, m :: !StaleAt(cfg, t, m)) <==> InTime(cfg)
  {
    hide StealAt, StaleAt, Twins, InTime;
    if InTime(cfg) {
      forall t, m ensures !StaleAt(cfg, t, m) { NoStaleInTime(cfg, t, m); }
    } else {
      var s, n, twins, e := TwinsAreReachable(cfg, 0);
      var t, m := OlderTwinFinishes(cfg, twins, 1, 2, 0, e);
      assert StaleAt(cfg, t, m);
    }
  }

  // ----- the retry budget -----

  ghost predicate BudgetAlwaysHolds(cfg: Config) {
    forall t, id :: HandFreeReachable(cfg, t) ==> WithinBudget(t, id)
  }

  /** A worker fails a late attempt whose delay has overflowed, and the retry, due at
      once, is queued again. */
  lemma FailAndRequeue(cfg: Config, t: Timed, w: nat, progress: P.Progress, k: nat, e: nat) returns (u: Timed)
    requires HandFreeReachable(cfg, t) && Only(t, Processing, progress, k, e)
    requires Where(t, w).Running? && Where(t, w).id == ID && Where(t, w).retryMax == MAX && Where(t, w).attempt == 28
    ensures HandFreeReachable(cfg, u) && Only(u, Enqueued, P.Null, k + 1, e) && OnlyWorker(t, u, w, W.Idle)
  {
    Backoff.DelayOverflows(28);
    hide Enabled, Next, Only, HandFreeReachable, Backoff.BaseDelay;
    var scheduled := FailAndReschedule(cfg, t, w, progress, k, e);
    OnPostgres(scheduled, Scheduled, P.Null, k + 1, e);
    u := PromoteNow(cfg, scheduled, k + 1, e);
  }

  /** Each twin settles its own failure by the attempt both read, so the job is retried
      once more than its budget allows. */
  lemma TwinsOverspend(cfg: Config, t: Timed, e: nat) returns (u: Timed)
    requires Twins(cfg, t, 1, 2, 28, e)
    ensures HandFreeReachable(cfg, u) && Only(u, Failed, P.Null, 31, e + 2)
  {
    hide Enabled, Next, Only, HandFreeReachable;
    assert IdleNow(t, 3) && IdleNow(t, 4);
    var first := FailAndRequeue(cfg, t, 1, P.Beat(t.clock), 28, e);
    assert IdleNow(first, 3) && Where(first, 2) == Where(t, 2) && IdleNow(first, 4);
    var third := TakeAndLoad(cfg, first, 3, 29, e);
    assert Where(third, 2) == Where(t, 2) && IdleNow(third, 4);
    var second := FailAndRequeue(cfg, third, 2, P.Beat(first.clock), 29, e + 1);
    var fourth := TakeAndLoad(cfg, second, 4, 30, e + 1);
    u := FailAndStore(cfg, fourth, 4, P.Beat(second.clock), 30, e + 2);
  }

  lemma OverBudget(t: Timed, e: nat)
    requires Only(t, Failed, P.Null, 31, e)
    ensures !WithinBudget(t, ID)
  {
    ViewOfOnly(t, Failed, P.Null, 31, e);
    hide Only, View, Count;
  }

  /** Without requeues by hand no job fails more often than its budget, whatever crashes
      and is recovered, under exactly that condition. */
  lemma BudgetIff(cfg: Config)
    ensures BudgetAlwaysHolds(cfg) <==> InTime(cfg)
  {
    hide StealAt, Twins, InTime, HandFreeReachable, WithinBudget, Only;
    if InTime(cfg) {
      forall t, id | HandFreeReachable(cfg, t) ensures WithinBudget(t, id) { BudgetHoldsInTime(cfg, t, id); }
    } else {
      var s, m, twins, e := TwinsAreReachable(cfg, 28);
      var t := TwinsOverspend(cfg, twins, e);
      OverBudget(t, e + 2);
    }
  }
}
