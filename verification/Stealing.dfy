/** When recovery goes wrong: exactly when two nodes run a coordinator, or when a running
    worker may stay silent for longer than the orphan scan waits. Then a job can be taken
    from a running worker, two workers can run it, one of them can finish the episode of
    the other, and the job can fail more often than its budget. */
module Stealing {
  import opened Lifecycle
  import opened Protocol
  import opened Custody
  import opened TimedSafety
  import opened TimedCustody
  import B = Backends
  import Backoff
  import P = PostgresSpec
  import PR = PostgresRefinement
  import W = Workers

  // ----- a store with one job -----

  const ID := JobId(0)
  const MAX := 30
  const JOB := Job("job", DEFAULT_QUEUE, MAX, [])

  /** The one job is in this state, after so many failures and processing episodes. */
  ghost predicate OneRow(s: P.Tables, state: State, progress: P.Progress, failures: nat, episodes: nat) {
    && P.Rows(s) && s.jobs.Keys == {ID}
    && s.jobs[ID].state == state && s.jobs[ID].progress == progress
    && s.jobs[ID].queue == DEFAULT_QUEUE && s.jobs[ID].retryMax == MAX
    && Count(s.states[ID], Failed) == failures && Count(s.states[ID], Processing) == episodes
  }

  ghost predicate Only(t: Timed, state: State, progress: P.Progress, failures: nat, episodes: nat) {
    t.cluster.backend.Postgres? && OneRow(t.cluster.backend.tables, state, progress, failures, episodes)
  }

  function Where(t: Timed, w: nat): W.Proc {
    W.At(t.cluster.control, w)
  }

  predicate IdleNow(t: Timed, w: nat) {
    Where(t, w).Idle?
  }

  /** Nothing but the store and one worker's place changed. */
  ghost predicate OnlyWorker(t: Timed, u: Timed, w: nat, p: W.Proc) {
    && u.clock == t.clock && u.pending == t.pending
    && Where(u, w) == p && forall v: nat :: v != w ==> Where(u, v) == Where(t, v)
  }

  // ----- single steps -----

  function CreateMove(): Move {
    Work(W.Env(Event(Op.Enqueue(DEFAULT_QUEUE, ID, JOB, 0), Created(ID))))
  }

  lemma CreateStep(cfg: Config)
    ensures Enabled(cfg, START, CreateMove())
    ensures var u := Next(cfg, START, CreateMove());
      Only(u, Enqueued, P.Null, 0, 0) && u.clock == 0 && u.pending == map[] && u.cluster.control.workers == map[]
  {
    assert [Enqueued][..0] == [];
  }

  /** A state change of the one row: one history row more, counted by name. */
  lemma SetRow(s: P.Tables, from: State, beat: P.Progress, k: nat, e: nat, state: State, progress: P.Progress, now: Time)
    requires OneRow(s, from, beat, k, e)
    ensures OneRow(P.Set(s, ID, state, progress, now), state, progress,
                   if state == Failed then k + 1 else k, if state == Processing then e + 1 else e)
  {
    CountAppend(s.states[ID], state, Failed);
    CountAppend(s.states[ID], state, Processing);
    hide Count;
  }

  /** A request that the tables answer. */
  lemma AskStep(cfg: Config, t: Timed, act: W.Act, ev: Event)
    requires t.cluster.backend.Postgres? && P.Rows(t.cluster.backend.tables)
    requires W.Guard(t.cluster.control, act) && W.Asks(t.cluster.control, act) == W.Ask(ev)
    requires P.Allowed(t.cluster.backend.tables, ev.op, ev.out) && Timely(ev.op, t.clock)
    requires BasicOp(t.cluster.used, ev.op) && !ev.op.Requeue? && !ev.op.DeleteJob?
    ensures Enabled(cfg, t, Work(act))
    ensures var u := Next(cfg, t, Work(act));
      && u.clock == t.clock && u.pending == t.pending
      && u.beats == (if act.Poll? && act.out.Ticket? then t.beats[act.w := t.clock] else t.beats)
      && u.cluster.backend == B.Postgres(P.Apply(t.cluster.backend.tables, ev.op, ev.out))
      && u.cluster.control == W.Control'(PR.AbsOf(t.cluster.backend.tables), t.cluster.control, act)
  {
    hide P.Apply, P.Allowed, W.Control', PR.AbsOf, P.Rows;
  }

  /** Where an act leaves its worker; the others stay where they are. */
  lemma OnlyActor(t: Timed, u: Timed, act: W.Act)
    requires t.cluster.backend.Postgres? && !act.Env? && W.Guard(t.cluster.control, act)
    requires u.clock == t.clock && u.pending == t.pending
    requires u.cluster.control == W.Control'(PR.AbsOf(t.cluster.backend.tables), t.cluster.control, act)
    ensures OnlyWorker(t, u, act.w, Where(u, act.w))
  {
    hide W.Control', PR.AbsOf, W.Guard;
    forall v: nat | v != act.w ensures Where(u, v) == Where(t, v) {
      W.OnlyTheActorMoves(PR.AbsOf(t.cluster.backend.tables), t.cluster.control, act, v);
    }
  }

  function TakeMove(t: Timed, w: nat): Move {
    Work(W.Poll(w, [DEFAULT_QUEUE], t.clock, Ticket(ID)))
  }

  lemma TakeStep(cfg: Config, t: Timed, w: nat, progress: P.Progress, k: nat, e: nat)
    requires Only(t, Enqueued, progress, k, e) && IdleNow(t, w)
    ensures Enabled(cfg, t, TakeMove(t, w))
    ensures var u := Next(cfg, t, TakeMove(t, w));
      && Only(u, Processing, P.Beat(t.clock), k, e + 1) && OnlyWorker(t, u, w, W.Taken(ID, e + 1))
      && u.beats == t.beats[w := t.clock]
  {
    var s, act := t.cluster.backend.tables, W.Poll(w, [DEFAULT_QUEUE], t.clock, Ticket(ID));
    OnlyRowIsTaken(s, t.clock, progress, k, e);
    NewTicket(s, t.cluster.control, act, progress, k, e);
    hide Count, Enabled, Next, W.Control', P.Allowed, PR.AbsOf;
    AskStep(cfg, t, act, Event(Dequeue([DEFAULT_QUEUE], t.clock), Ticket(ID)));
    SetRow(s, Enqueued, progress, k, e, Processing, P.Beat(t.clock), t.clock);
    OnlyActor(t, Next(cfg, t, Work(act)), act);
  }

  lemma OnlyRowIsTaken(s: P.Tables, now: Time, progress: P.Progress, k: nat, e: nat)
    requires OneRow(s, Enqueued, progress, k, e)
    ensures P.Allowed(s, Dequeue([DEFAULT_QUEUE], now), Ticket(ID))
    ensures P.Apply(s, Dequeue([DEFAULT_QUEUE], now), Ticket(ID)) == P.Set(s, ID, Processing, P.Beat(now), now)
  {
    assert P.Oldest(s, [DEFAULT_QUEUE], ID);
    hide Count;
  }

  lemma NewTicket(s: P.Tables, c: W.Control, act: W.Act, progress: P.Progress, k: nat, e: nat)
    requires OneRow(s, Enqueued, progress, k, e) && W.Guard(c, act) && act.Poll? && act.out == Ticket(ID)
    ensures W.At(W.Control'(PR.AbsOf(s), c, act), act.w) == W.Taken(ID, e + 1)
  {
    hide Count;
  }

  lemma LoadStep(cfg: Config, t: Timed, w: nat, progress: P.Progress, k: nat, e: nat)
    requires Only(t, Processing, progress, k, e) && Where(t, w).Taken? && Where(t, w).id == ID
    ensures Enabled(cfg, t, Work(W.Load(w)))
    ensures var u := Next(cfg, t, Work(W.Load(w)));
      && Only(u, Processing, progress, k, e) && u.beats == t.beats
      && OnlyWorker(t, u, w, W.Running(ID, Where(t, w).token, k, MAX))
  {
    hide Count;
  }

  lemma ReturnStep(cfg: Config, t: Timed, w: nat, verdict: W.Verdict, progress: P.Progress, k: nat, e: nat)
    requires Only(t, Processing, progress, k, e) && Where(t, w).Running? && Where(t, w).id == ID
    requires verdict == W.Failure || verdict == W.Success([])
    ensures Enabled(cfg, t, Work(W.Return(w, verdict)))
    ensures var u, p := Next(cfg, t, Work(W.Return(w, verdict))), Where(t, w);
      && Only(u, Processing, progress, k, e)
      && OnlyWorker(t, u, w, W.Finishing(ID, p.token, p.attempt, p.retryMax, if verdict == W.Failure then Failed else Succeeded))
  {
    hide Count;
  }

  lemma FinishStep(cfg: Config, t: Timed, w: nat, progress: P.Progress, k: nat, e: nat)
    requires Only(t, Processing, progress, k, e)
    requires Where(t, w).Finishing? && Where(t, w).id == ID && (Where(t, w).to == Failed || Where(t, w).to == Succeeded)
    ensures Enabled(cfg, t, Work(W.Finish(w, t.clock, Done)))
    ensures var u, p := Next(cfg, t, Work(W.Finish(w, t.clock, Done))), Where(t, w);
      p.to == Failed ==> Only(u, Failed, P.Null, k + 1, e) && OnlyWorker(t, u, w, W.Settling(ID, p.attempt, p.retryMax))
  {
    var s, act, to := t.cluster.backend.tables, W.Finish(w, t.clock, Done), Where(t, w).to;
    hide Count, Enabled, Next;
    AskStep(cfg, t, act, Event(ApplyState(ID, Processing, to, t.clock), Done));
    SetRow(s, Processing, progress, k, e, to, P.Null, t.clock);
    OnlyActor(t, Next(cfg, t, Work(act)), act);
  }

  lemma SettleStep(cfg: Config, t: Timed, w: nat, progress: P.Progress, k: nat, e: nat)
    requires Only(t, Failed, progress, k, e)
    requires Where(t, w).Settling? && Where(t, w).id == ID && Where(t, w).retryMax == MAX && Where(t, w).attempt + 1 < MAX
    ensures Enabled(cfg, t, Work(W.Settle(w, t.clock, 0, Done)))
    ensures var u, p := Next(cfg, t, Work(W.Settle(w, t.clock, 0, Done))), Where(t, w);
      && Only(u, Scheduled, progress, k, e) && OnlyWorker(t, u, w, W.Idle)
      && ID in u.cluster.backend.tables.scheduled
      && u.cluster.backend.tables.scheduled[ID] == t.clock + Backoff.RetryDelay(p.attempt, 0)
  {
    hide Count, Backoff.RetryDelay, Enabled, Next, P.Allowed, P.Apply, PR.AbsOf, OneRow, W.Guard, W.Asks, W.Control';
    var s, act := t.cluster.backend.tables, W.Settle(w, t.clock, 0, Done);
    var at := t.clock + Backoff.RetryDelay(Where(t, w).attempt, 0);
    SettleRow(s, at, t.clock, progress, k, e);
    SettlingAsks(t, w);
    OnlyHasRows(t, Failed, progress, k, e);
    AskStep(cfg, t, act, Event(ScheduleRetry(ID, at, t.clock), Done));
    OnlyActor(t, Next(cfg, t, Work(act)), act);
  }

  lemma OnlyHasRows(t: Timed, state: State, progress: P.Progress, k: nat, e: nat)
    requires Only(t, state, progress, k, e)
    ensures t.cluster.backend.Postgres? && P.Rows(t.cluster.backend.tables)
  {
  }

  /** A settling worker below the maximum asks for a retry, and is idle after it. */
  lemma SettlingAsks(t: Timed, w: nat)
    requires t.cluster.backend.Postgres?
    requires Where(t, w).Settling? && Where(t, w).retryMax == MAX && Where(t, w).attempt + 1 < MAX
    ensures var p, act := Where(t, w), W.Settle(w, t.clock, 0, Done);
      && W.Guard(t.cluster.control, act)
      && W.Asks(t.cluster.control, act)
         == W.Ask(Event(ScheduleRetry(p.id, t.clock + Backoff.RetryDelay(p.attempt, 0), t.clock), Done))
      && W.At(W.Control'(PR.AbsOf(t.cluster.backend.tables), t.cluster.control, act), w).Idle?
  {
    hide Backoff.RetryDelay, PR.AbsOf;
  }

  lemma SettleRow(s: P.Tables, at: Time, now: Time, progress: P.Progress, k: nat, e: nat)
    requires OneRow(s, Failed, progress, k, e)
    ensures P.Allowed(s, ScheduleRetry(ID, at, now), Done)
    ensures var u := P.Apply(s, ScheduleRetry(ID, at, now), Done);
      OneRow(u, Scheduled, progress, k, e) && ID in u.scheduled && u.scheduled[ID] == at
  {
    SetRow(s, Failed, progress, k, e, Scheduled, progress, now);
    hide Count;
  }

  function PromoteMove(t: Timed): Move {
    Work(W.Env(Event(GetDueScheduled(t.clock, 1), Promoted([ID]))))
  }

  lemma PromoteStep(cfg: Config, t: Timed, progress: P.Progress, k: nat, e: nat)
    requires Only(t, Scheduled, progress, k, e)
    requires ID in t.cluster.backend.tables.scheduled && t.cluster.backend.tables.scheduled[ID] <= t.clock
    ensures Enabled(cfg, t, PromoteMove(t))
    ensures var u := Next(cfg, t, PromoteMove(t));
      Only(u, Enqueued, progress, k, e) && OnlyWorker(t, u, 0, Where(t, 0)) && u.beats == t.beats
  {
    hide Count, P.PromoteAll, P.Allowed, P.Apply, P.Rows, Enabled, Next, PR.AbsOf, OneRow;
    var ev := Event(GetDueScheduled(t.clock, 1), Promoted([ID]));
    OnlyHasRows(t, Scheduled, progress, k, e);
    OnlyRowIsDue(t.cluster.backend.tables, t.clock, progress, k, e);
    PromoteRow(t.cluster.backend.tables, t.clock, progress, k, e);
    AskStep(cfg, t, W.Env(ev), ev);
  }

  lemma PromoteRow(s: P.Tables, now: Time, progress: P.Progress, k: nat, e: nat)
    requires OneRow(s, Scheduled, progress, k, e)
    ensures OneRow(P.PromoteAll(s, [ID], now), Enqueued, progress, k, e)
  {
    CountAppend(s.states[ID], Enqueued, Failed);
    CountAppend(s.states[ID], Enqueued, Processing);
    assert P.PromoteAll(s, [ID], now).jobs.Keys == {ID};
    hide Count;
  }

  lemma OnlyRowIsDue(s: P.Tables, now: Time, progress: P.Progress, k: nat, e: nat)
    requires OneRow(s, Scheduled, progress, k, e) && ID in s.scheduled && s.scheduled[ID] <= now
    ensures P.Allowed(s, GetDueScheduled(now, 1), Promoted([ID]))
    ensures P.Apply(s, GetDueScheduled(now, 1), Promoted([ID])) == P.PromoteAll(s, [ID], now)
  {
  }

  lemma ScanStep(cfg: Config, t: Timed, node: nat, beat: Time, k: nat, e: nat)
    requires Only(t, Processing, P.Beat(beat), k, e) && beat < t.clock - cfg.stale && node < cfg.nodes && Pending(t, node) == []
    ensures Enabled(cfg, t, Scan(node, [ID]))
    ensures Next(cfg, t, Scan(node, [ID])) == t.(pending := t.pending[node := [ID]])
  {
    hide Count;
  }

  lemma RecoverStep(cfg: Config, t: Timed, node: nat, state: State, progress: P.Progress, k: nat, e: nat)
    requires Only(t, state, progress, k, e) && !Irreversible(state) && node < cfg.nodes && Pending(t, node) == [ID]
    ensures Enabled(cfg, t, Recover(node, Done))
    ensures var u := Next(cfg, t, Recover(node, Done));
      && Only(u, Enqueued, P.Null, k, e) && u.cluster.control == t.cluster.control
      && u.clock == t.clock && u.beats == t.beats && u.pending == t.pending[node := []]
  {
    hide Count, P.Set, P.Allowed, P.Apply;
    RequeueRow(t.cluster.backend.tables, t.clock, state, progress, k, e);
  }

  lemma RequeueRow(s: P.Tables, now: Time, state: State, progress: P.Progress, k: nat, e: nat)
    requires OneRow(s, state, progress, k, e) && !Irreversible(state)
    ensures P.Allowed(s, Op.Requeue(ID, now), Done)
    ensures OneRow(P.Apply(s, Op.Requeue(ID, now), Done), Enqueued, P.Null, k, e)
  {
    SetRow(s, state, progress, k, e, Enqueued, P.Null, now);
    hide Count, P.Set;
  }

  lemma WaitStep(cfg: Config, t: Timed, until: Time)
    requires t.cluster.backend.Postgres? && t.clock <= until && Alive(cfg, t.cluster.control, t.beats, until)
    ensures Enabled(cfg, t, Wait(until)) && Next(cfg, t, Wait(until)) == t.(clock := until)
  {
  }

  lemma NobodyBusy(cfg: Config, t: Timed, until: Time)
    requires forall v: nat :: IdleNow(t, v)
    ensures Alive(cfg, t.cluster.control, t.beats, until)
  {
    forall v: nat ensures !Busy(W.At(t.cluster.control, v)) { assert IdleNow(t, v); }
  }

  lemma CrashStep(cfg: Config, t: Timed, w: nat)
    requires t.cluster.backend.Postgres?
    ensures Enabled(cfg, t, Work(W.Crash(w)))
    ensures var u := Next(cfg, t, Work(W.Crash(w)));
      u == t.(cluster := t.cluster.(control := u.cluster.control)) && OnlyWorker(t, u, w, W.Idle)
  {
  }

  // ----- reaching states -----

  lemma {:induction false} RunMore(cfg: Config, t: Timed, moves: seq<Move>, m: Move)
    requires Run(cfg, t, moves) && Enabled(cfg, After(cfg, t, moves), m)
    ensures Run(cfg, t, moves + [m]) && After(cfg, t, moves + [m]) == Next(cfg, After(cfg, t, moves), m)
    decreases |moves|
  {
    hide Enabled, Next;
    if |moves| == 0 {
      assert [] + [m] == [m];
    } else {
      RunMore(cfg, Next(cfg, t, moves[0]), moves[1..], m);
      assert (moves + [m])[1..] == moves[1..] + [m];
    }
  }

  lemma ReachMore(cfg: Config, t: Timed, m: Move)
    requires HandFreeReachable(cfg, t) && Enabled(cfg, t, m) && NoManual(m)
    ensures HandFreeReachable(cfg, Next(cfg, t, m))
  {
    hide Enabled, Next, NoManual;
    var moves :| Run(cfg, START, moves) && HandFree(moves) && After(cfg, START, moves) == t;
    RunMore(cfg, START, moves, m);
    assert HandFree(moves + [m]);
  }

  lemma StartIsReachable(cfg: Config)
    ensures HandFreeReachable(cfg, START)
  {
    assert Run(cfg, START, []) && HandFree([]) && After(cfg, START, []) == START;
  }

  lemma HandFreeIsReachable(cfg: Config, t: Timed)
    requires HandFreeReachable(cfg, t)
    ensures Reachable(cfg, t)
  {
  }

  /** Reached, with nobody busy and no list pending. */
  ghost predicate AtRest(cfg: Config, t: Timed, k: nat, e: nat) {
    && HandFreeReachable(cfg, t) && Only(t, Enqueued, P.Null, k, e) && t.pending == map[]
    && forall v: nat :: IdleNow(t, v)
  }

  lemma Created0(cfg: Config) returns (t: Timed)
    ensures AtRest(cfg, t, 0, 0)
  {
    StartIsReachable(cfg);
    CreateStep(cfg);
    ReachMore(cfg, START, CreateMove());
    t := Next(cfg, START, CreateMove());
    hide Enabled, Next, Only, HandFreeReachable;
  }

  lemma TakeAndLoad(cfg: Config, t: Timed, w: nat, k: nat, e: nat) returns (u: Timed)
    requires HandFreeReachable(cfg, t) && Only(t, Enqueued, P.Null, k, e) && IdleNow(t, w)
    ensures HandFreeReachable(cfg, u) && Only(u, Processing, P.Beat(t.clock), k, e + 1)
    ensures OnlyWorker(t, u, w, W.Running(ID, e + 1, k, MAX)) && u.beats == t.beats[w := t.clock]
  {
    hide Enabled, Next, Only, HandFreeReachable, IdleNow;
    TakeStep(cfg, t, w, P.Null, k, e);
    ReachMore(cfg, t, TakeMove(t, w));
    var taken := Next(cfg, t, TakeMove(t, w));
    LoadStep(cfg, taken, w, P.Beat(t.clock), k, e + 1);
    ReachMore(cfg, taken, Work(W.Load(w)));
    u := Next(cfg, taken, Work(W.Load(w)));
  }

  /** A running worker's handler fails and the failure is stored. */
  lemma FailAndStore(cfg: Config, t: Timed, w: nat, progress: P.Progress, k: nat, e: nat) returns (u: Timed)
    requires HandFreeReachable(cfg, t) && Only(t, Processing, progress, k, e)
    requires Where(t, w).Running? && Where(t, w).id == ID
    ensures HandFreeReachable(cfg, u) && Only(u, Failed, P.Null, k + 1, e)
    ensures OnlyWorker(t, u, w, W.Settling(ID, Where(t, w).attempt, Where(t, w).retryMax))
  {
    hide Enabled, Next, Only, HandFreeReachable;
    ReturnStep(cfg, t, w, W.Failure, progress, k, e);
    ReachMore(cfg, t, Work(W.Return(w, W.Failure)));
    var returned := Next(cfg, t, Work(W.Return(w, W.Failure)));
    FinishStep(cfg, returned, w, progress, k, e);
    ReachMore(cfg, returned, Work(W.Finish(w, returned.clock, Done)));
    u := Next(cfg, returned, Work(W.Finish(w, returned.clock, Done)));
  }

  /** ... and the retry is scheduled, by the attempt the worker read. */
  lemma FailAndReschedule(cfg: Config, t: Timed, w: nat, progress: P.Progress, k: nat, e: nat) returns (u: Timed)
    requires HandFreeReachable(cfg, t) && Only(t, Processing, progress, k, e)
    requires Where(t, w).Running? && Where(t, w).id == ID && Where(t, w).retryMax == MAX && Where(t, w).attempt + 1 < MAX
    ensures HandFreeReachable(cfg, u) && Only(u, Scheduled, P.Null, k + 1, e) && OnlyWorker(t, u, w, W.Idle)
    ensures ID in u.cluster.backend.tables.scheduled
    ensures u.cluster.backend.tables.scheduled[ID] == t.clock + Backoff.RetryDelay(Where(t, w).attempt, 0)
  {
    hide Enabled, Next, Only, HandFreeReachable, Backoff.RetryDelay;
    var stored := FailAndStore(cfg, t, w, progress, k, e);
    SettleStep(cfg, stored, w, P.Null, k + 1, e);
    ReachMore(cfg, stored, Work(W.Settle(w, stored.clock, 0, Done)));
    u := Next(cfg, stored, Work(W.Settle(w, stored.clock, 0, Done)));
  }

  lemma PromoteNow(cfg: Config, t: Timed, k: nat, e: nat) returns (u: Timed)
    requires HandFreeReachable(cfg, t) && Only(t, Scheduled, P.Null, k, e)
    requires ID in t.cluster.backend.tables.scheduled && t.cluster.backend.tables.scheduled[ID] <= t.clock
    ensures HandFreeReachable(cfg, u) && Only(u, Enqueued, P.Null, k, e) && OnlyWorker(t, u, 0, Where(t, 0))
  {
    hide Enabled, Next, Only, HandFreeReachable;
    PromoteStep(cfg, t, P.Null, k, e);
    ReachMore(cfg, t, PromoteMove(t));
    u := Next(cfg, t, PromoteMove(t));
  }

  /** One failing round of one worker, waiting out the delay. */
  lemma Round(cfg: Config, t: Timed, k: nat, e: nat) returns (u: Timed)
    requires AtRest(cfg, t, k, e) && k + 1 < MAX
    ensures AtRest(cfg, u, k + 1, e + 1)
  {
    hide Enabled, Next, Only, HandFreeReachable, Backoff.RetryDelay;
    assert IdleNow(t, 0);
    var running := TakeAndLoad(cfg, t, 0, k, e);
    var scheduled := FailAndReschedule(cfg, running, 0, P.Beat(t.clock), k, e + 1);
    forall v: nat ensures IdleNow(scheduled, v) { assert IdleNow(t, v); }
    OnPostgres(scheduled, Scheduled, P.Null, k + 1, e + 1);
    var at := scheduled.cluster.backend.tables.scheduled[ID];
    var until := if at > scheduled.clock then at else scheduled.clock;
    NobodyBusy(cfg, scheduled, until);
    WaitStep(cfg, scheduled, until);
    ReachMore(cfg, scheduled, Wait(until));
    var due := Next(cfg, scheduled, Wait(until));
    ClockDoesNotMatter(scheduled, due, Scheduled, P.Null, k + 1, e + 1);
    u := PromoteNow(cfg, due, k + 1, e + 1);
    forall v: nat ensures IdleNow(u, v) { assert IdleNow(scheduled, v); }
  }

  lemma OnPostgres(t: Timed, state: State, progress: P.Progress, k: nat, e: nat)
    requires Only(t, state, progress, k, e)
    ensures t.cluster.backend.Postgres?
  {
  }

  lemma ClockDoesNotMatter(t: Timed, u: Timed, state: State, progress: P.Progress, k: nat, e: nat)
    requires Only(t, state, progress, k, e) && u.cluster.backend == t.cluster.backend
    ensures Only(u, state, progress, k, e)
  {
  }

  lemma {:induction false} Rounds(cfg: Config, k: nat) returns (t: Timed)
    requires k < MAX
    ensures AtRest(cfg, t, k, k)
    decreases k
  {
    hide AtRest;
    if k == 0 {
      t := Created0(cfg);
    } else {
      var before := Rounds(cfg, k - 1);
      t := Round(cfg, before, k - 1, k - 1);
    }
  }

  // ----- two workers on one job -----

  /** A steal: a reached state and an enabled recovery of a job that a worker runs. */
  ghost predicate StealAt(cfg: Config, t: Timed, m: Move) {
    Reachable(cfg, t) && Enabled(cfg, t, m) && Steals(t, m)
  }

  /** Two workers run the job, the first on a ticket older than the second's, both
      having read the same number of failures. */
  ghost predicate Twins(cfg: Config, t: Timed, v: nat, w: nat, k: nat, e: nat) {
    && HandFreeReachable(cfg, t) && v != w && Only(t, Processing, P.Beat(t.clock), k, e)
    && Where(t, v).Running? && Where(t, v) == W.Running(ID, Where(t, v).token, k, MAX) && Where(t, v).token < e
    && Where(t, w) == W.Running(ID, e, k, MAX)
    && forall u: nat :: u != v && u != w ==> IdleNow(t, u)
  }

  /** The coordinator requeues the job under its worker, and another worker takes it. */
  lemma StealThenTwins(cfg: Config, t: Timed, node: nat, v: nat, w: nat, progress: P.Progress, k: nat, e: nat) returns (u: Timed)
    requires HandFreeReachable(cfg, t) && Only(t, Processing, progress, k, e) && node < cfg.nodes && Pending(t, node) == [ID]
    requires v != w && Where(t, v).Running? && Where(t, v) == W.Running(ID, Where(t, v).token, k, MAX) && Where(t, v).token <= e
    requires forall x: nat :: x != v ==> IdleNow(t, x)
    ensures StealAt(cfg, t, Recover(node, Done)) && Twins(cfg, u, v, w, k, e + 1)
  {
    hide Enabled, Next, Only, HandFreeReachable, Reachable;
    RecoverStep(cfg, t, node, Processing, progress, k, e);
    ReachMore(cfg, t, Recover(node, Done));
    HandFreeIsReachable(cfg, t);
    assert Runs(t.cluster.control, v, Pending(t, node)[0]) by { assert W.At(t.cluster.control, v) == Where(t, v); }
    assert Steals(t, Recover(node, Done));
    var free := Next(cfg, t, Recover(node, Done));
    assert IdleNow(t, w) && IdleNow(free, w);
    u := TakeAndLoad(cfg, free, w, k, e);
    forall x: nat | x != v && x != w ensures IdleNow(u, x) { assert IdleNow(t, x); }
  }

  /** A worker silent for longer than the scan waits loses its job. */
  lemma SilentWorkerLoses(cfg: Config, t0: Timed, k: nat, e: nat) returns (t: Timed, u: Timed)
    requires cfg.nodes > 0 && cfg.gap > cfg.stale && AtRest(cfg, t0, k, e)
    ensures StealAt(cfg, t, Recover(0, Done)) && Twins(cfg, u, 1, 2, k, e + 2)
  {
    hide Enabled, Next, Only, HandFreeReachable;
    assert IdleNow(t0, 1);
    var running := TakeAndLoad(cfg, t0, 1, k, e);
    var late := t0.clock + cfg.stale + 1;
    forall v: nat | v != 1 ensures IdleNow(running, v) { assert IdleNow(t0, v); }
    forall v: nat | v != 1 ensures !Busy(W.At(running.cluster.control, v)) { assert IdleNow(running, v); }
    OnPostgres(running, Processing, P.Beat(t0.clock), k, e + 1);
    assert W.At(running.cluster.control, 1) == Where(running, 1);
    WaitStep(cfg, running, late);
    ReachMore(cfg, running, Wait(late));
    var stale := Next(cfg, running, Wait(late));
    ClockDoesNotMatter(running, stale, Processing, P.Beat(t0.clock), k, e + 1);
    ScanStep(cfg, stale, 0, t0.clock, k, e + 1);
    ReachMore(cfg, stale, Scan(0, [ID]));
    t := Next(cfg, stale, Scan(0, [ID]));
    ClockDoesNotMatter(stale, t, Processing, P.Beat(t0.clock), k, e + 1);
    forall x: nat | x != 1 ensures IdleNow(t, x) { assert IdleNow(running, x); }
    u := StealThenTwins(cfg, t, 0, 1, 2, P.Beat(t0.clock), k, e + 1);
  }

  /** A worker died with the job and two coordinators have it on their lists. */
  lemma CrashAndScan(cfg: Config, t0: Timed, k: nat, e: nat) returns (t: Timed)
    requires cfg.nodes > 1 && AtRest(cfg, t0, k, e)
    ensures HandFreeReachable(cfg, t) && Only(t, Processing, P.Beat(t0.clock), k, e + 1)
    ensures t.pending == map[0 := [ID], 1 := [ID]] && forall v: nat :: IdleNow(t, v)
  {
    hide Enabled, Next, Only, HandFreeReachable;
    assert IdleNow(t0, 0);
    var running := TakeAndLoad(cfg, t0, 0, k, e);
    OnPostgres(running, Processing, P.Beat(t0.clock), k, e + 1);
    CrashStep(cfg, running, 0);
    ReachMore(cfg, running, Work(W.Crash(0)));
    var dead := Next(cfg, running, Work(W.Crash(0)));
    ClockDoesNotMatter(running, dead, Processing, P.Beat(t0.clock), k, e + 1);
    forall v: nat ensures IdleNow(dead, v) { assert IdleNow(t0, v); }
    var late := t0.clock + cfg.stale + 1;
    NobodyBusy(cfg, dead, late);
    WaitStep(cfg, dead, late);
    ReachMore(cfg, dead, Wait(late));
    var stale := Next(cfg, dead, Wait(late));
    ClockDoesNotMatter(dead, stale, Processing, P.Beat(t0.clock), k, e + 1);
    ScanStep(cfg, stale, 0, t0.clock, k, e + 1);
    ReachMore(cfg, stale, Scan(0, [ID]));
    var one := Next(cfg, stale, Scan(0, [ID]));
    ClockDoesNotMatter(stale, one, Processing, P.Beat(t0.clock), k, e + 1);
    ScanStep(cfg, one, 1, t0.clock, k, e + 1);
    ReachMore(cfg, one, Scan(1, [ID]));
    t := Next(cfg, one, Scan(1, [ID]));
    ClockDoesNotMatter(one, t, Processing, P.Beat(t0.clock), k, e + 1);
    forall v: nat ensures IdleNow(t, v) { assert IdleNow(dead, v); }
  }

  /** Two coordinators that scanned the same orphan: the second requeues it after
      a new worker took it from the first. */
  lemma TwoCoordinatorsSteal(cfg: Config, t0: Timed, k: nat, e: nat) returns (t: Timed, u: Timed)
    requires cfg.nodes > 1 && AtRest(cfg, t0, k, e)
    ensures StealAt(cfg, t, Recover(1, Done)) && Twins(cfg, u, 1, 2, k, e + 3)
  {
    hide Enabled, Next, Only, HandFreeReachable, AtRest, StealAt, Twins;
    var scanned := CrashAndScan(cfg, t0, k, e);
    RecoverStep(cfg, scanned, 0, Processing, P.Beat(t0.clock), k, e + 1);
    ReachMore(cfg, scanned, Recover(0, Done));
    var free := Next(cfg, scanned, Recover(0, Done));
    assert IdleNow(scanned, 1) && IdleNow(free, 1);
    t := TakeAndLoad(cfg, free, 1, k, e + 1);
    forall x: nat | x != 1 ensures IdleNow(t, x) { assert IdleNow(scanned, x); }
    u := StealThenTwins(cfg, t, 1, 1, 2, P.Beat(free.clock), k, e + 2);
  }

  /** Out of time, twins are reached after any number of failures the budget allows. */
  lemma TwinsAreReachable(cfg: Config, k: nat) returns (t: Timed, m: Move, u: Timed, e: nat)
    requires !InTime(cfg) && k < MAX
    ensures StealAt(cfg, t, m) && Twins(cfg, u, 1, 2, k, e)
  {
    hide StealAt, Twins, AtRest;
    var rest := Rounds(cfg, k);
    if cfg.nodes > 1 {
      t, u := TwoCoordinatorsSteal(cfg, rest, k, k);
      m, e := Recover(1, Done), k + 3;
    } else {
      t, u := SilentWorkerLoses(cfg, rest, k, k);
      m, e := Recover(0, Done), k + 2;
    }
  }
}
