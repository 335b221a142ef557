/** Workers, heartbeats and orphan recovery against a clock, over the Postgres tables.
    A coordinator scans for orphans in one query and requeues them one by one in
    later transactions; any number of nodes may each run a coordinator. The question
    is whether a job can be taken away from a worker that is still running it. */
module TimedSafety {
  import opened Lifecycle
  import opened Protocol
  import A = AbstractJobs
  import P = PostgresSpec
  import PR = PostgresRefinement
  import W = Workers
  import B = Backends
  import opened Custody

  /** How many nodes run a coordinator, the longest a running worker goes without a
      heartbeat, and the age at which an orphan scan gives a heartbeat up. */
  datatype Config = Config(nodes: nat, gap: nat, stale: nat)

  datatype Timed = Timed(
    cluster: B.Cluster, clock: Time, beats: map<nat, Time>, pending: map<nat, seq<JobId>>)

  const START := Timed(B.ON_POSTGRES, 0, map[], map[])

  datatype Move =
    | Wait(until: Time)
    | Work(act: W.Act)
    | Beat(w: nat)
    | Scan(node: nat, found: seq<JobId>)
    | Recover(node: nat, out: Outcome)
    | Restart(node: nat)

  function Pending(t: Timed, node: nat): seq<JobId> {
    if node in t.pending then t.pending[node] else []
  }

  /** On the list of a node's scan. */
  predicate Waits(t: Timed, node: nat, id: JobId) {
    id in Pending(t, node)
  }

  predicate OnceEach(t: Timed, node: nat) {
    Distinct(Pending(t, node))
  }

  /** A request carries the instant at which it is made. */
  predicate Timely(op: Op, clock: Time) {
    match op
    case Enqueue(_, _, _, now) => now == clock
    case AddScheduled(_, _, _, now) => now == clock
    case Dequeue(_, now) => now == clock
    case Requeue(_, now) => now == clock
    case ApplyState(_, _, _, now) => now == clock
    case ScheduleRetry(_, _, now) => now == clock
    case SetJobResult(_, _, now) => now == clock
    case HeartbeatJob(_, now) => now == clock
    case GetDueScheduled(now, _) => now == clock
    case DeleteJob(_, now) => now == clock
    case _ => true
  }

  /** Nobody requeues a processing job by hand. */
  predicate HandsOff(s: P.Tables, act: W.Act) {
    act.Env? && act.ev.op.Requeue? ==> !P.Has(s, act.ev.op.id, Processing)
  }

  /** Every running worker has been heard of within the gap. */
  ghost predicate Alive(cfg: Config, c: W.Control, beats: map<nat, Time>, clock: Time) {
    forall w :: Busy(W.At(c, w)) ==> w in beats && beats[w] <= clock <= beats[w] + cfg.gap
  }

  function BeatAct(t: Timed, w: nat): W.Act
    requires t.cluster.backend.Postgres? && Busy(W.At(t.cluster.control, w))
  {
    var id := W.At(t.cluster.control, w).id;
    W.Env(Event(HeartbeatJob(id, t.clock), if id in t.cluster.backend.tables.jobs then Done else Refused(NotFound)))
  }

  function RecoverEvent(t: Timed, m: Move): Event
    requires m.Recover? && |Pending(t, m.node)| > 0
  {
    Event(Op.Requeue(Pending(t, m.node)[0], t.clock), m.out)
  }

  ghost predicate Enabled(cfg: Config, t: Timed, m: Move) {
    && t.cluster.backend.Postgres?
    && match m
       case Wait(until) => t.clock <= until && Alive(cfg, t.cluster.control, t.beats, until)
       case Work(act) =>
         && B.Enabled(t.cluster, act)
         && (W.Asks(t.cluster.control, act).Ask? ==> Timely(W.Asks(t.cluster.control, act).ev.op, t.clock))
         && HandsOff(t.cluster.backend.tables, act)
       case Beat(w) => Busy(W.At(t.cluster.control, w)) && B.Enabled(t.cluster, BeatAct(t, w))
       case Scan(node, found) =>
         && node < cfg.nodes && |Pending(t, node)| == 0 && Distinct(found)
         && forall id :: id in found <==> id in P.Orphans(t.cluster.backend.tables, t.clock - cfg.stale)
       case Recover(node, out) =>
         && node < cfg.nodes && |Pending(t, node)| > 0
         && B.Allowed(t.cluster.backend, RecoverEvent(t, m))
       case Restart(node) => true
  }

  ghost function Next(cfg: Config, t: Timed, m: Move): Timed
    requires Enabled(cfg, t, m)
  {
    match m
    case Wait(until) => t.(clock := until)
    case Work(act) =>
      t.(cluster := B.Next(t.cluster, act),
         beats := if act.Poll? && act.out.Ticket? then t.beats[act.w := t.clock] else t.beats)
    case Beat(w) => t.(cluster := B.Next(t.cluster, BeatAct(t, w)), beats := t.beats[w := t.clock])
    case Scan(node, found) => t.(pending := t.pending[node := found])
    case Recover(node, _) =>
      t.(cluster := t.cluster.(backend := B.Apply(t.cluster.backend, RecoverEvent(t, m))),
         pending := t.pending[node := Pending(t, node)[1..]])
    case Restart(node) => t.(pending := t.pending[node := []])
  }

  ghost predicate Run(cfg: Config, t: Timed, moves: seq<Move>)
    decreases |moves|
  {
    |moves| == 0 || (Enabled(cfg, t, moves[0]) && Run(cfg, Next(cfg, t, moves[0]), moves[1..]))
  }

  ghost function After(cfg: Config, t: Timed, moves: seq<Move>): Timed
    requires Run(cfg, t, moves)
    decreases |moves|
  {
    if |moves| == 0 then t else After(cfg, Next(cfg, t, moves[0]), moves[1..])
  }

  /** A requeue that succeeds although some worker is running the job. */
  ghost predicate Steals(t: Timed, m: Move) {
    && m.Recover? && m.out.Done? && |Pending(t, m.node)| > 0
    && exists w :: Runs(t.cluster.control, w, Pending(t, m.node)[0])
  }

  // ----- rows under disciplined requests -----

  /** Out of everybody's reach: settled, or already erased. */
  predicate Settled(s: P.Tables, id: JobId) {
    id in s.jobs ==> Irreversible(s.jobs[id].state)
  }

  predicate BeatSince(s: P.Tables, id: JobId, since: Time) {
    P.Has(s, id, Processing) && s.jobs[id].progress.Beat? && since <= s.jobs[id].progress.at
  }

  predicate Moves(ev: Event, id: JobId) {
    (ev.op.Requeue? || ev.op.ApplyState?) && ev.op.id == id && ev.out.Done?
  }

  ghost predicate Served(s: P.Tables, used: set<JobId>, ev: Event) {
    && P.Rows(s) && P.Consistent(s) && P.Allowed(s, ev.op, ev.out)
    && BasicOp(used, ev.op)
  }

  lemma PromotedAreScheduled(s: P.Tables, now: Time, batch: int, ids: seq<JobId>, id: JobId)
    requires P.Consistent(s) && P.Selected(s, now, batch, ids) && id in ids
    ensures P.Has(s, id, Scheduled)
  {
    var i :| 0 <= i < |ids| && ids[i] == id;
    assert P.Due(s, now, ids[i]);
  }

  lemma SettledStays(s: P.Tables, used: set<JobId>, ev: Event, id: JobId)
    requires Served(s, used, ev) && id in used && Settled(s, id)
    ensures Settled(P.Apply(s, ev.op, ev.out), id)
  {
    if ev.op.GetDueScheduled? && id in ev.out.ids {
      PromotedAreScheduled(s, ev.op.now, ev.op.batch, ev.out.ids, id);
    }
    hide P.Consistent, P.Selected;
  }

  lemma ProcessingStays(s: P.Tables, used: set<JobId>, ev: Event, id: JobId, since: Time, clock: Time)
    requires Served(s, used, ev) && id in used && since <= clock && Timely(ev.op, clock)
    requires P.Has(s, id, Processing) && !Moves(ev, id)
    ensures var t := P.Apply(s, ev.op, ev.out);
      Settled(t, id) || (P.Has(t, id, Processing) && (BeatSince(s, id, since) ==> BeatSince(t, id, since)))
  {
    if ev.op.GetDueScheduled? && id in ev.out.ids {
      PromotedAreScheduled(s, ev.op.now, ev.op.batch, ev.out.ids, id);
    }
    hide P.Consistent, P.Selected;
  }

  // ----- one coordinator, heartbeats in time -----

  predicate Tended(s: P.Tables, id: JobId, since: Time) {
    Settled(s, id) || BeatSince(s, id, since)
  }

  /** Nobody will miss the job when the coordinator requeues it. */
  ghost predicate Loose(s: P.Tables, c: W.Control, id: JobId) {
    Settled(s, id) || (P.Has(s, id, Processing) && forall w :: !Runs(c, w, id))
  }

  predicate InTime(cfg: Config) {
    cfg.nodes == 0 || (cfg.nodes == 1 && cfg.gap <= cfg.stale)
  }

  ghost predicate AllTended(s: P.Tables, used: set<JobId>, c: W.Control, beats: map<nat, Time>) {
    forall w, id :: Runs(c, w, id) ==> w in beats && id in used && Tended(s, id, beats[w])
  }

  ghost predicate AllLoose(cfg: Config, t: Timed, s: P.Tables, c: W.Control) {
    forall n: nat, id :: Waits(t, n, id) ==> n < cfg.nodes && id in t.cluster.used && Loose(s, c, id)
  }

  ghost predicate Safe(cfg: Config, t: Timed) {
    && t.cluster.backend.Postgres? && B.Inv(t.cluster)
    && Alive(cfg, t.cluster.control, t.beats, t.clock)
    && AllTended(t.cluster.backend.tables, t.cluster.used, t.cluster.control, t.beats)
    && OneRunner(t.cluster.control)
    && AllLoose(cfg, t, t.cluster.backend.tables, t.cluster.control)
    && forall n: nat :: OnceEach(t, n)
  }

  lemma RunnersAreNoOrphans(cfg: Config, t: Timed, w: nat, id: JobId)
    requires Safe(cfg, t) && cfg.gap <= cfg.stale && Runs(t.cluster.control, w, id)
    ensures !P.Orphan(t.cluster.backend.tables, t.clock - cfg.stale, id)
  {
    hide B.Inv, Distinct;
  }

  /** The orphans of a scan are held by nobody: their heartbeat is older than any
      running worker's can be. */
  lemma OrphansAreLoose(cfg: Config, t: Timed, id: JobId)
    requires Safe(cfg, t) && cfg.gap <= cfg.stale && id in P.Orphans(t.cluster.backend.tables, t.clock - cfg.stale)
    ensures Loose(t.cluster.backend.tables, t.cluster.control, id) && id in t.cluster.used
  {
    hide B.Inv, Distinct;
    var s, c := t.cluster.backend.tables, t.cluster.control;
    forall w ensures !Runs(c, w, id) {
      if Runs(c, w, id) { RunnersAreNoOrphans(cfg, t, w, id); }
    }
    JobsAreUsed(t.cluster, id);
  }

  lemma JobsAreUsed(c: B.Cluster, id: JobId)
    requires c.backend.Postgres? && B.Inv(c) && id in c.backend.tables.jobs
    ensures id in c.used
  {
    B.JobsAgree(c.backend);
  }

  lemma PendingIsLoose(cfg: Config, t: Timed, n: nat, id: JobId)
    requires Safe(cfg, t) && Waits(t, n, id)
    ensures n < cfg.nodes && id in t.cluster.used && Loose(t.cluster.backend.tables, t.cluster.control, id)
  {
    hide B.Inv, Loose, Distinct;
  }

  lemma RunnerIsTended(t: Timed, cfg: Config, w: nat, id: JobId)
    requires Safe(cfg, t) && Runs(t.cluster.control, w, id)
    ensures w in t.beats && id in t.cluster.used && t.beats[w] <= t.clock <= t.beats[w] + cfg.gap
    ensures Tended(t.cluster.backend.tables, id, t.beats[w])
    ensures forall v :: Runs(t.cluster.control, v, id) ==> v == w
  {
    hide B.Inv, Tended, Loose, Distinct;
  }

  /** The parts of safety that speak about workers, from one worker at a time. */
  lemma SafeFromRunners(cfg: Config, u: Timed)
    requires u.cluster.backend.Postgres? && B.Inv(u.cluster)
    requires forall w, id :: Runs(u.cluster.control, w, id) ==>
      && w in u.beats && id in u.cluster.used && u.beats[w] <= u.clock <= u.beats[w] + cfg.gap
      && Tended(u.cluster.backend.tables, id, u.beats[w])
    requires OneRunner(u.cluster.control)
    requires AllLoose(cfg, u, u.cluster.backend.tables, u.cluster.control)
    requires forall n: nat :: OnceEach(u, n)
    ensures Safe(cfg, u)
  {
    hide B.Inv, Tended, Loose, Distinct, Pending, Waits, OnceEach;
    forall w | Busy(W.At(u.cluster.control, w)) ensures w in u.beats && u.beats[w] <= u.clock <= u.beats[w] + cfg.gap {
      assert Runs(u.cluster.control, w, W.At(u.cluster.control, w).id);
    }
  }

  lemma ScanPending(cfg: Config, t: Timed, m: Move, n: nat, id: JobId)
    requires Safe(cfg, t) && InTime(cfg) && Enabled(cfg, t, m) && m.Scan? && Waits(Next(cfg, t, m), n, id)
    ensures n < cfg.nodes && id in t.cluster.used && Loose(t.cluster.backend.tables, t.cluster.control, id)
  {
    hide B.Inv, Loose, P.Orphans, Distinct;
    if n == m.node {
      assert id in m.found;
      OrphansAreLoose(cfg, t, id);
    } else {
      PendingIsLoose(cfg, t, n, id);
    }
  }

  lemma ScanIsDistinct(cfg: Config, t: Timed, m: Move, n: nat)
    requires Safe(cfg, t) && Enabled(cfg, t, m) && m.Scan?
    ensures OnceEach(Next(cfg, t, m), n)
  {
    hide B.Inv, Loose;
    assert OnceEach(t, n);
  }

  lemma SamePending(t: Timed, u: Timed, n: nat)
    requires u.pending == t.pending
    ensures OnceEach(u, n) == OnceEach(t, n) && forall id :: Waits(u, n, id) == Waits(t, n, id)
  {
  }

  lemma SafeOnce(cfg: Config, t: Timed, n: nat)
    requires Safe(cfg, t)
    ensures OnceEach(t, n)
  {
  }

  lemma SafeParts(cfg: Config, t: Timed)
    requires Safe(cfg, t)
    ensures t.cluster.backend.Postgres? && B.Inv(t.cluster) && OneRunner(t.cluster.control)
  {
  }

  lemma ScanKeepsSafe(cfg: Config, t: Timed, m: Move)
    requires Safe(cfg, t) && InTime(cfg) && Enabled(cfg, t, m) && m.Scan?
    ensures Safe(cfg, Next(cfg, t, m))
  {
    var u := Next(cfg, t, m);
    assert u.cluster == t.cluster && u.beats == t.beats && u.clock == t.clock;
    hide Safe, B.Inv, Tended, Loose, Next, Enabled, OneRunner, Distinct, Pending, Waits, OnceEach, InTime, Runs;
    SafeParts(cfg, t);
    forall n: nat, id | Waits(u, n, id)
      ensures n < cfg.nodes && id in u.cluster.used && Loose(u.cluster.backend.tables, u.cluster.control, id)
    {
      ScanPending(cfg, t, m, n, id);
    }
    forall w, id | Runs(u.cluster.control, w, id)
      ensures w in u.beats && id in u.cluster.used && u.beats[w] <= u.clock <= u.beats[w] + cfg.gap
      ensures Tended(u.cluster.backend.tables, id, u.beats[w])
    {
      RunnerIsTended(t, cfg, w, id);
    }
    forall n: nat ensures OnceEach(u, n) { ScanIsDistinct(cfg, t, m, n); }
    SafeFromRunners(cfg, u);
  }

  lemma WaitKeepsSafe(cfg: Config, t: Timed, m: Move)
    requires Safe(cfg, t) && Enabled(cfg, t, m) && (m.Wait? || m.Restart?)
    ensures Safe(cfg, Next(cfg, t, m))
  {
    var u := Next(cfg, t, m);
    SafeParts(cfg, t);
    hide B.Inv, Loose, Tended, Pending, Waits, OnceEach, OneRunner;
    forall w, id | Runs(u.cluster.control, w, id)
      ensures w in u.beats && id in u.cluster.used && u.beats[w] <= u.clock <= u.beats[w] + cfg.gap
      ensures Tended(u.cluster.backend.tables, id, u.beats[w])
    {
      RunnerIsTended(t, cfg, w, id);
    }
    hide Safe, Enabled, Runs;
    forall n: nat, id | Waits(u, n, id)
      ensures n < cfg.nodes && id in u.cluster.used && Loose(u.cluster.backend.tables, u.cluster.control, id)
    {
      FewerPending(t, u, m, n);
      PendingIsLoose(cfg, t, n, id);
    }
    forall n: nat ensures OnceEach(u, n) {
      SafeOnce(cfg, t, n);
      FewerPending(t, u, m, n);
    }
    SafeFromRunners(cfg, u);
  }

  lemma FewerPending(t: Timed, u: Timed, m: Move, n: nat)
    requires u.pending == if m.Restart? then t.pending[m.node := []] else t.pending
    ensures OnceEach(t, n) ==> OnceEach(u, n)
    ensures forall id :: Waits(u, n, id) ==> Waits(t, n, id)
  {
  }

  /** Everything a disciplined request leaves as it was: every tended job stays tended
      and every loose one loose, except the one it moves. */
  lemma RequestKeeps(s: P.Tables, used: set<JobId>, ev: Event, c: W.Control, id: JobId, since: Time, clock: Time)
    requires Served(s, used, ev) && id in used && since <= clock && Timely(ev.op, clock) && !Moves(ev, id)
    ensures Tended(s, id, since) ==> Tended(P.Apply(s, ev.op, ev.out), id, since)
    ensures Loose(s, c, id) ==> Loose(P.Apply(s, ev.op, ev.out), c, id)
  {
    if Settled(s, id) {
      SettledStays(s, used, ev, id);
    } else if P.Has(s, id, Processing) {
      ProcessingStays(s, used, ev, id, since, clock);
    }
    hide P.Apply, Served, Settled, P.Has;
  }

  /** A worker comes to run a job only by dequeuing it. */
  lemma RunnersPersist(a: A.Abs, c: W.Control, act: W.Act, w: nat, id: JobId)
    requires W.Guard(c, act) && Runs(W.Control'(a, c, act), w, id)
    ensures Runs(c, w, id) || (act.Poll? && act.w == w && act.out == Ticket(id))
    ensures act.Finish? ==> act.w != w
    ensures act.Poll? && act.w == w ==> act.out == Ticket(id)
  {
  }

  /** The requests of workers and of hands-off callers move no job that somebody else
      runs, nor one that waits for its recovery. */
  lemma NobodyMoves(c: B.Cluster, act: W.Act, id: JobId)
    requires c.backend.Postgres? && B.Enabled(c, act) && HandsOff(c.backend.tables, act)
    requires W.Asks(c.control, act).Ask?
    requires Settled(c.backend.tables, id) || P.Has(c.backend.tables, id, Processing)
    requires act.Finish? && Runs(c.control, act.w, id) ==> Settled(c.backend.tables, id)
    ensures !Moves(W.Asks(c.control, act).ev, id)
  {
  }

  lemma IsServed(c: B.Cluster, ev: Event)
    requires c.backend.Postgres? && B.Inv(c) && B.Allowed(c.backend, ev) && A.Disciplined(B.View(c.backend), c.used, ev.op)
    ensures Served(c.backend.tables, c.used, ev)
  {
    hide P.Allowed, P.Consistent, B.View;
  }

  /** What a worker's or a caller's act does to the store, seen from one job. */
  lemma WorkKeeps(cfg: Config, t: Timed, act: W.Act, id: JobId, since: Time)
    requires Safe(cfg, t) && Enabled(cfg, t, Work(act)) && id in t.cluster.used && since <= t.clock
    requires act.Finish? && Runs(t.cluster.control, act.w, id) ==> Settled(t.cluster.backend.tables, id)
    ensures var s, s' := t.cluster.backend.tables, B.Next(t.cluster, act).backend;
      s'.Postgres? && (Tended(s, id, since) ==> Tended(s'.tables, id, since))
      && (Loose(s, t.cluster.control, id) ==> Loose(s'.tables, t.cluster.control, id))
  {
    var c := t.cluster;
    if W.Asks(c.control, act).Ask? {
      var ev := W.Asks(c.control, act).ev;
      IsServed(c, ev);
      if Tended(c.backend.tables, id, since) || Loose(c.backend.tables, c.control, id) {
        NobodyMoves(c, act, id);
        RequestKeeps(c.backend.tables, c.used, ev, c.control, id, since, t.clock);
      }
    }
    hide Safe, Settled, P.Has, P.Apply, P.Allowed, Served, A.Disciplined, Timely, HandsOff;
  }

  lemma EnqueuedIsFree(cfg: Config, t: Timed, w: nat, id: JobId)
    requires Safe(cfg, t) && P.Has(t.cluster.backend.tables, id, Enqueued)
    ensures !Runs(t.cluster.control, w, id)
  {
    hide B.Inv, Distinct, Loose;
  }

  lemma TicketIsEnqueued(c: B.Cluster, act: W.Act, id: JobId)
    requires c.backend.Postgres? && B.Enabled(c, act) && act.Poll? && act.out == Ticket(id)
    ensures P.Has(c.backend.tables, id, Enqueued)
    ensures B.Next(c, act).backend.Postgres?
    ensures forall clock :: Timely(W.Asks(c.control, act).ev.op, clock) ==> BeatSince(B.Next(c, act).backend.tables, id, clock)
  {
    hide B.View, A.Disciplined, W.Control';
  }

  lemma EnqueuedIsNotLoose(s: P.Tables, c: W.Control, id: JobId)
    requires P.Has(s, id, Enqueued)
    ensures !Loose(s, c, id)
  {
  }

  lemma WorkIsTimely(cfg: Config, t: Timed, act: W.Act)
    requires Enabled(cfg, t, Work(act))
    ensures B.Enabled(t.cluster, act)
    ensures W.Asks(t.cluster.control, act).Ask? ==> Timely(W.Asks(t.cluster.control, act).ev.op, t.clock)
  {
  }

  /** A job that a dequeue hands out is run by nobody yet. */
  lemma TicketIsFree(cfg: Config, t: Timed, act: W.Act, id: JobId)
    requires Safe(cfg, t) && Enabled(cfg, t, Work(act)) && act.Poll? && act.out == Ticket(id)
    ensures id in t.cluster.used && forall w :: !Runs(t.cluster.control, w, id)
    ensures !Loose(t.cluster.backend.tables, t.cluster.control, id)
    ensures B.Next(t.cluster, act).backend.Postgres? && BeatSince(B.Next(t.cluster, act).backend.tables, id, t.clock)
  {
    SafeParts(cfg, t);
    WorkIsTimely(cfg, t, act);
    hide Safe, Enabled, B.Inv, B.Enabled, B.Next, BeatSince, Loose, Runs, B.Allowed, B.Apply;
    TicketIsEnqueued(t.cluster, act, id);
    JobsAreUsed(t.cluster, id);
    EnqueuedIsNotLoose(t.cluster.backend.tables, t.cluster.control, id);
    forall w ensures !Runs(t.cluster.control, w, id) { EnqueuedIsFree(cfg, t, w, id); }
  }

  /** Acts of workers and callers keep every running worker tended, alone on its job,
      and every waiting orphan loose. */
  lemma WorkKeepsRunner(cfg: Config, t: Timed, act: W.Act, w: nat, id: JobId)
    requires Safe(cfg, t) && Enabled(cfg, t, Work(act))
    requires Runs(B.Next(t.cluster, act).control, w, id)
    ensures var u := Next(cfg, t, Work(act));
      && w in u.beats && id in u.cluster.used && u.beats[w] <= u.clock <= u.beats[w] + cfg.gap
      && u.cluster.backend.Postgres? && Tended(u.cluster.backend.tables, id, u.beats[w])
    ensures !(act.Poll? && act.out == Ticket(id)) ==> Runs(t.cluster.control, w, id)
    ensures act.Poll? && act.out == Ticket(id) ==> w == act.w
  {
    hide Safe, BeatSince, Loose, B.Apply, B.Allowed, A.Disciplined, W.Control', Timely, HandsOff, B.View, Settled;
    RunnersPersist(B.View(t.cluster.backend), t.cluster.control, act, w, id);
    hide Runs;
    if act.Poll? && act.out == Ticket(id) {
      TicketIsFree(cfg, t, act, id);
    } else {
      RunnerIsTended(t, cfg, w, id);
      WorkKeeps(cfg, t, act, id, t.beats[w]);
    }
  }

  lemma WorkKeepsPending(cfg: Config, t: Timed, act: W.Act, n: nat, id: JobId)
    requires Safe(cfg, t) && Enabled(cfg, t, Work(act)) && Waits(t, n, id)
    ensures B.Next(t.cluster, act).backend.Postgres?
    ensures n < cfg.nodes && id in B.Next(t.cluster, act).used
    ensures Loose(B.Next(t.cluster, act).backend.tables, B.Next(t.cluster, act).control, id)
  {
    var c, d := t.cluster, B.Next(t.cluster, act);
    PendingIsLoose(cfg, t, n, id);
    WorkKeeps(cfg, t, act, id, t.clock);
    forall w ensures Runs(d.control, w, id) ==> Runs(c.control, w, id) {
      if Runs(d.control, w, id) {
        RunnersPersist(B.View(c.backend), c.control, act, w, id);
        if act.Poll? && act.out == Ticket(id) { TicketIsFree(cfg, t, act, id); }
      }
    }
    hide Safe, Runs, Settled, P.Has, B.Apply, B.Allowed, A.Disciplined, W.Control', Timely, HandsOff, B.View;
  }

  lemma WorkKeepsOneRunner(cfg: Config, t: Timed, act: W.Act)
    requires Safe(cfg, t) && Enabled(cfg, t, Work(act))
    ensures OneRunner(B.Next(t.cluster, act).control)
  {
    var d := B.Next(t.cluster, act).control;
    forall v, w, id | Runs(d, v, id) && Runs(d, w, id) ensures v == w {
      WorkKeepsRunner(cfg, t, act, v, id);
      WorkKeepsRunner(cfg, t, act, w, id);
      if !(act.Poll? && act.out == Ticket(id)) { RunnerIsTended(t, cfg, v, id); }
    }
  }

  lemma WorkNext(cfg: Config, t: Timed, act: W.Act)
    requires Enabled(cfg, t, Work(act))
    ensures var u := Next(cfg, t, Work(act));
      u.cluster == B.Next(t.cluster, act) && u.pending == t.pending && u.clock == t.clock
  {
    hide B.Enabled, B.Next;
  }

  lemma WorkKeepsSafe(cfg: Config, t: Timed, act: W.Act)
    requires Safe(cfg, t) && Enabled(cfg, t, Work(act))
    ensures Safe(cfg, Next(cfg, t, Work(act)))
  {
    hide Safe, B.Inv, Tended, Loose, B.Next, B.Enabled, Enabled, Next, Runs, OneRunner, Waits, OnceEach, Pending;
    var u := Next(cfg, t, Work(act));
    SafeParts(cfg, t);
    WorkIsTimely(cfg, t, act);
    WorkNext(cfg, t, act);
    B.ActRefines(t.cluster, act);
    StaysPostgres(t.cluster, act);
    forall w, id | Runs(u.cluster.control, w, id)
      ensures w in u.beats && id in u.cluster.used && u.beats[w] <= u.clock <= u.beats[w] + cfg.gap
      ensures Tended(u.cluster.backend.tables, id, u.beats[w])
    {
      WorkKeepsRunner(cfg, t, act, w, id);
    }
    WorkKeepsOneRunner(cfg, t, act);
    forall n: nat, id | Waits(u, n, id)
      ensures n < cfg.nodes && id in u.cluster.used && Loose(u.cluster.backend.tables, u.cluster.control, id)
    {
      SamePending(t, u, n);
      WorkKeepsPending(cfg, t, act, n, id);
    }
    forall n: nat ensures OnceEach(u, n) {
      SamePending(t, u, n);
      SafeOnce(cfg, t, n);
    }
    SafeFromRunners(cfg, u);
  }

  lemma StaysPostgres(c: B.Cluster, act: W.Act)
    requires B.Enabled(c, act) && c.backend.Postgres?
    ensures B.Next(c, act).backend.Postgres?
  {
    hide P.Apply, P.Allowed, A.Disciplined, W.Control';
  }

  lemma BeatIsWork(cfg: Config, t: Timed, m: Move)
    requires Enabled(cfg, t, m) && m.Beat?
    ensures Enabled(cfg, t, Work(BeatAct(t, m.w)))
    ensures Next(cfg, t, m) == Next(cfg, t, Work(BeatAct(t, m.w))).(beats := t.beats[m.w := t.clock])
    ensures Next(cfg, t, m).cluster.control == t.cluster.control
  {
    hide B.Apply, B.Allowed, A.Disciplined;
  }

  lemma BeatReachesTheRow(t: Timed, w: nat, since: Time)
    requires t.cluster.backend.Postgres? && Busy(W.At(t.cluster.control, w)) && B.Enabled(t.cluster, BeatAct(t, w))
    requires Tended(t.cluster.backend.tables, W.At(t.cluster.control, w).id, since) && since <= t.clock
    ensures B.Next(t.cluster, BeatAct(t, w)).backend.Postgres?
    ensures Tended(B.Next(t.cluster, BeatAct(t, w)).backend.tables, W.At(t.cluster.control, w).id, t.clock)
  {
  }

  lemma BeatKeepsSafe(cfg: Config, t: Timed, m: Move)
    requires Safe(cfg, t) && Enabled(cfg, t, m) && m.Beat?
    ensures Safe(cfg, Next(cfg, t, m))
  {
    var work, u, id := Next(cfg, t, Work(BeatAct(t, m.w))), Next(cfg, t, m), W.At(t.cluster.control, m.w).id;
    BeatIsWork(cfg, t, m);
    WorkKeepsSafe(cfg, t, BeatAct(t, m.w));
    assert Runs(t.cluster.control, m.w, id);
    RunnerIsTended(t, cfg, m.w, id);
    BeatReachesTheRow(t, m.w, t.beats[m.w]);
    BeatOnly(t, work, u, m.w);
    assert work.cluster == B.Next(t.cluster, BeatAct(t, m.w)) && work.clock == t.clock;
    hide Safe, B.Inv, Tended, Loose, B.Next, B.Enabled, Enabled, Next, OneRunner, Waits, OnceEach, Pending, BeatAct;
    SafeParts(cfg, work);
    forall w, x | Runs(u.cluster.control, w, x)
      ensures w in u.beats && x in u.cluster.used && u.beats[w] <= u.clock <= u.beats[w] + cfg.gap
      ensures Tended(u.cluster.backend.tables, x, u.beats[w])
    {
      RunnerIsTended(work, cfg, w, x);
    }
    forall n: nat, x | Waits(u, n, x)
      ensures n < cfg.nodes && x in u.cluster.used && Loose(u.cluster.backend.tables, u.cluster.control, x)
    {
      SamePending(work, u, n);
      PendingIsLoose(cfg, work, n, x);
    }
    forall n: nat ensures OnceEach(u, n) {
      SamePending(work, u, n);
      SafeOnce(cfg, work, n);
    }
    SafeFromRunners(cfg, u);
  }

  /** A heartbeat changes nothing but its own worker's last beat. */
  lemma BeatOnly(t: Timed, work: Timed, u: Timed, w: nat)
    requires u == work.(beats := t.beats[w := t.clock])
    ensures u.cluster == work.cluster && u.pending == work.pending && u.clock == work.clock
    ensures w in u.beats && u.beats[w] == t.clock && forall v :: v != w && v in t.beats ==> v in u.beats && u.beats[v] == t.beats[v]
  {
  }

  // ----- recovery -----

  lemma LooseRequeue(cfg: Config, t: Timed, m: Move)
    requires Safe(cfg, t) && Enabled(cfg, t, m) && m.Recover?
    ensures A.Disciplined(B.View(t.cluster.backend), t.cluster.used, RecoverEvent(t, m).op)
    ensures m.out.Done? ==> forall w :: !Runs(t.cluster.control, w, Pending(t, m.node)[0])
  {
    var id := Pending(t, m.node)[0];
    PendingIsLoose(cfg, t, m.node, id);
    PR.ReadsAgree(t.cluster.backend.tables, id);
    hide Runs, PR.AbsOf;
  }

  lemma RecoverKeepsOthers(cfg: Config, t: Timed, m: Move, id: JobId, since: Time)
    requires Safe(cfg, t) && Enabled(cfg, t, m) && m.Recover? && id in t.cluster.used && since <= t.clock
    requires m.out.Done? ==> id != Pending(t, m.node)[0]
    ensures var s, s' := t.cluster.backend.tables, B.Apply(t.cluster.backend, RecoverEvent(t, m));
      s'.Postgres? && (Tended(s, id, since) ==> Tended(s'.tables, id, since))
      && (Loose(s, t.cluster.control, id) ==> Loose(s'.tables, t.cluster.control, id))
  {
    LooseRequeue(cfg, t, m);
    var ev := RecoverEvent(t, m);
    IsServed(t.cluster, ev);
    RequestKeeps(t.cluster.backend.tables, t.cluster.used, ev, t.cluster.control, id, since, t.clock);
    hide Tended, Loose, Served, P.Apply, P.Allowed;
  }

  lemma RecoverKeepsInv(cfg: Config, t: Timed, m: Move)
    requires Safe(cfg, t) && Enabled(cfg, t, m) && m.Recover?
    ensures B.Inv(Next(cfg, t, m).cluster) && Next(cfg, t, m).cluster.backend.Postgres?
  {
    LooseRequeue(cfg, t, m);
    var ev := RecoverEvent(t, m);
    B.RequestRefines(t.cluster.backend, t.cluster.used, ev);
    A.AbsStepKeepsInv(B.View(t.cluster.backend), t.cluster.used, ev.op, ev.out);
    hide B.View, B.Sound, B.Allowed, P.Apply, A.Apply, A.Allowed, A.Disciplined, A.AbsInv;
  }

  /** With one coordinator the head of the list is not on it twice, nor on another. */
  lemma RecoverKeepsSafe(cfg: Config, t: Timed, m: Move)
    requires Safe(cfg, t) && InTime(cfg) && Enabled(cfg, t, m) && m.Recover?
    ensures Safe(cfg, Next(cfg, t, m))
  {
    var u, head := Next(cfg, t, m), Pending(t, m.node)[0];
    SafeParts(cfg, t);
    assert u.cluster.control == t.cluster.control && u.cluster.used == t.cluster.used && u.beats == t.beats && u.clock == t.clock;
    assert u.cluster.backend == B.Apply(t.cluster.backend, RecoverEvent(t, m));
    hide Safe, B.Inv, Tended, Loose, Enabled, Next, OneRunner, Waits, OnceEach, Pending, InTime, RecoverEvent, Runs, B.Apply, B.Allowed;
    LooseRequeue(cfg, t, m);
    RecoverKeepsInv(cfg, t, m);
    forall w, x | Runs(u.cluster.control, w, x)
      ensures w in u.beats && x in u.cluster.used && u.beats[w] <= u.clock <= u.beats[w] + cfg.gap
      ensures Tended(u.cluster.backend.tables, x, u.beats[w])
    {
      RunnerIsTended(t, cfg, w, x);
      RecoverKeepsOthers(cfg, t, m, x, t.beats[w]);
    }
    forall n: nat, x | Waits(u, n, x)
      ensures n < cfg.nodes && x in u.cluster.used && Loose(u.cluster.backend.tables, u.cluster.control, x)
    {
      TailIsPending(cfg, t, m, n, x);
      PendingIsLoose(cfg, t, n, x);
      RecoverKeepsOthers(cfg, t, m, x, t.clock);
    }
    forall n: nat ensures OnceEach(u, n) { TailIsDistinct(cfg, t, m, n); }
    SafeFromRunners(cfg, u);
  }

  lemma TailIsPending(cfg: Config, t: Timed, m: Move, n: nat, id: JobId)
    requires Safe(cfg, t) && InTime(cfg) && Enabled(cfg, t, m) && m.Recover? && Waits(Next(cfg, t, m), n, id)
    ensures Waits(t, n, id) && id != Pending(t, m.node)[0]
  {
    if n != m.node { PendingIsLoose(cfg, t, n, id); }
    hide B.Inv, B.Apply, B.Allowed, Loose;
    assert OnceEach(t, m.node);
  }

  lemma TailIsDistinct(cfg: Config, t: Timed, m: Move, n: nat)
    requires Safe(cfg, t) && Enabled(cfg, t, m) && m.Recover?
    ensures OnceEach(Next(cfg, t, m), n)
  {
    hide B.Inv, B.Apply, B.Allowed, Loose;
    assert OnceEach(t, n);
  }

  // ----- runs -----

  lemma MoveKeepsSafe(cfg: Config, t: Timed, m: Move)
    requires Safe(cfg, t) && InTime(cfg) && Enabled(cfg, t, m)
    ensures Safe(cfg, Next(cfg, t, m))
  {
    hide Safe, Next, B.Enabled, B.Allowed;
    match m
    case Work(act) => WorkKeepsSafe(cfg, t, act);
    case Beat(_) => BeatKeepsSafe(cfg, t, m);
    case Scan(_, _) => ScanKeepsSafe(cfg, t, m);
    case Recover(_, _) => RecoverKeepsSafe(cfg, t, m);
    case _ => WaitKeepsSafe(cfg, t, m);
  }

  lemma {:induction false} RunsStaySafe(cfg: Config, t: Timed, moves: seq<Move>)
    requires Safe(cfg, t) && InTime(cfg) && Run(cfg, t, moves)
    ensures Safe(cfg, After(cfg, t, moves))
    decreases |moves|
  {
    hide Safe, Next, Enabled;
    if |moves| > 0 {
      MoveKeepsSafe(cfg, t, moves[0]);
      RunsStaySafe(cfg, Next(cfg, t, moves[0]), moves[1..]);
    }
  }

  lemma StartIsSafe(cfg: Config)
    ensures Safe(cfg, START)
  {
    B.FreshIsStart(B.ON_POSTGRES);
    hide B.Inv, Tended, Loose;
    SafeFromRunners(cfg, START);
  }

  ghost predicate Reachable(cfg: Config, t: Timed) {
    exists moves :: Run(cfg, START, moves) && After(cfg, START, moves) == t
  }

  lemma ReachableIsSafe(cfg: Config, t: Timed)
    requires InTime(cfg) && Reachable(cfg, t)
    ensures Safe(cfg, t)
  {
    StartIsSafe(cfg);
    var moves :| Run(cfg, START, moves) && After(cfg, START, moves) == t;
    RunsStaySafe(cfg, START, moves);
  }

  /** The acts a timed run makes on the store, clock and scans left out. */
  function ActsOf(t: Timed, m: Move): seq<W.Act>
    requires t.cluster.backend.Postgres?
    requires m.Beat? ==> Busy(W.At(t.cluster.control, m.w))
    requires m.Recover? ==> |Pending(t, m.node)| > 0
  {
    match m
    case Work(act) => [act]
    case Beat(w) => [BeatAct(t, w)]
    case Recover(_, _) => [W.Env(RecoverEvent(t, m))]
    case _ => []
  }

  ghost function Trace(cfg: Config, t: Timed, moves: seq<Move>): seq<W.Act>
    requires Run(cfg, t, moves)
    decreases |moves|
  {
    if |moves| == 0 then [] else ActsOf(t, moves[0]) + Trace(cfg, Next(cfg, t, moves[0]), moves[1..])
  }

  lemma RecoveryIsAnAct(cfg: Config, t: Timed, m: Move)
    requires Safe(cfg, t) && Enabled(cfg, t, m) && m.Recover?
    ensures B.Enabled(t.cluster, W.Env(RecoverEvent(t, m)))
    ensures B.Next(t.cluster, W.Env(RecoverEvent(t, m))) == Next(cfg, t, m).cluster
  {
    LooseRequeue(cfg, t, m);
    hide Safe, B.Allowed, B.View, P.Apply, A.Disciplined;
  }

  lemma ActsFollow(cfg: Config, t: Timed, m: Move)
    requires Safe(cfg, t) && Enabled(cfg, t, m)
    ensures var acts, u := ActsOf(t, m), Next(cfg, t, m);
      && (|acts| == 0 ==> u.cluster == t.cluster)
      && (|acts| > 0 ==> acts == [acts[0]] && B.Enabled(t.cluster, acts[0]) && B.Next(t.cluster, acts[0]) == u.cluster)
  {
    if m.Recover? { RecoveryIsAnAct(cfg, t, m); }
    hide Safe, B.Enabled, B.Next, B.Allowed, B.Apply, BeatAct;
  }

  /** In time, a live coordinator is just another disciplined caller: every timed run is
      a disciplined run over the tables, and all that holds of those holds of it. */
  lemma {:induction false} TimedRunIsDisciplined(cfg: Config, t: Timed, moves: seq<Move>)
    requires Safe(cfg, t) && InTime(cfg) && Run(cfg, t, moves)
    ensures B.Run(t.cluster, Trace(cfg, t, moves))
    ensures B.After(t.cluster, Trace(cfg, t, moves)) == After(cfg, t, moves).cluster
    decreases |moves|
  {
    if |moves| > 0 {
      var m, u := moves[0], Next(cfg, t, moves[0]);
      ActsFollow(cfg, t, m);
      hide Safe, Enabled, Next, B.Enabled, B.Next, B.Run, B.After, ActsOf;
      MoveKeepsSafe(cfg, t, m);
      TimedRunIsDisciplined(cfg, u, moves[1..]);
      var acts, rest := ActsOf(t, m), Trace(cfg, u, moves[1..]);
      if |acts| > 0 { B.OneAct(t.cluster, acts[0], rest); } else { assert acts + rest == rest; }
    }
  }

  /** A safe state lets no coordinator steal. */
  lemma SafeMeansNoSteal(cfg: Config, t: Timed, m: Move)
    requires Safe(cfg, t) && Enabled(cfg, t, m)
    ensures !Steals(t, m)
  {
    if m.Recover? { LooseRequeue(cfg, t, m); }
    hide Safe;
  }
}
