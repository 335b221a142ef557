/** The pool settles every job on the concrete backends too. On the abstract machine a
    dequeue may hand out any queued job; here a queued job waits for those in front of
    it, which are fewer with every dequeue and which no act of a worker adds to. */
module BackendProgress {
  import opened Lifecycle
  import opened Protocol
  import opened RetryTermination
  import opened Progress
  import A = AbstractJobs
  import B = Backends
  import M = MemorySpec
  import MR = MemoryRefinement
  import MQ = MemoryQueues
  import P = PostgresSpec
  import PR = PostgresRefinement
  import T = PostgresTurns
  import W = Workers
  import RetryBudget
  import Continuations

  // ----- least elements -----

  lemma {:induction false} Least(key: map<JobId, int>, rest: set<JobId>) returns (id: JobId)
    requires rest != {} && rest <= key.Keys
    ensures id in rest && forall x :: x in rest ==> key[id] <= key[x]
    decreases |rest|
  {
    id :| id in rest;
    if rest != {id} {
      var x := Least(key, rest - {id});
      if key[x] < key[id] { id := x; }
    }
  }

  /** All of a set, in the order of its keys. */
  lemma {:induction false} InOrder(key: map<JobId, int>, rest: set<JobId>) returns (ids: seq<JobId>)
    requires rest <= key.Keys
    ensures Distinct(ids) && (forall x :: x in ids <==> x in rest)
    ensures forall i, j :: 0 <= i < j < |ids| ==> ids[i] in rest && ids[j] in rest && key[ids[i]] <= key[ids[j]]
    decreases |rest|
  {
    if rest == {} {
      ids := [];
    } else {
      var id := Least(key, rest);
      var later := InOrder(key, rest - {id});
      ids := [id] + later;
      assert forall x :: x in ids <==> x == id || x in later;
      forall i | 0 <= i < |later| ensures later[i] in rest - {id} {}
    }
  }

  lemma {:induction false} Fewer(xs: set<JobId>, ys: set<JobId>)
    requires xs <= ys
    ensures |xs| <= |ys| && (xs != ys ==> |xs| < |ys|)
  {
    assert ys == xs + (ys - xs);
    if xs != ys { assert ys - xs != {}; }
  }

  // ----- who is in front -----

  /** Where an id stands in a list. */
  function Place(q: seq<JobId>, id: JobId): nat {
    if |q| == 0 || q[0] == id then 0 else 1 + Place(q[1..], id)
  }

  lemma {:induction false} PlaceStays(q: seq<JobId>, id: JobId, last: JobId)
    requires id in q
    ensures Place(q + [last], id) == Place(q, id)
  {
    if q[0] != id {
      PlaceStays(q[1..], id, last);
      assert (q + [last])[1..] == q[1..] + [last];
    }
  }

  /** The rows a dequeue of the job's queue prefers to it. */
  function Preferred(s: P.Tables, id: JobId): set<JobId>
    requires id in s.jobs
  {
    set x | x in s.jobs && s.jobs[x].state == Enqueued && s.jobs[x].queue == s.jobs[id].queue && s.jobs[x].token < s.jobs[id].token
  }

  function InFront(b: B.Backend, id: JobId): nat {
    match b
    case InMemory(s) => if id in s.jobs then Place(M.QueueOf(s, s.jobs[id].queue), id) else 0
    case Postgres(s) => if id in s.jobs then |Preferred(s, id)| else 0
  }

  ghost predicate Queued(b: B.Backend, id: JobId) {
    && B.Sound(b) && (b.Postgres? ==> T.Numbered(b.tables))
    && A.In(B.View(b), id, Enqueued)
  }

  // ----- a dequeue serves somebody -----

  lemma MemoryServes(s: M.Store, id: JobId, now: Time) returns (out: Outcome)
    requires Queued(B.InMemory(s), id)
    ensures id in s.jobs
    ensures var ev := Event(Op.Dequeue([s.jobs[id].queue], now), out);
      && B.Allowed(B.InMemory(s), ev) && out.Ticket?
      && (out.id == id || InFront(B.Apply(B.InMemory(s), ev), id) < InFront(B.InMemory(s), id))
  {
    MR.ReadsAgree(s, id);
    var q := s.jobs[id].queue;
    IsQueued(s, id);
    MR.HeadIsEnqueued(s, q);
    out := Ticket(M.QueueOf(s, q)[0]);
    assert M.QueueOf(M.TakeFrom(s, q, now), q) == M.QueueOf(s, q)[1..];
    hide MR.AbsOf, MR.Placed, M.WellFormed;
  }

  lemma IsQueued(s: M.Store, id: JobId)
    requires M.WellFormed(s) && MR.Placed(s) && M.Is(s, id, Enqueued)
    ensures id in s.jobs && id in M.QueueOf(s, s.jobs[id].queue)
  {
    assert MR.InPlace(s, s.jobs[id].queue, id);
  }

  lemma TablesServe(s: P.Tables, id: JobId, now: Time) returns (out: Outcome)
    requires Queued(B.Postgres(s), id)
    ensures id in s.jobs
    ensures var ev := Event(Op.Dequeue([s.jobs[id].queue], now), out);
      && B.Allowed(B.Postgres(s), ev) && out.Ticket?
      && (out.id == id || InFront(B.Apply(B.Postgres(s), ev), id) < InFront(B.Postgres(s), id))
  {
    PR.ReadsAgree(s, id);
    hide PR.AbsOf, P.Consistent, P.Oldest, T.Numbered, P.Set, Preferred;
    var first := FirstCandidate(s, id);
    out := Ticket(first);
    if first != id { TakenIsGone(s, P.Set(s, first, Processing, P.Beat(now), now), id, first); }
  }

  /** The oldest candidate, which is the job or older than it. */
  lemma FirstCandidate(s: P.Tables, id: JobId) returns (first: JobId)
    requires P.Has(s, id, Enqueued)
    ensures P.Oldest(s, [s.jobs[id].queue], first)
    ensures first in s.jobs && s.jobs[first].state == Enqueued && s.jobs[first].queue == s.jobs[id].queue
    ensures s.jobs[first].token <= s.jobs[id].token
  {
    var q := s.jobs[id].queue;
    var tokens := map x | x in s.jobs :: s.jobs[x].token;
    var waiting := set x | x in s.jobs && P.Candidate(s, [q], x);
    assert id in waiting;
    first := Least(tokens, waiting);
    forall x | P.Candidate(s, [q], x) ensures s.jobs[first].token <= s.jobs[x].token { assert x in waiting; }
  }

  lemma TakenIsGone(s: P.Tables, t: P.Tables, id: JobId, first: JobId)
    requires id in s.jobs && first in s.jobs && first in s.states && first != id && T.Numbered(s)
    requires s.jobs[first].state == Enqueued && s.jobs[first].queue == s.jobs[id].queue && s.jobs[first].token <= s.jobs[id].token
    requires exists now :: t == P.Set(s, first, Processing, P.Beat(now), now)
    ensures id in t.jobs && |Preferred(t, id)| < |Preferred(s, id)|
  {
    assert first in Preferred(s, id) && first !in Preferred(t, id);
    Fewer(Preferred(t, id), Preferred(s, id));
  }

  // ----- what a worker asks adds nobody in front -----

  /** The requests of a worker that is not polling. */
  predicate OwnRequest(op: Op) {
    op.SetJobResult? || op.ApplyState? || op.ScheduleRetry? || op.Enqueue?
  }

  ghost predicate Answered(b: B.Backend, used: set<JobId>, ev: Event) {
    && B.Allowed(b, ev) && OwnRequest(ev.op)
    && BasicOp(used, ev.op) && B.View(b).jobs.Keys <= used
  }

  /** A waiting job is not touched. */
  lemma StaysWaiting(b: B.Backend, used: set<JobId>, ev: Event, id: JobId)
    requires Queued(b, id) && Answered(b, used, ev)
    ensures B.Sound(B.Apply(b, ev)) && id in B.View(b).jobs && id in B.View(B.Apply(b, ev)).jobs
    ensures B.View(B.Apply(b, ev)).jobs[id] == B.View(b).jobs[id]
  {
    hide B.View, B.Allowed, B.Apply, B.Sound;
    B.RequestRefines(b, used, ev);
    assert !A.Touches(ev, id);
    A.UntouchedIsSame(B.View(b), ev, id);
  }

  lemma MemoryFrontStays(s: M.Store, used: set<JobId>, ev: Event, id: JobId)
    requires Queued(B.InMemory(s), id) && Answered(B.InMemory(s), used, ev)
    ensures InFront(B.Apply(B.InMemory(s), ev), id) <= InFront(B.InMemory(s), id)
  {
    StaysWaiting(B.InMemory(s), used, ev, id);
    MR.ReadsAgree(s, id);
    MR.ReadsAgree(M.Apply(s, ev.op, ev.out), id);
    IsQueued(s, id);
    var q := s.jobs[id].queue;
    hide MR.AbsOf, MR.Placed, M.WellFormed, Place;
    if ev.op.Enqueue? {
      PlaceStays(M.QueueOf(s, q), id, ev.op.id);
    } else {
      MQ.QueuesUntouched(s, ev.op, ev.out);
      hide M.Apply, M.Allowed;
    }
  }

  lemma TablesFrontStays(s: P.Tables, used: set<JobId>, ev: Event, id: JobId)
    requires Queued(B.Postgres(s), id) && Answered(B.Postgres(s), used, ev)
    ensures InFront(B.Apply(B.Postgres(s), ev), id) <= InFront(B.Postgres(s), id)
  {
    PR.ReadsAgree(s, id);
    B.JobsAgree(B.Postgres(s));
    var t := P.Apply(s, ev.op, ev.out);
    hide PR.AbsOf, P.Consistent;
    if id in t.jobs {
      forall x | x in Preferred(t, id) ensures x in Preferred(s, id) { StaysBehind(s, ev, id, x); }
      Fewer(Preferred(t, id), Preferred(s, id));
    }
    hide T.Numbered, Preferred;
  }

  lemma StaysBehind(s: P.Tables, ev: Event, id: JobId, x: JobId)
    requires P.Rows(s) && T.Numbered(s) && P.Allowed(s, ev.op, ev.out) && OwnRequest(ev.op)
    requires ev.op.Enqueue? ==> ev.op.id !in s.jobs
    requires ev.op.ApplyState? ==> EngineMove(ev.op.expected, ev.op.next)
    requires id in s.jobs && id in P.Apply(s, ev.op, ev.out).jobs && x in Preferred(P.Apply(s, ev.op, ev.out), id)
    ensures x in Preferred(s, id)
  {
  }

  // ----- what is enabled in the abstract is enabled here -----

  lemma OwnRequestIsAnswered(b: B.Backend, ev: Event)
    requires B.Sound(b) && A.Allowed(B.View(b), ev.op, ev.out) && OwnRequest(ev.op)
    ensures B.Allowed(b, ev)
  {
    match b
    case InMemory(s) => MR.ReadsAgree(s, ev.op.id);
    case Postgres(s) => PR.ReadsAgree(s, ev.op.id);
    hide MR.AbsOf, PR.AbsOf, MR.Placed, P.Consistent;
  }

  lemma OwnActIsReal(c: B.Cluster, act: W.Act)
    requires B.Inv(c) && W.Enabled(B.Abstract(c), act) && !act.Env? && !act.Poll?
    ensures B.Enabled(c, act)
    ensures W.Asks(c.control, act).Ask? ==> OwnRequest(W.Asks(c.control, act).ev.op)
  {
    if W.Asks(c.control, act).Ask? { OwnRequestIsAnswered(c.backend, W.Asks(c.control, act).ev); }
    hide A.AbsInv, B.View, B.Sound, B.Allowed, A.Allowed, A.Disciplined;
  }

  /** The scheduler promotes everything that is due, the job among it. */
  lemma PromotionIsReal(c: B.Cluster, id: JobId) returns (act: W.Act)
    requires B.Inv(c) && A.In(B.View(c.backend), id, Scheduled)
    ensures B.Enabled(c, act) && CrashFree(act) && act.Env? && act.ev.op.GetDueScheduled?
    ensures Concerns(B.Abstract(c), act, id)
  {
    var due := B.View(c.backend).due;
    assert id in due;
    var ids := InOrder(due, set x | x in due && due[x] <= due[id]);
    act := W.Env(Event(GetDueScheduled(due[id], |ids| + 1), Promoted(ids)));
    AllDueAreSelected(c.backend, due[id], ids);
    hide A.AbsInv, B.View, B.Sound, B.Allowed;
  }

  lemma AllDueAreSelected(b: B.Backend, now: Time, ids: seq<JobId>)
    requires B.Sound(b)
    requires var due := B.View(b).due;
      && Distinct(ids) && (forall x :: x in ids <==> x in due && due[x] <= now)
      && forall i, j :: 0 <= i < j < |ids| ==> ids[i] in due && ids[j] in due && due[ids[i]] <= due[ids[j]]
    ensures B.Allowed(b, Event(GetDueScheduled(now, |ids| + 1), Promoted(ids)))
  {
  }

  // ----- towards one job -----

  ghost predicate Real(c: B.Cluster, pool: set<nat>) {
    && B.Inv(c) && (c.backend.Postgres? ==> T.Numbered(c.backend.tables))
    && GoingWell(B.Abstract(c), pool)
  }

  lemma ActKeepsReal(c: B.Cluster, act: W.Act, pool: set<nat>)
    requires Real(c, pool) && B.Enabled(c, act) && CrashFree(act) && (act.Env? || act.w in pool)
    ensures Real(B.Next(c, act), pool)
    ensures W.Enabled(B.Abstract(c), act) && W.Next(B.Abstract(c), act) == B.Abstract(B.Next(c, act))
  {
    assert c.backend.Postgres? ==> T.OnTables(c);
    hide B.Inv, B.Enabled, B.Next, T.Numbered, GoingWell, CrashFree, B.Abstract;
    B.ActRefines(c, act);
    ActKeepsGoing(B.Abstract(c), act, pool);
    NextKeepsNumbers(c, act);
  }

  lemma NextKeepsNumbers(c: B.Cluster, act: W.Act)
    requires B.Inv(c) && B.Enabled(c, act) && (c.backend.Postgres? ==> T.Numbered(c.backend.tables))
    ensures B.Next(c, act).backend.Postgres? ==> c.backend.Postgres? && T.Numbered(B.Next(c, act).backend.tables)
  {
    assert B.Next(c, act).backend.Postgres? == c.backend.Postgres? by { hide B.Allowed, W.Control', W.Guard, B.Inv, T.Numbered; }
    hide B.Inv, B.Enabled, B.Next, T.Numbered;
    if c.backend.Postgres? { T.ActKeepsNumbered(c, act); }
  }

  /** The job's rank falls, or fewer are in front of it, or no more are and the worker
      is nearer to being idle. */
  ghost predicate Closer(c: B.Cluster, act: W.Act, w: nat, id: JobId)
    requires B.Enabled(c, act) && W.Guard(B.Abstract(c).control, act)
  {
    var next := B.Next(c, act);
    || Concerns(B.Abstract(c), act, id)
    || InFront(next.backend, id) < InFront(c.backend, id)
    || (InFront(next.backend, id) <= InFront(c.backend, id) && Nearer(c.control, next.control, w))
  }

  lemma WorkerGoesOnHere(c: B.Cluster, pool: set<nat>, w: nat, id: JobId) returns (act: W.Act)
    requires Real(c, pool) && w in pool && !W.At(c.control, w).Idle? && A.In(B.View(c.backend), id, Enqueued)
    ensures B.Enabled(c, act) && CrashFree(act) && OfPool(act, pool) && Closer(c, act, w, id)
  {
    hide A.In, RetryBudget.QuietInv, B.View, B.Sound, B.Allowed, Cared, Continuations.FiresInv, Nearer, Concerns, A.Disciplined, A.Allowed;
    act := WorkerGoesOn(B.Abstract(c), w);
    OwnActIsReal(c, act);
    B.ActRefines(c, act);
    assert Queued(c.backend, id);
    FrontStays(c, act, id);
    hide B.Enabled, W.Enabled, B.Next, W.Next, B.Inv;
  }

  lemma FrontStays(c: B.Cluster, act: W.Act, id: JobId)
    requires B.Inv(c) && Queued(c.backend, id) && B.Enabled(c, act)
    requires W.Asks(c.control, act).Ask? ==> OwnRequest(W.Asks(c.control, act).ev.op)
    ensures InFront(B.Next(c, act).backend, id) <= InFront(c.backend, id)
  {
    hide InFront, B.View, B.Sound, B.Allowed, W.Control', Queued;
    var asked := W.Asks(c.control, act);
    if asked.Ask? {
      match c.backend
      case InMemory(s) => MemoryFrontStays(s, c.used, asked.ev, id);
      case Postgres(s) => TablesFrontStays(s, c.used, asked.ev, id);
    }
  }

  lemma IdleIsServed(c: B.Cluster, pool: set<nat>, w: nat, id: JobId) returns (act: W.Act)
    requires Real(c, pool) && w in pool && W.At(c.control, w).Idle? && A.In(B.View(c.backend), id, Enqueued)
    ensures B.Enabled(c, act) && CrashFree(act) && OfPool(act, pool) && Closer(c, act, w, id)
  {
    assert Queued(c.backend, id);
    hide Real, Queued, B.View, InFront, B.Allowed, B.Apply;
    var queue, out := SomebodyIsServed(c.backend, id);
    act := W.Poll(w, [queue], 0, out);
    hide Nearer, Concerns, B.Enabled, B.Next;
    PollIsReal(c, act, id);
  }

  lemma PollIsReal(c: B.Cluster, act: W.Act, id: JobId)
    requires act.Poll? && W.At(c.control, act.w).Idle? && B.Allowed(c.backend, Event(Op.Dequeue(act.queues, act.now), act.out))
    ensures B.Enabled(c, act) && CrashFree(act)
    ensures B.Next(c, act).backend == B.Apply(c.backend, Event(Op.Dequeue(act.queues, act.now), act.out))
    ensures act.out == Ticket(id) && id in B.View(c.backend).jobs ==> Concerns(B.Abstract(c), act, id)
  {
    hide B.Allowed, B.Apply, B.View, W.Control';
  }

  lemma SomebodyIsServed(b: B.Backend, id: JobId) returns (queue: Queue, out: Outcome)
    requires Queued(b, id)
    ensures var ev := Event(Op.Dequeue([queue], 0), out);
      && B.Allowed(b, ev) && out.Ticket?
      && (out.id == id || InFront(B.Apply(b, ev), id) < InFront(b, id))
    ensures id in B.View(b).jobs
  {
    hide Queued, InFront, B.Apply, B.Allowed, B.Sound;
    QueuedExists(b, id);
    match b {
      case InMemory(s) =>
        out := MemoryServes(s, id, 0);
        queue := s.jobs[id].queue;
      case Postgres(s) =>
        out := TablesServe(s, id, 0);
        queue := s.jobs[id].queue;
    }
  }

  lemma QueuedExists(b: B.Backend, id: JobId)
    requires Queued(b, id)
    ensures id in B.View(b).jobs
  {
  }

  lemma PoolGoesOnHere(c: B.Cluster, pool: set<nat>, w: nat, id: JobId) returns (act: W.Act)
    requires Real(c, pool) && w in pool && id in B.View(c.backend).jobs && !A.Stuck(B.View(c.backend), id)
    ensures B.Enabled(c, act) && CrashFree(act) && OfPool(act, pool) && Closer(c, act, w, id)
  {
    var sys := B.Abstract(c);
    RetryBudget.PlaceOnPath(sys.abs.jobs[id].hist, Budget(sys.abs.jobs[id].retryMax));
    hide Closer, B.Enabled, CrashFree, OfPool, B.View;
    if A.In(sys.abs, id, Enqueued) {
      if W.At(c.control, w).Idle? {
        act := IdleIsServed(c, pool, w, id);
      } else {
        act := WorkerGoesOnHere(c, pool, w, id);
      }
    } else if A.In(sys.abs, id, Scheduled) {
      act := PromotionIsReal(c, id);
      ScheduledIsCloser(c, act, pool, w, id);
    } else {
      assert Processed(sys.control, id) || BeingSettled(sys.control, id);
      var v :| RetryBudget.Holds(W.At(sys.control, v), id);
      act := HolderGoesOnHere(c, pool, w, v, id);
    }
  }

  lemma ScheduledIsCloser(c: B.Cluster, act: W.Act, pool: set<nat>, w: nat, id: JobId)
    requires B.Enabled(c, act) && act.Env? && act.ev.op.GetDueScheduled? && Concerns(B.Abstract(c), act, id)
    ensures OfPool(act, pool) && Closer(c, act, w, id)
  {
    hide B.Enabled, B.Next, Concerns;
  }

  lemma HolderGoesOnHere(c: B.Cluster, pool: set<nat>, w: nat, v: nat, id: JobId) returns (act: W.Act)
    requires Real(c, pool) && id in B.View(c.backend).jobs && RetryBudget.Holds(W.At(c.control, v), id)
    ensures B.Enabled(c, act) && CrashFree(act) && OfPool(act, pool) && Closer(c, act, w, id)
  {
    assert v in pool;
    hide RetryBudget.QuietInv, Cared, Continuations.FiresInv, B.View, B.Sound, B.Next, B.Enabled, W.Enabled, Concerns, InFront, CrashFree;
    act := HolderCanAct(B.Abstract(c), id, v);
    OwnActIsReal(c, act);
  }

  /** What is left for the job falls, in this order: its rank, those in front of it, and
      what keeps the worker from taking it. */
  ghost predicate Lower(c: B.Cluster, d: B.Cluster, w: nat, id: JobId) {
    var before, after := Rank(B.Abstract(c), id), Rank(B.Abstract(d), id);
    && 0 <= after <= before
    && (after < before || InFront(d.backend, id) < InFront(c.backend, id)
        || (InFront(d.backend, id) <= InFront(c.backend, id) && Nearer(c.control, d.control, w)))
  }

  lemma PoolStepHere(c: B.Cluster, pool: set<nat>, w: nat, id: JobId) returns (act: W.Act)
    requires Real(c, pool) && w in pool && !Settled(B.View(c.backend), id)
    ensures B.Enabled(c, act) && OfPool(act, pool)
    ensures Real(B.Next(c, act), pool) && Lower(c, B.Next(c, act), w, id)
  {
    hide B.Enabled, B.Next, Rank, Concerns, InFront, B.View, A.Stuck, GoingWell, CrashFree;
    act := PoolGoesOnHere(c, pool, w, id);
    ActKeepsReal(c, act, pool);
    GoingIsQuiet(B.Abstract(c), pool);
    RankNeverRises(B.Abstract(c), act, id);
    hide Real;
  }

  lemma GoingIsQuiet(sys: W.Sys, pool: set<nat>)
    requires GoingWell(sys, pool)
    ensures RetryBudget.QuietInv(sys)
  {
  }

  /** The pool and the scheduler alone can settle the job, on the backend they run on. */
  lemma {:induction false} PoolSettlesHere(c: B.Cluster, pool: set<nat>, w: nat, id: JobId) returns (acts: seq<W.Act>)
    requires Real(c, pool) && w in pool
    ensures B.Run(c, acts) && AllOfPool(acts, pool) && Settled(B.View(B.After(c, acts).backend), id)
    decreases Rank(B.Abstract(c), id) + 1, InFront(c.backend, id), Ahead(W.At(c.control, w)), EntriesLeft(c.control, w)
  {
    acts := [];
    hide Real, B.Enabled, B.Next, Rank, OfPool, InFront, Settled, B.View, EntriesLeft, Ahead, B.Abstract;
    if !Settled(B.View(c.backend), id) {
      var act := PoolStepHere(c, pool, w, id);
      var rest := PoolSettlesHere(B.Next(c, act), pool, w, id);
      acts := [act] + rest;
      assert acts[1..] == rest;
    }
  }

  lemma StartIsReal(c: B.Cluster, pool: set<nat>)
    requires B.Fresh(c)
    ensures Real(c, pool)
  {
    B.FreshIsStart(c);
    StartIsQuiet();
    Continuations.StartFires();
  }

  lemma {:induction false} RunsKeepReal(c: B.Cluster, acts: seq<W.Act>, pool: set<nat>)
    requires Real(c, pool) && B.Run(c, acts) && AllCrashFree(acts) && AllInPool(acts, pool)
    ensures Real(B.After(c, acts), pool)
    decreases |acts|
  {
    if |acts| > 0 {
      assert CrashFree(acts[0]) && (acts[0].Env? || acts[0].w in pool);
      assert AllCrashFree(acts[1..]) && AllInPool(acts[1..], pool);
      hide Real, B.Enabled, B.Next, CrashFree;
      ActKeepsReal(c, acts[0], pool);
      RunsKeepReal(B.Next(c, acts[0]), acts[1..], pool);
    }
  }

  /** On either backend: after every run of a non-empty pool in which no worker died and
      nobody requeued or deleted, and for every job, the pool and the scheduler can
      settle it by themselves, although the queue serves others first. */
  lemma EveryJobCanBeSettledHere(c: B.Cluster, before: seq<W.Act>, pool: set<nat>, id: JobId) returns (acts: seq<W.Act>)
    requires B.Fresh(c) && B.Run(c, before) && AllCrashFree(before) && AllInPool(before, pool) && pool != {}
    ensures B.Run(B.After(c, before), acts) && AllOfPool(acts, pool)
    ensures Settled(B.View(B.After(B.After(c, before), acts).backend), id)
  {
    StartIsReal(c, pool);
    var w :| w in pool;
    hide Real, B.Enabled, B.Next, Settled, B.Fresh;
    RunsKeepReal(c, before, pool);
    acts := PoolSettlesHere(B.After(c, before), pool, w, id);
  }
}
