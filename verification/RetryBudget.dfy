/** How often a job is attempted. In quiet runs (nobody requeues or deletes) each
    processing episode belongs to one worker, every history follows one path, and
    each job's rank falls with every act that concerns it. */
module RetryBudget {
  import opened Lifecycle
  import opened Protocol
  import opened AbstractJobs
  import opened Workers

  // ----- the path -----

  /** The history of a job whose attempts all fail, entry by entry. */
  function PathAt(i: nat, n: nat): State {
    if i % 4 == 0 then Enqueued else if i % 4 == 1 then Processing else if i % 4 == 2 then Failed
    else if i == 4 * n - 1 then Dead else Scheduled
  }

  ghost predicate Follows(h: seq<State>, n: nat) {
    |h| <= 4 * n && forall i :: 0 <= i < |h| ==> h[i] == PathAt(i, n)
  }

  /** A history without the initial Scheduled entry of a delayed job. */
  function Body(h: seq<State>): seq<State> {
    if |h| > 0 && h[0] == Scheduled then h[1..] else h
  }

  /** On the path, or off it by one last entry after a Processing one. */
  ghost predicate OnPath(h: seq<State>, n: nat) {
    var b := Body(h);
    && |h| > 0
    && (Follows(b, n)
        || (|b| > 0 && (Last(b) == Succeeded || Last(b) == Cancelled)
            && Follows(b[..|b| - 1], n) && |b| % 4 == 3))
  }

  lemma {:induction false} FailuresOnPath(h: seq<State>, n: nat)
    requires Follows(h, n)
    ensures Count(h, Failed) == (|h| + 1) / 4
  {
    if |h| > 0 {
      FailuresOnPath(h[..|h| - 1], n);
      assert Last(h) == PathAt(|h| - 1, n);
    }
  }

  lemma {:induction false} CountPrepend(x: State, h: seq<State>, s: State)
    ensures Count([x] + h, s) == Count(h, s) + if x == s then 1 else 0
  {
    if |h| == 0 {
      assert [x] + h == [] + [x];
      CountAppend([], x, s);
    } else {
      CountPrepend(x, h[..|h| - 1], s);
      assert ([x] + h)[..|h|] == [x] + h[..|h| - 1];
    }
  }

  lemma FailuresOfBody(h: seq<State>)
    ensures Count(h, Failed) == Count(Body(h), Failed)
  {
    if |h| > 0 && h[0] == Scheduled {
      assert h == [Scheduled] + h[1..];
      CountPrepend(Scheduled, h[1..], Failed);
    }
  }

  lemma BodyAppend(h: seq<State>, s: State)
    requires |h| > 0
    ensures Body(h + [s]) == Body(h) + [s]
  {
  }

  /** The next entry of the path keeps a history on it. */
  lemma StepOnPath(h: seq<State>, n: nat, s: State)
    requires |h| > 0 && Follows(Body(h), n) && |Body(h)| < 4 * n && s == PathAt(|Body(h)|, n)
    ensures OnPath(h + [s], n) && Follows(Body(h + [s]), n)
  {
    BodyAppend(h, s);
  }

  lemma LeavePath(h: seq<State>, n: nat, s: State)
    requires |h| > 0 && Follows(Body(h), n) && |Body(h)| % 4 == 2 && (s == Succeeded || s == Cancelled)
    ensures OnPath(h + [s], n)
  {
    BodyAppend(h, s);
    assert (Body(h) + [s])[..|Body(h)|] == Body(h);
  }

  /** Which place on the path a current state names. */
  lemma PlaceOnPath(h: seq<State>, n: nat)
    requires OnPath(h, n) && !Irreversible(Last(h)) && n > 0
    ensures Follows(Body(h), n) && |Body(h)| < 4 * n
    ensures Last(h) == Enqueued ==> |Body(h)| % 4 == 1
    ensures Last(h) == Processing ==> |Body(h)| % 4 == 2
    ensures Last(h) == Failed ==> |Body(h)| % 4 == 3
    ensures Last(h) == Scheduled ==> |Body(h)| % 4 == 0
    ensures Last(h) == Enqueued || Last(h) == Processing || Last(h) == Failed || Last(h) == Scheduled
  {
    var b := Body(h);
    if |b| > 0 {
      assert Last(b) == Last(h);
      if Follows(b, n) { assert Last(b) == PathAt(|b| - 1, n); }
    }
  }

  // ----- what is documented, and what the code does -----

  /** The documented meaning of a retry maximum: none at zero, for ever below, else so
      many attempts. */
  predicate DocumentedlyExhausted(attempt: nat, retryMax: int) {
    if retryMax == 0 then true else if retryMax < 0 then false else attempt + 1 >= retryMax
  }

  /** The code buries a job where the documentation says it does exactly for positive
      maxima: zero means ten, and a negative maximum buries at once. */
  lemma RetryMaxIsDocumentedIff(retryMax: int)
    ensures (forall attempt: nat :: Exhausted(attempt, retryMax) == DocumentedlyExhausted(attempt, retryMax)) <==> retryMax >= 1
  {
    if retryMax < 1 {
      assert Exhausted(0, retryMax) != DocumentedlyExhausted(0, retryMax);
    }
  }

  /** A requeue is no fresh start: the attempts stay as they were, and a Dead job is
      refused. */
  lemma RequeueKeepsAttempts(a: Abs, id: JobId, now: Time, out: Outcome)
    requires Allowed(a, Op.Requeue(id, now), out) && id in a.jobs
    ensures In(a, id, Dead) ==> out == Refused(TerminalState)
    ensures out.Done? ==>
      id in Apply(a, Op.Requeue(id, now), out).jobs
      && Count(Apply(a, Op.Requeue(id, now), out).jobs[id].hist, Failed) == Count(a.jobs[id].hist, Failed)
  {
    CountAppend(a.jobs[id].hist, Enqueued, Failed);
  }

  // ----- quiet runs -----

  predicate Quiet(act: Act) {
    act.Env? ==> !act.ev.op.Requeue? && !act.ev.op.DeleteJob?
  }

  /** The job whose processing episode a worker is responsible for. */
  predicate Holds(p: Proc, id: JobId) {
    (p.Taken? || p.Running? || p.Saving? || p.Finishing? || p.Settling?) && p.id == id
  }

  ghost predicate Informed(a: Abs, p: Proc) {
    match p
    case Taken(id, _) => In(a, id, Processing)
    case Running(id, _, attempt, retryMax) => Knows(a, id, Processing, attempt, retryMax)
    case Saving(id, _, attempt, retryMax, _) => Knows(a, id, Processing, attempt, retryMax)
    case Finishing(id, _, attempt, retryMax, to) =>
      Knows(a, id, Processing, attempt, retryMax) && EngineMove(Processing, to)
    case Settling(id, attempt, retryMax) => id in a.jobs ==> Knows(a, id, Failed, attempt + 1, retryMax)
    case _ => true
  }

  ghost predicate Knows(a: Abs, id: JobId, s: State, failures: nat, retryMax: int) {
    In(a, id, s) && Count(a.jobs[id].hist, Failed) == failures && a.jobs[id].retryMax == retryMax
  }

  ghost predicate OneHolder(c: Control) {
    forall v, w, id :: Holds(At(c, v), id) && Holds(At(c, w), id) ==> v == w
  }

  ghost predicate AllOnPath(a: Abs) {
    forall id :: id in a.jobs ==> OnPath(a.jobs[id].hist, Budget(a.jobs[id].retryMax))
  }

  ghost predicate HeldAreUsed(sys: Sys) {
    forall w, id :: Holds(At(sys.control, w), id) ==> id in sys.used
  }

  ghost predicate QuietInv(sys: Sys) {
    && AbsInv(sys.abs, sys.used)
    && AllOnPath(sys.abs)
    && (forall w :: Informed(sys.abs, At(sys.control, w)))
    && OneHolder(sys.control)
    && HeldAreUsed(sys)
  }

  // ----- what outside events do -----

  /** The store events of quiet acts that no holder of a processing episode makes. */
  predicate Outside(op: Op) {
    !op.Requeue? && !op.DeleteJob? && !op.ApplyState? && !op.ScheduleRetry?
  }

  /** Nobody else touches a job that is being processed or has just failed; a
      failed one may be erased. */
  lemma OutsideLeavesHeld(sys: Sys, ev: Event, w: nat, id: JobId)
    requires QuietInv(sys) && Allowed(sys.abs, ev.op, ev.out) && Disciplined(sys.abs, sys.used, ev.op) && Outside(ev.op)
    requires Holds(At(sys.control, w), id) && Touches(ev, id)
    ensures ev.out.Removed? && At(sys.control, w).Settling?
  {
    assert Informed(sys.abs, At(sys.control, w));
    assert id in sys.used;
    assert id in sys.abs.due ==> In(sys.abs, id, Scheduled);
  }

  lemma InformedStays(sys: Sys, ev: Event, p: Proc)
    requires AbsInv(sys.abs, sys.used) && Allowed(sys.abs, ev.op, ev.out) && Disciplined(sys.abs, sys.used, ev.op)
    requires Informed(sys.abs, p) && forall id :: Holds(p, id) ==> id in sys.used
    requires forall id :: Holds(p, id) && Touches(ev, id) ==> ev.out.Removed? && p.Settling?
    ensures Informed(Apply(sys.abs, ev.op, ev.out), p)
  {
    if p.Taken? || p.Running? || p.Saving? || p.Finishing? || p.Settling? {
      var id := p.id;
      assert Holds(p, id);
      if !Touches(ev, id) {
        UntouchedIsSame(sys.abs, ev, id);
      } else {
        assert id !in Apply(sys.abs, ev.op, ev.out).jobs;
      }
      hide Apply, Allowed, Disciplined, AbsInv, Touches;
    }
  }

  // ----- outside events keep everything on its path -----

  lemma DequeuedStaysOnPath(sys: Sys, ev: Event, id: JobId)
    requires AllOnPath(sys.abs) && Allowed(sys.abs, ev.op, ev.out) && ev.op.Dequeue? && Touches(ev, id)
    ensures var b := Apply(sys.abs, ev.op, ev.out);
      id in b.jobs && OnPath(b.jobs[id].hist, Budget(b.jobs[id].retryMax))
  {
    var job := sys.abs.jobs[id];
    PlaceOnPath(job.hist, Budget(job.retryMax));
    StepOnPath(job.hist, Budget(job.retryMax), Processing);
    hide OnPath, Follows, PathAt;
  }

  lemma PromotedGrows(a: Abs, ev: Event, id: JobId)
    requires Allowed(a, ev.op, ev.out) && ev.op.GetDueScheduled? && Touches(ev, id)
    ensures id in a.jobs && id in a.due && id in Apply(a, ev.op, ev.out).jobs
    ensures Apply(a, ev.op, ev.out).jobs[id] == a.jobs[id].(hist := a.jobs[id].hist + [Enqueued])
  {
  }

  lemma ScheduledMovesOn(h: seq<State>, n: nat)
    requires |h| > 0 && OnPath(h, n) && n > 0 && Last(h) == Scheduled
    ensures OnPath(h + [Enqueued], n)
  {
    hide OnPath, Follows, PathAt;
    PlaceOnPath(h, n);
    PathRestarts(|Body(h)|, n);
    StepOnPath(h, n, Enqueued);
  }

  lemma PromotedStaysOnPath(sys: Sys, ev: Event, id: JobId)
    requires AbsInv(sys.abs, sys.used) && AllOnPath(sys.abs)
    requires Allowed(sys.abs, ev.op, ev.out) && ev.op.GetDueScheduled? && Touches(ev, id)
    ensures var b := Apply(sys.abs, ev.op, ev.out);
      id in b.jobs && OnPath(b.jobs[id].hist, Budget(b.jobs[id].retryMax))
  {
    hide Allowed, Apply, Touches, OnPath, LegalHistory;
    PromotedGrows(sys.abs, ev, id);
    assert In(sys.abs, id, Scheduled);
    ScheduledMovesOn(sys.abs.jobs[id].hist, Budget(sys.abs.jobs[id].retryMax));
  }

  lemma PathRestarts(i: nat, n: nat)
    requires i % 4 == 0
    ensures PathAt(i, n) == Enqueued
  {
  }

  lemma CreatedIsOnPath(sys: Sys, ev: Event, id: JobId)
    requires Allowed(sys.abs, ev.op, ev.out) && Creates(ev.op) && Touches(ev, id)
    ensures var b := Apply(sys.abs, ev.op, ev.out);
      id in b.jobs && OnPath(b.jobs[id].hist, Budget(b.jobs[id].retryMax))
  {
  }

  lemma OutsideStaysOnPath(sys: Sys, ev: Event, id: JobId)
    requires QuietInv(sys) && Allowed(sys.abs, ev.op, ev.out) && Disciplined(sys.abs, sys.used, ev.op) && Outside(ev.op)
    requires id in Apply(sys.abs, ev.op, ev.out).jobs
    ensures OnPath(Apply(sys.abs, ev.op, ev.out).jobs[id].hist, Budget(Apply(sys.abs, ev.op, ev.out).jobs[id].retryMax))
  {
    hide AbsInv, OnPath, Informed, Disciplined;
    if !Touches(ev, id) {
      UntouchedIsSame(sys.abs, ev, id);
    } else if ev.op.Dequeue? {
      DequeuedStaysOnPath(sys, ev, id);
    } else if ev.op.GetDueScheduled? {
      PromotedStaysOnPath(sys, ev, id);
    } else if Creates(ev.op) {
      CreatedIsOnPath(sys, ev, id);
    }
  }

  /** The workers' knowledge survives an outside event. */
  lemma OutsideKeepsQuiet(sys: Sys, ev: Event)
    requires QuietInv(sys) && Allowed(sys.abs, ev.op, ev.out) && Disciplined(sys.abs, sys.used, ev.op) && Outside(ev.op)
    ensures QuietInv(Sys(Apply(sys.abs, ev.op, ev.out), UsedAfter(sys.used, ev.op), sys.control))
  {
    var b := Apply(sys.abs, ev.op, ev.out);
    AbsStepKeepsInv(sys.abs, sys.used, ev.op, ev.out);
    forall id | id in b.jobs ensures OnPath(b.jobs[id].hist, Budget(b.jobs[id].retryMax)) { OutsideStaysOnPath(sys, ev, id); }
    forall w ensures Informed(b, At(sys.control, w)) {
      forall id | Holds(At(sys.control, w), id) && Touches(ev, id) ensures ev.out.Removed? && At(sys.control, w).Settling? {
        OutsideLeavesHeld(sys, ev, w, id);
      }
      InformedStays(sys, ev, At(sys.control, w));
    }
    hide Apply, Allowed, Disciplined, AbsInv, OnPath, Informed;
  }

  /** A worker that takes or drops a job of its own, or forgets what it holds. */
  lemma PutKeepsQuiet(sys: Sys, w: nat, p: Proc)
    requires QuietInv(sys) && Informed(sys.abs, p)
    requires forall id :: Holds(p, id) ==> id in sys.used && forall v :: v != w ==> !Holds(At(sys.control, v), id)
    ensures QuietInv(sys.(control := Put(sys.control, w, p)))
  {
    hide AbsInv, AllOnPath;
    var c := Put(sys.control, w, p);
    forall v ensures Informed(sys.abs, At(c, v)) { assert Informed(sys.abs, At(sys.control, v)); }
    hide Informed;
    forall u, v, id | Holds(At(c, u), id) && Holds(At(c, v), id) ensures u == v {
      assert u != w ==> At(c, u) == At(sys.control, u);
      assert v != w ==> At(c, v) == At(sys.control, v);
    }
    forall v, id | Holds(At(c, v), id) ensures id in sys.used {
      assert v != w ==> At(c, v) == At(sys.control, v);
    }
  }

  /** The call log does not matter here. */
  lemma CallsDoNotMatter(sys: Sys, c: Control)
    requires QuietInv(sys) && c.workers == sys.control.workers
    ensures QuietInv(sys.(control := c))
  {
    hide AbsInv, AllOnPath, Informed;
    forall w ensures At(c, w) == At(sys.control, w) {}
  }

  // ----- one act -----

  ghost predicate QuietStep(sys: Sys, act: Act) {
    QuietInv(sys) && Enabled(sys, act) && Quiet(act)
  }

  lemma PollKeepsQuiet(sys: Sys, act: Act)
    requires QuietStep(sys, act) && act.Poll?
    ensures QuietInv(Next(sys, act))
  {
    var ev := Asks(sys.control, act).ev;
    OutsideKeepsQuiet(sys, ev);
    var sys1 := Sys(Apply(sys.abs, ev.op, ev.out), UsedAfter(sys.used, ev.op), sys.control);
    if act.out.Ticket? {
      var id := act.out.id;
      forall v ensures !Holds(At(sys.control, v), id) { assert Informed(sys.abs, At(sys.control, v)); }
      assert id in sys.used && In(sys1.abs, id, Processing);
    }
    hide QuietInv, Apply, Allowed, Disciplined;
    PutKeepsQuiet(sys1, act.w, At(Control'(sys.abs, sys.control, act), act.w));
  }

  lemma SilentKeepsQuiet(sys: Sys, act: Act)
    requires QuietStep(sys, act) && (act.Load? || act.Return? || act.Look? || act.Crash?)
    ensures QuietInv(Next(sys, act))
  {
    SilentMoveIsInformed(sys, act);
    hide QuietInv, Informed, Disciplined;
    PutKeepsQuiet(sys, act.w, At(Control'(sys.abs, sys.control, act), act.w));
  }

  /** What a worker knows, and holds, after a step that asks nothing of the store. */
  lemma SilentMoveIsInformed(sys: Sys, act: Act)
    requires QuietStep(sys, act) && (act.Load? || act.Return? || act.Look? || act.Crash?)
    ensures var p := At(Control'(sys.abs, sys.control, act), act.w);
      && Informed(sys.abs, p)
      && forall id :: Holds(p, id) ==> id in sys.used && forall v :: v != act.w ==> !Holds(At(sys.control, v), id)
  {
    SilentMoveKeepsJob(sys.abs, sys.control, act);
    var p := At(Control'(sys.abs, sys.control, act), act.w);
    assert Informed(sys.abs, At(sys.control, act.w)) && OneHolder(sys.control) && HeldAreUsed(sys);
    hide QuietInv, Enabled, Control', Guard, Asks, Quiet;
    if act.Load? {
      LoadIsInformed(sys.abs, sys.control, act);
    } else if act.Return? {
      ReturnIsInformed(sys.abs, sys.control, act);
    }
    hide Informed;
    forall id, v | Holds(p, id) && v != act.w ensures !Holds(At(sys.control, v), id) {
      assert Holds(At(sys.control, act.w), id);
    }
  }

  /** It holds no other job than before, and none after looking or dying. */
  lemma SilentMoveKeepsJob(a: Abs, c: Control, act: Act)
    requires Guard(c, act) && (act.Load? || act.Return? || act.Look? || act.Crash?)
    ensures var p := At(Control'(a, c, act), act.w);
      && (forall id :: Holds(p, id) ==> Holds(At(c, act.w), id))
      && (act.Look? || act.Crash? ==> p.Spawning? || p.Idle?)
  {
  }

  lemma LoadIsInformed(a: Abs, c: Control, act: Act)
    requires act.Load? && Guard(c, act) && Informed(a, At(c, act.w))
    ensures Informed(a, At(Control'(a, c, act), act.w))
  {
    hide Count;
  }

  lemma ReturnIsInformed(a: Abs, c: Control, act: Act)
    requires act.Return? && Guard(c, act) && Informed(a, At(c, act.w))
    ensures Informed(a, At(Control'(a, c, act), act.w))
  {
    hide Count;
  }

  lemma CallActKeepsQuiet(sys: Sys, act: Act)
    requires QuietStep(sys, act) && (act.Read? || act.Skip? || act.Close?)
    ensures QuietInv(Next(sys, act))
  {
    var c := Control'(sys.abs, sys.control, act);
    PutKeepsQuiet(sys, act.w, At(c, act.w));
    hide QuietInv;
    CallsDoNotMatter(sys.(control := Put(sys.control, act.w, At(c, act.w))), c);
  }

  lemma AskKeepsQuiet(sys: Sys, act: Act)
    requires QuietStep(sys, act) && (act.Env? || act.Save? || act.Spawn?)
    ensures QuietInv(Next(sys, act))
  {
    var ev := Asks(sys.control, act).ev;
    OutsideKeepsQuiet(sys, ev);
    var sys1 := Sys(Apply(sys.abs, ev.op, ev.out), UsedAfter(sys.used, ev.op), sys.control);
    var c := Control'(sys.abs, sys.control, act);
    if !act.Env? {
      assert Informed(sys1.abs, At(sys.control, act.w));
      assert HeldAreUsed(sys1);
      PutKeepsQuiet(sys1, act.w, At(c, act.w));
      hide QuietInv, Apply, Allowed, Disciplined, Informed;
      CallsDoNotMatter(sys1.(control := Put(sys.control, act.w, At(c, act.w))), c);
    }
  }

  /** One holder per job, and holders of used jobs only, survive a worker's move. */
  lemma PutKeepsHolders(sys: Sys, w: nat, p: Proc)
    requires OneHolder(sys.control) && HeldAreUsed(sys)
    requires forall id :: Holds(p, id) ==> Holds(At(sys.control, w), id)
    ensures OneHolder(Put(sys.control, w, p)) && HeldAreUsed(sys.(control := Put(sys.control, w, p)))
  {
    var c := Put(sys.control, w, p);
    forall v, id ensures Holds(At(c, v), id) ==> Holds(At(sys.control, v), id) {}
  }

  /** A holder moves its own job; everybody else's jobs are others. */
  lemma HolderKeepsQuiet(sys: Sys, w: nat, p: Proc, ev: Event)
    requires QuietInv(sys) && Allowed(sys.abs, ev.op, ev.out) && Disciplined(sys.abs, sys.used, ev.op)
    requires ev.op.ApplyState? || ev.op.ScheduleRetry?
    requires Holds(At(sys.control, w), ev.op.id)
    requires var b := Apply(sys.abs, ev.op, ev.out);
      && (ev.op.id in b.jobs ==> OnPath(b.jobs[ev.op.id].hist, Budget(b.jobs[ev.op.id].retryMax)))
      && Informed(b, p)
    requires forall id :: Holds(p, id) ==> id == ev.op.id
    ensures QuietInv(Sys(Apply(sys.abs, ev.op, ev.out), UsedAfter(sys.used, ev.op), Put(sys.control, w, p)))
  {
    var b, c := Apply(sys.abs, ev.op, ev.out), Put(sys.control, w, p);
    AbsStepKeepsInv(sys.abs, sys.used, ev.op, ev.out);
    PutKeepsHolders(sys, w, p);
    forall id | id in b.jobs ensures OnPath(b.jobs[id].hist, Budget(b.jobs[id].retryMax)) {
      if id != ev.op.id { UntouchedIsSame(sys.abs, ev, id); }
    }
    forall v ensures Informed(b, At(c, v)) {
      if v != w { OtherStaysInformed(sys, ev, w, v); }
    }
    hide Apply, Allowed, Disciplined, AbsInv, OnPath, Informed, OneHolder;
  }

  lemma OtherStaysInformed(sys: Sys, ev: Event, w: nat, v: nat)
    requires QuietInv(sys) && Allowed(sys.abs, ev.op, ev.out) && Disciplined(sys.abs, sys.used, ev.op)
    requires (ev.op.ApplyState? || ev.op.ScheduleRetry?) && Holds(At(sys.control, w), ev.op.id) && v != w
    ensures Informed(Apply(sys.abs, ev.op, ev.out), At(sys.control, v))
  {
    hide AbsInv, OnPath, Informed, Disciplined, Allowed, Apply;
    assert !Holds(At(sys.control, v), ev.op.id);
    InformedStays(sys, ev, At(sys.control, v));
  }

  lemma FinishKeepsQuiet(sys: Sys, act: Act)
    requires QuietStep(sys, act) && act.Finish?
    ensures QuietInv(Next(sys, act))
  {
    var ev, p := Asks(sys.control, act).ev, At(sys.control, act.w);
    var a, b := sys.abs, Apply(sys.abs, ev.op, ev.out);
    assert Informed(a, p);
    var h, n := a.jobs[p.id].hist, Budget(a.jobs[p.id].retryMax);
    PlaceOnPath(h, n);
    if p.to == Failed {
      StepOnPath(h, n, Failed);
      CountAppend(h, Failed, Failed);
    } else {
      LeavePath(h, n, p.to);
    }
    var q: Proc := if p.to == Failed then Settling(p.id, p.attempt, p.retryMax) else Idle;
    HolderKeepsQuiet(sys, act.w, q, ev);
    var quiet := Sys(b, UsedAfter(sys.used, ev.op), Put(sys.control, act.w, q));
    if p.to != Failed { FireKeepsQuiet(quiet, sys.control, act.w, p.id, p.to); }
    hide QuietInv, Apply, Allowed, Disciplined, OnPath;
  }

  lemma FireKeepsQuiet(idle: Sys, c: Control, w: nat, parent: JobId, state: State)
    requires QuietInv(idle) && idle.control == Put(c, w, Idle)
    ensures QuietInv(idle.(control := Fire(c, w, parent, state)))
  {
    var f := Firing(|c.calls|);
    PutKeepsQuiet(idle, w, f);
    hide QuietInv;
    assert Put(idle.control, w, f).workers == Fire(c, w, parent, state).workers;
    CallsDoNotMatter(idle.(control := Put(idle.control, w, f)), Fire(c, w, parent, state));
  }

  /** The budget decides rightly: the attempt that exhausts it is the last on the path. */
  lemma ExhaustedIsLast(h: seq<State>, retryMax: int, attempt: nat)
    requires OnPath(h, Budget(retryMax)) && Last(h) == Failed && Count(h, Failed) == attempt + 1
    ensures Follows(Body(h), Budget(retryMax)) && |Body(h)| < 4 * Budget(retryMax)
    ensures PathAt(|Body(h)|, Budget(retryMax)) == if Exhausted(attempt, retryMax) then Dead else Scheduled
  {
    PlaceOnPath(h, Budget(retryMax));
    FailuresOfBody(h);
    FailuresOnPath(Body(h), Budget(retryMax));
  }

  /** The history after a worker settled its failure is still on its path. */
  lemma SettledStaysOnPath(sys: Sys, act: Act)
    requires QuietStep(sys, act) && act.Settle?
    ensures var ev := Asks(sys.control, act).ev;
      var id, b := At(sys.control, act.w).id, Apply(sys.abs, ev.op, ev.out);
      id in b.jobs ==> OnPath(b.jobs[id].hist, Budget(b.jobs[id].retryMax))
  {
    var ev, p := Asks(sys.control, act).ev, At(sys.control, act.w);
    assert Informed(sys.abs, p);
    hide OnPath, AbsInv, OneHolder, HeldAreUsed, PathAt, Follows, Exhausted;
    if act.out.Done? {
      ExhaustedIsLast(sys.abs.jobs[p.id].hist, p.retryMax, p.attempt);
      StepOnPath(sys.abs.jobs[p.id].hist, Budget(p.retryMax), if Exhausted(p.attempt, p.retryMax) then Dead else Scheduled);
    }
  }

  lemma SettleKeepsQuiet(sys: Sys, act: Act)
    requires QuietStep(sys, act) && act.Settle?
    ensures QuietInv(Next(sys, act))
  {
    SettledStaysOnPath(sys, act);
    hide QuietInv, Apply, Allowed, Disciplined, OnPath, Exhausted;
    var ev, p := Asks(sys.control, act).ev, At(sys.control, act.w);
    HolderKeepsQuiet(sys, act.w, Idle, ev);
    var quiet := Sys(Apply(sys.abs, ev.op, ev.out), UsedAfter(sys.used, ev.op), Put(sys.control, act.w, Idle));
    if EntersTerminal(sys.control, act) { FireKeepsQuiet(quiet, sys.control, act.w, p.id, Dead); }
  }

  lemma ActKeepsQuiet(sys: Sys, act: Act)
    requires QuietStep(sys, act)
    ensures QuietInv(Next(sys, act))
  {
    assert Enabled(sys, act);
    hide QuietStep, QuietInv, Enabled, Next;
    match act
    case Poll(_, _, _, _) => PollKeepsQuiet(sys, act);
    case Finish(_, _, _) => FinishKeepsQuiet(sys, act);
    case Settle(_, _, _, _) => SettleKeepsQuiet(sys, act);
    case Env(_) => AskKeepsQuiet(sys, act);
    case Save(_, _, _) => AskKeepsQuiet(sys, act);
    case Spawn(_, _, _, _) => AskKeepsQuiet(sys, act);
    case Read(_) => CallActKeepsQuiet(sys, act);
    case Skip(_) => CallActKeepsQuiet(sys, act);
    case Close(_) => CallActKeepsQuiet(sys, act);
    case _ => SilentKeepsQuiet(sys, act);
  }
}
