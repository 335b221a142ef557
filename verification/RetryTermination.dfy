/** Retries end. In quiet runs every history stays within four entries an attempt, a job
    whose attempts all fail has exactly one possible history, and, when workers finish
    what they start, every act on a job lowers its rank until the job is settled. */
module RetryTermination {
  import opened Lifecycle
  import opened Protocol
  import opened AbstractJobs
  import opened Workers
  import opened RetryBudget
  import Custody

  ghost predicate AllQuiet(acts: seq<Act>) {
    forall i :: 0 <= i < |acts| ==> Quiet(acts[i])
  }

  lemma {:induction false} QuietRunsKeepInv(sys: Sys, acts: seq<Act>)
    requires QuietInv(sys) && Run(sys, acts) && AllQuiet(acts)
    ensures QuietInv(After(sys, acts))
    decreases |acts|
  {
    if |acts| > 0 {
      assert Quiet(acts[0]);
      assert AllQuiet(acts[1..]);
      hide Quiet;
      ActKeepsQuiet(sys, acts[0]);
      hide QuietInv, Enabled, Next;
      QuietRunsKeepInv(Next(sys, acts[0]), acts[1..]);
    }
  }

  lemma StartIsQuiet()
    ensures QuietInv(START)
  {
  }

  // ----- the budget -----

  lemma FailuresOffPath(b: seq<State>, n: nat)
    requires |b| > 0 && (Last(b) == Succeeded || Last(b) == Cancelled) && Follows(b[..|b| - 1], n)
    ensures Count(b, Failed) == |b| / 4
  {
    FailuresOnPath(b[..|b| - 1], n);
    hide Follows;
  }

  lemma PathBoundsFailures(h: seq<State>, n: nat)
    requires OnPath(h, n) && n > 0
    ensures Count(h, Failed) <= n && |h| <= 4 * n + 1
  {
    var b := Body(h);
    assert |h| <= |b| + 1 && (|b| < |h| || h == b);
    FailuresOfBody(h);
    hide Count, PathAt, Follows, Body;
    if Follows(b, n) {
      FollowsIsBounded(b, n);
      FailuresOnPath(b, n);
    } else {
      OffPathIsBounded(b, n);
    }
  }

  lemma OffPathIsBounded(b: seq<State>, n: nat)
    requires |b| > 0 && (Last(b) == Succeeded || Last(b) == Cancelled) && Follows(b[..|b| - 1], n) && |b| % 4 == 3
    ensures Count(b, Failed) <= n && |b| <= 4 * n
  {
    hide Count, PathAt, Follows;
    FollowsIsBounded(b[..|b| - 1], n);
    FailuresOffPath(b, n);
  }

  lemma FollowsIsBounded(h: seq<State>, n: nat)
    requires Follows(h, n)
    ensures |h| <= 4 * n
  {
  }

  /** Whatever the handlers do, and however the workers interleave, the history of a job
      nobody requeues has at most four entries for each attempt of its budget, after an
      initial Scheduled one, and no two workers hold the job at once. */
  lemma QuietHistoryIsBounded(acts: seq<Act>, id: JobId)
    requires Run(START, acts) && AllQuiet(acts) && id in After(START, acts).abs.jobs
    ensures var job := After(START, acts).abs.jobs[id];
      Count(job.hist, Failed) <= Budget(job.retryMax) && |job.hist| <= 4 * Budget(job.retryMax) + 1
    ensures forall v, w :: Holds(At(After(START, acts).control, v), id) && Holds(At(After(START, acts).control, w), id) ==> v == w
  {
    StartIsQuiet();
    QuietRunsKeepInv(START, acts);
    var job := After(START, acts).abs.jobs[id];
    PathBoundsFailures(job.hist, Budget(job.retryMax));
  }

  /** k failed rounds that were followed by a retry. */
  function Rounds(k: nat): seq<State> {
    if k == 0 then [] else Rounds(k - 1) + [Enqueued, Processing, Failed, Scheduled]
  }

  lemma {:induction false} RoundsFollow(k: nat, i: nat)
    requires i < 4 * k
    ensures |Rounds(k)| == 4 * k && Rounds(k)[i] == PathAt(i, k + 1)
  {
    if k > 1 {
      RoundsFollow(k - 1, if i < 4 * (k - 1) then i else 0);
    }
    assert i >= 4 * (k - 1) ==> Rounds(k)[i] == [Enqueued, Processing, Failed, Scheduled][i - 4 * (k - 1)];
  }

  lemma FullPath(h: seq<State>, n: nat)
    requires n > 0 && |h| == 4 * n && Follows(h, n)
    ensures h == Rounds(n - 1) + [Enqueued, Processing, Failed, Dead]
  {
    var r := Rounds(n - 1) + [Enqueued, Processing, Failed, Dead];
    if n > 1 { RoundsFollow(n - 1, 0); }
    forall i | 0 <= i < |h| ensures h[i] == r[i] {
      if i < 4 * (n - 1) {
        RoundsFollow(n - 1, i);
      } else {
        assert r[i] == [Enqueued, Processing, Failed, Dead][i - 4 * (n - 1)];
      }
    }
  }

  /** The one history of a job created by Enqueue that is settled without having
      succeeded or been cancelled. */
  lemma AllFailHistory(acts: seq<Act>, id: JobId)
    requires Run(START, acts) && AllQuiet(acts) && id in After(START, acts).abs.jobs
    requires var h := After(START, acts).abs.jobs[id].hist;
      |h| > 0 && h[0] == Enqueued && Irreversible(Last(h)) && Last(h) != Succeeded && Last(h) != Cancelled
    ensures var job := After(START, acts).abs.jobs[id];
      job.hist == Rounds(Budget(job.retryMax) - 1) + [Enqueued, Processing, Failed, Dead]
  {
    StartIsQuiet();
    QuietRunsKeepInv(START, acts);
    var job := After(START, acts).abs.jobs[id];
    var h, n := job.hist, Budget(job.retryMax);
    assert OnPath(h, n) && Body(h) == h;
    assert Last(h) == PathAt(|h| - 1, n);
    FullPath(h, n);
  }

  // ----- termination -----

  predicate CrashFree(act: Act) {
    Quiet(act) && !act.Crash?
  }

  ghost predicate Processed(c: Control, id: JobId) {
    exists w :: Holds(At(c, w), id) && !At(c, w).Settling?
  }

  ghost predicate BeingSettled(c: Control, id: JobId) {
    exists w :: Holds(At(c, w), id) && At(c, w).Settling?
  }

  /** Nobody forgot a job: whatever is processing or has failed is in some worker's hands. */
  ghost predicate Cared(sys: Sys) {
    forall id ::
      && (In(sys.abs, id, Processing) ==> Processed(sys.control, id))
      && (In(sys.abs, id, Failed) ==> BeingSettled(sys.control, id))
  }

  function Phase(p: Proc): nat {
    match p
    case Taken(_, _) => 5
    case Running(_, _, _, _) => 4
    case Saving(_, _, _, _, _) => 3
    case Finishing(_, _, _, _, _) => 2
    case Settling(_, _, _) => 1
    case _ => 0
  }

  ghost predicate Held(c: Control, id: JobId) {
    exists w :: Holds(At(c, w), id)
  }

  ghost function HolderPhase(c: Control, id: JobId): nat {
    if Held(c, id) then
      var w :| Holds(At(c, w), id);
      Phase(At(c, w))
    else 0
  }

  lemma PhaseOfHolder(c: Control, w: nat, id: JobId)
    requires OneHolder(c) && Holds(At(c, w), id)
    ensures HolderPhase(c, id) == Phase(At(c, w))
  {
  }

  /** What is left to do for a job: the entries its path still has room for, then
      the phase of the worker that holds it. */
  ghost function Rank(sys: Sys, id: JobId): int {
    if id !in sys.abs.jobs then 0 else
    8 * (4 * Budget(sys.abs.jobs[id].retryMax) + 2 - |sys.abs.jobs[id].hist|) + HolderPhase(sys.control, id)
  }

  /** The act is a holder's of the job, or changes the job. */
  ghost predicate Concerns(sys: Sys, act: Act, id: JobId)
    requires Guard(sys.control, act)
  {
    && id in sys.abs.jobs
    && ((!act.Env? && Holds(At(sys.control, act.w), id))
        || (Asks(sys.control, act).Ask? && Touches(Asks(sys.control, act).ev, id)))
  }

  lemma RankIsPositive(sys: Sys, id: JobId)
    requires QuietInv(sys)
    ensures Rank(sys, id) >= 0
    ensures id in sys.abs.jobs ==> Rank(sys, id) >= 8
  {
    if id in sys.abs.jobs { PathBoundsFailures(sys.abs.jobs[id].hist, Budget(sys.abs.jobs[id].retryMax)); }
  }

  // ----- who holds a job after an act -----

  lemma SamePhase(b: Control, c: Control, id: JobId)
    requires OneHolder(b) && OneHolder(c)
    requires forall v :: Holds(At(b, v), id) || Holds(At(c, v), id) ==> At(b, v) == At(c, v)
    ensures HolderPhase(b, id) == HolderPhase(c, id)
  {
    if Held(b, id) {
      var w :| Holds(At(b, w), id);
      PhaseOfHolder(b, w, id);
      PhaseOfHolder(c, w, id);
    } else {
      assert !Held(c, id);
    }
  }

  lemma NobodyHolds(sys: Sys, id: JobId)
    requires QuietInv(sys) && (In(sys.abs, id, Enqueued) || In(sys.abs, id, Scheduled))
    ensures !Held(sys.control, id) && HolderPhase(sys.control, id) == 0
  {
    forall w ensures !Holds(At(sys.control, w), id) { assert Informed(sys.abs, At(sys.control, w)); }
  }

  ghost predicate Step(sys: Sys, act: Act) {
    QuietInv(sys) && Enabled(sys, act) && CrashFree(act)
  }

  /** An act that does not concern the job leaves its rank alone. */
  lemma OtherActsKeepRank(sys: Sys, act: Act, id: JobId)
    requires Step(sys, act) && id in sys.abs.jobs && !Concerns(sys, act, id)
    ensures Rank(Next(sys, act), id) == Rank(sys, id)
  {
    ActKeepsQuiet(sys, act);
    var c := Control'(sys.abs, sys.control, act);
    if Asks(sys.control, act).Ask? { UntouchedIsSame(sys.abs, Asks(sys.control, act).ev, id); }
    forall v | Holds(At(sys.control, v), id) || Holds(At(c, v), id) ensures At(sys.control, v) == At(c, v) {
      if act.Env? || v != act.w {
        OnlyTheActorMoves(sys.abs, sys.control, act, v);
      } else {
        ActorKeepsItsJob(sys, act, id);
      }
    }
    assert OneHolder(sys.control) && OneHolder(c);
    hide QuietInv, Apply, Allowed, Disciplined, HolderPhase;
    SamePhase(sys.control, c, id);
  }

  /** A worker comes to hold a job only by taking it. */
  lemma ActorKeepsItsJob(sys: Sys, act: Act, id: JobId)
    requires Enabled(sys, act) && !act.Env? && !Holds(At(sys.control, act.w), id)
    requires Asks(sys.control, act).Ask? ==> !Touches(Asks(sys.control, act).ev, id)
    ensures !Holds(At(Control'(sys.abs, sys.control, act), act.w), id)
  {
  }

  lemma PhaseAfter(sys: Sys, next: Sys, w: nat, id: JobId)
    requires OneHolder(sys.control) && OneHolder(next.control) && Holds(At(sys.control, w), id)
    requires forall v :: v != w ==> At(next.control, v) == At(sys.control, v)
    ensures HolderPhase(sys.control, id) == Phase(At(sys.control, w))
    ensures HolderPhase(next.control, id) == if Holds(At(next.control, w), id) then Phase(At(next.control, w)) else 0
  {
    PhaseOfHolder(sys.control, w, id);
    if Holds(At(next.control, w), id) {
      PhaseOfHolder(next.control, w, id);
    } else {
      forall v ensures !Holds(At(next.control, v), id) { assert v != w ==> At(next.control, v) == At(sys.control, v); }
      assert !Held(next.control, id);
    }
  }

  lemma HolderKnows(sys: Sys, w: nat)
    requires QuietInv(sys)
    ensures Informed(sys.abs, At(sys.control, w))
  {
  }

  lemma ThinkingLowersPhase(a: Abs, c: Control, act: Act, id: JobId)
    requires Guard(c, act) && !act.Env? && !act.Crash? && !act.Finish? && !act.Settle?
    requires Holds(At(c, act.w), id) && id in a.jobs && (act.Save? ==> act.out.Done?)
    ensures Holds(At(Control'(a, c, act), act.w), id) && Phase(At(Control'(a, c, act), act.w)) < Phase(At(c, act.w))
  {
  }

  /** Before the verdict is stored only the holder itself moves. */
  lemma HolderThinks(sys: Sys, act: Act, id: JobId)
    requires Step(sys, act) && !act.Env? && Holds(At(sys.control, act.w), id) && !act.Finish? && !act.Settle?
    requires id in sys.abs.jobs
    ensures var next := Next(sys, act);
      && next.abs.jobs == sys.abs.jobs
      && Holds(At(next.control, act.w), id) && Phase(At(next.control, act.w)) < Phase(At(sys.control, act.w))
  {
    hide QuietInv, Disciplined, Apply, Allowed, Control', Informed;
    if act.Save? { SavingIsSilent(sys.abs, Asks(sys.control, act).ev, id); }
    ThinkingLowersPhase(sys.abs, sys.control, act, id);
  }

  lemma SavingIsSilent(a: Abs, ev: Event, id: JobId)
    requires Allowed(a, ev.op, ev.out) && ev.op.SetJobResult? && ev.op.id == id && id in a.jobs
    ensures ev.out == Done && Apply(a, ev.op, ev.out) == a
  {
  }

  /** The verdict of a job in the state it expects is stored: one entry more. */
  lemma StoredIsLonger(a: Abs, ev: Event, id: JobId)
    requires Allowed(a, ev.op, ev.out) && (ev.op.ApplyState? || ev.op.ScheduleRetry?) && ev.op.id == id
    requires In(a, id, if ev.op.ApplyState? then ev.op.expected else Failed)
    ensures var b := Apply(a, ev.op, ev.out);
      && id in b.jobs && b.jobs[id].retryMax == a.jobs[id].retryMax
      && |b.jobs[id].hist| == |a.jobs[id].hist| + 1
  {
  }

  /** Storing it adds an entry. */
  lemma HolderStores(sys: Sys, act: Act, id: JobId)
    requires Step(sys, act) && (act.Finish? || act.Settle?) && Holds(At(sys.control, act.w), id)
    requires id in sys.abs.jobs
    ensures var next := Next(sys, act);
      && id in next.abs.jobs && next.abs.jobs[id].retryMax == sys.abs.jobs[id].retryMax
      && |next.abs.jobs[id].hist| == |sys.abs.jobs[id].hist| + 1
      && (if Holds(At(next.control, act.w), id) then Phase(At(next.control, act.w)) else 0) <= 1
  {
    hide QuietInv, Disciplined, Apply, Allowed;
    HolderKnows(sys, act.w);
    StoredIsLonger(sys.abs, Asks(sys.control, act).ev, id);
  }

  /** A holder's own act: its phase falls, or the history grows. */
  lemma HolderActsLowerRank(sys: Sys, act: Act, id: JobId)
    requires Step(sys, act) && id in sys.abs.jobs && !act.Env? && Holds(At(sys.control, act.w), id)
    ensures Rank(Next(sys, act), id) < Rank(sys, id)
  {
    ActKeepsQuiet(sys, act);
    var next := Next(sys, act);
    forall v | v != act.w ensures At(next.control, v) == At(sys.control, v) { OnlyTheActorMoves(sys.abs, sys.control, act, v); }
    if act.Finish? || act.Settle? { HolderStores(sys, act, id); } else { HolderThinks(sys, act, id); }
    assert OneHolder(sys.control) && OneHolder(next.control);
    hide QuietInv, Next, Enabled, HolderPhase;
    PhaseAfter(sys, next, act.w, id);
  }

  /** Somebody else's act on a job nobody holds, or its erasure. */
  lemma TouchesLowerRank(sys: Sys, act: Act, id: JobId)
    requires Step(sys, act) && id in sys.abs.jobs && (act.Env? || !Holds(At(sys.control, act.w), id))
    requires Asks(sys.control, act).Ask? && Touches(Asks(sys.control, act).ev, id)
    ensures Rank(Next(sys, act), id) < Rank(sys, id)
  {
    ActKeepsQuiet(sys, act);
    RankIsPositive(sys, id);
    var ev, next := Asks(sys.control, act).ev, Next(sys, act);
    if ev.out.Promoted? {
      assert In(sys.abs, id, Scheduled) && In(next.abs, id, Enqueued);
      NobodyHolds(sys, id);
      NobodyHolds(next, id);
    } else if act.Poll? {
      NobodyHolds(sys, id);
      PhaseOfHolder(next.control, act.w, id);
    } else {
      assert id !in next.abs.jobs;
    }
    hide QuietInv, HolderPhase, Disciplined;
  }

  /** Every act on a job lowers its rank; no other act changes it. */
  lemma RankFalls(sys: Sys, act: Act, id: JobId)
    requires Step(sys, act) && id in sys.abs.jobs
    ensures Rank(Next(sys, act), id) + (if Concerns(sys, act, id) then 1 else 0) <= Rank(sys, id)
  {
    if !Concerns(sys, act, id) {
      OtherActsKeepRank(sys, act, id);
    } else if !act.Env? && Holds(At(sys.control, act.w), id) {
      HolderActsLowerRank(sys, act, id);
    } else {
      TouchesLowerRank(sys, act, id);
    }
  }

  // ----- nobody forgets a job -----

  /** The state a touched job is left in. */
  function Target(op: Op): State {
    match op
    case AddScheduled(_, _, _, _) => Scheduled
    case Dequeue(_, _) => Processing
    case ApplyState(_, _, next, _) => next
    case ScheduleRetry(_, _, _) => Scheduled
    case DeleteJob(_, _) => Deleted
    case _ => Enqueued
  }

  lemma TouchedEndsThere(a: Abs, ev: Event, id: JobId, s: State)
    requires Allowed(a, ev.op, ev.out) && Touches(ev, id) && In(Apply(a, ev.op, ev.out), id, s)
    ensures s == Target(ev.op)
  {
  }

  lemma TouchedIsCaredFor(sys: Sys, act: Act, id: JobId, s: State)
    requires Step(sys, act) && Asks(sys.control, act).Ask? && Touches(Asks(sys.control, act).ev, id)
    requires In(Next(sys, act).abs, id, s)
    ensures s == Processing ==> Processed(Next(sys, act).control, id)
    ensures s == Failed ==> BeingSettled(Next(sys, act).control, id)
  {
    var c := Control'(sys.abs, sys.control, act);
    TouchedEndsThere(sys.abs, Asks(sys.control, act).ev, id, s);
    hide Apply, Allowed, Disciplined, In;
    if act.Finish? {
      assert Informed(sys.abs, At(sys.control, act.w));
      assert s == Failed ==> Holds(At(c, act.w), id) && At(c, act.w).Settling?;
    } else if act.Poll? {
      assert Holds(At(c, act.w), id);
    }
    hide QuietInv;
  }

  lemma ActKeepsCaredFor(sys: Sys, act: Act, id: JobId)
    requires Step(sys, act) && Cared(sys)
    ensures In(Next(sys, act).abs, id, Processing) ==> Processed(Next(sys, act).control, id)
    ensures In(Next(sys, act).abs, id, Failed) ==> BeingSettled(Next(sys, act).control, id)
  {
    hide QuietInv, Cared, Processed, BeingSettled, Apply, Touches, Holds;
    if Asks(sys.control, act).Ask? && Touches(Asks(sys.control, act).ev, id) {
      if In(Next(sys, act).abs, id, Processing) { TouchedIsCaredFor(sys, act, id, Processing); }
      if In(Next(sys, act).abs, id, Failed) { TouchedIsCaredFor(sys, act, id, Failed); }
    } else {
      if Asks(sys.control, act).Ask? { UntouchedIsSame(sys.abs, Asks(sys.control, act).ev, id); }
      CareContinues(sys, act, id);
    }
  }

  /** The worker in charge stays in charge while the job does not move. */
  lemma CareContinues(sys: Sys, act: Act, id: JobId)
    requires Step(sys, act) && Cared(sys)
    requires Asks(sys.control, act).Ask? ==> !Touches(Asks(sys.control, act).ev, id)
    ensures In(sys.abs, id, Processing) ==> Processed(Control'(sys.abs, sys.control, act), id)
    ensures In(sys.abs, id, Failed) ==> BeingSettled(Control'(sys.abs, sys.control, act), id)
  {
    var c := Control'(sys.abs, sys.control, act);
    if In(sys.abs, id, Processing) {
      var w :| Holds(At(sys.control, w), id) && !At(sys.control, w).Settling?;
      InChargeStays(sys, act, id, w);
      assert Processed(c, id);
    } else if In(sys.abs, id, Failed) {
      var w :| Holds(At(sys.control, w), id) && At(sys.control, w).Settling?;
      InChargeStays(sys, act, id, w);
      assert BeingSettled(c, id);
    }
  }

  lemma InChargeStays(sys: Sys, act: Act, id: JobId, w: nat)
    requires Step(sys, act) && Holds(At(sys.control, w), id) && id in sys.abs.jobs
    requires Asks(sys.control, act).Ask? ==> !Touches(Asks(sys.control, act).ev, id)
    ensures Holds(At(Control'(sys.abs, sys.control, act), w), id)
    ensures At(Control'(sys.abs, sys.control, act), w).Settling? == At(sys.control, w).Settling?
  {
    hide QuietInv, Disciplined, Apply;
    HolderKnows(sys, w);
    if act.Env? || w != act.w { OnlyTheActorMoves(sys.abs, sys.control, act, w); }
  }

  lemma ActKeepsCared(sys: Sys, act: Act)
    requires Step(sys, act) && Cared(sys)
    ensures Cared(Next(sys, act))
  {
    var next := Next(sys, act);
    forall id
      ensures In(next.abs, id, Processing) ==> Processed(next.control, id)
      ensures In(next.abs, id, Failed) ==> BeingSettled(next.control, id)
    {
      ActKeepsCaredFor(sys, act, id);
    }
  }

  // ----- progress -----

  ghost predicate CanAct(sys: Sys, id: JobId, act: Act) {
    CrashFree(act) && Enabled(sys, act) && Concerns(sys, act, id)
  }

  lemma EnqueuedCanBeTaken(sys: Sys, id: JobId) returns (act: Act)
    requires In(sys.abs, id, Enqueued)
    ensures CanAct(sys, id, act)
  {
    var w := Custody.FreshWorker(sys.control.workers.Keys);
    act := Poll(w, [sys.abs.jobs[id].queue], 0, Ticket(id));
  }

  lemma DueIsAllowed(a: Abs, id: JobId)
    requires id in a.due && id in a.jobs
    ensures Allowed(a, GetDueScheduled(a.due[id], 1), Outcome.Promoted([id]))
  {
  }

  lemma PromotionIsPossible(sys: Sys, id: JobId)
    requires id in sys.abs.due && id in sys.abs.jobs
    ensures CanAct(sys, id, Env(Event(GetDueScheduled(sys.abs.due[id], 1), Outcome.Promoted([id]))))
  {
    hide Allowed, Apply;
    DueIsAllowed(sys.abs, id);
  }

  lemma ScheduledCanBePromoted(sys: Sys, id: JobId) returns (act: Act)
    requires QuietInv(sys) && In(sys.abs, id, Scheduled)
    ensures CanAct(sys, id, act) && act.Env? && act.ev.op.GetDueScheduled?
  {
    assert id in sys.abs.due && id in sys.abs.jobs;
    act := Env(Event(GetDueScheduled(sys.abs.due[id], 1), Outcome.Promoted([id])));
    hide QuietInv, Allowed, In, Apply, Stuck;
    PromotionIsPossible(sys, id);
  }

  lemma HolderCanThink(sys: Sys, id: JobId, w: nat) returns (act: Act)
    requires id in sys.abs.jobs && Holds(At(sys.control, w), id)
    requires At(sys.control, w).Taken? || At(sys.control, w).Running? || At(sys.control, w).Saving?
    ensures CanAct(sys, id, act) && !act.Env? && act.w == w
  {
    act := match At(sys.control, w)
      case Taken(_, _) => Load(w)
      case Running(_, _, _, _) => Return(w, Failure)
      case _ => Save(w, 0, Done);
  }

  lemma HolderCanStore(sys: Sys, id: JobId, w: nat) returns (act: Act)
    requires id in sys.abs.jobs && Holds(At(sys.control, w), id) && Informed(sys.abs, At(sys.control, w))
    requires At(sys.control, w).Finishing? || At(sys.control, w).Settling?
    ensures CanAct(sys, id, act) && !act.Env? && act.w == w
  {
    act := if At(sys.control, w).Finishing? then Finish(w, 0, Done) else Settle(w, 0, 0, Done);
  }

  lemma HolderCanAct(sys: Sys, id: JobId, w: nat) returns (act: Act)
    requires QuietInv(sys) && id in sys.abs.jobs && Holds(At(sys.control, w), id)
    ensures CanAct(sys, id, act) && !act.Env? && act.w == w
  {
    assert Informed(sys.abs, At(sys.control, w));
    hide CanAct, QuietInv, Informed;
    if At(sys.control, w).Finishing? || At(sys.control, w).Settling? {
      act := HolderCanStore(sys, id, w);
    } else {
      act := HolderCanThink(sys, id, w);
    }
  }

  /** A live job that is not settled has an act that concerns it, now or once it is due. */
  lemma SomethingIsEnabled(sys: Sys, id: JobId)
    requires QuietInv(sys) && Cared(sys) && id in sys.abs.jobs && !Stuck(sys.abs, id)
    ensures exists act :: CanAct(sys, id, act)
  {
    PlaceOnPath(sys.abs.jobs[id].hist, Budget(sys.abs.jobs[id].retryMax));
    var act: Act;
    hide CanAct;
    if In(sys.abs, id, Enqueued) {
      act := EnqueuedCanBeTaken(sys, id);
    } else if In(sys.abs, id, Scheduled) {
      act := ScheduledCanBePromoted(sys, id);
    } else {
      assert Processed(sys.control, id) || BeingSettled(sys.control, id);
      var w :| Holds(At(sys.control, w), id);
      act := HolderCanAct(sys, id, w);
    }
  }

  // ----- whole runs -----

  ghost predicate AllCrashFree(acts: seq<Act>) {
    forall i :: 0 <= i < |acts| ==> CrashFree(acts[i])
  }

  ghost function ConcernCount(sys: Sys, acts: seq<Act>, id: JobId): nat
    requires Run(sys, acts)
    decreases |acts|
  {
    if |acts| == 0 then 0 else
    (if Concerns(sys, acts[0], id) then 1 else 0) + ConcernCount(Next(sys, acts[0]), acts[1..], id)
  }

  lemma {:induction false} CrashFreeRuns(sys: Sys, acts: seq<Act>, id: JobId)
    requires QuietInv(sys) && Cared(sys) && id in sys.used && Run(sys, acts) && AllCrashFree(acts)
    ensures QuietInv(After(sys, acts)) && Cared(After(sys, acts))
    ensures ConcernCount(sys, acts, id) + Rank(After(sys, acts), id) <= Rank(sys, id)
    decreases |acts|
  {
    if |acts| > 0 {
      var act, next := acts[0], Next(sys, acts[0]);
      assert CrashFree(act) && AllCrashFree(acts[1..]);
      ActKeepsQuiet(sys, act);
      ActKeepsCared(sys, act);
      if id in sys.abs.jobs { RankFalls(sys, act, id); } else { GoneStaysGone(sys, act, id); }
      UsedStays(sys, act, id);
      hide QuietInv, Enabled, Next, Rank, Concerns, Cared;
      CrashFreeRuns(next, acts[1..], id);
    }
  }

  lemma UsedStays(sys: Sys, act: Act, id: JobId)
    requires Enabled(sys, act) && id in sys.used
    ensures id in Next(sys, act).used
  {
    hide Apply, Allowed;
  }

  lemma GoneStaysGone(sys: Sys, act: Act, id: JobId)
    requires Enabled(sys, act) && id in sys.used && id !in sys.abs.jobs
    ensures id !in Next(sys, act).abs.jobs
  {
    if Asks(sys.control, act).Ask? {
      var ev := Asks(sys.control, act).ev;
      AbsNothingComesBack(sys.abs, sys.used, ev.op, ev.out, id);
    }
    hide Apply, Allowed, Disciplined;
  }

  lemma EarlyRank(sys: Sys, id: JobId)
    requires QuietInv(sys) && id in sys.abs.jobs
    ensures Rank(sys, id) <= 32 * Budget(sys.abs.jobs[id].retryMax) + 13
  {
  }

  /** Retries terminate: after a job is created, a crash-free quiet run holds at most
      32 n + 13 acts on it, n its budget; and as long as the job lives and is not
      settled, some act on it is enabled. So it reaches a settled state. */
  lemma RetriesTerminate(before: seq<Act>, acts: seq<Act>, id: JobId)
    requires Run(START, before) && AllCrashFree(before) && id in After(START, before).abs.jobs
    requires Run(After(START, before), acts) && AllCrashFree(acts)
    ensures ConcernCount(After(START, before), acts, id) <= 32 * Budget(After(START, before).abs.jobs[id].retryMax) + 13
    ensures var end := After(After(START, before), acts);
      id in end.abs.jobs && !Stuck(end.abs, id) ==>
        exists act :: CanAct(end, id, act)
  {
    StartIsQuiet();
    CaredRuns(START, before);
    var mid := After(START, before);
    assert id in mid.used;
    CrashFreeRuns(mid, acts, id);
    EarlyRank(mid, id);
    RankIsPositive(After(mid, acts), id);
    if id in After(mid, acts).abs.jobs && !Stuck(After(mid, acts).abs, id) {
      SomethingIsEnabled(After(mid, acts), id);
    }
  }

  lemma {:induction false} CaredRuns(sys: Sys, acts: seq<Act>)
    requires QuietInv(sys) && Cared(sys) && Run(sys, acts) && AllCrashFree(acts)
    ensures QuietInv(After(sys, acts)) && Cared(After(sys, acts))
    decreases |acts|
  {
    if |acts| > 0 {
      var act, next := acts[0], Next(sys, acts[0]);
      assert CrashFree(act) && AllCrashFree(acts[1..]);
      ActKeepsQuiet(sys, act);
      ActKeepsCared(sys, act);
      hide QuietInv, Enabled, Next, Cared;
      CaredRuns(next, acts[1..]);
    }
  }
}
