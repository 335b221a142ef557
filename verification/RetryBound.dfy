/** The retry budget with crashes, deletes and orphan recovery. As long as the only
    requeues are of processing jobs that nobody runs, which is what recovery does when
    it comes in time, no job fails more often than its budget. */
module RetryBound {
  import opened Lifecycle
  import opened Protocol
  import opened AbstractJobs
  import opened Workers
  import opened Custody

  /** Room for another failure while the job may still be attempted. */
  ghost predicate WithinBudget(h: seq<State>, n: nat) {
    && Count(h, Failed) <= n
    && (|h| > 0 && (Last(h) == Enqueued || Last(h) == Processing || Last(h) == Scheduled) ==> Count(h, Failed) < n)
  }

  ghost predicate AllWithin(a: Abs) {
    forall id :: id in a.jobs ==> WithinBudget(a.jobs[id].hist, Budget(a.jobs[id].retryMax))
  }

  predicate Settles(c: Control, w: nat, id: JobId) {
    At(c, w).Settling? && At(c, w).id == id
  }

  /** A worker about to settle a failure knows the failure, or the job is gone. */
  ghost predicate Aware(a: Abs, p: Proc)
    requires p.Settling?
  {
    || Gone(a, p.id)
    || (In(a, p.id, Failed) && Count(a.jobs[p.id].hist, Failed) == p.attempt + 1 && a.jobs[p.id].retryMax == p.retryMax)
  }

  ghost predicate AllAware(a: Abs, used: set<JobId>, c: Control) {
    forall w :: At(c, w).Settling? ==> At(c, w).id in used && Aware(a, At(c, w))
  }

  ghost predicate OneSettler(c: Control) {
    forall v, w, id :: Settles(c, v, id) && Settles(c, w, id) ==> v == w
  }

  ghost predicate BudgetInv(sys: Sys) {
    && CustodyInv(sys) && AllWithin(sys.abs)
    && AllAware(sys.abs, sys.used, sys.control) && OneSettler(sys.control)
  }

  /** The only successful requeues are recoveries: of a processing job that no worker runs. */
  ghost predicate Recovers(sys: Sys, act: Act) {
    Respects(sys, act)
    && (act.Env? && act.ev.op.Requeue? && act.ev.out.Done? ==> In(sys.abs, act.ev.op.id, Processing))
  }

  // ----- the store -----

  lemma WithinGrows(h: seq<State>, n: nat, s: State)
    requires |h| > 0 && WithinBudget(h, n) && FitsAfter(h, s, n)
    ensures WithinBudget(h + [s], n)
  {
    CountAppend(h, s, Failed);
    hide Count;
  }

  /** The state changes of acts, read off the store. */
  ghost predicate Fitting(a: Abs, ev: Event) {
    && (ev.op.Requeue? && ev.out.Done? ==> In(a, ev.op.id, Processing))
    && (ev.op.ScheduleRetry? && ev.out.Done? ==>
          ev.op.id in a.jobs && Count(a.jobs[ev.op.id].hist, Failed) < Budget(a.jobs[ev.op.id].retryMax))
  }

  /** The entries that the requests of an act may add to a history. */
  ghost predicate FitsAfter(h: seq<State>, s: State, n: nat) {
    && (s == Failed ==> |h| > 0 && Last(h) == Processing)
    && (s == Enqueued || s == Processing ==>
          |h| > 0 && (Last(h) == Enqueued || Last(h) == Processing || Last(h) == Scheduled))
    && (s == Scheduled ==> Count(h, Failed) < n)
  }

  /** A job that survives a request keeps its history, or gains one entry. */
  lemma OneMoreEntry(a: Abs, used: set<JobId>, ev: Event, id: JobId)
    requires AbsInv(a, used) && Disciplined(a, used, ev.op) && Allowed(a, ev.op, ev.out) && Fitting(a, ev)
    requires id in a.jobs && id in Apply(a, ev.op, ev.out).jobs
    ensures var h, job := a.jobs[id].hist, Apply(a, ev.op, ev.out).jobs[id];
      && |h| > 0 && job.retryMax == a.jobs[id].retryMax
      && (job.hist == h || (job.hist == h + [Last(job.hist)] && FitsAfter(h, Last(job.hist), Budget(job.retryMax))))
  {
    hide LegalHistory, Count, Budget;
    assert LegalHistory(a.jobs[id].hist);
    HistoryIsNotEmpty(a.jobs[id].hist);
    if !Touches(ev, id) {
      UntouchedIsSame(a, ev, id);
      hide AbsInv, Fitting, Apply, Allowed, Disciplined;
    } else {
      TouchedGrows(a, used, ev, id);
      hide AbsInv, Fitting, Apply, Allowed, Disciplined;
    }
  }

  lemma TouchedGrows(a: Abs, used: set<JobId>, ev: Event, id: JobId)
    requires AbsInv(a, used) && Disciplined(a, used, ev.op) && Allowed(a, ev.op, ev.out) && Fitting(a, ev)
    requires id in a.jobs && id in Apply(a, ev.op, ev.out).jobs && Touches(ev, id)
    ensures var h, job := a.jobs[id].hist, Apply(a, ev.op, ev.out).jobs[id];
      && job.retryMax == a.jobs[id].retryMax
      && |job.hist| > 0 && job.hist == h + [Last(job.hist)] && FitsAfter(h, Last(job.hist), Budget(job.retryMax))
  {
    hide LegalHistory, Count, Budget;
  }

  lemma HistoryIsNotEmpty(h: seq<State>)
    requires LegalHistory(h)
    ensures |h| > 0
  {
  }

  lemma NewIsWithin(a: Abs, ev: Event)
    requires Allowed(a, ev.op, ev.out) && Creates(ev.op)
    ensures ev.op.id in Apply(a, ev.op, ev.out).jobs
    ensures var job := Apply(a, ev.op, ev.out).jobs[ev.op.id]; WithinBudget(job.hist, Budget(job.retryMax))
  {
  }

  lemma OnlyCreationAdds(a: Abs, ev: Event, id: JobId)
    requires Allowed(a, ev.op, ev.out) && id !in a.jobs && id in Apply(a, ev.op, ev.out).jobs
    ensures Creates(ev.op) && ev.op.id == id
  {
  }

  lemma StoreKeepsWithin(a: Abs, used: set<JobId>, ev: Event)
    requires AbsInv(a, used) && Disciplined(a, used, ev.op) && Allowed(a, ev.op, ev.out) && Fitting(a, ev) && AllWithin(a)
    ensures AllWithin(Apply(a, ev.op, ev.out))
  {
    var b := Apply(a, ev.op, ev.out);
    hide AbsInv, Disciplined, Allowed, Apply, Fitting, WithinBudget;
    forall id | id in b.jobs ensures WithinBudget(b.jobs[id].hist, Budget(b.jobs[id].retryMax)) {
      if id in a.jobs {
        OneMoreEntry(a, used, ev, id);
        if b.jobs[id].hist != a.jobs[id].hist { WithinGrows(a.jobs[id].hist, Budget(a.jobs[id].retryMax), Last(b.jobs[id].hist)); }
      } else {
        OnlyCreationAdds(a, ev, id);
        NewIsWithin(a, ev);
      }
    }
  }

  /** The requests that move a failed job on. */
  predicate Moves(ev: Event, id: JobId) {
    ev.out.Done? && ((ev.op.Requeue? && ev.op.id == id) || (ev.op.ScheduleRetry? && ev.op.id == id)
      || (ev.op.ApplyState? && ev.op.id == id && ev.op.expected == Failed))
  }

  lemma FailedIsLeftAlone(a: Abs, used: set<JobId>, ev: Event, id: JobId)
    requires AbsInv(a, used) && Disciplined(a, used, ev.op) && Allowed(a, ev.op, ev.out) && id in used
    requires In(a, id, Failed) && !Moves(ev, id) && Touches(ev, id)
    ensures Gone(Apply(a, ev.op, ev.out), id)
  {
  }

  lemma StoreKeepsAware(a: Abs, used: set<JobId>, ev: Event, p: Proc)
    requires AbsInv(a, used) && Disciplined(a, used, ev.op) && Allowed(a, ev.op, ev.out)
    requires p.Settling? && p.id in used && Aware(a, p) && (Moves(ev, p.id) ==> Gone(a, p.id))
    ensures Aware(Apply(a, ev.op, ev.out), p)
  {
    if Gone(a, p.id) {
      GoneStays(a, used, ev, p.id);
    } else if Touches(ev, p.id) {
      FailedIsLeftAlone(a, used, ev, p.id);
    } else {
      UntouchedIsSame(a, ev, p.id);
    }
    hide Apply, Allowed, Disciplined, AbsInv, Touches, Moves;
  }

  // ----- one act -----

  ghost predicate Step(sys: Sys, act: Act) {
    BudgetInv(sys) && Enabled(sys, act) && Recovers(sys, act)
  }

  /** A settled failure leaves room exactly when the engine reschedules it. */
  lemma RescheduleFits(a: Abs, p: Proc)
    requires p.Settling? && Aware(a, p) && In(a, p.id, Failed) && !Exhausted(p.attempt, p.retryMax)
    ensures Count(a.jobs[p.id].hist, Failed) < Budget(a.jobs[p.id].retryMax)
  {
    hide Count;
  }

  lemma ActsFit(sys: Sys, act: Act)
    requires Step(sys, act) && Asks(sys.control, act).Ask?
    ensures Fitting(sys.abs, Asks(sys.control, act).ev)
  {
    if act.Settle? && act.out.Done? && !Exhausted(At(sys.control, act.w).attempt, At(sys.control, act.w).retryMax) {
      assert Aware(sys.abs, At(sys.control, act.w));
      RescheduleFits(sys.abs, At(sys.control, act.w));
    }
    hide CustodyInv, AllWithin, Apply, Count;
  }

  /** No act of another moves the failed job a worker is settling. */
  lemma OthersDoNotMove(sys: Sys, act: Act, v: nat)
    requires Step(sys, act) && Asks(sys.control, act).Ask? && At(sys.control, v).Settling?
    requires act.Settle? ==> act.w != v
    ensures Moves(Asks(sys.control, act).ev, At(sys.control, v).id) ==> Gone(sys.abs, At(sys.control, v).id)
  {
    var id := At(sys.control, v).id;
    assert Settles(sys.control, v, id) && Aware(sys.abs, At(sys.control, v));
    assert act.Settle? ==> Settles(sys.control, act.w, Asks(sys.control, act).ev.op.id);
    hide CustodyInv, AllWithin, Apply, Count;
  }

  /** A worker comes to settle a failure only by storing it. */
  lemma SettlerBefore(a: Abs, c: Control, act: Act, v: nat)
    requires Guard(c, act) && At(Control'(a, c, act), v).Settling?
    ensures if act.Finish? && act.w == v
      then At(c, v).Finishing? && act.out.Done? && At(c, v).to == Failed
        && At(Control'(a, c, act), v) == Settling(At(c, v).id, At(c, v).attempt, At(c, v).retryMax)
      else At(c, v) == At(Control'(a, c, act), v) && (act.Settle? ==> act.w != v)
  {
  }

  /** The failure a worker has just stored is the one it will settle. */
  lemma FinishMakesAware(sys: Sys, act: Act)
    requires Step(sys, act) && act.Finish? && act.out.Done? && At(sys.control, act.w).to == Failed
    ensures At(Next(sys, act).control, act.w).Settling? && At(Next(sys, act).control, act.w).id in Next(sys, act).used
    ensures Aware(Next(sys, act).abs, At(Next(sys, act).control, act.w))
    ensures In(sys.abs, At(sys.control, act.w).id, Processing)
  {
    var p := At(sys.control, act.w);
    assert Holding(sys.abs, p) && p.id in sys.used;
    CountAppend(sys.abs.jobs[p.id].hist, Failed, Failed);
    hide AbsInv, AllHolding, OneRunner, AllWithin, AllAware, OneSettler, Count;
  }

  lemma SettlerStaysAware(sys: Sys, act: Act, v: nat)
    requires Step(sys, act) && At(Next(sys, act).control, v).Settling?
    ensures At(Next(sys, act).control, v).id in Next(sys, act).used
    ensures Aware(Next(sys, act).abs, At(Next(sys, act).control, v))
  {
    SettlerBefore(sys.abs, sys.control, act, v);
    if act.Finish? && act.w == v {
      FinishMakesAware(sys, act);
    } else {
      assert Aware(sys.abs, At(sys.control, v)) && At(sys.control, v).id in sys.used;
      assert AbsInv(sys.abs, sys.used);
      if Asks(sys.control, act).Ask? {
        OthersDoNotMove(sys, act, v);
        StoreKeepsAware(sys.abs, sys.used, Asks(sys.control, act).ev, At(sys.control, v));
      }
    }
    hide BudgetInv, Recovers, Apply, Allowed, Disciplined, Aware, Control';
  }

  lemma SettlersStayApart(sys: Sys, act: Act, v: nat, w: nat, id: JobId)
    requires Step(sys, act) && Settles(Next(sys, act).control, v, id) && Settles(Next(sys, act).control, w, id)
    ensures v == w
  {
    SettlerBefore(sys.abs, sys.control, act, v);
    SettlerBefore(sys.abs, sys.control, act, w);
    if act.Finish? && (act.w == v || act.w == w) {
      FinishMakesAware(sys, act);
      NoSettlerWhileProcessing(sys, v, id);
      NoSettlerWhileProcessing(sys, w, id);
    } else {
      assert Settles(sys.control, v, id) && Settles(sys.control, w, id);
    }
    hide CustodyInv, AllWithin, AllAware, Recovers, Apply, Allowed, Disciplined, Control';
  }

  lemma NoSettlerWhileProcessing(sys: Sys, v: nat, id: JobId)
    requires BudgetInv(sys)
    ensures In(sys.abs, id, Processing) ==> !Settles(sys.control, v, id)
  {
    hide CustodyInv, AllWithin, Count;
  }

  lemma ActKeepsBudget(sys: Sys, act: Act)
    requires Step(sys, act)
    ensures BudgetInv(Next(sys, act))
  {
    var next := Next(sys, act);
    ActKeepsCustody(sys, act);
    assert AbsInv(sys.abs, sys.used);
    if Asks(sys.control, act).Ask? {
      ActsFit(sys, act);
      StoreKeepsWithin(sys.abs, sys.used, Asks(sys.control, act).ev);
    }
    assert AllWithin(next.abs);
    hide CustodyInv, AllWithin, Enabled, Next, Recovers, Aware, BudgetInv, Step;
    forall v | At(next.control, v).Settling? ensures At(next.control, v).id in next.used && Aware(next.abs, At(next.control, v)) {
      SettlerStaysAware(sys, act, v);
    }
    forall v, w, id | Settles(next.control, v, id) && Settles(next.control, w, id) ensures v == w {
      SettlersStayApart(sys, act, v, w, id);
    }
    BudgetFromParts(next);
  }

  lemma BudgetFromParts(sys: Sys)
    requires CustodyInv(sys) && AllWithin(sys.abs) && AllAware(sys.abs, sys.used, sys.control) && OneSettler(sys.control)
    ensures BudgetInv(sys)
  {
  }

  // ----- runs -----

  ghost predicate AllRecover(sys: Sys, acts: seq<Act>)
    requires Run(sys, acts)
    decreases |acts|
  {
    |acts| == 0 || (Recovers(sys, acts[0]) && AllRecover(Next(sys, acts[0]), acts[1..]))
  }

  lemma {:induction false} RunsKeepBudget(sys: Sys, acts: seq<Act>)
    requires BudgetInv(sys) && Run(sys, acts) && AllRecover(sys, acts)
    ensures BudgetInv(After(sys, acts))
    decreases |acts|
  {
    hide BudgetInv, Enabled, Next, Recovers;
    if |acts| > 0 {
      ActKeepsBudget(sys, acts[0]);
      RunsKeepBudget(Next(sys, acts[0]), acts[1..]);
    }
  }

  lemma StartIsWithinBudget()
    ensures BudgetInv(START)
  {
  }

  lemma BudgetBounds(sys: Sys, id: JobId)
    requires BudgetInv(sys) && id in sys.abs.jobs
    ensures Count(sys.abs.jobs[id].hist, Failed) <= Budget(sys.abs.jobs[id].retryMax)
    ensures OneRunner(sys.control) && OneSettler(sys.control)
  {
    hide Count;
  }

  /** Whatever the handlers do, however the workers interleave, and wherever they crash:
      when the only requeues are recoveries of jobs nobody runs, no job fails more often
      than its budget, and it never has two workers running it or two settling it. */
  lemma FailuresWithinBudget(acts: seq<Act>, id: JobId)
    requires Run(START, acts) && AllRecover(START, acts) && id in After(START, acts).abs.jobs
    ensures var sys := After(START, acts);
      && Count(sys.abs.jobs[id].hist, Failed) <= Budget(sys.abs.jobs[id].retryMax)
      && OneRunner(sys.control) && OneSettler(sys.control)
  {
    StartIsWithinBudget();
    RunsKeepBudget(START, acts);
    BudgetBounds(After(START, acts), id);
    hide Run, AllRecover;
  }
}
