/** When firing is complete. A call is fired to its end unless its worker dies while
    attending it, or finds the parent erased; then the rest is lost for good, for no
    other worker ever attends it. */
module LostFirings {
  import opened Lifecycle
  import opened Protocol
  import opened AbstractJobs
  import opened Workers
  import opened Continuations
  import SingleJob

  predicate Attends(p: Proc, i: nat) {
    (p.Firing? || p.Looking? || p.Spawning?) && p.call == i
  }

  ghost predicate Unattended(c: Control, i: nat) {
    i < |c.calls| && forall w :: !Attends(At(c, w), i)
  }

  lemma UnattendedStays(sys: Sys, act: Act, i: nat)
    requires Enabled(sys, act) && Unattended(sys.control, i)
    ensures Unattended(Next(sys, act).control, i)
    ensures Next(sys, act).control.calls[i] == sys.control.calls[i]
  {
    hide Apply, Allowed, Disciplined, UsedAfter;
    var c := Next(sys, act).control;
    if !act.Env? { assert !Attends(At(sys.control, act.w), i); }
    forall w ensures !Attends(At(c, w), i) { assert !Attends(At(sys.control, w), i); }
  }

  lemma {:induction false} UnattendedForever(sys: Sys, acts: seq<Act>, i: nat)
    requires Run(sys, acts) && Unattended(sys.control, i)
    ensures i < |After(sys, acts).control.calls| && After(sys, acts).control.calls[i] == sys.control.calls[i]
    decreases |acts|
  {
    if |acts| > 0 {
      UnattendedStays(sys, acts[0], i);
      hide Enabled, Next, Unattended;
      UnattendedForever(Next(sys, acts[0]), acts[1..], i);
    }
  }

  /** A worker that dies while firing leaves its call as it is for ever: no later
      act, orphan recovery included, creates the missing children. */
  lemma CrashLosesTheRest(sys: Sys, w: nat, i: nat, acts: seq<Act>)
    requires FiresInv(sys) && Attends(At(sys.control, w), i)
    requires Enabled(sys, Crash(w)) && Run(Next(sys, Crash(w)), acts)
    ensures i < |After(Next(sys, Crash(w)), acts).control.calls| && i < |sys.control.calls|
    ensures After(Next(sys, Crash(w)), acts).control.calls[i] == sys.control.calls[i]
  {
    var crashed := Next(sys, Crash(w));
    WorkerIsOk(sys, w);
    forall v ensures !Attends(At(crashed.control, v), i) { WorkerIsOk(sys, v); }
    UnattendedForever(crashed, acts, i);
  }

  // ----- exactly when a call is fired to its end -----

  /** The act after which nobody attends the call although it is not done: its worker
      dies, or looks for the parent and finds it erased. */
  ghost predicate Drops(sys: Sys, act: Act, i: nat) {
    || (act.Crash? && Attends(At(sys.control, act.w), i))
    || (act.Look? && At(sys.control, act.w) == Looking(i) && i < |sys.control.calls|
        && sys.control.calls[i].parent !in sys.abs.jobs)
  }

  ghost predicate DroppedInRun(sys: Sys, acts: seq<Act>, i: nat)
    requires Run(sys, acts)
    decreases |acts|
  {
    |acts| > 0 && (Drops(sys, acts[0], i) || DroppedInRun(Next(sys, acts[0]), acts[1..], i))
  }

  predicate IsDone(c: Control, i: nat) {
    i < |c.calls| && c.calls[i].done
  }

  /** A call begins attended by the worker that made it. */
  ghost predicate InHand(c: Control, i: nat) {
    i < |c.calls| && !c.calls[i].done && Attends(At(c, c.calls[i].worker), i)
  }

  /** Acts of others leave a call in hand. */
  lemma OthersLeaveInHand(a: Abs, c: Control, act: Act, i: nat)
    requires Guard(c, act) && InHand(c, i) && (act.Env? || !Attends(At(c, act.w), i))
    ensures InHand(Control'(a, c, act), i)
  {
    if !act.Env? { assert act.w != c.calls[i].worker; }
  }

  /** Its own worker goes on, ends it, or drops it. */
  lemma AttendantMoves(a: Abs, c: Control, act: Act, i: nat)
    requires Guard(c, act) && InHand(c, i) && !act.Env? && Attends(At(c, act.w), i) && c.calls[i].worker == act.w
    ensures var d := Control'(a, c, act);
      if act.Crash? || (act.Look? && c.calls[i].parent !in a.jobs)
      then At(d, act.w).Idle? && d.calls == c.calls
      else InHand(d, i) || IsDone(d, i)
  {
  }

  /** A call in hand stays in hand, is done, or is dropped. */
  lemma InHandMoves(sys: Sys, act: Act, i: nat)
    requires FiresInv(sys) && Enabled(sys, act) && InHand(sys.control, i)
    ensures var c := Next(sys, act).control;
      if Drops(sys, act, i) then Unattended(c, i) && !IsDone(c, i) else InHand(c, i) || IsDone(c, i)
  {
    hide Allowed, Disciplined, Apply, UsedAfter, Control';
    var c := Next(sys, act).control;
    if act.Env? || !Attends(At(sys.control, act.w), i) {
      OthersLeaveInHand(sys.abs, sys.control, act, i);
    } else {
      WorkerIsOk(sys, act.w);
      AttendantMoves(sys.abs, sys.control, act, i);
      if Drops(sys, act, i) {
        forall v ensures !Attends(At(c, v), i) {
          WorkerIsOk(sys, v);
          if v != act.w { OnlyTheActorMoves(sys.abs, sys.control, act, v); }
        }
      }
    }
  }

  /** A call that is done stays done, and is attended by nobody who could drop it. */
  lemma DoneStays(sys: Sys, act: Act, i: nat)
    requires FiresInv(sys) && Enabled(sys, act) && IsDone(sys.control, i)
    ensures IsDone(Next(sys, act).control, i) && !Drops(sys, act, i)
  {
    if !act.Env? { WorkerIsOk(sys, act.w); }
    hide FiresInv, Allowed, Disciplined, Apply;
  }

  /** A call that does not exist yet is not dropped, and begins in hand. */
  lemma CallBegins(sys: Sys, act: Act, i: nat)
    requires FiresInv(sys) && Enabled(sys, act) && i >= |sys.control.calls|
    ensures !Drops(sys, act, i)
    ensures i < |Next(sys, act).control.calls| ==> InHand(Next(sys, act).control, i)
  {
    if !act.Env? { WorkerIsOk(sys, act.w); }
    hide FiresInv, Allowed, Disciplined, Apply;
  }

  lemma {:induction false} DroppedIsLost(sys: Sys, acts: seq<Act>, i: nat)
    requires FiresInv(sys) && Run(sys, acts) && Unattended(sys.control, i) && !IsDone(sys.control, i)
    ensures i < |After(sys, acts).control.calls| && !IsDone(After(sys, acts).control, i)
  {
    UnattendedForever(sys, acts, i);
  }

  /** The fate of a call over any run that begins before it, or while it is in hand. */
  lemma {:induction false} Fate(sys: Sys, acts: seq<Act>, i: nat)
    requires FiresInv(sys) && Run(sys, acts)
    requires i >= |sys.control.calls| || InHand(sys.control, i) || IsDone(sys.control, i)
    requires i < |After(sys, acts).control.calls| && Unattended(After(sys, acts).control, i)
    ensures IsDone(After(sys, acts).control, i) <==> !DroppedInRun(sys, acts, i)
    decreases |acts|
  {
    hide FiresInv, Enabled, Next, Drops, IsDone;
    if |acts| == 0 {
      assert InHand(sys.control, i) ==> !Unattended(sys.control, i);
    } else {
      hide Unattended, InHand;
      var next := Next(sys, acts[0]);
      ActKeepsFires(sys, acts[0]);
      if i >= |sys.control.calls| {
        CallBegins(sys, acts[0], i);
      } else if IsDone(sys.control, i) {
        DoneStays(sys, acts[0], i);
      } else {
        InHandMoves(sys, acts[0], i);
      }
      if Drops(sys, acts[0], i) { DroppedIsLost(next, acts[1..], i); } else { Fate(next, acts[1..], i); }
    }
  }

  /** Over every disciplined run from the empty store: a call nobody attends any more
      was fired to its end, with a child for every matching entry it read, exactly when
      its worker neither died while attending it nor found the parent erased. */
  lemma FiredToTheEndIff(acts: seq<Act>, i: nat)
    requires Run(START, acts) && Unattended(After(START, acts).control, i)
    ensures var sys := After(START, acts);
      var call := sys.control.calls[i];
      && (call.done <==> !DroppedInRun(START, acts, i))
      && (!DroppedInRun(START, acts, i) ==>
            ReadInRun(acts, i, call.entries) && FiredFaithfully(sys.abs, sys.used, call))
  {
    StartFires();
    Fate(START, acts, i);
    if !DroppedInRun(START, acts, i) { ContinuationsFireOnce(acts, i, i); }
    hide Run, DroppedInRun, ReadInRun, FiredFaithfully;
  }

  /** A run in which a matching entry is lost: the parent is Dead, its entry was read,
      its worker died before the child was enqueued, and whatever runs from there on
      the call stays as it is. */
  lemma EntryIsLost() returns (acts: seq<Act>)
    ensures Run(START, acts)
    ensures var sys := After(START, acts);
      && Unattended(sys.control, 0)
      && var call := sys.control.calls[0];
         && |Matching(call.entries, call.state)| == 1 && |call.children| == 0 && !call.done
         && call.state == Dead && call.entries[0].condition == "OnFailed"
         && In(sys.abs, call.parent, Dead) && Conts(sys.abs, call.parent) == call.entries
    ensures forall more :: Run(After(START, acts), more) ==>
      && |After(After(START, acts), more).control.calls| > 0
      && After(After(START, acts), more).control.calls[0] == After(START, acts).control.calls[0]
  {
    SingleJob.ReachSpawning();
    var spawning := SingleJob.Stage([Enqueued, Processing, Failed, Dead], map[0 := Spawning(0)],
                                    [NewCall(0, SingleJob.ID, Dead).(entries := [SingleJob.ENTRY])]);
    var end := SingleJob.Stage([Enqueued, Processing, Failed, Dead], map[0 := Idle], spawning.control.calls);
    assert Enabled(spawning, Crash(0)) && Next(spawning, Crash(0)) == end;
    SingleJob.Moves(spawning, Crash(0), end);
    acts :| Run(START, acts) && After(START, acts) == end;
    OneMatches(SingleJob.ENTRY, Dead);
    forall more | Run(end, more)
      ensures |After(end, more).control.calls| > 0 && After(end, more).control.calls[0] == end.control.calls[0]
    {
      UnattendedForever(end, more, 0);
    }
  }

  lemma OneMatches(entry: Continuation, state: State)
    requires Matches(state, entry.condition)
    ensures Matching([entry], state) == [entry]
  {
    assert [entry][..0] == [];
  }

  const CHILD := JobId(1)

  /** A run in which a job exhausts its retries, and the continuation registered on its
      failure is fired: the child is there, enqueued. */
  lemma DeadParentFires() returns (acts: seq<Act>)
    ensures Run(START, acts)
    ensures var sys := After(START, acts);
      && |sys.control.calls| == 1
      && var call := sys.control.calls[0];
         && call.done && call.state == Dead && In(sys.abs, call.parent, Dead)
         && |call.entries| == 1 && call.entries[0].condition == "OnFailed"
         && call.children == [Child(CHILD, call.entries[0].childName, call.entries[0].childQueue)]
         && In(sys.abs, CHILD, Enqueued) && sys.abs.jobs[CHILD].name == call.entries[0].childName
  {
    SingleJob.ReachSpawning();
    var hist := [Enqueued, Processing, Failed, Dead];
    var spawning := SingleJob.Stage(hist, map[0 := Spawning(0)], [NewCall(0, SingleJob.ID, Dead).(entries := [SingleJob.ENTRY])]);
    var spawn := Spawn(0, CHILD, 0, Created(CHILD));
    assert Enabled(spawning, spawn);
    var spawned := Next(spawning, spawn);
    assert spawned.control.calls[0].children == [] + [Child(CHILD, "child", DEFAULT_QUEUE)];
    assert Enabled(spawned, Close(0));
    SingleJob.ReachMore(spawning, spawn);
    SingleJob.ReachMore(spawned, Close(0));
    var end := Next(spawned, Close(0));
    assert In(spawned.abs, SingleJob.ID, Dead);
    acts :| Run(START, acts) && After(START, acts) == end;
    hide SingleJob.Reachable, Run, After;
  }
}
