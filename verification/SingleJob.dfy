/** The short runs in which one worker handles one job with one continuation: witnesses
    that the states some theorems speak of are reached. */
module SingleJob {
  import opened Lifecycle
  import opened Protocol
  import opened AbstractJobs
  import opened Workers

  ghost predicate Reachable(sys: Sys) {
    exists acts :: Run(START, acts) && After(START, acts) == sys
  }

  lemma StartIsReachable()
    ensures Reachable(START)
  {
    assert Run(START, []) && After(START, []) == START;
  }

  lemma ReachMore(sys: Sys, act: Act)
    requires Reachable(sys) && Enabled(sys, act)
    ensures Reachable(Next(sys, act))
  {
    hide Enabled, Next;
    var acts :| Run(START, acts) && After(START, acts) == sys;
    RunMore(START, acts, act);
  }

  lemma {:induction false} ReachAfter(sys: Sys, acts: seq<Act>)
    requires Reachable(sys) && Run(sys, acts)
    ensures Reachable(After(sys, acts))
    decreases |acts|
  {
    hide Enabled, Next, Reachable;
    if |acts| > 0 {
      ReachMore(sys, acts[0]);
      ReachAfter(Next(sys, acts[0]), acts[1..]);
    }
  }

  const ID := JobId(0)
  const ENTRY := Continuation("child", DEFAULT_QUEUE, ON_FAILED)
  const JOB := Job("parent", DEFAULT_QUEUE, 1, [])

  /** The job with this history, the entry stored for it, worker 0 here. */
  function Stage(hist: seq<State>, workers: map<nat, Proc>, calls: seq<Call>): Sys {
    Sys(Abs(map[ID := AJob("parent", DEFAULT_QUEUE, 1, hist)], map[], map[ID := [ENTRY]]),
        {ID}, Control(workers, calls))
  }

  lemma Moves(sys: Sys, act: Act, next: Sys)
    requires Reachable(sys) && Enabled(sys, act) && Next(sys, act) == next
    ensures Reachable(next)
  {
    ReachMore(sys, act);
    hide Enabled, Next;
  }

  lemma StageGrows(hist: seq<State>, s: State, next: seq<State>, workers: map<nat, Proc>, calls: seq<Call>)
    requires next == hist + [s]
    ensures Append(Stage(hist, workers, calls).abs, ID, s) == Stage(next, workers, calls).abs
  {
    assert Append(Stage(hist, workers, calls).abs, ID, s).jobs == Stage(next, workers, calls).abs.jobs;
  }

  lemma ReachEnqueued()
    ensures Reachable(Stage([Enqueued], map[], []))
  {
    var create := Env(Event(Op.Enqueue(DEFAULT_QUEUE, ID, JOB, 0), Created(ID)));
    var register := Env(Event(AddContinuation(ID, ENTRY), Done));
    StartIsReachable();
    ReachMore(START, create);
    var created := Next(START, create);
    assert Enabled(created, register);
    assert Conts(created.abs, ID) + [Normal(ENTRY)] == [ENTRY];
    assert Next(created, register) == Stage([Enqueued], map[], []);
    hide Reachable;
    Moves(created, register, Stage([Enqueued], map[], []));
  }

  /** One episode, and one failure once it has failed. */
  lemma CountsSoFar()
    ensures Count([Enqueued], Processing) == 0 && Count([Enqueued], Failed) == 0
    ensures Count([Enqueued, Processing], Processing) == 1 && Count([Enqueued, Processing], Failed) == 0
    ensures Count([Enqueued, Processing, Failed], Failed) == 1
  {
    assert [] + [Enqueued] == [Enqueued];
    assert [Enqueued] + [Processing] == [Enqueued, Processing];
    assert [Enqueued, Processing] + [Failed] == [Enqueued, Processing, Failed];
    CountAppend([], Enqueued, Processing);
    CountAppend([], Enqueued, Failed);
    CountAppend([Enqueued], Processing, Processing);
    CountAppend([Enqueued], Processing, Failed);
    CountAppend([Enqueued, Processing], Failed, Failed);
    hide Count;
  }

  lemma ReachRunning()
    ensures Reachable(Stage([Enqueued, Processing], map[0 := Running(ID, 1, 0, 1)], []))
  {
    hide Reachable;
    ReachEnqueued();
    var enqueued, taken := Stage([Enqueued], map[], []), Stage([Enqueued, Processing], map[0 := Taken(ID, 1)], []);
    CountsSoFar();
    hide Count;
    var poll := Poll(0, [DEFAULT_QUEUE], 0, Ticket(ID));
    assert In(enqueued.abs, ID, Enqueued);
    StageGrows([Enqueued], Processing, [Enqueued, Processing], map[], []);
    assert Enabled(enqueued, poll) && Next(enqueued, poll) == taken;
    Moves(enqueued, poll, taken);
    var running := Stage([Enqueued, Processing], map[0 := Running(ID, 1, 0, 1)], []);
    assert Enabled(taken, Load(0)) && Next(taken, Load(0)) == running;
    Moves(taken, Load(0), running);
  }

  lemma ReachFinishing(verdict: Verdict, to: State)
    requires (verdict == Success([]) && to == Succeeded) || (verdict == Failure && to == Failed)
    ensures Reachable(Stage([Enqueued, Processing], map[0 := Finishing(ID, 1, 0, 1, to)], []))
  {
    hide Reachable;
    ReachRunning();
    var running := Stage([Enqueued, Processing], map[0 := Running(ID, 1, 0, 1)], []);
    Moves(running, Return(0, verdict), Stage([Enqueued, Processing], map[0 := Finishing(ID, 1, 0, 1, to)], []));
  }

  /** The job failed and its worker is about to settle it. */
  lemma ReachSettling()
    ensures Reachable(Stage([Enqueued, Processing, Failed], map[0 := Settling(ID, 0, 1)], []))
  {
    hide Reachable;
    ReachFinishing(Failure, Failed);
    var finishing := Stage([Enqueued, Processing], map[0 := Finishing(ID, 1, 0, 1, Failed)], []);
    var settling := Stage([Enqueued, Processing, Failed], map[0 := Settling(ID, 0, 1)], []);
    StageGrows([Enqueued, Processing], Failed, [Enqueued, Processing, Failed], map[], []);
    Moves(finishing, Finish(0, 0, Done), settling);
  }

  /** The job is Dead and its worker is about to fire its continuation. */
  lemma ReachFiring()
    ensures Reachable(Stage([Enqueued, Processing, Failed, Dead], map[0 := Firing(0)], [NewCall(0, ID, Dead)]))
  {
    hide Reachable;
    ReachSettling();
    var hist := [Enqueued, Processing, Failed, Dead];
    var settling := Stage([Enqueued, Processing, Failed], map[0 := Settling(ID, 0, 1)], []);
    var firing := Stage(hist, map[0 := Firing(0)], [NewCall(0, ID, Dead)]);
    StageGrows([Enqueued, Processing, Failed], Dead, hist, map[], []);
    Moves(settling, Settle(0, 0, 0, Done), firing);
  }

  /** It has read the entry, found the parent, and spawned nothing yet. */
  lemma ReachSpawning()
    ensures Reachable(Stage([Enqueued, Processing, Failed, Dead], map[0 := Spawning(0)], [NewCall(0, ID, Dead).(entries := [ENTRY])]))
  {
    hide Reachable;
    ReachFiring();
    var hist, read := [Enqueued, Processing, Failed, Dead], [NewCall(0, ID, Dead).(entries := [ENTRY])];
    var firing := Stage(hist, map[0 := Firing(0)], [NewCall(0, ID, Dead)]);
    Moves(firing, Read(0), Stage(hist, map[0 := Looking(0)], read));
    Moves(Stage(hist, map[0 := Looking(0)], read), Look(0), Stage(hist, map[0 := Spawning(0)], read));
  }
}
