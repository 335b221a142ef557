/** Any number of workers over the abstract store: each is a program counter that
    moves by one store call or one read at a time, interleaved with every other
    worker and with an environment that may do anything a disciplined caller may
    (internal/engine/worker.go, engine.go, continuations.go). */
module Workers {
  import opened Lifecycle
  import opened Protocol
  import opened AbstractJobs
  import Backoff

  /** How a handler run ends; a deadline counts as a cancellation. */
  datatype Verdict = Success(result: seq<bv8>) | Failure | Interrupted

  /** Where a worker is. The token of the ticket it took says which processing episode
      of the job it took; the code carries it along and never looks at it again. */
  datatype Proc =
    | Idle
    | Taken(id: JobId, token: nat)
    | Running(id: JobId, token: nat, attempt: nat, retryMax: int)
    | Saving(id: JobId, token: nat, attempt: nat, retryMax: int, result: seq<bv8>)
    | Finishing(id: JobId, token: nat, attempt: nat, retryMax: int, to: State)
    | Settling(id: JobId, attempt: nat, retryMax: int)
    | Firing(call: nat)
    | Looking(call: nat)
    | Spawning(call: nat)

  datatype Child = Child(id: JobId, name: string, queue: Queue)

  /** One call of fireContinuations: made by a worker whose state change entered a
      terminal state of the parent. `next` counts the entries already handled. */
  datatype Call = Call(
    worker: nat, parent: JobId, state: State,
    entries: seq<Continuation>, next: nat, children: seq<Child>, done: bool)

  datatype Control = Control(workers: map<nat, Proc>, calls: seq<Call>)

  datatype Act =
    | Env(ev: Event)
    | Poll(w: nat, queues: seq<Queue>, now: Time, out: Outcome)
    | Load(w: nat)
    | Return(w: nat, verdict: Verdict)
    | Save(w: nat, now: Time, out: Outcome)
    | Finish(w: nat, now: Time, out: Outcome)
    | Settle(w: nat, now: Time, jitter: int, out: Outcome)
    | Read(w: nat)
    | Look(w: nat)
    | Skip(w: nat)
    | Spawn(w: nat, child: JobId, now: Time, out: Outcome)
    | Close(w: nat)
    | Crash(w: nat)

  function At(c: Control, w: nat): Proc {
    if w in c.workers then c.workers[w] else Idle
  }

  function Put(c: Control, w: nat, p: Proc): Control {
    c.(workers := c.workers[w := p])
  }

  predicate Matches(state: State, condition: string) {
    if condition == ON_SUCCEEDED then state == Succeeded
    else if condition == ON_FAILED then state == Failed || state == Dead
    else condition == ON_ANY
  }

  /** The entries a terminal state fires, in order. */
  function Matching(entries: seq<Continuation>, state: State): seq<Continuation> {
    if |entries| == 0 then [] else
    Matching(entries[..|entries| - 1], state) + if Matches(state, Last(entries).condition) then [Last(entries)] else []
  }

  function ChildJob(c: Continuation): Job {
    Job(c.childName, QueueOrDefault(c.childQueue), 0, [])
  }

  /** The retries a failure leaves: the last permitted attempt buries the job. */
  predicate Exhausted(attempt: nat, retryMax: int) {
    attempt + 1 >= EffectiveRetryMax(retryMax)
  }

  /** The state changes that end a job's life; each is followed by one call. */
  predicate EntersTerminal(c: Control, act: Act) {
    || (act.Finish? && act.out.Done? && At(c, act.w).Finishing? && At(c, act.w).to != Failed)
    || (act.Settle? && act.out.Done? && At(c, act.w).Settling? && Exhausted(At(c, act.w).attempt, At(c, act.w).retryMax))
  }

  /** How many processing episodes a job has had. */
  function Episodes(a: Abs, id: JobId): nat {
    if id in a.jobs then Count(a.jobs[id].hist, Processing) else 0
  }

  /** Is the worker where this act starts? */
  predicate Guard(c: Control, act: Act) {
    match act
    case Env(ev) => !ev.op.Dequeue? && !ev.op.ApplyState? && !ev.op.ScheduleRetry?
    case Poll(w, _, _, _) => At(c, w).Idle?
    case Load(w) => At(c, w).Taken?
    case Return(w, _) => At(c, w).Running?
    case Save(w, _, _) => At(c, w).Saving?
    case Finish(w, _, _) => At(c, w).Finishing?
    case Settle(w, _, jitter, _) => At(c, w).Settling? && 0 <= jitter < Backoff.SECOND
    case Read(w) => At(c, w).Firing? && At(c, w).call < |c.calls|
    case Look(w) => At(c, w).Looking? && At(c, w).call < |c.calls|
    case Skip(w) => Spawns(c, w) && !Matches(c.calls[At(c, w).call].state, Entry(c, w).condition)
    case Spawn(w, _, _, _) => Spawns(c, w) && Matches(c.calls[At(c, w).call].state, Entry(c, w).condition)
    case Close(w) => At(c, w).Spawning? && At(c, w).call < |c.calls| && c.calls[At(c, w).call].next == |c.calls[At(c, w).call].entries|
    case Crash(w) => true
  }

  predicate Spawns(c: Control, w: nat) {
    && At(c, w).Spawning? && At(c, w).call < |c.calls|
    && c.calls[At(c, w).call].next < |c.calls[At(c, w).call].entries|
  }

  function Entry(c: Control, w: nat): Continuation
    requires Spawns(c, w)
  {
    c.calls[At(c, w).call].entries[c.calls[At(c, w).call].next]
  }

  datatype Request = Silent | Ask(ev: Event)

  /** The store call an act makes, if any. */
  function Asks(c: Control, act: Act): Request
    requires Guard(c, act)
  {
    match act
    case Env(ev) => Ask(ev)
    case Poll(_, queues, now, out) => Ask(Event(Dequeue(queues, now), out))
    case Save(w, now, out) => Ask(Event(SetJobResult(At(c, w).id, At(c, w).result, now), out))
    case Finish(w, now, out) => Ask(Event(ApplyState(At(c, w).id, Processing, At(c, w).to, now), out))
    case Settle(w, now, jitter, out) =>
      var p := At(c, w);
      Ask(Event(if Exhausted(p.attempt, p.retryMax) then ApplyState(p.id, Failed, Dead, now)
                else ScheduleRetry(p.id, now + Backoff.RetryDelay(p.attempt, jitter), now), out))
    case Spawn(w, child, now, out) =>
      var job := ChildJob(Entry(c, w));
      Ask(Event(Enqueue(job.queue, child, job, now), out))
    case _ => Silent
  }

  function NewCall(w: nat, parent: JobId, state: State): Call {
    Call(w, parent, state, [], 0, [], false)
  }

  function Fire(c: Control, w: nat, parent: JobId, state: State): Control {
    Control(c.workers[w := Firing(|c.calls|)], c.calls + [NewCall(w, parent, state)])
  }

  function Update(c: Control, w: nat, p: Proc, i: nat, call: Call): Control
    requires i < |c.calls|
  {
    Control(c.workers[w := p], c.calls[i := call])
  }

  /** Where the act leaves the worker, given what it read or heard. */
  function Control'(a: Abs, c: Control, act: Act): Control
    requires Guard(c, act)
  {
    match act
    case Env(_) => c
    case Poll(w, _, _, out) => Put(c, w, if out.Ticket? then Taken(out.id, Episodes(a, out.id) + 1) else Idle)
    case Load(w) =>
      var id := At(c, w).id;
      Put(c, w, if id in a.jobs then Running(id, At(c, w).token, Count(a.jobs[id].hist, Failed), a.jobs[id].retryMax) else Idle)
    case Return(w, verdict) =>
      var p := At(c, w);
      Put(c, w, match verdict
                case Success(result) =>
                  if |result| > 0 then Saving(p.id, p.token, p.attempt, p.retryMax, result)
                  else Finishing(p.id, p.token, p.attempt, p.retryMax, Succeeded)
                case Failure => Finishing(p.id, p.token, p.attempt, p.retryMax, Failed)
                case Interrupted => Finishing(p.id, p.token, p.attempt, p.retryMax, Cancelled))
    case Save(w, _, out) =>
      var p := At(c, w);
      Put(c, w, if out.Done? then Finishing(p.id, p.token, p.attempt, p.retryMax, Succeeded) else Idle)
    case Finish(w, _, out) =>
      var p := At(c, w);
      if !out.Done? then Put(c, w, Idle)
      else if p.to == Failed then Put(c, w, Settling(p.id, p.attempt, p.retryMax))
      else Fire(c, w, p.id, p.to)
    case Settle(w, _, _, out) =>
      var p := At(c, w);
      if out.Done? && Exhausted(p.attempt, p.retryMax) then Fire(c, w, p.id, Dead) else Put(c, w, Idle)
    case Read(w) =>
      var i := At(c, w).call;
      var entries := Conts(a, c.calls[i].parent);
      if |entries| == 0 then Update(c, w, Idle, i, c.calls[i].(done := true))
      else Update(c, w, Looking(i), i, c.calls[i].(entries := entries))
    case Look(w) =>
      var i := At(c, w).call;
      Put(c, w, if c.calls[i].parent in a.jobs then Spawning(i) else Idle)
    case Skip(w) =>
      var i := At(c, w).call;
      Update(c, w, Spawning(i), i, c.calls[i].(next := c.calls[i].next + 1))
    case Spawn(w, child, _, out) =>
      var i, e := At(c, w).call, Entry(c, w);
      Update(c, w, Spawning(i), i, c.calls[i].(
        next := c.calls[i].next + 1,
        children := if out.Created? then c.calls[i].children + [Child(child, e.childName, QueueOrDefault(e.childQueue))]
                    else c.calls[i].children))
    case Close(w) =>
      var i := At(c, w).call;
      Update(c, w, Idle, i, c.calls[i].(done := true))
    case Crash(w) => Put(c, w, Idle)
  }

  lemma OnlyTheActorMoves(a: Abs, c: Control, act: Act, v: nat)
    requires Guard(c, act) && (act.Env? || v != act.w)
    ensures At(Control'(a, c, act), v) == At(c, v)
  {
  }

  // ----- the system: an abstract store, the ids ever used, the workers -----

  datatype Sys = Sys(abs: Abs, used: set<JobId>, control: Control)

  const START := Sys(EMPTY, {}, Control(map[], []))

  ghost predicate Enabled(sys: Sys, act: Act) {
    && Guard(sys.control, act)
    && match Asks(sys.control, act)
       case Silent => true
       case Ask(ev) => Allowed(sys.abs, ev.op, ev.out) && Disciplined(sys.abs, sys.used, ev.op)
  }

  ghost function Next(sys: Sys, act: Act): Sys
    requires Enabled(sys, act)
  {
    var control := Control'(sys.abs, sys.control, act);
    match Asks(sys.control, act)
    case Silent => Sys(sys.abs, sys.used, control)
    case Ask(ev) => Sys(Apply(sys.abs, ev.op, ev.out), UsedAfter(sys.used, ev.op), control)
  }

  ghost predicate Run(sys: Sys, acts: seq<Act>)
    decreases |acts|
  {
    |acts| == 0 || (Enabled(sys, acts[0]) && Run(Next(sys, acts[0]), acts[1..]))
  }

  ghost function After(sys: Sys, acts: seq<Act>): Sys
    requires Run(sys, acts)
    decreases |acts|
  {
    if |acts| == 0 then sys else After(Next(sys, acts[0]), acts[1..])
  }

  /** A run, cut before its last act. */
  lemma {:induction false} RunLast(sys: Sys, acts: seq<Act>)
    requires |acts| > 0 && Run(sys, acts)
    ensures var front := acts[..|acts| - 1];
      && Run(sys, front) && Enabled(After(sys, front), Last(acts))
      && After(sys, acts) == Next(After(sys, front), Last(acts))
    decreases |acts|
  {
    hide Enabled, Next;
    if |acts| > 1 {
      var front := acts[..|acts| - 1];
      RunLast(Next(sys, acts[0]), acts[1..]);
      assert acts[1..][..|acts| - 2] == front[1..];
    }
  }

  /** A run, one act longer. */
  lemma {:induction false} RunMore(sys: Sys, acts: seq<Act>, act: Act)
    requires Run(sys, acts) && Enabled(After(sys, acts), act)
    ensures Run(sys, acts + [act]) && After(sys, acts + [act]) == Next(After(sys, acts), act)
    decreases |acts|
  {
    hide Enabled, Next;
    if |acts| == 0 {
      assert [] + [act] == [act];
    } else {
      RunMore(Next(sys, acts[0]), acts[1..], act);
      assert (acts + [act])[1..] == acts[1..] + [act];
    }
  }
}
