/** The engine's finalisation, run alone, is the worker machine run alone: the same
    store calls in the same order, with the same outcome. So the interleaved worker
    machine is what the engine's code does, cut at its store calls. */
module EngineSteps {
  import opened Lifecycle
  import opened Protocol
  import opened Engine
  import M = MemorySpec
  import W = Workers
  import B = Backends
  import A = AbstractJobs
  import MR = MemoryRefinement
  import Backoff

  /** A worker about to end the run of a job, on the in-memory store. */
  predicate Poised(c: B.Cluster, w: nat, p: W.Proc) {
    c.backend.InMemory? && M.WellFormed(c.backend.store) && W.At(c.control, w) == p
  }

  /** The worker reached this point with the store in this state. */
  ghost predicate Reaches(c: B.Cluster, acts: seq<W.Act>, w: nat, s: M.Store, ending: Ending, id: JobId) {
    && B.Run(c, acts)
    && var d := B.After(c, acts);
       && d.backend == B.InMemory(s) && d.used == c.used
       && match ending
          case Ended(state) =>
            && W.At(d.control, w) == W.Firing(|c.control.calls|)
            && |d.control.calls| == |c.control.calls| + 1
            && d.control.calls[|c.control.calls|] == W.NewCall(w, id, state)
          case _ => W.At(d.control, w).Idle? && d.control.calls == c.control.calls
  }

  function FinishAct(s: M.Store, w: nat, id: JobId, to: State, now: Time): W.Act
    requires M.WellFormed(s)
  {
    W.Finish(w, now, Answer(s, ApplyState(id, Processing, to, now)))
  }

  lemma FinishStep(c: B.Cluster, w: nat, id: JobId, token: nat, attempt: nat, retryMax: int, to: State, now: Time)
    requires Poised(c, w, W.Finishing(id, token, attempt, retryMax, to)) && EngineMove(Processing, to)
    ensures var s := c.backend.store;
      var act, moved := FinishAct(s, w, id, to, now), Moved(s, id, Processing, to, now);
      && B.Enabled(c, act)
      && B.Next(c, act).backend == B.InMemory(moved.0) && B.Next(c, act).used == c.used
      && B.Next(c, act).control ==
           if moved.1.Broken? then W.Put(c.control, w, W.Idle)
           else if to == Failed then W.Put(c.control, w, W.Settling(id, attempt, retryMax))
           else W.Fire(c.control, w, id, to)
  {
    hide M.Apply, B.View, Answer, M.WellFormed;
  }

  function SettleAct(s: M.Store, w: nat, id: JobId, attempt: nat, retryMax: int, jitter: int, now: Time): W.Act
    requires M.WellFormed(s)
  {
    W.Settle(w, now, jitter,
      Answer(s, if W.Exhausted(attempt, retryMax) then ApplyState(id, Failed, Dead, now)
                else ScheduleRetry(id, now + Backoff.RetryDelay(attempt, jitter), now)))
  }

  lemma SettleStep(c: B.Cluster, w: nat, id: JobId, attempt: nat, retryMax: int, jitter: int, now: Time)
    requires Poised(c, w, W.Settling(id, attempt, retryMax)) && 0 <= jitter < Backoff.SECOND
    ensures var s := c.backend.store;
      var act := SettleAct(s, w, id, attempt, retryMax, jitter, now);
      var op := if W.Exhausted(attempt, retryMax) then ApplyState(id, Failed, Dead, now)
                else ScheduleRetry(id, now + Backoff.RetryDelay(attempt, jitter), now);
      && B.Enabled(c, act)
      && B.Next(c, act).backend == B.InMemory(Served(s, op)) && B.Next(c, act).used == c.used
      && B.Next(c, act).control ==
           if Answer(s, op).Done? && W.Exhausted(attempt, retryMax) then W.Fire(c.control, w, id, Dead)
           else W.Put(c.control, w, W.Idle)
  {
    hide M.Apply, B.View, Answer, M.WellFormed, Backoff.RetryDelay;
  }

  lemma SaveStep(c: B.Cluster, w: nat, id: JobId, token: nat, attempt: nat, retryMax: int, result: seq<bv8>, now: Time)
    requires Poised(c, w, W.Saving(id, token, attempt, retryMax, result))
    ensures var s, op := c.backend.store, SetJobResult(id, result, now);
      var act := W.Save(w, now, Answer(s, op));
      && B.Enabled(c, act)
      && B.Next(c, act).backend == B.InMemory(Served(s, op)) && B.Next(c, act).used == c.used
      && B.Next(c, act).control ==
           W.Put(c.control, w, if Answer(s, op).Done? then W.Finishing(id, token, attempt, retryMax, Succeeded) else W.Idle)
  {
    hide M.Apply, B.View, Answer, M.WellFormed;
  }

  lemma ReturnStep(c: B.Cluster, w: nat, id: JobId, token: nat, attempt: nat, retryMax: int, verdict: W.Verdict)
    requires Poised(c, w, W.Running(id, token, attempt, retryMax))
    ensures B.Enabled(c, W.Return(w, verdict)) && B.Next(c, W.Return(w, verdict)).backend == c.backend
    ensures B.Next(c, W.Return(w, verdict)).used == c.used
    ensures B.Next(c, W.Return(w, verdict)).control == W.Put(c.control, w,
      match verdict
      case Success(result) =>
        if |result| > 0 then W.Saving(id, token, attempt, retryMax, result) else W.Finishing(id, token, attempt, retryMax, Succeeded)
      case Failure => W.Finishing(id, token, attempt, retryMax, Failed)
      case Interrupted => W.Finishing(id, token, attempt, retryMax, Cancelled))
  {
    hide B.View, M.WellFormed;
  }

  // ----- from the state change on -----

  function MoveActs(s: M.Store, w: nat, id: JobId, attempt: nat, retryMax: int, to: State, jitter: int, now: Time): seq<W.Act>
    requires M.WellFormed(s)
  {
    var moved := Moved(s, id, Processing, to, now);
    [FinishAct(s, w, id, to, now)]
    + if to == Failed && !moved.1.Broken? then [SettleAct(moved.0, w, id, attempt, retryMax, jitter, now)] else []
  }

  function MoveResult(s: M.Store, id: JobId, attempt: nat, retryMax: int, to: State, jitter: int, now: Time): (M.Store, Ending)
    requires M.WellFormed(s)
  {
    if to == Failed then Failing(s, id, attempt, retryMax, jitter, now) else Moved(s, id, Processing, to, now)
  }

  lemma SettleReaches(c: B.Cluster, w: nat, id: JobId, attempt: nat, retryMax: int, jitter: int, now: Time)
    requires Poised(c, w, W.Settling(id, attempt, retryMax)) && 0 <= jitter < Backoff.SECOND
    ensures var s := c.backend.store;
      var r := Buried(s, id, attempt, retryMax, jitter, now);
      Reaches(c, [SettleAct(s, w, id, attempt, retryMax, jitter, now)] + [], w, r.0, r.1, id)
  {
    SettleStep(c, w, id, attempt, retryMax, jitter, now);
    hide B.Enabled, B.Next, Answer, Served, M.WellFormed, SettleAct;
    B.OneAct(c, SettleAct(c.backend.store, w, id, attempt, retryMax, jitter, now), []);
  }

  lemma MoveReaches(c: B.Cluster, w: nat, id: JobId, token: nat, attempt: nat, retryMax: int, to: State, jitter: int, now: Time)
    requires Poised(c, w, W.Finishing(id, token, attempt, retryMax, to)) && EngineMove(Processing, to) && 0 <= jitter < Backoff.SECOND
    ensures var s := c.backend.store;
      var r := MoveResult(s, id, attempt, retryMax, to, jitter, now);
      Reaches(c, MoveActs(s, w, id, attempt, retryMax, to, jitter, now), w, r.0, r.1, id)
  {
    hide B.Enabled, B.Next, Answer, Served, M.WellFormed, FinishAct, SettleAct, Buried, Moved, Reaches;
    var s := c.backend.store;
    var act, moved := FinishAct(s, w, id, to, now), Moved(s, id, Processing, to, now);
    FinishStep(c, w, id, token, attempt, retryMax, to, now);
    if to == Failed && !moved.1.Broken? {
      var r := Buried(moved.0, id, attempt, retryMax, jitter, now);
      SettleReaches(B.Next(c, act), w, id, attempt, retryMax, jitter, now);
      Prepend(c, act, [SettleAct(moved.0, w, id, attempt, retryMax, jitter, now)] + [], w, r.0, r.1, id);
      assert [act] + ([SettleAct(moved.0, w, id, attempt, retryMax, jitter, now)] + []) == MoveActs(s, w, id, attempt, retryMax, to, jitter, now);
    } else {
      MovedEnding(s, id, to, now);
      FinishReaches(c, act, w, moved.0, moved.1, id);
    }
  }

  lemma MovedEnding(s: M.Store, id: JobId, to: State, now: Time)
    requires M.WellFormed(s)
    ensures Moved(s, id, Processing, to, now).1 == Broken || Moved(s, id, Processing, to, now).1 == Ended(to)
  {
  }

  /** The worker is done with the job after this one act. */
  lemma FinishReaches(c: B.Cluster, act: W.Act, w: nat, s: M.Store, ending: Ending, id: JobId)
    requires B.Enabled(c, act) && B.Next(c, act).backend == B.InMemory(s) && B.Next(c, act).used == c.used
    requires match ending
      case Ended(state) => B.Next(c, act).control == W.Fire(c.control, w, id, state)
      case _ => B.Next(c, act).control == W.Put(c.control, w, W.Idle)
    ensures Reaches(c, [act] + [], w, s, ending, id)
  {
    hide B.Enabled, B.Next;
    B.OneAct(c, act, []);
  }

  // ----- the whole finalisation -----

  function SoloActs(s: M.Store, w: nat, id: JobId, attempt: nat, retryMax: int, verdict: W.Verdict, jitter: int, now: Time): seq<W.Act>
    requires M.WellFormed(s)
  {
    [W.Return(w, verdict)] +
    match verdict
    case Success(result) =>
      if |result| == 0 then MoveActs(s, w, id, attempt, retryMax, Succeeded, jitter, now)
      else
        var op := SetJobResult(id, result, now);
        [W.Save(w, now, Answer(s, op))]
        + if Answer(s, op).Done? then MoveActs(Served(s, op), w, id, attempt, retryMax, Succeeded, jitter, now) else []
    case Failure => MoveActs(s, w, id, attempt, retryMax, Failed, jitter, now)
    case Interrupted => MoveActs(s, w, id, attempt, retryMax, Cancelled, jitter, now)
  }

  lemma Prepend(c: B.Cluster, act: W.Act, rest: seq<W.Act>, w: nat, s: M.Store, ending: Ending, id: JobId)
    requires B.Enabled(c, act) && Reaches(B.Next(c, act), rest, w, s, ending, id)
    requires B.Next(c, act).control.calls == c.control.calls && B.Next(c, act).used == c.used
    ensures Reaches(c, [act] + rest, w, s, ending, id)
  {
    hide B.Enabled, B.Next, B.Run, B.After;
    B.OneAct(c, act, rest);
  }

  /** finalizeSuccess and finalizeFailure are what a worker of the step machine does
      when nobody interferes. */
  lemma FinalizeIsTheMachine(
      c: B.Cluster, w: nat, id: JobId, token: nat, attempt: nat, retryMax: int, verdict: W.Verdict, jitter: int, now: Time)
    requires Poised(c, w, W.Running(id, token, attempt, retryMax)) && 0 <= jitter < Backoff.SECOND
    ensures var s := c.backend.store;
      var r := Finalized(s, id, attempt, retryMax, verdict, jitter, now);
      Reaches(c, SoloActs(s, w, id, attempt, retryMax, verdict, jitter, now), w, r.0, r.1, id)
  {
    var s := c.backend.store;
    var r := Finalized(s, id, attempt, retryMax, verdict, jitter, now);
    ReturnStep(c, w, id, token, attempt, retryMax, verdict);
    hide B.Enabled, B.Next, Answer, Served, M.WellFormed, Reaches, MoveActs, Moved, Failing;
    var d, acts := B.Next(c, W.Return(w, verdict)), SoloActs(s, w, id, attempt, retryMax, verdict, jitter, now);
    if verdict.Success? && |verdict.result| > 0 {
      SaveReaches(d, w, id, token, attempt, retryMax, verdict.result, jitter, now);
    } else {
      MoveReaches(d, w, id, token, attempt, retryMax, W.At(d.control, w).to, jitter, now);
    }
    Prepend(c, W.Return(w, verdict), acts[1..], w, r.0, r.1, id);
    assert acts == [W.Return(w, verdict)] + acts[1..];
  }

  lemma SaveReaches(d: B.Cluster, w: nat, id: JobId, token: nat, attempt: nat, retryMax: int, result: seq<bv8>, jitter: int, now: Time)
    requires Poised(d, w, W.Saving(id, token, attempt, retryMax, result)) && |result| > 0 && 0 <= jitter < Backoff.SECOND
    ensures var s, op := d.backend.store, SetJobResult(id, result, now);
      var r := Succeeding(s, id, result, now);
      Reaches(d, [W.Save(w, now, Answer(s, op))]
        + (if Answer(s, op).Done? then MoveActs(Served(s, op), w, id, attempt, retryMax, Succeeded, jitter, now) else []), w, r.0, r.1, id)
  {
    var s, op := d.backend.store, SetJobResult(id, result, now);
    var act := W.Save(w, now, Answer(s, op));
    SaveStep(d, w, id, token, attempt, retryMax, result, now);
    hide B.Enabled, B.Next, Answer, Served, M.WellFormed, MoveActs;
    var e := B.Next(d, act);
    if Answer(s, op).Done? {
      MoveReaches(e, w, id, token, attempt, retryMax, Succeeded, jitter, now);
      Prepend(d, act, MoveActs(Served(s, op), w, id, attempt, retryMax, Succeeded, jitter, now), w,
              Succeeding(s, id, result, now).0, Succeeding(s, id, result, now).1, id);
    } else {
      B.OneAct(d, act, []);
    }
  }

  // ----- firing -----

  /** A worker attending a call of its own, on the in-memory store. */
  predicate Attending(c: B.Cluster, w: nat, i: nat, p: W.Proc, call: W.Call) {
    && c.backend.InMemory? && M.WellFormed(c.backend.store)
    && W.At(c.control, w) == p && i < |c.control.calls| && c.control.calls[i] == call
  }

  predicate Fresh(ids: seq<JobId>, n: nat, used: set<JobId>) {
    Distinct(ids) && forall k :: n <= k < |ids| ==> ids[k] !in used
  }

  function FireAct(w: nat, entry: Continuation, state: State, id: JobId, now: Time): W.Act {
    if W.Matches(state, entry.condition) then W.Spawn(w, id, now, Created(id)) else W.Skip(w)
  }

  function FireActs(w: nat, entries: seq<Continuation>, n: nat, state: State, ids: seq<JobId>, now: Time): seq<W.Act>
    requires n <= |entries| <= |ids|
  {
    if n == 0 then [] else
    FireActs(w, entries, n - 1, state, ids, now) + [FireAct(w, entries[n - 1], state, ids[n - 1], now)]
  }

  /** One entry: skipped, or its child enqueued as the engine enqueues it. */
  lemma FireStep(c: B.Cluster, w: nat, i: nat, call: W.Call, entry: Continuation, id: JobId, now: Time)
    requires Attending(c, w, i, W.Spawning(i), call) && call.next < |call.entries|
    requires call.entries[call.next] == A.Normal(entry) && id !in c.used
    ensures var s, act := c.backend.store, FireAct(w, entry, call.state, id, now);
      && B.Enabled(c, act)
      && var d := B.Next(c, act);
         && d.backend == B.InMemory(
              if W.Matches(call.state, entry.condition)
              then M.EnqueueJob(s, W.ChildJob(entry).queue, id, W.ChildJob(entry), now) else s)
         && d.used <= c.used + {id}
         && W.At(d.control, w) == W.Spawning(i) && i < |d.control.calls|
         && d.control.calls[i].(children := call.children) == call.(next := call.next + 1)
  {
    hide B.View, M.EnqueueJob, M.WellFormed;
  }

  lemma {:induction false} FirePrefixReaches(
      c: B.Cluster, w: nat, i: nat, call: W.Call, entries: seq<Continuation>, n: nat, ids: seq<JobId>, now: Time)
    requires Attending(c, w, i, W.Spawning(i), call) && call.next == 0 && call.entries == MR.Normals(entries)
    requires n <= |entries| <= |ids| && Fresh(ids, 0, c.used)
    ensures B.Run(c, FireActs(w, entries, n, call.state, ids, now))
    ensures var d := B.After(c, FireActs(w, entries, n, call.state, ids, now));
      && d.backend == B.InMemory(FirePrefix(c.backend.store, entries, n, call.state, ids, now))
      && Fresh(ids, n, d.used) && W.At(d.control, w) == W.Spawning(i) && i < |d.control.calls|
      && d.control.calls[i].(children := call.children) == call.(next := n)
  {
    hide B.Enabled, B.Next, M.EnqueueJob, M.WellFormed, FireAct;
    if n > 0 {
      FirePrefixReaches(c, w, i, call, entries, n - 1, ids, now);
      var acts := FireActs(w, entries, n - 1, call.state, ids, now);
      var d := B.After(c, acts);
      FireStep(d, w, i, d.control.calls[i], entries[n - 1], ids[n - 1], now);
      B.RunMore(c, acts, FireAct(w, entries[n - 1], call.state, ids[n - 1], now));
    }
  }

  /** The acts of one call, from its read to its end. */
  function CallActs(s: M.Store, w: nat, parent: JobId, state: State, ids: seq<JobId>, now: Time): seq<W.Act>
    requires |M.Conts(s, parent)| <= |ids|
  {
    var entries := M.Conts(s, parent);
    if |entries| == 0 then [W.Read(w)]
    else if parent !in s.jobs then [W.Read(w), W.Look(w)]
    else [W.Read(w), W.Look(w)] + (FireActs(w, entries, |entries|, state, ids, now) + [W.Close(w)])
  }

  lemma ReadStep(c: B.Cluster, w: nat, i: nat, parent: JobId, state: State)
    requires Attending(c, w, i, W.Firing(i), W.NewCall(w, parent, state))
    ensures B.Enabled(c, W.Read(w))
    ensures var d, entries := B.Next(c, W.Read(w)), M.Conts(c.backend.store, parent);
      && d.backend == c.backend && d.used == c.used && i < |d.control.calls|
      && if |entries| == 0
         then W.At(d.control, w).Idle? && d.control.calls[i] == W.NewCall(w, parent, state).(done := true)
         else Attending(d, w, i, W.Looking(i), W.NewCall(w, parent, state).(entries := MR.Normals(entries)))
  {
    hide M.WellFormed, MR.AbsJobs;
  }

  lemma LookStep(c: B.Cluster, w: nat, i: nat, call: W.Call)
    requires Attending(c, w, i, W.Looking(i), call)
    ensures B.Enabled(c, W.Look(w))
    ensures var d := B.Next(c, W.Look(w));
      && d.backend == c.backend && d.used == c.used
      && Attending(d, w, i, if call.parent in c.backend.store.jobs then W.Spawning(i) else W.Idle, call)
  {
    hide MR.AbsConts;
  }

  lemma CloseStep(c: B.Cluster, w: nat, i: nat, call: W.Call)
    requires Attending(c, w, i, W.Spawning(i), call) && call.next == |call.entries|
    ensures B.Enabled(c, W.Close(w))
    ensures Attending(B.Next(c, W.Close(w)), w, i, W.Idle, call.(done := true)) && B.Next(c, W.Close(w)).backend == c.backend
  {
    hide B.View, M.WellFormed;
  }

  /** Firing as the engine does it, run alone, is what the worker machine does: the
      parent's stored entries are read, the parent looked up, and each matching entry's
      child enqueued in turn, to the same store. */
  lemma FiringIsTheMachine(c: B.Cluster, w: nat, i: nat, parent: JobId, state: State, ids: seq<JobId>, now: Time)
    requires Attending(c, w, i, W.Firing(i), W.NewCall(w, parent, state))
    requires |M.Conts(c.backend.store, parent)| <= |ids| && Fresh(ids, 0, c.used)
    ensures var s := c.backend.store;
      var acts := CallActs(s, w, parent, state, ids, now);
      && B.Run(c, acts)
      && B.After(c, acts).backend == B.InMemory(Fired(s, parent, state, ids, now))
      && W.At(B.After(c, acts).control, w).Idle?
  {
    hide B.Enabled, B.Next, M.WellFormed, FireActs, FirePrefix, Fresh;
    var s := c.backend.store;
    var entries := M.Conts(s, parent);
    ReadStep(c, w, i, parent, state);
    var d := B.Next(c, W.Read(w));
    if |entries| == 0 {
      FireNothing(s, entries, state, ids, now);
      B.OneAct(c, W.Read(w), []);
      assert [W.Read(w)] + [] == [W.Read(w)];
    } else {
      var call := W.NewCall(w, parent, state).(entries := MR.Normals(entries));
      LookStep(d, w, i, call);
      var e := B.Next(d, W.Look(w));
      var rest := if parent in s.jobs then FireActs(w, entries, |entries|, state, ids, now) + [W.Close(w)] else [];
      if parent in s.jobs {
        FirePrefixReaches(e, w, i, call, entries, |entries|, ids, now);
        var f := B.After(e, FireActs(w, entries, |entries|, state, ids, now));
        CloseStep(f, w, i, f.control.calls[i]);
        B.RunMore(e, FireActs(w, entries, |entries|, state, ids, now), W.Close(w));
      }
      B.OneAct(d, W.Look(w), rest);
      B.OneAct(c, W.Read(w), [W.Look(w)] + rest);
      assert [W.Read(w)] + ([W.Look(w)] + rest) == CallActs(s, w, parent, state, ids, now);
    }
  }

  lemma FireNothing(s: M.Store, entries: seq<Continuation>, state: State, ids: seq<JobId>, now: Time)
    requires M.WellFormed(s) && |entries| == 0
    ensures FirePrefix(s, entries, 0, state, ids, now) == s
  {
  }

  // ----- the whole run of a ticket -----

  /** The effective maximum of an effective maximum is itself. */
  lemma SameMaximum(s: M.Store, id: JobId, attempt: nat, retryMax: int, verdict: W.Verdict, jitter: int, now: Time)
    requires M.WellFormed(s)
    ensures Finalized(s, id, attempt, EffectiveRetryMax(retryMax), verdict, jitter, now)
      == Finalized(s, id, attempt, retryMax, verdict, jitter, now)
  {
    hide M.WellFormed, Served, Answer, Moved, Backoff.RetryDelay;
  }

  lemma LoadStep(c: B.Cluster, w: nat, id: JobId, token: nat)
    requires Poised(c, w, W.Taken(id, token))
    ensures B.Enabled(c, W.Load(w))
    ensures var d, s := B.Next(c, W.Load(w)), c.backend.store;
      && d.backend == c.backend && d.used == c.used && d.control.calls == c.control.calls
      && Poised(d, w, if id in s.jobs then W.Running(id, token, Count(Names(s.states[id]), Failed), EffectiveRetryMax(s.jobs[id].retryMax)) else W.Idle)
  {
    hide MR.AbsConts, Count;
  }

  /** The acts of a worker from the ticket to the last child. */
  function TicketActs(s: M.Store, w: nat, id: JobId, verdict: W.Verdict, jitter: int, ids: seq<JobId>, now: Time): seq<W.Act>
    requires M.WellFormed(s) && |M.Conts(s, id)| <= |ids|
  {
    if id !in s.jobs then [W.Load(w)] else
    var attempt, retryMax := Count(Names(s.states[id]), Failed), EffectiveRetryMax(s.jobs[id].retryMax);
    ContsStay(s, id, attempt, retryMax, verdict, jitter, now);
    var r := Finalized(s, id, attempt, retryMax, verdict, jitter, now);
    [W.Load(w)] + (SoloActs(s, w, id, attempt, retryMax, verdict, jitter, now)
                   + if r.1.Ended? then CallActs(r.0, w, id, r.1.state, ids, now) else [])
  }

  lemma HasHistory(s: M.Store, id: JobId)
    requires M.WellFormed(s) && id in s.jobs
    ensures id in s.states
  {
  }

  lemma ProcessedIs(s: M.Store, id: JobId, verdict: W.Verdict, jitter: int, ids: seq<JobId>, now: Time)
    requires M.WellFormed(s) && |M.Conts(s, id)| <= |ids| && id in s.jobs
    ensures var attempt, retryMax := Count(Names(s.states[id]), Failed), EffectiveRetryMax(s.jobs[id].retryMax);
      var r := Finalized(s, id, attempt, retryMax, verdict, jitter, now);
      && |M.Conts(r.0, id)| <= |ids|
      && Processed(s, id, verdict, jitter, ids, now) == if r.1.Ended? then Fired(r.0, id, r.1.state, ids, now) else r.0
  {
    hide Finalized, Fired, M.WellFormed, Count;
    HasHistory(s, id);
    var attempt, retryMax := Count(Names(s.states[id]), Failed), EffectiveRetryMax(s.jobs[id].retryMax);
    ContsStay(s, id, attempt, retryMax, verdict, jitter, now);
    SameMaximum(s, id, attempt, s.jobs[id].retryMax, verdict, jitter, now);
  }

  /** processTicket is what a worker of the step machine does, from the ticket it took on,
      when nobody interferes: the attempt is the one it loads, the verdict the handler's,
      and store calls and reads follow in the same order to the same store. */
  lemma TicketIsTheMachine(
      c: B.Cluster, w: nat, id: JobId, token: nat, verdict: W.Verdict, jitter: int, ids: seq<JobId>, now: Time)
    requires Poised(c, w, W.Taken(id, token)) && 0 <= jitter < 1_000_000_000
    requires |M.Conts(c.backend.store, id)| <= |ids| && Fresh(ids, 0, c.used)
    ensures var s := c.backend.store;
      var acts := TicketActs(s, w, id, verdict, jitter, ids, now);
      && B.Run(c, acts)
      && B.After(c, acts).backend == B.InMemory(Processed(s, id, verdict, jitter, ids, now))
      && W.At(B.After(c, acts).control, w).Idle?
  {
    hide B.Enabled, B.Next, B.Run, B.After, M.WellFormed, Finalized, Fired, SoloActs, CallActs, Fresh, Count;
    var s := c.backend.store;
    LoadStep(c, w, id, token);
    var d := B.Next(c, W.Load(w));
    if id !in s.jobs {
      NothingRuns(d);
      B.OneAct(c, W.Load(w), []);
      assert [W.Load(w)] + [] == [W.Load(w)];
    } else {
      HasHistory(s, id);
      var attempt, retryMax := Count(Names(s.states[id]), Failed), EffectiveRetryMax(s.jobs[id].retryMax);
      var r := Finalized(s, id, attempt, retryMax, verdict, jitter, now);
      var solo := SoloActs(s, w, id, attempt, retryMax, verdict, jitter, now);
      ProcessedIs(s, id, verdict, jitter, ids, now);
      FinalizeIsTheMachine(d, w, id, token, attempt, retryMax, verdict, jitter, now);
      var e := B.After(d, solo);
      var rest := if r.1.Ended? then CallActs(r.0, w, id, r.1.state, ids, now) else [];
      if r.1.Ended? {
        FiringIsTheMachine(e, w, |c.control.calls|, id, r.1.state, ids, now);
      } else {
        NothingRuns(e);
      }
      B.RunConcat(d, solo, rest);
      B.OneAct(c, W.Load(w), solo + rest);
    }
  }

  lemma NothingRuns(c: B.Cluster)
    ensures B.Run(c, []) && B.After(c, []) == c
  {
  }
}
