/** Continuations fire at most once per parent, over every disciplined run of any
    number of workers, with exactly one child per matching entry. */
module Continuations {
  import opened Lifecycle
  import opened Protocol
  import opened AbstractJobs
  import opened Workers

  /** The parent of a call is settled for good, or already erased. */
  ghost predicate Final(a: Abs, used: set<JobId>, call: Call) {
    && (call.state == Succeeded || call.state == Dead || call.state == Cancelled)
    && call.parent in used
    && (call.parent in a.jobs ==> In(a, call.parent, call.state))
  }

  predicate Answers(child: Child, entry: Continuation) {
    child.name == entry.childName && child.queue == QueueOrDefault(entry.childQueue)
  }

  /** While it lives, a child is the job its entry asked for, enqueued at its creation. */
  ghost predicate Born(a: Abs, child: Child) {
    child.id in a.jobs ==>
      var job := a.jobs[child.id];
      && job.name == child.name && job.queue == child.queue && job.retryMax == DEFAULT_RETRY_MAX
      && |job.hist| > 0 && job.hist[0] == Enqueued
  }

  ghost predicate AllBorn(a: Abs, call: Call) {
    forall k :: 0 <= k < |call.children| ==> Born(a, call.children[k])
  }

  /** The children created so far answer, one by one, the matching entries handled so far. */
  ghost predicate Faithful(used: set<JobId>, call: Call) {
    && call.next <= |call.entries|
    && (call.done ==> call.next == |call.entries|)
    && var matching := Matching(call.entries[..call.next], call.state);
       && |call.children| == |matching|
       && (forall k :: 0 <= k < |matching| ==> Answers(call.children[k], matching[k]))
       && (forall k :: 0 <= k < |call.children| ==> call.children[k].id in used)
       && (forall k, l :: 0 <= k < l < |call.children| ==> call.children[k].id != call.children[l].id)
  }

  predicate Owns(c: Control, w: nat, i: nat) {
    i < |c.calls| && c.calls[i].worker == w && !c.calls[i].done
  }

  predicate WorkerOk(c: Control, w: nat) {
    match At(c, w)
    case Firing(i) => Owns(c, w, i) && c.calls[i] == NewCall(w, c.calls[i].parent, c.calls[i].state)
    case Looking(i) => Owns(c, w, i) && |c.calls[i].entries| > 0
    case Spawning(i) => Owns(c, w, i) && |c.calls[i].entries| > 0
    case Finishing(_, _, _, _, to) => EngineMove(Processing, to)
    case _ => true
  }

  ghost predicate OncePerParent(c: Control) {
    forall i, j :: 0 <= i < j < |c.calls| ==> c.calls[i].parent != c.calls[j].parent
  }

  ghost predicate FiresInv(sys: Sys) {
    && AbsInv(sys.abs, sys.used)
    && (forall i :: 0 <= i < |sys.control.calls| ==> Final(sys.abs, sys.used, sys.control.calls[i]))
    && (forall i :: 0 <= i < |sys.control.calls| ==> Faithful(sys.used, sys.control.calls[i]))
    && (forall i :: 0 <= i < |sys.control.calls| ==> AllBorn(sys.abs, sys.control.calls[i]))
    && (forall w :: WorkerOk(sys.control, w))
    && OncePerParent(sys.control)
  }

  // ----- the store never takes finality back -----

  lemma StoreKeepsFinal(a: Abs, used: set<JobId>, ev: Event, call: Call)
    requires AbsInv(a, used) && Disciplined(a, used, ev.op) && Allowed(a, ev.op, ev.out) && Final(a, used, call)
    ensures Final(Apply(a, ev.op, ev.out), UsedAfter(used, ev.op), call)
  {
    if call.parent in a.jobs {
      AbsIrreversibleStays(a, used, ev.op, ev.out, call.parent);
    } else {
      AbsNothingComesBack(a, used, ev.op, ev.out, call.parent);
    }
    hide Apply;
  }

  lemma StoreKeepsBorn(a: Abs, used: set<JobId>, ev: Event, call: Call)
    requires AbsInv(a, used) && Disciplined(a, used, ev.op) && Allowed(a, ev.op, ev.out)
    requires Faithful(used, call) && AllBorn(a, call)
    ensures AllBorn(Apply(a, ev.op, ev.out), call)
  {
    hide Apply, Allowed, Disciplined, AbsInv;
    forall k | 0 <= k < |call.children| ensures Born(Apply(a, ev.op, ev.out), call.children[k]) {
      var id := call.children[k].id;
      assert Born(a, call.children[k]) && id in used;
      if id in Apply(a, ev.op, ev.out).jobs {
        if id in a.jobs { AbsHistoryGrows(a, used, ev.op, ev.out, id); } else { AbsNothingComesBack(a, used, ev.op, ev.out, id); }
      }
    }
  }

  lemma StoreKeepsCalls(sys: Sys, ev: Event)
    requires FiresInv(sys) && Disciplined(sys.abs, sys.used, ev.op) && Allowed(sys.abs, ev.op, ev.out)
    ensures FiresInv(Sys(Apply(sys.abs, ev.op, ev.out), UsedAfter(sys.used, ev.op), sys.control))
  {
    AbsStepKeepsInv(sys.abs, sys.used, ev.op, ev.out);
    forall i | 0 <= i < |sys.control.calls|
      ensures Final(Apply(sys.abs, ev.op, ev.out), UsedAfter(sys.used, ev.op), sys.control.calls[i])
    {
      StoreKeepsFinal(sys.abs, sys.used, ev, sys.control.calls[i]);
    }
    forall i | 0 <= i < |sys.control.calls| ensures AllBorn(Apply(sys.abs, ev.op, ev.out), sys.control.calls[i]) {
      StoreKeepsBorn(sys.abs, sys.used, ev, sys.control.calls[i]);
    }
    hide Apply, Allowed, Disciplined, AbsInv, Final, Matching, Answers, AllBorn;
  }

  // ----- the workers keep their calls faithful -----

  /** A worker moves without touching any call. */
  lemma MoveKeepsFires(sys: Sys, w: nat, p: Proc)
    requires FiresInv(sys)
    requires p.Idle? || p.Taken? || p.Running? || p.Saving? || p.Settling?
      || (p.Finishing? && EngineMove(Processing, p.to))
      || ((p.Looking? || p.Spawning?) && Owns(sys.control, w, p.call) && |sys.control.calls[p.call].entries| > 0)
    ensures FiresInv(sys.(control := Put(sys.control, w, p)))
  {
    var c := Put(sys.control, w, p);
    forall v ensures WorkerOk(c, v) { assert WorkerOk(sys.control, v); }
    hide AbsInv, Final, Faithful, AllBorn;
  }

  /** A worker's state change entered a terminal state: a new call begins. */
  lemma FireKeepsFires(sys: Sys, w: nat, parent: JobId, state: State)
    requires FiresInv(sys) && (state == Succeeded || state == Dead || state == Cancelled) && In(sys.abs, parent, state)
    requires forall i :: 0 <= i < |sys.control.calls| ==> sys.control.calls[i].parent != parent
    ensures FiresInv(sys.(control := Fire(sys.control, w, parent, state)))
  {
    var c := Fire(sys.control, w, parent, state);
    forall v ensures WorkerOk(c, v) { assert WorkerOk(sys.control, v); }
    hide AbsInv;
  }

  /** A worker updates its own call. */
  lemma UpdateKeepsFires(sys: Sys, w: nat, p: Proc, i: nat, call: Call)
    requires FiresInv(sys) && Owns(sys.control, w, i)
    requires call.worker == w && call.parent == sys.control.calls[i].parent && call.state == sys.control.calls[i].state
    requires Faithful(sys.used, call) && AllBorn(sys.abs, call)
    requires p.Idle? || ((p.Looking? || p.Spawning?) && p.call == i && !call.done && |call.entries| > 0)
    ensures FiresInv(sys.(control := Update(sys.control, w, p, i, call)))
  {
    var c := Update(sys.control, w, p, i, call);
    forall v ensures WorkerOk(c, v) { assert WorkerOk(sys.control, v); }
    hide AbsInv, Matching, AllBorn;
  }

  lemma MatchingStep(entries: seq<Continuation>, n: nat, state: State)
    requires n < |entries|
    ensures Matching(entries[..n + 1], state)
      == Matching(entries[..n], state) + if Matches(state, entries[n].condition) then [entries[n]] else []
  {
    assert entries[..n + 1][..n] == entries[..n];
  }

  lemma ReadIsFaithful(used: set<JobId>, call: Call, entries: seq<Continuation>)
    requires Faithful(used, call) && call == NewCall(call.worker, call.parent, call.state)
    ensures Faithful(used, call.(entries := entries))
    ensures |entries| == 0 ==> Faithful(used, call.(done := true))
  {
    assert entries[..0] == [] && call.entries[..0] == [];
  }

  lemma SkipIsFaithful(used: set<JobId>, call: Call)
    requires Faithful(used, call) && !call.done && call.next < |call.entries|
    requires !Matches(call.state, call.entries[call.next].condition)
    ensures Faithful(used, call.(next := call.next + 1))
  {
    MatchingStep(call.entries, call.next, call.state);
    hide Matching;
  }

  lemma SpawnIsFaithful(used: set<JobId>, call: Call, id: JobId)
    requires Faithful(used, call) && !call.done && call.next < |call.entries| && id !in used
    requires Matches(call.state, call.entries[call.next].condition)
    ensures var e := call.entries[call.next];
      Faithful(used + {id}, call.(next := call.next + 1, children := call.children + [Child(id, e.childName, QueueOrDefault(e.childQueue))]))
  {
    MatchingStep(call.entries, call.next, call.state);
    hide Matching;
  }

  // ----- one act -----

  lemma WorkerIsOk(sys: Sys, w: nat)
    requires FiresInv(sys)
    ensures WorkerOk(sys.control, w)
  {
  }

  /** The state a worker moves a job out of is not a settled one: no call was made for it yet. */
  lemma NoCallYet(sys: Sys, id: JobId, s: State)
    requires FiresInv(sys) && In(sys.abs, id, s) && !Irreversible(s)
    ensures forall i :: 0 <= i < |sys.control.calls| ==> sys.control.calls[i].parent != id
  {
    hide Faithful, AbsInv;
  }

  ghost predicate Plain(act: Act) {
    act.Env? || act.Poll? || act.Load? || act.Return? || act.Save? || act.Look? || act.Crash?
  }

  lemma PlainKeepsFires(sys: Sys, act: Act)
    requires FiresInv(sys) && Enabled(sys, act) && Plain(act)
    ensures FiresInv(Next(sys, act))
  {
    var asked := Asks(sys.control, act);
    var sys1 := if asked.Ask? then Sys(Apply(sys.abs, asked.ev.op, asked.ev.out), UsedAfter(sys.used, asked.ev.op), sys.control) else sys;
    if asked.Ask? { StoreKeepsCalls(sys, asked.ev); }
    assert FiresInv(sys1);
    if !act.Env? {
      WorkerIsOk(sys, act.w);
      MoveKeepsFires(sys1, act.w, At(Control'(sys.abs, sys.control, act), act.w));
    }
    hide FiresInv, Apply;
  }

  lemma FinishKeepsFires(sys: Sys, act: Act)
    requires FiresInv(sys) && Enabled(sys, act) && (act.Finish? || act.Settle?)
    ensures FiresInv(Next(sys, act))
  {
    var ev, p := Asks(sys.control, act).ev, At(sys.control, act.w);
    var sys1 := Sys(Apply(sys.abs, ev.op, ev.out), UsedAfter(sys.used, ev.op), sys.control);
    StoreKeepsCalls(sys, ev);
    WorkerIsOk(sys, act.w);
    if EntersTerminal(sys.control, act) {
      NoCallYet(sys, p.id, if act.Finish? then Processing else Failed);
      FireKeepsFires(sys1, act.w, p.id, if act.Finish? then p.to else Dead);
    } else {
      MoveKeepsFires(sys1, act.w, At(Control'(sys.abs, sys.control, act), act.w));
    }
  }

  lemma CallKeepsFires(sys: Sys, act: Act)
    requires FiresInv(sys) && Enabled(sys, act) && (act.Read? || act.Skip? || act.Close?)
    ensures FiresInv(Next(sys, act))
  {
    WorkerIsOk(sys, act.w);
    var i := At(sys.control, act.w).call;
    var call := sys.control.calls[i];
    assert Faithful(sys.used, call) && AllBorn(sys.abs, call);
    if act.Read? {
      ReadIsFaithful(sys.used, call, Conts(sys.abs, call.parent));
    } else if act.Skip? {
      SkipIsFaithful(sys.used, call);
    }
    var c := Control'(sys.abs, sys.control, act);
    hide FiresInv, Faithful, Conts, Matches;
    UpdateKeepsFires(sys, act.w, At(c, act.w), i, c.calls[i]);
  }

  lemma SpawnKeepsFires(sys: Sys, act: Act)
    requires FiresInv(sys) && Enabled(sys, act) && act.Spawn?
    ensures FiresInv(Next(sys, act))
  {
    WorkerIsOk(sys, act.w);
    var i := At(sys.control, act.w).call;
    var call := sys.control.calls[i];
    var ev := Asks(sys.control, act).ev;
    StoreKeepsCalls(sys, ev);
    assert Faithful(sys.used, call) && act.child !in sys.used && act.out == Created(act.child);
    SpawnIsFaithful(sys.used, call, act.child);
    var sys1 := Sys(Apply(sys.abs, ev.op, ev.out), UsedAfter(sys.used, ev.op), sys.control);
    var c := Control'(sys.abs, sys.control, act);
    assert AllBorn(sys1.abs, call) && Born(sys1.abs, Last(c.calls[i].children));
    assert AllBorn(sys1.abs, c.calls[i]);
    hide FiresInv, Faithful, Apply, Matches, AllBorn;
    UpdateKeepsFires(sys1, act.w, At(c, act.w), i, c.calls[i]);
  }

  lemma ActKeepsFires(sys: Sys, act: Act)
    requires FiresInv(sys) && Enabled(sys, act)
    ensures FiresInv(Next(sys, act))
  {
    hide FiresInv, Enabled, Next;
    if act.Finish? || act.Settle? {
      FinishKeepsFires(sys, act);
    } else if act.Spawn? {
      SpawnKeepsFires(sys, act);
    } else if act.Read? || act.Skip? || act.Close? {
      CallKeepsFires(sys, act);
    } else {
      PlainKeepsFires(sys, act);
    }
  }

  // ----- runs -----

  lemma {:induction false} RunsKeepFires(sys: Sys, acts: seq<Act>)
    requires FiresInv(sys) && Run(sys, acts)
    ensures FiresInv(After(sys, acts))
    decreases |acts|
  {
    hide FiresInv, Enabled, Next;
    if |acts| > 0 {
      ActKeepsFires(sys, acts[0]);
      RunsKeepFires(Next(sys, acts[0]), acts[1..]);
    }
  }

  lemma StartFires()
    ensures FiresInv(START)
  {
  }

  /** How many worker acts of a run entered a terminal state of one job. */
  ghost function Endings(sys: Sys, acts: seq<Act>, id: JobId): nat
    requires Run(sys, acts)
    decreases |acts|
  {
    if |acts| == 0 then 0 else
    (if EntersTerminal(sys.control, acts[0]) && At(sys.control, acts[0].w).id == id then 1 else 0)
    + Endings(Next(sys, acts[0]), acts[1..], id)
  }

  ghost predicate Called(c: Control, id: JobId) {
    exists i :: 0 <= i < |c.calls| && c.calls[i].parent == id
  }

  lemma CalledStays(sys: Sys, act: Act, id: JobId)
    requires FiresInv(sys) && Enabled(sys, act)
    ensures Called(sys.control, id) ==> Called(Next(sys, act).control, id)
    ensures EntersTerminal(sys.control, act) && At(sys.control, act.w).id == id ==>
      !Called(sys.control, id) && Called(Next(sys, act).control, id)
  {
    if EntersTerminal(sys.control, act) {
      NoCallYet(sys, At(sys.control, act.w).id, if act.Finish? then Processing else Failed);
      var c := Next(sys, act).control;
      assert c.calls[|c.calls| - 1].parent == At(sys.control, act.w).id;
    }
    if Called(sys.control, id) {
      var i :| 0 <= i < |sys.control.calls| && sys.control.calls[i].parent == id;
      CallsKeepParents(sys.abs, sys.control, act, i);
      hide Apply, FiresInv;
      assert Next(sys, act).control.calls[i].parent == id;
    }
  }

  lemma CallsKeepParents(a: Abs, c: Control, act: Act, i: nat)
    requires Guard(c, act) && i < |c.calls|
    ensures i < |Control'(a, c, act).calls| && Control'(a, c, act).calls[i].parent == c.calls[i].parent
  {
  }

  /** At most one worker, over a whole run, moves a job into a terminal state. */
  lemma {:induction false} OneEndingPerJob(sys: Sys, acts: seq<Act>, id: JobId)
    requires FiresInv(sys) && Run(sys, acts)
    ensures Endings(sys, acts, id) <= if Called(sys.control, id) then 0 else 1
    decreases |acts|
  {
    if |acts| > 0 {
      CalledStays(sys, acts[0], id);
      ActKeepsFires(sys, acts[0]);
      hide FiresInv, Enabled, Next, EntersTerminal, Called;
      OneEndingPerJob(Next(sys, acts[0]), acts[1..], id);
    }
  }

  /** The entries of a call have been read: it holds some, or it is done. */
  predicate WasRead(call: Call) {
    call.done || |call.entries| > 0
  }

  /** The act by which a call reads its parent's stored continuations. */
  ghost predicate Reads(sys: Sys, act: Act, i: nat, entries: seq<Continuation>) {
    && act.Read? && At(sys.control, act.w) == Firing(i) && i < |sys.control.calls|
    && entries == Conts(sys.abs, sys.control.calls[i].parent)
  }

  /** Some act of the run read exactly these entries from the store as it then was. */
  ghost predicate ReadInRun(acts: seq<Act>, i: nat, entries: seq<Continuation>) {
    exists k :: 0 <= k < |acts| && Run(START, acts[..k]) && Reads(After(START, acts[..k]), acts[k], i, entries)
  }

  /** One act: entries read before stay, and entries come from the store alone. */
  lemma EntriesComeFromReads(sys: Sys, act: Act, i: nat)
    requires FiresInv(sys) && Enabled(sys, act) && i < |Next(sys, act).control.calls| && WasRead(Next(sys, act).control.calls[i])
    ensures var entries := Next(sys, act).control.calls[i].entries;
      || (i < |sys.control.calls| && WasRead(sys.control.calls[i]) && sys.control.calls[i].entries == entries)
      || Reads(sys, act, i, entries)
  {
    if !act.Env? { WorkerIsOk(sys, act.w); }
    hide FiresInv, Allowed, Disciplined, Apply;
  }

  lemma ReadEarlier(acts: seq<Act>, i: nat, entries: seq<Continuation>)
    requires |acts| > 0 && ReadInRun(acts[..|acts| - 1], i, entries)
    ensures ReadInRun(acts, i, entries)
  {
    hide Run, After, Reads;
    var front := acts[..|acts| - 1];
    var k :| 0 <= k < |front| && Run(START, front[..k]) && Reads(After(START, front[..k]), front[k], i, entries);
    assert front[..k] == acts[..k];
  }

  lemma {:induction false} EntriesWereStored(acts: seq<Act>, i: nat)
    requires Run(START, acts) && i < |After(START, acts).control.calls| && WasRead(After(START, acts).control.calls[i])
    ensures ReadInRun(acts, i, After(START, acts).control.calls[i].entries)
    decreases |acts|
  {
    if |acts| > 0 {
      hide FiresInv, Enabled, Next, Reads, WasRead;
      var n := |acts| - 1;
      var front, entries := acts[..n], After(START, acts).control.calls[i].entries;
      RunLast(START, acts);
      StartFires();
      RunsKeepFires(START, front);
      EntriesComeFromReads(After(START, front), acts[n], i);
      if !Reads(After(START, front), acts[n], i, entries) {
        EntriesWereStored(front, i);
        hide Run, After;
        ReadEarlier(acts, i, entries);
      }
    }
  }

  /** A call that returned created one child per matching entry, in order, under fresh
      distinct ids; each child is, while it lives, the job its entry asked for. */
  ghost predicate FiredFaithfully(a: Abs, used: set<JobId>, call: Call) {
    var fired := Matching(call.entries, call.state);
    && |call.children| == |fired|
    && (forall k :: 0 <= k < |fired| ==> Answers(call.children[k], fired[k]) && Born(a, call.children[k]))
    && (forall k :: 0 <= k < |fired| ==> call.children[k].id in used)
    && (forall k, l :: 0 <= k < l < |fired| ==> call.children[k].id != call.children[l].id)
  }

  /** The children are those of the picked entries, in order; and picked are, after
      Succeeded, the entries on OnSucceeded and OnAny, after Dead those on OnFailed and
      OnAny, and after Cancelled those on OnAny. */
  predicate FiredFor(call: Call, picks: seq<nat>) {
    && |picks| == |call.children|
    && (forall k, l :: 0 <= k < l < |picks| ==> picks[k] < picks[l])
    && (forall k :: 0 <= k < |picks| ==>
          && picks[k] < |call.entries|
          && call.children[k].name == call.entries[picks[k]].childName
          && call.children[k].queue == QueueOrDefault(call.entries[picks[k]].childQueue))
    && forall i: nat :: i < |call.entries| ==>
         (i in picks <==>
            || (call.state == Succeeded && (call.entries[i].condition == "OnSucceeded" || call.entries[i].condition == "OnAny"))
            || (call.state == Dead && (call.entries[i].condition == "OnFailed" || call.entries[i].condition == "OnAny"))
            || (call.state == Cancelled && call.entries[i].condition == "OnAny"))
  }

  lemma {:induction false} MatchingPicks(entries: seq<Continuation>, state: State) returns (picks: seq<nat>)
    ensures |picks| == |Matching(entries, state)|
    ensures forall k, l :: 0 <= k < l < |picks| ==> picks[k] < picks[l]
    ensures forall k :: 0 <= k < |picks| ==> picks[k] < |entries| && Matching(entries, state)[k] == entries[picks[k]]
    ensures forall i: nat :: i < |entries| ==> (i in picks <==> Matches(state, entries[i].condition))
  {
    if |entries| == 0 {
      picks := [];
    } else {
      var n := |entries| - 1;
      var front := MatchingPicks(entries[..n], state);
      picks := front + if Matches(state, entries[n].condition) then [n] else [];
      forall i: nat | i < |entries| ensures i in picks <==> Matches(state, entries[i].condition) {
        assert i < n ==> (i in front <==> Matches(state, entries[..n][i].condition));
        assert n !in front;
      }
    }
  }

  lemma FiringPicks(call: Call) returns (picks: seq<nat>)
    requires call.state == Succeeded || call.state == Dead || call.state == Cancelled
    requires var fired := Matching(call.entries, call.state);
      |call.children| == |fired| && forall k :: 0 <= k < |fired| ==> Answers(call.children[k], fired[k])
    ensures FiredFor(call, picks)
  {
    picks := MatchingPicks(call.entries, call.state);
    hide Matching;
  }

  /** In every disciplined run from the empty store: a parent has at most one call;
      while it lives it is settled, so no retry of it is scheduled; and a call that
      returned read the entries stored for its parent at one instant of the run and
      created one job for each of those that the state it ended in fires. */
  lemma ContinuationsFireOnce(acts: seq<Act>, i: nat, j: nat)
    requires Run(START, acts)
    requires i < |After(START, acts).control.calls| && j < |After(START, acts).control.calls|
    ensures var sys := After(START, acts);
      var call := sys.control.calls[i];
      && (sys.control.calls[j].parent == call.parent ==> i == j)
      && call.parent !in sys.abs.due
      && (call.parent in sys.abs.jobs ==> Stuck(sys.abs, call.parent))
      && (call.done ==>
            && ReadInRun(acts, i, call.entries) && FiredFaithfully(sys.abs, sys.used, call)
            && exists picks :: FiredFor(call, picks))
  {
    StartFires();
    RunsKeepFires(START, acts);
    var sys := After(START, acts);
    var call := sys.control.calls[i];
    assert Final(sys.abs, sys.used, call) && Faithful(sys.used, call) && AllBorn(sys.abs, call);
    if call.done {
      assert call.entries[..call.next] == call.entries;
      EntriesWereStored(acts, i);
      var picks := FiringPicks(call);
    }
    hide Run, ReadInRun, Matching, Born, FiredFor;
  }
}
