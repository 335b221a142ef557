/** The engine's own bookkeeping and the ordered store calls that end a job
    (internal/engine/engine.go, worker.go, continuations.go), over the in-memory store. */
module Engine {
  import opened Lifecycle
  import opened Protocol
  import opened MemorySpec
  import Backend = MemoryStorage
  import W = Workers
  import Backoff

  // ----- requests with one possible answer -----

  predicate Settles(op: Op) {
    op.SetJobResult? || op.ApplyState? || op.ScheduleRetry?
  }

  function Answer(s: Store, op: Op): (out: Outcome)
    requires WellFormed(s) && Settles(op)
    ensures Allowed(s, op, out)
  {
    match op
    case SetJobResult(id, _, _) => if id in s.jobs then Done else Refused(NotFound)
    case ApplyState(id, expected, _, _) =>
      if id !in s.states then Refused(NotFound) else if Current(s, id) != expected then Refused(StateConflict) else Done
    case ScheduleRetry(id, _, _) =>
      if id !in s.states then Refused(NotFound) else if Current(s, id) != Failed then Refused(StateConflict) else Done
  }

  function Served(s: Store, op: Op): (t: Store)
    requires WellFormed(s) && Settles(op)
    ensures WellFormed(t)
  {
    Apply(s, op, Answer(s, op))
  }

  lemma AnswerIsTheOnlyOne(s: Store, op: Op, out: Outcome)
    requires WellFormed(s) && Settles(op) && Allowed(s, op, out)
    ensures out == Answer(s, op) && Apply(s, op, out) == Served(s, op)
  {
  }

  // ----- ending a job -----

  /** What finalisation reports: a terminal state, a scheduled retry, or a store error. */
  datatype Ending = Ended(state: State) | Retrying | Broken

  function Moved(s: Store, id: JobId, from: State, to: State, now: Time): (r: (Store, Ending))
    requires WellFormed(s)
    ensures WellFormed(r.0)
  {
    var op := ApplyState(id, from, to, now);
    (Served(s, op), if Answer(s, op).Done? then Ended(to) else Broken)
  }

  /** After a failure is stored: bury the job or schedule its retry. */
  function Buried(s: Store, id: JobId, attempt: nat, retryMax: int, jitter: int, now: Time): (r: (Store, Ending))
    requires WellFormed(s)
    ensures WellFormed(r.0)
  {
    if W.Exhausted(attempt, retryMax) then Moved(s, id, Failed, Dead, now)
    else
      var op := ScheduleRetry(id, now + Backoff.RetryDelay(attempt, jitter), now);
      (Served(s, op), if Answer(s, op).Done? then Retrying else Broken)
  }

  function Failing(s: Store, id: JobId, attempt: nat, retryMax: int, jitter: int, now: Time): (r: (Store, Ending))
    requires WellFormed(s)
    ensures WellFormed(r.0)
  {
    var failed := Moved(s, id, Processing, Failed, now);
    if failed.1.Broken? then failed else Buried(failed.0, id, attempt, retryMax, jitter, now)
  }

  function Succeeding(s: Store, id: JobId, result: seq<bv8>, now: Time): (r: (Store, Ending))
    requires WellFormed(s)
    ensures WellFormed(r.0)
  {
    if |result| == 0 then Moved(s, id, Processing, Succeeded, now)
    else
      var op := SetJobResult(id, result, now);
      if !Answer(s, op).Done? then (Served(s, op), Broken) else Moved(Served(s, op), id, Processing, Succeeded, now)
  }

  function Finalized(s: Store, id: JobId, attempt: nat, retryMax: int, verdict: W.Verdict, jitter: int, now: Time): (r: (Store, Ending))
    requires WellFormed(s)
    ensures WellFormed(r.0)
  {
    match verdict
    case Success(result) => Succeeding(s, id, result, now)
    case Failure => Failing(s, id, attempt, retryMax, jitter, now)
    case Interrupted => Moved(s, id, Processing, Cancelled, now)
  }

  // ----- firing continuations -----

  function FirePrefix(s: Store, entries: seq<Continuation>, n: nat, state: State, ids: seq<JobId>, now: Time): (t: Store)
    requires WellFormed(s) && n <= |entries| <= |ids|
    ensures WellFormed(t)
  {
    if n == 0 then s else
    var before := FirePrefix(s, entries, n - 1, state, ids, now);
    if W.Matches(state, entries[n - 1].condition) then
      var child := W.ChildJob(entries[n - 1]);
      EnqueueJob(before, child.queue, ids[n - 1], child, now)
    else before
  }

  function Fired(s: Store, parent: JobId, state: State, ids: seq<JobId>, now: Time): (t: Store)
    requires WellFormed(s) && |Conts(s, parent)| <= |ids|
    ensures WellFormed(t)
  {
    if parent !in s.jobs then s else FirePrefix(s, Conts(s, parent), |Conts(s, parent)|, state, ids, now)
  }

  /** One run of a job by one worker, from the ticket to the last child. */
  function Processed(s: Store, id: JobId, verdict: W.Verdict, jitter: int, ids: seq<JobId>, now: Time): (t: Store)
    requires WellFormed(s) && |Conts(s, id)| <= |ids|
    ensures WellFormed(t)
  {
    if id !in s.jobs then s else
    var r := Finalized(s, id, Count(Names(s.states[id]), Failed), s.jobs[id].retryMax, verdict, jitter, now);
    ContsStay(s, id, Count(Names(s.states[id]), Failed), s.jobs[id].retryMax, verdict, jitter, now);
    if r.1.Ended? then Fired(r.0, id, r.1.state, ids, now) else r.0
  }

  lemma ServedKeepsConts(s: Store, op: Op)
    requires WellFormed(s) && Settles(op)
    ensures Served(s, op).continuations == s.continuations
  {
  }

  lemma ContsStay(s: Store, id: JobId, attempt: nat, retryMax: int, verdict: W.Verdict, jitter: int, now: Time)
    requires WellFormed(s)
    ensures Finalized(s, id, attempt, retryMax, verdict, jitter, now).0.continuations == s.continuations
  {
    hide Served, Answer, WellFormed;
    forall u, op | WellFormed(u) && Settles(op) ensures Served(u, op).continuations == u.continuations {
      ServedKeepsConts(u, op);
    }
  }

  /** The drawn ids that became children, in the order of their entries. */
  function Children(entries: seq<Continuation>, n: nat, state: State, ids: seq<JobId>): seq<JobId>
    requires n <= |entries| <= |ids|
  {
    if n == 0 then [] else
    Children(entries, n - 1, state, ids) + if W.Matches(state, entries[n - 1].condition) then [ids[n - 1]] else []
  }

  lemma {:induction false} ChildrenAreDrawn(entries: seq<Continuation>, n: nat, state: State, ids: seq<JobId>)
    requires n <= |entries| <= |ids|
    ensures forall id :: id in Children(entries, n, state, ids) ==> id in ids[..n]
  {
    if n > 0 {
      ChildrenAreDrawn(entries, n - 1, state, ids);
      assert ids[..n] == ids[..n - 1] + [ids[n - 1]];
    }
  }

  lemma EnqueueAt(s: Store, queue: Queue, id: JobId, job: Job, now: Time, x: JobId)
    requires WellFormed(s)
    ensures var t := EnqueueJob(s, queue, id, job, now);
      && (x in t.jobs <==> x in s.jobs || x == id)
      && (x == id ==> t.jobs[x] == Filled(job) && t.states[x] == [Entry(Enqueued, now)])
      && (x != id && x in s.jobs ==> t.jobs[x] == s.jobs[x] && t.states[x] == s.states[x])
  {
    hide Filled, Push;
  }

  lemma {:induction false} ChildrenMatch(entries: seq<Continuation>, n: nat, state: State, ids: seq<JobId>)
    requires n <= |entries| <= |ids|
    ensures |Children(entries, n, state, ids)| == |W.Matching(entries[..n], state)|
  {
    if n > 0 {
      assert entries[..n][..n - 1] == entries[..n - 1];
      ChildrenMatch(entries, n - 1, state, ids);
    }
  }

  /** Jobs that existed stay as they are, and the jobs added are the drawn children. */
  lemma {:induction false} FiringAddsOnlyChildren(
      s: Store, entries: seq<Continuation>, n: nat, state: State, ids: seq<JobId>, now: Time, x: JobId)
    requires WellFormed(s) && n <= |entries| <= |ids| && forall k :: 0 <= k < |ids| ==> ids[k] !in s.jobs
    ensures var t := FirePrefix(s, entries, n, state, ids, now);
      && (x in t.jobs <==> x in s.jobs || x in Children(entries, n, state, ids))
      && (x in s.jobs ==> t.jobs[x] == s.jobs[x] && t.states[x] == s.states[x])
  {
    hide EnqueueJob, WellFormed;
    if n > 0 {
      var before, child := FirePrefix(s, entries, n - 1, state, ids, now), W.ChildJob(entries[n - 1]);
      FiringAddsOnlyChildren(s, entries, n - 1, state, ids, now, x);
      EnqueueAt(before, child.queue, ids[n - 1], child, now, x);
    }
  }

  /** Each matching entry has its child: under its own drawn id, with the entry's name
      and queue and the default retries, freshly enqueued. Others have none. */
  lemma {:induction false} FiringCreatesEachChild(
      s: Store, entries: seq<Continuation>, n: nat, state: State, ids: seq<JobId>, now: Time, i: nat)
    requires WellFormed(s) && i < n <= |entries| <= |ids| && Distinct(ids)
    requires forall k :: 0 <= k < |ids| ==> ids[k] !in s.jobs
    ensures var t := FirePrefix(s, entries, n, state, ids, now);
      && (ids[i] in t.jobs <==> W.Matches(state, entries[i].condition))
      && (ids[i] in t.jobs ==>
            t.jobs[ids[i]] == Filled(W.ChildJob(entries[i])) && t.states[ids[i]] == [Entry(Enqueued, now)])
  {
    hide EnqueueJob, WellFormed, Filled;
    var before, child := FirePrefix(s, entries, n - 1, state, ids, now), W.ChildJob(entries[n - 1]);
    EnqueueAt(before, child.queue, ids[n - 1], child, now, ids[i]);
    if i < n - 1 {
      FiringCreatesEachChild(s, entries, n - 1, state, ids, now, i);
    } else {
      FiringAddsOnlyChildren(s, entries, n - 1, state, ids, now, ids[i]);
      ChildrenAreDrawn(entries, n - 1, state, ids);
      assert ids[i] !in ids[..n - 1];
    }
  }

  // ----- queue limits -----

  /** The queues a worker may still take from, in the configured order. */
  function UnderLimit(queues: seq<Queue>, limits: map<Queue, int>, active: map<Queue, int>): seq<Queue> {
    if |queues| == 0 then [] else
    UnderLimit(queues[..|queues| - 1], limits, active)
    + if Free(Last(queues), limits, active) then [Last(queues)] else []
  }

  function Number(m: map<Queue, int>, q: Queue): int {
    if q in m then m[q] else 0
  }

  /** No limit, or not reached. */
  predicate Free(q: Queue, limits: map<Queue, int>, active: map<Queue, int>) {
    Number(limits, q) <= 0 || Number(active, q) < Number(limits, q)
  }

  /** A worker that takes from a listed queue stays within its limit, and one that took
      from another would exceed it; zero, a negative number and no entry are no limit. */
  lemma {:induction false} LimitIsKeptIff(queues: seq<Queue>, limits: map<Queue, int>, active: map<Queue, int>, q: Queue)
    requires q in queues
    ensures q in UnderLimit(queues, limits, active) <==>
      (q in limits && limits[q] > 0 ==> (if q in active then active[q] else 0) + 1 <= limits[q])
  {
    var front, last := queues[..|queues| - 1], Last(queues);
    assert queues == front + [last];
    if q in front { LimitIsKeptIff(front, limits, active, q); } else { NotListed(front, limits, active, q); }
  }

  lemma {:induction false} NotListed(queues: seq<Queue>, limits: map<Queue, int>, active: map<Queue, int>, q: Queue)
    requires q !in queues
    ensures q !in UnderLimit(queues, limits, active)
  {
    if |queues| > 0 {
      assert Last(queues) in queues;
      NotListed(queues[..|queues| - 1], limits, active, q);
    }
  }

  /** The configured order is kept: the listed queues stand at increasing positions. */
  lemma {:induction false} OrderIsKept(queues: seq<Queue>, limits: map<Queue, int>, active: map<Queue, int>) returns (at: seq<nat>)
    ensures |at| == |UnderLimit(queues, limits, active)|
    ensures forall i :: 0 <= i < |at| ==> at[i] < |queues| && queues[at[i]] == UnderLimit(queues, limits, active)[i]
    ensures forall i, j :: 0 <= i < j < |at| ==> at[i] < at[j]
  {
    at := [];
    if |queues| > 0 {
      hide Free;
      at := OrderIsKept(queues[..|queues| - 1], limits, active);
      if Free(Last(queues), limits, active) { at := at + [|queues| - 1]; }
    }
  }

  class Engine {
    const store: Backend.Storage
    const queues: seq<Queue>
    const limits: map<Queue, int>
    var active: map<Queue, int>

    ghost predicate Valid()
      reads this, store
    {
      store.Valid() && forall q :: Number(active, q) >= 0
    }

    constructor (store: Backend.Storage, queues: seq<Queue>, limits: map<Queue, int>)
      requires store.Valid()
      ensures Valid() && this.store == store && active == map[]
    {
      this.store, this.queues, this.limits, this.active := store, queues, limits, map[];
    }

    method IncActive(q: Queue)
      modifies this`active
      ensures forall p :: Number(active, p) == Number(old(active), p) + if p == q then 1 else 0
    {
      active := active[q := (if q in active then active[q] else 0) + 1];
    }

    method DecActive(q: Queue)
      modifies this`active
      ensures forall p :: Number(active, p) == Number(old(active), p) - if p == q && Number(old(active), p) > 0 then 1 else 0
    {
      if q in active && active[q] > 0 {
        active := active[q := active[q] - 1];
      }
    }

    method QueuesUnderLimit() returns (out: seq<Queue>)
      ensures out == UnderLimit(queues, limits, active)
      ensures forall q :: q in out <==> q in queues && Free(q, limits, active)
    {
      out := [];
      for i := 0 to |queues|
        invariant out == UnderLimit(queues[..i], limits, active)
        invariant forall q :: q in out <==> q in queues[..i] && Free(q, limits, active)
      {
        assert queues[..i + 1][..i] == queues[..i];
        var q := queues[i];
        var limit := if q in limits then limits[q] else 0;
        if limit <= 0 || (if q in active then active[q] else 0) < limit {
          out := out + [q];
        }
      }
      assert queues[..|queues|] == queues;
    }

    method ApplyState(id: JobId, from: State, to: State, now: Time) returns (ending: Ending)
      requires store.Valid()
      modifies store
      ensures store.Valid() && (store.View(), ending) == Moved(old(store.View()), id, from, to, now)
    {
      ghost var before := store.View();
      var out := store.ApplyState(id, from, to, now);
      AnswerIsTheOnlyOne(before, Op.ApplyState(id, from, to, now), out);
      ending := if out.Done? then Ended(to) else Broken;
      hide Allowed, Apply, WellFormed, Answer;
    }

    method FinalizeSuccess(id: JobId, result: seq<bv8>, now: Time) returns (ending: Ending)
      requires store.Valid()
      modifies store
      ensures store.Valid() && (store.View(), ending) == Succeeding(old(store.View()), id, result, now)
    {
      hide Allowed, Apply, WellFormed, Answer, Moved;
      if |result| > 0 {
        ghost var before := store.View();
        var out := store.SetJobResult(id, result, now);
        AnswerIsTheOnlyOne(before, SetJobResult(id, result, now), out);
        if !out.Done? {
          return Broken;
        }
      }
      ending := ApplyState(id, Processing, Succeeded, now);
    }

    method FinalizeFailure(id: JobId, attempt: nat, retryMax: int, cancelled: bool, jitter: int, now: Time) returns (ending: Ending)
      requires store.Valid()
      modifies store
      ensures store.Valid()
      ensures (store.View(), ending) ==
        if cancelled then Moved(old(store.View()), id, Processing, Cancelled, now)
        else Failing(old(store.View()), id, attempt, retryMax, jitter, now)
    {
      hide Allowed, Apply, WellFormed, Answer, Moved;
      if cancelled {
        ending := ApplyState(id, Processing, Cancelled, now);
        return;
      }
      ending := ApplyState(id, Processing, Failed, now);
      if ending.Broken? {
        return;
      }
      var max := if retryMax == 0 then DEFAULT_RETRY_MAX else retryMax;
      if attempt + 1 >= max {
        ending := ApplyState(id, Failed, Dead, now);
        return;
      }
      ghost var before := store.View();
      var at := now + Backoff.RetryDelay(attempt, jitter);
      var out := store.ScheduleRetry(id, at, now);
      AnswerIsTheOnlyOne(before, ScheduleRetry(id, at, now), out);
      ending := if out.Done? then Retrying else Broken;
    }

    method FireContinuations(parent: JobId, state: State, ids: seq<JobId>, now: Time)
      requires store.Valid() && |Conts(store.View(), parent)| <= |ids|
      modifies store
      ensures store.Valid() && store.View() == Fired(old(store.View()), parent, state, ids, now)
    {
      ghost var before := store.View();
      var entries := if parent in store.continuations then store.continuations[parent] else [];
      if |entries| == 0 || parent !in store.jobs {
        return;
      }
      for i := 0 to |entries|
        invariant store.Valid() && store.View() == FirePrefix(before, entries, i, state, ids, now)
      {
        var entry := entries[i];
        if !W.Matches(state, entry.condition) {
          continue;
        }
        hide EnqueueJob, WellFormed;
        Spawn(entry, ids[i], now);
      }
    }

    method Spawn(entry: Continuation, id: JobId, now: Time)
      requires store.Valid()
      modifies store
      ensures store.Valid()
      ensures var child := W.ChildJob(entry);
        store.View() == EnqueueJob(old(store.View()), child.queue, id, child, now)
    {
      hide EnqueueJob, WellFormed;
      var queue := entry.childQueue;
      if queue == NO_QUEUE {
        queue := DEFAULT_QUEUE;
      }
      var child := Job(entry.childName, queue, 0, []);
      var out := store.Enqueue(queue, id, child, now);
    }

    /** processTicket with the handler's verdict given; the fresh ids are the store's. */
    method ProcessTicket(id: JobId, verdict: W.Verdict, jitter: int, ids: seq<JobId>, now: Time)
      requires Valid() && |Conts(store.View(), id)| <= |ids|
      modifies this`active, store
      ensures Valid()
      ensures store.View() == Processed(old(store.View()), id, verdict, jitter, ids, now)
      ensures forall q :: Number(active, q) == Number(old(active), q)
    {
      if id !in store.jobs {
        return;
      }
      var job := store.jobs[id];
      IncActive(job.queue);
      var attempt := AttemptCount(store.states[id]);
      ContsStay(store.View(), id, attempt, job.retryMax, verdict, jitter, now);
      var ending: Ending;
      match verdict {
        case Success(result) => ending := FinalizeSuccess(id, result, now);
        case _ => ending := FinalizeFailure(id, attempt, job.retryMax, verdict.Interrupted?, jitter, now);
      }
      hide Succeeding, Failing, Moved, WellFormed;
      if ending.Ended? {
        FireContinuations(id, ending.state, ids, now);
      }
      DecActive(job.queue);
    }
  }
}
