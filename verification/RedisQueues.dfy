/** No job is lost on Redis either, and its lists are first in, first out. Over every
    basic run: a waiting job is in the list of its queue, a scheduled one in the sorted
    set, a processing one in the processing hash; a list holds live jobs of its own queue
    alone; and what arrived at a queue is what was handed out or erased, then what waits. */
module RedisQueues {
  import opened Lifecycle
  import opened Protocol
  import opened Queues
  import opened DueSelection
  import opened RedisSpec
  import RedisIndex

  // ----- one place per state -----

  predicate Findable(k: Keys, id: JobId)
    requires id in k.hashes
  {
    var h := k.hashes[id];
    && h.queue != NO_QUEUE
    && (h.state == Enqueued ==> id in Waiting(k.queues, h.queue))
    && (h.state == Scheduled ==> id in k.scheduled)
    && (h.state == Processing ==> id in k.processing)
  }

  predicate OwnList(k: Keys, q: Queue) {
    forall id :: id in Waiting(k.queues, q) ==> id in k.hashes && k.hashes[id].queue == q
  }

  ghost predicate AllFindable(k: Keys) {
    && (forall id :: id in k.hashes ==> Findable(k, id))
    && (forall q :: OwnList(k, q))
    && k.scheduled.Keys <= k.hashes.Keys
  }

  ghost predicate Served(k: Keys, used: set<JobId>, ev: Event, t: Keys) {
    Step(k, ev, t) && BasicOp(used, ev.op) && k.hashes.Keys <= used
  }

  lemma PushedHolds(queues: map<Queue, seq<JobId>>, q: Queue, id: JobId)
    ensures Waiting(Pushed(queues, q, id), q) == [id] + Waiting(queues, q)
    ensures forall p :: p != q ==> Waiting(Pushed(queues, q, id), p) == Waiting(queues, p)
    ensures forall p, x :: x in Waiting(queues, p) ==> x in Waiting(Pushed(queues, q, id), p)
  {
  }

  lemma CreationFindable(k: Keys, used: set<JobId>, ev: Event, t: Keys)
    requires AllFindable(k) && Served(k, used, ev, t) && Creates(ev.op)
    ensures AllFindable(t)
  {
    if ev.op.Enqueue? { PushedHolds(k.queues, QueueOrDefault(ev.op.queue), ev.op.id); }
    hide Listed, Added, Pushed;
    forall q ensures OwnList(t, q) { assert OwnList(k, q); }
    forall id | id in t.hashes ensures Findable(t, id) { if id in k.hashes { assert Findable(k, id); } }
  }

  /** A job that is put back at the newest end of its list. */
  lemma PushFindable(k: Keys, id: JobId, t: Keys)
    requires AllFindable(k) && id in k.hashes && t.hashes.Keys == k.hashes.Keys
    requires t.hashes[id].state == Enqueued && t.hashes[id].queue == k.hashes[id].queue
    requires forall x :: x in k.hashes && x != id ==> t.hashes[x] == k.hashes[x]
    requires t.queues == Pushed(k.queues, k.hashes[id].queue, id)
    requires k.processing - {id} <= t.processing && k.scheduled.Keys - {id} <= t.scheduled.Keys <= k.scheduled.Keys
    ensures AllFindable(t)
  {
    PushedHolds(k.queues, k.hashes[id].queue, id);
    hide Pushed;
    forall q ensures OwnList(t, q) { assert OwnList(k, q); }
    forall x | x in t.hashes ensures Findable(t, x) { assert Findable(k, x); }
  }

  /** A job that changes its state elsewhere than into a queue. */
  lemma ChangeFindable(k: Keys, id: JobId, t: Keys)
    requires AllFindable(k) && id in k.hashes && t.hashes.Keys == k.hashes.Keys && t.queues == k.queues
    requires t.hashes[id].queue == k.hashes[id].queue && t.hashes[id].state != Enqueued
    requires t.hashes[id].state == Scheduled ==> id in t.scheduled
    requires t.hashes[id].state == Processing ==> id in t.processing
    requires forall x :: x in k.hashes && x != id ==> t.hashes[x] == k.hashes[x]
    requires k.processing - {id} <= t.processing && k.scheduled.Keys - {id} <= t.scheduled.Keys <= k.scheduled.Keys + {id}
    ensures AllFindable(t)
  {
    forall q ensures OwnList(t, q) { assert OwnList(k, q); }
    forall x | x in t.hashes ensures Findable(t, x) { assert Findable(k, x); }
  }

  // ----- dequeues -----

  /** In a list of live jobs the first id popped has a job behind it. */
  lemma TakesTheTail(k: Keys, requested: seq<Queue>, now: Time)
    requires AllFindable(k)
    ensures var i := FirstNonEmpty(k.queues, requested);
      if i == |requested| then TakeJob(k, requested, now) == (k, Refused(QueueEmpty))
      else
        var id := Last(Waiting(k.queues, requested[i]));
        && id in k.hashes && k.hashes[id].queue == requested[i]
        && TakeJob(k, requested, now) == (FinalizeDequeue(PopTail(k, requested[i]), id, now), Ticket(id))
  {
    var i := FirstNonEmpty(k.queues, requested);
    if i < |requested| {
      assert OwnList(k, requested[i]);
      assert Last(Waiting(k.queues, requested[i])) in Waiting(k.queues, requested[i]);
    }
    hide Findable, FinalizeDequeue;
  }

  /** Popping leaves everybody else where they were. */
  lemma PopFindable(k: Keys, q: Queue, now: Time)
    requires AllFindable(k) && |Waiting(k.queues, q)| > 0 && Last(Waiting(k.queues, q)) in k.hashes
    ensures AllFindable(FinalizeDequeue(PopTail(k, q), Last(Waiting(k.queues, q)), now))
  {
    var w := Waiting(k.queues, q);
    var id, t := Last(w), FinalizeDequeue(PopTail(k, q), Last(w), now);
    assert w == w[..|w| - 1] + [id];
    hide Listed, Added, Dropped;
    forall p ensures OwnList(t, p) { assert OwnList(k, p); }
    forall x | x in t.hashes ensures Findable(t, x) {
      assert Findable(k, x);
      assert x != id && x in w ==> x in w[..|w| - 1];
    }
  }

  lemma DequeueFindable(k: Keys, used: set<JobId>, ev: Event, t: Keys)
    requires AllFindable(k) && Served(k, used, ev, t) && ev.op.Dequeue?
    ensures AllFindable(t)
  {
    hide AllFindable, TakeJob, FinalizeDequeue, PopTail;
    TakesTheTail(k, ev.op.queues, ev.op.now);
    var i := FirstNonEmpty(k.queues, ev.op.queues);
    if i < |ev.op.queues| { PopFindable(k, ev.op.queues[i], ev.op.now); }
  }

  // ----- the other requests -----

  lemma MoveFindable(k: Keys, used: set<JobId>, ev: Event, t: Keys)
    requires AllFindable(k) && Served(k, used, ev, t)
    requires ev.op.Requeue? || ev.op.ApplyState? || ev.op.ScheduleRetry? || ev.op.DeleteJob?
    ensures AllFindable(t)
  {
    if ev.out.Done? {
      assert Findable(k, ev.op.id);
      hide AllFindable, Findable, Listed, Added, Dropped, Pushed;
      if ev.op.Requeue? { PushFindable(k, ev.op.id, t); } else { ChangeFindable(k, ev.op.id, t); }
    }
  }

  lemma {:induction false} PromoteFindable(k: Keys, ids: seq<JobId>, now: Time)
    requires AllFindable(k) && forall id :: id in ids ==> id in k.hashes
    ensures AllFindable(PromoteAll(k, ids, now)) && PromoteAll(k, ids, now).hashes.Keys == k.hashes.Keys
    ensures forall id :: id in k.hashes ==> PromoteAll(k, ids, now).hashes[id].queue == k.hashes[id].queue
  {
    if |ids| > 0 {
      var m, id := PromoteAll(k, ids[..|ids| - 1], now), Last(ids);
      PromoteFindable(k, ids[..|ids| - 1], now);
      assert Findable(m, id);
      hide AllFindable, Findable, Listed, Added, Dropped, Pushed;
      PushFindable(m, id, PromoteJob(m, id, now));
    }
  }

  lemma {:induction false} AllPresent(k: Keys, ids: seq<JobId>)
    requires forall id :: id in ids ==> id in k.hashes
    ensures Present(k, ids) == ids
  {
    if |ids| > 0 {
      AllPresent(k, ids[..|ids| - 1]);
      assert ids == ids[..|ids| - 1] + [Last(ids)];
    }
  }

  /** The promotion never meets an id without a job. */
  lemma PicksAreJobs(k: Keys, now: Time, batch: int, picked: seq<JobId>)
    requires k.scheduled.Keys <= k.hashes.Keys && EarliestDue(k.scheduled, now, Limit(batch), picked)
    ensures (forall id :: id in picked ==> id in k.hashes) && Present(k, picked) == picked
  {
    forall id | id in picked ensures id in k.hashes {
      var i :| 0 <= i < |picked| && picked[i] == id;
      assert IsDue(k.scheduled, now, picked[i]);
    }
    AllPresent(k, picked);
  }

  lemma TickFindable(k: Keys, used: set<JobId>, ev: Event, t: Keys)
    requires AllFindable(k) && Served(k, used, ev, t) && ev.op.GetDueScheduled?
    ensures AllFindable(t)
  {
    var picked :| EarliestDue(k.scheduled, ev.op.now, Limit(ev.op.batch), picked) && t == PromoteAll(k, picked, ev.op.now);
    hide Step, PromoteAll, EarliestDue, Findable, OwnList;
    PicksAreJobs(k, ev.op.now, ev.op.batch, picked);
    PromoteFindable(k, picked, ev.op.now);
  }

  // ----- erasure -----

  /** The ids of a list that are in a set, in order. */
  function Among(ids: seq<JobId>, alive: set<JobId>): seq<JobId> {
    if |ids| == 0 then [] else
    Among(ids[..|ids| - 1], alive) + if Last(ids) in alive then [Last(ids)] else []
  }

  lemma {:induction false} AmongHolds(ids: seq<JobId>, alive: set<JobId>, id: JobId)
    ensures id in Among(ids, alive) <==> id in ids && id in alive
  {
    if |ids| > 0 {
      AmongHolds(ids[..|ids| - 1], alive, id);
      assert ids == ids[..|ids| - 1] + [Last(ids)];
    }
  }

  lemma {:induction false} KeptIsAmong(queue: seq<JobId>, q: Queue, gone: set<JobId>, hashes: map<JobId, Hash>)
    requires forall id :: id in queue ==> id in hashes && hashes[id].queue == q
    ensures Kept(queue, q, gone, hashes) == Among(queue, hashes.Keys - gone)
  {
    if |queue| > 0 {
      assert Last(queue) in queue;
      KeptIsAmong(queue[..|queue| - 1], q, gone, hashes);
    }
  }

  lemma PassLists(k: Keys, s: State, cutoff: Time, q: Queue)
    requires OwnList(k, q)
    ensures Waiting(Pass(k, s, cutoff).queues, q) == Among(Waiting(k.queues, q), Pass(k, s, cutoff).hashes.Keys)
    ensures OwnList(Pass(k, s, cutoff), q)
  {
    var gone, t := SweptBy(k, s, cutoff), Pass(k, s, cutoff);
    KeptIsAmong(Waiting(k.queues, q), q, gone, k.hashes);
    assert t.hashes.Keys == k.hashes.Keys - gone;
    forall id ensures id in Waiting(t.queues, q) ==> id in t.hashes && t.hashes[id].queue == q {
      AmongHolds(Waiting(k.queues, q), t.hashes.Keys, id);
    }
  }

  lemma PassFindable(k: Keys, s: State, cutoff: Time)
    requires AllFindable(k)
    ensures AllFindable(Pass(k, s, cutoff))
  {
    var t := Pass(k, s, cutoff);
    forall q ensures OwnList(t, q) && Waiting(t.queues, q) == Among(Waiting(k.queues, q), t.hashes.Keys) {
      assert OwnList(k, q);
      PassLists(k, s, cutoff, q);
    }
    hide Kept, OwnList, Among;
    forall id | id in t.hashes ensures Findable(t, id) {
      assert Findable(k, id);
      AmongHolds(Waiting(k.queues, k.hashes[id].queue), t.hashes.Keys, id);
    }
  }

  lemma SweepFindable(k: Keys, cutoff: Time)
    requires AllFindable(k)
    ensures AllFindable(Sweep(k, cutoff))
  {
    hide AllFindable, Pass;
    PassFindable(k, Succeeded, cutoff);
    PassFindable(Pass(k, Succeeded, cutoff), Failed, cutoff);
    PassFindable(Pass(Pass(k, Succeeded, cutoff), Failed, cutoff), Deleted, cutoff);
  }

  lemma WriteFindable(k: Keys, used: set<JobId>, ev: Event, t: Keys)
    requires AllFindable(k) && Served(k, used, ev, t)
    requires ev.op.SetJobResult? || ev.op.HeartbeatJob? || ev.op.AddContinuation?
    ensures AllFindable(t)
  {
    forall q ensures OwnList(t, q) { assert OwnList(k, q); }
    forall id | id in t.hashes ensures Findable(t, id) { assert Findable(k, id); }
  }

  /** No request loses a job: in whatever state it is left, one of the engine's loops
      finds it where it looks. */
  lemma StepKeepsFindable(k: Keys, used: set<JobId>, ev: Event, t: Keys)
    requires AllFindable(k) && Served(k, used, ev, t)
    ensures AllFindable(t)
  {
    hide AllFindable, Served, Sweep;
    match ev.op
    case Enqueue(_, _, _, _) => CreationFindable(k, used, ev, t);
    case AddScheduled(_, _, _, _) => CreationFindable(k, used, ev, t);
    case Dequeue(_, _) => DequeueFindable(k, used, ev, t);
    case GetDueScheduled(_, _) => TickFindable(k, used, ev, t);
    case RemoveExpired(cutoff) => SweepFindable(k, cutoff); ExpiryIsSweep(k, used, ev, t);
    case SetJobResult(_, _, _) => WriteFindable(k, used, ev, t);
    case HeartbeatJob(_, _) => WriteFindable(k, used, ev, t);
    case AddContinuation(_, _) => WriteFindable(k, used, ev, t);
    case _ => MoveFindable(k, used, ev, t);
  }

  lemma ExpiryIsSweep(k: Keys, used: set<JobId>, ev: Event, t: Keys)
    requires Served(k, used, ev, t) && ev.op.RemoveExpired?
    ensures t == Sweep(k, ev.op.cutoff)
  {
  }

  // ----- first in, first out -----

  /** Keys with what they forget: the ids ever used, every arrival at a queue in order,
      and how many arrivals at each queue have been passed by its dequeues. */
  datatype World = World(keys: Keys, used: set<JobId>, arrived: seq<(Queue, JobId)>, passed: map<Queue, nat>)

  const START := World(EMPTY, {}, [], map[])

  function QueueOf(k: Keys, id: JobId): Queue {
    if id in k.hashes then k.hashes[id].queue else NO_QUEUE
  }

  /** Who arrives at which queue by a request. */
  function Arrivals(k: Keys, ev: Event): seq<(Queue, JobId)> {
    match ev.op
    case Enqueue(queue, id, _, _) => [(QueueOrDefault(queue), id)]
    case Requeue(id, _) => if ev.out.Done? then [(QueueOf(k, id), id)] else []
    case GetDueScheduled(_, _) =>
      if ev.out.Promoted? then seq(|ev.out.ids|, i requires 0 <= i < |ev.out.ids| => (QueueOf(k, ev.out.ids[i]), ev.out.ids[i])) else []
    case _ => []
  }

  function Passed(w: World, q: Queue): nat {
    if q in w.passed then w.passed[q] else 0
  }

  /** The first position from n on whose id is alive. */
  function FirstAlive(ids: seq<JobId>, n: nat, alive: set<JobId>): (m: nat)
    requires n <= |ids|
    ensures n <= m <= |ids|
    ensures m < |ids| ==> ids[m] in alive
    decreases |ids| - n
  {
    if n == |ids| || ids[n] in alive then n else FirstAlive(ids, n + 1, alive)
  }

  /** The arrival that is next in turn at a queue. */
  function InTurn(w: World, q: Queue): nat
    requires Passed(w, q) <= |OnQueue(w.arrived, q)|
  {
    FirstAlive(OnQueue(w.arrived, q), Passed(w, q), w.keys.hashes.Keys)
  }

  ghost predicate Counted(w: World) {
    forall q :: Passed(w, q) <= |OnQueue(w.arrived, q)|
  }

  ghost predicate Next(w: World, ev: Event, v: World)
    requires Counted(w)
  {
    && Served(w.keys, w.used, ev, v.keys)
    && v.used == UsedAfter(w.used, ev.op) && v.arrived == w.arrived + Arrivals(w.keys, ev)
    && v.passed == if ev.out.Ticket? then w.passed[QueueOf(w.keys, ev.out.id) := InTurn(w, QueueOf(w.keys, ev.out.id)) + 1] else w.passed
  }

  /** Oldest first. */
  function Reverse(ids: seq<JobId>): seq<JobId> {
    if |ids| == 0 then [] else Reverse(ids[1..]) + [ids[0]]
  }

  /** What arrived and was not passed is what was erased and, in order, what waits. */
  ghost predicate Ledger(w: World, q: Queue) {
    && Passed(w, q) <= |OnQueue(w.arrived, q)|
    && Reverse(Waiting(w.keys.queues, q)) == Among(OnQueue(w.arrived, q)[Passed(w, q)..], w.keys.hashes.Keys)
  }

  ghost predicate Inv(w: World) {
    && AllFindable(w.keys) && w.keys.hashes.Keys <= w.used
    && (forall q :: Ledger(w, q))
    && (forall q, id :: id in OnQueue(w.arrived, q) ==> id in w.used)
  }

  lemma InvIsCounted(w: World)
    requires Inv(w)
    ensures Counted(w)
  {
    hide AllFindable;
    forall q ensures Passed(w, q) <= |OnQueue(w.arrived, q)| { assert Ledger(w, q); }
  }

  // ----- lists -----

  lemma {:induction false} AmongConcat(a: seq<JobId>, b: seq<JobId>, alive: set<JobId>)
    ensures Among(a + b, alive) == Among(a, alive) + Among(b, alive)
  {
    if |b| == 0 {
      assert a + b == a;
    } else {
      AmongConcat(a, b[..|b| - 1], alive);
      assert (a + b)[..|a + b| - 1] == a + b[..|b| - 1];
    }
  }

  lemma {:induction false} AmongAll(ids: seq<JobId>, alive: set<JobId>)
    requires forall id :: id in ids ==> id in alive
    ensures Among(ids, alive) == ids
  {
    if |ids| > 0 {
      AmongAll(ids[..|ids| - 1], alive);
      assert ids == ids[..|ids| - 1] + [Last(ids)];
      assert Last(ids) in ids;
    }
  }

  lemma {:induction false} AmongSame(ids: seq<JobId>, alive: set<JobId>, alive': set<JobId>)
    requires forall id :: id in ids ==> (id in alive <==> id in alive')
    ensures Among(ids, alive) == Among(ids, alive')
  {
    if |ids| > 0 {
      AmongSame(ids[..|ids| - 1], alive, alive');
      assert Last(ids) in ids;
    }
  }

  lemma {:induction false} AmongFewer(ids: seq<JobId>, alive: set<JobId>, fewer: set<JobId>)
    requires fewer <= alive
    ensures Among(Among(ids, alive), fewer) == Among(ids, fewer)
  {
    if |ids| > 0 {
      var front := Among(ids[..|ids| - 1], alive);
      AmongFewer(ids[..|ids| - 1], alive, fewer);
      if Last(ids) in alive { assert (front + [Last(ids)])[..|front|] == front; } else { assert front + [] == front; }
    }
  }

  lemma {:induction false} ReverseOfAmong(ids: seq<JobId>, alive: set<JobId>)
    ensures Reverse(Among(ids, alive)) == Among(Reverse(ids), alive)
  {
    if |ids| > 0 {
      ReverseOfAmong(ids[1..], alive);
      assert ids == [ids[0]] + ids[1..];
      AmongConcat([ids[0]], ids[1..], alive);
      AmongConcat(Reverse(ids[1..]), [ids[0]], alive);
      AmongOne(ids[0], alive);
      if ids[0] in alive {
        assert ([ids[0]] + Among(ids[1..], alive))[1..] == Among(ids[1..], alive);
      } else {
        assert [] + Among(ids[1..], alive) == Among(ids[1..], alive);
      }
    }
  }

  lemma AmongOne(id: JobId, alive: set<JobId>)
    ensures Among([id], alive) == if id in alive then [id] else []
  {
    assert Among([], alive) == [];
  }

  /** The last of a list is the first of its reverse. */
  lemma {:induction false} ReverseOfFront(ids: seq<JobId>)
    requires |ids| > 0
    ensures Reverse(ids) == [Last(ids)] + Reverse(ids[..|ids| - 1])
  {
    if |ids| > 1 {
      ReverseOfFront(ids[1..]);
      assert ids[1..][..|ids| - 2] == ids[..|ids| - 1][1..];
    } else {
      assert Reverse(ids[1..]) == [] && ids[..0] == [];
    }
  }

  /** What is alive from n on begins with the arrival in turn. */
  lemma {:induction false} AliveFrom(ids: seq<JobId>, n: nat, alive: set<JobId>)
    requires n <= |ids|
    ensures var m := FirstAlive(ids, n, alive);
      Among(ids[n..], alive) == if m == |ids| then [] else [ids[m]] + Among(ids[m + 1..], alive)
    decreases |ids| - n
  {
    if n < |ids| {
      assert ids[n..] == [ids[n]] + ids[n + 1..];
      AmongConcat([ids[n]], ids[n + 1..], alive);
      AmongOne(ids[n], alive);
      if ids[n] !in alive {
        AliveFrom(ids, n + 1, alive);
        assert [] + Among(ids[n + 1..], alive) == Among(ids[n + 1..], alive);
      }
    }
  }

  /** Arrivals of live jobs are the last in turn. */
  lemma ArrivalsWait(ids: seq<JobId>, more: seq<JobId>, n: nat, alive: set<JobId>, alive': set<JobId>)
    requires n <= |ids| && (forall id :: id in more ==> id in alive')
    requires forall id :: id in ids ==> (id in alive <==> id in alive')
    ensures Among((ids + more)[n..], alive') == Among(ids[n..], alive) + more
  {
    assert (ids + more)[n..] == ids[n..] + more;
    AmongConcat(ids[n..], more, alive');
    AmongAll(more, alive');
    AmongSame(ids[n..], alive, alive');
  }

  // ----- one request -----

  ghost predicate Stepping(w: World, ev: Event, v: World) {
    Inv(w) && Counted(w) && Next(w, ev, v)
  }

  /** Who arrives is live afterwards, and stands at the newest end of its list. */
  ghost predicate Joins(k: Keys, t: Keys, log: seq<(Queue, JobId)>, q: Queue) {
    && Reverse(Waiting(t.queues, q)) == Reverse(Waiting(k.queues, q)) + OnQueue(log, q)
    && forall id :: id in OnQueue(log, q) ==> id in t.hashes
  }

  lemma LedgerGrows(w: World, ev: Event, v: World, q: Queue)
    requires Stepping(w, ev, v) && !ev.out.Ticket?
    requires Joins(w.keys, v.keys, Arrivals(w.keys, ev), q)
    requires forall id :: id in w.used ==> (id in w.keys.hashes <==> id in v.keys.hashes)
    ensures Ledger(v, q)
  {
    assert Ledger(w, q);
    assert forall id :: id in OnQueue(w.arrived, q) ==> id in w.used;
    hide AllFindable, Served, Reverse, Among, Arrivals;
    OnQueueConcat(w.arrived, Arrivals(w.keys, ev), q);
    ArrivalsWait(OnQueue(w.arrived, q), OnQueue(Arrivals(w.keys, ev), q), Passed(w, q), w.keys.hashes.Keys, v.keys.hashes.Keys);
  }

  lemma PushJoins(k: Keys, t: Keys, from: Queue, id: JobId, q: Queue)
    requires t.queues == Pushed(k.queues, from, id) && id in t.hashes
    ensures Joins(k, t, [(from, id)], q)
  {
    OnQueueOne(from, id, q);
    PushedHolds(k.queues, from, id);
    hide Pushed;
    if from == q { assert ([id] + Waiting(k.queues, q))[1..] == Waiting(k.queues, q); }
  }

  lemma NobodyJoins(k: Keys, t: Keys, q: Queue)
    requires t.queues == k.queues
    ensures Joins(k, t, [], q)
  {
    OnQueueNone(q);
  }

  lemma EnqueueLedger(w: World, ev: Event, v: World, q: Queue)
    requires Stepping(w, ev, v) && Creates(ev.op)
    ensures Ledger(v, q)
  {
    if ev.op.Enqueue? {
      PushJoins(w.keys, v.keys, QueueOrDefault(ev.op.queue), ev.op.id, q);
    } else {
      NobodyJoins(w.keys, v.keys, q);
    }
    hide AllFindable, Joins, Pushed, Listed, Added;
    LedgerGrows(w, ev, v, q);
  }

  lemma MoveLedger(w: World, ev: Event, v: World, q: Queue)
    requires Stepping(w, ev, v)
    requires ev.op.Requeue? || ev.op.ApplyState? || ev.op.ScheduleRetry? || ev.op.DeleteJob?
    ensures Ledger(v, q)
  {
    if ev.op.Requeue? && ev.out.Done? {
      assert Findable(w.keys, ev.op.id);
      PushJoins(w.keys, v.keys, QueueOf(w.keys, ev.op.id), ev.op.id, q);
    } else {
      NobodyJoins(w.keys, v.keys, q);
    }
    hide AllFindable, Joins, Pushed, Listed, Added, Dropped, Findable;
    LedgerGrows(w, ev, v, q);
  }

  lemma WriteLedger(w: World, ev: Event, v: World, q: Queue)
    requires Stepping(w, ev, v) && (ev.op.SetJobResult? || ev.op.HeartbeatJob? || ev.op.AddContinuation?)
    ensures Ledger(v, q)
  {
    NobodyJoins(w.keys, v.keys, q);
    hide AllFindable, Joins;
    LedgerGrows(w, ev, v, q);
  }

  lemma JoinMore(k: Keys, m: Keys, t: Keys, log: seq<(Queue, JobId)>, from: Queue, id: JobId, q: Queue)
    requires Joins(k, m, log, q) && Joins(m, t, [(from, id)], q) && m.hashes.Keys <= t.hashes.Keys
    ensures Joins(k, t, log + [(from, id)], q)
  {
    hide Reverse, Waiting, OnQueue;
    OnQueueConcat(log, [(from, id)], q);
  }

  lemma PromoteOneJoins(k: Keys, id: JobId, now: Time, q: Queue)
    requires id in k.hashes && k.hashes[id].queue != NO_QUEUE
    ensures Joins(k, PromoteJob(k, id, now), [(k.hashes[id].queue, id)], q)
    ensures PromoteJob(k, id, now).hashes.Keys == k.hashes.Keys
  {
    hide Joins, Pushed, Listed, Added, Dropped;
    PushJoins(k, PromoteJob(k, id, now), k.hashes[id].queue, id, q);
  }

  lemma {:induction false} PromotedJoin(k: Keys, ids: seq<JobId>, now: Time, log: seq<(Queue, JobId)>, q: Queue)
    requires AllFindable(k) && (forall id :: id in ids ==> id in k.hashes)
    requires |log| == |ids| && forall i :: 0 <= i < |ids| ==> log[i] == (k.hashes[ids[i]].queue, ids[i])
    ensures Joins(k, PromoteAll(k, ids, now), log, q)
  {
    hide AllFindable, Joins, PromoteJob;
    if |ids| == 0 {
      NobodyJoins(k, k, q);
      assert log == [];
    } else {
      var front, id := ids[..|ids| - 1], Last(ids);
      var m := PromoteAll(k, front, now);
      PromotedJoin(k, front, now, log[..|log| - 1], q);
      PromoteFindable(k, front, now);
      HasQueue(m, id);
      PromoteOneJoins(m, id, now, q);
      JoinMore(k, m, PromoteJob(m, id, now), log[..|log| - 1], m.hashes[id].queue, id, q);
      assert log == log[..|log| - 1] + [(m.hashes[id].queue, id)];
    }
  }

  lemma HasQueue(k: Keys, id: JobId)
    requires AllFindable(k) && id in k.hashes
    ensures k.hashes[id].queue != NO_QUEUE
  {
    assert Findable(k, id);
  }

  lemma TickPicks(w: World, ev: Event, v: World) returns (picked: seq<JobId>)
    requires Stepping(w, ev, v) && ev.op.GetDueScheduled?
    ensures (forall id :: id in picked ==> id in w.keys.hashes) && ev.out == Outcome.Promoted(picked)
    ensures v.keys == PromoteAll(w.keys, picked, ev.op.now)
  {
    picked :| EarliestDue(w.keys.scheduled, ev.op.now, Limit(ev.op.batch), picked)
      && ev.out == Outcome.Promoted(Present(w.keys, picked)) && v.keys == PromoteAll(w.keys, picked, ev.op.now);
    PicksAreJobs(w.keys, ev.op.now, ev.op.batch, picked);
    hide EarliestDue, PromoteAll, Present;
  }

  lemma TickLedger(w: World, ev: Event, v: World, q: Queue)
    requires Stepping(w, ev, v) && ev.op.GetDueScheduled?
    ensures Ledger(v, q)
  {
    hide Stepping, AllFindable, PromoteAll, Ledger, Joins;
    var picked := TickPicks(w, ev, v);
    SteppingKeys(w, ev, v);
    PromoteFindable(w.keys, picked, ev.op.now);
    PromotedJoin(w.keys, picked, ev.op.now, Arrivals(w.keys, ev), q);
    LedgerGrows(w, ev, v, q);
  }

  lemma SteppingKeys(w: World, ev: Event, v: World)
    requires Stepping(w, ev, v)
    ensures AllFindable(w.keys)
  {
  }

  // ----- dequeues and erasure -----

  /** The tail of one list is passed. */
  lemma PopLedger(w: World, v: World, from: Queue, q: Queue)
    requires Ledger(w, q) && Ledger(w, from) && |Waiting(w.keys.queues, from)| > 0
    requires v.arrived == w.arrived && v.passed == w.passed[from := InTurn(w, from) + 1]
    requires v.keys.hashes.Keys == w.keys.hashes.Keys
    requires Waiting(v.keys.queues, from) == Waiting(w.keys.queues, from)[..|Waiting(w.keys.queues, from)| - 1]
    requires q != from ==> Waiting(v.keys.queues, q) == Waiting(w.keys.queues, q)
    ensures Ledger(v, q)
    ensures InTurn(w, from) < |OnQueue(w.arrived, from)|
    ensures OnQueue(w.arrived, from)[InTurn(w, from)] == Last(Waiting(w.keys.queues, from))
  {
    hide Waiting, Reverse, Among, FirstAlive, OnQueue;
    ReverseOfFront(Waiting(w.keys.queues, from));
    var ids, m, alive := OnQueue(w.arrived, from), InTurn(w, from), w.keys.hashes.Keys;
    AliveFrom(ids, Passed(w, from), alive);
    SameHeads(Last(Waiting(w.keys.queues, from)), Reverse(Waiting(v.keys.queues, from)), ids[m], Among(ids[m + 1..], alive));
  }

  lemma SameHeads(x: JobId, xs: seq<JobId>, y: JobId, ys: seq<JobId>)
    requires [x] + xs == [y] + ys
    ensures x == y && xs == ys
  {
    assert xs == ([x] + xs)[1..] && ys == ([y] + ys)[1..];
    assert ([x] + xs)[0] == x && ([y] + ys)[0] == y;
  }

  /** What a dequeue does to the world. */
  lemma DequeueActs(w: World, ev: Event, v: World)
    requires Stepping(w, ev, v) && ev.op.Dequeue?
    ensures v.arrived == w.arrived
    ensures if ev.out.Ticket? then
        var id := ev.out.id;
        && id in w.keys.hashes
        && var from := w.keys.hashes[id].queue;
           && |Waiting(w.keys.queues, from)| > 0 && Last(Waiting(w.keys.queues, from)) == id
           && v.keys == FinalizeDequeue(PopTail(w.keys, from), id, ev.op.now)
           && Passed(w, from) <= |OnQueue(w.arrived, from)| && v.passed == w.passed[from := InTurn(w, from) + 1]
      else v.keys == w.keys && v.passed == w.passed
  {
    hide AllFindable, TakeJob, PopTail, FinalizeDequeue, Ledger, InTurn, OnQueue;
    TakesTheTail(w.keys, ev.op.queues, ev.op.now);
    assert w.arrived + [] == w.arrived;
  }

  lemma DequeueLedger(w: World, ev: Event, v: World, q: Queue)
    requires Stepping(w, ev, v) && ev.op.Dequeue?
    ensures Ledger(v, q)
  {
    DequeueActs(w, ev, v);
    assert Ledger(w, q);
    if ev.out.Ticket? {
      var from := w.keys.hashes[ev.out.id].queue;
      assert Ledger(w, from);
      hide Stepping, Ledger, FinalizeDequeue, PopTail, InTurn, OnQueue;
      PoppedKeys(w.keys, from, ev.out.id, ev.op.now);
      PopLedger(w, v, from, q);
    }
    hide Stepping, AllFindable;
  }

  /** A dequeue hands out the arrival that is next in turn. */
  lemma ServedInTurn(w: World, ev: Event, v: World)
    requires Stepping(w, ev, v) && ev.op.Dequeue? && ev.out.Ticket?
    ensures ev.out.id in w.keys.hashes
    ensures var q := w.keys.hashes[ev.out.id].queue;
      && Passed(w, q) <= InTurn(w, q) < |OnQueue(w.arrived, q)| && OnQueue(w.arrived, q)[InTurn(w, q)] == ev.out.id
  {
    DequeueActs(w, ev, v);
    var from := w.keys.hashes[ev.out.id].queue;
    assert Ledger(w, from);
    hide Stepping, Ledger, FinalizeDequeue, PopTail, OnQueue;
    PoppedKeys(w.keys, from, ev.out.id, ev.op.now);
    PopLedger(w, v, from, from);
  }

  lemma PoppedKeys(k: Keys, q: Queue, id: JobId, now: Time)
    requires |Waiting(k.queues, q)| > 0 && id in k.hashes
    ensures var t := FinalizeDequeue(PopTail(k, q), id, now);
      && t.hashes.Keys == k.hashes.Keys
      && Waiting(t.queues, q) == Waiting(k.queues, q)[..|Waiting(k.queues, q)| - 1]
      && forall p :: p != q ==> Waiting(t.queues, p) == Waiting(k.queues, p)
  {
  }

  lemma PassLedger(k: Keys, s: State, cutoff: Time, q: Queue, ids: seq<JobId>)
    requires OwnList(k, q) && Reverse(Waiting(k.queues, q)) == Among(ids, k.hashes.Keys)
    ensures var t := Pass(k, s, cutoff);
      && OwnList(t, q) && Reverse(Waiting(t.queues, q)) == Among(ids, t.hashes.Keys)
  {
    var t := Pass(k, s, cutoff);
    PassLists(k, s, cutoff, q);
    PassErases(k, s, cutoff);
    hide Pass, OwnList, Reverse, Among, SweptBy;
    ReverseOfAmong(Waiting(k.queues, q), t.hashes.Keys);
    AmongFewer(ids, k.hashes.Keys, t.hashes.Keys);
  }

  lemma ExpiryActs(w: World, ev: Event, v: World)
    requires Stepping(w, ev, v) && ev.op.RemoveExpired?
    ensures v.keys == Sweep(w.keys, ev.op.cutoff) && v.arrived == w.arrived && v.passed == w.passed
  {
    hide AllFindable, Ledger, Sweep;
    assert w.arrived + [] == w.arrived;
  }

  lemma ExpiryLedger(w: World, ev: Event, v: World, q: Queue)
    requires Stepping(w, ev, v) && ev.op.RemoveExpired?
    ensures Ledger(v, q)
  {
    ExpiryActs(w, ev, v);
    assert Ledger(w, q) && OwnList(w.keys, q);
    hide Stepping, Pass, Reverse, Among, OwnList, OnQueue;
    var k, cutoff, ids := w.keys, ev.op.cutoff, OnQueue(w.arrived, q)[Passed(w, q)..];
    PassLedger(k, Succeeded, cutoff, q, ids);
    PassLedger(Pass(k, Succeeded, cutoff), Failed, cutoff, q, ids);
    PassLedger(Pass(Pass(k, Succeeded, cutoff), Failed, cutoff), Deleted, cutoff, q, ids);
  }

  lemma StepKeepsLedger(w: World, ev: Event, v: World, q: Queue)
    requires Stepping(w, ev, v)
    ensures Ledger(v, q)
  {
    hide Stepping, Ledger;
    match ev.op
    case Enqueue(_, _, _, _) => EnqueueLedger(w, ev, v, q);
    case AddScheduled(_, _, _, _) => EnqueueLedger(w, ev, v, q);
    case Dequeue(_, _) => DequeueLedger(w, ev, v, q);
    case GetDueScheduled(_, _) => TickLedger(w, ev, v, q);
    case RemoveExpired(_) => ExpiryLedger(w, ev, v, q);
    case SetJobResult(_, _, _) => WriteLedger(w, ev, v, q);
    case HeartbeatJob(_, _) => WriteLedger(w, ev, v, q);
    case AddContinuation(_, _) => WriteLedger(w, ev, v, q);
    case _ => MoveLedger(w, ev, v, q);
  }

  // ----- runs -----

  lemma {:induction false} OnQueueKnown(log: seq<(Queue, JobId)>, q: Queue, known: set<JobId>)
    requires forall i :: 0 <= i < |log| ==> log[i].1 in known
    ensures forall id :: id in OnQueue(log, q) ==> id in known
  {
    if |log| > 0 {
      assert Last(log).1 in known;
      OnQueueKnown(log[..|log| - 1], q, known);
    }
  }

  lemma ArrivalsAreUsed(w: World, ev: Event, v: World, i: nat)
    requires Stepping(w, ev, v) && i < |Arrivals(w.keys, ev)|
    ensures Arrivals(w.keys, ev)[i].1 in v.used
  {
    if ev.op.GetDueScheduled? {
      var picked := TickPicks(w, ev, v);
      assert picked[i] in picked;
    }
    hide PromoteAll, EarliestDue, TakeJob, Pass, ChangeState, NewJob, AllFindable;
  }

  lemma KeysAreUsed(w: World, ev: Event, v: World)
    requires Stepping(w, ev, v)
    ensures v.keys.hashes.Keys <= v.used
    ensures w.used <= v.used
  {
    hide AllFindable, Ledger;
    var k := w.keys;
    if ev.op.Dequeue? {
      DequeueActs(w, ev, v);
    } else if ev.op.GetDueScheduled? {
      var picked := TickPicks(w, ev, v);
      SteppingKeys(w, ev, v);
      PromoteFindable(k, picked, ev.op.now);
    } else if ev.op.RemoveExpired? {
      ExpiryActs(w, ev, v);
      PassErases(k, Succeeded, ev.op.cutoff);
      PassErases(Pass(k, Succeeded, ev.op.cutoff), Failed, ev.op.cutoff);
      PassErases(Pass(Pass(k, Succeeded, ev.op.cutoff), Failed, ev.op.cutoff), Deleted, ev.op.cutoff);
    }
    hide PromoteAll, EarliestDue, TakeJob, Pass;
  }

  lemma StepKeepsInv(w: World, ev: Event, v: World)
    requires Stepping(w, ev, v)
    ensures Inv(v)
  {
    StepKeepsFindable(w.keys, w.used, ev, v.keys);
    KeysAreUsed(w, ev, v);
    assert v.arrived == w.arrived + Arrivals(w.keys, ev);
    assert forall q, id :: id in OnQueue(w.arrived, q) ==> id in w.used;
    forall i | 0 <= i < |Arrivals(w.keys, ev)| ensures Arrivals(w.keys, ev)[i].1 in v.used { ArrivalsAreUsed(w, ev, v, i); }
    hide Stepping, AllFindable, Ledger, Arrivals, OnQueue;
    forall q ensures Ledger(v, q) { StepKeepsLedger(w, ev, v, q); }
    forall q, id | id in OnQueue(v.arrived, q) ensures id in v.used {
      OnQueueConcat(w.arrived, Arrivals(w.keys, ev), q);
      OnQueueKnown(Arrivals(w.keys, ev), q, v.used);
    }
  }

  /** A basic run from one world to another. */
  ghost predicate Run(w: World, evs: seq<Event>, v: World)
    decreases |evs|
  {
    if |evs| == 0 then v == w else Counted(w) && exists m :: Next(w, evs[0], m) && Run(m, evs[1..], v)
  }

  lemma {:induction false} RunsKeepInv(w: World, evs: seq<Event>, v: World)
    requires Inv(w) && Run(w, evs, v)
    ensures Inv(v)
    decreases |evs|
  {
    hide Inv, Next;
    if |evs| > 0 {
      var m :| Next(w, evs[0], m) && Run(m, evs[1..], v);
      StepKeepsInv(w, evs[0], m);
      RunsKeepInv(m, evs[1..], v);
    }
  }

  lemma StartIsInv()
    ensures Inv(START)
  {
    forall q ensures Ledger(START, q) {}
  }

  /** Over every basic run from the empty keys, no job is lost: in the state it has, it is
      where the engine's loops look for it. */
  lemma EveryJobIsFound(evs: seq<Event>, w: World, id: JobId)
    requires Run(START, evs, w) && id in w.keys.hashes
    ensures var k, h := w.keys, w.keys.hashes[id];
      && (h.state == Enqueued ==> id in Waiting(k.queues, h.queue))
      && (h.state == Scheduled ==> id in k.scheduled)
      && (h.state == Processing ==> id in k.processing)
  {
    StartIsInv();
    RunsKeepInv(START, evs, w);
    assert Findable(w.keys, id);
    hide Run;
  }

  /** A dequeue finds work exactly if one of the requested queues has a waiting job, and
      no popped id is ever without a job. */
  lemma DequeueFindsWorkIff(evs: seq<Event>, w: World, queues: seq<Queue>, now: Time)
    requires Run(START, evs, w)
    ensures var out := TakeJob(w.keys, queues, now).1;
      && (out.Ticket? <==> exists i :: 0 <= i < |queues| && |Waiting(w.keys.queues, queues[i])| > 0)
      && (out.Ticket? ==> out.id in w.keys.hashes && w.keys.hashes[out.id].queue in queues)
  {
    StartIsInv();
    RunsKeepInv(START, evs, w);
    hide Run, TakeJob, Ledger;
    TakesTheTail(w.keys, queues, now);
    var i := FirstNonEmpty(w.keys.queues, queues);
    if i < |queues| { assert |Waiting(w.keys.queues, queues[i])| > 0; }
  }

  /** First in, first out: a ticket is the first arrival at its queue that was neither
      passed before nor erased; and what still waits are, in order, the arrivals after
      those passed that were not erased. */
  lemma FirstInFirstOut(evs: seq<Event>, w: World, q: Queue, ev: Event, v: World)
    requires Run(START, evs, w) && Counted(w) && Next(w, ev, v)
    ensures Passed(w, q) <= |OnQueue(w.arrived, q)|
    ensures Reverse(Waiting(w.keys.queues, q)) == Among(OnQueue(w.arrived, q)[Passed(w, q)..], w.keys.hashes.Keys)
    ensures ev.op.Dequeue? && ev.out.Ticket? && QueueOf(w.keys, ev.out.id) == q ==>
      && InTurn(w, q) < |OnQueue(w.arrived, q)| && OnQueue(w.arrived, q)[InTurn(w, q)] == ev.out.id
      && forall i :: Passed(w, q) <= i < InTurn(w, q) ==> OnQueue(w.arrived, q)[i] !in w.keys.hashes
  {
    StartIsInv();
    RunsKeepInv(START, evs, w);
    assert Ledger(w, q);
    hide Run;
    if ev.op.Dequeue? && ev.out.Ticket? && QueueOf(w.keys, ev.out.id) == q {
      ServedInTurn(w, ev, v);
      PassedOverAreGone(OnQueue(w.arrived, q), Passed(w, q), w.keys.hashes.Keys);
    }
    hide Inv, Next;
  }

  lemma {:induction false} PassedOverAreGone(ids: seq<JobId>, n: nat, alive: set<JobId>)
    requires n <= |ids|
    ensures forall i :: n <= i < FirstAlive(ids, n, alive) ==> ids[i] !in alive
    decreases |ids| - n
  {
    if n < |ids| && ids[n] !in alive { PassedOverAreGone(ids, n + 1, alive); }
  }
}
