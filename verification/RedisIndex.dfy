/** The state sets of the Redis backend agree with a full scan of the jobs, in every
    run of any requests at all, for every state but Deleted; stale members that some
    requests leave behind are filtered by the listing, but not by the retention sweep. */
module RedisIndex {
  import opened Lifecycle
  import opened Protocol
  import opened Queues
  import opened DueSelection
  import opened RedisSpec

  /** Hash and state list agree, and every job is in the set of its state, except
      that a soft delete joins no set. */
  ghost predicate Indexed(k: Keys) {
    && k.hashes.Keys == k.lists.Keys
    && (forall id :: id in k.hashes ==> |k.lists[id]| > 0 && Last(k.lists[id]) == k.hashes[id].state)
    && (forall id :: id in k.hashes && k.hashes[id].state != Deleted ==> id in Members(k.index, k.hashes[id].state))
  }

  lemma NewJobIndexed(k: Keys, id: JobId, queue: Queue, job: Job, s: State, now: Time)
    requires Indexed(k)
    ensures Indexed(NewJob(k, id, queue, job, s, now))
  {
  }

  lemma ChangeIndexed(k: Keys, id: JobId, from: State, to: State, progress: Field, now: Time)
    requires Indexed(k) && id in k.hashes
    ensures Indexed(ChangeState(k, id, from, to, progress, now))
  {
  }

  lemma DeleteIndexed(k: Keys, id: JobId, now: Time)
    requires Indexed(k) && id in k.hashes
    ensures Indexed(MarkDeleted(k, id, now))
  {
  }

  predicate SameStates(k: Keys, t: Keys) {
    t.hashes.Keys == k.hashes.Keys && forall id :: id in k.hashes ==> t.hashes[id].state == k.hashes[id].state
  }

  /** The other fields of a hash, the queues, the processing hash and the schedule play
      no part. */
  lemma OthersDoNotMatter(k: Keys, t: Keys)
    requires Indexed(k) && SameStates(k, t) && t.lists == k.lists && t.index == k.index
    ensures Indexed(t)
  {
  }

  lemma FinalizeIndexed(k: Keys, id: JobId, now: Time)
    requires Indexed(k)
    ensures Indexed(FinalizeDequeue(k, id, now))
  {
    if id in k.hashes {
      ChangeIndexed(k, id, Enqueued, Processing, At(now), now);
      OthersDoNotMatter(ChangeState(k, id, Enqueued, Processing, At(now), now), FinalizeDequeue(k, id, now));
    }
    hide Indexed, ChangeState;
  }

  lemma TakeIndexed(k: Keys, requested: seq<Queue>, now: Time)
    requires Indexed(k)
    ensures Indexed(TakeJob(k, requested, now).0)
    decreases Load(k.queues, requested)
  {
    hide Indexed;
    var i := FirstNonEmpty(k.queues, requested);
    if i < |requested| {
      var id, popped := Last(Waiting(k.queues, requested[i])), PopTail(k, requested[i]);
      PoppingLowersLoad(k, requested, i);
      OthersDoNotMatter(k, popped);
      hide PopTail, FinalizeDequeue;
      FinalizeIndexed(popped, id, now);
      if id !in popped.hashes { TakeIndexed(popped, requested, now); }
      assert popped.hashes == k.hashes by { PopFrame(k, requested[i]); }
    }
  }

  lemma PopFrame(k: Keys, q: Queue)
    requires |Waiting(k.queues, q)| > 0
    ensures PopTail(k, q).hashes == k.hashes
  {
  }

  lemma RequeueIndexed(k: Keys, id: JobId, now: Time)
    requires Indexed(k) && id in k.hashes
    ensures Indexed(RequeueJob(k, id, now))
  {
    ChangeIndexed(k, id, Processing, Enqueued, Unset, now);
    OthersDoNotMatter(ChangeState(k, id, Processing, Enqueued, Unset, now), RequeueJob(k, id, now));
    hide Indexed, ChangeState;
  }

  lemma PromoteIndexed(k: Keys, id: JobId, now: Time)
    requires Indexed(k)
    ensures Indexed(PromoteJob(k, id, now))
  {
    if id in k.hashes {
      ChangeIndexed(k, id, Scheduled, Enqueued, k.hashes[id].progress, now);
      OthersDoNotMatter(ChangeState(k, id, Scheduled, Enqueued, k.hashes[id].progress, now), PromoteJob(k, id, now));
    } else {
      OthersDoNotMatter(k, PromoteJob(k, id, now));
    }
    hide Indexed, ChangeState;
  }

  lemma {:induction false} PromoteAllIndexed(k: Keys, ids: seq<JobId>, now: Time)
    requires Indexed(k)
    ensures Indexed(PromoteAll(k, ids, now))
  {
    hide Indexed, PromoteJob;
    if |ids| > 0 {
      PromoteAllIndexed(k, ids[..|ids| - 1], now);
      PromoteIndexed(PromoteAll(k, ids[..|ids| - 1], now), Last(ids), now);
    }
  }

  lemma PassIndexed(k: Keys, s: State, cutoff: Time)
    requires Indexed(k)
    ensures Indexed(Pass(k, s, cutoff))
  {
    hide Kept;
  }

  lemma MoveIndexed(k: Keys, ev: Event, t: Keys)
    requires Indexed(k) && Step(k, ev, t) && (ev.op.ApplyState? || ev.op.ScheduleRetry?)
    ensures Indexed(t)
  {
    hide Indexed, ChangeState;
    if ev.out.Done? {
      var id := ev.op.id;
      var from, to := if ev.op.ApplyState? then ev.op.expected else Failed, if ev.op.ApplyState? then ev.op.next else Scheduled;
      var progress := if ev.op.ApplyState? && to != Processing then Unset else k.hashes[id].progress;
      ChangeIndexed(k, id, from, to, progress, ev.op.now);
      OthersDoNotMatter(ChangeState(k, id, from, to, progress, ev.op.now), t);
    }
  }

  lemma CreationIndexed(k: Keys, ev: Event, t: Keys)
    requires Indexed(k) && Step(k, ev, t) && Creates(ev.op)
    ensures Indexed(t)
  {
    hide Indexed, NewJob;
    var s, queue := if ev.op.Enqueue? then Enqueued else Scheduled, if ev.op.Enqueue? then ev.op.queue else ev.op.job.queue;
    NewJobIndexed(k, ev.op.id, QueueOrDefault(queue), ev.op.job, s, ev.op.now);
    OthersDoNotMatter(NewJob(k, ev.op.id, QueueOrDefault(queue), ev.op.job, s, ev.op.now), t);
  }

  lemma TickIndexed(k: Keys, ev: Event, t: Keys)
    requires Indexed(k) && Step(k, ev, t) && ev.op.GetDueScheduled?
    ensures Indexed(t)
  {
    hide Indexed, PromoteAll, EarliestDue;
    var picked :| EarliestDue(k.scheduled, ev.op.now, Limit(ev.op.batch), picked) && t == PromoteAll(k, picked, ev.op.now);
    PromoteAllIndexed(k, picked, ev.op.now);
  }

  lemma ExpiryIndexed(k: Keys, ev: Event, t: Keys)
    requires Indexed(k) && Step(k, ev, t) && ev.op.RemoveExpired?
    ensures Indexed(t)
  {
    hide Indexed, Pass;
    var cutoff := ev.op.cutoff;
    PassIndexed(k, Succeeded, cutoff);
    PassIndexed(Pass(k, Succeeded, cutoff), Failed, cutoff);
    PassIndexed(Pass(Pass(k, Succeeded, cutoff), Failed, cutoff), Deleted, cutoff);
  }

  lemma OtherIndexed(k: Keys, ev: Event, t: Keys)
    requires Indexed(k) && Step(k, ev, t)
    requires ev.op.Requeue? || ev.op.DeleteJob? || ev.op.SetJobResult? || ev.op.HeartbeatJob? || ev.op.AddContinuation?
    ensures Indexed(t)
  {
    hide Indexed, RequeueJob, MarkDeleted;
    match ev.op
    case Requeue(id, now) => if ev.out.Done? { RequeueIndexed(k, id, now); }
    case DeleteJob(id, now) => if ev.out.Done? { DeleteIndexed(k, id, now); }
    case _ => OthersDoNotMatter(k, t);
  }

  lemma DequeueIndexed(k: Keys, ev: Event, t: Keys)
    requires Indexed(k) && Step(k, ev, t) && ev.op.Dequeue?
    ensures Indexed(t)
  {
    hide Indexed, TakeJob;
    TakeIndexed(k, ev.op.queues, ev.op.now);
  }

  /** Every request keeps the index, whatever its arguments: duplicate ids, promotions
      and dequeues of jobs in any state, soft deletes and sweeps included. */
  lemma StepKeepsIndexed(k: Keys, ev: Event, t: Keys)
    requires Indexed(k) && Step(k, ev, t)
    ensures Indexed(t)
  {
    hide Indexed, Step;
    match ev.op
    case Enqueue(_, _, _, _) => CreationIndexed(k, ev, t);
    case AddScheduled(_, _, _, _) => CreationIndexed(k, ev, t);
    case Dequeue(_, _) => DequeueIndexed(k, ev, t);
    case ApplyState(_, _, _, _) => MoveIndexed(k, ev, t);
    case ScheduleRetry(_, _, _) => MoveIndexed(k, ev, t);
    case GetDueScheduled(_, _) => TickIndexed(k, ev, t);
    case RemoveExpired(_) => ExpiryIndexed(k, ev, t);
    case _ => OtherIndexed(k, ev, t);
  }

  // ----- runs -----

  ghost predicate Run(k: Keys, evs: seq<Event>, t: Keys)
    decreases |evs|
  {
    if |evs| == 0 then t == k else exists m :: Step(k, evs[0], m) && Run(m, evs[1..], t)
  }

  lemma {:induction false} RunsKeepIndexed(k: Keys, evs: seq<Event>, t: Keys)
    requires Indexed(k) && Run(k, evs, t)
    ensures Indexed(t)
    decreases |evs|
  {
    hide Indexed, Step;
    if |evs| > 0 {
      var m :| Step(k, evs[0], m) && Run(m, evs[1..], t);
      StepKeepsIndexed(k, evs[0], m);
      RunsKeepIndexed(m, evs[1..], t);
    }
  }

  /** What a full scan of the job hashes would find. */
  function Scan(k: Keys, s: State): set<JobId> {
    set id | id in k.hashes && k.hashes[id].state == s
  }

  /** In every run from the empty store, of any requests: an unpaged listing of a state
      other than Deleted is exactly a full scan for it. */
  lemma ListingIsScan(evs: seq<Event>, k: Keys, s: State)
    requires Run(EMPTY, evs, k) && s != Deleted
    ensures Listing(k, s) == Scan(k, s)
  {
    RunsKeepIndexed(EMPTY, evs, k);
    hide Run;
  }

  /** Nothing but ApplyState could put a job into the Deleted set, and the engine never does. */
  predicate EngineCalls(evs: seq<Event>) {
    forall i :: 0 <= i < |evs| && evs[i].op.ApplyState? ==> evs[i].op.next != Deleted
  }

  lemma ChangeAddsNone(k: Keys, ev: Event, t: Keys)
    requires Step(k, ev, t) && Members(k.index, Deleted) == {} && (ev.op.ApplyState? ==> ev.op.next != Deleted)
    requires !ev.op.Dequeue? && !ev.op.RemoveExpired? && !ev.op.GetDueScheduled?
    ensures Members(t.index, Deleted) == {}
  {
    hide NewHash, Listed, Pushed;
  }

  lemma OtherSetsStay(k: Keys, ev: Event, t: Keys)
    requires Step(k, ev, t) && Members(k.index, Deleted) == {} && (ev.op.ApplyState? ==> ev.op.next != Deleted)
    ensures Members(t.index, Deleted) == {}
  {
    hide EarliestDue, TakeJob, PromoteAll, Pass, ChangeState, NewJob, RequeueJob, MarkDeleted, Members;
    if ev.op.Dequeue? {
      TakeAddsNone(k, ev.op.queues, ev.op.now);
    } else if ev.op.RemoveExpired? {
      var cutoff := ev.op.cutoff;
      PassAddsNone(k, Succeeded, cutoff);
      PassAddsNone(Pass(k, Succeeded, cutoff), Failed, cutoff);
      PassAddsNone(Pass(Pass(k, Succeeded, cutoff), Failed, cutoff), Deleted, cutoff);
    } else if ev.op.GetDueScheduled? {
      var picked :| EarliestDue(k.scheduled, ev.op.now, Limit(ev.op.batch), picked) && t == PromoteAll(k, picked, ev.op.now);
      PromoteAddsNone(k, picked, ev.op.now);
    } else {
      ChangeAddsNone(k, ev, t);
    }
  }

  lemma PassAddsNone(k: Keys, s: State, cutoff: Time)
    requires Members(k.index, Deleted) == {}
    ensures Members(Pass(k, s, cutoff).index, Deleted) == {}
  {
    hide Kept, SweptBy;
  }

  lemma TakeAddsNone(k: Keys, requested: seq<Queue>, now: Time)
    requires Members(k.index, Deleted) == {}
    ensures Members(TakeJob(k, requested, now).0.index, Deleted) == {}
    decreases Load(k.queues, requested)
  {
    var i := FirstNonEmpty(k.queues, requested);
    if i < |requested| {
      PoppingLowersLoad(k, requested, i);
      TakeAddsNone(PopTail(k, requested[i]), requested, now);
    }
  }

  lemma {:induction false} PromoteAddsNone(k: Keys, ids: seq<JobId>, now: Time)
    requires Members(k.index, Deleted) == {}
    ensures Members(PromoteAll(k, ids, now).index, Deleted) == {}
  {
    if |ids| > 0 { PromoteAddsNone(k, ids[..|ids| - 1], now); }
  }

  lemma {:induction false} DeletedSetStaysEmpty(k: Keys, evs: seq<Event>, t: Keys)
    requires Run(k, evs, t) && EngineCalls(evs) && Members(k.index, Deleted) == {}
    ensures Members(t.index, Deleted) == {}
    decreases |evs|
  {
    hide Step, Members;
    if |evs| > 0 {
      var m :| Step(k, evs[0], m) && Run(m, evs[1..], t);
      assert EngineCalls([evs[0]]) && EngineCalls(evs[1..]);
      OtherSetsStay(k, evs[0], m);
      DeletedSetStaysEmpty(m, evs[1..], t);
    }
  }

  /** A listing of Deleted is empty, always; it agrees with a full scan exactly when
      no job is in state Deleted now. */
  lemma DeletedListingIff(evs: seq<Event>, k: Keys)
    requires Run(EMPTY, evs, k) && EngineCalls(evs)
    ensures Listing(k, Deleted) == {}
    ensures Listing(k, Deleted) == Scan(k, Deleted) <==> forall id :: id in k.hashes ==> k.hashes[id].state != Deleted
  {
    DeletedSetStaysEmpty(EMPTY, evs, k);
    hide Run;
    if Listing(k, Deleted) == Scan(k, Deleted) {
      forall id | id in k.hashes ensures k.hashes[id].state != Deleted { assert id !in Scan(k, Deleted); }
    }
  }

  // ----- the retention sweep trusts the sets -----

  predicate Old(k: Keys, cutoff: Time, id: JobId) {
    id in k.hashes && k.hashes[id].updated < cutoff
  }

  function SweptSets(k: Keys): set<JobId> {
    Members(k.index, Succeeded) + Members(k.index, Failed) + Members(k.index, Deleted)
  }

  function Erased(k: Keys, cutoff: Time): set<JobId> {
    k.hashes.Keys - Sweep(k, cutoff).hashes.Keys
  }

  function Expired(k: Keys, cutoff: Time): set<JobId> {
    set id | id in k.hashes && Expirable(k.hashes[id].state) && k.hashes[id].updated < cutoff
  }

  lemma PassFrame(k: Keys, s: State, cutoff: Time, id: JobId)
    ensures id in Pass(k, s, cutoff).hashes <==> id in k.hashes && !(id in Members(k.index, s) && Old(k, cutoff, id))
    ensures id in Pass(k, s, cutoff).hashes ==> Pass(k, s, cutoff).hashes[id] == k.hashes[id]
    ensures forall r :: r != s ==> Members(Pass(k, s, cutoff).index, r) == Members(k.index, r)
  {
    hide Kept;
  }

  /** The sweep erases whatever is old and in one of the three sets. */
  lemma SweepErases(k: Keys, cutoff: Time, id: JobId)
    ensures id in Erased(k, cutoff) <==> Old(k, cutoff, id) && id in SweptSets(k)
  {
    var m := Pass(k, Succeeded, cutoff);
    var n := Pass(m, Failed, cutoff);
    PassFrame(k, Succeeded, cutoff, id);
    PassFrame(m, Failed, cutoff, id);
    PassFrame(n, Deleted, cutoff, id);
    hide Pass;
  }

  /** It erases exactly the expired jobs when, and only when, no old job in another
      state is a stale member of a swept set and no old job is softly deleted outside them. */
  lemma SweepIsExactIff(k: Keys, cutoff: Time)
    requires Indexed(k)
    ensures Erased(k, cutoff) == Expired(k, cutoff) <==>
      && (forall id :: Old(k, cutoff, id) && id in SweptSets(k) ==> Expirable(k.hashes[id].state))
      && (forall id :: Old(k, cutoff, id) && k.hashes[id].state == Deleted ==> id in SweptSets(k))
  {
    forall id
      ensures id in Erased(k, cutoff) <==> Old(k, cutoff, id) && id in SweptSets(k)
      ensures id in Expired(k, cutoff) <==> Old(k, cutoff, id) && Expirable(k.hashes[id].state)
      ensures Old(k, cutoff, id) && Expirable(k.hashes[id].state) && k.hashes[id].state != Deleted ==> id in SweptSets(k)
    {
      SweepErases(k, cutoff, id);
    }
    hide Erased, Expired, SweptSets, Old, Indexed;
  }

  lemma RunOne(k: Keys, ev: Event, m: Keys, rest: seq<Event>, t: Keys)
    requires Step(k, ev, m) && Run(m, rest, t)
    ensures Run(k, [ev] + rest, t)
  {
    hide Step;
    assert ([ev] + rest)[1..] == rest;
  }

  /** One job, in one state, with what its requeue leaves behind. */
  ghost predicate Alone(k: Keys, id: JobId, queue: Queue, s: State, now: Time) {
    k.hashes.Keys == {id} && k.hashes[id].queue == queue && k.hashes[id].state == s && k.hashes[id].updated == now
  }

  lemma RunTwo(k: Keys, a: Event, m: Keys, b: Event, t: Keys)
    requires Step(k, a, m) && Step(m, b, t)
    ensures Run(k, [a, b], t)
  {
    hide Step;
    RunOne(m, b, t, [], t);
    RunOne(k, a, m, [b] + [], t);
    assert [a] + ([b] + []) == [a, b];
  }

  lemma FailStep(k: Keys, id: JobId, queue: Queue, now: Time) returns (m: Keys)
    requires Alone(k, id, queue, Processing, now)
    ensures Step(k, Event(Op.ApplyState(id, Processing, Failed, now), Done), m)
    ensures Alone(m, id, queue, Failed, now) && id in Members(m.index, Failed)
  {
    m := ChangeState(k, id, Processing, Failed, Unset, now).(processing := k.processing - {id});
  }

  lemma RequeueStep(m: Keys, id: JobId, queue: Queue, now: Time) returns (t: Keys)
    requires Alone(m, id, queue, Failed, now) && queue != NO_QUEUE && id in Members(m.index, Failed)
    ensures Step(m, Event(Op.Requeue(id, now), Done), t)
    ensures Alone(t, id, queue, Enqueued, now) && id in Members(t.index, Failed) && id in Waiting(t.queues, queue)
  {
    t := RequeueJob(m, id, now);
    assert t.queues[queue][0] == id;
  }

  lemma FailedThenRequeued(k: Keys, id: JobId, queue: Queue, now: Time) returns (t: Keys)
    requires Alone(k, id, queue, Processing, now) && queue != NO_QUEUE
    ensures Run(k, [Event(Op.ApplyState(id, Processing, Failed, now), Done), Event(Op.Requeue(id, now), Done)], t)
    ensures Alone(t, id, queue, Enqueued, now) && id in Members(t.index, Failed) && id in Waiting(t.queues, queue)
  {
    hide Step, Alone, Run, Members, Waiting;
    var m := FailStep(k, id, queue, now);
    t := RequeueStep(m, id, queue, now);
    RunTwo(k, Event(Op.ApplyState(id, Processing, Failed, now), Done), m, Event(Op.Requeue(id, now), Done), t);
  }

  lemma EnqueuedThenTaken(id: JobId, job: Job, queue: Queue, now: Time) returns (t: Keys)
    requires queue != NO_QUEUE
    ensures Run(EMPTY, [Event(Op.Enqueue(queue, id, job, now), Outcome.Created(id)), Event(Op.Dequeue([queue], now), Ticket(id))], t)
    ensures Alone(t, id, queue, Processing, now)
  {
    var create, take := Event(Op.Enqueue(queue, id, job, now), Outcome.Created(id)), Event(Op.Dequeue([queue], now), Ticket(id));
    var m := NewJob(EMPTY, id, queue, job, Enqueued, now).(queues := Pushed(map[], queue, id));
    assert Step(EMPTY, create, m);
    TakeFirst(m, queue, id, now);
    t := TakeJob(m, [queue], now).0;
    assert Step(m, take, t);
    hide Step, Run;
    RunTwo(EMPTY, create, m, take, t);
  }

  lemma {:induction false} RunConcat(k: Keys, evs: seq<Event>, m: Keys, more: seq<Event>, t: Keys)
    requires Run(k, evs, m) && Run(m, more, t)
    ensures Run(k, evs + more, t)
    decreases |evs|
  {
    hide Step;
    if |evs| == 0 {
      assert [] + more == more;
    } else {
      var n :| Step(k, evs[0], n) && Run(n, evs[1..], m);
      RunConcat(n, evs[1..], m, more, t);
      assert evs + more == [evs[0]] + (evs[1..] + more);
      RunOne(k, evs[0], n, evs[1..] + more, t);
    }
  }

  /** A job that failed, was requeued and still waits in its queue is swept away: the
      requeue left it in the Failed set. */
  lemma SweepLosesRequeuedJob(id: JobId, job: Job, queue: Queue, now: Time) returns (evs: seq<Event>, k: Keys)
    requires queue != NO_QUEUE
    ensures Run(EMPTY, evs, k) && EngineCalls(evs)
    ensures id in k.hashes && k.hashes[id].state == Enqueued && id in Waiting(k.queues, queue)
    ensures id in Erased(k, now + 1)
  {
    hide Run, Step, Members, Waiting, Erased;
    var m := EnqueuedThenTaken(id, job, queue, now);
    k := FailedThenRequeued(m, id, queue, now);
    var first := [Event(Op.Enqueue(queue, id, job, now), Outcome.Created(id)), Event(Op.Dequeue([queue], now), Ticket(id))];
    var second := [Event(Op.ApplyState(id, Processing, Failed, now), Done), Event(Op.Requeue(id, now), Done)];
    RunConcat(EMPTY, first, m, second, k);
    evs := first + second;
    SweepErases(k, now + 1, id);
  }

  lemma TakeFirst(k: Keys, queue: Queue, id: JobId, now: Time)
    requires Waiting(k.queues, queue) == [id] && id in k.hashes
    ensures TakeJob(k, [queue], now) == (FinalizeDequeue(PopTail(k, queue), id, now), Ticket(id))
  {
    assert FirstNonEmpty(k.queues, [queue]) == 0;
  }
}
