/** The Redis keys hold what the log tells, over every basic run; and what its orphan
    scan lists, which is more than the jobs that fell silent. */
module RedisChronicle {
  import opened Lifecycle
  import opened Protocol
  import opened Queues
  import opened DueSelection
  import opened RedisSpec
  import opened RedisQueues
  import opened Chronicle
  import RedisIndex

  datatype Account = Account(tale: Tale, sign: Sign)

  function Accounted(a: Account, ev: Event, id: JobId): Account {
    Account(Continued(a.tale, ev, id), ProgressAfter(a.sign, ev, id))
  }

  function Reckoned(a: Account, evs: seq<Event>, id: JobId): Account
    decreases |evs|
  {
    if |evs| == 0 then a else Reckoned(Accounted(a, evs[0], id), evs[1..], id)
  }

  const NOTHING := Account(Untold, None)

  lemma {:induction false} TaleOfAccount(a: Account, evs: seq<Event>, id: JobId)
    ensures Reckoned(a, evs, id).tale == Retold(a.tale, evs, id)
    decreases |evs|
  {
    if |evs| > 0 { TaleOfAccount(Accounted(a, evs[0], id), evs[1..], id); }
  }

  function Written(sign: Sign): Field {
    if sign.Heard? then At(sign.at) else Unset
  }

  ghost predicate Agrees(k: Keys, a: Account, id: JobId) {
    && (a.tale.Untold? <==> id !in k.hashes) && (id in k.hashes <==> id in k.lists)
    && (a.tale.Tale? ==>
          var h, t := k.hashes[id], a.tale;
          && |t.history| > 0 && k.lists[id] == Names(t.history)
          && h.state == Last(t.history).name && h.updated == Last(t.history).at
          && h.name == t.job.name && h.queue == QueueOrDefault(t.job.queue)
          && h.retryMax == EffectiveRetryMax(t.job.retryMax)
          && h.result == (if t.result.Result? then t.result.bytes else t.job.result)
          && h.progress == Written(a.sign))
  }

  /** One state change, with its list entry. */
  lemma ChangeAgrees(k: Keys, t: Keys, ev: Event, x: JobId, from: State, to: State, progress: Field, now: Time, a: Account, id: JobId)
    requires Agrees(k, a, id) && x in k.hashes
    requires t.hashes == ChangeState(k, x, from, to, progress, now).hashes && t.lists == ChangeState(k, x, from, to, progress, now).lists
    requires !Creates(ev.op) && !ev.out.Removed? && !ev.op.SetJobResult? && !ev.op.HeartbeatJob?
    requires ChangeOf(ev, id) == if x == id then Entered(to, now) else Unchanged
    requires x == id ==> progress == Written(ProgressAfter(a.sign, ev, id))
    requires x != id ==> !IsSign(ev, id)
    ensures Agrees(t, Accounted(a, ev, id), id)
  {
    hide ChangeOf, IsSign, Written, Added, Dropped;
    if a.tale.Tale? && x == id { NamesAppend(a.tale.history, Entry(to, now)); }
  }

  lemma NothingNew(k: Keys, t: Keys, ev: Event, a: Account, id: JobId)
    requires Agrees(k, a, id) && t.hashes == k.hashes && t.lists == k.lists
    requires !CreatesIt(ev, id) && !ErasesIt(ev, id) && !SetsItsResult(ev, id) && !IsSign(ev, id) && ChangeOf(ev, id) == Unchanged
    ensures Agrees(t, Accounted(a, ev, id), id)
  {
    hide ChangeOf, CreatesIt, ErasesIt, SetsItsResult, IsSign;
  }

  ghost predicate Stepped(k: Keys, used: set<JobId>, ev: Event, t: Keys) {
    AllFindable(k) && Served(k, used, ev, t)
  }

  lemma NewAgrees(k: Keys, t: Keys, ev: Event, queue: Queue, a: Account, id: JobId)
    requires Agrees(k, a, id) && Creates(ev.op) && ev.out == Created(ev.op.id) && ev.op.id !in k.hashes
    requires queue == QueueOrDefault(ev.op.job.queue)
    requires var n := NewJob(k, ev.op.id, queue, ev.op.job, if ev.op.Enqueue? then Enqueued else Scheduled, ev.op.now);
      t.hashes == n.hashes && t.lists == n.lists
    ensures Agrees(t, Accounted(a, ev, id), id)
  {
    hide Added;
  }

  lemma CreationAgrees(k: Keys, used: set<JobId>, ev: Event, t: Keys, a: Account, id: JobId)
    requires Stepped(k, used, ev, t) && Agrees(k, a, id) && Creates(ev.op)
    ensures Agrees(t, Accounted(a, ev, id), id)
  {
    hide AllFindable, Agrees, Accounted, NewJob, Pushed;
    NewAgrees(k, t, ev, QueueOrDefault(ev.op.job.queue), a, id);
  }

  lemma DequeueAgrees(k: Keys, used: set<JobId>, ev: Event, t: Keys, a: Account, id: JobId)
    requires Stepped(k, used, ev, t) && Agrees(k, a, id) && ev.op.Dequeue?
    ensures Agrees(t, Accounted(a, ev, id), id)
  {
    TakesTheTail(k, ev.op.queues, ev.op.now);
    hide AllFindable, TakeJob, Agrees, Accounted, ChangeState;
    if ev.out.Ticket? {
      ChangeAgrees(k, t, ev, ev.out.id, Enqueued, Processing, At(ev.op.now), ev.op.now, a, id);
    } else {
      NothingNew(k, t, ev, a, id);
    }
  }

  lemma ProgressIsKept(k: Keys, a: Account, id: JobId)
    requires Agrees(k, a, id) && id in k.hashes
    ensures k.hashes[id].progress == Written(a.sign)
  {
  }

  lemma MoveAgrees(k: Keys, used: set<JobId>, ev: Event, t: Keys, a: Account, id: JobId)
    requires Stepped(k, used, ev, t) && Agrees(k, a, id)
    requires ev.op.Requeue? || ev.op.ApplyState? || ev.op.ScheduleRetry?
    ensures Agrees(t, Accounted(a, ev, id), id)
  {
    hide AllFindable, Agrees, Accounted, ChangeState, Irreversible, Pushed;
    if ev.out.Done? {
      var x := ev.op.id;
      if x == id { ProgressIsKept(k, a, id); }
      if ev.op.Requeue? {
        ChangeAgrees(k, t, ev, x, Processing, Enqueued, Unset, ev.op.now, a, id);
      } else if ev.op.ApplyState? {
        ChangeAgrees(k, t, ev, x, ev.op.expected, ev.op.next, Unset, ev.op.now, a, id);
      } else {
        ChangeAgrees(k, t, ev, x, Failed, Scheduled, k.hashes[x].progress, ev.op.now, a, id);
      }
    } else {
      NothingNew(k, t, ev, a, id);
    }
  }

  lemma DeleteAgrees(k: Keys, used: set<JobId>, ev: Event, t: Keys, a: Account, id: JobId)
    requires Stepped(k, used, ev, t) && Agrees(k, a, id) && ev.op.DeleteJob?
    ensures Agrees(t, Accounted(a, ev, id), id)
  {
    hide AllFindable, Agrees, Accounted, Irreversible, Listed;
    if ev.out.Done? {
      ChangeAgrees(k, t, ev, ev.op.id, k.hashes[ev.op.id].state, Deleted, Unset, ev.op.now, a, id);
    } else {
      NothingNew(k, t, ev, a, id);
    }
  }

  lemma {:induction false} PromotedAgrees(k: Keys, ids: seq<JobId>, now: Time, id: JobId)
    requires Distinct(ids) && (forall x :: x in ids ==> x in k.hashes) && id in k.hashes && id in k.lists
    ensures var t := PromoteAll(k, ids, now);
      && id in t.hashes && id in t.lists && t.hashes.Keys == k.hashes.Keys && t.lists.Keys == k.lists.Keys + Elements(ids)
      && (if id in ids then
            && t.hashes[id] == k.hashes[id].(state := Enqueued, updated := now) && t.lists[id] == k.lists[id] + [Enqueued]
          else t.hashes[id] == k.hashes[id] && t.lists[id] == k.lists[id])
  {
    hide Pushed, Added, Dropped;
    if |ids| > 0 {
      DistinctFront(ids);
      PromotedAgrees(k, ids[..|ids| - 1], now, id);
      assert Elements(ids) == Elements(ids[..|ids| - 1]) + {Last(ids)};
    }
  }

  function Elements(ids: seq<JobId>): set<JobId> {
    set id | id in ids
  }

  lemma {:induction false} PromotionAddsNobody(k: Keys, ids: seq<JobId>, now: Time, id: JobId)
    requires (forall x :: x in ids ==> x in k.hashes) && id !in k.hashes
    ensures id !in PromoteAll(k, ids, now).hashes && (id in PromoteAll(k, ids, now).lists <==> id in k.lists)
    ensures PromoteAll(k, ids, now).hashes.Keys == k.hashes.Keys
  {
    hide Pushed, Added, Dropped;
    if |ids| > 0 {
      PromotionAddsNobody(k, ids[..|ids| - 1], now, id);
      assert Last(ids) in ids;
    }
  }

  lemma TickPicked(k: Keys, used: set<JobId>, ev: Event, t: Keys) returns (picked: seq<JobId>)
    requires Stepped(k, used, ev, t) && ev.op.GetDueScheduled?
    ensures Distinct(picked) && (forall x :: x in picked ==> x in k.hashes)
    ensures ev.out == Outcome.Promoted(picked) && t == PromoteAll(k, picked, ev.op.now)
  {
    picked :| EarliestDue(k.scheduled, ev.op.now, Limit(ev.op.batch), picked)
      && ev.out == Outcome.Promoted(Present(k, picked)) && t == PromoteAll(k, picked, ev.op.now);
    PicksAreJobs(k, ev.op.now, ev.op.batch, picked);
    assert Distinct(picked);
    hide Present, PromoteAll;
  }

  lemma TickAgrees(k: Keys, used: set<JobId>, ev: Event, t: Keys, a: Account, id: JobId)
    requires Stepped(k, used, ev, t) && Agrees(k, a, id) && ev.op.GetDueScheduled?
    ensures Agrees(t, Accounted(a, ev, id), id)
  {
    hide Stepped, PromoteAll, Written;
    var picked := TickPicked(k, used, ev, t);
    if id in k.hashes {
      PromotedAgrees(k, picked, ev.op.now, id);
      NamesAppend(a.tale.history, Entry(Enqueued, ev.op.now));
    } else {
      PromotionAddsNobody(k, picked, ev.op.now, id);
    }
  }

  lemma PassAgrees(k: Keys, s: State, cutoff: Time, id: JobId)
    requires k.hashes.Keys == k.lists.Keys
    ensures var t := Pass(k, s, cutoff);
      && t.hashes.Keys == t.lists.Keys && t.hashes.Keys <= k.hashes.Keys
      && (id in t.hashes ==> t.hashes[id] == k.hashes[id] && t.lists[id] == k.lists[id])
  {
    hide RedisSpec.Kept;
  }

  lemma ExpiryAgrees(k: Keys, used: set<JobId>, ev: Event, t: Keys, a: Account, id: JobId)
    requires Stepped(k, used, ev, t) && Agrees(k, a, id) && ev.op.RemoveExpired? && k.hashes.Keys == k.lists.Keys
    ensures Agrees(t, Accounted(a, ev, id), id)
  {
    var cutoff := ev.op.cutoff;
    var m := Pass(k, Succeeded, cutoff);
    var n := Pass(m, Failed, cutoff);
    PassAgrees(k, Succeeded, cutoff, id);
    PassAgrees(m, Failed, cutoff, id);
    PassAgrees(n, Deleted, cutoff, id);
    hide AllFindable, Pass;
  }

  lemma WriteAgrees(k: Keys, used: set<JobId>, ev: Event, t: Keys, a: Account, id: JobId)
    requires Stepped(k, used, ev, t) && Agrees(k, a, id) && (ev.op.SetJobResult? || ev.op.HeartbeatJob? || ev.op.AddContinuation?)
    ensures Agrees(t, Accounted(a, ev, id), id)
  {
    hide AllFindable;
  }

  lemma StepAgrees(k: Keys, used: set<JobId>, ev: Event, t: Keys, a: Account, id: JobId)
    requires Stepped(k, used, ev, t) && Agrees(k, a, id) && k.hashes.Keys == k.lists.Keys
    ensures Agrees(t, Accounted(a, ev, id), id)
  {
    hide Stepped, Agrees, Accounted;
    match ev.op
    case Enqueue(_, _, _, _) => CreationAgrees(k, used, ev, t, a, id);
    case AddScheduled(_, _, _, _) => CreationAgrees(k, used, ev, t, a, id);
    case Dequeue(_, _) => DequeueAgrees(k, used, ev, t, a, id);
    case GetDueScheduled(_, _) => TickAgrees(k, used, ev, t, a, id);
    case RemoveExpired(_) => ExpiryAgrees(k, used, ev, t, a, id);
    case DeleteJob(_, _) => DeleteAgrees(k, used, ev, t, a, id);
    case SetJobResult(_, _, _) => WriteAgrees(k, used, ev, t, a, id);
    case HeartbeatJob(_, _) => WriteAgrees(k, used, ev, t, a, id);
    case AddContinuation(_, _) => WriteAgrees(k, used, ev, t, a, id);
    case _ => MoveAgrees(k, used, ev, t, a, id);
  }

  // ----- the state sets, the processing hash and the sorted set -----

  /** The state sets a job is a member of. A change leaves the set of the state it is
      asked to come from and joins that of the new one; a delete joins and leaves none;
      and an erasure leaves only the set it was found in. */
  function SetsAfter(sets: set<State>, ev: Event, id: JobId): set<State> {
    if CreatesIt(ev, id) then sets + {if ev.op.Enqueue? then Enqueued else Scheduled}
    else if ErasesIt(ev, id) then
      sets - (if Succeeded in sets then {Succeeded} else if Failed in sets then {Failed} else {Deleted})
    else
      match ev.op
      case Dequeue(_, _) => if ev.out == Ticket(id) then sets - {Enqueued} + {Processing} else sets
      case Requeue(x, _) => if x == id && ev.out.Done? then sets - {Processing} + {Enqueued} else sets
      case ApplyState(x, expected, next, _) => if x == id && ev.out.Done? then sets - {expected} + {next} else sets
      case ScheduleRetry(x, _, _) => if x == id && ev.out.Done? then sets - {Failed} + {Scheduled} else sets
      case GetDueScheduled(_, _) => if ev.out.Promoted? && id in ev.out.ids then sets - {Scheduled} + {Enqueued} else sets
      case _ => sets
  }

  /** In the processing hash: taken or heard of, and not finished, requeued or erased since. */
  function HashAfter(last: bool, ev: Event, id: JobId): bool {
    if IsSign(ev, id) then true
    else if ErasesIt(ev, id) then false
    else if ev.op.Requeue? && ev.op.id == id && ev.out.Done? then false
    else if ev.op.ApplyState? && ev.op.expected == Processing && ev.op.id == id && ev.out.Done? then false
    else last
  }

  datatype Due = NotDue | DueAt(at: Time)

  function DueAfter(last: Due, ev: Event, id: JobId): Due {
    if ev.op.AddScheduled? && CreatesIt(ev, id) then DueAt(ev.op.at)
    else if ev.op.ScheduleRetry? && ev.op.id == id && ev.out.Done? then DueAt(ev.op.at)
    else if ErasesIt(ev, id) || (ev.op.GetDueScheduled? && ev.out.Promoted? && id in ev.out.ids) then NotDue
    else last
  }

  datatype Places = Places(sets: set<State>, inHash: bool, due: Due)

  const NOWHERE := Places({}, false, NotDue)

  function PlacesAfter(p: Places, ev: Event, id: JobId): Places {
    Places(SetsAfter(p.sets, ev, id), HashAfter(p.inHash, ev, id), DueAfter(p.due, ev, id))
  }

  function PlacesTold(p: Places, evs: seq<Event>, id: JobId): Places
    decreases |evs|
  {
    if |evs| == 0 then p else PlacesTold(PlacesAfter(p, evs[0], id), evs[1..], id)
  }

  ghost predicate Shows(k: Keys, p: Places, id: JobId) {
    && (forall s: State :: id in Members(k.index, s) <==> s in p.sets)
    && (id in k.processing <==> p.inHash)
    && (id in k.scheduled <==> p.due.DueAt?) && (p.due.DueAt? ==> k.scheduled[id] == p.due.at)
  }

  lemma ChangeShows(k: Keys, x: JobId, from: State, to: State, progress: Field, now: Time, id: JobId, s: State)
    requires x in k.hashes
    ensures id in Members(ChangeState(k, x, from, to, progress, now).index, s)
      <==> if x == id && s == to then true else if x == id && s == from then false else id in Members(k.index, s)
  {
  }

  lemma CreationShows(k: Keys, used: set<JobId>, ev: Event, t: Keys, p: Places, id: JobId)
    requires Stepped(k, used, ev, t) && Shows(k, p, id) && Creates(ev.op)
    ensures Shows(t, PlacesAfter(p, ev, id), id)
  {
    hide AllFindable, Pushed, Listed, NewHash;
  }

  lemma DequeueShows(k: Keys, used: set<JobId>, ev: Event, t: Keys, p: Places, id: JobId)
    requires Stepped(k, used, ev, t) && Shows(k, p, id) && ev.op.Dequeue?
    ensures Shows(t, PlacesAfter(p, ev, id), id)
  {
    hide AllFindable, TakeJob, Listed, Members, ChangeState;
    TakesTheTail(k, ev.op.queues, ev.op.now);
    if ev.out.Ticket? {
      var x, i := ev.out.id, FirstNonEmpty(k.queues, ev.op.queues);
      forall s: State ensures id in Members(t.index, s)
          <==> if x == id && s == Processing then true else if x == id && s == Enqueued then false else id in Members(k.index, s)
      {
        ChangeShows(PopTail(k, ev.op.queues[i]), x, Enqueued, Processing, At(ev.op.now), ev.op.now, id, s);
      }
      ChangeFrame(PopTail(k, ev.op.queues[i]), x, Enqueued, Processing, At(ev.op.now), ev.op.now);
    }
  }

  lemma ChangeFrame(k: Keys, x: JobId, from: State, to: State, progress: Field, now: Time)
    requires x in k.hashes
    ensures var t := ChangeState(k, x, from, to, progress, now);
      t.processing == k.processing && t.scheduled == k.scheduled && t.queues == k.queues
  {
  }

  lemma MoveShows(k: Keys, used: set<JobId>, ev: Event, t: Keys, p: Places, id: JobId)
    requires Stepped(k, used, ev, t) && Shows(k, p, id)
    requires ev.op.Requeue? || ev.op.ApplyState? || ev.op.ScheduleRetry?
    ensures Shows(t, PlacesAfter(p, ev, id), id)
  {
    hide AllFindable, Listed, Members, ChangeState, Pushed, Irreversible;
    if ev.out.Done? {
      var x := ev.op.id;
      var from := if ev.op.Requeue? then Processing else if ev.op.ApplyState? then ev.op.expected else Failed;
      var to := if ev.op.Requeue? then Enqueued else if ev.op.ApplyState? then ev.op.next else Scheduled;
      var progress := if ev.op.ScheduleRetry? then k.hashes[x].progress else Unset;
      ChangeFrame(k, x, from, to, progress, ev.op.now);
      forall s: State ensures id in Members(t.index, s)
          <==> if x == id && s == to then true else if x == id && s == from then false else id in Members(k.index, s)
      {
        ChangeShows(k, x, from, to, progress, ev.op.now, id, s);
      }
    }
  }

  lemma {:induction false} PromotionShows(k: Keys, ids: seq<JobId>, now: Time, id: JobId, s: State)
    requires Distinct(ids) && forall x :: x in ids ==> x in k.hashes
    ensures var t := PromoteAll(k, ids, now);
      && t.hashes.Keys == k.hashes.Keys && t.processing == k.processing
      && (id in t.scheduled <==> id in k.scheduled && id !in ids) && (id in t.scheduled ==> t.scheduled[id] == k.scheduled[id])
      && (id in Members(t.index, s) <==>
            (id in ids && s == Enqueued) || (!(id in ids && s == Scheduled) && id in Members(k.index, s)))
  {
    hide ChangeState, Pushed, Members;
    if |ids| > 0 {
      DistinctFront(ids);
      var front, x := ids[..|ids| - 1], Last(ids);
      PromotionShows(k, front, now, id, s);
      var m := PromoteAll(k, front, now);
      assert x in ids;
      ChangeShows(m, x, Scheduled, Enqueued, m.hashes[x].progress, now, id, s);
      ChangeFrame(m, x, Scheduled, Enqueued, m.hashes[x].progress, now);
      ChangeKeys(m, x, Scheduled, Enqueued, m.hashes[x].progress, now);
    }
  }

  lemma ChangeKeys(k: Keys, x: JobId, from: State, to: State, progress: Field, now: Time)
    requires x in k.hashes
    ensures ChangeState(k, x, from, to, progress, now).hashes.Keys == k.hashes.Keys
  {
  }

  lemma TickShows(k: Keys, used: set<JobId>, ev: Event, t: Keys, p: Places, id: JobId)
    requires Stepped(k, used, ev, t) && Shows(k, p, id) && ev.op.GetDueScheduled?
    ensures Shows(t, PlacesAfter(p, ev, id), id)
  {
    hide Stepped, PromoteAll, Members;
    var picked := TickPicked(k, used, ev, t);
    forall s: State ensures id in Members(t.index, s)
        <==> if id in picked && s == Enqueued then true else if id in picked && s == Scheduled then false else id in Members(k.index, s)
    {
      PromotionShows(k, picked, ev.op.now, id, s);
    }
    PromotionShows(k, picked, ev.op.now, id, Enqueued);
  }

  /** One pass erases a member that is old, and takes it out of the set of the pass. */
  lemma PassShows(k: Keys, s: State, cutoff: Time, id: JobId)
    ensures var t, hit := Pass(k, s, cutoff), id in Members(k.index, s) && id in k.hashes && k.hashes[id].updated < cutoff;
      && (id in t.hashes <==> id in k.hashes && !hit) && (id in t.hashes ==> t.hashes[id] == k.hashes[id])
      && (forall r: State :: id in Members(t.index, r) <==> id in Members(k.index, r) && !(hit && r == s))
      && (id in t.processing <==> id in k.processing && !hit)
      && (id in t.scheduled <==> id in k.scheduled && !hit) && (id in t.scheduled ==> t.scheduled[id] == k.scheduled[id])
  {
    hide RedisSpec.Kept;
  }

  lemma ExpiryShows(k: Keys, used: set<JobId>, ev: Event, t: Keys, p: Places, id: JobId)
    requires Stepped(k, used, ev, t) && Shows(k, p, id) && ev.op.RemoveExpired?
    ensures Shows(t, PlacesAfter(p, ev, id), id)
    ensures ErasesIt(ev, id) <==>
      id in k.hashes && k.hashes[id].updated < ev.op.cutoff && (Succeeded in p.sets || Failed in p.sets || Deleted in p.sets)
  {
    hide AllFindable, Pass, Members;
    var cutoff := ev.op.cutoff;
    var m := Pass(k, Succeeded, cutoff);
    var n := Pass(m, Failed, cutoff);
    PassShows(k, Succeeded, cutoff, id);
    PassShows(m, Failed, cutoff, id);
    PassShows(n, Deleted, cutoff, id);
  }

  lemma WriteShows(k: Keys, used: set<JobId>, ev: Event, t: Keys, p: Places, id: JobId)
    requires Stepped(k, used, ev, t) && Shows(k, p, id)
    requires ev.op.DeleteJob? || ev.op.SetJobResult? || ev.op.HeartbeatJob? || ev.op.AddContinuation?
    ensures Shows(t, PlacesAfter(p, ev, id), id)
  {
    hide AllFindable, Listed, Members;
  }

  lemma StepShows(k: Keys, used: set<JobId>, ev: Event, t: Keys, p: Places, id: JobId)
    requires Stepped(k, used, ev, t) && Shows(k, p, id)
    ensures Shows(t, PlacesAfter(p, ev, id), id)
  {
    hide Stepped, Shows, PlacesAfter;
    match ev.op
    case Enqueue(_, _, _, _) => CreationShows(k, used, ev, t, p, id);
    case AddScheduled(_, _, _, _) => CreationShows(k, used, ev, t, p, id);
    case Dequeue(_, _) => DequeueShows(k, used, ev, t, p, id);
    case GetDueScheduled(_, _) => TickShows(k, used, ev, t, p, id);
    case RemoveExpired(_) => ExpiryShows(k, used, ev, t, p, id);
    case DeleteJob(_, _) => WriteShows(k, used, ev, t, p, id);
    case SetJobResult(_, _, _) => WriteShows(k, used, ev, t, p, id);
    case HeartbeatJob(_, _) => WriteShows(k, used, ev, t, p, id);
    case AddContinuation(_, _) => WriteShows(k, used, ev, t, p, id);
    case _ => MoveShows(k, used, ev, t, p, id);
  }

  // ----- runs -----

  ghost predicate Tells(k: Keys, a: Account, p: Places, id: JobId) {
    RedisIndex.Indexed(k) && Agrees(k, a, id) && Shows(k, p, id)
  }

  lemma NextTells(w: World, ev: Event, v: World, a: Account, p: Places, id: JobId)
    requires Inv(w) && Counted(w) && Next(w, ev, v) && Tells(w.keys, a, p, id)
    ensures Tells(v.keys, Accounted(a, ev, id), PlacesAfter(p, ev, id), id)
  {
    assert Stepped(w.keys, w.used, ev, v.keys) && w.keys.hashes.Keys == w.keys.lists.Keys;
    hide Stepped, Agrees, Accounted, Shows, PlacesAfter, Ledger, AllFindable, RedisIndex.Indexed;
    StepAgrees(w.keys, w.used, ev, v.keys, a, id);
    StepShows(w.keys, w.used, ev, v.keys, p, id);
    RedisIndex.StepKeepsIndexed(w.keys, ev, v.keys);
  }

  lemma {:induction false} RunTells(w: World, evs: seq<Event>, v: World, a: Account, p: Places, id: JobId)
    requires Inv(w) && Run(w, evs, v) && Tells(w.keys, a, p, id)
    ensures Inv(v) && Tells(v.keys, Reckoned(a, evs, id), PlacesTold(p, evs, id), id)
    decreases |evs|
  {
    if |evs| > 0 {
      hide Inv, Next, Tells, Accounted, PlacesAfter;
      var m :| Next(w, evs[0], m) && Run(m, evs[1..], v);
      StepKeepsInv(w, evs[0], m);
      NextTells(w, evs[0], m, a, p, id);
      RunTells(m, evs[1..], v, Accounted(a, evs[0], id), PlacesAfter(p, evs[0], id), id);
    }
  }

  /** In every basic run from the empty keys: hash and state list of a job say exactly
      what the log tells, and there are none if it was never created or was erased; and it
      is in exactly the state sets, the processing hash and the sorted set the log tells. */
  lemma KeysTellTheTale(evs: seq<Event>, w: World, id: JobId)
    requires Run(START, evs, w)
    ensures Agrees(w.keys, Reckoned(NOTHING, evs, id), id) && Shows(w.keys, PlacesTold(NOWHERE, evs, id), id)
    ensures Reckoned(NOTHING, evs, id).tale == Told(evs, id)
  {
    StartIsInv();
    RunTells(START, evs, w, NOTHING, NOWHERE, id);
    TaleOfAccount(NOTHING, evs, id);
    hide Run, Inv, Agrees, Shows;
  }

  /** Every request that names one job is answered as its tale says. */
  lemma AnswersAreTold(evs: seq<Event>, w: World, op: Op, out: Outcome, t: Keys)
    requires Run(START, evs, w) && NamesOne(op) && Step(w.keys, Event(op, out), t)
    ensures var told := Told(evs, op.id);
      (told.Tale? ==> |told.history| > 0) && out == AnswerTo(told, op)
  {
    hide Run, Told, Reckoned, PlacesTold, Shows;
    KeysTellTheTale(evs, w, op.id);
  }

  /** The bytes last stored for a job, or the first 65536 of them, are its result until
      it is erased. */
  lemma ResultIsKept(evs: seq<Event>, w: World, i: nat, id: JobId)
    requires Run(START, evs, w) && i < |evs| && SetsItsResult(evs[i], id) && Told(evs[..i], id).Tale?
    requires forall j :: i < j < |evs| ==> LeavesResult(evs[j], id)
    ensures var bytes := evs[i].op.result;
      id in w.keys.hashes && w.keys.hashes[id].result == if |bytes| <= 65536 then bytes else bytes[..65536]
  {
    hide Run, Told, Reckoned, PlacesTold;
    KeysTellTheTale(evs, w, id);
    LastResultIsKept(evs, i, id);
  }

  /** The sweep erases exactly the jobs whose last state is older than the cutoff and that
      the log left in the set of Succeeded, Failed or Deleted, whatever that state is. */
  lemma SweepIsMembership(evs: seq<Event>, w: World, ev: Event, v: World, id: JobId)
    requires Run(START, evs, w) && Counted(w) && Next(w, ev, v) && ev.op.RemoveExpired?
    ensures var t, p := Told(evs, id), PlacesTold(NOWHERE, evs, id);
      ErasesIt(ev, id) <==>
        && t.Tale? && |t.history| > 0 && Last(t.history).at < ev.op.cutoff
        && (Succeeded in p.sets || Failed in p.sets || Deleted in p.sets)
  {
    KeysTellTheTale(evs, w, id);
    StartIsInv();
    RunsKeepInv(START, evs, w);
    assert Stepped(w.keys, w.used, ev, v.keys);
    hide Run, Told, Reckoned, PlacesTold, Stepped, Next, Inv, ErasesIt, Shows;
    ExpiryShows(w.keys, w.used, ev, v.keys, PlacesTold(NOWHERE, evs, id), id);
  }

  /** The orphan scan lists exactly the jobs in the Processing set, unless they are there
      and were heard of since the cutoff; a job that is gone or was deleted counts as silent. */
  lemma ScanIsSilence(evs: seq<Event>, w: World, cutoff: Time, id: JobId)
    requires Run(START, evs, w)
    ensures var a := Reckoned(NOTHING, evs, id);
      id in Orphans(w.keys, cutoff) <==>
        Processing in PlacesTold(NOWHERE, evs, id).sets && !(a.tale.Tale? && a.sign.Heard? && cutoff <= a.sign.at)
  {
    hide Run, Told, Reckoned, PlacesTold;
    KeysTellTheTale(evs, w, id);
  }

  /** Neither taken, heard of, finished nor requeued. */
  predicate LeftAlone(ev: Event, id: JobId) {
    && !IsSign(ev, id) && !CreatesIt(ev, id)
    && !(ev.op.Requeue? && ev.op.id == id && ev.out.Done?)
    && !(ev.op.ApplyState? && ev.op.expected == Processing && ev.op.id == id && ev.out.Done?)
  }

  /** A job deleted while it was processed stays in every scan, whatever the cutoff, until
      it is taken, heard of, finished or requeued again. */
  lemma DeletedIsScannedForever(evs: seq<Event>, i: nat, w: World, cutoff: Time, id: JobId)
    requires Run(START, evs, w) && i < |evs| && evs[i].op.DeleteJob? && evs[i].op.id == id && evs[i].out.Done?
    requires Processing in PlacesTold(NOWHERE, evs[..i], id).sets
    requires forall j :: i < j < |evs| ==> LeftAlone(evs[j], id)
    ensures id in Orphans(w.keys, cutoff)
  {
    hide Run, Reckoned, PlacesTold, LeftAlone;
    ScanIsSilence(evs, w, cutoff, id);
    SilentSince(evs, i, id);
  }

  lemma SilentSince(evs: seq<Event>, i: nat, id: JobId)
    requires i < |evs| && evs[i].op.DeleteJob? && evs[i].op.id == id && evs[i].out.Done?
    requires Processing in PlacesTold(NOWHERE, evs[..i], id).sets
    requires forall j :: i < j < |evs| ==> LeftAlone(evs[j], id)
    ensures Processing in PlacesTold(NOWHERE, evs, id).sets && Reckoned(NOTHING, evs, id).sign == None
  {
    hide Continued;
    var rest := evs[i + 1..];
    assert evs == evs[..i] + ([evs[i]] + rest) && ([evs[i]] + rest)[1..] == rest;
    PlacesInTwo(NOWHERE, evs[..i], [evs[i]] + rest, id);
    ReckonedInTwo(NOTHING, evs[..i], [evs[i]] + rest, id);
    forall j | 0 <= j < |rest| ensures LeftAlone(rest[j], id) { assert rest[j] == evs[i + 1 + j]; }
    StaysSilent(Accounted(Reckoned(NOTHING, evs[..i], id), evs[i], id), PlacesAfter(PlacesTold(NOWHERE, evs[..i], id), evs[i], id), rest, id);
  }

  lemma {:induction false} StaysSilent(a: Account, p: Places, evs: seq<Event>, id: JobId)
    requires a.sign == None && Processing in p.sets && forall j :: 0 <= j < |evs| ==> LeftAlone(evs[j], id)
    ensures Reckoned(a, evs, id).sign == None && Processing in PlacesTold(p, evs, id).sets
    decreases |evs|
  {
    if |evs| > 0 {
      assert LeftAlone(evs[0], id);
      OneStaysSilent(a, p, evs[0], id);
      hide Accounted, PlacesAfter, LeftAlone;
      StaysSilent(Accounted(a, evs[0], id), PlacesAfter(p, evs[0], id), evs[1..], id);
    }
  }

  lemma OneStaysSilent(a: Account, p: Places, ev: Event, id: JobId)
    requires a.sign == None && Processing in p.sets && LeftAlone(ev, id)
    ensures Accounted(a, ev, id).sign == None && Processing in PlacesAfter(p, ev, id).sets
  {
    hide Continued;
  }

  lemma {:induction false} PlacesInTwo(p: Places, first: seq<Event>, second: seq<Event>, id: JobId)
    ensures PlacesTold(p, first + second, id) == PlacesTold(PlacesTold(p, first, id), second, id)
    decreases |first|
  {
    if |first| == 0 {
      assert first + second == second;
    } else {
      assert (first + second)[1..] == first[1..] + second;
      PlacesInTwo(PlacesAfter(p, first[0], id), first[1..], second, id);
    }
  }

  lemma {:induction false} ReckonedInTwo(a: Account, first: seq<Event>, second: seq<Event>, id: JobId)
    ensures Reckoned(a, first + second, id) == Reckoned(Reckoned(a, first, id), second, id)
    decreases |first|
  {
    if |first| == 0 {
      assert first + second == second;
    } else {
      assert (first + second)[1..] == first[1..] + second;
      ReckonedInTwo(Accounted(a, first[0], id), first[1..], second, id);
    }
  }
}
