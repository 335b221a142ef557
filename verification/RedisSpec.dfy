/** The Redis backend as keys: a hash and a state list per job, a list per queue, the
    processing hash, the sorted set of scheduled jobs, and one set per state that
    indexes the jobs believed to be in it. Each script and each pipeline is one step
    (internal/storage/redis). */
module RedisSpec {
  import opened Lifecycle
  import opened Protocol
  import opened Queues
  import opened DueSelection

  /** A field of a hash that may be missing. */
  datatype Field = Unset | At(t: Time)

  datatype Hash = Hash(name: string, queue: Queue, retryMax: int, state: State, updated: Time, progress: Field, result: seq<bv8>)

  datatype Keys = Keys(
    hashes: map<JobId, Hash>,
    lists: map<JobId, seq<State>>,
    queues: map<Queue, seq<JobId>>,
    processing: set<JobId>,
    scheduled: map<JobId, Time>,
    index: map<State, set<JobId>>)

  const EMPTY := Keys(map[], map[], map[], {}, map[], map[])

  function Members(index: map<State, set<JobId>>, s: State): set<JobId> {
    if s in index then index[s] else {}
  }

  function Added(index: map<State, set<JobId>>, s: State, id: JobId): map<State, set<JobId>> {
    index[s := Members(index, s) + {id}]
  }

  function Dropped(index: map<State, set<JobId>>, s: State, id: JobId): map<State, set<JobId>> {
    if s in index then index[s := index[s] - {id}] else index
  }

  function ListOf(lists: map<JobId, seq<State>>, id: JobId): seq<State> {
    if id in lists then lists[id] else []
  }

  /** RPUSH on the state list. */
  function Listed(lists: map<JobId, seq<State>>, id: JobId, s: State): map<JobId, seq<State>> {
    lists[id := ListOf(lists, id) + [s]]
  }

  /** LPUSH on a queue; BRPOP takes from the other end. */
  function Pushed(queues: map<Queue, seq<JobId>>, q: Queue, id: JobId): map<Queue, seq<JobId>> {
    queues[q := [id] + Waiting(queues, q)]
  }

  /** HSET leaves alone the fields it does not name: no progress, and no result if there
      is none to set. */
  function NewHash(k: Keys, id: JobId, queue: Queue, job: Job, s: State, now: Time): Hash {
    var progress := if id in k.hashes then k.hashes[id].progress else Unset;
    var result := if |job.result| == 0 && id in k.hashes then k.hashes[id].result else job.result;
    Hash(job.name, queue, EffectiveRetryMax(job.retryMax), s, now, progress, result)
  }

  function NewJob(k: Keys, id: JobId, queue: Queue, job: Job, s: State, now: Time): Keys {
    k.(hashes := k.hashes[id := NewHash(k, id, queue, job, s, now)],
       lists := Listed(k.lists, id, s),
       index := Added(k.index, s, id))
  }

  /** A state change of an existing job: hash fields, list entry, one set left, one joined. */
  function ChangeState(k: Keys, id: JobId, from: State, to: State, progress: Field, now: Time): Keys
    requires id in k.hashes
  {
    k.(hashes := k.hashes[id := k.hashes[id].(state := to, updated := now, progress := progress)],
       lists := Listed(k.lists, id, to),
       index := Added(Dropped(k.index, from, id), to, id))
  }

  /** The script after BRPOP: no look at the state, nothing for a missing job. */
  function FinalizeDequeue(k: Keys, id: JobId, now: Time): Keys {
    if id !in k.hashes then k else
    ChangeState(k, id, Enqueued, Processing, At(now), now).(processing := k.processing + {id})
  }

  function PopTail(k: Keys, q: Queue): Keys
    requires |Waiting(k.queues, q)| > 0
  {
    k.(queues := k.queues[q := Waiting(k.queues, q)[..|Waiting(k.queues, q)| - 1]])
  }

  function Load(queues: map<Queue, seq<JobId>>, requested: seq<Queue>): nat {
    if |requested| == 0 then 0 else |Waiting(queues, requested[0])| + Load(queues, requested[1..])
  }

  lemma LoadNever(queues: map<Queue, seq<JobId>>, queues': map<Queue, seq<JobId>>, requested: seq<Queue>)
    requires forall q :: |Waiting(queues', q)| <= |Waiting(queues, q)|
    ensures Load(queues', requested) <= Load(queues, requested)
  {
  }

  lemma PoppingLowersLoad(k: Keys, requested: seq<Queue>, i: nat)
    requires i < |requested| && |Waiting(k.queues, requested[i])| > 0
    ensures Load(PopTail(k, requested[i]).queues, requested) < Load(k.queues, requested)
  {
    if i == 0 {
      LoadNever(k.queues, PopTail(k, requested[0]).queues, requested[1..]);
    } else {
      PoppingLowersLoad(k, requested[1..], i - 1);
      LoadNever(k.queues, PopTail(k, requested[i]).queues, requested[..1]);
    }
  }

  /** Pop until an id has a job behind it, or the requested queues are empty. */
  function TakeJob(k: Keys, requested: seq<Queue>, now: Time): (r: (Keys, Outcome))
    decreases Load(k.queues, requested)
  {
    var i := FirstNonEmpty(k.queues, requested);
    if i == |requested| then (k, Refused(QueueEmpty)) else
    var id := Last(Waiting(k.queues, requested[i]));
    PoppingLowersLoad(k, requested, i);
    var popped := PopTail(k, requested[i]);
    if id in k.hashes then (FinalizeDequeue(popped, id, now), Ticket(id)) else TakeJob(popped, requested, now)
  }

  function RequeueJob(k: Keys, id: JobId, now: Time): Keys
    requires id in k.hashes
  {
    ChangeState(k, id, Processing, Enqueued, Unset, now).(
      queues := Pushed(k.queues, QueueOrDefault(k.hashes[id].queue), id),
      processing := k.processing - {id})
  }

  function PromoteJob(k: Keys, id: JobId, now: Time): Keys {
    if id !in k.hashes then k.(scheduled := k.scheduled - {id}) else
    ChangeState(k, id, Scheduled, Enqueued, k.hashes[id].progress, now).(
      scheduled := k.scheduled - {id},
      queues := Pushed(k.queues, QueueOrDefault(k.hashes[id].queue), id))
  }

  function PromoteAll(k: Keys, ids: seq<JobId>, now: Time): Keys {
    if |ids| == 0 then k else PromoteJob(PromoteAll(k, ids[..|ids| - 1], now), Last(ids), now)
  }

  lemma PromoteStep(k: Keys, ids: seq<JobId>, i: nat, now: Time)
    requires i < |ids|
    ensures PromoteAll(k, ids[..i + 1], now) == PromoteJob(PromoteAll(k, ids[..i], now), ids[i], now)
  {
    assert ids[..i + 1][..i] == ids[..i];
  }

  /** A soft delete: the index sets are not told. */
  function MarkDeleted(k: Keys, id: JobId, now: Time): Keys
    requires id in k.hashes
  {
    k.(hashes := k.hashes[id := k.hashes[id].(state := Deleted, updated := now, progress := Unset)],
       lists := Listed(k.lists, id, Deleted))
  }

  /** What one pass of the retention sweep over the set of a state erases: whatever
      the set names, if it is old enough. The state itself is not looked at. */
  predicate Sweepable(k: Keys, cutoff: Time, id: JobId) {
    id in k.hashes && k.hashes[id].updated < cutoff
  }

  function SweptAmong(k: Keys, members: set<JobId>, cutoff: Time): set<JobId> {
    set id | id in members && Sweepable(k, cutoff, id)
  }

  function SweptBy(k: Keys, s: State, cutoff: Time): set<JobId> {
    SweptAmong(k, Members(k.index, s), cutoff)
  }

  function Without(queue: seq<JobId>, id: JobId): seq<JobId> {
    if |queue| == 0 then [] else
    Without(queue[..|queue| - 1], id) + if Last(queue) == id then [] else [Last(queue)]
  }

  /** DEL of the job's keys, SREM from the set of the pass, LREM from its queue. */
  function EraseJob(k: Keys, s: State, id: JobId): Keys
    requires id in k.hashes
  {
    var q := k.hashes[id].queue;
    k.(hashes := k.hashes - {id},
       lists := k.lists - {id},
       index := Dropped(k.index, s, id),
       processing := k.processing - {id},
       scheduled := k.scheduled - {id},
       queues := if q in k.queues then k.queues[q := Without(k.queues[q], id)] else k.queues)
  }

  /** A queue without the erased jobs that were enqueued on it. */
  function Kept(queue: seq<JobId>, q: Queue, gone: set<JobId>, hashes: map<JobId, Hash>): seq<JobId> {
    if |queue| == 0 then [] else
    Kept(queue[..|queue| - 1], q, gone, hashes)
    + if Last(queue) in gone && Last(queue) in hashes && hashes[Last(queue)].queue == q then [] else [Last(queue)]
  }

  function EraseAll(k: Keys, s: State, gone: set<JobId>): Keys {
    k.(hashes := k.hashes - gone,
       lists := k.lists - gone,
       index := if s in k.index then k.index[s := k.index[s] - gone] else k.index,
       processing := k.processing - gone,
       scheduled := k.scheduled - gone,
       queues := map q | q in k.queues :: Kept(k.queues[q], q, gone, k.hashes))
  }

  lemma WithoutAppend(front: seq<JobId>, x: JobId, id: JobId)
    ensures Without(front + [x], id) == Without(front, id) + if x == id then [] else [x]
  {
    assert (front + [x])[..|front|] == front;
  }

  lemma KeptMore(queue: seq<JobId>, q: Queue, gone: set<JobId>, hashes: map<JobId, Hash>, id: JobId)
    requires id in hashes && id !in gone
    ensures Kept(queue, q, gone + {id}, hashes)
      == if hashes[id].queue == q then Without(Kept(queue, q, gone, hashes), id) else Kept(queue, q, gone, hashes)
  {
    if |queue| > 0 {
      KeptMore(queue[..|queue| - 1], q, gone, hashes, id);
      var front := Kept(queue[..|queue| - 1], q, gone, hashes);
      WithoutAppend(front, Last(queue), id);
      assert front + [] == front;
    }
  }

  lemma KeptAll(queue: seq<JobId>, q: Queue, hashes: map<JobId, Hash>)
    ensures Kept(queue, q, {}, hashes) == queue
  {
  }

  lemma EraseMoreQueues(k: Keys, s: State, gone: set<JobId>, id: JobId)
    requires id in k.hashes && id !in gone
    ensures id in EraseAll(k, s, gone).hashes
    ensures EraseJob(EraseAll(k, s, gone), s, id).queues == EraseAll(k, s, gone + {id}).queues
  {
    forall q | q in k.queues
      ensures Kept(k.queues[q], q, gone + {id}, k.hashes)
        == if k.hashes[id].queue == q then Without(Kept(k.queues[q], q, gone, k.hashes), id) else Kept(k.queues[q], q, gone, k.hashes)
    {
      KeptMore(k.queues[q], q, gone, k.hashes, id);
    }
    hide Kept, Without;
  }

  lemma EraseMore(k: Keys, s: State, gone: set<JobId>, id: JobId)
    requires id in k.hashes && id !in gone
    ensures id in EraseAll(k, s, gone).hashes
    ensures EraseJob(EraseAll(k, s, gone), s, id) == EraseAll(k, s, gone + {id})
  {
    EraseMoreQueues(k, s, gone, id);
    hide Kept, Without;
    var t, u := EraseJob(EraseAll(k, s, gone), s, id), EraseAll(k, s, gone + {id});
    assert t.hashes == u.hashes;
    assert t.lists == u.lists;
    assert t.scheduled == u.scheduled;
    assert t.index == u.index by {
      if s in k.index { assert k.index[s] - gone - {id} == k.index[s] - (gone + {id}); }
    }
    assert t.processing == u.processing;
  }

  lemma EraseNone(k: Keys, s: State)
    ensures EraseAll(k, s, {}) == k
  {
    forall q | q in k.queues ensures Kept(k.queues[q], q, {}, k.hashes) == k.queues[q] { KeptAll(k.queues[q], q, k.hashes); }
    var t := EraseAll(k, s, {});
    assert t.queues == k.queues && t.hashes == k.hashes && t.lists == k.lists && t.scheduled == k.scheduled;
    if s in k.index { assert k.index[s] - {} == k.index[s]; }
    assert t.processing == k.processing;
  }

  function Pass(k: Keys, s: State, cutoff: Time): Keys {
    EraseAll(k, s, SweptBy(k, s, cutoff))
  }

  function Sweep(k: Keys, cutoff: Time): Keys {
    Pass(Pass(Pass(k, Succeeded, cutoff), Failed, cutoff), Deleted, cutoff)
  }

  function Present(k: Keys, ids: seq<JobId>): seq<JobId> {
    if |ids| == 0 then [] else
    Present(k, ids[..|ids| - 1]) + if Last(ids) in k.hashes then [Last(ids)] else []
  }

  function Capped(result: seq<bv8>): seq<bv8> {
    if |result| > RESULT_CAP then result[..RESULT_CAP] else result
  }

  /** What the orphan scan lists: the members of the Processing set without a recent
      heartbeat, whether there is a job behind them or not. */
  predicate Silent(k: Keys, cutoff: Time, id: JobId) {
    id !in k.hashes || k.hashes[id].progress.Unset? || k.hashes[id].progress.t < cutoff
  }

  function Orphans(k: Keys, cutoff: Time): set<JobId> {
    set id | id in Members(k.index, Processing) && Silent(k, cutoff, id)
  }

  function Refusal(k: Keys, id: JobId): Outcome {
    if id !in k.hashes then Refused(NotFound) else if Irreversible(k.hashes[id].state) then Refused(TerminalState) else Done
  }

  function Conflict(k: Keys, id: JobId, expected: State): Outcome {
    if id !in k.hashes then Refused(NotFound) else if k.hashes[id].state != expected then Refused(StateConflict) else Done
  }

  /** A request with its outcome, and the keys it leaves. */
  ghost predicate Step(k: Keys, ev: Event, t: Keys) {
    var op, out := ev.op, ev.out;
    match op
    case Enqueue(queue, id, job, now) =>
      out == Outcome.Created(id)
      && t == NewJob(k, id, QueueOrDefault(queue), job, Enqueued, now).(queues := Pushed(k.queues, QueueOrDefault(queue), id))
    case AddScheduled(at, id, job, now) =>
      out == Outcome.Created(id)
      && t == NewJob(k, id, QueueOrDefault(job.queue), job, Scheduled, now).(scheduled := k.scheduled[id := at])
    case Dequeue(queues, now) => (t, out) == TakeJob(k, queues, now)
    case Requeue(id, now) => out == Refusal(k, id) && t == if out.Done? then RequeueJob(k, id, now) else k
    case ApplyState(id, expected, next, now) =>
      out == Conflict(k, id, expected)
      && t == if !out.Done? then k else
        ChangeState(k, id, expected, next, if next != Processing then Unset else k.hashes[id].progress, now).(
          processing := if expected == Processing && next != Processing then k.processing - {id} else k.processing)
    case ScheduleRetry(id, at, now) =>
      out == Conflict(k, id, Failed)
      && t == if !out.Done? then k else
        ChangeState(k, id, Failed, Scheduled, k.hashes[id].progress, now).(scheduled := k.scheduled[id := at])
    case GetDueScheduled(now, batch) =>
      exists picked ::
        EarliestDue(k.scheduled, now, Limit(batch), picked)
        && out == Outcome.Promoted(Present(k, picked)) && t == PromoteAll(k, picked, now)
    case DeleteJob(id, now) => out == Refusal(k, id) && t == if out.Done? then MarkDeleted(k, id, now) else k
    case RemoveExpired(cutoff) => t == Sweep(k, cutoff) && out == Removed(k.hashes.Keys - t.hashes.Keys)
    case SetJobResult(id, result, _) =>
      out == (if id in k.hashes then Done else Refused(NotFound))
      && t == if out.Done? then k.(hashes := k.hashes[id := k.hashes[id].(result := Capped(result))]) else k
    case HeartbeatJob(id, now) =>
      out == (if id in k.hashes then Done else Refused(NotFound))
      && t == if out.Done? then k.(hashes := k.hashes[id := k.hashes[id].(progress := At(now))], processing := k.processing + {id}) else k
    case AddContinuation(_, _) => t == k && out == Done
  }

  /** What a listing of a state may show: a job whose last list entry is that state. */
  predicate IsListed(k: Keys, id: JobId, s: State) {
    id in k.hashes && |ListOf(k.lists, id)| > 0 && Last(ListOf(k.lists, id)) == s
  }

  /** What an unpaged listing shows: the members of the set that really are in the state. */
  function Listing(k: Keys, s: State): set<JobId> {
    set id | id in Members(k.index, s) && IsListed(k, id, s)
  }

  /** The ids of a page that really are in the state, in the order of the page. */
  function Shown(k: Keys, page: seq<JobId>, s: State): seq<JobId> {
    if |page| == 0 then [] else
    Shown(k, page[..|page| - 1], s) + if IsListed(k, Last(page), s) then [Last(page)] else []
  }

  /** The page that begins at an offset of a list, as long as the limit allows. */
  function Page(order: seq<JobId>, offset: nat, limit: nat): seq<JobId> {
    if offset >= |order| then [] else if offset + limit >= |order| then order[offset..] else order[offset..offset + limit]
  }

  lemma EraseLeaves(k: Keys, s: State, gone: set<JobId>, id: JobId)
    requires id !in gone
    ensures id in EraseAll(k, s, gone).hashes <==> id in k.hashes
    ensures id in k.hashes ==> EraseAll(k, s, gone).hashes[id] == k.hashes[id]
  {
  }

  lemma PassIsEraseAll(k: Keys, s: State, cutoff: Time)
    ensures Pass(k, s, cutoff) == EraseAll(k, s, SweptBy(k, s, cutoff))
  {
  }

  lemma ThreeParts(all: set<JobId>, a: set<JobId>, b: set<JobId>, c: set<JobId>)
    requires a <= all && b <= all - a && c <= all - a - b
    ensures |all - (all - a - b - c)| == |a| + |b| + |c|
  {
    assert all - (all - a - b - c) == a + b + c;
  }

  /** One more member looked at. */
  lemma SweepMore(k: Keys, s: State, seen: set<JobId>, id: JobId, cutoff: Time)
    requires id !in seen
    ensures var gone, t := SweptAmong(k, seen, cutoff), EraseAll(k, s, SweptAmong(k, seen, cutoff));
      && id !in gone
      && (Sweepable(k, cutoff, id) <==> id in t.hashes && t.hashes[id].updated < cutoff)
      && (Sweepable(k, cutoff, id) ==> SweptAmong(k, seen + {id}, cutoff) == gone + {id} && EraseJob(t, s, id) == EraseAll(k, s, gone + {id}))
      && (!Sweepable(k, cutoff, id) ==> SweptAmong(k, seen + {id}, cutoff) == gone)
  {
    var gone := SweptAmong(k, seen, cutoff);
    EraseLeaves(k, s, gone, id);
    if Sweepable(k, cutoff, id) { EraseMore(k, s, gone, id); }
    hide EraseAll, EraseJob;
    assert SweptAmong(k, seen + {id}, cutoff) == if Sweepable(k, cutoff, id) then gone + {id} else gone;
  }

  lemma PassErases(k: Keys, s: State, cutoff: Time)
    ensures SweptBy(k, s, cutoff) <= k.hashes.Keys
    ensures Pass(k, s, cutoff).hashes.Keys == k.hashes.Keys - SweptBy(k, s, cutoff)
  {
    hide Kept;
  }

  /** The three passes erase disjoint sets, so their counts add up. */
  lemma SweepCounts(k: Keys, cutoff: Time)
    ensures var m := Pass(k, Succeeded, cutoff);
      var n := Pass(m, Failed, cutoff);
      |k.hashes.Keys - Sweep(k, cutoff).hashes.Keys|
        == |SweptBy(k, Succeeded, cutoff)| + |SweptBy(m, Failed, cutoff)| + |SweptBy(n, Deleted, cutoff)|
  {
    var m := Pass(k, Succeeded, cutoff);
    var n := Pass(m, Failed, cutoff);
    PassErases(k, Succeeded, cutoff);
    PassErases(m, Failed, cutoff);
    PassErases(n, Deleted, cutoff);
    hide Pass, SweptBy;
    ThreeParts(k.hashes.Keys, SweptBy(k, Succeeded, cutoff), SweptBy(m, Failed, cutoff), SweptBy(n, Deleted, cutoff));
  }
}
