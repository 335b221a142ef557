/** The Redis backend as an object over its keys. */
module RedisStorage {
  import opened Lifecycle
  import opened Protocol
  import opened Queues
  import opened DueSelection
  import Spec = RedisSpec

  class Storage {
    var hashes: map<JobId, Spec.Hash>
    var lists: map<JobId, seq<State>>
    var queues: map<Queue, seq<JobId>>
    var processing: set<JobId>
    var scheduled: map<JobId, Time>
    var index: map<State, set<JobId>>

    ghost function View(): Spec.Keys
      reads this
    {
      Spec.Keys(hashes, lists, queues, processing, scheduled, index)
    }

    twostate predicate Did(op: Op, out: Outcome)
      reads this
    {
      Spec.Step(old(View()), Event(op, out), View())
    }

    constructor ()
      ensures View() == Spec.EMPTY
    {
      hashes, lists, queues := map[], map[], map[];
      processing, scheduled, index := {}, map[], map[];
    }

    // ----- commands -----

    /** The fields a state change writes; an unset one is deleted. */
    method HSetState(id: JobId, state: State, progress: Spec.Field, now: Time)
      requires id in hashes
      modifies this`hashes
      ensures hashes == old(hashes)[id := old(hashes)[id].(state := state, updated := now, progress := progress)]
    {
      hashes := hashes[id := hashes[id].(state := state, updated := now, progress := progress)];
    }

    /** The fields of a job just created. */
    method HSetJob(id: JobId, queue: Queue, job: Job, state: State, now: Time)
      modifies this`hashes
      ensures hashes == old(hashes)[id := Spec.NewHash(old(View()), id, queue, job, state, now)]
    {
      var retryMax := if job.retryMax == 0 then DEFAULT_RETRY_MAX else job.retryMax;
      var fields := Spec.Hash(job.name, queue, retryMax, state, now, Spec.Unset, job.result);
      if id in hashes {
        fields := fields.(progress := hashes[id].progress);
        if |job.result| == 0 {
          fields := fields.(result := hashes[id].result);
        }
      }
      hashes := hashes[id := fields];
    }

    method RPushState(id: JobId, state: State)
      modifies this`lists
      ensures lists == Spec.Listed(old(lists), id, state)
    {
      lists := lists[id := (if id in lists then lists[id] else []) + [state]];
    }

    method LPush(queue: Queue, id: JobId)
      modifies this`queues
      ensures queues == Spec.Pushed(old(queues), queue, id)
    {
      queues := queues[queue := [id] + (if queue in queues then queues[queue] else [])];
    }

    method SAdd(state: State, id: JobId)
      modifies this`index
      ensures index == Spec.Added(old(index), state, id)
    {
      index := index[state := (if state in index then index[state] else {}) + {id}];
    }

    method SRem(state: State, id: JobId)
      modifies this`index
      ensures index == Spec.Dropped(old(index), state, id)
    {
      if state in index {
        index := index[state := index[state] - {id}];
      }
    }

    /** The commands every state change of a job has in common. */
    method ChangeState(id: JobId, from: State, to: State, progress: Spec.Field, now: Time)
      requires id in hashes
      modifies this`hashes, this`lists, this`index
      ensures View() == Spec.ChangeState(old(View()), id, from, to, progress, now)
    {
      HSetState(id, to, progress, now);
      RPushState(id, to);
      SRem(from, id);
      SAdd(to, id);
    }

    // ----- requests -----

    method Enqueue(queue: Queue, id: JobId, job: Job, now: Time) returns (out: Outcome)
      modifies this
      ensures Did(Op.Enqueue(queue, id, job, now), out)
    {
      var named := queue;
      if named == NO_QUEUE {
        named := DEFAULT_QUEUE;
      }
      HSetJob(id, named, job, Enqueued, now);
      RPushState(id, Enqueued);
      LPush(named, id);
      SAdd(Enqueued, id);
      out := Created(id);
    }

    method AddScheduled(at: Time, id: JobId, job: Job, now: Time) returns (out: Outcome)
      modifies this
      ensures Did(Op.AddScheduled(at, id, job, now), out)
    {
      var named := job.queue;
      if named == NO_QUEUE {
        named := DEFAULT_QUEUE;
      }
      HSetJob(id, named, job, Scheduled, now);
      RPushState(id, Scheduled);
      scheduled := scheduled[id := at];
      SAdd(Scheduled, id);
      out := Created(id);
    }

    /** finalizeDequeueScript. */
    method FinalizeDequeue(id: JobId, now: Time) returns (found: bool)
      modifies this
      ensures found == (id in old(hashes)) && View() == Spec.FinalizeDequeue(old(View()), id, now)
    {
      if id !in hashes {
        return false;
      }
      ChangeState(id, Enqueued, Processing, Spec.At(now), now);
      processing := processing + {id};
      return true;
    }

    /** BRPOP over several lists: the tail of the first one that is not empty. */
    method BRPop(requested: seq<Queue>) returns (found: bool, id: JobId)
      modifies this`queues
      ensures var i := FirstNonEmpty(old(queues), requested);
        && found == (i < |requested|)
        && (found ==> id == Last(Waiting(old(queues), requested[i])) && View() == Spec.PopTail(old(View()), requested[i]))
        && (!found ==> View() == old(View()))
    {
      var i := 0;
      while i < |requested|
        invariant i <= |requested| && queues == old(queues)
        invariant FirstNonEmpty(queues, requested) == i + FirstNonEmpty(queues, requested[i..])
      {
        var q := requested[i];
        if q in queues && |queues[q]| > 0 {
          id := Last(queues[q]);
          queues := queues[q := queues[q][..|queues[q]| - 1]];
          return true, id;
        }
        i := i + 1;
      }
      found, id := false, JobId(0);
    }

    /** Pops until the script finds a job behind the id. */
    method Dequeue(requested: seq<Queue>, now: Time) returns (out: Outcome)
      modifies this
      ensures Did(Op.Dequeue(requested, now), out)
    {
      while true
        invariant Spec.TakeJob(View(), requested, now) == Spec.TakeJob(old(View()), requested, now)
        decreases Spec.Load(queues, requested)
      {
        ghost var before := View();
        var popped, id := BRPop(requested);
        if !popped {
          return Refused(QueueEmpty);
        }
        Spec.PoppingLowersLoad(before, requested, FirstNonEmpty(before.queues, requested));
        var found := FinalizeDequeue(id, now);
        if found {
          return Ticket(id);
        }
      }
    }

    method Requeue(id: JobId, now: Time) returns (out: Outcome)
      modifies this
      ensures Did(Op.Requeue(id, now), out)
    {
      if id !in hashes {
        return Refused(NotFound);
      }
      if Irreversible(hashes[id].state) {
        return Refused(TerminalState);
      }
      var queue := QueueOrDefault(hashes[id].queue);
      ChangeState(id, Processing, Enqueued, Spec.Unset, now);
      LPush(queue, id);
      processing := processing - {id};
      out := Done;
    }

    /** applyStateScript. */
    method ApplyState(id: JobId, expected: State, next: State, now: Time) returns (out: Outcome)
      modifies this
      ensures Did(Op.ApplyState(id, expected, next, now), out)
    {
      if id !in hashes {
        return Refused(NotFound);
      }
      if hashes[id].state != expected {
        return Refused(StateConflict);
      }
      ChangeState(id, expected, next, if next != Processing then Spec.Unset else hashes[id].progress, now);
      if expected == Processing && next != Processing {
        processing := processing - {id};
      }
      out := Done;
    }

    method ScheduleRetry(id: JobId, at: Time, now: Time) returns (out: Outcome)
      modifies this
      ensures Did(Op.ScheduleRetry(id, at, now), out)
    {
      if id !in hashes {
        return Refused(NotFound);
      }
      if hashes[id].state != Failed {
        return Refused(StateConflict);
      }
      ChangeState(id, Failed, Scheduled, hashes[id].progress, now);
      scheduled := scheduled[id := at];
      out := Done;
    }

    /** One round of the promotion loop; the script has taken the id off the set. */
    method PromoteJob(id: JobId, now: Time) returns (found: bool)
      modifies this
      ensures found == (id in old(hashes)) && hashes.Keys == old(hashes).Keys
      ensures View() == Spec.PromoteJob(old(View()), id, now)
    {
      scheduled := scheduled - {id};
      if id !in hashes {
        return false;
      }
      var queue := QueueOrDefault(hashes[id].queue);
      ChangeState(id, Scheduled, Enqueued, hashes[id].progress, now);
      LPush(queue, id);
      return true;
    }

    method PromoteEach(due: seq<JobId>, now: Time) returns (tickets: seq<JobId>)
      modifies this
      ensures View() == Spec.PromoteAll(old(View()), due, now) && tickets == Spec.Present(old(View()), due)
    {
      ghost var before := View();
      tickets := [];
      for i := 0 to |due|
        invariant View() == Spec.PromoteAll(before, due[..i], now) && hashes.Keys == before.hashes.Keys
        invariant tickets == Spec.Present(before, due[..i])
      {
        Spec.PromoteStep(before, due, i, now);
        hide Spec.PromoteAll, Spec.PromoteJob;
        var found := PromoteJob(due[i], now);
        assert due[..i + 1][..i] == due[..i];
        if found {
          tickets := tickets + [due[i]];
        }
      }
      assert due[..|due|] == due;
    }

    method GetDueScheduled(now: Time, batch: int) returns (out: Outcome)
      modifies this
      ensures Did(Op.GetDueScheduled(now, batch), out)
    {
      var due := SelectDue(scheduled, now, Limit(batch));
      var tickets := PromoteEach(due, now);
      out := Promoted(tickets);
      hide EarliestDue, Spec.PromoteAll, Spec.Present;
    }

    method DeleteJob(id: JobId, now: Time) returns (out: Outcome)
      modifies this
      ensures Did(Op.DeleteJob(id, now), out)
    {
      if id !in hashes {
        return Refused(NotFound);
      }
      if Irreversible(hashes[id].state) {
        return Refused(TerminalState);
      }
      HSetState(id, Deleted, Spec.Unset, now);
      RPushState(id, Deleted);
      out := Done;
    }

    method SetJobResult(id: JobId, result: seq<bv8>, now: Time) returns (out: Outcome)
      modifies this
      ensures Did(Op.SetJobResult(id, result, now), out)
    {
      var kept := if |result| > RESULT_CAP then result[..RESULT_CAP] else result;
      if id !in hashes {
        return Refused(NotFound);
      }
      hashes := hashes[id := hashes[id].(result := kept)];
      out := Done;
    }

    method HeartbeatJob(id: JobId, now: Time) returns (out: Outcome)
      modifies this
      ensures Did(Op.HeartbeatJob(id, now), out)
    {
      if id !in hashes {
        return Refused(NotFound);
      }
      hashes := hashes[id := hashes[id].(progress := Spec.At(now))];
      processing := processing + {id};
      out := Done;
    }

    /** The scan over the Processing set; a member without a heartbeat field is listed. */
    method GetOrphanedJobs(staleAge: Time, now: Time) returns (ids: set<JobId>)
      ensures ids == Spec.Orphans(View(), now - staleAge)
    {
      ids := {};
      var rest := if Processing in index then index[Processing] else {};
      while rest != {}
        invariant rest <= Spec.Members(index, Processing)
        invariant forall id :: id in ids <==> id in Spec.Orphans(View(), now - staleAge) && id !in rest
        decreases |rest|
      {
        var id :| id in rest;
        rest := rest - {id};
        var progress := if id in hashes then hashes[id].progress else Spec.Unset;
        if progress.Unset? || progress.t < now - staleAge {
          ids := ids + {id};
        }
      }
    }

    method EraseJob(id: JobId, state: State)
      requires id in hashes
      modifies this
      ensures View() == Spec.EraseJob(old(View()), state, id)
    {
      var queue := hashes[id].queue;
      hashes := hashes - {id};
      lists := lists - {id};
      SRem(state, id);
      processing := processing - {id};
      scheduled := scheduled - {id};
      LRem(queue, id);
    }

    /** LREM with count zero: every occurrence. */
    method LRem(queue: Queue, id: JobId)
      modifies this`queues
      ensures queues == if queue in old(queues) then old(queues)[queue := Spec.Without(old(queues)[queue], id)] else old(queues)
    {
      if queue !in queues {
        return;
      }
      var kept := [];
      for i := 0 to |queues[queue]|
        invariant kept == Spec.Without(queues[queue][..i], id)
      {
        assert queues[queue][..i + 1][..i] == queues[queue][..i];
        if queues[queue][i] != id {
          kept := kept + [queues[queue][i]];
        }
      }
      assert queues[queue][..|queues[queue]|] == queues[queue];
      queues := queues[queue := kept];
    }

    method SweepJob(id: JobId, state: State, cutoff: Time) returns (hit: bool)
      modifies this
      ensures hit == (id in old(hashes) && old(hashes)[id].updated < cutoff)
      ensures View() == if hit then Spec.EraseJob(old(View()), state, id) else old(View())
    {
      hit := id in hashes && hashes[id].updated < cutoff;
      if hit {
        EraseJob(id, state);
      }
    }

    /** One pass of the sweep, over the members of one set in any order. */
    method SweepState(state: State, cutoff: Time) returns (deleted: nat)
      modifies this
      ensures View() == Spec.Pass(old(View()), state, cutoff)
      ensures deleted == |Spec.SweptBy(old(View()), state, cutoff)|
    {
      ghost var before := View();
      ghost var gone := {};
      var rest := if state in index then index[state] else {};
      deleted := 0;
      Spec.EraseNone(before, state);
      Spec.PassIsEraseAll(before, state, cutoff);
      hide Spec.EraseAll, Spec.EraseJob, Spec.Pass;
      while rest != {}
        invariant rest <= Spec.Members(before.index, state)
        invariant gone == Spec.SweptAmong(before, Spec.Members(before.index, state) - rest, cutoff)
        invariant View() == Spec.EraseAll(before, state, gone) && deleted == |gone|
        decreases |rest|
      {
        var id :| id in rest;
        Spec.SweepMore(before, state, Spec.Members(before.index, state) - rest, id, cutoff);
        assert Spec.Members(before.index, state) - (rest - {id}) == Spec.Members(before.index, state) - rest + {id};
        rest := rest - {id};
        var hit := SweepJob(id, state, cutoff);
        if hit {
          gone := gone + {id};
          deleted := deleted + 1;
        }
      }
      assert Spec.Members(before.index, state) - {} == Spec.Members(before.index, state);
    }

    method RemoveExpired(cutoff: Time) returns (ghost out: Outcome, deleted: nat)
      modifies this
      ensures Did(Op.RemoveExpired(cutoff), out)
      ensures out.Removed? && deleted == |out.gone|
    {
      ghost var before := View();
      var succeeded := SweepState(Succeeded, cutoff);
      ghost var middle := View();
      var failed := SweepState(Failed, cutoff);
      ghost var last := View();
      var soft := SweepState(Deleted, cutoff);
      deleted := succeeded + failed + soft;
      out := Removed(before.hashes.Keys - hashes.Keys);
      Spec.SweepCounts(before, cutoff);
    }

    method GetJob(id: JobId) returns (found: bool, states: seq<State>)
      ensures found == (id in hashes)
      ensures states == Spec.ListOf(lists, id)
    {
      found := id in hashes;
      states := if id in lists then lists[id] else [];
    }

    /** The members of a set, in some order. */
    method SMembers(state: State) returns (ids: seq<JobId>)
      ensures Distinct(ids) && forall id :: id in ids <==> id in Spec.Members(index, state)
      ensures |ids| == |Spec.Members(index, state)|
    {
      var rest := if state in index then index[state] else {};
      ids := [];
      while rest != {}
        invariant rest <= Spec.Members(index, state) && Distinct(ids)
        invariant forall id :: id in ids <==> id in Spec.Members(index, state) && id !in rest
        invariant |ids| + |rest| == |Spec.Members(index, state)|
        decreases |rest|
      {
        var id :| id in rest;
        rest := rest - {id};
        ids := ids + [id];
      }
    }

    /** The listing: a page of the set, in whatever order it comes, then only what really
        is in the state. */
    method GetJobsByState(state: State, offset: nat, limit: int) returns (ids: seq<JobId>, ghost order: seq<JobId>)
      ensures Distinct(order) && forall id :: id in order <==> id in Spec.Members(index, state)
      ensures ids == Spec.Shown(View(), Spec.Page(order, offset, Limit(limit)), state)
      ensures forall id :: id in ids ==> id in Spec.Listing(View(), state)
      ensures Distinct(ids) && |ids| <= Limit(limit)
      ensures offset == 0 && |Spec.Members(index, state)| <= Limit(limit) ==>
        forall id :: id in Spec.Listing(View(), state) ==> id in ids
    {
      ids := [];
      var members := SMembers(state);
      order := members;
      if offset >= |members| {
        assert offset == 0 ==> members == [];
        return;
      }
      var page := members[offset..];
      if |page| > Limit(limit) {
        page := page[..Limit(limit)];
      }
      assert page == Spec.Page(members, offset, Limit(limit));
      assert Distinct(page);
      ids := ListPage(page, state);
    }

    method ListPage(page: seq<JobId>, state: State) returns (ids: seq<JobId>)
      requires Distinct(page)
      ensures ids == Spec.Shown(View(), page, state)
      ensures forall id :: id in ids <==> id in page && Spec.IsListed(View(), id, state)
      ensures Distinct(ids) && |ids| <= |page|
    {
      ids := [];
      for i := 0 to |page|
        invariant Distinct(ids) && |ids| <= i
        invariant ids == Spec.Shown(View(), page[..i], state)
        invariant forall id :: id in ids <==> id in page[..i] && Spec.IsListed(View(), id, state)
      {
        var found, states := GetJob(page[i]);
        assert page[..i + 1][..i] == page[..i];
        assert page[i] !in page[..i];
        if found && |states| > 0 && Last(states) == state {
          ids := ids + [page[i]];
        }
      }
      assert page[..|page|] == page;
    }
  }
}
