/** The counters the dashboard shows are sums over every history there ever was,
    of live and of expired jobs. */
module MemoryCounters {
  import opened Lifecycle
  import opened Protocol
  import opened MemorySpec
  import opened MemoryWorld
  import opened Totals

  /** The dashboard counters are sums over every history there ever was. */
  ghost predicate CountersAgree(w: World) {
    var c := w.store.counters;
    && Apart(w.store.states, w.buried)
    && c.dequeued == Total(All(w), Processing)
    && c.succeeded == Total(All(w), Succeeded)
    && c.failed == Total(All(w), Failed)
    && c.dead == Total(All(w), Dead)
    && c.enqueued + w.requeues == Total(All(w), Enqueued)
    && c.scheduled + w.promotions == Total(All(w), Scheduled)
    && |w.store.scheduled| <= c.scheduled
  }

  /** One entry more for one job. */
  lemma AppendTotals(before: Histories, after: Histories, id: JobId, e: Entry)
    requires id in before && after == before[id := before[id] + [e]]
    ensures forall name :: Total(after, name) == Total(before, name) + if e.name == name then 1 else 0
  {
    forall name ensures Total(after, name) == Total(before, name) + if e.name == name then 1 else 0 {
      TotalAppend(before, id, e, name);
    }
  }

  lemma InsertTotals(before: Histories, after: Histories, id: JobId, e: Entry)
    requires id !in before && after == before[id := [e]]
    ensures forall name :: Total(after, name) == Total(before, name) + if e.name == name then 1 else 0
  {
    forall name ensures Total(after, name) == Total(before, name) + if e.name == name then 1 else 0 {
      TotalInsert(before, id, e, name);
    }
  }

  lemma UnionUpdate(states: Histories, buried: Histories, id: JobId, h: seq<Entry>)
    requires id !in buried
    ensures Merge(states[id := h], buried) == Merge(states, buried)[id := h]
    ensures id in states <==> id in Merge(states, buried)
    ensures id in states ==> Merge(states, buried)[id] == states[id]
  {
  }

  ghost predicate PromotedTotals(s: Store, t: Store, buried: Histories, n: nat) {
    && t.counters == s.counters.(enqueued := s.counters.enqueued + n, scheduled := s.counters.scheduled - n)
    && t.states.Keys == s.states.Keys
    && |t.scheduled| == |s.scheduled| - n
    && forall name :: Total(Merge(t.states, buried), name) == Total(Merge(s.states, buried), name) + if name == Enqueued then n else 0
  }

  lemma PromoteOneTotals(s: Store, buried: Histories, id: JobId, now: Time)
    requires WellFormed(s) && Apart(s.states, buried) && id in s.scheduled
    ensures PromotedTotals(s, Promote(s, id, now), buried, 1)
    ensures Promote(s, id, now).scheduled.Keys == s.scheduled.Keys - {id}
    ensures Apart(Promote(s, id, now).states, buried)
  {
    hide Total, Named, Merge;
    var t := Promote(s, id, now);
    UnionUpdate(s.states, buried, id, t.states[id]);
    AppendTotals(Merge(s.states, buried), Merge(t.states, buried), id, Entry(Enqueued, now));
    assert t.scheduled.Keys == s.scheduled.Keys - {id};
  }

  lemma ScheduledAreJobs(s: Store, ids: seq<JobId>)
    requires WellFormed(s) && forall id :: id in ids ==> id in s.scheduled
    ensures forall id :: id in ids ==> id in s.jobs
  {
  }

  lemma PromotedTotalsCompose(s: Store, r: Store, t: Store, buried: Histories, m: nat, n: nat)
    requires PromotedTotals(s, r, buried, m) && PromotedTotals(r, t, buried, n)
    ensures PromotedTotals(s, t, buried, m + n)
  {
    hide Total, Merge;
  }

  lemma PromoteTotals(s: Store, buried: Histories, ids: seq<JobId>, now: Time)
    requires WellFormed(s) && Apart(s.states, buried)
    requires Distinct(ids) && forall id :: id in ids ==> id in s.scheduled
    ensures PromotedTotals(s, PromoteAll(s, ids, now), buried, |ids|)
    ensures Apart(PromoteAll(s, ids, now).states, buried)
    ensures forall id :: id in PromoteAll(s, ids, now).scheduled <==> id in s.scheduled && id !in ids
  {
    ScheduledAreJobs(s, ids);
    hide Total, Named, WellFormed, Promote, Merge, PromotedTotals, Apart, Distinct;
    if |ids| > 0 {
      var front, id := ids[..|ids| - 1], Last(ids);
      DistinctFront(ids);
      PromoteTotals(s, buried, front, now);
      var r := PromoteAll(s, front, now);
      PromoteOneTotals(r, buried, id, now);
      PromotedTotalsCompose(s, r, Promote(r, id, now), buried, |front|, 1);
    } else {
      PromotedNothing(s, buried);
    }
  }

  lemma PromotedNothing(s: Store, buried: Histories)
    ensures PromotedTotals(s, s, buried, 0)
  {
  }

  lemma ShrinkSize<V>(m: map<JobId, V>, gone: set<JobId>)
    ensures |m - gone| <= |m|
    decreases |m|
  {
    assert (m - gone).Keys <= m.Keys;
    SubsetSize((m - gone).Keys, m.Keys);
  }

  lemma SubsetSize<T>(a: set<T>, b: set<T>)
    requires a <= b
    ensures |a| <= |b|
  {
    assert b == a + (b - a);
    assert |b| == |a| + |b - a|;
  }

  lemma GrowSize(m: map<JobId, Time>, id: JobId, at: Time)
    ensures |m[id := at]| <= |m| + 1
  {
    assert m[id := at].Keys == m.Keys + {id};
    SubsetSize(m.Keys + {id}, m.Keys + {id});
    if id in m { assert m.Keys + {id} == m.Keys; }
  }

  ghost predicate Enabled(w: World, ev: Event) {
    && WellFormed(w.store) && MemorySpec.Allowed(w.store, ev.op, ev.out)
    && (Creates(ev.op) ==> ev.op.id !in w.store.states && ev.op.id !in w.buried)
    && (ev.op.ApplyState? ==> EngineMove(ev.op.expected, ev.op.next))
  }

  function One(b: bool): nat {
    if b then 1 else 0
  }

  /** One more entry, counted under its own name, keeps the sums right. */
  lemma CountersFollow(w: World, v: World, id: JobId, e: Entry)
    requires CountersAgree(w) && id in w.store.states
    requires v.store.states == w.store.states[id := w.store.states[id] + [e]] && v.buried == w.buried
    requires v.store.counters.dequeued == w.store.counters.dequeued + One(e.name == Processing)
    requires v.store.counters.succeeded == w.store.counters.succeeded + One(e.name == Succeeded)
    requires v.store.counters.failed == w.store.counters.failed + One(e.name == Failed)
    requires v.store.counters.dead == w.store.counters.dead + One(e.name == Dead)
    requires v.store.counters.enqueued + v.requeues == w.store.counters.enqueued + w.requeues + One(e.name == Enqueued)
    requires v.store.counters.scheduled == w.store.counters.scheduled + One(e.name == Scheduled)
    requires v.promotions == w.promotions
    requires |v.store.scheduled| <= |w.store.scheduled| + One(e.name == Scheduled)
    ensures CountersAgree(v)
  {
    hide Total, Named, Merge;
    UnionUpdate(w.store.states, w.buried, id, v.store.states[id]);
    AppendTotals(All(w), All(v), id, e);
  }

  /** A new history of one entry, counted under its own name. */
  lemma CountersStart(w: World, v: World, id: JobId, e: Entry)
    requires CountersAgree(w) && id !in w.store.states && id !in w.buried
    requires v.store.states == w.store.states[id := [e]] && v.buried == w.buried
    requires e.name == Enqueued || e.name == Scheduled
    requires v.store.counters == w.store.counters.(
      enqueued := w.store.counters.enqueued + One(e.name == Enqueued),
      scheduled := w.store.counters.scheduled + One(e.name == Scheduled))
    requires v.promotions == w.promotions && v.requeues == w.requeues
    requires |v.store.scheduled| <= |w.store.scheduled| + One(e.name == Scheduled)
    ensures CountersAgree(v)
  {
    hide Total, Named, Merge;
    UnionUpdate(w.store.states, w.buried, id, [e]);
    InsertTotals(All(w), All(v), id, e);
  }

  lemma CountCreation(w: World, ev: Event)
    requires CountersAgree(w) && Enabled(w, ev) && Creates(ev.op)
    ensures CountersAgree(After(w, ev))
  {
    hide CountersAgree, Pushes, Pops;
    if ev.op.AddScheduled? { GrowSize(w.store.scheduled, ev.op.id, ev.op.at); }
    CountersStart(w, After(w, ev), ev.op.id, Entry(if ev.op.Enqueue? then Enqueued else Scheduled, ev.op.now));
  }

  lemma Unchanged(w: World, v: World)
    requires CountersAgree(w) && v.store.states == w.store.states && v.buried == w.buried
    requires v.store.counters == w.store.counters && v.store.scheduled == w.store.scheduled
    requires v.requeues == w.requeues && v.promotions == w.promotions
    ensures CountersAgree(v)
  {
    hide Total, Merge;
  }

  lemma CountDequeue(w: World, ev: Event)
    requires CountersAgree(w) && Enabled(w, ev) && ev.op.Dequeue?
    ensures CountersAgree(After(w, ev))
  {
    hide CountersAgree, Pushes, Pops;
    if ev.out.Ticket? {
      CountersFollow(w, After(w, ev), ev.out.id, Entry(Processing, ev.op.now));
    } else {
      Unchanged(w, After(w, ev));
    }
  }

  lemma CountMove(w: World, ev: Event)
    requires CountersAgree(w) && Enabled(w, ev) && ev.op.ApplyState?
    ensures CountersAgree(After(w, ev))
  {
    hide CountersAgree, Pushes, Pops;
    if ev.out.Done? {
      CountersFollow(w, After(w, ev), ev.op.id, Entry(ev.op.next, ev.op.now));
    } else {
      Unchanged(w, After(w, ev));
    }
  }

  lemma CountRequeue(w: World, ev: Event)
    requires CountersAgree(w) && Enabled(w, ev) && ev.op.Requeue?
    ensures CountersAgree(After(w, ev))
  {
    hide CountersAgree, Pushes, Pops;
    if ev.out.Done? {
      CountersFollow(w, After(w, ev), ev.op.id, Entry(Enqueued, ev.op.now));
    } else {
      Unchanged(w, After(w, ev));
    }
  }

  lemma CountRetry(w: World, ev: Event)
    requires CountersAgree(w) && Enabled(w, ev) && ev.op.ScheduleRetry?
    ensures CountersAgree(After(w, ev))
  {
    hide CountersAgree, Pushes, Pops;
    if ev.out.Done? {
      GrowSize(w.store.scheduled, ev.op.id, ev.op.at);
      CountersFollow(w, After(w, ev), ev.op.id, Entry(Scheduled, ev.op.now));
    } else {
      Unchanged(w, After(w, ev));
    }
  }

  lemma CountDelete(w: World, ev: Event)
    requires CountersAgree(w) && Enabled(w, ev) && ev.op.DeleteJob?
    ensures CountersAgree(After(w, ev))
  {
    hide CountersAgree, Pushes, Pops;
    if ev.out.Done? {
      CountersFollow(w, After(w, ev), ev.op.id, Entry(Deleted, ev.op.now));
    } else {
      Unchanged(w, After(w, ev));
    }
  }

  lemma CountPromotion(w: World, ev: Event)
    requires CountersAgree(w) && Enabled(w, ev) && ev.op.GetDueScheduled?
    ensures CountersAgree(After(w, ev))
  {
    hide Total, Named, Pushes, Pops, Merge, Gone, PromoteAll, WellFormed, Apart, Distinct;
    PromoteTotals(w.store, w.buried, ev.out.ids, ev.op.now);
  }

  /** Moving histories from the living to the buried loses none. */
  lemma MoveOver(states: Histories, buried: Histories, gone: set<JobId>)
    requires Apart(states, buried)
    ensures Merge(states - gone, Merge(buried, Gone(states, gone))) == Merge(states, buried)
    ensures Apart(states - gone, Merge(buried, Gone(states, gone)))
  {
    var all := Merge(states - gone, Merge(buried, Gone(states, gone)));
    assert all.Keys == Merge(states, buried).Keys;
    forall id | id in all ensures all[id] == Merge(states, buried)[id] {}
  }

  lemma BuryKeepsAll(s: Store, buried: Histories, cutoff: Time)
    requires Apart(s.states, buried)
    ensures var gone := AllExpired(s, cutoff);
      && Merge(Erase(s, gone).states, Bury(s, buried, Removed(gone))) == Merge(s.states, buried)
      && Apart(Erase(s, gone).states, Bury(s, buried, Removed(gone)))
  {
    hide Merge, Apart, Gone, AllExpired;
    MoveOver(s.states, buried, AllExpired(s, cutoff));
  }

  lemma CountExpiry(w: World, ev: Event)
    requires CountersAgree(w) && Enabled(w, ev) && ev.op.RemoveExpired?
    ensures CountersAgree(After(w, ev))
  {
    hide Total, Named, Pushes, Pops, Merge, Gone, WellFormed, Expired, Apart;
    BuryKeepsAll(w.store, w.buried, ev.op.cutoff);
    ShrinkSize(w.store.scheduled, ev.out.gone);
  }

  lemma CountNothing(w: World, ev: Event)
    requires CountersAgree(w) && Enabled(w, ev)
    requires ev.op.SetJobResult? || ev.op.HeartbeatJob? || ev.op.AddContinuation?
    ensures CountersAgree(After(w, ev))
  {
    hide CountersAgree, Pushes, Pops;
    Unchanged(w, After(w, ev));
  }

  lemma StepKeepsCounters(w: World, ev: Event)
    requires CountersAgree(w) && Enabled(w, ev)
    ensures CountersAgree(After(w, ev))
  {
    hide CountersAgree, Enabled, After;
    match ev.op
    case Enqueue(_, _, _, _) => CountCreation(w, ev);
    case AddScheduled(_, _, _, _) => CountCreation(w, ev);
    case GetDueScheduled(_, _) => CountPromotion(w, ev);
    case RemoveExpired(_) => CountExpiry(w, ev);
    case Dequeue(_, _) => CountDequeue(w, ev);
    case Requeue(_, _) => CountRequeue(w, ev);
    case ApplyState(_, _, _, _) => CountMove(w, ev);
    case ScheduleRetry(_, _, _) => CountRetry(w, ev);
    case DeleteJob(_, _) => CountDelete(w, ev);
    case _ => CountNothing(w, ev);
  }
}
