/** Orphan recovery over the in-memory store. Its scan reads the heartbeat map alone,
    and neither a requeue nor a state change clears that map: the coordinator may
    requeue a job that is already waiting. */
module MemoryOrphans {
  import opened Lifecycle
  import opened Protocol
  import opened Queues
  import opened MemorySpec
  import A = AbstractJobs
  import MR = MemoryRefinement
  import W = Workers
  import B = Backends
  import Backend = MemoryStorage

  function Orphans(s: Store, cutoff: Time): set<JobId> {
    set id | id in s.progress && s.progress[id] < cutoff
  }

  predicate Requeued(s: Store, ids: set<JobId>, id: JobId) {
    id in ids && id in s.jobs && !Settled(s, id)
  }

  /** How often a job stands in a queue. */
  function Places(s: Store, q: Queue, id: JobId): nat {
    multiset(QueueOf(s, q))[id]
  }

  /** Requeueing a set of jobs, in whatever order: each that is not settled gains one
      entry and one more place at its queue, and leaves the processing map. */
  ghost predicate Recovered(s: Store, ids: set<JobId>, now: Time, t: Store) {
    && t.jobs == s.jobs && t.scheduled == s.scheduled && t.progress == s.progress
    && t.continuations == s.continuations && t.counters == s.counters && t.idempotency == s.idempotency
    && HistoriesRecovered(s, ids, now, t)
    && (forall id :: id in t.processing <==> id in s.processing && !Requeued(s, ids, id))
    && PlacesRecovered(s, ids, t)
  }

  ghost predicate HistoriesRecovered(s: Store, ids: set<JobId>, now: Time, t: Store) {
    t.states.Keys == s.states.Keys && forall id :: id in s.states ==> t.states[id] == HistoryAfter(s, ids, now, id)
  }

  ghost predicate PlacesRecovered(s: Store, ids: set<JobId>, t: Store) {
    forall q, id :: Places(t, q, id) == PlacesAfter(s, ids, q, id)
  }

  function HistoryAfter(s: Store, ids: set<JobId>, now: Time, id: JobId): seq<Entry>
    requires id in s.states
  {
    if Requeued(s, ids, id) then s.states[id] + [Entry(Enqueued, now)] else s.states[id]
  }

  function PlacesAfter(s: Store, ids: set<JobId>, q: Queue, id: JobId): nat {
    Places(s, q, id) + if Requeued(s, ids, id) && s.jobs[id].queue == q then 1 else 0
  }

  lemma RecoverNone(s: Store, now: Time)
    ensures Recovered(s, {}, now, s)
  {
    forall q, id ensures Places(s, q, id) == PlacesAfter(s, {}, q, id) {}
  }

  lemma PlacesMove(t: Store, id: JobId, now: Time, out: Outcome, q: Queue, x: JobId)
    requires WellFormed(t) && Allowed(t, Op.Requeue(id, now), out)
    ensures Places(Apply(t, Op.Requeue(id, now), out), q, x)
      == Places(t, q, x) + if out.Done? && x == id && t.jobs[id].queue == q then 1 else 0
  {
    hide WellFormed;
  }

  /** Everything but the places. */
  lemma RequeueFrame(t: Store, id: JobId, now: Time, out: Outcome)
    requires WellFormed(t) && Allowed(t, Op.Requeue(id, now), out) && id in t.jobs
    ensures out.Done? <==> !Settled(t, id)
    ensures var u := Apply(t, Op.Requeue(id, now), out);
      && u.jobs == t.jobs && u.scheduled == t.scheduled && u.progress == t.progress
      && u.continuations == t.continuations && u.counters == t.counters && u.idempotency == t.idempotency
      && u.states == (if out.Done? then t.states[id := t.states[id] + [Entry(Enqueued, now)]] else t.states)
      && u.processing == (if out.Done? then t.processing - {id} else t.processing)
  {
  }

  lemma SameSettled(s: Store, ids: set<JobId>, now: Time, t: Store, id: JobId)
    requires HistoriesRecovered(s, ids, now, t) && id !in ids && id in s.states
    ensures t.states[id] == s.states[id] && Settled(t, id) == Settled(s, id)
  {
    assert t.states[id] == HistoryAfter(s, ids, now, id);
  }

  lemma RequeuedMore(s: Store, ids: set<JobId>, id: JobId, x: JobId)
    requires id !in ids && id in s.jobs
    ensures Requeued(s, ids + {id}, x) == (Requeued(s, ids, x) || (x == id && !Settled(s, id)))
    ensures !Requeued(s, ids, id)
  {
  }

  lemma RecoverPlaces(s: Store, ids: set<JobId>, t: Store, id: JobId, now: Time, out: Outcome)
    requires WellFormed(t) && Allowed(t, Op.Requeue(id, now), out) && PlacesRecovered(s, ids, t)
    requires id !in ids && id in s.jobs && t.jobs == s.jobs && (out.Done? <==> !Settled(s, id))
    ensures PlacesRecovered(s, ids + {id}, Apply(t, Op.Requeue(id, now), out))
  {
    hide Settled, WellFormed, Allowed, Apply, Places, Requeued;
    var u := Apply(t, Op.Requeue(id, now), out);
    forall q, x ensures Places(u, q, x) == PlacesAfter(s, ids + {id}, q, x) {
      PlacesMove(t, id, now, out, q, x);
      assert Places(t, q, x) == PlacesAfter(s, ids, q, x);
      RequeuedMore(s, ids, id, x);
    }
  }

  lemma JobHasHistory(s: Store, id: JobId)
    requires WellFormed(s) && id in s.jobs
    ensures id in s.states
  {
  }

  lemma RecoverOne(s: Store, ids: set<JobId>, now: Time, t: Store, id: JobId, out: Outcome)
    requires WellFormed(s) && WellFormed(t) && Recovered(s, ids, now, t) && id !in ids && id in s.jobs
    requires Allowed(t, Op.Requeue(id, now), out)
    ensures Recovered(s, ids + {id}, now, Apply(t, Op.Requeue(id, now), out))
  {
    hide Settled, Allowed, Apply, PlacesRecovered, Requeued, Places, WellFormed;
    JobHasHistory(s, id);
    JobHasHistory(t, id);
    var u := Apply(t, Op.Requeue(id, now), out);
    RequeueFrame(t, id, now, out);
    SameSettled(s, ids, now, t, id);
    RecoverPlaces(s, ids, t, id, now, out);
    forall x ensures Requeued(s, ids + {id}, x) == (Requeued(s, ids, x) || (x == id && out.Done?)) { RequeuedMore(s, ids, id, x); }
    RequeuedMore(s, ids, id, id);
  }

  lemma OrphansAreJobs(s: Store, cutoff: Time)
    requires WellFormed(s)
    ensures Orphans(s, cutoff) <= s.jobs.Keys
  {
  }

  lemma OneFewer(all: set<JobId>, rest: set<JobId>, id: JobId)
    requires rest <= all && id in rest
    ensures all - (rest - {id}) == all - rest + {id} && id !in all - rest
  {
  }

  /** One tick of the coordinator with nothing in between. */
  method CoordinatorTick(store: Backend.Storage, staleAge: Time, now: Time)
    requires store.Valid()
    modifies store
    ensures store.Valid()
    ensures Recovered(old(store.View()), Orphans(old(store.View()), now - staleAge), now, store.View())
  {
    ghost var before := store.View();
    var orphans := store.GetOrphanedJobs(staleAge, now);
    var rest := orphans;
    RecoverNone(before, now);
    OrphansAreJobs(before, now - staleAge);
    hide Recovered, Allowed, Apply, Orphans, WellFormed, Backend.Storage.View;
    while rest != {}
      invariant store.Valid() && rest <= orphans
      invariant Recovered(before, orphans - rest, now, store.View())
      decreases |rest|
    {
      var id :| id in rest;
      ghost var middle := store.View();
      var out := store.Requeue(id, now);
      RecoverOne(before, orphans - rest, now, middle, id, out);
      OneFewer(orphans, rest, id);
      rest := rest - {id};
    }
    assert orphans - {} == orphans;
  }

  // ----- what goes wrong -----

  /** The tick leaves every heartbeat as old as it was: a second tick at the same
      instant requeues the same jobs again. It adds nothing exactly when no orphan was
      left to requeue, unlike the tick over the Postgres tables. */
  lemma SecondTickRequeuesAgain(s: Store, cutoff: Time, now: Time, t: Store, u: Store)
    requires WellFormed(s) && Recovered(s, Orphans(s, cutoff), now, t) && Recovered(t, Orphans(t, cutoff), now, u)
    ensures Orphans(t, cutoff) == Orphans(s, cutoff)
    ensures u.states == t.states <==> forall id :: id in Orphans(s, cutoff) ==> Settled(s, id)
  {
    hide PlacesRecovered;
    assert Orphans(t, cutoff) == Orphans(s, cutoff);
    if forall id :: id in Orphans(s, cutoff) ==> Settled(s, id) {
      forall id | id in s.states ensures u.states[id] == t.states[id] { SettledStaysPut(s, Orphans(s, cutoff), now, t, u, id); }
      assert u.states == t.states;
    } else {
      var id :| id in Orphans(s, cutoff) && !Settled(s, id);
      WaitingMovesTwice(s, Orphans(s, cutoff), now, t, u, id);
    }
  }

  lemma SettledStaysPut(s: Store, ids: set<JobId>, now: Time, t: Store, u: Store, id: JobId)
    requires HistoriesRecovered(s, ids, now, t) && HistoriesRecovered(t, ids, now, u) && id in s.states
    requires id in ids ==> Settled(s, id)
    ensures t.states[id] == s.states[id] && u.states[id] == t.states[id]
  {
    assert t.states[id] == HistoryAfter(s, ids, now, id);
    assert u.states[id] == HistoryAfter(t, ids, now, id);
  }

  lemma WaitingMovesTwice(s: Store, ids: set<JobId>, now: Time, t: Store, u: Store, id: JobId)
    requires HistoriesRecovered(s, ids, now, t) && HistoriesRecovered(t, ids, now, u) && t.jobs == s.jobs
    requires id in s.states && id in ids && id in s.jobs && !Settled(s, id)
    ensures u.states[id] == t.states[id] + [Entry(Enqueued, now)]
  {
    assert t.states[id] == HistoryAfter(s, ids, now, id) == s.states[id] + [Entry(Enqueued, now)];
    assert u.states[id] == HistoryAfter(t, ids, now, id);
  }

  /** The coordinator's requeue of an orphan is one a disciplined caller could make
      exactly when the orphan is not already waiting in a queue or on the schedule. */
  lemma RecoveryIsDisciplinedIff(s: Store, used: set<JobId>, id: JobId, now: Time)
    requires WellFormed(s) && MR.Placed(s) && A.AbsInv(MR.AbsOf(s), used) && id in s.jobs
    ensures A.Disciplined(MR.AbsOf(s), used, Op.Requeue(id, now)) <==> !Is(s, id, Enqueued) && !Is(s, id, Scheduled)
  {
    MR.ReadsAgree(s, id);
    LivingStates(MR.AbsOf(s), used, id);
    hide MR.AbsOf, MR.Placed, WellFormed, Is, A.AbsInv;
  }

  lemma LivingStates(a: A.Abs, used: set<JobId>, id: JobId)
    requires A.AbsInv(a, used) && id in a.jobs
    ensures A.In(a, id, Enqueued) || A.In(a, id, Scheduled) || A.In(a, id, Processing) || A.In(a, id, Failed) || A.Stuck(a, id)
  {
    var h := a.jobs[id].hist;
    if |h| > 1 { assert Legal(h[|h| - 2], h[|h| - 2 + 1]); }
  }

  // ----- a disciplined run into it -----

  const ID := JobId(0)
  const JOB := Job("job", DEFAULT_QUEUE, 1, [])

  /** The one job, in one state, heard of at instant zero, waiting or not. */
  predicate One(s: Store, state: State, waiting: seq<JobId>) {
    && WellFormed(s) && s.jobs == map[ID := JOB] && Is(s, ID, state)
    && QueueOf(s, DEFAULT_QUEUE) == waiting
  }

  lemma CreateStep() returns (c: B.Cluster, act: W.Act)
    ensures B.Enabled(B.ON_MEMORY, act) && B.Next(B.ON_MEMORY, act) == c
    ensures c.backend.InMemory? && One(c.backend.store, Enqueued, [ID]) && W.At(c.control, 0).Idle?
  {
    act := W.Env(Event(Op.Enqueue(DEFAULT_QUEUE, ID, JOB, 0), Created(ID)));
    c := B.Next(B.ON_MEMORY, act);
  }

  lemma TakeStep(c: B.Cluster) returns (d: B.Cluster, act: W.Act)
    requires c.backend.InMemory? && One(c.backend.store, Enqueued, [ID]) && W.At(c.control, 0).Idle?
    ensures B.Enabled(c, act) && B.Next(c, act) == d
    ensures d.backend.InMemory? && One(d.backend.store, Processing, [])
    ensures ID in d.backend.store.progress && d.backend.store.progress[ID] == 0
  {
    act := W.Poll(0, [DEFAULT_QUEUE], 0, Ticket(ID));
    assert FirstNonEmpty(c.backend.store.queues, [DEFAULT_QUEUE]) == 0;
    d := B.Next(c, act);
    hide B.View;
  }

  lemma RequeueStep(c: B.Cluster) returns (d: B.Cluster, act: W.Act)
    requires c.backend.InMemory? && One(c.backend.store, Processing, [])
    requires ID in c.backend.store.progress && c.backend.store.progress[ID] == 0
    ensures B.Enabled(c, act) && B.Next(c, act) == d
    ensures d.backend.InMemory? && One(d.backend.store, Enqueued, [ID])
    ensures ID in d.backend.store.progress && d.backend.store.progress[ID] == 0
  {
    act := W.Env(Event(Op.Requeue(ID, 0), Done));
    MR.ReadsAgree(c.backend.store, ID);
    hide MR.AbsOf;
    d := B.Next(c, act);
  }

  /** A disciplined run after which the next tick is not disciplined: the job waits in
      its queue, its last heartbeat is stale, and recovery puts it there twice. */
  lemma TickDoublesWaitingJob(staleAge: nat, now: Time, t: Store) returns (acts: seq<W.Act>, s: Store)
    requires now > staleAge
    ensures B.Run(B.ON_MEMORY, acts) && B.After(B.ON_MEMORY, acts).backend == B.InMemory(s)
    ensures WellFormed(s) && Is(s, ID, Enqueued) && ID in Orphans(s, now - staleAge)
    ensures Recovered(s, Orphans(s, now - staleAge), now, t) ==> Places(t, DEFAULT_QUEUE, ID) == 2
  {
    hide B.Enabled, B.Next, Recovered;
    var c1, a1 := CreateStep();
    var c2, a2 := TakeStep(c1);
    var c3, a3 := RequeueStep(c2);
    B.OneAct(c2, a3, []);
    B.OneAct(c1, a2, [a3] + []);
    B.OneAct(B.ON_MEMORY, a1, [a2] + ([a3] + []));
    acts, s := [a1] + ([a2] + ([a3] + [])), c3.backend.store;
    if Recovered(s, Orphans(s, now - staleAge), now, t) { PlacesOf(s, Orphans(s, now - staleAge), now, t); }
  }

  lemma PlacesOf(s: Store, ids: set<JobId>, now: Time, t: Store)
    requires Recovered(s, ids, now, t) && One(s, Enqueued, [ID]) && ID in ids
    ensures Places(t, DEFAULT_QUEUE, ID) == 2
  {
    assert Places(t, DEFAULT_QUEUE, ID) == PlacesAfter(s, ids, DEFAULT_QUEUE, ID);
  }
}
