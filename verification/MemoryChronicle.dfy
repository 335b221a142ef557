/** The memory store holds what the log tells: over every run of any requests at all,
    each job's record, its dated history, its result and its last heartbeat are what
    the granted requests say, and nothing else. */
module MemoryChronicle {
  import opened Lifecycle
  import opened Protocol
  import opened Queues
  import opened MemorySpec
  import opened MemoryWorld
  import opened Chronicle
  import MemoryOrphans
  import MR = MemoryRefinement

  ghost predicate Agrees(s: Store, t: Tale, id: JobId) {
    && WellFormed(s)
    && (t.Untold? <==> id !in s.jobs)
    && (t.Tale? ==>
          && s.states[id] == t.history && |t.history| > 0
          && s.jobs[id].name == t.job.name && s.jobs[id].queue == QueueOrDefault(t.job.queue)
          && s.jobs[id].retryMax == (if t.history[0].name == Scheduled then t.job.retryMax else EffectiveRetryMax(t.job.retryMax))
          && s.jobs[id].result == if t.result.Result? then t.result.bytes else t.job.result)
  }

  lemma {:induction false} PromotedHistory(s: Store, ids: seq<JobId>, now: Time, id: JobId)
    requires WellFormed(s) && Distinct(ids) && (forall x :: x in ids ==> x in s.jobs) && id in s.jobs
    ensures PromoteAll(s, ids, now).jobs == s.jobs && id in PromoteAll(s, ids, now).states
    ensures PromoteAll(s, ids, now).states[id] == s.states[id] + if id in ids then [Entry(Enqueued, now)] else []
  {
    if |ids| > 0 {
      DistinctFront(ids);
      PromotedHistory(s, ids[..|ids| - 1], now, id);
    }
  }

  ghost predicate Granted(s: Store, ev: Event) {
    WellFormed(s) && MemorySpec.Allowed(s, ev.op, ev.out)
  }

  lemma NewRecord(s: Store, u: Store, ev: Event, stored: Job, t: Tale, id: JobId)
    requires Agrees(s, t, id) && WellFormed(u) && Creates(ev.op) && ev.out == Created(ev.op.id)
    requires u.jobs == s.jobs[ev.op.id := stored]
    requires u.states == s.states[ev.op.id := [Entry(if ev.op.Enqueue? then Enqueued else Scheduled, ev.op.now)]]
    requires stored.name == ev.op.job.name && stored.queue == QueueOrDefault(ev.op.job.queue) && stored.result == ev.op.job.result
    requires stored.retryMax == if ev.op.Enqueue? then EffectiveRetryMax(ev.op.job.retryMax) else ev.op.job.retryMax
    ensures Agrees(u, Continued(t, ev, id), id)
  {
  }

  lemma CreationAgrees(s: Store, ev: Event, t: Tale, id: JobId)
    requires Granted(s, ev) && Agrees(s, t, id) && Creates(ev.op)
    ensures Agrees(MemorySpec.Apply(s, ev.op, ev.out), Continued(t, ev, id), id)
  {
    hide Agrees, Continued, WellFormed, Push;
    var u := MemorySpec.Apply(s, ev.op, ev.out);
    NewRecord(s, u, ev, u.jobs[ev.op.id], t, id);
  }

  /** One entry more on one history, and no other change of a record. */
  lemma OneEntryMore(s: Store, u: Store, ev: Event, x: JobId, name: State, now: Time, t: Tale, id: JobId)
    requires Agrees(s, t, id) && WellFormed(u) && x in s.states
    requires u.jobs == s.jobs && u.states == Record(s.states, x, name, now)
    requires !Creates(ev.op) && !ev.out.Removed? && !ev.op.SetJobResult?
    requires ChangeOf(ev, id) == if x == id then Entered(name, now) else Unchanged
    ensures Agrees(u, Continued(t, ev, id), id)
  {
    hide ChangeOf;
  }

  lemma NothingNew(s: Store, u: Store, ev: Event, t: Tale, id: JobId)
    requires Agrees(s, t, id) && WellFormed(u) && u.jobs == s.jobs && u.states == s.states
    requires !CreatesIt(ev, id) && !ErasesIt(ev, id) && !SetsItsResult(ev, id) && ChangeOf(ev, id) == Unchanged
    ensures Agrees(u, Continued(t, ev, id), id)
  {
    hide ChangeOf, CreatesIt, ErasesIt, SetsItsResult;
  }

  lemma DequeueAgrees(s: Store, ev: Event, t: Tale, id: JobId)
    requires Granted(s, ev) && Agrees(s, t, id) && ev.op.Dequeue?
    ensures Agrees(MemorySpec.Apply(s, ev.op, ev.out), Continued(t, ev, id), id)
  {
    hide Agrees, Continued, WellFormed;
    var u := MemorySpec.Apply(s, ev.op, ev.out);
    if ev.out.Ticket? {
      TicketIsKnown(s, ev);
      OneEntryMore(s, u, ev, ev.out.id, Processing, ev.op.now, t, id);
    } else {
      NothingNew(s, u, ev, t, id);
    }
  }

  lemma TicketIsKnown(s: Store, ev: Event)
    requires Granted(s, ev) && ev.op.Dequeue? && ev.out.Ticket?
    ensures ev.out.id in s.states
  {
  }

  lemma MoveAgrees(s: Store, ev: Event, t: Tale, id: JobId)
    requires Granted(s, ev) && Agrees(s, t, id)
    requires ev.op.Requeue? || ev.op.ApplyState? || ev.op.ScheduleRetry? || ev.op.DeleteJob?
    ensures Agrees(MemorySpec.Apply(s, ev.op, ev.out), Continued(t, ev, id), id)
  {
    hide Agrees, Continued, WellFormed, Settled, Current, Push, Counted, Record;
    var u := MemorySpec.Apply(s, ev.op, ev.out);
    if ev.out.Done? {
      KnownEitherWay(s);
      var name := if ev.op.Requeue? then Enqueued else if ev.op.ApplyState? then ev.op.next
        else if ev.op.ScheduleRetry? then Scheduled else Deleted;
      OneEntryMore(s, u, ev, ev.op.id, name, ev.op.now, t, id);
    } else {
      NothingNew(s, u, ev, t, id);
    }
  }

  lemma KnownEitherWay(s: Store)
    requires WellFormed(s)
    ensures s.jobs.Keys == s.states.Keys
  {
  }

  lemma PromotionAgrees(s: Store, ev: Event, t: Tale, id: JobId)
    requires Granted(s, ev) && Agrees(s, t, id) && ev.op.GetDueScheduled?
    ensures Agrees(MemorySpec.Apply(s, ev.op, ev.out), Continued(t, ev, id), id)
  {
    hide PromoteAll;
    if id in s.jobs { PromotedHistory(s, ev.out.ids, ev.op.now, id); }
    assert PromoteAll(s, ev.out.ids, ev.op.now).jobs == s.jobs;
  }

  lemma ExpiryAgrees(s: Store, ev: Event, t: Tale, id: JobId)
    requires Granted(s, ev) && Agrees(s, t, id) && ev.op.RemoveExpired?
    ensures Agrees(MemorySpec.Apply(s, ev.op, ev.out), Continued(t, ev, id), id)
  {
    hide AllExpired;
  }

  lemma ResultRecord(s: Store, u: Store, ev: Event, t: Tale, id: JobId)
    requires Agrees(s, t, id) && WellFormed(u) && ev.op.SetJobResult? && ev.out.Done? && ev.op.id in s.jobs && u.states == s.states
    requires u.jobs == s.jobs[ev.op.id := s.jobs[ev.op.id].(result := Kept(ev.op.result))]
    ensures Agrees(u, Continued(t, ev, id), id)
  {
    hide Kept;
  }

  lemma ResultAgrees(s: Store, ev: Event, t: Tale, id: JobId)
    requires Granted(s, ev) && Agrees(s, t, id) && ev.op.SetJobResult?
    ensures Agrees(MemorySpec.Apply(s, ev.op, ev.out), Continued(t, ev, id), id)
  {
    hide Agrees, Continued, WellFormed;
    var u := MemorySpec.Apply(s, ev.op, ev.out);
    if ev.out.Done? { ResultRecord(s, u, ev, t, id); } else { NothingNew(s, u, ev, t, id); }
  }

  lemma OtherAgrees(s: Store, ev: Event, t: Tale, id: JobId)
    requires Granted(s, ev) && Agrees(s, t, id) && (ev.op.HeartbeatJob? || ev.op.AddContinuation?)
    ensures Agrees(MemorySpec.Apply(s, ev.op, ev.out), Continued(t, ev, id), id)
  {
    hide Agrees, Continued, WellFormed;
    NothingNew(s, MemorySpec.Apply(s, ev.op, ev.out), ev, t, id);
  }

  lemma StepAgrees(s: Store, ev: Event, t: Tale, id: JobId)
    requires Granted(s, ev) && Agrees(s, t, id)
    ensures Agrees(MemorySpec.Apply(s, ev.op, ev.out), Continued(t, ev, id), id)
  {
    hide MemorySpec.Apply, Continued, Agrees, MemorySpec.Allowed, WellFormed;
    match ev.op
    case Enqueue(_, _, _, _) => CreationAgrees(s, ev, t, id);
    case AddScheduled(_, _, _, _) => CreationAgrees(s, ev, t, id);
    case Dequeue(_, _) => DequeueAgrees(s, ev, t, id);
    case GetDueScheduled(_, _) => PromotionAgrees(s, ev, t, id);
    case RemoveExpired(_) => ExpiryAgrees(s, ev, t, id);
    case SetJobResult(_, _, _) => ResultAgrees(s, ev, t, id);
    case HeartbeatJob(_, _) => OtherAgrees(s, ev, t, id);
    case AddContinuation(_, _) => OtherAgrees(s, ev, t, id);
    case _ => MoveAgrees(s, ev, t, id);
  }

  // ----- runs -----

  /** The requests a step makes: an enqueue under a bound key makes none. */
  function Requests(w: World, step: Step): seq<Event> {
    match step
    case Do(ev) => [ev]
    case DoIdempotent(queue, id, job, key, now) =>
      if key != "" && key in w.store.idempotency then [] else [Event(Op.Enqueue(queue, id, job, now), Created(id))]
  }

  /** The log of a run. */
  ghost function Log(w: World, steps: seq<Step>): seq<Event>
    requires BasicRun(w, steps)
    decreases |steps|
  {
    if steps == [] then [] else Requests(w, steps[0]) + Log(Next(w, steps[0]), steps[1..])
  }

  lemma KeysDoNotMatter(s: Store, key: string, id: JobId, t: Tale, x: JobId)
    requires Agrees(s, t, x)
    ensures Agrees(s.(idempotency := s.idempotency[key := id]), t, x)
  {
  }

  lemma StepIsTold(w: World, step: Step, t: Tale, id: JobId)
    requires Permits(w, step) && Agrees(w.store, t, id)
    ensures Agrees(Next(w, step).store, Retold(t, Requests(w, step), id), id)
  {
    hide Agrees, Continued, EnqueueJob, WellFormed;
    NextIsTheStore(w, step);
    match step
    case Do(ev) => StepAgrees(w.store, ev, t, id);
    case DoIdempotent(queue, x, job, key, now) =>
      if !(key != "" && key in w.store.idempotency) {
        var ev := Event(Op.Enqueue(queue, x, job, now), Created(x));
        StepAgrees(w.store, ev, t, id);
        if key != "" { KeysDoNotMatter(MemorySpec.Apply(w.store, ev.op, ev.out), key, x, Continued(t, ev, id), id); }
      }
  }

  lemma {:induction false} RunIsTold(w: World, steps: seq<Step>, t: Tale, id: JobId)
    requires BasicRun(w, steps) && Agrees(w.store, t, id)
    ensures Agrees(RunTo(w, steps).store, Retold(t, Log(w, steps), id), id)
    decreases |steps|
  {
    hide Agrees, Continued, Next, Requests, WellFormed, MemorySpec.Allowed;
    if steps != [] {
      var next := Next(w, steps[0]);
      StepIsTold(w, steps[0], t, id);
      RunIsTold(next, steps[1..], Retold(t, Requests(w, steps[0]), id), id);
      RetoldInTwo(t, Requests(w, steps[0]), Log(next, steps[1..]), id);
    }
  }

  /** In every basic run from the empty store, the store holds of a job exactly what the
      log tells: nothing if it was never created or was erased, and else its name, queue
      and maximum, its result, and its states with their instants. */
  lemma MemoryTellsTheTale(steps: seq<Step>, id: JobId)
    requires BasicRun(START, steps)
    ensures Agrees(RunTo(START, steps).store, Told(Log(START, steps), id), id)
  {
    RunIsTold(START, steps, Untold, id);
  }

  /** Every request that names one job is answered as its tale says. */
  lemma AnswersAreTold(steps: seq<Step>, op: Op, out: Outcome)
    requires BasicRun(START, steps) && NamesOne(op) && MayAnswer(steps, op, out)
    ensures var t := Told(Log(START, steps), op.id);
      (t.Tale? ==> |t.history| > 0) && out == AnswerTo(t, op)
  {
    hide BasicRun, Log, RunTo, Told, MemorySpec.Apply;
    MemoryTellsTheTale(steps, op.id);
  }

  /** The bytes last stored for a job, or the first 65536 of them, are its result until
      it is erased. */
  lemma ResultIsKept(steps: seq<Step>, i: nat, id: JobId)
    requires BasicRun(START, steps) && i < |Log(START, steps)|
    requires SetsItsResult(Log(START, steps)[i], id) && Told(Log(START, steps)[..i], id).Tale?
    requires forall j :: i < j < |Log(START, steps)| ==> LeavesResult(Log(START, steps)[j], id)
    ensures var s, bytes := RunTo(START, steps).store, Log(START, steps)[i].op.result;
      id in s.jobs && s.jobs[id].result == if |bytes| <= 65536 then bytes else bytes[..65536]
  {
    MemoryTellsTheTale(steps, id);
    LastResultIsKept(Log(START, steps), i, id);
    hide BasicRun, Log, RunTo, Told;
  }

  /** The retention sweep erases exactly the jobs that succeeded, failed or were deleted,
      and did so before the cutoff: no other job, and none whose last state is younger. */
  lemma SweepIsRetention(steps: seq<Step>, cutoff: Time, out: Outcome, id: JobId)
    requires BasicRun(START, steps) && MayAnswer(steps, Op.RemoveExpired(cutoff), out)
    ensures out.Removed?
    ensures var t := Told(Log(START, steps), id);
      id in out.gone <==>
        && t.Tale? && |t.history| > 0 && Last(t.history).at < cutoff
        && (Last(t.history).name == Succeeded || Last(t.history).name == Failed || Last(t.history).name == Deleted)
  {
    hide BasicRun, Log, RunTo, Told, MemorySpec.Apply;
    MemoryTellsTheTale(steps, id);
  }

  /** The request may have this outcome after the run. */
  ghost predicate MayAnswer(steps: seq<Step>, op: Op, out: Outcome)
    requires BasicRun(START, steps)
  {
    Granted(RunTo(START, steps).store, Event(op, out))
  }

  // ----- heartbeats -----

  ghost predicate HearsOf(s: Store, last: Sign, id: JobId) {
    && (id in s.progress <==> last.Heard?) && (last.Heard? ==> s.progress[id] == last.at)
    && (id in s.processing ==> s.processing[id] == "local")
  }

  lemma {:induction false} PromotionIsSilent(s: Store, ids: seq<JobId>, now: Time)
    requires WellFormed(s) && forall x :: x in ids ==> x in s.jobs
    ensures PromoteAll(s, ids, now).progress == s.progress && PromoteAll(s, ids, now).processing == s.processing
  {
    if |ids| > 0 { PromotionIsSilent(s, ids[..|ids| - 1], now); }
  }

  lemma TakingIsHeard(s: Store, q: Queue, now: Time)
    requires WellFormed(s) && |QueueOf(s, q)| > 0
    ensures var head, t := QueueOf(s, q)[0], TakeFrom(s, q, now);
      if head in s.jobs then t.progress == s.progress[head := now] && t.processing == s.processing[head := "local"]
      else t.progress == s.progress && t.processing == s.processing
  {
  }

  lemma DequeueIsHeard(s: Store, ev: Event, last: Sign, id: JobId)
    requires Granted(s, ev) && HearsOf(s, last, id) && ev.op.Dequeue?
    ensures HearsOf(MemorySpec.Apply(s, ev.op, ev.out), SignAfter(last, ev, id), id)
  {
    hide WellFormed, TakeFrom, QueueOf;
    if !ev.out.Refused? {
      FirstHolds(s, ev.op.queues);
      TakingIsHeard(s, ev.op.queues[FirstNonEmpty(s.queues, ev.op.queues)], ev.op.now);
    }
  }

  lemma FirstHolds(s: Store, requested: seq<Queue>)
    requires FirstNonEmpty(s.queues, requested) < |requested|
    ensures |QueueOf(s, requested[FirstNonEmpty(s.queues, requested)])| > 0
  {
  }

  lemma MoveIsHeard(s: Store, ev: Event, last: Sign, id: JobId)
    requires Granted(s, ev) && HearsOf(s, last, id)
    requires ev.op.Requeue? || ev.op.ApplyState? || ev.op.ScheduleRetry? || ev.op.DeleteJob?
    ensures HearsOf(MemorySpec.Apply(s, ev.op, ev.out), SignAfter(last, ev, id), id)
  {
    hide WellFormed, Record, Push, Counted, Settled, Current;
  }

  lemma OtherIsHeard(s: Store, ev: Event, last: Sign, id: JobId)
    requires Granted(s, ev) && HearsOf(s, last, id)
    requires Creates(ev.op) || ev.op.RemoveExpired? || ev.op.SetJobResult? || ev.op.HeartbeatJob? || ev.op.AddContinuation?
    ensures HearsOf(MemorySpec.Apply(s, ev.op, ev.out), SignAfter(last, ev, id), id)
  {
    hide WellFormed, Push, AllExpired, Filled;
  }

  lemma StepIsHeard(s: Store, ev: Event, last: Sign, id: JobId)
    requires Granted(s, ev) && HearsOf(s, last, id)
    ensures HearsOf(MemorySpec.Apply(s, ev.op, ev.out), SignAfter(last, ev, id), id)
  {
    if ev.op.GetDueScheduled? {
      PromotionIsSilent(s, ev.out.ids, ev.op.now);
      hide PromoteAll;
    } else {
      hide MemorySpec.Apply, MemorySpec.Allowed, HearsOf, SignAfter, WellFormed;
      if ev.op.Dequeue? {
        DequeueIsHeard(s, ev, last, id);
      } else if ev.op.Requeue? || ev.op.ApplyState? || ev.op.ScheduleRetry? || ev.op.DeleteJob? {
        MoveIsHeard(s, ev, last, id);
      } else {
        OtherIsHeard(s, ev, last, id);
      }
    }
  }

  lemma StepSigns(w: World, step: Step, last: Sign, id: JobId)
    requires Permits(w, step) && HearsOf(w.store, last, id)
    ensures HearsOf(Next(w, step).store, LastSign(last, Requests(w, step), id), id)
  {
    hide SignAfter, EnqueueJob, WellFormed;
    NextIsTheStore(w, step);
    match step
    case Do(ev) => StepIsHeard(w.store, ev, last, id);
    case DoIdempotent(queue, x, job, key, now) =>
      if !(key != "" && key in w.store.idempotency) {
        StepIsHeard(w.store, Event(Op.Enqueue(queue, x, job, now), Created(x)), last, id);
      }
  }

  lemma {:induction false} RunSigns(w: World, steps: seq<Step>, last: Sign, id: JobId)
    requires BasicRun(w, steps) && HearsOf(w.store, last, id)
    ensures HearsOf(RunTo(w, steps).store, LastSign(last, Log(w, steps), id), id)
    decreases |steps|
  {
    hide HearsOf, SignAfter, Next, Requests, WellFormed, MemorySpec.Allowed;
    if steps != [] {
      var next := Next(w, steps[0]);
      StepSigns(w, steps[0], last, id);
      RunSigns(next, steps[1..], LastSign(last, Requests(w, steps[0]), id), id);
      SignInTwo(last, Requests(w, steps[0]), Log(next, steps[1..]), id);
    }
  }

  /** The orphan scan lists exactly the jobs whose last granted dequeue or heartbeat is
      older than the cutoff, unless they were deleted or erased since. */
  lemma ScanIsSilence(steps: seq<Step>, cutoff: Time, id: JobId)
    requires BasicRun(START, steps)
    ensures var last := LastSign(None, Log(START, steps), id);
      id in MemoryOrphans.Orphans(RunTo(START, steps).store, cutoff) <==> last.Heard? && last.at < cutoff
  {
    RunSigns(START, steps, None, id);
    hide BasicRun, Log, RunTo, LastSign;
  }

  /** A job that was heard of no longer ago than the stale age is in no orphan scan. */
  lemma HeardIsNoOrphan(steps: seq<Step>, i: nat, stale: Time, now: Time, id: JobId)
    requires BasicRun(START, steps) && i < |Log(START, steps)|
    requires IsSign(Log(START, steps)[i], id)
    requires forall j :: i <= j < |Log(START, steps)| && IsSign(Log(START, steps)[j], id) ==> now - stale <= Log(START, steps)[j].op.now
    ensures id !in MemoryOrphans.Orphans(RunTo(START, steps).store, now - stale)
  {
    hide BasicRun, Log, RunTo, LastSign, IsSign;
    ScanIsSilence(steps, now - stale, id);
    RecentSignIsLast(Log(START, steps), i, id, now - stale);
  }

  // ----- continuations -----

  ghost predicate Registers(s: Store, entries: seq<Continuation>, parent: JobId) {
    MR.Normals(Conts(s, parent)) == entries
  }

  lemma MoveKeepsConts(s: Store, ev: Event)
    requires Granted(s, ev) && (ev.op.Requeue? || ev.op.ApplyState? || ev.op.ScheduleRetry? || ev.op.DeleteJob?)
    ensures MemorySpec.Apply(s, ev.op, ev.out).continuations == s.continuations
  {
    hide WellFormed, Record, Push, Counted, Settled, Current;
  }

  lemma DequeueKeepsConts(s: Store, ev: Event)
    requires Granted(s, ev) && ev.op.Dequeue?
    ensures MemorySpec.Apply(s, ev.op, ev.out).continuations == s.continuations
  {
    hide WellFormed, Record;
  }

  lemma NewJobKeepsConts(s: Store, queue: Queue, id: JobId, job: Job, at: Time, now: Time)
    requires WellFormed(s)
    ensures EnqueueJob(s, queue, id, job, now).continuations == s.continuations
    ensures ScheduleJob(s, at, id, job, now).continuations == s.continuations
  {
    hide WellFormed, Push, Filled;
  }

  lemma CreationKeepsConts(s: Store, ev: Event)
    requires Granted(s, ev) && Creates(ev.op)
    ensures MemorySpec.Apply(s, ev.op, ev.out).continuations == s.continuations
  {
    hide WellFormed, EnqueueJob, ScheduleJob;
    NewJobKeepsConts(s, if ev.op.Enqueue? then ev.op.queue else 0, ev.op.id, ev.op.job, if ev.op.Enqueue? then 0 else ev.op.at, ev.op.now);
  }

  lemma WriteKeepsConts(s: Store, ev: Event)
    requires Granted(s, ev) && (ev.op.SetJobResult? || ev.op.HeartbeatJob?)
    ensures MemorySpec.Apply(s, ev.op, ev.out).continuations == s.continuations
  {
    hide WellFormed;
  }

  lemma {:induction false} PromotionKeepsConts(s: Store, ids: seq<JobId>, now: Time)
    requires WellFormed(s) && forall x :: x in ids ==> x in s.jobs
    ensures PromoteAll(s, ids, now).continuations == s.continuations
  {
    if |ids| > 0 { PromotionKeepsConts(s, ids[..|ids| - 1], now); }
  }

  lemma EntryIsRegistered(s: Store, ev: Event, entries: seq<Continuation>, parent: JobId)
    requires Granted(s, ev) && Registers(s, entries, parent) && (ev.op.AddContinuation? || ev.op.RemoveExpired?)
    ensures Registers(MemorySpec.Apply(s, ev.op, ev.out), RegisteredAfter(entries, ev, parent), parent)
  {
    hide WellFormed, AllExpired;
  }

  lemma NothingRegistered(s: Store, t: Store, ev: Event, entries: seq<Continuation>, parent: JobId)
    requires Granted(s, ev) && Registers(s, entries, parent) && t.continuations == s.continuations
    requires !ev.op.AddContinuation? && !ev.op.RemoveExpired?
    ensures Registers(t, RegisteredAfter(entries, ev, parent), parent)
  {
    hide WellFormed, MR.Normals;
  }

  lemma StepRegisters(s: Store, ev: Event, entries: seq<Continuation>, parent: JobId)
    requires Granted(s, ev) && Registers(s, entries, parent)
    ensures Registers(MemorySpec.Apply(s, ev.op, ev.out), RegisteredAfter(entries, ev, parent), parent)
  {
    hide MemorySpec.Apply, MemorySpec.Allowed, Registers, RegisteredAfter, WellFormed;
    if ev.op.AddContinuation? || ev.op.RemoveExpired? {
      EntryIsRegistered(s, ev, entries, parent);
    } else {
      if ev.op.GetDueScheduled? {
        TickKeepsConts(s, ev);
      } else if ev.op.Dequeue? {
        DequeueKeepsConts(s, ev);
      } else if ev.op.Requeue? || ev.op.ApplyState? || ev.op.ScheduleRetry? || ev.op.DeleteJob? {
        MoveKeepsConts(s, ev);
      } else if Creates(ev.op) {
        CreationKeepsConts(s, ev);
      } else {
        WriteKeepsConts(s, ev);
      }
      NothingRegistered(s, MemorySpec.Apply(s, ev.op, ev.out), ev, entries, parent);
    }
  }

  lemma TickKeepsConts(s: Store, ev: Event)
    requires Granted(s, ev) && ev.op.GetDueScheduled?
    ensures MemorySpec.Apply(s, ev.op, ev.out).continuations == s.continuations
  {
    hide PromoteAll;
    PromotionKeepsConts(s, ev.out.ids, ev.op.now);
  }

  lemma StepIsRegistered(w: World, step: Step, entries: seq<Continuation>, parent: JobId)
    requires Permits(w, step) && Registers(w.store, entries, parent)
    ensures Registers(Next(w, step).store, Registered(entries, Requests(w, step), parent), parent)
  {
    hide RegisteredAfter, EnqueueJob, WellFormed, MR.Normals;
    NextIsTheStore(w, step);
    match step
    case Do(ev) => StepRegisters(w.store, ev, entries, parent);
    case DoIdempotent(queue, x, job, key, now) =>
      if !(key != "" && key in w.store.idempotency) {
        StepRegisters(w.store, Event(Op.Enqueue(queue, x, job, now), Created(x)), entries, parent);
      }
  }

  lemma {:induction false} RunRegisters(w: World, steps: seq<Step>, entries: seq<Continuation>, parent: JobId)
    requires BasicRun(w, steps) && Registers(w.store, entries, parent)
    ensures Registers(RunTo(w, steps).store, Registered(entries, Log(w, steps), parent), parent)
    decreases |steps|
  {
    hide Registers, RegisteredAfter, Next, Requests, WellFormed, MemorySpec.Allowed;
    if steps != [] {
      var next := Next(w, steps[0]);
      StepIsRegistered(w, steps[0], entries, parent);
      RunRegisters(next, steps[1..], Registered(entries, Requests(w, steps[0]), parent), parent);
      RegisteredInTwo(entries, Requests(w, steps[0]), Log(next, steps[1..]), parent);
    }
  }

  /** The entries stored for a parent are those registered on it, in order, unless it was
      erased since; their queues are read with the default filled in. */
  lemma EntriesAreRegistered(steps: seq<Step>, parent: JobId)
    requires BasicRun(START, steps)
    ensures MR.Normals(Conts(RunTo(START, steps).store, parent)) == Registered([], Log(START, steps), parent)
  {
    RunRegisters(START, steps, [], parent);
    hide BasicRun, RunTo, Log, Registered;
  }
}
