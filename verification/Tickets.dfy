/** What the run of a ticket does to its job and to its continuations, said without the
    engine's own words: which states are entered and when, which result is kept, when the
    retry is due, and for which conditions a child is made. */
module Tickets {
  import opened Lifecycle
  import opened Protocol
  import opened MemorySpec
  import opened Engine
  import W = Workers
  import Backoff

  /** A processing job, and drawn ids that are new. */
  ghost predicate Ready(s: Store, id: JobId, ids: seq<JobId>) {
    && WellFormed(s) && id in s.jobs
    && |Conts(s, id)| <= |ids| && Distinct(ids) && forall k :: 0 <= k < |ids| ==> ids[k] !in s.jobs
  }

  // ----- store calls, one by one -----

  lemma MovedAt(s: Store, id: JobId, from: State, to: State, now: Time)
    requires WellFormed(s) && id in s.jobs
    ensures var r := Moved(s, id, from, to, now);
      && r.0.jobs == s.jobs && r.0.continuations == s.continuations && r.0.scheduled == s.scheduled && id in r.0.states
      && (Current(s, id) == from ==> r.1 == Ended(to) && r.0.states == s.states[id := s.states[id] + [Entry(to, now)]])
      && (Current(s, id) != from ==> r.1 == Broken && r.0 == s)
  {
    hide Counted;
  }

  lemma RetriedAt(s: Store, id: JobId, at: Time, now: Time)
    requires WellFormed(s) && id in s.jobs && Current(s, id) == Failed
    ensures var op := ScheduleRetry(id, at, now);
      && Answer(s, op).Done?
      && Served(s, op).jobs == s.jobs && Served(s, op).continuations == s.continuations
      && Served(s, op).states == s.states[id := s.states[id] + [Entry(Scheduled, now)]]
      && Served(s, op).scheduled == s.scheduled[id := at]
  {
  }

  lemma ResultAt(s: Store, id: JobId, result: seq<bv8>, now: Time)
    requires WellFormed(s) && id in s.jobs
    ensures var op := SetJobResult(id, result, now);
      && Answer(s, op).Done?
      && Served(s, op) == s.(jobs := s.jobs[id := s.jobs[id].(result := if |result| <= 65536 then result else result[..65536])])
  {
  }

  // ----- finalisation -----

  /** What happens to the job itself. */
  ghost predicate Comes(s: Store, t: Store, id: JobId, more: seq<Entry>, result: seq<bv8>) {
    && id in s.jobs && id in s.states && t.jobs == s.jobs[id := s.jobs[id].(result := result)]
    && t.states == s.states[id := s.states[id] + more]
    && t.continuations == s.continuations
  }

  lemma ComesThen(s: Store, m: Store, t: Store, id: JobId, first: Entry, second: Entry)
    requires id in s.jobs && Comes(s, m, id, [first], s.jobs[id].result) && Comes(m, t, id, [second], s.jobs[id].result)
    ensures Comes(s, t, id, [first, second], s.jobs[id].result)
  {
    assert s.states[id] + [first] + [second] == s.states[id] + [first, second];
  }

  lemma MovedComes(s: Store, id: JobId, from: State, to: State, now: Time)
    requires WellFormed(s) && id in s.jobs && Current(s, id) == from
    ensures var r := Moved(s, id, from, to, now);
      && r.1 == Ended(to) && r.0.scheduled == s.scheduled && Comes(s, r.0, id, [Entry(to, now)], s.jobs[id].result)
      && Current(r.0, id) == to
  {
    hide Moved;
    MovedAt(s, id, from, to, now);
    assert s.jobs == s.jobs[id := s.jobs[id].(result := s.jobs[id].result)];
  }

  lemma RetriedComes(s: Store, id: JobId, at: Time, now: Time)
    requires WellFormed(s) && id in s.jobs && Current(s, id) == Failed
    ensures var op := ScheduleRetry(id, at, now);
      && Answer(s, op).Done? && Served(s, op).scheduled == s.scheduled[id := at]
      && Comes(s, Served(s, op), id, [Entry(Scheduled, now)], s.jobs[id].result)
  {
    hide Answer, Served;
    RetriedAt(s, id, at, now);
    assert s.jobs == s.jobs[id := s.jobs[id].(result := s.jobs[id].result)];
  }

  lemma FailingComes(s: Store, id: JobId, attempt: nat, retryMax: int, jitter: int, now: Time)
    requires WellFormed(s) && id in s.jobs && Current(s, id) == Processing
    ensures var r, max := Failing(s, id, attempt, retryMax, jitter, now), if retryMax == 0 then 10 else retryMax;
      if attempt + 1 >= max then
        && r.1 == Ended(Dead) && Comes(s, r.0, id, [Entry(Failed, now), Entry(Dead, now)], s.jobs[id].result)
        && r.0.scheduled == s.scheduled
      else
        && r.1 == Retrying && Comes(s, r.0, id, [Entry(Failed, now), Entry(Scheduled, now)], s.jobs[id].result)
        && r.0.scheduled == s.scheduled[id := now + Backoff.RetryDelay(attempt, jitter)]
  {
    hide Moved, Answer, Served, Backoff.RetryDelay, Comes, Current, WellFormed;
    MovedComes(s, id, Processing, Failed, now);
    var failed := Moved(s, id, Processing, Failed, now).0;
    KeepsJob(s, failed, id, [Entry(Failed, now)]);
    if attempt + 1 >= (if retryMax == 0 then 10 else retryMax) {
      MovedComes(failed, id, Failed, Dead, now);
      ComesThen(s, failed, Moved(failed, id, Failed, Dead, now).0, id, Entry(Failed, now), Entry(Dead, now));
    } else {
      var at := now + Backoff.RetryDelay(attempt, jitter);
      RetriedComes(failed, id, at, now);
      ComesThen(s, failed, Served(failed, ScheduleRetry(id, at, now)), id, Entry(Failed, now), Entry(Scheduled, now));
    }
  }

  lemma KeepsJob(s: Store, t: Store, id: JobId, more: seq<Entry>)
    requires id in s.jobs && Comes(s, t, id, more, s.jobs[id].result)
    ensures id in t.jobs && t.jobs[id] == s.jobs[id]
  {
  }

  lemma SucceedingComes(s: Store, id: JobId, result: seq<bv8>, now: Time)
    requires WellFormed(s) && id in s.jobs && Current(s, id) == Processing
    ensures var r := Succeeding(s, id, result, now);
      && r.1 == Ended(Succeeded) && r.0.scheduled == s.scheduled
      && Comes(s, r.0, id, [Entry(Succeeded, now)],
               if |result| == 0 then s.jobs[id].result else if |result| <= 65536 then result else result[..65536])
  {
    MovedAt(s, id, Processing, Succeeded, now);
    ResultAt(s, id, result, now);
    var kept := Served(s, SetJobResult(id, result, now));
    assert Current(kept, id) == Current(s, id);
    MovedAt(kept, id, Processing, Succeeded, now);
    hide Moved, Answer, Served, WellFormed;
    assert s.jobs == s.jobs[id := s.jobs[id].(result := s.jobs[id].result)];
  }

  lemma InterruptedComes(s: Store, id: JobId, now: Time)
    requires WellFormed(s) && id in s.jobs && Current(s, id) == Processing
    ensures var r := Moved(s, id, Processing, Cancelled, now);
      && r.1 == Ended(Cancelled) && r.0.scheduled == s.scheduled
      && Comes(s, r.0, id, [Entry(Cancelled, now)], s.jobs[id].result)
  {
    MovedAt(s, id, Processing, Cancelled, now);
    assert s.jobs == s.jobs[id := s.jobs[id].(result := s.jobs[id].result)];
    hide Moved;
  }

  // ----- the whole ticket -----

  /** The states a processing job enters, from the failures it has had. */
  function Entered(verdict: W.Verdict, failures: nat, retryMax: int, now: Time): seq<Entry> {
    match verdict
    case Success(_) => [Entry(Succeeded, now)]
    case Interrupted => [Entry(Cancelled, now)]
    case Failure =>
      if failures + 1 >= (if retryMax == 0 then 10 else retryMax)
      then [Entry(Failed, now), Entry(Dead, now)] else [Entry(Failed, now), Entry(Scheduled, now)]
  }

  function ResultOf(verdict: W.Verdict, before: seq<bv8>): seq<bv8> {
    if verdict.Success? && |verdict.result| > 0
    then if |verdict.result| <= 65536 then verdict.result else verdict.result[..65536]
    else before
  }

  lemma FinalizedComes(s: Store, id: JobId, attempt: nat, retryMax: int, verdict: W.Verdict, jitter: int, now: Time)
    requires WellFormed(s) && id in s.jobs && Current(s, id) == Processing
    ensures var r, more := Finalized(s, id, attempt, retryMax, verdict, jitter, now), Entered(verdict, attempt, retryMax, now);
      && r.1 == (if Last(more).name == Scheduled then Retrying else Ended(Last(more).name))
      && Comes(s, r.0, id, more, ResultOf(verdict, s.jobs[id].result))
      && r.0.scheduled == if Last(more).name == Scheduled then s.scheduled[id := now + Backoff.RetryDelay(attempt, jitter)] else s.scheduled
  {
    hide Moved, Failing, Succeeding, Backoff.RetryDelay, Comes, WellFormed, Current;
    match verdict
    case Success(result) => SucceedingComes(s, id, result, now);
    case Failure => FailingComes(s, id, attempt, retryMax, jitter, now);
    case Interrupted => InterruptedComes(s, id, now);
  }

  lemma FiringLeaves(s: Store, parent: JobId, state: State, ids: seq<JobId>, now: Time, x: JobId)
    requires WellFormed(s) && |Conts(s, parent)| <= |ids| && (forall k :: 0 <= k < |ids| ==> ids[k] !in s.jobs) && x in s.jobs
    ensures var t := Fired(s, parent, state, ids, now);
      x in t.jobs && t.jobs[x] == s.jobs[x] && x in s.states && x in t.states && t.states[x] == s.states[x]
  {
    if parent in s.jobs {
      FiringAddsOnlyChildren(s, Conts(s, parent), |Conts(s, parent)|, state, ids, now, x);
    }
    hide FirePrefix;
  }

  lemma {:induction false} FiringKeepsSchedule(s: Store, entries: seq<Continuation>, n: nat, state: State, ids: seq<JobId>, now: Time)
    requires WellFormed(s) && n <= |entries| <= |ids|
    ensures FirePrefix(s, entries, n, state, ids, now).scheduled == s.scheduled
  {
    if n > 0 { FiringKeepsSchedule(s, entries, n - 1, state, ids, now); }
  }

  lemma ProcessedIs(s: Store, id: JobId, verdict: W.Verdict, jitter: int, ids: seq<JobId>, now: Time)
    requires Ready(s, id, ids)
    ensures id in s.states
    ensures var r := Finalized(s, id, Count(Names(s.states[id]), Failed), s.jobs[id].retryMax, verdict, jitter, now);
      && |Conts(r.0, id)| <= |ids|
      && Processed(s, id, verdict, jitter, ids, now) == if r.1.Ended? then Fired(r.0, id, r.1.state, ids, now) else r.0
  {
    ContsStay(s, id, Count(Names(s.states[id]), Failed), s.jobs[id].retryMax, verdict, jitter, now);
    hide Finalized, Fired, Count;
  }

  /** The ticket of a processing job that failed k times: success ends it as Succeeded, a
      cancellation as Cancelled, and a failure as Dead exactly if k + 1 reaches the
      maximum, zero meaning ten; otherwise its retry is due after the delay of attempt k and
      the jitter drawn.
      Its result is the handler's, cut at 65536 bytes; every other job stays as it was. */
  lemma TicketOutcome(s: Store, id: JobId, verdict: W.Verdict, jitter: int, ids: seq<JobId>, now: Time, x: JobId)
    requires Ready(s, id, ids) && Current(s, id) == Processing && x in s.jobs
    ensures id in s.states && x in s.states
    ensures var k := Count(Names(s.states[id]), Failed);
      var t, more := Processed(s, id, verdict, jitter, ids, now), Entered(verdict, k, s.jobs[id].retryMax, now);
      && x in t.jobs && x in t.states
      && (x == id ==>
            t.states[x] == s.states[x] + more && t.jobs[x] == s.jobs[x].(result := ResultOf(verdict, s.jobs[x].result)))
      && (x != id ==> t.states[x] == s.states[x] && t.jobs[x] == s.jobs[x])
      && t.scheduled == if Last(more).name == Scheduled then s.scheduled[id := now + Backoff.BaseDelay(k) + jitter] else s.scheduled
  {
    hide Finalized, Entered, ResultOf, Backoff.RetryDelay, Backoff.BaseDelay, Count, Processed, FirePrefix, Current;
    var k := Count(Names(s.states[id]), Failed);
    var r := Finalized(s, id, k, s.jobs[id].retryMax, verdict, jitter, now);
    FinalizedComes(s, id, k, s.jobs[id].retryMax, verdict, jitter, now);
    ProcessedIs(s, id, verdict, jitter, ids, now);
    JitterIsAdded(k, jitter);
    if r.1.Ended? {
      FiringLeaves(r.0, id, r.1.state, ids, now, x);
      FiringKeepsSchedule(r.0, Conts(r.0, id), |Conts(r.0, id)|, r.1.state, ids, now);
    }
  }

  lemma JitterIsAdded(attempt: nat, jitter: int)
    ensures Backoff.RetryDelay(attempt, jitter) == Backoff.BaseDelay(attempt) + jitter
  {
  }

  /** Which entries have a child afterwards: after Succeeded those on OnSucceeded and
      OnAny, after Dead those on OnFailed and OnAny, after Cancelled those on OnAny, and
      none while a retry is scheduled. The child has the entry's name and queue, ten
      retries, and is freshly enqueued. */
  lemma TicketFires(s: Store, id: JobId, verdict: W.Verdict, jitter: int, ids: seq<JobId>, now: Time, i: nat)
    requires Ready(s, id, ids) && Current(s, id) == Processing && i < |Conts(s, id)|
    ensures id in s.states
    ensures var entry, end := Conts(s, id)[i], Last(Entered(verdict, Count(Names(s.states[id]), Failed), s.jobs[id].retryMax, now)).name;
      var t := Processed(s, id, verdict, jitter, ids, now);
      && (ids[i] in t.jobs <==>
            || (end == Succeeded && (entry.condition == "OnSucceeded" || entry.condition == "OnAny"))
            || (end == Dead && (entry.condition == "OnFailed" || entry.condition == "OnAny"))
            || (end == Cancelled && entry.condition == "OnAny"))
      && (ids[i] in t.jobs ==>
            && t.jobs[ids[i]] == Job(entry.childName, QueueOrDefault(entry.childQueue), 10, [])
            && ids[i] in t.states && t.states[ids[i]] == [Entry(Enqueued, now)])
  {
    hide Finalized, ResultOf, Backoff.RetryDelay, Count, Processed, FirePrefix, Current;
    var k := Count(Names(s.states[id]), Failed);
    var r := Finalized(s, id, k, s.jobs[id].retryMax, verdict, jitter, now);
    FinalizedComes(s, id, k, s.jobs[id].retryMax, verdict, jitter, now);
    ProcessedIs(s, id, verdict, jitter, ids, now);
    assert r.0.jobs.Keys == s.jobs.Keys && Conts(r.0, id) == Conts(s, id);
    if r.1.Ended? {
      FiringCreatesEachChild(r.0, Conts(r.0, id), |Conts(r.0, id)|, r.1.state, ids, now, i);
    }
  }

  /** The ticket of a job that is no longer processing enters no state and fires nothing;
      but a result handed in is stored before anybody looks. */
  lemma LateTicket(s: Store, id: JobId, verdict: W.Verdict, jitter: int, ids: seq<JobId>, now: Time)
    requires Ready(s, id, ids) && Current(s, id) != Processing
    ensures Processed(s, id, verdict, jitter, ids, now)
      == s.(jobs := s.jobs[id := s.jobs[id].(result := ResultOf(verdict, s.jobs[id].result))])
  {
    ProcessedIs(s, id, verdict, jitter, ids, now);
    MovedAt(s, id, Processing, Failed, now);
    MovedAt(s, id, Processing, Cancelled, now);
    MovedAt(s, id, Processing, Succeeded, now);
    assert s.jobs == s.jobs[id := s.jobs[id].(result := s.jobs[id].result)];
    if verdict.Success? && |verdict.result| > 0 {
      ResultAt(s, id, verdict.result, now);
      var kept := Served(s, SetJobResult(id, verdict.result, now));
      MovedAt(kept, id, Processing, Succeeded, now);
    }
    hide Moved, Served, Answer, Fired, Count;
  }
}
