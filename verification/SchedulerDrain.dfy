/** How fast the scheduler empties a backlog: n due jobs are promoted by exactly
    ceil(n / batch) ticks, in whatever order a backend picks them. */
module SchedulerDrain {
  import opened Lifecycle
  import opened Protocol
  import opened DueSelection
  import M = MemorySpec
  import P = PostgresSpec
  import R = RedisSpec

  function Due(scheduled: map<JobId, Time>, now: Time): set<JobId> {
    set id | id in scheduled && scheduled[id] <= now
  }

  /** What every backend promises of one tick: due jobs only, each once, at most a
      batch, and all of them while the batch has room. */
  ghost predicate Takes(scheduled: map<JobId, Time>, now: Time, batch: nat, ids: seq<JobId>) {
    && Distinct(ids)
    && (forall id :: id in ids ==> id in Due(scheduled, now))
    && |ids| <= batch
    && (|ids| < batch ==> forall id :: id in Due(scheduled, now) ==> id in ids)
  }

  function Elements(ids: seq<JobId>): set<JobId> {
    set id | id in ids
  }

  lemma {:induction false} DistinctSize(ids: seq<JobId>)
    requires Distinct(ids)
    ensures |Elements(ids)| == |ids|
  {
    if |ids| > 0 {
      DistinctFront(ids);
      DistinctSize(ids[..|ids| - 1]);
      assert Elements(ids) == Elements(ids[..|ids| - 1]) + {Last(ids)};
    }
  }

  function Left(n: nat, batch: nat): nat {
    if n <= batch then 0 else n - batch
  }

  lemma SmallerSet(a: set<JobId>, b: set<JobId>)
    requires a <= b
    ensures |a| <= |b| && |b - a| == |b| - |a|
  {
    assert b == a + (b - a);
  }

  /** One tick takes exactly a batch, or what is left. */
  lemma TickTakesABatch(scheduled: map<JobId, Time>, now: Time, batch: nat, ids: seq<JobId>)
    requires Takes(scheduled, now, batch, ids)
    ensures |Due(scheduled - Elements(ids), now)| == Left(|Due(scheduled, now)|, batch)
  {
    DistinctSize(ids);
    SmallerSet(Elements(ids), Due(scheduled, now));
    assert Due(scheduled - Elements(ids), now) == Due(scheduled, now) - Elements(ids);
    if |ids| < batch { assert Elements(ids) == Due(scheduled, now); }
  }

  // ----- the backends -----

  lemma {:induction false} MemoryPromotes(s: M.Store, ids: seq<JobId>, now: Time)
    requires M.WellFormed(s) && forall id :: id in ids ==> id in s.jobs
    ensures M.PromoteAll(s, ids, now).scheduled == s.scheduled - Elements(ids)
  {
    if |ids| > 0 {
      var front, id := ids[..|ids| - 1], Last(ids);
      MemoryPromotes(s, front, now);
      assert Elements(ids) == Elements(front) + {id};
      assert s.scheduled - Elements(front) - {id} == s.scheduled - (Elements(front) + {id});
    } else {
      assert s.scheduled - {} == s.scheduled;
    }
  }

  lemma MemoryTick(s: M.Store, now: Time, batch: int, out: Outcome)
    requires M.WellFormed(s) && batch > 0 && M.Allowed(s, GetDueScheduled(now, batch), out)
    ensures Takes(s.scheduled, now, batch, out.ids)
    ensures M.Apply(s, GetDueScheduled(now, batch), out).scheduled == s.scheduled - Elements(out.ids)
  {
    MemoryPromotes(s, out.ids, now);
    hide M.PromoteAll;
  }

  lemma EarliestTakes(scheduled: map<JobId, Time>, now: Time, limit: nat, ids: seq<JobId>)
    requires EarliestDue(scheduled, now, limit, ids)
    ensures Takes(scheduled, now, limit, ids)
  {
    forall id | id in ids ensures id in Due(scheduled, now) {
      var i :| 0 <= i < |ids| && ids[i] == id;
      assert IsDue(scheduled, now, ids[i]);
    }
    forall id | |ids| < limit && id in Due(scheduled, now) ensures id in ids {
      assert IsDue(scheduled, now, id);
    }
  }

  lemma PostgresTick(s: P.Tables, now: Time, batch: int, out: Outcome)
    requires P.Rows(s) && P.Allowed(s, GetDueScheduled(now, batch), out)
    ensures Takes(s.scheduled, now, Limit(batch), out.ids)
    ensures P.Apply(s, GetDueScheduled(now, batch), out).scheduled == s.scheduled - Elements(out.ids)
  {
    EarliestTakes(s.scheduled, now, Limit(batch), out.ids);
  }

  lemma {:induction false} RedisPromotes(k: R.Keys, ids: seq<JobId>, now: Time)
    ensures R.PromoteAll(k, ids, now).scheduled == k.scheduled - Elements(ids)
  {
    if |ids| > 0 {
      var front, id := ids[..|ids| - 1], Last(ids);
      RedisPromotes(k, front, now);
      assert Elements(ids) == Elements(front) + {id};
      assert k.scheduled - Elements(front) - {id} == k.scheduled - (Elements(front) + {id});
    } else {
      assert k.scheduled - {} == k.scheduled;
    }
  }

  lemma RedisTick(k: R.Keys, now: Time, batch: int, out: Outcome, t: R.Keys)
    requires R.Step(k, Event(GetDueScheduled(now, batch), out), t)
    ensures exists ids :: Takes(k.scheduled, now, Limit(batch), ids) && t.scheduled == k.scheduled - Elements(ids)
  {
    var picked :| EarliestDue(k.scheduled, now, Limit(batch), picked) && t == R.PromoteAll(k, picked, now);
    EarliestTakes(k.scheduled, now, Limit(batch), picked);
    RedisPromotes(k, picked, now);
  }

  /** Over the tables a job is never promoted while one that is due earlier is left, and
      the tickets come in the order of their due times; a batch that is not positive means
      a hundred. */
  lemma PostgresTickIsFair(s: P.Tables, now: Time, batch: int, out: Outcome, x: JobId)
    requires P.Rows(s) && P.Allowed(s, GetDueScheduled(now, batch), out) && x in s.scheduled && s.scheduled[x] <= now && x !in out.ids
    ensures forall i :: 0 <= i < |out.ids| ==> out.ids[i] in s.scheduled && s.scheduled[out.ids[i]] <= s.scheduled[x]
    ensures forall i, j :: 0 <= i < j < |out.ids| ==> s.scheduled[out.ids[i]] <= s.scheduled[out.ids[j]]
    ensures |out.ids| == if batch <= 0 then 100 else batch
  {
    assert IsDue(s.scheduled, now, x);
  }

  lemma RedisTickIsFair(k: R.Keys, now: Time, batch: int, out: Outcome, t: R.Keys, x: JobId)
    requires R.Step(k, Event(GetDueScheduled(now, batch), out), t)
    requires x in k.scheduled && k.scheduled[x] <= now && x in t.scheduled
    ensures forall y :: y in k.scheduled && y !in t.scheduled ==> k.scheduled[y] <= k.scheduled[x]
    ensures |k.scheduled.Keys - t.scheduled.Keys| == if batch <= 0 then 100 else batch
  {
    var picked :| EarliestDue(k.scheduled, now, Limit(batch), picked) && t == R.PromoteAll(k, picked, now);
    RedisPromotes(k, picked, now);
    DistinctSize(picked);
    assert IsDue(k.scheduled, now, x);
    forall y | y in k.scheduled && y !in t.scheduled ensures k.scheduled[y] <= k.scheduled[x] {
      var i :| 0 <= i < |picked| && picked[i] == y;
    }
    forall y | y in picked ensures y in k.scheduled {
      var i :| 0 <= i < |picked| && picked[i] == y;
      assert IsDue(k.scheduled, now, picked[i]);
    }
    assert k.scheduled.Keys - t.scheduled.Keys == Elements(picked);
  }

  // ----- whole drains -----

  /** A schedule emptied tick by tick; nothing arrives, and nothing else falls due. */
  ghost predicate Drains(schedules: seq<map<JobId, Time>>, now: Time, batch: nat) {
    forall i :: 0 <= i < |schedules| - 1 ==> TickLeads(schedules[i], schedules[i + 1], now, batch)
  }

  ghost predicate TickLeads(before: map<JobId, Time>, after: map<JobId, Time>, now: Time, batch: nat) {
    exists ids, at ::
      Takes(before, at, batch, ids) && Due(before, at) == Due(before, now) && after == before - Elements(ids)
  }

  /** After k ticks max(0, n - k batch) of the n due jobs are left. */
  lemma {:induction false} DrainCount(schedules: seq<map<JobId, Time>>, now: Time, batch: nat, k: nat)
    requires Drains(schedules, now, batch) && k < |schedules|
    ensures |Due(schedules[k], now)| == Left(|Due(schedules[0], now)|, k * batch)
  {
    if k > 0 {
      DrainCount(schedules, now, batch, k - 1);
      assert TickLeads(schedules[k - 1], schedules[k - 1 + 1], now, batch);
      var ids, at :| Takes(schedules[k - 1], at, batch, ids)
        && Due(schedules[k - 1], at) == Due(schedules[k - 1], now) && schedules[k] == schedules[k - 1] - Elements(ids);
      TickTakesABatch(schedules[k - 1], at, batch, ids);
      assert Due(schedules[k - 1] - Elements(ids), now) == Due(schedules[k - 1], now) - Elements(ids);
      assert Due(schedules[k - 1] - Elements(ids), at) == Due(schedules[k - 1], at) - Elements(ids);
      assert k * batch == (k - 1) * batch + batch;
    }
  }

  function Ceiling(n: nat, d: nat): nat
    requires d > 0
  {
    (n + d - 1) / d
  }

  lemma CeilingIsLeast(n: nat, d: nat, k: nat)
    requires d > 0
    ensures k * d >= n <==> k >= Ceiling(n, d)
  {
    var c := Ceiling(n, d);
    assert c * d >= n && (c > 0 ==> (c - 1) * d < n);
    if k >= c { assert k * d >= c * d; } else { assert k * d <= (c - 1) * d; }
  }

  /** The backlog is gone after ceil(n / batch) ticks, and not a tick earlier. */
  lemma DrainedExactly(schedules: seq<map<JobId, Time>>, now: Time, batch: nat, k: nat)
    requires Drains(schedules, now, batch) && k < |schedules| && batch > 0
    ensures Due(schedules[k], now) == {} <==> k >= Ceiling(|Due(schedules[0], now)|, batch)
  {
    DrainCount(schedules, now, batch, k);
    CeilingIsLeast(|Due(schedules[0], now)|, batch, k);
    hide Ceiling, Due;
  }

  // ----- the drain inside a run -----

  /** Requests that neither add to the schedule nor erase from it. */
  predicate NoArrival(op: Op) {
    !op.AddScheduled? && !op.ScheduleRetry? && !op.RemoveExpired? && !op.GetDueScheduled?
  }

  /** A run of the memory store from s to t with so many ticks of the scheduler, all at
      instants at which the same jobs are due. */
  ghost predicate QuietRun(s: M.Store, evs: seq<Event>, now: Time, batch: nat, ticks: nat, t: M.Store)
    requires M.WellFormed(s)
    decreases |evs|
  {
    if |evs| == 0 then ticks == 0 && t == s else
    && M.Allowed(s, evs[0].op, evs[0].out)
    && (NoArrival(evs[0].op)
        || (evs[0].op.GetDueScheduled? && evs[0].op.batch == batch && Due(s.scheduled, evs[0].op.now) == Due(s.scheduled, now)))
    && (evs[0].op.GetDueScheduled? ==> ticks > 0)
    && QuietRun(M.Apply(s, evs[0].op, evs[0].out), evs[1..], now, batch, if evs[0].op.GetDueScheduled? then ticks - 1 else ticks, t)
  }

  lemma DequeueKeepsSchedule(s: M.Store, ev: Event)
    requires M.WellFormed(s) && M.Allowed(s, ev.op, ev.out) && ev.op.Dequeue?
    ensures M.Apply(s, ev.op, ev.out).scheduled == s.scheduled
  {
  }

  lemma MoveKeepsSchedule(s: M.Store, ev: Event)
    requires M.WellFormed(s) && M.Allowed(s, ev.op, ev.out)
    requires ev.op.ApplyState? || ev.op.Requeue? || ev.op.DeleteJob?
    ensures M.Apply(s, ev.op, ev.out).scheduled == s.scheduled
  {
  }

  lemma WriteKeepsSchedule(s: M.Store, ev: Event)
    requires M.WellFormed(s) && M.Allowed(s, ev.op, ev.out)
    requires ev.op.Enqueue? || ev.op.SetJobResult? || ev.op.HeartbeatJob? || ev.op.AddContinuation?
    ensures M.Apply(s, ev.op, ev.out).scheduled == s.scheduled
  {
  }

  lemma OthersKeepSchedule(s: M.Store, ev: Event)
    requires M.WellFormed(s) && M.Allowed(s, ev.op, ev.out) && NoArrival(ev.op)
    ensures M.Apply(s, ev.op, ev.out).scheduled == s.scheduled
  {
    hide M.Apply, M.Allowed, M.WellFormed;
    if ev.op.Dequeue? {
      DequeueKeepsSchedule(s, ev);
    } else if ev.op.ApplyState? || ev.op.Requeue? || ev.op.DeleteJob? {
      MoveKeepsSchedule(s, ev);
    } else {
      WriteKeepsSchedule(s, ev);
    }
  }

  lemma QuietTick(s: M.Store, ev: Event, now: Time, batch: nat)
    requires M.WellFormed(s) && M.Allowed(s, ev.op, ev.out) && batch > 0
    requires ev.op.GetDueScheduled? && ev.op.batch == batch && Due(s.scheduled, ev.op.now) == Due(s.scheduled, now)
    ensures |Due(M.Apply(s, ev.op, ev.out).scheduled, now)| == Left(|Due(s.scheduled, now)|, batch)
  {
    MemoryTick(s, ev.op.now, batch, ev.out);
    hide M.Apply, M.Allowed, M.WellFormed;
    TickTakesABatch(s.scheduled, ev.op.now, batch, ev.out.ids);
    assert Due(s.scheduled - Elements(ev.out.ids), now) == Due(s.scheduled, now) - Elements(ev.out.ids);
    assert Due(s.scheduled - Elements(ev.out.ids), ev.op.now) == Due(s.scheduled, ev.op.now) - Elements(ev.out.ids);
  }

  /** Whatever else the memory store serves meanwhile, k ticks of the scheduler promote
      k batches: none of the n jobs due at the start is left exactly from tick
      ceil(n / batch) on. */
  lemma {:induction false} MemoryDrains(s: M.Store, evs: seq<Event>, now: Time, batch: nat, ticks: nat, t: M.Store)
    requires M.WellFormed(s) && QuietRun(s, evs, now, batch, ticks, t) && batch > 0
    ensures |Due(t.scheduled, now)| == Left(|Due(s.scheduled, now)|, ticks * batch)
    ensures Due(t.scheduled, now) == {} <==> ticks >= Ceiling(|Due(s.scheduled, now)|, batch)
    decreases |evs|
  {
    hide Due, Ceiling, M.Apply, M.Allowed, M.WellFormed;
    if |evs| > 0 {
      var next, left := M.Apply(s, evs[0].op, evs[0].out), if evs[0].op.GetDueScheduled? then ticks - 1 else ticks;
      if evs[0].op.GetDueScheduled? {
        QuietTick(s, evs[0], now, batch);
        assert ticks * batch == left * batch + batch;
      } else {
        OthersKeepSchedule(s, evs[0]);
      }
      MemoryDrains(next, evs[1..], now, batch, left, t);
    }
    CeilingIsLeast(|Due(s.scheduled, now)|, batch, ticks);
  }
}
