/** Picking due jobs in the order of their due times, as ORDER BY enqueue_at LIMIT n
    and ZRANGEBYSCORE ... LIMIT 0 n do. */
module DueSelection {
  import opened Lifecycle
  import opened Protocol

  predicate IsDue(scheduled: map<JobId, Time>, now: Time, id: JobId) {
    id in scheduled && scheduled[id] <= now
  }

  const DEFAULT_BATCH := 100

  function Limit(batch: int): nat {
    if batch <= 0 then DEFAULT_BATCH else batch
  }

  /** Due ids, earliest first, at most `limit` of them, none skipped for a later one,
      and none left out while there is room. */
  ghost predicate EarliestDue(scheduled: map<JobId, Time>, now: Time, limit: nat, ids: seq<JobId>) {
    && Distinct(ids)
    && (forall i :: 0 <= i < |ids| ==> IsDue(scheduled, now, ids[i]))
    && (forall i, j :: 0 <= i < j < |ids| ==> scheduled[ids[i]] <= scheduled[ids[j]])
    && (forall i, x :: 0 <= i < |ids| && IsDue(scheduled, now, x) && x !in ids ==> scheduled[ids[i]] <= scheduled[x])
    && |ids| <= limit
    && (|ids| < limit ==> forall id :: IsDue(scheduled, now, id) ==> id in ids)
  }

  method SelectEarliest(scheduled: map<JobId, Time>, rest: set<JobId>) returns (id: JobId)
    requires rest != {} && rest <= scheduled.Keys
    ensures id in rest && forall x :: x in rest ==> scheduled[id] <= scheduled[x]
  {
    id :| id in rest;
    var todo := rest - {id};
    while todo != {}
      invariant todo <= rest && id in rest
      invariant forall x :: x in rest && x !in todo ==> scheduled[id] <= scheduled[x]
      decreases |todo|
    {
      var x :| x in todo;
      todo := todo - {x};
      if scheduled[x] < scheduled[id] {
        id := x;
      }
    }
  }

  method SelectDue(scheduled: map<JobId, Time>, now: Time, limit: nat) returns (due: seq<JobId>)
    ensures EarliestDue(scheduled, now, limit, due)
  {
    due := [];
    var rest := set id | id in scheduled && scheduled[id] <= now;
    while rest != {} && |due| < limit
      invariant rest <= scheduled.Keys
      invariant forall id :: IsDue(scheduled, now, id) <==> id in rest || id in due
      invariant forall id :: id in rest ==> id !in due
      invariant Distinct(due) && |due| <= limit
      invariant forall i :: 0 <= i < |due| ==> IsDue(scheduled, now, due[i])
      invariant forall i, j :: 0 <= i < j < |due| ==> scheduled[due[i]] <= scheduled[due[j]]
      invariant forall i, x :: 0 <= i < |due| && x in rest ==> scheduled[due[i]] <= scheduled[x]
      decreases |rest|
    {
      var id := SelectEarliest(scheduled, rest);
      rest := rest - {id};
      due := due + [id];
    }
  }
}
