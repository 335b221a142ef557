/** What requests mean, told from their log alone. The tale of a job is what was asked
    of it and granted: the job as it was handed in, the result last stored, and one
    dated entry for every state it entered. No backend occurs in it; each backend is
    proved to hold exactly what the log tells. */
module Chronicle {
  import opened Lifecycle
  import opened Protocol

  datatype Given = NoResult | Result(bytes: seq<bv8>)

  datatype Tale = Untold | Tale(job: Job, result: Given, history: seq<Entry>)

  /** The first 64 KiB of a result are kept. */
  function Kept(result: seq<bv8>): seq<bv8> {
    if |result| <= 65536 then result else result[..65536]
  }

  datatype Change = Unchanged | Entered(state: State, at: Time)

  /** The state that a granted request puts the job into, and when. */
  function ChangeOf(ev: Event, id: JobId): Change {
    match ev.op
    case Dequeue(_, now) => if ev.out == Ticket(id) then Entered(Processing, now) else Unchanged
    case GetDueScheduled(now, _) => if ev.out.Promoted? && id in ev.out.ids then Entered(Enqueued, now) else Unchanged
    case Requeue(x, now) => if x == id && ev.out.Done? then Entered(Enqueued, now) else Unchanged
    case ApplyState(x, _, next, now) => if x == id && ev.out.Done? then Entered(next, now) else Unchanged
    case ScheduleRetry(x, _, now) => if x == id && ev.out.Done? then Entered(Scheduled, now) else Unchanged
    case DeleteJob(x, now) => if x == id && ev.out.Done? then Entered(Deleted, now) else Unchanged
    case _ => Unchanged
  }

  predicate CreatesIt(ev: Event, id: JobId) {
    Creates(ev.op) && ev.op.id == id && ev.out == Created(id)
  }

  predicate ErasesIt(ev: Event, id: JobId) {
    ev.out.Removed? && id in ev.out.gone
  }

  predicate SetsItsResult(ev: Event, id: JobId) {
    ev.op.SetJobResult? && ev.op.id == id && ev.out.Done?
  }

  function Continued(t: Tale, ev: Event, id: JobId): Tale {
    if CreatesIt(ev, id) then
      Tale(ev.op.job, NoResult, [Entry(if ev.op.Enqueue? then Enqueued else Scheduled, ev.op.now)])
    else if t.Untold? || ErasesIt(ev, id) then Untold
    else if SetsItsResult(ev, id) then t.(result := Result(Kept(ev.op.result)))
    else
      match ChangeOf(ev, id)
      case Entered(state, at) => t.(history := t.history + [Entry(state, at)])
      case Unchanged => t
  }

  function Retold(t: Tale, evs: seq<Event>, id: JobId): Tale
    decreases |evs|
  {
    if |evs| == 0 then t else Retold(Continued(t, evs[0], id), evs[1..], id)
  }

  function Told(evs: seq<Event>, id: JobId): Tale {
    Retold(Untold, evs, id)
  }

  lemma {:induction false} RetoldInTwo(t: Tale, first: seq<Event>, second: seq<Event>, id: JobId)
    ensures Retold(t, first + second, id) == Retold(Retold(t, first, id), second, id)
    decreases |first|
  {
    if |first| == 0 {
      assert first + second == second;
    } else {
      assert (first + second)[1..] == first[1..] + second;
      RetoldInTwo(Continued(t, first[0], id), first[1..], second, id);
    }
  }

  // ----- answers -----

  /** The requests that name one job and have one answer. */
  predicate NamesOne(op: Op) {
    op.Requeue? || op.DeleteJob? || op.ApplyState? || op.ScheduleRetry? || op.SetJobResult? || op.HeartbeatJob?
  }

  /** What such a request is answered, by the tale of the job it names. */
  function AnswerTo(t: Tale, op: Op): Outcome
    requires NamesOne(op) && (t.Tale? ==> |t.history| > 0)
  {
    if t.Untold? then Refused(NotFound) else
    var state := Last(t.history).name;
    if op.Requeue? || op.DeleteJob? then
      if state == Succeeded || state == Dead || state == Cancelled || state == Deleted then Refused(TerminalState) else Done
    else if op.ApplyState? then if state == op.expected then Done else Refused(StateConflict)
    else if op.ScheduleRetry? then if state == Failed then Done else Refused(StateConflict)
    else Done
  }

  // ----- results -----

  predicate LeavesResult(ev: Event, id: JobId) {
    !CreatesIt(ev, id) && !ErasesIt(ev, id) && !SetsItsResult(ev, id)
  }

  lemma {:induction false} ResultStays(t: Tale, evs: seq<Event>, id: JobId)
    requires t.Tale? && forall i :: 0 <= i < |evs| ==> LeavesResult(evs[i], id)
    ensures Retold(t, evs, id).Tale? && Retold(t, evs, id).result == t.result && Retold(t, evs, id).job == t.job
    decreases |evs|
  {
    if |evs| > 0 {
      assert LeavesResult(evs[0], id);
      ResultStays(Continued(t, evs[0], id), evs[1..], id);
    }
  }

  /** A stored result is the bytes that were handed in, or the first 65536 of them, and
      stays so until it is stored again or the job is erased. */
  lemma LastResultIsKept(evs: seq<Event>, i: nat, id: JobId)
    requires i < |evs| && SetsItsResult(evs[i], id) && Told(evs[..i], id).Tale?
    requires forall j :: i < j < |evs| ==> LeavesResult(evs[j], id)
    ensures var t, bytes := Told(evs, id), evs[i].op.result;
      t.Tale? && t.result == Result(if |bytes| <= 65536 then bytes else bytes[..65536])
  {
    assert evs == evs[..i] + ([evs[i]] + evs[i + 1..]);
    RetoldInTwo(Untold, evs[..i], [evs[i]] + evs[i + 1..], id);
    var after := Continued(Told(evs[..i], id), evs[i], id);
    assert ([evs[i]] + evs[i + 1..])[1..] == evs[i + 1..];
    ResultStays(after, evs[i + 1..], id);
  }

  // ----- instants -----

  /** The instant a request carries. */
  function Instant(op: Op): Time {
    match op
    case RemoveExpired(cutoff) => cutoff
    case AddContinuation(_, _) => 0
    case _ => op.now
  }

  /** Between two instants. */
  predicate Dated(evs: seq<Event>, from: Time, to: Time) {
    forall i :: 0 <= i < |evs| && !evs[i].op.RemoveExpired? && !evs[i].op.AddContinuation? ==> from <= Instant(evs[i].op) <= to
  }

  /** A state that was entered in a stretch of the log is dated within it. */
  lemma {:induction false} EntriesAreDated(t: Tale, evs: seq<Event>, id: JobId, from: Time, to: Time)
    requires Dated(evs, from, to)
    requires t.Tale? ==> forall k :: 0 <= k < |t.history| ==> from <= t.history[k].at <= to
    ensures var r := Retold(t, evs, id); r.Tale? ==> forall k :: 0 <= k < |r.history| ==> from <= r.history[k].at <= to
    decreases |evs|
  {
    if |evs| > 0 {
      assert Instant(evs[0].op) == Instant(evs[0].op);
      var next := Continued(t, evs[0], id);
      assert Dated(evs[1..], from, to);
      EntriesAreDated(next, evs[1..], id, from, to);
    }
  }

  // ----- heartbeats -----

  datatype Sign = None | Heard(at: Time)

  /** A granted dequeue or heartbeat of the job. */
  predicate IsSign(ev: Event, id: JobId) {
    (ev.op.Dequeue? && ev.out == Ticket(id)) || (ev.op.HeartbeatJob? && ev.op.id == id && ev.out.Done?)
  }

  /** The last sign of life of a job, as the memory store is told it: only a delete or
      the erasure of the job makes it forget. */
  function SignAfter(last: Sign, ev: Event, id: JobId): Sign {
    if IsSign(ev, id) then Heard(ev.op.now)
    else if ErasesIt(ev, id) || (ev.op.DeleteJob? && ev.op.id == id && ev.out.Done?) then None
    else last
  }

  function LastSign(last: Sign, evs: seq<Event>, id: JobId): Sign
    decreases |evs|
  {
    if |evs| == 0 then last else LastSign(SignAfter(last, evs[0], id), evs[1..], id)
  }

  lemma {:induction false} RecentSignStays(last: Sign, evs: seq<Event>, id: JobId, cutoff: Time)
    requires last.Heard? ==> cutoff <= last.at
    requires forall i :: 0 <= i < |evs| && IsSign(evs[i], id) ==> cutoff <= evs[i].op.now
    ensures LastSign(last, evs, id).Heard? ==> cutoff <= LastSign(last, evs, id).at
    decreases |evs|
  {
    if |evs| > 0 {
      assert IsSign(evs[0], id) ==> cutoff <= evs[0].op.now;
      RecentSignStays(SignAfter(last, evs[0], id), evs[1..], id, cutoff);
    }
  }

  /** A sign of life at or after an instant, and none before it since: the last one is not
      older, or the job was deleted or erased. */
  lemma RecentSignIsLast(evs: seq<Event>, i: nat, id: JobId, cutoff: Time)
    requires i < |evs| && IsSign(evs[i], id)
    requires forall j :: i <= j < |evs| && IsSign(evs[j], id) ==> cutoff <= evs[j].op.now
    ensures LastSign(None, evs, id).Heard? ==> cutoff <= LastSign(None, evs, id).at
  {
    var rest := evs[i + 1..];
    assert evs == evs[..i] + ([evs[i]] + rest) && ([evs[i]] + rest)[1..] == rest;
    SignInTwo(None, evs[..i], [evs[i]] + rest, id);
    forall j | 0 <= j < |rest| && IsSign(rest[j], id) ensures cutoff <= rest[j].op.now { assert rest[j] == evs[i + 1 + j]; }
    RecentSignStays(SignAfter(LastSign(None, evs[..i], id), evs[i], id), rest, id, cutoff);
  }

  lemma {:induction false} SignInTwo(last: Sign, first: seq<Event>, second: seq<Event>, id: JobId)
    ensures LastSign(last, first + second, id) == LastSign(LastSign(last, first, id), second, id)
    decreases |first|
  {
    if |first| == 0 {
      assert first + second == second;
    } else {
      assert (first + second)[1..] == first[1..] + second;
      SignInTwo(SignAfter(last, first[0], id), first[1..], second, id);
    }
  }

  /** The last sign of life, as a backend keeps it that has it in the job's own record: a
      state change clears it, but for a retry and its promotion. */
  function ProgressAfter(last: Sign, ev: Event, id: JobId): Sign {
    if IsSign(ev, id) then Heard(ev.op.now)
    else if CreatesIt(ev, id) || ErasesIt(ev, id) then None
    else
      match ChangeOf(ev, id)
      case Entered(state, _) => if ev.op.ScheduleRetry? || ev.op.GetDueScheduled? then last else None
      case Unchanged => last
  }

  // ----- continuations -----

  /** The entries registered on a parent, in order, each with its queue or the default one. */
  function RegisteredAfter(entries: seq<Continuation>, ev: Event, parent: JobId): seq<Continuation> {
    if ErasesIt(ev, parent) then []
    else if ev.op.AddContinuation? && ev.op.id == parent && ev.out.Done? then
      entries + [Continuation(ev.op.entry.childName, QueueOrDefault(ev.op.entry.childQueue), ev.op.entry.condition)]
    else entries
  }

  function Registered(entries: seq<Continuation>, evs: seq<Event>, parent: JobId): seq<Continuation>
    decreases |evs|
  {
    if |evs| == 0 then entries else Registered(RegisteredAfter(entries, evs[0], parent), evs[1..], parent)
  }

  lemma {:induction false} RegisteredInTwo(entries: seq<Continuation>, first: seq<Event>, second: seq<Event>, parent: JobId)
    ensures Registered(entries, first + second, parent) == Registered(Registered(entries, first, parent), second, parent)
    decreases |first|
  {
    if |first| == 0 {
      assert first + second == second;
    } else {
      assert (first + second)[1..] == first[1..] + second;
      RegisteredInTwo(RegisteredAfter(entries, first[0], parent), first[1..], second, parent);
    }
  }
}
