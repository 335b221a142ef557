/** Batch enqueueing with derived idempotency keys: what a client may rely on when it
    sends the same batch again (internal/api/handlers_jobs.go). */
module Batch {
  import opened Lifecycle
  import opened Protocol
  import opened MemorySpec
  import opened MemoryWorld
  import MemoryRuns
  import Backend = MemoryStorage

  /** The timeout field of a request, as its parser reports it. */
  datatype Timeout = Absent | Parsed | Malformed

  datatype Request = Request(name: string, queue: Queue, retryMax: int, timeout: Timeout)

  datatype Reason = NameRequired | InvalidTimeout

  datatype Accepted = Accepted(id: JobId, name: string, queue: Queue)
  datatype Rejected = Rejected(name: string, reason: Reason, index: nat)

  datatype Reply = Reply(store: Store, accepted: seq<Accepted>, rejected: seq<Rejected>)

  // ----- derived keys -----

  function Digit(d: nat): char
    requires d < 10
  {
    ['0', '1', '2', '3', '4', '5', '6', '7', '8', '9'][d]
  }

  /** %d of a natural number. */
  function Decimal(n: nat): (s: string)
    ensures |s| > 0
  {
    if n < 10 then [Digit(n)] else Decimal(n / 10) + [Digit(n % 10)]
  }

  /** No key, no derived key. */
  function DerivedKey(key: string, index: nat): string {
    if key == "" then "" else key + ":" + Decimal(index)
  }

  lemma {:induction false} DecimalIsDigits(n: nat, i: nat)
    requires i < |Decimal(n)|
    ensures Decimal(n)[i] != ':'
  {
    if n >= 10 && i < |Decimal(n / 10)| { DecimalIsDigits(n / 10, i); }
  }

  /** The number a string of decimal digits denotes. */
  function ValueOf(s: string): int {
    if |s| == 0 then 0 else 10 * ValueOf(s[..|s| - 1]) + (s[|s| - 1] as int - '0' as int)
  }

  lemma {:induction false} DecimalDenotes(n: nat)
    ensures ValueOf(Decimal(n)) == n
  {
    if n < 10 {
      assert Decimal(n)[..0] == "";
    } else {
      DecimalDenotes(n / 10);
      assert Decimal(n)[..|Decimal(n)| - 1] == Decimal(n / 10);
    }
  }

  lemma {:induction false} DecimalIsInjective(m: nat, n: nat)
    requires Decimal(m) == Decimal(n)
    ensures m == n
  {
    if m >= 10 && n >= 10 {
      assert Decimal(m)[..|Decimal(m)| - 1] == Decimal(m / 10);
      assert Decimal(n)[..|Decimal(n)| - 1] == Decimal(n / 10);
      DecimalIsInjective(m / 10, n / 10);
      assert Decimal(m)[|Decimal(m)| - 1] == Digit(m % 10);
      assert Decimal(n)[|Decimal(n)| - 1] == Digit(n % 10);
    }
  }

  /** The last colon is the one before the index. */
  lemma LastColon(key: string, i: nat, k: nat)
    requires key != "" && |key| < k < |DerivedKey(key, i)|
    ensures DerivedKey(key, i)[|key|] == ':' && DerivedKey(key, i)[k] != ':'
  {
    DecimalIsDigits(i, k - |key| - 1);
    assert DerivedKey(key, i)[k] == Decimal(i)[k - |key| - 1];
  }

  /** Key and index can be read back from a derived key, whatever the client's key is. */
  lemma DerivedKeyIsInjective(key: string, i: nat, key': string, j: nat)
    requires key != "" && key' != "" && DerivedKey(key, i) == DerivedKey(key', j)
    ensures key == key' && i == j
  {
    var s := DerivedKey(key, i);
    assert s[|key|] == ':' && s[|key'|] == ':';
    if |key| < |key'| { LastColon(key, i, |key'|); }
    if |key'| < |key| { LastColon(key', j, |key|); }
    assert s[|key| + 1..] == Decimal(i) && s[|key| + 1..] == Decimal(j);
    assert s[..|key|] == key && s[..|key|] == key';
    DecimalIsInjective(i, j);
  }

  // ----- the loop, as a function of its prefix -----

  function JobOf(r: Request): Job {
    Job(r.name, QueueOrDefault(r.queue), r.retryMax, [])
  }

  function EnqueueOne(s: Store, r: Request, index: nat, key: string, id: JobId, now: Time): (Store, JobId, bool)
    requires WellFormed(s)
  {
    EnqueueIdempotent(s, QueueOrDefault(r.queue), id, JobOf(r), DerivedKey(key, index), now)
  }

  /** One round of the loop. */
  function HandleOne(so_far: Reply, r: Request, index: nat, key: string, id: JobId, now: Time): (t: Reply)
    requires WellFormed(so_far.store)
    ensures WellFormed(t.store)
    ensures |t.accepted| + |t.rejected| == |so_far.accepted| + |so_far.rejected| + 1
  {
    if r.name == "" then
      so_far.(rejected := so_far.rejected + [Rejected(r.name, NameRequired, index)])
    else if r.timeout.Malformed? then
      so_far.(rejected := so_far.rejected + [Rejected(r.name, InvalidTimeout, index)])
    else
      var e := EnqueueOne(so_far.store, r, index, key, id, now);
      Reply(e.0, so_far.accepted + [Accepted(e.1, r.name, QueueOrDefault(r.queue))], so_far.rejected)
  }

  function Handle(s: Store, reqs: seq<Request>, n: nat, key: string, ids: seq<JobId>, now: Time): (r: Reply)
    requires WellFormed(s) && n <= |reqs| == |ids|
    ensures WellFormed(r.store) && |r.accepted| + |r.rejected| == n
  {
    if n == 0 then Reply(s, [], []) else
    HandleOne(Handle(s, reqs, n - 1, key, ids, now), reqs[n - 1], n - 1, key, ids[n - 1], now)
  }

  const CREATED := 201
  const BAD_REQUEST := 400

  /** The handler's loop over a memory store; `ids` are the fresh ids the store draws. */
  method HandleBatchEnqueue(store: Backend.Storage, reqs: seq<Request>, key: string, ids: seq<JobId>, now: Time)
    returns (status: nat, accepted: seq<Accepted>, rejected: seq<Rejected>)
    requires store.Valid() && |ids| == |reqs|
    modifies store
    ensures store.Valid()
    ensures Reply(store.View(), accepted, rejected) == Handle(old(store.View()), reqs, |reqs|, key, ids, now)
    ensures |accepted| + |rejected| == |reqs|
    ensures status == if |accepted| > 0 then CREATED else BAD_REQUEST
  {
    accepted, rejected := [], [];
    if |reqs| == 0 {
      return BAD_REQUEST, accepted, rejected;
    }
    for i := 0 to |reqs|
      invariant store.Valid()
      invariant Reply(store.View(), accepted, rejected) == Handle(old(store.View()), reqs, i, key, ids, now)
    {
      var r := reqs[i];
      if r.name == "" {
        rejected := rejected + [Rejected(r.name, NameRequired, i)];
        continue;
      }
      var queue := r.queue;
      if queue == NO_QUEUE {
        queue := DEFAULT_QUEUE;
      }
      if r.timeout.Malformed? {
        rejected := rejected + [Rejected(r.name, InvalidTimeout, i)];
        continue;
      }
      var id, created := store.EnqueueIdempotent(queue, ids[i], JobOf(r), DerivedKey(key, i), now);
      accepted := accepted + [Accepted(id, r.name, queue)];
    }
    status := CREATED;
    if |accepted| == 0 {
      status := BAD_REQUEST;
    }
  }

  // ----- replays -----

  /** Everything bound in one table is bound to the same job in the other. */
  predicate Extends(before: map<string, JobId>, after: map<string, JobId>) {
    forall k :: k in before ==> k in after && after[k] == before[k]
  }

  lemma EnqueueBindings(s: Store, r: Request, index: nat, key: string, id: JobId, now: Time)
    requires WellFormed(s) && key != ""
    ensures var e, k := EnqueueOne(s, r, index, key, id, now), DerivedKey(key, index);
      if k in s.idempotency then e == (s, s.idempotency[k], false)
      else e.0.idempotency == s.idempotency[k := id] && e.1 == id
  {
    hide Decimal;
  }

  /** A round replayed on a store that knows its key. */
  lemma ReplayOne(before: Reply, r: Request, index: nat, key: string, id: JobId, now: Time, u: Store, id': JobId, now': Time)
    requires WellFormed(before.store) && WellFormed(u) && key != ""
    requires Extends(HandleOne(before, r, index, key, id, now).store.idempotency, u.idempotency)
    ensures Extends(before.store.idempotency, u.idempotency)
    ensures var after := HandleOne(before, r, index, key, id, now);
      HandleOne(before.(store := u), r, index, key, id', now') == after.(store := u)
  {
    hide DerivedKey, EnqueueOne, WellFormed;
    if r.name != "" && !r.timeout.Malformed? {
      EnqueueBindings(before.store, r, index, key, id, now);
      EnqueueBindings(u, r, index, key, id', now');
    }
  }

  /** Replaying a prefix of a batch on any store that still knows its keys: same
      answers, nothing changed. */
  lemma {:induction false} ReplayPrefix(
      s: Store, reqs: seq<Request>, n: nat, key: string, ids: seq<JobId>, now: Time,
      u: Store, ids': seq<JobId>, now': Time)
    requires WellFormed(s) && WellFormed(u) && n <= |reqs| == |ids| == |ids'| && key != ""
    requires Extends(Handle(s, reqs, n, key, ids, now).store.idempotency, u.idempotency)
    ensures Handle(u, reqs, n, key, ids', now') == Handle(s, reqs, n, key, ids, now).(store := u)
    decreases n
  {
    hide WellFormed, HandleOne, Extends;
    if n > 0 {
      ReplayOne(Handle(s, reqs, n - 1, key, ids, now), reqs[n - 1], n - 1, key, ids[n - 1], now, u, ids'[n - 1], now');
      ReplayPrefix(s, reqs, n - 1, key, ids, now, u, ids', now');
    }
  }

  /** Sending the same batch again under the same key returns the same accepted and
      rejected entries and leaves the store as it is, however many requests of any
      kind the store has served in between. */
  lemma ReplayAfterAnyRun(
      s: Store, reqs: seq<Request>, key: string, ids: seq<JobId>, now: Time,
      w: World, steps: seq<Step>, ids': seq<JobId>, now': Time)
    requires WellFormed(s) && |reqs| == |ids| == |ids'| && key != ""
    requires w.store == Handle(s, reqs, |reqs|, key, ids, now).store
    requires MemoryRuns.BasicInv(w) && BasicRun(w, steps)
    ensures var u := RunTo(w, steps).store;
      WellFormed(u) && Handle(u, reqs, |reqs|, key, ids', now') == Handle(s, reqs, |reqs|, key, ids, now).(store := u)
  {
    hide MemoryRuns.BasicInv, BasicRun, RunTo, Handle, WellFormed;
    MemoryRuns.BasicRunsKeepInv(w, steps);
    var v := RunTo(w, steps);
    BasicIsWellFormed(v);
    BindingsExtend(w, steps);
    ReplayPrefix(s, reqs, |reqs|, key, ids, now, v.store, ids', now');
  }

  lemma BindingsExtend(w: World, steps: seq<Step>)
    requires MemoryRuns.BasicInv(w) && BasicRun(w, steps)
    ensures Extends(w.store.idempotency, RunTo(w, steps).store.idempotency)
  {
    hide MemoryRuns.BasicInv, BasicRun, RunTo;
    forall k | k in w.store.idempotency
      ensures k in RunTo(w, steps).store.idempotency && RunTo(w, steps).store.idempotency[k] == w.store.idempotency[k]
    {
      MemoryRuns.KeyIsBoundForever(w, steps, k);
    }
  }

  lemma BasicIsWellFormed(w: World)
    requires MemoryRuns.BasicInv(w)
    ensures WellFormed(w.store)
  {
  }

  // ----- one job per entry -----

  function AcceptedIds(a: seq<Accepted>): seq<JobId> {
    seq(|a|, i requires 0 <= i < |a| => a[i].id)
  }

  /** The ids drawn for the entries that are not rejected. */
  function Drawn(reqs: seq<Request>, n: nat, ids: seq<JobId>): seq<JobId>
    requires n <= |reqs| == |ids|
  {
    if n == 0 then [] else
    Drawn(reqs, n - 1, ids) + DrawnOne(reqs[n - 1], ids[n - 1])
  }

  function DrawnOne(r: Request, id: JobId): seq<JobId> {
    if r.name == "" || r.timeout.Malformed? then [] else [id]
  }

  lemma FreshKeyCreatesOne(before: Reply, r: Request, index: nat, key: string, id: JobId, now: Time)
    requires WellFormed(before.store) && key != "" && DerivedKey(key, index) !in before.store.idempotency
    ensures AcceptedIds(HandleOne(before, r, index, key, id, now).accepted) == AcceptedIds(before.accepted) + DrawnOne(r, id)
  {
    hide DerivedKey, EnqueueOne, WellFormed;
    if r.name != "" && !r.timeout.Malformed? { EnqueueBindings(before.store, r, index, key, id, now); }
  }

  lemma OnlyOwnKey(before: Reply, r: Request, index: nat, key: string, id: JobId, now: Time, k: string)
    requires WellFormed(before.store) && key != "" && k != DerivedKey(key, index) && k !in before.store.idempotency
    ensures k !in HandleOne(before, r, index, key, id, now).store.idempotency
  {
    hide DerivedKey, EnqueueOne, WellFormed;
    if r.name != "" && !r.timeout.Malformed? { EnqueueBindings(before.store, r, index, key, id, now); }
  }

  lemma {:induction false} OnlyOwnKeys(s: Store, reqs: seq<Request>, n: nat, key: string, ids: seq<JobId>, now: Time, i: nat)
    requires WellFormed(s) && n <= i && n <= |reqs| == |ids| && key != ""
    requires DerivedKey(key, i) !in s.idempotency
    ensures DerivedKey(key, i) !in Handle(s, reqs, n, key, ids, now).store.idempotency
  {
    hide DerivedKey, HandleOne, WellFormed;
    if n > 0 {
      OnlyOwnKeys(s, reqs, n - 1, key, ids, now, i);
      if DerivedKey(key, i) == DerivedKey(key, n - 1) { DerivedKeyIsInjective(key, i, key, n - 1); }
      OnlyOwnKey(Handle(s, reqs, n - 1, key, ids, now), reqs[n - 1], n - 1, key, ids[n - 1], now, DerivedKey(key, i));
    }
  }

  /** No key derived from this one is bound yet. */
  ghost predicate Unseen(s: Store, key: string) {
    forall i: nat :: DerivedKey(key, i) !in s.idempotency
  }

  lemma UnseenAt(s: Store, key: string, i: nat)
    requires Unseen(s, key)
    ensures DerivedKey(key, i) !in s.idempotency
  {
  }

  /** Under a key the store has not seen, every entry that is not rejected gets a job
      of its own: no two entries of a batch share a key. */
  lemma {:induction false} FreshKeyCreatesAll(s: Store, reqs: seq<Request>, n: nat, key: string, ids: seq<JobId>, now: Time)
    requires WellFormed(s) && n <= |reqs| == |ids| && key != "" && Unseen(s, key)
    ensures AcceptedIds(Handle(s, reqs, n, key, ids, now).accepted) == Drawn(reqs, n, ids)
  {
    hide DerivedKey, HandleOne, WellFormed, DrawnOne, Unseen;
    if n > 0 {
      hide AcceptedIds;
      FreshKeyCreatesAll(s, reqs, n - 1, key, ids, now);
      UnseenAt(s, key, n - 1);
      OnlyOwnKeys(s, reqs, n - 1, key, ids, now, n - 1);
      FreshKeyCreatesOne(Handle(s, reqs, n - 1, key, ids, now), reqs[n - 1], n - 1, key, ids[n - 1], now);
    }
  }

  // ----- a batch is part of a run -----

  function StepsOf(reqs: seq<Request>, n: nat, key: string, ids: seq<JobId>, now: Time): seq<Step>
    requires n <= |reqs| == |ids|
  {
    if n == 0 then [] else
    StepsOf(reqs, n - 1, key, ids, now) + StepOf(reqs[n - 1], n - 1, key, ids[n - 1], now)
  }

  function StepOf(r: Request, index: nat, key: string, id: JobId, now: Time): seq<Step> {
    if r.name == "" || r.timeout.Malformed? then []
    else [DoIdempotent(QueueOrDefault(r.queue), id, JobOf(r), DerivedKey(key, index), now)]
  }

  lemma RoundIsAStep(w: World, before: Reply, r: Request, index: nat, key: string, id: JobId, now: Time)
    requires WellFormed(w.store) && before.store == w.store && id !in Used(w)
    ensures var steps := StepOf(r, index, key, id, now);
      && |steps| <= 1 && (|steps| == 0 ==> HandleOne(before, r, index, key, id, now).store == w.store)
      && (|steps| == 1 ==>
            Permits(w, steps[0]) && Next(w, steps[0]).store == HandleOne(before, r, index, key, id, now).store
            && Used(Next(w, steps[0])) <= Used(w) + {id})
  {
    var steps := StepOf(r, index, key, id, now);
    hide DerivedKey, WellFormed;
    if |steps| == 1 {
      assert Permits(w, steps[0]);
      NextIsTheStore(w, steps[0]);
      StepUses(w, steps[0]);
    }
    hide Permits, Next, EnqueueIdempotent, Used, After;
  }

  lemma StepUses(w: World, step: Step)
    requires Permits(w, step) && step.DoIdempotent?
    ensures Used(Next(w, step)) <= Used(w) + {step.id}
  {
    hide WellFormed, EnqueueJob, MemorySpec.Apply;
    var ev := Event(Op.Enqueue(step.queue, step.id, step.job, step.now), Created(step.id));
    UsedGrows(w, ev);
    hide After;
  }

  /** The store calls of a batch with fresh ids are a run of basic requests, so every
      run theorem holds of what a batch leaves behind. */
  lemma {:induction false} BatchIsARun(w: World, reqs: seq<Request>, n: nat, key: string, ids: seq<JobId>, now: Time)
    requires MemoryRuns.BasicInv(w) && WellFormed(w.store) && n <= |reqs| == |ids| && Distinct(ids)
    requires forall i :: 0 <= i < |ids| ==> ids[i] !in Used(w)
    ensures BasicRun(w, StepsOf(reqs, n, key, ids, now))
    ensures var v := RunTo(w, StepsOf(reqs, n, key, ids, now));
      v.store == Handle(w.store, reqs, n, key, ids, now).store
      && (forall id :: id in Used(v) ==> id in Used(w) || id in ids[..n])
  {
    hide MemoryRuns.BasicInv, WellFormed, HandleOne, StepOf, Permits, Next, Used;
    if n > 0 {
      BatchIsARun(w, reqs, n - 1, key, ids, now);
      var steps := StepsOf(reqs, n - 1, key, ids, now);
      var v := RunTo(w, steps);
      var round := StepOf(reqs[n - 1], n - 1, key, ids[n - 1], now);
      assert ids[n - 1] !in ids[..n - 1];
      RoundIsAStep(v, Handle(w.store, reqs, n - 1, key, ids, now), reqs[n - 1], n - 1, key, ids[n - 1], now);
      if |round| == 1 {
        RunMore(w, steps, round[0]);
        assert round == [round[0]];
      } else {
        assert steps + round == steps;
      }
      assert ids[..n] == ids[..n - 1] + [ids[n - 1]];
    }
  }

  // ----- what a batch stores and answers, entry by entry -----

  /** New ids, and a key the store has not seen, or none. */
  ghost predicate Unused(s: Store, key: string, ids: seq<JobId>) {
    && WellFormed(s) && Distinct(ids) && (forall k :: 0 <= k < |ids| ==> ids[k] !in s.jobs)
    && (key == "" || Unseen(s, key))
  }

  /** The job a well-formed entry asks for. */
  function AskedFor(r: Request): Job {
    Job(r.name, if r.queue == NO_QUEUE then DEFAULT_QUEUE else r.queue, if r.retryMax == 0 then 10 else r.retryMax, [])
  }

  lemma EnqueuedAt(s: Store, queue: Queue, id: JobId, job: Job, now: Time, x: JobId)
    requires WellFormed(s)
    ensures var t := EnqueueJob(s, queue, id, job, now);
      && (x in t.jobs <==> x in s.jobs || x == id) && (x in t.states <==> x in s.states || x == id)
      && (x == id ==> t.jobs[x] == Filled(job) && t.states[x] == [Entry(Enqueued, now)] && x in QueueOf(t, queue))
      && (x != id && x in s.jobs ==> t.jobs[x] == s.jobs[x] && t.states[x] == s.states[x])
      && forall q, y :: y in QueueOf(s, q) ==> y in QueueOf(t, q)
  {
    hide Filled;
  }

  lemma RoundStores(before: Reply, r: Request, index: nat, key: string, id: JobId, now: Time, x: JobId)
    requires WellFormed(before.store) && (key == "" || DerivedKey(key, index) !in before.store.idempotency)
    ensures var s, t, taken := before.store, HandleOne(before, r, index, key, id, now).store, r.name != "" && !r.timeout.Malformed?;
      && (x in t.jobs <==> x in s.jobs || (taken && x == id)) && (x in t.states <==> x in s.states || (taken && x == id))
      && (taken && x == id ==>
            t.jobs[x] == AskedFor(r) && t.states[x] == [Entry(Enqueued, now)] && x in QueueOf(t, AskedFor(r).queue))
      && (x != id && x in s.jobs ==> t.jobs[x] == s.jobs[x] && x in s.states && t.states[x] == s.states[x])
      && forall q, y :: y in QueueOf(s, q) ==> y in QueueOf(t, q)
    ensures var u, taken := HandleOne(before, r, index, key, id, now), r.name != "" && !r.timeout.Malformed?;
      && u.accepted == before.accepted + (if taken then [Accepted(id, r.name, AskedFor(r).queue)] else [])
      && u.rejected == before.rejected
           + (if r.name == "" then [Rejected("", NameRequired, index)]
              else if r.timeout.Malformed? then [Rejected(r.name, InvalidTimeout, index)] else [])
  {
    hide EnqueueJob, Decimal;
    if r.name != "" && !r.timeout.Malformed? {
      EnqueuedAt(before.store, AskedFor(r).queue, id, JobOf(r), now, x);
    }
  }

  /** The derived key of the next entry is not bound by the entries before it. */
  lemma NextKeyIsFree(s: Store, reqs: seq<Request>, n: nat, key: string, ids: seq<JobId>, now: Time)
    requires WellFormed(s) && n < |reqs| == |ids| && (key == "" || Unseen(s, key))
    ensures key == "" || DerivedKey(key, n) !in Handle(s, reqs, n, key, ids, now).store.idempotency
  {
    hide DerivedKey, HandleOne, WellFormed, Handle;
    if key != "" {
      UnseenAt(s, key, n);
      OnlyOwnKeys(s, reqs, n, key, ids, now, n);
    }
  }

  predicate WellFormedEntry(r: Request) {
    r.name != "" && !r.timeout.Malformed?
  }

  /** What the store says of one id after the first n entries of a batch. */
  ghost predicate Stores(s: Store, t: Store, reqs: seq<Request>, n: nat, ids: seq<JobId>, now: Time, x: JobId)
    requires n <= |reqs| == |ids|
  {
    && (forall i :: 0 <= i < n && ids[i] == x && WellFormedEntry(reqs[i]) ==>
          && x in t.jobs && t.jobs[x] == AskedFor(reqs[i]) && x in t.states && t.states[x] == [Entry(Enqueued, now)]
          && x in QueueOf(t, AskedFor(reqs[i]).queue))
    && (x in s.jobs ==> x in t.jobs && t.jobs[x] == s.jobs[x] && x in s.states && x in t.states && t.states[x] == s.states[x])
    && (x in t.jobs && x !in s.jobs ==> exists i :: 0 <= i < n && ids[i] == x && WellFormedEntry(reqs[i]))
  }

  lemma StoresOneMore(s: Store, before: Reply, reqs: seq<Request>, n: nat, key: string, ids: seq<JobId>, now: Time, x: JobId)
    requires n < |reqs| == |ids| && Unused(s, key, ids) && Stores(s, before.store, reqs, n, ids, now, x)
    requires WellFormed(before.store) && (key == "" || DerivedKey(key, n) !in before.store.idempotency)
    ensures Stores(s, HandleOne(before, reqs[n], n, key, ids[n], now).store, reqs, n + 1, ids, now, x)
  {
    hide HandleOne, AskedFor, QueueOf, Unseen, WellFormed, DerivedKey;
    RoundStores(before, reqs[n], n, key, ids[n], now, x);
    forall i | 0 <= i < n && ids[i] == x ensures ids[n] != x {}
  }

  /** Every entry with a name and a well-formed timeout has its job in the store: under
      its drawn id, with its name, its queue or the default one, its maximum or ten,
      freshly enqueued and in its queue. The jobs that were there stay as they were, and
      there are no others. */
  lemma {:induction false} BatchStoresEachJob(s: Store, reqs: seq<Request>, n: nat, key: string, ids: seq<JobId>, now: Time, x: JobId)
    requires n <= |reqs| == |ids| && Unused(s, key, ids)
    ensures Stores(s, Handle(s, reqs, n, key, ids, now).store, reqs, n, ids, now, x)
  {
    hide HandleOne, WellFormed, DerivedKey;
    if n > 0 {
      hide Stores;
      BatchStoresEachJob(s, reqs, n - 1, key, ids, now, x);
      NextKeyIsFree(s, reqs, n - 1, key, ids, now);
      StoresOneMore(s, Handle(s, reqs, n - 1, key, ids, now), reqs, n - 1, key, ids, now, x);
    } else {
      JobsHaveHistories(s);
    }
  }

  lemma JobsHaveHistories(s: Store)
    requires WellFormed(s)
    ensures s.jobs.Keys == s.states.Keys
  {
  }

  predicate Increasing(indexes: seq<nat>, n: nat) {
    && (forall k :: 0 <= k < |indexes| ==> indexes[k] < n)
    && forall k, l :: 0 <= k < l < |indexes| ==> indexes[k] < indexes[l]
  }

  /** The entries at these indexes, as a reply lists them. */
  predicate ListsAccepted(list: seq<Accepted>, reqs: seq<Request>, ids: seq<JobId>, indexes: seq<nat>)
    requires |reqs| == |ids| && Increasing(indexes, |reqs|)
  {
    && |list| == |indexes|
    && forall k :: 0 <= k < |indexes| ==>
         list[k] == Accepted(ids[indexes[k]], reqs[indexes[k]].name, AskedFor(reqs[indexes[k]]).queue)
  }

  predicate ListsRejected(list: seq<Rejected>, reqs: seq<Request>, indexes: seq<nat>)
    requires Increasing(indexes, |reqs|)
  {
    && |list| == |indexes|
    && forall k :: 0 <= k < |indexes| ==>
         list[k] == Rejected(reqs[indexes[k]].name, if reqs[indexes[k]].name == "" then NameRequired else InvalidTimeout, indexes[k])
  }

  /** The indexes of the entries that are accepted, and of those that are not. */
  function Indexes(reqs: seq<Request>, n: nat, wellFormed: bool): (indexes: seq<nat>)
    requires n <= |reqs|
    ensures Increasing(indexes, n)
  {
    if n == 0 then [] else
    Indexes(reqs, n - 1, wellFormed) + if WellFormedEntry(reqs[n - 1]) == wellFormed then [n - 1] else []
  }

  lemma {:induction false} IndexesHold(reqs: seq<Request>, n: nat, wellFormed: bool, i: nat)
    requires n <= |reqs|
    ensures i in Indexes(reqs, n, wellFormed) <==> i < n && WellFormedEntry(reqs[i]) == wellFormed
  {
    if n > 0 { IndexesHold(reqs, n - 1, wellFormed, i); }
  }

  lemma AcceptedMore(list: seq<Accepted>, reqs: seq<Request>, ids: seq<JobId>, indexes: seq<nat>, n: nat)
    requires |reqs| == |ids| && n < |reqs| && Increasing(indexes, n) && ListsAccepted(list, reqs, ids, indexes)
    ensures Increasing(indexes + [n], n + 1)
    ensures ListsAccepted(list + [Accepted(ids[n], reqs[n].name, AskedFor(reqs[n]).queue)], reqs, ids, indexes + [n])
  {
    hide AskedFor;
  }

  lemma RejectedMore(list: seq<Rejected>, reqs: seq<Request>, indexes: seq<nat>, n: nat)
    requires n < |reqs| && Increasing(indexes, n) && ListsRejected(list, reqs, indexes)
    ensures Increasing(indexes + [n], n + 1)
    ensures ListsRejected(list + [Rejected(reqs[n].name, if reqs[n].name == "" then NameRequired else InvalidTimeout, n)], reqs, indexes + [n])
  {
  }

  lemma {:induction false} PrefixAnswers(s: Store, reqs: seq<Request>, n: nat, key: string, ids: seq<JobId>, now: Time)
    requires n <= |reqs| == |ids| && Unused(s, key, ids)
    ensures ListsAccepted(Handle(s, reqs, n, key, ids, now).accepted, reqs, ids, Indexes(reqs, n, true))
    ensures ListsRejected(Handle(s, reqs, n, key, ids, now).rejected, reqs, Indexes(reqs, n, false))
  {
    hide HandleOne, AskedFor, WellFormed, ListsAccepted, ListsRejected, Indexes, WellFormedEntry, Unseen, Handle, Increasing;
    if n > 0 {
      var before := Handle(s, reqs, n - 1, key, ids, now);
      PrefixAnswers(s, reqs, n - 1, key, ids, now);
      RoundAnswers(s, reqs, n - 1, key, ids, now);
      IndexesMore(reqs, n - 1);
      AcceptedMore(before.accepted, reqs, ids, Indexes(reqs, n - 1, true), n - 1);
      RejectedMore(before.rejected, reqs, Indexes(reqs, n - 1, false), n - 1);
    } else {
      NothingListed(reqs, ids);
    }
  }

  lemma RoundAnswers(s: Store, reqs: seq<Request>, n: nat, key: string, ids: seq<JobId>, now: Time)
    requires n < |reqs| == |ids| && Unused(s, key, ids)
    ensures var before, after, r := Handle(s, reqs, n, key, ids, now), Handle(s, reqs, n + 1, key, ids, now), reqs[n];
      if WellFormedEntry(r) then
        && after.accepted == before.accepted + [Accepted(ids[n], r.name, AskedFor(r).queue)] && after.rejected == before.rejected
      else
        && after.accepted == before.accepted
        && after.rejected == before.rejected + [Rejected(r.name, if r.name == "" then NameRequired else InvalidTimeout, n)]
  {
    hide HandleOne, AskedFor, QueueOf, Unseen, WellFormed, DerivedKey;
    NextKeyIsFree(s, reqs, n, key, ids, now);
    RoundStores(Handle(s, reqs, n, key, ids, now), reqs[n], n, key, ids[n], now, ids[n]);
  }

  lemma IndexesMore(reqs: seq<Request>, n: nat)
    requires n < |reqs|
    ensures Indexes(reqs, n + 1, true) == if WellFormedEntry(reqs[n]) then Indexes(reqs, n, true) + [n] else Indexes(reqs, n, true)
    ensures Indexes(reqs, n + 1, false) == if WellFormedEntry(reqs[n]) then Indexes(reqs, n, false) else Indexes(reqs, n, false) + [n]
  {
    assert Indexes(reqs, n, true) + [] == Indexes(reqs, n, true);
    assert Indexes(reqs, n, false) + [] == Indexes(reqs, n, false);
  }

  lemma NothingListed(reqs: seq<Request>, ids: seq<JobId>)
    requires |reqs| == |ids|
    ensures ListsAccepted([], reqs, ids, Indexes(reqs, 0, true)) && ListsRejected([], reqs, Indexes(reqs, 0, false))
  {
  }

  /** The reply lists the entries in order: accepted are those with a name and a
      well-formed timeout, each with its id, name and queue; rejected are the others, each
      with its index and the first of the two reasons that applies. */
  lemma BatchAnswersEachEntry(s: Store, reqs: seq<Request>, key: string, ids: seq<JobId>, now: Time)
    requires |reqs| == |ids| && Unused(s, key, ids)
    ensures var n, reply := |reqs|, Handle(s, reqs, |reqs|, key, ids, now);
      && ListsAccepted(reply.accepted, reqs, ids, Indexes(reqs, n, true))
      && ListsRejected(reply.rejected, reqs, Indexes(reqs, n, false))
    ensures forall i: nat :: i in Indexes(reqs, |reqs|, true) <==> i < |reqs| && reqs[i].name != "" && !reqs[i].timeout.Malformed?
    ensures forall i: nat :: i in Indexes(reqs, |reqs|, false) <==> i < |reqs| && (reqs[i].name == "" || reqs[i].timeout.Malformed?)
  {
    hide Handle, Indexes, ListsAccepted, ListsRejected, Unused;
    PrefixAnswers(s, reqs, |reqs|, key, ids, now);
    forall i: nat
      ensures i in Indexes(reqs, |reqs|, true) <==> i < |reqs| && reqs[i].name != "" && !reqs[i].timeout.Malformed?
      ensures i in Indexes(reqs, |reqs|, false) <==> i < |reqs| && (reqs[i].name == "" || reqs[i].timeout.Malformed?)
    {
      IndexesHold(reqs, |reqs|, true, i);
      IndexesHold(reqs, |reqs|, false, i);
    }
  }
}
