/** The vocabulary of a job's life: its states, the tables over them, and the
    legal moves between them (internal/job/job.go). */
module Lifecycle {
  /** Ids, queue names and instants carry no structure the machines look at, so
      they are numbers; the empty queue name and "default" are two of them. */
  datatype JobId = JobId(uuid: int)
  type Queue = int
  type Time = int

  const NO_QUEUE: Queue := 0
  const DEFAULT_QUEUE: Queue := 1

  datatype State =
    Enqueued | Processing | Succeeded | Failed | Scheduled | Deleted | Awaiting | Dead | Cancelled

  /** The states from which a requeue or a delete is refused. */
  predicate Irreversible(s: State) {
    s == Succeeded || s == Dead || s == Cancelled || s == Deleted
  }

  /** The states the retention sweep may erase; Dead and Cancelled are kept. */
  predicate Expirable(s: State) {
    s == Succeeded || s == Failed || s == Deleted
  }

  datatype Entry = Entry(name: State, at: Time)

  datatype Job = Job(name: string, queue: Queue, retryMax: int, result: seq<bv8>)

  datatype Continuation = Continuation(childName: string, childQueue: Queue, condition: string)

  const DEFAULT_RETRY_MAX := 10
  const RESULT_CAP := 65536

  const ON_SUCCEEDED := "OnSucceeded"
  const ON_FAILED := "OnFailed"
  const ON_ANY := "OnAny"

  function QueueOrDefault(queue: Queue): Queue {
    if queue == NO_QUEUE then DEFAULT_QUEUE else queue
  }

  /** Zero means "use the default"; a negative maximum is kept as it is. */
  function EffectiveRetryMax(retryMax: int): int {
    if retryMax == 0 then DEFAULT_RETRY_MAX else retryMax
  }

  /** How often a job may be attempted: the first attempt always happens. */
  function Budget(retryMax: int): nat {
    if EffectiveRetryMax(retryMax) < 1 then 1 else EffectiveRetryMax(retryMax)
  }

  function Names(history: seq<Entry>): (names: seq<State>)
    ensures |names| == |history|
    ensures forall i :: 0 <= i < |history| ==> names[i] == history[i].name
  {
    seq(|history|, i requires 0 <= i < |history| => history[i].name)
  }

  lemma NamesAppend(history: seq<Entry>, e: Entry)
    ensures Names(history + [e]) == Names(history) + [e.name]
  {
  }

  function Last<T>(s: seq<T>): T
    requires |s| > 0
  {
    s[|s| - 1]
  }

  /** A move the life cycle permits. No move leaves an irreversible state. */
  predicate Legal(from: State, to: State) {
    match from
    case Enqueued => to == Processing
    case Processing =>
      to == Succeeded || to == Failed || to == Cancelled || to == Enqueued || to == Deleted
    case Failed => to == Dead || to == Scheduled || to == Enqueued || to == Deleted
    case Scheduled => to == Enqueued
    case _ => false
  }

  /** A history that starts where jobs are created and moves legally. */
  predicate LegalHistory(h: seq<State>) {
    && |h| > 0
    && (h[0] == Enqueued || h[0] == Scheduled)
    && forall i :: 0 <= i < |h| - 1 ==> Legal(h[i], h[i + 1])
  }

  lemma LegalHistoryExtends(h: seq<State>, s: State)
    requires LegalHistory(h) && Legal(Last(h), s)
    ensures LegalHistory(h + [s])
  {
    var g := h + [s];
    forall i | 0 <= i < |g| - 1 ensures Legal(g[i], g[i + 1]) {
      if i < |h| - 1 { assert g[i] == h[i] && g[i + 1] == h[i + 1]; }
    }
  }

  /** Irreversible states are entered once, and only as the last entry. */
  lemma IrreversibleIsLast(h: seq<State>, i: nat)
    requires LegalHistory(h) && i < |h| - 1
    ensures !Irreversible(h[i])
  {
    assert Legal(h[i], h[i + 1]);
  }

  /** The number of entries with a given name. */
  function Count(h: seq<State>, s: State): nat {
    if |h| == 0 then 0 else Count(h[..|h| - 1], s) + if Last(h) == s then 1 else 0
  }

  lemma CountAppend(h: seq<State>, x: State, s: State)
    ensures Count(h + [x], s) == Count(h, s) + if x == s then 1 else 0
  {
    assert (h + [x])[..|h|] == h;
  }

  /** The retry accounting of the middleware pipeline: a loop over the history. */
  method AttemptCount(states: seq<Entry>) returns (n: nat)
    ensures n == Count(Names(states), Failed)
  {
    n := 0;
    for i := 0 to |states|
      invariant n == Count(Names(states[..i]), Failed)
    {
      assert states[..i + 1] == states[..i] + [states[i]];
      NamesAppend(states[..i], states[i]);
      CountAppend(Names(states[..i]), states[i].name, Failed);
      if states[i].name == Failed {
        n := n + 1;
      }
    }
    assert states[..|states|] == states;
  }
}
