/** Named queues of job ids, as the list-based backends keep them. */
module Queues {
  import opened Lifecycle

  /** A queue that was never pushed to and an empty one look the same. */
  function Waiting(queues: map<Queue, seq<JobId>>, q: Queue): seq<JobId> {
    if q in queues then queues[q] else []
  }

  /** The index of the first requested queue that holds an id, or the number of queues. */
  function FirstNonEmpty(queues: map<Queue, seq<JobId>>, requested: seq<Queue>): (i: nat)
    ensures i <= |requested|
    ensures i < |requested| ==> |Waiting(queues, requested[i])| > 0
    ensures forall j :: 0 <= j < i ==> |Waiting(queues, requested[j])| == 0
  {
    if |requested| == 0 || |Waiting(queues, requested[0])| > 0 then 0 else 1 + FirstNonEmpty(queues, requested[1..])
  }

  // ----- logs of queue entries -----

  /** The ids a log mentions for one queue, in order. */
  function OnQueue(log: seq<(Queue, JobId)>, q: Queue): seq<JobId> {
    if |log| == 0 then [] else
    OnQueue(log[..|log| - 1], q) + if Last(log).0 == q then [Last(log).1] else []
  }

  lemma {:induction false} OnQueueConcat(a: seq<(Queue, JobId)>, b: seq<(Queue, JobId)>, q: Queue)
    ensures OnQueue(a + b, q) == OnQueue(a, q) + OnQueue(b, q)
  {
    if |b| == 0 {
      assert a + b == a;
    } else {
      OnQueueConcat(a, b[..|b| - 1], q);
      assert (a + b)[..|a + b| - 1] == a + b[..|b| - 1];
    }
  }

  lemma OnQueueMore(log: seq<(Queue, JobId)>, q: Queue)
    requires |log| > 0
    ensures OnQueue(log, q) == OnQueue(log[..|log| - 1], q) + if Last(log).0 == q then [Last(log).1] else []
  {
  }

  lemma OnQueueOne(from: Queue, id: JobId, q: Queue)
    ensures OnQueue([(from, id)], q) == if from == q then [id] else []
  {
    assert OnQueue([], q) == [];
  }

  lemma OnQueueNone(q: Queue)
    ensures OnQueue([], q) == []
  {
  }
}
