/** Runs of the in-memory backend: the store together with a record of what it
    forgets, so that what holds over a whole run can be said. */
module MemoryWorld {
  import opened Lifecycle
  import opened Protocol
  import opened Queues
  import opened MemorySpec
  import opened Totals

  /** The store together with what it forgets: expired histories, every push and
      pop so far, and how often jobs were requeued or promoted. */
  datatype World = World(
    store: Store,
    buried: Histories,
    pushed: seq<(Queue, JobId)>,
    popped: seq<(Queue, JobId)>,
    requeues: nat,
    promotions: nat)

  const START := World(EMPTY, map[], [], [], 0, 0)

  datatype Step =
    | Do(ev: Event)
    | DoIdempotent(queue: Queue, id: JobId, job: Job, key: string, now: Time)

  function Used(w: World): set<JobId> {
    w.store.states.Keys + w.buried.Keys
  }

  function Merge(states: Histories, buried: Histories): Histories {
    states + buried
  }

  /** Every history there ever was, of live and of expired jobs. */
  function All(w: World): Histories {
    Merge(w.store.states, w.buried)
  }

  ghost predicate Apart(states: Histories, buried: Histories) {
    forall id :: id in buried ==> id !in states
  }

  function Gone(states: Histories, gone: set<JobId>): Histories {
    map id | id in states && id in gone :: states[id]
  }

  function Bury(s: Store, buried: Histories, out: Outcome): Histories {
    if out.Removed? then Merge(buried, Gone(s.states, out.gone)) else buried
  }

  function Pushes(s: Store, ev: Event): seq<(Queue, JobId)>
    requires WellFormed(s) && MemorySpec.Allowed(s, ev.op, ev.out)
  {
    if ev.out.Refused? then [] else
    match ev.op
    case Enqueue(queue, id, _, _) => [(queue, id)]
    case Requeue(id, _) => [(s.jobs[id].queue, id)]
    case GetDueScheduled(_, _) =>
      seq(|ev.out.ids|, i requires 0 <= i < |ev.out.ids| => (s.jobs[ev.out.ids[i]].queue, ev.out.ids[i]))
    case _ => []
  }

  function Pops(s: Store, ev: Event): seq<(Queue, JobId)>
    requires WellFormed(s) && MemorySpec.Allowed(s, ev.op, ev.out)
  {
    if ev.op.Dequeue? && !ev.out.Refused? then
      [(ev.op.queues[FirstNonEmpty(s.queues, ev.op.queues)], ev.out.id)]
    else []
  }

  ghost predicate Permits(w: World, step: Step) {
    && WellFormed(w.store)
    && match step
       case Do(ev) =>
         MemorySpec.Allowed(w.store, ev.op, ev.out) && BasicOp(Used(w), ev.op)
       case DoIdempotent(queue, id, job, key, now) => BasicOp(Used(w), Op.Enqueue(queue, id, job, now))
  }

  function After(w: World, ev: Event): World
    requires WellFormed(w.store) && MemorySpec.Allowed(w.store, ev.op, ev.out)
  {
    World(MemorySpec.Apply(w.store, ev.op, ev.out),
          Bury(w.store, w.buried, ev.out),
          w.pushed + Pushes(w.store, ev),
          w.popped + Pops(w.store, ev),
          w.requeues + (if ev.op.Requeue? && ev.out.Done? then 1 else 0),
          w.promotions + (if ev.out.Promoted? then |ev.out.ids| else 0))
  }

  function Next(w: World, step: Step): World
    requires WellFormed(w.store)
    requires step.Do? ==> MemorySpec.Allowed(w.store, step.ev.op, step.ev.out)
  {
    match step
    case Do(ev) => After(w, ev)
    case DoIdempotent(queue, id, job, key, now) =>
      if key != "" && key in w.store.idempotency then w else
      var v := After(w, Event(Op.Enqueue(queue, id, job, now), Created(id)));
      if key == "" then v else Bind(v, key, id)
  }

  /** The history-keeping step changes the store exactly as the backend does. */
  lemma NextIsTheStore(w: World, step: Step)
    requires Permits(w, step)
    ensures step.Do? ==> Next(w, step).store == MemorySpec.Apply(w.store, step.ev.op, step.ev.out)
    ensures step.DoIdempotent? ==>
      Next(w, step).store == EnqueueIdempotent(w.store, step.queue, step.id, step.job, step.key, step.now).0
  {
  }

  ghost predicate BasicRun(w: World, steps: seq<Step>)
    decreases |steps|
  {
    steps == [] || (Permits(w, steps[0]) && BasicRun(Next(w, steps[0]), steps[1..]))
  }

  function RunTo(w: World, steps: seq<Step>): World
    requires BasicRun(w, steps)
    decreases |steps|
  {
    if steps == [] then w else RunTo(Next(w, steps[0]), steps[1..])
  }

  function Bind(w: World, key: string, id: JobId): World {
    w.(store := w.store.(idempotency := w.store.idempotency[key := id]))
  }

  lemma StatesGrow(s: Store, op: Op, out: Outcome)
    requires WellFormed(s) && MemorySpec.Allowed(s, op, out)
    ensures MemorySpec.Apply(s, op, out).states.Keys ==
      if Creates(op) then s.states.Keys + {op.id} else if out.Removed? then s.states.Keys - out.gone else s.states.Keys
  {
    hide TakeFrom, EnqueueJob, ScheduleJob, RequeueJob, MoveState, RetryLater, MarkDeleted, Erase, PromoteAll;
  }

  lemma UsedGrows(w: World, ev: Event)
    requires WellFormed(w.store) && MemorySpec.Allowed(w.store, ev.op, ev.out)
    ensures Used(After(w, ev)) == UsedAfter(Used(w), ev.op)
  {
    StatesGrow(w.store, ev.op, ev.out);
    assert ev.out.Removed? ==> ev.op.RemoveExpired? && ev.out.gone <= w.store.states.Keys;
    hide Pushes, Pops, WellFormed, MemorySpec.Allowed, MemorySpec.Apply;
  }

  lemma {:induction false} RunMore(w: World, steps: seq<Step>, step: Step)
    requires BasicRun(w, steps) && Permits(RunTo(w, steps), step)
    ensures BasicRun(w, steps + [step]) && RunTo(w, steps + [step]) == Next(RunTo(w, steps), step)
    decreases |steps|
  {
    hide Next, WellFormed, MemorySpec.Allowed, Used;
    if steps == [] {
      assert [] + [step] == [step];
      assert [step][1..] == [];
    } else {
      assert (steps + [step])[1..] == steps[1..] + [step];
      RunMore(Next(w, steps[0]), steps[1..], step);
    }
  }
}
