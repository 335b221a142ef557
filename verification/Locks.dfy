/** The distributed lock, abstractly: a resource is held by at most one grant; a grant
    may be replaced once it has run out, and at the very instant it runs out a
    backend may answer either way. */
module Locks {
  import opened Lifecycle

  type Resource = int
  type Owner = int

  datatype Until = At(t: Time) | Forever

  datatype Handle = Handle(resource: Resource, owner: Owner, until: Until)

  type Held = map<Resource, Handle>

  datatype Call =
    | Acquire(resource: Resource, owner: Owner, until: Until, now: Time)
    | Release(handle: Handle, now: Time)

  datatype Answer = Granted(handle: Handle) | Released | NotHeld

  /** From here on somebody else may be granted the resource. */
  predicate RunOut(u: Until, now: Time) {
    u.At? && u.t <= now
  }

  /** Up to here a request for the resource may be refused. */
  predicate Blocks(u: Until, now: Time) {
    u.Forever? || now <= u.t
  }

  predicate HeldBy(held: Held, h: Handle) {
    h.resource in held && held[h.resource].owner == h.owner
  }

  predicate Allowed(held: Held, call: Call, answer: Answer) {
    match call
    case Acquire(r, owner, until, now) =>
      || (answer == Granted(Handle(r, owner, until)) && (r in held ==> RunOut(held[r].until, now)))
      || (answer == NotHeld && r in held && Blocks(held[r].until, now))
    case Release(h, now) =>
      || (answer == Released && HeldBy(held, h))
      || (answer == NotHeld && (HeldBy(held, h) ==> RunOut(held[h.resource].until, now)))
  }

  function Apply(held: Held, call: Call, answer: Answer): Held
    requires Allowed(held, call, answer)
  {
    match answer
    case Granted(h) => held[h.resource := h]
    case Released => held - {call.handle.resource}
    case NotHeld => held
  }

  // ----- runs -----

  /** The lock table with every handle ever granted, those released, and the clock. */
  datatype World = World(held: Held, issued: set<Handle>, returned: set<Handle>, clock: Time)

  const START := World(map[], {}, {}, 0)

  /** Owners are fresh, only granted handles are released, time does not run backwards. */
  predicate Enabled(w: World, call: Call, answer: Answer) {
    && w.clock <= call.now
    && Allowed(w.held, call, answer)
    && (call.Acquire? ==> forall h :: h in w.issued ==> h.owner != call.owner)
    && (call.Release? ==> call.handle in w.issued)
  }

  function Next(w: World, call: Call, answer: Answer): World
    requires Enabled(w, call, answer)
  {
    World(
      Apply(w.held, call, answer),
      if answer.Granted? then w.issued + {answer.handle} else w.issued,
      if answer.Released? then w.returned + {call.handle} else w.returned,
      call.now)
  }

  predicate Active(w: World, h: Handle) {
    h in w.issued && h !in w.returned && !RunOut(h.until, w.clock)
  }

  /** Owners tell handles apart, the table holds granted handles under their resource,
      and whoever has an active handle is the holder. */
  ghost predicate Inv(w: World) {
    && (forall g, h :: g in w.issued && h in w.issued && g.owner == h.owner ==> g == h)
    && (forall r :: r in w.held ==> w.held[r] in w.issued && w.held[r] !in w.returned && w.held[r].resource == r)
    && w.returned <= w.issued
    && (forall h :: Active(w, h) ==> h.resource in w.held && w.held[h.resource] == h)
  }

  lemma StepKeepsInv(w: World, call: Call, answer: Answer)
    requires Inv(w) && Enabled(w, call, answer)
    ensures Inv(Next(w, call, answer))
  {
    var v := Next(w, call, answer);
    forall h | Active(v, h) ensures h.resource in v.held && v.held[h.resource] == h {
      if h in w.issued { assert Active(w, h); }
    }
  }

  predicate Run(w: World, calls: seq<(Call, Answer)>)
    decreases |calls|
  {
    |calls| == 0 || (Enabled(w, calls[0].0, calls[0].1) && Run(Next(w, calls[0].0, calls[0].1), calls[1..]))
  }

  function After(w: World, calls: seq<(Call, Answer)>): World
    requires Run(w, calls)
    decreases |calls|
  {
    if |calls| == 0 then w else After(Next(w, calls[0].0, calls[0].1), calls[1..])
  }

  lemma {:induction false} RunsKeepInv(w: World, calls: seq<(Call, Answer)>)
    requires Inv(w) && Run(w, calls)
    ensures Inv(After(w, calls))
    decreases |calls|
  {
    hide Inv, Enabled, Next;
    if |calls| > 0 {
      StepKeepsInv(w, calls[0].0, calls[0].1);
      RunsKeepInv(Next(w, calls[0].0, calls[0].1), calls[1..]);
    }
  }

  /** Mutual exclusion: two handles on one resource that are neither released nor run
      out are the same handle. */
  lemma MutualExclusion(calls: seq<(Call, Answer)>, g: Handle, h: Handle)
    requires Run(START, calls) && g.resource == h.resource
    requires Active(After(START, calls), g) && Active(After(START, calls), h)
    ensures g == h
  {
    RunsKeepInv(START, calls);
  }

  /** A release never takes the resource from another handle, however stale it is; and
      a handle that was released, or replaced, is not released again. */
  lemma StaleReleaseIsHarmless(calls: seq<(Call, Answer)>, stale: Handle, now: Time, answer: Answer, h: Handle)
    requires Run(START, calls) && Enabled(After(START, calls), Release(stale, now), answer)
    requires h != stale && h.resource in After(START, calls).held && After(START, calls).held[h.resource] == h
    ensures var after := Next(After(START, calls), Release(stale, now), answer);
      h.resource in after.held && after.held[h.resource] == h
    ensures stale.resource == h.resource ==> answer == NotHeld
  {
    RunsKeepInv(START, calls);
    hide Run, After;
  }

  /** A grant that was not released keeps everybody else out for all of its time: before
      the instant it runs out, every request for the resource is refused. */
  lemma HeldForItsTime(calls: seq<(Call, Answer)>, h: Handle, owner: Owner, until: Until, now: Time, answer: Answer)
    requires Run(START, calls) && Enabled(After(START, calls), Acquire(h.resource, owner, until, now), answer)
    requires h in After(START, calls).issued && h !in After(START, calls).returned
    requires h.until == Forever || now < h.until.t
    ensures answer == NotHeld
  {
    RunsKeepInv(START, calls);
    assert Active(After(START, calls), h);
    hide Run, After;
  }

  /** And for no longer: once every grant of the resource was released or has run out, a
      request for it is granted. */
  lemma FreeIsGranted(calls: seq<(Call, Answer)>, r: Resource, owner: Owner, until: Until, now: Time, answer: Answer)
    requires Run(START, calls) && Enabled(After(START, calls), Acquire(r, owner, until, now), answer)
    requires var w := After(START, calls);
      forall h :: h in w.issued && h.resource == r && h !in w.returned ==> h.until.At? && h.until.t < now
    ensures answer == Granted(Handle(r, owner, until))
  {
    RunsKeepInv(START, calls);
    hide Run, After;
  }

  /** A holder that releases in time is answered that it did. */
  lemma HolderCanRelease(calls: seq<(Call, Answer)>, h: Handle, now: Time, answer: Answer)
    requires Run(START, calls) && Enabled(After(START, calls), Release(h, now), answer)
    requires h !in After(START, calls).returned && (h.until == Forever || now < h.until.t)
    ensures answer == Released
    ensures h in Next(After(START, calls), Release(h, now), answer).returned
  {
    RunsKeepInv(START, calls);
    assert Active(After(START, calls), h);
    hide Run, After;
  }
}
