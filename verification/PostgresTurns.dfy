/** Whose turn it is on the Postgres backend. A row keeps the queue token it was inserted
    with, also when it is requeued or retried, and a dequeue takes the least token: only
    the jobs inserted before a waiting one can go first, and no request adds to these. */
module PostgresTurns {
  import opened Lifecycle
  import opened Protocol
  import opened PostgresSpec
  import B = Backends
  import W = Workers

  /** Tokens are drawn from a sequence: all different, all below the next one. */
  ghost predicate Numbered(s: Tables) {
    && (forall id :: id in s.jobs ==> s.jobs[id].token < s.nextToken)
    && (forall x, y :: x in s.jobs && y in s.jobs && s.jobs[x].token == s.jobs[y].token ==> x == y)
  }

  /** The jobs inserted before this one. */
  function Older(s: Tables, id: JobId): set<JobId>
    requires id in s.jobs
  {
    set x | x in s.jobs && s.jobs[x].token < s.jobs[id].token
  }

  ghost predicate Serves(s: Tables, ev: Event) {
    Rows(s) && Numbered(s) && Allowed(s, ev.op, ev.out) && (Creates(ev.op) ==> ev.op.id !in s.jobs)
  }

  lemma NewestToken(s: Tables, ev: Event, x: JobId)
    requires Serves(s, ev) && Creates(ev.op)
    ensures Apply(s, ev.op, ev.out).nextToken == s.nextToken + 1
    ensures x in Apply(s, ev.op, ev.out).jobs ==>
      if x in s.jobs then Apply(s, ev.op, ev.out).jobs[x].token == s.jobs[x].token
      else ev.op.id == x && Apply(s, ev.op, ev.out).jobs[x].token == s.nextToken
  {
    hide Numbered;
  }

  /** No token is drawn, and every row left was there, with the same token. */
  predicate SameTokens(s: Tables, t: Tables) {
    t.nextToken == s.nextToken && forall x :: x in t.jobs ==> x in s.jobs && t.jobs[x].token == s.jobs[x].token
  }

  lemma SetKeepsTokens(s: Tables, id: JobId, state: State, progress: Progress, now: Time)
    requires id in s.jobs && id in s.states
    ensures SameTokens(s, Set(s, id, state, progress, now))
  {
  }

  lemma OldTokens(s: Tables, ev: Event)
    requires Serves(s, ev) && !Creates(ev.op)
    ensures SameTokens(s, Apply(s, ev.op, ev.out))
  {
    hide Numbered, Selected, Set, Conts, AllExpired;
    forall id, state, progress, now | id in s.jobs && id in s.states ensures SameTokens(s, Set(s, id, state, progress, now)) {
      SetKeepsTokens(s, id, state, progress, now);
    }
  }

  lemma TokensStay(s: Tables, ev: Event, x: JobId)
    requires Serves(s, ev) && x in Apply(s, ev.op, ev.out).jobs
    ensures if x in s.jobs then Apply(s, ev.op, ev.out).jobs[x].token == s.jobs[x].token
      else Creates(ev.op) && ev.op.id == x && Apply(s, ev.op, ev.out).jobs[x].token == s.nextToken
  {
    hide Serves, Apply;
    if Creates(ev.op) { NewestToken(s, ev, x); } else { OldTokens(s, ev); }
  }

  lemma NextTokenMoves(s: Tables, ev: Event)
    requires Serves(s, ev)
    ensures Apply(s, ev.op, ev.out).nextToken == s.nextToken + if Creates(ev.op) then 1 else 0
  {
    hide Serves, Apply;
    if Creates(ev.op) { NewestToken(s, ev, ev.op.id); } else { OldTokens(s, ev); }
  }

  lemma RequestKeepsNumbered(s: Tables, ev: Event)
    requires Serves(s, ev)
    ensures Numbered(Apply(s, ev.op, ev.out))
  {
    var t := Apply(s, ev.op, ev.out);
    hide Allowed, Apply;
    NextTokenMoves(s, ev);
    forall x | x in t.jobs ensures t.jobs[x].token < t.nextToken { TokensStay(s, ev, x); }
    forall x, y | x in t.jobs && y in t.jobs && t.jobs[x].token == t.jobs[y].token ensures x == y {
      TokensStay(s, ev, x);
      TokensStay(s, ev, y);
    }
  }

  /** No request puts anything in front of a job. */
  lemma RequestKeepsOlder(s: Tables, ev: Event, id: JobId)
    requires Serves(s, ev) && id in s.jobs && id in Apply(s, ev.op, ev.out).jobs
    ensures Older(Apply(s, ev.op, ev.out), id) <= Older(s, id)
  {
    var t := Apply(s, ev.op, ev.out);
    hide Allowed, Apply;
    TokensStay(s, ev, id);
    forall x | x in t.jobs && t.jobs[x].token < t.jobs[id].token ensures x in s.jobs && s.jobs[x].token < s.jobs[id].token {
      TokensStay(s, ev, x);
    }
  }

  // ----- over disciplined runs -----

  ghost predicate OnTables(c: B.Cluster) {
    c.backend.Postgres? && B.Inv(c) && Numbered(c.backend.tables)
  }

  lemma ActServes(c: B.Cluster, act: W.Act)
    requires OnTables(c) && B.Enabled(c, act) && W.Asks(c.control, act).Ask?
    ensures Serves(c.backend.tables, W.Asks(c.control, act).ev)
  {
    B.JobsAgree(c.backend);
    hide Numbered, B.View, Apply, Allowed, Consistent;
  }

  lemma ActKeepsNumbered(c: B.Cluster, act: W.Act)
    requires OnTables(c) && B.Enabled(c, act)
    ensures OnTables(B.Next(c, act))
    ensures var s, t := c.backend.tables, B.Next(c, act).backend.tables;
      forall id :: id in s.jobs && id in t.jobs ==> Older(t, id) <= Older(s, id)
  {
    var asked := W.Asks(c.control, act);
    if asked.Ask? {
      ActServes(c, act);
      RequestKeepsNumbered(c.backend.tables, asked.ev);
      forall id | id in c.backend.tables.jobs && id in Apply(c.backend.tables, asked.ev.op, asked.ev.out).jobs
        ensures Older(Apply(c.backend.tables, asked.ev.op, asked.ev.out), id) <= Older(c.backend.tables, id)
      {
        RequestKeepsOlder(c.backend.tables, asked.ev, id);
      }
    }
    hide Numbered, Apply, Allowed, B.View, B.Inv, Older, W.Control', Serves;
    B.ActRefines(c, act);
  }

  lemma {:induction false} RunsKeepNumbered(c: B.Cluster, acts: seq<W.Act>)
    requires OnTables(c) && B.Run(c, acts)
    ensures OnTables(B.After(c, acts))
    decreases |acts|
  {
    hide OnTables, B.Enabled, B.Next;
    if |acts| > 0 {
      ActKeepsNumbered(c, acts[0]);
      RunsKeepNumbered(B.Next(c, acts[0]), acts[1..]);
    }
  }

  /** In every disciplined run over the tables: while a job waits, a dequeue of its queue
      finds work, and hands out that job, or one of those inserted before it; and the
      next act, whatever it is, adds to these no job. */
  lemma TurnComes(acts: seq<W.Act>, act: W.Act, id: JobId)
    requires B.Run(B.ON_POSTGRES, acts) && B.Enabled(B.After(B.ON_POSTGRES, acts), act)
    ensures B.After(B.ON_POSTGRES, acts).backend.Postgres? && B.Next(B.After(B.ON_POSTGRES, acts), act).backend.Postgres?
    ensures var c := B.After(B.ON_POSTGRES, acts);
      var s, t := c.backend.tables, B.Next(c, act).backend.tables;
      && (act.Poll? && Candidate(s, act.queues, id) ==> act.out.Ticket? && (act.out.id == id || act.out.id in Older(s, id)))
      && (id in s.jobs && id in t.jobs ==> Older(t, id) <= Older(s, id))
  {
    B.FreshIsStart(B.ON_POSTGRES);
    assert OnTables(B.ON_POSTGRES);
    RunsKeepNumbered(B.ON_POSTGRES, acts);
    var c := B.After(B.ON_POSTGRES, acts);
    ActKeepsNumbered(c, act);
    if act.Poll? && Candidate(c.backend.tables, act.queues, id) {
      ActServes(c, act);
      LeastTokenGoes(c.backend.tables, act.queues, act.now, act.out, id);
    }
    hide B.Run, B.After, B.Next, B.Inv, Numbered, Older, Apply, Allowed, Serves;
  }

  lemma LeastTokenGoes(s: Tables, queues: seq<Queue>, now: Time, out: Outcome, id: JobId)
    requires Numbered(s) && Allowed(s, Op.Dequeue(queues, now), out) && Candidate(s, queues, id)
    ensures out.Ticket? && (out.id == id || out.id in Older(s, id))
  {
  }
}
