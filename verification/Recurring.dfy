/** Reconciling the cron scheduler with the stored definitions
    (internal/engine/recurring.go). */
module Recurring {
  datatype DefinitionId = DefinitionId(name: string)
  type CronId = int

  datatype Definition = Definition(id: DefinitionId, cronExpr: string, jobName: string, enabled: bool)

  /** The manager's map from definitions to cron entries, and the cron table itself:
      each live entry runs the definition it was added for. */
  datatype Tables = Tables(entries: map<DefinitionId, CronId>, live: map<CronId, Definition>, next: CronId)

  const EMPTY := Tables(map[], map[], 1)

  /** No entry is leaked and none doubled: the two maps are inverse to each other. */
  ghost predicate Bijective(t: Tables) {
    && (forall id :: id in t.entries ==> t.entries[id] in t.live && t.live[t.entries[id]].id == id)
    && (forall c :: c in t.live ==> t.live[c].id in t.entries && t.entries[t.live[c].id] == c)
    && (forall c :: c in t.live ==> c < t.next)
  }

  /** Definitions are stored under their ids. */
  ghost predicate DistinctIds(defs: seq<Definition>) {
    forall i, j :: 0 <= i < j < |defs| ==> defs[i].id != defs[j].id
  }

  function Scheduled(t: Tables, d: Definition, parses: string -> bool): Tables {
    if !parses(d.cronExpr) then t else
    Tables(t.entries[d.id := t.next], t.live[t.next := d], t.next + 1)
  }

  function Unscheduled(t: Tables, id: DefinitionId): Tables {
    if id !in t.entries then t else
    t.(entries := t.entries - {id}, live := t.live - {t.entries[id]})
  }

  function LoadPrefix(t: Tables, defs: seq<Definition>, n: nat, parses: string -> bool): Tables
    requires n <= |defs|
  {
    if n == 0 then t else
    var before := LoadPrefix(t, defs, n - 1, parses);
    if defs[n - 1].enabled then Scheduled(before, defs[n - 1], parses) else before
  }

  function ReloadOne(t: Tables, d: Definition, parses: string -> bool): Tables {
    if !d.enabled then Unscheduled(t, d.id)
    else if d.id in t.entries then t
    else Scheduled(t, d, parses)
  }

  function ReloadPrefix(t: Tables, defs: seq<Definition>, n: nat, parses: string -> bool): Tables
    requires n <= |defs|
  {
    if n == 0 then t else ReloadOne(ReloadPrefix(t, defs, n - 1, parses), defs[n - 1], parses)
  }

  function Ids(defs: seq<Definition>): set<DefinitionId> {
    set i | 0 <= i < |defs| :: defs[i].id
  }

  /** What unscheduling everything outside a set leaves. */
  function Keep(t: Tables, seen: set<DefinitionId>): Tables {
    t.(entries := map id | id in t.entries && id in seen :: t.entries[id],
       live := map c | c in t.live && t.live[c].id in seen :: t.live[c])
  }

  function Reloaded(t: Tables, defs: seq<Definition>, parses: string -> bool): Tables {
    Keep(ReloadPrefix(t, defs, |defs|, parses), Ids(defs))
  }

  class Manager {
    const parses: string -> bool
    var entries: map<DefinitionId, CronId>
    var live: map<CronId, Definition>
    var next: CronId

    ghost function View(): Tables
      reads this
    {
      Tables(entries, live, next)
    }

    constructor (parses: string -> bool)
      ensures View() == EMPTY && this.parses == parses
    {
      this.parses := parses;
      entries, live, next := map[], map[], 1;
    }

    /** cron.AddFunc: a fresh entry, or a parse error that changes nothing. */
    method AddFunc(d: Definition) returns (ok: bool, id: CronId)
      modifies this`live, this`next
      ensures ok == parses(d.cronExpr) && (ok ==> id == old(next))
      ensures live == (if ok then old(live)[old(next) := d] else old(live)) && next == old(next) + if ok then 1 else 0
    {
      ok, id := parses(d.cronExpr), next;
      if ok {
        live := live[id := d];
        next := next + 1;
      }
    }

    method Schedule(d: Definition)
      modifies this
      ensures View() == Scheduled(old(View()), d, parses)
    {
      var ok, id := AddFunc(d);
      if !ok {
        return;
      }
      entries := entries[d.id := id];
    }

    method Unschedule(id: DefinitionId)
      modifies this
      ensures View() == Unscheduled(old(View()), id)
    {
      if id in entries {
        live := live - {entries[id]};
        entries := entries - {id};
      }
    }

    method LoadAll(defs: seq<Definition>)
      modifies this
      ensures View() == LoadPrefix(old(View()), defs, |defs|, parses)
    {
      ghost var before := View();
      for i := 0 to |defs|
        invariant View() == LoadPrefix(before, defs, i, parses)
      {
        if !defs[i].enabled {
          continue;
        }
        Schedule(defs[i]);
      }
    }

    method Reload(defs: seq<Definition>)
      requires Bijective(View()) && DistinctIds(defs)
      modifies this
      ensures View() == Reloaded(old(View()), defs, parses)
    {
      ghost var before := View();
      var seen := {};
      for i := 0 to |defs|
        invariant View() == ReloadPrefix(before, defs, i, parses)
        invariant Bijective(View())
        invariant seen == Ids(defs[..i])
      {
        seen := seen + {defs[i].id};
        IdsMore(defs, i);
        ReloadOneKeepsBijective(View(), defs[i], parses);
        if !defs[i].enabled {
          Unschedule(defs[i].id);
          continue;
        }
        if defs[i].id !in entries {
          Schedule(defs[i]);
        }
      }
      assert defs[..|defs|] == defs;
      RemoveUnseen(seen);
    }

    /** The closing loop, over the entries in any order. */
    method RemoveUnseen(seen: set<DefinitionId>)
      requires Bijective(View())
      modifies this
      ensures View() == Keep(old(View()), seen)
    {
      ghost var before := View();
      var rest := entries.Keys;
      KeepAll(before, seen + rest);
      hide Keep, Unscheduled;
      while rest != {}
        invariant rest <= before.entries.Keys
        invariant View() == Keep(before, seen + rest)
        decreases |rest|
      {
        var id :| id in rest;
        ghost var still := seen + (rest - {id});
        if id in seen {
          assert still == seen + rest;
        } else {
          assert still + {id} == seen + rest;
          KeepLess(before, still, id);
          Unschedule(id);
        }
        rest := rest - {id};
      }
      assert seen + {} == seen;
    }
  }

  lemma IdsMore(defs: seq<Definition>, n: nat)
    requires n < |defs|
    ensures Ids(defs[..n + 1]) == Ids(defs[..n]) + {defs[n].id}
  {
    forall id ensures id in Ids(defs[..n + 1]) <==> id in Ids(defs[..n]) + {defs[n].id} {
      if id in Ids(defs[..n]) {
        var i :| 0 <= i < n && defs[..n][i].id == id;
        assert defs[..n + 1][i].id == id;
      }
      assert defs[..n + 1][n] == defs[n];
    }
  }

  lemma KeepAll(t: Tables, seen: set<DefinitionId>)
    requires Bijective(t) && t.entries.Keys <= seen
    ensures Keep(t, seen) == t
  {
    assert Keep(t, seen).entries == t.entries;
    forall c | c in t.live ensures t.live[c].id in seen { assert t.live[c].id in t.entries; }
    assert Keep(t, seen).live == t.live;
  }

  lemma KeepLess(t: Tables, seen: set<DefinitionId>, id: DefinitionId)
    requires Bijective(t) && id in t.entries && id !in seen
    ensures Unscheduled(Keep(t, seen + {id}), id) == Keep(t, seen)
  {
    var u, v := Unscheduled(Keep(t, seen + {id}), id), Keep(t, seen);
    assert u.entries == v.entries;
    forall c ensures c in u.live <==> c in v.live {
      if c in t.live && t.live[c].id == id { assert t.entries[id] == c; }
    }
    assert u.live == v.live;
  }

  lemma ReloadOneKeepsBijective(t: Tables, d: Definition, parses: string -> bool)
    requires Bijective(t)
    ensures Bijective(ReloadOne(t, d, parses))
  {
  }

  // ----- what a reload achieves -----

  /** Stored, enabled, and already scheduled or of an expression that parses. */
  ghost predicate Wanted(t: Tables, defs: seq<Definition>, n: nat, parses: string -> bool, id: DefinitionId)
    requires n <= |defs|
  {
    exists i :: 0 <= i < n && defs[i].id == id && defs[i].enabled && (id in t.entries || parses(defs[i].cronExpr))
  }

  ghost predicate Stored(defs: seq<Definition>, n: nat, id: DefinitionId)
    requires n <= |defs|
  {
    exists i :: 0 <= i < n && defs[i].id == id
  }

  lemma StoredAreIds(defs: seq<Definition>, id: DefinitionId)
    ensures Stored(defs, |defs|, id) <==> id in Ids(defs)
  {
  }

  /** An id is scheduled after a prefix of the loop if it is wanted by that prefix, or
      was scheduled and is not mentioned in it. */
  lemma {:induction false} ReloadPrefixEntries(t: Tables, defs: seq<Definition>, n: nat, parses: string -> bool, id: DefinitionId)
    requires Bijective(t) && DistinctIds(defs) && n <= |defs|
    ensures var r := ReloadPrefix(t, defs, n, parses);
      && Bijective(r) && t.next <= r.next
      && (id in r.entries <==> Wanted(t, defs, n, parses, id) || (id in t.entries && !Stored(defs, n, id)))
      && (id in t.entries && id in r.entries ==> r.entries[id] == t.entries[id] && r.live[r.entries[id]] == t.live[t.entries[id]])
      && (id !in t.entries && id in r.entries ==> r.entries[id] >= t.next && exists i :: 0 <= i < n && defs[i] == r.live[r.entries[id]])
  {
    if n > 0 {
      ReloadPrefixEntries(t, defs, n - 1, parses, id);
      var before, d := ReloadPrefix(t, defs, n - 1, parses), defs[n - 1];
      ReloadOneKeepsBijective(before, d, parses);
      if d.id == id {
        assert !Stored(defs, n - 1, id) && Stored(defs, n, id);
      }
    }
  }

  /** After a reload the map and the cron table are still in bijection; exactly the
      wanted definitions are scheduled; a definition that was scheduled keeps its cron
      entry, and a new one runs the definition just read. */
  lemma ReloadReconciles(t: Tables, defs: seq<Definition>, parses: string -> bool, id: DefinitionId)
    requires Bijective(t) && DistinctIds(defs)
    ensures var r := Reloaded(t, defs, parses);
      && Bijective(r)
      && (id in r.entries <==> Wanted(t, defs, |defs|, parses, id))
      && (id in t.entries && id in r.entries ==> r.entries[id] == t.entries[id] && r.live[r.entries[id]] == t.live[t.entries[id]])
      && (id !in t.entries && id in r.entries ==> r.entries[id] >= t.next && r.live[r.entries[id]] in defs)
  {
    ReloadPrefixEntries(t, defs, |defs|, parses, id);
    StoredAreIds(defs, id);
    if Wanted(t, defs, |defs|, parses, id) { assert Stored(defs, |defs|, id); }
    KeepIsBijective(ReloadPrefix(t, defs, |defs|, parses), Ids(defs));
    hide Wanted, Stored, Ids, ReloadPrefix, Bijective;
  }

  lemma KeepIsBijective(t: Tables, seen: set<DefinitionId>)
    requires Bijective(t)
    ensures Bijective(Keep(t, seen))
  {
  }

  /** The first load schedules exactly the enabled definitions that parse. */
  lemma {:induction false} LoadSchedulesAll(defs: seq<Definition>, n: nat, parses: string -> bool, id: DefinitionId)
    requires DistinctIds(defs) && n <= |defs|
    ensures var r := LoadPrefix(EMPTY, defs, n, parses);
      Bijective(r) && (id in r.entries <==> Wanted(EMPTY, defs, n, parses, id))
  {
    if n > 0 {
      LoadSchedulesAll(defs, n - 1, parses, id);
      LoadSchedulesAll(defs, n - 1, parses, defs[n - 1].id);
    }
  }

  // ----- a second reload -----

  /** Nothing the loop would change. */
  ghost predicate Settled(t: Tables, defs: seq<Definition>, parses: string -> bool) {
    && (forall i :: 0 <= i < |defs| ==> (defs[i].id in t.entries <==> defs[i].enabled && (defs[i].id in t.entries || parses(defs[i].cronExpr))))
    && (forall id :: id in t.entries ==> id in Ids(defs))
  }

  lemma {:induction false} SettledStays(t: Tables, defs: seq<Definition>, n: nat, parses: string -> bool)
    requires Settled(t, defs, parses) && n <= |defs|
    ensures ReloadPrefix(t, defs, n, parses) == t
  {
    if n > 0 { SettledStays(t, defs, n - 1, parses); }
  }

  lemma ReloadSettles(t: Tables, defs: seq<Definition>, parses: string -> bool)
    requires Bijective(t) && DistinctIds(defs)
    ensures Settled(Reloaded(t, defs, parses), defs, parses)
  {
    var r := Reloaded(t, defs, parses);
    forall i | 0 <= i < |defs|
      ensures defs[i].id in r.entries <==> defs[i].enabled && (defs[i].id in r.entries || parses(defs[i].cronExpr))
    {
      ReloadReconciles(t, defs, parses, defs[i].id);
    }
  }

  /** Reloading twice from the same definitions is reloading once. */
  lemma SecondReloadChangesNothing(t: Tables, defs: seq<Definition>, parses: string -> bool)
    requires Bijective(t) && DistinctIds(defs)
    ensures Reloaded(Reloaded(t, defs, parses), defs, parses) == Reloaded(t, defs, parses)
  {
    var r := Reloaded(t, defs, parses);
    ReloadReconciles(t, defs, parses, DefinitionId(""));
    ReloadSettles(t, defs, parses);
    SettledStays(r, defs, |defs|, parses);
    assert r.entries.Keys <= Ids(defs);
    KeepAll(r, Ids(defs));
    hide Reloaded, Bijective, Settled;
    assert Reloaded(r, defs, parses) == Keep(ReloadPrefix(r, defs, |defs|, parses), Ids(defs)) by { ReloadedIs(r, defs, parses); }
  }

  lemma ReloadedIs(t: Tables, defs: seq<Definition>, parses: string -> bool)
    ensures Reloaded(t, defs, parses) == Keep(ReloadPrefix(t, defs, |defs|, parses), Ids(defs))
  {
  }
}
