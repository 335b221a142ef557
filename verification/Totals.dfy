/** Sums over all histories of a map: how many entries carry a given name. */
module Totals {
  import opened Lifecycle

  type Histories = map<JobId, seq<Entry>>

  function Named(h: seq<Entry>, name: State): nat {
    Count(Names(h), name)
  }

  ghost function Total(hs: Histories, name: State): nat {
    if hs == map[] then 0 else
    var id :| id in hs;
    Named(hs[id], name) + Total(hs - {id}, name)
  }

  lemma TotalOfNone(name: State)
    ensures Total(map[], name) == 0
  {
  }

  /** The sum does not depend on the order in which jobs are visited. */
  lemma {:induction false} TotalSplit(hs: Histories, id: JobId, name: State)
    requires id in hs
    ensures Total(hs, name) == Named(hs[id], name) + Total(hs - {id}, name)
    decreases |hs|
  {
    var first :| first in hs && Total(hs, name) == Named(hs[first], name) + Total(hs - {first}, name);
    if first != id {
      TotalSplit(hs - {first}, id, name);
      assert hs - {first} - {id} == hs - {id} - {first};
      TotalSplit(hs - {id}, first, name);
    }
  }

  lemma TotalInsert(hs: Histories, id: JobId, e: Entry, name: State)
    requires id !in hs
    ensures Total(hs[id := [e]], name) == Total(hs, name) + if e.name == name then 1 else 0
  {
    var after := hs[id := [e]];
    TotalSplit(after, id, name);
    assert after - {id} == hs;
    NamesAppend([], e);
    CountAppend([], e.name, name);
    assert [] + [e] == [e] && Names([]) == [];
  }

  lemma TotalAppend(hs: Histories, id: JobId, e: Entry, name: State)
    requires id in hs
    ensures Total(hs[id := hs[id] + [e]], name) == Total(hs, name) + if e.name == name then 1 else 0
  {
    var after := hs[id := hs[id] + [e]];
    TotalSplit(hs, id, name);
    TotalSplit(after, id, name);
    assert after - {id} == hs - {id};
    NamesAppend(hs[id], e);
    CountAppend(Names(hs[id]), e.name, name);
  }
}
