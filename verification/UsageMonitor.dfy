/** The usage monitor as an object. A save's local variables between its effects are kept in `saves`, so that other saves
    and additions may come between them. Each method is that step of `UsageAccounting` and keeps its laws. */
module UsageMonitor {
  import opened Base
  import opened UsageAccounting

  class Usage {
    var dataStore: Table
    var file: seq<PortUsage>
    var totalTraffic: word
    var saves: seq<Save>
    ghost var resetter: Option<nat>
    ghost var stray: int
    ghost var writer: Option<nat>

    ghost function View(): State
      reads this
    {
      State(dataStore, file, totalTraffic, saves, resetter, stray, writer)
    }

    ghost predicate Valid()
      reads this
    {
      Lawful(View())
    }

    constructor (file: seq<PortUsage>)
      ensures Valid() && View() == Start(file)
    {
      dataStore, this.file, totalTraffic, saves := map[], file, 0, [];
      resetter, stray, writer := None, 0, None;
    }

    method AddOrUpdatePort(port: int, usage: word)
      requires Valid()
      modifies this`dataStore
      ensures Valid() && View() == Apply(old(View()), Add(port, usage))
    {
      hide Lawful;
      StepLawful(View(), Add(port, usage));
      if port in dataStore {
        dataStore := dataStore[port := Plus(dataStore[port], usage)];
      } else {
        dataStore := dataStore[port := usage];
      }
    }

    /** collectUsageDataFromSyncMap: every entry once, in the order the map happens to range, deleting as it goes. */
    method CollectUsageData() returns (usageData: seq<PortUsage>)
      modifies this`dataStore
      ensures dataStore == map[] && Lists(usageData, old(dataStore))
    {
      hide Load, Ranging;
      RangeStart(dataStore);
      usageData := [];
      while |dataStore| > 0
        invariant Ranging(old(dataStore), usageData, dataStore)
        decreases |dataStore|
      {
        SomeKey(dataStore);
        var port :| port in dataStore;
        var portUsage := PortUsage(port, dataStore[port]);
        RangeOne(old(dataStore), usageData, dataStore, portUsage);
        usageData := usageData + [portUsage];
        dataStore := dataStore - {port};
      }
      assert dataStore == map[];
      RangeEnd(old(dataStore), usageData);
    }

    /** saveUsageData, step 1. */
    method OpenSave()
      requires Valid()
      modifies this`saves
      ensures Valid() && View() == Apply(old(View()), Open)
    {
      hide Lawful;
      StepLawful(View(), Open);
      saves := saves + [Opened(file)];
    }

    /** saveUsageData, step 2. */
    method DrainSave(i: nat) returns (current: seq<PortUsage>)
      requires Valid() && i < |saves| && saves[i].Opened?
      modifies this`dataStore, this`saves
      ensures Enabled(old(View()), Drain(i, current))
      ensures Valid() && View() == Apply(old(View()), Drain(i, current))
    {
      hide Lawful, Lists;
      current := CollectUsageData();
      StepLawful(old(View()), Drain(i, current));
      saves := saves[i := Drained(saves[i].existing, current)];
    }

    /** saveUsageData, step 3, and the reset of the counter. */
    method ResetTotal(i: nat) returns (order: seq<PortUsage>)
      requires Valid() && i < |saves| && saves[i].Drained?
      modifies this`totalTraffic, this`saves, this`resetter, this`stray
      ensures Enabled(old(View()), Reset(i, order))
      ensures Valid() && View() == Apply(old(View()), Reset(i, order))
    {
      hide Lawful, Lists;
      var usageMap := Merge(saves[i].existing, saves[i].current);
      totalTraffic := 0;
      order := ListEntries(usageMap);
      StepLawful(old(View()), Reset(i, order));
      saves := saves[i := Tallying(saves[i].existing, saves[i].current, order, 0, None)];
      resetter, stray := Some(i), 0;
    }

    /** saveUsageData, step 4: adding one entry loads the counter, */
    method LoadTotal(i: nat)
      requires Valid() && i < |saves| && saves[i].Tallying? && saves[i].done < |saves[i].order| && saves[i].loaded.None?
      modifies this`saves
      ensures Valid() && View() == Apply(old(View()), Fetch(i))
    {
      hide Lawful;
      StepLawful(View(), Fetch(i));
      saves := saves[i := saves[i].(loaded := Some(totalTraffic))];
    }

    /** and stores it, with no lock in between. */
    method StoreTotal(i: nat)
      requires Valid() && i < |saves| && saves[i].Tallying? && saves[i].done < |saves[i].order| && saves[i].loaded.Some?
      modifies this`totalTraffic, this`saves, this`stray
      ensures Valid() && View() == Apply(old(View()), Tally(i))
    {
      hide Lawful;
      StepLawful(View(), Tally(i));
      var save := saves[i];
      var usage := save.order[save.done].usage;
      stray := stray + save.loaded.value - totalTraffic + if resetter == Some(i) then 0 else usage;
      totalTraffic := Plus(save.loaded.value, usage);
      saves := saves[i := save.(done := save.done + 1, loaded := None)];
    }

    /** saveUsageData, step 4, with nothing in between. */
    method AddAllToTotal(i: nat)
      requires Valid() && Serial(View()) && i < |saves| && saves[i].Tallying? && saves[i].done == 0 && saves[i].loaded.None?
      modifies this`totalTraffic, this`saves, this`stray
      ensures Valid() && Serial(View())
      ensures saves == old(saves)[i := old(saves)[i].(done := |old(saves)[i].order|)]
    {
      hide Lawful, Serial;
      ghost var before := saves;
      for k := 0 to |saves[i].order|
        invariant Valid() && Serial(View())
        invariant saves == before[i := before[i].(done := k)]
      {
        StepSerial(View(), Fetch(i), 0);
        LoadTotal(i);
        StepSerial(View(), Tally(i), 0);
        StoreTotal(i);
      }
    }

    /** saveUsageData, steps 5 and 6. */
    method FinishSave(i: nat)
      requires Valid() && i < |saves| && saves[i].Tallying? && saves[i].done == |saves[i].order| && saves[i].loaded.None?
      modifies this`file, this`saves, this`writer
      ensures Valid() && View() == Apply(old(View()), WriteFile(i))
    {
      hide Lawful;
      StepLawful(View(), WriteFile(i));
      file := saves[i].order;
      saves := saves[i := Written(saves[i].order)];
      writer := Some(i);
    }

    /** One whole save with nothing in between: every port's stored usage grows by what memory held, memory is empty, the
        file has no duplicate ports and the traffic counter is its sum. */
    method SaveUsageData()
      requires Valid() && Serial(View()) && AtRest(View())
      modifies this
      ensures Valid() && Serial(View()) && AtRest(View())
      ensures dataStore == map[] && Saved(View())
      ensures forall port :: Get(Load(file), port) == Plus(Get(Load(old(file)), port), Get(old(dataStore), port))
    {
      hide Sum, Load, Merged, Lists, Lawful, Serial, Saved, Plus, Get;
      var i := |saves|;
      StepSerial(View(), Open, 0);
      OpenSave();
      ghost var started := View();
      var current := DrainSave(i);
      StepSerial(started, Drain(i, current), 0);
      ghost var drained := View();
      var order := ResetTotal(i);
      StepSerial(drained, Reset(i, order), 0);
      AddAllToTotal(i);
      StepSerial(View(), WriteFile(i), 0);
      FinishSave(i);
      LawfulSaved(View());
      forall port
        ensures Get(Load(file), port) == Plus(Get(Load(old(file)), port), Get(old(dataStore), port))
      {
        WrittenUsage(old(file), old(dataStore), current, order, port);
      }
    }

    /** getUsageFromFile; the library's sort by port is an insertion sort here. */
    method GetUsageFromFile() returns (usageData: seq<PortUsage>)
      ensures usageData == SortByPort(file)
    {
      usageData := [];
      for k := 0 to |file|
        invariant usageData == SortByPort(file[..k])
      {
        assert file[..k + 1][..k] == file[..k];
        usageData := Insert(usageData, file[k]);
      }
      assert file[..|file|] == file;
    }
  }

  /** Existing entries go in first, a later duplicate replacing an earlier one; current ones are added to them. */
  method Merge(existing: seq<PortUsage>, current: seq<PortUsage>) returns (usageMap: Table)
    ensures usageMap == Merged(Load(existing), current)
  {
    usageMap := map[];
    for k := 0 to |existing|
      invariant usageMap == Load(existing[..k])
    {
      assert existing[..k + 1][..k] == existing[..k];
      usageMap := usageMap[existing[k].port := existing[k].usage];
    }
    assert existing[..|existing|] == existing;
    for k := 0 to |current|
      invariant usageMap == Merged(Load(existing), current[..k])
    {
      assert current[..k + 1][..k] == current[..k];
      var usage := current[k];
      if usage.port in usageMap {
        usageMap := usageMap[usage.port := Plus(usageMap[usage.port], usage.usage)];
      } else {
        usageMap := usageMap[usage.port := usage.usage];
      }
    }
    assert current[..|current|] == current;
  }

  /** Ranging over the merged map: the entries in some order. */
  method ListEntries(usageMap: Table) returns (list: seq<PortUsage>)
    ensures Lists(list, usageMap)
  {
    hide Load, Ranging;
    RangeStart(usageMap);
    list := [];
    var left := usageMap;
    while |left| > 0
      invariant Ranging(usageMap, list, left)
      decreases |left|
    {
      SomeKey(left);
      var port :| port in left;
      var usage := PortUsage(port, left[port]);
      RangeOne(usageMap, list, left, usage);
      list := list + [usage];
      left := left - {port};
    }
    assert left == map[];
    RangeEnd(usageMap, list);
  }

  lemma LawfulSaved(s: State)
    requires Lawful(s) && Serial(s) && AtRest(s) && s.saves != []
    ensures Saved(s)
  {
    hide Sound, Totalled, Serial, Saved;
    SerialIsSaved(s);
  }

  lemma WrittenUsage(existing: seq<PortUsage>, d: Table, current: seq<PortUsage>, order: seq<PortUsage>, port: int)
    requires Lists(current, d) && Lists(order, Merged(Load(existing), current))
    ensures Get(Load(order), port) == Plus(Get(Load(existing), port), Get(d, port))
  {
    MergeConserves(Load(existing), current, d, port);
    hide Get, Load, Merged, Congruent, Plus;
    CongruentIsPlus(Get(Load(order), port), Get(Load(existing), port), Get(d, port));
  }

  lemma CongruentIsPlus(r: word, a: word, b: word)
    requires Congruent(r, a + b)
    ensures r == Plus(a, b)
  {
    SameRemainder(r, a + b);
    hide Congruent;
    assert r % WORD == r;
  }

  /** Half-way through a table: the entries already listed and those left make up the whole. */
  ghost predicate Ranging(all: Table, list: seq<PortUsage>, left: Table) {
    Distinct(list) && Load(list).Keys !! left.Keys && Load(list) + left == all
  }

  lemma SomeKey(t: Table)
    ensures t == map[] || exists port :: port in t
  {
    if forall port :: port !in t {
      assert t == map[];
    }
  }

  lemma RangeStart(all: Table)
    ensures Ranging(all, [], all)
  {
  }

  lemma RangeOne(all: Table, list: seq<PortUsage>, left: Table, u: PortUsage)
    requires Ranging(all, list, left) && u.port in left && left[u.port] == u.usage
    ensures Ranging(all, list + [u], left - {u.port})
  {
    hide Load;
    DistinctAppend(list, u);
    assert Load(list)[u.port := u.usage] + (left - {u.port}) == Load(list) + left;
  }

  lemma RangeEnd(all: Table, list: seq<PortUsage>)
    requires Ranging(all, list, map[])
    ensures Lists(list, all)
  {
    assert Load(list) + map[] == Load(list);
  }
}
