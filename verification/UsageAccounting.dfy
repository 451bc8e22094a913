/** Usage accounting: copy loops add bytes per port to a table in memory; every tick starts a save that reads the usage
    file, drains the table, recounts the total traffic and writes the merged usage back. Any number of saves may be under
    way. */
module UsageAccounting {
  import opened Base

  const WORD: int := 0x1_0000_0000_0000_0000

  /** uint64. */
  type word = n: int | 0 <= n < WORD

  datatype PortUsage = PortUsage(port: int, usage: word)

  type Table = map<int, word>

  function Get(t: Table, port: int): word { if port in t then t[port] else 0 }

  /** Addition of uint64 values wraps around. */
  function Plus(a: word, b: word): word { (a + b) % WORD }

  /** Adding usage to a port. */
  function Bump(t: Table, port: int, usage: word): Table {
    t[port := Plus(Get(t, port), usage)]
  }

  /** A list of entries as a table; a later entry replaces an earlier one of the same port. */
  function Load(list: seq<PortUsage>): Table {
    if list == [] then map[] else
    var last := list[|list| - 1];
    Load(list[..|list| - 1])[last.port := last.usage]
  }

  function Merged(t: Table, list: seq<PortUsage>): Table {
    if list == [] then t else
    var last := list[|list| - 1];
    Bump(Merged(t, list[..|list| - 1]), last.port, last.usage)
  }

  ghost predicate Distinct(list: seq<PortUsage>) {
    forall i, j :: 0 <= i < j < |list| ==> list[i].port != list[j].port
  }

  /** The entries of a table in some order, each once: what ranging over a map yields. */
  ghost predicate Lists(list: seq<PortUsage>, t: Table) {
    Distinct(list) && Load(list) == t
  }

  function UsageOf(u: PortUsage): int { u.usage }

  ghost function TotalUsage(list: seq<PortUsage>): word { Sum(list, UsageOf) % WORD }

  // ---------------------------------------------------------------- the machine

  /** One saveUsageData between its effects: the file read; memory drained; the merged entries being added to the traffic
      counter, which was reset first, each by a load and a store that no lock holds together; the file written. */
  datatype Save =
    | Opened(existing: seq<PortUsage>)
    | Drained(existing: seq<PortUsage>, current: seq<PortUsage>)
    | Tallying(existing: seq<PortUsage>, current: seq<PortUsage>, order: seq<PortUsage>, done: nat, loaded: Option<word>)
    | Written(order: seq<PortUsage>)

  datatype State = State(
    dataStore: Table,
    file: seq<PortUsage>,
    totalTraffic: word,
    saves: seq<Save>,
    // what has happened so far
    resetter: Option<nat>, // the save that last reset the counter
    stray: int,            // what interference has added to it since: additions of other saves, less what stores overwrote
    writer: Option<nat>)   // the save that last wrote the file

  function Start(file: seq<PortUsage>): State {
    State(map[], file, 0, [], None, 0, None)
  }

  datatype Step =
    | Add(port: int, usage: word)
    | Open
    | Drain(i: nat, current: seq<PortUsage>)
    | Reset(i: nat, order: seq<PortUsage>)
    | Fetch(i: nat)
    | Tally(i: nat)
    | WriteFile(i: nat)

  ghost predicate Enabled(s: State, e: Step) {
    match e
    case Add(_, _) => true
    case Open => true
    case Drain(i, current) => i < |s.saves| && s.saves[i].Opened? && Lists(current, s.dataStore)
    case Reset(i, order) =>
      i < |s.saves| && s.saves[i].Drained? && Lists(order, Merged(Load(s.saves[i].existing), s.saves[i].current))
    case Fetch(i) =>
      i < |s.saves| && s.saves[i].Tallying? && s.saves[i].done < |s.saves[i].order| && s.saves[i].loaded.None?
    case Tally(i) =>
      i < |s.saves| && s.saves[i].Tallying? && s.saves[i].done < |s.saves[i].order| && s.saves[i].loaded.Some?
    case WriteFile(i) =>
      i < |s.saves| && s.saves[i].Tallying? && s.saves[i].done == |s.saves[i].order| && s.saves[i].loaded.None?
  }

  function Set(s: State, i: nat, v: Save): State
    requires i < |s.saves|
  {
    s.(saves := s.saves[i := v])
  }

  ghost function Apply(s: State, e: Step): State {
    if !Enabled(s, e) then s else
    match e
    case Add(port, usage) => s.(dataStore := Bump(s.dataStore, port, usage))
    case Open => s.(saves := s.saves + [Opened(s.file)])
    case Drain(i, current) => Set(s, i, Drained(s.saves[i].existing, current)).(dataStore := map[])
    case Reset(i, order) =>
      Set(s, i, Tallying(s.saves[i].existing, s.saves[i].current, order, 0, None)).(totalTraffic := 0, resetter := Some(i), stray := 0)
    case Fetch(i) => Set(s, i, s.saves[i].(loaded := Some(s.totalTraffic)))
    case Tally(i) =>
      var v := s.saves[i];
      var usage := v.order[v.done].usage;
      Set(s, i, v.(done := v.done + 1, loaded := None))
      .(totalTraffic := Plus(v.loaded.value, usage),
        stray := s.stray + v.loaded.value - s.totalTraffic + if s.resetter == Some(i) then 0 else usage)
    case WriteFile(i) => Set(s, i, Written(s.saves[i].order)).(file := s.saves[i].order, writer := Some(i))
  }

  ghost function Run(s: State, steps: seq<Step>): State {
    if steps == [] then s else Apply(Run(s, steps[..|steps| - 1]), steps[|steps| - 1])
  }

  // ---------------------------------------------------------------- tables and lists

  ghost function PortTotal(list: seq<PortUsage>, port: int): int {
    Sum(list, (u: PortUsage) => if u.port == port then u.usage else 0)
  }

  lemma {:induction false} LoadFrom(list: seq<PortUsage>, port: int)
    ensures port in Load(list) <==> exists i :: 0 <= i < |list| && list[i].port == port
  {
    if list != [] {
      LoadFrom(list[..|list| - 1], port);
      if port in Load(list[..|list| - 1]) {
        var i :| 0 <= i < |list| - 1 && list[..|list| - 1][i].port == port;
        assert list[i].port == port;
      }
    }
  }

  /** Of several entries of a port the last one counts. */
  lemma {:induction false} LastEntryCounts(list: seq<PortUsage>, i: nat)
    requires i < |list| && forall j :: i < j < |list| ==> list[j].port != list[i].port
    ensures list[i].port in Load(list) && Load(list)[list[i].port] == list[i].usage
  {
    if i < |list| - 1 {
      LastEntryCounts(list[..|list| - 1], i);
    }
  }

  /** In a list without duplicate ports the entries of a port add up to its table entry. */
  lemma {:induction false} PortTotalIsGet(list: seq<PortUsage>, port: int)
    requires Distinct(list)
    ensures PortTotal(list, port) == Get(Load(list), port)
  {
    if list != [] {
      var n := |list| - 1;
      PortTotalIsGet(list[..n], port);
      if list[n].port == port {
        LoadFrom(list[..n], port);
      }
    }
  }

  predicate Congruent(a: int, b: int) { (a - b) % WORD == 0 }

  lemma {:induction false} MergedAdds(t: Table, list: seq<PortUsage>, port: int)
    ensures Congruent(Get(Merged(t, list), port), Get(t, port) + PortTotal(list, port))
  {
    if list != [] {
      MergedAdds(t, list[..|list| - 1], port);
    }
  }

  /** Merging a drained table into the loaded file adds them port by port. */
  lemma MergeConserves(existing: Table, current: seq<PortUsage>, d: Table, port: int)
    requires Lists(current, d)
    ensures Congruent(Get(Merged(existing, current), port), Get(existing, port) + Get(d, port))
  {
    MergedAdds(existing, current, port);
    PortTotalIsGet(current, port);
  }

  // ---------------------------------------------------------------- conservation

  ghost function InSave(port: int): Save -> int {
    (v: Save) => if v.Drained? || v.Tallying? then Get(Load(v.current), port) else 0
  }

  /** Usage of a port known anywhere: in the file, in memory, or drained and not yet written. */
  ghost function Held(s: State, port: int): int {
    Get(Load(s.file), port) + Get(s.dataStore, port) + Sum(s.saves, InSave(port))
  }

  ghost function AddedBy(e: Step, port: int): int {
    if e.Add? && e.port == port then e.usage else 0
  }

  /** What a write discards: usage that reached the file after this save had read it. */
  ghost function LostBy(s: State, e: Step, port: int): int {
    if Enabled(s, e) && e.WriteFile? then Get(Load(s.file), port) - Get(Load(s.saves[e.i].existing), port) else 0
  }

  ghost function Added(steps: seq<Step>, port: int): int {
    if steps == [] then 0 else Added(steps[..|steps| - 1], port) + AddedBy(steps[|steps| - 1], port)
  }

  ghost function Lost(s: State, steps: seq<Step>, port: int): int {
    if steps == [] then 0 else
    Lost(s, steps[..|steps| - 1], port) + LostBy(Run(s, steps[..|steps| - 1]), steps[|steps| - 1], port)
  }

  ghost predicate SaveSound(v: Save) {
    match v
    case Opened(_) => true
    case Drained(_, current) => Distinct(current)
    case Tallying(existing, current, order, done, _) =>
      Distinct(current) && Lists(order, Merged(Load(existing), current)) && done <= |order|
    case Written(order) => Distinct(order)
  }

  ghost predicate Sound(s: State) {
    forall i {:trigger s.saves[i]} :: 0 <= i < |s.saves| ==> SaveSound(s.saves[i])
  }

  lemma StepSound(s: State, e: Step)
    requires Sound(s)
    ensures Sound(Apply(s, e))
  {
    hide Load, Merged, Distinct;
    if Enabled(s, e) && (e.Drain? || e.Reset? || e.Fetch? || e.Tally? || e.WriteFile?) {
      assert SaveSound(s.saves[e.i]);
    }
  }

  lemma AddConserves(s: State, e: Step, port: int)
    requires e.Add?
    ensures Congruent(Held(Apply(s, e), port), Held(s, port) + AddedBy(e, port))
  {
  }

  lemma OpenConserves(s: State, port: int)
    ensures Held(Apply(s, Open), port) == Held(s, port)
  {
    SumAppend(s.saves, Opened(s.file), InSave(port));
  }

  lemma DrainConserves(s: State, e: Step, port: int)
    requires e.Drain? && Enabled(s, e)
    ensures Held(Apply(s, e), port) == Held(s, port)
  {
    SumUpdate(s.saves, e.i, Drained(s.saves[e.i].existing, e.current), InSave(port));
  }

  lemma TotalsConserve(s: State, e: Step, port: int)
    requires (e.Reset? || e.Fetch? || e.Tally?) && Enabled(s, e)
    ensures Held(Apply(s, e), port) == Held(s, port)
  {
    hide Sum, Load, Merged, Lists;
    SumUpdate(s.saves, e.i, Apply(s, e).saves[e.i], InSave(port));
  }

  lemma WriteConserves(s: State, e: Step, port: int)
    requires Sound(s) && e.WriteFile? && Enabled(s, e)
    ensures Congruent(Held(Apply(s, e), port), Held(s, port) - LostBy(s, e, port))
  {
    var v := s.saves[e.i];
    assert SaveSound(v);
    SumUpdate(s.saves, e.i, Written(v.order), InSave(port));
    MergeConserves(Load(v.existing), v.current, Load(v.current), port);
  }

  lemma StepConserves(s: State, e: Step, port: int)
    requires Sound(s)
    ensures Congruent(Held(Apply(s, e), port), Held(s, port) + AddedBy(e, port) - LostBy(s, e, port))
  {
    hide Sum, Held;
    if Enabled(s, e) {
      match e
      case Add(_, _) => AddConserves(s, e, port);
      case Open => OpenConserves(s, port);
      case Drain(_, _) => DrainConserves(s, e, port);
      case Reset(_, _) => TotalsConserve(s, e, port);
      case Fetch(_) => TotalsConserve(s, e, port);
      case Tally(_) => TotalsConserve(s, e, port);
      case WriteFile(_) => WriteConserves(s, e, port);
    }
  }

  /** Over every run, with saves overlapping in any way: what a port holds changes by exactly the usage added, less what
      writes from an outdated reading of the file discard, modulo 2^64. */
  lemma {:induction false} RunConserves(s: State, steps: seq<Step>, port: int)
    requires Sound(s)
    ensures Sound(Run(s, steps))
    ensures Congruent(Held(Run(s, steps), port), Held(s, port) + Added(steps, port) - Lost(s, steps, port))
  {
    hide Held, Apply, Sound;
    if steps != [] {
      RunConserves(s, steps[..|steps| - 1], port);
      StepSound(Run(s, steps[..|steps| - 1]), steps[|steps| - 1]);
      StepConserves(Run(s, steps[..|steps| - 1]), steps[|steps| - 1], port);
    }
  }

  /** A write conserves a port's usage exactly when the file still says of it what the save had read. */
  lemma WriteConservesWhenFresh(s: State, i: nat, port: int)
    requires Sound(s) && Enabled(s, WriteFile(i))
    ensures Congruent(Held(Apply(s, WriteFile(i)), port), Held(s, port))
            <==> Get(Load(s.file), port) == Get(Load(s.saves[i].existing), port)
  {
    hide Held, Load, Apply;
    WriteConserves(s, WriteFile(i), port);
  }

  // ---------------------------------------------------------------- the traffic counter

  /** What a save has added to the counter so far. */
  ghost function Tallied(v: Save): int {
    match v
    case Tallying(_, _, order, done, _) => if done <= |order| then Sum(order[..done], UsageOf) else 0
    case Written(order) => Sum(order, UsageOf)
    case _ => 0
  }

  /** The counter holds what the save that last reset it has added, and the interference since; the file is the list of
      the save that last wrote it. */
  ghost predicate Totalled(s: State) {
    && (s.resetter.Some? ==>
          && s.resetter.value < |s.saves| && (s.saves[s.resetter.value].Tallying? || s.saves[s.resetter.value].Written?)
          && s.totalTraffic == (Tallied(s.saves[s.resetter.value]) + s.stray) % WORD)
    && (s.writer.Some? ==>
          s.writer.value < |s.saves| && s.saves[s.writer.value].Written? && s.file == s.saves[s.writer.value].order)
    && (forall i {:trigger s.saves[i]} :: 0 <= i < |s.saves| ==>
          && (s.saves[i].Tallying? || s.saves[i].Written? ==> s.resetter.Some?)
          && (s.saves[i].Written? ==> s.writer.Some?))
  }

  lemma TallyMore(v: Save)
    requires v.Tallying? && v.done < |v.order|
    ensures Tallied(v.(done := v.done + 1, loaded := None)) == Tallied(v) + v.order[v.done].usage
  {
    assert v.order[..v.done + 1] == v.order[..v.done] + [v.order[v.done]];
    SumAppend(v.order[..v.done], v.order[v.done], UsageOf);
  }

  lemma WrapMore(a: int, loaded: word, u: word, total: word)
    requires total == a % WORD
    ensures Plus(loaded, u) == (a + loaded - total + u) % WORD
  {
    assert a == WORD * (a / WORD) + total;
    assert (loaded + u) % WORD == (loaded + u + WORD * (a / WORD)) % WORD;
  }

  lemma TallyTotalled(s: State, i: nat)
    requires Totalled(s) && Enabled(s, Tally(i))
    ensures Totalled(Apply(s, Tally(i)))
  {
    hide Tallied, Plus;
    var v, r := s.saves[i], s.saves[s.resetter.value];
    TallyMore(v);
    WrapMore(Tallied(r) + s.stray, v.loaded.value, v.order[v.done].usage, s.totalTraffic);
  }

  lemma FetchTotalled(s: State, i: nat)
    requires Totalled(s) && Enabled(s, Fetch(i))
    ensures Totalled(Apply(s, Fetch(i)))
  {
    hide Sum;
  }

  lemma ResetTotalled(s: State, e: Step)
    requires Totalled(s) && e.Reset? && Enabled(s, e)
    ensures Totalled(Apply(s, e))
  {
    hide Merged, Load;
  }

  lemma WriteTotalled(s: State, i: nat)
    requires Totalled(s) && Enabled(s, WriteFile(i))
    ensures Totalled(Apply(s, WriteFile(i)))
  {
    var v := s.saves[i];
    assert v.order[..v.done] == v.order;
  }

  lemma StepTotalled(s: State, e: Step)
    requires Totalled(s)
    ensures Totalled(Apply(s, e))
  {
    hide Tallied;
    if Enabled(s, e) {
      match e
      case Fetch(i) => FetchTotalled(s, i);
      case Tally(i) => TallyTotalled(s, i);
      case Reset(_, _) => ResetTotalled(s, e);
      case WriteFile(i) => WriteTotalled(s, i);
      case _ =>
    }
  }

  /** Over every run, with saves overlapping in any way. */
  lemma {:induction false} RunTotalled(file: seq<PortUsage>, steps: seq<Step>)
    ensures Totalled(Run(Start(file), steps))
  {
    hide Apply;
    if steps != [] {
      RunTotalled(file, steps[..|steps| - 1]);
      StepTotalled(Run(Start(file), steps[..|steps| - 1]), steps[|steps| - 1]);
    }
  }

  /** No save is under way. */
  predicate AtRest(s: State) {
    forall i :: 0 <= i < |s.saves| ==> s.saves[i].Written?
  }

  /** The books at rest: the counter is the file's sum if and only if the entries of the save that last reset it and the
      recorded interference since come to as much as the entries of the save that last wrote. */
  lemma RunTotalExactly(file: seq<PortUsage>, steps: seq<Step>)
    requires AtRest(Run(Start(file), steps)) && Run(Start(file), steps).saves != []
    ensures var s := Run(Start(file), steps);
            && s.resetter.Some? && s.writer.Some? && s.resetter.value < |s.saves| && s.writer.value < |s.saves|
            && (s.totalTraffic == TotalUsage(s.file) <==>
                  Congruent(Sum(s.saves[s.resetter.value].order, UsageOf) + s.stray, Sum(s.saves[s.writer.value].order, UsageOf)))
  {
    hide Sum, Run;
    RunTotalled(file, steps);
    var s := Run(Start(file), steps);
    assert s.saves[0].Written?;
    SameRemainder(Sum(s.saves[s.resetter.value].order, UsageOf) + s.stray, Sum(s.saves[s.writer.value].order, UsageOf));
  }

  /** A store adds its entry to the counter if and only if nothing was stored since the load before it. */
  lemma StoreAddsWhenCurrent(s: State, i: nat)
    requires Enabled(s, Tally(i))
    ensures var v := s.saves[i];
            Apply(s, Tally(i)).totalTraffic == Plus(s.totalTraffic, v.order[v.done].usage)
            <==> v.loaded.value == s.totalTraffic
  {
  }

  /** Since the last reset only the save that made it has stored to the counter. */
  ghost predicate Undisturbed(s: State, steps: seq<Step>) {
    steps == []
    || var t, e := Run(s, steps[..|steps| - 1]), steps[|steps| - 1];
       if Enabled(t, e) && e.Reset? then true
       else Undisturbed(s, steps[..|steps| - 1]) && (Enabled(t, e) && e.Tally? ==> t.resetter == Some(e.i))
  }

  /** No interference is recorded, and the resetting save's pending load is up to date. */
  ghost predicate Quiet(s: State) {
    && s.stray == 0
    && (s.resetter.Some? && s.resetter.value < |s.saves| && s.saves[s.resetter.value].Tallying? ==>
          s.saves[s.resetter.value].loaded.None? || s.saves[s.resetter.value].loaded.value == s.totalTraffic)
  }

  lemma StepQuiet(s: State, e: Step)
    requires Totalled(s) && Enabled(s, e)
    requires e.Reset? || (Quiet(s) && (e.Tally? ==> s.resetter == Some(e.i)))
    ensures Quiet(Apply(s, e))
  {
    hide Tallied, Load, Merged, Lists, Plus;
  }

  lemma {:induction false} RunQuiet(file: seq<PortUsage>, steps: seq<Step>)
    requires Undisturbed(Start(file), steps)
    ensures Quiet(Run(Start(file), steps))
  {
    hide Apply, Enabled, Totalled, Quiet;
    if steps == [] {
      assert Quiet(Start(file)) by { StartSound(file); }
    } else {
      var t, e := Run(Start(file), steps[..|steps| - 1]), steps[|steps| - 1];
      RunTotalled(file, steps[..|steps| - 1]);
      if !Enabled(t, e) {
        RunQuiet(file, steps[..|steps| - 1]);
        assert Apply(t, e) == t by { DisabledStays(t, e); }
      } else {
        if !e.Reset? {
          RunQuiet(file, steps[..|steps| - 1]);
        }
        StepQuiet(t, e);
      }
    }
  }

  lemma DisabledStays(s: State, e: Step)
    requires !Enabled(s, e)
    ensures Apply(s, e) == s
  {
  }

  /** The exact condition on a schedule whose stores since the last reset are all by the save that made it: at rest, the
      counter is the file's sum if and only if that save's entries come to as much as those of the save that last wrote. */
  lemma RunTotalAgrees(file: seq<PortUsage>, steps: seq<Step>)
    requires AtRest(Run(Start(file), steps)) && Run(Start(file), steps).saves != [] && Undisturbed(Start(file), steps)
    ensures var s := Run(Start(file), steps);
            && s.resetter.Some? && s.writer.Some? && s.resetter.value < |s.saves| && s.writer.value < |s.saves|
            && (s.totalTraffic == TotalUsage(s.file) <==>
                  Congruent(Sum(s.saves[s.resetter.value].order, UsageOf), Sum(s.saves[s.writer.value].order, UsageOf)))
  {
    hide Sum, Run, Undisturbed;
    RunTotalExactly(file, steps);
    RunQuiet(file, steps);
  }

  lemma SameRemainder(a: int, b: int)
    ensures a % WORD == b % WORD <==> Congruent(a, b)
  {
    assert a == WORD * (a / WORD) + a % WORD && b == WORD * (b / WORD) + b % WORD;
    if a % WORD == b % WORD {
      assert a - b == WORD * (a / WORD - b / WORD);
    }
  }

  // ---------------------------------------------------------------- saves one at a time

  /** No save starts before the previous one has written. */
  ghost predicate NoOverlap(s: State, steps: seq<Step>) {
    steps == []
    || (NoOverlap(s, steps[..|steps| - 1]) && (steps[|steps| - 1].Open? ==> AtRest(Run(s, steps[..|steps| - 1]))))
  }

  /** Only the newest save may be under way; it has read the current file, and the counter and the file are the work of
      one save. */
  ghost predicate Serial(s: State) {
    var n := |s.saves| - 1;
    && (forall i {:trigger s.saves[i]} :: 0 <= i < n ==> s.saves[i].Written?)
    && (n >= 0 && !s.saves[n].Written? ==> s.saves[n].existing == s.file)
    && (n >= 0 && s.saves[n].Tallying? && s.saves[n].loaded.Some? ==> s.saves[n].loaded.value == s.totalTraffic)
    && (if n >= 0 && s.saves[n].Tallying? then s.resetter == Some(n) else s.resetter == s.writer)
    && s.stray == 0
  }

  lemma StepSerial(s: State, e: Step, port: int)
    requires Serial(s) && (e.Open? ==> AtRest(s))
    ensures Serial(Apply(s, e)) && LostBy(s, e, port) == 0
  {
    hide Lists, Load, Merged;
  }

  lemma {:induction false} RunSerial(s: State, steps: seq<Step>, port: int)
    requires Serial(s) && NoOverlap(s, steps)
    ensures Serial(Run(s, steps)) && Lost(s, steps, port) == 0
  {
    hide Serial, Apply, AtRest, LostBy;
    if steps != [] {
      RunSerial(s, steps[..|steps| - 1], port);
      StepSerial(Run(s, steps[..|steps| - 1]), steps[|steps| - 1], port);
    }
  }

  /** Conservation over every run whose saves do not overlap: file, memory and drained usage of a port together grow by
      exactly what was added to it, modulo 2^64. */
  lemma RunConservesUsage(file: seq<PortUsage>, steps: seq<Step>, port: int)
    requires NoOverlap(Start(file), steps)
    ensures Congruent(Held(Run(Start(file), steps), port), Get(Load(file), port) + Added(steps, port))
  {
    hide Run;
    assert Held(Start(file), port) == Get(Load(file), port);
    RunConserves(Start(file), steps, port);
    RunSerial(Start(file), steps, port);
  }

  /** The file lists no port twice and the traffic counter is its sum. */
  ghost predicate Saved(s: State) {
    Distinct(s.file) && s.totalTraffic == TotalUsage(s.file)
  }

  lemma SerialIsSaved(s: State)
    requires Sound(s) && Totalled(s) && Serial(s) && AtRest(s) && s.saves != []
    ensures Saved(s)
  {
    assert s.saves[|s.saves| - 1].Written?;
    assert SaveSound(s.saves[s.writer.value]);
  }

  /** After each save of a run whose saves do not overlap. */
  lemma RunSavedWithoutOverlap(file: seq<PortUsage>, steps: seq<Step>)
    requires NoOverlap(Start(file), steps) && AtRest(Run(Start(file), steps)) && Run(Start(file), steps).saves != []
    ensures Saved(Run(Start(file), steps))
  {
    hide Run, Saved, Sound, Totalled, Serial;
    assert Sound(Start(file)) && Serial(Start(file)) by { StartSound(file); }
    RunConserves(Start(file), steps, 0);
    RunTotalled(file, steps);
    RunSerial(Start(file), steps, 0);
    SerialIsSaved(Run(Start(file), steps));
  }

  lemma StartSound(file: seq<PortUsage>)
    ensures Sound(Start(file)) && Serial(Start(file)) && Totalled(Start(file)) && Quiet(Start(file))
  {
  }

  /** From the first write on, the file lists no port twice, whatever the interleaving. */
  lemma RunDistinct(file: seq<PortUsage>, steps: seq<Step>)
    requires Run(Start(file), steps).writer.Some?
    ensures Distinct(Run(Start(file), steps).file)
  {
    hide Run, Held, Congruent, Tallied, Load, Merged, Sum;
    RunConserves(Start(file), steps, 0);
    RunTotalled(file, steps);
    var s := Run(Start(file), steps);
    assert SaveSound(s.saves[s.writer.value]);
  }

  // ---------------------------------------------------------------- overlapping saves

  lemma RunMore(s: State, steps: seq<Step>, e: Step, more: seq<Step>, port: int)
    requires more == steps + [e]
    ensures Run(s, more) == Apply(Run(s, steps), e) && Added(more, port) == Added(steps, port) + AddedBy(e, port)
  {
    assert more[..|steps|] == steps;
  }

  lemma NothingListed(s: State, port: int)
    ensures Run(s, []) == s && Added([], port) == 0
    ensures Lists([], map[]) && Load([]) == map[] && Merged(map[], []) == map[] && TotalUsage([]) == 0
  {
  }

  lemma ListsOne(port: int, usage: word)
    ensures var u := [PortUsage(port, usage)];
            Lists(u, map[port := usage]) && Merged(map[], u) == map[port := usage] && TotalUsage(u) == usage
  {
    var u := [PortUsage(port, usage)];
    assert u[..0] == [];
    assert Sum(u, UsageOf) == Sum(u[..0], UsageOf) + usage;
  }

  /** Two saves have read the empty file and the first has taken all usage from memory. */
  ghost function TwoOpened(u: seq<PortUsage>): State {
    Start([]).(saves := [Drained([], u), Opened([])])
  }

  lemma TwoOpen(port: int, usage: word)
    ensures var u := [PortUsage(port, usage)];
            var steps := [Add(port, usage), Open, Open, Drain(0, u)];
            Run(Start([]), steps) == TwoOpened(u) && Added(steps, port) == usage
  {
    hide Run, Added, Load, Merged;
    var u := [PortUsage(port, usage)];
    var steps := [Add(port, usage), Open, Open, Drain(0, u)];
    var s := Start([]);
    NothingListed(s, port);
    ListsOne(port, usage);
    RunMore(s, [], steps[0], steps[..1], port);
    RunMore(s, steps[..1], steps[1], steps[..2], port);
    RunMore(s, steps[..2], steps[2], steps[..3], port);
    assert Run(s, steps[..3]) == s.(dataStore := map[port := usage], saves := [Opened([]), Opened([])]);
    RunMore(s, steps[..3], steps[3], steps, port);
  }

  /** The first save resets the counter and adds its entry. */
  lemma FirstTallies(port: int, usage: word, s: State)
    requires var u := [PortUsage(port, usage)];
             |s.saves| == 2 && s.saves[0] == Drained([], u)
    ensures var u := [PortUsage(port, usage)];
            Apply(Apply(Apply(s, Reset(0, u)), Fetch(0)), Tally(0))
            == s.(saves := [Tallying([], u, u, 1, None), s.saves[1]], totalTraffic := usage, resetter := Some(0), stray := 0)
  {
    hide Load, Merged;
    var u := [PortUsage(port, usage)];
    NothingListed(s, port);
    ListsOne(port, usage);
    var a := Apply(s, Reset(0, u));
    assert a == s.(saves := [Tallying([], u, u, 0, None), s.saves[1]], totalTraffic := 0, resetter := Some(0), stray := 0);
    var b := Apply(a, Fetch(0));
    assert b == a.(saves := [Tallying([], u, u, 0, Some(0)), s.saves[1]]);
  }

  /** Overlapping saves can lose usage: the second of two saves writes back what it read before the first one wrote. */
  lemma OverlapLoses(port: int, usage: word)
    requires usage > 0
    ensures var u := [PortUsage(port, usage)];
            var steps := [Add(port, usage), Open, Open, Drain(0, u), Reset(0, u), Fetch(0), Tally(0), WriteFile(0),
                          Drain(1, []), Reset(1, []), WriteFile(1)];
            var t := Run(Start([]), steps);
            AtRest(t) && Added(steps, port) == usage && Held(t, port) == 0
  {
    hide Run, Added, Load, Merged, Apply, TotalUsage;
    var u := [PortUsage(port, usage)];
    var s := Start([]);
    var steps := [Add(port, usage), Open, Open, Drain(0, u), Reset(0, u), Fetch(0), Tally(0), WriteFile(0),
                  Drain(1, []), Reset(1, []), WriteFile(1)];
    TwoOpen(port, usage);
    assert steps[..4] == [Add(port, usage), Open, Open, Drain(0, u)];
    RunMore(s, steps[..4], steps[4], steps[..5], port);
    RunMore(s, steps[..5], steps[5], steps[..6], port);
    RunMore(s, steps[..6], steps[6], steps[..7], port);
    RunMore(s, steps[..7], steps[7], steps[..8], port);
    RunMore(s, steps[..8], steps[8], steps[..9], port);
    RunMore(s, steps[..9], steps[9], steps[..10], port);
    RunMore(s, steps[..10], steps[10], steps, port);
    FirstTallies(port, usage, TwoOpened(u));
    SecondOverwrites(u, Apply(Apply(Apply(TwoOpened(u), Reset(0, u)), Fetch(0)), Tally(0)));
    NothingHeld(Run(s, steps), port);
  }

  lemma SecondOverwrites(u: seq<PortUsage>, s: State)
    requires |u| == 1 && s.dataStore == map[] && s.saves == [Tallying([], u, u, 1, None), Opened([])]
    ensures var t := Apply(Apply(Apply(Apply(s, WriteFile(0)), Drain(1, [])), Reset(1, [])), WriteFile(1));
            t.dataStore == map[] && t.file == [] && t.saves == [Written(u), Written([])]
  {
    hide Load, Merged;
    NothingListed(s, 0);
    var a := Apply(s, WriteFile(0));
    assert a.saves == [Written(u), Opened([])];
    var b := Apply(a, Drain(1, []));
    assert b.saves == [Written(u), Drained([], [])];
    var c := Apply(b, Reset(1, []));
    assert c.saves == [Written(u), Tallying([], [], [], 0, None)];
  }

  lemma NothingHeld(t: State, port: int)
    requires t.dataStore == map[] && t.file == [] && |t.saves| == 2 && t.saves[0].Written? && t.saves[1].Written?
    ensures AtRest(t) && Held(t, port) == 0
  {
    assert t.saves[..1][..0] == [] && t.saves[..1][0] == t.saves[0];
    assert Sum(t.saves[..1], InSave(port)) == 0;
  }

  /** Overlapping saves can also part the counter from the file: the second resets the counter after the first has added
      to it, and the first writes last. */
  lemma OverlapParts(port: int, usage: word)
    requires usage > 0
    ensures var u := [PortUsage(port, usage)];
            var steps := [Add(port, usage), Open, Open, Drain(0, u), Drain(1, []), Reset(0, u), Fetch(0), Tally(0),
                          Reset(1, []), WriteFile(1), WriteFile(0)];
            var t := Run(Start([]), steps);
            AtRest(t) && t.file == u && t.totalTraffic == 0 && TotalUsage(t.file) == usage
  {
    hide Run, Added, Load, Merged, Apply, TotalUsage;
    var u := [PortUsage(port, usage)];
    var s := Start([]);
    var steps := [Add(port, usage), Open, Open, Drain(0, u), Drain(1, []), Reset(0, u), Fetch(0), Tally(0),
                  Reset(1, []), WriteFile(1), WriteFile(0)];
    TwoOpen(port, usage);
    assert steps[..4] == [Add(port, usage), Open, Open, Drain(0, u)];
    RunMore(s, steps[..4], steps[4], steps[..5], port);
    RunMore(s, steps[..5], steps[5], steps[..6], port);
    RunMore(s, steps[..6], steps[6], steps[..7], port);
    RunMore(s, steps[..7], steps[7], steps[..8], port);
    RunMore(s, steps[..8], steps[8], steps[..9], port);
    RunMore(s, steps[..9], steps[9], steps[..10], port);
    RunMore(s, steps[..10], steps[10], steps, port);
    SecondDrains(u);
    var d := Apply(TwoOpened(u), Drain(1, []));
    FirstTallies(port, usage, d);
    SecondResets(u, Apply(Apply(Apply(d, Reset(0, u)), Fetch(0)), Tally(0)));
    ListsOne(port, usage);
  }

  lemma SecondDrains(u: seq<PortUsage>)
    ensures Apply(TwoOpened(u), Drain(1, [])) == Start([]).(saves := [Drained([], u), Drained([], [])])
  {
    NothingListed(TwoOpened(u), 0);
  }

  lemma SecondResets(u: seq<PortUsage>, s: State)
    requires |u| == 1 && s.saves == [Tallying([], u, u, 1, None), Drained([], [])]
    ensures var t := Apply(Apply(Apply(s, Reset(1, [])), WriteFile(1)), WriteFile(0));
            AtRest(t) && t.file == u && t.totalTraffic == 0
  {
    hide Load, Merged;
    NothingListed(s, 0);
    var a := Apply(s, Reset(1, []));
    assert a.saves == [Tallying([], u, u, 1, None), Tallying([], [], [], 0, None)];
    var b := Apply(a, WriteFile(1));
    assert b.saves == [Tallying([], u, u, 1, None), Written([])];
  }

  // ---------------------------------------------------------------- reading the file sorted

  function Insert(s: seq<PortUsage>, u: PortUsage): (r: seq<PortUsage>)
    ensures |r| == |s| + 1
  {
    if s == [] || s[|s| - 1].port <= u.port then s + [u] else Insert(s[..|s| - 1], u) + [s[|s| - 1]]
  }

  function SortByPort(list: seq<PortUsage>): seq<PortUsage> {
    if list == [] then [] else Insert(SortByPort(list[..|list| - 1]), list[|list| - 1])
  }

  ghost predicate Ordered(s: seq<PortUsage>) {
    forall i, j :: 0 <= i < j < |s| ==> s[i].port <= s[j].port
  }

  ghost predicate Increasing(s: seq<PortUsage>) {
    forall i, j :: 0 <= i < j < |s| ==> s[i].port < s[j].port
  }

  lemma {:induction false} InsertOrders(s: seq<PortUsage>, u: PortUsage)
    requires Ordered(s)
    ensures var r := Insert(s, u);
            Ordered(r) && r[|s|].port == if s == [] || s[|s| - 1].port <= u.port then u.port else s[|s| - 1].port
  {
    if s != [] && s[|s| - 1].port > u.port {
      InsertOrders(s[..|s| - 1], u);
    }
  }

  lemma {:induction false} InsertCounts(s: seq<PortUsage>, u: PortUsage, p: PortUsage -> bool)
    ensures Count(Insert(s, u), p) == Count(s, p) + One(p(u))
  {
    if s == [] || s[|s| - 1].port <= u.port {
      CountAppend(s, u, p);
    } else {
      InsertCounts(s[..|s| - 1], u, p);
      CountAppend(Insert(s[..|s| - 1], u), s[|s| - 1], p);
    }
  }

  lemma {:induction false} SortOrders(list: seq<PortUsage>)
    ensures Ordered(SortByPort(list))
  {
    if list != [] {
      SortOrders(list[..|list| - 1]);
      InsertOrders(SortByPort(list[..|list| - 1]), list[|list| - 1]);
    }
  }

  /** The read has the file's entries, each as often. */
  lemma {:induction false} SortCounts(list: seq<PortUsage>, p: PortUsage -> bool)
    ensures Count(SortByPort(list), p) == Count(list, p)
  {
    if list != [] {
      SortCounts(list[..|list| - 1], p);
      InsertCounts(SortByPort(list[..|list| - 1]), list[|list| - 1], p);
    }
  }

  lemma DistinctAppend(s: seq<PortUsage>, u: PortUsage)
    ensures Distinct(s + [u]) <==> Distinct(s) && u.port !in Load(s)
    ensures Load(s + [u]) == Load(s)[u.port := u.usage]
  {
    hide Load;
    LoadFrom(s, u.port);
    assert (s + [u])[..|s|] == s;
    LoadAppend(s, u);
    if Distinct(s + [u]) {
      forall i, j | 0 <= i < j < |s| ensures s[i].port != s[j].port {
        assert (s + [u])[i].port != (s + [u])[j].port;
      }
      forall i | 0 <= i < |s| ensures s[i].port != u.port {
        assert (s + [u])[i].port != (s + [u])[|s|].port;
      }
    }
  }

  lemma LoadAppend(s: seq<PortUsage>, u: PortUsage)
    ensures Load(s + [u]) == Load(s)[u.port := u.usage]
  {
    assert (s + [u])[..|s|] == s;
  }

  lemma {:induction false} InsertLoads(s: seq<PortUsage>, u: PortUsage)
    requires Distinct(s) && u.port !in Load(s)
    ensures Lists(Insert(s, u), Load(s)[u.port := u.usage])
  {
    hide Load, Distinct;
    DistinctAppend(s, u);
    if s != [] && s[|s| - 1].port > u.port {
      var n := |s| - 1;
      assert s == s[..n] + [s[n]];
      DistinctAppend(s[..n], s[n]);
      InsertLoads(s[..n], u);
      DistinctAppend(Insert(s[..n], u), s[n]);
    }
  }

  lemma {:induction false} SortLoads(list: seq<PortUsage>)
    requires Distinct(list)
    ensures Lists(SortByPort(list), Load(list)) && Increasing(SortByPort(list))
  {
    SortOrders(list);
    if list != [] {
      var n := |list| - 1;
      SortLoads(list[..n]);
      assert list == list[..n] + [list[n]];
      DistinctAppend(list[..n], list[n]);
      InsertLoads(SortByPort(list[..n]), list[n]);
    }
  }

  /** A table has one listing in increasing port order. */
  lemma {:induction false} IncreasingUnique(a: seq<PortUsage>, b: seq<PortUsage>)
    requires Increasing(a) && Increasing(b) && Load(a) == Load(b)
    ensures a == b
  {
    if a == [] || b == [] {
      if a != [] {
        LastEntryCounts(a, 0);
      }
      if b != [] {
        LastEntryCounts(b, 0);
      }
    } else {
      var m, n := |a| - 1, |b| - 1;
      LastEntryCounts(a, m);
      LastEntryCounts(b, n);
      LoadFrom(a, b[n].port);
      LoadFrom(b, a[m].port);
      assert a[m] == b[n];
      LoadFrom(a[..m], a[m].port);
      LoadFrom(b[..n], b[n].port);
      assert Load(a[..m]) == Load(a) - {a[m].port};
      assert Load(b[..n]) == Load(b) - {b[n].port};
      IncreasingUnique(a[..m], b[..n]);
    }
  }

  lemma {:induction false} InsertSum(s: seq<PortUsage>, u: PortUsage)
    ensures Sum(Insert(s, u), UsageOf) == Sum(s, UsageOf) + u.usage
  {
    if s == [] || s[|s| - 1].port <= u.port {
      SumAppend(s, u, UsageOf);
    } else {
      InsertSum(s[..|s| - 1], u);
      SumAppend(Insert(s[..|s| - 1], u), s[|s| - 1], UsageOf);
    }
  }

  lemma {:induction false} SortSum(list: seq<PortUsage>)
    ensures Sum(SortByPort(list), UsageOf) == Sum(list, UsageOf)
  {
    if list != [] {
      SortSum(list[..|list| - 1]);
      InsertSum(SortByPort(list[..|list| - 1]), list[|list| - 1]);
    }
  }

  /** The order in which a save happens to range over its map is invisible: the sorted read and the traffic total are
      the same for every listing of a table. */
  lemma OrderIsInvisible(a: seq<PortUsage>, b: seq<PortUsage>, t: Table)
    requires Lists(a, t) && Lists(b, t)
    ensures SortByPort(a) == SortByPort(b) && TotalUsage(a) == TotalUsage(b)
  {
    SortLoads(a);
    SortLoads(b);
    IncreasingUnique(SortByPort(a), SortByPort(b));
    SortSum(a);
    SortSum(b);
  }

  /** Once a write is complete, a read is strictly increasing by port and lists exactly the file's table. */
  lemma RunReads(file: seq<PortUsage>, steps: seq<Step>)
    requires Run(Start(file), steps).writer.Some?
    ensures var now := Run(Start(file), steps).file;
            Increasing(SortByPort(now)) && Lists(SortByPort(now), Load(now))
  {
    hide Run;
    RunDistinct(file, steps);
    SortLoads(Run(Start(file), steps).file);
  }

  // ---------------------------------------------------------------- all laws together

  /** Everything proved of a monitor's state, as one invariant. */
  ghost predicate Lawful(s: State) {
    Sound(s) && Totalled(s)
  }

  lemma StepLawful(s: State, e: Step)
    requires Lawful(s)
    ensures Lawful(Apply(s, e))
  {
    hide Sound, Totalled, Apply;
    StepSound(s, e);
    StepTotalled(s, e);
  }
}
