/** What a run of the client's pool comes to, read off its steps and the readings they make. */
module PoolTraces {
  import opened Base
  import opened TunnelSupply

  function From(channelSize: nat, workers: nat, connPoolSize: nat, aggressive: bool): seq<Step> -> System {
    (steps: seq<Step>) => Run(Init(channelSize, workers, connPoolSize, if aggressive then AGGRESSIVE else PATIENT), steps)
  }

  // ---------------------------------------------------------------- readings

  predicate Closes(c: Client, f: ClientStep) { f.CAdjust? && c.maintainer.LoadRead? }

  /** The window's demand, in tenths rounded up, calls for another tunnel. */
  predicate WantsMore(c: Client, f: ClientStep, aggressive: bool) {
    Closes(c, f)
    && var load, avg := CeilTenth(c.maintainer.load), CeilTenth(c.poolConnectionsSum);
       if aggressive then load + 1 > 2 * avg else load + 4 > 5 * avg
  }

  /** The window's demand leaves tunnels to spare, and the pool is above its configured size. */
  predicate WantsFewer(c: Client, f: ClientStep, aggressive: bool) {
    Closes(c, f) && !WantsMore(c, f, aggressive) && c.newPoolSize > c.connPoolSize
    && var load, avg := CeilTenth(c.maintainer.load), CeilTenth(c.poolConnectionsSum);
       if aggressive then 4 * load < 3 * avg else load + 3 < 4 * avg
  }

  /** A signal is let pass into a dial, or swallowed by a token. */
  predicate Dials(c: Client, f: ClientStep) { f.CDecide? && c.deciding && c.controlFlow == 0 }
  predicate Swallows(c: Client, f: ClientStep) { f.CDecide? && c.deciding && c.controlFlow > 0 }

  predicate Counts(c: Client, f: ClientStep) {
    f.CHandle? && c.up && !c.deciding && c.msgChan != [] && c.msgChan[0].NewConn?
  }

  /** The maintainer's factors amount to these comparisons of whole numbers. */
  lemma RawConditions(load: int, avg: int)
    ensures Grows(PATIENT, load, avg) <==> load + 4 > 5 * avg
    ensures Grows(AGGRESSIVE, load, avg) <==> load + 1 > 2 * avg
    ensures Shrinks(PATIENT, load, avg) <==> load + 3 < 4 * avg
    ensures Shrinks(AGGRESSIVE, load, avg) <==> 4 * load < 3 * avg
  {
    assert avg as real * 4.0 == (4 * avg) as real;
    assert 4.0 * (avg as real * 0.75) == (3 * avg) as real && 4.0 * (load as real) == (4 * load) as real;
  }

  // ---------------------------------------------------------------- one step of the client

  lemma StepSizes(c: Client, f: ClientStep, aggressive: bool)
    requires ClientEnabled(c, f) && c.factors == if aggressive then AGGRESSIVE else PATIENT
    ensures var d := ClientApply(c, f);
            && d.newPoolSize == c.newPoolSize + One(WantsMore(c, f, aggressive)) - One(WantsFewer(c, f, aggressive))
            && |d.dialers| == |c.dialers| + One(WantsMore(c, f, aggressive)) + One(Dials(c, f))
            && d.shrinks == c.shrinks + One(WantsFewer(c, f, aggressive))
            && d.swallowed == c.swallowed + One(Swallows(c, f))
            && d.signals == c.signals + One(Counts(c, f))
            && d.factors == c.factors && d.connPoolSize == c.connPoolSize
  {
    hide Grows, Shrinks;
    if Closes(c, f) {
      RawConditions(CeilTenth(c.maintainer.load), CeilTenth(c.poolConnectionsSum));
    }
  }

  lemma StepReadings(c: Client, f: ClientStep)
    requires ClientEnabled(c, f)
    ensures var d := ClientApply(c, f);
            && d.poolConnectionsSum == (if f.CTickPool? then c.poolConnectionsSum + c.poolConnections
                                        else if f.CAdjust? then 0 else c.poolConnectionsSum)
            && (f.CReadLoad? ==> d.maintainer == LoadRead(c.loadConnections))
            && (d.maintainer.LoadRead? && !f.CReadLoad? ==> d.maintainer == c.maintainer)
            && d.loadConnections == (if f.CAdjust? then 0 else c.loadConnections + One(Counts(c, f)))
  {
    hide Grows, Shrinks;
  }

  /** A dialer is dialed by a dial, fails by a failed one, awaits and receives and is done in turn, and starts dialing. */
  lemma StepDialers(c: Client, f: ClientStep, t: Tun)
    requires ClientEnabled(c, f) && t < |c.dialers|
    ensures var d := ClientApply(c, f);
            && |d.dialers| >= |c.dialers|
            && d.dialers[t] == (if f == CDialFailed(t) then Failed else if f == CEnter(t) then Awaiting
                                else if f == CReceive(t) then Received else if f == CLeave(t) then Done else c.dialers[t])
            && (forall u {:trigger d.dialers[u]} :: |c.dialers| <= u < |d.dialers| ==> d.dialers[u].Dialing?)
  {
    hide Grows, Shrinks;
  }

  // ---------------------------------------------------------------- whole runs

  /** The steps of the client that were taken, each with the client it found. */
  function ClientBy(y: System, e: Step): seq<(Client, ClientStep)> {
    if e.AtClient? && Enabled(y, e) then [(y.client, e.c)] else []
  }

  function More(aggressive: bool): ((Client, ClientStep)) -> bool { (x: (Client, ClientStep)) => WantsMore(x.0, x.1, aggressive) }
  function Fewer(aggressive: bool): ((Client, ClientStep)) -> bool { (x: (Client, ClientStep)) => WantsFewer(x.0, x.1, aggressive) }
  function LetPass(): ((Client, ClientStep)) -> bool { (x: (Client, ClientStep)) => Dials(x.0, x.1) }
  function Swallowing(): ((Client, ClientStep)) -> bool { (x: (Client, ClientStep)) => Swallows(x.0, x.1) }
  function Counting(): ((Client, ClientStep)) -> bool { (x: (Client, ClientStep)) => Counts(x.0, x.1) }

  /** The pool is what its steps say: the target is the configured size plus the windows that wanted more less those that
      wanted fewer; a dialer is started for each of the former, for each signal without a token, and at the start; signals
      are swallowed exactly while tokens are there. */
  ghost predicate Booked(c: Client, connPoolSize: nat, taken: seq<(Client, ClientStep)>, aggressive: bool) {
    && c.newPoolSize == connPoolSize + Count(taken, More(aggressive)) - Count(taken, Fewer(aggressive))
    && |c.dialers| == connPoolSize + Count(taken, More(aggressive)) + Count(taken, LetPass())
    && c.shrinks == Count(taken, Fewer(aggressive)) && c.swallowed == Count(taken, Swallowing())
    && c.signals == Count(taken, Counting())
    && c.factors == (if aggressive then AGGRESSIVE else PATIENT) && c.connPoolSize == connPoolSize
  }

  lemma ClientStepBooked(c: Client, f: ClientStep, connPoolSize: nat, taken: seq<(Client, ClientStep)>, aggressive: bool)
    requires Booked(c, connPoolSize, taken, aggressive) && ClientEnabled(c, f)
    ensures Booked(ClientApply(c, f), connPoolSize, taken + [(c, f)], aggressive)
  {
    hide Count, ClientApply, ClientEnabled, WantsMore, WantsFewer, Dials, Swallows, Counts;
    StepSizes(c, f, aggressive);
    CountAppend(taken, (c, f), More(aggressive));
    CountAppend(taken, (c, f), Fewer(aggressive));
    CountAppend(taken, (c, f), LetPass());
    CountAppend(taken, (c, f), Swallowing());
    CountAppend(taken, (c, f), Counting());
  }

  /** Steps that are not the client's own leave its books alone. */
  lemma OtherStepBooked(y: System, e: Step, connPoolSize: nat, taken: seq<(Client, ClientStep)>, aggressive: bool)
    requires Booked(y.client, connPoolSize, taken, aggressive) && !(e.AtClient? && Enabled(y, e))
    ensures Booked(Apply(y, e).client, connPoolSize, taken, aggressive)
  {
    hide Count, ServerApply;
  }

  lemma {:induction false} RunBooked(channelSize: nat, workers: nat, connPoolSize: nat, aggressive: bool, steps: seq<Step>)
    ensures var at := From(channelSize, workers, connPoolSize, aggressive);
            Booked(at(steps).client, connPoolSize, Gathered(at, steps, ClientBy), aggressive)
  {
    hide Booked;
    var at := From(channelSize, workers, connPoolSize, aggressive);
    if steps == [] {
      StartBooked(channelSize, workers, connPoolSize, aggressive);
    } else {
      var before, e := steps[..|steps| - 1], steps[|steps| - 1];
      RunBooked(channelSize, workers, connPoolSize, aggressive, before);
      if e.AtClient? && Enabled(at(before), e) {
        hide ClientApply;
        ClientStepBooked(at(before).client, e.c, connPoolSize, Gathered(at, before, ClientBy), aggressive);
      } else {
        hide Apply;
        OtherStepBooked(at(before), e, connPoolSize, Gathered(at, before, ClientBy), aggressive);
        assert Gathered(at, steps, ClientBy) == Gathered(at, before, ClientBy);
      }
    }
  }

  lemma StartBooked(channelSize: nat, workers: nat, connPoolSize: nat, aggressive: bool)
    ensures Booked(Init(channelSize, workers, connPoolSize, if aggressive then AGGRESSIVE else PATIENT).client,
                   connPoolSize, [], aggressive)
  {
  }

  /** The gauge readings since the last window closed, added up. */
  ghost function Sampled(taken: seq<(Client, ClientStep)>): int {
    if taken == [] then 0 else
    var (c, f) := taken[|taken| - 1];
    if f.CAdjust? then 0 else Sampled(taken[..|taken| - 1]) + if f.CTickPool? then c.poolConnections else 0
  }

  /** The load read when the current window began to close. */
  ghost function LastLoad(taken: seq<(Client, ClientStep)>): int {
    if taken == [] then 0 else
    var (c, f) := taken[|taken| - 1];
    if f.CReadLoad? then c.loadConnections else LastLoad(taken[..|taken| - 1])
  }

  /** The signals counted since the last window closed. */
  ghost function Loaded(taken: seq<(Client, ClientStep)>): int {
    if taken == [] then 0 else
    var (c, f) := taken[|taken| - 1];
    if f.CAdjust? then 0 else Loaded(taken[..|taken| - 1]) + One(Counts(c, f))
  }

  ghost predicate Measured(c: Client, taken: seq<(Client, ClientStep)>) {
    && c.poolConnectionsSum == Sampled(taken) && c.loadConnections == Loaded(taken)
    && (c.maintainer.LoadRead? ==> c.maintainer.load == LastLoad(taken))
  }

  /** Over every run the window's readings are those its steps took: the idle gauge once a second, and the signals counted
      since the last window, read as one number before it closes. */
  lemma {:induction false} RunMeasured(channelSize: nat, workers: nat, connPoolSize: nat, aggressive: bool, steps: seq<Step>)
    ensures var at := From(channelSize, workers, connPoolSize, aggressive);
            Measured(at(steps).client, Gathered(at, steps, ClientBy))
  {
    hide Measured;
    var at := From(channelSize, workers, connPoolSize, aggressive);
    if steps == [] {
      StartMeasured(channelSize, workers, connPoolSize, aggressive);
    } else {
      var before, e := steps[..|steps| - 1], steps[|steps| - 1];
      RunMeasured(channelSize, workers, connPoolSize, aggressive, before);
      if e.AtClient? && Enabled(at(before), e) {
        hide ClientApply;
        ClientStepMeasured(at(before).client, e.c, Gathered(at, before, ClientBy));
      } else {
        hide Apply;
        OtherStepMeasured(at(before), e, Gathered(at, before, ClientBy));
        assert Gathered(at, steps, ClientBy) == Gathered(at, before, ClientBy);
      }
    }
  }

  lemma StartMeasured(channelSize: nat, workers: nat, connPoolSize: nat, aggressive: bool)
    ensures Measured(Init(channelSize, workers, connPoolSize, if aggressive then AGGRESSIVE else PATIENT).client, [])
  {
  }

  lemma ClientStepMeasured(c: Client, f: ClientStep, taken: seq<(Client, ClientStep)>)
    requires Measured(c, taken) && ClientEnabled(c, f)
    ensures Measured(ClientApply(c, f), taken + [(c, f)])
  {
    StepReadings(c, f);
    hide ClientApply, ClientEnabled, Counts;
    assert (taken + [(c, f)])[..|taken|] == taken;
  }

  lemma OtherStepMeasured(y: System, e: Step, taken: seq<(Client, ClientStep)>)
    requires Measured(y.client, taken) && !(e.AtClient? && Enabled(y, e))
    ensures Measured(Apply(y, e).client, taken)
  {
    hide ServerApply;
  }
}
