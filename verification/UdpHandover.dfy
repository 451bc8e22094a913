/** When a congested session is handed over: what a run of a UDP listener does is compared with what its steps say. */
module UdpHandover {
  import opened Base
  import opened Framing
  import opened UdpSessions

  function From(channelSize: nat): seq<Step> -> State {
    (steps: seq<Step>) => Run(Init(channelSize), steps)
  }

  // ---------------------------------------------------------------- what the steps say

  function Flags(id: Sid): (State, Step) -> bool { (s, e) => e == EFlag(id) && Enabled(s, e) }
  function EndsReader(id: Sid): (State, Step) -> bool { (s, e) => e == EReaderDone(id) && Enabled(s, e) }
  function EndsWriter(id: Sid): (State, Step) -> bool {
    (s, e) => (e == EWriterIdle(id) || (e.EWriterWrite? && e.sid == id && !e.ok)) && Enabled(s, e)
  }
  function Exits(id: Sid): (State, Step) -> bool { (s, e) => e == EExit(id) && Enabled(s, e) }

  /** A datagram read from the socket, numbered in order. */
  function ReadBy(s: State, e: Step): seq<Datagram> {
    if e.ELookup? && s.listener.Reading? && |e.data| <= BUFFER_SIZE - 2 then [Datagram(|s.arrivals|, e.addr, e.data)] else []
  }

  /** Offered while the handler channel has room. */
  function OfferedBy(s: State, e: Step): seq<Sid> {
    if e.EOffer? && s.listener.Stored? && s.listener.sid < |s.sessions| && |s.udpChan| < s.channelSize then [s.listener.sid] else []
  }

  function HeldIn(s: State): seq<Sid> { if s.holding.Some? then [s.holding.value] else [] }

  /** What the handler loop holds after taking from its channel. */
  function TakenBy(s: State, e: Step): seq<Sid> {
    if e.ETake? && Enabled(s, e) then HeldIn(Apply(s, e)) else []
  }

  // ---------------------------------------------------------------- one step

  predicate ListenerStep(e: Step) { e.ELookup? || e.EDeliver? || e.EStore? || e.EOffer? }
  predicate LoopStep(e: Step) { e.ETake? || e.EStart? }
  predicate WriterStep(e: Step) { e.EWriterTake? || e.EWriterWrite? || e.EWriterIdle? }

  /** A step's effect on how far a session is. */
  predicate Advances(v: Session, w: Session, flagged: bool, readerEnded: bool, writerEnded: bool, exited: bool) {
    && w.addr == v.addr
    && (w.congested <==> v.congested || flagged)
    && (w.closed <==> v.closed || exited)
    && (w.stage.Running? && v.stage.Running? ==>
          && (w.stage.readerDone <==> v.stage.readerDone || readerEnded)
          && (w.stage.writerDone <==> v.stage.writerDone || writerEnded))
    && (w.stage.Running? && !v.stage.Running? ==> !v.closed && !w.stage.readerDone && !w.stage.writerDone)
    && (exited ==> v.stage == Running(true, true))
    && (v.stage.Running? ==> w.stage.Running? || exited)
  }

  ghost predicate AllAdvance(s: State, e: Step, t: State) {
    && |s.sessions| <= |t.sessions|
    && (forall id {:trigger t.sessions[id]} :: 0 <= id < |s.sessions| ==>
          Advances(s.sessions[id], t.sessions[id], Flags(id)(s, e), EndsReader(id)(s, e), EndsWriter(id)(s, e), Exits(id)(s, e)))
    && (forall id {:trigger t.sessions[id]} :: |s.sessions| <= id < |t.sessions| ==>
          !t.sessions[id].congested && !t.sessions[id].closed && t.sessions[id].stage.Created?)
  }

  lemma ListenerStepAdvances(s: State, e: Step)
    requires TableSafe(s) && ListenerStep(e)
    ensures AllAdvance(s, e, Apply(s, e))
  {
    hide EntrySafe, SessionSafe, ChannelsSafe;
    assert ListenerSafe(s);
    hide TableSafe;
  }

  lemma LoopStepAdvances(s: State, e: Step)
    requires TableSafe(s) && LoopStep(e)
    ensures AllAdvance(s, e, Apply(s, e))
  {
    hide EntrySafe;
    assert s.holding.Some? ==> SessionSafe(s.active, s.holding.value, s.sessions[s.holding.value]);
    hide SessionSafe;
  }

  lemma WriterStepAdvances(s: State, e: Step)
    requires WriterStep(e)
    ensures AllAdvance(s, e, Apply(s, e))
  {
    hide Frame;
  }

  lemma ReaderStepAdvances(s: State, e: Step)
    requires TableSafe(s) && (e.EFlag? || e.EReaderDone? || e.EExit?)
    ensures AllAdvance(s, e, Apply(s, e))
  {
    hide EntrySafe, ChannelsSafe, ListenerSafe;
    if e.EExit? && e.sid < |s.sessions| {
      assert SessionSafe(s.active, e.sid, s.sessions[e.sid]);
    }
    hide SessionSafe;
  }

  lemma StepAdvances(s: State, e: Step)
    requires TableSafe(s)
    ensures AllAdvance(s, e, Apply(s, e))
  {
    hide TableSafe, AllAdvance, Apply;
    if ListenerStep(e) {
      ListenerStepAdvances(s, e);
    } else if LoopStep(e) {
      LoopStepAdvances(s, e);
    } else if WriterStep(e) {
      WriterStepAdvances(s, e);
    } else {
      ReaderStepAdvances(s, e);
    }
  }

  lemma StepReads(s: State, e: Step)
    ensures Apply(s, e).arrivals == s.arrivals + ReadBy(s, e) && Apply(s, e).channelSize == s.channelSize
  {
    hide Frame;
  }

  lemma StepKeepsOfferOrder(s: State, e: Step)
    ensures TakenBy(s, e) + Apply(s, e).udpChan == s.udpChan + OfferedBy(s, e)
    ensures |Apply(s, e).udpChan| <= |s.udpChan| || |Apply(s, e).udpChan| <= s.channelSize
  {
    hide Frame;
  }

  /** A datagram goes to the table's session of its address exactly while that is there and not flagged, and otherwise to a
      session of its own. */
  lemma LookupDecides(s: State, addr: Addr, data: seq<byte>)
    requires TableSafe(s) && s.listener.Reading? && |data| <= BUFFER_SIZE - 2
    ensures var d := Datagram(|s.arrivals|, addr, data);
            Apply(s, ELookup(addr, data)).listener
            == if addr in s.active && !s.sessions[s.active[addr]].congested then Found(s.active[addr], d) else Creating(d)
  {
    assert addr in s.active ==> EntrySafe(s, addr);
  }

  // ---------------------------------------------------------------- whole runs

  /** A session is exactly as far as the enabled steps that name it. */
  ghost predicate AsSaid(at: seq<Step> -> State, steps: seq<Step>, id: Sid, v: Session) {
    && (v.congested <==> Once(at, steps, Flags(id)))
    && (v.closed <==> Once(at, steps, Exits(id)))
    && (v.stage.Running? ==>
          && (v.stage.readerDone <==> Once(at, steps, EndsReader(id)))
          && (v.stage.writerDone <==> Once(at, steps, EndsWriter(id))))
    && (!v.stage.Running? && !v.closed ==> !Once(at, steps, EndsReader(id)) && !Once(at, steps, EndsWriter(id)))
  }

  lemma {:induction false} NotYet(channelSize: nat, steps: seq<Step>, id: Sid)
    requires id >= |Run(Init(channelSize), steps).sessions|
    ensures var at := From(channelSize);
            !Once(at, steps, Flags(id)) && !Once(at, steps, Exits(id)) && !Once(at, steps, EndsReader(id)) && !Once(at, steps, EndsWriter(id))
  {
    if steps != [] {
      var s := Run(Init(channelSize), steps[..|steps| - 1]);
      RunSafe(channelSize, steps[..|steps| - 1]);
      StepAdvances(s, steps[|steps| - 1]);
      hide Apply, TableSafe;
      NotYet(channelSize, steps[..|steps| - 1], id);
    }
  }

  /** Over every run a session is congested if and only if it was flagged, closed if and only if its handler exited, and its
      copiers are done if and only if they ended. */
  lemma {:induction false} RunAsSaid(channelSize: nat, steps: seq<Step>, id: Sid)
    requires id < |Run(Init(channelSize), steps).sessions|
    ensures AsSaid(From(channelSize), steps, id, Run(Init(channelSize), steps).sessions[id])
  {
    hide Apply, TableSafe, Enabled;
    var before, e := steps[..|steps| - 1], steps[|steps| - 1];
    var s := Run(Init(channelSize), before);
    RunSafe(channelSize, before);
    StepAdvances(s, e);
    if id < |s.sessions| {
      RunAsSaid(channelSize, before, id);
      var v, w := s.sessions[id], Apply(s, e).sessions[id];
      assert Advances(v, w, Flags(id)(s, e), EndsReader(id)(s, e), EndsWriter(id)(s, e), Exits(id)(s, e));
      RunnersOnly(s, e, id);
    } else {
      NotYet(channelSize, before, id);
      BeyondIdle(s, e, id);
    }
  }

  lemma RunnersOnly(s: State, e: Step, id: Sid)
    requires id < |s.sessions|
    ensures !s.sessions[id].stage.Running? ==>
      !Flags(id)(s, e) && !EndsReader(id)(s, e) && !EndsWriter(id)(s, e) && !Exits(id)(s, e)
  {
  }

  lemma BeyondIdle(s: State, e: Step, id: Sid)
    requires id >= |s.sessions|
    ensures !Flags(id)(s, e) && !EndsReader(id)(s, e) && !EndsWriter(id)(s, e) && !Exits(id)(s, e)
  {
  }

  /** Over every run the arrivals are the datagrams read, the handler loop takes sessions in the order in which they were
      offered, and its channel never exceeds its size. */
  lemma {:induction false} RunKeepsOfferOrder(channelSize: nat, steps: seq<Step>)
    ensures var at := From(channelSize);
            && at(steps).arrivals == Gathered(at, steps, ReadBy)
            && Gathered(at, steps, TakenBy) + at(steps).udpChan == Gathered(at, steps, OfferedBy)
            && at(steps).channelSize == channelSize && |at(steps).udpChan| <= channelSize
  {
    hide Apply, ReadBy, TakenBy, OfferedBy;
    if steps != [] {
      var at, before, e := From(channelSize), steps[..|steps| - 1], steps[|steps| - 1];
      var s := at(before);
      RunKeepsOfferOrder(channelSize, before);
      StepReads(s, e);
      StepKeepsOfferOrder(s, e);
      Handover(Gathered(at, before, TakenBy), s.udpChan, Gathered(at, before, OfferedBy),
               TakenBy(s, e), Apply(s, e).udpChan, OfferedBy(s, e));
    }
  }

  /** No payload channel ever holds more than its capacity. */
  ghost predicate PayloadsFit(s: State) {
    forall id {:trigger s.sessions[id]} :: 0 <= id < |s.sessions| ==>
      |s.sessions[id].queued| - s.sessions[id].taken <= 100_000
  }

  lemma {:induction false} RunPayloadsFit(channelSize: nat, steps: seq<Step>)
    ensures PayloadsFit(Run(Init(channelSize), steps))
  {
    hide Apply, PayloadsFit;
    if steps == [] {
      assert PayloadsFit(Init(channelSize)) by { NoneFit(channelSize); }
    } else {
      RunPayloadsFit(channelSize, steps[..|steps| - 1]);
      StepPayloadsFit(Run(Init(channelSize), steps[..|steps| - 1]), steps[|steps| - 1]);
    }
  }

  lemma NoneFit(channelSize: nat)
    ensures PayloadsFit(Init(channelSize))
  {
  }

  lemma ListenerStepPayloadsFit(s: State, e: Step)
    requires PayloadsFit(s) && ListenerStep(e)
    ensures PayloadsFit(Apply(s, e))
  {
  }

  lemma OtherStepPayloadsFit(s: State, e: Step)
    requires PayloadsFit(s) && !ListenerStep(e)
    ensures PayloadsFit(Apply(s, e))
  {
    hide Frame;
  }

  lemma StepPayloadsFit(s: State, e: Step)
    requires PayloadsFit(s)
    ensures PayloadsFit(Apply(s, e))
  {
    hide PayloadsFit, Apply;
    if ListenerStep(e) {
      ListenerStepPayloadsFit(s, e);
    } else {
      OtherStepPayloadsFit(s, e);
    }
  }

  // ---------------------------------------------------------------- a hand-over

  /** One session of this address, running, with its first datagram still queued. */
  function OneRunning(a: Addr, d: seq<byte>, congested: bool): State {
    State(1, map[a := 0], [Session(a, congested, false, Running(false, false), [Datagram(0, a, d)], 0, [], [])], [], Reading, None,
          [Datagram(0, a, d)], [], false)
  }

  lemma FirstRuns(a: Addr, d: seq<byte>)
    requires |d| <= BUFFER_SIZE - 2
    ensures Apply(Apply(Apply(Apply(Apply(Init(1), ELookup(a, d)), EStore), EOffer), ETake), EStart) == OneRunning(a, d, false)
  {
    var g := Datagram(0, a, d);
    var s1 := Apply(Init(1), ELookup(a, d));
    assert s1 == State(1, map[], [], [], Creating(g), None, [g], [], false);
    var s2 := Apply(s1, EStore);
    assert s2 == State(1, map[a := 0], [Session(a, false, false, Created, [], 0, [], [])], [], Stored(0, g), None, [g], [], false);
    var s3 := Apply(s2, EOffer);
    assert s3 == State(1, map[a := 0], [Session(a, false, false, Offered, [g], 0, [], [])], [0], Reading, None, [g], [], false);
    var s4 := Apply(s3, ETake);
    assert s4 == State(1, map[a := 0], [Session(a, false, false, Held, [g], 0, [], [])], [], Reading, Some(0), [g], [], false);
  }

  /** The first session flagged, the next datagram of its address in a second one. */
  function TwoSessions(a: Addr, d: seq<byte>, e: seq<byte>): State {
    OneRunning(a, d, true).(
      active := map[a := 1],
      sessions := [OneRunning(a, d, true).sessions[0], Session(a, false, false, Offered, [Datagram(1, a, e)], 0, [], [])],
      udpChan := [1], arrivals := [Datagram(0, a, d), Datagram(1, a, e)])
  }

  lemma FlaggedIsSuperseded(a: Addr, d: seq<byte>, e: seq<byte>)
    requires |d| <= BUFFER_SIZE - 2 && |e| <= BUFFER_SIZE - 2
    ensures Apply(Apply(Apply(Apply(OneRunning(a, d, false), EFlag(0)), ELookup(a, e)), EStore), EOffer) == TwoSessions(a, d, e)
  {
    var g := Datagram(1, a, e);
    var s1 := Apply(OneRunning(a, d, false), EFlag(0));
    assert s1 == OneRunning(a, d, true);
    var s2 := Apply(s1, ELookup(a, e));
    assert s2 == s1.(listener := Creating(g), arrivals := [Datagram(0, a, d), g]);
    var s3 := Apply(s2, EStore);
    assert s3 == s2.(active := map[a := 1], sessions := s1.sessions + [Session(a, false, false, Created, [], 0, [], [])],
                     listener := Stored(1, g));
    var s4 := Apply(s3, EOffer);
    assert |s4.sessions| == 2 && s4.sessions[1].queued == [g] && s4.sessions[1] == TwoSessions(a, d, e).sessions[1];
    assert s4.udpChan == [1] && s4.sessions[0] == s1.sessions[0];
  }

  /** The old session on its way out, its only datagram as far as given. */
  function Leaving(a: Addr, d: seq<byte>, e: seq<byte>, done: bool, taken: nat, unsent: seq<byte>, out: seq<byte>): State {
    var s := TwoSessions(a, d, e);
    s.(sessions := [s.sessions[0].(stage := Running(true, done), taken := taken, unsent := unsent, out := out), s.sessions[1]])
  }

  lemma OldOneTakes(a: Addr, d: seq<byte>, e: seq<byte>)
    requires |d| <= BUFFER_SIZE - 2
    ensures Apply(Apply(TwoSessions(a, d, e), EReaderDone(0)), EWriterTake(0)) == Leaving(a, d, e, false, 1, Frame(Packet([], d)), [])
  {
    hide Frame;
    var s1 := Apply(TwoSessions(a, d, e), EReaderDone(0));
    assert s1 == Leaving(a, d, e, false, 0, [], []);
    var s2 := Apply(s1, EWriterTake(0));
    assert s2.sessions == Leaving(a, d, e, false, 1, Frame(Packet([], d)), []).sessions;
  }

  lemma OldOneWrites(a: Addr, d: seq<byte>, e: seq<byte>, f: seq<byte>)
    requires f != []
    ensures Apply(Apply(Leaving(a, d, e, false, 1, f, []), EWriterWrite(0, |f|, true)), EWriterIdle(0)) == Leaving(a, d, e, true, 1, [], f)
  {
    var s1 := Apply(Leaving(a, d, e, false, 1, f, []), EWriterWrite(0, |f|, true));
    assert [] + f[..|f|] == f && f[|f|..] == [];
    assert s1.sessions == Leaving(a, d, e, false, 1, [], f).sessions;
    var s2 := Apply(s1, EWriterIdle(0));
    assert s2.sessions == Leaving(a, d, e, true, 1, [], f).sessions;
  }

  /** What a hand-over comes to. */
  predicate HandedOver(t: State, a: Addr, d: seq<byte>, e: seq<byte>) {
    && t.active == map[a := 1] && |t.sessions| == 2 && t.sessions[0].closed && t.sessions[0].out == Frame(Packet([], d))
    && t.sessions[1].queued == [Datagram(1, a, e)] && !t.sessions[1].closed && !t.sessions[1].congested
  }

  lemma OldOneExits(a: Addr, d: seq<byte>, e: seq<byte>)
    ensures HandedOver(Apply(Leaving(a, d, e, true, 1, [], Frame(Packet([], d))), EExit(0)), a, d, e)
  {
    hide Frame;
  }

  lemma RunMore(s: State, steps: seq<Step>, e: Step, more: seq<Step>)
    requires more == steps + [e]
    ensures Run(s, more) == Apply(Run(s, steps), e)
  {
    assert more[..|steps|] == steps;
  }

  lemma RunNothing(s: State)
    ensures Run(s, []) == s
  {
  }

  /** A reached hand-over: an address is served by a first session, that is flagged, its next datagram goes to a second one,
      and when the first handler is done it closes its own channel and leaves the second session's entry. */
  lemma HandoverReached(a: Addr, d: seq<byte>, e: seq<byte>)
    requires |d| <= BUFFER_SIZE - 2 && |e| <= BUFFER_SIZE - 2
    ensures var n := |Frame(Packet([], d))|;
            var steps := [ELookup(a, d), EStore, EOffer, ETake, EStart, EFlag(0), ELookup(a, e), EStore, EOffer,
                          EReaderDone(0), EWriterTake(0), EWriterWrite(0, n, true), EWriterIdle(0), EExit(0)];
            HandedOver(Run(Init(1), steps), a, d, e)
  {
    hide Run, Apply, Frame, HandedOver;
    var n := |Frame(Packet([], d))|;
    var steps := [ELookup(a, d), EStore, EOffer, ETake, EStart, EFlag(0), ELookup(a, e), EStore, EOffer,
                  EReaderDone(0), EWriterTake(0), EWriterWrite(0, n, true), EWriterIdle(0), EExit(0)];
    var s := Init(1);
    RunNothing(s);
    RunMore(s, [], steps[0], steps[..1]);
    RunMore(s, steps[..1], steps[1], steps[..2]);
    RunMore(s, steps[..2], steps[2], steps[..3]);
    RunMore(s, steps[..3], steps[3], steps[..4]);
    RunMore(s, steps[..4], steps[4], steps[..5]);
    FirstRuns(a, d);
    RunMore(s, steps[..5], steps[5], steps[..6]);
    RunMore(s, steps[..6], steps[6], steps[..7]);
    RunMore(s, steps[..7], steps[7], steps[..8]);
    RunMore(s, steps[..8], steps[8], steps[..9]);
    FlaggedIsSuperseded(a, d, e);
    RunMore(s, steps[..9], steps[9], steps[..10]);
    RunMore(s, steps[..10], steps[10], steps[..11]);
    OldOneTakes(a, d, e);
    RunMore(s, steps[..11], steps[11], steps[..12]);
    RunMore(s, steps[..12], steps[12], steps[..13]);
    assert n >= 2 by { FrameLayout(Packet([], d), []); }
    OldOneWrites(a, d, e, Frame(Packet([], d)));
    RunMore(s, steps[..13], steps[13], steps);
    OldOneExits(a, d, e);
  }
}
