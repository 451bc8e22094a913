/** What a run of the TCP transport comes to, read off its steps: queues are served in order, and each outcome is that of
    the steps that say so and of no others. */
module TunnelSupplyTraces {
  import opened Base
  import opened TunnelSupply

  function From(channelSize: nat, workers: nat, connPoolSize: nat, factors: Factors): seq<Step> -> System {
    (steps: seq<Step>) => Run(Init(channelSize, workers, connPoolSize, factors), steps)
  }

  // ---------------------------------------------------------------- local connections

  /** Accepted while the local channel has room, and numbered in that order. */
  function AcceptedBy(y: System, e: Step): seq<Conn> {
    if e == AtServer(SAccept) && |y.server.localChannel| < y.server.channelSize then [y.server.accepted] else []
  }

  /** The connection a worker holds after taking one. */
  function TakenBy(y: System, e: Step): seq<Conn> {
    if !(Enabled(y, e) && e.AtServer? && e.s.STakeLocal?) then [] else
    var z := Apply(y, e).server;
    if e.s.w < |z.workers| && z.workers[e.s.w].Checking? then [z.workers[e.s.w].conn] else []
  }

  /** Found older than three seconds. */
  function ExpiredBy(y: System, e: Step): seq<Conn> {
    if Enabled(y, e) && e.AtServer? && e.s.SCheck? && e.s.expired then [y.server.workers[e.s.w].conn] else []
  }

  function AbandonedBy(y: System, e: Step): seq<Conn> {
    if Enabled(y, e) && e.AtServer? && e.s.SStop? && y.server.workers[e.s.w].Waiting? then [y.server.workers[e.s.w].conn] else []
  }

  /** The address was sent. */
  function PairedBy(y: System, e: Step): seq<Pair> {
    if Enabled(y, e) && e.AtServer? && e.s.SSendAddress? && e.s.sent
    then [Pair(y.server.workers[e.s.w].conn, y.server.workers[e.s.w].tunnel)] else []
  }

  // ---------------------------------------------------------------- tunnels

  predicate Admits(y: System, e: Step) {
    e.Admitted? && e.i < |y.arriving| && e.trusted && |y.server.tunnelChannel| < y.server.channelSize
  }

  /** From the control channel's peer, while the tunnel channel has room. */
  function AdmittedBy(y: System, e: Step): seq<Tun> {
    if Admits(y, e) then [y.arriving[e.i]] else []
  }

  function TunnelTakenBy(y: System, e: Step): seq<Tun> {
    if !(Enabled(y, e) && e.AtServer? && e.s.STakeTunnel?) then [] else
    var z := Apply(y, e).server;
    if e.s.w < |z.workers| && z.workers[e.s.w].Sending? then [z.workers[e.s.w].tunnel] else []
  }

  /** Turned away on arrival, or closed after a failed address write. */
  function LostBy(y: System, e: Step): seq<Tun> {
    if Enabled(y, e) && e.AtServer? && e.s.SSendAddress? && !e.s.sent then [y.server.workers[e.s.w].tunnel]
    else if e.Admitted? && e.i < |y.arriving| && !Admits(y, e) then [y.arriving[e.i]]
    else []
  }

  // ---------------------------------------------------------------- signals

  function WrittenBy(y: System, e: Step): seq<Signal> {
    if !Enabled(y, e) then [] else
    match e
    case Signalled(sent) => if sent then [NewConn] else []
    case Controlled(g) => [g]
    case _ => []
  }

  function HandledBy(y: System, e: Step): seq<Signal> {
    if Enabled(y, e) && e.AtClient? && e.c.CHandle? then [y.client.msgChan[0]] else []
  }

  /** The client's control loop ends: a closing or unexpected byte, or an RTT probe that could not be answered. */
  function EndedBy(y: System, e: Step): seq<Signal> {
    var h := HandledBy(y, e);
    if h != [] && (h[0] == Closed || h[0] == Unexpected || (h[0] == Rtt && !e.c.replied)) then h else []
  }

  function InHand(c: Client): seq<Signal> { if c.hand.Some? then [c.hand.value] else [] }

  /** Signals on their way, oldest first. */
  function Underway(y: System): seq<Signal> { y.client.msgChan + InHand(y.client) + y.wire }

  // ---------------------------------------------------------------- requests

  /** Requests put into the channel, less those taken out. */
  ghost function Requested(at: seq<Step> -> System, steps: seq<Step>): int {
    if steps == [] then 0 else
    var y, e := at(steps[..|steps| - 1]), steps[|steps| - 1];
    Requested(at, steps[..|steps| - 1])
    + One(e == AtServer(SRequest) && y.server.requesting > 0 && y.server.reqNewConnChan < y.server.channelSize)
    - One(e.Signalled? && Enabled(y, e))
  }

  /** Requests that met a full channel or a failed control write. */
  ghost function Dropped(at: seq<Step> -> System, steps: seq<Step>): int {
    if steps == [] then 0 else
    var y, e := at(steps[..|steps| - 1]), steps[|steps| - 1];
    Dropped(at, steps[..|steps| - 1])
    + One(e == AtServer(SRequest) && y.server.requesting > 0 && y.server.reqNewConnChan >= y.server.channelSize)
    + One(e.Signalled? && Enabled(y, e) && !e.sent)
  }

  // ---------------------------------------------------------------- one step

  lemma StepKeepsConnOrder(y: System, e: Step)
    ensures TakenBy(y, e) + Apply(y, e).server.localChannel == y.server.localChannel + AcceptedBy(y, e)
  {
  }

  lemma StepAccepts(y: System, e: Step)
    ensures Apply(y, e).server.accepted == y.server.accepted + |AcceptedBy(y, e)|
  {
  }

  lemma StepKeepsTunnelOrder(y: System, e: Step)
    ensures TunnelTakenBy(y, e) + Apply(y, e).server.tunnelChannel == y.server.tunnelChannel + AdmittedBy(y, e)
  {
  }

  lemma ClientStepSignals(c: Client, f: ClientStep)
    requires ClientEnabled(c, f)
    ensures var d := ClientApply(c, f);
            (if f.CHandle? then [c.msgChan[0]] else []) + (d.msgChan + InHand(d)) == c.msgChan + InHand(c)
  {
  }

  lemma StepKeepsSignalOrder(y: System, e: Step)
    ensures HandledBy(y, e) + Underway(Apply(y, e)) == Underway(y) + WrittenBy(y, e)
  {
    if e.AtClient? && Enabled(y, e) {
      ClientStepSignals(y.client, e.c);
      hide ClientApply, ClientEnabled, InHand;
    } else {
      OtherStepSignals(y, e);
    }
  }

  lemma OtherStepSignals(y: System, e: Step)
    requires !(e.AtClient? && Enabled(y, e))
    ensures HandledBy(y, e) == [] && Underway(Apply(y, e)) == Underway(y) + WrittenBy(y, e)
  {
    hide ServerApply, ServerEnabled;
  }

  lemma StepEnds(y: System, e: Step)
    ensures Apply(y, e).client.up <==> y.client.up && EndedBy(y, e) == []
  {
  }

  lemma StepTimesOut(y: System, e: Step)
    ensures Apply(y, e).server.timedOut == y.server.timedOut + ExpiredBy(y, e)
  {
  }

  lemma StepAbandons(y: System, e: Step)
    ensures Apply(y, e).server.abandoned == y.server.abandoned + AbandonedBy(y, e)
  {
  }

  lemma StepPairs(y: System, e: Step)
    ensures Apply(y, e).server.paired == y.server.paired + PairedBy(y, e)
  {
  }

  lemma StepLoses(y: System, e: Step)
    ensures Apply(y, e).server.lost == y.server.lost + LostBy(y, e)
  {
  }

  /** A worker waits for a tunnel only after finding its connection young enough, and then with that connection. */
  /** What each step of a worker makes of it; a step of another worker leaves it alone. */
  lemma ServerStepWorkers(s: Server, f: ServerStep, w: nat)
    requires ServerEnabled(s, f) && w < |s.workers|
    ensures |ServerApply(s, f).workers| == |s.workers|
    ensures ServerApply(s, f).cancelled <==> s.cancelled || f.SCancel?
    ensures ServerApply(s, f).requesting
            == s.requesting + One(f.SAccept? && |s.localChannel| < s.channelSize) - One(f.SRequest?)
    ensures var v, u := s.workers[w], ServerApply(s, f).workers[w];
            u == if f == STakeLocal(w) then Checking(s.localChannel[0])
                 else if f == SCheck(w, true) then Idle
                 else if f == SCheck(w, false) then Waiting(v.conn)
                 else if f == STakeTunnel(w) then Sending(v.conn, s.tunnelChannel[0])
                 else if f == SSendAddress(w, true) then Idle
                 else if f == SSendAddress(w, false) then Checking(v.conn)
                 else if f == SStop(w) then Stopped
                 else v
  {
  }

  /** A worker waits for a tunnel only after finding its connection young enough, and then with that connection. */
  lemma StepWaits(y: System, e: Step, w: nat)
    requires w < |y.server.workers|
    ensures |Apply(y, e).server.workers| == |y.server.workers|
    ensures var v, u := y.server.workers[w], Apply(y, e).server.workers[w];
            && (u.Waiting? && u != v ==> e == AtServer(SCheck(w, false)) && v == Checking(u.conn))
            && (e == AtServer(SCheck(w, false)) && Enabled(y, e) ==> u == Waiting(v.conn))
  {
    if e.AtServer? && Enabled(y, e) {
      ServerStepWorkers(y.server, e.s, w);
    }
    hide ServerApply, ClientApply;
  }

  /** The control channel is up until a signal could not be written. */
  lemma StepControls(y: System, e: Step)
    ensures Apply(y, e).server.controlUp <==> y.server.controlUp && !(e == Signalled(false) && Enabled(y, e))
  {
  }

  lemma StepRequests(y: System, e: Step)
    ensures Apply(y, e).server.reqNewConnChan == y.server.reqNewConnChan
            + One(e == AtServer(SRequest) && y.server.requesting > 0 && y.server.reqNewConnChan < y.server.channelSize)
            - One(e.Signalled? && Enabled(y, e))
  {
  }

  lemma StepDrops(y: System, e: Step)
    ensures Apply(y, e).server.dropped == y.server.dropped
            + One(e == AtServer(SRequest) && y.server.requesting > 0 && y.server.reqNewConnChan >= y.server.channelSize)
            + One(e.Signalled? && Enabled(y, e) && !e.sent)
  {
  }

  lemma StepBounds(y: System, e: Step)
    ensures Apply(y, e).server.channelSize == y.server.channelSize
    ensures |Apply(y, e).server.localChannel| <= |y.server.localChannel| || |Apply(y, e).server.localChannel| <= y.server.channelSize
    ensures |Apply(y, e).server.tunnelChannel| <= |y.server.tunnelChannel| || |Apply(y, e).server.tunnelChannel| <= y.server.channelSize
  {
  }

  // ---------------------------------------------------------------- whole runs

  /** Over every run connections are taken in the order in which they were accepted, and accepted exactly while the local
      channel has room, which it never exceeds. */
  lemma {:induction false} RunKeepsConnOrder(channelSize: nat, workers: nat, connPoolSize: nat, factors: Factors, steps: seq<Step>)
    ensures var at := From(channelSize, workers, connPoolSize, factors);
            && Gathered(at, steps, TakenBy) + at(steps).server.localChannel == Gathered(at, steps, AcceptedBy)
            && |Gathered(at, steps, AcceptedBy)| == at(steps).server.accepted
            && at(steps).server.channelSize == channelSize && |at(steps).server.localChannel| <= channelSize
  {
    hide Apply, TakenBy, AcceptedBy;
    if steps != [] {
      var at, before, e := From(channelSize, workers, connPoolSize, factors), steps[..|steps| - 1], steps[|steps| - 1];
      var y := at(before);
      RunKeepsConnOrder(channelSize, workers, connPoolSize, factors, before);
      StepKeepsConnOrder(y, e);
      StepAccepts(y, e);
      StepBounds(y, e);
      Handover(Gathered(at, before, TakenBy), y.server.localChannel, Gathered(at, before, AcceptedBy),
               TakenBy(y, e), Apply(y, e).server.localChannel, AcceptedBy(y, e));
    }
  }

  /** Over every run tunnels are taken in the order in which they were admitted: those of the control channel's peer, while
      the tunnel channel has room, which it never exceeds. */
  lemma {:induction false} RunKeepsTunnelOrder(channelSize: nat, workers: nat, connPoolSize: nat, factors: Factors, steps: seq<Step>)
    ensures var at := From(channelSize, workers, connPoolSize, factors);
            && Gathered(at, steps, TunnelTakenBy) + at(steps).server.tunnelChannel == Gathered(at, steps, AdmittedBy)
            && at(steps).server.channelSize == channelSize && |at(steps).server.tunnelChannel| <= channelSize
  {
    hide Apply, TunnelTakenBy, AdmittedBy;
    if steps != [] {
      var at, before, e := From(channelSize, workers, connPoolSize, factors), steps[..|steps| - 1], steps[|steps| - 1];
      var y := at(before);
      RunKeepsTunnelOrder(channelSize, workers, connPoolSize, factors, before);
      StepKeepsTunnelOrder(y, e);
      StepBounds(y, e);
      Handover(Gathered(at, before, TunnelTakenBy), y.server.tunnelChannel, Gathered(at, before, AdmittedBy),
               TunnelTakenBy(y, e), Apply(y, e).server.tunnelChannel, AdmittedBy(y, e));
    }
  }

  /** Over every run the client handles signals in the order in which the server wrote them, none lost and none twice; its
      control loop is up until it handles one that ends it. */
  lemma {:induction false} RunKeepsSignalOrder(channelSize: nat, workers: nat, connPoolSize: nat, factors: Factors, steps: seq<Step>)
    ensures var at := From(channelSize, workers, connPoolSize, factors);
            && Gathered(at, steps, HandledBy) + Underway(at(steps)) == Gathered(at, steps, WrittenBy)
            && (at(steps).client.up <==> Gathered(at, steps, EndedBy) == [])
  {
    hide Apply, HandledBy, WrittenBy, EndedBy, Underway;
    var at := From(channelSize, workers, connPoolSize, factors);
    if steps == [] {
      NothingUnderway(channelSize, workers, connPoolSize, factors);
    } else {
      var before, e := steps[..|steps| - 1], steps[|steps| - 1];
      var y := at(before);
      RunKeepsSignalOrder(channelSize, workers, connPoolSize, factors, before);
      StepKeepsSignalOrder(y, e);
      StepEnds(y, e);
      Handover(Gathered(at, before, HandledBy), Underway(y), Gathered(at, before, WrittenBy),
               HandledBy(y, e), Underway(Apply(y, e)), WrittenBy(y, e));
    }
  }

  lemma NothingUnderway(channelSize: nat, workers: nat, connPoolSize: nat, factors: Factors)
    ensures Underway(Init(channelSize, workers, connPoolSize, factors)) == []
  {
  }

  /** Over every run: the connections timed out are those found too old, in order and no others; those abandoned, the ones a
      worker waited with when it stopped; the pairs, those whose address was sent; the tunnels lost, those turned away or
      whose address could not be sent. */
  lemma {:induction false} RunOutcomes(channelSize: nat, workers: nat, connPoolSize: nat, factors: Factors, steps: seq<Step>)
    ensures var at := From(channelSize, workers, connPoolSize, factors);
            var s := at(steps).server;
            && s.timedOut == Gathered(at, steps, ExpiredBy) && s.abandoned == Gathered(at, steps, AbandonedBy)
            && s.paired == Gathered(at, steps, PairedBy) && s.lost == Gathered(at, steps, LostBy)
  {
    hide Apply, ExpiredBy, AbandonedBy, PairedBy, LostBy;
    if steps != [] {
      var at, before, e := From(channelSize, workers, connPoolSize, factors), steps[..|steps| - 1], steps[|steps| - 1];
      RunOutcomes(channelSize, workers, connPoolSize, factors, before);
      StepTimesOut(at(before), e);
      StepAbandons(at(before), e);
      StepPairs(at(before), e);
      StepLoses(at(before), e);
    }
  }

  /** Over every run the request channel holds what was put in and not taken out; requests are dropped exactly when they
      meet a full channel or a failed control write. */
  lemma {:induction false} RunRequests(channelSize: nat, workers: nat, connPoolSize: nat, factors: Factors, steps: seq<Step>)
    ensures var at := From(channelSize, workers, connPoolSize, factors);
            at(steps).server.reqNewConnChan == Requested(at, steps) && at(steps).server.dropped == Dropped(at, steps)
  {
    hide Apply;
    if steps != [] {
      var at, before, e := From(channelSize, workers, connPoolSize, factors), steps[..|steps| - 1], steps[|steps| - 1];
      RunRequests(channelSize, workers, connPoolSize, factors, before);
      StepRequests(at(before), e);
      StepDrops(at(before), e);
    }
  }

  function BreaksControl(y: System, e: Step): bool { e == Signalled(false) && Enabled(y, e) }

  /** Over every run the control channel is up until a signal could not be written. */
  lemma {:induction false} RunControls(channelSize: nat, workers: nat, connPoolSize: nat, factors: Factors, steps: seq<Step>)
    ensures var at := From(channelSize, workers, connPoolSize, factors);
            at(steps).server.controlUp <==> !Once(at, steps, BreaksControl)
  {
    hide Apply;
    if steps != [] {
      RunControls(channelSize, workers, connPoolSize, factors, steps[..|steps| - 1]);
      StepControls(From(channelSize, workers, connPoolSize, factors)(steps[..|steps| - 1]), steps[|steps| - 1]);
    }
  }

  /** A worker waiting with a connection found it young enough when it last looked. */
  ghost predicate FoundYoung(at: seq<Step> -> System, steps: seq<Step>, w: nat) {
    steps != []
    && ((steps[|steps| - 1] == AtServer(SCheck(w, false)) && Enabled(at(steps[..|steps| - 1]), steps[|steps| - 1]))
        || (FoundYoung(at, steps[..|steps| - 1], w) && w < |at(steps[..|steps| - 1]).server.workers|
            && w < |at(steps).server.workers| && at(steps).server.workers[w] == at(steps[..|steps| - 1]).server.workers[w]))
  }

  /** Over every run a worker waits for a tunnel only with a connection that it found young enough, without doing anything
      else in between. */
  lemma {:induction false} RunWaits(channelSize: nat, workers: nat, connPoolSize: nat, factors: Factors, steps: seq<Step>, w: nat)
    ensures var at := From(channelSize, workers, connPoolSize, factors);
            && |at(steps).server.workers| == workers
            && (w < workers && at(steps).server.workers[w].Waiting? ==> FoundYoung(at, steps, w))
  {
    hide Apply;
    if steps != [] {
      var at, before, e := From(channelSize, workers, connPoolSize, factors), steps[..|steps| - 1], steps[|steps| - 1];
      RunWaits(channelSize, workers, connPoolSize, factors, before, w);
      if w < workers {
        StepWaits(at(before), e, w);
      } else {
        StepKeepsWorkers(at(before), e);
      }
    }
  }

  lemma StepKeepsWorkers(y: System, e: Step)
    ensures |Apply(y, e).server.workers| == |y.server.workers|
  {
  }
}
