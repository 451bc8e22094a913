/** What every run of the TCP transport keeps: the cross-machine balance of tunnels against
    connections, the partition of connections and tunnels, and the pool controller's bounds. */
module TunnelSupplyLaws {
  import opened Base
  import opened TunnelSupply

  // ---------------------------------------------------------------- counting

  predicate IsRequest(g: Signal) { g.NewConn? }
  predicate IsDialing(d: Dialer) { d.Dialing? }
  predicate HasFailed(d: Dialer) { d.Failed? }
  predicate InPool(d: Dialer) { d.Awaiting? || d.Received? }
  predicate HasConn(w: Worker) { w.Checking? || w.Waiting? || w.Sending? }
  predicate HasTunnel(w: Worker) { w.Sending? }

  /** Requests on their way from an accepter to the client's decision. */
  ghost function Pending(y: System): int {
    y.server.requesting + y.server.reqNewConnChan
    + Count(y.wire, IsRequest)
    + One(y.client.hand.Some? && IsRequest(y.client.hand.value))
    + Count(y.client.msgChan, IsRequest)
    + One(y.client.deciding)
  }

  ghost function BeingDialed(y: System): int { Count(y.client.dialers, IsDialing) + |y.arriving| }
  ghost function IdleTunnels(y: System): int { |y.server.tunnelChannel| + Count(y.server.workers, HasTunnel) }
  ghost function LostTunnels(y: System): int { Count(y.client.dialers, HasFailed) + |y.server.lost| }
  ghost function WaitingConns(y: System): int { |y.server.localChannel| + Count(y.server.workers, HasConn) }
  ghost function ShrinkTokens(y: System): int { y.client.controlFlow + One(y.client.maintainer.Shrinking?) }

  /** Supply equals demand: every tunnel, request and connection is on one side of the ledger. */
  ghost predicate Balanced(y: System) {
    BeingDialed(y) + IdleTunnels(y) + LostTunnels(y) + Pending(y) + y.server.dropped
    == y.client.newPoolSize + ShrinkTokens(y) + WaitingConns(y) + |y.server.timedOut| + |y.server.abandoned|
  }

  /** The server's and the client's halves of the ledger, supply minus demand. */
  ghost function ServerLedger(s: Server): int {
    |s.tunnelChannel| + Count(s.workers, HasTunnel) + |s.lost| + s.requesting + s.reqNewConnChan + s.dropped
    - |s.localChannel| - Count(s.workers, HasConn) - |s.timedOut| - |s.abandoned|
  }

  ghost function ClientLedger(c: Client): int {
    Count(c.dialers, IsDialing) + Count(c.dialers, HasFailed)
    + One(c.hand.Some? && IsRequest(c.hand.value)) + Count(c.msgChan, IsRequest) + One(c.deciding)
    - c.newPoolSize - c.controlFlow - One(c.maintainer.Shrinking?)
  }

  lemma LedgersBalance(y: System)
    ensures Balanced(y) <==> ServerLedger(y.server) + ClientLedger(y.client) + Count(y.wire, IsRequest) + |y.arriving| == 0
  {
  }

  lemma InitLedger(channelSize: nat, workers: nat, connPoolSize: nat, factors: Factors)
    ensures ServerLedger(NewServer(channelSize, workers)) == 0
    ensures ClientLedger(NewClient(connPoolSize, factors)) == 0
  {
    var s, c := NewServer(channelSize, workers), NewClient(connPoolSize, factors);
    CountUniform(c.dialers, IsDialing, true);
    CountUniform(c.dialers, HasFailed, false);
    CountUniform(s.workers, HasTunnel, false);
    CountUniform(s.workers, HasConn, false);
  }

  lemma WorkerCounts(s: Server, w: nat, v: Worker)
    requires w < |s.workers|
    ensures Count(s.workers[w := v], HasConn) == Count(s.workers, HasConn) - One(HasConn(s.workers[w])) + One(HasConn(v))
    ensures Count(s.workers[w := v], HasTunnel) == Count(s.workers, HasTunnel) - One(HasTunnel(s.workers[w])) + One(HasTunnel(v))
  {
    hide Count;
    CountUpdate(s.workers, w, v, HasConn);
    CountUpdate(s.workers, w, v, HasTunnel);
  }

  lemma TakeLocalLedger(s: Server, w: nat)
    requires w < |s.workers| && s.workers[w].Idle? && s.localChannel != []
    ensures ServerLedger(TakeLocal(s, w)) == ServerLedger(s)
  {
    hide Count;
    WorkerCounts(s, w, Checking(s.localChannel[0]));
  }

  lemma CheckLedger(s: Server, w: nat, expired: bool)
    requires w < |s.workers| && s.workers[w].Checking?
    ensures ServerLedger(Check(s, w, expired)) == ServerLedger(s)
  {
    hide Count;
    WorkerCounts(s, w, if expired then Idle else Waiting(s.workers[w].conn));
  }

  lemma TakeTunnelLedger(s: Server, w: nat)
    requires w < |s.workers| && s.workers[w].Waiting? && s.tunnelChannel != []
    ensures ServerLedger(TakeTunnel(s, w)) == ServerLedger(s)
  {
    hide Count;
    WorkerCounts(s, w, Sending(s.workers[w].conn, s.tunnelChannel[0]));
  }

  lemma SendAddressLedger(s: Server, w: nat, sent: bool)
    requires w < |s.workers| && s.workers[w].Sending?
    ensures ServerLedger(SendAddress(s, w, sent)) == ServerLedger(s)
  {
    hide Count;
    WorkerCounts(s, w, if sent then Idle else Checking(s.workers[w].conn));
  }

  lemma StopWorkerLedger(s: Server, w: nat)
    requires w < |s.workers| && (s.workers[w].Idle? || s.workers[w].Waiting?)
    ensures ServerLedger(StopWorker(s, w)) == ServerLedger(s)
  {
    hide Count;
    WorkerCounts(s, w, Stopped);
  }

  lemma {:induction false} AddDialerLedger(c: Client)
    ensures ClientLedger(c.(dialers := c.dialers + [Dialing])) == ClientLedger(c) + 1
  {
    assert (c.dialers + [Dialing])[..|c.dialers|] == c.dialers;
  }

  lemma SetDialerLedger(c: Client, t: Tun, d: Dialer)
    requires t < |c.dialers|
    ensures ClientLedger(SetDialer(c, t, d)) == ClientLedger(c)
            - One(IsDialing(c.dialers[t])) - One(HasFailed(c.dialers[t])) + One(IsDialing(d)) + One(HasFailed(d))
  {
    hide Count;
    CountUpdate(c.dialers, t, d, IsDialing);
    CountUpdate(c.dialers, t, d, HasFailed);
  }

  lemma HandleSignalLedger(c: Client, replied: bool)
    requires c.msgChan != [] && !c.deciding
    ensures ClientLedger(HandleSignal(c, replied)) == ClientLedger(c)
  {
    hide Count;
    CountHead(c.msgChan, IsRequest);
  }

  lemma DecideLedger(c: Client)
    requires c.deciding
    ensures ClientLedger(Decide(c)) == ClientLedger(c)
  {
    hide Count;
    AddDialerLedger(c);
  }

  lemma ResizeLedger(c: Client, load: int, avg: int)
    requires c.maintainer.Watching?
    ensures ClientLedger(Resize(c, load, avg)) == ClientLedger(c)
  {
    hide Count;
    if Grows(c.factors, load, avg) {
      AddDialerLedger(c);
    }
  }

  lemma AdjustLedger(c: Client)
    requires c.maintainer.LoadRead?
    ensures ClientLedger(Adjust(c)) == ClientLedger(c)
  {
    hide Count;
    ResizeLedger(CloseWindow(c), CeilTenth(c.maintainer.load), CeilTenth(c.poolConnectionsSum));
  }

  lemma AppendSignal(q: seq<Signal>, g: Signal)
    ensures Count(q + [g], IsRequest) == Count(q, IsRequest) + One(IsRequest(g))
  {
    assert (q + [g])[..|q|] == q;
  }

  lemma ServerStepLedger(s: Server, e: ServerStep)
    requires ServerEnabled(s, e)
    ensures ServerLedger(ServerApply(s, e)) == ServerLedger(s)
  {
    hide Count;
    match e
    case STakeLocal(w) => TakeLocalLedger(s, w);
    case SCheck(w, expired) => CheckLedger(s, w, expired);
    case STakeTunnel(w) => TakeTunnelLedger(s, w);
    case SSendAddress(w, sent) => SendAddressLedger(s, w, sent);
    case SStop(w) => StopWorkerLedger(s, w);
    case _ =>
  }

  lemma QueueLedger(c: Client)
    requires c.hand.Some?
    ensures ClientLedger(c.(hand := None, msgChan := c.msgChan + [c.hand.value])) == ClientLedger(c)
  {
    hide Count;
    AppendSignal(c.msgChan, c.hand.value);
  }

  lemma CountersLedger(c: Client, e: ClientStep)
    requires ClientEnabled(c, e) && (e.CTickPool? || e.CReadLoad? || e.CSendToken?)
    ensures ClientLedger(ClientApply(c, e)) == ClientLedger(c)
  {
    hide Count;
  }

  lemma ClientStepLedger(c: Client, e: ClientStep)
    requires ClientEnabled(c, e)
    ensures ClientLedger(ClientApply(c, e)) == ClientLedger(c)
  {
    hide ClientLedger;
    match e
    case CQueue => QueueLedger(c);
    case CHandle(replied) => HandleSignalLedger(c, replied);
    case CDecide => DecideLedger(c);
    case CAdjust => AdjustLedger(c);
    case CDialFailed(t) => SetDialerLedger(c, t, Failed);
    case CEnter(t) => EnterLedger(c, t);
    case CReceive(t) => SetDialerLedger(c, t, Received);
    case CLeave(t) => LeaveLedger(c, t);
    case _ => CountersLedger(c, e);
  }

  lemma EnterLedger(c: Client, t: Tun)
    requires t < |c.dialers| && c.dialers[t].Connected?
    ensures ClientLedger(EnterPool(c, t)) == ClientLedger(c)
  {
    SetDialerLedger(c, t, Awaiting);
  }

  lemma LeaveLedger(c: Client, t: Tun)
    requires t < |c.dialers| && c.dialers[t].Received?
    ensures ClientLedger(LeavePool(c, t)) == ClientLedger(c)
  {
    SetDialerLedger(c, t, Done);
  }

  /** A signal written leaves the server's ledger for the wire. */
  lemma TakeRequestLedger(s: Server, sent: bool)
    requires s.reqNewConnChan > 0
    ensures ServerLedger(TakeRequest(s, sent)) == ServerLedger(s) - One(sent)
  {
  }

  /** A tunnel that arrives enters the ledger, idle or lost. */
  lemma AdmitLedger(s: Server, t: Tun, trusted: bool)
    ensures ServerLedger(AdmitTunnel(s, t, trusted)) == ServerLedger(s) + 1
  {
  }

  lemma ReadLedger(c: Client, g: Signal)
    requires c.hand.None?
    ensures ClientLedger(c.(hand := Some(g))) == ClientLedger(c) + One(IsRequest(g))
  {
  }

  lemma StepKeepsBalance(y: System, e: Step)
    requires Balanced(y)
    ensures Balanced(Apply(y, e))
  {
    hide Count, Balanced, ServerLedger, ClientLedger;
    LedgersBalance(y);
    LedgersBalance(Apply(y, e));
    if Enabled(y, e) {
      match e
      case AtServer(f) => ServerStepLedger(y.server, f);
      case AtClient(f) => ClientStepLedger(y.client, f);
      case Signalled(sent) => AppendSignal(y.wire, NewConn); TakeRequestLedger(y.server, sent);
      case Controlled(g) => AppendSignal(y.wire, g);
      case Read => CountHead(y.wire, IsRequest); ReadLedger(y.client, y.wire[0]);
      case Dialed(t) => SetDialerLedger(y.client, t, Connected);
      case Admitted(i, trusted) => AdmitLedger(y.server, y.arriving[i], trusted);
    }
  }

  /** The cross-machine conservation law, over every run. */
  lemma {:induction false} RunBalanced(channelSize: nat, workers: nat, connPoolSize: nat, factors: Factors, steps: seq<Step>)
    ensures Balanced(Run(Init(channelSize, workers, connPoolSize, factors), steps))
  {
    if steps == [] {
      InitLedger(channelSize, workers, connPoolSize, factors);
    } else {
      RunBalanced(channelSize, workers, connPoolSize, factors, steps[..|steps| - 1]);
      StepKeepsBalance(Run(Init(channelSize, workers, connPoolSize, factors), steps[..|steps| - 1]), steps[|steps| - 1]);
    }
  }

  // ---------------------------------------------------------------- partitions

  function Is(id: nat): nat -> bool { x => x == id }
  function HoldsConn(c: Conn): Worker -> bool { (w: Worker) => HasConn(w) && w.conn == c }
  function HoldsTunnel(t: Tun): Worker -> bool { (w: Worker) => w.Sending? && w.tunnel == t }
  function PairsConn(c: Conn): Pair -> bool { (p: Pair) => p.conn == c }
  function PairsTunnel(t: Tun): Pair -> bool { (p: Pair) => p.tunnel == t }

  /** How often a connection occurs among queued, held, paired, timed out and abandoned ones. */
  ghost function Places(s: Server, c: Conn): int {
    Count(s.localChannel, Is(c)) + Count(s.workers, HoldsConn(c)) + Count(s.paired, PairsConn(c))
    + Count(s.timedOut, Is(c)) + Count(s.abandoned, Is(c))
  }

  /** How often a tunnel occurs among those the server queued, holds, paired or lost. */
  ghost function TunnelPlaces(s: Server, t: Tun): int {
    Count(s.tunnelChannel, Is(t)) + Count(s.workers, HoldsTunnel(t)) + Count(s.paired, PairsTunnel(t)) + Count(s.lost, Is(t))
  }

  predicate Established(c: Client, t: Tun) {
    t < |c.dialers| && !c.dialers[t].Dialing? && !c.dialers[t].Failed?
  }

  ghost predicate ConnsPartitioned(s: Server) {
    forall c: Conn :: Places(s, c) == One(c < s.accepted)
  }

  ghost predicate TunnelsPartitioned(y: System) {
    forall t: Tun :: TunnelPlaces(y.server, t) + Count(y.arriving, Is(t)) == One(Established(y.client, t))
  }

  lemma UpdateWorker(s: Server, w: nat, v: Worker, c: Conn, t: Tun)
    requires w < |s.workers|
    ensures Count(s.workers[w := v], HoldsConn(c))
            == Count(s.workers, HoldsConn(c)) - One(HoldsConn(c)(s.workers[w])) + One(HoldsConn(c)(v))
    ensures Count(s.workers[w := v], HoldsTunnel(t))
            == Count(s.workers, HoldsTunnel(t)) - One(HoldsTunnel(t)(s.workers[w])) + One(HoldsTunnel(t)(v))
  {
    hide Count;
    CountUpdate(s.workers, w, v, HoldsConn(c));
    CountUpdate(s.workers, w, v, HoldsTunnel(t));
  }

  lemma TakeLocalPlaces(s: Server, w: nat, c: Conn, t: Tun)
    requires w < |s.workers| && s.workers[w].Idle? && s.localChannel != []
    ensures Places(TakeLocal(s, w), c) == Places(s, c) && TunnelPlaces(TakeLocal(s, w), t) == TunnelPlaces(s, t)
  {
    hide Count;
    UpdateWorker(s, w, Checking(s.localChannel[0]), c, t);
    CountHead(s.localChannel, Is(c));
  }

  lemma CheckPlaces(s: Server, w: nat, expired: bool, c: Conn, t: Tun)
    requires w < |s.workers| && s.workers[w].Checking?
    ensures Places(Check(s, w, expired), c) == Places(s, c)
    ensures TunnelPlaces(Check(s, w, expired), t) == TunnelPlaces(s, t)
  {
    hide Count;
    UpdateWorker(s, w, if expired then Idle else Waiting(s.workers[w].conn), c, t);
    CountAppend(s.timedOut, s.workers[w].conn, Is(c));
  }

  lemma TakeTunnelPlaces(s: Server, w: nat, c: Conn, t: Tun)
    requires w < |s.workers| && s.workers[w].Waiting? && s.tunnelChannel != []
    ensures Places(TakeTunnel(s, w), c) == Places(s, c) && TunnelPlaces(TakeTunnel(s, w), t) == TunnelPlaces(s, t)
  {
    hide Count;
    UpdateWorker(s, w, Sending(s.workers[w].conn, s.tunnelChannel[0]), c, t);
    CountHead(s.tunnelChannel, Is(t));
  }

  lemma SendAddressPlaces(s: Server, w: nat, sent: bool, c: Conn)
    requires w < |s.workers| && s.workers[w].Sending?
    ensures Places(SendAddress(s, w, sent), c) == Places(s, c)
  {
    hide Count;
    var Sending(conn, tunnel) := s.workers[w];
    UpdateWorker(s, w, if sent then Idle else Checking(conn), c, 0);
    CountAppend(s.paired, Pair(conn, tunnel), PairsConn(c));
  }

  lemma SendAddressTunnelPlaces(s: Server, w: nat, sent: bool, t: Tun)
    requires w < |s.workers| && s.workers[w].Sending?
    ensures TunnelPlaces(SendAddress(s, w, sent), t) == TunnelPlaces(s, t)
  {
    hide Count;
    var Sending(conn, tunnel) := s.workers[w];
    UpdateWorker(s, w, if sent then Idle else Checking(conn), 0, t);
    if sent {
      CountAppend(s.paired, Pair(conn, tunnel), PairsTunnel(t));
    } else {
      CountAppend(s.lost, tunnel, Is(t));
    }
  }

  lemma StopWorkerPlaces(s: Server, w: nat, c: Conn)
    requires w < |s.workers| && (s.workers[w].Idle? || s.workers[w].Waiting?)
    ensures Places(StopWorker(s, w), c) == Places(s, c)
  {
    hide Count;
    UpdateWorker(s, w, Stopped, c, 0);
    if s.workers[w].Waiting? {
      CountAppend(s.abandoned, s.workers[w].conn, Is(c));
      assert StopWorker(s, w).abandoned == s.abandoned + [s.workers[w].conn];
    } else {
      assert StopWorker(s, w).abandoned == s.abandoned;
    }
  }

  lemma StopWorkerTunnelPlaces(s: Server, w: nat, t: Tun)
    requires w < |s.workers| && (s.workers[w].Idle? || s.workers[w].Waiting?)
    ensures TunnelPlaces(StopWorker(s, w), t) == TunnelPlaces(s, t)
  {
    hide Count;
    UpdateWorker(s, w, Stopped, 0, t);
  }

  /** Server steps move connections and tunnels about; only an accept brings in a connection. */
  lemma ServerStepPlaces(s: Server, e: ServerStep, c: Conn, t: Tun)
    requires ServerEnabled(s, e)
    ensures TunnelPlaces(ServerApply(s, e), t) == TunnelPlaces(s, t)
    ensures Places(ServerApply(s, e), c) - One(c < ServerApply(s, e).accepted) == Places(s, c) - One(c < s.accepted)
  {
    hide Count;
    match e
    case SAccept => CountAppend(s.localChannel, s.accepted, Is(c));
    case STakeLocal(w) => TakeLocalPlaces(s, w, c, t);
    case SCheck(w, expired) => CheckPlaces(s, w, expired, c, t);
    case STakeTunnel(w) => TakeTunnelPlaces(s, w, c, t);
    case SSendAddress(w, sent) => SendAddressPlaces(s, w, sent, c); SendAddressTunnelPlaces(s, w, sent, t);
    case SStop(w) => StopWorkerPlaces(s, w, c); StopWorkerTunnelPlaces(s, w, t);
    case _ =>
  }

  lemma AdmitPlaces(y: System, i: nat, trusted: bool, t: Tun)
    requires i < |y.arriving|
    ensures TunnelPlaces(AdmitTunnel(y.server, y.arriving[i], trusted), t) + Count(Remove(y.arriving, i), Is(t))
            == TunnelPlaces(y.server, t) + Count(y.arriving, Is(t))
  {
    hide Count;
    CountRemove(y.arriving, i, Is(t));
    CountAppend(y.server.tunnelChannel, y.arriving[i], Is(t));
    CountAppend(y.server.lost, y.arriving[i], Is(t));
  }

  lemma ServerStepKeepsConns(s: Server, e: ServerStep)
    requires ServerEnabled(s, e) && ConnsPartitioned(s)
    ensures ConnsPartitioned(ServerApply(s, e))
  {
    hide Places, ServerApply;
    forall c: Conn ensures Places(ServerApply(s, e), c) == One(c < ServerApply(s, e).accepted) {
      ServerStepPlaces(s, e, c, 0);
    }
  }

  lemma StepKeepsConns(y: System, e: Step)
    requires ConnsPartitioned(y.server)
    ensures ConnsPartitioned(Apply(y, e).server)
  {
    hide Count;
    if e.AtServer? && Enabled(y, e) {
      ServerStepKeepsConns(y.server, e.s);
    } else {
      assert forall c: Conn :: Places(Apply(y, e).server, c) == Places(y.server, c);
    }
  }

  lemma ClientStepKeepsEstablished(c: Client, f: ClientStep, t: Tun)
    requires ClientEnabled(c, f)
    ensures Established(ClientApply(c, f), t) == Established(c, t)
  {
  }

  lemma StepKeepsTunnelPlaces(y: System, e: Step, t: Tun)
    requires Enabled(y, e)
    ensures var z := Apply(y, e);
            TunnelPlaces(z.server, t) + Count(z.arriving, Is(t)) - One(Established(z.client, t))
            == TunnelPlaces(y.server, t) + Count(y.arriving, Is(t)) - One(Established(y.client, t))
  {
    hide Count;
    match e
    case AtServer(f) => ServerStepPlaces(y.server, f, 0, t);
    case AtClient(f) => ClientStepKeepsEstablished(y.client, f, t);
    case Dialed(u) => CountAppend(y.arriving, u, Is(t));
    case Admitted(i, trusted) => AdmitPlaces(y, i, trusted, t);
    case _ =>
  }

  lemma StepKeepsTunnels(y: System, e: Step)
    requires TunnelsPartitioned(y)
    ensures TunnelsPartitioned(Apply(y, e))
  {
    hide Count;
    var z := Apply(y, e);
    if Enabled(y, e) {
      forall t: Tun ensures TunnelPlaces(z.server, t) + Count(z.arriving, Is(t)) == One(Established(z.client, t)) {
        StepKeepsTunnelPlaces(y, e, t);
      }
    }
  }

  /** Over every run each accepted connection is in exactly one place, and so is each established tunnel. */
  lemma {:induction false} RunPartitioned(channelSize: nat, workers: nat, connPoolSize: nat, factors: Factors, steps: seq<Step>)
    ensures var y := Run(Init(channelSize, workers, connPoolSize, factors), steps);
            ConnsPartitioned(y.server) && TunnelsPartitioned(y)
  {
    var y0 := Init(channelSize, workers, connPoolSize, factors);
    if steps == [] {
      forall id: nat ensures Count(y0.server.workers, HoldsConn(id)) == 0 == Count(y0.server.workers, HoldsTunnel(id)) {
        CountUniform(y0.server.workers, HoldsConn(id), false);
        CountUniform(y0.server.workers, HoldsTunnel(id), false);
      }
    } else {
      RunPartitioned(channelSize, workers, connPoolSize, factors, steps[..|steps| - 1]);
      StepKeepsConns(Run(y0, steps[..|steps| - 1]), steps[|steps| - 1]);
      StepKeepsTunnels(Run(y0, steps[..|steps| - 1]), steps[|steps| - 1]);
    }
  }

  lemma PlacesBoundPairs(y: System, c: Conn, t: Tun)
    requires ConnsPartitioned(y.server) && TunnelsPartitioned(y)
    ensures Count(y.server.paired, PairsConn(c)) <= 1
    ensures Count(y.server.paired, PairsTunnel(t)) + Count(y.server.lost, Is(t)) <= 1
  {
    assert Places(y.server, c) <= 1 && TunnelPlaces(y.server, t) + Count(y.arriving, Is(t)) <= 1;
  }

  /** Pairing is one to one over every run: no tunnel serves two connections, no connection gets two tunnels. */
  lemma PairingIsOneToOne(channelSize: nat, workers: nat, connPoolSize: nat, factors: Factors, steps: seq<Step>)
    ensures var p := Run(Init(channelSize, workers, connPoolSize, factors), steps).server.paired;
            forall i, j :: 0 <= i < j < |p| ==> p[i].conn != p[j].conn && p[i].tunnel != p[j].tunnel
  {
    var y := Run(Init(channelSize, workers, connPoolSize, factors), steps);
    var p := y.server.paired;
    RunPartitioned(channelSize, workers, connPoolSize, factors, steps);
    forall i, j | 0 <= i < j < |p|
      ensures p[i].conn != p[j].conn && p[i].tunnel != p[j].tunnel
    {
      PlacesBoundPairs(y, p[i].conn, p[i].tunnel);
      if p[i].conn == p[j].conn {
        CountHasTwo(p, i, j, PairsConn(p[i].conn));
      }
      if p[i].tunnel == p[j].tunnel {
        CountHasTwo(p, i, j, PairsTunnel(p[i].tunnel));
      }
    }
  }

  lemma StepKeepsLost(y: System, e: Step, t: Tun)
    requires t in y.server.lost
    ensures t in Apply(y, e).server.lost
  {
    if Enabled(y, e) && e.AtServer? {
      assert t in ServerApply(y.server, e.s).lost;
    }
  }

  lemma {:induction false} LostGrows(y: System, steps: seq<Step>, t: Tun)
    requires t in y.server.lost
    ensures t in Run(y, steps).server.lost
  {
    if steps != [] {
      LostGrows(y, steps[..|steps| - 1], t);
      StepKeepsLost(Run(y, steps[..|steps| - 1]), steps[|steps| - 1], t);
    }
  }

  lemma LostIsNotPaired(y: System, t: Tun)
    requires ConnsPartitioned(y.server) && TunnelsPartitioned(y) && t in y.server.lost
    ensures forall p :: p in y.server.paired ==> p.tunnel != t
  {
    PlacesBoundPairs(y, 0, t);
    var k :| 0 <= k < |y.server.lost| && y.server.lost[k] == t;
    CountHas(y.server.lost, k, Is(t));
    forall p | p in y.server.paired ensures p.tunnel != t {
      var i :| 0 <= i < |y.server.paired| && y.server.paired[i] == p;
      if p.tunnel == t {
        CountHas(y.server.paired, i, PairsTunnel(t));
      }
    }
  }

  /** A failed address write costs the tunnel for good, but the worker goes on with the same connection. */
  lemma FailedWriteCostsOnlyTheTunnel(channelSize: nat, workers: nat, connPoolSize: nat, factors: Factors,
                                      before: seq<Step>, w: nat, after: seq<Step>)
    requires var y := Run(Init(channelSize, workers, connPoolSize, factors), before);
             w < |y.server.workers| && y.server.workers[w].Sending?
    ensures var y := Run(Init(channelSize, workers, connPoolSize, factors), before);
            var z := Apply(y, AtServer(SSendAddress(w, false)));
            && z.server.workers[w] == Checking(y.server.workers[w].conn)
            && forall p :: p in Run(z, after).server.paired ==> p.tunnel != y.server.workers[w].tunnel
  {
    var y0 := Init(channelSize, workers, connPoolSize, factors);
    var y, e := Run(y0, before), AtServer(SSendAddress(w, false));
    RunPartitioned(channelSize, workers, connPoolSize, factors, before + [e] + after);
    RunSplit(y0, before, e, after);
    LostGrows(Apply(y, e), after, y.server.workers[w].tunnel);
    LostIsNotPaired(Run(Apply(y, e), after), y.server.workers[w].tunnel);
  }

  lemma {:induction false} RunSplit(y: System, before: seq<Step>, e: Step, after: seq<Step>)
    ensures Run(y, before + [e] + after) == Run(Apply(Run(y, before), e), after)
  {
    var all := before + [e] + after;
    if after == [] {
      assert all[..|all| - 1] == before;
    } else {
      assert all[..|all| - 1] == before + [e] + after[..|after| - 1];
      RunSplit(y, before, e, after[..|after| - 1]);
    }
  }

  // ---------------------------------------------------------------- pool control

  ghost predicate PoolControlled(c: Client) {
    && c.newPoolSize >= c.connPoolSize
    && c.controlFlow <= 100
    && |c.msgChan| <= 1000
    && c.poolConnections == Count(c.dialers, InPool)
    && c.shrinks == c.swallowed + c.controlFlow + One(c.maintainer.Shrinking?)
    && c.signals == c.windows + c.overwritten + c.loadConnections
    && (c.maintainer.LoadRead? ==> c.maintainer.load <= c.loadConnections)
  }

  lemma NewDialerOutsidePool(c: Client)
    ensures Count(c.dialers + [Dialing], InPool) == Count(c.dialers, InPool)
  {
    assert (c.dialers + [Dialing])[..|c.dialers|] == c.dialers;
  }

  lemma ResizeKeepsPool(c: Client, load: int, avg: int)
    requires c.maintainer.Watching? && PoolControlled(c)
    ensures PoolControlled(Resize(c, load, avg))
  {
    hide Count;
    if Grows(c.factors, load, avg) {
      NewDialerOutsidePool(c);
    }
  }

  lemma ClientStepKeepsPool(c: Client, e: ClientStep)
    requires ClientEnabled(c, e) && PoolControlled(c)
    ensures PoolControlled(ClientApply(c, e))
  {
    hide Count;
    match e
    case CDecide => NewDialerOutsidePool(c);
    case CAdjust => ResizeKeepsPool(CloseWindow(c), CeilTenth(c.maintainer.load), CeilTenth(c.poolConnectionsSum));
    case CDialFailed(t) => CountUpdate(c.dialers, t, Failed, InPool);
    case CEnter(t) => CountUpdate(c.dialers, t, Awaiting, InPool);
    case CReceive(t) => CountUpdate(c.dialers, t, Received, InPool);
    case CLeave(t) => CountUpdate(c.dialers, t, Done, InPool);
    case _ =>
  }

  lemma StepKeepsPool(y: System, e: Step)
    requires PoolControlled(y.client)
    ensures PoolControlled(Apply(y, e).client)
    ensures Apply(y, e).client.connPoolSize == y.client.connPoolSize
  {
    hide Count;
    if Enabled(y, e) {
      match e
      case AtClient(f) => ClientStepKeepsPool(y.client, f);
      case Dialed(t) => CountUpdate(y.client.dialers, t, Connected, InPool);
      case _ =>
    }
  }

  /** The controller's bounds over every run: the pool never shrinks below its configured size, signals
      are swallowed only against shrinks, the idle gauge counts exactly the dialers awaiting an address,
      and the load windows never count a signal that was not received. */
  lemma {:induction false} RunPoolControlled(channelSize: nat, workers: nat, connPoolSize: nat, factors: Factors, steps: seq<Step>)
    ensures PoolControlled(Run(Init(channelSize, workers, connPoolSize, factors), steps).client)
    ensures Run(Init(channelSize, workers, connPoolSize, factors), steps).client.connPoolSize == connPoolSize
  {
    var y0 := Init(channelSize, workers, connPoolSize, factors);
    if steps == [] {
      CountUniform(y0.client.dialers, InPool, false);
    } else {
      RunPoolControlled(channelSize, workers, connPoolSize, factors, steps[..|steps| - 1]);
      StepKeepsPool(Run(y0, steps[..|steps| - 1]), steps[|steps| - 1]);
    }
  }

  /** With no request or dial under way and nothing lost or dropped, the idle tunnels exceed the waiting
      connections by the pool size, the outstanding tokens and the connections that gave up. */
  lemma IdleTunnelsCoverWaiting(channelSize: nat, workers: nat, connPoolSize: nat, factors: Factors, steps: seq<Step>)
    ensures var y := Run(Init(channelSize, workers, connPoolSize, factors), steps);
            BeingDialed(y) + Pending(y) + LostTunnels(y) + y.server.dropped == 0
            ==> IdleTunnels(y) >= WaitingConns(y) + connPoolSize
  {
    RunBalanced(channelSize, workers, connPoolSize, factors, steps);
    RunPoolControlled(channelSize, workers, connPoolSize, factors, steps);
  }

  /** The grow and shrink conditions never hold together, in either factor set. */
  lemma GrowAndShrinkDisjoint(load: nat, avg: nat)
    ensures !(Grows(PATIENT, load, avg) && Shrinks(PATIENT, load, avg))
    ensures !(Grows(AGGRESSIVE, load, avg) && Shrinks(AGGRESSIVE, load, avg))
  {
    assert avg as real * 4.0 == (avg * 4) as real;
    if Shrinks(AGGRESSIVE, load, avg) {
      assert 4.0 * (load as real) < 3.0 * (avg as real);
      assert (4 * load) as real < (3 * avg) as real;
    }
  }

  /** More load or fewer idle tunnels never turn growth off, and never turn shrinking on. */
  lemma ResizeFollowsDemand(f: Factors, load: nat, avg: nat, more: nat, fewer: nat)
    requires f == PATIENT || f == AGGRESSIVE
    requires load <= more && fewer <= avg
    ensures Grows(f, load, avg) ==> Grows(f, more, fewer)
    ensures Shrinks(f, more, fewer) ==> Shrinks(f, load, avg)
  {
    assert fewer as real <= avg as real && load as real <= more as real;
  }

  // ---------------------------------------------------------------- what each machine keeps on its own

  lemma NewServerPartitioned(channelSize: nat, workers: nat)
    ensures ConnsPartitioned(NewServer(channelSize, workers))
  {
    RunPartitioned(channelSize, workers, 0, PATIENT, []);
  }

  lemma NewClientControlled(connPoolSize: nat, factors: Factors)
    ensures PoolControlled(NewClient(connPoolSize, factors))
  {
    RunPoolControlled(0, 0, connPoolSize, factors, []);
  }

  lemma TakeRequestKeeps(s: Server, sent: bool)
    requires ConnsPartitioned(s) && s.reqNewConnChan > 0
    ensures ConnsPartitioned(TakeRequest(s, sent))
  {
    hide Count;
    assert forall c: Conn :: Places(TakeRequest(s, sent), c) == Places(s, c);
  }

  lemma AdmitKeeps(s: Server, t: Tun, trusted: bool)
    requires ConnsPartitioned(s)
    ensures ConnsPartitioned(AdmitTunnel(s, t, trusted))
  {
    hide Count;
    assert forall c: Conn :: Places(AdmitTunnel(s, t, trusted), c) == Places(s, c);
  }

  lemma WindowKeepsPool(c: Client)
    requires PoolControlled(c) && c.maintainer.LoadRead?
    ensures PoolControlled(CloseWindow(c))
  {
    hide Count;
  }
}
