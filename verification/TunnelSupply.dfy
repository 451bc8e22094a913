/** The TCP transport as one machine over both peers: local connections are accepted and queued,
    each asks for a tunnel over the control channel, the client dials, and the server's workers
    pair connections with tunnels while the client's maintainer grows and shrinks the pool.
    Every goroutine step between two shared-memory operations is one step here. */
module TunnelSupply {
  import opened Base

  type Conn = nat // local connections, numbered as they enter the local channel
  type Tun = nat  // tunnels, numbered as their dialers start

  datatype Signal = Heartbeat | NewConn | Closed | Rtt | Unexpected

  const TOKEN_CAPACITY: nat := 100
  const MESSAGE_CAPACITY: nat := 1000

  // ---------------------------------------------------------------- server

  /** Where one handle loop stands. */
  datatype Worker =
    | Idle
    | Checking(conn: Conn)
    | Waiting(conn: Conn)
    | Sending(conn: Conn, tunnel: Tun)
    | Stopped

  datatype Pair = Pair(conn: Conn, tunnel: Tun)

  datatype Server = Server(
    channelSize: nat,
    localChannel: seq<Conn>,
    tunnelChannel: seq<Tun>,
    reqNewConnChan: nat,
    requesting: nat, // accepters that queued a connection and have not asked for its tunnel yet
    workers: seq<Worker>,
    controlUp: bool,
    cancelled: bool,
    // what has happened so far
    accepted: nat,
    dropped: nat,    // requests that never reached the wire
    paired: seq<Pair>,
    timedOut: seq<Conn>,
    abandoned: seq<Conn>,
    lost: seq<Tun>)

  function NewServer(channelSize: nat, workers: nat): Server {
    Server(channelSize, [], [], 0, 0, seq(workers, _ => Idle), true, false,
           0, 0, [], [], [], [])
  }

  function AcceptLocal(s: Server): Server {
    if |s.localChannel| < s.channelSize then
      s.(localChannel := s.localChannel + [s.accepted], accepted := s.accepted + 1, requesting := s.requesting + 1)
    else s
  }

  function RequestTunnel(s: Server): Server
    requires s.requesting > 0
  {
    var t := s.(requesting := s.requesting - 1);
    if s.reqNewConnChan < s.channelSize then t.(reqNewConnChan := s.reqNewConnChan + 1)
    else t.(dropped := s.dropped + 1)
  }

  function TakeRequest(s: Server, sent: bool): Server
    requires s.reqNewConnChan > 0
  {
    var t := s.(reqNewConnChan := s.reqNewConnChan - 1);
    if sent then t else t.(dropped := s.dropped + 1, controlUp := false)
  }

  function AdmitTunnel(s: Server, t: Tun, trusted: bool): Server {
    if trusted && |s.tunnelChannel| < s.channelSize
    then s.(tunnelChannel := s.tunnelChannel + [t])
    else s.(lost := s.lost + [t])
  }

  function TakeLocal(s: Server, w: nat): Server
    requires w < |s.workers| && s.localChannel != []
  {
    s.(workers := s.workers[w := Checking(s.localChannel[0])], localChannel := s.localChannel[1..])
  }

  function Check(s: Server, w: nat, expired: bool): Server
    requires w < |s.workers| && s.workers[w].Checking?
  {
    var c := s.workers[w].conn;
    if expired then s.(workers := s.workers[w := Idle], timedOut := s.timedOut + [c])
    else s.(workers := s.workers[w := Waiting(c)])
  }

  function TakeTunnel(s: Server, w: nat): Server
    requires w < |s.workers| && s.workers[w].Waiting? && s.tunnelChannel != []
  {
    s.(workers := s.workers[w := Sending(s.workers[w].conn, s.tunnelChannel[0])], tunnelChannel := s.tunnelChannel[1..])
  }

  function SendAddress(s: Server, w: nat, sent: bool): Server
    requires w < |s.workers| && s.workers[w].Sending?
  {
    var Sending(c, t) := s.workers[w];
    if sent then s.(workers := s.workers[w := Idle], paired := s.paired + [Pair(c, t)])
    else s.(workers := s.workers[w := Checking(c)], lost := s.lost + [t])
  }

  function StopWorker(s: Server, w: nat): Server
    requires w < |s.workers| && (s.workers[w].Idle? || s.workers[w].Waiting?)
  {
    var t := s.(workers := s.workers[w := Stopped]);
    if s.workers[w].Waiting? then t.(abandoned := s.abandoned + [s.workers[w].conn]) else t
  }

  // ---------------------------------------------------------------- client

  /** Where one tunnelDialer stands. */
  datatype Dialer = Dialing | Failed | Connected | Awaiting | Received | Done

  /** Where the pool maintainer stands between its reads and writes of shared counters. */
  datatype Maintainer = Watching | LoadRead(load: nat) | Shrinking

  datatype Factors = Factors(a: int, b: int, x: int, y: real)

  const PATIENT := Factors(4, 5, 3, 4.0)
  const AGGRESSIVE := Factors(1, 2, 0, 0.75)

  predicate Grows(f: Factors, load: int, avg: int) {
    load + f.a > avg * f.b
  }

  predicate Shrinks(f: Factors, load: int, avg: int) {
    (load + f.x) as real < avg as real * f.y
  }

  datatype Client = Client(
    connPoolSize: nat,
    factors: Factors,
    poolConnections: int,
    loadConnections: nat,
    controlFlow: nat,
    newPoolSize: int,
    poolConnectionsSum: int,
    maintainer: Maintainer,
    hand: Option<Signal>, // read from the control channel, not yet in the message channel
    msgChan: seq<Signal>,
    deciding: bool,       // a signal was counted and its token check is next
    up: bool,
    dialers: seq<Dialer>,
    // what has happened so far
    signals: nat,
    swallowed: nat,
    shrinks: nat,
    windows: nat,
    overwritten: nat)     // increments erased by the separate load and reset

  function NewClient(connPoolSize: nat, factors: Factors): Client {
    Client(connPoolSize, factors, 0, 0, 0, connPoolSize, 0, Watching, None, [], false, true,
           seq(connPoolSize, _ => Dialing), 0, 0, 0, 0, 0)
  }

  /** An RTT probe is answered; a failed answer ends the loop like a closing or an unexpected byte. */
  function HandleSignal(c: Client, replied: bool): Client
    requires c.msgChan != []
  {
    var d := c.(msgChan := c.msgChan[1..]);
    match c.msgChan[0]
    case NewConn => d.(loadConnections := c.loadConnections + 1, signals := c.signals + 1, deciding := true)
    case Heartbeat => d
    case Rtt => if replied then d else d.(up := false)
    case Closed => d.(up := false)
    case Unexpected => d.(up := false)
  }

  function Decide(c: Client): Client
    requires c.deciding
  {
    if c.controlFlow > 0
    then c.(deciding := false, controlFlow := c.controlFlow - 1, swallowed := c.swallowed + 1)
    else c.(deciding := false, dialers := c.dialers + [Dialing])
  }

  function TickPool(c: Client): Client {
    c.(poolConnectionsSum := c.poolConnectionsSum + c.poolConnections)
  }

  function ReadLoad(c: Client): Client {
    c.(maintainer := LoadRead(c.loadConnections))
  }

  /** A tenth of a ten-second window, rounded up for the non-negative counts that occur. */
  function CeilTenth(n: int): (r: int)
    ensures n >= 0 ==> n <= 10 * r < n + 10
  {
    if n + 9 >= 0 then (n + 9) / 10 else -((-(n + 9)) / 10) // Go division truncates toward zero
  }

  /** The maintainer resets the load window it has read; increments made in between are erased. */
  function CloseWindow(c: Client): Client
    requires c.maintainer.LoadRead?
  {
    var read := c.maintainer.load;
    c.(loadConnections := 0, poolConnectionsSum := 0, maintainer := Watching, windows := c.windows + read,
       overwritten := c.overwritten + if c.loadConnections >= read then c.loadConnections - read else 0)
  }

  function Resize(c: Client, load: int, avg: int): Client {
    if Grows(c.factors, load, avg) then
      c.(newPoolSize := c.newPoolSize + 1, dialers := c.dialers + [Dialing])
    else if Shrinks(c.factors, load, avg) && c.newPoolSize > c.connPoolSize then
      c.(newPoolSize := c.newPoolSize - 1, maintainer := Shrinking, shrinks := c.shrinks + 1)
    else c
  }

  function Adjust(c: Client): Client
    requires c.maintainer.LoadRead?
  {
    Resize(CloseWindow(c), CeilTenth(c.maintainer.load), CeilTenth(c.poolConnectionsSum))
  }

  function SendToken(c: Client): Client {
    c.(maintainer := Watching, controlFlow := c.controlFlow + 1)
  }

  function SetDialer(c: Client, t: Tun, d: Dialer): Client
    requires t < |c.dialers|
  {
    c.(dialers := c.dialers[t := d])
  }

  function EnterPool(c: Client, t: Tun): Client
    requires t < |c.dialers|
  {
    SetDialer(c, t, Awaiting).(poolConnections := c.poolConnections + 1)
  }

  function LeavePool(c: Client, t: Tun): Client
    requires t < |c.dialers|
  {
    SetDialer(c, t, Done).(poolConnections := c.poolConnections - 1)
  }

  // ---------------------------------------------------------------- both peers

  datatype System = System(server: Server, client: Client, wire: seq<Signal>, arriving: seq<Tun>)

  function Init(channelSize: nat, workers: nat, connPoolSize: nat, factors: Factors): System {
    System(NewServer(channelSize, workers), NewClient(connPoolSize, factors), [], [])
  }

  /** Steps of the server alone: accepters, workers and cancellation. */
  datatype ServerStep =
    | SAccept
    | SRequest
    | STakeLocal(w: nat)
    | SCheck(w: nat, expired: bool)
    | STakeTunnel(w: nat)
    | SSendAddress(w: nat, sent: bool)
    | SCancel
    | SStop(w: nat)

  predicate ServerEnabled(s: Server, e: ServerStep) {
    match e
    case SAccept => true
    case SRequest => s.requesting > 0
    case STakeLocal(w) => w < |s.workers| && s.workers[w].Idle? && s.localChannel != []
    case SCheck(w, _) => w < |s.workers| && s.workers[w].Checking?
    case STakeTunnel(w) => w < |s.workers| && s.workers[w].Waiting? && s.tunnelChannel != []
    case SSendAddress(w, _) => w < |s.workers| && s.workers[w].Sending?
    case SCancel => true
    case SStop(w) => s.cancelled && w < |s.workers| && (s.workers[w].Idle? || s.workers[w].Waiting?)
  }

  function ServerApply(s: Server, e: ServerStep): Server
    requires ServerEnabled(s, e)
  {
    match e
    case SAccept => AcceptLocal(s)
    case SRequest => RequestTunnel(s)
    case STakeLocal(w) => TakeLocal(s, w)
    case SCheck(w, expired) => Check(s, w, expired)
    case STakeTunnel(w) => TakeTunnel(s, w)
    case SSendAddress(w, sent) => SendAddress(s, w, sent)
    case SCancel => s.(cancelled := true)
    case SStop(w) => StopWorker(s, w)
  }

  /** Steps of the client alone: its reader, channel handler, maintainer and dialers. */
  datatype ClientStep =
    | CQueue
    | CHandle(replied: bool)
    | CDecide
    | CTickPool
    | CReadLoad
    | CAdjust
    | CSendToken
    | CDialFailed(t: Tun)
    | CEnter(t: Tun)
    | CReceive(t: Tun)
    | CLeave(t: Tun)

  predicate ClientEnabled(c: Client, e: ClientStep) {
    match e
    case CQueue => c.hand.Some? && |c.msgChan| < MESSAGE_CAPACITY
    case CHandle(_) => c.up && !c.deciding && c.msgChan != []
    case CDecide => c.deciding
    case CTickPool => c.maintainer.Watching?
    case CReadLoad => c.maintainer.Watching?
    case CAdjust => c.maintainer.LoadRead?
    case CSendToken => c.maintainer.Shrinking? && c.controlFlow < TOKEN_CAPACITY
    case CDialFailed(t) => t < |c.dialers| && c.dialers[t].Dialing?
    case CEnter(t) => t < |c.dialers| && c.dialers[t].Connected?
    case CReceive(t) => t < |c.dialers| && c.dialers[t].Awaiting?
    case CLeave(t) => t < |c.dialers| && c.dialers[t].Received?
  }

  function ClientApply(c: Client, e: ClientStep): Client
    requires ClientEnabled(c, e)
  {
    match e
    case CQueue => c.(hand := None, msgChan := c.msgChan + [c.hand.value])
    case CHandle(replied) => HandleSignal(c, replied)
    case CDecide => Decide(c)
    case CTickPool => TickPool(c)
    case CReadLoad => ReadLoad(c)
    case CAdjust => Adjust(c)
    case CSendToken => SendToken(c)
    case CDialFailed(t) => SetDialer(c, t, Failed)
    case CEnter(t) => EnterPool(c, t)
    case CReceive(t) => SetDialer(c, t, Received)
    case CLeave(t) => LeavePool(c, t)
  }

  datatype Step =
    | AtServer(s: ServerStep)
    | AtClient(c: ClientStep)
    | Signalled(sent: bool)           // channelHandler takes a request and writes SG_Chan
    | Controlled(signal: Signal)      // a heartbeat, RTT probe or closing notice is written
    | Read                            // the client reads one control byte
    | Dialed(t: Tun)                  // a dial succeeds and waits in the server's backlog
    | Admitted(i: nat, trusted: bool) // the server accepts a dialed tunnel

  predicate Enabled(y: System, e: Step) {
    match e
    case AtServer(f) => ServerEnabled(y.server, f)
    case AtClient(f) => ClientEnabled(y.client, f)
    case Signalled(_) => y.server.controlUp && y.server.reqNewConnChan > 0
    case Controlled(g) => y.server.controlUp && g != NewConn
    case Read => y.wire != [] && y.client.hand.None?
    case Dialed(t) => t < |y.client.dialers| && y.client.dialers[t].Dialing?
    case Admitted(i, _) => i < |y.arriving|
  }

  /** One step of any goroutine; a step that is not enabled leaves the system as it is. */
  function Apply(y: System, e: Step): System {
    if !Enabled(y, e) then y else
    match e
    case AtServer(f) => y.(server := ServerApply(y.server, f))
    case AtClient(f) => y.(client := ClientApply(y.client, f))
    case Signalled(sent) =>
      y.(server := TakeRequest(y.server, sent), wire := if sent then y.wire + [NewConn] else y.wire)
    case Controlled(g) => y.(wire := y.wire + [g])
    case Read => y.(client := y.client.(hand := Some(y.wire[0])), wire := y.wire[1..])
    case Dialed(t) => y.(client := SetDialer(y.client, t, Connected), arriving := y.arriving + [t])
    case Admitted(i, trusted) =>
      y.(server := AdmitTunnel(y.server, y.arriving[i], trusted), arriving := Remove(y.arriving, i))
  }

  function Run(y: System, steps: seq<Step>): System {
    if steps == [] then y else Apply(Run(y, steps[..|steps| - 1]), steps[|steps| - 1])
  }
}
