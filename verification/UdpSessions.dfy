/** One UDP listener of the TCP transport: the session table, the hand-over of a congested session to a new one, and
    the handlers that close and delete. Shared-memory accesses of different goroutines interleave freely; only the
    mutex orders them. A send on a closed channel and a second close are what Go makes of them: a panic. */
module UdpSessions {
  import opened Base
  import opened Framing

  type Addr = nat
  type Sid = nat // sessions, numbered as they are created; the address of the session's struct

  const PAYLOAD_CAPACITY: nat := 100_000

  datatype Datagram = Datagram(id: nat, addr: Addr, data: seq<byte>)

  /** Where a session is: made but not offered, offered and waiting, refused by a full channel, held by the loop that
      seeks a tunnel, running its two copiers, or finished. */
  datatype Stage = Created | Offered | Refused | Held | Running(readerDone: bool, writerDone: bool) | Finished

  datatype Session = Session(
    addr: Addr,
    congested: bool,
    closed: bool,
    stage: Stage,
    queued: seq<Datagram>, // everything ever sent to the payload channel
    taken: nat,            // how much of it the writer has received
    unsent: seq<byte>,     // what is left to write of the current packet
    out: seq<byte>)        // what the tunnel has accepted

  /** The listener goroutine: reading; holding the mutex with a live session found; about to create a session;
      or about to offer the session it has stored. */
  datatype Listener = Reading | Found(sid: Sid, d: Datagram) | Creating(d: Datagram) | Stored(sid: Sid, d: Datagram)

  datatype State = State(
    channelSize: nat,
    active: map<Addr, Sid>,
    sessions: seq<Session>,
    udpChan: seq<Sid>,
    listener: Listener,
    holding: Option<Sid>, // handleUDPLoop's current session
    arrivals: seq<Datagram>,
    dropped: seq<Datagram>,
    panicked: bool)

  function Init(channelSize: nat): State {
    State(channelSize, map[], [], [], Reading, None, [], [], false)
  }

  function SetSession(s: State, sid: Sid, v: Session): State
    requires sid < |s.sessions|
  {
    s.(sessions := s.sessions[sid := v])
  }

  /** A read datagram meets a session that is in the table and not flagged, or leads to a new session. */
  function Lookup(s: State, addr: Addr, data: seq<byte>): State {
    var d := Datagram(|s.arrivals|, addr, data);
    var t := s.(arrivals := s.arrivals + [d]);
    if addr in s.active && s.active[addr] < |s.sessions| && !s.sessions[s.active[addr]].congested
    then t.(listener := Found(s.active[addr], d))
    else t.(listener := Creating(d))
  }

  function SendPayload(s: State, sid: Sid, d: Datagram): State
    requires sid < |s.sessions|
  {
    var v := s.sessions[sid];
    if v.closed then s.(panicked := true)
    else if |v.queued| - v.taken < PAYLOAD_CAPACITY then SetSession(s, sid, v.(queued := v.queued + [d]))
    else s.(dropped := s.dropped + [d])
  }

  function Deliver(s: State): State
    requires s.listener.Found? && s.listener.sid < |s.sessions|
  {
    SendPayload(s, s.listener.sid, s.listener.d).(listener := Reading)
  }

  function Store(s: State): State
    requires s.listener.Creating?
  {
    var d := s.listener.d;
    s.(sessions := s.sessions + [Session(d.addr, false, false, Created, [], 0, [], [])],
       active := s.active[d.addr := |s.sessions|],
       listener := Stored(|s.sessions|, d))
  }

  /** The session is offered to the handler loop together with its first payload, or refused for good. */
  function Offer(s: State): State
    requires s.listener.Stored? && s.listener.sid < |s.sessions|
  {
    var sid, d := s.listener.sid, s.listener.d;
    if |s.udpChan| < s.channelSize then
      var t := SetSession(s, sid, s.sessions[sid].(stage := Offered)).(udpChan := s.udpChan + [sid]);
      SendPayload(t, sid, d).(listener := Reading)
    else
      SetSession(s, sid, s.sessions[sid].(stage := Refused)).(dropped := s.dropped + [d], listener := Reading)
  }

  function Take(s: State): State
    requires s.udpChan != [] && s.udpChan[0] < |s.sessions|
  {
    var sid := s.udpChan[0];
    SetSession(s, sid, s.sessions[sid].(stage := Held)).(udpChan := s.udpChan[1..], holding := Some(sid))
  }

  function Start(s: State): State
    requires s.holding.Some? && s.holding.value < |s.sessions|
  {
    var sid := s.holding.value;
    SetSession(s, sid, s.sessions[sid].(stage := Running(false, false))).(holding := None)
  }

  function WriterTake(v: Session): Session
    requires v.taken < |v.queued|
  {
    var data := v.queued[v.taken].data;
    var w := v.(taken := v.taken + 1);
    if |data| > 65535 then w else w.(unsent := Frame(Packet([], data)))
  }

  function WriterWrite(v: Session, n: nat, ok: bool): Session
    requires n <= |v.unsent| && v.stage.Running?
  {
    var w := v.(out := v.out + v.unsent[..n], unsent := v.unsent[n..]);
    if ok then w else w.(stage := v.stage.(writerDone := true))
  }

  /** The end of UDPConnectionHandler, under the mutex: close the payload channel, then delete unless congested. */
  function Exit(s: State, sid: Sid): State
    requires sid < |s.sessions|
  {
    var v := s.sessions[sid];
    if v.closed then s.(panicked := true) else
    var t := SetSession(s, sid, v.(closed := true, stage := Finished));
    if v.congested then t else t.(active := s.active - {v.addr})
  }

  datatype Step =
    | ELookup(addr: Addr, data: seq<byte>)
    | EDeliver
    | EStore
    | EOffer
    | ETake
    | EStart
    | EFlag(sid: Sid)
    | EReaderDone(sid: Sid)
    | EWriterTake(sid: Sid)
    | EWriterWrite(sid: Sid, n: nat, ok: bool)
    | EWriterIdle(sid: Sid)
    | EExit(sid: Sid)

  predicate WriterRuns(s: State, sid: Sid) {
    sid < |s.sessions| && s.sessions[sid].stage.Running? && !s.sessions[sid].stage.writerDone
  }

  predicate ReaderRuns(s: State, sid: Sid) {
    sid < |s.sessions| && s.sessions[sid].stage.Running? && !s.sessions[sid].stage.readerDone
  }

  predicate Enabled(s: State, e: Step) {
    match e
    case ELookup(_, data) => s.listener.Reading? && |data| <= BUFFER_SIZE - 2
    case EDeliver => s.listener.Found? && s.listener.sid < |s.sessions|
    case EStore => s.listener.Creating?
    case EOffer => s.listener.Stored? && s.listener.sid < |s.sessions|
    case ETake => s.holding.None? && s.udpChan != [] && s.udpChan[0] < |s.sessions|
    case EStart => s.holding.Some? && s.holding.value < |s.sessions|
    case EFlag(sid) => ReaderRuns(s, sid)
    case EReaderDone(sid) => ReaderRuns(s, sid)
    case EWriterTake(sid) => WriterRuns(s, sid) && s.sessions[sid].unsent == [] && s.sessions[sid].taken < |s.sessions[sid].queued|
    case EWriterWrite(sid, n, _) => WriterRuns(s, sid) && s.sessions[sid].unsent != [] && n <= |s.sessions[sid].unsent|
    case EWriterIdle(sid) => WriterRuns(s, sid) && s.sessions[sid].unsent == []
    case EExit(sid) => sid < |s.sessions| && s.sessions[sid].stage == Running(true, true) && !s.listener.Found?
  }

  /** One step; a step that is not enabled leaves the state as it is. */
  function Apply(s: State, e: Step): State {
    if !Enabled(s, e) then s else
    match e
    case ELookup(addr, data) => Lookup(s, addr, data)
    case EDeliver => Deliver(s)
    case EStore => Store(s)
    case EOffer => Offer(s)
    case ETake => Take(s)
    case EStart => Start(s)
    case EFlag(sid) => SetSession(s, sid, s.sessions[sid].(congested := true))
    case EReaderDone(sid) => SetSession(s, sid, s.sessions[sid].(stage := s.sessions[sid].stage.(readerDone := true)))
    case EWriterTake(sid) => SetSession(s, sid, WriterTake(s.sessions[sid]))
    case EWriterWrite(sid, n, ok) => SetSession(s, sid, WriterWrite(s.sessions[sid], n, ok))
    case EWriterIdle(sid) => SetSession(s, sid, s.sessions[sid].(stage := s.sessions[sid].stage.(writerDone := true)))
    case EExit(sid) => Exit(s, sid)
  }

  function Run(s: State, steps: seq<Step>): State {
    if steps == [] then s else Apply(Run(s, steps[..|steps| - 1]), steps[|steps| - 1])
  }

  // ---------------------------------------------------------------- the table

  /** What ties a session to the table, wherever the other goroutines are: it is closed only by its own exit, flagged
      only once its copiers run, and while neither it is the table's entry for its address. */
  ghost predicate SessionSafe(active: map<Addr, Sid>, sid: Sid, v: Session) {
    && (v.closed <==> v.stage.Finished?)
    && (v.congested ==> v.stage.Running? || v.stage.Finished?)
    && (!v.congested && !v.closed ==> v.addr in active && active[v.addr] == sid)
  }

  /** An entry of the table is a session of that address, and a closed one has been flagged. */
  ghost predicate EntrySafe(s: State, a: Addr)
    requires a in s.active
  {
    && s.active[a] < |s.sessions| && s.sessions[s.active[a]].addr == a
    && (s.sessions[s.active[a]].closed ==> s.sessions[s.active[a]].congested)
  }

  ghost predicate TableSafe(s: State) {
    && !s.panicked
    && (forall sid {:trigger s.sessions[sid]} :: 0 <= sid < |s.sessions| ==> SessionSafe(s.active, sid, s.sessions[sid]))
    && (forall a {:trigger s.active[a]} :: a in s.active ==> EntrySafe(s, a))
    && ChannelsSafe(s)
    && ListenerSafe(s)
  }

  /** Each session is in at most one of the offer channel and the handler loop's hands. */
  ghost predicate ChannelsSafe(s: State) {
    && (forall i :: 0 <= i < |s.udpChan| ==> s.udpChan[i] < |s.sessions| && s.sessions[s.udpChan[i]].stage == Offered)
    && (forall i, j :: 0 <= i < j < |s.udpChan| ==> s.udpChan[i] != s.udpChan[j])
    && (s.holding.Some? ==> s.holding.value < |s.sessions| && s.sessions[s.holding.value].stage == Held)
  }

  ghost predicate ListenerSafe(s: State) {
    match s.listener
    case Reading => true
    case Found(sid, d) => sid < |s.sessions| && s.sessions[sid].addr == d.addr && !s.sessions[sid].closed
    case Creating(d) => d.addr in s.active ==> s.active[d.addr] < |s.sessions| && s.sessions[s.active[d.addr]].congested
    case Stored(sid, d) => sid < |s.sessions| && s.sessions[sid].addr == d.addr && s.sessions[sid].stage == Created
                           && s.sessions[sid].queued == [] && s.sessions[sid].out == [] && s.sessions[sid].taken == 0
  }

  lemma LookupSafe(s: State, addr: Addr, data: seq<byte>)
    requires TableSafe(s) && s.listener.Reading?
    ensures TableSafe(Lookup(s, addr, data))
  {
  }

  lemma SendPayloadSafe(s: State, sid: Sid, d: Datagram)
    requires TableSafe(s.(listener := Reading)) && sid < |s.sessions| && !s.sessions[sid].closed
    ensures TableSafe(SendPayload(s, sid, d).(listener := Reading))
  {
  }

  lemma StoreSafe(s: State)
    requires TableSafe(s) && s.listener.Creating?
    ensures TableSafe(Store(s))
  {
  }

  lemma OfferSafe(s: State)
    requires TableSafe(s) && s.listener.Stored?
    ensures TableSafe(Offer(s))
  {
    var sid, d := s.listener.sid, s.listener.d;
    if |s.udpChan| < s.channelSize {
      var t := SetSession(s, sid, s.sessions[sid].(stage := Offered)).(udpChan := s.udpChan + [sid]);
      assert TableSafe(t.(listener := Reading));
      SendPayloadSafe(t, sid, d);
    }
  }

  lemma TakeSafe(s: State)
    requires TableSafe(s) && Enabled(s, ETake)
    ensures TableSafe(Take(s))
  {
  }

  lemma StartSafe(s: State)
    requires TableSafe(s) && Enabled(s, EStart)
    ensures TableSafe(Start(s))
  {
  }

  /** A running session's copiers may change anything but its address and closedness, and may raise the flag. */
  lemma CopierSafe(s: State, sid: Sid, v: Session)
    requires TableSafe(s) && sid < |s.sessions| && s.sessions[sid].stage.Running? && v.stage.Running?
    requires v.addr == s.sessions[sid].addr && v.closed == s.sessions[sid].closed
    requires s.sessions[sid].congested ==> v.congested
    ensures TableSafe(SetSession(s, sid, v))
  {
  }

  lemma ExitSafe(s: State, sid: Sid)
    requires TableSafe(s) && Enabled(s, EExit(sid))
    ensures TableSafe(Exit(s, sid))
  {
  }

  lemma StepSafe(s: State, e: Step)
    requires TableSafe(s)
    ensures TableSafe(Apply(s, e))
  {
    if Enabled(s, e) {
      match e
      case ELookup(addr, data) => LookupSafe(s, addr, data);
      case EDeliver => SendPayloadSafe(s, s.listener.sid, s.listener.d);
      case EStore => StoreSafe(s);
      case EOffer => OfferSafe(s);
      case ETake => TakeSafe(s);
      case EStart => StartSafe(s);
      case EExit(sid) => ExitSafe(s, sid);
      case _ => CopierSafe(s, e.sid, Apply(s, e).sessions[e.sid]);
    }
  }

  /** Over every run no payload is sent to a closed channel and none is closed twice; a closed channel found in the
      table is congested; at most one session per address is neither congested nor closed; and a finishing handler
      that deletes deletes its own entry. */
  lemma {:induction false} RunSafe(channelSize: nat, steps: seq<Step>)
    ensures TableSafe(Run(Init(channelSize), steps))
  {
    if steps != [] {
      RunSafe(channelSize, steps[..|steps| - 1]);
      StepSafe(Run(Init(channelSize), steps[..|steps| - 1]), steps[|steps| - 1]);
    }
  }

  /** The consequences, spelled out. */
  lemma TableGuarantees(channelSize: nat, steps: seq<Step>)
    ensures var s := Run(Init(channelSize), steps);
            && !s.panicked
            && (forall i, j :: 0 <= i < j < |s.sessions| && s.sessions[i].addr == s.sessions[j].addr ==>
                  s.sessions[i].congested || s.sessions[i].closed || s.sessions[j].congested || s.sessions[j].closed)
            && (forall sid: Sid {:trigger s.sessions[sid]} :: Enabled(s, EExit(sid)) && !s.sessions[sid].congested ==>
                  s.sessions[sid].addr in s.active && s.active[s.sessions[sid].addr] == sid)
  {
    RunSafe(channelSize, steps);
  }
}
