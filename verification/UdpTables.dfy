/** The UDP transport of one generation: a table of tunnels, one table of local sessions per listener, one handler loop
    per listener, and all loops sharing the tunnel channel. Sends on closed channels and second closes panic. */
module UdpTables {
  type Addr = nat
  type Tid = nat
  type Lid = nat

  /** A tunnel: stored; queued; refused by a full channel; with the worker of a listener, before and after its ping
      channel is closed; lost to a failed write; bound to a local session; finished. */
  datatype TunnelStage = Stored | Queued | Refused | Taken(w: nat) | Silenced(w: nat) | Stuck | Bound(l: Lid) | Ended

  datatype Tunnel = Tunnel(key: Addr, payloadClosed: bool, pingClosed: bool, stage: TunnelStage)

  /** A local session: stored; offered to its listener's loop; refused; expired there; held by the loop; bound to a
      tunnel; closed while its tunnel is not yet; finished. */
  datatype LocalStage = LStored | Offered | LRefused | Expired | Held | LBound(t: Tid) | LClosed(t: Tid)

  datatype Local = Local(lsn: nat, addr: Addr, closed: bool, stage: LocalStage)

  datatype Reader<Id> = Reading | Creating(key: Addr) | Offering(id: Id)

  datatype Worker = Idle | Holding(l: Lid) | Silencing(l: Lid, t: Tid) | Sending(l: Lid, t: Tid)

  datatype State = State(
    channelSize: nat,
    tunnels: seq<Tunnel>,
    locals: seq<Local>,
    tunnelTable: map<Addr, Tid>,
    localTable: map<(nat, Addr), Lid>,
    tunnelChannel: seq<Tid>,
    udpChans: seq<seq<Lid>>,    // one per listener
    tunnelReader: Reader<Tid>,
    localReaders: seq<Reader<Lid>>,
    workers: seq<Worker>,
    bindings: seq<(Lid, Tid)>,
    panicked: bool)

  function Init(channelSize: nat, listeners: nat): State {
    State(channelSize, [], [], map[], map[], [], seq(listeners, _ => []), Reading,
          seq(listeners, _ => Reading), seq(listeners, _ => Idle), [], false)
  }

  function SetTunnel(s: State, t: Tid, v: Tunnel): State
    requires t < |s.tunnels|
  {
    s.(tunnels := s.tunnels[t := v])
  }

  function SetLocal(s: State, l: Lid, v: Local): State
    requires l < |s.locals|
  {
    s.(locals := s.locals[l := v])
  }

  function SetWorker(s: State, w: nat, v: Worker): State
    requires w < |s.workers|
  {
    s.(workers := s.workers[w := v])
  }

  // ---------------------------------------------------------------- acceptTunnelConn

  /** A packet from a known tunnel goes to its payload channel; from elsewhere it must be the token. */
  function TunnelPacket(s: State, key: Addr, isToken: bool): State {
    if key in s.tunnelTable then
      if s.tunnelTable[key] < |s.tunnels| && s.tunnels[s.tunnelTable[key]].payloadClosed then s.(panicked := true) else s
    else if isToken then s.(tunnelReader := Creating(key))
    else s
  }

  function StoreTunnel(s: State): State
    requires s.tunnelReader.Creating?
  {
    s.(tunnels := s.tunnels + [Tunnel(s.tunnelReader.key, false, false, Stored)],
       tunnelTable := s.tunnelTable[s.tunnelReader.key := |s.tunnels|],
       tunnelReader := Offering(|s.tunnels|))
  }

  function OfferTunnel(s: State): State
    requires s.tunnelReader.Offering? && s.tunnelReader.id < |s.tunnels|
  {
    var t := s.tunnelReader.id;
    var v := s.tunnels[t];
    if |s.tunnelChannel| < s.channelSize then
      SetTunnel(s, t, v.(stage := Queued)).(tunnelChannel := s.tunnelChannel + [t], tunnelReader := Reading)
    else if v.payloadClosed then s.(panicked := true)
    else SetTunnel(s, t, v.(stage := Refused, payloadClosed := true)).(tunnelTable := s.tunnelTable - {v.key}, tunnelReader := Reading)
  }

  // ---------------------------------------------------------------- localListener

  function LocalPacket(s: State, w: nat, addr: Addr): State
    requires w < |s.localReaders|
  {
    if (w, addr) in s.localTable then
      if s.localTable[(w, addr)] < |s.locals| && s.locals[s.localTable[(w, addr)]].closed then s.(panicked := true) else s
    else s.(localReaders := s.localReaders[w := Creating(addr)])
  }

  function StoreLocal(s: State, w: nat): State
    requires w < |s.localReaders| && s.localReaders[w].Creating?
  {
    var addr := s.localReaders[w].key;
    s.(locals := s.locals + [Local(w, addr, false, LStored)],
       localTable := s.localTable[(w, addr) := |s.locals|],
       localReaders := s.localReaders[w := Offering(|s.locals|)])
  }

  function OfferLocal(s: State, w: nat): State
    requires w < |s.localReaders| && w < |s.udpChans| && s.localReaders[w].Offering? && s.localReaders[w].id < |s.locals|
  {
    var l := s.localReaders[w].id;
    var v := s.locals[l];
    if |s.udpChans[w]| < s.channelSize then
      SetLocal(s, l, v.(stage := Offered)).(udpChans := s.udpChans[w := s.udpChans[w] + [l]],
                                            localReaders := s.localReaders[w := Reading])
    else if v.closed then s.(panicked := true)
    else SetLocal(s, l, v.(stage := LRefused, closed := true)).(localTable := s.localTable - {(v.lsn, v.addr)},
                                                                localReaders := s.localReaders[w := Reading])
  }

  // ---------------------------------------------------------------- handleLoop

  function TakeLocal(s: State, w: nat, expired: bool): State
    requires w < |s.workers| && w < |s.udpChans| && s.udpChans[w] != [] && s.udpChans[w][0] < |s.locals|
  {
    var l := s.udpChans[w][0];
    var t := SetLocal(s, l, s.locals[l].(stage := if expired then Expired else Held)).(udpChans := s.udpChans[w := s.udpChans[w][1..]]);
    if expired then t else SetWorker(t, w, Holding(l))
  }

  function TakeTunnel(s: State, w: nat): State
    requires w < |s.workers| && s.workers[w].Holding? && s.tunnelChannel != [] && s.tunnelChannel[0] < |s.tunnels|
  {
    var t := s.tunnelChannel[0];
    SetWorker(SetTunnel(s, t, s.tunnels[t].(stage := Taken(w))), w, Silencing(s.workers[w].l, t)).(tunnelChannel := s.tunnelChannel[1..])
  }

  function ClosePing(s: State, w: nat): State
    requires w < |s.workers| && s.workers[w].Silencing? && s.workers[w].t < |s.tunnels|
  {
    var Silencing(l, t) := s.workers[w];
    if s.tunnels[t].pingClosed then s.(panicked := true)
    else SetWorker(SetTunnel(s, t, s.tunnels[t].(stage := Silenced(w), pingClosed := true)), w, Sending(l, t))
  }

  /** The address is written and the copiers start, or the write fails: the tunnel is forgotten, the session kept. */
  function SendAddress(s: State, w: nat, ok: bool): State
    requires w < |s.workers| && s.workers[w].Sending? && s.workers[w].t < |s.tunnels| && s.workers[w].l < |s.locals|
  {
    var Sending(l, t) := s.workers[w];
    if ok then
      SetWorker(SetLocal(SetTunnel(s, t, s.tunnels[t].(stage := Bound(l))), l, s.locals[l].(stage := LBound(t))), w, Idle)
      .(bindings := s.bindings + [(l, t)])
    else SetWorker(SetTunnel(s, t, s.tunnels[t].(stage := Stuck)), w, Holding(l))
  }

  // ---------------------------------------------------------------- udpCopy

  function CloseLocal(s: State, l: Lid): State
    requires l < |s.locals| && s.locals[l].stage.LBound?
  {
    var v := s.locals[l];
    if v.closed then s.(panicked := true)
    else SetLocal(s, l, v.(closed := true, stage := LClosed(v.stage.t))).(localTable := s.localTable - {(v.lsn, v.addr)})
  }

  function CloseTunnel(s: State, t: Tid): State
    requires t < |s.tunnels|
  {
    var v := s.tunnels[t];
    if v.payloadClosed then s.(panicked := true)
    else SetTunnel(s, t, v.(payloadClosed := true, stage := Ended)).(tunnelTable := s.tunnelTable - {v.key})
  }

  datatype Step =
    | ETunnelPacket(key: Addr, isToken: bool)
    | EStoreTunnel
    | EOfferTunnel
    | ELocalPacket(w: nat, addr: Addr)
    | EStoreLocal(w: nat)
    | EOfferLocal(w: nat)
    | ETakeLocal(w: nat, expired: bool)
    | ETakeTunnel(w: nat)
    | EClosePing(w: nat)
    | ESendAddress(w: nat, ok: bool)
    | ECloseLocal(l: Lid)
    | ECloseTunnel(t: Tid)

  predicate Enabled(s: State, e: Step) {
    match e
    case ETunnelPacket(_, _) => s.tunnelReader.Reading?
    case EStoreTunnel => s.tunnelReader.Creating?
    case EOfferTunnel => s.tunnelReader.Offering? && s.tunnelReader.id < |s.tunnels|
    case ELocalPacket(w, _) => w < |s.localReaders| && s.localReaders[w].Reading?
    case EStoreLocal(w) => w < |s.localReaders| && s.localReaders[w].Creating?
    case EOfferLocal(w) => w < |s.localReaders| && w < |s.udpChans| && s.localReaders[w].Offering? && s.localReaders[w].id < |s.locals|
    case ETakeLocal(w, _) =>
      w < |s.workers| && w < |s.udpChans| && s.workers[w].Idle? && s.udpChans[w] != [] && s.udpChans[w][0] < |s.locals|
    case ETakeTunnel(w) => w < |s.workers| && s.workers[w].Holding? && s.tunnelChannel != [] && s.tunnelChannel[0] < |s.tunnels|
    case EClosePing(w) => w < |s.workers| && s.workers[w].Silencing? && s.workers[w].t < |s.tunnels|
    case ESendAddress(w, _) =>
      w < |s.workers| && s.workers[w].Sending? && s.workers[w].t < |s.tunnels| && s.workers[w].l < |s.locals|
    case ECloseLocal(l) => l < |s.locals| && s.locals[l].stage.LBound?
    case ECloseTunnel(t) =>
      t < |s.tunnels| && s.tunnels[t].stage.Bound? && s.tunnels[t].stage.l < |s.locals|
      && s.locals[s.tunnels[t].stage.l].stage == LClosed(t)
  }

  function Apply(s: State, e: Step): State {
    if !Enabled(s, e) then s else
    match e
    case ETunnelPacket(key, isToken) => TunnelPacket(s, key, isToken)
    case EStoreTunnel => StoreTunnel(s)
    case EOfferTunnel => OfferTunnel(s)
    case ELocalPacket(w, addr) => LocalPacket(s, w, addr)
    case EStoreLocal(w) => StoreLocal(s, w)
    case EOfferLocal(w) => OfferLocal(s, w)
    case ETakeLocal(w, expired) => TakeLocal(s, w, expired)
    case ETakeTunnel(w) => TakeTunnel(s, w)
    case EClosePing(w) => ClosePing(s, w)
    case ESendAddress(w, ok) => SendAddress(s, w, ok)
    case ECloseLocal(l) => CloseLocal(s, l)
    case ECloseTunnel(t) => CloseTunnel(s, t)
  }

  function Run(s: State, steps: seq<Step>): State {
    if steps == [] then s else Apply(Run(s, steps[..|steps| - 1]), steps[|steps| - 1])
  }

  // ---------------------------------------------------------------- safety

  /** A tunnel is open exactly until it is refused or ended, and while open it is its address's entry. */
  ghost predicate TunnelSafe(table: map<Addr, Tid>, t: Tid, v: Tunnel) {
    && (v.payloadClosed <==> v.stage.Refused? || v.stage.Ended?)
    && (v.pingClosed <==> v.stage.Silenced? || v.stage.Stuck? || v.stage.Bound? || v.stage.Ended?)
    && (!v.payloadClosed ==> v.key in table && table[v.key] == t)
  }

  ghost predicate LocalSafe(table: map<(nat, Addr), Lid>, l: Lid, v: Local) {
    && (v.closed <==> v.stage.LRefused? || v.stage.LClosed?)
    && (!v.closed ==> (v.lsn, v.addr) in table && table[(v.lsn, v.addr)] == l)
  }

  ghost predicate TunnelSide(s: State) {
    && (forall t {:trigger s.tunnels[t]} :: 0 <= t < |s.tunnels| ==> TunnelSafe(s.tunnelTable, t, s.tunnels[t]))
    && (forall k {:trigger s.tunnelTable[k]} :: k in s.tunnelTable ==>
          s.tunnelTable[k] < |s.tunnels| && s.tunnels[s.tunnelTable[k]].key == k && !s.tunnels[s.tunnelTable[k]].payloadClosed)
    && (forall i :: 0 <= i < |s.tunnelChannel| ==>
          s.tunnelChannel[i] < |s.tunnels| && s.tunnels[s.tunnelChannel[i]].stage == Queued)
    && (forall i, j :: 0 <= i < j < |s.tunnelChannel| ==> s.tunnelChannel[i] != s.tunnelChannel[j])
    && match s.tunnelReader
       case Reading => true
       case Creating(k) => k !in s.tunnelTable
       case Offering(t) => t < |s.tunnels| && s.tunnels[t].stage == Stored
  }

  ghost predicate ReaderSafe(s: State, w: nat, r: Reader<Lid>) {
    match r
    case Reading => true
    case Creating(a) => (w, a) !in s.localTable
    case Offering(l) => l < |s.locals| && s.locals[l].lsn == w && s.locals[l].stage == LStored
  }

  ghost predicate ChannelSafe(s: State, w: nat, q: seq<Lid>) {
    && (forall i :: 0 <= i < |q| ==> q[i] < |s.locals| && s.locals[q[i]].lsn == w && s.locals[q[i]].stage == Offered)
    && (forall i, j :: 0 <= i < j < |q| ==> q[i] != q[j])
  }

  ghost predicate LocalEntries(s: State) {
    && (forall l {:trigger s.locals[l]} :: 0 <= l < |s.locals| ==> LocalSafe(s.localTable, l, s.locals[l]))
    && (forall k {:trigger s.localTable[k]} :: k in s.localTable ==>
          s.localTable[k] < |s.locals| && (s.locals[s.localTable[k]].lsn, s.locals[s.localTable[k]].addr) == k
          && !s.locals[s.localTable[k]].closed)
  }

  ghost predicate LocalQueues(s: State) {
    && (forall w {:trigger s.localReaders[w]} :: 0 <= w < |s.localReaders| ==> ReaderSafe(s, w, s.localReaders[w]))
    && (forall w {:trigger s.udpChans[w]} :: 0 <= w < |s.udpChans| ==> ChannelSafe(s, w, s.udpChans[w]))
  }

  ghost predicate LocalSide(s: State) {
    LocalEntries(s) && LocalQueues(s)
  }

  /** A worker's session and tunnel are its own. */
  ghost predicate WorkerSafe(s: State, w: nat, v: Worker) {
    && (!v.Idle? ==> v.l < |s.locals| && s.locals[v.l].lsn == w && s.locals[v.l].stage == Held)
    && (v.Silencing? ==> v.t < |s.tunnels| && s.tunnels[v.t].stage == Taken(w))
    && (v.Sending? ==> v.t < |s.tunnels| && s.tunnels[v.t].stage == Silenced(w))
  }

  ghost predicate Binding(s: State, l: Lid, t: Tid) {
    && l < |s.locals| && t < |s.tunnels|
    && (s.locals[l].stage == LBound(t) || s.locals[l].stage == LClosed(t))
    && (s.tunnels[t].stage == Bound(l) || s.tunnels[t].stage.Ended?)
    && (s.locals[l].stage.LBound? ==> s.tunnels[t].stage.Bound?)
  }

  ghost predicate PairingSide(s: State) {
    && (forall w {:trigger s.workers[w]} :: 0 <= w < |s.workers| ==> WorkerSafe(s, w, s.workers[w]))
    && (forall i {:trigger s.bindings[i]} :: 0 <= i < |s.bindings| ==> Binding(s, s.bindings[i].0, s.bindings[i].1))
    && (forall i, j :: 0 <= i < j < |s.bindings| ==>
          s.bindings[i].0 != s.bindings[j].0 && s.bindings[i].1 != s.bindings[j].1)
  }

  ghost predicate Safe(s: State) {
    !s.panicked && TunnelSide(s) && LocalSide(s) && PairingSide(s)
  }
}
