/** WebSocket tunnels: a keep-alive goroutine pings an idle tunnel under TryLock until a worker closes its ping channel,
    takes the lock for good and writes the address; the client skips pings until the address comes. */
module WsHandoff {
  import opened Base

  const SG_PING: byte := 2

  type Tid = nat

  datatype Message = Ping | Address(bytes: seq<byte>) | Data(bytes: seq<byte>)

  function Bytes(m: Message): seq<byte> { if m.Ping? then [SG_PING] else m.bytes }

  datatype Keeper = Unstarted | Ticking | Pinging | Pinged | PingFailed | Hanging | Ended

  datatype Worker = Waiting | Closing(address: seq<byte>) | Locking(address: seq<byte>) | Writing(address: seq<byte>)
    | Copying(address: seq<byte>) | Failed

  datatype Holder = Nobody | ByKeeper | ByWorker

  datatype Tunnel = Tunnel(keeper: Keeper, worker: Worker, mu: Holder, pingClosed: bool, connClosed: bool, wire: seq<Message>)

  datatype State = State(channelSize: nat, tunnels: seq<Tunnel>, tunnelChannel: seq<Tid>, cancelled: bool, panicked: bool)

  function Init(channelSize: nat): State {
    State(channelSize, [], [], false, false)
  }

  // ---------------------------------------------------------------- one tunnel

  /** The ticker fires: ping if the lock is free, otherwise stop for good. */
  function Tick(v: Tunnel): Tunnel {
    if v.mu.Nobody? then v.(keeper := Pinging, mu := ByKeeper) else v.(keeper := Ended)
  }

  function WritePing(v: Tunnel, ok: bool): Tunnel {
    if ok && !v.connClosed then v.(keeper := Pinged, wire := v.wire + [Ping]) else v.(keeper := PingFailed)
  }

  function KeeperUnlock(v: Tunnel): Tunnel {
    v.(mu := Nobody, keeper := if v.keeper.PingFailed? then Hanging else Ticking)
  }

  function WriteAddress(v: Tunnel, ok: bool): Tunnel
    requires v.worker.Writing?
  {
    if ok && !v.connClosed
    then v.(worker := Copying(v.worker.address), wire := v.wire + [Address(v.worker.address)])
    else v.(worker := Failed, connClosed := true)
  }

  function WriteData(v: Tunnel, bytes: seq<byte>, ok: bool): Tunnel {
    if ok && !v.connClosed then v.(wire := v.wire + [Data(bytes)]) else v.(connClosed := true)
  }

  datatype TunnelStep =
    | TStart
    | TTick
    | TPing(ok: bool)
    | TUnlock
    | THangUp
    | TSeeClosed
    | TCancelled
    | TLock
    | TAddress(ok: bool)
    | TData(bytes: seq<byte>, ok: bool)

  predicate TunnelEnabled(v: Tunnel, e: TunnelStep, cancelled: bool) {
    match e
    case TStart => v.keeper.Unstarted?
    case TTick => v.keeper.Ticking?
    case TPing(_) => v.keeper.Pinging?
    case TUnlock => v.keeper.Pinged? || v.keeper.PingFailed?
    case THangUp => v.keeper.Hanging?
    case TSeeClosed => v.keeper.Ticking? && v.pingClosed
    case TCancelled => v.keeper.Ticking? && cancelled
    case TLock => v.worker.Locking? && v.mu.Nobody?
    case TAddress(_) => v.worker.Writing?
    case TData(_, _) => v.worker.Copying?
  }

  function TunnelApply(v: Tunnel, e: TunnelStep): Tunnel
    requires (e.TLock? ==> v.worker.Locking?) && (e.TAddress? ==> v.worker.Writing?)
  {
    match e
    case TStart => v.(keeper := Ticking)
    case TTick => Tick(v)
    case TPing(ok) => WritePing(v, ok)
    case TUnlock => KeeperUnlock(v)
    case THangUp => v.(keeper := Ended, connClosed := true)
    case TSeeClosed => v.(keeper := Ended)
    case TCancelled => v.(keeper := Ended, connClosed := true)
    case TLock => v.(mu := ByWorker, worker := Writing(v.worker.address))
    case TAddress(ok) => WriteAddress(v, ok)
    case TData(bytes, ok) => WriteData(v, bytes, ok)
  }

  // ---------------------------------------------------------------- the transport

  datatype Step =
    | EConnect
    | ECancel
    | ETake(address: seq<byte>) // a worker with a connection for this address takes the next tunnel
    | EClosePing(t: Tid)
    | EAt(t: Tid, e: TunnelStep)

  predicate Enabled(s: State, e: Step) {
    match e
    case EConnect => |s.tunnelChannel| < s.channelSize
    case ECancel => true
    case ETake(_) => s.tunnelChannel != [] && s.tunnelChannel[0] < |s.tunnels|
    case EClosePing(t) => t < |s.tunnels| && s.tunnels[t].worker.Closing?
    case EAt(t, f) => t < |s.tunnels| && TunnelEnabled(s.tunnels[t], f, s.cancelled)
  }

  function ClosePing(s: State, t: Tid): State
    requires t < |s.tunnels| && s.tunnels[t].worker.Closing?
  {
    var v := s.tunnels[t];
    if v.pingClosed then s.(panicked := true)
    else s.(tunnels := s.tunnels[t := v.(pingClosed := true, worker := Locking(v.worker.address))])
  }

  function Apply(s: State, e: Step): State {
    if !Enabled(s, e) then s else
    match e
    case EConnect =>
      s.(tunnelChannel := s.tunnelChannel + [|s.tunnels|],
         tunnels := s.tunnels + [Tunnel(Unstarted, Waiting, Nobody, false, false, [])])
    case ECancel => s.(cancelled := true)
    case ETake(address) =>
      var t := s.tunnelChannel[0];
      s.(tunnelChannel := s.tunnelChannel[1..], tunnels := s.tunnels[t := s.tunnels[t].(worker := Closing(address))])
    case EClosePing(t) => ClosePing(s, t)
    case EAt(t, f) => s.(tunnels := s.tunnels[t := TunnelApply(s.tunnels[t], f)])
  }

  function Run(s: State, steps: seq<Step>): State {
    if steps == [] then s else Apply(Run(s, steps[..|steps| - 1]), steps[|steps| - 1])
  }

  // ---------------------------------------------------------------- the discipline

  ghost predicate OnlyPings(w: seq<Message>) {
    forall i :: 0 <= i < |w| ==> w[i].Ping?
  }

  ghost predicate OnlyData(w: seq<Message>) {
    forall i :: 0 <= i < |w| ==> w[i].Data?
  }

  /** Pings, then this address, then data. */
  ghost predicate HandedOver(w: seq<Message>, address: seq<byte>, n: nat) {
    n < |w| && OnlyPings(w[..n]) && w[n] == Address(address) && OnlyData(w[n + 1..])
  }

  ghost predicate WireInOrder(v: Tunnel) {
    if v.worker.Copying? then exists n: nat :: HandedOver(v.wire, v.worker.address, n) else OnlyPings(v.wire)
  }

  ghost predicate Disciplined(v: Tunnel) {
    && WireInOrder(v)
    && (v.mu.ByKeeper? <==> v.keeper.Pinging? || v.keeper.Pinged? || v.keeper.PingFailed?)
    && (v.mu.ByWorker? <==> v.worker.Writing? || v.worker.Copying? || v.worker.Failed?)
    && (v.pingClosed <==> !v.worker.Waiting? && !v.worker.Closing?)
  }

  ghost predicate Safe(s: State) {
    && !s.panicked
    && (forall t {:trigger s.tunnels[t]} :: 0 <= t < |s.tunnels| ==> Disciplined(s.tunnels[t]))
    && (forall i :: 0 <= i < |s.tunnelChannel| ==>
          s.tunnelChannel[i] < |s.tunnels| && s.tunnels[s.tunnelChannel[i]].worker.Waiting?)
    && (forall i, j :: 0 <= i < j < |s.tunnelChannel| ==> s.tunnelChannel[i] != s.tunnelChannel[j])
  }

  lemma DataExtends(w: seq<Message>, address: seq<byte>, n: nat, bytes: seq<byte>)
    requires HandedOver(w, address, n)
    ensures HandedOver(w + [Data(bytes)], address, n)
  {
    assert (w + [Data(bytes)])[..n] == w[..n] && (w + [Data(bytes)])[n + 1..] == w[n + 1..] + [Data(bytes)];
  }

  lemma TunnelStepDisciplined(v: Tunnel, e: TunnelStep, cancelled: bool)
    requires Disciplined(v) && TunnelEnabled(v, e, cancelled)
    ensures Disciplined(TunnelApply(v, e))
    ensures TunnelApply(v, e).worker.Waiting? <==> v.worker.Waiting?
  {
    match e
    case TAddress(ok) =>
      if ok && !v.connClosed {
        var w := v.wire + [Address(v.worker.address)];
        assert w[..|v.wire|] == v.wire && w[|v.wire| + 1..] == [];
        assert HandedOver(w, v.worker.address, |v.wire|);
      }
    case TData(bytes, ok) =>
      var n: nat :| HandedOver(v.wire, v.worker.address, n);
      DataExtends(v.wire, v.worker.address, n, bytes);
    case _ =>
  }

  lemma TakenDisciplined(v: Tunnel, address: seq<byte>)
    requires Disciplined(v) && v.worker.Waiting?
    ensures Disciplined(v.(worker := Closing(address))) && !v.pingClosed
  {
  }

  lemma ClosedDisciplined(v: Tunnel)
    requires Disciplined(v) && v.worker.Closing?
    ensures !v.pingClosed && Disciplined(v.(pingClosed := true, worker := Locking(v.worker.address)))
  {
  }

  lemma NewDisciplined()
    ensures Disciplined(Tunnel(Unstarted, Waiting, Nobody, false, false, []))
  {
  }

  lemma StepSafe(s: State, e: Step)
    requires Safe(s)
    ensures Safe(Apply(s, e))
  {
    hide Disciplined, TunnelApply;
    if Enabled(s, e) {
      match e
      case EConnect => NewDisciplined();
      case ECancel =>
      case ETake(address) => TakenDisciplined(s.tunnels[s.tunnelChannel[0]], address);
      case EClosePing(t) => ClosedDisciplined(s.tunnels[t]);
      case EAt(t, f) => TunnelStepDisciplined(s.tunnels[t], f, s.cancelled);
    }
  }

  /** Over every run: each tunnel's messages are pings, then possibly one address and only data after it; keeper and
      worker never hold the lock together; and no ping channel is closed twice. */
  lemma {:induction false} RunSafe(channelSize: nat, steps: seq<Step>)
    ensures Safe(Run(Init(channelSize), steps))
  {
    if steps != [] {
      RunSafe(channelSize, steps[..|steps| - 1]);
      StepSafe(Run(Init(channelSize), steps[..|steps| - 1]), steps[|steps| - 1]);
    }
  }

  // ---------------------------------------------------------------- the client

  datatype Awaited = Awaited(address: Option<seq<byte>>, rest: seq<seq<byte>>)

  /** The first message that is not a ping, and what follows it. */
  function SkipPings(messages: seq<seq<byte>>): Awaited {
    if messages == [] then Awaited(None, [])
    else if messages[0] == [SG_PING] then SkipPings(messages[1..])
    else Awaited(Some(messages[0]), messages[1..])
  }

  /** tunnelDialer's loop over the messages the connection delivers before it fails; the idle gauge goes up once
      and down once, whatever happens. */
  method AwaitAddress(messages: seq<seq<byte>>, poolConnections: int)
    returns (address: Option<seq<byte>>, rest: seq<seq<byte>>, after: int)
    ensures Awaited(address, rest) == SkipPings(messages)
    ensures after == poolConnections
  {
    after := poolConnections + 1;
    rest := messages;
    while true
      invariant SkipPings(messages) == SkipPings(rest)
      invariant after == poolConnections + 1
      decreases |rest|
    {
      if rest == [] {
        return None, [], after - 1;
      }
      var remoteAddrBytes := rest[0];
      rest := rest[1..];
      if remoteAddrBytes == [SG_PING] {
        continue;
      }
      return Some(remoteAddrBytes), rest, after - 1;
    }
  }

  function AllBytes(w: seq<Message>): (bs: seq<seq<byte>>)
    ensures |bs| == |w| && forall i :: 0 <= i < |w| ==> bs[i] == Bytes(w[i])
  {
    seq(|w|, i requires 0 <= i < |w| => Bytes(w[i]))
  }

  lemma {:induction false} SkipLeadingPings(messages: seq<seq<byte>>, n: nat)
    requires n <= |messages| && forall i :: 0 <= i < n ==> messages[i] == [SG_PING]
    ensures SkipPings(messages) == SkipPings(messages[n..])
  {
    if n > 0 {
      SkipLeadingPings(messages[1..], n - 1);
      assert messages[1..][n - 1..] == messages[n..];
    } else {
      assert messages[n..] == messages;
    }
  }

  lemma {:induction false} NeverAPing(messages: seq<seq<byte>>)
    ensures SkipPings(messages).address != Some([SG_PING])
  {
    if messages != [] && messages[0] == [SG_PING] {
      NeverAPing(messages[1..]);
    }
  }

  lemma SkipToAddress(w: seq<Message>, address: seq<byte>, n: nat)
    requires HandedOver(w, address, n)
    ensures SkipPings(AllBytes(w)) == Awaited(Some(address), AllBytes(w[n + 1..])) <==> address != [SG_PING]
  {
    var bs := AllBytes(w);
    forall i | 0 <= i < n ensures bs[i] == [SG_PING] {
      assert w[..n][i].Ping?;
    }
    SkipLeadingPings(bs, n);
    NeverAPing(bs);
    assert bs[n..][1..] == AllBytes(w[n + 1..]);
  }

  /** From the messages of any run, the client recovers exactly the address handed over, with only the data left to
      read, precisely when the address is not the single ping byte. */
  lemma AddressRecovered(channelSize: nat, steps: seq<Step>, t: Tid)
    requires t < |Run(Init(channelSize), steps).tunnels| && Run(Init(channelSize), steps).tunnels[t].worker.Copying?
    ensures var v := Run(Init(channelSize), steps).tunnels[t];
            exists n: nat :: HandedOver(v.wire, v.worker.address, n)
              && (SkipPings(AllBytes(v.wire)) == Awaited(Some(v.worker.address), AllBytes(v.wire[n + 1..]))
                  <==> v.worker.address != [2])
  {
    hide HandedOver, SkipPings;
    RunSafe(channelSize, steps);
    var v := Run(Init(channelSize), steps).tunnels[t];
    var n: nat :| HandedOver(v.wire, v.worker.address, n);
    SkipToAddress(v.wire, v.worker.address, n);
  }

  /** Before the hand-over the client has received pings only and is still waiting. */
  lemma NothingBeforeHandover(channelSize: nat, steps: seq<Step>, t: Tid)
    requires t < |Run(Init(channelSize), steps).tunnels| && !Run(Init(channelSize), steps).tunnels[t].worker.Copying?
    ensures SkipPings(AllBytes(Run(Init(channelSize), steps).tunnels[t].wire)) == Awaited(None, [])
  {
    RunSafe(channelSize, steps);
    var v := Run(Init(channelSize), steps).tunnels[t];
    assert Disciplined(v);
    SkipLeadingPings(AllBytes(v.wire), |v.wire|);
  }
}
