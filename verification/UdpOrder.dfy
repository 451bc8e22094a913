/** Which packets the UDP transport heeds and whom it binds, in order: what a run does is compared with what its steps say. */
module UdpOrder {
  import opened Base
  import opened UdpTables

  function From(channelSize: nat, listeners: nat): seq<Step> -> State {
    (steps: seq<Step>) => Run(Init(channelSize, listeners), steps)
  }

  // ---------------------------------------------------------------- tunnels

  /** A packet from an unknown address announces a tunnel exactly when it is the token. */
  function AnnouncedBy(s: State, e: Step): seq<Addr> {
    if e.ETunnelPacket? && s.tunnelReader.Reading? && e.key !in s.tunnelTable && e.isToken then [e.key] else []
  }

  function Keys(vs: seq<Tunnel>): (ks: seq<Addr>)
    ensures |ks| == |vs|
  {
    seq(|vs|, i requires 0 <= i < |vs| => vs[i].key)
  }

  function Announced(r: Reader<Tid>): seq<Addr> { if r.Creating? then [r.key] else [] }

  function TunnelOfferedBy(s: State, e: Step): seq<Tid> {
    if e.EOfferTunnel? && Enabled(s, e) && |s.tunnelChannel| < s.channelSize then [s.tunnelReader.id] else []
  }

  /** The tunnel a loop holds after taking one. */
  function TunnelTakenBy(s: State, e: Step): seq<Tid> {
    if !(e.ETakeTunnel? && Enabled(s, e)) then [] else
    var y := Apply(s, e);
    if e.w < |y.workers| && y.workers[e.w].Silencing? then [y.workers[e.w].t] else []
  }

  // ---------------------------------------------------------------- local sessions

  /** A packet from an unknown address opens a session at its listener. */
  function StoredBy(s: State, e: Step): seq<(nat, Addr)> {
    if e.EStoreLocal? && Enabled(s, e) then [(e.w, s.localReaders[e.w].key)] else []
  }

  function Names(vs: seq<Local>): (ns: seq<(nat, Addr)>)
    ensures |ns| == |vs|
  {
    seq(|vs|, i requires 0 <= i < |vs| => (vs[i].lsn, vs[i].addr))
  }

  function LocalOfferedBy(w: nat): (State, Step) -> seq<Lid> {
    (s: State, e: Step) =>
      if e == EOfferLocal(w) && Enabled(s, e) && |s.udpChans[w]| < s.channelSize then [s.localReaders[w].id] else []
  }

  /** The oldest session in a listener's channel, skipped or held. */
  function LocalTakenBy(w: nat): (State, Step) -> seq<Lid> {
    (s: State, e: Step) =>
      if !(e.ETakeLocal? && e.w == w && Enabled(s, e)) then []
      else if e.expired then [s.udpChans[w][0]]
      else var y := Apply(s, e); if w < |y.workers| && y.workers[w].Holding? then [y.workers[w].l] else []
  }

  /** The address was sent. */
  function BoundBy(s: State, e: Step): seq<(Lid, Tid)> {
    if e.ESendAddress? && e.ok && Enabled(s, e) then [(s.workers[e.w].l, s.workers[e.w].t)] else []
  }

  // ---------------------------------------------------------------- one step

  /** What most steps leave alone. */
  predicate Unnamed(s: State, y: State) {
    && Keys(y.tunnels) == Keys(s.tunnels) && Announced(y.tunnelReader) == Announced(s.tunnelReader)
    && Names(y.locals) == Names(s.locals)
  }

  predicate SameSizes(s: State, y: State) {
    y.channelSize == s.channelSize && |y.udpChans| == |s.udpChans|
  }

  lemma TunnelPacketNames(s: State, key: Addr, isToken: bool)
    requires s.tunnelReader.Reading?
    ensures var y := TunnelPacket(s, key, isToken);
            && y.tunnels == s.tunnels && y.locals == s.locals && y.bindings == s.bindings && SameSizes(s, y)
            && y.tunnelChannel == s.tunnelChannel && y.udpChans == s.udpChans
            && Announced(y.tunnelReader) == AnnouncedBy(s, ETunnelPacket(key, isToken))
  {
  }

  lemma StoreTunnelNames(s: State)
    requires s.tunnelReader.Creating?
    ensures var y := StoreTunnel(s);
            && Keys(y.tunnels) == Keys(s.tunnels) + Announced(s.tunnelReader) && Announced(y.tunnelReader) == []
            && y.locals == s.locals && y.bindings == s.bindings && SameSizes(s, y)
            && y.tunnelChannel == s.tunnelChannel && y.udpChans == s.udpChans
  {
  }

  lemma OfferTunnelNames(s: State)
    requires Enabled(s, EOfferTunnel)
    ensures var y := OfferTunnel(s);
            && Unnamed(s, y) && y.bindings == s.bindings && SameSizes(s, y) && y.udpChans == s.udpChans
            && y.tunnelChannel == s.tunnelChannel + TunnelOfferedBy(s, EOfferTunnel)
  {
  }

  lemma LocalPacketNames(s: State, w: nat, addr: Addr)
    requires Enabled(s, ELocalPacket(w, addr))
    ensures var y := LocalPacket(s, w, addr);
            && Unnamed(s, y) && y.bindings == s.bindings && SameSizes(s, y) && y.udpChans == s.udpChans
            && y.tunnelChannel == s.tunnelChannel
  {
  }

  lemma StoreLocalNames(s: State, w: nat)
    requires Enabled(s, EStoreLocal(w))
    ensures var y := StoreLocal(s, w);
            && Names(y.locals) == Names(s.locals) + StoredBy(s, EStoreLocal(w)) && y.tunnels == s.tunnels
            && y.tunnelReader == s.tunnelReader && y.bindings == s.bindings && SameSizes(s, y) && y.udpChans == s.udpChans
            && y.tunnelChannel == s.tunnelChannel
  {
  }

  lemma OfferLocalNames(s: State, w: nat)
    requires Enabled(s, EOfferLocal(w))
    ensures var y := OfferLocal(s, w);
            && Unnamed(s, y) && y.bindings == s.bindings && SameSizes(s, y) && y.tunnelChannel == s.tunnelChannel
            && y.udpChans[w] == s.udpChans[w] + LocalOfferedBy(w)(s, EOfferLocal(w))
            && forall v {:trigger y.udpChans[v]} :: 0 <= v < |s.udpChans| && v != w ==> y.udpChans[v] == s.udpChans[v]
  {
  }

  lemma TakeLocalNames(s: State, w: nat, expired: bool)
    requires Enabled(s, ETakeLocal(w, expired))
    ensures var y := TakeLocal(s, w, expired);
            && Unnamed(s, y) && y.bindings == s.bindings && SameSizes(s, y) && y.tunnelChannel == s.tunnelChannel
            && |y.workers| == |s.workers|
            && (if expired then [s.udpChans[w][0]] else if y.workers[w].Holding? then [y.workers[w].l] else []) + y.udpChans[w]
               == s.udpChans[w]
            && forall v {:trigger y.udpChans[v]} :: 0 <= v < |s.udpChans| && v != w ==> y.udpChans[v] == s.udpChans[v]
  {
  }

  lemma TakeTunnelNames(s: State, w: nat)
    requires Enabled(s, ETakeTunnel(w))
    ensures var y := TakeTunnel(s, w);
            && Unnamed(s, y) && y.bindings == s.bindings && SameSizes(s, y) && y.udpChans == s.udpChans
            && |y.workers| == |s.workers| && (if y.workers[w].Silencing? then [y.workers[w].t] else []) + y.tunnelChannel == s.tunnelChannel
  {
  }

  lemma ClosePingNames(s: State, w: nat)
    requires Enabled(s, EClosePing(w))
    ensures var y := ClosePing(s, w);
            && Unnamed(s, y) && y.bindings == s.bindings && SameSizes(s, y) && y.udpChans == s.udpChans
            && y.tunnelChannel == s.tunnelChannel
  {
  }

  lemma SendAddressNames(s: State, w: nat, ok: bool)
    requires Enabled(s, ESendAddress(w, ok))
    ensures var y := SendAddress(s, w, ok);
            && Unnamed(s, y) && y.bindings == s.bindings + BoundBy(s, ESendAddress(w, ok)) && SameSizes(s, y)
            && y.udpChans == s.udpChans && y.tunnelChannel == s.tunnelChannel
  {
  }

  lemma CloseLocalNames(s: State, l: Lid)
    requires Enabled(s, ECloseLocal(l))
    ensures var y := CloseLocal(s, l);
            && Unnamed(s, y) && y.bindings == s.bindings && SameSizes(s, y) && y.udpChans == s.udpChans
            && y.tunnelChannel == s.tunnelChannel
  {
  }

  lemma CloseTunnelNames(s: State, t: Tid)
    requires Enabled(s, ECloseTunnel(t))
    ensures var y := CloseTunnel(s, t);
            && Unnamed(s, y) && y.bindings == s.bindings && SameSizes(s, y) && y.udpChans == s.udpChans
            && y.tunnelChannel == s.tunnelChannel
  {
  }

  /** What a step adds to the names, to the bindings and to the queues. */
  ghost predicate StepNames(s: State, e: Step, y: State) {
    && Keys(y.tunnels) + Announced(y.tunnelReader) == Keys(s.tunnels) + Announced(s.tunnelReader) + AnnouncedBy(s, e)
    && Names(y.locals) == Names(s.locals) + StoredBy(s, e) && y.bindings == s.bindings + BoundBy(s, e) && SameSizes(s, y)
    && TunnelTakenBy(s, e) + y.tunnelChannel == s.tunnelChannel + TunnelOfferedBy(s, e)
    && (forall w: nat {:trigger LocalTakenBy(w)} :: w < |s.udpChans| ==>
          LocalTakenBy(w)(s, e) + y.udpChans[w] == s.udpChans[w] + LocalOfferedBy(w)(s, e))
  }

  lemma TunnelStepNames(s: State, e: Step)
    requires Enabled(s, e) && (e.ETunnelPacket? || e.EStoreTunnel? || e.EOfferTunnel? || e.ECloseTunnel?)
    ensures StepNames(s, e, Apply(s, e))
  {
    hide TunnelPacket, StoreTunnel, OfferTunnel, LocalPacket, StoreLocal, OfferLocal, TakeLocal, TakeTunnel, ClosePing, SendAddress;
    hide CloseLocal, CloseTunnel, Keys, Names, Announced;
    match e
    case ETunnelPacket(key, isToken) => TunnelPacketNames(s, key, isToken); NotAnnounced(s.tunnelReader);
    case EStoreTunnel => StoreTunnelNames(s);
    case EOfferTunnel => OfferTunnelNames(s);
    case ECloseTunnel(t) => CloseTunnelNames(s, t);
  }

  lemma LocalStepNames(s: State, e: Step)
    requires Enabled(s, e) && (e.ELocalPacket? || e.EStoreLocal? || e.EOfferLocal? || e.ECloseLocal?)
    ensures StepNames(s, e, Apply(s, e))
  {
    hide TunnelPacket, StoreTunnel, OfferTunnel, LocalPacket, StoreLocal, OfferLocal, TakeLocal, TakeTunnel, ClosePing, SendAddress;
    hide CloseLocal, CloseTunnel, Keys, Names, Announced;
    match e
    case ELocalPacket(w, addr) => LocalPacketNames(s, w, addr);
    case EStoreLocal(w) => StoreLocalNames(s, w);
    case EOfferLocal(w) => OfferLocalNames(s, w);
    case ECloseLocal(l) => CloseLocalNames(s, l);
  }

  lemma LoopStepNames(s: State, e: Step)
    requires Enabled(s, e) && (e.ETakeLocal? || e.ETakeTunnel? || e.EClosePing? || e.ESendAddress?)
    ensures StepNames(s, e, Apply(s, e))
  {
    hide TunnelPacket, StoreTunnel, OfferTunnel, LocalPacket, StoreLocal, OfferLocal, TakeLocal, TakeTunnel, ClosePing, SendAddress;
    hide CloseLocal, CloseTunnel, Keys, Names, Announced;
    match e
    case ETakeLocal(w, expired) => TakeLocalNames(s, w, expired);
    case ETakeTunnel(w) => TakeTunnelNames(s, w);
    case EClosePing(w) => ClosePingNames(s, w);
    case ESendAddress(w, ok) => SendAddressNames(s, w, ok);
  }

  lemma DisabledNames(s: State, e: Step)
    requires !Enabled(s, e)
    ensures StepNames(s, e, s)
  {
    hide Keys, Names, Announced;
  }

  lemma StepHasNames(s: State, e: Step)
    ensures StepNames(s, e, Apply(s, e))
  {
    if !Enabled(s, e) {
      DisabledNames(s, e);
      assert Apply(s, e) == s;
    } else {
      hide Apply, StepNames, Enabled;
      match e
      case ETunnelPacket(_, _) => TunnelStepNames(s, e);
      case EStoreTunnel => TunnelStepNames(s, e);
      case EOfferTunnel => TunnelStepNames(s, e);
      case ECloseTunnel(_) => TunnelStepNames(s, e);
      case ELocalPacket(_, _) => LocalStepNames(s, e);
      case EStoreLocal(_) => LocalStepNames(s, e);
      case EOfferLocal(_) => LocalStepNames(s, e);
      case ECloseLocal(_) => LocalStepNames(s, e);
      case _ => LoopStepNames(s, e);
    }
  }

  lemma NotAnnounced(r: Reader<Tid>)
    ensures !r.Creating? ==> Announced(r) == []
  {
  }

  lemma OfferedOnlyWithRoom(s: State, e: Step, w: nat)
    ensures |TunnelOfferedBy(s, e)| <= 1 && (TunnelOfferedBy(s, e) != [] ==> |s.tunnelChannel| < s.channelSize)
    ensures |LocalOfferedBy(w)(s, e)| <= 1
    ensures w < |s.udpChans| && LocalOfferedBy(w)(s, e) != [] ==> |s.udpChans[w]| < s.channelSize
  {
  }

  /** A local packet from a known address changes no table; one from an unknown address opens a session there. */
  lemma LocalPacketDecides(s: State, w: nat, addr: Addr)
    requires Safe(s) && w < |s.localReaders| && s.localReaders[w].Reading?
    ensures Apply(s, ELocalPacket(w, addr))
            == if (w, addr) in s.localTable then s else s.(localReaders := s.localReaders[w := Creating(addr)])
  {
    hide TunnelSide, PairingSide, LocalQueues;
  }

  // ---------------------------------------------------------------- whole runs

  /** Over every run the tunnels, with the one being created, are exactly those announced by the token, in that order; the
      sessions, those opened; and the bindings, those whose address was sent. */
  lemma {:induction false} RunNames(channelSize: nat, listeners: nat, steps: seq<Step>)
    ensures var at := From(channelSize, listeners);
            var s := at(steps);
            && Keys(s.tunnels) + Announced(s.tunnelReader) == Gathered(at, steps, AnnouncedBy)
            && Names(s.locals) == Gathered(at, steps, StoredBy)
            && s.bindings == Gathered(at, steps, BoundBy)
  {
    hide Apply, Keys, Names, AnnouncedBy, StoredBy, BoundBy, Announced;
    var at := From(channelSize, listeners);
    if steps == [] {
      NothingNamed(channelSize, listeners);
    } else {
      var before, e := steps[..|steps| - 1], steps[|steps| - 1];
      RunNames(channelSize, listeners, before);
      StepHasNames(at(before), e);
    }
  }

  lemma NothingNamed(channelSize: nat, listeners: nat)
    ensures var s := Init(channelSize, listeners);
            Keys(s.tunnels) == [] && Announced(s.tunnelReader) == [] && Names(s.locals) == []
  {
  }

  /** Over every run the loops take tunnels in the order in which they were offered, though they share the channel. */
  lemma {:induction false} RunKeepsTunnelOrder(channelSize: nat, listeners: nat, steps: seq<Step>)
    ensures var at := From(channelSize, listeners);
            && Gathered(at, steps, TunnelTakenBy) + at(steps).tunnelChannel == Gathered(at, steps, TunnelOfferedBy)
            && at(steps).channelSize == channelSize && |at(steps).tunnelChannel| <= channelSize
  {
    hide Apply, TunnelTakenBy, TunnelOfferedBy;
    if steps != [] {
      var at, before, e := From(channelSize, listeners), steps[..|steps| - 1], steps[|steps| - 1];
      var s := at(before);
      RunKeepsTunnelOrder(channelSize, listeners, before);
      StepHasNames(s, e);
      OfferedOnlyWithRoom(s, e, 0);
      Handover(Gathered(at, before, TunnelTakenBy), s.tunnelChannel, Gathered(at, before, TunnelOfferedBy),
               TunnelTakenBy(s, e), Apply(s, e).tunnelChannel, TunnelOfferedBy(s, e));
    }
  }

  /** Over every run each listener's loop takes sessions in the order in which they were offered to it. */
  lemma {:induction false} RunKeepsLocalOrder(channelSize: nat, listeners: nat, steps: seq<Step>, w: nat)
    requires w < listeners
    ensures var at := From(channelSize, listeners);
            && |at(steps).udpChans| == listeners && at(steps).channelSize == channelSize
            && Gathered(at, steps, LocalTakenBy(w)) + at(steps).udpChans[w] == Gathered(at, steps, LocalOfferedBy(w))
            && |at(steps).udpChans[w]| <= channelSize
  {
    hide Apply, LocalTakenBy, LocalOfferedBy;
    if steps != [] {
      var at, before, e := From(channelSize, listeners), steps[..|steps| - 1], steps[|steps| - 1];
      var s := at(before);
      RunKeepsLocalOrder(channelSize, listeners, before, w);
      StepHasNames(s, e);
      OfferedOnlyWithRoom(s, e, w);
      assert LocalTakenBy(w)(s, e) + Apply(s, e).udpChans[w] == s.udpChans[w] + LocalOfferedBy(w)(s, e);
      Handover(Gathered(at, before, LocalTakenBy(w)), s.udpChans[w], Gathered(at, before, LocalOfferedBy(w)),
               LocalTakenBy(w)(s, e), Apply(s, e).udpChans[w], LocalOfferedBy(w)(s, e));
    }
  }
}
