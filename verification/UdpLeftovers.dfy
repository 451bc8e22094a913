/** What the UDP transport forgets: exactly the sessions that expire before their turn and the tunnels whose address could
    not be written, and those for good. */
module UdpLeftovers {
  import opened Base
  import opened UdpTables
  import opened UdpTablesLaws

  /** The handler loop skips this session because it is too old. */
  predicate SkipsExpired(s: State, e: Step, l: Lid) {
    && e.ETakeLocal? && e.expired && e.w < |s.workers| && e.w < |s.udpChans|
    && s.workers[e.w].Idle? && s.udpChans[e.w] != [] && s.udpChans[e.w][0] == l
  }

  /** Writing the address to this tunnel fails. */
  predicate FailsToSend(s: State, e: Step, t: Tid) {
    e.ESendAddress? && !e.ok && e.w < |s.workers| && s.workers[e.w].Sending? && s.workers[e.w].t == t
  }

  /** The offer of this session, or tunnel, meets a full channel. */
  predicate RefusesLocal(s: State, e: Step, l: Lid) {
    && e.EOfferLocal? && e.w < |s.localReaders| && e.w < |s.udpChans| && s.localReaders[e.w] == Offering(l)
    && |s.udpChans[e.w]| >= s.channelSize
  }

  predicate RefusesTunnel(s: State, e: Step, t: Tid) {
    e.EOfferTunnel? && s.tunnelReader == Offering(t) && |s.tunnelChannel| >= s.channelSize
  }

  /** udpCopy closes the session it was bound to, and then the tunnel. */
  predicate ClosesLocal(s: State, e: Step, l: Lid) {
    e == ECloseLocal(l) && l < |s.locals| && s.locals[l].stage.LBound?
  }

  predicate ClosesTunnel(s: State, e: Step, t: Tid) {
    e == ECloseTunnel(t) && Enabled(s, e)
  }

  function Skips(l: Lid): (State, Step) -> bool { (s, e) => SkipsExpired(s, e, l) }
  function Fails(t: Tid): (State, Step) -> bool { (s, e) => FailsToSend(s, e, t) }
  function TurnsAway(l: Lid): (State, Step) -> bool { (s, e) => RefusesLocal(s, e, l) }
  function TurnsBack(t: Tid): (State, Step) -> bool { (s, e) => RefusesTunnel(s, e, t) }
  function Shuts(l: Lid): (State, Step) -> bool { (s, e) => ClosesLocal(s, e, l) }
  function Drops(t: Tid): (State, Step) -> bool { (s, e) => ClosesTunnel(s, e, t) }

  function From(channelSize: nat, listeners: nat): seq<Step> -> State {
    (steps: seq<Step>) => Run(Init(channelSize, listeners), steps)
  }

  // ---------------------------------------------------------------- what a step changes

  /** A step expires the sessions it skips, refuses those it turns away, closes those it says and no others; it leaves
      expired ones as they are. */
  ghost predicate LocalsStep(s: State, e: Step, y: State) {
    && |s.locals| <= |y.locals|
    && (forall l {:trigger s.locals[l]} {:trigger y.locals[l]} :: 0 <= l < |s.locals| ==>
          && (y.locals[l].lsn, y.locals[l].addr) == (s.locals[l].lsn, s.locals[l].addr)
          && (s.locals[l].stage.Expired? ==> y.locals[l] == s.locals[l])
          && (y.locals[l].stage.Expired? <==> s.locals[l].stage.Expired? || SkipsExpired(s, e, l))
          && (y.locals[l].stage.LRefused? <==> s.locals[l].stage.LRefused? || RefusesLocal(s, e, l))
          && (y.locals[l].stage.LClosed? <==> s.locals[l].stage.LClosed? || ClosesLocal(s, e, l)))
    && (forall l {:trigger y.locals[l]} :: |s.locals| <= l < |y.locals| ==>
          && y.locals[l].stage.LStored?
          && !SkipsExpired(s, e, l) && !RefusesLocal(s, e, l) && !ClosesLocal(s, e, l))
  }

  ghost predicate TunnelsStep(s: State, e: Step, y: State) {
    && |s.tunnels| <= |y.tunnels|
    && (forall t {:trigger s.tunnels[t]} {:trigger y.tunnels[t]} :: 0 <= t < |s.tunnels| ==>
          && y.tunnels[t].key == s.tunnels[t].key
          && (s.tunnels[t].stage.Stuck? ==> y.tunnels[t] == s.tunnels[t])
          && (y.tunnels[t].stage.Stuck? <==> s.tunnels[t].stage.Stuck? || FailsToSend(s, e, t))
          && (y.tunnels[t].stage.Refused? <==> s.tunnels[t].stage.Refused? || RefusesTunnel(s, e, t))
          && (y.tunnels[t].stage.Ended? <==> s.tunnels[t].stage.Ended? || ClosesTunnel(s, e, t)))
    && (forall t {:trigger y.tunnels[t]} :: |s.tunnels| <= t < |y.tunnels| ==>
          && y.tunnels[t].stage.Stored?
          && !FailsToSend(s, e, t) && !RefusesTunnel(s, e, t) && !ClosesTunnel(s, e, t))
  }

  predicate LocalStep(e: Step) { e.ELocalPacket? || e.EStoreLocal? || e.EOfferLocal? || e.ECloseLocal? }
  predicate LoopStep(e: Step) { e.ETakeLocal? || e.ETakeTunnel? || e.EClosePing? || e.ESendAddress? }

  lemma LocalPacketChanges(s: State, w: nat, addr: Addr)
    requires Enabled(s, ELocalPacket(w, addr))
    ensures var y := LocalPacket(s, w, addr);
            LocalsStep(s, ELocalPacket(w, addr), y) && TunnelsStep(s, ELocalPacket(w, addr), y)
  {
  }

  lemma StoreLocalChanges(s: State, w: nat)
    requires Enabled(s, EStoreLocal(w))
    ensures LocalsStep(s, EStoreLocal(w), StoreLocal(s, w)) && TunnelsStep(s, EStoreLocal(w), StoreLocal(s, w))
  {
    var y := StoreLocal(s, w);
    assert y.locals[..|s.locals|] == s.locals && y.locals[|s.locals|].stage == LStored;
    forall l {:trigger y.locals[l]} | |s.locals| <= l < |y.locals| ensures y.locals[l].stage.LStored? {
      assert l == |s.locals|;
    }
  }

  lemma OfferLocalChanges(s: State, w: nat)
    requires Safe(s) && Enabled(s, EOfferLocal(w))
    ensures LocalsStep(s, EOfferLocal(w), OfferLocal(s, w)) && TunnelsStep(s, EOfferLocal(w), OfferLocal(s, w))
  {
    assert s.locals[s.localReaders[w].id].stage.LStored? by {
      hide TunnelSide, PairingSide;
      assert ReaderSafe(s, w, s.localReaders[w]);
    }
    hide Safe;
  }

  lemma CloseLocalChanges(s: State, l: Lid)
    requires Safe(s) && Enabled(s, ECloseLocal(l))
    ensures LocalsStep(s, ECloseLocal(l), CloseLocal(s, l)) && TunnelsStep(s, ECloseLocal(l), CloseLocal(s, l))
  {
    assert !s.locals[l].closed by {
      hide TunnelSide, PairingSide, LocalQueues;
    }
    hide Safe;
  }

  lemma TakeLocalChanges(s: State, w: nat, expired: bool)
    requires Safe(s) && Enabled(s, ETakeLocal(w, expired))
    ensures var e := ETakeLocal(w, expired);
            LocalsStep(s, e, TakeLocal(s, w, expired)) && TunnelsStep(s, e, TakeLocal(s, w, expired))
  {
    assert s.locals[s.udpChans[w][0]].stage.Offered? by {
      hide TunnelSide, PairingSide;
      assert ChannelSafe(s, w, s.udpChans[w]);
    }
    hide Safe;
  }

  lemma TakeTunnelChanges(s: State, w: nat)
    requires Safe(s) && Enabled(s, ETakeTunnel(w))
    ensures LocalsStep(s, ETakeTunnel(w), TakeTunnel(s, w)) && TunnelsStep(s, ETakeTunnel(w), TakeTunnel(s, w))
  {
    assert s.tunnels[s.tunnelChannel[0]].stage.Queued? by {
      hide LocalSide, PairingSide;
    }
    hide Safe;
  }

  lemma ClosePingChanges(s: State, w: nat)
    requires Safe(s) && Enabled(s, EClosePing(w))
    ensures LocalsStep(s, EClosePing(w), ClosePing(s, w)) && TunnelsStep(s, EClosePing(w), ClosePing(s, w))
  {
    assert s.tunnels[s.workers[w].t].stage.Taken? by {
      hide TunnelSide, LocalSide;
      assert WorkerSafe(s, w, s.workers[w]);
    }
    hide Safe;
  }

  lemma SendAddressChanges(s: State, w: nat, ok: bool)
    requires Safe(s) && Enabled(s, ESendAddress(w, ok))
    ensures var e := ESendAddress(w, ok);
            LocalsStep(s, e, SendAddress(s, w, ok)) && TunnelsStep(s, e, SendAddress(s, w, ok))
  {
    assert s.tunnels[s.workers[w].t].stage.Silenced? && s.locals[s.workers[w].l].stage.Held? by {
      hide TunnelSide, LocalSide;
      assert WorkerSafe(s, w, s.workers[w]);
    }
    hide Safe;
  }

  lemma TunnelPacketChanges(s: State, key: Addr, isToken: bool)
    ensures var e, y := ETunnelPacket(key, isToken), TunnelPacket(s, key, isToken);
            LocalsStep(s, e, y) && TunnelsStep(s, e, y)
  {
  }

  lemma StoreTunnelChanges(s: State)
    requires Enabled(s, EStoreTunnel)
    ensures LocalsStep(s, EStoreTunnel, StoreTunnel(s)) && TunnelsStep(s, EStoreTunnel, StoreTunnel(s))
  {
    var y := StoreTunnel(s);
    assert y.tunnels[..|s.tunnels|] == s.tunnels && y.tunnels[|s.tunnels|].stage == Stored;
    forall t {:trigger y.tunnels[t]} | |s.tunnels| <= t < |y.tunnels| ensures y.tunnels[t].stage.Stored? {
      assert t == |s.tunnels|;
    }
  }

  lemma OfferTunnelChanges(s: State)
    requires Safe(s) && Enabled(s, EOfferTunnel)
    ensures LocalsStep(s, EOfferTunnel, OfferTunnel(s)) && TunnelsStep(s, EOfferTunnel, OfferTunnel(s))
  {
    assert s.tunnels[s.tunnelReader.id].stage.Stored? by {
      hide LocalSide, PairingSide;
    }
    hide Safe;
  }

  lemma CloseTunnelChanges(s: State, t: Tid)
    requires Safe(s) && Enabled(s, ECloseTunnel(t))
    ensures LocalsStep(s, ECloseTunnel(t), CloseTunnel(s, t)) && TunnelsStep(s, ECloseTunnel(t), CloseTunnel(s, t))
  {
    assert !s.tunnels[t].payloadClosed by {
      hide LocalSide, PairingSide;
    }
    hide Safe;
  }

  lemma StepChanges(s: State, e: Step)
    requires Safe(s)
    ensures LocalsStep(s, e, Apply(s, e)) && TunnelsStep(s, e, Apply(s, e))
  {
    hide Safe, LocalsStep, TunnelsStep;
    if !Enabled(s, e) {
      DisabledChanges(s, e);
    } else {
      match e
      case ETakeLocal(w, expired) => TakeLocalChanges(s, w, expired);
      case ETakeTunnel(w) => TakeTunnelChanges(s, w);
      case EClosePing(w) => ClosePingChanges(s, w);
      case ESendAddress(w, ok) => SendAddressChanges(s, w, ok);
      case ELocalPacket(w, addr) => LocalPacketChanges(s, w, addr);
      case EStoreLocal(w) => StoreLocalChanges(s, w);
      case EOfferLocal(w) => OfferLocalChanges(s, w);
      case ECloseLocal(l) => CloseLocalChanges(s, l);
      case ETunnelPacket(key, isToken) => TunnelPacketChanges(s, key, isToken);
      case EStoreTunnel => StoreTunnelChanges(s);
      case EOfferTunnel => OfferTunnelChanges(s);
      case ECloseTunnel(t) => CloseTunnelChanges(s, t);
    }
  }

  lemma DisabledNames(s: State, e: Step, k: nat)
    requires Safe(s) && !Enabled(s, e)
    ensures !SkipsExpired(s, e, k) && !RefusesLocal(s, e, k) && !ClosesLocal(s, e, k)
    ensures !FailsToSend(s, e, k) && !RefusesTunnel(s, e, k) && !ClosesTunnel(s, e, k)
  {
    hide LocalEntries, Binding;
    assert e.ETakeLocal? && e.w < |s.udpChans| ==> ChannelSafe(s, e.w, s.udpChans[e.w]);
    assert e.EOfferLocal? && e.w < |s.localReaders| ==> ReaderSafe(s, e.w, s.localReaders[e.w]);
    assert e.ESendAddress? && e.w < |s.workers| ==> WorkerSafe(s, e.w, s.workers[e.w]);
  }

  lemma DisabledChanges(s: State, e: Step)
    requires Safe(s) && !Enabled(s, e)
    ensures LocalsStep(s, e, Apply(s, e)) && TunnelsStep(s, e, Apply(s, e))
  {
    hide Safe, SkipsExpired, RefusesLocal, ClosesLocal, FailsToSend, RefusesTunnel, ClosesTunnel;
    forall k: nat
      ensures !SkipsExpired(s, e, k) && !RefusesLocal(s, e, k) && !ClosesLocal(s, e, k)
      ensures !FailsToSend(s, e, k) && !RefusesTunnel(s, e, k) && !ClosesTunnel(s, e, k)
    {
      DisabledNames(s, e, k);
    }
  }

  // ---------------------------------------------------------------- what is forgotten

  /** A session's stage names whose hands it is in. */
  predicate LocalPlaced(s: State, l: Lid, v: Local) {
    match v.stage
    case LStored => v.lsn < |s.localReaders| && s.localReaders[v.lsn] == Offering(l)
    case Offered => v.lsn < |s.udpChans| && l in s.udpChans[v.lsn]
    case Held => v.lsn < |s.workers| && !s.workers[v.lsn].Idle? && s.workers[v.lsn].l == l
    case LBound(t) => (l, t) in s.bindings
    case _ => true
  }

  predicate TunnelPlaced(s: State, t: Tid, v: Tunnel) {
    match v.stage
    case Stored => s.tunnelReader == Offering(t)
    case Queued => t in s.tunnelChannel
    case Taken(w) => w < |s.workers| && s.workers[w].Silencing? && s.workers[w].t == t
    case Silenced(w) => w < |s.workers| && s.workers[w].Sending? && s.workers[w].t == t
    case Bound(l) => (l, t) in s.bindings
    case _ => true
  }

  ghost predicate LocalsPlaced(s: State) {
    forall l {:trigger s.locals[l]} :: 0 <= l < |s.locals| ==> LocalPlaced(s, l, s.locals[l])
  }

  ghost predicate TunnelsPlaced(s: State) {
    forall t {:trigger s.tunnels[t]} :: 0 <= t < |s.tunnels| ==> TunnelPlaced(s, t, s.tunnels[t])
  }

  /** Sessions, and tunnels, keep their places while their queues and holders stay as they are. */
  lemma LocalsFrame(s: State, y: State)
    requires LocalsPlaced(s) && y.locals == s.locals && y.udpChans == s.udpChans
    requires |y.localReaders| == |s.localReaders| && |y.workers| == |s.workers|
    requires forall w {:trigger s.localReaders[w]} :: 0 <= w < |s.localReaders| && s.localReaders[w].Offering? ==>
      y.localReaders[w] == s.localReaders[w]
    requires forall w {:trigger s.workers[w]} :: 0 <= w < |s.workers| && !s.workers[w].Idle? ==>
      !y.workers[w].Idle? && y.workers[w].l == s.workers[w].l
    requires forall b :: b in s.bindings ==> b in y.bindings
    ensures LocalsPlaced(y)
  {
    forall l {:trigger y.locals[l]} | 0 <= l < |y.locals| ensures LocalPlaced(y, l, y.locals[l]) {
      assert LocalPlaced(s, l, s.locals[l]);
    }
  }

  lemma TunnelsFrame(s: State, y: State)
    requires TunnelsPlaced(s) && y.tunnels == s.tunnels && y.tunnelChannel == s.tunnelChannel
    requires s.tunnelReader.Offering? ==> y.tunnelReader == s.tunnelReader
    requires |y.workers| == |s.workers|
    requires forall w {:trigger s.workers[w]} :: 0 <= w < |s.workers| && (s.workers[w].Silencing? || s.workers[w].Sending?) ==>
      y.workers[w] == s.workers[w]
    requires forall b :: b in s.bindings ==> b in y.bindings
    ensures TunnelsPlaced(y)
  {
    forall t {:trigger y.tunnels[t]} | 0 <= t < |y.tunnels| ensures TunnelPlaced(y, t, y.tunnels[t]) {
      assert TunnelPlaced(s, t, s.tunnels[t]);
    }
  }

  lemma StoreLocalPlaced(s: State, w: nat)
    requires LocalsPlaced(s) && Enabled(s, EStoreLocal(w))
    ensures LocalsPlaced(StoreLocal(s, w))
  {
    var y := StoreLocal(s, w);
    forall l {:trigger y.locals[l]} | 0 <= l < |y.locals| ensures LocalPlaced(y, l, y.locals[l]) {
      assert l < |s.locals| ==> LocalPlaced(s, l, s.locals[l]);
    }
  }

  lemma OfferLocalPlaced(s: State, w: nat)
    requires Safe(s) && LocalsPlaced(s) && Enabled(s, EOfferLocal(w))
    ensures LocalsPlaced(OfferLocal(s, w))
  {
    assert s.locals[s.localReaders[w].id].lsn == w by {
      hide TunnelSide, PairingSide;
      assert ReaderSafe(s, w, s.localReaders[w]);
    }
    hide Safe;
    var y := OfferLocal(s, w);
    forall l {:trigger y.locals[l]} | 0 <= l < |y.locals| ensures LocalPlaced(y, l, y.locals[l]) {
      assert l < |s.locals| ==> LocalPlaced(s, l, s.locals[l]);
    }
  }

  lemma CloseLocalPlaced(s: State, k: Lid)
    requires LocalsPlaced(s) && Enabled(s, ECloseLocal(k))
    ensures LocalsPlaced(CloseLocal(s, k))
  {
    var y := CloseLocal(s, k);
    forall l {:trigger y.locals[l]} | 0 <= l < |y.locals| ensures LocalPlaced(y, l, y.locals[l]) {
      assert l < |s.locals| ==> LocalPlaced(s, l, s.locals[l]);
    }
  }

  lemma StoreTunnelPlaced(s: State)
    requires TunnelsPlaced(s) && Enabled(s, EStoreTunnel)
    ensures TunnelsPlaced(StoreTunnel(s))
  {
    var y := StoreTunnel(s);
    forall t {:trigger y.tunnels[t]} | 0 <= t < |y.tunnels| ensures TunnelPlaced(y, t, y.tunnels[t]) {
      assert t < |s.tunnels| ==> TunnelPlaced(s, t, s.tunnels[t]);
    }
  }

  lemma OfferTunnelPlaced(s: State)
    requires TunnelsPlaced(s) && Enabled(s, EOfferTunnel)
    ensures TunnelsPlaced(OfferTunnel(s))
  {
    var y := OfferTunnel(s);
    forall t {:trigger y.tunnels[t]} | 0 <= t < |y.tunnels| ensures TunnelPlaced(y, t, y.tunnels[t]) {
      assert t < |s.tunnels| ==> TunnelPlaced(s, t, s.tunnels[t]);
    }
  }

  lemma CloseTunnelPlaced(s: State, k: Tid)
    requires TunnelsPlaced(s) && Enabled(s, ECloseTunnel(k))
    ensures TunnelsPlaced(CloseTunnel(s, k))
  {
    var y := CloseTunnel(s, k);
    forall t {:trigger y.tunnels[t]} | 0 <= t < |y.tunnels| ensures TunnelPlaced(y, t, y.tunnels[t]) {
      assert t < |s.tunnels| ==> TunnelPlaced(s, t, s.tunnels[t]);
    }
  }

  lemma StillQueued<T>(q: seq<T>, x: T)
    requires q != [] && x in q && x != q[0]
    ensures x in q[1..]
  {
    var i :| 0 <= i < |q| && q[i] == x;
    assert q[1..][i - 1] == x;
  }

  lemma TakeLocalPlaced(s: State, w: nat, expired: bool)
    requires Safe(s) && LocalsPlaced(s) && Enabled(s, ETakeLocal(w, expired))
    ensures LocalsPlaced(TakeLocal(s, w, expired))
  {
    assert s.locals[s.udpChans[w][0]].lsn == w by {
      hide TunnelSide, PairingSide;
      assert ChannelSafe(s, w, s.udpChans[w]);
    }
    hide Safe;
    var y := TakeLocal(s, w, expired);
    forall l {:trigger y.locals[l]} | 0 <= l < |y.locals| ensures LocalPlaced(y, l, y.locals[l]) {
      assert l < |s.locals| ==> LocalPlaced(s, l, s.locals[l]);
      if l in s.udpChans[w] && l != s.udpChans[w][0] {
        StillQueued(s.udpChans[w], l);
      }
    }
  }

  lemma TakeTunnelPlaced(s: State, w: nat)
    requires TunnelsPlaced(s) && Enabled(s, ETakeTunnel(w))
    ensures TunnelsPlaced(TakeTunnel(s, w))
  {
    var y := TakeTunnel(s, w);
    forall t {:trigger y.tunnels[t]} | 0 <= t < |y.tunnels| ensures TunnelPlaced(y, t, y.tunnels[t]) {
      assert t < |s.tunnels| ==> TunnelPlaced(s, t, s.tunnels[t]);
      if t in s.tunnelChannel && t != s.tunnelChannel[0] {
        StillQueued(s.tunnelChannel, t);
      }
    }
  }

  lemma ClosePingPlaced(s: State, w: nat)
    requires TunnelsPlaced(s) && Enabled(s, EClosePing(w))
    ensures TunnelsPlaced(ClosePing(s, w))
  {
    var y := ClosePing(s, w);
    forall t {:trigger y.tunnels[t]} | 0 <= t < |y.tunnels| ensures TunnelPlaced(y, t, y.tunnels[t]) {
      assert t < |s.tunnels| ==> TunnelPlaced(s, t, s.tunnels[t]);
    }
  }

  lemma SendAddressLocalsPlaced(s: State, w: nat, ok: bool)
    requires LocalsPlaced(s) && Enabled(s, ESendAddress(w, ok))
    ensures LocalsPlaced(SendAddress(s, w, ok))
  {
    var y := SendAddress(s, w, ok);
    forall l {:trigger y.locals[l]} | 0 <= l < |y.locals| ensures LocalPlaced(y, l, y.locals[l]) {
      assert l < |s.locals| ==> LocalPlaced(s, l, s.locals[l]);
    }
  }

  lemma SendAddressTunnelsPlaced(s: State, w: nat, ok: bool)
    requires TunnelsPlaced(s) && Enabled(s, ESendAddress(w, ok))
    ensures TunnelsPlaced(SendAddress(s, w, ok))
  {
    var y := SendAddress(s, w, ok);
    forall t {:trigger y.tunnels[t]} | 0 <= t < |y.tunnels| ensures TunnelPlaced(y, t, y.tunnels[t]) {
      assert t < |s.tunnels| ==> TunnelPlaced(s, t, s.tunnels[t]);
    }
  }

  lemma {:induction false} RunPlaced(channelSize: nat, listeners: nat, steps: seq<Step>)
    ensures LocalsPlaced(Run(Init(channelSize, listeners), steps)) && TunnelsPlaced(Run(Init(channelSize, listeners), steps))
  {
    hide Safe, Enabled, LocalsPlaced, TunnelsPlaced;
    if steps == [] {
      InitPlaced(channelSize, listeners);
    } else {
      var s, e := Run(Init(channelSize, listeners), steps[..|steps| - 1]), steps[|steps| - 1];
      RunPlaced(channelSize, listeners, steps[..|steps| - 1]);
      RunSafe(channelSize, listeners, steps[..|steps| - 1]);
      StepPlaced(s, e);
    }
  }

  lemma InitPlaced(channelSize: nat, listeners: nat)
    ensures LocalsPlaced(Init(channelSize, listeners)) && TunnelsPlaced(Init(channelSize, listeners))
  {
  }

  lemma LocalStepPlaced(s: State, e: Step)
    requires Safe(s) && LocalsPlaced(s) && TunnelsPlaced(s) && Enabled(s, e) && LocalStep(e)
    ensures LocalsPlaced(Apply(s, e)) && TunnelsPlaced(Apply(s, e))
  {
    hide Safe, LocalsPlaced, TunnelsPlaced;
    TunnelsFrame(s, Apply(s, e));
    match e
    case ELocalPacket(_, _) => LocalsFrame(s, Apply(s, e));
    case EStoreLocal(w) => StoreLocalPlaced(s, w);
    case EOfferLocal(w) => OfferLocalPlaced(s, w);
    case ECloseLocal(l) => CloseLocalPlaced(s, l);
  }

  lemma LoopStepPlaced(s: State, e: Step)
    requires Safe(s) && LocalsPlaced(s) && TunnelsPlaced(s) && Enabled(s, e) && LoopStep(e)
    ensures LocalsPlaced(Apply(s, e)) && TunnelsPlaced(Apply(s, e))
  {
    hide Safe, LocalsPlaced, TunnelsPlaced;
    match e
    case ETakeLocal(w, expired) => TakeLocalPlaced(s, w, expired); TunnelsFrame(s, TakeLocal(s, w, expired));
    case ETakeTunnel(w) => LocalsFrame(s, TakeTunnel(s, w)); TakeTunnelPlaced(s, w);
    case EClosePing(w) => LocalsFrame(s, ClosePing(s, w)); ClosePingPlaced(s, w);
    case ESendAddress(w, ok) => SendAddressLocalsPlaced(s, w, ok); SendAddressTunnelsPlaced(s, w, ok);
  }

  lemma TunnelStepPlaced(s: State, e: Step)
    requires Safe(s) && LocalsPlaced(s) && TunnelsPlaced(s) && Enabled(s, e) && !LocalStep(e) && !LoopStep(e)
    ensures LocalsPlaced(Apply(s, e)) && TunnelsPlaced(Apply(s, e))
  {
    hide Safe, LocalsPlaced, TunnelsPlaced;
    LocalsFrame(s, Apply(s, e));
    match e
    case ETunnelPacket(_, _) => TunnelsFrame(s, Apply(s, e));
    case EStoreTunnel => StoreTunnelPlaced(s);
    case EOfferTunnel => OfferTunnelPlaced(s);
    case ECloseTunnel(t) => CloseTunnelPlaced(s, t);
  }

  lemma StepPlaced(s: State, e: Step)
    requires Safe(s) && LocalsPlaced(s) && TunnelsPlaced(s)
    ensures LocalsPlaced(Apply(s, e)) && TunnelsPlaced(Apply(s, e))
  {
    if !Enabled(s, e) {
      assert Apply(s, e) == s;
    } else {
      hide Safe, Apply, Enabled, LocalsPlaced, TunnelsPlaced;
      if LocalStep(e) {
        LocalStepPlaced(s, e);
      } else if LoopStep(e) {
        LoopStepPlaced(s, e);
      } else {
        TunnelStepPlaced(s, e);
      }
    }
  }

  // ---------------------------------------------------------------- the exact condition

  /** Someone will come back to the session: the reader that stored it, its listener's loop through its channel or in its
      hands, or the copiers of the tunnel it is bound to. */
  ghost predicate LocalInHands(s: State, l: Lid)
    requires l < |s.locals|
  {
    var w := s.locals[l].lsn;
    || (w < |s.localReaders| && s.localReaders[w] == Offering(l))
    || (w < |s.udpChans| && l in s.udpChans[w])
    || (w < |s.workers| && !s.workers[w].Idle? && s.workers[w].l == l)
    || (exists t :: (l, t) in s.bindings)
  }

  ghost predicate TunnelInHands(s: State, t: Tid) {
    || s.tunnelReader == Offering(t)
    || t in s.tunnelChannel
    || (exists w :: 0 <= w < |s.workers| && (s.workers[w].Silencing? || s.workers[w].Sending?) && s.workers[w].t == t)
    || (exists l :: (l, t) in s.bindings)
  }

  lemma BindingOf(s: State, l: Lid, t: Tid)
    requires Safe(s) && (l, t) in s.bindings
    ensures Binding(s, l, t)
  {
    hide TunnelSide, LocalSide;
    var i :| 0 <= i < |s.bindings| && s.bindings[i] == (l, t);
    assert Binding(s, s.bindings[i].0, s.bindings[i].1);
  }

  lemma LocalHands(s: State, l: Lid)
    requires Safe(s) && LocalsPlaced(s) && l < |s.locals| && !s.locals[l].closed
    ensures !LocalInHands(s, l) <==> s.locals[l].stage.Expired?
  {
    hide TunnelSide;
    assert LocalPlaced(s, l, s.locals[l]) && LocalSafe(s.localTable, l, s.locals[l]);
    forall t | (l, t) in s.bindings ensures !s.locals[l].stage.Expired? {
      BindingOf(s, l, t);
    }
    var w := s.locals[l].lsn;
    assert w < |s.localReaders| ==> ReaderSafe(s, w, s.localReaders[w]);
    assert w < |s.udpChans| ==> ChannelSafe(s, w, s.udpChans[w]);
    assert w < |s.workers| ==> WorkerSafe(s, w, s.workers[w]);
  }

  lemma TunnelHands(s: State, t: Tid)
    requires Safe(s) && TunnelsPlaced(s) && t < |s.tunnels| && !s.tunnels[t].payloadClosed
    ensures !TunnelInHands(s, t) <==> s.tunnels[t].stage.Stuck?
  {
    hide LocalSide;
    assert TunnelPlaced(s, t, s.tunnels[t]) && TunnelSafe(s.tunnelTable, t, s.tunnels[t]);
    forall l | (l, t) in s.bindings ensures !s.tunnels[t].stage.Stuck? {
      BindingOf(s, l, t);
    }
    forall w {:trigger s.workers[w]} | 0 <= w < |s.workers| ensures WorkerSafe(s, w, s.workers[w]) {
    }
  }

  lemma NamesExist(s: State, e: Step, l: Lid)
    requires Safe(s)
    ensures SkipsExpired(s, e, l) || RefusesLocal(s, e, l) || ClosesLocal(s, e, l) ==> l < |s.locals|
  {
    hide TunnelSide, PairingSide, LocalEntries;
    assert e.ETakeLocal? && e.w < |s.udpChans| ==> ChannelSafe(s, e.w, s.udpChans[e.w]);
    assert e.EOfferLocal? && e.w < |s.localReaders| ==> ReaderSafe(s, e.w, s.localReaders[e.w]);
  }

  /** Over every run a session is expired if and only if its loop skipped it, refused if and only if its offer met a full
      channel, and closed if and only if its copiers closed it. */
  lemma {:induction false} RunExpires(channelSize: nat, listeners: nat, steps: seq<Step>, l: Lid)
    ensures var at := From(channelSize, listeners);
            var s := at(steps);
            && (Once(at, steps, Skips(l)) <==> l < |s.locals| && s.locals[l].stage.Expired?)
            && (Once(at, steps, TurnsAway(l)) <==> l < |s.locals| && s.locals[l].stage.LRefused?)
            && (Once(at, steps, Shuts(l)) <==> l < |s.locals| && s.locals[l].stage.LClosed?)
  {
    hide Safe, Apply, SkipsExpired, RefusesLocal, ClosesLocal, TunnelsStep;
    if steps != [] {
      var before := steps[..|steps| - 1];
      RunExpires(channelSize, listeners, before, l);
      RunSafe(channelSize, listeners, before);
      StepChanges(Run(Init(channelSize, listeners), before), steps[|steps| - 1]);
      NamesExist(Run(Init(channelSize, listeners), before), steps[|steps| - 1], l);
    }
  }

  lemma TunnelNamesExist(s: State, e: Step, t: Tid)
    requires Safe(s)
    ensures FailsToSend(s, e, t) || RefusesTunnel(s, e, t) || ClosesTunnel(s, e, t) ==> t < |s.tunnels|
  {
    hide LocalSide, Binding;
    assert e.ESendAddress? && e.w < |s.workers| ==> WorkerSafe(s, e.w, s.workers[e.w]);
  }

  /** Over every run a tunnel is stuck if and only if its address write failed, refused if and only if its offer met a full
      channel, and ended if and only if its copiers closed it. */
  lemma {:induction false} RunSticks(channelSize: nat, listeners: nat, steps: seq<Step>, t: Tid)
    ensures var at := From(channelSize, listeners);
            var s := at(steps);
            && (Once(at, steps, Fails(t)) <==> t < |s.tunnels| && s.tunnels[t].stage.Stuck?)
            && (Once(at, steps, TurnsBack(t)) <==> t < |s.tunnels| && s.tunnels[t].stage.Refused?)
            && (Once(at, steps, Drops(t)) <==> t < |s.tunnels| && s.tunnels[t].stage.Ended?)
  {
    hide Safe, Apply, FailsToSend, RefusesTunnel, ClosesTunnel, LocalsStep;
    if steps != [] {
      var before := steps[..|steps| - 1];
      RunSticks(channelSize, listeners, before, t);
      RunSafe(channelSize, listeners, before);
      StepChanges(Run(Init(channelSize, listeners), before), steps[|steps| - 1]);
      TunnelNamesExist(Run(Init(channelSize, listeners), before), steps[|steps| - 1], t);
    }
  }

  /** Over every run an open session is in nobody's hands if and only if its loop once skipped it as expired. */
  lemma RunForgetsLocals(channelSize: nat, listeners: nat, steps: seq<Step>, l: Lid)
    requires var s := Run(Init(channelSize, listeners), steps); l < |s.locals| && !s.locals[l].closed
    ensures !LocalInHands(Run(Init(channelSize, listeners), steps), l)
            <==> Once(From(channelSize, listeners), steps, Skips(l))
  {
    hide Run, Safe, LocalsPlaced, TunnelsPlaced, LocalInHands, Once;
    RunSafe(channelSize, listeners, steps);
    RunPlaced(channelSize, listeners, steps);
    RunExpires(channelSize, listeners, steps, l);
    LocalHands(Run(Init(channelSize, listeners), steps), l);
  }

  /** Over every run an open tunnel is in nobody's hands if and only if writing its address once failed. */
  lemma RunForgetsTunnels(channelSize: nat, listeners: nat, steps: seq<Step>, t: Tid)
    requires var s := Run(Init(channelSize, listeners), steps); t < |s.tunnels| && !s.tunnels[t].payloadClosed
    ensures !TunnelInHands(Run(Init(channelSize, listeners), steps), t)
            <==> Once(From(channelSize, listeners), steps, Fails(t))
  {
    hide Run, Safe, LocalsPlaced, TunnelsPlaced, TunnelInHands, Once;
    RunSafe(channelSize, listeners, steps);
    RunPlaced(channelSize, listeners, steps);
    RunSticks(channelSize, listeners, steps, t);
    TunnelHands(Run(Init(channelSize, listeners), steps), t);
  }

  // ---------------------------------------------------------------- for good

  /** An expired session keeps its table entry, open and unserved, for the rest of the run. */
  lemma {:induction false} ExpiredStays(channelSize: nat, listeners: nat, before: seq<Step>, after: seq<Step>, l: Lid)
    requires var s := Run(Init(channelSize, listeners), before); l < |s.locals| && s.locals[l].stage.Expired?
    ensures var s, y := Run(Init(channelSize, listeners), before), Run(Init(channelSize, listeners), before + after);
            && l < |y.locals| && y.locals[l] == s.locals[l] && !y.locals[l].closed
            && (y.locals[l].lsn, y.locals[l].addr) in y.localTable && y.localTable[(y.locals[l].lsn, y.locals[l].addr)] == l
  {
    hide Apply, SkipsExpired, TunnelsStep;
    var all := before + after;
    if after == [] {
      assert all == before;
    } else {
      assert all[..|all| - 1] == before + after[..|after| - 1];
      ExpiredStays(channelSize, listeners, before, after[..|after| - 1], l);
      RunSafe(channelSize, listeners, all[..|all| - 1]);
      StepChanges(Run(Init(channelSize, listeners), all[..|all| - 1]), all[|all| - 1]);
    }
    RunSafe(channelSize, listeners, all);
    var y := Run(Init(channelSize, listeners), all);
    hide Run, LocalsStep;
    assert LocalSafe(y.localTable, l, y.locals[l]);
  }

  /** A tunnel whose address could not be written keeps its table entry, open and unbound, for the rest of the run. */
  lemma {:induction false} StuckStays(channelSize: nat, listeners: nat, before: seq<Step>, after: seq<Step>, t: Tid)
    requires var s := Run(Init(channelSize, listeners), before); t < |s.tunnels| && s.tunnels[t].stage.Stuck?
    ensures var s, y := Run(Init(channelSize, listeners), before), Run(Init(channelSize, listeners), before + after);
            && t < |y.tunnels| && y.tunnels[t] == s.tunnels[t] && !y.tunnels[t].payloadClosed
            && y.tunnels[t].key in y.tunnelTable && y.tunnelTable[y.tunnels[t].key] == t
  {
    hide Apply, FailsToSend, LocalsStep;
    var all := before + after;
    if after == [] {
      assert all == before;
    } else {
      assert all[..|all| - 1] == before + after[..|after| - 1];
      StuckStays(channelSize, listeners, before, after[..|after| - 1], t);
      RunSafe(channelSize, listeners, all[..|all| - 1]);
      StepChanges(Run(Init(channelSize, listeners), all[..|all| - 1]), all[|all| - 1]);
    }
    RunSafe(channelSize, listeners, all);
    var y := Run(Init(channelSize, listeners), all);
    hide Run, TunnelsStep;
    assert TunnelSafe(y.tunnelTable, t, y.tunnels[t]);
  }

  // ---------------------------------------------------------------- runs that reach them

  lemma RunMore(s: State, steps: seq<Step>, e: Step, more: seq<Step>)
    requires more == steps + [e]
    ensures Run(s, more) == Apply(Run(s, steps), e)
  {
    assert more[..|steps|] == steps;
  }

  /** One listener, one session, skipped as expired. */
  lemma ExpiryReached(addr: Addr)
    ensures var s := Run(Init(1, 1), [ELocalPacket(0, addr), EStoreLocal(0), EOfferLocal(0), ETakeLocal(0, true)]);
            |s.locals| == 1 && s.locals[0].stage.Expired?
  {
    hide Run;
    var steps := [ELocalPacket(0, addr), EStoreLocal(0), EOfferLocal(0), ETakeLocal(0, true)];
    var s := Init(1, 1);
    assert Run(s, []) == s by { RunNothing(s); }
    RunMore(s, [], steps[0], steps[..1]);
    RunMore(s, steps[..1], steps[1], steps[..2]);
    RunMore(s, steps[..2], steps[2], steps[..3]);
    RunMore(s, steps[..3], steps[3], steps);
    LocalOffered(addr);
  }

  lemma RunNothing(s: State)
    ensures Run(s, []) == s
  {
  }

  /** The state with one session waiting in its listener's channel. */
  function OneOffered(addr: Addr): State {
    Init(1, 1).(locals := [Local(0, addr, false, Offered)], localTable := map[(0, addr) := 0], udpChans := [[0]])
  }

  lemma LocalOffered(addr: Addr)
    ensures Apply(Apply(Apply(Init(1, 1), ELocalPacket(0, addr)), EStoreLocal(0)), EOfferLocal(0)) == OneOffered(addr)
  {
    var a := Apply(Init(1, 1), ELocalPacket(0, addr));
    assert a == Init(1, 1).(localReaders := [Creating(addr)]);
    var b := Apply(a, EStoreLocal(0));
    assert b == a.(locals := [Local(0, addr, false, LStored)], localTable := map[(0, addr) := 0], localReaders := [Offering(0)]);
    assert b.udpChans[0] + [0] == [0] && b.udpChans[0 := [0]] == [[0]];
  }

  /** One listener, one session, one tunnel, whose address cannot be written. */
  lemma FailureReached(addr: Addr, key: Addr)
    ensures var s := Run(Init(1, 1), [ELocalPacket(0, addr), EStoreLocal(0), EOfferLocal(0), ETakeLocal(0, false),
                                      ETunnelPacket(key, true), EStoreTunnel, EOfferTunnel,
                                      ETakeTunnel(0), EClosePing(0), ESendAddress(0, false)]);
            |s.tunnels| == 1 && s.tunnels[0].stage.Stuck?
  {
    hide Run, Apply;
    var steps := [ELocalPacket(0, addr), EStoreLocal(0), EOfferLocal(0), ETakeLocal(0, false),
                  ETunnelPacket(key, true), EStoreTunnel, EOfferTunnel,
                  ETakeTunnel(0), EClosePing(0), ESendAddress(0, false)];
    var s := Init(1, 1);
    assert Run(s, []) == s by { RunNothing(s); }
    RunMore(s, [], steps[0], steps[..1]);
    RunMore(s, steps[..1], steps[1], steps[..2]);
    RunMore(s, steps[..2], steps[2], steps[..3]);
    RunMore(s, steps[..3], steps[3], steps[..4]);
    RunMore(s, steps[..4], steps[4], steps[..5]);
    RunMore(s, steps[..5], steps[5], steps[..6]);
    RunMore(s, steps[..6], steps[6], steps[..7]);
    RunMore(s, steps[..7], steps[7], steps[..8]);
    RunMore(s, steps[..8], steps[8], steps[..9]);
    RunMore(s, steps[..9], steps[9], steps);
    LocalOffered(addr);
    TunnelOffered(addr, key);
    TunnelFails(addr, key);
  }

  /** The session is held and one tunnel waits in the channel. */
  function OneWaiting(addr: Addr, key: Addr): State {
    Init(1, 1).(locals := [Local(0, addr, false, Held)], localTable := map[(0, addr) := 0], workers := [Holding(0)],
                tunnels := [Tunnel(key, false, false, Queued)], tunnelTable := map[key := 0], tunnelChannel := [0])
  }

  lemma TunnelOffered(addr: Addr, key: Addr)
    ensures Apply(Apply(Apply(Apply(OneOffered(addr), ETakeLocal(0, false)), ETunnelPacket(key, true)), EStoreTunnel), EOfferTunnel)
            == OneWaiting(addr, key)
  {
    var a := Apply(OneOffered(addr), ETakeLocal(0, false));
    var none: seq<Lid> := OneOffered(addr).udpChans[0][1..];
    assert none == [] && OneOffered(addr).udpChans[0 := none] == [[]];
    assert a == OneOffered(addr).(locals := [Local(0, addr, false, Held)], udpChans := [[]], workers := [Holding(0)]);
    var b := Apply(a, ETunnelPacket(key, true));
    assert b == a.(tunnelReader := Creating(key));
    var c := Apply(b, EStoreTunnel);
    assert c == a.(tunnels := [Tunnel(key, false, false, Stored)], tunnelTable := map[key := 0], tunnelReader := Offering(0));
  }

  lemma TunnelFails(addr: Addr, key: Addr)
    ensures var s := Apply(Apply(Apply(OneWaiting(addr, key), ETakeTunnel(0)), EClosePing(0)), ESendAddress(0, false));
            |s.tunnels| == 1 && s.tunnels[0].stage.Stuck?
  {
    var a := Apply(OneWaiting(addr, key), ETakeTunnel(0));
    assert a == OneWaiting(addr, key).(tunnels := [Tunnel(key, false, false, Taken(0))], tunnelChannel := [],
                                       workers := [Silencing(0, 0)]);
    var b := Apply(a, EClosePing(0));
    assert b == a.(tunnels := [Tunnel(key, false, true, Silenced(0))], workers := [Sending(0, 0)]);
  }
}
