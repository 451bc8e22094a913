/** What every run of the UDP transport keeps. */
module UdpTablesLaws {
  import opened UdpTables

  lemma LocalFrame(s: State, t: State)
    requires LocalSide(s) && t.locals == s.locals && t.localTable == s.localTable
    requires t.localReaders == s.localReaders && t.udpChans == s.udpChans
    ensures LocalSide(t)
  {
    forall w {:trigger t.localReaders[w]} | 0 <= w < |t.localReaders| ensures ReaderSafe(t, w, t.localReaders[w]) {
      assert ReaderSafe(s, w, s.localReaders[w]);
    }
    forall w {:trigger t.udpChans[w]} | 0 <= w < |t.udpChans| ensures ChannelSafe(t, w, t.udpChans[w]) {
      assert ChannelSafe(s, w, s.udpChans[w]);
    }
  }

  lemma TunnelFrame(s: State, t: State)
    requires TunnelSide(s) && t.tunnels == s.tunnels && t.tunnelTable == s.tunnelTable
    requires t.tunnelChannel == s.tunnelChannel && t.tunnelReader == s.tunnelReader
    ensures TunnelSide(t)
  {
  }

  /** Tunnels and sessions that no worker holds and no binding mentions may change freely. */
  lemma PairingFrame(s: State, t: State)
    requires PairingSide(s) && t.workers == s.workers && t.bindings == s.bindings
    requires |t.tunnels| >= |s.tunnels| && |t.locals| >= |s.locals|
    requires forall k {:trigger s.tunnels[k]} :: 0 <= k < |s.tunnels| ==>
      t.tunnels[k] == s.tunnels[k] || s.tunnels[k].stage.Stored? || s.tunnels[k].stage.Queued?
    requires forall k {:trigger s.locals[k]} :: 0 <= k < |s.locals| ==>
      t.locals[k] == s.locals[k] || s.locals[k].stage.LStored? || s.locals[k].stage.Offered?
    ensures PairingSide(t)
  {
    forall w {:trigger t.workers[w]} | 0 <= w < |t.workers| ensures WorkerSafe(t, w, t.workers[w]) {
      assert WorkerSafe(s, w, s.workers[w]);
    }
    forall i {:trigger t.bindings[i]} | 0 <= i < |t.bindings| ensures Binding(t, t.bindings[i].0, t.bindings[i].1) {
      assert Binding(s, s.bindings[i].0, s.bindings[i].1);
    }
  }

  // ---------------------------------------------------------------- the tunnel side

  lemma StoreTunnelSafe(s: State)
    requires Safe(s) && s.tunnelReader.Creating?
    ensures Safe(StoreTunnel(s))
  {
    LocalFrame(s, StoreTunnel(s));
    PairingFrame(s, StoreTunnel(s));
  }

  lemma OfferTunnelSafe(s: State)
    requires Safe(s) && Enabled(s, EOfferTunnel)
    ensures Safe(OfferTunnel(s))
  {
    hide LocalSide, PairingSide;
    var t := s.tunnelReader.id;
    assert TunnelSafe(s.tunnelTable, t, s.tunnels[t]);
    LocalFrame(s, OfferTunnel(s));
    PairingFrame(s, OfferTunnel(s));
  }

  lemma CloseTunnelSafe(s: State, t: Tid)
    requires Safe(s) && Enabled(s, ECloseTunnel(t))
    ensures Safe(CloseTunnel(s, t))
  {
    hide LocalSide, PairingSide;
    assert TunnelSafe(s.tunnelTable, t, s.tunnels[t]);
    LocalFrame(s, CloseTunnel(s, t));
    CloseTunnelPairing(s, t);
  }

  lemma CloseTunnelPairing(s: State, t: Tid)
    requires PairingSide(s) && Enabled(s, ECloseTunnel(t)) && !s.tunnels[t].payloadClosed
    ensures PairingSide(CloseTunnel(s, t))
  {
    var y := CloseTunnel(s, t);
    forall w {:trigger y.workers[w]} | 0 <= w < |y.workers| ensures WorkerSafe(y, w, y.workers[w]) {
      assert WorkerSafe(s, w, s.workers[w]);
    }
    forall i {:trigger y.bindings[i]} | 0 <= i < |y.bindings| ensures Binding(y, y.bindings[i].0, y.bindings[i].1) {
      assert Binding(s, s.bindings[i].0, s.bindings[i].1);
    }
  }

  // ---------------------------------------------------------------- the local side

  lemma StoreLocalSafe(s: State, w: nat)
    requires Safe(s) && Enabled(s, EStoreLocal(w))
    ensures Safe(StoreLocal(s, w))
  {
    hide TunnelSide, PairingSide;
    TunnelFrame(s, StoreLocal(s, w));
    PairingFrame(s, StoreLocal(s, w));
    StoreLocalSide(s, w);
  }

  lemma StoreLocalSide(s: State, w: nat)
    requires LocalSide(s) && Enabled(s, EStoreLocal(w))
    ensures LocalSide(StoreLocal(s, w))
  {
    var y := StoreLocal(s, w);
    assert ReaderSafe(s, w, s.localReaders[w]);
    forall v {:trigger y.localReaders[v]} | 0 <= v < |y.localReaders| ensures ReaderSafe(y, v, y.localReaders[v]) {
      assert ReaderSafe(s, v, s.localReaders[v]);
    }
    forall v {:trigger y.udpChans[v]} | 0 <= v < |y.udpChans| ensures ChannelSafe(y, v, y.udpChans[v]) {
      assert ChannelSafe(s, v, s.udpChans[v]);
    }
  }

  lemma OfferLocalSafe(s: State, w: nat)
    requires Safe(s) && Enabled(s, EOfferLocal(w))
    ensures Safe(OfferLocal(s, w))
  {
    hide TunnelSide, PairingSide;
    assert ReaderSafe(s, w, s.localReaders[w]);
    assert LocalSafe(s.localTable, s.localReaders[w].id, s.locals[s.localReaders[w].id]);
    TunnelFrame(s, OfferLocal(s, w));
    PairingFrame(s, OfferLocal(s, w));
    OfferLocalSide(s, w);
  }

  lemma OfferLocalSide(s: State, w: nat)
    requires LocalSide(s) && Enabled(s, EOfferLocal(w)) && !s.locals[s.localReaders[w].id].closed
    ensures LocalSide(OfferLocal(s, w))
  {
    OfferLocalEntries(s, w);
    hide LocalEntries;
    var y, l := OfferLocal(s, w), s.localReaders[w].id;
    assert ReaderSafe(s, w, s.localReaders[w]);
    forall v {:trigger y.localReaders[v]} | 0 <= v < |y.localReaders| ensures ReaderSafe(y, v, y.localReaders[v]) {
      assert ReaderSafe(s, v, s.localReaders[v]);
    }
    forall v {:trigger y.udpChans[v]} | 0 <= v < |y.udpChans| ensures ChannelSafe(y, v, y.udpChans[v]) {
      assert ChannelSafe(s, v, s.udpChans[v]);
    }
  }

  lemma OfferLocalEntries(s: State, w: nat)
    requires LocalSide(s) && Enabled(s, EOfferLocal(w)) && !s.locals[s.localReaders[w].id].closed
    ensures LocalEntries(OfferLocal(s, w))
  {
    assert ReaderSafe(s, w, s.localReaders[w]);
    hide LocalQueues;
    assert LocalSafe(s.localTable, s.localReaders[w].id, s.locals[s.localReaders[w].id]);
  }

  lemma CloseLocalSafe(s: State, l: Lid)
    requires Safe(s) && Enabled(s, ECloseLocal(l))
    ensures Safe(CloseLocal(s, l))
  {
    hide TunnelSide, PairingSide;
    assert LocalSafe(s.localTable, l, s.locals[l]);
    TunnelFrame(s, CloseLocal(s, l));
    CloseLocalSide(s, l);
    CloseLocalPairing(s, l);
  }

  lemma CloseLocalSide(s: State, l: Lid)
    requires LocalSide(s) && Enabled(s, ECloseLocal(l)) && !s.locals[l].closed
    ensures LocalSide(CloseLocal(s, l))
  {
    var y := CloseLocal(s, l);
    forall v {:trigger y.localReaders[v]} | 0 <= v < |y.localReaders| ensures ReaderSafe(y, v, y.localReaders[v]) {
      assert ReaderSafe(s, v, s.localReaders[v]);
    }
    forall v {:trigger y.udpChans[v]} | 0 <= v < |y.udpChans| ensures ChannelSafe(y, v, y.udpChans[v]) {
      assert ChannelSafe(s, v, s.udpChans[v]);
    }
  }

  lemma CloseLocalPairing(s: State, l: Lid)
    requires PairingSide(s) && Enabled(s, ECloseLocal(l)) && !s.locals[l].closed
    ensures PairingSide(CloseLocal(s, l))
  {
    var y := CloseLocal(s, l);
    forall w {:trigger y.workers[w]} | 0 <= w < |y.workers| ensures WorkerSafe(y, w, y.workers[w]) {
      assert WorkerSafe(s, w, s.workers[w]);
    }
    forall i {:trigger y.bindings[i]} | 0 <= i < |y.bindings| ensures Binding(y, y.bindings[i].0, y.bindings[i].1) {
      assert Binding(s, s.bindings[i].0, s.bindings[i].1);
    }
  }

  // ---------------------------------------------------------------- the handler loops

  lemma TakeLocalSafe(s: State, w: nat, expired: bool)
    requires Safe(s) && Enabled(s, ETakeLocal(w, expired))
    ensures Safe(TakeLocal(s, w, expired))
  {
    hide TunnelSide, LocalEntries;
    var y := TakeLocal(s, w, expired);
    TunnelFrame(s, y);
    TakeLocalSide(s, w, expired);
    assert ChannelSafe(s, w, s.udpChans[w]);
    forall v {:trigger y.workers[v]} | 0 <= v < |y.workers| ensures WorkerSafe(y, v, y.workers[v]) {
      assert WorkerSafe(s, v, s.workers[v]);
    }
    forall i {:trigger y.bindings[i]} | 0 <= i < |y.bindings| ensures Binding(y, y.bindings[i].0, y.bindings[i].1) {
      assert Binding(s, s.bindings[i].0, s.bindings[i].1);
    }
  }

  lemma TakeLocalSide(s: State, w: nat, expired: bool)
    requires LocalSide(s) && Enabled(s, ETakeLocal(w, expired))
    ensures LocalSide(TakeLocal(s, w, expired))
  {
    TakeLocalEntries(s, w, expired);
    hide LocalEntries;
    var y := TakeLocal(s, w, expired);
    assert ChannelSafe(s, w, s.udpChans[w]);
    forall v {:trigger y.localReaders[v]} | 0 <= v < |y.localReaders| ensures ReaderSafe(y, v, y.localReaders[v]) {
      assert ReaderSafe(s, v, s.localReaders[v]);
    }
    forall v {:trigger y.udpChans[v]} | 0 <= v < |y.udpChans| ensures ChannelSafe(y, v, y.udpChans[v]) {
      assert ChannelSafe(s, v, s.udpChans[v]);
    }
  }

  lemma TakeLocalEntries(s: State, w: nat, expired: bool)
    requires LocalSide(s) && Enabled(s, ETakeLocal(w, expired))
    ensures LocalEntries(TakeLocal(s, w, expired))
  {
    assert ChannelSafe(s, w, s.udpChans[w]);
    hide LocalQueues;
  }

  lemma TakeTunnelSafe(s: State, w: nat)
    requires Safe(s) && Enabled(s, ETakeTunnel(w))
    ensures Safe(TakeTunnel(s, w))
  {
    hide LocalSide;
    var y := TakeTunnel(s, w);
    LocalFrame(s, y);
    forall v {:trigger y.workers[v]} | 0 <= v < |y.workers| ensures WorkerSafe(y, v, y.workers[v]) {
      assert WorkerSafe(s, v, s.workers[v]);
    }
    forall i {:trigger y.bindings[i]} | 0 <= i < |y.bindings| ensures Binding(y, y.bindings[i].0, y.bindings[i].1) {
      assert Binding(s, s.bindings[i].0, s.bindings[i].1);
    }
  }

  lemma ClosePingSafe(s: State, w: nat)
    requires Safe(s) && Enabled(s, EClosePing(w))
    ensures Safe(ClosePing(s, w))
  {
    hide LocalSide;
    var y := ClosePing(s, w);
    assert WorkerSafe(s, w, s.workers[w]);
    assert TunnelSafe(s.tunnelTable, s.workers[w].t, s.tunnels[s.workers[w].t]);
    LocalFrame(s, y);
    forall v {:trigger y.workers[v]} | 0 <= v < |y.workers| ensures WorkerSafe(y, v, y.workers[v]) {
      assert WorkerSafe(s, v, s.workers[v]);
    }
    forall i {:trigger y.bindings[i]} | 0 <= i < |y.bindings| ensures Binding(y, y.bindings[i].0, y.bindings[i].1) {
      assert Binding(s, s.bindings[i].0, s.bindings[i].1);
    }
  }

  lemma SendAddressSafe(s: State, w: nat, ok: bool)
    requires Safe(s) && Enabled(s, ESendAddress(w, ok))
    ensures Safe(SendAddress(s, w, ok))
  {
    hide TunnelSide, LocalSide, PairingSide;
    SendAddressTunnels(s, w, ok);
    SendAddressLocals(s, w, ok);
    SendAddressPairing(s, w, ok);
  }

  lemma SendAddressTunnels(s: State, w: nat, ok: bool)
    requires TunnelSide(s) && PairingSide(s) && Enabled(s, ESendAddress(w, ok))
    ensures TunnelSide(SendAddress(s, w, ok))
  {
    assert WorkerSafe(s, w, s.workers[w]);
  }

  lemma SendAddressLocals(s: State, w: nat, ok: bool)
    requires LocalSide(s) && PairingSide(s) && Enabled(s, ESendAddress(w, ok))
    ensures LocalSide(SendAddress(s, w, ok))
  {
    var y := SendAddress(s, w, ok);
    assert WorkerSafe(s, w, s.workers[w]);
    forall v {:trigger y.localReaders[v]} | 0 <= v < |y.localReaders| ensures ReaderSafe(y, v, y.localReaders[v]) {
      assert ReaderSafe(s, v, s.localReaders[v]);
    }
    forall v {:trigger y.udpChans[v]} | 0 <= v < |y.udpChans| ensures ChannelSafe(y, v, y.udpChans[v]) {
      assert ChannelSafe(s, v, s.udpChans[v]);
    }
  }

  lemma SendAddressPairing(s: State, w: nat, ok: bool)
    requires PairingSide(s) && Enabled(s, ESendAddress(w, ok))
    ensures PairingSide(SendAddress(s, w, ok))
  {
    var y := SendAddress(s, w, ok);
    assert WorkerSafe(s, w, s.workers[w]);
    forall v {:trigger y.workers[v]} | 0 <= v < |y.workers| ensures WorkerSafe(y, v, y.workers[v]) {
      assert WorkerSafe(s, v, s.workers[v]);
    }
    forall i {:trigger y.bindings[i]} | 0 <= i < |y.bindings| ensures Binding(y, y.bindings[i].0, y.bindings[i].1) {
      if i < |s.bindings| {
        assert Binding(s, s.bindings[i].0, s.bindings[i].1);
      }
    }
    if ok {
      forall i | 0 <= i < |s.bindings|
        ensures s.bindings[i].0 != s.workers[w].l && s.bindings[i].1 != s.workers[w].t
      {
        assert Binding(s, s.bindings[i].0, s.bindings[i].1);
      }
    }
  }

  // ---------------------------------------------------------------- runs

  lemma TunnelPacketSafe(s: State, key: Addr, isToken: bool)
    requires Safe(s) && s.tunnelReader.Reading?
    ensures Safe(TunnelPacket(s, key, isToken))
  {
    hide LocalSide, PairingSide;
    LocalFrame(s, TunnelPacket(s, key, isToken).(panicked := false));
    PairingFrame(s, TunnelPacket(s, key, isToken).(panicked := false));
  }

  lemma LocalPacketSafe(s: State, w: nat, addr: Addr)
    requires Safe(s) && Enabled(s, ELocalPacket(w, addr))
    ensures Safe(LocalPacket(s, w, addr))
  {
    hide TunnelSide, PairingSide;
    var y := LocalPacket(s, w, addr);
    TunnelFrame(s, y);
    PairingFrame(s, y);
    forall v {:trigger y.localReaders[v]} | 0 <= v < |y.localReaders| ensures ReaderSafe(y, v, y.localReaders[v]) {
      assert ReaderSafe(s, v, s.localReaders[v]);
    }
    forall v {:trigger y.udpChans[v]} | 0 <= v < |y.udpChans| ensures ChannelSafe(y, v, y.udpChans[v]) {
      assert ChannelSafe(s, v, s.udpChans[v]);
    }
  }

  lemma StepSafe(s: State, e: Step)
    requires Safe(s)
    ensures Safe(Apply(s, e))
  {
    hide Safe;
    if Enabled(s, e) {
      match e
      case ETunnelPacket(key, isToken) => TunnelPacketSafe(s, key, isToken);
      case EStoreTunnel => StoreTunnelSafe(s);
      case EOfferTunnel => OfferTunnelSafe(s);
      case ELocalPacket(w, addr) => LocalPacketSafe(s, w, addr);
      case EStoreLocal(w) => StoreLocalSafe(s, w);
      case EOfferLocal(w) => OfferLocalSafe(s, w);
      case ETakeLocal(w, expired) => TakeLocalSafe(s, w, expired);
      case ETakeTunnel(w) => TakeTunnelSafe(s, w);
      case EClosePing(w) => ClosePingSafe(s, w);
      case ESendAddress(w, ok) => SendAddressSafe(s, w, ok);
      case ECloseLocal(l) => CloseLocalSafe(s, l);
      case ECloseTunnel(t) => CloseTunnelSafe(s, t);
    }
  }

  /** Over every run of a generation: whenever a reader looks up an entry its payload channel is open; no payload or
      ping channel is closed twice; and although the loops share the tunnel channel, no tunnel is bound to two local
      sessions and no session to two tunnels. */
  lemma {:induction false} RunSafe(channelSize: nat, listeners: nat, steps: seq<Step>)
    ensures Safe(Run(Init(channelSize, listeners), steps))
  {
    if steps != [] {
      RunSafe(channelSize, listeners, steps[..|steps| - 1]);
      StepSafe(Run(Init(channelSize, listeners), steps[..|steps| - 1]), steps[|steps| - 1]);
    }
  }

  // ---------------------------------------------------------------- what the goroutines rely on

  lemma SafeTunnels(s: State)
    requires Safe(s)
    ensures forall k {:trigger s.tunnelTable[k]} :: k in s.tunnelTable ==>
      s.tunnelTable[k] < |s.tunnels| && !s.tunnels[s.tunnelTable[k]].payloadClosed
    ensures s.tunnelReader.Offering? ==>
      s.tunnelReader.id < |s.tunnels| && !s.tunnels[s.tunnelReader.id].payloadClosed
    ensures s.tunnelChannel != [] ==> s.tunnelChannel[0] < |s.tunnels|
    ensures forall t {:trigger s.tunnels[t]} :: 0 <= t < |s.tunnels| && s.tunnels[t].stage.Bound? ==> !s.tunnels[t].payloadClosed
  {
    hide LocalSide, PairingSide;
    if s.tunnelReader.Offering? {
      assert TunnelSafe(s.tunnelTable, s.tunnelReader.id, s.tunnels[s.tunnelReader.id]);
    }
  }

  lemma SafeLocals(s: State)
    requires Safe(s)
    ensures forall k {:trigger s.localTable[k]} :: k in s.localTable ==>
      s.localTable[k] < |s.locals| && !s.locals[s.localTable[k]].closed
    ensures forall l {:trigger s.locals[l]} :: 0 <= l < |s.locals| && s.locals[l].stage.LBound? ==> !s.locals[l].closed
  {
    hide TunnelSide, PairingSide, LocalQueues;
  }

  lemma SafeQueues(s: State, w: nat)
    requires Safe(s)
    ensures w < |s.localReaders| && s.localReaders[w].Offering? ==>
      s.localReaders[w].id < |s.locals| && !s.locals[s.localReaders[w].id].closed
    ensures w < |s.udpChans| && s.udpChans[w] != [] ==> s.udpChans[w][0] < |s.locals|
  {
    hide TunnelSide, PairingSide;
    if w < |s.localReaders| && s.localReaders[w].Offering? {
      assert ReaderSafe(s, w, s.localReaders[w]);
      assert LocalSafe(s.localTable, s.localReaders[w].id, s.locals[s.localReaders[w].id]);
    }
    if w < |s.udpChans| && s.udpChans[w] != [] {
      assert ChannelSafe(s, w, s.udpChans[w]);
    }
  }

  lemma SafeWorker(s: State, w: nat)
    requires Safe(s) && w < |s.workers|
    ensures s.workers[w].Silencing? || s.workers[w].Sending? ==> s.workers[w].t < |s.tunnels| && s.workers[w].l < |s.locals|
    ensures s.workers[w].Silencing? ==> !s.tunnels[s.workers[w].t].pingClosed
  {
    hide LocalSide, Binding;
    assert WorkerSafe(s, w, s.workers[w]);
    if s.workers[w].Silencing? {
      assert TunnelSafe(s.tunnelTable, s.workers[w].t, s.tunnels[s.workers[w].t]);
    }
  }

  lemma InitSafe(channelSize: nat, listeners: nat)
    ensures Safe(Init(channelSize, listeners))
  {
  }
}
