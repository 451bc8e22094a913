/** The UDP transport as an object whose tables, channels and connections are updated in place; each method is one
    section of acceptTunnelConn, localListener, handleLoop or udpCopy. Each is that step of `UdpTables` and keeps its
    safety, so that a reader only ever finds open channels and nothing is closed twice. */
module UdpTransport {
  import opened Base
  import opened UdpTables
  import opened UdpTablesLaws

  class UdpServer {
    const channelSize: nat
    var tunnels: seq<Tunnel>
    var locals: seq<Local>
    var activeConnections: map<Addr, Tid>
    var localConnections: map<(nat, Addr), Lid>
    var tunnelChannel: seq<Tid>
    var udpChans: seq<seq<Lid>>
    var tunnelReader: Reader<Tid>
    var localReaders: seq<Reader<Lid>>
    var workers: seq<Worker>
    ghost var bindings: seq<(Lid, Tid)>

    ghost function View(): State
      reads this
    {
      State(channelSize, tunnels, locals, activeConnections, localConnections, tunnelChannel, udpChans, tunnelReader,
            localReaders, workers, bindings, false)
    }

    ghost predicate Valid()
      reads this
    {
      Safe(View())
    }

    constructor (channelSize: nat, listeners: nat)
      ensures Valid() && View() == Init(channelSize, listeners)
    {
      this.channelSize := channelSize;
      tunnels, locals, activeConnections, localConnections, tunnelChannel := [], [], map[], map[], [];
      udpChans := seq(listeners, _ => []);
      tunnelReader, localReaders := Reading, seq(listeners, _ => Reading);
      workers, bindings := seq(listeners, _ => Idle), [];
      new;
      InitSafe(channelSize, listeners);
    }

    /** acceptTunnelConn: a packet for a known tunnel, whose payload channel is open, or a token that announces a new one. */
    method AcceptTunnelPacket(key: Addr, isToken: bool) returns (known: Option<Tid>)
      requires Valid() && tunnelReader.Reading?
      modifies this`tunnelReader
      ensures Valid() && View() == Apply(old(View()), ETunnelPacket(key, isToken))
      ensures known.Some? <==> key in activeConnections
      ensures known.Some? ==> known.value < |tunnels| && !tunnels[known.value].payloadClosed
    {
      hide Safe;
      StepSafe(View(), ETunnelPacket(key, isToken));
      SafeTunnels(View());
      known := None;
      if key in activeConnections {
        known := Some(activeConnections[key]);
      } else if isToken {
        tunnelReader := Creating(key);
      }
    }

    method StoreTunnel()
      requires Valid() && tunnelReader.Creating?
      modifies this`activeConnections, this`tunnelReader, this`tunnels
      ensures Valid() && View() == Apply(old(View()), EStoreTunnel)
    {
      hide Safe;
      StepSafe(View(), EStoreTunnel);
      var key := tunnelReader.key;
      activeConnections := activeConnections[key := |tunnels|];
      tunnelReader := Offering(|tunnels|);
      tunnels := tunnels + [Tunnel(key, false, false, Stored)];
    }

    /** acceptTunnelConn: queue the tunnel, or close and delete it when the channel is full. */
    method OfferTunnel()
      requires Valid() && tunnelReader.Offering?
      modifies this`tunnelChannel, this`tunnels, this`activeConnections, this`tunnelReader
      ensures Valid() && View() == Apply(old(View()), EOfferTunnel)
    {
      hide Safe;
      StepSafe(View(), EOfferTunnel);
      SafeTunnels(View());
      var t := tunnelReader.id;
      var tunnel := tunnels[t];
      if |tunnelChannel| < channelSize {
        tunnelChannel := tunnelChannel + [t];
        tunnels := tunnels[t := tunnel.(stage := Queued)];
      } else {
        assert !tunnel.payloadClosed;
        tunnels := tunnels[t := tunnel.(payloadClosed := true, stage := Refused)];
        activeConnections := activeConnections - {tunnel.key};
      }
      tunnelReader := Reading;
    }

    /** localListener: a packet for a known session, whose payload channel is open, or the start of a new one. */
    method AcceptLocalPacket(w: nat, addr: Addr) returns (known: Option<Lid>)
      requires Valid() && w < |localReaders| && localReaders[w].Reading?
      modifies this`localReaders
      ensures Valid() && View() == Apply(old(View()), ELocalPacket(w, addr))
      ensures known.Some? <==> (w, addr) in localConnections
      ensures known.Some? ==> known.value < |locals| && !locals[known.value].closed
    {
      hide Safe;
      StepSafe(View(), ELocalPacket(w, addr));
      SafeLocals(View());
      known := None;
      if (w, addr) in localConnections {
        known := Some(localConnections[(w, addr)]);
      } else {
        localReaders := localReaders[w := Creating(addr)];
      }
    }

    method StoreLocal(w: nat)
      requires Valid() && w < |localReaders| && localReaders[w].Creating?
      modifies this`localConnections, this`localReaders, this`locals
      ensures Valid() && View() == Apply(old(View()), EStoreLocal(w))
    {
      hide Safe;
      StepSafe(View(), EStoreLocal(w));
      var addr := localReaders[w].key;
      localConnections := localConnections[(w, addr) := |locals|];
      localReaders := localReaders[w := Offering(|locals|)];
      locals := locals + [Local(w, addr, false, LStored)];
    }

    /** localListener: offer the session to its loop, or close and delete it when the channel is full. */
    method OfferLocal(w: nat)
      requires Valid() && w < |localReaders| && w < |udpChans| && localReaders[w].Offering?
      modifies this`udpChans, this`locals, this`localConnections, this`localReaders
      ensures Valid() && View() == Apply(old(View()), EOfferLocal(w))
    {
      hide Safe;
      StepSafe(View(), EOfferLocal(w));
      SafeQueues(View(), w);
      var l := localReaders[w].id;
      var local := locals[l];
      if |udpChans[w]| < channelSize {
        udpChans := udpChans[w := udpChans[w] + [l]];
        locals := locals[l := local.(stage := Offered)];
      } else {
        assert !local.closed;
        locals := locals[l := local.(closed := true, stage := LRefused)];
        localConnections := localConnections - {(local.lsn, local.addr)};
      }
      localReaders := localReaders[w := Reading];
    }

    /** handleLoop: take the next session; one older than three seconds is skipped. */
    method TakeLocal(w: nat, now: int, timeCreated: int)
      requires Valid() && w < |workers| && w < |udpChans| && workers[w].Idle? && udpChans[w] != []
      modifies this`udpChans, this`locals, this`workers
      ensures Valid() && View() == Apply(old(View()), ETakeLocal(w, now - timeCreated > 3000))
    {
      hide Safe;
      StepSafe(View(), ETakeLocal(w, now - timeCreated > 3000));
      SafeQueues(View(), w);
      var l := udpChans[w][0];
      udpChans := udpChans[w := udpChans[w][1..]];
      if now - timeCreated > 3000 {
        locals := locals[l := locals[l].(stage := Expired)];
        return;
      }
      locals := locals[l := locals[l].(stage := Held)];
      workers := workers[w := Holding(l)];
    }

    method TakeTunnel(w: nat)
      requires Valid() && w < |workers| && workers[w].Holding? && tunnelChannel != []
      modifies this`tunnelChannel, this`tunnels, this`workers
      ensures Valid() && View() == Apply(old(View()), ETakeTunnel(w))
    {
      hide Safe;
      StepSafe(View(), ETakeTunnel(w));
      SafeTunnels(View());
      var t := tunnelChannel[0];
      tunnelChannel := tunnelChannel[1..];
      tunnels := tunnels[t := tunnels[t].(stage := Taken(w))];
      workers := workers[w := Silencing(workers[w].l, t)];
    }

    /** handleLoop: close the ping channel, which is open. */
    method ClosePing(w: nat)
      requires Valid() && w < |workers| && workers[w].Silencing?
      modifies this`tunnels, this`workers
      ensures Valid() && View() == Apply(old(View()), EClosePing(w))
    {
      hide Safe;
      StepSafe(View(), EClosePing(w));
      SafeWorker(View(), w);
      var Silencing(l, t) := workers[w];
      assert !tunnels[t].pingClosed;
      tunnels := tunnels[t := tunnels[t].(pingClosed := true, stage := Silenced(w))];
      workers := workers[w := Sending(l, t)];
    }

    method SendAddress(w: nat, written: bool)
      requires Valid() && w < |workers| && workers[w].Sending?
      modifies this`tunnels, this`locals, this`workers, this`bindings
      ensures Valid() && View() == Apply(old(View()), ESendAddress(w, written))
    {
      hide Safe;
      StepSafe(View(), ESendAddress(w, written));
      SafeWorker(View(), w);
      var Sending(l, t) := workers[w];
      if !written {
        tunnels := tunnels[t := tunnels[t].(stage := Stuck)];
        workers := workers[w := Holding(l)];
        return;
      }
      tunnels := tunnels[t := tunnels[t].(stage := Bound(l))];
      locals := locals[l := locals[l].(stage := LBound(t))];
      bindings := bindings + [(l, t)];
      workers := workers[w := Idle];
    }

    /** udpCopy's end: first the local session under its listener's mutex, its channel being open. */
    method CloseLocal(l: Lid)
      requires Valid() && l < |locals| && locals[l].stage.LBound?
      modifies this`locals, this`localConnections
      ensures Valid() && View() == Apply(old(View()), ECloseLocal(l))
    {
      hide Safe;
      StepSafe(View(), ECloseLocal(l));
      SafeLocals(View());
      var local := locals[l];
      assert !local.closed;
      locals := locals[l := local.(closed := true, stage := LClosed(local.stage.t))];
      localConnections := localConnections - {(local.lsn, local.addr)};
    }

    /** udpCopy's end: then the tunnel under the server's mutex, its channel being open. */
    method CloseTunnel(t: Tid)
      requires Valid() && Enabled(View(), ECloseTunnel(t))
      modifies this`tunnels, this`activeConnections
      ensures Valid() && View() == Apply(old(View()), ECloseTunnel(t))
    {
      hide Safe;
      StepSafe(View(), ECloseTunnel(t));
      SafeTunnels(View());
      var tunnel := tunnels[t];
      assert !tunnel.payloadClosed;
      tunnels := tunnels[t := tunnel.(payloadClosed := true, stage := Ended)];
      activeConnections := activeConnections - {tunnel.key};
    }
  }
}
