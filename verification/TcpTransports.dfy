/** The two TCP transports as objects whose fields the goroutines update in place. Each method is one
    atomic section of a goroutine: the corresponding step of `TunnelSupply`, which keeps the partition of connections or
    the pool's bounds and changes the ledger of tunnels against connections by what crosses to the other machine. */
module TcpTransports {
  import opened Base
  import opened TunnelSupply
  import opened TunnelSupplyLaws

  class ServerTransport {
    const channelSize: nat
    var localChannel: seq<Conn>
    var tunnelChannel: seq<Tun>
    var reqNewConnChan: nat
    var requesting: nat
    var workers: seq<Worker>
    var controlUp: bool
    var cancelled: bool
    var accepted: nat
    ghost var dropped: nat
    ghost var paired: seq<Pair>
    ghost var timedOut: seq<Conn>
    ghost var abandoned: seq<Conn>
    ghost var lost: seq<Tun>

    ghost function View(): Server
      reads this
    {
      Server(channelSize, localChannel, tunnelChannel, reqNewConnChan, requesting, workers, controlUp, cancelled,
             accepted, dropped, paired, timedOut, abandoned, lost)
    }

    /** Every connection accepted so far is in exactly one place. */
    ghost predicate Valid()
      reads this
    {
      ConnsPartitioned(View())
    }

    constructor (channelSize: nat, numWorkers: nat)
      ensures Valid() && View() == NewServer(channelSize, numWorkers)
    {
      this.channelSize := channelSize;
      localChannel, tunnelChannel, reqNewConnChan, requesting := [], [], 0, 0;
      workers := seq(numWorkers, _ => Idle);
      controlUp, cancelled, accepted := true, false, 0;
      dropped, paired, timedOut, abandoned, lost := 0, [], [], [], [];
      new;
      NewServerPartitioned(channelSize, numWorkers);
    }

    /** acceptLocalConn: queue the connection unless the local channel is full. */
    method AcceptLocalConn() returns (queued: bool)
      requires Valid()
      modifies this
      ensures Valid() && View() == ServerApply(old(View()), SAccept)
      ensures ServerLedger(View()) == ServerLedger(old(View()))
      ensures queued <==> old(|localChannel|) < channelSize
    {
      hide ConnsPartitioned, ServerLedger;
      ServerStepKeepsConns(View(), SAccept);
      ServerStepLedger(View(), SAccept);
      queued := |localChannel| < channelSize;
      if queued {
        localChannel := localChannel + [accepted];
        accepted := accepted + 1;
        requesting := requesting + 1;
      }
    }

    /** acceptLocalConn, second select: ask for a tunnel unless the request channel is full. */
    method RequestNewConn()
      requires Valid() && requesting > 0
      modifies this
      ensures Valid() && View() == ServerApply(old(View()), SRequest)
      ensures ServerLedger(View()) == ServerLedger(old(View()))
    {
      hide ConnsPartitioned, ServerLedger;
      ServerStepKeepsConns(View(), SRequest);
      ServerStepLedger(View(), SRequest);
      requesting := requesting - 1;
      if reqNewConnChan < channelSize {
        reqNewConnChan := reqNewConnChan + 1;
      } else {
        dropped := dropped + 1;
      }
    }

    /** channelHandler: take one request and write its signal, or give up on the control channel. */
    method SendSignal(written: bool)
      requires Valid() && reqNewConnChan > 0
      modifies this
      ensures Valid() && View() == TakeRequest(old(View()), written)
      ensures ServerLedger(View()) == ServerLedger(old(View())) - One(written)
    {
      TakeRequestKeeps(View(), written);
      TakeRequestLedger(View(), written);
      hide ConnsPartitioned, ServerLedger;
      reqNewConnChan := reqNewConnChan - 1;
      if !written {
        dropped := dropped + 1;
        controlUp := false;
      }
    }

    /** acceptTunnelConn: queue a tunnel from the control channel's address, close any other. */
    method AcceptTunnelConn(tunnel: Tun, trusted: bool)
      requires Valid()
      modifies this
      ensures Valid() && View() == AdmitTunnel(old(View()), tunnel, trusted)
      ensures ServerLedger(View()) == ServerLedger(old(View())) + 1
    {
      AdmitKeeps(View(), tunnel, trusted);
      AdmitLedger(View(), tunnel, trusted);
      hide ConnsPartitioned, ServerLedger;
      if !trusted {
        lost := lost + [tunnel];
        return;
      }
      if |tunnelChannel| < channelSize {
        tunnelChannel := tunnelChannel + [tunnel];
      } else {
        lost := lost + [tunnel];
      }
    }

    /** handleLoop: take the next local connection. */
    method HandleLocal(w: nat)
      requires Valid() && w < |workers| && workers[w].Idle? && localChannel != []
      modifies this
      ensures Valid() && View() == ServerApply(old(View()), STakeLocal(w))
      ensures ServerLedger(View()) == ServerLedger(old(View()))
    {
      hide ConnsPartitioned, ServerLedger;
      ServerStepKeepsConns(View(), STakeLocal(w));
      ServerStepLedger(View(), STakeLocal(w));
      var conn := localChannel[0];
      localChannel := localChannel[1..];
      workers := workers[w := Checking(conn)];
    }

    /** handleLoop: close a connection older than three seconds, otherwise wait for a tunnel. */
    method CheckAge(w: nat, now: int, timeCreated: int)
      requires Valid() && w < |workers| && workers[w].Checking?
      modifies this
      ensures Valid() && View() == ServerApply(old(View()), SCheck(w, now - timeCreated > 3000))
      ensures now - timeCreated > 3000 ==> timedOut == old(timedOut) + [old(workers)[w].conn] && workers[w].Idle?
      ensures now - timeCreated <= 3000 ==> timedOut == old(timedOut) && workers[w] == Waiting(old(workers)[w].conn)
      ensures ServerLedger(View()) == ServerLedger(old(View()))
    {
      hide ConnsPartitioned, ServerLedger;
      ServerStepKeepsConns(View(), SCheck(w, now - timeCreated > 3000));
      ServerStepLedger(View(), SCheck(w, now - timeCreated > 3000));
      var conn := workers[w].conn;
      if now - timeCreated > 3000 {
        timedOut := timedOut + [conn];
        workers := workers[w := Idle];
        return;
      }
      workers := workers[w := Waiting(conn)];
    }

    /** handleLoop: take the next tunnel. */
    method HandleTunnel(w: nat)
      requires Valid() && w < |workers| && workers[w].Waiting? && tunnelChannel != []
      modifies this
      ensures Valid() && View() == ServerApply(old(View()), STakeTunnel(w))
      ensures ServerLedger(View()) == ServerLedger(old(View()))
    {
      hide ConnsPartitioned, ServerLedger;
      ServerStepKeepsConns(View(), STakeTunnel(w));
      ServerStepLedger(View(), STakeTunnel(w));
      var tunnel := tunnelChannel[0];
      tunnelChannel := tunnelChannel[1..];
      workers := workers[w := Sending(workers[w].conn, tunnel)];
    }

    /** handleLoop: write the address; on failure close the tunnel and go on with the connection. */
    method FinishSend(w: nat, written: bool)
      requires Valid() && w < |workers| && workers[w].Sending?
      modifies this
      ensures Valid() && View() == ServerApply(old(View()), SSendAddress(w, written))
      ensures ServerLedger(View()) == ServerLedger(old(View()))
    {
      hide ConnsPartitioned, ServerLedger;
      ServerStepKeepsConns(View(), SSendAddress(w, written));
      ServerStepLedger(View(), SSendAddress(w, written));
      var Sending(conn, tunnel) := workers[w];
      if !written {
        lost := lost + [tunnel];
        workers := workers[w := Checking(conn)];
        return;
      }
      paired := paired + [Pair(conn, tunnel)];
      workers := workers[w := Idle];
    }

    method Cancel()
      requires Valid()
      modifies this
      ensures Valid() && View() == ServerApply(old(View()), SCancel)
      ensures ServerLedger(View()) == ServerLedger(old(View()))
    {
      hide ConnsPartitioned, ServerLedger;
      ServerStepKeepsConns(View(), SCancel);
      ServerStepLedger(View(), SCancel);
      cancelled := true;
    }

    /** handleLoop: the context is done. */
    method Stop(w: nat)
      requires Valid() && cancelled && w < |workers| && (workers[w].Idle? || workers[w].Waiting?)
      modifies this
      ensures Valid() && View() == ServerApply(old(View()), SStop(w))
      ensures ServerLedger(View()) == ServerLedger(old(View()))
    {
      hide ConnsPartitioned, ServerLedger;
      ServerStepKeepsConns(View(), SStop(w));
      ServerStepLedger(View(), SStop(w));
      if workers[w].Waiting? {
        abandoned := abandoned + [workers[w].conn];
      }
      workers := workers[w := Stopped];
    }
  }

  class ClientTransport {
    const connPoolSize: nat
    const factors: Factors
    var poolConnections: int
    var loadConnections: nat
    var controlFlow: nat
    var newPoolSize: int
    var poolConnectionsSum: int
    var maintainer: Maintainer
    var hand: Option<Signal>
    var msgChan: seq<Signal>
    var deciding: bool
    var up: bool
    var dialers: seq<Dialer>
    ghost var signals: nat
    ghost var swallowed: nat
    ghost var shrinks: nat
    ghost var windows: nat
    ghost var overwritten: nat

    ghost function View(): Client
      reads this
    {
      Client(connPoolSize, factors, poolConnections, loadConnections, controlFlow, newPoolSize, poolConnectionsSum,
             maintainer, hand, msgChan, deciding, up, dialers, signals, swallowed, shrinks, windows, overwritten)
    }

    /** The pool controller's bounds. */
    ghost predicate Valid()
      reads this
    {
      PoolControlled(View())
    }

    /** poolMaintainer's initial filling, one dialer at a time. */
    constructor (connPoolSize: nat, aggressivePool: bool)
      ensures Valid() && View() == NewClient(connPoolSize, if aggressivePool then AGGRESSIVE else PATIENT)
    {
      this.connPoolSize := connPoolSize;
      factors := if aggressivePool then AGGRESSIVE else PATIENT;
      poolConnections, loadConnections, controlFlow := 0, 0, 0;
      newPoolSize, poolConnectionsSum, maintainer := connPoolSize, 0, Watching;
      hand, msgChan, deciding, up := None, [], false, true;
      signals, swallowed, shrinks, windows, overwritten := 0, 0, 0, 0, 0;
      dialers := [];
      new;
      for i := 0 to connPoolSize
        invariant View() == NewClient(connPoolSize, if aggressivePool then AGGRESSIVE else PATIENT).(dialers := dialers)
        invariant dialers == seq(i, _ => Dialing)
      {
        dialers := dialers + [Dialing];
      }
      NewClientControlled(connPoolSize, factors);
    }

    /** channelHandler: dispatch one control message. */
    method HandleMessage(replied: bool)
      requires Valid() && up && !deciding && msgChan != []
      modifies this
      ensures Valid() && View() == ClientApply(old(View()), CHandle(replied))
      ensures ClientLedger(View()) == ClientLedger(old(View()))
    {
      hide PoolControlled, ClientLedger;
      ClientStepKeepsPool(View(), CHandle(replied));
      ClientStepLedger(View(), CHandle(replied));
      var msg := msgChan[0];
      msgChan := msgChan[1..];
      match msg
      case NewConn =>
        loadConnections := loadConnections + 1;
        signals := signals + 1;
        deciding := true;
      case Heartbeat =>
      case Rtt => up := up && replied;
      case Closed => up := false;
      case Unexpected => up := false;
    }

    /** channelHandler: let a shrink token swallow the signal, or dial. */
    method TakeTokenOrDial()
      requires Valid() && deciding
      modifies this
      ensures Valid() && View() == ClientApply(old(View()), CDecide)
      ensures ClientLedger(View()) == ClientLedger(old(View()))
    {
      hide PoolControlled, ClientLedger;
      ClientStepKeepsPool(View(), CDecide);
      ClientStepLedger(View(), CDecide);
      deciding := false;
      if controlFlow > 0 {
        controlFlow := controlFlow - 1;
        swallowed := swallowed + 1;
      } else {
        dialers := dialers + [Dialing];
      }
    }

    /** poolMaintainer, every second. */
    method AccumulatePool()
      requires Valid() && maintainer.Watching?
      modifies this
      ensures Valid() && View() == ClientApply(old(View()), CTickPool)
      ensures ClientLedger(View()) == ClientLedger(old(View()))
    {
      hide PoolControlled, ClientLedger;
      ClientStepKeepsPool(View(), CTickPool);
      ClientStepLedger(View(), CTickPool);
      poolConnectionsSum := poolConnectionsSum + poolConnections;
    }

    /** poolMaintainer, every ten seconds: the load is read first and reset by a separate store. */
    method LoadWindow()
      requires Valid() && maintainer.Watching?
      modifies this
      ensures Valid() && View() == ClientApply(old(View()), CReadLoad)
      ensures ClientLedger(View()) == ClientLedger(old(View()))
    {
      hide PoolControlled, ClientLedger;
      ClientStepKeepsPool(View(), CReadLoad);
      ClientStepLedger(View(), CReadLoad);
      maintainer := LoadRead(loadConnections);
    }

    method AdjustPool()
      requires Valid() && maintainer.LoadRead?
      modifies this
      ensures Valid() && View() == ClientApply(old(View()), CAdjust)
      ensures ClientLedger(View()) == ClientLedger(old(View()))
    {
      hide PoolControlled, ClientLedger;
      ClientStepKeepsPool(View(), CAdjust);
      ClientStepLedger(View(), CAdjust);
      var load := CeilTenth(maintainer.load);
      var avg := CeilTenth(poolConnectionsSum);
      ResetWindow();
      ResizePool(load, avg);
    }

    method ResetWindow()
      requires Valid() && maintainer.LoadRead?
      modifies this
      ensures Valid() && View() == CloseWindow(old(View()))
    {
      hide PoolControlled;
      WindowKeepsPool(View());
      var read := maintainer.load;
      overwritten := overwritten + if loadConnections >= read then loadConnections - read else 0;
      windows := windows + read;
      loadConnections := 0;
      poolConnectionsSum := 0;
      maintainer := Watching;
    }

    method ResizePool(load: int, avg: int)
      requires Valid() && maintainer.Watching?
      modifies this
      ensures Valid() && View() == Resize(old(View()), load, avg)
    {
      hide PoolControlled, Grows, Shrinks;
      ResizeKeepsPool(View(), load, avg);
      if Grows(factors, load, avg) {
        newPoolSize := newPoolSize + 1;
        dialers := dialers + [Dialing];
      } else if Shrinks(factors, load, avg) && newPoolSize > connPoolSize {
        newPoolSize := newPoolSize - 1;
        shrinks := shrinks + 1;
        maintainer := Shrinking;
      }
    }

    method PushToken()
      requires Valid() && maintainer.Shrinking? && controlFlow < TOKEN_CAPACITY
      modifies this
      ensures Valid() && View() == ClientApply(old(View()), CSendToken)
      ensures ClientLedger(View()) == ClientLedger(old(View()))
    {
      hide PoolControlled, ClientLedger;
      ClientStepKeepsPool(View(), CSendToken);
      ClientStepLedger(View(), CSendToken);
      controlFlow := controlFlow + 1;
      maintainer := Watching;
    }

    /** tunnelDialer: the dial has succeeded and the idle gauge goes up. */
    method AwaitAddress(t: Tun)
      requires Valid() && t < |dialers| && dialers[t].Connected?
      modifies this
      ensures Valid() && View() == ClientApply(old(View()), CEnter(t))
      ensures ClientLedger(View()) == ClientLedger(old(View()))
    {
      hide PoolControlled, ClientLedger;
      ClientStepKeepsPool(View(), CEnter(t));
      ClientStepLedger(View(), CEnter(t));
      poolConnections := poolConnections + 1;
      dialers := dialers[t := Awaiting];
    }

    /** tunnelDialer: an address or an error has arrived and the idle gauge goes down. */
    method FinishAwait(t: Tun)
      requires Valid() && t < |dialers| && dialers[t].Received?
      modifies this
      ensures Valid() && View() == ClientApply(old(View()), CLeave(t))
      ensures ClientLedger(View()) == ClientLedger(old(View()))
    {
      hide PoolControlled, ClientLedger;
      ClientStepKeepsPool(View(), CLeave(t));
      ClientStepLedger(View(), CLeave(t));
      poolConnections := poolConnections - 1;
      dialers := dialers[t := Done];
    }
  }
}
