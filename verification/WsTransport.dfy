/** One WebSocket tunnel of the server as an object shared by its keep-alive goroutine and the worker that takes it. Every
    section of either keeps the discipline: pings, then one address, then data; one holder of the lock; one close of the
    ping channel. */
module WsTransport {
  import opened Base
  import opened WsHandoff

  class TunnelChannel {
    var keeper: Keeper
    var worker: Worker
    var mu: Holder
    var pingClosed: bool
    var connClosed: bool
    ghost var wire: seq<Message>

    ghost function View(): Tunnel
      reads this
    {
      Tunnel(keeper, worker, mu, pingClosed, connClosed, wire)
    }

    ghost predicate Valid()
      reads this
    {
      Disciplined(View())
    }

    constructor ()
      ensures Valid() && View() == Tunnel(Unstarted, WsHandoff.Waiting, Nobody, false, false, [])
    {
      keeper, worker, mu, pingClosed, connClosed, wire := Unstarted, WsHandoff.Waiting, Nobody, false, false, [];
      new;
      NewDisciplined();
    }

    method WriteMessage(m: Message, ok: bool) returns (written: bool)
      modifies this`wire
      ensures written <==> ok && !connClosed
      ensures wire == if written then old(wire) + [m] else old(wire)
    {
      written := ok && !connClosed;
      if written {
        wire := wire + [m];
      }
    }

    /** keepAlive on a tick: TryLock never takes the lock from the worker. */
    method TryPing()
      requires Valid() && keeper.Ticking?
      modifies this`keeper, this`mu
      ensures Valid() && View() == TunnelApply(old(View()), TTick)
      ensures old(mu.ByWorker?) ==> mu.ByWorker? && keeper.Ended?
    {
      hide Disciplined;
      TunnelStepDisciplined(View(), TTick, false);
      if mu != Nobody {
        keeper := WsHandoff.Ended;
        return;
      }
      mu := ByKeeper;
      keeper := Pinging;
    }

    /** A ping is only ever written before the address. */
    method SendPing(ok: bool)
      requires Valid() && keeper.Pinging?
      modifies this`keeper, this`wire
      ensures Valid() && View() == TunnelApply(old(View()), TPing(ok))
      ensures OnlyPings(wire)
    {
      TunnelStepDisciplined(View(), TPing(ok), false);
      var written := WriteMessage(Ping, ok);
      keeper := if written then Pinged else PingFailed;
    }

    method UnlockAfterPing()
      requires Valid() && (keeper.Pinged? || keeper.PingFailed?)
      modifies this`mu, this`keeper
      ensures Valid() && View() == TunnelApply(old(View()), TUnlock)
    {
      hide Disciplined;
      TunnelStepDisciplined(View(), TUnlock, false);
      mu := Nobody;
      keeper := if keeper.PingFailed? then Hanging else Ticking;
    }

    /** handleLoop takes the tunnel from the channel. */
    method Take(address: seq<byte>)
      requires Valid() && worker.Waiting?
      modifies this`worker
      ensures Valid() && View() == old(View()).(worker := Closing(address))
    {
      hide Disciplined;
      TakenDisciplined(View(), address);
      worker := Closing(address);
    }

    /** handleLoop: stop the pings; the channel closed here is open. */
    method StopPings()
      requires Valid() && worker.Closing?
      modifies this`pingClosed, this`worker
      ensures Valid() && View() == old(View()).(pingClosed := true, worker := Locking(old(worker).address))
      ensures !old(pingClosed)
    {
      hide Disciplined;
      ClosedDisciplined(View());
      pingClosed := true;
      worker := Locking(worker.address);
    }

    /** handleLoop: take the lock, never to give it back. */
    method LockForever()
      requires Valid() && worker.Locking? && mu.Nobody?
      modifies this`mu, this`worker
      ensures Valid() && View() == TunnelApply(old(View()), TLock)
      ensures OnlyPings(wire)
    {
      TunnelStepDisciplined(View(), TLock, false);
      mu := ByWorker;
      worker := Writing(worker.address);
    }

    /** handleLoop: the address follows nothing but pings. */
    method SendAddress(ok: bool)
      requires Valid() && worker.Writing?
      modifies this`wire, this`worker, this`connClosed
      ensures Valid() && View() == TunnelApply(old(View()), TAddress(ok))
      ensures worker.Copying? ==> HandedOver(wire, worker.address, old(|wire|))
    {
      TunnelStepDisciplined(View(), TAddress(ok), false);
      var address := worker.address;
      var written := WriteMessage(Address(address), ok);
      if written {
        worker := Copying(address);
        assert wire[..old(|wire|)] == old(wire) && wire[old(|wire|) + 1..] == [];
      } else {
        connClosed := true;
        worker := Failed;
      }
    }

    method SendData(bytes: seq<byte>, ok: bool)
      requires Valid() && worker.Copying?
      modifies this`wire, this`connClosed
      ensures Valid() && View() == TunnelApply(old(View()), TData(bytes, ok))
    {
      hide Disciplined;
      TunnelStepDisciplined(View(), TData(bytes, ok), false);
      var written := WriteMessage(Data(bytes), ok);
      if !written {
        connClosed := true;
      }
    }
  }
}
