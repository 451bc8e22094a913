/** The UDP listener as an object whose table and sessions the goroutines update in place; each method is one section
    between two points where another goroutine may run. Each is the corresponding step of `UdpSessions` and keeps all
    laws, so that no send meets a closed channel and no channel is closed again. */
module UdpListener {
  import opened Base
  import opened Framing
  import opened UdpSessions
  import opened UdpRouting

  class AcceptUdpListener {
    const channelSize: nat
    var activeConnections: map<Addr, Sid>
    var sessions: seq<Session>
    var udpChan: seq<Sid>
    var listener: Listener
    var holding: Option<Sid>
    ghost var arrivals: seq<Datagram>
    ghost var dropped: seq<Datagram>
    var count: nat
    var reqNewConnChan: nat // requests for a tunnel, in a channel shared with the TCP accepters

    ghost function View(): State
      reads this
    {
      State(channelSize, activeConnections, sessions, udpChan, listener, holding, arrivals, dropped, false)
    }

    ghost predicate Valid()
      reads this
    {
      Lawful(View()) && count == |arrivals|
    }

    constructor (channelSize: nat)
      ensures Valid() && View() == Init(channelSize)
    {
      this.channelSize := channelSize;
      activeConnections, sessions, udpChan := map[], [], [];
      listener, holding, count, reqNewConnChan := Reading, None, 0, 0;
      arrivals, dropped := [], [];
      new;
      InitLawful(channelSize);
    }

    /** ReadFromUDP, then the lookup under the mutex; a congested entry is left alone and superseded. */
    method ReadDatagram(addr: Addr, data: seq<byte>)
      requires Valid() && listener.Reading? && |data| <= BUFFER_SIZE - 2
      modifies this`count, this`arrivals, this`listener
      ensures Valid() && View() == Apply(old(View()), ELookup(addr, data))
    {
      hide Lawful;
      StepLawful(View(), ELookup(addr, data));
      LawfulListener(View());
      var d := Datagram(count, addr, data);
      count := count + 1;
      arrivals := arrivals + [d];
      listener := Creating(d);
      if addr in activeConnections {
        var existing := activeConnections[addr];
        if !sessions[existing].congested {
          listener := Found(existing, d);
        }
      }
    }

    /** A non-blocking send to an open payload channel. */
    method Send(sid: Sid, d: Datagram)
      requires sid < |sessions| && !sessions[sid].closed
      modifies this`sessions, this`dropped
      ensures View() == SendPayload(old(View()), sid, d)
    {
      var session := sessions[sid];
      if |session.queued| - session.taken < PAYLOAD_CAPACITY {
        sessions := sessions[sid := session.(queued := session.queued + [d])];
      } else {
        dropped := dropped + [d];
      }
    }

    /** The send to the existing session, still under the mutex: its channel is open. */
    method DeliverToExisting()
      requires Valid() && listener.Found?
      modifies this`sessions, this`dropped, this`listener
      ensures Valid() && View() == Apply(old(View()), EDeliver)
    {
      hide Lawful;
      StepLawful(View(), EDeliver);
      LawfulListener(View());
      Send(listener.sid, listener.d);
      listener := Reading;
    }

    /** A new session replaces whatever entry the address had. */
    method StoreSession()
      requires Valid() && listener.Creating?
      modifies this`sessions, this`activeConnections, this`listener
      ensures Valid() && View() == Apply(old(View()), EStore)
    {
      hide Lawful;
      StepLawful(View(), EStore);
      LawfulListener(View());
      var d := listener.d;
      var sid := |sessions|;
      sessions := sessions + [Session(d.addr, false, false, Created, [], 0, [], [])];
      activeConnections := activeConnections[d.addr := sid];
      listener := Stored(sid, d);
    }

    /** The session and its first payload go to the handler loop and a tunnel is asked for, unless a channel is full. */
    method OfferSession()
      requires Valid() && listener.Stored?
      modifies this`sessions, this`udpChan, this`dropped, this`listener, this`reqNewConnChan
      ensures Valid() && View() == Apply(old(View()), EOffer)
      ensures reqNewConnChan == old(reqNewConnChan)
              + One(|udpChan| > old(|udpChan|) && old(reqNewConnChan) < channelSize)
    {
      hide Lawful;
      StepLawful(View(), EOffer);
      LawfulListener(View());
      var Stored(sid, d) := listener;
      if |udpChan| < channelSize {
        sessions := sessions[sid := sessions[sid].(stage := Offered)];
        udpChan := udpChan + [sid];
        Send(sid, d);
        if reqNewConnChan < channelSize {
          reqNewConnChan := reqNewConnChan + 1;
        }
      } else {
        sessions := sessions[sid := sessions[sid].(stage := Refused)];
        dropped := dropped + [d];
      }
      listener := Reading;
    }

    /** handleUDPLoop takes the next session. */
    method TakeSession()
      requires Valid() && holding.None? && udpChan != []
      modifies this`udpChan, this`sessions, this`holding
      ensures Valid() && View() == Apply(old(View()), ETake)
    {
      hide Lawful;
      StepLawful(View(), ETake);
      LawfulListener(View());
      var sid := udpChan[0];
      udpChan := udpChan[1..];
      sessions := sessions[sid := sessions[sid].(stage := Held)];
      holding := Some(sid);
    }

    /** handleUDPLoop has written the address to a tunnel and starts the handler. */
    method StartHandler()
      requires Valid() && holding.Some?
      modifies this`sessions, this`holding
      ensures Valid() && View() == Apply(old(View()), EStart)
    {
      hide Lawful;
      StepLawful(View(), EStart);
      LawfulListener(View());
      var sid := holding.value;
      sessions := sessions[sid := sessions[sid].(stage := Running(false, false))];
      holding := None;
    }

    /** tcpToUDP flags its session without taking the mutex. */
    method Flag(sid: Sid)
      requires Valid() && ReaderRuns(View(), sid)
      modifies this`sessions
      ensures Valid() && View() == Apply(old(View()), EFlag(sid))
      ensures sessions[sid].congested
    {
      hide Lawful;
      StepLawful(View(), EFlag(sid));
      sessions := sessions[sid := sessions[sid].(congested := true)];
    }

    /** The end of UDPConnectionHandler, under the mutex: the channel closed was open, and the entry deleted is the
        session's own. */
    method FinishHandler(sid: Sid)
      requires Valid() && sid < |sessions| && sessions[sid].stage == Running(true, true) && !listener.Found?
      modifies this`sessions, this`activeConnections
      ensures Valid() && View() == Apply(old(View()), EExit(sid))
      ensures !old(sessions[sid].closed) && sessions[sid].closed
      ensures forall a :: a in old(activeConnections) && a !in activeConnections ==> old(activeConnections)[a] == sid
    {
      hide Lawful;
      StepLawful(View(), EExit(sid));
      LawfulHandler(View(), sid);
      var session := sessions[sid];
      sessions := sessions[sid := session.(closed := true, stage := Finished)];
      if !session.congested {
        activeConnections := activeConnections - {session.addr};
      }
    }
  }
}
