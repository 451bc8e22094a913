/** The four copy loops of a UDP session carried over one TCP tunnel, and the congestion flag. */
module UdpTunnelCopy {
  import opened Base
  import opened ByteStreams
  import opened Framing

  // ---------------------------------------------------------------- clocks

  /** Both peers keep only the position of an instant within its ten-minute window. */
  function InWindow(millis: nat): nat { millis % WINDOW }

  /** A measured RTT of zero counts as 100 ms. */
  function EffectiveRtt(rtt: nat): nat { if rtt == 0 then 100 else rtt }

  /** The server's test: the age computed from the two reduced instants exceeds three RTTs. */
  predicate LooksLate(stamp: seq<byte>, now: nat, rtt: nat)
    requires |stamp| == 4
  {
    InWindow(now) - Uint32(stamp) > 3 * EffectiveRtt(rtt)
  }

  function Stamp(sent: nat): (stamp: seq<byte>)
    ensures |stamp| == 4 && Uint32(stamp) == InWindow(sent)
  {
    Uint32RoundTrip(InWindow(sent));
    PutUint32(InWindow(sent))
  }

  /** The test sees the true age less one window for every window boundary crossed, against three RTTs, an unmeasured RTT
      counting as 100 ms. So it never fires on a packet younger than that, and it is exact while no boundary is crossed. */
  lemma LatenessTest(sent: nat, now: nat, rtt: nat)
    requires sent <= now
    ensures var limit := if rtt == 0 then 300 else 3 * rtt;
            && (LooksLate(Stamp(sent), now, rtt) <==> now - sent - WINDOW * (now / WINDOW - sent / WINDOW) > limit)
            && (LooksLate(Stamp(sent), now, rtt) ==> now - sent > limit)
            && (now / WINDOW == sent / WINDOW ==> (LooksLate(Stamp(sent), now, rtt) <==> now - sent > limit))
  {
    assert now == WINDOW * (now / WINDOW) + now % WINDOW;
    assert sent == WINDOW * (sent / WINDOW) + sent % WINDOW;
    assert now / WINDOW >= sent / WINDOW;
  }

  /** A packet of any age up to a whole window goes unnoticed when it crosses a boundary. */
  lemma BoundaryHidesLateness(sent: nat, now: nat, rtt: nat)
    requires sent <= now <= sent + 600_000 && now / 600_000 > sent / 600_000
    ensures !LooksLate(Stamp(sent), now, rtt)
  {
    LatenessTest(sent, now, rtt);
  }

  // ---------------------------------------------------------------- towards the client

  /** The payloads whose length fits the two-byte header; the loop skips the others. */
  function Fitting(ds: seq<seq<byte>>): seq<seq<byte>> {
    if ds == [] then [] else
    Fitting(ds[..|ds| - 1]) + if |ds[|ds| - 1]| <= 65535 then [ds[|ds| - 1]] else []
  }

  lemma {:induction false} FittingConcat(a: seq<seq<byte>>, b: seq<seq<byte>>)
    ensures Fitting(a + b) == Fitting(a) + Fitting(b)
  {
    if b == [] {
      assert a + b == a;
    } else {
      assert (a + b)[..|a + b| - 1] == a + b[..|b| - 1];
      FittingConcat(a, b[..|b| - 1]);
    }
  }

  lemma {:induction false} FittingAll(ds: seq<seq<byte>>)
    requires forall d :: d in ds ==> |d| <= 65535
    ensures Fitting(ds) == ds
  {
    if ds != [] {
      var n := |ds| - 1;
      assert ds[n] in ds && ds[..n] + [ds[n]] == ds;
      FittingAll(ds[..n]);
    }
  }

  lemma FittingNext(ds: seq<seq<byte>>, i: nat)
    requires i < |ds|
    ensures Fitting(ds[..i + 1]) == Fitting(ds[..i]) + if |ds[i]| <= 65535 then [ds[i]] else []
    ensures |ds[i]| <= 65535 ==>
      var k := |Fitting(ds[..i])|; k < |Fitting(ds)| && Fitting(ds)[k] == ds[i] && Fitting(ds)[..k] == Fitting(ds[..i])
  {
    assert ds[..i + 1][..i] == ds[..i] && ds == ds[..i + 1] + ds[i + 1..];
    FittingConcat(ds[..i + 1], ds[i + 1..]);
  }

  /** Server udpToTCP over the payloads a session's channel yields until it idles: the tunnel carries the frames of those
      that fit up to the point where a write failed, and all of them if none did; usage lags by at most one packet. */
  method UdpToTcp(payloads: seq<seq<byte>>, tcp: Sink, sniffer: bool) returns (recorded: nat, idle: bool)
    requires tcp.written == [] && !tcp.failed
    modifies tcp
    ensures idle <==> !tcp.failed
    ensures IsPrefix(tcp.written, Frames(Plain(Fitting(payloads))))
    ensures idle ==> tcp.written == Frames(Plain(Fitting(payloads)))
    ensures recorded <= |tcp.written|
    ensures sniffer ==> |tcp.written| <= recorded + 65537
    ensures sniffer && idle ==> recorded == |tcp.written|
    ensures !sniffer ==> recorded == 0
  {
    hide Frames, Fitting;
    FramesOfNothing();
    recorded := 0;
    assert Fitting(payloads[..0]) == [] by { FittingAll([]); }
    for i := 0 to |payloads|
      invariant tcp.written == Frames(Plain(Fitting(payloads[..i]))) && !tcp.failed
      invariant recorded == if sniffer then |tcp.written| else 0
    {
      var data := payloads[i];
      FittingNext(payloads, i);
      if |data| > 65535 {
        assert Fitting(payloads[..i + 1]) == Fitting(payloads[..i]);
        continue;
      }
      var header := PutUint16(|data|);
      var packet := header + data;
      ghost var ps, k, before := Plain(Fitting(payloads)), |Fitting(payloads[..i])|, tcp.written;
      assert packet == Frame(ps[k]);
      assert ps[..k] == Plain(Fitting(payloads[..i])) && ps[..k + 1] == Plain(Fitting(payloads[..i + 1]));
      FramesExtend(ps, k);
      var totalWritten, ok := tcp.WriteAll(packet);
      if !ok {
        ghost var m :| totalWritten <= m <= |packet| && tcp.written == before + packet[..m];
        BrokenOff(ps, k, m);
        return recorded, false;
      }
      if sniffer {
        recorded := recorded + totalWritten;
      }
    }
    assert payloads[..|payloads|] == payloads;
    idle := true;
  }

  /** How far a reader is: the packets done are what the rest of the stream leaves out. */
  ghost predicate ParsedSoFar(stampSize: nat, s0: seq<byte>, done: seq<Packet>, s: seq<byte>) {
    Parse(stampSize, s0) == Parsed(done + Parse(stampSize, s).packets, Parse(stampSize, s).stop)
  }

  lemma ParsedNothing(stampSize: nat, s0: seq<byte>)
    ensures ParsedSoFar(stampSize, s0, [], s0) && Emitted([]) == []
  {
  }

  lemma ParsedBounds(stampSize: nat, s0: seq<byte>, done: seq<Packet>, s: seq<byte>)
    requires ParsedSoFar(stampSize, s0, done, s)
    ensures IsPrefix(Emitted(done), Emitted(Parse(stampSize, s0).packets))
    ensures !HasPacket(stampSize, s) ==> Parse(stampSize, s0).packets == done
  {
    hide Emitted;
    ParseStep(stampSize, s);
    EmittedConcat(done, Parse(stampSize, s).packets);
  }

  lemma ParsedNext(stampSize: nat, s0: seq<byte>, done: seq<Packet>, s: seq<byte>, p: Packet, rest: seq<byte>)
    requires ParsedSoFar(stampSize, s0, done, s) && HasPacket(stampSize, s)
    requires var n := Uint16(s[stampSize..stampSize + 2]);
             && p == Packet(s[..stampSize], s[stampSize + 2..stampSize + 2 + n]) && rest == s[stampSize + 2 + n..]
    ensures ParsedSoFar(stampSize, s0, done + [p], rest)
    ensures Emitted(done + [p]) == Emitted(done) + if p.data == [] then [] else [p.data]
    ensures IsPrefix(Emitted(done + [p]), Emitted(Parse(stampSize, s0).packets))
  {
    hide Parse, Emitted;
    ParseStep(stampSize, s);
    EmittedAppend(done, p);
    assert Parse(stampSize, s0).packets == (done + [p]) + Parse(stampSize, rest).packets;
    EmittedConcat(done + [p], Parse(stampSize, rest).packets);
  }

  /** Both readers take a length and then that many bytes, unless the length exceeds the buffer. */
  method ReadSized(tcp: Stream, lenBuf: array<byte>, buf: array<byte>) returns (got: bool, packetSize: nat, oversize: bool)
    requires lenBuf != buf && lenBuf.Length == 2 && buf.Length == BUFFER_SIZE
    modifies tcp, lenBuf, buf
    ensures got <==> HasPacket(0, old(tcp.unread))
    ensures got ==>
      && packetSize == Uint16(old(tcp.unread)[0..2]) && packetSize <= buf.Length
      && buf[..packetSize] == old(tcp.unread)[2..2 + packetSize] && tcp.unread == old(tcp.unread)[2 + packetSize..]
    ensures got ==> |tcp.unread| < old(|tcp.unread|)
    ensures oversize <==> |old(tcp.unread)| >= 2 && Uint16(old(tcp.unread)[0..2]) > BUFFER_SIZE
  {
    ghost var s := tcp.unread;
    packetSize, oversize := 0, false;
    got := tcp.ReadFull(lenBuf, 2);
    if !got {
      return;
    }
    assert lenBuf[..2] == s[0..2];
    packetSize := Uint16(lenBuf[..2]);
    if packetSize > buf.Length {
      return false, packetSize, true;
    }
    got := tcp.ReadFull(buf, packetSize);
  }

  function Least(a: nat, b: nat): nat { if a < b then a else b }

  /** How many bytes some datagrams carry. */
  function Volume(ds: seq<seq<byte>>): nat {
    if ds == [] then 0 else Volume(ds[..|ds| - 1]) + |ds[|ds| - 1]|
  }

  lemma VolumeMore(ds: seq<seq<byte>>, d: seq<byte>)
    ensures Volume(ds + [d]) == Volume(ds) + |d| && Volume([]) == 0
  {
    assert (ds + [d])[..|ds|] == ds;
  }

  /** Client tcpToUDP: what is forwarded to the UDP service are the non-empty datagrams parsed from the stream,
      as many as the socket accepts before it fails; the usage recorded is what they carry. */
  method ClientTcpToUdp(tcp: Stream, socketAccepts: nat, sniffer: bool)
    returns (forwarded: seq<seq<byte>>, oversize: bool, recorded: nat)
    modifies tcp
    ensures recorded == if sniffer then Volume(forwarded) else 0
    ensures IsPrefix(forwarded, Emitted(Parse(0, old(tcp.unread)).packets))
    ensures |forwarded| == Least(socketAccepts, |Emitted(Parse(0, old(tcp.unread)).packets)|)
    ensures oversize <==>
      |Emitted(Parse(0, old(tcp.unread)).packets)| <= socketAccepts && Parse(0, old(tcp.unread)).stop == Oversize
  {
    hide Parse, Emitted, HasPacket, ParsedSoFar, Volume;
    VolumeMore([], []);
    var buf, lenBuf := new byte[BUFFER_SIZE], new byte[2];
    forwarded, recorded := [], 0;
    ghost var s0, done: seq<Packet> := tcp.unread, [];
    ParsedNothing(0, s0);
    while true
      invariant fresh(buf) && fresh(lenBuf) && buf != lenBuf && buf.Length == BUFFER_SIZE && lenBuf.Length == 2
      invariant ParsedSoFar(0, s0, done, tcp.unread)
      invariant forwarded == Emitted(done) && |forwarded| <= socketAccepts
      invariant recorded == if sniffer then Volume(forwarded) else 0
      decreases |tcp.unread|
    {
      ghost var s := tcp.unread;
      ParsedBounds(0, s0, done, s);
      var got, packetSize, tooBig := ReadSized(tcp, lenBuf, buf);
      if !got {
        StopsOversize(s0, done, s);
        return forwarded, tooBig, recorded;
      }
      ghost var p := Packet(s[..0], buf[..packetSize]);
      ParsedNext(0, s0, done, s, p, tcp.unread);
      if packetSize > 0 {
        if |forwarded| == socketAccepts {
          return forwarded, false, recorded;
        }
        VolumeMore(forwarded, buf[..packetSize]);
        forwarded := forwarded + [buf[..packetSize]];
      }
      if sniffer {
        recorded := recorded + packetSize;
      }
      done := done + [p];
    }
  }

  lemma StopsOversize(s0: seq<byte>, done: seq<Packet>, s: seq<byte>)
    requires ParsedSoFar(0, s0, done, s) && !HasPacket(0, s)
    ensures Parse(0, s0).stop == Oversize <==> |s| >= 2 && Uint16(s[0..2]) > BUFFER_SIZE
  {
  }

  // ---------------------------------------------------------------- towards the server

  /** A datagram read from the UDP service and the instant its timestamp is taken. */
  datatype Reading = Reading(data: seq<byte>, millis: nat)

  function Stamped(rs: seq<Reading>): (ps: seq<Packet>)
    ensures |ps| == |rs| && forall i :: 0 <= i < |rs| ==> ps[i] == Packet(Stamp(rs[i].millis), rs[i].data)
  {
    seq(|rs|, i requires 0 <= i < |rs| => Packet(Stamp(rs[i].millis), rs[i].data))
  }

  /** Client udpToTCP: the six-byte header always leaves the packet within the preallocated buffer. */
  method ClientUdpToTcp(readings: seq<Reading>, tcp: Sink, sniffer: bool) returns (complete: bool, recorded: nat)
    requires tcp.written == [] && !tcp.failed && forall r :: r in readings ==> |r.data| <= BUFFER_SIZE - 6
    modifies tcp
    ensures complete <==> !tcp.failed
    ensures IsPrefix(tcp.written, Frames(Stamped(readings)))
    ensures complete ==> tcp.written == Frames(Stamped(readings))
    ensures forall p :: p in Stamped(readings) ==> |Frame(p)| <= 16384
    ensures recorded <= |tcp.written|
    ensures sniffer ==> |tcp.written| <= recorded + BUFFER_SIZE
    ensures sniffer && complete ==> recorded == |tcp.written|
    ensures !sniffer ==> recorded == 0
  {
    hide Frames;
    FramesOfNothing();
    recorded := 0;
    for i := 0 to |readings|
      invariant tcp.written == Frames(Stamped(readings)[..i]) && !tcp.failed
      invariant recorded == if sniffer then |tcp.written| else 0
    {
      var r := readings[i];
      var lastMillis := r.millis % WINDOW;
      var packetBuffer := PutUint32(lastMillis);
      packetBuffer := packetBuffer + PutUint16(|r.data|);
      packetBuffer := packetBuffer + r.data;
      assert |packetBuffer| <= BUFFER_SIZE;
      ghost var ps, before := Stamped(readings), tcp.written;
      assert packetBuffer == Frame(ps[i]);
      FramesExtend(ps, i);
      var totalWritten, ok := tcp.WriteAll(packetBuffer);
      if !ok {
        ghost var m :| totalWritten <= m <= |packetBuffer| && tcp.written == before + packetBuffer[..m];
        BrokenOff(ps, i, m);
        return false, recorded;
      }
      if sniffer {
        recorded := recorded + totalWritten;
      }
    }
    assert Stamped(readings)[..|readings|] == Stamped(readings);
    complete := true;
  }

  /** The timestamps the server reads off a stream, including one whose packet never arrives whole. */
  function StampsRead(s: seq<byte>): (stamps: seq<seq<byte>>)
    decreases |s|
    ensures forall stamp :: stamp in stamps ==> |stamp| == 4
  {
    if |s| < 4 then [] else
    if !HasPacket(4, s) then [s[..4]] else [s[..4]] + StampsRead(s[6 + Uint16(s[4..6])..])
  }

  lemma StampsStep(s: seq<byte>)
    ensures |s| < 4 ==> StampsRead(s) == []
    ensures |s| >= 4 && !HasPacket(4, s) ==> StampsRead(s) == [s[..4]]
    ensures |s| >= 4 && HasPacket(4, s) ==> StampsRead(s) == [s[..4]] + StampsRead(s[6 + Uint16(s[4..6])..])
  {
  }

  lemma AfterStamp(s: seq<byte>)
    requires |s| >= 4
    ensures HasPacket(4, s) <==> HasPacket(0, s[4..])
    ensures HasPacket(4, s) ==>
      var n := Uint16(s[4..6]);
      n == Uint16(s[4..][0..2]) && s[4..][2..2 + n] == s[6..6 + n] && s[4..][2 + n..] == s[6 + n..]
  {
    if |s| >= 6 {
      assert s[4..][0..2] == s[4..6];
    }
  }

  /** Some of the first n timestamps looked late when it was read. */
  ghost predicate Congests(stamps: seq<seq<byte>>, n: nat, clock: nat -> nat, rtt: nat)
    requires n <= |stamps| && forall stamp :: stamp in stamps ==> |stamp| == 4
  {
    exists i :: 0 <= i < n && LooksLate(stamps[i], clock(i), rtt)
  }

  lemma CongestsStep(stamps: seq<seq<byte>>, n: nat, clock: nat -> nat, rtt: nat)
    requires n < |stamps| && forall stamp :: stamp in stamps ==> |stamp| == 4
    ensures Congests(stamps, n + 1, clock, rtt) <==> Congests(stamps, n, clock, rtt) || LooksLate(stamps[n], clock(n), rtt)
  {
  }

  lemma CongestsNone(stamps: seq<seq<byte>>, clock: nat -> nat, rtt: nat)
    requires forall stamp :: stamp in stamps ==> |stamp| == 4
    ensures !Congests(stamps, 0, clock, rtt)
  {
  }

  /** The server's reader also accounts for the timestamps. */
  ghost predicate ReadSoFar(s0: seq<byte>, done: seq<Packet>, seen: seq<seq<byte>>, s: seq<byte>) {
    ParsedSoFar(4, s0, done, s) && StampsRead(s0) == seen + StampsRead(s)
  }

  lemma ReadNothing(s0: seq<byte>)
    ensures ReadSoFar(s0, [], [], s0) && Emitted([]) == []
  {
    ParsedNothing(4, s0);
  }

  lemma ReadBounds(s0: seq<byte>, done: seq<Packet>, seen: seq<seq<byte>>, s: seq<byte>)
    requires ReadSoFar(s0, done, seen, s)
    ensures IsPrefix(Emitted(done), Emitted(Parse(4, s0).packets)) && |seen| <= |StampsRead(s0)|
    ensures |s| >= 4 ==> |seen| < |StampsRead(s0)| && StampsRead(s0)[|seen|] == s[..4]
    ensures !HasPacket(4, s) ==>
      Parse(4, s0).packets == done && |StampsRead(s0)| == |seen| + if |s| < 4 then 0 else 1
  {
    hide Parse, StampsRead, Emitted, ParsedSoFar;
    StampsStep(s);
    ParsedBounds(4, s0, done, s);
  }

  lemma ReadNext(s0: seq<byte>, done: seq<Packet>, seen: seq<seq<byte>>, s: seq<byte>, p: Packet, rest: seq<byte>)
    requires ReadSoFar(s0, done, seen, s) && HasPacket(4, s)
    requires p == Packet(s[..4], s[6..6 + Uint16(s[4..6])]) && rest == s[6 + Uint16(s[4..6])..]
    ensures ReadSoFar(s0, done + [p], seen + [p.stamp], rest)
    ensures Emitted(done + [p]) == Emitted(done) + if p.data == [] then [] else [p.data]
    ensures IsPrefix(Emitted(done + [p]), Emitted(Parse(4, s0).packets))
  {
    hide Parse, StampsRead, Emitted, ParsedSoFar;
    StampsStep(s);
    ParsedNext(4, s0, done, s, p, rest);
    assert StampsRead(s0) == (seen + [p.stamp]) + StampsRead(rest);
  }

  /** Server tcpToUDP, reading one packet: first the timestamp, then length and data. (The flag is set in between;
      nothing this goroutine does in between depends on it.) */
  method ReadStamped(tcp: Stream, timestampBuf: array<byte>, lenBuf: array<byte>, buf: array<byte>)
    returns (stamped: bool, got: bool, packetSize: nat)
    requires lenBuf != buf && timestampBuf != lenBuf && timestampBuf != buf
    requires timestampBuf.Length == 4 && lenBuf.Length == 2 && buf.Length == BUFFER_SIZE
    modifies tcp, timestampBuf, lenBuf, buf
    ensures stamped <==> |old(tcp.unread)| >= 4
    ensures stamped ==> timestampBuf[..4] == old(tcp.unread)[..4]
    ensures got <==> HasPacket(4, old(tcp.unread))
    ensures got ==>
      && stamped && packetSize == Uint16(old(tcp.unread)[4..6]) && packetSize <= buf.Length
      && buf[..packetSize] == old(tcp.unread)[6..6 + packetSize] && tcp.unread == old(tcp.unread)[6 + packetSize..]
      && |tcp.unread| < old(|tcp.unread|)
  {
    ghost var s := tcp.unread;
    got, packetSize := false, 0;
    stamped := tcp.ReadFull(timestampBuf, 4);
    if stamped {
      AfterStamp(s);
      var oversize;
      got, packetSize, oversize := ReadSized(tcp, lenBuf, buf);
    }
  }

  /** How many packets are read before the socket refuses one, that one included. */
  function Handled(ps: seq<Packet>, accepts: nat): nat {
    if ps == [] then 0
    else if ps[0].data == [] then 1 + Handled(ps[1..], accepts)
    else if accepts == 0 then 1
    else 1 + Handled(ps[1..], accepts - 1)
  }

  lemma {:induction false} HandledAfter(done: seq<Packet>, p: Packet, rest: seq<Packet>, accepts: nat)
    requires |Emitted(done)| == accepts && p.data != []
    ensures Handled(done + [p] + rest, accepts) == |done| + 1
  {
    if done != [] {
      assert (done + [p] + rest)[1..] == done[1..] + [p] + rest;
      HandledAfter(done[1..], p, rest, accepts - One(done[0].data != []));
    }
  }

  lemma RefusedHere(s0: seq<byte>, done: seq<Packet>, seen: seq<seq<byte>>, p: Packet, rest: seq<byte>, accepts: nat)
    requires ReadSoFar(s0, done + [p], seen, rest) && |Emitted(done)| == accepts && p.data != []
    requires Emitted(done + [p]) == Emitted(done) + [p.data]
    ensures |Emitted(Parse(4, s0).packets)| > accepts && Handled(Parse(4, s0).packets, accepts) == |done| + 1
  {
    hide Parse, Emitted, Handled;
    HandledAfter(done, p, Parse(4, rest).packets, accepts);
    EmittedConcat(done + [p], Parse(4, rest).packets);
  }

  /** Server tcpToUDP: forwards like the client's reader, and flags the session as congested exactly when one of the
      timestamps read looks late at the moment it is read. */
  method ServerTcpToUdp(tcp: Stream, clock: nat -> nat, rtt: nat, socketAccepts: nat, sniffer: bool)
    returns (forwarded: seq<seq<byte>>, congested: bool, stampsSeen: nat, recorded: nat)
    modifies tcp
    ensures recorded == if sniffer then Volume(forwarded) else 0
    ensures IsPrefix(forwarded, Emitted(Parse(4, old(tcp.unread)).packets))
    ensures |forwarded| == Least(socketAccepts, |Emitted(Parse(4, old(tcp.unread)).packets)|)
    ensures stampsSeen == if |Emitted(Parse(4, old(tcp.unread)).packets)| <= socketAccepts then |StampsRead(old(tcp.unread))|
                          else Handled(Parse(4, old(tcp.unread)).packets, socketAccepts)
    ensures stampsSeen <= |StampsRead(old(tcp.unread))|
    ensures congested <==> Congests(StampsRead(old(tcp.unread)), stampsSeen, clock, rtt)
  {
    hide Parse, Emitted, StampsRead, LooksLate, Handled, Congests, HasPacket, ReadSoFar, Uint16, Volume;
    VolumeMore([], []);
    var buf, lenBuf, timestampBuf := new byte[BUFFER_SIZE], new byte[2], new byte[4];
    forwarded, congested, stampsSeen, recorded := [], false, 0, 0;
    ghost var s0 := tcp.unread;
    ghost var stamps := StampsRead(s0);
    ghost var done: seq<Packet>, seen: seq<seq<byte>> := [], [];
    ReadNothing(s0);
    CongestsNone(stamps, clock, rtt);
    while true
      invariant fresh(buf) && fresh(lenBuf) && fresh(timestampBuf)
      invariant buf != lenBuf && buf != timestampBuf && lenBuf != timestampBuf
      invariant buf.Length == BUFFER_SIZE && lenBuf.Length == 2 && timestampBuf.Length == 4
      invariant ReadSoFar(s0, done, seen, tcp.unread) && stampsSeen == |seen| == |done| <= |stamps|
      invariant forwarded == Emitted(done) && |forwarded| <= socketAccepts
      invariant recorded == if sniffer then Volume(forwarded) else 0
      invariant congested <==> Congests(stamps, stampsSeen, clock, rtt)
      decreases |tcp.unread|
    {
      ghost var s := tcp.unread;
      ReadBounds(s0, done, seen, s);
      var stamped, got, packetSize := ReadStamped(tcp, timestampBuf, lenBuf, buf);
      if !stamped {
        return;
      }
      assert timestampBuf[..4] == s[..4] == stamps[stampsSeen];
      CongestsStep(stamps, stampsSeen, clock, rtt);
      if LooksLate(timestampBuf[..4], clock(stampsSeen), rtt) {
        congested := true;
      }
      stampsSeen := stampsSeen + 1;
      if !got {
        return;
      }
      ghost var p := Packet(s[..4], buf[..packetSize]);
      ReadNext(s0, done, seen, s, p, tcp.unread);
      if packetSize > 0 {
        if |forwarded| == socketAccepts {
          RefusedHere(s0, done, seen + [p.stamp], p, tcp.unread, socketAccepts);
          return;
        }
        VolumeMore(forwarded, buf[..packetSize]);
        forwarded := forwarded + [buf[..packetSize]];
      }
      if sniffer {
        recorded := recorded + packetSize;
      }
      done, seen := done + [p], seen + [p.stamp];
    }
  }

  lemma StampsFirst(p: Packet, tail: seq<byte>)
    requires |p.stamp| == 4 && |p.data| <= BUFFER_SIZE
    ensures StampsRead(Frame(p) + tail) == [p.stamp] + StampsRead(tail)
  {
    hide Frame, StampsRead;
    FrameLayout(p, tail);
    Uint16RoundTrip(|p.data|);
    StampsStep(Frame(p) + tail);
  }

  /** The timestamps read from a cut stream are those of the packets sent, exactly as far as their four bytes lie before
      the cut. */
  lemma {:induction false} StampsOfCut(ps: seq<Packet>, cut: nat)
    requires Sendable(4, ps) && cut <= |Frames(ps)|
    ensures var stamps := StampsRead(Frames(ps)[..cut]);
            |stamps| <= |ps| && forall i :: 0 <= i < |stamps| ==> stamps[i] == ps[i].stamp
    ensures forall i: nat :: i < |ps| ==> (i < |StampsRead(Frames(ps)[..cut])| <==> |Frames(ps[..i])| + 4 <= cut)
  {
    hide StampsRead, Frame;
    if ps == [] {
      StampsStep([]);
    } else {
      var f, tail := Frame(ps[0]), Frames(ps[1..]);
      assert |f| >= 6 by { FrameLayout(ps[0], []); }
      if cut < |f| {
        assert Frames(ps)[..cut] == f[..cut];
        StampOfPartialFrame(ps[0], cut);
        forall i: nat | i < |ps| ensures i < |StampsRead(f[..cut])| <==> |Frames(ps[..i])| + 4 <= cut {
          if i > 0 {
            FramesOfPrefix(ps, i);
          }
        }
      } else {
        assert Frames(ps)[..cut] == f + tail[..cut - |f|];
        StampsFirst(ps[0], tail[..cut - |f|]);
        StampsOfCut(ps[1..], cut - |f|);
        forall i: nat | i < |ps| ensures i < |StampsRead(Frames(ps)[..cut])| <==> |Frames(ps[..i])| + 4 <= cut {
          if i > 0 {
            FramesOfPrefix(ps, i);
          }
        }
      }
    }
  }

  lemma StampOfPartialFrame(p: Packet, cut: nat)
    requires |p.stamp| == 4 && |p.data| <= BUFFER_SIZE && cut < |Frame(p)|
    ensures StampsRead(Frame(p)[..cut]) == if cut < 4 then [] else [p.stamp]
  {
    FrameLayout(p, []);
    assert Frame(p) + [] == Frame(p);
    Uint16RoundTrip(|p.data|);
    hide Frame, PutUint16, Uint16, StampsRead;
    var s := Frame(p)[..cut];
    StampsStep(s);
    if cut >= 4 {
      assert s[..4] == Frame(p)[..4];
    }
    if cut >= 6 {
      assert s[4..6] == Frame(p)[4..6];
    }
  }

  lemma StampIsOf(readings: seq<Reading>, arrived: seq<byte>, i: nat)
    requires forall r :: r in readings ==> |r.data| <= BUFFER_SIZE - 6
    requires IsPrefix(arrived, Frames(Stamped(readings))) && i < |StampsRead(arrived)|
    ensures i < |readings| && StampsRead(arrived)[i] == Stamp(readings[i].millis)
  {
    hide StampsRead, Frames, Stamp;
    StampsOfCut(Stamped(readings), |arrived|);
  }

  /** With a common clock the congestion flag has no false positives: a flagged session did carry a packet whose
      true age exceeded three RTTs, however the stream was cut. */
  lemma NoFalseCongestion(readings: seq<Reading>, arrived: seq<byte>, clock: nat -> nat, rtt: nat, seen: nat)
    requires forall r :: r in readings ==> |r.data| <= BUFFER_SIZE - 6
    requires forall k :: 0 <= k < |readings| ==> readings[k].millis <= clock(k)
    ensures var stamps := StampsRead(arrived);
            IsPrefix(arrived, Frames(Stamped(readings))) && seen <= |stamps| && Congests(stamps, seen, clock, rtt) ==>
              exists i :: 0 <= i < seen && i < |readings| && clock(i) - readings[i].millis > if rtt == 0 then 300 else 3 * rtt
  {
    hide StampsRead, Frames, Stamp, LooksLate, EffectiveRtt;
    if IsPrefix(arrived, Frames(Stamped(readings))) && seen <= |StampsRead(arrived)|
       && Congests(StampsRead(arrived), seen, clock, rtt) {
      var i :| 0 <= i < seen && LooksLate(StampsRead(arrived)[i], clock(i), rtt);
      StampIsOf(readings, arrived, i);
      LatenessTest(readings[i].millis, clock(i), rtt);
    }
  }

  /** And within one window it has no false negatives: a packet older than three RTTs whose timestamp was read is enough. */
  lemma LatePacketCongests(readings: seq<Reading>, arrived: seq<byte>, clock: nat -> nat, rtt: nat, seen: nat, i: nat)
    requires forall r :: r in readings ==> |r.data| <= BUFFER_SIZE - 6
    requires i < |readings| && readings[i].millis <= clock(i) && clock(i) / WINDOW == readings[i].millis / WINDOW
    requires clock(i) - readings[i].millis > if rtt == 0 then 300 else 3 * rtt
    ensures var stamps := StampsRead(arrived);
            IsPrefix(arrived, Frames(Stamped(readings))) && i < seen <= |stamps| ==> Congests(stamps, seen, clock, rtt)
  {
    hide StampsRead, Frames, Stamp, LooksLate, EffectiveRtt;
    if IsPrefix(arrived, Frames(Stamped(readings))) && i < seen <= |StampsRead(arrived)| {
      StampIsOf(readings, arrived, i);
      LatenessTest(readings[i].millis, clock(i), rtt);
    }
  }

  // ---------------------------------------------------------------- end to end

  function NonEmpty(ds: seq<seq<byte>>): seq<seq<byte>> {
    if ds == [] then [] else (if ds[0] == [] then [] else [ds[0]]) + NonEmpty(ds[1..])
  }

  lemma {:induction false} EmittedAreNonEmpty(ps: seq<Packet>, ds: seq<seq<byte>>)
    requires |ps| == |ds| && forall i :: 0 <= i < |ds| ==> ps[i].data == ds[i]
    ensures Emitted(ps) == NonEmpty(ds)
  {
    if ds != [] {
      EmittedAreNonEmpty(ps[1..], ds[1..]);
    }
  }

  /** Server to client: from whatever part of the tunnel's bytes arrives, the client forwards a prefix of the non-empty
      datagrams in order, all of them from the whole stream, and never meets an oversize packet. */
  lemma TowardsClient(ds: seq<seq<byte>>, arrived: seq<byte>)
    requires forall d :: d in ds ==> |d| <= 16382
    requires IsPrefix(arrived, Frames(Plain(Fitting(ds))))
    ensures IsPrefix(Emitted(Parse(0, arrived).packets), NonEmpty(ds)) && Parse(0, arrived).stop == Eof
    ensures arrived == Frames(Plain(Fitting(ds))) ==> Emitted(Parse(0, arrived).packets) == NonEmpty(ds)
  {
    hide Parse, Frames, Emitted, NonEmpty, Fitting;
    FittingAll(ds);
    DatagramsSurvive(0, Plain(ds), arrived);
    EmittedAreNonEmpty(Plain(ds), ds);
  }

  /** Client to server: the same with timestamps, for datagrams read into the client's smaller buffer. */
  lemma TowardsServer(readings: seq<Reading>, arrived: seq<byte>)
    requires forall r :: r in readings ==> |r.data| <= 16378
    requires IsPrefix(arrived, Frames(Stamped(readings)))
    ensures var ds := seq(|readings|, i requires 0 <= i < |readings| => readings[i].data);
            && IsPrefix(Emitted(Parse(4, arrived).packets), NonEmpty(ds)) && Parse(4, arrived).stop == Eof
            && (arrived == Frames(Stamped(readings)) ==> Emitted(Parse(4, arrived).packets) == NonEmpty(ds))
  {
    hide Parse, Frames, Emitted, NonEmpty;
    DatagramsSurvive(4, Stamped(readings), arrived);
    EmittedAreNonEmpty(Stamped(readings), seq(|readings|, i requires 0 <= i < |readings| => readings[i].data));
  }
}
