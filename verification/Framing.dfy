/** UDP datagrams over a TCP tunnel. Towards the client a frame is a two-byte length and the data;
    towards the server a four-byte timestamp comes first. Both are packets with a stamp of fixed size. */
module Framing {
  import opened Base

  const BUFFER_SIZE: nat := 16 * 1024
  const WINDOW: nat := 10 * 60 * 1000 // ten minutes, in milliseconds

  ghost predicate IsPrefix<T>(a: seq<T>, b: seq<T>) {
    |a| <= |b| && a == b[..|a|]
  }

  /** binary.BigEndian.PutUint16 of a Go int converted to uint16. */
  function PutUint16(n: nat): (bytes: seq<byte>)
    ensures |bytes| == 2
  {
    [((n / 256) % 256) as byte, (n % 256) as byte]
  }

  function Uint16(bytes: seq<byte>): (n: nat)
    requires |bytes| == 2
    ensures n < 0x1_0000
  {
    bytes[0] as nat * 256 + bytes[1] as nat
  }

  function PutUint32(n: nat): (bytes: seq<byte>)
    ensures |bytes| == 4
  {
    PutUint16((n / 0x1_0000) % 0x1_0000) + PutUint16(n % 0x1_0000)
  }

  function Uint32(bytes: seq<byte>): (n: nat)
    requires |bytes| == 4
  {
    Uint16(bytes[..2]) * 0x1_0000 + Uint16(bytes[2..])
  }

  lemma TwoDigits(n: nat)
    ensures (n / 256) % 256 * 256 + n % 256 == n % 0x1_0000
  {
    var q := n / 256;
    var r := q % 256 * 256 + n % 256;
    assert n == 256 * q + n % 256 && q == 256 * (q / 256) + q % 256;
    assert n == 0x1_0000 * (q / 256) + r && 0 <= r < 0x1_0000;
    assert n == 0x1_0000 * (n / 0x1_0000) + n % 0x1_0000;
  }

  /** The two-byte length is what the conversion to uint16 leaves of it. */
  lemma Uint16RoundTrip(n: nat)
    ensures Uint16(PutUint16(n)) == n % 0x1_0000
  {
    TwoDigits(n);
  }

  lemma Uint32RoundTrip(n: nat)
    requires n < 0x1_0000_0000
    ensures Uint32(PutUint32(n)) == n
  {
    Uint16RoundTrip((n / 0x1_0000) % 0x1_0000);
    Uint16RoundTrip(n % 0x1_0000);
    assert n / 0x1_0000 < 0x1_0000;
  }

  datatype Packet = Packet(stamp: seq<byte>, data: seq<byte>)

  function Frame(p: Packet): seq<byte> {
    p.stamp + PutUint16(|p.data|) + p.data
  }

  /** Datagrams as packets without a stamp. */
  function Plain(ds: seq<seq<byte>>): (ps: seq<Packet>)
    ensures |ps| == |ds| && forall i :: 0 <= i < |ds| ==> ps[i] == Packet([], ds[i])
  {
    seq(|ds|, i requires 0 <= i < |ds| => Packet([], ds[i]))
  }

  function Frames(ps: seq<Packet>): seq<byte> {
    if ps == [] then [] else Frame(ps[0]) + Frames(ps[1..])
  }

  lemma {:induction false} FramesConcat(ps: seq<Packet>, qs: seq<Packet>)
    ensures Frames(ps + qs) == Frames(ps) + Frames(qs)
  {
    if ps == [] {
      assert ps + qs == qs;
    } else {
      assert (ps + qs)[1..] == ps[1..] + qs;
      FramesConcat(ps[1..], qs);
    }
  }

  lemma FramesAppend(ps: seq<Packet>, p: Packet)
    ensures Frames(ps + [p]) == Frames(ps) + Frame(p)
  {
    FramesConcat(ps, [p]);
    assert Frames([p]) == Frame(p) + Frames([]);
  }

  lemma FramesOfNothing()
    ensures Frames([]) == []
  {
  }

  lemma FramesExtend(ps: seq<Packet>, i: nat)
    requires i < |ps|
    ensures Frames(ps[..i + 1]) == Frames(ps[..i]) + Frame(ps[i])
  {
    assert ps[..i + 1] == ps[..i] + [ps[i]];
    FramesAppend(ps[..i], ps[i]);
  }

  /** Breaking off inside a frame leaves a prefix of the whole stream. */
  lemma BrokenOff(ps: seq<Packet>, i: nat, m: nat)
    requires i < |ps| && m <= |Frame(ps[i])|
    ensures IsPrefix(Frames(ps[..i]) + Frame(ps[i])[..m], Frames(ps))
  {
    hide Frames, Frame;
    FramesExtend(ps, i);
    assert ps == ps[..i + 1] + ps[i + 1..];
    FramesConcat(ps[..i + 1], ps[i + 1..]);
    var a, f, b := Frames(ps[..i]), Frame(ps[i]), Frames(ps[i + 1..]);
    assert Frames(ps) == a + f + b;
    assert (a + f + b)[..|a| + m] == a + f[..m];
  }

  /** Why a reader stops. */
  datatype Stop = Eof | Oversize

  datatype Parsed = Parsed(packets: seq<Packet>, stop: Stop)

  /** What a reader of frames with stamps of a given size makes of a stream. */
  function Parse(stampSize: nat, s: seq<byte>): Parsed
    decreases |s|
  {
    if |s| < stampSize + 2 then Parsed([], Eof) else
    var n := Uint16(s[stampSize..stampSize + 2]);
    if n > BUFFER_SIZE then Parsed([], Oversize) else
    if |s| < stampSize + 2 + n then Parsed([], Eof) else
    var rest := Parse(stampSize, s[stampSize + 2 + n..]);
    Parsed([Packet(s[..stampSize], s[stampSize + 2..stampSize + 2 + n])] + rest.packets, rest.stop)
  }

  /** A reader goes on exactly while a whole packet of acceptable size is there. */
  predicate HasPacket(stampSize: nat, s: seq<byte>) {
    |s| >= stampSize + 2 && Uint16(s[stampSize..stampSize + 2]) <= BUFFER_SIZE
    && |s| >= stampSize + 2 + Uint16(s[stampSize..stampSize + 2])
  }

  lemma ParseStep(stampSize: nat, s: seq<byte>)
    ensures !HasPacket(stampSize, s) ==> Parse(stampSize, s).packets == []
    ensures HasPacket(stampSize, s) ==>
      var n := Uint16(s[stampSize..stampSize + 2]);
      var rest := Parse(stampSize, s[stampSize + 2 + n..]);
      Parse(stampSize, s) == Parsed([Packet(s[..stampSize], s[stampSize + 2..stampSize + 2 + n])] + rest.packets, rest.stop)
  {
  }

  lemma ParseOversize(stampSize: nat, s: seq<byte>)
    requires |s| >= stampSize + 2 && Uint16(s[stampSize..stampSize + 2]) > BUFFER_SIZE
    ensures Parse(stampSize, s).stop == Oversize
  {
  }

  /** The datagrams a reader forwards: its write loop sends nothing for an empty one. */
  function Emitted(ps: seq<Packet>): seq<seq<byte>> {
    if ps == [] then []
    else (if ps[0].data == [] then [] else [ps[0].data]) + Emitted(ps[1..])
  }

  lemma {:induction false} EmittedConcat(ps: seq<Packet>, qs: seq<Packet>)
    ensures Emitted(ps + qs) == Emitted(ps) + Emitted(qs)
  {
    if ps == [] {
      assert ps + qs == qs;
    } else {
      assert (ps + qs)[1..] == ps[1..] + qs;
      EmittedConcat(ps[1..], qs);
    }
  }

  lemma EmittedAppend(ps: seq<Packet>, p: Packet)
    ensures Emitted(ps + [p]) == Emitted(ps) + if p.data == [] then [] else [p.data]
  {
    EmittedConcat(ps, [p]);
    assert [p][1..] == [];
  }

  ghost predicate Sendable(stampSize: nat, ps: seq<Packet>) {
    forall p :: p in ps ==> |p.stamp| == stampSize && |p.data| <= BUFFER_SIZE
  }

  lemma FrameLayout(p: Packet, tail: seq<byte>)
    ensures var s, z, n := Frame(p) + tail, |p.stamp|, |p.data|;
            && |s| == z + 2 + n + |tail|
            && s[..z] == p.stamp && s[z..z + 2] == PutUint16(n)
            && s[z + 2..z + 2 + n] == p.data && s[z + 2 + n..] == tail
  {
  }

  lemma ParseFirst(p: Packet, tail: seq<byte>)
    requires |p.data| <= BUFFER_SIZE
    ensures Parse(|p.stamp|, Frame(p) + tail)
            == Parsed([p] + Parse(|p.stamp|, tail).packets, Parse(|p.stamp|, tail).stop)
  {
    FrameLayout(p, tail);
    Uint16RoundTrip(|p.data|);
  }

  /** The cut lies after the first `whole` frames and before the end of the next one. */
  ghost predicate CutAfter(ps: seq<Packet>, cut: nat, whole: nat) {
    && whole <= |ps| && |Frames(ps[..whole])| <= cut
    && (whole < |ps| ==> cut < |Frames(ps[..whole + 1])|)
  }

  lemma CutFurther(ps: seq<Packet>, cut: nat, rest: nat)
    requires ps != [] && CutAfter(ps[1..], cut, rest)
    ensures CutAfter(ps, |Frame(ps[0])| + cut, rest + 1)
  {
    FramesOfPrefix(ps, rest + 1);
    if rest + 1 < |ps| {
      FramesOfPrefix(ps, rest + 2);
    }
  }

  lemma ParseFurther(ps: seq<Packet>, cut: nat, rest: nat)
    requires ps != [] && |ps[0].data| <= BUFFER_SIZE && cut <= |Frames(ps[1..])| && rest < |ps|
    requires Parse(|ps[0].stamp|, Frames(ps[1..])[..cut]) == Parsed(ps[1..][..rest], Eof)
    ensures Parse(|ps[0].stamp|, Frames(ps)[..|Frame(ps[0])| + cut]) == Parsed(ps[..rest + 1], Eof)
  {
    hide Parse, Frame;
    var f, tail := Frame(ps[0]), Frames(ps[1..])[..cut];
    assert Frames(ps)[..|f| + cut] == f + tail;
    ParseFirst(ps[0], tail);
    assert ps[..rest + 1] == [ps[0]] + ps[1..][..rest];
  }

  lemma ParseNothing(stampSize: nat)
    ensures Parse(stampSize, []) == Parsed([], Eof)
  {
  }

  lemma CutInFirst(stampSize: nat, ps: seq<Packet>, cut: nat)
    requires ps != [] && Sendable(stampSize, ps) && cut < |Frame(ps[0])|
    ensures CutAfter(ps, cut, 0) && Parse(stampSize, Frames(ps)[..cut]) == Parsed([], Eof)
  {
    assert Frames(ps)[..cut] == Frame(ps[0])[..cut];
    FramesOfPrefix(ps, 1);
    ParsePartialFrame(stampSize, ps[0], cut);
  }

  /** A stream cut at any byte yields exactly the packets whose frames lie before the cut. */
  lemma {:induction false} ParseCut(stampSize: nat, ps: seq<Packet>, cut: nat) returns (whole: nat)
    requires Sendable(stampSize, ps) && cut <= |Frames(ps)|
    ensures CutAfter(ps, cut, whole)
    ensures Parse(stampSize, Frames(ps)[..cut]) == Parsed(ps[..whole], Eof)
  {
    hide Frame, Parse;
    whole := 0;
    if ps == [] {
      ParseNothing(stampSize);
    } else {
      var length := |Frame(ps[0])|;
      if cut < length {
        CutInFirst(stampSize, ps, cut);
      } else {
        var rest := ParseCut(stampSize, ps[1..], cut - length);
        CutFurther(ps, cut - length, rest);
        ParseFurther(ps, cut - length, rest);
        whole := rest + 1;
      }
    }
  }

  lemma FramesOfPrefix(ps: seq<Packet>, k: nat)
    requires 1 <= k <= |ps|
    ensures Frames(ps[..k]) == Frame(ps[0]) + Frames(ps[1..][..k - 1])
  {
    assert ps[..k][1..] == ps[1..][..k - 1];
  }

  lemma PrefixIsShorter(ps: seq<Packet>, k: nat)
    requires k <= |ps|
    ensures |Frames(ps[..k])| <= |Frames(ps)|
  {
    assert ps == ps[..k] + ps[k..];
    FramesConcat(ps[..k], ps[k..]);
  }

  lemma ParsePartialFrame(stampSize: nat, p: Packet, cut: nat)
    requires |p.stamp| == stampSize && |p.data| <= BUFFER_SIZE && cut < |Frame(p)|
    ensures Parse(stampSize, Frame(p)[..cut]) == Parsed([], Eof)
  {
    hide Uint16, PutUint16;
    if cut >= stampSize + 2 {
      Uint16RoundTrip(|p.data|);
      var s := Frame(p) + [];
      FrameLayout(p, []);
      assert Frame(p)[..cut][stampSize..stampSize + 2] == s[stampSize..stampSize + 2];
    }
  }

  /** Uncut streams between matched peers: every packet arrives, in order, and is never rejected as oversize. */
  lemma ParseWhole(stampSize: nat, ps: seq<Packet>)
    requires Sendable(stampSize, ps)
    ensures Parse(stampSize, Frames(ps)) == Parsed(ps, Eof)
  {
    var whole := ParseCut(stampSize, ps, |Frames(ps)|);
    assert Frames(ps)[..|Frames(ps)|] == Frames(ps);
    if whole < |ps| {
      PrefixIsShorter(ps, whole + 1);
      assert false;
    }
    assert ps[..|ps|] == ps;
  }

  /** Whatever part of the frames arrives, the datagrams forwarded are the non-empty ones among a prefix of those
      sent, and all of them when everything arrives; a matched peer never takes the oversize branch. */
  lemma DatagramsSurvive(stampSize: nat, ps: seq<Packet>, arrived: seq<byte>)
    requires Sendable(stampSize, ps) && IsPrefix(arrived, Frames(ps))
    ensures IsPrefix(Emitted(Parse(stampSize, arrived).packets), Emitted(ps))
    ensures arrived == Frames(ps) ==> Emitted(Parse(stampSize, arrived).packets) == Emitted(ps)
    ensures Parse(stampSize, arrived).stop == Eof
  {
    hide Parse, Frames, Emitted;
    var whole := ParseCut(stampSize, ps, |arrived|);
    assert arrived == Frames(ps)[..|arrived|];
    assert ps == ps[..whole] + ps[whole..];
    EmittedConcat(ps[..whole], ps[whole..]);
    if arrived == Frames(ps) {
      ParseWhole(stampSize, ps);
    }
  }
}
