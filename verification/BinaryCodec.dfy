/** The self-delimiting messages that precede raw tunnel bytes: a two-byte length, for the transport form
    a transport byte, and the message. */
module BinaryCodec {
  import opened Base
  import opened ByteStreams
  import opened Framing

  /** The bytes sent for a message; the length field holds what uint16 leaves of the length. */
  function Encode(message: seq<byte>, transport: Option<byte>): (bytes: seq<byte>) {
    PutUint16(|message|) + (if transport.Some? then [transport.value] else []) + message
  }

  datatype Received = Received(message: seq<byte>, transport: Option<byte>, rest: seq<byte>)

  /** What a receiver makes of a stream, given whether it expects a transport byte. */
  function Decode(tagged: bool, s: seq<byte>): Option<Received> {
    var header := if tagged then 3 else 2;
    if |s| < header then None else
    var n := Uint16(s[..2]);
    if |s| < header + n then None else
    Some(Received(s[header..header + n], if tagged then Some(s[2]) else None, s[header + n..]))
  }

  /** For every message, transport and following bytes, what arrives is the message cut to its length modulo 65536,
      and the cut-off bytes are taken for tunnel data. */
  lemma DecodeEncode(message: seq<byte>, transport: Option<byte>, rest: seq<byte>)
    ensures var n := |message| % 0x1_0000;
            Decode(transport.Some?, Encode(message, transport) + rest)
            == Some(Received(message[..n], transport, message[n..] + rest))
  {
    var s, n, header := Encode(message, transport) + rest, |message| % 0x1_0000, if transport.Some? then 3 else 2;
    Uint16RoundTrip(|message|);
    assert s[..2] == PutUint16(|message|);
    assert s[header..] == message + rest;
    assert s[header..header + n] == message[..n];
    assert s[header + n..] == message[n..] + rest;
  }

  /** A message, its transport and the raw bytes after it survive exactly when the length fits the header. */
  lemma MessageSurvives(message: seq<byte>, transport: Option<byte>, rest: seq<byte>)
    ensures Decode(transport.Some?, Encode(message, transport) + rest) == Some(Received(message, transport, rest))
            <==> |message| <= 65535
  {
    DecodeEncode(message, transport, rest);
  }

  /** A message cut short before its end is an error, never a shorter message. */
  lemma TruncatedMessageIsRejected(message: seq<byte>, transport: Option<byte>, cut: nat)
    requires |message| <= 65535 && cut < |Encode(message, transport)|
    ensures Decode(transport.Some?, Encode(message, transport)[..cut]) == None
  {
    Uint16RoundTrip(|message|);
    if cut >= 2 {
      assert Encode(message, transport)[..cut][..2] == PutUint16(|message|);
    }
  }

  /** Receiving again and again. */
  function DecodeAll(tagged: bool, s: seq<byte>): seq<(seq<byte>, Option<byte>)>
    decreases |s|
  {
    match Decode(tagged, s)
    case None => []
    case Some(r) => [(r.message, r.transport)] + DecodeAll(tagged, r.rest)
  }

  function EncodeAll(ms: seq<(seq<byte>, Option<byte>)>): seq<byte> {
    if ms == [] then [] else Encode(ms[0].0, ms[0].1) + EncodeAll(ms[1..])
  }

  /** Concatenated messages decode uniquely. */
  lemma {:induction false} DecodeConcatenation(tagged: bool, ms: seq<(seq<byte>, Option<byte>)>)
    requires forall m :: m in ms ==> |m.0| <= 65535 && m.1.Some? == tagged
    ensures DecodeAll(tagged, EncodeAll(ms)) == ms
  {
    if ms != [] {
      MessageSurvives(ms[0].0, ms[0].1, EncodeAll(ms[1..]));
      DecodeConcatenation(tagged, ms[1..]);
    }
  }

  /** SendBinaryTransportString and SendBinaryString: one write of header and message. */
  method Send(conn: Sink, message: seq<byte>, transport: Option<byte>) returns (ok: bool)
    modifies conn
    ensures IsPrefix(conn.written, old(conn.written) + Encode(message, transport))
    ensures IsPrefix(old(conn.written), conn.written)
    ensures ok <==> old(conn.script) != [] && old(conn.script)[0].ok
    ensures old(conn.script) != [] && old(conn.script)[0].most >= |message| + 3
            ==> conn.written == old(conn.written) + Encode(message, transport)
  {
    var headerSize := if transport.Some? then 3 else 2;
    var buf := new byte[headerSize + |message|];
    var length := PutUint16(|message|);
    buf[0], buf[1] := length[0], length[1];
    if transport.Some? {
      buf[2] := transport.value;
    }
    for i := 0 to |message|
      invariant unchanged(conn)
      invariant buf[..headerSize] == length + if transport.Some? then [transport.value] else []
      invariant forall k :: 0 <= k < i ==> buf[headerSize + k] == message[k]
    {
      buf[headerSize + i] := message[i];
    }
    assert buf[..] == Encode(message, transport);
    var n;
    n, ok := conn.Write(buf[..]);
    assert buf[..][..n] == Encode(message, transport)[..n];
    if n == buf.Length {
      assert buf[..][..n] == buf[..];
    }
  }

  /** ReceiveBinaryTransportString and ReceiveBinaryString: two exact reads; the bytes after the message stay unread. */
  method Receive(conn: Stream, tagged: bool) returns (received: Option<(seq<byte>, Option<byte>)>)
    modifies conn
    ensures match Decode(tagged, old(conn.unread))
            case None => received == None
            case Some(r) => received == Some((r.message, r.transport)) && conn.unread == r.rest
  {
    var headerSize := if tagged then 3 else 2;
    var lenBuf := new byte[headerSize];
    var ok := conn.ReadFull(lenBuf, headerSize);
    if !ok {
      return None;
    }
    ghost var s := old(conn.unread);
    assert lenBuf[..2] == s[..headerSize][..2] == s[..2];
    var messageLength := Uint16(lenBuf[..2]);
    var messageBuf := new byte[messageLength];
    ok := conn.ReadFull(messageBuf, messageLength);
    if !ok {
      return None;
    }
    assert messageBuf[..] == messageBuf[..messageLength] == s[headerSize..][..messageLength];
    assert s[headerSize..][..messageLength] == s[headerSize..headerSize + messageLength];
    assert s[headerSize..][messageLength..] == s[headerSize + messageLength..];
    return Some((messageBuf[..], if tagged then Some(lenBuf[2]) else None));
  }
}
