/** The raw copy loop of a paired tunnel: read a chunk, write it in as many writes as it takes, account for it. */
module CopyLoop {
  import opened Base
  import opened ByteStreams
  import Framing

  const CHUNK: nat := 16 * 1024

  /** What one read returns: some bytes, or an error such as end of stream, possibly with last bytes. */
  datatype ReadResult = Data(bytes: seq<byte>) | Failure(bytes: seq<byte>)

  /** The sending end of a connection; the script fixes every short read and the final error in advance. */
  class Source {
    var script: seq<ReadResult>
    ghost var delivered: seq<byte>
    ghost var withError: seq<byte> // bytes that came together with an error

    constructor (script: seq<ReadResult>)
      ensures this.script == script && delivered == [] && withError == []
    {
      this.script, delivered, withError := script, [], [];
    }

    /** net.Conn's Read: at most a buffer full; the rest of a longer piece stays for the next read. */
    method Read(buf: array<byte>) returns (r: nat, ok: bool)
      requires buf.Length > 0
      modifies this, buf
      ensures r <= buf.Length
      ensures ok ==> delivered == old(delivered) + buf[..r] && withError == old(withError) && Pieces(script) < old(Pieces(script))
      ensures ok ==> old(Offered(script)) == buf[..r] + Offered(script)
      ensures !ok ==> delivered == old(delivered) && withError == old(withError) + buf[..r] && script == old(script)
      ensures !ok ==> script == [] || script[0].Failure?
    {
      if script == [] {
        assert buf[..0] == [];
        return 0, false;
      }
      var bytes := script[0].bytes;
      r := if |bytes| < buf.Length then |bytes| else buf.Length;
      for i := 0 to r
        invariant script == old(script) && delivered == old(delivered) && withError == old(withError)
        invariant buf[..i] == bytes[..i]
      {
        buf[i] := bytes[i];
      }
      ok := script[0].Data?;
      if !ok {
        withError := withError + bytes[..r];
        return;
      }
      delivered := delivered + bytes[..r];
      if r < |bytes| {
        script := [Data(bytes[r..])] + script[1..];
      } else {
        script := script[1..];
      }
    }
  }

  /** How much reading a script still allows. */
  ghost function Pieces(script: seq<ReadResult>): nat {
    if script == [] then 0
    else 1 + (if script[0].Data? then |script[0].bytes| else 0) + Pieces(script[1..])
  }

  /** The bytes a script offers before its first error. */
  ghost function Offered(script: seq<ReadResult>): seq<byte> {
    if script == [] || script[0].Failure? then [] else script[0].bytes + Offered(script[1..])
  }

  lemma OfferedUp(script: seq<ReadResult>)
    requires script == [] || script[0].Failure?
    ensures Offered(script) == []
  {
  }

  /** transferData: for every pattern of short reads, short writes and errors, it goes on until the source reports an error
      or a write fails; the bytes written are a prefix of those the source offers before its first error, all of them
      unless a write failed; the usage recorded never exceeds the bytes written and lags them by at most one chunk. */
  method TransferData(from: Source, to: Sink, sniffer: bool) returns (recorded: nat, drained: bool)
    modifies from, to
    requires from.delivered == [] && to.written == [] && !to.failed
    ensures drained <==> !to.failed
    ensures drained ==> to.written == old(Offered(from.script)) == from.delivered
    ensures drained ==> from.script == [] || from.script[0].Failure?
    ensures Framing.IsPrefix(to.written, from.delivered) && Framing.IsPrefix(from.delivered, old(Offered(from.script)))
    ensures recorded <= |to.written|
    ensures sniffer ==> |to.written| <= recorded + 16384
    ensures sniffer && drained ==> recorded == |to.written|
    ensures !sniffer ==> recorded == 0
  {
    hide Offered, Pieces;
    var buf := new byte[CHUNK];
    recorded := 0;
    while true
      invariant fresh(buf)
      invariant to.written == from.delivered && !to.failed
      invariant old(Offered(from.script)) == from.delivered + Offered(from.script)
      invariant recorded == if sniffer then |to.written| else 0
      decreases Pieces(from.script)
    {
      var r, ok := from.Read(buf);
      if !ok {
        OfferedUp(from.script);
        return recorded, true;
      }
      ghost var before, chunk := to.written, buf[..r];
      var totalWritten, good := to.WriteAll(buf[..r]);
      if !good {
        ghost var m :| totalWritten <= m <= |chunk| && to.written == before + chunk[..m];
        assert from.delivered[..|before| + m] == before + chunk[..m];
        assert old(Offered(from.script)) == from.delivered + Offered(from.script);
        return recorded, false;
      }
      if sniffer {
        recorded := recorded + totalWritten;
      }
    }
  }
}
