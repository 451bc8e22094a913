/** Connections as byte streams: a stream to read from, and a sink whose writes may be short or fail. */
module ByteStreams {
  import opened Base

  /** The unread bytes of a connection whose peer has stopped writing. */
  class Stream {
    var unread: seq<byte>

    constructor (bytes: seq<byte>)
      ensures unread == bytes
    {
      unread := bytes;
    }

    /** io.ReadFull: fill the first n bytes of the buffer, or fail after draining what is left. */
    method ReadFull(buf: array<byte>, n: nat) returns (ok: bool)
      requires n <= buf.Length
      modifies this, buf
      ensures ok <==> n <= old(|unread|)
      ensures ok ==> buf[..n] == old(unread)[..n] && unread == old(unread)[n..]
      ensures !ok ==> unread == []
      ensures buf[n..] == old(buf[n..])
    {
      ok := n <= |unread|;
      var m := if ok then n else |unread|;
      for i := 0 to m
        invariant unread == old(unread)
        invariant forall k :: 0 <= k < i ==> buf[k] == unread[k]
        invariant forall k :: i <= k < buf.Length ==> buf[k] == old(buf[k])
      {
        buf[i] := unread[i];
      }
      unread := unread[m..];
    }
  }

  /** What one write does: how many bytes it takes at most, and whether it reports success. */
  datatype WriteResult = WriteResult(most: nat, ok: bool)

  /** The receiving end of a connection; the script fixes every short write and failure in advance. */
  class Sink {
    var written: seq<byte>
    var script: seq<WriteResult>
    ghost var failed: bool // some write has reported an error

    constructor (script: seq<WriteResult>)
      ensures written == [] && this.script == script && !failed
    {
      written, this.script, failed := [], script, false;
    }

    /** net.Conn's Write; once the script runs out the connection is closed. */
    method Write(bytes: seq<byte>) returns (n: nat, ok: bool)
      modifies this
      ensures n <= |bytes| && written == old(written) + bytes[..n]
      ensures failed <==> old(failed) || !ok
      ensures old(script) == [] ==> !ok && n == 0 && script == []
      ensures old(script) != [] ==>
        && script == old(script)[1..] && ok == old(script)[0].ok
        && n == if old(script)[0].most < |bytes| then old(script)[0].most else |bytes|
    {
      if script == [] {
        assert bytes[..0] == [];
        failed := true;
        return 0, false;
      }
      n := if script[0].most < |bytes| then script[0].most else |bytes|;
      ok := script[0].ok;
      written := written + bytes[..n];
      script := script[1..];
      failed := failed || !ok;
    }

    /** The callers' loop around short writes. */
    method WriteAll(bytes: seq<byte>) returns (totalWritten: nat, ok: bool)
      modifies this
      ensures totalWritten <= |bytes|
      ensures exists m :: totalWritten <= m <= |bytes| && written == old(written) + bytes[..m]
      ensures ok ==> totalWritten == |bytes| && written == old(written) + bytes
      ensures failed <==> old(failed) || !ok
      ensures |script| <= old(|script|)
    {
      totalWritten := 0;
      assert written == old(written) + bytes[..0];
      while totalWritten < |bytes|
        invariant totalWritten <= |bytes|
        invariant written == old(written) + bytes[..totalWritten]
        invariant |script| <= old(|script|) && failed == old(failed)
        decreases |script|, |bytes| - totalWritten
      {
        ghost var before := written;
        var w, good := Write(bytes[totalWritten..]);
        assert bytes[totalWritten..][..w] == bytes[totalWritten..totalWritten + w];
        assert bytes[..totalWritten + w] == bytes[..totalWritten] + bytes[totalWritten..totalWritten + w];
        if !good {
          assert written == old(written) + bytes[..totalWritten + w];
          return totalWritten, false;
        }
        totalWritten := totalWritten + w;
      }
      assert bytes[..totalWritten] == bytes;
      ok := true;
    }
  }
}
