/** Which way the tuner goes: what one tick does, in terms of the readings alone. */
module TuningDirections {
  import opened Base
  import opened Tuning

  /** Some reading is high; a failed one counts as zero. */
  predicate HighLoad(m: Metrics) {
    OrZero(m.latency) > 200.0 || OrZero(m.cpu) > 80.0 || OrZero(m.mem) > 80.0 || OrZero(m.loss) > 2.0
  }

  /** Every reading is low, and there is traffic. */
  predicate LowLoad(m: Metrics) {
    OrZero(m.latency) < 70.0 && OrZero(m.cpu) < 60.0 && OrZero(m.mem) < 60.0 && OrZero(m.loss) < 1.0 && OrZero(m.throughput) > 0.0
  }

  /** A setting a step or more away goes to the target; a nearer one stays. */
  predicate MovesTo(before: int, after: int, target: int, step: nat) {
    after == if Distance(before, target) >= step then target else before
  }

  /** The settings that follow every tick, and those that follow only a measured latency. */
  predicate ServerMoves(s: ServerSettings, t: ServerSettings, measured: bool,
                        heartbeat: int, muxCon: int, frame: int, receive: int, stream: int)
  {
    && MovesTo(s.heartbeat, t.heartbeat, heartbeat, 15) && MovesTo(s.muxCon, t.muxCon, muxCon, 2)
    && (if measured then
          && MovesTo(s.frameSize, t.frameSize, frame, 8192)
          && MovesTo(s.receiveBuffer, t.receiveBuffer, receive, 1048576)
          && MovesTo(s.streamBuffer, t.streamBuffer, stream, 65536)
        else t.frameSize == s.frameSize && t.receiveBuffer == s.receiveBuffer && t.streamBuffer == s.streamBuffer)
  }

  /** Under a high load the server sends fewer heartbeats, keeps fewer streams per session and smaller buffers; under a low
      one the opposite; in between it returns to the middle. */
  lemma LoadMovesServer(c: Settings, m: Metrics)
    requires c.server.Some?
    ensures var s, t := c.server.value, Tick(c, m).server.value;
            && (HighLoad(m) ==> ServerMoves(s, t, m.latency.Some?, 120, 2, 16384, 1048576, 65536))
            && (!HighLoad(m) && LowLoad(m) ==> ServerMoves(s, t, m.latency.Some?, 10, 32, 131072, 16777216, 1048576))
            && (!HighLoad(m) && !LowLoad(m) ==> ServerMoves(s, t, m.latency.Some?, 40, 8, 32768, 4194304, 262144))
  {
  }

  function KeepaliveTarget(m: Metrics): int { if HighLoad(m) then 10 else if LowLoad(m) then 180 else 75 }

  /** With a measured latency the keepalives move when one of the ends configured is five seconds or more from 10 under a
      high load, 180 under a low one and 75 in between; then both go there. */
  lemma LoadMovesKeepalives(c: Settings, m: Metrics)
    ensures var target, d := KeepaliveTarget(m), Tick(c, m);
            var far := (c.server.Some? && Distance(c.server.value.keepalive, target) >= 5)
                       || (c.client.Some? && Distance(c.client.value.keepalive, target) >= 5);
            && (c.server.Some? ==>
                  d.server.Some? && d.server.value.keepalive == if m.latency.Some? && far then target else c.server.value.keepalive)
            && (c.client.Some? ==>
                  d.client.Some? && d.client.value.keepalive == if m.latency.Some? && far then target else c.client.value.keepalive)
  {
  }

  /** A hot machine shrinks the pool by one above 1, a cool one grows it by one below 64, any other leaves it. */
  lemma LoadMovesPool(c: Settings, m: Metrics)
    requires c.client.Some?
    ensures var p, q := c.client.value.connectionPool, Tick(c, m).client.value.connectionPool;
            var hot := OrZero(m.cpu) > 85.0 || OrZero(m.mem) > 85.0;
            var cool := OrZero(m.cpu) < 50.0 && OrZero(m.mem) < 50.0;
            && (hot && p > 1 ==> q == p - 1) && (cool && p < 64 ==> q == p + 1)
            && (q != p ==> (hot && p > 1) || (cool && p < 64))
  {
  }

  /** Scarce memory halves the channel size above 256, plenty doubles it below 8192, anything else leaves it. */
  lemma MemoryMovesChannelSize(c: Settings, m: Metrics)
    requires c.server.Some?
    ensures var n, k := c.server.value.channelSize, Tick(c, m).server.value.channelSize;
            && (OrZero(m.mem) > 80.0 && n > 256 ==> k + k <= n <= k + k + 1)
            && (OrZero(m.mem) < 40.0 && n < 8192 ==> k == n + n)
            && (k != n ==> (OrZero(m.mem) > 80.0 && n > 256) || (OrZero(m.mem) < 40.0 && n < 8192))
  {
  }

  /** Every reading of the second measurement is at least as high, with no more traffic. */
  predicate Heavier(m: Metrics, h: Metrics) {
    && OrZero(m.latency) <= OrZero(h.latency) && OrZero(m.cpu) <= OrZero(h.cpu) && OrZero(m.mem) <= OrZero(h.mem)
    && OrZero(m.loss) <= OrZero(h.loss) && OrZero(h.throughput) <= OrZero(m.throughput)
    && m.latency.Some? == h.latency.Some?
  }

  /** More load never means more streams, larger buffers, more frequent heartbeats or a larger pool. */
  lemma TickIsMonotone(c: Settings, m: Metrics, h: Metrics)
    requires Heavier(m, h)
    ensures c.server.Some? ==>
      var s, t := Tick(c, m).server.value, Tick(c, h).server.value;
      && t.muxCon <= s.muxCon && t.heartbeat >= s.heartbeat && t.frameSize <= s.frameSize
      && t.receiveBuffer <= s.receiveBuffer && t.streamBuffer <= s.streamBuffer
    ensures c.client.Some? ==> Tick(c, h).client.value.connectionPool <= Tick(c, m).client.value.connectionPool
  {
  }
}
