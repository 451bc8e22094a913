/** The auto-tuner's control laws. Every tick measures the machine and the network and moves each setting towards one of
    three targets, but only when it is at least a step away. Floating point values are reals. */
module Tuning {
  import opened Base

  /** Nothing where a measurement failed. */
  datatype Metrics = Metrics(cpu: Option<real>, mem: Option<real>, latency: Option<real>, loss: Option<real>, throughput: Option<real>)

  datatype Direction = Down | Up | Steady

  /** The three targets of a setting and the distance at which it moves. */
  datatype Parameter = Parameter(down: int, up: int, steady: int, step: nat)

  const KEEPALIVE := Parameter(10, 180, 75, 5)
  const FRAME := Parameter(16 * 1024, 128 * 1024, 32 * 1024, 8 * 1024)
  const RECEIVE := Parameter(1024 * 1024, 16 * 1024 * 1024, 4 * 1024 * 1024, 1024 * 1024)
  const STREAM := Parameter(64 * 1024, 1024 * 1024, 256 * 1024, 64 * 1024)
  const HEARTBEAT := Parameter(120, 10, 40, 15)
  const MUXCON := Parameter(2, 32, 8, 2)

  datatype ServerSettings = ServerSettings(keepalive: int, channelSize: int, frameSize: int, receiveBuffer: int,
                                           streamBuffer: int, heartbeat: int, muxCon: int)

  datatype ClientSettings = ClientSettings(keepalive: int, connectionPool: int)

  datatype Settings = Settings(server: Option<ServerSettings>, client: Option<ClientSettings>)

  function OrZero(r: Option<real>): real { if r.Some? then r.value else 0.0 }

  /** A failed measurement reads as zero; load and loss decide before idleness does. */
  function DirectionOf(m: Metrics): Direction {
    var latency, cpu, mem, loss := OrZero(m.latency), OrZero(m.cpu), OrZero(m.mem), OrZero(m.loss);
    if latency > 200.0 || cpu > 80.0 || mem > 80.0 || loss > 2.0 then Down
    else if latency < 70.0 && cpu < 60.0 && mem < 60.0 && loss < 1.0 && OrZero(m.throughput) > 0.0 then Up
    else Steady
  }

  function Target(p: Parameter, d: Direction): int {
    match d case Down => p.down case Up => p.up case Steady => p.steady
  }

  predicate Near(v: int, p: Parameter, d: Direction) { Distance(v, Target(p, d)) < p.step }

  function Follow(v: int, p: Parameter, d: Direction): int { if Near(v, p, d) then v else Target(p, d) }

  /** When both ends are configured and one of them moves, the other moves with it. */
  function NextKeepalive(own: int, peer: Option<int>, d: Direction): int {
    if Near(own, KEEPALIVE, d) && (peer.None? || Near(peer.value, KEEPALIVE, d)) then own else Target(KEEPALIVE, d)
  }

  function NextPool(pool: int, cpu: real, mem: real): int {
    if cpu > 85.0 || mem > 85.0 then (if pool > 1 then pool - 1 else pool)
    else if cpu < 50.0 && mem < 50.0 && pool < 64 then pool + 1
    else pool
  }

  function NextChannelSize(size: int, mem: real): int {
    if mem > 80.0 then (if size > 256 then size / 2 else size)
    else if mem < 40.0 && size < 8192 then size * 2
    else size
  }

  function TickServer(s: ServerSettings, peer: Option<int>, m: Metrics): ServerSettings {
    var d := DirectionOf(m);
    var measured := m.latency.Some?;
    ServerSettings(
      if measured then NextKeepalive(s.keepalive, peer, d) else s.keepalive,
      NextChannelSize(s.channelSize, OrZero(m.mem)),
      if measured then Follow(s.frameSize, FRAME, d) else s.frameSize,
      if measured then Follow(s.receiveBuffer, RECEIVE, d) else s.receiveBuffer,
      if measured then Follow(s.streamBuffer, STREAM, d) else s.streamBuffer,
      Follow(s.heartbeat, HEARTBEAT, d),
      Follow(s.muxCon, MUXCON, d))
  }

  function TickClient(c: ClientSettings, peer: Option<int>, m: Metrics): ClientSettings {
    ClientSettings(
      if m.latency.Some? then NextKeepalive(c.keepalive, peer, DirectionOf(m)) else c.keepalive,
      NextPool(c.connectionPool, OrZero(m.cpu), OrZero(m.mem)))
  }

  function ServerKeepalive(c: Settings): Option<int> {
    if c.server.Some? then Some(c.server.value.keepalive) else None
  }

  function ClientKeepalive(c: Settings): Option<int> {
    if c.client.Some? then Some(c.client.value.keepalive) else None
  }

  function Tick(c: Settings, m: Metrics): Settings {
    Settings(if c.server.Some? then Some(TickServer(c.server.value, ClientKeepalive(c), m)) else None,
             if c.client.Some? then Some(TickClient(c.client.value, ServerKeepalive(c), m)) else None)
  }

  function Run(c: Settings, ms: seq<Metrics>): (r: Settings)
    ensures r.server.Some? == c.server.Some? && r.client.Some? == c.client.Some?
  {
    if ms == [] then c else Tick(Run(c, ms[..|ms| - 1]), ms[|ms| - 1])
  }

  // ---------------------------------------------------------------- what a run comes to

  function Directions(ms: seq<Metrics>): seq<Direction> {
    if ms == [] then [] else Directions(ms[..|ms| - 1]) + [DirectionOf(ms[|ms| - 1])]
  }

  /** The directions of the ticks whose latency measurement succeeded. */
  function Measured(ms: seq<Metrics>): seq<Direction> {
    if ms == [] then [] else
    Measured(ms[..|ms| - 1]) + if ms[|ms| - 1].latency.Some? then [DirectionOf(ms[|ms| - 1])] else []
  }

  ghost predicate AlwaysNear(v: int, p: Parameter, ds: seq<Direction>) {
    forall i {:trigger ds[i]} :: 0 <= i < |ds| ==> Near(v, p, ds[i])
  }

  /** A followed setting never leaves its first value while every target is within a step of it; otherwise it is
      exactly at the last target. */
  ghost function Settled(v: int, p: Parameter, ds: seq<Direction>): int {
    if AlwaysNear(v, p, ds) then v else Target(p, ds[|ds| - 1])
  }

  /** No two targets lie within a step of each other. */
  predicate Spread(p: Parameter) {
    p.step > 0 && Distance(p.down, p.up) >= p.step && Distance(p.down, p.steady) >= p.step && Distance(p.up, p.steady) >= p.step
  }

  lemma AlwaysNearMore(v: int, p: Parameter, ds: seq<Direction>, d: Direction)
    ensures AlwaysNear(v, p, ds + [d]) <==> AlwaysNear(v, p, ds) && Near(v, p, d)
  {
    var more := ds + [d];
    if AlwaysNear(v, p, more) {
      assert more[|ds|] == d;
      forall i | 0 <= i < |ds| ensures Near(v, p, ds[i]) {
        assert more[i] == ds[i];
      }
    }
  }

  lemma FollowSettles(v: int, p: Parameter, ds: seq<Direction>, d: Direction)
    requires Spread(p)
    ensures Follow(Settled(v, p, ds), p, d) == Settled(v, p, ds + [d])
  {
    AlwaysNearMore(v, p, ds, d);
  }

  /** Over every run each followed server setting is where its first value and the directions put it. Heartbeat and
      streams per session follow every tick, the buffers only ticks with a latency. */
  lemma {:induction false} RunSettles(c: Settings, ms: seq<Metrics>)
    requires c.server.Some?
    ensures var s, t := c.server.value, Run(c, ms).server.value;
            && t.heartbeat == Settled(s.heartbeat, HEARTBEAT, Directions(ms))
            && t.muxCon == Settled(s.muxCon, MUXCON, Directions(ms))
            && t.frameSize == Settled(s.frameSize, FRAME, Measured(ms))
            && t.receiveBuffer == Settled(s.receiveBuffer, RECEIVE, Measured(ms))
            && t.streamBuffer == Settled(s.streamBuffer, STREAM, Measured(ms))
  {
    hide Follow, Settled, DirectionOf, NextKeepalive, NextChannelSize;
    var s := c.server.value;
    if ms == [] {
      assert forall v, p :: Settled(v, p, []) == v by { NothingSettles(); }
    } else {
      var before, d := ms[..|ms| - 1], DirectionOf(ms[|ms| - 1]);
      RunSettles(c, before);
      assert Measured(ms) == if ms[|ms| - 1].latency.Some? then Measured(before) + [d] else Measured(before);
      FollowSettles(s.heartbeat, HEARTBEAT, Directions(before), d);
      FollowSettles(s.muxCon, MUXCON, Directions(before), d);
      FollowSettles(s.frameSize, FRAME, Measured(before), d);
      FollowSettles(s.receiveBuffer, RECEIVE, Measured(before), d);
      FollowSettles(s.streamBuffer, STREAM, Measured(before), d);
    }
  }

  lemma NothingSettles()
    ensures forall v, p :: Settled(v, p, []) == v
  {
  }

  // ---------------------------------------------------------------- keepalives

  /** Over every run with both ends configured: both keepalives keep their first values while every target of a
      successful tick is within a step of both; otherwise both are exactly at the last such target. */
  lemma {:induction false} RunKeepalives(c: Settings, ms: seq<Metrics>)
    requires c.server.Some? && c.client.Some?
    ensures var a, b := c.server.value.keepalive, c.client.value.keepalive;
            var t := Run(c, ms);
            var a', b' := t.server.value.keepalive, t.client.value.keepalive;
            if AlwaysNear(a, KEEPALIVE, Measured(ms)) && AlwaysNear(b, KEEPALIVE, Measured(ms)) then a' == a && b' == b
            else a' == b' == Target(KEEPALIVE, Measured(ms)[|Measured(ms)| - 1])
  {
    hide DirectionOf, NextChannelSize, Follow, NextPool;
    if ms != [] {
      var before, d := ms[..|ms| - 1], DirectionOf(ms[|ms| - 1]);
      RunKeepalives(c, before);
      AlwaysNearMore(c.server.value.keepalive, KEEPALIVE, Measured(before), d);
      AlwaysNearMore(c.client.value.keepalive, KEEPALIVE, Measured(before), d);
    }
  }

  /** The two ends disagree after a run exactly when they did before and no successful tick was a step away from either. */
  lemma RunDesynchronised(c: Settings, ms: seq<Metrics>)
    requires c.server.Some? && c.client.Some?
    ensures var a, b := c.server.value.keepalive, c.client.value.keepalive;
            var t := Run(c, ms);
            t.server.value.keepalive != t.client.value.keepalive
            <==> a != b && AlwaysNear(a, KEEPALIVE, Measured(ms)) && AlwaysNear(b, KEEPALIVE, Measured(ms))
  {
    RunKeepalives(c, ms);
  }

  /** Two successful ticks with different targets bring the ends together. */
  lemma DifferentTargetsSynchronise(c: Settings, ms: seq<Metrics>, i: nat, j: nat)
    requires c.server.Some? && c.client.Some?
    requires i < j < |Measured(ms)| && Measured(ms)[i] != Measured(ms)[j]
    ensures Run(c, ms).server.value.keepalive == Run(c, ms).client.value.keepalive
  {
    RunDesynchronised(c, ms);
    var a := c.server.value.keepalive;
    if AlwaysNear(a, KEEPALIVE, Measured(ms)) {
      assert Near(a, KEEPALIVE, Measured(ms)[i]) && Near(a, KEEPALIVE, Measured(ms)[j]);
    }
  }

  // ---------------------------------------------------------------- buffers

  predicate BuffersOrdered(c: Settings) {
    c.server.Some? ==> 0 < c.server.value.streamBuffer <= c.server.value.receiveBuffer
  }

  /** The stream buffer never outgrows the receive buffer, from any ordered positive pair. */
  lemma {:induction false} RunBuffers(c: Settings, ms: seq<Metrics>)
    requires BuffersOrdered(c)
    ensures BuffersOrdered(Run(c, ms))
  {
    hide DirectionOf, NextChannelSize, NextKeepalive;
    if ms != [] {
      RunBuffers(c, ms[..|ms| - 1]);
    }
  }

  /** One successful tick that does not point down orders the buffers from any start. */
  lemma TickOrdersBuffers(c: Settings, m: Metrics)
    requires m.latency.Some? && DirectionOf(m) != Down
    ensures BuffersOrdered(Tick(c, m))
  {
  }

  // ---------------------------------------------------------------- pool and channel sizes

  /** The client pool stays between 1 and 64, or moves there from outside. */
  lemma {:induction false} RunPool(c: Settings, ms: seq<Metrics>)
    requires c.client.Some?
    ensures var p, q := c.client.value.connectionPool, Run(c, ms).client.value.connectionPool;
            (if p < 1 then p else 1) <= q <= (if p > 64 then p else 64)
  {
    hide DirectionOf, NextKeepalive;
    if ms != [] {
      RunPool(c, ms[..|ms| - 1]);
    }
  }

  predicate InRange(size: int) { 256 <= size <= 8192 }

  /** The powers of two in the range. */
  predicate PowerSize(size: int) {
    size == 256 || size == 512 || size == 1024 || size == 2048 || size == 4096 || size == 8192
  }

  function Sized(size: int, ms: seq<Metrics>): int {
    if ms == [] then size else NextChannelSize(Sized(size, ms[..|ms| - 1]), OrZero(ms[|ms| - 1].mem))
  }

  /** The channel size depends on the memory readings alone. */
  lemma {:induction false} RunSized(c: Settings, ms: seq<Metrics>)
    requires c.server.Some?
    ensures Run(c, ms).server.value.channelSize == Sized(c.server.value.channelSize, ms)
  {
    if ms != [] {
      RunSized(c, ms[..|ms| - 1]);
    }
  }

  lemma {:induction false} SizedPower(size: int, ms: seq<Metrics>)
    requires PowerSize(size)
    ensures PowerSize(Sized(size, ms))
  {
    if ms != [] {
      SizedPower(size, ms[..|ms| - 1]);
    }
  }

  const IDLE := Metrics(None, Some(0.0), None, None, None)

  /** Any other size leaves the range after enough idle ticks. */
  lemma {:induction false} OthersEscape(size: int) returns (ms: seq<Metrics>)
    requires InRange(size) && !PowerSize(size)
    ensures !InRange(Sized(size, ms))
    decreases 8192 - size
  {
    if 2 * size > 8192 {
      ms := [IDLE];
      assert ms[..0] == [];
      assert Sized(size, []) == size;
    } else {
      var rest := OthersEscape(2 * size);
      ms := [IDLE] + rest;
      SizedFirst(size, IDLE, rest);
    }
  }

  lemma {:induction false} SizedFirst(size: int, m: Metrics, ms: seq<Metrics>)
    ensures Sized(size, [m] + ms) == Sized(NextChannelSize(size, OrZero(m.mem)), ms)
  {
    var all := [m] + ms;
    if ms == [] {
      assert all == [m] && all[..0] == [];
      assert Sized(size, []) == size;
    } else {
      assert all[..|all| - 1] == [m] + ms[..|ms| - 1];
      SizedFirst(size, m, ms[..|ms| - 1]);
    }
  }

  /** A channel size in 256..8192 stays there on every run if and only if it is a power of two. */
  lemma ChannelSizeStays(size: int)
    requires InRange(size)
    ensures PowerSize(size) <==> forall ms :: InRange(Sized(size, ms))
  {
    if PowerSize(size) {
      forall ms ensures InRange(Sized(size, ms)) {
        SizedPower(size, ms);
      }
    } else {
      var ms := OthersEscape(size);
    }
  }

  /** From the default of 2048 every run keeps the size a power of two in 256..8192. */
  lemma DefaultChannelSize(c: Settings, ms: seq<Metrics>)
    requires c.server.Some? && c.server.value.channelSize == 2048
    ensures PowerSize(Run(c, ms).server.value.channelSize)
  {
    RunSized(c, ms);
    SizedPower(2048, ms);
  }
}
