/** The tuner as an object that updates the server's and the client's configuration in place. */
module TunerObject {
  import opened Base
  import opened Tuning
  import opened TuningInterval

  class ServerConfig {
    var keepalive: int
    var channelSize: int
    var maxFrameSize: int
    var maxReceiveBuffer: int
    var maxStreamBuffer: int
    var heartbeat: int
    var muxCon: int

    ghost function View(): ServerSettings
      reads this
    {
      ServerSettings(keepalive, channelSize, maxFrameSize, maxReceiveBuffer, maxStreamBuffer, heartbeat, muxCon)
    }
  }

  class ClientConfig {
    var keepalive: int
    var connectionPool: int

    ghost function View(): ClientSettings
      reads this
    {
      ClientSettings(keepalive, connectionPool)
    }
  }

  function AbsInt(x: int): int { if x < 0 then -x else x }

  function Clamp(x: int, low: int, high: int): int { if x < low then low else if x > high then high else x }

  /** calculateAverage. */
  method CalculateAverage(values: seq<real>) returns (average: real)
    ensures average == Mean(values)
  {
    if |values| == 0 {
      return 0.0;
    }
    var sum := 0.0;
    for k := 0 to |values|
      invariant sum == Total(values[..k])
    {
      assert values[..k + 1][..k] == values[..k];
      sum := sum + values[k];
    }
    assert values[..|values|] == values;
    return sum / |values| as real;
  }

  /** calculateVariance. */
  method CalculateVariance(values: seq<real>) returns (variance: real)
    ensures variance == Variance(values)
  {
    if |values| < 2 {
      return 0.0;
    }
    var avg := CalculateAverage(values);
    var sum := 0.0;
    for k := 0 to |values|
      invariant sum == Squares(values[..k], avg)
    {
      assert values[..k + 1][..k] == values[..k];
      sum := sum + (values[k] - avg) * (values[k] - avg);
    }
    assert values[..|values|] == values;
    return sum / |values| as real;
  }

  class Tuner {
    const server: ServerConfig?
    const client: ClientConfig?
    const historySize: nat := 10
    var baseInterval: int
    var currentInterval: int
    var tickerInterval: int
    var lastLatency: real
    var latencyHistory: seq<real>

    ghost function Config(): Settings
      reads this, server, client
    {
      Settings(if server != null then Some(server.View()) else None, if client != null then Some(client.View()) else None)
    }

    ghost function Pacing(): Pace
      reads this
    {
      Pace(currentInterval, latencyHistory)
    }

    constructor (server: ServerConfig?, client: ClientConfig?)
      ensures this.server == server && this.client == client
      ensures baseInterval == currentInterval == 10 * MINUTE && latencyHistory == []
    {
      this.server, this.client := server, client;
      baseInterval, currentInterval, tickerInterval := 10 * MINUTE, 10 * MINUTE, 0;
      lastLatency, latencyHistory := 0.0, [];
    }

    /** Start, up to its first tick; a ticker panics unless its interval is positive. */
    method Start(interval: int)
      requires interval > 0
      modifies this
      ensures baseInterval == currentInterval == tickerInterval == interval && latencyHistory == old(latencyHistory)
    {
      baseInterval, currentInterval, tickerInterval := interval, interval, interval;
    }

    method AdjustPool(cpuUsage: real, memUsage: real)
      modifies client
      ensures client != null ==>
        client.View() == old(client.View()).(connectionPool := NextPool(old(client.connectionPool), cpuUsage, memUsage))
    {
      if client != null {
        if cpuUsage > 85.0 || memUsage > 85.0 {
          if client.connectionPool > 1 {
            client.connectionPool := client.connectionPool - 1;
          }
        } else if cpuUsage < 50.0 && memUsage < 50.0 {
          if client.connectionPool < 64 {
            client.connectionPool := client.connectionPool + 1;
          }
        }
      }
    }

    method AdjustChannelSize(memUsage: real)
      modifies server
      ensures server != null ==>
        server.View() == old(server.View()).(channelSize := NextChannelSize(old(server.channelSize), memUsage))
    {
      if server != null {
        if memUsage > 80.0 {
          if server.channelSize > 256 {
            server.channelSize := server.channelSize / 2;
          }
        } else if memUsage < 40.0 {
          if server.channelSize < 8192 {
            server.channelSize := server.channelSize * 2;
          }
        }
      }
    }

    method AdjustKeepalive(d: Direction)
      modifies server, client
      ensures server != null ==>
        server.View() == old(server.View()).(keepalive := NextKeepalive(old(server.keepalive), old(ClientKeepalive(Config())), d))
      ensures client != null ==>
        client.View() == old(client.View()).(keepalive := NextKeepalive(old(client.keepalive), old(ServerKeepalive(Config())), d))
    {
      var target := Clamp(if d.Down? then 10 else if d.Up? then 180 else 75, 10, 180);
      var serverChanged, clientChanged := false, false;
      if server != null && AbsInt(server.keepalive - target) >= 5 {
        server.keepalive := target;
        serverChanged := true;
      }
      if client != null && AbsInt(client.keepalive - target) >= 5 {
        client.keepalive := target;
        clientChanged := true;
      }
      if server != null && client != null {
        if serverChanged && !clientChanged {
          client.keepalive := target;
        } else if clientChanged && !serverChanged {
          server.keepalive := target;
        }
      }
    }

    method AdjustBuffers(d: Direction)
      modifies server
      ensures server != null ==>
        server.View() == old(server.View()).(frameSize := Follow(old(server.maxFrameSize), FRAME, d),
                                             receiveBuffer := Follow(old(server.maxReceiveBuffer), RECEIVE, d),
                                             streamBuffer := Follow(old(server.maxStreamBuffer), STREAM, d))
    {
      if server != null {
        var frame := Clamp(if d.Down? then 16 * 1024 else if d.Up? then 128 * 1024 else 32 * 1024, 16 * 1024, 128 * 1024);
        if AbsInt(server.maxFrameSize - frame) >= 8 * 1024 {
          server.maxFrameSize := frame;
        }
        var mib := 1024 * 1024;
        var recv := Clamp(if d.Down? then mib else if d.Up? then 16 * mib else 4 * mib, mib, 16 * mib);
        if AbsInt(server.maxReceiveBuffer - recv) >= mib {
          server.maxReceiveBuffer := recv;
        }
        var stream := Clamp(if d.Down? then 64 * 1024 else if d.Up? then mib else 256 * 1024, 64 * 1024, mib);
        if AbsInt(server.maxStreamBuffer - stream) >= 64 * 1024 {
          server.maxStreamBuffer := stream;
        }
      }
    }

    method AdjustHeartbeatAndMux(d: Direction)
      modifies server
      ensures server != null ==>
        server.View() == old(server.View()).(heartbeat := Follow(old(server.heartbeat), HEARTBEAT, d),
                                             muxCon := Follow(old(server.muxCon), MUXCON, d))
    {
      if server != null {
        var heartbeat := Clamp(if d.Down? then 120 else if d.Up? then 10 else 40, 10, 120);
        if AbsInt(server.heartbeat - heartbeat) >= 15 {
          server.heartbeat := heartbeat;
        }
        var muxCon := Clamp(if d.Down? then 2 else if d.Up? then 32 else 8, 2, 32);
        if AbsInt(server.muxCon - muxCon) >= 2 {
          server.muxCon := muxCon;
        }
      }
    }

    /** adjustParameters, given what its measurements return. */
    method AdjustParameters(m: Metrics)
      modifies server, client
      ensures Config() == Tick(old(Config()), m)
    {
      hide Follow, NextKeepalive, NextPool, NextChannelSize;
      var cpuUsage, memUsage := OrZero(m.cpu), OrZero(m.mem);
      AdjustPool(cpuUsage, memUsage);
      AdjustChannelSize(memUsage);
      var latency, packetLoss, throughput := OrZero(m.latency), OrZero(m.loss), OrZero(m.throughput);
      var adjustDown := latency > 200.0 || cpuUsage > 80.0 || memUsage > 80.0 || packetLoss > 2.0;
      var adjustUp := latency < 70.0 && cpuUsage < 60.0 && memUsage < 60.0 && packetLoss < 1.0 && throughput > 0.0;
      var d := if adjustDown then Down else if adjustUp then Up else Steady;
      if m.latency.Some? {
        AdjustKeepalive(d);
        AdjustBuffers(d);
      }
      AdjustHeartbeatAndMux(d);
    }

    /** adjustInterval, given what its latency measurement returns; the ticker is reset with every change. */
    method AdjustInterval(measured: Option<real>)
      requires baseInterval > 0
      modifies this
      ensures baseInterval == old(baseInterval) && Pacing() == AdjustPace(baseInterval, old(Pacing()), measured)
      ensures old(tickerInterval == currentInterval) ==> tickerInterval == currentInterval
      ensures lastLatency == if measured.Some? then measured.value else old(lastLatency)
    {
      hide Variance, Mean;
      if measured.None? {
        return;
      }
      latencyHistory := latencyHistory + [measured.value];
      if |latencyHistory| > historySize {
        latencyHistory := latencyHistory[1..];
      }
      if |latencyHistory| >= 3 {
        var variance := CalculateVariance(latencyHistory);
        var avgLatency := CalculateAverage(latencyHistory);
        var newInterval;
        if variance > avgLatency * 0.3 {
          newInterval := baseInterval / 2;
          if newInterval < 5 * MINUTE {
            newInterval := 5 * MINUTE;
          }
        } else if variance < avgLatency * 0.1 {
          newInterval := baseInterval * 3 / 2;
          if newInterval > 15 * MINUTE {
            newInterval := 15 * MINUTE;
          }
        } else {
          newInterval := baseInterval;
        }
        if AbsInt(currentInterval - newInterval) > 5 * SECOND {
          currentInterval := newInterval;
          tickerInterval := newInterval;
        }
      }
      lastLatency := measured.value;
    }
  }
}
