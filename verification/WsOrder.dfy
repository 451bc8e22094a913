/** What the WebSocket transport writes, and for whom: what a run does is compared with what its steps say. */
module WsOrder {
  import opened Base
  import opened WsHandoff

  function From(channelSize: nat): seq<Step> -> State {
    (steps: seq<Step>) => Run(Init(channelSize), steps)
  }

  /** The message a step gets through on this tunnel: pings, the address and data, while the connection is open. */
  function WroteOn(t: Tid): (State, Step) -> seq<Message> {
    (s: State, e: Step) =>
      if !(e.EAt? && e.t == t && Enabled(s, e)) || s.tunnels[t].connClosed then [] else
      match e.e
      case TPing(ok) => if ok then [Ping] else []
      case TAddress(ok) => if ok then [Address(s.tunnels[t].worker.address)] else []
      case TData(bytes, ok) => if ok then [Data(bytes)] else []
      case _ => []
  }

  /** The address for which a step takes this tunnel, the oldest in the channel. */
  function TookFor(t: Tid): (State, Step) -> seq<seq<byte>> {
    (s: State, e: Step) => if e.ETake? && Enabled(s, e) && s.tunnelChannel[0] == t then [e.address] else []
  }

  function ConnectedBy(s: State, e: Step): seq<Tid> {
    if e.EConnect? && |s.tunnelChannel| < s.channelSize then [|s.tunnels|] else []
  }

  function TakenBy(s: State, e: Step): seq<Tid> {
    if e.ETake? && Enabled(s, e) then [s.tunnelChannel[0]] else []
  }

  /** The keep-alive goroutine hangs up or is cancelled, or the worker's write fails. */
  function HangsUp(t: Tid): (State, Step) -> bool {
    (s: State, e: Step) =>
      && e.EAt? && e.t == t && Enabled(s, e)
      && (e.e.THangUp? || e.e.TCancelled? || (e.e.TAddress? && !e.e.ok) || (e.e.TData? && !e.e.ok))
  }

  function SilencesPings(t: Tid): (State, Step) -> bool {
    (s: State, e: Step) => e == EClosePing(t) && Enabled(s, e)
  }

  // ---------------------------------------------------------------- one step

  lemma TunnelStepWrites(v: Tunnel, f: TunnelStep, cancelled: bool)
    requires TunnelEnabled(v, f, cancelled)
    ensures var w := TunnelApply(v, f);
            && w.wire == v.wire + (if v.connClosed then []
                                   else if f == TPing(true) then [Ping]
                                   else if f == TAddress(true) then [Address(v.worker.address)]
                                   else if f.TData? && f.ok then [Data(f.bytes)] else [])
            && w.pingClosed == v.pingClosed
            && (w.connClosed <==> v.connClosed || f.THangUp? || f.TCancelled? || (f.TAddress? && !f.ok) || (f.TData? && !f.ok))
            && (!w.worker.Waiting? && !w.worker.Failed? ==>
                  !v.worker.Waiting? && !v.worker.Failed? && w.worker.address == v.worker.address)
            && (w.worker.Waiting? <==> v.worker.Waiting?)
            && (w.worker.Failed? ==> v.worker.Failed? || !v.worker.Waiting?)
  {
  }

  /** What each step makes of the keep-alive goroutine, of the worker and of the lock. */
  lemma TunnelStepMoves(v: Tunnel, f: TunnelStep, cancelled: bool)
    requires TunnelEnabled(v, f, cancelled)
    ensures var w := TunnelApply(v, f);
            && w.keeper == (match f
                            case TStart => Ticking
                            case TTick => if v.mu.Nobody? then Pinging else Ended
                            case TPing(ok) => if ok && !v.connClosed then Pinged else PingFailed
                            case TUnlock => if v.keeper.Pinged? then Ticking else Hanging
                            case THangUp => Ended
                            case TSeeClosed => Ended
                            case TCancelled => Ended
                            case _ => v.keeper)
            && w.worker == (match f
                            case TLock => Writing(v.worker.address)
                            case TAddress(ok) => if ok && !v.connClosed then Copying(v.worker.address) else Failed
                            case _ => v.worker)
            && w.mu == (match f
                        case TTick => if v.mu.Nobody? then ByKeeper else v.mu
                        case TUnlock => Nobody
                        case TLock => ByWorker
                        case _ => v.mu)
  {
  }

  /** A worker takes the oldest tunnel, then silences its pings, then wants its lock. */
  lemma WorkerStepMoves(s: State, e: Step)
    requires Safe(s) && Enabled(s, e)
    ensures Apply(s, e).cancelled <==> s.cancelled || e == ECancel
    ensures e.ETake? ==> Apply(s, e).tunnels == s.tunnels[s.tunnelChannel[0] := s.tunnels[s.tunnelChannel[0]].(worker := Closing(e.address))]
    ensures e.EClosePing? ==>
      Apply(s, e).tunnels == s.tunnels[e.t := s.tunnels[e.t].(pingClosed := true, worker := Locking(s.tunnels[e.t].worker.address))]
  {
    hide TunnelApply;
    if e.EClosePing? {
      assert Disciplined(s.tunnels[e.t]);
    }
  }

  /** A tick pings exactly when the lock is free, and otherwise stops for good. */
  lemma TickDecides(v: Tunnel)
    requires v.keeper.Ticking?
    ensures var w := TunnelApply(v, TTick);
            if v.mu.Nobody? then w.keeper.Pinging? && w.mu.ByKeeper? else w.keeper.Ended? && w.mu == v.mu
  {
  }

  /** A tunnel as its steps have left it. */
  ghost predicate AsSaid(at: seq<Step> -> State, steps: seq<Step>, t: Tid, v: Tunnel) {
    && v.wire == Gathered(at, steps, WroteOn(t))
    && (v.connClosed <==> Once(at, steps, HangsUp(t)))
    && (v.pingClosed <==> Once(at, steps, SilencesPings(t)))
    && (v.worker.Waiting? ==> Gathered(at, steps, TookFor(t)) == [])
    && (v.worker.Failed? ==> |Gathered(at, steps, TookFor(t))| == 1)
    && (!v.worker.Waiting? && !v.worker.Failed? ==> Gathered(at, steps, TookFor(t)) == [v.worker.address])
  }

  lemma Nothing(s: State, e: Step, t: Tid)
    requires Safe(s) && t >= |s.tunnels|
    ensures WroteOn(t)(s, e) == [] && TookFor(t)(s, e) == [] && !HangsUp(t)(s, e) && !SilencesPings(t)(s, e)
  {
  }

  lemma {:induction false} NotYet(channelSize: nat, steps: seq<Step>, t: Tid)
    requires t >= |Run(Init(channelSize), steps).tunnels|
    ensures var at := From(channelSize);
            && Gathered(at, steps, WroteOn(t)) == [] && Gathered(at, steps, TookFor(t)) == []
            && !Once(at, steps, HangsUp(t)) && !Once(at, steps, SilencesPings(t))
  {
    hide Safe, WroteOn, TookFor, HangsUp, SilencesPings, Apply;
    if steps != [] {
      var s := Run(Init(channelSize), steps[..|steps| - 1]);
      RunSafe(channelSize, steps[..|steps| - 1]);
      StepGrows(s, steps[|steps| - 1]);
      NotYet(channelSize, steps[..|steps| - 1], t);
      Nothing(s, steps[|steps| - 1], t);
    }
  }

  lemma StepGrows(s: State, e: Step)
    ensures |s.tunnels| <= |Apply(s, e).tunnels|
    ensures forall t {:trigger Apply(s, e).tunnels[t]} :: |s.tunnels| <= t < |Apply(s, e).tunnels| ==>
      Apply(s, e).tunnels[t] == Tunnel(Unstarted, Waiting, Nobody, false, false, [])
  {
    hide TunnelApply;
  }

  /** How a step changes what is said of a tunnel. */
  predicate Follows(v: Tunnel, w: Tunnel, wrote: seq<Message>, took: seq<seq<byte>>, hangsUp: bool, silences: bool) {
    && w.wire == v.wire + wrote
    && (w.connClosed <==> v.connClosed || hangsUp)
    && (w.pingClosed <==> v.pingClosed || silences)
    && (w.worker.Waiting? ==> v.worker.Waiting? && took == [])
    && (w.worker.Failed? ==> !v.worker.Waiting? && took == [])
    && (!w.worker.Waiting? && !w.worker.Failed? ==>
          if v.worker.Waiting? then took == [w.worker.address]
          else took == [] && !v.worker.Failed? && v.worker.address == w.worker.address)
  }

  lemma TunnelStepFollows(s: State, e: Step, t: Tid)
    requires t < |s.tunnels| && e.EAt? && e.t == t && Enabled(s, e)
    ensures var w := Apply(s, e).tunnels[t];
            Follows(s.tunnels[t], w, WroteOn(t)(s, e), TookFor(t)(s, e), HangsUp(t)(s, e), SilencesPings(t)(s, e))
  {
    TunnelStepWrites(s.tunnels[t], e.e, s.cancelled);
    hide TunnelApply;
  }

  lemma OtherStepFollows(s: State, e: Step, t: Tid)
    requires Safe(s) && t < |s.tunnels| && !(e.EAt? && e.t == t && Enabled(s, e))
    ensures t < |Apply(s, e).tunnels|
    ensures var w := Apply(s, e).tunnels[t];
            Follows(s.tunnels[t], w, WroteOn(t)(s, e), TookFor(t)(s, e), HangsUp(t)(s, e), SilencesPings(t)(s, e))
  {
    hide TunnelApply, WireInOrder;
    assert Disciplined(s.tunnels[t]);
    hide Disciplined;
  }

  lemma StepAsSaid(channelSize: nat, steps: seq<Step>, e: Step, t: Tid)
    requires var s := Run(Init(channelSize), steps);
             Safe(s) && t < |s.tunnels| && AsSaid(From(channelSize), steps, t, s.tunnels[t])
    ensures var y := Apply(Run(Init(channelSize), steps), e);
            t < |y.tunnels| && AsSaid(From(channelSize), steps + [e], t, y.tunnels[t])
  {
    var s := Run(Init(channelSize), steps);
    assert (steps + [e])[..|steps|] == steps;
    StepGrows(s, e);
    hide Run, Apply, Safe, WroteOn, TookFor, HangsUp, SilencesPings;
    if e.EAt? && e.t == t && Enabled(s, e) {
      TunnelStepFollows(s, e, t);
    } else {
      OtherStepFollows(s, e, t);
    }
    hide Enabled;
  }

  /** Over every run: a tunnel's messages are exactly those its steps got through, in order, data bytes included; it was
      taken for the one address that is sent on it; it is closed and its pings are silenced exactly by the steps that say so. */
  lemma {:induction false} RunAsSaid(channelSize: nat, steps: seq<Step>, t: Tid)
    requires t < |Run(Init(channelSize), steps).tunnels|
    ensures AsSaid(From(channelSize), steps, t, Run(Init(channelSize), steps).tunnels[t])
  {
    hide AsSaid, Apply, Safe;
    var before, e := steps[..|steps| - 1], steps[|steps| - 1];
    var s := Run(Init(channelSize), before);
    RunSafe(channelSize, before);
    assert before + [e] == steps;
    if t < |s.tunnels| {
      RunAsSaid(channelSize, before, t);
      StepAsSaid(channelSize, before, e, t);
    } else {
      StepGrows(s, e);
      NotYet(channelSize, before, t);
      Nothing(s, e, t);
      NewAsSaid(channelSize, before, e, t);
    }
  }

  lemma NewAsSaid(channelSize: nat, steps: seq<Step>, e: Step, t: Tid)
    requires var at, s := From(channelSize), Run(Init(channelSize), steps);
             && Gathered(at, steps, WroteOn(t)) == [] && Gathered(at, steps, TookFor(t)) == []
             && !Once(at, steps, HangsUp(t)) && !Once(at, steps, SilencesPings(t))
             && WroteOn(t)(s, e) == [] && TookFor(t)(s, e) == [] && !HangsUp(t)(s, e) && !SilencesPings(t)(s, e)
    ensures AsSaid(From(channelSize), steps + [e], t, Tunnel(Unstarted, Waiting, Nobody, false, false, []))
  {
    hide WroteOn, TookFor, HangsUp, SilencesPings, Run;
    assert (steps + [e])[..|steps|] == steps;
  }

  lemma StepKeepsOrder(s: State, e: Step)
    ensures TakenBy(s, e) + Apply(s, e).tunnelChannel == s.tunnelChannel + ConnectedBy(s, e)
    ensures Apply(s, e).channelSize == s.channelSize && |Apply(s, e).tunnels| == |s.tunnels| + |ConnectedBy(s, e)|
    ensures |Apply(s, e).tunnelChannel| <= |s.tunnelChannel| || |Apply(s, e).tunnelChannel| <= s.channelSize
  {
    hide TunnelApply;
  }

  /** Over every run tunnels are taken in the order in which they connected, and connect exactly while the channel has room. */
  lemma {:induction false} RunKeepsOrder(channelSize: nat, steps: seq<Step>)
    ensures var at := From(channelSize);
            && Gathered(at, steps, TakenBy) + at(steps).tunnelChannel == Gathered(at, steps, ConnectedBy)
            && |Gathered(at, steps, ConnectedBy)| == |at(steps).tunnels|
            && at(steps).channelSize == channelSize && |at(steps).tunnelChannel| <= channelSize
  {
    hide Apply, TakenBy, ConnectedBy;
    if steps != [] {
      var at, before, e := From(channelSize), steps[..|steps| - 1], steps[|steps| - 1];
      var s := at(before);
      RunKeepsOrder(channelSize, before);
      StepKeepsOrder(s, e);
      Handover(Gathered(at, before, TakenBy), s.tunnelChannel, Gathered(at, before, ConnectedBy),
               TakenBy(s, e), Apply(s, e).tunnelChannel, ConnectedBy(s, e));
    }
  }
}
