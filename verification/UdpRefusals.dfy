/** What becomes of an address whose session was refused, and that nothing else is ever forgotten. */
module UdpRefusals {
  import opened Base
  import opened Framing
  import opened UdpSessions

  /** The offer of this session meets a full handler channel. */
  predicate MeetsFull(s: State, e: Step, sid: Sid) {
    e.EOffer? && s.listener.Stored? && s.listener.sid == sid && |s.udpChan| >= s.channelSize
  }

  function Refuses(sid: Sid): (State, Step) -> bool { (s, e) => MeetsFull(s, e, sid) }

  function From(channelSize: nat): seq<Step> -> State {
    (steps: seq<Step>) => Run(Init(channelSize), steps)
  }

  /** What no step undoes in a session: its address, and once refused, that it is unserved. */
  predicate Kept(v: Session, w: Session) {
    && w.addr == v.addr
    && (v.stage.Refused? ==> w.stage.Refused? && w.out == v.out && w.taken == v.taken)
  }

  /** The sessions before and after a step: none goes, only a store adds one, only a full channel refuses one. */
  ghost predicate SessionsStep(s: State, e: Step, t: State) {
    && |s.sessions| <= |t.sessions|
    && (forall k {:trigger s.sessions[k]} {:trigger t.sessions[k]} :: 0 <= k < |s.sessions| ==>
          && Kept(s.sessions[k], t.sessions[k])
          && (t.sessions[k].stage.Refused? <==> s.sessions[k].stage.Refused? || MeetsFull(s, e, k)))
    && (forall k {:trigger t.sessions[k]} :: |s.sessions| <= k < |t.sessions| ==>
          s.listener.Creating? && t.sessions[k].addr == s.listener.d.addr && !t.sessions[k].stage.Refused?)
    && (MeetsFull(s, e, if s.listener.Stored? then s.listener.sid else 0) ==> s.listener.sid < |s.sessions|)
  }

  lemma ListenerStepSessions(s: State, e: Step)
    requires TableSafe(s) && (e.ELookup? || e.EDeliver? || e.EStore? || e.EOffer?)
    ensures SessionsStep(s, e, Apply(s, e))
  {
    hide EntrySafe, SessionSafe, ChannelsSafe;
  }

  lemma LoopStepSessions(s: State, e: Step)
    requires TableSafe(s) && (e.ETake? || e.EStart?)
    ensures SessionsStep(s, e, Apply(s, e))
  {
    hide EntrySafe, SessionSafe;
  }

  lemma HandlerStepSessions(s: State, e: Step)
    requires TableSafe(s) && (e.EFlag? || e.EReaderDone? || e.EWriterTake? || e.EWriterWrite? || e.EWriterIdle? || e.EExit?)
    ensures SessionsStep(s, e, Apply(s, e))
  {
    hide Frame, EntrySafe, SessionSafe, ChannelsSafe;
  }

  lemma StepSessions(s: State, e: Step)
    requires TableSafe(s)
    ensures SessionsStep(s, e, Apply(s, e))
  {
    hide *;
    match e
    case ELookup(_, _) => ListenerStepSessions(s, e);
    case EDeliver => ListenerStepSessions(s, e);
    case EStore => ListenerStepSessions(s, e);
    case EOffer => ListenerStepSessions(s, e);
    case ETake => LoopStepSessions(s, e);
    case EStart => LoopStepSessions(s, e);
    case _ => HandlerStepSessions(s, e);
  }

  lemma {:induction false} MetFullExists(channelSize: nat, steps: seq<Step>, sid: Sid)
    requires Once(From(channelSize), steps, Refuses(sid))
    ensures sid < |Run(Init(channelSize), steps).sessions|
  {
    hide Apply, TableSafe;
    var s := Run(Init(channelSize), steps[..|steps| - 1]);
    RunSafe(channelSize, steps[..|steps| - 1]);
    StepSessions(s, steps[|steps| - 1]);
    if !MeetsFull(s, steps[|steps| - 1], sid) {
      MetFullExists(channelSize, steps[..|steps| - 1], sid);
    }
  }

  /** Over every run a session is refused if and only if its offer met a full handler channel. */
  lemma {:induction false} RunRefuses(channelSize: nat, steps: seq<Step>, sid: Sid)
    requires sid < |Run(Init(channelSize), steps).sessions|
    ensures Run(Init(channelSize), steps).sessions[sid].stage.Refused? <==> Once(From(channelSize), steps, Refuses(sid))
  {
    hide Apply, TableSafe;
    var before := steps[..|steps| - 1];
    var s := Run(Init(channelSize), before);
    RunSafe(channelSize, before);
    StepSessions(s, steps[|steps| - 1]);
    if sid < |s.sessions| {
      RunRefuses(channelSize, before, sid);
    } else if Once(From(channelSize), before, Refuses(sid)) {
      MetFullExists(channelSize, before, sid);
    }
  }

  // ---------------------------------------------------------------- nothing else is forgotten

  /** Someone will come back to the session: the listener that stored it, the handler loop through its channel or in its
      hands, or the session's own handler. */
  predicate InHands(s: State, sid: Sid)
    requires sid < |s.sessions|
  {
    || (s.listener.Stored? && s.listener.sid == sid)
    || sid in s.udpChan
    || s.holding == Some(sid)
    || s.sessions[sid].stage.Running?
  }

  /** A stage names whose hands the session is in. */
  predicate Placed(s: State, sid: Sid, v: Session) {
    match v.stage
    case Created => s.listener.Stored? && s.listener.sid == sid
    case Offered => sid in s.udpChan
    case Held => s.holding == Some(sid)
    case _ => true
  }

  ghost predicate AllPlaced(s: State) {
    forall sid {:trigger s.sessions[sid]} :: 0 <= sid < |s.sessions| ==> Placed(s, sid, s.sessions[sid])
  }

  lemma TakePlaced(s: State)
    requires TableSafe(s) && AllPlaced(s) && Enabled(s, ETake)
    ensures AllPlaced(Take(s))
  {
    var t := Take(s);
    forall sid {:trigger t.sessions[sid]} | 0 <= sid < |t.sessions| ensures Placed(t, sid, t.sessions[sid]) {
      assert Placed(s, sid, s.sessions[sid]);
      if s.sessions[sid].stage.Offered? && sid != s.udpChan[0] {
        var i :| 0 <= i < |s.udpChan| && s.udpChan[i] == sid;
        assert t.udpChan[i - 1] == sid;
      }
    }
  }

  lemma OfferPlaced(s: State)
    requires TableSafe(s) && AllPlaced(s) && Enabled(s, EOffer)
    ensures AllPlaced(Offer(s))
  {
    hide EntrySafe, SessionSafe;
    var t := Offer(s);
    forall sid {:trigger t.sessions[sid]} | 0 <= sid < |t.sessions| ensures Placed(t, sid, t.sessions[sid]) {
      assert Placed(s, sid, s.sessions[sid]);
    }
  }

  lemma ListenerStepPlaced(s: State, e: Step)
    requires AllPlaced(s) && Enabled(s, e) && (e.ELookup? || e.EDeliver? || e.EStore? || e.EStart?)
    ensures AllPlaced(Apply(s, e))
  {
    hide Frame;
    var t := Apply(s, e);
    forall id {:trigger t.sessions[id]} | 0 <= id < |t.sessions| ensures Placed(t, id, t.sessions[id]) {
      assert id < |s.sessions| ==> Placed(s, id, s.sessions[id]);
    }
  }

  lemma HandlerStepPlaced(s: State, e: Step)
    requires AllPlaced(s) && Enabled(s, e) && (e.EFlag? || e.EReaderDone? || e.EWriterTake? || e.EWriterWrite? || e.EWriterIdle? || e.EExit?)
    ensures AllPlaced(Apply(s, e))
  {
    hide Frame;
    var t := Apply(s, e);
    forall id {:trigger t.sessions[id]} | 0 <= id < |t.sessions| ensures Placed(t, id, t.sessions[id]) {
      assert id < |s.sessions| ==> Placed(s, id, s.sessions[id]);
    }
  }

  lemma StepPlaced(s: State, e: Step)
    requires TableSafe(s) && AllPlaced(s)
    ensures AllPlaced(Apply(s, e))
  {
    hide TableSafe, AllPlaced;
    if Enabled(s, e) {
      match e
      case ETake => TakePlaced(s);
      case EOffer => OfferPlaced(s);
      case ELookup(_, _) => ListenerStepPlaced(s, e);
      case EDeliver => ListenerStepPlaced(s, e);
      case EStore => ListenerStepPlaced(s, e);
      case EStart => ListenerStepPlaced(s, e);
      case _ => HandlerStepPlaced(s, e);
    }
  }

  lemma {:induction false} RunPlaced(channelSize: nat, steps: seq<Step>)
    ensures AllPlaced(Run(Init(channelSize), steps))
  {
    hide Apply, TableSafe;
    if steps != [] {
      RunPlaced(channelSize, steps[..|steps| - 1]);
      RunSafe(channelSize, steps[..|steps| - 1]);
      StepPlaced(Run(Init(channelSize), steps[..|steps| - 1]), steps[|steps| - 1]);
    }
  }

  /** Over every run an open session is in nobody's hands if and only if its offer met a full handler channel. */
  lemma RunForgets(channelSize: nat, steps: seq<Step>, sid: Sid)
    requires var s := Run(Init(channelSize), steps); sid < |s.sessions| && !s.sessions[sid].closed
    ensures !InHands(Run(Init(channelSize), steps), sid) <==> Once(From(channelSize), steps, Refuses(sid))
  {
    hide Run, Once;
    var s := Run(Init(channelSize), steps);
    RunRefuses(channelSize, steps, sid);
    RunPlaced(channelSize, steps);
    RunSafe(channelSize, steps);
    assert Placed(s, sid, s.sessions[sid]) && SessionSafe(s.active, sid, s.sessions[sid]);
  }

  // ---------------------------------------------------------------- forgotten for good

  /** The listener has stored a session that the handler loop will never see. */
  ghost predicate Orphaned(s: State, sid: Sid) {
    && sid < |s.sessions| && s.sessions[sid].stage == Refused
    && s.sessions[sid].out == [] && s.sessions[sid].taken == 0
    && (s.listener.Creating? ==> s.listener.d.addr != s.sessions[sid].addr)
  }

  lemma OrphanInTable(s: State, sid: Sid)
    requires TableSafe(s) && Orphaned(s, sid)
    ensures s.sessions[sid].addr in s.active && s.active[s.sessions[sid].addr] == sid && !s.sessions[sid].congested
  {
    assert SessionSafe(s.active, sid, s.sessions[sid]);
  }

  lemma StepCreates(s: State, e: Step)
    ensures Apply(s, e).listener.Creating? ==>
      Apply(s, e).listener == s.listener
      || var a := Apply(s, e).listener.d.addr;
         !(a in s.active && s.active[a] < |s.sessions| && !s.sessions[s.active[a]].congested)
  {
    hide Frame;
  }

  lemma StepKeepsOrphan(s: State, e: Step, sid: Sid)
    requires TableSafe(s) && Orphaned(s, sid)
    ensures Orphaned(Apply(s, e), sid) && Apply(s, e).sessions[sid].addr == s.sessions[sid].addr
    ensures |s.sessions| <= |Apply(s, e).sessions|
    ensures forall k :: |s.sessions| <= k < |Apply(s, e).sessions| ==> Apply(s, e).sessions[k].addr != s.sessions[sid].addr
  {
    hide Apply, TableSafe;
    StepSessions(s, e);
    StepCreates(s, e);
    OrphanInTable(s, sid);
  }

  /** An offer makes an orphan of the session just stored if and only if the handler channel is full. */
  lemma RefusalOrphans(channelSize: nat, steps: seq<Step>)
    requires Run(Init(channelSize), steps).listener.Stored?
    ensures var s := Run(Init(channelSize), steps);
            Orphaned(Run(Init(channelSize), steps + [EOffer]), s.listener.sid) <==> |s.udpChan| >= s.channelSize
  {
    hide Frame;
    RunSafe(channelSize, steps);
    assert (steps + [EOffer])[..|steps|] == steps;
  }

  /** The table entry, the later sessions and the session itself, as seen from the moment of refusal. */
  ghost predicate StillRefused(s: State, t: State, sid: Sid) {
    && Orphaned(s, sid) && Orphaned(t, sid) && |s.sessions| <= |t.sessions|
    && t.sessions[sid].addr == s.sessions[sid].addr
    && (forall k :: |s.sessions| <= k < |t.sessions| ==> t.sessions[k].addr != s.sessions[sid].addr)
  }

  lemma StepKeepsRefused(s: State, t: State, e: Step, sid: Sid)
    requires TableSafe(t) && StillRefused(s, t, sid)
    ensures StillRefused(s, Apply(t, e), sid)
  {
    hide TableSafe, Apply;
    StepKeepsOrphan(t, e, sid);
    StepSessions(t, e);
  }

  /** Once refused, a session stays in the table unflagged and unserved for the rest of the run: the listener keeps
      sending it the datagrams of its address, it sends none of them on, and no other session is made for the address. */
  lemma {:induction false} RefusedForever(channelSize: nat, before: seq<Step>, sid: Sid, after: seq<Step>)
    requires Orphaned(Run(Init(channelSize), before), sid)
    ensures StillRefused(Run(Init(channelSize), before), Run(Init(channelSize), before + after), sid)
    ensures var t := Run(Init(channelSize), before + after);
            t.sessions[sid].addr in t.active && t.active[t.sessions[sid].addr] == sid
  {
    var all := before + after;
    if after == [] {
      assert all == before;
    } else {
      assert all[..|all| - 1] == before + after[..|after| - 1];
      RefusedForever(channelSize, before, sid, after[..|after| - 1]);
      RunSafe(channelSize, all[..|all| - 1]);
      StepKeepsRefused(Run(Init(channelSize), before), Run(Init(channelSize), all[..|all| - 1]), all[|all| - 1], sid);
    }
    RunSafe(channelSize, all);
    OrphanInTable(Run(Init(channelSize), all), sid);
  }

  /** A run with room for one session in the handler channel: the second address is refused. */
  lemma SecondAddressRefused(data: seq<byte>)
    requires |data| <= BUFFER_SIZE - 2
    ensures var steps := [ELookup(1, data), EStore, EOffer, ELookup(2, data), EStore, EOffer];
            Orphaned(Run(Init(1), steps), 1) && Once(From(1), steps, Refuses(1))
  {
    hide Run, Apply, Orphaned, Once, MeetsFull;
    var three, five := [ELookup(1, data), EStore, EOffer], [ELookup(1, data), EStore, EOffer, ELookup(2, data), EStore];
    var steps := [ELookup(1, data), EStore, EOffer, ELookup(2, data), EStore, EOffer];
    var v := Session(1, false, false, Offered, [Datagram(0, 1, data)], 0, [], []);
    var w := Session(2, false, false, Created, [], 0, [], []);
    var s := State(1, map[1 := 0], [v], [0], Reading, None, [Datagram(0, 1, data)], [], false);
    var t := State(1, map[1 := 0, 2 := 1], [v, w], [0], Stored(1, Datagram(1, 2, data)), None,
                   [Datagram(0, 1, data), Datagram(1, 2, data)], [], false);
    RunFirst(Init(1), data, three);
    FirstServed(data, s);
    RunNext(Init(1), three, data, five);
    SecondStored(data, s, t);
    assert steps[..5] == five;
    assert Run(Init(1), steps) == Apply(t, EOffer) by { RunLast(Init(1), steps); }
    SecondOffered(t, steps);
  }

  lemma RunLast(s: State, steps: seq<Step>)
    requires steps != []
    ensures Run(s, steps) == Apply(Run(s, steps[..|steps| - 1]), steps[|steps| - 1])
  {
  }

  lemma RunFirst(s: State, data: seq<byte>, three: seq<Step>)
    requires three == [ELookup(1, data), EStore, EOffer]
    ensures Run(s, three) == Apply(Apply(Apply(s, ELookup(1, data)), EStore), EOffer)
  {
    hide Apply;
    RunLast(s, three);
    RunLast(s, three[..2]);
    RunLast(s, three[..2][..1]);
    assert three[..2][..1][..0] == [] && Run(s, []) == s;
  }

  lemma RunNext(s: State, three: seq<Step>, data: seq<byte>, five: seq<Step>)
    requires five == three + [ELookup(2, data), EStore]
    ensures Run(s, five) == Apply(Apply(Run(s, three), ELookup(2, data)), EStore)
  {
    hide Apply;
    var n := |five|;
    assert five[..n - 1][..n - 2] == three && five[..n - 1] == three + [ELookup(2, data)];
    RunLast(s, five);
    RunLast(s, five[..n - 1]);
  }

  lemma FirstServed(data: seq<byte>, s: State)
    requires |data| <= BUFFER_SIZE - 2
    requires var d := Datagram(0, 1, data);
             s == State(1, map[1 := 0], [Session(1, false, false, Offered, [d], 0, [], [])], [0], Reading, None, [d], [], false)
    ensures Apply(Apply(Apply(Init(1), ELookup(1, data)), EStore), EOffer) == s
  {
    var d := Datagram(0, 1, data);
    var a := Apply(Init(1), ELookup(1, data));
    assert a == State(1, map[], [], [], Creating(d), None, [d], [], false);
    var b := Apply(a, EStore);
    assert b == State(1, map[1 := 0], [Session(1, false, false, Created, [], 0, [], [])], [], Stored(0, d), None, [d], [], false);
  }

  lemma SecondStored(data: seq<byte>, s: State, t: State)
    requires |data| <= BUFFER_SIZE - 2
    requires |s.sessions| == 1 && s.active == map[1 := 0] && s.listener == Reading && |s.arrivals| == 1
    requires var d := Datagram(1, 2, data);
             t == s.(sessions := s.sessions + [Session(2, false, false, Created, [], 0, [], [])],
                     active := map[1 := 0, 2 := 1], listener := Stored(1, d), arrivals := s.arrivals + [d])
    ensures Apply(Apply(s, ELookup(2, data)), EStore) == t
  {
    var a := Apply(s, ELookup(2, data));
    assert a == s.(arrivals := t.arrivals, listener := Creating(Datagram(1, 2, data)));
  }

  lemma SecondOffered(t: State, steps: seq<Step>)
    requires |t.sessions| == 2 && t.sessions[1] == Session(2, false, false, Created, [], 0, [], [])
    requires t.listener.Stored? && t.listener.sid == 1 && |t.udpChan| >= t.channelSize
    requires |steps| == 6 && steps[5] == EOffer && Run(Init(1), steps[..5]) == t && Run(Init(1), steps) == Apply(t, EOffer)
    ensures Orphaned(Run(Init(1), steps), 1) && Once(From(1), steps, Refuses(1))
  {
    hide Run;
  }
}
