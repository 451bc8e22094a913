/** Where the datagrams of a UDP listener go: into exactly one session's queue or away, in order, and out of the tunnel
    as frames; and what becomes of an address whose session was refused. */
module UdpRouting {
  import opened Base
  import opened Framing
  import opened UdpSessions

  function HasId(id: nat): Datagram -> bool { (d: Datagram) => d.id == id }
  ghost function Queues(id: nat): Session -> int { (v: Session) => Count(v.queued, HasId(id)) }

  /** The datagrams the listener has finished with; at most the last arrival is still in its hands. */
  function Settled(s: State): nat {
    if s.listener.Reading? || s.arrivals == [] then |s.arrivals| else |s.arrivals| - 1
  }

  ghost predicate InHand(s: State) {
    s.listener.Reading? || (s.arrivals != [] && s.listener.d == s.arrivals[|s.arrivals| - 1])
  }

  ghost predicate Numbered(s: State) {
    forall i :: 0 <= i < |s.arrivals| ==> s.arrivals[i].id == i && |s.arrivals[i].data| <= BUFFER_SIZE - 2
  }

  /** A queue holds settled datagrams of the session's address, in the order of their arrival. */
  ghost predicate QueueInOrder(s: State, v: Session) {
    && (forall k :: 0 <= k < |v.queued| ==>
          v.queued[k].id < Settled(s) && v.queued[k] == s.arrivals[v.queued[k].id] && v.queued[k].addr == v.addr)
    && (forall j, k :: 0 <= j < k < |v.queued| ==> v.queued[j].id < v.queued[k].id)
  }

  /** Every settled datagram is in exactly one queue, once, or was dropped once. */
  ghost predicate Conserved(s: State) {
    forall id: nat :: Sum(s.sessions, Queues(id)) + Count(s.dropped, HasId(id)) == One(id < Settled(s))
  }

  ghost predicate Routed(s: State) {
    && Numbered(s) && InHand(s) && Conserved(s)
    && (forall sid {:trigger s.sessions[sid]} :: 0 <= sid < |s.sessions| ==> QueueInOrder(s, s.sessions[sid]))
  }

  lemma DropConserves(s: State, t: State)
    requires Conserved(s) && t.sessions == s.sessions
    requires !s.listener.Reading? && t.listener.Reading? && s.arrivals == t.arrivals != []
    requires t.dropped == s.dropped + [s.listener.d] && s.listener.d.id == Settled(s)
    ensures Conserved(t)
  {
    forall id: nat ensures Sum(t.sessions, Queues(id)) + Count(t.dropped, HasId(id)) == One(id < Settled(t)) {
      CountAppend(s.dropped, s.listener.d, HasId(id));
    }
  }

  lemma QueueConserves(s: State, sid: Sid, d: Datagram, v: Session, t: State)
    requires Conserved(s) && sid < |s.sessions| && t.dropped == s.dropped
    requires v.queued == s.sessions[sid].queued + [d] && t.sessions == s.sessions[sid := v]
    requires !s.listener.Reading? && t.listener.Reading? && s.arrivals == t.arrivals != [] && d.id == Settled(s)
    ensures Conserved(t)
  {
    forall id: nat ensures Sum(t.sessions, Queues(id)) + Count(t.dropped, HasId(id)) == One(id < Settled(t)) {
      SumUpdate(s.sessions, sid, v, Queues(id));
      CountAppend(s.sessions[sid].queued, d, HasId(id));
    }
  }

  /** Changing a session without touching its queue moves no datagram. */
  lemma SessionStepConserves(s: State, sid: Sid, v: Session, t: State)
    requires Conserved(s) && sid < |s.sessions| && v.queued == s.sessions[sid].queued
    requires t.sessions == s.sessions[sid := v] && t.dropped == s.dropped && Settled(t) == Settled(s)
    ensures Conserved(t)
  {
    forall id: nat ensures Sum(t.sessions, Queues(id)) + Count(t.dropped, HasId(id)) == One(id < Settled(t)) {
      SumUpdate(s.sessions, sid, v, Queues(id));
    }
  }

  lemma StoreConserves(s: State)
    requires Conserved(s) && s.listener.Creating?
    ensures Conserved(Store(s))
  {
    var t := Store(s);
    forall id: nat ensures Sum(t.sessions, Queues(id)) + Count(t.dropped, HasId(id)) == One(id < Settled(t)) {
      SumAppend(s.sessions, t.sessions[|s.sessions|], Queues(id));
    }
  }

  lemma SendPayloadRouted(s: State, sid: Sid)
    requires Routed(s) && !s.listener.Reading? && sid < |s.sessions|
    requires !s.sessions[sid].closed && s.sessions[sid].addr == s.listener.d.addr
    ensures Routed(SendPayload(s, sid, s.listener.d).(listener := Reading))
  {
    var d := s.listener.d;
    var t := SendPayload(s, sid, d).(listener := Reading);
    if |s.sessions[sid].queued| - s.sessions[sid].taken < PAYLOAD_CAPACITY {
      QueueConserves(s, sid, d, t.sessions[sid], t);
    } else {
      DropConserves(s, t);
    }
  }

  lemma OfferRouted(s: State)
    requires Routed(s) && TableSafe(s) && s.listener.Stored?
    ensures Routed(Offer(s))
  {
    var sid, d := s.listener.sid, s.listener.d;
    if |s.udpChan| < s.channelSize {
      var t := SetSession(s, sid, s.sessions[sid].(stage := Offered)).(udpChan := s.udpChan + [sid]);
      SessionStepConserves(s, sid, t.sessions[sid], t);
      SendPayloadRouted(t, sid);
    } else {
      var t := SetSession(s, sid, s.sessions[sid].(stage := Refused));
      SessionStepConserves(s, sid, t.sessions[sid], t);
      DropConserves(t, Offer(s));
    }
  }

  lemma SessionStepRouted(s: State, sid: Sid, t: State)
    requires Routed(s) && sid < |s.sessions| && |t.sessions| == |s.sessions| && t.sessions == s.sessions[sid := t.sessions[sid]]
    requires t.sessions[sid].queued == s.sessions[sid].queued && t.sessions[sid].addr == s.sessions[sid].addr
    requires t.dropped == s.dropped && t.arrivals == s.arrivals && t.listener == s.listener
    ensures Routed(t)
  {
    SessionStepConserves(s, sid, t.sessions[sid], t);
  }

  lemma LookupRouted(s: State, addr: Addr, data: seq<byte>)
    requires Routed(s) && s.listener.Reading? && |data| <= BUFFER_SIZE - 2
    ensures Routed(Lookup(s, addr, data))
  {
    hide Sum, Count;
  }

  lemma StoreRouted(s: State)
    requires Routed(s) && s.listener.Creating?
    ensures Routed(Store(s))
  {
    hide Sum, Count;
    StoreConserves(s);
  }

  lemma StepRouted(s: State, e: Step)
    requires Routed(s) && TableSafe(s)
    ensures Routed(Apply(s, e))
  {
    hide Routed;
    if Enabled(s, e) {
      match e
      case ELookup(addr, data) => LookupRouted(s, addr, data);
      case EDeliver => SendPayloadRouted(s, s.listener.sid);
      case EStore => StoreRouted(s);
      case EOffer => OfferRouted(s);
      case ETake => SessionStepRouted(s, s.udpChan[0], Apply(s, e));
      case EStart => SessionStepRouted(s, s.holding.value, Apply(s, e));
      case _ => SessionStepRouted(s, e.sid, Apply(s, e));
    }
  }

  /** Over every run each datagram read goes into exactly one session's queue or is dropped, and queues keep the
      order of arrival without duplicates. */
  lemma {:induction false} RunRouted(channelSize: nat, steps: seq<Step>)
    ensures Routed(Run(Init(channelSize), steps))
  {
    if steps != [] {
      RunRouted(channelSize, steps[..|steps| - 1]);
      RunSafe(channelSize, steps[..|steps| - 1]);
      StepRouted(Run(Init(channelSize), steps[..|steps| - 1]), steps[|steps| - 1]);
    }
  }

  // ---------------------------------------------------------------- drops

  /** The step drops this datagram, because the session found has a full payload channel or because the handler channel
      is full. */
  ghost predicate DropsFull(s: State, e: Step, d: Datagram) {
    && Enabled(s, e) && (e.EDeliver? || e.EOffer?) && s.listener.d == d
    && (e.EDeliver? ==>
          s.sessions[s.listener.sid].taken + PAYLOAD_CAPACITY <= |s.sessions[s.listener.sid].queued|)
    && (e.EOffer? ==> |s.udpChan| >= s.channelSize)
  }

  lemma StepDrops(s: State, e: Step)
    requires TableSafe(s)
    ensures Apply(s, e).dropped == s.dropped
            || (DropsFull(s, e, s.listener.d) && Apply(s, e).dropped == s.dropped + [s.listener.d])
  {
    hide Frame;
  }

  /** Over every run a datagram is dropped only when it meets a full channel. */
  lemma {:induction false} RunDropsFull(channelSize: nat, steps: seq<Step>, i: nat)
    requires i < |Run(Init(channelSize), steps).dropped|
    ensures exists k: nat :: k < |steps|
              && DropsFull(Run(Init(channelSize), steps[..k]), steps[k], Run(Init(channelSize), steps).dropped[i])
  {
    hide Apply, DropsFull, TableSafe;
    var n := |steps| - 1;
    var s := Run(Init(channelSize), steps[..n]);
    RunSafe(channelSize, steps[..n]);
    StepDrops(s, steps[n]);
    if i < |s.dropped| {
      RunDropsFull(channelSize, steps[..n], i);
      var k: nat :| k < n && DropsFull(Run(Init(channelSize), steps[..n][..k]), steps[..n][k], s.dropped[i]);
      assert steps[..n][..k] == steps[..k];
    }
  }

  // ---------------------------------------------------------------- output

  function Payloads(q: seq<Datagram>): (ds: seq<seq<byte>>)
    ensures |ds| == |q|
  {
    seq(|q|, i requires 0 <= i < |q| => q[i].data)
  }

  function Carried(q: seq<Datagram>): (ps: seq<Packet>)
    ensures |ps| == |q|
  {
    Plain(Payloads(q))
  }

  /** What the tunnel accepted and what is left of the current packet are the frames of the datagrams taken. */
  ghost predicate Framed(v: Session) {
    && v.taken <= |v.queued| && v.out + v.unsent == Frames(Carried(v.queued[..v.taken]))
    && (forall k :: 0 <= k < |v.queued| ==> |v.queued[k].data| <= BUFFER_SIZE - 2)
  }

  ghost predicate AllFramed(s: State) {
    forall sid {:trigger s.sessions[sid]} :: 0 <= sid < |s.sessions| ==> Framed(s.sessions[sid])
  }

  lemma WriterTakeFramed(v: Session)
    requires Framed(v) && v.taken < |v.queued| && v.unsent == []
    ensures Framed(WriterTake(v))
  {
    hide Frames;
    var d := v.queued[v.taken];
    assert Carried(v.queued[..v.taken + 1]) == Carried(v.queued[..v.taken]) + [Packet([], d.data)];
    FramesAppend(Carried(v.queued[..v.taken]), Packet([], d.data));
  }

  lemma QueueFramed(v: Session, d: Datagram)
    requires Framed(v) && |d.data| <= BUFFER_SIZE - 2
    ensures Framed(v.(queued := v.queued + [d]))
  {
    assert (v.queued + [d])[..v.taken] == v.queued[..v.taken];
  }

  lemma SendPayloadFramed(s: State, sid: Sid, d: Datagram)
    requires AllFramed(s) && sid < |s.sessions| && |d.data| <= BUFFER_SIZE - 2
    ensures AllFramed(SendPayload(s, sid, d).(listener := Reading))
  {
    QueueFramed(s.sessions[sid], d);
  }

  lemma ListenerStepFramed(s: State, e: Step)
    requires AllFramed(s) && TableSafe(s) && Routed(s)
    requires Enabled(s, e) && (e.EDeliver? || e.EOffer? || e.EStore?)
    ensures AllFramed(Apply(s, e))
  {
    hide Frames, Count, Sum;
    match e
    case EDeliver => SendPayloadFramed(s, s.listener.sid, s.listener.d);
    case EOffer =>
      var sid := s.listener.sid;
      SendPayloadFramed(SetSession(s, sid, s.sessions[sid].(stage := Offered)).(udpChan := s.udpChan + [sid]), sid, s.listener.d);
    case EStore => FramesOfNothing();
  }

  lemma WriterWriteFramed(v: Session, n: nat, ok: bool)
    requires Framed(v) && n <= |v.unsent| && v.stage.Running?
    ensures Framed(WriterWrite(v, n, ok))
  {
    assert (v.out + v.unsent[..n]) + v.unsent[n..] == v.out + v.unsent;
  }

  lemma StepFramed(s: State, e: Step)
    requires AllFramed(s) && TableSafe(s) && Routed(s)
    ensures AllFramed(Apply(s, e))
  {
    hide Framed, Routed, TableSafe;
    if Enabled(s, e) {
      match e
      case ELookup(_, _) =>
      case EDeliver => ListenerStepFramed(s, e);
      case EOffer => ListenerStepFramed(s, e);
      case EStore => ListenerStepFramed(s, e);
      case EWriterTake(sid) => WriterTakeFramed(s.sessions[sid]);
      case EWriterWrite(sid, n, ok) => WriterWriteFramed(s.sessions[sid], n, ok);
      case ETake => StageFramed(s.sessions[s.udpChan[0]], Apply(s, e).sessions[s.udpChan[0]]);
      case EStart => StageFramed(s.sessions[s.holding.value], Apply(s, e).sessions[s.holding.value]);
      case _ => StageFramed(s.sessions[e.sid], Apply(s, e).sessions[e.sid]);
    }
  }

  lemma StageFramed(v: Session, w: Session)
    requires Framed(v) && w.queued == v.queued && w.taken == v.taken && w.out == v.out && w.unsent == v.unsent
    ensures Framed(w)
  {
  }

  lemma {:induction false} RunFramed(channelSize: nat, steps: seq<Step>)
    ensures AllFramed(Run(Init(channelSize), steps))
  {
    if steps != [] {
      RunFramed(channelSize, steps[..|steps| - 1]);
      RunSafe(channelSize, steps[..|steps| - 1]);
      RunRouted(channelSize, steps[..|steps| - 1]);
      StepFramed(Run(Init(channelSize), steps[..|steps| - 1]), steps[|steps| - 1]);
    }
  }

  /** Each session's tunnel carries a prefix of the frames of the datagrams queued to it, in arrival order. */
  lemma OutputIsPrefix(channelSize: nat, steps: seq<Step>, sid: Sid)
    requires sid < |Run(Init(channelSize), steps).sessions|
    ensures var v := Run(Init(channelSize), steps).sessions[sid];
            IsPrefix(v.out, Frames(Carried(v.queued)))
  {
    hide Frames;
    RunFramed(channelSize, steps);
    var v := Run(Init(channelSize), steps).sessions[sid];
    assert Carried(v.queued) == Carried(v.queued[..v.taken]) + Carried(v.queued[v.taken..]);
    FramesConcat(Carried(v.queued[..v.taken]), Carried(v.queued[v.taken..]));
  }

  // ---------------------------------------------------------------- all laws together

  /** Everything proved of a listener's state, as one invariant. */
  ghost predicate Lawful(s: State) {
    TableSafe(s) && Routed(s) && AllFramed(s)
  }

  lemma StepLawful(s: State, e: Step)
    requires Lawful(s)
    ensures Lawful(Apply(s, e))
  {
    hide TableSafe, Routed, AllFramed, Apply;
    StepSafe(s, e);
    StepRouted(s, e);
    StepFramed(s, e);
  }

  lemma InitLawful(channelSize: nat)
    ensures Lawful(Init(channelSize))
  {
  }

  /** What the goroutines rely on without looking. */
  lemma LawfulListener(s: State)
    requires Lawful(s)
    ensures s.listener.Found? || s.listener.Stored? ==> s.listener.sid < |s.sessions| && !s.sessions[s.listener.sid].closed
    ensures forall a {:trigger s.active[a]} :: a in s.active ==> s.active[a] < |s.sessions|
    ensures s.udpChan != [] ==> s.udpChan[0] < |s.sessions|
    ensures s.holding.Some? ==> s.holding.value < |s.sessions|
  {
    hide Routed, AllFramed;
    if s.listener.Stored? {
      assert SessionSafe(s.active, s.listener.sid, s.sessions[s.listener.sid]);
    }
    forall a {:trigger s.active[a]} | a in s.active ensures s.active[a] < |s.sessions| {
      assert EntrySafe(s, a);
    }
  }

  lemma LawfulHandler(s: State, id: Sid)
    requires Lawful(s) && id < |s.sessions| && s.sessions[id].stage.Running?
    ensures !s.sessions[id].closed
    ensures !s.sessions[id].congested ==> s.sessions[id].addr in s.active && s.active[s.sessions[id].addr] == id
  {
    hide Routed, AllFramed;
    assert SessionSafe(s.active, id, s.sessions[id]);
  }
}
