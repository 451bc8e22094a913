/** Which connections the mux scheduler serves, and in what order: what a run does is compared with what its steps say. */
module MuxOrder {
  import opened Base
  import opened MuxScheduler

  function From(muxCon: nat, channelSize: nat): seq<Step> -> State {
    (steps: seq<Step>) => Run(Init(muxCon, channelSize), steps)
  }

  /** Accepted while the queue has room. */
  function PushedBy(s: State, e: Step): seq<Conn> {
    if e.EPush? && |s.localChannel| < s.channelSize then [e.c] else []
  }

  /** Queued again: by a session that could open no stream, or could not send the address. */
  function ReturnedBy(s: State, e: Step): seq<Conn> {
    if !Enabled(s, e) then [] else
    match e
    case EPutBack(i) => [s.sessions[i].phase.conn]
    case ERequeue(i) => [s.sessions[i].phase.conn]
    case _ => []
  }

  function EnteredBy(s: State, e: Step): seq<Conn> { PushedBy(s, e) + ReturnedBy(s, e) }

  predicate Holding(v: Session) { v.phase.Picked? || v.phase.Requeueing? || v.phase.Returning? }

  /** What the session holds after its select. */
  function PickedBy(s: State, e: Step): seq<Conn> {
    if !(Enabled(s, e) && e.ESelect?) then [] else
    var t := Apply(s, e);
    if e.i < |t.sessions| && Holding(t.sessions[e.i]) then [t.sessions[e.i].phase.conn] else []
  }

  /** Given a stream of its own. */
  function ServedBy(s: State, e: Step): seq<Conn> {
    if Enabled(s, e) && e.ESendOk? then [s.sessions[e.i].phase.conn] else []
  }

  /** Closed as older than three seconds. */
  function ExpiredBy(s: State, e: Step): seq<Conn> {
    if Enabled(s, e) && e.EExpire? then [s.sessions[e.i].phase.conn] else []
  }

  // ---------------------------------------------------------------- order

  lemma StepKeepsOrder(s: State, e: Step)
    ensures PickedBy(s, e) + Apply(s, e).localChannel == s.localChannel + EnteredBy(s, e)
    ensures |s.localChannel| <= s.channelSize ==> |Apply(s, e).localChannel| <= s.channelSize
  {
  }

  /** Over every run connections are picked in exactly the order in which they entered the queue, by an accept or by a
      requeue: what was picked, followed by what is queued, is what entered. */
  lemma {:induction false} RunKeepsOrder(muxCon: nat, channelSize: nat, steps: seq<Step>)
    ensures var at := From(muxCon, channelSize);
            Gathered(at, steps, PickedBy) + at(steps).localChannel == Gathered(at, steps, EnteredBy)
    ensures |Run(Init(muxCon, channelSize), steps).localChannel| <= channelSize
  {
    hide Apply, PickedBy, EnteredBy;
    RunKeepsSize(muxCon, channelSize, steps);
    if steps != [] {
      var at, before, e := From(muxCon, channelSize), steps[..|steps| - 1], steps[|steps| - 1];
      RunKeepsSize(muxCon, channelSize, before);
      RunKeepsOrder(muxCon, channelSize, before);
      var s := at(before);
      StepKeepsOrder(s, e);
      Handover(Gathered(at, before, PickedBy), s.localChannel, Gathered(at, before, EnteredBy),
               PickedBy(s, e), Apply(s, e).localChannel, EnteredBy(s, e));
    }
  }

  // ---------------------------------------------------------------- one place each

  function Is(c: Conn): Conn -> bool { x => x == c }
  function HoldsIt(c: Conn): Session -> bool { (v: Session) => Holding(v) && v.phase.conn == c }

  /** A connection queued or in a session's hands. */
  ghost function Present(s: State, c: Conn): int { Count(s.localChannel, Is(c)) + Count(s.sessions, HoldsIt(c)) }

  lemma OneCount(q: seq<Conn>, c: Conn)
    ensures q == [] ==> Count(q, Is(c)) == 0
    ensures |q| == 1 ==> Count(q, Is(c)) == One(q[0] == c)
  {
    if |q| == 1 {
      assert q[..0] == [];
    }
  }

  lemma SessionStepPlaces(s: State, e: Step, c: Conn)
    requires e != ETakeSession && e != ECountSession && e != ERequestTaken && e != ECancel && e != ECount && e != ELoad
    requires !e.EPush? && !e.ECompare? && e.i < |s.sessions| && SessionEnabled(s, s.sessions[e.i], e)
    ensures Present(Apply(s, e), c) + Count(ServedBy(s, e), Is(c)) + Count(ExpiredBy(s, e), Is(c)) == Present(s, c)
  {
    hide Count;
    var t := Apply(s, e);
    var v := s.sessions[e.i];
    CountUpdate(s.sessions, e.i, t.sessions[e.i], HoldsIt(c));
    OneCount(ServedBy(s, e), c);
    OneCount(ExpiredBy(s, e), c);
    if e.ESelect? {
      CountHead(s.localChannel, Is(c));
    }
    if e.EPutBack? || e.ERequeue? {
      CountAppend(s.localChannel, v.phase.conn, Is(c));
    }
  }

  lemma StepPlaces(s: State, e: Step, c: Conn)
    ensures Present(Apply(s, e), c) + Count(ServedBy(s, e), Is(c)) + Count(ExpiredBy(s, e), Is(c))
            == Present(s, c) + Count(PushedBy(s, e), Is(c))
  {
    hide Count;
    OneCount(PushedBy(s, e), c);
    OneCount(ServedBy(s, e), c);
    OneCount(ExpiredBy(s, e), c);
    if Enabled(s, e) {
      match e
      case EPush(d) => CountAppend(s.localChannel, d, Is(c));
      case ECount =>
      case ELoad =>
      case ECompare(_) =>
      case ETakeSession =>
      case ECountSession => CountAppend(s.sessions, Session(Acquiring, 0, 0, 0, 0), HoldsIt(c));
      case ERequestTaken =>
      case ECancel =>
      case _ => SessionStepPlaces(s, e, c);
    }
  }

  /** Over every run each accepted connection is in exactly one place, as often as it was accepted: queued, in a session's
      hands, served by a stream, or expired. */
  lemma {:induction false} RunPlaces(muxCon: nat, channelSize: nat, steps: seq<Step>, c: Conn)
    ensures var at := From(muxCon, channelSize);
            Count(Gathered(at, steps, PushedBy), Is(c))
            == Present(at(steps), c) + Count(Gathered(at, steps, ServedBy), Is(c)) + Count(Gathered(at, steps, ExpiredBy), Is(c))
  {
    hide Apply, PushedBy, ServedBy, ExpiredBy;
    if steps != [] {
      hide Count, Present;
      var at, before, e := From(muxCon, channelSize), steps[..|steps| - 1], steps[|steps| - 1];
      var s := at(before);
      RunPlaces(muxCon, channelSize, before, c);
      StepPlaces(s, e, c);
      CountConcat(Gathered(at, before, PushedBy), PushedBy(s, e), Is(c));
      CountConcat(Gathered(at, before, ServedBy), ServedBy(s, e), Is(c));
      CountConcat(Gathered(at, before, ExpiredBy), ExpiredBy(s, e), Is(c));
    }
  }

  // ---------------------------------------------------------------- requests

  /** A session is asked for: by an accepter whose loaded count reaches the counted sessions' slots, or by a session that
      could open no stream; but only into a channel with room. */
  predicate Asks(s: State, e: Step) {
    && s.requests < s.channelSize
    && ((e.ECompare? && e.k < |s.loaded| && s.loaded[e.k] >= s.sessionCounter * s.muxCon)
        || (e.EAsk? && e.i < |s.sessions| && s.sessions[e.i].phase.Asking?))
  }

  /** Requests made and taken so far. */
  ghost function Requested(s: State, steps: seq<Step>): int {
    if steps == [] then 0 else
    var t, e := Run(s, steps[..|steps| - 1]), steps[|steps| - 1];
    Requested(s, steps[..|steps| - 1]) + One(Asks(t, e)) - One(e.ERequestTaken? && t.requests > 0)
  }

  lemma StepRequests(s: State, e: Step)
    ensures Apply(s, e).requests == s.requests + One(Asks(s, e)) - One(e.ERequestTaken? && s.requests > 0)
    ensures e.ELoad? && s.comparing > 0 ==> Apply(s, e).loaded == s.loaded + [s.streamCounter]
    ensures e.ECompare? && e.k < |s.loaded| ==> Apply(s, e).loaded == Remove(s.loaded, e.k)
    ensures !e.ELoad? && !e.ECompare? ==> Apply(s, e).loaded == s.loaded
  {
  }

  /** Over every run the request channel holds the requests asked for and not yet taken, never more than fit. */
  lemma {:induction false} RunRequests(muxCon: nat, channelSize: nat, steps: seq<Step>)
    ensures var s := Run(Init(muxCon, channelSize), steps);
            s.requests == Requested(Init(muxCon, channelSize), steps) && s.requests <= channelSize
  {
    hide Apply;
    if steps != [] {
      RunRequests(muxCon, channelSize, steps[..|steps| - 1]);
      RunKeepsSize(muxCon, channelSize, steps[..|steps| - 1]);
      StepRequests(Run(Init(muxCon, channelSize), steps[..|steps| - 1]), steps[|steps| - 1]);
    }
  }

  // ---------------------------------------------------------------- sessions and counters

  function IsStep(f: Step): (State, Step) -> bool { (s, e) => e == f && Enabled(s, e) }
  function Compares(s: State, e: Step): bool { e.ECompare? && Enabled(s, e) }

  predicate SessionStep(e: Step) {
    || e.EAcquire? || e.ESelect? || e.EExpire? || e.ERelease? || e.EOpenFails? || e.EPutBack? || e.EAsk?
    || e.ESendFails? || e.ERequeue? || e.ESendOk? || e.EEndStream? || e.EReleaseStream? || e.ELeave?
  }

  /** What each step of a session makes of it. */
  lemma SessionMoves(s: State, e: Step)
    requires Enabled(s, e) && SessionStep(e)
    ensures |Apply(s, e).sessions| == |s.sessions|
    ensures var v, w := s.sessions[e.i], Apply(s, e).sessions[e.i];
            && w.running == v.running + One(e.ESendOk?) - One(e.EEndStream?)
            && w.finishing == v.finishing + One(e.EEndStream?) - One(e.EReleaseStream?)
            && w.leaked == v.leaked + One(e.ERequeue?)
            && w.phase == (match e
                           case EAcquire(_) => Selecting
                           case ESelect(_) => Picked(s.localChannel[0])
                           case EExpire(_) => Releasing
                           case EOpenFails(_) => Returning(v.phase.conn)
                           case EPutBack(_) => Asking
                           case EAsk(_) => Gone
                           case ESendFails(_) => Requeueing(v.phase.conn)
                           case ERelease(_) => Acquiring
                           case ERequeue(_) => Acquiring
                           case ESendOk(_) => Acquiring
                           case ELeave(_) => Cancelled
                           case _ => v.phase)
    ensures forall k {:trigger Apply(s, e).sessions[k]} :: 0 <= k < |s.sessions| && k != e.i ==>
              Apply(s, e).sessions[k] == s.sessions[k]
  {
  }

  /** A step of no session, or one that is not enabled, leaves every session alone. */
  lemma SessionsStay(s: State, e: Step)
    requires !(Enabled(s, e) && SessionStep(e))
    ensures |s.sessions| <= |Apply(s, e).sessions| && Apply(s, e).sessions[..|s.sessions|] == s.sessions
  {
  }

  lemma StepStreams(s: State, e: Step, i: nat)
    requires i < |s.sessions|
    ensures i < |Apply(s, e).sessions|
    ensures var v, w := s.sessions[i], Apply(s, e).sessions[i];
            && w.running == v.running + One(IsStep(ESendOk(i))(s, e)) - One(IsStep(EEndStream(i))(s, e))
            && w.finishing == v.finishing + One(IsStep(EEndStream(i))(s, e)) - One(IsStep(EReleaseStream(i))(s, e))
            && w.leaked == v.leaked + One(IsStep(ERequeue(i))(s, e))
  {
    if Enabled(s, e) && SessionStep(e) {
      SessionMoves(s, e);
      hide Apply, Enabled;
    } else {
      SessionsStay(s, e);
      hide Apply, Enabled;
      assert Apply(s, e).sessions[i] == Apply(s, e).sessions[..|s.sessions|][i];
    }
  }

  lemma StepCounters(s: State, e: Step)
    ensures var t := Apply(s, e);
            && |t.sessions| == |s.sessions| + One(IsStep(ECountSession)(s, e))
            && (|t.sessions| > |s.sessions| ==> t.sessions[|s.sessions|] == Session(Acquiring, 0, 0, 0, 0))
            && t.starting == s.starting + One(IsStep(ETakeSession)(s, e)) - One(IsStep(ECountSession)(s, e))
            && t.comparing == s.comparing + One(IsStep(ECount)(s, e)) - One(IsStep(ELoad)(s, e))
            && |t.loaded| == |s.loaded| + One(IsStep(ELoad)(s, e)) - One(Compares(s, e))
            && t.pushed == s.pushed + |PushedBy(s, e)| - One(IsStep(ECount)(s, e))
            && (t.cancelled <==> s.cancelled || e == ECancel)
  {
  }

  /** Over every run a session's streams, finishing streams and failed sends are those its steps say, and the accepters and
      workers in between their operations are as many as have started and not gone on. */
  lemma {:induction false} RunStreams(muxCon: nat, channelSize: nat, steps: seq<Step>, i: nat)
    ensures var at := From(muxCon, channelSize);
            var s := at(steps);
            && |s.sessions| == Times(at, steps, IsStep(ECountSession))
            && s.starting == Times(at, steps, IsStep(ETakeSession)) - Times(at, steps, IsStep(ECountSession))
            && s.comparing == Times(at, steps, IsStep(ECount)) - Times(at, steps, IsStep(ELoad))
            && |s.loaded| == Times(at, steps, IsStep(ELoad)) - Times(at, steps, Compares)
            && s.pushed == |Gathered(at, steps, PushedBy)| - Times(at, steps, IsStep(ECount))
            && (s.cancelled <==> ECancel in steps)
            && (i < |s.sessions| ==>
                  && s.sessions[i].running == Times(at, steps, IsStep(ESendOk(i))) - Times(at, steps, IsStep(EEndStream(i)))
                  && s.sessions[i].finishing == Times(at, steps, IsStep(EEndStream(i))) - Times(at, steps, IsStep(EReleaseStream(i)))
                  && s.sessions[i].leaked == Times(at, steps, IsStep(ERequeue(i))))
            && (i >= |s.sessions| ==>
                  && Times(at, steps, IsStep(ESendOk(i))) == Times(at, steps, IsStep(EEndStream(i))) == 0
                  && Times(at, steps, IsStep(EReleaseStream(i))) == Times(at, steps, IsStep(ERequeue(i))) == 0)
  {
    hide Apply, IsStep, Compares, PushedBy;
    if steps != [] {
      var at, before, e := From(muxCon, channelSize), steps[..|steps| - 1], steps[|steps| - 1];
      var s := at(before);
      RunStreams(muxCon, channelSize, before, i);
      StepCounters(s, e);
      assert steps == before + [e];
      if i < |s.sessions| {
        StepStreams(s, e, i);
      } else {
        NoSuchSession(s, e, i);
      }
    }
  }

  lemma NoSuchSession(s: State, e: Step, i: nat)
    requires i >= |s.sessions|
    ensures !IsStep(ESendOk(i))(s, e) && !IsStep(EEndStream(i))(s, e) && !IsStep(EReleaseStream(i))(s, e) && !IsStep(ERequeue(i))(s, e)
  {
  }
}
