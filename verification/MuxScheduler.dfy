/** The scheduler of the multiplexed TCP transport: accepters count streams and ask for sessions, sessions hold a
    fixed number of slots and pick connections from a shared queue. Each step is one shared-memory operation. */
module MuxScheduler {
  import opened Base

  type Conn = nat

  /** Where handleSession stands. */
  datatype Phase =
    | Acquiring             // about to take a slot
    | Selecting             // slot taken, waiting for a connection
    | Picked(conn: Conn)
    | Releasing             // the picked connection had timed out
    | Requeueing(conn: Conn) // the address could not be sent
    | Returning(conn: Conn) // no stream could be opened; the session is no longer counted
    | Asking
    | Gone
    | Cancelled

  datatype Session = Session(
    phase: Phase,
    slots: nat,     // elements of the slot channel
    running: nat,   // streams copying
    finishing: nat, // streams that have been subtracted from the counter but still hold their slot
    leaked: nat)    // slots kept by failed address sends

  datatype State = State(
    muxCon: nat,
    channelSize: nat,
    localChannel: seq<Conn>,
    pushed: nat,    // accepters between queueing a connection and counting it
    comparing: nat, // accepters about to load the stream counter
    loaded: seq<int>, // what accepters have loaded of it, about to compare
    streamCounter: int,
    starting: nat,  // sessions taken from the tunnel channel and not yet counted
    sessionCounter: int,
    sessions: seq<Session>,
    requests: nat,
    cancelled: bool)

  function Init(muxCon: nat, channelSize: nat): State {
    State(muxCon, channelSize, [], 0, 0, [], 0, 0, 0, [], 0, false)
  }

  datatype Step =
    | EPush(c: Conn)
    | ECount
    | ELoad
    | ECompare(k: nat)
    | ETakeSession
    | ECountSession
    | ERequestTaken
    | ECancel
    | EAcquire(i: nat)
    | ESelect(i: nat)
    | EExpire(i: nat)
    | ERelease(i: nat)
    | EOpenFails(i: nat)
    | EPutBack(i: nat)
    | EAsk(i: nat)
    | ESendFails(i: nat)
    | ERequeue(i: nat)
    | ESendOk(i: nat)
    | EEndStream(i: nat)
    | EReleaseStream(i: nat)
    | ELeave(i: nat)

  function Request(s: State): State {
    if s.requests < s.channelSize then s.(requests := s.requests + 1) else s
  }

  function Set(s: State, i: nat, v: Session): State
    requires i < |s.sessions|
  {
    s.(sessions := s.sessions[i := v])
  }

  predicate Enabled(s: State, e: Step) {
    match e
    case EPush(_) => |s.localChannel| < s.channelSize
    case ECount => s.pushed > 0
    case ELoad => s.comparing > 0
    case ECompare(k) => k < |s.loaded|
    case ETakeSession => true
    case ECountSession => s.starting > 0
    case ERequestTaken => s.requests > 0
    case ECancel => true
    case _ => e.i < |s.sessions| && SessionEnabled(s, s.sessions[e.i], e)
  }

  predicate SessionEnabled(s: State, v: Session, e: Step) {
    match e
    case EAcquire(_) => v.phase.Acquiring? && v.slots < s.muxCon
    case ESelect(_) => v.phase.Selecting? && s.localChannel != []
    case EExpire(_) => v.phase.Picked?
    case ERelease(_) => v.phase.Releasing?
    case EOpenFails(_) => v.phase.Picked?
    case EPutBack(_) => v.phase.Returning? && |s.localChannel| < s.channelSize
    case EAsk(_) => v.phase.Asking?
    case ESendFails(_) => v.phase.Picked?
    case ERequeue(_) => v.phase.Requeueing? && |s.localChannel| < s.channelSize
    case ESendOk(_) => v.phase.Picked?
    case EEndStream(_) => v.running > 0
    case EReleaseStream(_) => v.finishing > 0
    case ELeave(_) => s.cancelled && v.phase.Selecting?
    case _ => false
  }

  function Less(n: nat): nat { if n > 0 then n - 1 else 0 }

  function SessionApply(s: State, i: nat, v: Session, e: Step): State
    requires i < |s.sessions| && SessionEnabled(s, v, e)
  {
    match e
    case EAcquire(_) => Set(s, i, v.(phase := Selecting, slots := v.slots + 1))
    case ESelect(_) => Set(s, i, v.(phase := Picked(s.localChannel[0]))).(localChannel := s.localChannel[1..])
    case EExpire(_) => Set(s, i, v.(phase := Releasing)).(streamCounter := s.streamCounter - 1)
    case ERelease(_) => Set(s, i, v.(phase := Acquiring, slots := Less(v.slots)))
    case EOpenFails(_) => Set(s, i, v.(phase := Returning(v.phase.conn))).(sessionCounter := s.sessionCounter - 1)
    case EPutBack(_) => Set(s, i, v.(phase := Asking)).(localChannel := s.localChannel + [v.phase.conn])
    case EAsk(_) => Request(Set(s, i, v.(phase := Gone)))
    case ESendFails(_) => Set(s, i, v.(phase := Requeueing(v.phase.conn)))
    case ERequeue(_) =>
      Set(s, i, v.(phase := Acquiring, leaked := v.leaked + 1)).(localChannel := s.localChannel + [v.phase.conn])
    case ESendOk(_) => Set(s, i, v.(phase := Acquiring, running := v.running + 1))
    case EEndStream(_) =>
      Set(s, i, v.(running := v.running - 1, finishing := v.finishing + 1)).(streamCounter := s.streamCounter - 1)
    case EReleaseStream(_) => Set(s, i, v.(finishing := v.finishing - 1, slots := Less(v.slots)))
    case ELeave(_) => Set(s, i, v.(phase := Cancelled))
  }

  function Apply(s: State, e: Step): State {
    if !Enabled(s, e) then s else
    match e
    case EPush(c) => s.(localChannel := s.localChannel + [c], pushed := s.pushed + 1)
    case ECount => s.(pushed := s.pushed - 1, streamCounter := s.streamCounter + 1, comparing := s.comparing + 1)
    case ELoad => s.(comparing := s.comparing - 1, loaded := s.loaded + [s.streamCounter])
    case ECompare(k) =>
      var t := s.(loaded := Remove(s.loaded, k));
      if s.loaded[k] >= s.sessionCounter * s.muxCon then Request(t) else t
    case ETakeSession => s.(starting := s.starting + 1)
    case ECountSession =>
      s.(starting := s.starting - 1, sessionCounter := s.sessionCounter + 1,
         sessions := s.sessions + [Session(Acquiring, 0, 0, 0, 0)])
    case ERequestTaken => s.(requests := s.requests - 1)
    case ECancel => s.(cancelled := true)
    case _ => SessionApply(s, e.i, s.sessions[e.i], e)
  }

  function Run(s: State, steps: seq<Step>): State {
    if steps == [] then s else Apply(Run(s, steps[..|steps| - 1]), steps[|steps| - 1])
  }

  // ---------------------------------------------------------------- accounting

  predicate Live(v: Session) {
    !v.phase.Returning? && !v.phase.Asking? && !v.phase.Gone? && !v.phase.Cancelled?
  }

  predicate Counted(v: Session) { Live(v) || v.phase.Cancelled? }

  predicate Holds(v: Session) { v.phase.Picked? || v.phase.Requeueing? || v.phase.Returning? }

  /** The slot of the pick in progress. */
  predicate HasPick(v: Session) {
    v.phase.Selecting? || v.phase.Picked? || v.phase.Releasing? || v.phase.Requeueing?
  }

  function Running(v: Session): int { v.running }

  /** Slots of a live session that no stream, finishing stream or failed send occupies. */
  function Free(muxCon: nat): Session -> int {
    (v: Session) => if Live(v) then muxCon - v.running - v.finishing - v.leaked else 0
  }

  /** Slots of a live session withheld by streams being torn down and by failed address sends. */
  function Withheld(v: Session): int { if Live(v) then v.finishing + v.leaked else 0 }

  ghost predicate StreamsCounted(s: State) {
    s.streamCounter + s.pushed == |s.localChannel| + Count(s.sessions, Holds) + Sum(s.sessions, Running)
  }

  ghost predicate SessionsCounted(s: State) {
    && s.sessionCounter == Count(s.sessions, Counted)
    && (!s.cancelled ==> s.sessionCounter == Count(s.sessions, Live))
  }

  predicate SlotsCounted(muxCon: nat, v: Session) {
    Live(v) ==> v.slots == v.running + v.finishing + v.leaked + One(HasPick(v)) && v.slots <= muxCon
  }

  ghost predicate Accounted(s: State) {
    && StreamsCounted(s) && SessionsCounted(s)
    && (forall i {:trigger s.sessions[i]} :: 0 <= i < |s.sessions| ==> SlotsCounted(s.muxCon, s.sessions[i]))
    && (!s.cancelled ==> forall i {:trigger s.sessions[i]} :: 0 <= i < |s.sessions| ==> !s.sessions[i].phase.Cancelled?)
  }

  lemma SetCounts(s: State, i: nat, v: Session)
    requires i < |s.sessions|
    ensures Count(s.sessions[i := v], Holds) + One(Holds(s.sessions[i])) == Count(s.sessions, Holds) + One(Holds(v))
    ensures Count(s.sessions[i := v], Counted) + One(Counted(s.sessions[i])) == Count(s.sessions, Counted) + One(Counted(v))
    ensures Count(s.sessions[i := v], Live) + One(Live(s.sessions[i])) == Count(s.sessions, Live) + One(Live(v))
    ensures Sum(s.sessions[i := v], Running) == Sum(s.sessions, Running) - s.sessions[i].running + v.running
  {
    CountUpdate(s.sessions, i, v, Holds);
    CountUpdate(s.sessions, i, v, Counted);
    CountUpdate(s.sessions, i, v, Live);
    SumUpdate(s.sessions, i, v, Running);
  }

  lemma SessionStepAccounted(s: State, i: nat, e: Step)
    requires Accounted(s) && i < |s.sessions| && SessionEnabled(s, s.sessions[i], e)
    ensures Accounted(SessionApply(s, i, s.sessions[i], e))
  {
    hide Count, Sum;
    SetCounts(s, i, SessionApply(s, i, s.sessions[i], e).sessions[i]);
  }

  lemma NewSessionAccounted(s: State)
    requires Accounted(s) && Enabled(s, ECountSession)
    ensures Accounted(Apply(s, ECountSession))
  {
    hide Count, Sum;
    var v := Session(Acquiring, 0, 0, 0, 0);
    CountAppend(s.sessions, v, Holds);
    CountAppend(s.sessions, v, Counted);
    CountAppend(s.sessions, v, Live);
    SumAppend(s.sessions, v, Running);
  }

  lemma StepAccounted(s: State, e: Step)
    requires Accounted(s)
    ensures Accounted(Apply(s, e)) && Apply(s, e).muxCon == s.muxCon
  {
    hide Count, Sum;
    if Enabled(s, e) {
      match e
      case EPush(_) =>
      case ECount =>
      case ELoad =>
      case ECompare(_) =>
      case ETakeSession =>
      case ECountSession => NewSessionAccounted(s);
      case ERequestTaken =>
      case ECancel =>
      case _ => SessionStepAccounted(s, e.i, e);
    }
  }

  /** Over every run: the stream counter plus the accepters still to count equals queued, held and running connections;
      the session counter equals the live sessions until cancellation; and a live session's slots are its unreleased
      streams, its current pick and one per failed address send, never more than the limit. */
  lemma {:induction false} RunAccounted(muxCon: nat, channelSize: nat, steps: seq<Step>)
    ensures Accounted(Run(Init(muxCon, channelSize), steps))
    ensures Run(Init(muxCon, channelSize), steps).muxCon == muxCon
  {
    if steps != [] {
      RunAccounted(muxCon, channelSize, steps[..|steps| - 1]);
      StepAccounted(Run(Init(muxCon, channelSize), steps[..|steps| - 1]), steps[|steps| - 1]);
    }
  }

  // ---------------------------------------------------------------- the request rule

  /** Streams still copying on sessions that are gone: counted, but on nobody's slots. */
  function GoneRunning(v: Session): int { if Live(v) then 0 else v.running }

  lemma {:induction false} FreeSlots(vs: seq<Session>, muxCon: nat)
    ensures Sum(vs, Free(muxCon)) + Sum(vs, Withheld)
            == Count(vs, Live) * muxCon - Sum(vs, Running) + Sum(vs, GoneRunning)
  {
    if vs != [] {
      var n := |vs| - 1;
      FreeSlots(vs[..n], muxCon);
      assert Count(vs, Live) * muxCon == Count(vs[..n], Live) * muxCon + One(Live(vs[n])) * muxCon;
    }
  }

  /** Over every run, the connections waiting exceed the free slots by exactly as much as the streams counted or to be
      counted and the slots withheld exceed the counted sessions' slots and the streams of sessions that are gone. */
  lemma RoomLedger(muxCon: nat, channelSize: nat, steps: seq<Step>)
    requires !Run(Init(muxCon, channelSize), steps).cancelled
    ensures var s := Run(Init(muxCon, channelSize), steps);
            |s.localChannel| + Count(s.sessions, Holds) - Sum(s.sessions, Free(muxCon))
            == s.streamCounter + s.pushed + Sum(s.sessions, Withheld) - s.sessionCounter * muxCon - Sum(s.sessions, GoneRunning)
  {
    hide Count, Sum;
    RunAccounted(muxCon, channelSize, steps);
    FreeSlots(Run(Init(muxCon, channelSize), steps).sessions, muxCon);
  }

  /** The exact condition: there is a free slot for every waiting connection if and only if the streams counted or to be
      counted and the slots withheld fit into the counted sessions, leaving aside streams of sessions that are gone. */
  lemma RoomExactly(muxCon: nat, channelSize: nat, steps: seq<Step>)
    requires !Run(Init(muxCon, channelSize), steps).cancelled
    ensures var s := Run(Init(muxCon, channelSize), steps);
            |s.localChannel| + Count(s.sessions, Holds) <= Sum(s.sessions, Free(muxCon))
            <==> s.streamCounter + s.pushed + Sum(s.sessions, Withheld)
                 <= s.sessionCounter * muxCon + Sum(s.sessions, GoneRunning)
  {
    hide Count, Sum;
    RoomLedger(muxCon, channelSize, steps);
  }

  /** What the rule is right about: while the counters say that no session need be requested, only accepters that have
      not counted yet and withheld slots can make the waiting connections outnumber the free slots. */
  lemma RequestRuleSound(muxCon: nat, channelSize: nat, steps: seq<Step>)
    ensures var s := Run(Init(muxCon, channelSize), steps);
            !s.cancelled && s.streamCounter < s.sessionCounter * muxCon ==>
              |s.localChannel| + Count(s.sessions, Holds)
              < Sum(s.sessions, Free(muxCon)) + s.pushed + Sum(s.sessions, Withheld)
  {
    hide Count, Sum;
    var s := Run(Init(muxCon, channelSize), steps);
    if !s.cancelled {
      RoomLedger(muxCon, channelSize, steps);
      GoneNonNegative(s.sessions);
    }
  }

  lemma {:induction false} GoneNonNegative(vs: seq<Session>)
    ensures Sum(vs, GoneRunning) >= 0
  {
    if vs != [] {
      GoneNonNegative(vs[..|vs| - 1]);
    }
  }

  /** An accept whose loaded count is not below the current one, with no accepter still to count, no slot being released
      and no failed send, leaves a slot for everyone when it asks for nothing. */
  lemma QuietAcceptHasRoom(muxCon: nat, channelSize: nat, steps: seq<Step>, k: nat)
    requires var s := Run(Init(muxCon, channelSize), steps);
             && !s.cancelled && k < |s.loaded| && s.streamCounter <= s.loaded[k] && s.pushed == 0
             && (forall i :: 0 <= i < |s.sessions| ==> s.sessions[i].finishing == 0 && s.sessions[i].leaked == 0)
             && Apply(s, ECompare(k)).requests == s.requests < channelSize
    ensures var s := Run(Init(muxCon, channelSize), steps);
            |s.localChannel| + Count(s.sessions, Holds) < Sum(s.sessions, Free(muxCon))
  {
    hide Count, Sum;
    var s := Run(Init(muxCon, channelSize), steps);
    RunAccounted(muxCon, channelSize, steps);
    RequestRuleSound(muxCon, channelSize, steps);
    NothingWithheld(s.sessions);
    RunKeepsSize(muxCon, channelSize, steps);
  }

  lemma {:induction false} NothingWithheld(vs: seq<Session>)
    requires forall i :: 0 <= i < |vs| ==> vs[i].finishing == 0 && vs[i].leaked == 0
    ensures Sum(vs, Withheld) == 0
  {
    if vs != [] {
      NothingWithheld(vs[..|vs| - 1]);
    }
  }

  lemma StepKeepsSize(s: State, e: Step)
    ensures Apply(s, e).channelSize == s.channelSize
  {
  }

  lemma {:induction false} RunKeepsSize(muxCon: nat, channelSize: nat, steps: seq<Step>)
    ensures Run(Init(muxCon, channelSize), steps).channelSize == channelSize
  {
    if steps != [] {
      RunKeepsSize(muxCon, channelSize, steps[..|steps| - 1]);
      StepKeepsSize(Run(Init(muxCon, channelSize), steps[..|steps| - 1]), steps[|steps| - 1]);
    }
  }

  // ---------------------------------------------------------------- failed address sends

  /** A session all of whose slots were kept by failed sends. */
  predicate Wedged(s: State, i: nat) {
    i < |s.sessions| && Live(s.sessions[i]) && s.sessions[i].leaked == s.muxCon
  }

  lemma WedgedWaits(s: State, i: nat)
    requires Accounted(s) && Wedged(s, i)
    ensures s.sessions[i].phase.Acquiring?
  {
    hide Count, Sum;
    assert SlotsCounted(s.muxCon, s.sessions[i]);
  }

  lemma StepKeepsWedged(s: State, e: Step, i: nat)
    requires Accounted(s) && Wedged(s, i)
    ensures Wedged(Apply(s, e), i)
  {
    hide Count, Sum;
    WedgedWaits(s, i);
    assert SlotsCounted(s.muxCon, s.sessions[i]);
  }

  /** A wedged session stays counted as live, and waits for a slot for the rest of the run: it picks no connection. */
  lemma {:induction false} WedgedForever(muxCon: nat, channelSize: nat, before: seq<Step>, i: nat, after: seq<Step>)
    requires Wedged(Run(Init(muxCon, channelSize), before), i)
    ensures var t := Run(Init(muxCon, channelSize), before + after);
            Wedged(t, i) && t.sessions[i].phase.Acquiring?
  {
    hide Accounted, Apply;
    var all := before + after;
    if after == [] {
      assert all == before;
    } else {
      assert all[..|all| - 1] == before + after[..|after| - 1];
      WedgedForever(muxCon, channelSize, before, i, after[..|after| - 1]);
      RunAccounted(muxCon, channelSize, all[..|all| - 1]);
      StepKeepsWedged(Run(Init(muxCon, channelSize), all[..|all| - 1]), all[|all| - 1], i);
    }
    RunAccounted(muxCon, channelSize, all);
    WedgedWaits(Run(Init(muxCon, channelSize), all), i);
  }
}
