/** The multiplexed transport as an object whose counters, queue and sessions are updated in place; each method is one
    shared-memory operation of acceptLocalConn, handleLoop or handleSession. Each is that step of `MuxScheduler` and keeps
    its accounts. */
module MuxTransport {
  import opened Base
  import opened MuxScheduler

  class TcpMuxTransport {
    const muxCon: nat
    const channelSize: nat
    var localChannel: seq<Conn>
    var pushed: nat
    var comparing: nat
    var loaded: seq<int>
    var streamCounter: int
    var starting: nat
    var sessionCounter: int
    var sessions: seq<Session>
    var reqNewConnChan: nat
    var cancelled: bool

    ghost function View(): State
      reads this
    {
      State(muxCon, channelSize, localChannel, pushed, comparing, loaded, streamCounter, starting, sessionCounter,
            sessions, reqNewConnChan, cancelled)
    }

    ghost predicate Valid()
      reads this
    {
      Accounted(View())
    }

    constructor (muxCon: nat, channelSize: nat)
      ensures Valid() && View() == Init(muxCon, channelSize)
    {
      this.muxCon, this.channelSize := muxCon, channelSize;
      localChannel, sessions, loaded, reqNewConnChan, cancelled := [], [], [], 0, false;
      pushed, comparing, starting, streamCounter, sessionCounter := 0, 0, 0, 0, 0;
    }

    /** acceptLocalConn: queue the connection, or close it when the queue is full. */
    method AcceptLocalConn(c: Conn) returns (queued: bool)
      requires Valid()
      modifies this
      ensures Valid() && View() == Apply(old(View()), EPush(c))
      ensures queued <==> old(|localChannel|) < channelSize
    {
      hide Accounted;
      StepAccounted(View(), EPush(c));
      queued := |localChannel| < channelSize;
      if queued {
        localChannel := localChannel + [c];
        pushed := pushed + 1;
      }
    }

    method CountStream()
      requires Valid() && pushed > 0
      modifies this
      ensures Valid() && View() == Apply(old(View()), ECount)
    {
      hide Accounted;
      StepAccounted(View(), ECount);
      pushed := pushed - 1;
      streamCounter := streamCounter + 1;
      comparing := comparing + 1;
    }

    method RequestNewConn()
      modifies this`reqNewConnChan
      ensures View() == Request(old(View()))
    {
      if reqNewConnChan < channelSize {
        reqNewConnChan := reqNewConnChan + 1;
      }
    }

    /** acceptLocalConn: the two counters are loaded one after the other. */
    method LoadStreams()
      requires Valid() && comparing > 0
      modifies this
      ensures Valid() && View() == Apply(old(View()), ELoad)
    {
      hide Accounted;
      StepAccounted(View(), ELoad);
      comparing := comparing - 1;
      loaded := loaded + [streamCounter];
    }

    /** acceptLocalConn: ask for another session when the streams reach the capacity of the counted ones. */
    method CompareCounters(k: nat)
      requires Valid() && k < |loaded|
      modifies this
      ensures Valid() && View() == Apply(old(View()), ECompare(k))
    {
      hide Accounted;
      StepAccounted(View(), ECompare(k));
      var streams := loaded[k];
      loaded := Remove(loaded, k);
      if streams >= sessionCounter * muxCon {
        RequestNewConn();
      }
    }

    /** handleLoop: take a session from the tunnel channel, then count and start it. */
    method TakeTunnel()
      requires Valid()
      modifies this
      ensures Valid() && View() == Apply(old(View()), ETakeSession)
    {
      hide Accounted;
      StepAccounted(View(), ETakeSession);
      starting := starting + 1;
    }

    method StartSession()
      requires Valid() && starting > 0
      modifies this
      ensures Valid() && View() == Apply(old(View()), ECountSession)
    {
      hide Accounted;
      StepAccounted(View(), ECountSession);
      starting := starting - 1;
      sessionCounter := sessionCounter + 1;
      sessions := sessions + [Session(Acquiring, 0, 0, 0, 0)];
    }

    /** handleSession: take a slot before selecting. */
    method AcquireSlot(i: nat)
      requires Valid() && Enabled(View(), EAcquire(i))
      modifies this
      ensures Valid() && View() == Apply(old(View()), EAcquire(i))
    {
      hide Accounted;
      StepAccounted(View(), EAcquire(i));
      var session := sessions[i];
      sessions := sessions[i := session.(slots := session.slots + 1, phase := Selecting)];
    }

    method PickConnection(i: nat)
      requires Valid() && Enabled(View(), ESelect(i))
      modifies this
      ensures Valid() && View() == Apply(old(View()), ESelect(i))
    {
      hide Accounted;
      StepAccounted(View(), ESelect(i));
      var incomingConn := localChannel[0];
      localChannel := localChannel[1..];
      sessions := sessions[i := sessions[i].(phase := Picked(incomingConn))];
    }

    /** handleSession: the connection is older than three seconds. */
    method Expire(i: nat)
      requires Valid() && Enabled(View(), EExpire(i))
      modifies this
      ensures Valid() && View() == Apply(old(View()), EExpire(i))
    {
      hide Accounted;
      StepAccounted(View(), EExpire(i));
      sessions := sessions[i := sessions[i].(phase := Releasing)];
      streamCounter := streamCounter - 1;
    }

    method ReleaseSlot(i: nat)
      requires Valid() && Enabled(View(), ERelease(i))
      modifies this
      ensures Valid() && View() == Apply(old(View()), ERelease(i))
    {
      hide Accounted;
      StepAccounted(View(), ERelease(i));
      PickHasSlot(View(), i);
      var session := sessions[i];
      sessions := sessions[i := session.(phase := Acquiring, slots := session.slots - 1)];
    }

    /** handleSessionError, first step: the session no longer counts. */
    method FailSession(i: nat)
      requires Valid() && Enabled(View(), EOpenFails(i))
      modifies this
      ensures Valid() && View() == Apply(old(View()), EOpenFails(i))
    {
      hide Accounted;
      StepAccounted(View(), EOpenFails(i));
      sessionCounter := sessionCounter - 1;
      sessions := sessions[i := sessions[i].(phase := Returning(sessions[i].phase.conn))];
    }

    /** handleSessionError, second step: the connection goes back to the queue. */
    method PutBack(i: nat)
      requires Valid() && Enabled(View(), EPutBack(i))
      modifies this
      ensures Valid() && View() == Apply(old(View()), EPutBack(i))
    {
      hide Accounted;
      StepAccounted(View(), EPutBack(i));
      localChannel := localChannel + [sessions[i].phase.conn];
      sessions := sessions[i := sessions[i].(phase := Asking)];
    }

    /** handleSessionError, last step, and the return of handleSession. */
    method AskAndReturn(i: nat)
      requires Valid() && Enabled(View(), EAsk(i))
      modifies this
      ensures Valid() && View() == Apply(old(View()), EAsk(i))
    {
      hide Accounted;
      StepAccounted(View(), EAsk(i));
      sessions := sessions[i := sessions[i].(phase := Gone)];
      RequestNewConn();
    }

    /** handleSession: the address could not be sent; the connection is queued again but the slot stays taken. */
    method RequeueAfterFailedSend(i: nat)
      requires Valid() && Enabled(View(), ERequeue(i))
      modifies this
      ensures Valid() && View() == Apply(old(View()), ERequeue(i))
    {
      hide Accounted;
      StepAccounted(View(), ERequeue(i));
      var session := sessions[i];
      localChannel := localChannel + [session.phase.conn];
      sessions := sessions[i := session.(phase := Acquiring, leaked := session.leaked + 1)];
    }

    /** handleSession: the address is sent and a stream starts copying, keeping the slot. */
    method StartStream(i: nat)
      requires Valid() && Enabled(View(), ESendOk(i))
      modifies this
      ensures Valid() && View() == Apply(old(View()), ESendOk(i))
    {
      hide Accounted;
      StepAccounted(View(), ESendOk(i));
      var session := sessions[i];
      sessions := sessions[i := session.(phase := Acquiring, running := session.running + 1)];
    }

    /** The stream's goroutine after its copy: subtract from the counter, then give back the slot. */
    method EndStream(i: nat)
      requires Valid() && Enabled(View(), EEndStream(i))
      modifies this
      ensures Valid() && View() == Apply(old(View()), EEndStream(i))
    {
      hide Accounted;
      StepAccounted(View(), EEndStream(i));
      var session := sessions[i];
      streamCounter := streamCounter - 1;
      sessions := sessions[i := session.(running := session.running - 1, finishing := session.finishing + 1)];
    }

    method ReleaseStream(i: nat)
      requires Valid() && Enabled(View(), EReleaseStream(i))
      modifies this
      ensures Valid() && View() == Apply(old(View()), EReleaseStream(i))
    {
      hide Accounted;
      StepAccounted(View(), EReleaseStream(i));
      var session := sessions[i];
      var slots := if session.slots > 0 then session.slots - 1 else 0;
      sessions := sessions[i := session.(finishing := session.finishing - 1, slots := slots)];
    }
  }

  lemma PickHasSlot(s: State, i: nat)
    requires Accounted(s) && i < |s.sessions| && Live(s.sessions[i]) && HasPick(s.sessions[i])
    ensures 0 < s.sessions[i].slots <= s.muxCon
  {
    hide Count, Sum;
    assert SlotsCounted(s.muxCon, s.sessions[i]);
  }
}
