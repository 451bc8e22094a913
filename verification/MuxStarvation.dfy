/** Why the request rule needs addresses to be sent: runs, for every number of slots and sessions, in which all sessions
    are wedged by failed sends and yet none is requested. */
module MuxStarvation {
  import opened Base
  import opened MuxScheduler

  /** A waiting session that has lost k slots. */
  function Lost(k: nat): Session { Session(Acquiring, k, 0, 0, k) }

  /** One connection queued and counted, these sessions live, nothing under way and nothing requested. */
  function Unlucky(muxCon: nat, channelSize: nat, c: Conn, vs: seq<Session>): State {
    State(muxCon, channelSize, [c], 0, 0, [], 1, 0, |vs|, vs, 0, false)
  }

  function FailedSend(i: nat): seq<Step> { [EAcquire(i), ESelect(i), ESendFails(i), ERequeue(i)] }

  function FailedSends(i: nat, k: nat): seq<Step> {
    if k == 0 then [] else FailedSends(i, k - 1) + FailedSend(i)
  }

  /** Every slot of the first n sessions fails in turn. */
  function AllFail(muxCon: nat, n: nat): seq<Step> {
    if n == 0 then [] else AllFail(muxCon, n - 1) + FailedSends(n - 1, muxCon)
  }

  function OpenSessions(n: nat): seq<Step> {
    if n == 0 then [] else OpenSessions(n - 1) + [ETakeSession, ECountSession]
  }

  function AcceptOne(c: Conn): seq<Step> { [EPush(c), ECount, ELoad, ECompare(0)] }

  function Starving(muxCon: nat, n: nat, c: Conn): seq<Step> {
    OpenSessions(n) + AcceptOne(c) + AllFail(muxCon, n)
  }

  /** With more than one slot in all, whatever the sessions: after a failed send on every slot the only connection is
      queued, the counters ask for no session, none was ever requested, and every session is wedged. */
  lemma FailedSendsStarve(muxCon: nat, channelSize: nat, n: nat, c: Conn)
    requires channelSize >= 1 && n * muxCon > 1
    ensures var s := Run(Init(muxCon, channelSize), Starving(muxCon, n, c));
            && s.localChannel == [c] && s.streamCounter < s.sessionCounter * s.muxCon
            && s.requests == s.pushed == s.comparing == |s.loaded| == 0
            && |s.sessions| == n && forall i: nat :: i < n ==> Wedged(s, i)
  {
    hide Run, Apply, AllFail, OpenSessions;
    var s := Init(muxCon, channelSize);
    RunConcat(s, OpenSessions(n) + AcceptOne(c), AllFail(muxCon, n));
    RunConcat(s, OpenSessions(n), AcceptOne(c));
    Opened(muxCon, channelSize, n);
    Accepted(muxCon, channelSize, n, c);
    AllFailed(muxCon, channelSize, c, n, n);
    var t := Run(s, Starving(muxCon, n, c));
    forall i: nat | i < n ensures Wedged(t, i) {
      assert t.sessions[i] == Lost(muxCon);
    }
  }

  /** The first n of all sessions wedged, the others untouched. */
  function Mixed(muxCon: nat, n: nat, all: nat): (vs: seq<Session>)
    ensures |vs| == all
  {
    seq(all, i => if i < n then Lost(muxCon) else Lost(0))
  }

  lemma {:induction false} Opened(muxCon: nat, channelSize: nat, n: nat)
    ensures Run(Init(muxCon, channelSize), OpenSessions(n))
            == Init(muxCon, channelSize).(sessionCounter := n, sessions := Mixed(muxCon, 0, n))
  {
    hide Apply;
    if n > 0 {
      var s := Run(Init(muxCon, channelSize), OpenSessions(n - 1));
      Opened(muxCon, channelSize, n - 1);
      RunConcat(Init(muxCon, channelSize), OpenSessions(n - 1), [ETakeSession, ECountSession]);
      RunTwo(s, ETakeSession, ECountSession);
      OpenedOne(muxCon, channelSize, n);
    }
  }

  lemma OpenedOne(muxCon: nat, channelSize: nat, n: nat)
    requires n > 0
    ensures var s := Init(muxCon, channelSize).(sessionCounter := n - 1, sessions := Mixed(muxCon, 0, n - 1));
            Apply(Apply(s, ETakeSession), ECountSession)
            == Init(muxCon, channelSize).(sessionCounter := n, sessions := Mixed(muxCon, 0, n))
  {
    assert Mixed(muxCon, 0, n - 1) + [Lost(0)] == Mixed(muxCon, 0, n);
  }

  lemma Accepted(muxCon: nat, channelSize: nat, n: nat, c: Conn)
    requires channelSize >= 1 && n * muxCon > 1
    ensures var s := Init(muxCon, channelSize).(sessionCounter := n, sessions := Mixed(muxCon, 0, n));
            Run(s, AcceptOne(c)) == Unlucky(muxCon, channelSize, c, Mixed(muxCon, 0, n))
  {
    hide Run;
    var s := Init(muxCon, channelSize).(sessionCounter := n, sessions := Mixed(muxCon, 0, n));
    var t := Unlucky(muxCon, channelSize, c, Mixed(muxCon, 0, n));
    RunFour(s, EPush(c), ECount, ELoad, ECompare(0));
    var a := Apply(s, EPush(c));
    assert a == s.(localChannel := [c], pushed := 1);
    var b := Apply(a, ECount);
    assert b == t.(comparing := 1);
    var d := Apply(b, ELoad);
    assert d == t.(loaded := [1]) && Remove(d.loaded, 0) == [];
  }

  /** One failed send costs one slot and changes nothing else. */
  lemma OneFails(muxCon: nat, channelSize: nat, c: Conn, vs: seq<Session>, i: nat, k: nat)
    requires channelSize >= 1 && i < |vs| && vs[i] == Lost(k) && k < muxCon
    ensures Run(Unlucky(muxCon, channelSize, c, vs), FailedSend(i))
            == Unlucky(muxCon, channelSize, c, vs[i := Lost(k + 1)])
  {
    hide Run;
    var s := Unlucky(muxCon, channelSize, c, vs);
    RunFour(s, EAcquire(i), ESelect(i), ESendFails(i), ERequeue(i));
    var a := Apply(s, EAcquire(i));
    assert a == s.(sessions := vs[i := Session(Selecting, k + 1, 0, 0, k)]);
    var b := Apply(a, ESelect(i));
    assert b == s.(sessions := vs[i := Session(Picked(c), k + 1, 0, 0, k)], localChannel := []);
    var d := Apply(b, ESendFails(i));
    assert d == s.(sessions := vs[i := Session(Requeueing(c), k + 1, 0, 0, k)], localChannel := []);
  }

  lemma {:induction false} SomeFail(muxCon: nat, channelSize: nat, c: Conn, vs: seq<Session>, i: nat, k: nat)
    requires channelSize >= 1 && i < |vs| && vs[i] == Lost(0) && k <= muxCon
    ensures Run(Unlucky(muxCon, channelSize, c, vs), FailedSends(i, k)) == Unlucky(muxCon, channelSize, c, vs[i := Lost(k)])
  {
    hide Apply;
    if k > 0 {
      SomeFail(muxCon, channelSize, c, vs, i, k - 1);
      RunConcat(Unlucky(muxCon, channelSize, c, vs), FailedSends(i, k - 1), FailedSend(i));
      OneFails(muxCon, channelSize, c, vs[i := Lost(k - 1)], i, k - 1);
      assert vs[i := Lost(k - 1)][i := Lost(k)] == vs[i := Lost(k)];
    }
  }

  lemma {:induction false} AllFailed(muxCon: nat, channelSize: nat, c: Conn, n: nat, all: nat)
    requires channelSize >= 1 && n <= all
    ensures Run(Unlucky(muxCon, channelSize, c, Mixed(muxCon, 0, all)), AllFail(muxCon, n))
            == Unlucky(muxCon, channelSize, c, Mixed(muxCon, n, all))
  {
    hide Run;
    if n == 0 {
      RunNothing(Unlucky(muxCon, channelSize, c, Mixed(muxCon, 0, all)));
    } else {
      AllFailed(muxCon, channelSize, c, n - 1, all);
      RunConcat(Unlucky(muxCon, channelSize, c, Mixed(muxCon, 0, all)), AllFail(muxCon, n - 1), FailedSends(n - 1, muxCon));
      SomeFail(muxCon, channelSize, c, Mixed(muxCon, n - 1, all), n - 1, muxCon);
      MixedNext(muxCon, n, all);
    }
  }

  lemma MixedNext(muxCon: nat, n: nat, all: nat)
    requires 0 < n <= all
    ensures Mixed(muxCon, n - 1, all)[n - 1 := Lost(muxCon)] == Mixed(muxCon, n, all)
  {
  }

  // ---------------------------------------------------------------- runs in pieces

  lemma RunNothing(s: State)
    ensures Run(s, []) == s
  {
  }

  lemma RunTwo(s: State, a: Step, b: Step)
    ensures Run(s, [a, b]) == Apply(Apply(s, a), b)
  {
    hide Apply;
    assert [a, b][..1] == [a] && [a][..0] == [];
    assert Run(s, [a]) == Apply(s, a);
  }

  lemma RunFour(s: State, a: Step, b: Step, c: Step, d: Step)
    ensures Run(s, [a, b, c, d]) == Apply(Apply(Apply(Apply(s, a), b), c), d)
  {
    hide Apply;
    RunTwo(s, a, b);
    var three, four := [a, b, c], [a, b, c, d];
    assert three[..2] == [a, b] && four[..3] == three;
    assert Run(s, three) == Apply(Run(s, three[..2]), three[2]);
    assert Run(s, four) == Apply(Run(s, four[..3]), four[3]);
  }

  lemma {:induction false} RunConcat(s: State, a: seq<Step>, b: seq<Step>)
    ensures Run(s, a + b) == Run(Run(s, a), b)
  {
    hide Apply;
    if b == [] {
      assert a + b == a;
    } else {
      assert (a + b)[..|a + b| - 1] == a + b[..|b| - 1];
      RunConcat(s, a, b[..|b| - 1]);
    }
  }
}
