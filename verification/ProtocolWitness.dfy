/**
 * Runs of the connection protocol. In the first a second round trip already uses a connection while
 * the first one, answered without a body, has not been sent its reply: the count of expected
 * responses does exceed one. In the second a round trip waits for ever.
 */
module ProtocolWitness {
  import opened Options
  import opened ConnectMethods
  import opened Pool
  import opened Protocol
  import opened ProtocolTheorems
  import opened ProtocolWaiting

  function NewConn(cm: ConnectMethod): Conn {
    Conn(cm, Key(cm), false, 0, [], Top, true, None, [], 0)
  }

  function NewCall(cm: ConnectMethod, stage: Stage): Call {
    Call(cm, stage, [], 0, BLANK)
  }

  const ANSWER := Reply(Some(Response(0, false)), false)

  /** Round trip 0 has dialled connection 0. */
  function Dialled(cfg: Config, cm: ConnectMethod): State {
    State(cfg, Some(map[]), map[0 := NewConn(cm)], map[0 := NewCall(cm, Holding(0))], false)
  }

  /** Its request has been written and queued. */
  function Asked(cfg: Config, cm: ConnectMethod): State {
    State(cfg, Some(map[]),
          map[0 := NewConn(cm).(numExpected := 1, reqch := [0], written := [0])],
          map[0 := NewCall(cm, Waiting(0))], false)
  }

  /** The read loop has read the head of a response without a body. */
  function Answered(cfg: Config, cm: ConnectMethod): State {
    State(cfg, Some(map[]),
          map[0 := NewConn(cm).(numExpected := 1, loop := Pooling(0, ANSWER), written := [0], parsed := 1)],
          map[0 := NewCall(cm, Waiting(0))], false)
  }

  /** The connection went to the pool and on to round trip 1, and round trip 0 still waits. */
  function Reused(cfg: Config, cm: ConnectMethod, other: ConnectMethod): State {
    State(cfg, Some(map[]),
          map[0 := NewConn(cm).(numExpected := 2, loop := Replying(0, ANSWER, false), written := [0], parsed := 1)],
          map[0 := NewCall(cm, Waiting(0)), 1 := NewCall(other, Counted(0))], false)
  }

  lemma {:induction false} RunStep(s: State, step: Step, rest: seq<Step>, end: State)
    requires Enabled(s, step) && Run(Apply(s, step), rest) && After(Apply(s, step), rest) == end
    ensures Run(s, [step] + rest) && After(s, [step] + rest) == end
  {
    assert ([step] + rest)[1..] == rest;
  }

  lemma {:induction false} Joined(s: State, first: seq<Step>, second: seq<Step>)
    requires Run(s, first) && Run(After(s, first), second)
    ensures Run(s, first + second) && After(s, first + second) == After(After(s, first), second)
    decreases |first|
  {
    if first == [] {
      assert first + second == second;
    } else {
      Joined(Apply(s, first[0]), first[1..], second);
      assert (first + second)[1..] == first[1..] + second;
    }
  }

  lemma {:induction false} Dialling(cfg: Config, cm: ConnectMethod) returns (steps: seq<Step>)
    ensures Run(Init(cfg), steps) && After(Init(cfg), steps) == Dialled(cfg, cm)
  {
    var s1 := DoBegin(Init(cfg), 0, cm);
    var s2 := DoTakeIdle(s1, 0);
    assert Take(Idle(s1), Key(cm), Broken(s1)) == TakeResult(map[], None);
    assert DoDial(s2, 0, 0) == Dialled(cfg, cm);
    RunStep(s2, Dial(0, 0), [], Dialled(cfg, cm));
    RunStep(s1, TakeIdle(0), [Dial(0, 0)], Dialled(cfg, cm));
    RunStep(Init(cfg), Begin(0, cm), [TakeIdle(0)] + [Dial(0, 0)], Dialled(cfg, cm));
    steps := [Begin(0, cm)] + ([TakeIdle(0)] + [Dial(0, 0)]);
  }

  lemma {:induction false} Asking(cfg: Config, cm: ConnectMethod) returns (steps: seq<Step>)
    ensures Run(Dialled(cfg, cm), steps) && After(Dialled(cfg, cm), steps) == Asked(cfg, cm)
  {
    var s1 := DoIncrement(Dialled(cfg, cm), 0);
    var s2 := DoWriteRequest(s1, 0);
    assert s2.conns[0].written == [0];
    var s3 := DoEnqueue(s2, 0);
    assert s3.conns[0].reqch == [0];
    assert s3.conns == Asked(cfg, cm).conns && s3.calls == Asked(cfg, cm).calls;
    RunStep(s2, Enqueue(0), [], Asked(cfg, cm));
    RunStep(s1, WriteRequest(0), [Enqueue(0)], Asked(cfg, cm));
    RunStep(Dialled(cfg, cm), Increment(0), [WriteRequest(0)] + [Enqueue(0)], Asked(cfg, cm));
    steps := [Increment(0)] + ([WriteRequest(0)] + [Enqueue(0)]);
  }

  lemma {:induction false} Answering(cfg: Config, cm: ConnectMethod) returns (steps: seq<Step>)
    ensures Run(Asked(cfg, cm), steps) && After(Asked(cfg, cm), steps) == Answered(cfg, cm)
  {
    var s1 := DoCheckExpected(Asked(cfg, cm), 0);
    var s2 := DoDequeue(s1, 0);
    var s3 := DoCloseLastBody(s2, 0, true);
    assert s2.conns[0].reqch == [];
    var s4 := DoReadResponse(s3, 0, false, false);
    assert s4.conns == Answered(cfg, cm).conns && s4.calls == Answered(cfg, cm).calls;
    var r3, r2, r1 := ReadResponse(0, false, false), CloseLastBody(0, true), Dequeue(0);
    RunStep(s3, r3, [], Answered(cfg, cm));
    RunStep(s2, r2, [r3], Answered(cfg, cm));
    RunStep(s1, r1, [r2] + [r3], Answered(cfg, cm));
    RunStep(Asked(cfg, cm), CheckExpected(0), [r1] + ([r2] + [r3]), Answered(cfg, cm));
    steps := [CheckExpected(0)] + ([r1] + ([r2] + [r3]));
  }

  lemma {:induction false} Reusing(cfg: Config, cm: ConnectMethod, other: ConnectMethod) returns (steps: seq<Step>)
    requires KeepsConnections(cfg) && Key(other) == Key(cm)
    ensures Run(Answered(cfg, cm), steps) && After(Answered(cfg, cm), steps) == Reused(cfg, cm, other)
  {
    var s1 := DoRepool(Answered(cfg, cm), 0);
    assert IdleList(map[], Key(cm)) + [0] == [0];
    assert Idle(s1) == map[Key(cm) := [0]];
    var s2 := DoBegin(s1, 1, other);
    assert LiveTop([0], Broken(s2)) == 0;
    assert Take(Idle(s2), Key(cm), Broken(s2)) == TakeResult(map[], Some(0));
    var s3 := DoTakeIdle(s2, 1);
    var s4 := DoIncrement(s3, 1);
    assert s4.conns == Reused(cfg, cm, other).conns && s4.calls == Reused(cfg, cm, other).calls;
    RunStep(s3, Increment(1), [], Reused(cfg, cm, other));
    RunStep(s2, TakeIdle(1), [Increment(1)], Reused(cfg, cm, other));
    RunStep(s1, Begin(1, other), [TakeIdle(1)] + [Increment(1)], Reused(cfg, cm, other));
    RunStep(Answered(cfg, cm), Repool(0), [Begin(1, other)] + ([TakeIdle(1)] + [Increment(1)]), Reused(cfg, cm, other));
    steps := [Repool(0)] + ([Begin(1, other)] + ([TakeIdle(1)] + [Increment(1)]));
  }

  /**
   * A transport that keeps connections may lend one out again before its last user has its reply;
   * and to whoever asks with the same key, be it for another route.
   */
  lemma {:induction false} ReusedBeforeTheReply(cfg: Config, cm: ConnectMethod, other: ConnectMethod)
    returns (steps: seq<Step>, s: State)
    requires KeepsConnections(cfg) && Key(other) == Key(cm)
    ensures Reached(cfg, steps, s)
    ensures s.calls.Keys == {0, 1} && s.conns.Keys == {0}
    ensures s.calls[0].stage == Waiting(0) && s.calls[0].sent == [] && Holds(s.calls[1].stage, 0)
    ensures s.conns[0].route == cm && s.calls[1].cm == other
    ensures s.conns[0].numExpected == 2
  {
    var a := Dialling(cfg, cm);
    var b := Asking(cfg, cm);
    var c := Answering(cfg, cm);
    var d := Reusing(cfg, cm, other);
    Joined(Answered(cfg, cm), [], d);
    Joined(Asked(cfg, cm), c, d);
    Joined(Dialled(cfg, cm), b, c + d);
    Joined(Init(cfg), a, b + (c + d));
    steps, s := a + (b + (c + d)), Reused(cfg, cm, other);
  }

  /** So a round trip with an empty proxy URL is given a connection to the target itself. */
  lemma {:induction false} EmptyProxyGetsDirectConnection(cfg: Config, scheme: string, addr: string)
    returns (steps: seq<Step>, s: State)
    requires KeepsConnections(cfg) && Web(scheme) && HasPort(addr)
    ensures Reached(cfg, steps, s)
    ensures 0 in s.conns && 1 in s.calls && Holds(s.calls[1].stage, 0)
    ensures Addr(s.conns[0].route) == addr && Addr(s.calls[1].cm) == ":" && !SameRoute(s.conns[0].route, s.calls[1].cm)
  {
    EmptyProxyCollides(scheme, addr);
    var direct, empty := ConnectMethod(None, scheme, addr), ConnectMethod(Some(URL("", "", "")), scheme, addr);
    steps, s := ReusedBeforeTheReply(cfg, direct, empty);
  }

  /** The read loop has ended, and the request is queued behind it. */
  function Stranded(cfg: Config, cm: ConnectMethod): State {
    State(cfg, Some(map[]),
          map[0 := NewConn(cm).(broken := true, loop := Exited, numExpected := 1, reqch := [0], written := [0])],
          map[0 := NewCall(cm, Waiting(0))], false)
  }

  lemma {:induction false} Stranding(cfg: Config, cm: ConnectMethod) returns (steps: seq<Step>)
    ensures Run(Dialled(cfg, cm), steps) && After(Dialled(cfg, cm), steps) == Stranded(cfg, cm)
  {
    var s1 := DoCheckExpected(Dialled(cfg, cm), 0);
    var s2 := DoIncrement(s1, 0);
    var s3 := DoWriteRequest(s2, 0);
    assert s3.conns[0].written == [0];
    var s4 := DoEnqueue(s3, 0);
    assert s4.conns[0].reqch == [0];
    assert s4.conns == Stranded(cfg, cm).conns && s4.calls == Stranded(cfg, cm).calls;
    RunStep(s3, Enqueue(0), [], Stranded(cfg, cm));
    RunStep(s2, WriteRequest(0), [Enqueue(0)], Stranded(cfg, cm));
    RunStep(s1, Increment(0), [WriteRequest(0)] + [Enqueue(0)], Stranded(cfg, cm));
    RunStep(Dialled(cfg, cm), CheckExpected(0), [Increment(0)] + ([WriteRequest(0)] + [Enqueue(0)]), Stranded(cfg, cm));
    steps := [CheckExpected(0)] + ([Increment(0)] + ([WriteRequest(0)] + [Enqueue(0)]));
  }

  /**
   * The peer closes a new connection, the read loop finds the count at zero and ends, and only then
   * is the round trip counted. Its write goes to a buffer and the failed flush is ignored, so it
   * queues its request and waits for a reply that never comes.
   */
  lemma {:induction false} WaitsForEverAfterALostRace(cfg: Config, cm: ConnectMethod)
    returns (steps: seq<Step>, s: State)
    ensures Reached(cfg, steps, s)
    ensures s.calls.Keys == {0} && s.calls[0].stage == Waiting(0) && s.calls[0].sent == []
    ensures s.conns.Keys == {0} && s.conns[0].loop.Exited? && s.conns[0].reqch == [0]
    ensures !CanReturn(s, 0)
  {
    var a := Dialling(cfg, cm);
    var b := Stranding(cfg, cm);
    Joined(Init(cfg), a, b);
    steps, s := a + b, Stranded(cfg, cm);
    ReturnsUnlessTheLoopEnded(cfg, steps, s, 0);
  }
}
