/**
 * Round trips that wait for their reply. A read loop may end between the moment its connection is
 * handed to a round trip and the moment the round trip is counted; then the request is queued where
 * nobody takes it. In this protocol, which has the rendezvous as one step, nothing else keeps a
 * round trip from returning, apart from a silent peer. `RendezvousWindow` says what holds otherwise.
 */
module ProtocolWaiting {
  import opened Pool
  import opened Protocol
  import opened ProtocolInvariant
  import opened ProtocolTheorems

  predicate StepOfLoop(step: Step, c: ConnId) {
    LoopStep(step) && step.conn == c
  }

  /** The read loop of c has a step to take, which may be one that waits for the network. */
  ghost predicate LoopCanAct(s: State, c: ConnId) {
    exists step :: StepOfLoop(step, c) && Enabled(s, step)
  }

  ghost predicate Waits(s: State, x: CallId, c: ConnId) {
    x in s.calls && s.calls[x].stage == Waiting(c) && s.calls[x].sent == []
  }

  lemma {:induction false} WhereItWaits(s: State, pl: Places, x: CallId, c: ConnId)
    requires Inv(s, pl) && Waits(s, x, c)
    ensures c in s.conns && c in pl && (pl[c] == Queued(x) || InLoop(s.conns[c].loop, x))
    ensures ConnInv(s, pl, c) && s.conns[c].numExpected > 0 && s.calls[x].taken == 0
    ensures pl[c] == Queued(x) ==> s.conns[c].alive
  {
    assert CallInv(s, pl, x);
    assert ConnInv(s, pl, c);
    assert x in OutstandingOn(s, c);
  }

  /** The step that a read loop takes next; where the network decides, it delivers a last response. */
  function NextStep(loop: Loop, c: ConnId): Step
    requires !loop.Exited? && !loop.Stuck?
  {
    match loop
    case Top => CheckExpected(c)
    case AwaitRequest => Dequeue(c)
    case GotRequest(_) => CloseLastBody(c, true)
    case Reading(_) => ReadResponse(c, false, true)
    case Pooling(_, _) => Repool(c)
    case Replying(_, _, _) => SendReply(c)
    case AwaitBody(_) => Rendezvous(c)
  }

  /** How many steps of the read loop lie before the reply to x. */
  function Distance(loop: Loop, x: CallId): nat {
    match loop
    case Top => 6
    case AwaitRequest => 5
    case GotRequest(_) => 4
    case Reading(_) => 3
    case Pooling(_, _) => 2
    case Replying(y, _, _) => if y == x then 1 else 8
    case AwaitBody(_) => 7
    case Exited => 0
    case Stuck => 0
  }

  lemma {:induction false} NextIsEnabled(s: State, pl: Places, x: CallId, c: ConnId)
    requires Inv(s, pl) && Waits(s, x, c) && c in s.conns && !s.conns[c].loop.Exited?
    ensures !s.conns[c].loop.Stuck? && Enabled(s, NextStep(s.conns[c].loop, c))
  {
    WhereItWaits(s, pl, x, c);
    var k := s.conns[c];
    match k.loop
    case GotRequest(_) =>
      if k.lastBody.Some? {
        assert Seen(s, k.lastBody.value, c).bodyFromHere;
      }
    case Replying(y, _, _) =>
      assert CallInv(s, pl, y);
    case _ =>
  }

  ghost predicate Nearer(s: State, s': State, x: CallId, c: ConnId)
    requires c in s.conns
  {
    && c in s'.conns && x in s'.calls && s'.calls[x].stage == Waiting(c)
    && (s'.calls[x].sent != []
        || (!s'.conns[c].loop.Exited? && Distance(s'.conns[c].loop, x) < Distance(s.conns[c].loop, x)))
  }

  lemma {:induction false} GivingAwayIsNearer(s: State, pl: Places, x: CallId, c: ConnId)
    requires Inv(s, pl) && Waits(s, x, c) && c in s.conns && (s.conns[c].loop.Replying? || s.conns[c].loop.AwaitBody?)
    requires s.conns[c].loop.call in s.calls
    ensures s.conns[c].loop.Replying? ==> Nearer(s, DoSendReply(s, c), x, c)
    ensures s.conns[c].loop.AwaitBody? ==> Nearer(s, DoRendezvous(s, c), x, c)
  {
    WhereItWaits(s, pl, x, c);
  }

  lemma {:induction false} StartingIsNearer(s: State, pl: Places, x: CallId, c: ConnId)
    requires Inv(s, pl) && Waits(s, x, c) && c in s.conns
    ensures s.conns[c].loop.Top? ==> Nearer(s, DoCheckExpected(s, c), x, c)
    ensures s.conns[c].loop.AwaitRequest? && s.conns[c].reqch != [] ==> Nearer(s, DoDequeue(s, c), x, c)
  {
    WhereItWaits(s, pl, x, c);
  }

  lemma {:induction false} ReadingIsNearer(s: State, pl: Places, x: CallId, c: ConnId)
    requires Inv(s, pl) && Waits(s, x, c) && c in s.conns && s.conns[c].loop.Reading? && s.conns[c].loop.call in s.calls
    requires s.conns[c].parsed < |s.conns[c].written|
    ensures Nearer(s, DoReadResponse(s, c, false, true), x, c)
  {
    WhereItWaits(s, pl, x, c);
  }

  lemma {:induction false} ClosingIsNearer(s: State, pl: Places, x: CallId, c: ConnId)
    requires Inv(s, pl) && Waits(s, x, c) && Enabled(s, CloseLastBody(c, true))
    ensures Nearer(s, DoCloseLastBody(s, c, true), x, c)
  {
    LastBodySpared(s, pl, c);
  }

  lemma {:induction false} PoolingIsNearer(s: State, pl: Places, x: CallId, c: ConnId)
    requires Inv(s, pl) && Waits(s, x, c) && c in s.conns && s.conns[c].loop.Pooling?
    ensures Nearer(s, DoRepool(s, c), x, c)
  {
    WhereItWaits(s, pl, x, c);
  }

  /** Each step of the read loop brings the reply nearer. */
  lemma {:induction false} NextIsNearer(s: State, pl: Places, x: CallId, c: ConnId)
    requires Inv(s, pl) && Waits(s, x, c) && c in s.conns && !s.conns[c].loop.Exited? && !s.conns[c].loop.Stuck?
    requires Enabled(s, NextStep(s.conns[c].loop, c))
    ensures Nearer(s, Apply(s, NextStep(s.conns[c].loop, c)), x, c)
  {
    match s.conns[c].loop
    case Top => StartingIsNearer(s, pl, x, c);
    case AwaitRequest => StartingIsNearer(s, pl, x, c);
    case GotRequest(_) => ClosingIsNearer(s, pl, x, c);
    case Reading(_) => ReadingIsNearer(s, pl, x, c);
    case Pooling(_, _) => PoolingIsNearer(s, pl, x, c);
    case Replying(_, _, _) => GivingAwayIsNearer(s, pl, x, c);
    case AwaitBody(_) => GivingAwayIsNearer(s, pl, x, c);
  }

  lemma {:induction false} LastBodySpared(s: State, pl: Places, c: ConnId)
    requires Inv(s, pl) && c in s.conns && s.conns[c].loop.GotRequest?
    ensures s.conns[c].lastBody.Some? ==>
              s.conns[c].lastBody.value in s.calls && s.calls[s.conns[c].lastBody.value].body.callback == NoCallback
  {
    if s.conns[c].lastBody.Some? {
      assert ConnInv(s, pl, c);
      assert Seen(s, s.conns[c].lastBody.value, c).bodyFromHere;
      LastBodyIsSpent(s, pl, c);
    }
  }

  ghost predicate CanReturn(s: State, x: CallId) {
    exists more :: Run(s, more) && x in After(s, more).calls && After(s, more).calls[x].stage.Returned?
  }

  lemma {:induction false} StepThenReturn(s: State, step: Step, x: CallId)
    requires Enabled(s, step) && CanReturn(Apply(s, step), x)
    ensures CanReturn(s, x)
  {
    var more :| Run(Apply(s, step), more) && x in After(Apply(s, step), more).calls
                && After(Apply(s, step), more).calls[x].stage.Returned?;
    assert ([step] + more)[1..] == more;
    assert Run(s, [step] + more);
  }

  lemma {:induction false} SentCanReturn(s: State, pl: Places, x: CallId)
    requires Inv(s, pl) && x in s.calls && s.calls[x].stage.Waiting? && s.calls[x].sent != []
    ensures CanReturn(s, x)
  {
    assert CallInv(s, pl, x);
    var s1 := Apply(s, ReceiveReply(x));
    var s2 := Apply(s1, Decrement(x));
    assert Run(s2, []) && After(s2, []) == s2;
    StepThenReturn(s1, Decrement(x), x);
    StepThenReturn(s, ReceiveReply(x), x);
  }

  /** As long as the read loop has not ended, the round trip can be answered. */
  lemma {:induction false} WaitingCanReturn(s: State, pl: Places, x: CallId, c: ConnId)
    requires Inv(s, pl) && Waits(s, x, c) && c in s.conns && !s.conns[c].loop.Exited?
    ensures CanReturn(s, x)
    decreases Distance(s.conns[c].loop, x)
  {
    NextIsEnabled(s, pl, x, c);
    var step := NextStep(s.conns[c].loop, c);
    var s' := Apply(s, step);
    var pl' := StepKeeps(s, pl, step);
    NextIsNearer(s, pl, x, c);
    if s'.calls[x].sent != [] {
      SentCanReturn(s', pl', x);
    } else {
      WaitingCanReturn(s', pl', x, c);
    }
    StepThenReturn(s, step, x);
  }

  // ----- those who wait for ever -----

  predicate Ended(loop: Loop) {
    loop.Exited? || loop.Stuck?
  }

  /** A connection will send no reply to x: its own has a read loop that ended, another has no request of x. */
  predicate Spares(k: Conn, x: CallId, own: bool) {
    !InLoop(k.loop, x) && (if own then Ended(k.loop) else x !in k.reqch)
  }

  /** The round trip waits for a reply that nobody will send. */
  ghost predicate Lost(s: State, x: CallId, c: ConnId) {
    Waits(s, x, c) && c in s.conns && forall d :: d in s.conns ==> Spares(s.conns[d], x, d == c)
  }

  lemma {:induction false} EndedIsLost(s: State, pl: Places, x: CallId, c: ConnId)
    requires Inv(s, pl) && Waits(s, x, c) && c in s.conns && s.conns[c].loop.Exited?
    ensures Lost(s, x, c)
  {
    forall d | d in s.conns
      ensures Spares(s.conns[d], x, d == c)
    {
      assert ConnInv(s, pl, d);
    }
  }

  /** No step helps. */
  lemma {:induction false} LostStays(s: State, step: Step, x: CallId, c: ConnId)
    requires Lost(s, x, c) && Enabled(s, step)
    ensures Lost(Apply(s, step), x, c)
  {
    if step.BodyEOF? || step.BodyClose? {
      BodiesSpare(s, step, x, c);
    } else if step.Repool? {
      PoolSpares(s, step.conn, x, c);
    } else if step.CloseLastBody? || step.ReadResponse? {
      ReadersSpare(s, step, x, c);
    } else if step.SendReply? || step.Rendezvous? {
      RepliesSpare(s, step, x, c);
    } else if LoopStep(step) {
      LoopsSpare(s, step, x, c);
    } else {
      CallersSpare(s, step, x, c);
    }
  }

  lemma {:induction false} BodiesSpare(s: State, step: Step, x: CallId, c: ConnId)
    requires Lost(s, x, c) && Enabled(s, step) && (step.BodyEOF? || step.BodyClose?)
    ensures Lost(Apply(s, step), x, c)
  {
    BodyKeepsOthers(s, step.call, step.BodyClose? ==> step.ok);
  }

  lemma {:induction false} PoolSpares(s: State, d: ConnId, x: CallId, c: ConnId)
    requires Lost(s, x, c) && d in s.conns && s.conns[d].loop.Pooling?
    ensures Lost(DoRepool(s, d), x, c)
  {
    PoolKeepsOthers(s, d);
  }

  lemma {:induction false} PoolKeepsOthers(s: State, d: ConnId)
    requires d in s.conns && s.conns[d].loop.Pooling?
    ensures var s' := DoRepool(s, d);
            && s'.calls == s.calls && s'.conns.Keys == s.conns.Keys
            && (forall c :: c in s.conns && c != d ==> s'.conns[c] == s.conns[c])
            && s'.conns[d].reqch == s.conns[d].reqch
            && s'.conns[d].loop == Replying(s.conns[d].loop.call, s.conns[d].loop.reply, false)
  {
  }

  lemma {:induction false} FireKeepsOthers(s: State, y: CallId)
    requires y in s.calls && s.calls[y].body.callback.Attached? && s.calls[y].body.callback.conn in s.conns
    ensures OnlyFired(s, Fire(s, y), y)
  {
  }

  lemma {:induction false} BodyKeepsOthers(s: State, y: CallId, ok: bool)
    requires BodyInHand(s, y)
    ensures OnlyFired(s, DoBodyEOF(s, y), y) && OnlyFired(s, DoBodyClose(s, y, ok), y)
  {
    if s.calls[y].body.callback.Attached? {
      FireKeepsOthers(s, y);
      FireKeepsOthers(SetCall(s, y, s.calls[y].(body := s.calls[y].body.(isClosed := true))), y);
    }
  }

  /** The other round trips, and all read loops and requests, are where they were. */
  ghost predicate OnlyFired(s: State, s': State, y: CallId) {
    && (forall x :: x in s.calls && x != y ==> x in s'.calls && s'.calls[x] == s.calls[x])
    && s'.conns.Keys == s.conns.Keys
    && (forall c :: c in s.conns ==> s'.conns[c].loop == s.conns[c].loop && s'.conns[c].reqch == s.conns[c].reqch)
  }

  lemma {:induction false} RepliesSpare(s: State, step: Step, x: CallId, c: ConnId)
    requires Lost(s, x, c) && Enabled(s, step)
    requires step.SendReply? || step.Rendezvous?
    ensures Lost(Apply(s, step), x, c)
  {
  }

  lemma {:induction false} ReadersSpare(s: State, step: Step, x: CallId, c: ConnId)
    requires Lost(s, x, c) && Enabled(s, step)
    requires step.CloseLastBody? || step.ReadResponse?
    ensures Lost(Apply(s, step), x, c)
  {
  }

  lemma {:induction false} LoopsSpare(s: State, step: Step, x: CallId, c: ConnId)
    requires Lost(s, x, c) && Enabled(s, step) && LoopStep(step)
    requires !step.Repool? && !step.SendReply? && !step.Rendezvous? && !step.CloseLastBody? && !step.ReadResponse?
    ensures Lost(Apply(s, step), x, c)
  {
  }

  lemma {:induction false} CallersSpare(s: State, step: Step, x: CallId, c: ConnId)
    requires Lost(s, x, c) && Enabled(s, step) && !LoopStep(step) && !step.BodyEOF? && !step.BodyClose?
    ensures Lost(Apply(s, step), x, c)
  {
  }

  lemma {:induction false} LostForEver(s: State, more: seq<Step>, x: CallId, c: ConnId)
    requires Lost(s, x, c) && Run(s, more)
    ensures Lost(After(s, more), x, c)
    decreases |more|
  {
    if more != [] {
      LostStays(s, more[0], x, c);
      LostForEver(Apply(s, more[0]), more[1..], x, c);
    }
  }

  /**
   * A round trip without its reply has its request in the channel or with the read loop. Its read
   * loop has a step to take exactly if it has not ended; if it has, the connection is broken and the
   * request lies in the channel.
   */
  lemma {:induction false} WaitingDependsOnTheLoop(cfg: Config, steps: seq<Step>, s: State, x: CallId, c: ConnId)
    requires Reached(cfg, steps, s) && Waits(s, x, c)
    ensures c in s.conns && (s.conns[c].reqch == [x] || InLoop(s.conns[c].loop, x))
    ensures LoopCanAct(s, c) <==> !s.conns[c].loop.Exited?
    ensures s.conns[c].loop.Exited? ==> s.conns[c].broken && s.conns[c].reqch == [x]
  {
    var pl := ReachedHasPlaces(cfg, steps, s);
    WhereItWaits(s, pl, x, c);
    if !s.conns[c].loop.Exited? {
      NextIsEnabled(s, pl, x, c);
      assert StepOfLoop(NextStep(s.conns[c].loop, c), c);
    } else {
      EndedLoopRests(s, c);
      LoopPlace(s, pl, c);
    }
  }

  lemma {:induction false} EndedLoopRests(s: State, c: ConnId)
    requires c in s.conns && s.conns[c].loop.Exited?
    ensures !LoopCanAct(s, c)
  {
  }

  /** Exactly who can return: those that were sent a reply, and those whose read loop has not ended. */
  lemma {:induction false} ReturnsUnlessTheLoopEnded(cfg: Config, steps: seq<Step>, s: State, x: CallId)
    requires Reached(cfg, steps, s) && x in s.calls && s.calls[x].stage.Waiting?
    ensures s.calls[x].stage.conn in s.conns
    ensures CanReturn(s, x) <==> s.calls[x].sent != [] || !s.conns[s.calls[x].stage.conn].loop.Exited?
  {
    var pl := ReachedHasPlaces(cfg, steps, s);
    assert CallInv(s, pl, x);
    var c := s.calls[x].stage.conn;
    if s.calls[x].sent != [] {
      SentCanReturn(s, pl, x);
    } else if !s.conns[c].loop.Exited? {
      WaitingCanReturn(s, pl, x, c);
    } else if CanReturn(s, x) {
      var more :| Run(s, more) && x in After(s, more).calls && After(s, more).calls[x].stage.Returned?;
      EndedIsLost(s, pl, x, c);
      LostForEver(s, more, x, c);
    }
  }

  lemma {:induction false} HowALoopEnds(s: State, step: Step, c: ConnId)
    requires Enabled(s, step) && c in s.conns && !s.conns[c].loop.Exited?
    requires c in Apply(s, step).conns && Apply(s, step).conns[c].loop.Exited?
    ensures (step == CheckExpected(c) && s.conns[c].numExpected == 0) || !Apply(s, step).conns[c].alive
  {
    if step.BodyEOF? || step.BodyClose? {
      BodyKeepsOthers(s, step.call, step.BodyClose? ==> step.ok);
    } else if step.Repool? {
      PoolKeepsOthers(s, step.conn);
    } else if !LoopStep(step) {
      LoopsUnmoved(s, step, c);
    }
  }

  lemma {:induction false} LoopsUnmoved(s: State, step: Step, c: ConnId)
    requires Enabled(s, step) && c in s.conns && !LoopStep(step) && !step.BodyEOF? && !step.BodyClose?
    ensures c in Apply(s, step).conns && Apply(s, step).conns[c].loop == s.conns[c].loop
  {
  }

  /**
   * The read loop of a connection in use ends only where it finds the count at zero. Then no round
   * trip is between increment and decrement: a user has the connection and is not counted yet.
   */
  lemma {:induction false} LoopInUseEndsAtZero(cfg: Config, steps: seq<Step>, s: State, step: Step, c: ConnId)
    requires Reached(cfg, steps, s) && Enabled(s, step) && c in s.conns && !s.conns[c].loop.Exited?
    requires c in Apply(s, step).conns && Apply(s, step).conns[c].loop.Exited? && !At(Apply(s, step), c, Retired)
    ensures step == CheckExpected(c) && s.conns[c].numExpected == 0
    ensures forall x :: x in s.calls && Holds(s.calls[x].stage, c) ==> s.calls[x].stage == Holding(c)
    ensures At(s, c, Pooled) || exists x :: At(s, c, HeldBy(x))
  {
    var pl := ReachedHasPlaces(cfg, steps, s);
    var s' := Apply(s, step);
    var pl' := StepKeeps(s, pl, step);
    AtIsPlace(s', pl', c, Retired);
    assert ConnInv(s', pl', c);
    HowALoopEnds(s, step, c);
    CountIsExact(cfg, steps, s, c);
    assert ConnInv(s, pl, c);
    AtIsPlace(s, pl, c, pl[c]);
    AtIsPlace(s', pl', c, pl'[c]);
  }
}
