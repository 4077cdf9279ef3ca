/**
 * What comes of the things that can go one way or the other: errors are reported, a connection that
 * is offered to the pool is kept or closed, a round trip that is over stays over, and nothing that
 * the network or a client may do is ruled out by the protocol.
 */
module ProtocolOutcomes {
  import opened Options
  import opened ConnectMethods
  import opened Pool
  import opened Protocol
  import opened ProtocolInvariant
  import opened ProtocolTheorems
  import opened ProtocolWaiting

  // ----- responses and errors -----

  /**
   * A failed read leaves the read loop with an error to report; so does a body that is not gzip
   * although it says so, beside the response.
   */
  lemma {:induction false} ReadErrorsAreReported(s: State, c: ConnId)
    requires c in s.conns
    ensures Enabled(s, ReadFails(c)) ==>
              var loop := Apply(s, ReadFails(c)).conns[c].loop;
              loop.Replying? && loop.call == s.conns[c].loop.call && loop.reply.failed && loop.reply.response.None?
    ensures Enabled(s, ReadBadGzip(c)) ==>
              var loop := Apply(s, ReadBadGzip(c)).conns[c].loop;
              loop.Replying? && loop.call == s.conns[c].loop.call && loop.reply.failed && loop.reply.response.Some?
  {
  }

  /**
   * A response head is handed on as it was read, without an error. The body holds the connection
   * exactly if there is one and the connection is to be kept.
   */
  lemma {:induction false} ResponsesAreHandedOn(
    cfg: Config, steps: seq<Step>, s: State, c: ConnId, hasBody: bool, last: bool)
    requires Reached(cfg, steps, s) && Enabled(s, ReadResponse(c, hasBody, last))
    ensures var s', x := Apply(s, ReadResponse(c, hasBody, last)), s.conns[c].loop.call;
            && c in s'.conns && x in s'.calls
            && (s'.conns[c].loop.Pooling? || s'.conns[c].loop.Replying?) && s'.conns[c].loop.call == x
            && s'.conns[c].loop.reply == Reply(Some(Response(x, hasBody)), false)
            && (s'.calls[x].body.callback == Attached(c) <==> hasBody && !last)
            && (s'.conns[c].loop.Pooling? <==> !hasBody && !last)
            && (s'.conns[c].alive <==> !last)
  {
    var pl := ReachedHasPlaces(cfg, steps, s);
    assert ConnInv(s, pl, c);
    assert Pending(s.conns[c])[0] == s.conns[c].written[s.conns[c].parsed];
  }

  // ----- connections offered to the pool -----

  /** There is room in the pool for a connection that is worth keeping. */
  predicate Welcome(s: State, c: ConnId)
    requires c in s.conns
  {
    KeepsConnections(s.cfg) && !s.conns[c].broken && |IdleList(Idle(s), s.conns[c].cacheKey)| < MaxIdle(s.cfg)
  }

  /** It is in the pool and its read loop goes on, or it is closed and its read loop is told to end. */
  ghost predicate KeptOrClosed(s: State, c: ConnId, kept: bool) {
    && c in s.conns && (InPool(s, c) <==> kept)
    && (if kept then s.conns[c].alive && !s.conns[c].broken else !s.conns[c].alive && s.conns[c].broken)
  }

  lemma {:induction false} Offered(s: State, pl: Places, c: ConnId, s': State)
    requires Inv(s, pl) && c in s.conns && pl[c] != Pooled && pl[c] != Retired
    requires s'.pool == PutIdle(s, c).0.pool && c in s'.conns
    requires s'.conns[c].broken == PutIdle(s, c).0.conns[c].broken
    requires s'.conns[c].alive == (s.conns[c].alive && PutIdle(s, c).1)
    ensures KeptOrClosed(s', c, Welcome(s, c))
  {
    var k := s.conns[c];
    assert ConnInv(s, pl, c);
    PutIsStackPush(s.cfg, Idle(s), k.cacheKey, c, k.broken);
    if Welcome(s, c) {
      assert Listed(Idle(s'), k.cacheKey, c);
    }
  }

  /** A connection answered without a body is pooled if it is welcome, and otherwise done with. */
  lemma {:induction false} AnsweredIsKeptOrClosed(cfg: Config, steps: seq<Step>, s: State, c: ConnId)
    requires Reached(cfg, steps, s) && Enabled(s, Repool(c))
    ensures KeptOrClosed(Apply(s, Repool(c)), c, Welcome(s, c))
  {
    var pl := ReachedHasPlaces(cfg, steps, s);
    LoopPlace(s, pl, c);
    Offered(s, pl, c, DoRepool(s, c));
  }

  lemma {:induction false} FiredIsKeptOrClosed(s: State, pl: Places, x: CallId, c: ConnId)
    requires Inv(s, pl) && x in s.calls && s.calls[x].body.callback == Attached(c)
    ensures c in s.conns && KeptOrClosed(Fire(s, x), c, Welcome(s, c))
  {
    assert CallInv(s, pl, x);
    Offered(s, pl, c, Fire(s, x));
  }

  lemma {:induction false} ClosedIsKeptOrClosed(s: State, pl: Places, x: CallId, c: ConnId)
    requires Inv(s, pl) && BodyInHand(s, x) && s.calls[x].body.callback == Attached(c) && !s.calls[x].body.isClosed
    ensures c in s.conns && KeptOrClosed(DoBodyClose(s, x, true), c, Welcome(s, c))
  {
    assert CallInv(s, pl, x);
    Offered(s, pl, c, DoBodyClose(s, x, true));
  }

  /** So is a connection whose body meets EOF. */
  lemma {:induction false} ReadToTheEndIsKeptOrClosed(cfg: Config, steps: seq<Step>, s: State, x: CallId, c: ConnId)
    requires Reached(cfg, steps, s) && Enabled(s, BodyEOF(x)) && s.calls[x].body.callback == Attached(c)
    ensures c in s.conns && KeptOrClosed(Apply(s, BodyEOF(x)), c, Welcome(s, c))
  {
    var pl := ReachedHasPlaces(cfg, steps, s);
    FiredIsKeptOrClosed(s, pl, x, c);
  }

  /** And one whose body is closed before, without an error. */
  lemma {:induction false} ClosedBodyIsKeptOrClosed(cfg: Config, steps: seq<Step>, s: State, x: CallId, c: ConnId)
    requires Reached(cfg, steps, s) && Enabled(s, BodyClose(x, true)) && s.calls[x].body.callback == Attached(c)
    requires !s.calls[x].body.isClosed
    ensures c in s.conns && KeptOrClosed(Apply(s, BodyClose(x, true)), c, Welcome(s, c))
  {
    var pl := ReachedHasPlaces(cfg, steps, s);
    ClosedIsKeptOrClosed(s, pl, x, c);
  }

  /** But a Close that fails, or a second one, offers nothing. */
  lemma {:induction false} FailedCloseOffersNothing(s: State, x: CallId, ok: bool)
    requires Enabled(s, BodyClose(x, ok)) && (!ok || s.calls[x].body.isClosed)
    ensures var s' := Apply(s, BodyClose(x, ok)); s'.conns == s.conns && s'.pool == s.pool
  {
  }

  /** Closing idle connections: each is closed and stays listed until the new map replaces the old. */
  lemma {:induction false} IdleConnectionsAreClosed(cfg: Config, steps: seq<Step>, s: State, c: ConnId)
    requires Reached(cfg, steps, s)
    ensures Enabled(s, CloseIdle(c)) <==> c in s.conns && InPool(s, c)
    ensures Enabled(s, CloseIdle(c)) ==>
              var s' := Apply(s, CloseIdle(c)); c in s'.conns && s'.conns[c].broken && s'.pool == s.pool
    ensures Enabled(s, ResetPool) <==> s.pool.Some? && forall d :: d in s.conns && InPool(s, d) ==> s.conns[d].broken
    ensures Enabled(s, ResetPool) ==> Apply(s, ResetPool).pool == Some(map[]) && Apply(s, ResetPool).conns == s.conns
  {
    var pl := ReachedHasPlaces(cfg, steps, s);
    if s.pool.Some? && forall d :: d in s.conns && InPool(s, d) ==> s.conns[d].broken {
      forall key, d | Listed(s.pool.value, key, d)
        ensures d in Broken(s)
      {
        assert Listed(Idle(s), key, d) && InPool(s, d);
      }
    }
    forall d | Enabled(s, ResetPool) && d in s.conns && InPool(s, d)
      ensures s.conns[d].broken
    {
      var key :| Listed(Idle(s), key, d);
      assert Listed(s.pool.value, key, d);
    }
  }

  // ----- round trips that are over -----

  predicate Over(stage: Stage) {
    stage.DialFailed? || stage.Abandoned? || stage.Returned?
  }

  ghost predicate StageStays(s: State, s': State, x: CallId)
    requires x in s.calls
  {
    x in s'.calls && (Over(s.calls[x].stage) ==> s'.calls[x].stage == s.calls[x].stage)
  }

  lemma {:induction false} OverInLoops(s: State, step: Step, x: CallId)
    requires Enabled(s, step) && x in s.calls && LoopStep(step)
    ensures StageStays(s, Apply(s, step), x)
  {
    if step.Repool? {
      PoolKeepsOthers(s, step.conn);
    }
  }

  lemma {:induction false} OverInBodies(s: State, step: Step, x: CallId)
    requires Enabled(s, step) && x in s.calls && (step.BodyEOF? || step.BodyClose?)
    ensures StageStays(s, Apply(s, step), x)
  {
    BodyKeepsOthers(s, step.call, step.BodyClose? ==> step.ok);
  }

  lemma {:induction false} OverElsewhere(s: State, step: Step, x: CallId)
    requires Enabled(s, step) && x in s.calls && !LoopStep(step) && !step.BodyEOF? && !step.BodyClose?
    ensures StageStays(s, Apply(s, step), x)
    ensures step == DialFails(x) || step == WriteFails(x) || step == Decrement(x) ==>
              Over(Apply(s, step).calls[x].stage)
  {
  }

  /** A round trip ends with an error of the dial or of the write, or with its reply; and that is final. */
  lemma {:induction false} OverIsOver(s: State, step: Step, x: CallId)
    requires Enabled(s, step) && x in s.calls
    ensures StageStays(s, Apply(s, step), x)
    ensures step == DialFails(x) || step == WriteFails(x) || step == Decrement(x) ==>
              Over(Apply(s, step).calls[x].stage)
  {
    if LoopStep(step) {
      OverInLoops(s, step, x);
    } else if step.BodyEOF? || step.BodyClose? {
      OverInBodies(s, step, x);
    } else {
      OverElsewhere(s, step, x);
    }
  }

  // ----- nothing is ruled out -----

  lemma {:induction false} CallerHasConn(s: State, pl: Places, x: CallId)
    requires Inv(s, pl) && x in s.calls
    ensures var stage := s.calls[x].stage;
            stage.Holding? || stage.Counted? || stage.Written? || stage.Waiting? || stage.Received? ==> HasConn(s, x)
    ensures s.calls[x].stage.Waiting? ==> s.calls[x].taken == 0
    ensures s.calls[x].body.callback.Attached? ==> s.calls[x].body.callback.conn in s.conns
  {
    assert CallInv(s, pl, x);
  }

  /** What a round trip can do next, whichever way it goes; but for waiting, that is always something. */
  lemma {:induction false} CallersCanGoOn(cfg: Config, steps: seq<Step>, s: State, x: CallId, c: ConnId)
    requires Reached(cfg, steps, s) && x in s.calls
    ensures s.calls[x].stage.Wanting? ==> Enabled(s, TakeIdle(x))
    ensures s.calls[x].stage.Dialing? ==> Enabled(s, DialFails(x)) && (c !in s.conns ==> Enabled(s, Dial(x, c)))
    ensures s.calls[x].stage.Holding? ==> Enabled(s, Increment(x))
    ensures s.calls[x].stage.Counted? ==> Enabled(s, WriteRequest(x)) && Enabled(s, WriteFails(x))
    ensures s.calls[x].stage.Written? ==> Enabled(s, Enqueue(x))
    ensures s.calls[x].stage.Waiting? ==> (Enabled(s, ReceiveReply(x)) <==> s.calls[x].sent != [])
    ensures s.calls[x].stage.Received? ==> Enabled(s, Decrement(x))
  {
    var pl := ReachedHasPlaces(cfg, steps, s);
    CallerHasConn(s, pl, x);
    SendsNeverBlock(cfg, steps, s, x, c);
  }

  /** A client that has a response can read its body and close it, unless it is doing so. */
  lemma {:induction false} ClientsCanGoOn(cfg: Config, steps: seq<Step>, s: State, x: CallId, ok: bool)
    requires Reached(cfg, steps, s) && x in s.calls
    requires s.calls[x].stage.Returned? && s.calls[x].stage.reply.response.Some?
    ensures Enabled(s, BodyEOF(x)) <==> !s.calls[x].body.callback.Signalling?
    ensures Enabled(s, BodyClose(x, ok)) <==> !s.calls[x].body.callback.Signalling?
  {
    var pl := ReachedHasPlaces(cfg, steps, s);
    CallerHasConn(s, pl, x);
  }

  lemma {:induction false} LoopHasCall(s: State, pl: Places, c: ConnId)
    requires Inv(s, pl) && c in s.conns
    ensures var loop := s.conns[c].loop;
            loop.Reading? || loop.AwaitBody? ==> loop.call in s.calls
    ensures s.conns[c].loop.Reading? ==> s.conns[c].parsed < |s.conns[c].written|
  {
    assert ConnInv(s, pl, c);
  }

  /**
   * And a read loop: it waits for a request, for its body or for the network only, and any read may
   * fail. That it can send a reply is said elsewhere.
   */
  lemma {:induction false} LoopsCanGoOn(cfg: Config, steps: seq<Step>, s: State, c: ConnId, flag: bool, last: bool)
    requires Reached(cfg, steps, s) && c in s.conns
    ensures s.conns[c].loop.Top? ==> Enabled(s, CheckExpected(c))
    ensures s.conns[c].loop.AwaitRequest? ==> (Enabled(s, Dequeue(c)) <==> s.conns[c].reqch != [])
    ensures s.conns[c].loop.GotRequest? ==> Enabled(s, CloseLastBody(c, flag))
    ensures s.conns[c].loop.Reading? ==>
              Enabled(s, ReadFails(c)) && Enabled(s, ReadBadGzip(c)) && Enabled(s, ReadResponse(c, flag, last))
    ensures s.conns[c].loop.Pooling? ==> Enabled(s, Repool(c))
    ensures s.conns[c].loop.AwaitBody? ==>
              && s.conns[c].loop.call in s.calls
              && (Enabled(s, Rendezvous(c)) <==> s.calls[s.conns[c].loop.call].body.callback == Signalling(c))
  {
    var pl := ReachedHasPlaces(cfg, steps, s);
    LoopHasCall(s, pl, c);
    if s.conns[c].loop.GotRequest? {
      LastBodySpared(s, pl, c);
    }
  }

  // ----- what the lemmas about reached states rule out -----

  /** The pool panics where it writes to a map that was not made, and where it indexes an empty list. */
  lemma {:induction false} PoolWouldPanic(s: State, c: ConnId, x: CallId)
    requires !s.panicked
    ensures c in s.conns ==> (PutIdle(s, c).0.panicked <==> s.pool.None? && Welcome(s, c))
    ensures x in s.calls ==>
              var key := Key(s.calls[x].cm); (DoTakeIdle(s, x).panicked <==> key in Idle(s) && Idle(s)[key] == [])
  {
  }

  /** A read loop that closes a body whose callback is still to run would wait for itself. */
  lemma {:induction false} LoopWouldWaitForItself(s: State, c: ConnId, ok: bool)
    requires Enabled(s, CloseLastBody(c, ok))
    ensures c in Apply(s, CloseLastBody(c, ok)).conns
    ensures Apply(s, CloseLastBody(c, ok)).conns[c].loop.Stuck? <==>
              ok && s.conns[c].lastBody.Some? && s.calls[s.conns[c].lastBody.value].body.callback.Attached?
              && !s.calls[s.conns[c].lastBody.value].body.isClosed
  {
  }

  /** A request waits exactly while fifty are queued, and a reply while one is not received. */
  lemma {:induction false} SendsWouldBlock(s: State, x: CallId, c: ConnId)
    requires !s.panicked
    ensures HasConn(s, x) && s.calls[x].stage.Written? ==>
              (Enabled(s, Enqueue(x)) <==> |s.conns[s.calls[x].stage.conn].reqch| < 50)
    ensures c in s.conns && s.conns[c].loop.Replying? && s.conns[c].loop.call in s.calls ==>
              var call := s.calls[s.conns[c].loop.call]; (Enabled(s, SendReply(c)) <==> |call.sent| <= call.taken)
  {
  }
}
