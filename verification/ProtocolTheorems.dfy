/**
 * What holds in every run of the connection protocol, stated on its states alone: each lemma is
 * about the state reached from the initial one by any sequence of steps that can be taken.
 */
module ProtocolTheorems {
  import opened Options
  import opened ConnectMethods
  import opened Pool
  import opened Protocol
  import opened ProtocolInvariant

  ghost predicate Reached(cfg: Config, steps: seq<Step>, s: State) {
    Run(Init(cfg), steps) && After(Init(cfg), steps) == s
  }

  lemma {:induction false} ReachedHasPlaces(cfg: Config, steps: seq<Step>, s: State) returns (pl: Places)
    requires Reached(cfg, steps, s)
    ensures Inv(s, pl)
  {
    InitHolds(cfg);
    pl := RunKeeps(Init(cfg), map[], steps);
  }

  // ----- one place for each connection -----

  /** Where the state itself says that a connection is; retired is being in none of the other places. */
  ghost predicate At(s: State, c: ConnId, p: Place)
    requires c in s.conns
  {
    match p
    case HeldBy(x) => x in s.calls && Holds(s.calls[x].stage, c)
    case Queued(x) => x in s.conns[c].reqch
    case Answering(x) => Busy(s.conns[c].loop, x)
    case InBody(x) => x in s.calls && s.calls[x].body.callback == Attached(c)
    case Pooled => InPool(s, c)
    case Retired =>
      && (forall x :: x in s.calls ==> !Holds(s.calls[x].stage, c) && s.calls[x].body.callback != Attached(c))
      && s.conns[c].reqch == []
      && (forall x :: !Busy(s.conns[c].loop, x))
      && !InPool(s, c)
  }

  ghost predicate InPool(s: State, c: ConnId) {
    exists key :: Listed(Idle(s), key, c)
  }

  lemma {:induction false} AtIsPlace(s: State, pl: Places, c: ConnId, p: Place)
    requires Inv(s, pl) && c in s.conns
    ensures At(s, c, p) <==> p == pl[c]
  {
    assert ConnInv(s, pl, c);
    if p.HeldBy? && p.call in s.calls {
      assert CallInv(s, pl, p.call);
    }
    if p.InBody? && p.call in s.calls {
      assert CallInv(s, pl, p.call);
    }
    if p.Pooled? && pl[c] == Pooled {
      assert Listed(Idle(s), s.conns[c].cacheKey, c);
    }
    if p.Retired? {
      RetiredIsPlace(s, pl, c);
    }
  }

  lemma {:induction false} RetiredIsPlace(s: State, pl: Places, c: ConnId)
    requires Inv(s, pl) && c in s.conns
    ensures At(s, c, Retired) <==> pl[c] == Retired
  {
    assert ConnInv(s, pl, c);
    if pl[c] == Retired {
      forall x | x in s.calls
        ensures !Holds(s.calls[x].stage, c) && s.calls[x].body.callback != Attached(c)
      {
        assert CallInv(s, pl, x);
      }
    } else if pl[c] == Pooled {
      assert Listed(Idle(s), s.conns[c].cacheKey, c);
    }
  }

  /**
   * In every reachable state each connection is in exactly one place, so no two round trips own it
   * at once; it is listed at most once in the pool and has at most one request queued and at most
   * one request on the wire that was not answered.
   */
  lemma {:induction false} EachConnectionIsInOnePlace(cfg: Config, steps: seq<Step>, s: State, c: ConnId)
    requires Reached(cfg, steps, s) && c in s.conns
    ensures exists p :: At(s, c, p) && forall q :: At(s, c, q) ==> q == p
    ensures forall x, y :: x in s.calls && y in s.calls ==>
              (Holds(s.calls[x].stage, c) && Holds(s.calls[y].stage, c) ==> x == y)
    ensures forall key, other :: Listed(Idle(s), key, c) && Listed(Idle(s), other, c) ==> key == other
    ensures forall key :: key in Idle(s) ==> NoDuplicates(Idle(s)[key])
    ensures |s.conns[c].reqch| <= 1
    ensures |s.conns[c].written| - s.conns[c].parsed <= 1
  {
    var pl := ReachedHasPlaces(cfg, steps, s);
    assert ConnInv(s, pl, c);
    AtIsPlace(s, pl, c, pl[c]);
    forall q | At(s, c, q)
      ensures q == pl[c]
    {
      AtIsPlace(s, pl, c, q);
    }
    forall x | x in s.calls && Holds(s.calls[x].stage, c)
      ensures pl[c] == HeldBy(x)
    {
      assert CallInv(s, pl, x);
    }
  }

  /** A connection that left all the other places is never used again. */
  lemma {:induction false} RetiredForGood(cfg: Config, steps: seq<Step>, s: State, more: seq<Step>, c: ConnId)
    requires Reached(cfg, steps, s) && c in s.conns && At(s, c, Retired) && Run(s, more)
    ensures c in After(s, more).conns && At(After(s, more), c, Retired)
  {
    var pl := ReachedHasPlaces(cfg, steps, s);
    AtIsPlace(s, pl, c, Retired);
    var pl' := RetiredOverRun(s, pl, more, c);
    AtIsPlace(After(s, more), pl', c, Retired);
  }

  lemma {:induction false} RetiredOverRun(s: State, pl: Places, more: seq<Step>, c: ConnId) returns (pl': Places)
    requires Inv(s, pl) && c in s.conns && pl[c] == Retired && Run(s, more)
    ensures Inv(After(s, more), pl') && c in After(s, more).conns && pl'[c] == Retired
    decreases |more|
  {
    if more == [] {
      pl' := pl;
    } else {
      var pl1 := StepKeeps(s, pl, more[0]);
      pl' := RetiredOverRun(Apply(s, more[0]), pl1, more[1..], c);
    }
  }

  // ----- broken connections -----

  /** A connection is neither mended, nor forgotten, nor given to another route. */
  predicate KeepsConn(s: State, s': State, c: ConnId)
    requires c in s.conns
  {
    && c in s'.conns && (s.conns[c].broken ==> s'.conns[c].broken)
    && s'.conns[c].route == s.conns[c].route && s'.conns[c].cacheKey == s.conns[c].cacheKey
  }

  lemma {:induction false} FireKeepsConn(s: State, x: CallId, c: ConnId)
    requires x in s.calls && s.calls[x].body.callback.Attached? && s.calls[x].body.callback.conn in s.conns
    requires c in s.conns
    ensures KeepsConn(s, Fire(s, x), c)
  {
  }

  lemma {:induction false} ReadLoopKeepsConn(s: State, d: ConnId, c: ConnId)
    requires d in s.conns && c in s.conns
    ensures s.conns[d].loop.Pooling? ==> KeepsConn(s, DoRepool(s, d), c)
    ensures s.conns[d].loop.GotRequest? && (s.conns[d].lastBody.Some? ==> s.conns[d].lastBody.value in s.calls) ==>
              KeepsConn(s, DoCloseLastBody(s, d, true), c) && KeepsConn(s, DoCloseLastBody(s, d, false), c)
  {
  }

  lemma {:induction false} ReadResponseKeepsConn(s: State, d: ConnId, hasBody: bool, last: bool, c: ConnId)
    requires d in s.conns && s.conns[d].loop.Reading? && s.conns[d].loop.call in s.calls
    requires s.conns[d].parsed < |s.conns[d].written| && c in s.conns
    ensures KeepsConn(s, DoReadResponse(s, d, hasBody, last), c)
  {
  }

  lemma {:induction false} BodyKeepsConn(s: State, x: CallId, ok: bool, c: ConnId)
    requires BodyInHand(s, x) && c in s.conns
    ensures KeepsConn(s, DoBodyEOF(s, x), c) && KeepsConn(s, DoBodyClose(s, x, ok), c)
  {
    var b := s.calls[x].body;
    if b.callback.Attached? {
      FireKeepsConn(s, x, c);
      FireKeepsConn(SetCall(s, x, s.calls[x].(body := b.(isClosed := true))), x, c);
    }
  }

  lemma {:induction false} BrokenStays(s: State, step: Step, c: ConnId)
    requires Enabled(s, step) && c in s.conns
    ensures KeepsConn(s, Apply(s, step), c)
  {
    match step
    case Repool(d) => ReadLoopKeepsConn(s, d, c);
    case CloseLastBody(d, ok) => ReadLoopKeepsConn(s, d, c);
    case ReadResponse(d, hasBody, last) => ReadResponseKeepsConn(s, d, hasBody, last, c);
    case BodyEOF(x) => BodyKeepsConn(s, x, true, c);
    case BodyClose(x, ok) => BodyKeepsConn(s, x, ok, c);
    case _ =>
  }

  /**
   * A pooled connection that is broken, as CloseIdleConnections leaves it, is never handed out: in
   * no later state does a round trip hold it or have a request on it.
   */
  lemma {:induction false} ClosedIdleIsNeverHandedOut(
    cfg: Config, steps: seq<Step>, s: State, more: seq<Step>, c: ConnId)
    requires Reached(cfg, steps, s) && c in s.conns && InPool(s, c) && s.conns[c].broken && Run(s, more)
    ensures var s' := After(s, more);
            && c in s'.conns && s'.conns[c].broken
            && (At(s', c, Pooled) || At(s', c, Retired))
            && forall x :: x in s'.calls ==> !Holds(s'.calls[x].stage, c)
  {
    var pl := ReachedHasPlaces(cfg, steps, s);
    AtIsPlace(s, pl, c, Pooled);
    var pl' := BrokenOverRun(s, pl, more, c);
    var s' := After(s, more);
    AtIsPlace(s', pl', c, pl'[c]);
    forall x | x in s'.calls
      ensures !Holds(s'.calls[x].stage, c)
    {
      AtIsPlace(s', pl', c, HeldBy(x));
    }
  }

  lemma {:induction false} BrokenOverRun(s: State, pl: Places, more: seq<Step>, c: ConnId) returns (pl': Places)
    requires Inv(s, pl) && c in s.conns && s.conns[c].broken && (pl[c] == Pooled || pl[c] == Retired) && Run(s, more)
    ensures Inv(After(s, more), pl') && c in After(s, more).conns && After(s, more).conns[c].broken
    ensures pl'[c] == Pooled || pl'[c] == Retired
    decreases |more|
  {
    if more == [] {
      pl' := pl;
    } else {
      var pl1 := StepKeeps(s, pl, more[0]);
      BrokenStays(s, more[0], c);
      pl' := BrokenOverRun(Apply(s, more[0]), pl1, more[1..], c);
    }
  }

  /** A connection taken from the pool is not broken and its read loop is there to answer. */
  lemma {:induction false} HandedOutWithReadLoop(cfg: Config, steps: seq<Step>, s: State, x: CallId)
    requires Reached(cfg, steps, s) && Enabled(s, TakeIdle(x))
    ensures var s' := Apply(s, TakeIdle(x));
            s'.calls[x].stage.Holding? ==>
              var c := s'.calls[x].stage.conn;
              c in s'.conns && !s'.conns[c].broken && s'.conns[c].alive && !s'.conns[c].loop.Exited?
  {
    var pl := ReachedHasPlaces(cfg, steps, s);
    var s' := Apply(s, TakeIdle(x));
    if s'.calls[x].stage.Holding? {
      var c := s'.calls[x].stage.conn;
      TakeIsStackPop(s.cfg, Idle(s), Key(s.calls[x].cm), Broken(s));
      assert ConnInv(s, pl, c);
    }
  }

  /**
   * No connection is lost while it is good: out of use, it is broken or its last response asked to
   * close; and whoever was told of an error, or gave up writing, left it broken.
   */
  lemma {:induction false} OnlyBadConnectionsAreDropped(cfg: Config, steps: seq<Step>, s: State, c: ConnId, x: CallId)
    requires Reached(cfg, steps, s) && c in s.conns && x in s.calls
    ensures At(s, c, Retired) || s.conns[c].loop.Exited? ==> s.conns[c].broken || !s.conns[c].alive
    ensures !At(s, c, Retired) ==> s.conns[c].alive
    ensures s.calls[x].stage == Abandoned(c) ==> s.conns[c].broken
    ensures s.calls[x].stage.Received? && s.calls[x].stage.conn == c && s.calls[x].stage.reply.failed ==>
              s.conns[c].broken
  {
    var pl := ReachedHasPlaces(cfg, steps, s);
    AtIsPlace(s, pl, c, Retired);
    assert ConnInv(s, pl, c) && CallInv(s, pl, x);
  }

  /** After a response that asks to close, a failed read or a failed write the connection is out of use. */
  lemma {:induction false} EndsRetire(cfg: Config, steps: seq<Step>, s: State, step: Step, c: ConnId)
    requires Reached(cfg, steps, s) && Enabled(s, step) && c in s.conns
    requires || (step.ReadResponse? && step.conn == c && step.last)
             || step == ReadFails(c) || step == ReadBadGzip(c)
             || (step.WriteFails? && s.calls[step.call].stage.conn == c)
    ensures c in Apply(s, step).conns && At(Apply(s, step), c, Retired)
  {
    var pl := ReachedHasPlaces(cfg, steps, s);
    match step {
      case ReadResponse(_, hasBody, last) => ReadResponseKeeps(s, pl, c, hasBody, last);
      case ReadFails(_) => ReadFailsKeeps(s, pl, c);
      case ReadBadGzip(_) => ReadBadGzipKeeps(s, pl, c);
      case WriteFails(x) => WriteFailsKeeps(s, pl, x);
    }
    AtIsPlace(Apply(s, step), pl[c := Retired], c, Retired);
  }

  // ----- responses and requests -----

  /**
   * Every response that a round trip was sent answers its own request, it is sent one reply at most,
   * and a reply without a response is an error.
   */
  lemma {:induction false} ResponsesMatchRequests(cfg: Config, steps: seq<Step>, s: State, x: CallId)
    requires Reached(cfg, steps, s) && x in s.calls
    ensures |s.calls[x].sent| <= 1
    ensures forall r :: r in s.calls[x].sent && r.response.Some? ==> r.response.value.answers == x
    ensures forall r :: r in s.calls[x].sent && r.response.None? ==> r.failed
    ensures s.calls[x].stage.Returned? || s.calls[x].stage.Received? ==> s.calls[x].sent == [s.calls[x].stage.reply]
  {
    var pl := ReachedHasPlaces(cfg, steps, s);
    assert CallInv(s, pl, x);
  }

  /** When the next response head is read, every earlier body from the connection has been closed. */
  lemma {:induction false} EarlierBodiesAreClosed(cfg: Config, steps: seq<Step>, s: State, c: ConnId, y: CallId)
    requires Reached(cfg, steps, s) && c in s.conns && s.conns[c].loop.Reading?
    requires y in s.calls && s.calls[y].body.conn == Some(c)
    ensures s.calls[y].body.isClosed
  {
    var pl := ReachedHasPlaces(cfg, steps, s);
    assert ConnInv(s, pl, c) && CallInv(s, pl, y);
  }

  /**
   * While a body is unread its read loop waits for it, or is about to send the reply that hands it
   * over: the connection is not read from.
   */
  lemma {:induction false} UnreadBodyHoldsTheLoop(cfg: Config, steps: seq<Step>, s: State, x: CallId, c: ConnId)
    requires Reached(cfg, steps, s) && x in s.calls && s.calls[x].body.callback == Attached(c)
    ensures c in s.conns && var loop := s.conns[c].loop;
            loop == AwaitBody(x) || (loop.Replying? && loop.call == x && loop.wait)
  {
    var pl := ReachedHasPlaces(cfg, steps, s);
    assert CallInv(s, pl, x);
    assert ConnInv(s, pl, c);
  }

  // ----- nothing blocks or panics that should not -----

  /**
   * Queueing a request and sending a reply always find room, and closing the previous body never
   * makes the read loop wait for itself.
   */
  lemma {:induction false} SendsNeverBlock(cfg: Config, steps: seq<Step>, s: State, x: CallId, c: ConnId)
    requires Reached(cfg, steps, s)
    ensures x in s.calls && s.calls[x].stage.Written? ==> Enabled(s, Enqueue(x))
    ensures c in s.conns && s.conns[c].loop.Replying? ==> Enabled(s, SendReply(c))
    ensures c in s.conns ==> !s.conns[c].loop.Stuck?
  {
    var pl := ReachedHasPlaces(cfg, steps, s);
    if x in s.calls && s.calls[x].stage.Written? {
      assert CallInv(s, pl, x);
      assert ConnInv(s, pl, s.calls[x].stage.conn);
    }
    if c in s.conns {
      assert ConnInv(s, pl, c);
    }
  }

  /**
   * The pool is never indexed out of range nor written to before it is made, and keeps its shape:
   * no empty or overlong list, no entry twice, every entry under its own key.
   */
  lemma {:induction false} PoolStaysWellFormed(cfg: Config, steps: seq<Step>, s: State)
    requires Reached(cfg, steps, s)
    ensures !s.panicked
    ensures s.conns != map[] ==> s.pool.Some?
    ensures Shapely(s.cfg, Idle(s))
    ensures forall key, c :: Listed(Idle(s), key, c) ==> c in s.conns && s.conns[c].cacheKey == key
  {
    var pl := ReachedHasPlaces(cfg, steps, s);
  }

  /**
   * The expected-response count is the number of round trips between increment and decrement plus
   * those abandoned on a write error. Where a read loop finds it zero, no request is queued, so
   * the unsolicited-response branch discards none.
   */
  lemma {:induction false} CountIsExact(cfg: Config, steps: seq<Step>, s: State, c: ConnId)
    requires Reached(cfg, steps, s) && c in s.conns
    ensures s.conns[c].numExpected == |set x | x in s.calls && Outstanding(s.calls[x].stage, c)|
    ensures s.conns[c].numExpected >= 0
    ensures s.conns[c].numExpected == 0 ==>
              s.conns[c].reqch == [] && forall x :: x in s.calls ==> !Outstanding(s.calls[x].stage, c)
  {
    var pl := ReachedHasPlaces(cfg, steps, s);
    assert ConnInv(s, pl, c);
    var counted := set x | x in s.calls && Outstanding(s.calls[x].stage, c);
    assert OutstandingOn(s, c) == counted by {
      forall x
        ensures x in OutstandingOn(s, c) <==> x in counted
      {
      }
    }
    if s.conns[c].numExpected == 0 {
      forall x | x in s.calls
        ensures !Outstanding(s.calls[x].stage, c)
      {
        assert x !in counted;
      }
    }
  }

  // ----- reuse and bodies -----

  /**
   * A round trip only ever uses a connection that was dialled for its own key. That is for its own
   * proxy string, scheme and target, unless the separator is in the proxy of one route and the
   * target of the other, and for the routes that the package builds unless a whole scheme is in
   * either. Where nobody gives an empty proxy URL it is the same route, dialled at the same address.
   */
  lemma {:induction false} ReuseKeepsTheRoute(cfg: Config, steps: seq<Step>, s: State, x: CallId, c: ConnId)
    requires Reached(cfg, steps, s) && x in s.calls
    requires Holds(s.calls[x].stage, c) || s.calls[x].stage == Waiting(c)
    ensures c in s.conns && Key(s.conns[c].route) == Key(s.calls[x].cm)
    ensures Distinguished(s.conns[c].route, s.calls[x].cm) ==> SameParts(s.conns[c].route, s.calls[x].cm)
    ensures var a, b := s.conns[c].route, s.calls[x].cm;
            Distinguished(a, b) && Proper(a) && Proper(b) ==>
              SameRoute(a, b) && (TextNamesProxy(a, b) ==> Addr(a) == Addr(b))
  {
    var pl := ReachedHasPlaces(cfg, steps, s);
    assert CallInv(s, pl, x);
    assert ConnInv(s, pl, c);
    if Distinguished(s.conns[c].route, s.calls[x].cm) {
      DistinguishedByKey(s.conns[c].route, s.calls[x].cm);
    }
  }

  /** What the two routes must be like for their keys to tell them apart. */
  ghost predicate Distinguished(a: ConnectMethod, b: ConnectMethod) {
    || ('|' !in a.targetScheme && '|' !in b.targetScheme && !SeparatorsMeet(a, b))
    || (Buildable(a) && Buildable(b) && !SchemeInProxy(b) && !SchemeInTarget(b))
  }

  lemma {:induction false} DistinguishedByKey(a: ConnectMethod, b: ConnectMethod)
    requires Distinguished(a, b) && Key(a) == Key(b)
    ensures SameParts(a, b)
    ensures Proper(a) && Proper(b) ==> SameRoute(a, b) && (TextNamesProxy(a, b) ==> Addr(a) == Addr(b))
  {
    if Buildable(a) && Buildable(b) && !SchemeInProxy(b) && !SchemeInTarget(b) {
      if !SameParts(a, b) {
        OtherReadingHasScheme(b, a);
      }
    } else {
      KeyDeterminesRoute(a, b);
    }
    if Proper(a) && Proper(b) && TextNamesProxy(a, b) {
      SameRouteSameAddr(a, b);
    }
  }

  /** The end-of-body callback runs at most once, whoever reads or closes the body. */
  lemma {:induction false} CallbackRunsAtMostOnce(cfg: Config, steps: seq<Step>, s: State, x: CallId)
    requires Reached(cfg, steps, s) && x in s.calls
    ensures s.calls[x].body.fired <= 1
    ensures s.calls[x].body.fired == 1 ==> !s.calls[x].body.callback.Attached?
  {
    var pl := ReachedHasPlaces(cfg, steps, s);
    assert CallInv(s, pl, x);
  }
}
