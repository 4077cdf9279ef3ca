/**
 * What every step of the connection protocol keeps. The invariant is stated against an assignment
 * of a place to each connection: where the right to use it is.
 */
module ProtocolInvariant {
  import opened Options
  import opened ConnectMethods
  import opened Pool
  import opened Protocol

  datatype Place =
    | HeldBy(call: CallId)     // a round trip has it and has not queued its request yet
    | Queued(call: CallId)     // in the request channel, behind a request
    | Answering(call: CallId)  // with the read loop, which has taken the request
    | InBody(call: CallId)     // with the callback of a response body
    | Pooled
    | Retired

  type Places = map<ConnId, Place>

  /** The read loop has taken the request of x and has not given the connection away yet. */
  predicate Busy(loop: Loop, x: CallId) {
    loop == GotRequest(x) || loop == Reading(x) || (loop.Pooling? && loop.call == x)
  }

  predicate InLoop(loop: Loop, x: CallId) {
    Busy(loop, x) || (loop.Replying? && loop.call == x)
  }

  /** A response to the request of x, or else an error. */
  predicate Correct(r: Reply, x: CallId) {
    if r.response.Some? then r.response.value.answers == x else r.failed
  }

  predicate Outstanding(stage: Stage, c: ConnId) {
    stage == Counted(c) || stage == Written(c) || stage == Waiting(c) || stage == Abandoned(c)
    || (stage.Received? && stage.conn == c)
  }

  // ----- what a connection's part of the invariant knows of a round trip, and the other way round -----

  /** A round trip as seen from one connection. */
  datatype CallView = CallView(
    holds: bool, written: bool, unanswered: bool, unasked: bool, outstanding: bool,
    attached: bool, signalling: bool, bodyFromHere: bool)

  const UNRELATED := CallView(false, false, false, false, false, false, false, false)

  function ViewOf(call: Call, c: ConnId): CallView {
    var unanswered := call.stage == Waiting(c) && call.sent == [] && call.taken == 0;
    CallView(Holds(call.stage, c), call.stage == Written(c), unanswered, unanswered && call.body == BLANK,
             Outstanding(call.stage, c), call.body.callback == Attached(c), call.body.callback == Signalling(c),
             call.body.conn == Some(c))
  }

  function Seen(s: State, x: CallId, c: ConnId): CallView {
    if x in s.calls then ViewOf(s.calls[x], c) else UNRELATED
  }

  /** A connection as seen from one round trip. */
  datatype ConnView = Absent | ConnView(
    key: string, underway: bool, awaitsBody: bool, isLastBody: bool, alive: bool, broken: bool,
    held: bool, inBody: bool)

  function SeenBy(s: State, pl: Places, x: CallId, c: ConnId): ConnView {
    if c in s.conns && c in pl then
      var k, p := s.conns[c], pl[c];
      ConnView(k.cacheKey, p == Queued(x) || InLoop(k.loop, x), k.loop == AwaitBody(x), k.lastBody == Some(x),
               k.alive, k.broken, p == HeldBy(x), p == InBody(x))
    else Absent
  }

  // ----- the parts of the invariant -----

  /** Neither the read loop nor a body has it. */
  predicate Elsewhere(p: Place) {
    !p.Answering? && !p.InBody?
  }

  predicate LoopInv(s: State, p: Place, c: ConnId)
    requires c in s.conns
  {
    var k := s.conns[c];
    match k.loop
    case Top => k.alive && Elsewhere(p)
    case AwaitRequest => k.alive && Elsewhere(p)
    case Exited => Elsewhere(p)
    case GotRequest(x) => k.alive && p == Answering(x) && Seen(s, x, c).unasked
    case Reading(x) => k.alive && p == Answering(x) && Seen(s, x, c).unasked && k.lastBody == None
    case Pooling(x, r) =>
      k.alive && p == Answering(x) && Seen(s, x, c).unasked && k.lastBody == None && Correct(r, x) && !r.failed
    case Replying(x, r, wait) =>
      Seen(s, x, c).unanswered && Correct(r, x) && (r.failed ==> k.broken)
      && (if wait then k.alive && p == InBody(x) && Seen(s, x, c).attached else Elsewhere(p))
    case AwaitBody(x) =>
      (Seen(s, x, c).attached && p == InBody(x) && k.alive) || (Seen(s, x, c).signalling && Elsewhere(p))
    case Stuck => false
  }

  predicate PlaceInv(s: State, p: Place, c: ConnId)
    requires c in s.conns
  {
    var k := s.conns[c];
    match p
    case HeldBy(x) => k.reqch == [] && Seen(s, x, c).holds
    case Queued(x) => k.reqch == [x] && Seen(s, x, c).unasked && !InLoop(k.loop, x)
    case Answering(x) => k.reqch == [] && Busy(k.loop, x)
    case InBody(x) => k.reqch == [] && Seen(s, x, c).attached
                      && (k.loop == AwaitBody(x) || (k.loop.Replying? && k.loop.call == x && k.loop.wait))
    case Pooled => k.reqch == [] && c in IdleList(Idle(s), k.cacheKey)
    case Retired => k.reqch == []
  }

  /**
   * In use means with a read loop that means to go on; out of use, or with a read loop that is
   * gone, means broken or told to close.
   */
  predicate UseInv(k: Conn, p: Place) {
    && (p != Retired ==> k.alive)
    && (p == Retired || k.loop.Exited? ==> k.broken || !k.alive)
  }

  /** The requests on the wire whose answers were not read yet. */
  function Pending(k: Conn): seq<CallId>
    requires k.parsed <= |k.written|
  {
    k.written[k.parsed..]
  }

  predicate WireInv(s: State, p: Place, c: ConnId)
    requires c in s.conns
  {
    var k := s.conns[c];
    k.parsed <= |k.written|
    && match p
       case HeldBy(x) => Pending(k) == if Seen(s, x, c).written then [x] else []
       case Queued(x) => Pending(k) == [x]
       case Answering(x) => Pending(k) == if k.loop.Pooling? then [] else [x]
       case InBody(x) => Pending(k) == []
       case Pooled => Pending(k) == []
       case Retired => |Pending(k)| <= 1
  }

  /** The round trips between increment and decrement on c, and those abandoned on a write error. */
  function OutstandingOn(s: State, c: ConnId): set<CallId> {
    set x | x in s.calls && Seen(s, x, c).outstanding
  }

  predicate ConnInv(s: State, pl: Places, c: ConnId)
    requires c in s.conns && c in pl
  {
    var k := s.conns[c];
    && LoopInv(s, pl[c], c)
    && PlaceInv(s, pl[c], c)
    && WireInv(s, pl[c], c)
    && UseInv(k, pl[c])
    && k.numExpected == |OutstandingOn(s, c)|
    && k.cacheKey == Key(k.route)
    && (k.lastBody.Some? ==> Seen(s, k.lastBody.value, c).bodyFromHere)
  }

  predicate Unstarted(call: Call) {
    call.sent == [] && call.taken == 0 && call.body == BLANK
  }

  predicate StageInv(s: State, pl: Places, x: CallId)
    requires x in s.calls
  {
    var call := s.calls[x];
    match call.stage
    case Wanting => Unstarted(call)
    case Dialing => Unstarted(call) && s.pool.Some?
    case DialFailed => Unstarted(call)
    case Holding(c) => HeldInv(s, pl, x, c)
    case Counted(c) => HeldInv(s, pl, x, c)
    case Written(c) => HeldInv(s, pl, x, c)
    case Waiting(c) =>
      var v := SeenBy(s, pl, x, c);
      v.ConnView? && v.key == Key(call.cm) && call.taken == 0 && |call.sent| <= 1
      && (call.sent == [] ==> v.underway)
      && (call.sent != [] && call.sent[0].failed ==> v.broken)
    case Received(c, r) =>
      var v := SeenBy(s, pl, x, c);
      v.ConnView? && call.sent == [r] && call.taken == 1 && (r.failed ==> v.broken)
    case Returned(r) => call.sent == [r] && call.taken == 1
    case Abandoned(c) => SeenBy(s, pl, x, c).ConnView? && SeenBy(s, pl, x, c).broken && Unstarted(call)
  }

  predicate HeldInv(s: State, pl: Places, x: CallId, c: ConnId)
    requires x in s.calls
  {
    var v := SeenBy(s, pl, x, c);
    v.ConnView? && v.held && v.key == Key(s.calls[x].cm) && Unstarted(s.calls[x])
  }

  predicate BodyInv(s: State, pl: Places, x: CallId)
    requires x in s.calls
  {
    var b := s.calls[x].body;
    && (match b.callback
        case NoCallback => b.fired <= 1
        case Attached(c) =>
          b.fired == 0 && b.conn == Some(c) && SeenBy(s, pl, x, c).ConnView? && SeenBy(s, pl, x, c).inBody
        case Signalling(c) =>
          b.fired == 1 && b.conn == Some(c) && SeenBy(s, pl, x, c).ConnView? && SeenBy(s, pl, x, c).awaitsBody)
    && (b.conn.Some? ==>
          var v := SeenBy(s, pl, x, b.conn.value);
          v.ConnView? && (b.isClosed || v.isLastBody || !v.alive))
  }

  predicate CallInv(s: State, pl: Places, x: CallId)
    requires x in s.calls
  {
    && StageInv(s, pl, x)
    && BodyInv(s, pl, x)
    && (forall i :: 0 <= i < |s.calls[x].sent| ==> Correct(s.calls[x].sent[i], x))
  }

  ghost predicate PoolInv(s: State, pl: Places) {
    && (s.conns != map[] ==> s.pool.Some?)
    && Shapely(s.cfg, Idle(s))
    && (forall key, c :: Listed(Idle(s), key, c) ==>
          c in s.conns && s.conns[c].cacheKey == key && c in pl && pl[c] == Pooled)
  }

  ghost predicate Inv(s: State, pl: Places) {
    && !s.panicked
    && pl.Keys == s.conns.Keys
    && PoolInv(s, pl)
    && (forall c {:trigger ConnInv(s, pl, c)} :: c in s.conns ==> ConnInv(s, pl, c))
    && (forall x {:trigger CallInv(s, pl, x)} :: x in s.calls ==> CallInv(s, pl, x))
  }

  // ----- frames: what does not change keeps its part of the invariant -----

  lemma {:induction false} ConnFrame(s: State, pl: Places, s': State, pl': Places, c: ConnId)
    requires c in s.conns && c in pl && ConnInv(s, pl, c)
    requires c in s'.conns && c in pl' && s'.conns[c] == s.conns[c] && pl'[c] == pl[c]
    requires pl[c] == Pooled ==> c in IdleList(Idle(s'), s.conns[c].cacheKey)
    requires forall x :: Seen(s', x, c) == Seen(s, x, c)
    ensures ConnInv(s', pl', c)
  {
    SameOutstanding(s, s', c);
  }

  lemma {:induction false} SameOutstanding(s: State, s': State, c: ConnId)
    requires forall x :: Seen(s', x, c).outstanding == Seen(s, x, c).outstanding
    ensures OutstandingOn(s', c) == OutstandingOn(s, c)
  {
    forall x
      ensures x in OutstandingOn(s', c) <==> x in OutstandingOn(s, c)
    {
      assert Seen(s', x, c).outstanding == Seen(s, x, c).outstanding;
    }
  }

  /** The place and the wire do not depend on where the read loop is, once it has given the connection away. */
  lemma {:induction false} PlaceFrame(s: State, s': State, p: Place, c: ConnId)
    requires c in s.conns && c in s'.conns && Elsewhere(p) && PlaceInv(s, p, c) && WireInv(s, p, c)
    requires s'.pool == s.pool
    requires var k, k' := s.conns[c], s'.conns[c];
             && k'.reqch == k.reqch && k'.cacheKey == k.cacheKey && k'.written == k.written && k'.parsed == k.parsed
             && (k'.loop == k.loop
                 || !(k'.loop.GotRequest? || k'.loop.Reading? || k'.loop.Pooling? || k'.loop.Replying?))
    requires forall y :: var v, v' := Seen(s, y, c), Seen(s', y, c);
                         v'.holds == v.holds && v'.written == v.written && (v.unasked ==> v'.unasked || p != Queued(y))
    ensures PlaceInv(s', p, c) && WireInv(s', p, c)
  {
    match p
    case HeldBy(x) => assert Seen(s', x, c).holds == Seen(s, x, c).holds;
    case Queued(x) => assert Seen(s', x, c).holds == Seen(s, x, c).holds;
    case Pooled =>
    case Retired =>
  }

  lemma {:induction false} LoopFrame(s: State, s': State, p: Place, c: ConnId)
    requires c in s.conns && c in s'.conns && LoopInv(s, p, c)
    requires var k, k' := s.conns[c], s'.conns[c];
             && k'.loop == k.loop && k'.alive == k.alive && k'.lastBody == k.lastBody && (k.broken ==> k'.broken)
    requires forall y :: var v, v' := Seen(s, y, c), Seen(s', y, c);
                         v'.unanswered == v.unanswered && v'.unasked == v.unasked
                         && v'.attached == v.attached && v'.signalling == v.signalling
    ensures LoopInv(s', p, c)
  {
    var loop := s.conns[c].loop;
    if !loop.Top? && !loop.AwaitRequest? && !loop.Exited? && !loop.Stuck? {
      assert Seen(s', loop.call, c).unanswered == Seen(s, loop.call, c).unanswered;
    }
  }

  lemma {:induction false} OneMoreOutstanding(s: State, s': State, x: CallId, c: ConnId)
    requires !Seen(s, x, c).outstanding && Seen(s', x, c).outstanding
    requires forall y :: y != x ==> Seen(s', y, c).outstanding == Seen(s, y, c).outstanding
    ensures |OutstandingOn(s', c)| == |OutstandingOn(s, c)| + 1
  {
    forall y | y != x
      ensures y in OutstandingOn(s', c) <==> y in OutstandingOn(s, c)
    {
      assert Seen(s', y, c).outstanding == Seen(s, y, c).outstanding;
    }
    assert OutstandingOn(s', c) == OutstandingOn(s, c) + {x};
  }

  /** Counting a round trip in or out changes nothing else about a connection. */
  lemma {:induction false} ConnRecount(s: State, pl: Places, s': State, c: ConnId)
    requires c in s.conns && c in pl && ConnInv(s, pl, c) && c in s'.conns && s'.pool == s.pool
    requires s'.conns[c] == s.conns[c].(numExpected := |OutstandingOn(s', c)|)
    requires forall y :: Seen(s', y, c) == Seen(s, y, c).(outstanding := Seen(s', y, c).outstanding)
    ensures ConnInv(s', pl, c)
  {
    LoopFrame(s, s', pl[c], c);
    if Elsewhere(pl[c]) {
      PlaceFrame(s, s', pl[c], c);
    }
  }

  /** Nothing that a round trip relies on is lost; a read loop may stop being alive, a connection may break. */
  predicate NoWorse(v: ConnView, v': ConnView) {
    v.ConnView? ==>
      && v'.ConnView? && v'.key == v.key
      && (v.underway ==> v'.underway) && (v.awaitsBody ==> v'.awaitsBody) && (v.isLastBody ==> v'.isLastBody)
      && (v'.alive ==> v.alive) && (v.broken ==> v'.broken)
      && (v.held ==> v'.held) && (v.inBody ==> v'.inBody)
  }

  lemma {:induction false} CallFrame(s: State, pl: Places, s': State, pl': Places, x: CallId)
    requires x in s.calls && CallInv(s, pl, x)
    requires x in s'.calls && s'.calls[x] == s.calls[x]
    requires s.pool.Some? ==> s'.pool.Some?
    requires forall c :: NoWorse(SeenBy(s, pl, x, c), SeenBy(s', pl', x, c))
    ensures CallInv(s', pl', x)
  {
    var call := s.calls[x];
    if call.body.conn.Some? {
      assert NoWorse(SeenBy(s, pl, x, call.body.conn.value), SeenBy(s', pl', x, call.body.conn.value));
    }
    if call.stage.Holding? || call.stage.Counted? || call.stage.Written? || call.stage.Waiting?
       || call.stage.Received? || call.stage.Abandoned? {
      assert NoWorse(SeenBy(s, pl, x, call.stage.conn), SeenBy(s', pl', x, call.stage.conn));
    }
  }

  lemma {:induction false} PoolFrame(s: State, pl: Places, s': State, pl': Places)
    requires PoolInv(s, pl) && s'.pool == s.pool && s'.cfg == s.cfg
    requires forall c :: c in s.conns && c in pl && pl[c] == Pooled ==>
               c in s'.conns && c in pl' && s'.conns[c].cacheKey == s.conns[c].cacheKey && pl'[c] == Pooled
    requires s'.conns != map[] ==> s.pool.Some?
    ensures PoolInv(s', pl')
  {
  }

  predicate Rest(s: State, s': State) {
    s'.cfg == s.cfg && s'.panicked == s.panicked && (s.pool.Some? ==> s'.pool.Some?)
  }

  lemma {:induction false} ConnsKept(s: State, pl: Places, s': State, x: CallId)
    requires Inv(s, pl) && x in s'.calls
    requires s' == s.(calls := s.calls[x := s'.calls[x]])
    requires forall c :: Seen(s', x, c) == Seen(s, x, c)
    ensures forall c {:trigger ConnInv(s', pl, c)} :: c in s'.conns ==> ConnInv(s', pl, c)
  {
    forall c | c in s.conns
      ensures ConnInv(s', pl, c)
    {
      assert ConnInv(s, pl, c);
      ConnFrame(s, pl, s', pl, c);
    }
  }

  /** A step that changes one round trip only. */
  lemma {:induction false} CallStep(s: State, pl: Places, s': State, x: CallId)
    requires Inv(s, pl) && x in s'.calls
    requires s' == s.(calls := s.calls[x := s'.calls[x]])
    requires forall c :: Seen(s', x, c) == Seen(s, x, c)
    requires CallInv(s', pl, x)
    ensures Inv(s', pl)
  {
    ConnsKept(s, pl, s', x);
    forall y | y in s'.calls && y != x
      ensures CallInv(s', pl, y)
    {
      assert CallInv(s, pl, y);
      CallFrame(s, pl, s', pl, y);
    }
    PoolFrame(s, pl, s', pl);
  }

  /** A step that changes one connection and possibly the pool. */
  lemma {:induction false} ConnStep(s: State, pl: Places, s': State, pl': Places, c: ConnId)
    requires Inv(s, pl) && c in s'.conns && c in pl' && Rest(s, s')
    requires s'.calls == s.calls && s'.conns == s.conns[c := s'.conns[c]] && pl' == pl[c := pl'[c]]
    requires PoolInv(s', pl') && KeepsPooled(s, pl, s', c)
    requires forall y :: NoWorse(SeenBy(s, pl, y, c), SeenBy(s', pl', y, c))
    requires ConnInv(s', pl', c)
    ensures Inv(s', pl')
  {
    forall d | d in s'.conns && d != c
      ensures ConnInv(s', pl', d)
    {
      assert ConnInv(s, pl, d);
      ConnFrame(s, pl, s', pl', d);
    }
    forall y | y in s'.calls
      ensures CallInv(s', pl', y)
    {
      assert CallInv(s, pl, y);
      ViewsKept(s, pl, s', pl', y, c);
      CallFrame(s, pl, s', pl', y);
    }
  }

  ghost predicate KeepsPooled(s: State, pl: Places, s': State, c: ConnId) {
    forall d :: d in s.conns && d != c && d in pl && pl[d] == Pooled ==> d in IdleList(Idle(s'), s.conns[d].cacheKey)
  }

  lemma {:induction false} ViewsKept(s: State, pl: Places, s': State, pl': Places, y: CallId, c: ConnId)
    requires c in s'.conns && c in pl'
    requires s'.conns == s.conns[c := s'.conns[c]] && pl' == pl[c := pl'[c]]
    requires NoWorse(SeenBy(s, pl, y, c), SeenBy(s', pl', y, c))
    ensures forall d :: NoWorse(SeenBy(s, pl, y, d), SeenBy(s', pl', y, d))
  {
    forall d
      ensures NoWorse(SeenBy(s, pl, y, d), SeenBy(s', pl', y, d))
    {
      if d != c {
        assert SeenBy(s', pl', y, d) == SeenBy(s, pl, y, d);
      }
    }
  }

  /** The other connections see the round trip as before, and other round trips lose nothing at the connection. */
  ghost predicate LocalViews(s: State, pl: Places, s': State, pl': Places, x: CallId, c: ConnId) {
    && (forall d :: d != c ==> Seen(s', x, d) == Seen(s, x, d))
    && (forall y :: y != x ==> NoWorse(SeenBy(s, pl, y, c), SeenBy(s', pl', y, c)))
  }

  /** A step that changes one round trip and one connection, and possibly the pool. */
  lemma {:induction false} LocalStep(s: State, pl: Places, s': State, pl': Places, x: CallId, c: ConnId)
    requires Inv(s, pl) && x in s'.calls && c in s'.conns && c in pl' && Rest(s, s')
    requires s'.calls == s.calls[x := s'.calls[x]] && s'.conns == s.conns[c := s'.conns[c]] && pl' == pl[c := pl'[c]]
    requires PoolInv(s', pl') && KeepsPooled(s, pl, s', c)
    requires ConnInv(s', pl', c) && CallInv(s', pl', x) && LocalViews(s, pl, s', pl', x, c)
    ensures Inv(s', pl')
  {
    forall d | d in s'.conns && d != c
      ensures ConnInv(s', pl', d)
    {
      assert ConnInv(s, pl, d);
      assert forall y :: y != x ==> Seen(s', y, d) == Seen(s, y, d);
      ConnFrame(s, pl, s', pl', d);
    }
    forall y | y in s'.calls && y != x
      ensures CallInv(s', pl', y)
    {
      assert CallInv(s, pl, y);
      ViewsKept(s, pl, s', pl', y, c);
      CallFrame(s, pl, s', pl', y);
    }
  }

  lemma {:induction false} PoolUntouched(s: State, pl: Places, s': State, pl': Places, c: ConnId)
    requires Inv(s, pl) && c in s'.conns && c in pl' && s'.pool == s.pool && s'.cfg == s.cfg
    requires s'.conns == s.conns[c := s'.conns[c]] && pl' == pl[c := pl'[c]]
    requires c in s.conns ==> s'.conns[c].cacheKey == s.conns[c].cacheKey && (pl[c] == Pooled ==> pl'[c] == Pooled)
    requires c !in s.conns ==> s.pool.Some?
    ensures PoolInv(s', pl') && KeepsPooled(s, pl, s', c)
  {
    PoolFrame(s, pl, s', pl');
    forall d | d in s.conns && d in pl && pl[d] == Pooled
      ensures d in IdleList(Idle(s'), s.conns[d].cacheKey)
    {
      assert ConnInv(s, pl, d);
    }
  }

  // ----- steps of a round trip -----

  lemma {:induction false} BeginKeeps(s: State, pl: Places, x: CallId, cm: ConnectMethod)
    requires Inv(s, pl) && x !in s.calls
    ensures Inv(DoBegin(s, x, cm), pl)
  {
    CallStep(s, pl, DoBegin(s, x, cm), x);
  }

  lemma {:induction false} DialFailsKeeps(s: State, pl: Places, x: CallId)
    requires Inv(s, pl) && x in s.calls && s.calls[x].stage.Dialing?
    ensures Inv(SetStage(s, x, DialFailed), pl)
  {
    assert CallInv(s, pl, x);
    CallStep(s, pl, SetStage(s, x, DialFailed), x);
  }

  lemma {:induction false} DialKeeps(s: State, pl: Places, x: CallId, c: ConnId)
    requires Inv(s, pl) && x in s.calls && s.calls[x].stage.Dialing? && c !in s.conns
    ensures Inv(DoDial(s, x, c), pl[c := HeldBy(x)])
  {
    var s', pl' := DoDial(s, x, c), pl[c := HeldBy(x)];
    assert CallInv(s, pl, x);
    forall y | y in s'.calls
      ensures !Seen(s', y, c).outstanding
    {
      assert CallInv(s, pl, y);
    }
    assert OutstandingOn(s', c) == {};
    PoolUntouched(s, pl, s', pl', c);
    LocalStep(s, pl, s', pl', x, c);
  }

  lemma {:induction false} IncrementConn(s: State, pl: Places, x: CallId)
    requires HasConn(s, x) && s.calls[x].stage.Holding?
    requires s.calls[x].stage.conn in pl && ConnInv(s, pl, s.calls[x].stage.conn)
    requires pl[s.calls[x].stage.conn] == HeldBy(x)
    ensures ConnInv(DoIncrement(s, x), pl, s.calls[x].stage.conn)
  {
    var s', c := DoIncrement(s, x), s.calls[x].stage.conn;
    OneMoreOutstanding(s, s', x, c);
  }

  lemma {:induction false} IncrementCall(s: State, pl: Places, x: CallId)
    requires HasConn(s, x) && s.calls[x].stage.Holding?
    requires s.calls[x].stage.conn in pl && ConnInv(s, pl, s.calls[x].stage.conn) && CallInv(s, pl, x)
    ensures CallInv(DoIncrement(s, x), pl, x)
  {
  }

  lemma {:induction false} IncrementViews(s: State, pl: Places, x: CallId)
    requires HasConn(s, x) && s.calls[x].stage.Holding?
    requires s.calls[x].stage.conn in pl && pl[s.calls[x].stage.conn] == HeldBy(x) && Unstarted(s.calls[x])
    ensures LocalViews(s, pl, DoIncrement(s, x), pl, x, s.calls[x].stage.conn)
  {
  }

  lemma {:induction false} IncrementKeeps(s: State, pl: Places, x: CallId)
    requires Inv(s, pl) && HasConn(s, x) && s.calls[x].stage.Holding?
    ensures Inv(DoIncrement(s, x), pl)
  {
    var s', c := DoIncrement(s, x), s.calls[x].stage.conn;
    assert CallInv(s, pl, x) && ConnInv(s, pl, c);
    IncrementConn(s, pl, x);
    IncrementCall(s, pl, x);
    IncrementViews(s, pl, x);
    PoolUntouched(s, pl, s', pl, c);
    LocalStep(s, pl, s', pl, x, c);
  }

  lemma {:induction false} WriteRequestConn(s: State, pl: Places, x: CallId)
    requires HasConn(s, x) && s.calls[x].stage.Counted?
    requires s.calls[x].stage.conn in pl && ConnInv(s, pl, s.calls[x].stage.conn)
    requires pl[s.calls[x].stage.conn] == HeldBy(x)
    ensures ConnInv(DoWriteRequest(s, x), pl, s.calls[x].stage.conn)
  {
    var s', c := DoWriteRequest(s, x), s.calls[x].stage.conn;
    SameOutstanding(s, s', c);
  }

  lemma {:induction false} WriteRequestCall(s: State, pl: Places, x: CallId)
    requires HasConn(s, x) && s.calls[x].stage.Counted?
    requires s.calls[x].stage.conn in pl && ConnInv(s, pl, s.calls[x].stage.conn) && CallInv(s, pl, x)
    ensures CallInv(DoWriteRequest(s, x), pl, x)
  {
  }

  lemma {:induction false} WriteRequestViews(s: State, pl: Places, x: CallId)
    requires HasConn(s, x) && s.calls[x].stage.Counted?
    requires s.calls[x].stage.conn in pl && pl[s.calls[x].stage.conn] == HeldBy(x) && Unstarted(s.calls[x])
    ensures LocalViews(s, pl, DoWriteRequest(s, x), pl, x, s.calls[x].stage.conn)
  {
  }

  lemma {:induction false} WriteRequestKeeps(s: State, pl: Places, x: CallId)
    requires Inv(s, pl) && HasConn(s, x) && s.calls[x].stage.Counted?
    ensures Inv(DoWriteRequest(s, x), pl)
  {
    var s', c := DoWriteRequest(s, x), s.calls[x].stage.conn;
    assert CallInv(s, pl, x) && ConnInv(s, pl, c);
    WriteRequestConn(s, pl, x);
    WriteRequestCall(s, pl, x);
    WriteRequestViews(s, pl, x);
    PoolUntouched(s, pl, s', pl, c);
    LocalStep(s, pl, s', pl, x, c);
  }

  lemma {:induction false} WriteFailsConn(s: State, pl: Places, x: CallId)
    requires HasConn(s, x) && s.calls[x].stage.Counted?
    requires s.calls[x].stage.conn in pl && ConnInv(s, pl, s.calls[x].stage.conn)
    requires pl[s.calls[x].stage.conn] == HeldBy(x)
    ensures ConnInv(DoWriteFails(s, x), pl[s.calls[x].stage.conn := Retired], s.calls[x].stage.conn)
  {
    var s', c := DoWriteFails(s, x), s.calls[x].stage.conn;
    var pl' := pl[c := Retired];
    SameOutstanding(s, s', c);
  }

  lemma {:induction false} WriteFailsCall(s: State, pl: Places, x: CallId)
    requires HasConn(s, x) && s.calls[x].stage.Counted?
    requires s.calls[x].stage.conn in pl && ConnInv(s, pl, s.calls[x].stage.conn) && CallInv(s, pl, x)
    ensures CallInv(DoWriteFails(s, x), pl[s.calls[x].stage.conn := Retired], x)
  {
  }

  lemma {:induction false} WriteFailsViews(s: State, pl: Places, x: CallId)
    requires HasConn(s, x) && s.calls[x].stage.Counted?
    requires s.calls[x].stage.conn in pl && pl[s.calls[x].stage.conn] == HeldBy(x) && Unstarted(s.calls[x])
    ensures LocalViews(s, pl, DoWriteFails(s, x), pl[s.calls[x].stage.conn := Retired], x, s.calls[x].stage.conn)
  {
  }

  lemma {:induction false} WriteFailsKeeps(s: State, pl: Places, x: CallId)
    requires Inv(s, pl) && HasConn(s, x) && s.calls[x].stage.Counted?
    ensures Inv(DoWriteFails(s, x), pl[s.calls[x].stage.conn := Retired])
  {
    var s', c := DoWriteFails(s, x), s.calls[x].stage.conn;
    var pl' := pl[c := Retired];
    assert CallInv(s, pl, x) && ConnInv(s, pl, c);
    WriteFailsConn(s, pl, x);
    WriteFailsCall(s, pl, x);
    WriteFailsViews(s, pl, x);
    PoolUntouched(s, pl, s', pl', c);
    LocalStep(s, pl, s', pl', x, c);
  }

  lemma {:induction false} EnqueueLoop(s: State, x: CallId)
    requires HasConn(s, x) && s.calls[x].stage.Written?
    requires LoopInv(s, HeldBy(x), s.calls[x].stage.conn)
    ensures var c := s.calls[x].stage.conn;
            LoopInv(DoEnqueue(s, x), Queued(x), c) && !InLoop(DoEnqueue(s, x).conns[c].loop, x)
  {
  }

  lemma {:induction false} EnqueueConn(s: State, pl: Places, x: CallId)
    requires HasConn(s, x) && s.calls[x].stage.Written?
    requires s.calls[x].stage.conn in pl && ConnInv(s, pl, s.calls[x].stage.conn)
    requires pl[s.calls[x].stage.conn] == HeldBy(x)
    requires Unstarted(s.calls[x])
    ensures ConnInv(DoEnqueue(s, x), pl[s.calls[x].stage.conn := Queued(x)], s.calls[x].stage.conn)
  {
    SameOutstanding(s, DoEnqueue(s, x), s.calls[x].stage.conn);
    EnqueueLoop(s, x);
  }

  lemma {:induction false} EnqueueCall(s: State, pl: Places, x: CallId)
    requires HasConn(s, x) && s.calls[x].stage.Written?
    requires s.calls[x].stage.conn in pl && ConnInv(s, pl, s.calls[x].stage.conn) && CallInv(s, pl, x)
    ensures CallInv(DoEnqueue(s, x), pl[s.calls[x].stage.conn := Queued(x)], x)
  {
  }

  lemma {:induction false} EnqueueViews(s: State, pl: Places, x: CallId)
    requires HasConn(s, x) && s.calls[x].stage.Written?
    requires s.calls[x].stage.conn in pl && pl[s.calls[x].stage.conn] == HeldBy(x) && Unstarted(s.calls[x])
    ensures LocalViews(s, pl, DoEnqueue(s, x), pl[s.calls[x].stage.conn := Queued(x)], x, s.calls[x].stage.conn)
  {
  }

  lemma {:induction false} EnqueueKeeps(s: State, pl: Places, x: CallId)
    requires Inv(s, pl) && HasConn(s, x) && s.calls[x].stage.Written?
    ensures Inv(DoEnqueue(s, x), pl[s.calls[x].stage.conn := Queued(x)])
  {
    var s', c := DoEnqueue(s, x), s.calls[x].stage.conn;
    var pl' := pl[c := Queued(x)];
    assert CallInv(s, pl, x) && ConnInv(s, pl, c);
    EnqueueConn(s, pl, x);
    EnqueueCall(s, pl, x);
    EnqueueViews(s, pl, x);
    PoolUntouched(s, pl, s', pl', c);
    LocalStep(s, pl, s', pl', x, c);
  }

  lemma {:induction false} ReceiveReplyKeeps(s: State, pl: Places, x: CallId)
    requires Inv(s, pl) && HasConn(s, x) && s.calls[x].stage.Waiting? && s.calls[x].taken < |s.calls[x].sent|
    ensures Inv(DoReceiveReply(s, x), pl)
  {
    assert CallInv(s, pl, x);
    CallStep(s, pl, DoReceiveReply(s, x), x);
  }

  lemma {:induction false} DecrementCounts(s: State, x: CallId)
    requires HasConn(s, x) && s.calls[x].stage.Received?
    ensures var s', c := DoDecrement(s, x), s.calls[x].stage.conn;
            && (forall y :: Seen(s', y, c) == if y == x then Seen(s, x, c).(outstanding := false) else Seen(s, y, c))
            && Seen(s, x, c).outstanding
  {
  }

  lemma {:induction false} DecrementConn(s: State, pl: Places, x: CallId)
    requires HasConn(s, x) && s.calls[x].stage.Received?
    requires s.calls[x].stage.conn in pl && ConnInv(s, pl, s.calls[x].stage.conn)
    ensures ConnInv(DoDecrement(s, x), pl, s.calls[x].stage.conn)
  {
    var s', c := DoDecrement(s, x), s.calls[x].stage.conn;
    DecrementCounts(s, x);
    OneMoreOutstanding(s', s, x, c);
    ConnRecount(s, pl, s', c);
  }

  lemma {:induction false} DecrementCall(s: State, pl: Places, x: CallId)
    requires HasConn(s, x) && s.calls[x].stage.Received?
    requires s.calls[x].stage.conn in pl && ConnInv(s, pl, s.calls[x].stage.conn) && CallInv(s, pl, x)
    ensures CallInv(DoDecrement(s, x), pl, x)
  {
  }

  lemma {:induction false} DecrementViews(s: State, pl: Places, x: CallId)
    requires HasConn(s, x) && s.calls[x].stage.Received?
    requires s.calls[x].stage.conn in pl
    ensures LocalViews(s, pl, DoDecrement(s, x), pl, x, s.calls[x].stage.conn)
  {
  }

  lemma {:induction false} DecrementKeeps(s: State, pl: Places, x: CallId)
    requires Inv(s, pl) && HasConn(s, x) && s.calls[x].stage.Received?
    ensures Inv(DoDecrement(s, x), pl)
  {
    var s', c := DoDecrement(s, x), s.calls[x].stage.conn;
    assert CallInv(s, pl, x) && ConnInv(s, pl, c);
    DecrementConn(s, pl, x);
    DecrementCall(s, pl, x);
    DecrementViews(s, pl, x);
    PoolUntouched(s, pl, s', pl, c);
    LocalStep(s, pl, s', pl, x, c);
  }

  // ----- steps of a read loop -----

  lemma {:induction false} CheckExpectedConn(s: State, pl: Places, c: ConnId)
    requires c in s.conns && c in pl && ConnInv(s, pl, c) && s.conns[c].loop.Top?
    ensures ConnInv(DoCheckExpected(s, c), pl, c)
  {
    SameOutstanding(s, DoCheckExpected(s, c), c);
  }

  lemma {:induction false} CheckExpectedKeeps(s: State, pl: Places, c: ConnId)
    requires Inv(s, pl) && c in s.conns && s.conns[c].loop.Top?
    ensures Inv(DoCheckExpected(s, c), pl)
  {
    var s' := DoCheckExpected(s, c);
    assert ConnInv(s, pl, c);
    CheckExpectedConn(s, pl, c);
    PoolUntouched(s, pl, s', pl, c);
    ConnStep(s, pl, s', pl, c);
  }

  lemma {:induction false} DequeueKeeps(s: State, pl: Places, c: ConnId)
    requires Inv(s, pl) && c in s.conns && s.conns[c].loop.AwaitRequest? && s.conns[c].reqch != []
    ensures Inv(DoDequeue(s, c), pl[c := Answering(s.conns[c].reqch[0])])
  {
    var s', pl' := DoDequeue(s, c), pl[c := Answering(s.conns[c].reqch[0])];
    assert ConnInv(s, pl, c);
    SameOutstanding(s, s', c);
    PoolUntouched(s, pl, s', pl', c);
    ConnStep(s, pl, s', pl', c);
  }

  lemma {:induction false} ReadFailsKeeps(s: State, pl: Places, c: ConnId)
    requires Inv(s, pl) && c in s.conns && s.conns[c].loop.Reading?
    ensures Inv(DoReadFails(s, c), pl[c := Retired])
  {
    var s', pl' := DoReadFails(s, c), pl[c := Retired];
    assert ConnInv(s, pl, c);
    SameOutstanding(s, s', c);
    PoolUntouched(s, pl, s', pl', c);
    ConnStep(s, pl, s', pl', c);
  }

  lemma {:induction false} ReadBadGzipKeeps(s: State, pl: Places, c: ConnId)
    requires Inv(s, pl) && c in s.conns && s.conns[c].loop.Reading? && s.conns[c].parsed < |s.conns[c].written|
    ensures Inv(DoReadBadGzip(s, c), pl[c := Retired])
  {
    var s', pl' := DoReadBadGzip(s, c), pl[c := Retired];
    assert ConnInv(s, pl, c);
    SameOutstanding(s, s', c);
    PoolUntouched(s, pl, s', pl', c);
    ConnStep(s, pl, s', pl', c);
  }

  lemma {:induction false} CloseIdleKeeps(s: State, pl: Places, c: ConnId)
    requires Inv(s, pl) && c in s.conns
    ensures Inv(DoCloseIdle(s, c), pl)
  {
    var s' := DoCloseIdle(s, c);
    assert ConnInv(s, pl, c);
    SameOutstanding(s, s', c);
    PoolUntouched(s, pl, s', pl, c);
    ConnStep(s, pl, s', pl, c);
  }

  /** Where a connection goes when a response head has been read from it. */
  function ReadPlace(x: CallId, hasBody: bool, last: bool): Place {
    if last then Retired else if hasBody then InBody(x) else Answering(x)
  }

  lemma {:induction false} ReadAloneConn(s: State, pl: Places, c: ConnId, hasBody: bool, last: bool)
    requires c in s.conns && s.conns[c].loop.Reading? && s.conns[c].loop.call in s.calls
    requires s.conns[c].parsed < |s.conns[c].written| && (last || !hasBody) && c in pl && ConnInv(s, pl, c)
    ensures var p := ReadPlace(s.conns[c].loop.call, hasBody, last);
            ConnInv(DoReadResponse(s, c, hasBody, last), pl[c := p], c)
  {
    SameOutstanding(s, DoReadResponse(s, c, hasBody, last), c);
  }

  lemma {:induction false} ReadResponseAloneKeeps(s: State, pl: Places, c: ConnId, hasBody: bool, last: bool)
    requires Inv(s, pl) && c in s.conns && s.conns[c].loop.Reading? && s.conns[c].loop.call in s.calls
    requires s.conns[c].parsed < |s.conns[c].written| && (last || !hasBody)
    ensures Inv(DoReadResponse(s, c, hasBody, last), pl[c := ReadPlace(s.conns[c].loop.call, hasBody, last)])
  {
    var s', pl' := DoReadResponse(s, c, hasBody, last), pl[c := ReadPlace(s.conns[c].loop.call, hasBody, last)];
    assert ConnInv(s, pl, c);
    ReadAloneConn(s, pl, c, hasBody, last);
    PoolUntouched(s, pl, s', pl', c);
    ConnStep(s, pl, s', pl', c);
  }

  lemma {:induction false} ReadWithBodyConn(s: State, pl: Places, c: ConnId)
    requires c in s.conns && s.conns[c].loop.Reading? && s.conns[c].loop.call in s.calls
    requires s.conns[c].parsed < |s.conns[c].written| && c in pl && ConnInv(s, pl, c)
    ensures ConnInv(DoReadResponse(s, c, true, false), pl[c := InBody(s.conns[c].loop.call)], c)
  {
    SameOutstanding(s, DoReadResponse(s, c, true, false), c);
  }

  lemma {:induction false} ReadWithBodyCall(s: State, pl: Places, c: ConnId)
    requires c in s.conns && s.conns[c].loop.Reading? && s.conns[c].loop.call in s.calls
    requires s.conns[c].parsed < |s.conns[c].written|
    requires c in pl && ConnInv(s, pl, c) && CallInv(s, pl, s.conns[c].loop.call)
    ensures var x := s.conns[c].loop.call; CallInv(DoReadResponse(s, c, true, false), pl[c := InBody(x)], x)
  {
  }

  lemma {:induction false} ReadWithBodyViews(s: State, pl: Places, c: ConnId)
    requires c in s.conns && s.conns[c].loop.Reading? && s.conns[c].loop.call in s.calls
    requires s.conns[c].parsed < |s.conns[c].written| && c in pl && s.conns[c].lastBody == None
    requires pl[c] == Answering(s.conns[c].loop.call) && Seen(s, s.conns[c].loop.call, c).unasked
    ensures var x := s.conns[c].loop.call;
            LocalViews(s, pl, DoReadResponse(s, c, true, false), pl[c := InBody(x)], x, c)
  {
  }

  lemma {:induction false} ReadWithBodyKeeps(s: State, pl: Places, c: ConnId)
    requires Inv(s, pl) && c in s.conns && s.conns[c].loop.Reading? && s.conns[c].loop.call in s.calls
    requires s.conns[c].parsed < |s.conns[c].written|
    ensures Inv(DoReadResponse(s, c, true, false), pl[c := InBody(s.conns[c].loop.call)])
  {
    var s', x := DoReadResponse(s, c, true, false), s.conns[c].loop.call;
    var pl' := pl[c := InBody(x)];
    assert ConnInv(s, pl, c) && CallInv(s, pl, x);
    ReadWithBodyConn(s, pl, c);
    ReadWithBodyCall(s, pl, c);
    ReadWithBodyViews(s, pl, c);
    PoolUntouched(s, pl, s', pl', c);
    LocalStep(s, pl, s', pl', x, c);
  }

  lemma {:induction false} ReadResponseKeeps(s: State, pl: Places, c: ConnId, hasBody: bool, last: bool)
    requires Inv(s, pl) && c in s.conns && s.conns[c].loop.Reading? && s.conns[c].loop.call in s.calls
    requires s.conns[c].parsed < |s.conns[c].written|
    ensures Inv(DoReadResponse(s, c, hasBody, last), pl[c := ReadPlace(s.conns[c].loop.call, hasBody, last)])
  {
    if !last && hasBody {
      ReadWithBodyKeeps(s, pl, c);
    } else {
      ReadResponseAloneKeeps(s, pl, c, hasBody, last);
    }
  }

  lemma {:induction false} SendReplyConn(s: State, pl: Places, c: ConnId)
    requires c in s.conns && s.conns[c].loop.Replying? && s.conns[c].loop.call in s.calls
    requires c in pl && ConnInv(s, pl, c)
    ensures ConnInv(DoSendReply(s, c), pl, c)
  {
    var s', x := DoSendReply(s, c), s.conns[c].loop.call;
    SameOutstanding(s, s', c);
  }

  lemma {:induction false} SendReplyStage(s: State, pl: Places, c: ConnId)
    requires c in s.conns && s.conns[c].loop.Replying? && s.conns[c].loop.call in s.calls
    requires c in pl && ConnInv(s, pl, c) && StageInv(s, pl, s.conns[c].loop.call)
    ensures StageInv(DoSendReply(s, c), pl, s.conns[c].loop.call)
  {
  }

  lemma {:induction false} SendReplyCall(s: State, pl: Places, c: ConnId)
    requires c in s.conns && s.conns[c].loop.Replying? && s.conns[c].loop.call in s.calls
    requires c in pl && ConnInv(s, pl, c) && CallInv(s, pl, s.conns[c].loop.call)
    ensures CallInv(DoSendReply(s, c), pl, s.conns[c].loop.call)
  {
    SendReplyStage(s, pl, c);
  }

  lemma {:induction false} SendReplyViews(s: State, pl: Places, c: ConnId)
    requires c in s.conns && s.conns[c].loop.Replying? && s.conns[c].loop.call in s.calls
    requires c in pl && Seen(s, s.conns[c].loop.call, c).unanswered
    ensures LocalViews(s, pl, DoSendReply(s, c), pl, s.conns[c].loop.call, c)
  {
  }

  lemma {:induction false} SendReplyKeeps(s: State, pl: Places, c: ConnId)
    requires Inv(s, pl) && c in s.conns && s.conns[c].loop.Replying? && s.conns[c].loop.call in s.calls
    ensures Inv(DoSendReply(s, c), pl)
  {
    var s', x := DoSendReply(s, c), s.conns[c].loop.call;
    assert ConnInv(s, pl, c) && CallInv(s, pl, x);
    SendReplyConn(s, pl, c);
    SendReplyCall(s, pl, c);
    SendReplyViews(s, pl, c);
    PoolUntouched(s, pl, s', pl, c);
    LocalStep(s, pl, s', pl, x, c);
  }

  lemma {:induction false} RendezvousLoop(s: State, p: Place, c: ConnId)
    requires c in s.conns && s.conns[c].loop.AwaitBody? && s.conns[c].loop.call in s.calls
             && s.calls[s.conns[c].loop.call].body.callback == Signalling(c)
    requires LoopInv(s, p, c)
    ensures LoopInv(DoRendezvous(s, c), p, c) && Elsewhere(p)
  {
  }

  lemma {:induction false} RendezvousConn(s: State, pl: Places, c: ConnId)
    requires c in s.conns && s.conns[c].loop.AwaitBody? && s.conns[c].loop.call in s.calls
             && s.calls[s.conns[c].loop.call].body.callback == Signalling(c)
    requires c in pl && ConnInv(s, pl, c)
    ensures ConnInv(DoRendezvous(s, c), pl, c)
  {
    var s' := DoRendezvous(s, c);
    SameOutstanding(s, s', c);
    RendezvousLoop(s, pl[c], c);
    RendezvousPlace(s, pl[c], c);
  }

  lemma {:induction false} RendezvousPlace(s: State, p: Place, c: ConnId)
    requires c in s.conns && s.conns[c].loop.AwaitBody? && s.conns[c].loop.call in s.calls
    requires PlaceInv(s, p, c) && WireInv(s, p, c) && Elsewhere(p)
    ensures PlaceInv(DoRendezvous(s, c), p, c) && WireInv(DoRendezvous(s, c), p, c)
  {
    PlaceFrame(s, DoRendezvous(s, c), p, c);
  }

  lemma {:induction false} RendezvousCall(s: State, pl: Places, c: ConnId)
    requires c in s.conns && s.conns[c].loop.AwaitBody? && s.conns[c].loop.call in s.calls
             && s.calls[s.conns[c].loop.call].body.callback == Signalling(c)
    requires c in pl && ConnInv(s, pl, c) && CallInv(s, pl, s.conns[c].loop.call)
    ensures CallInv(DoRendezvous(s, c), pl, s.conns[c].loop.call)
  {
  }

  lemma {:induction false} RendezvousViews(s: State, pl: Places, c: ConnId)
    requires c in s.conns && s.conns[c].loop.AwaitBody? && s.conns[c].loop.call in s.calls
             && s.calls[s.conns[c].loop.call].body.callback == Signalling(c)
    requires c in pl && s.calls[s.conns[c].loop.call].body.conn == Some(c)
    ensures LocalViews(s, pl, DoRendezvous(s, c), pl, s.conns[c].loop.call, c)
  {
  }

  lemma {:induction false} RendezvousKeeps(s: State, pl: Places, c: ConnId)
    requires Inv(s, pl) && c in s.conns && s.conns[c].loop.AwaitBody? && s.conns[c].loop.call in s.calls
             && s.calls[s.conns[c].loop.call].body.callback == Signalling(c)
    ensures Inv(DoRendezvous(s, c), pl)
  {
    var s', x := DoRendezvous(s, c), s.conns[c].loop.call;
    assert ConnInv(s, pl, c) && CallInv(s, pl, x);
    RendezvousConn(s, pl, c);
    RendezvousCall(s, pl, c);
    RendezvousViews(s, pl, c);
    PoolUntouched(s, pl, s', pl, c);
    LocalStep(s, pl, s', pl, x, c);
  }

  lemma {:induction false} SkipLastBodyKeeps(s: State, pl: Places, c: ConnId, ok: bool)
    requires Inv(s, pl) && c in s.conns && s.conns[c].loop.GotRequest? && s.conns[c].lastBody.None?
    ensures Inv(DoCloseLastBody(s, c, ok), pl)
  {
    var s' := DoCloseLastBody(s, c, ok);
    assert ConnInv(s, pl, c);
    SameOutstanding(s, s', c);
    PoolUntouched(s, pl, s', pl, c);
    ConnStep(s, pl, s', pl, c);
  }

  /** The last body's callback has long run, so closing the body does not run it in the read loop. */
  lemma {:induction false} LastBodyIsSpent(s: State, pl: Places, c: ConnId)
    requires c in s.conns && s.conns[c].loop.GotRequest? && s.conns[c].lastBody.Some?
    requires c in pl && ConnInv(s, pl, c)
    requires s.conns[c].lastBody.value in s.calls && CallInv(s, pl, s.conns[c].lastBody.value)
    ensures s.calls[s.conns[c].lastBody.value].body.callback == NoCallback
    ensures s.calls[s.conns[c].lastBody.value].body.conn == Some(c)
  {
  }

  lemma {:induction false} CloseLastBodyConn(s: State, pl: Places, c: ConnId, ok: bool)
    requires c in s.conns && s.conns[c].loop.GotRequest? && s.conns[c].lastBody.Some?
    requires c in pl && ConnInv(s, pl, c) && s.conns[c].lastBody.value in s.calls
    requires s.calls[s.conns[c].lastBody.value].body.callback == NoCallback
    requires s.calls[s.conns[c].lastBody.value].body.conn == Some(c)
    ensures ConnInv(DoCloseLastBody(s, c, ok), pl, c)
  {
    SameOutstanding(s, DoCloseLastBody(s, c, ok), c);
  }

  lemma {:induction false} CloseLastBodyCall(s: State, pl: Places, c: ConnId, ok: bool)
    requires c in s.conns && s.conns[c].loop.GotRequest? && s.conns[c].lastBody.Some?
    requires c in pl && s.conns[c].lastBody.value in s.calls && CallInv(s, pl, s.conns[c].lastBody.value)
    requires s.calls[s.conns[c].lastBody.value].body.callback == NoCallback
    requires s.calls[s.conns[c].lastBody.value].body.conn == Some(c)
    ensures CallInv(DoCloseLastBody(s, c, ok), pl, s.conns[c].lastBody.value)
  {
  }

  lemma {:induction false} CloseLastBodyViews(s: State, pl: Places, c: ConnId, ok: bool)
    requires c in s.conns && s.conns[c].loop.GotRequest? && s.conns[c].lastBody.Some?
    requires c in pl && s.conns[c].lastBody.value in s.calls
    requires s.calls[s.conns[c].lastBody.value].body.callback == NoCallback
    requires s.calls[s.conns[c].lastBody.value].body.conn == Some(c)
    ensures LocalViews(s, pl, DoCloseLastBody(s, c, ok), pl, s.conns[c].lastBody.value, c)
  {
  }

  lemma {:induction false} CloseLastBodyKeeps(s: State, pl: Places, c: ConnId, ok: bool)
    requires Inv(s, pl) && c in s.conns && s.conns[c].loop.GotRequest?
    requires s.conns[c].lastBody.Some? ==> s.conns[c].lastBody.value in s.calls
    ensures Inv(DoCloseLastBody(s, c, ok), pl)
  {
    if s.conns[c].lastBody.None? {
      SkipLastBodyKeeps(s, pl, c, ok);
    } else {
      var s', y := DoCloseLastBody(s, c, ok), s.conns[c].lastBody.value;
      assert ConnInv(s, pl, c) && CallInv(s, pl, y);
      LastBodyIsSpent(s, pl, c);
      CloseLastBodyConn(s, pl, c, ok);
      CloseLastBodyCall(s, pl, c, ok);
      CloseLastBodyViews(s, pl, c, ok);
      PoolUntouched(s, pl, s', pl, c);
      LocalStep(s, pl, s', pl, y, c);
    }
  }

  // ----- steps on the pool -----

  /** Connections that a smaller table no longer lists are retired. */
  function Unlisted(s: State, pl: Places, t: Table<ConnId>): Places
    requires pl.Keys == s.conns.Keys
  {
    map c | c in pl :: if pl[c] == Pooled && c !in IdleList(t, s.conns[c].cacheKey) then Retired else pl[c]
  }

  lemma {:induction false} UnlistedConn(s: State, pl: Places, t: Table<ConnId>, c: ConnId)
    requires pl.Keys == s.conns.Keys && c in s.conns && ConnInv(s, pl, c)
    requires Unlisted(s, pl, t)[c] != pl[c] ==> s.conns[c].broken
    ensures ConnInv(s.(pool := Some(t)), Unlisted(s, pl, t), c)
  {
    var s', pl' := s.(pool := Some(t)), Unlisted(s, pl, t);
    SameOutstanding(s, s', c);
    if pl'[c] == pl[c] {
      ConnFrame(s, pl, s', pl', c);
    } else {
      LoopFrame(s, s', Pooled, c);
      LoopOfElsewhere(s', Pooled, Retired, c);
    }
  }

  /** To the read loop it is all one where the connection is, if it is elsewhere. */
  lemma {:induction false} LoopOfElsewhere(s: State, p: Place, p': Place, c: ConnId)
    requires c in s.conns && LoopInv(s, p, c) && Elsewhere(p) && Elsewhere(p')
    ensures LoopInv(s, p', c)
  {
  }

  /** Dropping broken entries from the pool keeps the invariant. */
  lemma {:induction false} ShrinkKeeps(s: State, pl: Places, t: Table<ConnId>)
    requires Inv(s, pl) && Shapely(s.cfg, t)
    requires forall key, c :: Listed(t, key, c) ==> Listed(Idle(s), key, c)
    requires forall key, c :: Listed(Idle(s), key, c) && !Listed(t, key, c) ==> c in Broken(s)
    ensures Inv(s.(pool := Some(t)), Unlisted(s, pl, t))
  {
    var s', pl' := s.(pool := Some(t)), Unlisted(s, pl, t);
    forall c | c in s'.conns
      ensures ConnInv(s', pl', c)
    {
      assert ConnInv(s, pl, c);
      if pl'[c] != pl[c] {
        assert Listed(Idle(s), s.conns[c].cacheKey, c);
      }
      UnlistedConn(s, pl, t, c);
    }
    forall y | y in s'.calls
      ensures CallInv(s', pl', y)
    {
      assert CallInv(s, pl, y);
      UnlistedCall(s, pl, t, y);
    }
  }

  lemma {:induction false} UnlistedCall(s: State, pl: Places, t: Table<ConnId>, y: CallId)
    requires pl.Keys == s.conns.Keys && y in s.calls && CallInv(s, pl, y)
    ensures CallInv(s.(pool := Some(t)), Unlisted(s, pl, t), y)
  {
    var s', pl' := s.(pool := Some(t)), Unlisted(s, pl, t);
    forall c
      ensures SeenBy(s', pl', y, c) == SeenBy(s, pl, y, c)
    {
    }
    CallFrame(s, pl, s', pl', y);
  }

  lemma {:induction false} ResetPoolKeeps(s: State, pl: Places)
    requires Inv(s, pl) && forall key, c :: Listed(Idle(s), key, c) ==> c in Broken(s)
    ensures Inv(s.(pool := Some(map[])), Unlisted(s, pl, map[]))
  {
    ShrinkKeeps(s, pl, map[]);
  }

  lemma {:induction false} HandOverLoop(s: State, s': State, x: CallId, c: ConnId)
    requires x in s.calls && s.calls[x].stage.Wanting? && c in s.conns && LoopInv(s, Pooled, c)
    requires s'.conns == s.conns && s'.calls == s.calls[x := s.calls[x].(stage := Holding(c))]
    ensures LoopInv(s', HeldBy(x), c)
  {
    LoopFrame(s, s', Pooled, c);
    LoopOfElsewhere(s', Pooled, HeldBy(x), c);
  }

  lemma {:induction false} HandOverConn(s: State, pl: Places, s': State, x: CallId, c: ConnId)
    requires x in s.calls && s.calls[x].stage.Wanting?
    requires c in s.conns && c in pl && ConnInv(s, pl, c) && pl[c] == Pooled
    requires s'.conns == s.conns && s'.calls == s.calls[x := s.calls[x].(stage := Holding(c))]
    ensures ConnInv(s', pl[c := HeldBy(x)], c)
  {
    SameOutstanding(s, s', c);
    HandOverLoop(s, s', x, c);
  }

  lemma {:induction false} HandOverPool(s: State, pl: Places, s': State, key: string, x: CallId, c: ConnId)
    requires Inv(s, pl) && s.pool.Some? && key in s.pool.value && c in s.conns && s'.conns == s.conns && s'.cfg == s.cfg
    requires var l := s.pool.value[key]; l[|l| - 1] == c && s'.pool == Some(Cut(s.pool.value, key, |l| - 1))
    ensures pl[c] == Pooled && s.conns[c].cacheKey == key
    ensures PoolInv(s', pl[c := HeldBy(x)]) && KeepsPooled(s, pl, s', c)
  {
    var t, t' := s.pool.value, s'.pool.value;
    TopIsTaken(s.cfg, t, key);
    assert Listed(t, key, c);
    forall d | d in s.conns && d != c && d in pl && pl[d] == Pooled
      ensures d in IdleList(t', s.conns[d].cacheKey)
    {
      assert ConnInv(s, pl, d) && Listed(t, s.conns[d].cacheKey, d);
    }
  }

  lemma {:induction false} HandOverCall(s: State, pl: Places, s': State, x: CallId, c: ConnId)
    requires x in s.calls && s.calls[x].stage.Wanting? && CallInv(s, pl, x) && c in s.conns && c in pl
    requires s'.conns == s.conns && s'.calls == s.calls[x := s.calls[x].(stage := Holding(c))]
    requires s.conns[c].cacheKey == Key(s.calls[x].cm) && pl[c] == Pooled
    ensures CallInv(s', pl[c := HeldBy(x)], x) && LocalViews(s, pl, s', pl[c := HeldBy(x)], x, c)
  {
  }

  /** The top entry of a list goes to the round trip that asked for it. */
  lemma {:induction false} HandOver(s: State, pl: Places, x: CallId, c: ConnId)
    requires Inv(s, pl) && x in s.calls && s.calls[x].stage.Wanting? && s.pool.Some? && c in s.conns
    requires Key(s.calls[x].cm) in s.pool.value
    requires var l := s.pool.value[Key(s.calls[x].cm)]; l != [] && l[|l| - 1] == c
    ensures var key := Key(s.calls[x].cm);
            var t := Cut(s.pool.value, key, |s.pool.value[key]| - 1);
            Inv(SetStage(s.(pool := Some(t)), x, Holding(c)), pl[c := HeldBy(x)])
    ensures pl[c] == Pooled
  {
    var key := Key(s.calls[x].cm);
    var t := Cut(s.pool.value, key, |s.pool.value[key]| - 1);
    var s', pl' := SetStage(s.(pool := Some(t)), x, Holding(c)), pl[c := HeldBy(x)];
    assert CallInv(s, pl, x) && ConnInv(s, pl, c);
    HandOverPool(s, pl, s', key, x, c);
    HandOverConn(s, pl, s', x, c);
    HandOverCall(s, pl, s', x, c);
    assert s'.conns == s.conns[c := s'.conns[c]];
    LocalStep(s, pl, s', pl', x, c);
  }

  /** What is left when the broken entries on top have been dropped. */
  function Trimmed(s: State, key: string): Table<ConnId> {
    Cut(Idle(s), key, LiveTop(IdleList(Idle(s), key), Broken(s)) + 1)
  }

  lemma {:induction false} TrimKeeps(s: State, pl: Places, key: string)
    requires Inv(s, pl)
    ensures Inv(s.(pool := Some(Trimmed(s, key))), Unlisted(s, pl, Trimmed(s, key)))
  {
    DroppedAreBroken(s.cfg, Idle(s), key, Broken(s));
    ShrinkKeeps(s, pl, Trimmed(s, key));
  }

  /** Taking is trimming, then taking the top entry if there is one. */
  lemma {:induction false} TakeFromTrimmed(s: State, x: CallId)
    requires x in s.calls && Shapely(s.cfg, Idle(s))
    ensures var key := Key(s.calls[x].cm);
            var s1 := s.(pool := Some(Trimmed(s, key)));
            var l := IdleList(Trimmed(s, key), key);
            if l == [] then DoTakeIdle(s, x) == SetStage(s1, x, Dialing)
            else
              && l[|l| - 1] !in Broken(s) && Listed(Idle(s), key, l[|l| - 1])
              && DoTakeIdle(s, x)
                 == SetStage(s.(pool := Some(Cut(Trimmed(s, key), key, |l| - 1))), x, Holding(l[|l| - 1]))
  {
    var t, key := Idle(s), Key(s.calls[x].cm);
    var top := LiveTop(IdleList(t, key), Broken(s));
    if top >= 0 {
      CutAgain(t, key, top + 1);
      assert t[key][..top + 1][top] == t[key][top];
    }
  }

  lemma {:induction false} TakeIdleKeeps(s: State, pl: Places, x: CallId) returns (pl': Places)
    requires Inv(s, pl) && x in s.calls && s.calls[x].stage.Wanting?
    ensures Inv(DoTakeIdle(s, x), pl') && Settled(s, pl, pl')
  {
    var key := Key(s.calls[x].cm);
    var s1, pl1 := s.(pool := Some(Trimmed(s, key))), Unlisted(s, pl, Trimmed(s, key));
    var l := IdleList(Trimmed(s, key), key);
    TrimKeeps(s, pl, key);
    TakeFromTrimmed(s, x);
    if l == [] {
      TakeNoneKeeps(s1, pl1, x);
      pl' := pl1;
    } else {
      TakeTopKeeps(s1, pl1, x, key);
      pl' := pl1[l[|l| - 1] := HeldBy(x)];
    }
  }

  lemma {:induction false} TakeNoneKeeps(s: State, pl: Places, x: CallId)
    requires Inv(s, pl) && x in s.calls && s.calls[x].stage.Wanting? && s.pool.Some?
    ensures Inv(SetStage(s, x, Dialing), pl)
  {
    assert CallInv(s, pl, x);
    CallStep(s, pl, SetStage(s, x, Dialing), x);
  }

  lemma {:induction false} TakeTopKeeps(s: State, pl: Places, x: CallId, key: string)
    requires Inv(s, pl) && x in s.calls && s.calls[x].stage.Wanting? && s.pool.Some? && key == Key(s.calls[x].cm)
    requires IdleList(s.pool.value, key) != []
    ensures var l := IdleList(s.pool.value, key);
            var c := l[|l| - 1];
            && Inv(SetStage(s.(pool := Some(Cut(s.pool.value, key, |l| - 1))), x, Holding(c)), pl[c := HeldBy(x)])
            && c in pl && pl[c] == Pooled
  {
    var l := s.pool.value[key];
    assert Listed(s.pool.value, key, l[|l| - 1]);
    HandOver(s, pl, x, l[|l| - 1]);
  }

  /** Where a connection goes when it is offered to the pool. */
  function PutPlace(s: State, c: ConnId): Place
    requires c in s.conns
  {
    if PutIdle(s, c).1 then Pooled else Retired
  }

  lemma {:induction false} PutIdlePool(s: State, pl: Places, c: ConnId, s': State)
    requires Inv(s, pl) && c in s.conns && c in s'.conns && pl[c] != Pooled
    requires s'.pool == PutIdle(s, c).0.pool && s'.cfg == s.cfg && s'.conns == s.conns[c := s'.conns[c]]
    requires s'.conns[c].cacheKey == s.conns[c].cacheKey
    ensures s.pool.Some? && s'.pool.Some? && !PutIdle(s, c).0.panicked
    ensures PoolInv(s', pl[c := PutPlace(s, c)]) && KeepsPooled(s, pl, s', c)
    ensures PutIdle(s, c).1 ==> c in IdleList(Idle(s'), s.conns[c].cacheKey)
  {
    var k := s.conns[c];
    var t := Idle(s);
    PutIsStackPush(s.cfg, t, k.cacheKey, c, k.broken);
    forall d | d in s.conns && d != c && d in pl && pl[d] == Pooled
      ensures d in IdleList(Idle(s'), s.conns[d].cacheKey)
    {
      assert ConnInv(s, pl, d);
      assert Listed(t, s.conns[d].cacheKey, d);
    }
  }

  lemma {:induction false} RepoolConn(s: State, pl: Places, c: ConnId)
    requires c in s.conns && s.conns[c].loop.Pooling? && c in pl && ConnInv(s, pl, c)
    requires PutIdle(s, c).1 ==> c in IdleList(Idle(DoRepool(s, c)), s.conns[c].cacheKey)
    requires s.pool.Some?
    ensures ConnInv(DoRepool(s, c), pl[c := PutPlace(s, c)], c)
  {
    SameOutstanding(s, DoRepool(s, c), c);
  }

  lemma {:induction false} RepoolKeeps(s: State, pl: Places, c: ConnId)
    requires Inv(s, pl) && c in s.conns && s.conns[c].loop.Pooling?
    ensures Inv(DoRepool(s, c), pl[c := PutPlace(s, c)])
  {
    var s', pl' := DoRepool(s, c), pl[c := PutPlace(s, c)];
    assert ConnInv(s, pl, c);
    PutIdlePool(s, pl, c, s');
    RepoolConn(s, pl, c);
    ConnStep(s, pl, s', pl', c);
  }

  // ----- steps of a body -----

  /** A client that has its response finds the read loop waiting for the body. */
  lemma {:induction false} BodyOfWaitingLoop(s: State, pl: Places, x: CallId, c: ConnId)
    requires x in s.calls && s.calls[x].stage.Returned? && s.calls[x].body.callback == Attached(c)
    requires CallInv(s, pl, x) && c in s.conns && c in pl && ConnInv(s, pl, c)
    ensures pl[c] == InBody(x) && s.conns[c].loop == AwaitBody(x) && s.conns[c].reqch == []
    ensures s.conns[c].alive && Pending(s.conns[c]) == []
  {
  }

  lemma {:induction false} FireConn(s: State, pl: Places, s': State, x: CallId, c: ConnId, kept: bool)
    requires x in s.calls && s.calls[x].body.callback == Attached(c) && c in s.conns && c in pl && ConnInv(s, pl, c)
    requires s.conns[c].loop == AwaitBody(x) && s.conns[c].reqch == [] && Pending(s.conns[c]) == []
    requires s.calls[x].stage.Returned? && c in s'.conns
    requires s'.conns[c] == s.conns[c].(broken := s'.conns[c].broken, alive := s'.conns[c].alive)
    requires var b := s.calls[x].body;
             s'.calls == s.calls[x := s.calls[x].(body := b.(callback := Signalling(c), fired := b.fired + 1))]
    requires s'.conns[c].alive == (s.conns[c].alive && kept)
    requires kept ==> c in IdleList(Idle(s'), s.conns[c].cacheKey)
    ensures ConnInv(s', pl[c := if kept then Pooled else Retired], c)
  {
    SameOutstanding(s, s', c);
  }

  /** What the callback changes: the body of x, and the marks of its connection. */
  ghost predicate Fires(s: State, s': State, x: CallId, c: ConnId, kept: bool)
    requires x in s.calls && c in s.conns
  {
    && Rest(s, s') && c in s'.conns
    && s'.conns == s.conns[c := s.conns[c].(broken := s'.conns[c].broken, alive := s.conns[c].alive && kept)]
    && (s.conns[c].broken ==> s'.conns[c].broken) && (!kept ==> s'.conns[c].broken)
    && var b := s.calls[x].body;
       s'.calls == s.calls[x := s.calls[x].(body := b.(callback := Signalling(c), fired := b.fired + 1))]
  }

  lemma {:induction false} FireFires(s: State, x: CallId, c: ConnId)
    requires x in s.calls && s.calls[x].body.callback == Attached(c) && c in s.conns && s.pool.Some?
    ensures Fires(s, Fire(s, x), x, c, PutIdle(s, c).1) && Fire(s, x).pool == PutIdle(s, c).0.pool
  {
  }

  lemma {:induction false} FireCall(s: State, pl: Places, s': State, x: CallId, c: ConnId, kept: bool)
    requires x in s.calls && s.calls[x].body.callback == Attached(c) && c in s.conns && c in pl && CallInv(s, pl, x)
    requires s.conns[c].loop == AwaitBody(x) && s.calls[x].stage.Returned? && pl[c] == InBody(x)
    requires Fires(s, s', x, c, kept)
    ensures var pl' := pl[c := if kept then Pooled else Retired];
            CallInv(s', pl', x) && LocalViews(s, pl, s', pl', x, c)
  {
  }

  lemma {:induction false} FireKeeps(s: State, pl: Places, x: CallId) returns (pl': Places)
    requires Inv(s, pl) && x in s.calls && s.calls[x].stage.Returned? && s.calls[x].body.callback.Attached?
    ensures s.calls[x].body.callback.conn in s.conns && Inv(Fire(s, x), pl') && Settled(s, pl, pl')
  {
    var c := s.calls[x].body.callback.conn;
    assert CallInv(s, pl, x) && ConnInv(s, pl, c);
    BodyOfWaitingLoop(s, pl, x, c);
    FireFires(s, x, c);
    PutIdlePool(s, pl, c, Fire(s, x));
    pl' := pl[c := PutPlace(s, c)];
    FiredKeeps(s, pl, Fire(s, x), x, c, PutIdle(s, c).1);
  }

  lemma {:induction false} FiredKeeps(s: State, pl: Places, s': State, x: CallId, c: ConnId, kept: bool)
    requires Inv(s, pl) && x in s.calls && s.calls[x].stage.Returned? && s.calls[x].body.callback == Attached(c)
    requires c in s.conns && pl[c] == InBody(x) && Fires(s, s', x, c, kept)
    requires PoolInv(s', pl[c := if kept then Pooled else Retired]) && KeepsPooled(s, pl, s', c)
    requires kept ==> c in IdleList(Idle(s'), s.conns[c].cacheKey)
    ensures Inv(s', pl[c := if kept then Pooled else Retired])
  {
    var pl' := pl[c := if kept then Pooled else Retired];
    assert CallInv(s, pl, x) && ConnInv(s, pl, c);
    BodyOfWaitingLoop(s, pl, x, c);
    FireConn(s, pl, s', x, c, kept);
    FireCall(s, pl, s', x, c, kept);
    LocalStep(s, pl, s', pl', x, c);
  }

  lemma {:induction false} BodyEOFKeeps(s: State, pl: Places, x: CallId) returns (pl': Places)
    requires Inv(s, pl) && BodyInHand(s, x)
    ensures Inv(DoBodyEOF(s, x), pl') && Settled(s, pl, pl')
  {
    pl' := pl;
    if s.calls[x].body.callback.Attached? {
      pl' := FireKeeps(s, pl, x);
    }
  }

  lemma {:induction false} BodyCloseKeeps(s: State, pl: Places, x: CallId, ok: bool) returns (pl': Places)
    requires Inv(s, pl) && BodyInHand(s, x)
    ensures Inv(DoBodyClose(s, x, ok), pl') && Settled(s, pl, pl')
  {
    pl' := pl;
    var b := s.calls[x].body;
    if !b.isClosed {
      var s1 := SetCall(s, x, s.calls[x].(body := b.(isClosed := true)));
      assert CallInv(s, pl, x);
      CallStep(s, pl, s1, x);
      if ok && b.callback.Attached? {
        pl' := FireKeeps(s1, pl, x);
      }
    }
  }

  // ----- every step, every run -----

  /** What a step does to the places: the retired stay retired, and a broken pooled one is not taken. */
  ghost predicate Settled(s: State, pl: Places, pl': Places)
    requires pl.Keys == s.conns.Keys
  {
    forall c :: c in pl ==> c in pl' && SettledAt(s.conns[c].broken, pl[c], pl'[c])
  }

  predicate SettledAt(broken: bool, p: Place, p': Place) {
    && (p == Retired ==> p' == Retired)
    && (p == Pooled && broken ==> p' == Pooled || p' == Retired)
  }

  lemma {:induction false} HeldPlace(s: State, pl: Places, x: CallId)
    requires Inv(s, pl) && HasConn(s, x) && Holds(s.calls[x].stage, s.calls[x].stage.conn)
    ensures pl[s.calls[x].stage.conn] == HeldBy(x)
  {
    assert CallInv(s, pl, x);
  }

  lemma {:induction false} LoopPlace(s: State, pl: Places, c: ConnId)
    requires Inv(s, pl) && c in s.conns
    ensures s.conns[c].reqch != [] ==> pl[c] == Queued(s.conns[c].reqch[0])
    ensures s.conns[c].loop.GotRequest? || s.conns[c].loop.Reading? || s.conns[c].loop.Pooling? ==>
              pl[c] == Answering(s.conns[c].loop.call)
  {
    assert ConnInv(s, pl, c);
  }

  /** The steps of a round trip. */
  predicate CallerStep(step: Step) {
    step.Begin? || step.TakeIdle? || step.Dial? || step.DialFails? || step.Increment? || step.WriteRequest?
    || step.WriteFails? || step.Enqueue? || step.ReceiveReply? || step.Decrement?
  }

  /** The steps of a read loop. */
  predicate LoopStep(step: Step) {
    step.CheckExpected? || step.Dequeue? || step.CloseLastBody? || step.ReadResponse? || step.ReadBadGzip?
    || step.ReadFails? || step.Repool? || step.SendReply? || step.Rendezvous?
  }

  lemma {:induction false} CallerStepKeeps(s: State, pl: Places, step: Step) returns (pl': Places)
    requires Inv(s, pl) && Enabled(s, step) && CallerStep(step)
    ensures Inv(Apply(s, step), pl') && Settled(s, pl, pl')
  {
    match step
    case Begin(x, cm) => BeginKeeps(s, pl, x, cm); pl' := pl;
    case TakeIdle(x) => pl' := TakeIdleKeeps(s, pl, x);
    case Dial(x, c) => DialKeeps(s, pl, x, c); pl' := pl[c := HeldBy(x)];
    case DialFails(x) => DialFailsKeeps(s, pl, x); pl' := pl;
    case Increment(x) => IncrementKeeps(s, pl, x); pl' := pl;
    case WriteRequest(x) => WriteRequestKeeps(s, pl, x); pl' := pl;
    case WriteFails(x) => WriteFailsKeeps(s, pl, x); pl' := pl[s.calls[x].stage.conn := Retired];
    case Enqueue(x) => HeldPlace(s, pl, x); EnqueueKeeps(s, pl, x); pl' := pl[s.calls[x].stage.conn := Queued(x)];
    case ReceiveReply(x) => ReceiveReplyKeeps(s, pl, x); pl' := pl;
    case Decrement(x) => DecrementKeeps(s, pl, x); pl' := pl;
  }

  lemma {:induction false} ReadStepKeeps(s: State, pl: Places, step: Step) returns (pl': Places)
    requires Inv(s, pl) && Enabled(s, step) && (step.ReadResponse? || step.ReadBadGzip? || step.ReadFails?)
    ensures Inv(Apply(s, step), pl') && Settled(s, pl, pl')
  {
    LoopPlace(s, pl, step.conn);
    match step
    case ReadResponse(c, hasBody, last) =>
      ReadResponseKeeps(s, pl, c, hasBody, last);
      pl' := pl[c := ReadPlace(s.conns[c].loop.call, hasBody, last)];
    case ReadBadGzip(c) => ReadBadGzipKeeps(s, pl, c); pl' := pl[c := Retired];
    case ReadFails(c) => ReadFailsKeeps(s, pl, c); pl' := pl[c := Retired];
  }

  lemma {:induction false} LoopStepKeeps(s: State, pl: Places, step: Step) returns (pl': Places)
    requires Inv(s, pl) && Enabled(s, step) && LoopStep(step)
    ensures Inv(Apply(s, step), pl') && Settled(s, pl, pl')
  {
    LoopPlace(s, pl, step.conn);
    match step
    case CheckExpected(c) => CheckExpectedKeeps(s, pl, c); pl' := pl;
    case Dequeue(c) => DequeueKeeps(s, pl, c); pl' := pl[c := Answering(s.conns[c].reqch[0])];
    case CloseLastBody(c, ok) => CloseLastBodyKeeps(s, pl, c, ok); pl' := pl;
    case ReadResponse(c, _, _) => pl' := ReadStepKeeps(s, pl, step);
    case ReadBadGzip(c) => pl' := ReadStepKeeps(s, pl, step);
    case ReadFails(c) => pl' := ReadStepKeeps(s, pl, step);
    case Repool(c) => RepoolKeeps(s, pl, c); pl' := pl[c := PutPlace(s, c)];
    case SendReply(c) => SendReplyKeeps(s, pl, c); pl' := pl;
    case Rendezvous(c) => RendezvousKeeps(s, pl, c); pl' := pl;
  }

  lemma {:induction false} StepKeeps(s: State, pl: Places, step: Step) returns (pl': Places)
    requires Inv(s, pl) && Enabled(s, step)
    ensures Inv(Apply(s, step), pl') && Settled(s, pl, pl')
  {
    if CallerStep(step) {
      pl' := CallerStepKeeps(s, pl, step);
    } else if LoopStep(step) {
      pl' := LoopStepKeeps(s, pl, step);
    } else {
      match step
      case BodyEOF(x) => pl' := BodyEOFKeeps(s, pl, x);
      case BodyClose(x, ok) => pl' := BodyCloseKeeps(s, pl, x, ok);
      case CloseIdle(c) => CloseIdleKeeps(s, pl, c); pl' := pl;
      case ResetPool => ResetPoolKeeps(s, pl); pl' := Unlisted(s, pl, map[]);
    }
  }

  lemma {:induction false} InitHolds(cfg: Config)
    ensures Inv(Init(cfg), map[])
  {
  }

  lemma {:induction false} RunKeeps(s: State, pl: Places, steps: seq<Step>) returns (pl': Places)
    requires Inv(s, pl) && Run(s, steps)
    ensures Inv(After(s, steps), pl')
    decreases |steps|
  {
    if steps == [] {
      pl' := pl;
    } else {
      var pl1 := StepKeeps(s, pl, steps[0]);
      pl' := RunKeeps(Apply(s, steps[0]), pl1, steps[1..]);
    }
  }
}
