/**
 * The persistent-connection protocol of goproxy/transport/transport.go as a step system: any number
 * of round trips, connections and read loops, interleaved step by step.
 *
 * One step is what a goroutine does between two points at which others can observe it: a critical
 * section, a channel operation, or one call into the network.
 */
module Protocol {
  import opened Options
  import opened ConnectMethods
  import opened Pool

  /** A round trip; it stands for its request, its reply channel and its response body as well. */
  type CallId = nat
  type ConnId = nat

  /** `answers` is the request that the server answered with this response. */
  datatype Response = Response(answers: CallId, hasBody: bool)

  /** What goes over a reply channel: a response, an error, or both. */
  datatype Reply = Reply(response: Option<Response>, failed: bool)

  /** Where a round trip is in getConn and roundTrip. */
  datatype Stage =
    | Wanting
    | Dialing
    | DialFailed
    | Holding(conn: ConnId)
    | Counted(conn: ConnId)
    | Written(conn: ConnId)
    | Waiting(conn: ConnId)
    | Received(conn: ConnId, reply: Reply)
    | Returned(reply: Reply)
    | Abandoned(conn: ConnId)

  /** The end-of-body callback: not there, there, or running with its connection already given back. */
  datatype Callback = NoCallback | Attached(conn: ConnId) | Signalling(conn: ConnId)

  /** `conn` is the connection whose read loop waits for this body, `fired` counts callback runs. */
  datatype Body = Body(conn: Option<ConnId>, callback: Callback, isClosed: bool, fired: nat)

  const BLANK := Body(None, NoCallback, false, 0)

  /** `sent` is all that was ever sent on the reply channel, of which `taken` was received. */
  datatype Call = Call(cm: ConnectMethod, stage: Stage, sent: seq<Reply>, taken: nat, body: Body)

  /** Where a read loop is. */
  datatype Loop =
    | Top
    | AwaitRequest
    | GotRequest(call: CallId)
    | Reading(call: CallId)
    | Pooling(call: CallId, reply: Reply)
    | Replying(call: CallId, reply: Reply, wait: bool)
    | AwaitBody(call: CallId)
    | Exited
    | Stuck  // closing the last body ran its callback inside the read loop, which waits for itself

  /**
   * `route` is what the connection was dialled for. `written` lists the requests put on the wire in
   * order; the server answers them in order and the heads of the first `parsed` answers were read.
   */
  datatype Conn = Conn(
    route: ConnectMethod, cacheKey: string, broken: bool, numExpected: int, reqch: seq<CallId>,
    loop: Loop, alive: bool, lastBody: Option<CallId>, written: seq<CallId>, parsed: nat)

  datatype State = State(
    cfg: Config, pool: Option<Table<ConnId>>, conns: map<ConnId, Conn>, calls: map<CallId, Call>,
    panicked: bool)

  const REQCH_CAPACITY := 50
  const REPLY_CAPACITY := 1

  datatype Step =
    | Begin(call: CallId, cm: ConnectMethod)
    | TakeIdle(call: CallId)
    | Dial(call: CallId, conn: ConnId)
    | DialFails(call: CallId)
    | Increment(call: CallId)
    | WriteRequest(call: CallId)
    | WriteFails(call: CallId)
    | Enqueue(call: CallId)
    | ReceiveReply(call: CallId)
    | Decrement(call: CallId)
    | CheckExpected(conn: ConnId)
    | Dequeue(conn: ConnId)
    | CloseLastBody(conn: ConnId, ok: bool)
    | ReadResponse(conn: ConnId, hasBody: bool, last: bool)
    | ReadBadGzip(conn: ConnId)
    | ReadFails(conn: ConnId)
    | Repool(conn: ConnId)
    | SendReply(conn: ConnId)
    | Rendezvous(conn: ConnId)
    | BodyEOF(call: CallId)
    | BodyClose(call: CallId, ok: bool)
    | CloseIdle(conn: ConnId)
    | ResetPool

  function Init(cfg: Config): State {
    State(cfg, None, map[], map[], false)
  }

  function SetCall(s: State, x: CallId, call: Call): State {
    s.(calls := s.calls[x := call])
  }

  function SetConn(s: State, c: ConnId, conn: Conn): State {
    s.(conns := s.conns[c := conn])
  }

  function SetStage(s: State, x: CallId, stage: Stage): State
    requires x in s.calls
  {
    SetCall(s, x, s.calls[x].(stage := stage))
  }

  function SetLoop(s: State, c: ConnId, loop: Loop): State
    requires c in s.conns
  {
    SetConn(s, c, s.conns[c].(loop := loop))
  }

  /** The connection that a round trip owns between getting it and queueing its request. */
  predicate Holds(stage: Stage, c: ConnId) {
    stage == Holding(c) || stage == Counted(c) || stage == Written(c)
  }

  predicate HasConn(s: State, x: CallId) {
    x in s.calls && (s.calls[x].stage.Holding? || s.calls[x].stage.Counted? || s.calls[x].stage.Written?
                     || s.calls[x].stage.Waiting? || s.calls[x].stage.Received?)
    && s.calls[x].stage.conn in s.conns
  }

  // ----- pool operations in the step system -----

  function Idle(s: State): Table<ConnId> {
    if s.pool.Some? then s.pool.value else map[]
  }

  function Broken(s: State): set<ConnId> {
    set c | c in s.conns && s.conns[c].broken
  }

  /** putIdleConn, with the panic of a write to a map that was not made. */
  function PutIdle(s: State, c: ConnId): (State, bool)
    requires c in s.conns
  {
    var k := s.conns[c];
    var r := Put(s.cfg, Idle(s), k.cacheKey, c, k.broken);
    if s.pool.None? && r.kept then (s.(panicked := true), false)
    else
      var s1 := SetConn(s, c, k.(broken := k.broken || r.closed));
      (s1.(pool := if s.pool.None? then None else Some(r.table)), r.kept)
  }

  /** getIdleConn, with the panic of indexing an empty list. */
  function DoTakeIdle(s: State, x: CallId): State
    requires x in s.calls
  {
    var t, key := Idle(s), Key(s.calls[x].cm);
    if key in t && t[key] == [] then s.(panicked := true)
    else
      var r := Take(t, key, Broken(s));
      SetStage(s.(pool := Some(r.table)), x, if r.conn.Some? then Holding(r.conn.value) else Dialing)
  }

  /** The callback up to its wait for the read loop: give the connection back, note whether it was kept. */
  function Fire(s: State, x: CallId): State
    requires x in s.calls && s.calls[x].body.callback.Attached? && s.calls[x].body.callback.conn in s.conns
  {
    var b := s.calls[x].body;
    var c := b.callback.conn;
    var (s1, kept) := PutIdle(s, c);
    var s2 := SetConn(s1, c, s1.conns[c].(alive := s1.conns[c].alive && kept));
    SetCall(s2, x, s2.calls[x].(body := b.(callback := Signalling(c), fired := b.fired + 1)))
  }

  // ----- steps of a round trip -----

  function DoBegin(s: State, x: CallId, cm: ConnectMethod): State {
    SetCall(s, x, Call(cm, Wanting, [], 0, BLANK))
  }

  function DoDial(s: State, x: CallId, c: ConnId): State
    requires x in s.calls
  {
    var cm := s.calls[x].cm;
    SetStage(SetConn(s, c, Conn(cm, Key(cm), false, 0, [], Top, true, None, [], 0)), x, Holding(c))
  }

  function DoIncrement(s: State, x: CallId): State
    requires HasConn(s, x)
  {
    var c := s.calls[x].stage.conn;
    SetStage(SetConn(s, c, s.conns[c].(numExpected := s.conns[c].numExpected + 1)), x, Counted(c))
  }

  function DoWriteRequest(s: State, x: CallId): State
    requires HasConn(s, x)
  {
    var c := s.calls[x].stage.conn;
    SetStage(SetConn(s, c, s.conns[c].(written := s.conns[c].written + [x])), x, Written(c))
  }

  /** The connection is closed, and the count stays up. */
  function DoWriteFails(s: State, x: CallId): State
    requires HasConn(s, x)
  {
    var c := s.calls[x].stage.conn;
    SetStage(SetConn(s, c, s.conns[c].(broken := true)), x, Abandoned(c))
  }

  function DoEnqueue(s: State, x: CallId): State
    requires HasConn(s, x)
  {
    var c := s.calls[x].stage.conn;
    SetStage(SetConn(s, c, s.conns[c].(reqch := s.conns[c].reqch + [x])), x, Waiting(c))
  }

  function DoReceiveReply(s: State, x: CallId): State
    requires HasConn(s, x) && s.calls[x].taken < |s.calls[x].sent|
  {
    var call := s.calls[x];
    SetCall(s, x, call.(stage := Received(call.stage.conn, call.sent[call.taken]), taken := call.taken + 1))
  }

  function DoDecrement(s: State, x: CallId): State
    requires HasConn(s, x) && s.calls[x].stage.Received?
  {
    var c := s.calls[x].stage.conn;
    SetStage(SetConn(s, c, s.conns[c].(numExpected := s.conns[c].numExpected - 1)), x, Returned(s.calls[x].stage.reply))
  }

  // ----- steps of the read loop -----

  function DoCheckExpected(s: State, c: ConnId): State
    requires c in s.conns
  {
    var k := s.conns[c];
    SetConn(s, c, if k.numExpected == 0 then k.(broken := true, loop := Exited) else k.(loop := AwaitRequest))
  }

  function DoDequeue(s: State, c: ConnId): State
    requires c in s.conns && s.conns[c].reqch != []
  {
    SetConn(s, c, s.conns[c].(reqch := s.conns[c].reqch[1..], loop := GotRequest(s.conns[c].reqch[0])))
  }

  function DoCloseLastBody(s: State, c: ConnId, ok: bool): State
    requires c in s.conns && s.conns[c].loop.GotRequest?
    requires s.conns[c].lastBody.Some? ==> s.conns[c].lastBody.value in s.calls
  {
    var k := s.conns[c];
    if k.lastBody.None? then SetLoop(s, c, Reading(k.loop.call))
    else
      var y := k.lastBody.value;
      var b := s.calls[y].body;
      var s1 := SetCall(s, y, s.calls[y].(body := b.(isClosed := true)));
      if !b.isClosed && ok && b.callback.Attached? then SetLoop(s1, c, Stuck)
      else SetConn(s1, c, k.(lastBody := None, loop := Reading(k.loop.call)))
  }

  /** A response head: the answer to the first request written whose answer was not read yet. */
  function DoReadResponse(s: State, c: ConnId, hasBody: bool, last: bool): State
    requires c in s.conns && s.conns[c].loop.Reading? && s.conns[c].loop.call in s.calls
    requires s.conns[c].parsed < |s.conns[c].written|
  {
    var k := s.conns[c];
    var x := k.loop.call;
    var reply := Reply(Some(Response(k.written[k.parsed], hasBody)), false);
    var k1 := k.(parsed := k.parsed + 1);
    if last then SetConn(s, c, k1.(alive := false, loop := Replying(x, reply, false)))
    else if hasBody then
      SetConn(SetCall(s, x, s.calls[x].(body := Body(Some(c), Attached(c), false, 0))),
              c, k1.(lastBody := Some(x), loop := Replying(x, reply, true)))
    else SetConn(s, c, k1.(lastBody := None, loop := Pooling(x, reply)))
  }

  function DoReadBadGzip(s: State, c: ConnId): State
    requires c in s.conns && s.conns[c].loop.Reading? && s.conns[c].parsed < |s.conns[c].written|
  {
    var k := s.conns[c];
    var reply := Reply(Some(Response(k.written[k.parsed], true)), true);
    SetConn(s, c, k.(parsed := k.parsed + 1, broken := true, alive := false,
                     loop := Replying(k.loop.call, reply, false)))
  }

  function DoReadFails(s: State, c: ConnId): State
    requires c in s.conns && s.conns[c].loop.Reading?
  {
    var k := s.conns[c];
    SetConn(s, c, k.(broken := true, alive := false, loop := Replying(k.loop.call, Reply(None, true), false)))
  }

  function DoRepool(s: State, c: ConnId): State
    requires c in s.conns && s.conns[c].loop.Pooling?
  {
    var (s1, kept) := PutIdle(s, c);
    var k := s1.conns[c];
    SetConn(s1, c, k.(alive := k.alive && kept, loop := Replying(k.loop.call, k.loop.reply, false)))
  }

  function Again(k: Conn): Loop {
    if k.alive then Top else Exited
  }

  function DoSendReply(s: State, c: ConnId): State
    requires c in s.conns && s.conns[c].loop.Replying? && s.conns[c].loop.call in s.calls
  {
    var k := s.conns[c];
    var x := k.loop.call;
    SetLoop(SetCall(s, x, s.calls[x].(sent := s.calls[x].sent + [k.loop.reply])),
            c, if k.loop.wait then AwaitBody(x) else Again(k))
  }

  function DoRendezvous(s: State, c: ConnId): State
    requires c in s.conns && s.conns[c].loop.AwaitBody? && s.conns[c].loop.call in s.calls
  {
    var k := s.conns[c];
    var x := k.loop.call;
    SetLoop(SetCall(s, x, s.calls[x].(body := s.calls[x].body.(callback := NoCallback))), c, Again(k))
  }

  // ----- steps of the body's reader -----

  function DoBodyEOF(s: State, x: CallId): State
    requires x in s.calls && !s.calls[x].body.callback.Signalling?
    requires s.calls[x].body.callback.Attached? ==> s.calls[x].body.callback.conn in s.conns
  {
    if s.calls[x].body.callback.Attached? then Fire(s, x) else s
  }

  function DoBodyClose(s: State, x: CallId, ok: bool): State
    requires x in s.calls && !s.calls[x].body.callback.Signalling?
    requires s.calls[x].body.callback.Attached? ==> s.calls[x].body.callback.conn in s.conns
  {
    var b := s.calls[x].body;
    if b.isClosed then s
    else
      var s1 := SetCall(s, x, s.calls[x].(body := b.(isClosed := true)));
      if ok && b.callback.Attached? then Fire(s1, x) else s1
  }

  /** One turn of the loop of CloseIdleConnections. */
  function DoCloseIdle(s: State, c: ConnId): State
    requires c in s.conns
  {
    SetConn(s, c, s.conns[c].(broken := true))
  }

  // ----- the step relation -----

  /** The steps that can be taken; one on a channel waits for room or for a value. */
  ghost predicate Enabled(s: State, step: Step) {
    !s.panicked &&
    match step
    case Begin(x, cm) => x !in s.calls
    case TakeIdle(x) => x in s.calls && s.calls[x].stage.Wanting?
    case Dial(x, c) => x in s.calls && s.calls[x].stage.Dialing? && c !in s.conns
    case DialFails(x) => x in s.calls && s.calls[x].stage.Dialing?
    case Increment(x) => HasConn(s, x) && s.calls[x].stage.Holding?
    case WriteRequest(x) => HasConn(s, x) && s.calls[x].stage.Counted?
    case WriteFails(x) => HasConn(s, x) && s.calls[x].stage.Counted?
    case Enqueue(x) =>
      HasConn(s, x) && s.calls[x].stage.Written? && |s.conns[s.calls[x].stage.conn].reqch| < REQCH_CAPACITY
    case ReceiveReply(x) => HasConn(s, x) && s.calls[x].stage.Waiting? && s.calls[x].taken < |s.calls[x].sent|
    case Decrement(x) => HasConn(s, x) && s.calls[x].stage.Received?
    case CheckExpected(c) => c in s.conns && s.conns[c].loop.Top?
    case Dequeue(c) => c in s.conns && s.conns[c].loop.AwaitRequest? && s.conns[c].reqch != []
    case CloseLastBody(c, ok) =>
      c in s.conns && s.conns[c].loop.GotRequest?
      && (s.conns[c].lastBody.Some? ==> s.conns[c].lastBody.value in s.calls)
    case ReadResponse(c, hasBody, last) =>
      c in s.conns && s.conns[c].loop.Reading? && s.conns[c].loop.call in s.calls
      && s.conns[c].parsed < |s.conns[c].written|
    case ReadBadGzip(c) => c in s.conns && s.conns[c].loop.Reading? && s.conns[c].parsed < |s.conns[c].written|
    case ReadFails(c) => c in s.conns && s.conns[c].loop.Reading?
    case Repool(c) => c in s.conns && s.conns[c].loop.Pooling?
    case SendReply(c) =>
      c in s.conns && s.conns[c].loop.Replying? && s.conns[c].loop.call in s.calls
      && |s.calls[s.conns[c].loop.call].sent| - s.calls[s.conns[c].loop.call].taken < REPLY_CAPACITY
    case Rendezvous(c) =>
      c in s.conns && s.conns[c].loop.AwaitBody? && s.conns[c].loop.call in s.calls
      && s.calls[s.conns[c].loop.call].body.callback == Signalling(c)
    case BodyEOF(x) => BodyInHand(s, x)
    case BodyClose(x, ok) => BodyInHand(s, x)
    case CloseIdle(c) => c in s.conns && s.pool.Some? && Listed(s.pool.value, s.conns[c].cacheKey, c)
    case ResetPool => s.pool.Some? && forall key, c :: Listed(s.pool.value, key, c) ==> c in Broken(s)
  }

  /** The client has the response and is not inside its body's callback. */
  predicate BodyInHand(s: State, x: CallId) {
    && x in s.calls && s.calls[x].stage.Returned? && s.calls[x].stage.reply.response.Some?
    && !s.calls[x].body.callback.Signalling?
    && (s.calls[x].body.callback.Attached? ==> s.calls[x].body.callback.conn in s.conns)
  }

  function Apply(s: State, step: Step): State
    requires Enabled(s, step)
  {
    match step
    case Begin(x, cm) => DoBegin(s, x, cm)
    case TakeIdle(x) => DoTakeIdle(s, x)
    case Dial(x, c) => DoDial(s, x, c)
    case DialFails(x) => SetStage(s, x, DialFailed)
    case Increment(x) => DoIncrement(s, x)
    case WriteRequest(x) => DoWriteRequest(s, x)
    case WriteFails(x) => DoWriteFails(s, x)
    case Enqueue(x) => DoEnqueue(s, x)
    case ReceiveReply(x) => DoReceiveReply(s, x)
    case Decrement(x) => DoDecrement(s, x)
    case CheckExpected(c) => DoCheckExpected(s, c)
    case Dequeue(c) => DoDequeue(s, c)
    case CloseLastBody(c, ok) => DoCloseLastBody(s, c, ok)
    case ReadResponse(c, hasBody, last) => DoReadResponse(s, c, hasBody, last)
    case ReadBadGzip(c) => DoReadBadGzip(s, c)
    case ReadFails(c) => DoReadFails(s, c)
    case Repool(c) => DoRepool(s, c)
    case SendReply(c) => DoSendReply(s, c)
    case Rendezvous(c) => DoRendezvous(s, c)
    case BodyEOF(x) => DoBodyEOF(s, x)
    case BodyClose(x, ok) => DoBodyClose(s, x, ok)
    case CloseIdle(c) => DoCloseIdle(s, c)
    case ResetPool => s.(pool := Some(map[]))
  }

  ghost predicate Run(s: State, steps: seq<Step>)
    decreases |steps|
  {
    steps == [] || (Enabled(s, steps[0]) && Run(Apply(s, steps[0]), steps[1..]))
  }

  function After(s: State, steps: seq<Step>): State
    requires Run(s, steps)
    decreases |steps|
  {
    if steps == [] then s else After(Apply(s, steps[0]), steps[1..])
  }
}
