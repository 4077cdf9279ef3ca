/**
 * The response body wrapper of goproxy/transport/transport.go that tells the read loop when the
 * body has been consumed: first as a value, then as the source keeps it, with the callback that
 * gives the connection back to the pool.
 */
module BodySignal {
  import opened Options
  import opened Pool

  /** What the client or the read loop does: a Read that delivers n bytes, a Close that succeeds or fails. */
  datatype Op = Read(n: nat, eof: bool) | Close(ok: bool)

  datatype Signal = Signal(callback: bool, isClosed: bool, fired: nat, panicked: bool)

  function Fire(b: Signal): Signal {
    if b.callback then b.(callback := false, fired := b.fired + 1) else b
  }

  function Apply(b: Signal, op: Op): Signal {
    if b.panicked then b
    else
      match op
      case Read(n, eof) =>
        if b.isClosed && n > 0 then b.(panicked := true)
        else if eof then Fire(b)
        else b
      case Close(ok) =>
        if b.isClosed then b
        else if ok then Fire(b.(isClosed := true))
        else b.(isClosed := true)
  }

  function After(b: Signal, ops: seq<Op>): Signal
    decreases |ops|
  {
    if ops == [] then b else After(Apply(b, ops[0]), ops[1..])
  }

  /** The end of the body is seen: some Read meets EOF, or the first Close succeeds. */
  predicate SeesEnd(ops: seq<Op>, closed: bool)
    decreases |ops|
  {
    ops != [] &&
    match ops[0]
    case Read(n, eof) => eof || SeesEnd(ops[1..], closed)
    case Close(ok) => (!closed && ok) || SeesEnd(ops[1..], true)
  }

  /** Over any use of a body the callback runs exactly once if the end is seen, and otherwise not at all. */
  lemma {:induction false} CallbackRunsOnceAtTheEnd(b: Signal, ops: seq<Op>)
    requires !After(b, ops).panicked
    ensures var fires := b.callback && SeesEnd(ops, b.isClosed);
            && After(b, ops).fired == b.fired + (if fires then 1 else 0)
            && After(b, ops).callback == (b.callback && !fires)
    decreases |ops|
  {
    if ops != [] {
      if Apply(b, ops[0]).panicked {
        PanicStays(Apply(b, ops[0]), ops[1..]);
      } else {
        CallbackRunsOnceAtTheEnd(Apply(b, ops[0]), ops[1..]);
      }
    }
  }

  /** Some Read delivers data although the body was closed before. */
  predicate ReadsAfterClose(ops: seq<Op>, closed: bool)
    decreases |ops|
  {
    ops != [] &&
    match ops[0]
    case Read(n, eof) => (closed && n > 0) || ReadsAfterClose(ops[1..], closed)
    case Close(ok) => ReadsAfterClose(ops[1..], true)
  }

  /** A use of a body panics exactly if data is read from it after a Close, successful or not. */
  lemma {:induction false} PanicsExactlyOnDataAfterClose(b: Signal, ops: seq<Op>)
    requires !b.panicked
    ensures After(b, ops).panicked <==> ReadsAfterClose(ops, b.isClosed)
    decreases |ops|
  {
    if ops != [] {
      if Apply(b, ops[0]).panicked {
        PanicStays(Apply(b, ops[0]), ops[1..]);
      } else {
        PanicsExactlyOnDataAfterClose(Apply(b, ops[0]), ops[1..]);
      }
    }
  }

  lemma {:induction false} PanicStays(b: Signal, ops: seq<Op>)
    requires b.panicked
    ensures After(b, ops) == b
    decreases |ops|
  {
    if ops != [] {
      PanicStays(b, ops[1..]);
    }
  }

  /** Also when a use of the body panics, the callback has run at most once. */
  lemma {:induction false} CallbackRunsAtMostOnce(b: Signal, ops: seq<Op>)
    requires b.fired == if b.callback then 0 else 1
    ensures After(b, ops).fired <= 1
    decreases |ops|
  {
    if ops != [] {
      CallbackRunsAtMostOnce(Apply(b, ops[0]), ops[1..]);
    }
  }

  // ----- the wrapper as the source keeps it -----

  /** The read loop's variables that the callback shares: whether to go on, and the body-consumed signals sent. */
  class LoopFrame {
    var alive: bool
    var signals: nat

    constructor ()
      ensures alive && signals == 0
    {
      alive, signals := true, 0;
    }
  }

  class BodyEOFSignal {
    const t: Transport
    const pc: PersistConn
    const frame: LoopFrame
    var callback: bool  // whether fn is set
    var isClosed: bool

    /** While the callback is set the body has the connection, so the pool does not. */
    ghost predicate Valid()
      reads this, t
    {
      && t.Valid() && t.idleConn.Some?
      && (callback ==> pc !in t.IdleFor(pc.cacheKey))
    }

    ghost function Abs(): Signal
      reads this, frame
    {
      Signal(callback, isClosed, frame.signals, false)
    }

    constructor (t: Transport, pc: PersistConn, frame: LoopFrame, callback: bool)
      requires t.Valid() && t.idleConn.Some? && pc !in t.IdleFor(pc.cacheKey)
      ensures Valid() && this.t == t && this.pc == pc && this.frame == frame
      ensures this.callback == callback && !isClosed
    {
      this.t, this.pc, this.frame, this.callback, isClosed := t, pc, frame, callback, false;
    }

    /** Offer the connection to the pool, stop the loop if it is not kept, signal, and clear the callback. */
    method RunCallback()
      requires Valid() && callback
      modifies this`callback, t`idleConn, pc, frame
      ensures Valid() && !callback && frame.signals == old(frame.signals) + 1
      ensures var r := Put(t.cfg, old(t.idleConn.value), pc.cacheKey, pc, old(pc.broken));
              && t.idleConn == Some(r.table)
              && frame.alive == (old(frame.alive) && r.kept)
              && pc.broken == (old(pc.broken) || r.closed)
    {
      var kept, panicked := t.PutIdleConn(pc);
      assert !panicked;
      if !kept {
        frame.alive := false;
      }
      frame.signals := frame.signals + 1;
      callback := false;
    }

    /** A Read for which the wrapped body delivers n bytes, with or without EOF. */
    method Read(n: nat, eof: bool) returns (panicked: bool)
      requires Valid()
      modifies this`callback, t`idleConn, pc, frame
      ensures Valid() && Abs().(panicked := panicked) == Apply(old(Abs()), Op.Read(n, eof))
      ensures Abs().fired == old(Abs().fired) ==>
                t.idleConn == old(t.idleConn) && frame.alive == old(frame.alive) && pc.broken == old(pc.broken)
      ensures Abs().fired > old(Abs().fired) ==>
                var r := Put(t.cfg, old(t.idleConn.value), pc.cacheKey, pc, old(pc.broken));
                && t.idleConn == Some(r.table)
                && frame.alive == (old(frame.alive) && r.kept)
                && pc.broken == (old(pc.broken) || r.closed)
    {
      if isClosed && n > 0 {
        return true;
      }
      if eof && callback {
        RunCallback();
      }
      panicked := false;
    }

    /** A Close for which closing the wrapped body succeeds or fails. */
    method Close(ok: bool)
      requires Valid()
      modifies this`callback, this`isClosed, t`idleConn, pc, frame
      ensures Valid() && Abs() == Apply(old(Abs()), Op.Close(ok))
      ensures Abs().fired == old(Abs().fired) ==>
                t.idleConn == old(t.idleConn) && frame.alive == old(frame.alive) && pc.broken == old(pc.broken)
      ensures Abs().fired > old(Abs().fired) ==>
                var r := Put(t.cfg, old(t.idleConn.value), pc.cacheKey, pc, old(pc.broken));
                && t.idleConn == Some(r.table)
                && frame.alive == (old(frame.alive) && r.kept)
                && pc.broken == (old(pc.broken) || r.closed)
    {
      if isClosed {
        return;
      }
      isClosed := true;
      if ok && callback {
        RunCallback();
      }
    }
  }
}
