/**
 * How the steps of the connection protocol agree with the two models of their parts: with the body
 * wrapper, whose uses they are, and with the mutexes, which guard what they change.
 */
module ProtocolLinks {
  import opened Options
  import opened ConnectMethods
  import opened Pool
  import opened Protocol
  import opened ProtocolInvariant
  import opened ProtocolTheorems
  import opened ProtocolWaiting
  import BodySignal
  import Locks

  // ----- the body wrapper -----

  /** A body as its wrapper sees it; a callback that runs has run for all that later uses can do. */
  function SignalOf(b: Body): BodySignal.Signal {
    BodySignal.Signal(b.callback.Attached?, b.isClosed, b.fired, false)
  }

  /** The uses of the body of x that a step consists of: by its client, or the Close of the read loop. */
  function UsesOf(s: State, step: Step, x: CallId): seq<BodySignal.Op>
    requires Enabled(s, step)
  {
    match step
    case BodyEOF(y) => if x == y then [BodySignal.Op.Read(0, true)] else []
    case BodyClose(y, ok) => if x == y then [BodySignal.Op.Close(ok)] else []
    case CloseLastBody(c, ok) => if s.conns[c].lastBody == Some(x) then [BodySignal.Op.Close(ok)] else []
    case _ => []
  }

  lemma {:induction false} OneUse(b: BodySignal.Signal, op: BodySignal.Op)
    ensures BodySignal.After(b, [op]) == BodySignal.Apply(b, op)
  {
    assert [op][1..] == [];
  }

  /** The body of x is the same one, used as the wrapper says. */
  ghost predicate Used(s: State, s': State, x: CallId, uses: seq<BodySignal.Op>)
    requires x in s.calls
  {
    && x in s'.calls && s'.calls[x].body.conn == s.calls[x].body.conn
    && SignalOf(s'.calls[x].body) == BodySignal.After(SignalOf(s.calls[x].body), uses)
  }

  lemma {:induction false} ClientUses(s: State, x: CallId, ok: bool)
    requires BodyInHand(s, x)
    ensures OnlyFired(s, DoBodyEOF(s, x), x) && Used(s, DoBodyEOF(s, x), x, [BodySignal.Op.Read(0, true)])
    ensures OnlyFired(s, DoBodyClose(s, x, ok), x) && Used(s, DoBodyClose(s, x, ok), x, [BodySignal.Op.Close(ok)])
  {
    BodyKeepsOthers(s, x, ok);
    OneUse(SignalOf(s.calls[x].body), BodySignal.Op.Read(0, true));
    OneUse(SignalOf(s.calls[x].body), BodySignal.Op.Close(ok));
  }

  lemma {:induction false} LoopUses(s: State, pl: Places, c: ConnId, ok: bool, x: CallId)
    requires Inv(s, pl) && Enabled(s, CloseLastBody(c, ok)) && x in s.calls
    ensures Used(s, DoCloseLastBody(s, c, ok), x, UsesOf(s, CloseLastBody(c, ok), x))
  {
    LastBodySpared(s, pl, c);
    OneUse(SignalOf(s.calls[x].body), BodySignal.Op.Close(ok));
  }

  lemma {:induction false} OthersDoNotUse(s: State, pl: Places, step: Step, x: CallId)
    requires Inv(s, pl) && Enabled(s, step) && x in s.calls && s.calls[x].body.conn.Some?
    requires !step.BodyEOF? && !step.BodyClose? && !step.CloseLastBody?
    ensures Used(s, Apply(s, step), x, [])
  {
    if step.ReadResponse? {
      ReadingSparesBodies(s, pl, step.conn, step.hasBody, step.last, x);
    } else if step.Repool? {
      PoolKeepsOthers(s, step.conn);
    } else {
      RestSpareBodies(s, step, x);
    }
  }

  /** The body of a response is new: the round trip that it answers had none. */
  lemma {:induction false} ReadingSparesBodies(s: State, pl: Places, c: ConnId, hasBody: bool, last: bool, x: CallId)
    requires Inv(s, pl) && Enabled(s, ReadResponse(c, hasBody, last)) && x in s.calls && s.calls[x].body.conn.Some?
    ensures Used(s, DoReadResponse(s, c, hasBody, last), x, [])
  {
    assert ConnInv(s, pl, c);
  }

  lemma {:induction false} RestSpareBodies(s: State, step: Step, x: CallId)
    requires Enabled(s, step) && x in s.calls && !step.ReadResponse? && !step.Repool?
    requires !step.BodyEOF? && !step.BodyClose? && !step.CloseLastBody?
    ensures Used(s, Apply(s, step), x, [])
  {
  }

  lemma {:induction false} ClientStepUses(s: State, step: Step, x: CallId)
    requires Enabled(s, step) && x in s.calls && (step.BodyEOF? || step.BodyClose?)
    ensures Used(s, Apply(s, step), x, UsesOf(s, step, x))
  {
    ClientUses(s, step.call, if step.BodyClose? then step.ok else true);
  }

  lemma {:induction false} StepUses(s: State, pl: Places, step: Step, x: CallId)
    requires Inv(s, pl) && Enabled(s, step) && x in s.calls && s.calls[x].body.conn.Some?
    ensures Used(s, Apply(s, step), x, UsesOf(s, step, x))
  {
    if step.BodyEOF? || step.BodyClose? {
      ClientStepUses(s, step, x);
    } else if step.CloseLastBody? {
      LoopUses(s, pl, step.conn, step.ok, x);
    } else {
      OthersDoNotUse(s, pl, step, x);
    }
  }

  /**
   * In every run a body that has a callback changes as its wrapper says: each step is a use of it,
   * or leaves it alone.
   */
  lemma {:induction false} StepsAreBodyUses(cfg: Config, steps: seq<Step>, s: State, step: Step, x: CallId)
    requires Reached(cfg, steps, s) && Enabled(s, step) && x in s.calls && s.calls[x].body.conn.Some?
    ensures Used(s, Apply(s, step), x, UsesOf(s, step, x))
  {
    var pl := ReachedHasPlaces(cfg, steps, s);
    StepUses(s, pl, step, x);
  }

  // ----- the mutexes -----

  /** The entries that getIdleConn checks, from the top down to the first that is not broken. */
  function Checked(l: seq<ConnId>, broken: set<ConnId>): seq<ConnId> {
    if l == [] then []
    else [l[|l| - 1]] + if l[|l| - 1] in broken then Checked(l[..|l| - 1], broken) else []
  }

  lemma {:induction false} CheckedIsTop(l: seq<ConnId>, broken: set<ConnId>, c: ConnId)
    ensures var top := LiveTop(l, broken); c in Checked(l, broken) <==> c in l[if top < 0 then 0 else top..]
  {
    if l != [] {
      var init, top := l[..|l| - 1], LiveTop(l, broken);
      if l[|l| - 1] in broken {
        CheckedIsTop(init, broken, c);
        SuffixGrows(l, if top < 0 then 0 else top, c);
      } else {
        SuffixGrows(l, |l| - 1, c);
      }
    }
  }

  lemma {:induction false} SuffixGrows(l: seq<ConnId>, k: nat, c: ConnId)
    requires k < |l|
    ensures c in l[k..] <==> c in l[..|l| - 1][k..] || c == l[|l| - 1]
  {
    assert l[k..] == l[..|l| - 1][k..] + [l[|l| - 1]];
  }

  /** What is left of a list from which getIdleConn has taken. */
  function Left(l: seq<ConnId>, broken: set<ConnId>): seq<ConnId> {
    var top := LiveTop(l, broken); l[..if top < 0 then 0 else top]
  }

  lemma {:induction false} CheckedIsNotLeft(l: seq<ConnId>, broken: set<ConnId>, c: ConnId)
    requires NoDuplicates(l)
    ensures c in Checked(l, broken) <==> c in l && c !in Left(l, broken)
  {
    CheckedIsTop(l, broken, c);
    InOneHalf(l, |Left(l, broken)|, c);
  }

  lemma {:induction false} InOneHalf(l: seq<ConnId>, k: nat, c: ConnId)
    requires NoDuplicates(l) && k <= |l|
    ensures c in l[k..] <==> c in l && c !in l[..k]
  {
    if c in l {
      var i :| 0 <= i < |l| && l[i] == c;
      assert if i < k then l[..k][i] == c else l[k..][i - k] == c;
    }
  }

  lemma {:induction false} TakeLeaves(s: State, x: CallId)
    requires x in s.calls && Shapely(s.cfg, Idle(s))
    ensures var key := Key(s.calls[x].cm);
            IdleList(Idle(DoTakeIdle(s, x)), key) == Left(IdleList(Idle(s), key), Broken(s))
  {
  }

  /** getIdleConn checks exactly the connections that it takes from the pool. */
  lemma {:induction false} CheckedAreTaken(cfg: Config, steps: seq<Step>, s: State, x: CallId, c: ConnId)
    requires Reached(cfg, steps, s) && Enabled(s, TakeIdle(x))
    ensures LocksOf(s, TakeIdle(x))[0].GetIdleConn?
    ensures c in LocksOf(s, TakeIdle(x))[0].checked <==>
              var key := Key(s.calls[x].cm); Listed(Idle(s), key, c) && !Listed(Idle(Apply(s, TakeIdle(x))), key, c)
  {
    PoolStaysWellFormed(cfg, steps, s);
    var l := IdleList(Idle(s), Key(s.calls[x].cm));
    assert NoDuplicates(l);
    CheckedIsNotLeft(l, Broken(s), c);
    TakeLeaves(s, x);
  }

  function PutOperation(s: State, c: ConnId): Locks.Operation
    requires c in s.conns
  {
    var k := s.conns[c];
    if !KeepsConnections(s.cfg) then Locks.PutDisabled(c)
    else if k.broken then Locks.PutBroken(c)
    else if |IdleList(Idle(s), k.cacheKey)| >= MaxIdle(s.cfg) then Locks.PutFull(c)
    else Locks.PutKept(c)
  }

  /** The operations on mutexes in a step; a step of CloseIdleConnections is that part of it. */
  function LocksOf(s: State, step: Step): seq<Locks.Operation>
    requires Enabled(s, step)
  {
    match step
    case TakeIdle(x) => [Locks.GetIdleConn(Checked(IdleList(Idle(s), Key(s.calls[x].cm)), Broken(s)))]
    case Increment(x) => [Locks.CountUp(s.calls[x].stage.conn)]
    case WriteFails(x) => [Locks.CloseConn(s.calls[x].stage.conn)]
    case Decrement(x) => [Locks.CountDown(s.calls[x].stage.conn)]
    case CheckExpected(c) => [Locks.CheckExpected(c)]
    case ReadBadGzip(c) => [Locks.CloseConn(c)]
    case ReadFails(c) => [Locks.CloseConn(c)]
    case Repool(c) => [PutOperation(s, c)]
    case BodyEOF(x) =>
      if s.calls[x].body.callback.Attached? then [PutOperation(s, s.calls[x].body.callback.conn)] else []
    case BodyClose(x, ok) =>
      if ok && !s.calls[x].body.isClosed && s.calls[x].body.callback.Attached?
      then [PutOperation(s, s.calls[x].body.callback.conn)] else []
    case CloseIdle(c) => [Locks.CloseIdleConnections([c])]
    case ResetPool => [Locks.CloseIdleConnections([])]
    case _ => []
  }

  ghost predicate Takes(ops: seq<Locks.Operation>, l: Locks.Lock) {
    exists op :: op in ops && Locks.Acquire(l) in Locks.Actions(op)
  }

  lemma {:induction false} TransportSectionTakes(cs: seq<ConnId>)
    ensures Locks.Acquire(Locks.TransportLock) in Locks.TransportSection(cs)
    ensures cs != [] ==> Locks.Acquire(Locks.ConnLock(cs[0])) in Locks.TransportSection(cs)
  {
    assert Locks.TransportSection(cs)[0] == Locks.Acquire(Locks.TransportLock);
    if cs != [] {
      assert Locks.ConnSections(cs)[0] == Locks.Acquire(Locks.ConnLock(cs[0]));
      assert Locks.TransportSection(cs)[1] == Locks.ConnSections(cs)[0];
    }
  }

  lemma {:induction false} PutTakes(s: State, c: ConnId)
    requires c in s.conns
    ensures Takes([PutOperation(s, c)], Locks.TransportLock) && Takes([PutOperation(s, c)], Locks.ConnLock(c))
  {
    TransportSectionTakes([c]);
    TransportSectionTakes([c, c]);
    assert PutOperation(s, c) in [PutOperation(s, c)];
  }

  lemma {:induction false} ConnSectionTakes(op: Locks.Operation, c: ConnId)
    requires op in {Locks.CountUp(c), Locks.CountDown(c), Locks.CloseConn(c), Locks.CheckExpected(c)}
    ensures Takes([op], Locks.ConnLock(c))
  {
    assert Locks.Actions(op)[0] == Locks.Acquire(Locks.ConnLock(c));
    assert op in [op];
  }

  lemma {:induction false} PoolOperationTakes(op: Locks.Operation, cs: seq<ConnId>)
    requires op == Locks.GetIdleConn(cs) || op == Locks.CloseIdleConnections(cs)
    ensures Takes([op], Locks.TransportLock) && (cs != [] ==> Takes([op], Locks.ConnLock(cs[0])))
  {
    TransportSectionTakes(cs);
    assert op in [op];
  }

  ghost predicate Guarded(s: State, s': State, ops: seq<Locks.Operation>, c: ConnId) {
    && (s'.pool != s.pool ==> Takes(ops, Locks.TransportLock))
    && (c in s.conns ==>
          && c in s'.conns
          && (s'.conns[c].broken != s.conns[c].broken || s'.conns[c].numExpected != s.conns[c].numExpected ==>
                Takes(ops, Locks.ConnLock(c))))
  }

  lemma {:induction false} PutsAreGuarded(s: State, step: Step, c: ConnId)
    requires Enabled(s, step) && (step.Repool? || step.BodyEOF? || step.BodyClose?)
    ensures Guarded(s, Apply(s, step), LocksOf(s, step), c)
  {
    match step
    case Repool(d) =>
      PutTakes(s, d);
    case BodyEOF(x) =>
      if s.calls[x].body.callback.Attached? {
        PutTakes(s, s.calls[x].body.callback.conn);
      }
    case BodyClose(x, _) =>
      if s.calls[x].body.callback.Attached? {
        PutTakes(s, s.calls[x].body.callback.conn);
      }
  }

  lemma {:induction false} ConnSectionsGuard(s: State, step: Step, c: ConnId)
    requires Enabled(s, step)
    requires step.Increment? || step.WriteFails? || step.Decrement?
             || step.CheckExpected? || step.ReadBadGzip? || step.ReadFails?
    ensures Guarded(s, Apply(s, step), LocksOf(s, step), c)
  {
    var ofCaller := step.Increment? || step.WriteFails? || step.Decrement?;
    var d := if ofCaller then s.calls[step.call].stage.conn else step.conn;
    ConnSectionTakes(LocksOf(s, step)[0], d);
  }

  lemma {:induction false} PoolOperationsGuard(s: State, step: Step, c: ConnId)
    requires Enabled(s, step) && (step.TakeIdle? || step.CloseIdle? || step.ResetPool?)
    ensures Guarded(s, Apply(s, step), LocksOf(s, step), c)
  {
    match step
    case TakeIdle(_) => PoolOperationTakes(LocksOf(s, step)[0], LocksOf(s, step)[0].checked);
    case CloseIdle(d) => PoolOperationTakes(LocksOf(s, step)[0], [d]);
    case ResetPool => PoolOperationTakes(LocksOf(s, step)[0], []);
  }

  /**
   * Every step changes the pool only under the transport lock, and a connection's broken mark and
   * its count only under the lock of that connection.
   */
  lemma {:induction false} ChangesAreGuarded(s: State, step: Step, c: ConnId)
    requires Enabled(s, step)
    ensures Guarded(s, Apply(s, step), LocksOf(s, step), c)
  {
    if step.Repool? || step.BodyEOF? || step.BodyClose? {
      PutsAreGuarded(s, step, c);
    } else if step.TakeIdle? || step.CloseIdle? || step.ResetPool? {
      PoolOperationsGuard(s, step, c);
    } else if LocksOf(s, step) != [] {
      ConnSectionsGuard(s, step, c);
    }
  }
}
