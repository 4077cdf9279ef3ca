/**
 * The mutexes of goproxy/transport/transport.go: one of the transport, one of each connection. Each
 * operation is the sequence in which it takes and releases them; any number of goroutines run
 * operations one after the other, interleaved in any way.
 */
module Locks {

  type ConnId = nat
  type ThreadId = nat

  datatype Lock = TransportLock | ConnLock(conn: ConnId)

  datatype Action = Acquire(lock: Lock) | Release(lock: Lock)

  // ----- the operations -----

  /** A critical section on one connection's lock: isBroken, close, the counter, the read loop's check. */
  function ConnSection(c: ConnId): seq<Action> {
    [Acquire(ConnLock(c)), Release(ConnLock(c))]
  }

  function ConnSections(cs: seq<ConnId>): seq<Action> {
    if cs == [] then [] else ConnSection(cs[0]) + ConnSections(cs[1..])
  }

  /** Under the transport lock, one critical section after the other on the connections listed. */
  function TransportSection(cs: seq<ConnId>): seq<Action> {
    [Acquire(TransportLock)] + ConnSections(cs) + [Release(TransportLock)]
  }

  datatype Operation =
    | PutDisabled(conn: ConnId)                // close
    | PutBroken(conn: ConnId)                  // isBroken
    | PutFull(conn: ConnId)                    // isBroken, then close
    | PutKept(conn: ConnId)                    // isBroken
    | GetIdleConn(checked: seq<ConnId>)        // isBroken on each popped entry
    | CloseIdleConnections(closed: seq<ConnId>)
    | AltProto                                 // the protocol table, looked up or registered
    | CheckExpected(conn: ConnId)              // the read loop, closing inside the section or not
    | CloseConn(conn: ConnId)
    | CountUp(conn: ConnId)
    | CountDown(conn: ConnId)

  function Actions(op: Operation): seq<Action> {
    match op
    case PutDisabled(c) => TransportSection([c])
    case PutBroken(c) => TransportSection([c])
    case PutFull(c) => TransportSection([c, c])
    case PutKept(c) => TransportSection([c])
    case GetIdleConn(cs) => TransportSection(cs)
    case CloseIdleConnections(cs) => TransportSection(cs)
    case AltProto => TransportSection([])
    case CheckExpected(c) => ConnSection(c)
    case CloseConn(c) => ConnSection(c)
    case CountUp(c) => ConnSection(c)
    case CountDown(c) => ConnSection(c)
  }

  // ----- the locking order -----

  /**
   * With `held` held, the actions take the transport lock only when nothing is held and a
   * connection lock only when no connection lock is, release what they hold and end holding nothing.
   */
  predicate Ordered(held: set<Lock>, actions: seq<Action>)
    decreases |actions|
  {
    if actions == [] then held == {}
    else
      match actions[0]
      case Acquire(TransportLock) => held == {} && Ordered({TransportLock}, actions[1..])
      case Acquire(ConnLock(c)) => held <= {TransportLock} && Ordered(held + {ConnLock(c)}, actions[1..])
      case Release(l) => l in held && Ordered(held - {l}, actions[1..])
  }

  lemma {:induction false} SectionsAreOrdered(held: set<Lock>, cs: seq<ConnId>, rest: seq<Action>)
    requires held <= {TransportLock} && Ordered(held, rest)
    ensures Ordered(held, ConnSections(cs) + rest)
    decreases |cs|
  {
    if cs == [] {
      assert ConnSections(cs) + rest == rest;
    } else {
      SectionsAreOrdered(held, cs[1..], rest);
      var tail := ConnSections(cs[1..]) + rest;
      SectionThen(held, cs[0], tail);
      assert ConnSections(cs) + rest == ConnSection(cs[0]) + tail;
    }
  }

  lemma {:induction false} SectionThen(held: set<Lock>, c: ConnId, tail: seq<Action>)
    requires held <= {TransportLock} && Ordered(held, tail)
    ensures Ordered(held, ConnSection(c) + tail)
  {
    var all := ConnSection(c) + tail;
    assert all[1..][1..] == tail;
    assert all[0] == Acquire(ConnLock(c)) && all[1..][0] == Release(ConnLock(c));
    assert held + {ConnLock(c)} - {ConnLock(c)} == held;
    assert Ordered(held + {ConnLock(c)}, all[1..]);
  }

  lemma {:induction false} TransportSectionIsOrdered(cs: seq<ConnId>)
    ensures Ordered({}, TransportSection(cs))
  {
    var rest := [Release(TransportLock)];
    assert rest[1..] == [];
    assert {TransportLock} - {TransportLock} == {};
    assert Ordered({TransportLock}, rest);
    SectionsAreOrdered({TransportLock}, cs, rest);
    assert TransportSection(cs)[1..] == ConnSections(cs) + rest;
  }

  /** Every operation takes the transport lock before a connection lock, and one connection lock at a time. */
  lemma {:induction false} OperationsAreOrdered(op: Operation)
    ensures Ordered({}, Actions(op))
  {
    match op
    case PutDisabled(c) => TransportSectionIsOrdered([c]);
    case PutBroken(c) => TransportSectionIsOrdered([c]);
    case PutFull(c) => TransportSectionIsOrdered([c, c]);
    case PutKept(c) => TransportSectionIsOrdered([c]);
    case GetIdleConn(cs) => TransportSectionIsOrdered(cs);
    case CloseIdleConnections(cs) => TransportSectionIsOrdered(cs);
    case AltProto => TransportSectionIsOrdered([]);
    case CheckExpected(c) => AloneIsOrdered(c);
    case CloseConn(c) => AloneIsOrdered(c);
    case CountUp(c) => AloneIsOrdered(c);
    case CountDown(c) => AloneIsOrdered(c);
  }

  lemma {:induction false} AloneIsOrdered(c: ConnId)
    ensures Ordered({}, ConnSection(c))
  {
    SectionThen({}, c, []);
    assert ConnSection(c) + [] == ConnSection(c);
  }

  // ----- how often locks are taken -----

  function Times(actions: seq<Action>, l: Lock): nat {
    if actions == [] then 0 else (if actions[0] == Acquire(l) then 1 else 0) + Times(actions[1..], l)
  }

  lemma {:induction false} TimesAddUp(a: seq<Action>, b: seq<Action>, l: Lock)
    ensures Times(a + b, l) == Times(a, l) + Times(b, l)
  {
    if a == [] {
      assert a + b == b;
    } else {
      assert (a + b)[1..] == a[1..] + b;
      TimesAddUp(a[1..], b, l);
    }
  }

  lemma {:induction false} TimesInSections(cs: seq<ConnId>, c: ConnId)
    ensures Times(ConnSections(cs), ConnLock(c)) == multiset(cs)[c]
    ensures Times(ConnSections(cs), TransportLock) == 0
  {
    if cs != [] {
      TimesInSection(cs[0], ConnLock(c));
      TimesInSection(cs[0], TransportLock);
      TimesAddUp(ConnSection(cs[0]), ConnSections(cs[1..]), ConnLock(c));
      TimesAddUp(ConnSection(cs[0]), ConnSections(cs[1..]), TransportLock);
      TimesInSections(cs[1..], c);
      assert cs == [cs[0]] + cs[1..];
    }
  }

  lemma {:induction false} TimesInSection(c: ConnId, l: Lock)
    ensures Times(ConnSection(c), l) == if l == ConnLock(c) then 1 else 0
  {
    var s := ConnSection(c);
    NoneInRelease(ConnLock(c), l);
    assert s[1..] == [Release(ConnLock(c))];
  }

  lemma {:induction false} NoneInRelease(held: Lock, l: Lock)
    ensures Times([Release(held)], l) == 0
  {
    var s := [Release(held)];
    assert s[1..] == [];
    assert Times(s[1..], l) == 0;
  }

  lemma {:induction false} TimesInTransportSection(cs: seq<ConnId>, c: ConnId)
    ensures Times(TransportSection(cs), ConnLock(c)) == multiset(cs)[c]
    ensures Times(TransportSection(cs), TransportLock) == 1
  {
    var last := [Release(TransportLock)];
    NoneInRelease(TransportLock, ConnLock(c));
    NoneInRelease(TransportLock, TransportLock);
    TimesInSections(cs, c);
    TimesAddUp(ConnSections(cs), last, ConnLock(c));
    TimesAddUp(ConnSections(cs), last, TransportLock);
    var all := TransportSection(cs);
    assert all[1..] == ConnSections(cs) + last && all[0] == Acquire(TransportLock);
    assert Times(all, TransportLock) == 1 + Times(all[1..], TransportLock);
    assert Times(all, ConnLock(c)) == 0 + Times(all[1..], ConnLock(c));
  }

  /** The connections whose locks are taken, each as often as it is. */
  function Locked(op: Operation): multiset<ConnId> {
    match op
    case GetIdleConn(cs) => multiset(cs)
    case CloseIdleConnections(cs) => multiset(cs)
    case PutFull(c) => multiset{c, c}
    case AltProto => multiset{}
    case _ => multiset{op.conn}
  }

  predicate OnPool(op: Operation) {
    !op.CheckExpected? && !op.CloseConn? && !op.CountUp? && !op.CountDown?
  }

  /**
   * Operations on the pool take the transport lock once, others not at all; a connection's lock is
   * taken once for each time that it is checked or closed or counted.
   */
  lemma {:induction false} LocksAreTaken(op: Operation, c: ConnId)
    ensures Times(Actions(op), TransportLock) == if OnPool(op) then 1 else 0
    ensures Times(Actions(op), ConnLock(c)) == Locked(op)[c]
  {
    match op
    case GetIdleConn(cs) => TimesInTransportSection(cs, c);
    case CloseIdleConnections(cs) => TimesInTransportSection(cs, c);
    case PutFull(d) => TimesInTransportSection([d, d], c);
    case AltProto => TimesInTransportSection([], c);
    case _ =>
      TimesInTransportSection([op.conn], c);
      TimesInSection(op.conn, ConnLock(c));
      TimesInSection(op.conn, TransportLock);
  }

  // ----- interleavings -----

  datatype Thread = Thread(held: set<Lock>, todo: seq<Action>)

  type State = map<ThreadId, Thread>

  datatype Step = Start(thread: ThreadId, op: Operation) | Act(thread: ThreadId)

  predicate Held(s: State, l: Lock) {
    exists t :: t in s && l in s[t].held
  }

  predicate Enabled(s: State, step: Step) {
    match step
    case Start(t, op) => t !in s || s[t].todo == []
    case Act(t) =>
      t in s && s[t].todo != [] && (s[t].todo[0].Acquire? ==> !Held(s, s[t].todo[0].lock))
  }

  function Apply(s: State, step: Step): State
    requires Enabled(s, step)
  {
    match step
    case Start(t, op) => s[t := Thread(if t in s then s[t].held else {}, Actions(op))]
    case Act(t) =>
      var l := s[t].todo[0].lock;
      s[t := Thread(if s[t].todo[0].Acquire? then s[t].held + {l} else s[t].held - {l}, s[t].todo[1..])]
  }

  predicate Run(s: State, steps: seq<Step>)
    decreases |steps|
  {
    steps == [] || (Enabled(s, steps[0]) && Run(Apply(s, steps[0]), steps[1..]))
  }

  function After(s: State, steps: seq<Step>): State
    requires Run(s, steps)
    decreases |steps|
  {
    if steps == [] then s else After(Apply(s, steps[0]), steps[1..])
  }

  ghost predicate Inv(s: State) {
    && (forall t :: t in s ==> Ordered(s[t].held, s[t].todo))
    && (forall t, u, l :: t in s && u in s && l in s[t].held && l in s[u].held ==> t == u)
  }

  lemma {:induction false} StepKeepsInv(s: State, step: Step)
    requires Inv(s) && Enabled(s, step)
    ensures Inv(Apply(s, step))
  {
    match step
    case Start(t, op) =>
      OperationsAreOrdered(op);
      assert t in s ==> Ordered(s[t].held, s[t].todo) && s[t].held == {};
    case Act(t) =>
      assert Ordered(s[t].held, s[t].todo);
      assert {} + {TransportLock} == {TransportLock};
  }

  lemma {:induction false} RunKeepsInv(s: State, steps: seq<Step>)
    requires Inv(s) && Run(s, steps)
    ensures Inv(After(s, steps))
    decreases |steps|
  {
    if steps != [] {
      StepKeepsInv(s, steps[0]);
      RunKeepsInv(Apply(s, steps[0]), steps[1..]);
    }
  }

  /** Thread t cannot go on before thread u releases a mutex. */
  predicate WaitsFor(s: State, t: ThreadId, u: ThreadId) {
    t in s && u in s && s[t].todo != [] && s[t].todo[0].Acquire? && s[t].todo[0].lock in s[u].held
  }

  /** A chain of waiting threads: each waits for the next. */
  predicate Chain(s: State, ts: seq<ThreadId>) {
    forall i :: 0 <= i < |ts| - 1 ==> WaitsFor(s, ts[i], ts[i + 1])
  }

  /** Whoever holds a connection lock is about to release it; whoever waits for the transport lock holds nothing. */
  lemma {:induction false} WaitingIsShallow(s: State, t: ThreadId, u: ThreadId, v: ThreadId)
    requires Inv(s) && WaitsFor(s, t, u) && WaitsFor(s, u, v)
    ensures s[t].todo[0].lock == TransportLock && s[t].held == {} && s[u].todo[0].lock.ConnLock?
  {
    HolderOfConnLockReleases(s[u].held, s[u].todo);
  }

  lemma {:induction false} HolderOfConnLockReleases(held: set<Lock>, todo: seq<Action>)
    requires Ordered(held, todo) && todo != [] && todo[0].Acquire?
    ensures held <= {TransportLock}
  {
  }

  /**
   * In every interleaving, no chain of threads waiting for each other's mutexes is longer than two
   * waits, so none closes into a cycle, of any length.
   */
  lemma {:induction false} NoMutexDeadlock(steps: seq<Step>, s: State, ts: seq<ThreadId>)
    requires Run(map[], steps) && After(map[], steps) == s && Chain(s, ts)
    ensures |ts| <= 3
    ensures |ts| >= 2 ==> ts[0] != ts[|ts| - 1]
  {
    RunKeepsInv(map[], steps);
    if |ts| >= 3 {
      assert WaitsFor(s, ts[0], ts[1]) && WaitsFor(s, ts[1], ts[2]);
      WaitingIsShallow(s, ts[0], ts[1], ts[2]);
      if |ts| > 3 {
        assert WaitsFor(s, ts[2], ts[3]);
        WaitingIsShallow(s, ts[1], ts[2], ts[3]);
      }
    } else if |ts| == 2 {
      assert WaitsFor(s, ts[0], ts[1]);
      if ts[0] == ts[1] {
        HolderOfConnLockReleases(s[ts[0]].held, s[ts[0]].todo);
      }
    }
  }

  /** As long as some thread is inside an operation, some thread can take its next action. */
  lemma {:induction false} SomeThreadCanAct(steps: seq<Step>, s: State, t: ThreadId)
    requires Run(map[], steps) && After(map[], steps) == s && t in s && s[t].todo != []
    ensures exists u :: Enabled(s, Act(u))
  {
    RunKeepsInv(map[], steps);
    if !Enabled(s, Act(t)) {
      var u :| u in s && s[t].todo[0].lock in s[u].held;
      if !Enabled(s, Act(u)) {
        var v :| v in s && s[u].todo[0].lock in s[v].held;
        assert WaitsFor(s, t, u) && WaitsFor(s, u, v);
        WaitingIsShallow(s, t, u, v);
        if !Enabled(s, Act(v)) {
          var w :| w in s && s[v].todo[0].lock in s[w].held;
          assert WaitsFor(s, v, w);
          WaitingIsShallow(s, u, v, w);
        }
      }
    }
  }
}
