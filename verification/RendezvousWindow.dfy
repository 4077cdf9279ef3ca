/**
 * The moment between the receive that lets the read loop go on and the clearing of the callback
 * behind it. `Protocol` has both in one step; here the clearing is a step of its own, which the
 * client of the body takes at its leisure. The lemmas say that this makes a difference exactly when
 * the read loop closes the body in between, and what happens then.
 */
module RendezvousWindow {
  import opened Options
  import opened ConnectMethods
  import opened Pool
  import opened Protocol
  import opened ProtocolInvariant
  import opened ProtocolTheorems
  import opened ProtocolWaiting
  import opened ProtocolLinks
  import opened ProtocolWitness

  /** `uncleared` are the bodies whose callback has run and is still set. */
  datatype Fine = Fine(s: State, uncleared: set<CallId>)

  datatype FineStep = Coarse(step: Step) | Clear(call: CallId)

  /** A client that has not cleared the callback is still inside its Read or Close. */
  ghost predicate FineEnabled(f: Fine, step: FineStep) {
    match step
    case Clear(x) => x in f.uncleared
    case Coarse(st) => Enabled(f.s, st) && (st.BodyEOF? || st.BodyClose? ==> st.call !in f.uncleared)
  }

  /** The read loop closes a body that nobody closed yet while its callback is still set. */
  predicate Races(f: Fine, step: FineStep) {
    && step.Coarse? && step.step.CloseLastBody? && step.step.ok && step.step.conn in f.s.conns
    && var y := f.s.conns[step.step.conn].lastBody;
       y.Some? && y.value in f.uncleared && y.value in f.s.calls && !f.s.calls[y.value].body.isClosed
  }

  /** The callback runs again, in the read loop: it offers the connection and waits for its own receive. */
  function FireAgain(s: State, c: ConnId): State
    requires c in s.conns && s.conns[c].lastBody.Some? && s.conns[c].lastBody.value in s.calls
  {
    var y := s.conns[c].lastBody.value;
    var b := s.calls[y].body;
    var (s1, kept) := PutIdle(s, c);
    var s2 := SetConn(s1, c, s1.conns[c].(alive := s1.conns[c].alive && kept, loop := Stuck));
    SetCall(s2, y, s2.calls[y].(body := b.(isClosed := true, fired := b.fired + 1)))
  }

  function FineApply(f: Fine, step: FineStep): Fine
    requires FineEnabled(f, step)
  {
    match step
    case Clear(x) => f.(uncleared := f.uncleared - {x})
    case Coarse(st) =>
      if Races(f, step) then f.(s := FireAgain(f.s, st.conn))
      else Fine(Apply(f.s, st), if st.Rendezvous? then f.uncleared + {f.s.conns[st.conn].loop.call} else f.uncleared)
  }

  ghost predicate FineRun(f: Fine, steps: seq<FineStep>)
    decreases |steps|
  {
    steps == [] || (FineEnabled(f, steps[0]) && FineRun(FineApply(f, steps[0]), steps[1..]))
  }

  function FineAfter(f: Fine, steps: seq<FineStep>): Fine
    requires FineRun(f, steps)
    decreases |steps|
  {
    if steps == [] then f else FineAfter(FineApply(f, steps[0]), steps[1..])
  }

  ghost predicate RaceFree(f: Fine, steps: seq<FineStep>)
    requires FineRun(f, steps)
    decreases |steps|
  {
    steps == [] || (!Races(f, steps[0]) && RaceFree(FineApply(f, steps[0]), steps[1..]))
  }

  // ----- the runs of the protocol are those without a race -----

  lemma {:induction false} FineRunStep(f: Fine, step: FineStep, rest: seq<FineStep>)
    requires FineEnabled(f, step) && FineRun(FineApply(f, step), rest)
    ensures FineRun(f, [step] + rest) && FineAfter(f, [step] + rest) == FineAfter(FineApply(f, step), rest)
    ensures RaceFree(f, [step] + rest) <==> !Races(f, step) && RaceFree(FineApply(f, step), rest)
  {
    assert ([step] + rest)[1..] == rest;
  }

  /** Every run of the protocol is one in which each callback is cleared at once. */
  lemma {:induction false} RunsAreRaceFree(s: State, steps: seq<Step>) returns (fine: seq<FineStep>)
    requires Run(s, steps)
    ensures FineRun(Fine(s, {}), fine) && RaceFree(Fine(s, {}), fine)
    ensures FineAfter(Fine(s, {}), fine) == Fine(After(s, steps), {})
    decreases |steps|
  {
    if steps == [] {
      fine := [];
    } else {
      var st := steps[0];
      fine := RunsAreRaceFree(Apply(s, st), steps[1..]);
      var f1 := FineApply(Fine(s, {}), Coarse(st));
      if st.Rendezvous? {
        var x := s.conns[st.conn].loop.call;
        assert FineApply(f1, Clear(x)) == Fine(Apply(s, st), {});
        FineRunStep(f1, Clear(x), fine);
        fine := [Clear(x)] + fine;
      }
      FineRunStep(Fine(s, {}), Coarse(st), fine);
      fine := [Coarse(st)] + fine;
    }
  }

  /** And without a race the protocol takes the same steps, whenever the callbacks are cleared. */
  lemma {:induction false} RaceFreeIsRun(f: Fine, fine: seq<FineStep>) returns (steps: seq<Step>)
    requires FineRun(f, fine) && RaceFree(f, fine)
    ensures Run(f.s, steps) && After(f.s, steps) == FineAfter(f, fine).s
    decreases |fine|
  {
    if fine == [] {
      steps := [];
    } else {
      var rest := RaceFreeIsRun(FineApply(f, fine[0]), fine[1..]);
      if fine[0].Clear? {
        steps := rest;
      } else {
        steps := [fine[0].step] + rest;
        assert steps[1..] == rest;
      }
    }
  }

  // ----- a second run of the callback -----

  /** The callback of a body that is not cleared has run once. */
  ghost predicate HasRun(s: State, x: CallId) {
    x in s.calls && s.calls[x].body.conn.Some? && !s.calls[x].body.callback.Attached? && s.calls[x].body.fired == 1
  }

  ghost predicate FineInv(f: Fine) {
    forall x :: x in f.uncleared ==> HasRun(f.s, x)
  }

  lemma {:induction false} RendezvousHasRun(s: State, pl: Places, c: ConnId)
    requires Inv(s, pl) && Enabled(s, Rendezvous(c))
    ensures HasRun(DoRendezvous(s, c), s.conns[c].loop.call)
  {
    assert CallInv(s, pl, s.conns[c].loop.call);
  }

  lemma {:induction false} HasRunStays(s: State, pl: Places, step: Step, x: CallId)
    requires Inv(s, pl) && Enabled(s, step) && HasRun(s, x)
    ensures HasRun(Apply(s, step), x)
  {
    StepUses(s, pl, step, x);
    var uses := UsesOf(s, step, x);
    if uses != [] {
      OneUse(SignalOf(s.calls[x].body), uses[0]);
      assert uses == [uses[0]];
    }
  }

  lemma {:induction false} FineStepKeeps(f: Fine, pl: Places, step: FineStep) returns (pl': Places)
    requires Inv(f.s, pl) && FineInv(f) && FineEnabled(f, step) && !Races(f, step)
    ensures Inv(FineApply(f, step).s, pl') && FineInv(FineApply(f, step))
  {
    pl' := pl;
    if step.Coarse? {
      pl' := StepKeeps(f.s, pl, step.step);
      forall x | x in f.uncleared
        ensures HasRun(Apply(f.s, step.step), x)
      {
        HasRunStays(f.s, pl, step.step, x);
      }
      if step.step.Rendezvous? {
        RendezvousHasRun(f.s, pl, step.step.conn);
      }
    }
  }

  lemma {:induction false} RaceFiresAgain(f: Fine, step: FineStep)
    requires FineInv(f) && FineEnabled(f, step) && Races(f, step)
    ensures var c := step.step.conn;
            var y := f.s.conns[c].lastBody.value;
            var s' := FineApply(f, step).s;
            && y in s'.calls && s'.calls[y].body.fired == 2 && s'.calls[y].body.isClosed
            && c in s'.conns && s'.conns[c].loop.Stuck?
            && s'.pool == PutIdle(f.s, c).0.pool
            && (s'.conns[c].alive <==> f.s.conns[c].alive && PutIdle(f.s, c).1)
  {
    assert HasRun(f.s, f.s.conns[step.step.conn].lastBody.value);
  }

  ghost predicate FiredOnce(s: State) {
    forall x :: x in s.calls ==> s.calls[x].body.fired <= 1
  }

  /** No callback has run twice, here and after each of the steps. */
  ghost predicate AlwaysFiredOnce(f: Fine, steps: seq<FineStep>)
    requires FineRun(f, steps)
    decreases |steps|
  {
    FiredOnce(f.s) && (steps == [] || AlwaysFiredOnce(FineApply(f, steps[0]), steps[1..]))
  }

  lemma {:induction false} InvFiredOnce(s: State, pl: Places)
    requires Inv(s, pl)
    ensures FiredOnce(s)
  {
    forall x | x in s.calls
      ensures s.calls[x].body.fired <= 1
    {
      assert CallInv(s, pl, x);
    }
  }

  lemma {:induction false} FiredOnceFrom(f: Fine, pl: Places, steps: seq<FineStep>)
    requires Inv(f.s, pl) && FineInv(f) && FineRun(f, steps)
    ensures AlwaysFiredOnce(f, steps) <==> RaceFree(f, steps)
    decreases |steps|
  {
    InvFiredOnce(f.s, pl);
    if steps != [] {
      if Races(f, steps[0]) {
        RaceFiresAgain(f, steps[0]);
      } else {
        var pl' := FineStepKeeps(f, pl, steps[0]);
        FiredOnceFrom(FineApply(f, steps[0]), pl', steps[1..]);
      }
    }
  }

  /**
   * Exactly when callbacks run at most once: when the read loop never closes a body, by nobody
   * closed yet, before its client has cleared the callback that let the loop go on.
   */
  lemma {:induction false} CallbackRunsOnceExactlyWithoutRace(cfg: Config, steps: seq<FineStep>)
    requires FineRun(Fine(Init(cfg), {}), steps)
    ensures AlwaysFiredOnce(Fine(Init(cfg), {}), steps) <==> RaceFree(Fine(Init(cfg), {}), steps)
  {
    InitHolds(cfg);
    FiredOnceFrom(Fine(Init(cfg), {}), map[], steps);
  }

  // ----- clients that close -----

  /** Callbacks run in Close only: whoever meets EOF has closed before, or has no callback. */
  ghost predicate OnlyCloseFires(f: Fine, steps: seq<FineStep>)
    requires FineRun(f, steps)
    decreases |steps|
  {
    steps == []
    || (&& (steps[0].Coarse? && steps[0].step.BodyEOF? ==> !f.s.calls[steps[0].step.call].body.callback.Attached?)
        && OnlyCloseFires(FineApply(f, steps[0]), steps[1..]))
  }

  predicate ClosedIfFired(call: Call, uncleared: bool) {
    uncleared || call.body.callback.Signalling? ==> call.body.isClosed
  }

  ghost predicate FiredAreClosed(f: Fine) {
    forall x :: x in f.s.calls ==> ClosedIfFired(f.s.calls[x], x in f.uncleared)
  }

  lemma {:induction false} ClosedStays(s: State, pl: Places, step: Step, x: CallId)
    requires Inv(s, pl) && Enabled(s, step) && x in s.calls && s.calls[x].body.conn.Some? && s.calls[x].body.isClosed
    ensures x in Apply(s, step).calls && Apply(s, step).calls[x].body.isClosed
  {
    StepUses(s, pl, step, x);
    var uses := UsesOf(s, step, x);
    if uses != [] {
      OneUse(SignalOf(s.calls[x].body), uses[0]);
      assert uses == [uses[0]];
    }
  }

  /** The client is in a callback that it was not in before: it is in its Read or in its Close. */
  lemma {:induction false} SignalsFromClose(s: State, step: Step, x: CallId)
    requires Enabled(s, step) && x in Apply(s, step).calls && Apply(s, step).calls[x].body.callback.Signalling?
    requires x in s.calls ==> !s.calls[x].body.callback.Signalling?
    ensures x in s.calls && s.calls[x].body.callback.Attached?
    ensures step == BodyEOF(x) || (step.BodyClose? && step.call == x && Apply(s, step).calls[x].body.isClosed)
  {
    if step.BodyEOF? || step.BodyClose? {
      BodyKeepsOthers(s, step.call, step.BodyClose? ==> step.ok);
    } else {
      OthersDoNotSignal(s, step, x);
    }
  }

  lemma {:induction false} OthersDoNotSignal(s: State, step: Step, x: CallId)
    requires Enabled(s, step) && !step.BodyEOF? && !step.BodyClose?
    requires x in Apply(s, step).calls && Apply(s, step).calls[x].body.callback.Signalling?
    ensures x in s.calls && s.calls[x].body.callback.Signalling?
  {
    if step.Repool? {
      PoolKeepsOthers(s, step.conn);
    }
  }

  lemma {:induction false} FiredStayClosed(f: Fine, pl: Places, step: FineStep)
    requires Inv(f.s, pl) && FineInv(f) && FiredAreClosed(f) && FineEnabled(f, step) && !Races(f, step) && step.Coarse?
    requires step.step.BodyEOF? ==> !f.s.calls[step.step.call].body.callback.Attached?
    ensures FiredAreClosed(FineApply(f, step))
  {
    var s, s', f' := f.s, Apply(f.s, step.step), FineApply(f, step);
    forall x | x in s'.calls && (x in f'.uncleared || s'.calls[x].body.callback.Signalling?)
      ensures s'.calls[x].body.isClosed
    {
      if x in s.calls && (x in f.uncleared || s.calls[x].body.callback.Signalling?) {
        assert ClosedIfFired(s.calls[x], x in f.uncleared);
        assert CallInv(s, pl, x);
        ClosedStays(s, pl, step.step, x);
      } else {
        SignalsFromClose(s, step.step, x);
      }
    }
  }

  lemma {:induction false} ClosedRaceFree(f: Fine, pl: Places, steps: seq<FineStep>)
    requires Inv(f.s, pl) && FineInv(f) && FiredAreClosed(f) && FineRun(f, steps) && OnlyCloseFires(f, steps)
    ensures RaceFree(f, steps)
    decreases |steps|
  {
    if steps != [] {
      if steps[0].Coarse? && steps[0].step.CloseLastBody? && f.s.conns[steps[0].step.conn].lastBody.Some? {
        var y := f.s.conns[steps[0].step.conn].lastBody.value;
        assert y in f.s.calls ==> ClosedIfFired(f.s.calls[y], y in f.uncleared);
      }
      var pl' := FineStepKeeps(f, pl, steps[0]);
      if steps[0].Coarse? {
        FiredStayClosed(f, pl, steps[0]);
      } else {
        forall x | x in f.s.calls
          ensures ClosedIfFired(f.s.calls[x], x in f.uncleared - {steps[0].call})
        {
          assert ClosedIfFired(f.s.calls[x], x in f.uncleared);
        }
      }
      ClosedRaceFree(FineApply(f, steps[0]), pl', steps[1..]);
    }
  }

  /** What clients can do: as long as every body is closed before it is read to its end, there is no race. */
  lemma {:induction false} ClosingPreventsRaces(cfg: Config, steps: seq<FineStep>)
    requires FineRun(Fine(Init(cfg), {}), steps) && OnlyCloseFires(Fine(Init(cfg), {}), steps)
    ensures RaceFree(Fine(Init(cfg), {}), steps) && AlwaysFiredOnce(Fine(Init(cfg), {}), steps)
  {
    InitHolds(cfg);
    ClosedRaceFree(Fine(Init(cfg), {}), map[], steps);
    CallbackRunsOnceExactlyWithoutRace(cfg, steps);
  }

  // ----- loops that wait for themselves -----

  ghost predicate NoneStuck(s: State) {
    forall c :: c in s.conns ==> !s.conns[c].loop.Stuck?
  }

  ghost predicate NeverStuck(f: Fine, steps: seq<FineStep>)
    requires FineRun(f, steps)
    decreases |steps|
  {
    NoneStuck(f.s) && (steps == [] || NeverStuck(FineApply(f, steps[0]), steps[1..]))
  }

  lemma {:induction false} InvNoneStuck(s: State, pl: Places)
    requires Inv(s, pl)
    ensures NoneStuck(s)
  {
    forall c | c in s.conns
      ensures !s.conns[c].loop.Stuck?
    {
      assert ConnInv(s, pl, c);
    }
  }

  lemma {:induction false} NeverStuckFrom(f: Fine, pl: Places, steps: seq<FineStep>)
    requires Inv(f.s, pl) && FineInv(f) && FineRun(f, steps)
    ensures NeverStuck(f, steps) <==> RaceFree(f, steps)
    decreases |steps|
  {
    InvNoneStuck(f.s, pl);
    if steps != [] {
      if Races(f, steps[0]) {
        RaceFiresAgain(f, steps[0]);
      } else {
        var pl' := FineStepKeeps(f, pl, steps[0]);
        NeverStuckFrom(FineApply(f, steps[0]), pl', steps[1..]);
      }
    }
  }

  /** The same races, and only they, make a read loop wait for itself. */
  lemma {:induction false} LoopsWaitForThemselvesExactlyAfterRaces(cfg: Config, steps: seq<FineStep>)
    requires FineRun(Fine(Init(cfg), {}), steps)
    ensures NeverStuck(Fine(Init(cfg), {}), steps) <==> RaceFree(Fine(Init(cfg), {}), steps)
  {
    InitHolds(cfg);
    NeverStuckFrom(Fine(Init(cfg), {}), map[], steps);
  }

  // ----- who can return -----

  ghost predicate FineCanReturn(f: Fine, x: CallId) {
    exists more :: FineRun(f, more) && x in FineAfter(f, more).s.calls && FineAfter(f, more).s.calls[x].stage.Returned?
  }

  lemma {:induction false} FireAgainSpares(s: State, d: ConnId, x: CallId, c: ConnId)
    requires Lost(s, x, c) && d in s.conns && s.conns[d].loop.GotRequest?
    requires s.conns[d].lastBody.Some? && s.conns[d].lastBody.value in s.calls
    ensures Lost(FireAgain(s, d), x, c)
  {
  }

  lemma {:induction false} FineLostForEver(f: Fine, more: seq<FineStep>, x: CallId, c: ConnId)
    requires Lost(f.s, x, c) && FineRun(f, more)
    ensures Lost(FineAfter(f, more).s, x, c)
    decreases |more|
  {
    if more != [] {
      if Races(f, more[0]) {
        FireAgainSpares(f.s, more[0].step.conn, x, c);
      } else if more[0].Coarse? {
        LostStays(f.s, more[0].step, x, c);
      }
      FineLostForEver(FineApply(f, more[0]), more[1..], x, c);
    }
  }

  /** The clients clear all callbacks. */
  lemma {:induction false} AllCleared(s: State, uncleared: set<CallId>) returns (steps: seq<FineStep>)
    ensures FineLeads(Fine(s, uncleared), steps, Fine(s, {}))
    decreases |uncleared|
  {
    if uncleared == {} {
      steps := [];
    } else {
      var x :| x in uncleared;
      steps := AllCleared(s, uncleared - {x});
      FineRunStep(Fine(s, uncleared), Clear(x), steps);
      steps := [Clear(x)] + steps;
    }
  }

  /**
   * Exactly who can return when callbacks are cleared at leisure. The continuations may race, the
   * run so far did not: what a race leaves behind is never answered, as `RaceFiresTwice` shows.
   */
  lemma {:induction false} FineReturnsUnlessTheLoopEnded(cfg: Config, steps: seq<FineStep>, f: Fine, x: CallId)
    requires FineLeads(Fine(Init(cfg), {}), steps, f) && RaceFree(Fine(Init(cfg), {}), steps)
    requires x in f.s.calls && f.s.calls[x].stage.Waiting?
    ensures f.s.calls[x].stage.conn in f.s.conns
    ensures FineCanReturn(f, x) <==> f.s.calls[x].sent != [] || !f.s.conns[f.s.calls[x].stage.conn].loop.Exited?
  {
    var coarse := RaceFreeIsRun(Fine(Init(cfg), {}), steps);
    ReturnsUnlessTheLoopEnded(cfg, coarse, f.s, x);
    var c := f.s.calls[x].stage.conn;
    if CanReturn(f.s, x) {
      var more :| Run(f.s, more) && x in After(f.s, more).calls && After(f.s, more).calls[x].stage.Returned?;
      var a := AllCleared(f.s, f.uncleared);
      var b := RunsAreRaceFree(f.s, more);
      FineJoined(f, a, Fine(f.s, {}), b, Fine(After(f.s, more), {}));
      assert FineRun(f, a + b) && FineAfter(f, a + b).s == After(f.s, more);
    } else {
      var pl := ReachedHasPlaces(cfg, coarse, f.s);
      EndedIsLost(f.s, pl, x, c);
      LostCannotReturn(f, x, c);
    }
  }

  // ----- a run with a race -----

  const BODIED := Reply(Some(Response(0, true)), false)

  function Consumer(cm: ConnectMethod, callback: Callback, isClosed: bool, fired: nat): Call {
    Call(cm, Returned(BODIED), [BODIED], 1, Body(Some(0), callback, isClosed, fired))
  }

  /** Round trip 0 has returned with a body; the read loop waits until it is consumed. */
  function Bodied(cfg: Config, cm: ConnectMethod): State {
    State(cfg, Some(map[]),
          map[0 := NewConn(cm).(loop := AwaitBody(0), lastBody := Some(0), written := [0], parsed := 1)],
          map[0 := Consumer(cm, Attached(0), false, 0)], false)
  }

  /** Its client met EOF and is in the callback; the connection is in the pool and the read loop goes on. */
  function LetGo(cfg: Config, cm: ConnectMethod): State {
    State(cfg, Some(map[Key(cm) := [0]]),
          map[0 := NewConn(cm).(lastBody := Some(0), written := [0], parsed := 1)],
          map[0 := Consumer(cm, NoCallback, false, 1)], false)
  }

  /** Round trip 1 got the connection, and the read loop has its request. */
  function AskedAgain(cfg: Config, cm: ConnectMethod): State {
    State(cfg, Some(map[]),
          map[0 := NewConn(cm).(numExpected := 1, loop := GotRequest(1), lastBody := Some(0),
                                written := [0, 1], parsed := 1)],
          map[0 := Consumer(cm, NoCallback, false, 1), 1 := NewCall(cm, Waiting(0))], false)
  }

  /** The read loop closed the body, and the callback ran a second time. */
  function FiredTwice(cfg: Config, cm: ConnectMethod): State {
    State(cfg, Some(map[Key(cm) := [0]]),
          map[0 := NewConn(cm).(numExpected := 1, loop := Stuck, lastBody := Some(0), written := [0, 1], parsed := 1)],
          map[0 := Consumer(cm, NoCallback, true, 2), 1 := NewCall(cm, Waiting(0))], false)
  }

  ghost predicate Leads(s: State, steps: seq<Step>, end: State) {
    Run(s, steps) && After(s, steps) == end
  }

  lemma {:induction false} Then(s: State, steps: seq<Step>, mid: State, step: Step) returns (more: seq<Step>)
    requires Leads(s, steps, mid) && Enabled(mid, step)
    ensures Leads(s, more, Apply(mid, step)) && more == steps + [step]
  {
    RunStep(mid, step, [], Apply(mid, step));
    Joined(s, steps, [step] + []);
    assert [step] + [] == [step];
    more := steps + [step];
  }

  /** The read loop has read the head of the response, and round trip 0 waits. */
  function HeadRead(cfg: Config, cm: ConnectMethod): State {
    State(cfg, Some(map[]),
          map[0 := NewConn(cm).(numExpected := 1, loop := Replying(0, BODIED, true), lastBody := Some(0),
                                written := [0], parsed := 1)],
          map[0 := Call(cm, Waiting(0), [], 0, Body(Some(0), Attached(0), false, 0))], false)
  }

  lemma {:induction false} ReadingHead(cfg: Config, cm: ConnectMethod) returns (steps: seq<Step>)
    ensures Leads(Asked(cfg, cm), steps, HeadRead(cfg, cm))
  {
    var s0 := Asked(cfg, cm);
    steps := Then(s0, [], s0, CheckExpected(0));
    var s1 := DoCheckExpected(s0, 0);
    steps := Then(s0, steps, s1, Dequeue(0));
    var s2 := DoDequeue(s1, 0);
    assert s2.conns[0].reqch == [];
    steps := Then(s0, steps, s2, CloseLastBody(0, true));
    var s3 := DoCloseLastBody(s2, 0, true);
    steps := Then(s0, steps, s3, ReadResponse(0, true, false));
    var s4 := DoReadResponse(s3, 0, true, false);
    assert s4.conns == HeadRead(cfg, cm).conns && s4.calls == HeadRead(cfg, cm).calls;
  }

  lemma {:induction false} Returning(cfg: Config, cm: ConnectMethod) returns (steps: seq<Step>)
    ensures Leads(HeadRead(cfg, cm), steps, Bodied(cfg, cm))
  {
    var s0 := HeadRead(cfg, cm);
    steps := Then(s0, [], s0, SendReply(0));
    var s1 := DoSendReply(s0, 0);
    assert s1.calls[0].sent == [BODIED];
    steps := Then(s0, steps, s1, ReceiveReply(0));
    var s2 := DoReceiveReply(s1, 0);
    steps := Then(s0, steps, s2, Decrement(0));
    var s3 := DoDecrement(s2, 0);
    assert s3.conns == Bodied(cfg, cm).conns && s3.calls == Bodied(cfg, cm).calls;
  }

  lemma {:induction false} Consumed(cfg: Config, cm: ConnectMethod) returns (steps: seq<FineStep>)
    requires KeepsConnections(cfg)
    ensures FineRun(Fine(Bodied(cfg, cm), {}), steps)
    ensures FineAfter(Fine(Bodied(cfg, cm), {}), steps) == Fine(LetGo(cfg, cm), {0})
  {
    var f0 := Fine(Bodied(cfg, cm), {});
    var f1 := FineApply(f0, Coarse(BodyEOF(0)));
    assert IdleList(map[], Key(cm)) + [0] == [0];
    assert Idle(f1.s) == map[Key(cm) := [0]];
    var f2 := FineApply(f1, Coarse(Rendezvous(0)));
    assert f2.s.conns == LetGo(cfg, cm).conns && f2.s.calls == LetGo(cfg, cm).calls;
    assert f2.uncleared == {0};
    FineRunStep(f1, Coarse(Rendezvous(0)), []);
    FineRunStep(f0, Coarse(BodyEOF(0)), [Coarse(Rendezvous(0))] + []);
    steps := [Coarse(BodyEOF(0))] + ([Coarse(Rendezvous(0))] + []);
  }

  /** Round trip 1 holds the connection. */
  function TakenAgain(cfg: Config, cm: ConnectMethod): State {
    State(cfg, Some(map[]),
          map[0 := NewConn(cm).(lastBody := Some(0), written := [0], parsed := 1)],
          map[0 := Consumer(cm, NoCallback, false, 1), 1 := NewCall(cm, Holding(0))], false)
  }

  /** Steps in which no body is used. */
  predicate Quiet(steps: seq<Step>) {
    forall st :: st in steps ==> !st.Rendezvous? && !st.BodyEOF? && !st.BodyClose? && !st.CloseLastBody?
  }

  lemma {:induction false} TakingAgain(cfg: Config, cm: ConnectMethod) returns (steps: seq<Step>)
    ensures Leads(LetGo(cfg, cm), steps, TakenAgain(cfg, cm)) && Quiet(steps)
  {
    var s0 := LetGo(cfg, cm);
    steps := Then(s0, [], s0, Begin(1, cm));
    var s1 := DoBegin(s0, 1, cm);
    assert LiveTop([0], Broken(s1)) == 0;
    assert Take(Idle(s1), Key(cm), Broken(s1)) == TakeResult(map[], Some(0));
    steps := Then(s0, steps, s1, TakeIdle(1));
    var s2 := DoTakeIdle(s1, 1);
    assert s2.conns == TakenAgain(cfg, cm).conns && s2.calls == TakenAgain(cfg, cm).calls;
  }

  lemma {:induction false} AskingAgain(cfg: Config, cm: ConnectMethod) returns (steps: seq<Step>)
    ensures Leads(TakenAgain(cfg, cm), steps, AskedAgain(cfg, cm)) && Quiet(steps)
  {
    var s0 := TakenAgain(cfg, cm);
    steps := Then(s0, [], s0, Increment(1));
    var s1 := DoIncrement(s0, 1);
    steps := Then(s0, steps, s1, WriteRequest(1));
    var s2 := DoWriteRequest(s1, 1);
    assert s2.conns[0].written == [0, 1];
    steps := Then(s0, steps, s2, Enqueue(1));
    var s3 := DoEnqueue(s2, 1);
    assert s3.conns[0].reqch == [1];
    steps := Then(s0, steps, s3, CheckExpected(0));
    var s4 := DoCheckExpected(s3, 0);
    steps := Then(s0, steps, s4, Dequeue(0));
    var s5 := DoDequeue(s4, 0);
    assert s5.conns[0].reqch == [];
    assert s5.conns == AskedAgain(cfg, cm).conns && s5.calls == AskedAgain(cfg, cm).calls;
  }

  ghost predicate FineLeads(f: Fine, steps: seq<FineStep>, end: Fine) {
    FineRun(f, steps) && FineAfter(f, steps) == end
  }

  lemma {:induction false} QuietIsFine(s: State, steps: seq<Step>, uncleared: set<CallId>) returns (fine: seq<FineStep>)
    requires Run(s, steps) && Quiet(steps)
    ensures FineLeads(Fine(s, uncleared), fine, Fine(After(s, steps), uncleared))
    decreases |steps|
  {
    if steps == [] {
      fine := [];
    } else {
      assert steps[0] in steps;
      fine := QuietIsFine(Apply(s, steps[0]), steps[1..], uncleared);
      FineRunStep(Fine(s, uncleared), Coarse(steps[0]), fine);
      fine := [Coarse(steps[0])] + fine;
    }
  }

  lemma {:induction false} FineJoined(f: Fine, first: seq<FineStep>, mid: Fine, second: seq<FineStep>, end: Fine)
    requires FineLeads(f, first, mid) && FineLeads(mid, second, end)
    ensures FineLeads(f, first + second, end)
    decreases |first|
  {
    if first == [] {
      assert first + second == second;
    } else {
      FineJoined(FineApply(f, first[0]), first[1..], mid, second, end);
      assert (first + second)[1..] == first[1..] + second;
    }
  }

  lemma {:induction false} Racing(cfg: Config, cm: ConnectMethod)
    requires KeepsConnections(cfg)
    ensures var f, race := Fine(AskedAgain(cfg, cm), {0}), Coarse(CloseLastBody(0, true));
            Races(f, race) && FineLeads(f, [race], Fine(FiredTwice(cfg, cm), {0}))
  {
    var f, race := Fine(AskedAgain(cfg, cm), {0}), Coarse(CloseLastBody(0, true));
    assert IdleList(map[], Key(cm)) + [0] == [0];
    var s' := FireAgain(f.s, 0);
    assert s'.conns == FiredTwice(cfg, cm).conns && s'.calls == FiredTwice(cfg, cm).calls;
    FineRunStep(f, race, []);
    assert [race] + [] == [race];
  }

  /** From the first request to the moment when the read loop has the second one. */
  lemma {:induction false} BeforeTheRace(cfg: Config, cm: ConnectMethod) returns (steps: seq<FineStep>)
    requires KeepsConnections(cfg)
    ensures FineLeads(Fine(Bodied(cfg, cm), {}), steps, Fine(AskedAgain(cfg, cm), {0}))
  {
    var a := Consumed(cfg, cm);
    var b := TakingAgain(cfg, cm);
    var c := AskingAgain(cfg, cm);
    var b' := QuietIsFine(LetGo(cfg, cm), b, {0});
    var c' := QuietIsFine(TakenAgain(cfg, cm), c, {0});
    FineJoined(Fine(LetGo(cfg, cm), {0}), b', Fine(TakenAgain(cfg, cm), {0}), c', Fine(AskedAgain(cfg, cm), {0}));
    FineJoined(Fine(Bodied(cfg, cm), {}), a, Fine(LetGo(cfg, cm), {0}), b' + c', Fine(AskedAgain(cfg, cm), {0}));
    steps := a + (b' + c');
  }

  lemma {:induction false} ToBody(cfg: Config, cm: ConnectMethod) returns (steps: seq<FineStep>)
    ensures FineLeads(Fine(Init(cfg), {}), steps, Fine(Bodied(cfg, cm), {}))
  {
    var a := Dialling(cfg, cm);
    var b := Asking(cfg, cm);
    var c := ReadingHead(cfg, cm);
    var d := Returning(cfg, cm);
    Joined(Asked(cfg, cm), c, d);
    Joined(Dialled(cfg, cm), b, c + d);
    Joined(Init(cfg), a, b + (c + d));
    steps := RunsAreRaceFree(Init(cfg), a + (b + (c + d)));
  }

  lemma {:induction false} ThroughTheRace(cfg: Config, cm: ConnectMethod) returns (steps: seq<FineStep>)
    requires KeepsConnections(cfg)
    ensures FineLeads(Fine(Init(cfg), {}), steps, Fine(FiredTwice(cfg, cm), {0}))
  {
    var a := ToBody(cfg, cm);
    var b := BeforeTheRace(cfg, cm);
    Racing(cfg, cm);
    var race, f := [Coarse(CloseLastBody(0, true))], Fine(FiredTwice(cfg, cm), {0});
    FineJoined(Fine(Bodied(cfg, cm), {}), b, Fine(AskedAgain(cfg, cm), {0}), race, f);
    FineJoined(Fine(Init(cfg), {}), a, Fine(Bodied(cfg, cm), {}), b + race, f);
    steps := a + (b + race);
  }

  /**
   * A run with a race, from the start: the client meets EOF, the connection is pooled and taken
   * again, and the read loop closes the body before the client has cleared the callback. Then the
   * callback has run twice, the connection is in the pool although its request is unanswered, its
   * read loop waits for itself, and so does the second round trip for its reply, for ever.
   */
  lemma {:induction false} RaceFiresTwice(cfg: Config, cm: ConnectMethod) returns (steps: seq<FineStep>, f: Fine)
    requires KeepsConnections(cfg)
    ensures FineLeads(Fine(Init(cfg), {}), steps, f) && !RaceFree(Fine(Init(cfg), {}), steps)
    ensures f.s.calls.Keys == {0, 1} && f.s.calls[0].body.fired == 2
    ensures f.s.conns.Keys == {0} && f.s.conns[0].loop.Stuck? && Listed(Idle(f.s), Key(cm), 0)
    ensures f.s.calls[1].stage == Waiting(0) && f.s.calls[1].sent == [] && !FineCanReturn(f, 1)
  {
    steps := ThroughTheRace(cfg, cm);
    f := Fine(FiredTwice(cfg, cm), {0});
    LostCannotReturn(f, 1, 0);
    assert f.s.calls[0].body.fired == 2;
    FiredTwiceIsNotRaceFree(cfg, steps, 0);
  }

  lemma {:induction false} LostCannotReturn(f: Fine, x: CallId, c: ConnId)
    requires Lost(f.s, x, c)
    ensures !FineCanReturn(f, x)
  {
    if FineCanReturn(f, x) {
      var more :| FineRun(f, more) && x in FineAfter(f, more).s.calls
                  && FineAfter(f, more).s.calls[x].stage.Returned?;
      FineLostForEver(f, more, x, c);
    }
  }

  lemma {:induction false} FiredTwiceIsNotRaceFree(cfg: Config, steps: seq<FineStep>, x: CallId)
    requires FineRun(Fine(Init(cfg), {}), steps)
    requires var s := FineAfter(Fine(Init(cfg), {}), steps).s; x in s.calls && s.calls[x].body.fired > 1
    ensures !RaceFree(Fine(Init(cfg), {}), steps)
  {
    if RaceFree(Fine(Init(cfg), {}), steps) {
      CallbackRunsOnceExactlyWithoutRace(cfg, steps);
      LastIsFiredOnce(Fine(Init(cfg), {}), steps);
    }
  }

  lemma {:induction false} LastIsFiredOnce(f: Fine, steps: seq<FineStep>)
    requires FineRun(f, steps) && AlwaysFiredOnce(f, steps)
    ensures FiredOnce(FineAfter(f, steps).s)
    decreases |steps|
  {
    if steps != [] {
      LastIsFiredOnce(FineApply(f, steps[0]), steps[1..]);
    }
  }
}
