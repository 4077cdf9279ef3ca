/**
 * Read loops of connections that are out of use. They should end; but a write error leaves the
 * count up, and a loop that has passed its check of the count waits for a request that nobody
 * sends. The lemmas say exactly which of them can still end.
 */
module ProtocolEnding {
  import opened Pool
  import opened Protocol
  import opened ProtocolInvariant
  import opened ProtocolTheorems
  import opened ProtocolWaiting

  ghost predicate GaveUpOn(s: State, c: ConnId) {
    exists x :: x in s.calls && s.calls[x].stage == Abandoned(c)
  }

  /** Waiting for a request, or bound to do so because the count will never be zero. */
  ghost predicate CannotEnd(s: State, c: ConnId)
    requires c in s.conns
  {
    s.conns[c].loop.AwaitRequest? || (s.conns[c].alive && GaveUpOn(s, c))
  }

  ghost predicate LoopCanEnd(s: State, c: ConnId) {
    exists more :: Run(s, more) && c in After(s, more).conns && After(s, more).conns[c].loop.Exited?
  }

  lemma {:induction false} StepThenEnd(s: State, step: Step, c: ConnId)
    requires Enabled(s, step) && LoopCanEnd(Apply(s, step), c)
    ensures LoopCanEnd(s, c)
  {
    var more :| Run(Apply(s, step), more) && c in After(Apply(s, step), more).conns
                && After(Apply(s, step), more).conns[c].loop.Exited?;
    assert ([step] + more)[1..] == more;
    assert Run(s, [step] + more);
  }

  lemma {:induction false} HasEnded(s: State, c: ConnId)
    requires c in s.conns && s.conns[c].loop.Exited?
    ensures LoopCanEnd(s, c)
  {
    assert Run(s, []) && After(s, []) == s;
  }

  // ----- loops that cannot end -----

  /** The steps that move the read loop of a connection out of use. */
  predicate Moves(step: Step, c: ConnId) {
    step == CheckExpected(c) || step == SendReply(c) || step == Rendezvous(c)
  }

  lemma {:induction false} RetiredBodies(s: State, pl: Places, step: Step, c: ConnId)
    requires Inv(s, pl) && c in s.conns && pl[c] == Retired && Enabled(s, step) && (step.BodyEOF? || step.BodyClose?)
    ensures c in Apply(s, step).conns && Apply(s, step).conns[c] == s.conns[c]
  {
    assert CallInv(s, pl, step.call);
  }

  lemma {:induction false} RetiredCallers(s: State, pl: Places, step: Step, c: ConnId)
    requires Inv(s, pl) && c in s.conns && pl[c] == Retired && Enabled(s, step)
    requires !LoopStep(step) && !step.BodyEOF? && !step.BodyClose?
    ensures c in Apply(s, step).conns
    ensures Apply(s, step).conns[c].loop == s.conns[c].loop && Apply(s, step).conns[c].alive == s.conns[c].alive
  {
  }

  lemma {:induction false} RetiredLoops(s: State, pl: Places, step: Step, c: ConnId)
    requires Inv(s, pl) && c in s.conns && pl[c] == Retired && Enabled(s, step) && LoopStep(step) && !Moves(step, c)
    ensures c in Apply(s, step).conns && Apply(s, step).conns[c] == s.conns[c]
  {
    assert ConnInv(s, pl, c);
    if step.Repool? {
      PoolKeepsOthers(s, step.conn);
    }
  }

  /** Nothing else moves it, and nothing revives it. */
  lemma {:induction false} RetiredStays(s: State, pl: Places, step: Step, c: ConnId)
    requires Inv(s, pl) && c in s.conns && pl[c] == Retired && Enabled(s, step) && !Moves(step, c)
    ensures c in Apply(s, step).conns
    ensures Apply(s, step).conns[c].loop == s.conns[c].loop && Apply(s, step).conns[c].alive == s.conns[c].alive
  {
    if step.BodyEOF? || step.BodyClose? {
      RetiredBodies(s, pl, step, c);
    } else if LoopStep(step) {
      RetiredLoops(s, pl, step, c);
    } else {
      RetiredCallers(s, pl, step, c);
    }
  }

  lemma {:induction false} GivenUpForGood(s: State, step: Step, c: ConnId)
    requires Enabled(s, step) && GaveUpOn(s, c)
    ensures GaveUpOn(Apply(s, step), c)
  {
    var x :| x in s.calls && s.calls[x].stage == Abandoned(c);
    if step.BodyEOF? || step.BodyClose? {
      BodyKeepsOthers(s, step.call, step.BodyClose? ==> step.ok);
    } else if step.Repool? {
      PoolKeepsOthers(s, step.conn);
    }
    assert x in Apply(s, step).calls && Apply(s, step).calls[x].stage == Abandoned(c);
  }

  /** The count of a connection given up is not zero, so its loop is turned to wait for a request. */
  lemma {:induction false} MovesInVain(s: State, pl: Places, step: Step, c: ConnId)
    requires Inv(s, pl) && c in s.conns && pl[c] == Retired && CannotEnd(s, c)
    requires Enabled(s, step) && Moves(step, c)
    ensures var s' := Apply(s, step);
            && c in s'.conns && !s'.conns[c].loop.Exited? && s'.conns[c].alive == s.conns[c].alive
            && (s'.conns[c].loop.AwaitRequest? || s.conns[c].alive)
  {
    assert ConnInv(s, pl, c);
    if step.CheckExpected? {
      var x :| x in s.calls && s.calls[x].stage == Abandoned(c);
      assert x in OutstandingOn(s, c);
    }
  }

  lemma {:induction false} StaysUnended(s: State, pl: Places, step: Step, c: ConnId)
    requires Inv(s, pl) && c in s.conns && pl[c] == Retired && !s.conns[c].loop.Exited? && CannotEnd(s, c)
    requires Enabled(s, step)
    ensures var s' := Apply(s, step); c in s'.conns && !s'.conns[c].loop.Exited? && CannotEnd(s', c)
  {
    if GaveUpOn(s, c) {
      GivenUpForGood(s, step, c);
    }
    if Moves(step, c) {
      MovesInVain(s, pl, step, c);
    } else {
      RetiredStays(s, pl, step, c);
    }
  }

  lemma {:induction false} NeverEnds(s: State, pl: Places, more: seq<Step>, c: ConnId)
    requires Inv(s, pl) && c in s.conns && pl[c] == Retired && !s.conns[c].loop.Exited? && CannotEnd(s, c)
    requires Run(s, more)
    ensures c in After(s, more).conns && !After(s, more).conns[c].loop.Exited?
    decreases |more|
  {
    if more != [] {
      var pl' := StepKeeps(s, pl, more[0]);
      StaysUnended(s, pl, more[0], c);
      NeverEnds(Apply(s, more[0]), pl', more[1..], c);
    }
  }

  // ----- loops that can end -----

  /** A round trip that is still counted on a connection out of use has its reply before it. */
  lemma {:induction false} CountedHasReply(s: State, pl: Places, x: CallId, c: ConnId)
    requires Inv(s, pl) && c in s.conns && pl[c] == Retired && s.conns[c].loop.Top? && !GaveUpOn(s, c)
    requires x in OutstandingOn(s, c)
    ensures s.calls[x].stage.Received? || (s.calls[x].stage.Waiting? && s.calls[x].sent != [])
    ensures s.calls[x].stage.conn == c
  {
    assert CallInv(s, pl, x);
  }

  lemma {:induction false} TakesReply(s: State, pl: Places, x: CallId, c: ConnId) returns (pl': Places)
    requires Inv(s, pl) && c in s.conns && pl[c] == Retired && s.conns[c].loop.Top? && !GaveUpOn(s, c)
    requires x in s.calls && s.calls[x].stage == Waiting(c) && s.calls[x].sent != []
    ensures Enabled(s, ReceiveReply(x))
    ensures var s' := DoReceiveReply(s, x);
            && Inv(s', pl') && s'.conns == s.conns && c in pl' && pl'[c] == Retired && !GaveUpOn(s', c)
            && x in s'.calls && s'.calls[x].stage.Received? && s'.calls[x].stage.conn == c
  {
    assert CallInv(s, pl, x);
    pl' := StepKeeps(s, pl, ReceiveReply(x));
  }

  lemma {:induction false} CountsDown(s: State, pl: Places, x: CallId, c: ConnId) returns (pl': Places)
    requires Inv(s, pl) && c in s.conns && pl[c] == Retired && !GaveUpOn(s, c)
    requires x in s.calls && s.calls[x].stage.Received? && s.calls[x].stage.conn == c
    ensures Enabled(s, Decrement(x))
    ensures var s' := DoDecrement(s, x);
            && Inv(s', pl') && c in s'.conns && c in pl' && pl'[c] == Retired && !GaveUpOn(s', c)
            && s'.conns[c] == s.conns[c].(numExpected := s.conns[c].numExpected - 1)
  {
    pl' := StepKeeps(s, pl, Decrement(x));
  }

  /** At the top of the loop: all who are counted return, then the count is zero. */
  lemma {:induction false} EndsFromTheTop(s: State, pl: Places, c: ConnId)
    requires Inv(s, pl) && c in s.conns && pl[c] == Retired && s.conns[c].loop.Top? && !GaveUpOn(s, c)
    ensures LoopCanEnd(s, c)
    decreases |OutstandingOn(s, c)|
  {
    assert ConnInv(s, pl, c);
    if OutstandingOn(s, c) == {} {
      HasEnded(DoCheckExpected(s, c), c);
      StepThenEnd(s, CheckExpected(c), c);
    } else {
      var x :| x in OutstandingOn(s, c);
      CountedHasReply(s, pl, x, c);
      if s.calls[x].stage.Received? {
        var pl' := CountsDown(s, pl, x, c);
        assert ConnInv(DoDecrement(s, x), pl', c);
        EndsFromTheTop(DoDecrement(s, x), pl', c);
        StepThenEnd(s, Decrement(x), c);
      } else {
        var pl1 := TakesReply(s, pl, x, c);
        var s1 := DoReceiveReply(s, x);
        var pl2 := CountsDown(s1, pl1, x, c);
        assert ConnInv(DoDecrement(s1, x), pl2, c);
        EndsFromTheTop(DoDecrement(s1, x), pl2, c);
        StepThenEnd(s1, Decrement(x), c);
        StepThenEnd(s, ReceiveReply(x), c);
      }
    }
  }

  /** Where the read loop of a connection out of use can be, and where it goes from there. */
  lemma {:induction false} GoesOn(s: State, pl: Places, c: ConnId) returns (step: Step)
    requires Inv(s, pl) && c in s.conns && pl[c] == Retired
    requires !s.conns[c].loop.Exited? && !s.conns[c].loop.AwaitRequest? && !s.conns[c].loop.Top?
    ensures Enabled(s, step) && (step == SendReply(c) || step == Rendezvous(c))
    ensures c in Apply(s, step).conns && Apply(s, step).conns[c].loop == Again(s.conns[c])
    ensures forall x :: x in Apply(s, step).calls ==> x in s.calls && Apply(s, step).calls[x].stage == s.calls[x].stage
  {
    assert ConnInv(s, pl, c);
    if s.conns[c].loop.Replying? {
      assert CallInv(s, pl, s.conns[c].loop.call);
      step := SendReply(c);
    } else {
      step := Rendezvous(c);
    }
  }

  lemma {:induction false} RetiredCanEnd(s: State, pl: Places, c: ConnId)
    requires Inv(s, pl) && c in s.conns && pl[c] == Retired && !s.conns[c].loop.Exited? && !CannotEnd(s, c)
    ensures LoopCanEnd(s, c)
  {
    if s.conns[c].loop.Top? {
      assert ConnInv(s, pl, c);
      EndsFromTheTop(s, pl, c);
    } else {
      var step := GoesOn(s, pl, c);
      var pl' := StepKeeps(s, pl, step);
      if s.conns[c].alive {
        EndsFromTheTop(Apply(s, step), pl', c);
      } else {
        HasEnded(Apply(s, step), c);
      }
      StepThenEnd(s, step, c);
    }
  }

  /**
   * Exactly which read loops of connections out of use can still end: not those that wait for a
   * request, and not those that are to go on although a write error left the count up.
   */
  lemma {:induction false} RetiredLoopsEnd(cfg: Config, steps: seq<Step>, s: State, c: ConnId)
    requires Reached(cfg, steps, s) && c in s.conns && At(s, c, Retired)
    ensures LoopCanEnd(s, c) <==> s.conns[c].loop.Exited? || !CannotEnd(s, c)
  {
    var pl := ReachedHasPlaces(cfg, steps, s);
    AtIsPlace(s, pl, c, Retired);
    if s.conns[c].loop.Exited? {
      HasEnded(s, c);
    } else if !CannotEnd(s, c) {
      RetiredCanEnd(s, pl, c);
    } else if LoopCanEnd(s, c) {
      var more :| Run(s, more) && c in After(s, more).conns && After(s, more).conns[c].loop.Exited?;
      NeverEnds(s, pl, more, c);
    }
  }

  /** After a write error the read loop never ends, unless it had ended before. */
  lemma {:induction false} WriteErrorStrandsTheLoop(cfg: Config, steps: seq<Step>, s: State, x: CallId)
    requires Reached(cfg, steps, s) && Enabled(s, WriteFails(x))
    ensures LoopCanEnd(Apply(s, WriteFails(x)), s.calls[x].stage.conn) <==> s.conns[s.calls[x].stage.conn].loop.Exited?
  {
    var c := s.calls[x].stage.conn;
    var s' := Apply(s, WriteFails(x));
    var pl := ReachedHasPlaces(cfg, steps, s);
    HeldPlace(s, pl, x);
    assert ConnInv(s, pl, c);
    WriteFailsKeeps(s, pl, x);
    assert s'.calls[x].stage == Abandoned(c);
    if s.conns[c].loop.Exited? {
      HasEnded(s', c);
    } else if LoopCanEnd(s', c) {
      var more :| Run(s', more) && c in After(s', more).conns && After(s', more).conns[c].loop.Exited?;
      NeverEnds(s', pl[c := Retired], more, c);
    }
  }
}
