// How every provider attempt of the loop ended: each one that was begun has exactly one
// disposition, in order, the one its trace tells, and was retired
// (src/agent/mod.rs:1460-1497, 2116-2142, 2401-2426 and 2600-2617).
module AttemptsEnd {
  import opened Common
  import opened SessionModel
  import opened LogGrammar
  import opened AttemptLife
  import opened StepAttempt
  import opened AgentStep
  import opened StepFrame
  import opened AgentTurn
  import opened AgentLoopModel

  // What one attempt ended as: a retry, a committed answer, or whatever the end of its
  // step made of it.
  function EndOfAttempt(end: AttemptEnd, cancelled: bool): seq<Disposition> {
    match end
    case Barred => []
    case Unsent(_) => []
    case Retried(_, _, _, _) => [Retry]
    case Answered(_, _, _, _, _) => [Committed]
    case _ => [if cancelled then Disposition.Cancelled else Disposition.Failed]
  }

  function EndsOfAttempts(xs: seq<AttemptTrace>, cancelled: bool): seq<Disposition> {
    if |xs| == 0 then [] else EndsOfAttempts(xs[..|xs| - 1], cancelled) + EndOfAttempt(xs[|xs| - 1].end, cancelled)
  }

  function EndsOfSegments(xs: seq<Segment>): seq<Disposition> {
    if |xs| == 0 then []
    else
      var last := xs[|xs| - 1];
      EndsOfSegments(xs[..|xs| - 1]) + if last.Step? then EndsOfAttempts(last.step.attempts, last.step.outcome.Cancelled?) else []
  }

  function EndsOfTurns(turns: seq<TurnTrace>): seq<Disposition> {
    if |turns| == 0 then [] else EndsOfTurns(turns[..|turns| - 1]) + EndsOfSegments(turns[|turns| - 1].segments)
  }

  // These more attempts, begun, closed and retired.
  function Finished(a: Attempts, ends: seq<Disposition>): Attempts {
    Attempts(NoAttempt, a.begun + |ends|, a.ended + ends, a.retired + |ends|)
  }

  lemma FinishedOn(a: Attempts, xs: seq<Disposition>, ys: seq<Disposition>)
    ensures Finished(Finished(a, xs), ys) == Finished(a, xs + ys)
  {
    assert a.ended + xs + ys == a.ended + (xs + ys);
  }

  // Attempts that were all continued are retries.
  lemma {:induction false} ContinuedEnds(a: Attempts, xs: seq<AttemptTrace>, cancelled: bool)
    requires a.phase.NoAttempt? && AllContinued(xs)
    ensures StepAttempts(a, xs) == Finished(a, EndsOfAttempts(xs, cancelled))
  {
    if |xs| == 0 {
      assert a.ended + [] == a.ended;
    } else {
      var before := xs[..|xs| - 1];
      ContinuedEnds(a, before, cancelled);
      FinishedOn(a, EndsOfAttempts(before, cancelled), [Retry]);
    }
  }

  // The last attempt of a step is closed by itself or by the end of the step.
  lemma LastEnds(a: Attempts, end: AttemptEnd, cancelled: bool)
    requires a.phase.NoAttempt?
    ensures ClosedByEnd(AttemptsAfter(a, end), cancelled) == Finished(a, EndOfAttempt(end, cancelled))
  {
    assert a.ended + [] == a.ended;
  }

  lemma StepEnds(a: Attempts, t: StepTrace)
    requires a.phase.NoAttempt? && AttemptsTrue(t.attempts)
    ensures AttemptsOfStep(a, t) == Finished(a, EndsOfAttempts(t.attempts, t.outcome.Cancelled?))
  {
    hide AttemptTrue;
    if |t.attempts| == 0 {
      assert a.ended + [] == a.ended;
    } else {
      hide ClosedByEnd, AttemptsAfter, EndOfAttempt;
      var last := |t.attempts| - 1;
      var before := EndsOfAttempts(t.attempts[..last], t.outcome.Cancelled?);
      ContinuedEnds(a, t.attempts[..last], t.outcome.Cancelled?);
      LastEnds(Finished(a, before), t.attempts[last].end, t.outcome.Cancelled?);
      FinishedOn(a, before, EndOfAttempt(t.attempts[last].end, t.outcome.Cancelled?));
    }
  }

  lemma {:induction false} SegmentsEnd(durable: bool, turn: nat, a: Attempts, xs: seq<Segment>)
    requires a.phase.NoAttempt? && forall i :: 0 <= i < |xs| ==> SegmentClosed(durable, turn, xs[i])
    ensures AttemptsOf(a, xs) == Finished(a, EndsOfSegments(xs))
  {
    hide AttemptsOfStep, EndsOfAttempts, ChainsOk, BlocksClosed;
    if |xs| == 0 {
      assert a.ended + [] == a.ended;
    } else {
      var last := xs[|xs| - 1];
      var before := EndsOfSegments(xs[..|xs| - 1]);
      SegmentsEnd(durable, turn, a, xs[..|xs| - 1]);
      if last.Step? {
        StepEnds(Finished(a, before), last.step);
        FinishedOn(a, before, EndsOfAttempts(last.step.attempts, last.step.outcome.Cancelled?));
      } else {
        assert before + [] == before;
      }
    }
  }

  // Over any number of turns: as many attempts were begun as have a disposition and as
  // were retired, and the dispositions are, in order, those the traces tell.
  lemma {:induction false} EveryAttemptEnds(turns: seq<TurnTrace>)
    requires TurnsClosed(turns)
    ensures TurnsAttempts(turns) == Attempts(NoAttempt, |EndsOfTurns(turns)|, EndsOfTurns(turns), |EndsOfTurns(turns)|)
  {
    hide AttemptsOf, EndsOfSegments, SegmentClosed, Summaries;
    if |turns| > 0 {
      var last := |turns| - 1;
      EveryAttemptEnds(turns[..last]);
      SegmentsEnd(true, turns[last].turn, TurnsAttempts(turns[..last]), turns[last].segments);
    }
  }
}
