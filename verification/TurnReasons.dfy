// What the reason of a turn says about the turn: which answer it tells of, and what was true
// where it tells an error (src/agent/mod.rs:1221-1542).
module TurnReasons {
  import opened Common
  import opened SessionLog
  import opened SessionModel
  import opened WorldModel
  import opened DriverModel
  import opened Moment
  import opened LogGrammar
  import opened StepAttempt
  import opened PreStep
  import opened AgentTurn
  import opened AgentLoopModel

  // The answer that the last step of a turn came to, if it did not fail.
  function LastAnswer(xs: seq<Segment>): Option<AttemptEnd> {
    if |xs| > 0 && xs[|xs| - 1].Step? then AnswerOfStep(xs[|xs| - 1].step) else None
  }

  function AnswerOfStep(t: StepTrace): Option<AttemptEnd> {
    if !t.failed && |t.attempts| > 0 && t.attempts[|t.attempts| - 1].end.Answered?
    then Some(t.attempts[|t.attempts| - 1].end)
    else None
  }

  // An answer that ends its turn by itself: not cut off, and without calls or with one that
  // asks for the end after none was lost.
  predicate IsWhole(end: AttemptEnd)
    requires end.Answered?
  {
    !end.truncated && (end.calls == [] || (LossesOf(end.blocks) == [] && AnyConcludes(end.blocks)))
  }

  // A turn with messages that returned, and whose reason was stored.
  ghost predicate Returned(a: Snap, b: Snap, durable: bool, limits: Limits, rules: Rules, turn: nat, proposal: Proposal,
                           outcome: TurnOutcome, t: TurnTrace)
  {
    && TurnDone(a, b, durable, limits, rules, turn, proposal, Ok(outcome), t)
    && !IsEmpty(proposal) && (durable || t.reason != Error(EventBudget))
  }

  // Nothing stopped the turn: neither its last round nor the world, and the observer is there.
  predicate Unstopped(xs: seq<Segment>, x: Snap) {
    && (|xs| > 0 ==> LatchedStop(xs[|xs| - 1]) == NoStop)
    && !x.env.cancelled && !x.env.expired && !x.now.observerUnavailable
  }

  // Where nothing stopped it, a turn ends at the output limit exactly when its last answer
  // was cut off there, and is completed exactly when that answer was whole.
  lemma AnswerIsTold(a: Snap, b: Snap, durable: bool, limits: Limits, rules: Rules, turn: nat, proposal: Proposal,
                     outcome: TurnOutcome, t: TurnTrace)
    requires Returned(a, b, durable, limits, rules, turn, proposal, outcome, t) && Unstopped(t.segments, b)
    ensures outcome.reason.MaxTokens? <==> LastAnswer(t.segments).Some? && LastAnswer(t.segments).value.truncated
    ensures outcome.reason.Completed? <==> LastAnswer(t.segments).Some? && IsWhole(LastAnswer(t.segments).value)
  {
    hide Accounted, InLimits, CountersTell, TurnEvents, Summaries, AttemptsOf, RoundsIn, RewritesHold, SegmentsGoverned, StalledIn,
      StopDecides, Recorded, ChainsOk, LossesOf, AnyConcludes, StepsIn, BlocksClosed, CodeHolds;
    var xs := t.segments;
    if |xs| > 0 && xs[|xs| - 1].Step? {
      assert SegmentClosed(Strict(durable, b.st.open), turn, xs[|xs| - 1]);
      if AnswerOfStep(xs[|xs| - 1].step).Some? {
        AnswerTruncates(Strict(durable, b.st.open), xs[|xs| - 1].step);
      }
    }
  }

  lemma AnswerTruncates(durable: bool, t: StepTrace)
    requires AttemptsClosed(durable, t.attempts) && AnswerOfStep(t).Some?
    ensures AnswerOfStep(t).value.truncated ==> AnswerOfStep(t).value.calls == []
  {
    assert AttemptTrue(t.attempts[|t.attempts| - 1]);
  }

  // A reason that is an error or a cancellation is true at the end of the turn.
  lemma ReasonIsTrue(a: Snap, b: Snap, durable: bool, limits: Limits, rules: Rules, turn: nat, proposal: Proposal,
                     outcome: TurnOutcome, t: TurnTrace)
    requires Returned(a, b, durable, limits, rules, turn, proposal, outcome, t)
    ensures outcome.reason.Aborted? ==> b.env.cancelled || LatchedIn(t.segments).StopCancelled?
    ensures outcome.reason == Error(TurnTimeout) ==> b.env.expired || LatchedIn(t.segments).StopTimeout?
    ensures outcome.reason == Error(ContextLimit) ==> b.env.fault == Some(ContextLimit)
    ensures outcome.reason == Error(EventBudget) ==> b.marks.crowded
    ensures outcome.reason == Error(ErrorCode.ObserverUnavailable) ==> b.now.observerUnavailable
    ensures outcome.reason == Error(MaxSteps) ==> outcome.counters.steps >= limits.maxSteps
    ensures outcome.reason == Error(MaxAttempts) ==> outcome.counters.attempts >= limits.maxAttempts
    ensures outcome.reason == Error(TokenBudget) ==> outcome.counters.reportedTokens > limits.maxReportedTokens
    ensures outcome.reason == Error(ToolExecutor) ==>
      b.env.fault == Some(ToolExecutor) || (LastAnswer(t.segments).Some? && LossesOf(LastAnswer(t.segments).value.blocks) != [])
    ensures outcome.reason != Error(SessionLimit)
  {
    hide Accounted, InLimits, CountersTell, TurnEvents, Summaries, AttemptsOf, RoundsIn, RewritesHold, SegmentsGoverned, StalledIn,
      StopDecides, Recorded, TurnClosed, LossesOf, AnyConcludes, StepsIn;
  }

  function LatchedIn(xs: seq<Segment>): ToolStop {
    if |xs| > 0 then LatchedStop(xs[|xs| - 1]) else NoStop
  }

  // A turn that ended before a step, where nothing stopped it and no limit was reached, ended
  // because its request is over the limits of the model.
  lemma RequestIsTooLarge(a: Snap, b: Snap, durable: bool, limits: Limits, rules: Rules, turn: nat, proposal: Proposal,
                          outcome: TurnOutcome, t: TurnTrace)
    requires Returned(a, b, durable, limits, rules, turn, proposal, outcome, t) && Unstopped(t.segments, b)
    requires |t.segments| == 0 || t.segments[|t.segments| - 1].Pre? || GoesOn(t.segments[|t.segments| - 1])
    requires !b.marks.crowded && outcome.counters.steps < limits.maxSteps
    requires outcome.counters.reportedTokens <= limits.maxReportedTokens
    ensures outcome.reason == Error(ContextLimit) && b.env.fault == Some(ContextLimit)
  {
    hide Accounted, InLimits, CountersTell, TurnEvents, Summaries, AttemptsOf, RoundsIn, RewritesHold, SegmentsGoverned, StalledIn,
      StopDecides, Recorded, TurnClosed, LossesOf, AnyConcludes, StepsIn, GoesOn;
  }
}
