// Two runs in which a step fails. In the first it fails inside its tool round: claims stay
// live although the turn returns an outcome, and the first stop of the round does not decide
// it (src/agent/mod.rs:1428-1459 and 1498-1529). In the second a durable ceiling refuses to
// begin an attempt, and the turn returns an outcome all the same (src/agent/mod.rs:1967).
module Breakdown {
  import opened Common
  import opened SessionLog
  import opened SessionModel
  import opened WorldModel
  import opened DriverModel
  import opened LogGrammar
  import opened Moment
  import opened ToolIteration
  import opened ToolRound
  import opened AttemptLife
  import opened StepAttempt
  import opened StepClosing
  import opened AgentStep
  import opened StepFrame
  import opened PreStep
  import opened AgentTurn
  import opened AgentLoopModel

  const LIMITS := Limits(1, 1, 0, 1, 1, 1, 1, 1, 1)
  const PROMPT := User(0, 1)
  const ANSWER := Assistant(1, 1)
  const CALL: Id := 7

  // The claims of the turn, of the frame of its step, and of its tool round.
  const TURN_CLAIMS := [TurnStart(1), TurnEnd(1, Error(EventBudget))]
  const FRAME_CLAIMS := [StepStart(1, 1), UserMessage(PROMPT), StepEnd(1, 1)]
  const ROUND_CLAIMS := [AssistantMessage(ANSWER, [CALL]), ToolCall(CALL), ToolResult(CALL, BudgetFallback, 0)]

  const EMPTY := State([], [], OpenWork(false, 0, false), Surface([], 0), Attempts(NoAttempt, 0, [], 0), 0)

  // Up to the dispatch of the only attempt, every event in the slot of its claim.
  function Dispatched(): (s: State)
    ensures s.slots == [Settled(TurnStart(1)), Live(TURN_CLAIMS[1], 0),
                        Settled(StepStart(1, 1)), Settled(UserMessage(PROMPT)), Live(StepEnd(1, 1), 0)]
    ensures s.log == [TurnStart(1), StepStart(1, 1), UserMessage(PROMPT), RequestHeader(0)]
    ensures s.open == OpenWork(false, 0, false) && s.attempts == Attempts(Open, 1, [], 0)
  {
    var turn := Consumed(Claimed(EMPTY, TURN_CLAIMS), 0, TurnStart(1));
    var begun := Consumed(Claimed(turn, FRAME_CLAIMS), 2, StepStart(1, 1));
    var entered := Appended(Consumed(begun, 3, UserMessage(PROMPT)), RequestHeader(0));
    Flushed(entered, Barrier.Ready).(attempts := OpenedAttempts(entered.attempts))
  }

  // The answer closes the attempt and the call is begun; the result of the call, a
  // diagnostic because the deadline had passed, is refused by storage.
  function Refused(): (s: State)
    ensures s.slots == Dispatched().slots
      + [Settled(ROUND_CLAIMS[0]), Settled(ROUND_CLAIMS[1]), Live(ROUND_CLAIMS[2], 0)]
    ensures s.log == Dispatched().log + [ROUND_CLAIMS[0], ROUND_CLAIMS[1]]
    ensures s.open == OpenWork(false, 1, false) && s.attempts == Attempts(NoAttempt, 1, [Committed], 1)
  {
    var claimed := Claimed(Dispatched(), ROUND_CLAIMS);
    var closed := Flushed(Closing(Consumed(claimed, 5, ROUND_CLAIMS[0]), Committed), Barrier.Ready);
    var retired := closed.(attempts := Retired(claimed.attempts, Committed));
    Flushed(Rebound(Consumed(retired, 6, ROUND_CLAIMS[1]), 7, ROUND_CLAIMS[2]), Barrier.Ready)
  }

  // The session keeps no log on disk, so the step may be closed over the lost result;
  // the user has cancelled by then.
  function Ended(): (s: State)
    ensures s.log == Refused().log + [StepEnd(1, 1), TurnEnd(1, Aborted)]
    ensures s.slots == Refused().slots[4 := Settled(StepEnd(1, 1))][1 := Settled(TurnEnd(1, Aborted))]
    ensures s.open == OpenWork(false, 0, true) && s.attempts == Refused().attempts
  {
    Flushed(Consumed(Consumed(Refused(), 4, StepEnd(1, 1)), 1, TurnEnd(1, Aborted)), Barrier.Ready)
  }

  const BLOCK := ToolBlock(CALL, Allow, NotAsked, None, None, true, false, true, false)
  const ATTEMPT := AttemptTrace([RequestHeader(0)], [], Answered(ANSWER, [CALL], [BLOCK], Some(StopTimeout), false))
  const STEP := StepTrace(1, 1, [PROMPT], [ATTEMPT], true, ErrorOutcome(Internal), false)
  const TURN := TurnTrace(1, [Step(STEP)], Aborted)

  const BEFORE := Env(false, false, 2, NoStop, [], [], [], [], [], [], None, [], false, None)
  const AFTER := Env(true, true, 2, StopTimeout, [CALL], [], [], [], [], [RoundRecord(StopTimeout, [CALL], [], [], [], [])],
                     None, [CALL], false, None)
  const UNMARKED := Marks(false, false, false, false)
  const SPENT := Counters(1, 1, 0, 1, 0, 0, false, false, true)

  lemma StepIsClosed()
    ensures AttemptsClosed(false, STEP.attempts)
    ensures AttemptsEvents(STEP.attempts) == [RequestHeader(0), ROUND_CLAIMS[0], ROUND_CLAIMS[1]]
    ensures AttemptsRounds(STEP.attempts) == AFTER.rounds
  {
    assert STEP.attempts[..0] == [] && [BLOCK][..0] == [];
    assert AttemptTrue(ATTEMPT);
    assert NextInChain(ChainsAfter(STEP.attempts[..0]), ATTEMPT.end);
    assert BlocksEvents([BLOCK]) == BlocksEvents([BLOCK][..0]) + BlockEvents(BLOCK) == [ToolCall(CALL)];
    assert AttemptsEvents(STEP.attempts) == AttemptsEvents(STEP.attempts[..0]) + AttemptEvents(ATTEMPT);
    assert PreparedOf([BLOCK]) == PreparedOf([BLOCK][..0]) + [CALL] == [CALL];
    assert LossesOf([BLOCK]) == LossesOf([BLOCK][..0]) + [] == [];
    assert RepliesOf([BLOCK]) == RepliesOf([BLOCK][..0]) + HeardOf(NotAsked) == [];
    assert DeedsOf([BLOCK]) == DeedsOf([BLOCK][..0]) + Listed(None) == [];
    assert AttemptsRounds(STEP.attempts) == AttemptsRounds(STEP.attempts[..0]) + RoundsOf(ATTEMPT.end);
  }

  lemma TurnIsClosed()
    ensures TurnClosed(false, TURN) && Summaries(TURN.segments) == 0 && StepsIn(TURN.segments) == 1
    ensures RoundsIn(TURN.segments) == AFTER.rounds && !Overran(AFTER.rounds)
    ensures TurnEvents(TURN) == Ended().log
  {
    hide AttemptsEvents, AttemptsRounds, AttemptsClosed, Dispatched, Refused, Ended;
    StepIsClosed();
    assert TURN.segments[..0] == [];
    assert SegmentsEvents(TURN.segments) == StepEvents(STEP);
    assert InputEvents([PROMPT]) == [UserMessage(PROMPT)];
  }

  lemma StepIsCounted()
    ensures AttemptsCost(STEP.attempts) == Cost(1, 0, 1, 0, 0)
  {
    assert BlocksBytes([BLOCK]) == 0 by {
      assert [BLOCK][..0] == [];
    }
    hide BlocksBytes;
    assert AttemptCost(ATTEMPT) == Cost(1, 0, 1, 0, 0);
    assert STEP.attempts[..0] == [];
  }

  // One step, one attempt, one call, and nothing that a tool returned.
  lemma TurnIsCounted()
    ensures StepsIn(TURN.segments) == 1 && CostIn(TURN.segments) == Cost(1, 0, 1, 0, 0)
  {
    StepIsCounted();
    hide AttemptsCost;
    assert TURN.segments[..0] == [];
    assert SegmentCost(TURN.segments[0]) == Cost(1, 0, 1, 0, 0);
  }

  lemma TurnIsKept()
    ensures CountersTell(SPENT, TURN.segments) && InLimits(TURN.segments, LIMITS)
    ensures RewritesHold(EMPTY.surface, TURN.segments) && SegmentsGoverned(Rules(Allow, Allow, Allow, 1), TURN.segments)
  {
    TurnIsCounted();
    hide CostIn, StepsIn, RoundsIn, Overran, SurfaceAfter, SegmentsEvents;
  }

  lemma AttemptIsEnded()
    ensures AttemptsOf(EMPTY.attempts, TURN.segments) == Ended().attempts
  {
    hide Dispatched, Refused, Ended;
    assert STEP.attempts[..0] == [] && TURN.segments[..0] == [];
    assert StepAttempts(EMPTY.attempts, STEP.attempts) == AttemptsAfter(EMPTY.attempts, ATTEMPT.end);
    assert AttemptsOf(EMPTY.attempts, TURN.segments) == AttemptsOfStep(EMPTY.attempts, STEP);
    assert [] + [Committed] == [Committed];
  }

  lemma ClaimIsLeft()
    ensures Accounted(Ended().slots, 0, LeftBy(TURN.segments)) && !SpentFrom(Ended().slots, 0)
  {
    hide Dispatched, Refused, Ended;
    var slots := Ended().slots;
    assert slots[7].Live?;
    assert LeftAt(slots, 0, 5, ROUND_CLAIMS[0]);
  }

  // The deadline is the first stop of the round, the turn ends as aborted, and the claim
  // of the result is never spent: all of this is a turn in the sense of the loop.
  lemma FirstStopLost()
    ensures TurnDone(Snap(EMPTY, BEFORE, FreshCounters(false), UNMARKED), Snap(Ended(), AFTER, SPENT, UNMARKED), false, LIMITS,
                     Rules(Allow, Allow, Allow, 1), 1, Enter([PROMPT]), Ok(TurnOutcome(1, Aborted, SPENT)), TURN)
    ensures !SpentFrom(Ended().slots, 0)
    ensures LatchedStop(TURN.segments[0]) == StopTimeout && TURN.reason != ReasonOfStop(StopTimeout)
  {
    hide Accounted, SpentFrom, Dispatched, Refused, Ended, TurnEvents, TurnClosed, Summaries, StepsIn, RoundsIn, Overran, LeftBy, AttemptsOf,
      CountersTell, InLimits, RewritesHold, SegmentsGoverned;
    TurnIsClosed();
    TurnIsKept();
    AttemptIsEnded();
    ClaimIsLeft();
    assert [] + TurnEvents(TURN) == TurnEvents(TURN);
    assert [] + AFTER.rounds == AFTER.rounds;
  }

  // ----- a ceiling that is forgotten

  // A durable session whose ceiling refuses to begin the only attempt: the step fails
  // without it, and the turn goes on to its end.
  const STALL := AttemptTrace([RequestHeader(0)], [], Unsent(true))
  const STALLED := StepTrace(1, 1, [PROMPT], [STALL], true, ErrorOutcome(Internal), false)
  const STALLED_TURN := TurnTrace(1, [Step(STALLED)], Error(Internal))
  const DURABLE_CLAIMS := [TurnStart(1), TurnEnd(1, Error(SessionLimit))]
  const QUIET := Env(false, false, 2, NoStop, [], [], [], [], [], [], None, [], false, None)
  const SPENT_ALONE := Counters(1, 1, 0, 0, 0, 0, false, false, true)

  function StalledEnd(): (s: State)
    ensures s.log == [TurnStart(1), StepStart(1, 1), UserMessage(PROMPT), RequestHeader(0), StepEnd(1, 1), TurnEnd(1, Error(Internal))]
    ensures s.slots == [Settled(TurnStart(1)), Settled(TurnEnd(1, Error(Internal))),
                        Settled(StepStart(1, 1)), Settled(UserMessage(PROMPT)), Settled(StepEnd(1, 1))]
    ensures s.open == OpenWork(false, 0, false) && s.attempts == EMPTY.attempts
  {
    var turn := Consumed(Claimed(EMPTY, DURABLE_CLAIMS), 0, TurnStart(1));
    var begun := Consumed(Claimed(turn, FRAME_CLAIMS), 2, StepStart(1, 1));
    var entered := Flushed(Appended(Consumed(begun, 3, UserMessage(PROMPT)), RequestHeader(0)), Barrier.Ready);
    Flushed(Consumed(Consumed(entered, 4, StepEnd(1, 1)), 1, TurnEnd(1, Error(Internal))), Barrier.Ready)
  }

  lemma StalledIsClosed()
    ensures AttemptsClosed(true, STALLED.attempts) && AttemptsEvents(STALLED.attempts) == [RequestHeader(0)]
    ensures AttemptsRounds(STALLED.attempts) == []
  {
    assert STALLED.attempts[..0] == [];
    assert AttemptTrue(STALL);
    assert NextInChain(ChainsAfter(STALLED.attempts[..0]), STALL.end);
    assert AttemptsEvents(STALLED.attempts) == AttemptsEvents(STALLED.attempts[..0]) + AttemptEvents(STALL);
    assert AttemptsRounds(STALLED.attempts) == AttemptsRounds(STALLED.attempts[..0]) + RoundsOf(STALL.end);
  }

  lemma StalledTurnIsClosed()
    ensures TurnClosed(true, STALLED_TURN) && Summaries(STALLED_TURN.segments) == 0
    ensures RoundsIn(STALLED_TURN.segments) == [] && TurnEvents(STALLED_TURN) == StalledEnd().log
  {
    hide AttemptsEvents, AttemptsRounds, AttemptsClosed, StalledEnd;
    StalledIsClosed();
    assert STALLED_TURN.segments[..0] == [];
    assert SegmentsEvents(STALLED_TURN.segments) == StepEvents(STALLED);
    assert InputEvents([PROMPT]) == [UserMessage(PROMPT)];
  }

  lemma StallIsCounted()
    ensures AttemptsCost(STALLED.attempts) == Cost(1, 0, 0, 0, 0)
  {
    assert AttemptCost(STALL) == Cost(1, 0, 0, 0, 0);
    hide AttemptCost;
    assert STALLED.attempts[..0] == [];
  }

  lemma StalledIsCounted()
    ensures StepsIn(STALLED_TURN.segments) == 1 && CostIn(STALLED_TURN.segments) == Cost(1, 0, 0, 0, 0)
  {
    StallIsCounted();
    hide AttemptsCost;
    assert STALLED_TURN.segments[..0] == [];
    assert SegmentCost(STALLED_TURN.segments[0]) == Cost(1, 0, 0, 0, 0);
  }

  lemma StalledIsKept()
    ensures CountersTell(SPENT_ALONE, STALLED_TURN.segments) && InLimits(STALLED_TURN.segments, LIMITS)
    ensures RewritesHold(EMPTY.surface, STALLED_TURN.segments)
    ensures SegmentsGoverned(Rules(Allow, Allow, Allow, 1), STALLED_TURN.segments)
  {
    StalledIsCounted();
    hide CostIn, StepsIn, RoundsIn, Overran, SurfaceAfter, SegmentsEvents;
  }

  lemma NothingIsBegun()
    ensures AttemptsOf(EMPTY.attempts, STALLED_TURN.segments) == EMPTY.attempts
  {
    assert STALLED.attempts[..0] == [] && STALLED_TURN.segments[..0] == [];
    assert StepAttempts(EMPTY.attempts, STALLED.attempts) == AttemptsAfter(EMPTY.attempts, STALL.end);
    assert AttemptsOf(EMPTY.attempts, STALLED_TURN.segments) == AttemptsOfStep(EMPTY.attempts, STALLED);
  }

  // An outcome is returned although a durable ceiling was hit, and it does not tell so.
  lemma LimitForgotten()
    ensures TurnDone(Snap(EMPTY, QUIET, FreshCounters(false), UNMARKED),
                     Snap(StalledEnd(), QUIET, SPENT_ALONE, UNMARKED.(stalled := true)), true, LIMITS,
                     Rules(Allow, Allow, Allow, 1), 1, Enter([PROMPT]), Ok(TurnOutcome(1, Error(Internal), SPENT_ALONE)), STALLED_TURN)
    ensures StalledIn(STALLED_TURN.segments)
  {
    hide SpentFrom, StalledEnd, TurnEvents, TurnClosed, Summaries, StepsIn, RoundsIn, Overran, AttemptsOf,
      CountersTell, InLimits, RewritesHold, SegmentsGoverned;
    StalledTurnIsClosed();
    StalledIsKept();
    NothingIsBegun();
    assert SpentFrom(StalledEnd().slots, 0) by { AllSettled(); }
    assert [] + TurnEvents(STALLED_TURN) == TurnEvents(STALLED_TURN);
    NothingRecorded(QUIET, QUIET);
  }

  lemma AllSettled()
    ensures SpentFrom(StalledEnd().slots, 0)
  {
    hide StalledEnd;
  }
}
