// One moment of a turn, as the contracts look at it, and what an outcome of a step says
// about that moment.
module Moment {
  import opened Common
  import opened SessionLog
  import opened SessionModel
  import opened WorldModel
  import opened DriverModel

  datatype Snap = Snap(st: State, env: Env, now: Counters, marks: Marks)

  function Look(s: Session, d: Driver, w: World): Snap
    reads s, d, w
  {
    Snap(s.st, w.env, d.now, s.marks)
  }

  datatype StepOutcome = Continue | Completed | MaxTokens | Cancelled | ErrorOutcome(code: ErrorCode)

  predicate Differ(calls: seq<Id>) {
    forall j, k :: 0 <= j < k < |calls| ==> calls[j] != calls[k]
  }

  // What is true where an error is told: a limit that was reached, a refusal of storage, or
  // what went wrong outside.
  predicate CodeHolds(code: ErrorCode, x: Snap, limits: Limits, tries: nat) {
    match code
    case SessionLimit => x.now.durableLimit
    case EventBudget => x.marks.crowded
    case ObserverUnavailable => x.now.observerUnavailable
    case TurnTimeout => x.env.expired
    case MaxSteps => x.now.steps >= limits.maxSteps
    case MaxAttempts => x.now.attempts >= limits.maxAttempts
    case MaxRetries => tries >= limits.maxRetries
    case TokenBudget => x.now.reportedTokens > limits.maxReportedTokens
    case MaxToolCalls => |x.env.asked| > limits.maxCallsPerStep || x.now.toolCalls + |x.env.asked| > limits.maxCallsPerTurn
    case InvalidToolCall => x.env.fault == Some(InvalidToolCall) || !Differ(x.env.asked)
    case _ => x.env.fault == Some(code)
  }

  // The same for an outcome that is no success.
  predicate OutcomeHolds(outcome: StepOutcome, x: Snap, limits: Limits, tries: nat) {
    (outcome.Cancelled? && x.env.cancelled) || (outcome.ErrorOutcome? && CodeHolds(outcome.code, x, limits, tries))
  }

  // How a turn may end where no step tells it.
  predicate EndsBetween(reason: TurnEndReason, x: Snap, limits: Limits) {
    match reason
    case Aborted => x.env.cancelled
    case Error(code) =>
      && (code.SessionLimit? || code.EventBudget? || code.TurnTimeout? || code.MaxSteps? || code.ContextLimit?
          || code.ObserverUnavailable? || code.TokenBudget?)
      && CodeHolds(code, x, limits, 0)
    case _ => false
  }

  lemma EndsStays(reason: TurnEndReason, x: Snap, y: Snap, limits: Limits)
    requires EndsBetween(reason, x, limits) && Holds(x, y)
    ensures EndsBetween(reason, y, limits)
  {
  }

  // What was looked at and seen to stop a step.
  predicate IsStop(outcome: StepOutcome, env: Env) {
    (outcome.Cancelled? && env.cancelled) || (outcome == ErrorOutcome(TurnTimeout) && env.expired)
  }

  // What storage refused, told as an outcome.
  predicate IsCeiling(outcome: StepOutcome, now: Counters, marks: Marks) {
    (outcome == ErrorOutcome(SessionLimit) && now.durableLimit) || (outcome == ErrorOutcome(EventBudget) && marks.crowded)
  }

  // What can only go wrong outside.
  predicate IsFault(code: ErrorCode) {
    || code.Internal? || code.Request? || code.ProviderFailure? || code.ContextLimit? || code.MaxOutputTokens?
    || code.InvalidToolCall? || code.ToolExecutor?
  }

  lemma StopHolds(outcome: Option<StepOutcome>, x: Snap, limits: Limits)
    requires outcome.Some? ==> IsStop(outcome.value, x.env)
    ensures outcome.Some? ==> OutcomeHolds(outcome.value, x, limits, 0)
  {
  }

  lemma CeilingHolds(r: Result<Option<StepOutcome>, Failure>, x: Snap, limits: Limits)
    requires r.Ok? && r.value.Some? ==> IsCeiling(r.value.value, x.now, x.marks)
    ensures r.Ok? && r.value.Some? ==> OutcomeHolds(r.value.value, x, limits, 0)
  {
  }

  lemma FaultHolds(code: ErrorCode, x: Snap, limits: Limits)
    requires IsFault(code) && x.env.fault == Some(code)
    ensures OutcomeHolds(ErrorOutcome(code), x, limits, 0)
  {
  }

  lemma TokensHold(x: Snap, limits: Limits)
    requires x.now.reportedTokens > limits.maxReportedTokens
    ensures OutcomeHolds(ErrorOutcome(TokenBudget), x, limits, 0)
  {
  }

  lemma UnseenHolds(x: Snap, limits: Limits)
    requires x.now.observerUnavailable
    ensures OutcomeHolds(ErrorOutcome(ErrorCode.ObserverUnavailable), x, limits, 0)
  {
  }

  lemma MoreTries(outcome: StepOutcome, x: Snap, limits: Limits, tries: nat)
    requires OutcomeHolds(outcome, x, limits, 0)
    ensures OutcomeHolds(outcome, x, limits, tries)
  {
  }

  // What was true stays true while only flags rise and time passes.
  predicate Holds(x: Snap, y: Snap) {
    && FlagsRise(x.now, y.now)
    && Later(x.env, y.env, y.env.firstStop)
    && (x.marks.crowded ==> y.marks.crowded)
  }

  lemma CodeStays(code: ErrorCode, x: Snap, y: Snap, limits: Limits, tries: nat)
    requires CodeHolds(code, x, limits, tries) && Holds(x, y)
    ensures CodeHolds(code, y, limits, tries)
  {
  }

  lemma OutcomeStays(outcome: StepOutcome, x: Snap, y: Snap, limits: Limits, tries: nat)
    requires OutcomeHolds(outcome, x, limits, tries) && Holds(x, y)
    ensures OutcomeHolds(outcome, y, limits, tries)
  {
  }
}
