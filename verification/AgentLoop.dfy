// The agent loop over a whole session: turn after turn, until one of them could not
// be closed completely (src/agent/mod.rs:813-876 and 1114-1219).
module AgentLoopModel {
  import opened Common
  import opened SessionLog
  import opened SessionModel
  import opened WorldModel
  import opened DriverModel
  import opened LogGrammar
  import opened Moment
  import opened ToolIteration
  import opened StepAttempt
  import opened StepClosing
  import opened PreStep
  import opened AgentTurn
  import OrderRules

  datatype Proposal = Reject | Enter(messages: seq<Message>)

  datatype TurnOutcome = TurnOutcome(turn: nat, reason: TurnEndReason, counters: Counters)

  // A proposal is declined when it is too large or malformed, or when the session could
  // not be materialised for it; nothing was logged then.
  datatype LoopError = Poisoned | Declined | Failed(error: Failure)

  // The log of turns that were all closed.
  function TurnsEvents(turns: seq<TurnTrace>): seq<Event> {
    if |turns| == 0 then [] else TurnsEvents(turns[..|turns| - 1]) + TurnEvents(turns[|turns| - 1])
  }

  // The tool rounds of turns.
  function TurnsRounds(turns: seq<TurnTrace>): seq<RoundRecord> {
    if |turns| == 0 then [] else TurnsRounds(turns[..|turns| - 1]) + RoundsIn(turns[|turns| - 1].segments)
  }

  // The provider attempts of turns.
  function TurnsAttempts(turns: seq<TurnTrace>): Attempts {
    if |turns| == 0 then Attempts(NoAttempt, 0, [], 0)
    else AttemptsOf(TurnsAttempts(turns[..|turns| - 1]), turns[|turns| - 1].segments)
  }

  // The turns are numbered from one, each is closed with a result for every call,
  // tried at most one summary, and ended as its first stop demands.
  predicate TurnsClosed(turns: seq<TurnTrace>) {
    forall i :: 0 <= i < |turns| ==> turns[i].turn == i + 1 && TurnComplete(turns[i])
  }

  predicate TurnsGoverned(rules: Rules, turns: seq<TurnTrace>) {
    forall i :: 0 <= i < |turns| ==> SegmentsGoverned(rules, turns[i].segments)
  }

  predicate TurnComplete(t: TurnTrace) {
    TurnClosed(true, t) && Summaries(t.segments) <= 1
  }

  // ----- one turn

  function FreshCounters(headerLogged: bool): Counters {
    Counters(0, 0, 0, 0, 0, 0, false, false, headerLogged)
  }

  // The reason a turn falls back to when its own does not fit any more.
  function FallbackReason(durable: bool): TurnEndReason {
    Error(if durable then SessionLimit else EventBudget)
  }

  // What one turn leaves. When it returns an outcome its log is balanced, the world
  // recorded exactly the tool rounds of its trace, every claim it made is spent unless
  // its last step failed in a tool round, no provider attempt is left, the first stop of
  // the last round decided, the reason is told by what happened, every checkpoint cost less
  // than what it replaced, and what the turn did was counted and is within its limits.
  ghost predicate TurnDone(a: Snap, b: Snap, durable: bool, limits: Limits, rules: Rules, turn: nat, proposal: Proposal,
                           r: Result<TurnOutcome, Failure>, t: TurnTrace)
  {
    && (r.Ok? ==>
          && b.st.log == a.st.log + TurnEvents(t)
          && t.turn == turn && TurnClosed(Strict(durable, b.st.open), t) && Summaries(t.segments) <= 1
          && b.st.attempts == AttemptsOf(a.st.attempts, t.segments) && b.st.attempts.phase.NoAttempt?
          && NoWork(b.st.open)
          && Abandons(durable, a.st.open, b.st.open)
          && Accounted(b.st.slots, 0, LeftBy(t.segments))
          && r.value == TurnOutcome(turn, t.reason, b.now)
          && (StopDecides(t.segments, t.reason, false, b.env) || (!durable && t.reason == Error(EventBudget)))
          && (ReasonTold(proposal, t, b, limits) || (!durable && t.reason == Error(EventBudget)))
          && Recorded(a.env, b.env, RoundsIn(t.segments)) && SegmentsGoverned(rules, t.segments)
          && RewritesHold(a.st.surface, t.segments)
          && CountersTell(b.now, t.segments)
          && InLimits(t.segments, limits)
          && (IsSuccess(t.reason) ==> b.now.reportedTokens <= limits.maxReportedTokens)
          && (StalledIn(t.segments) ==> StepFailed(t.segments[|t.segments| - 1]))
          && !b.now.durableLimit)
    && (r.Err? ==> PassedOn(durable, b.st.open, r.error))
  }

  // A turn without messages is over at once; any other one ends as its last step tells, or
  // for a reason that was true between two steps.
  predicate ReasonTold(proposal: Proposal, t: TurnTrace, x: Snap, limits: Limits) {
    if IsEmpty(proposal) then EmptyTold(proposal, t.reason, x.env) else EndExplained(t.segments, t.reason, x, limits)
  }

  predicate EmptyTold(proposal: Proposal, reason: TurnEndReason, env: Env) {
    && (env.cancelled ==> reason.Aborted?)
    && (!env.cancelled && proposal.Reject? ==> reason.Blocked?)
    && (!env.cancelled && proposal.Enter? ==> reason.Completed?)
  }

  // The counters are exactly what happened.
  predicate CountersTell(now: Counters, xs: seq<Segment>) {
    && now.steps == StepsIn(xs)
    && now.attempts == CostIn(xs).attempts
    && now.retries == CostIn(xs).retries
    && now.toolCalls == CostIn(xs).calls
    && now.resultBytes == CostIn(xs).bytes
    && now.reportedTokens == Min(CostIn(xs).tokens, MAX_U64)
  }

  // The steps, the attempts at the provider, the calls that were run and the bytes that
  // tools returned are within the limits of the turn; the bytes unless a file change
  // returned more than it had declared.
  predicate InLimits(xs: seq<Segment>, limits: Limits) {
    && StepsIn(xs) <= limits.maxSteps
    && CostIn(xs).attempts <= limits.maxAttempts
    && CostIn(xs).calls <= limits.maxCallsPerTurn
    && (!Overran(RoundsIn(xs)) ==> CostIn(xs).bytes <= limits.maxTurnResultBytes)
  }

  // A turn returns an outcome with claims left live exactly when its last step failed
  // with an answer whose tool round was claimed; such a turn is not a success.
  lemma ClaimsLeftExactly(a: Snap, b: Snap, durable: bool, limits: Limits, rules: Rules, turn: nat, proposal: Proposal,
                            outcome: TurnOutcome, t: TurnTrace)
    requires TurnDone(a, b, durable, limits, rules, turn, proposal, Ok(outcome), t)
    ensures SpentFrom(b.st.slots, 0) <==> LeftBy(t.segments).None?
    ensures LeftBy(t.segments).Some? ==> !IsSuccess(t.reason)
  {
    hide Accounted, SpentFrom, TurnClosed, InLimits, Recorded, TurnEvents, RoundsIn, StepsIn, Overran, Summaries, AttemptsOf, CountersTell, RewritesHold, StalledIn, SegmentsGoverned;
    LeftIsExact(b.st.slots, 0, LeftBy(t.segments));
  }

  // The first stop that the world recorded for the last round is the reason of the turn
  // exactly where the last step did not fail, or where the world has come to that stop
  // by the end. A memory session may have had no room for either.
  lemma FirstStopDecides(a: Snap, b: Snap, durable: bool, limits: Limits, rules: Rules, turn: nat, proposal: Proposal,
                            outcome: TurnOutcome, t: TurnTrace)
    requires TurnDone(a, b, durable, limits, rules, turn, proposal, Ok(outcome), t)
    requires |t.segments| > 0 && LatchedStop(t.segments[|t.segments| - 1]) != NoStop
    requires durable || t.reason != Error(EventBudget)
    ensures
      var last := t.segments[|t.segments| - 1];
      var stop := LatchedStop(last);
      && (outcome.reason == ReasonOfStop(stop) <==> !StepFailed(last) || StopOf(b.env) == Some(ReasonOfStop(stop)))
      && exists i: nat :: |a.env.rounds| <= i < |b.env.rounds| && b.env.rounds[i].stop == stop
  {
    hide Accounted, TurnClosed, InLimits, TurnEvents, StepsIn, Overran, Summaries, AttemptsRounds, AttemptsOf, CountersTell, RewritesHold, Stalled, SegmentsGoverned, LeftBy;
    var last := t.segments[|t.segments| - 1];
    var rounds := AttemptsRounds(last.step.attempts);
    LatchedIsRecorded(last.step.attempts);
    var i: nat :| i < |rounds| && rounds[i].stop == LatchedStop(last);
    var before := a.env.rounds + RoundsIn(t.segments[..|t.segments| - 1]);
    assert b.env.rounds == before + rounds;
    assert b.env.rounds[|before| + i] == rounds[i];
  }

  // A ceiling that keeps an attempt from beginning is forgotten: the step fails, and the
  // turn ends as the world stands by then or with an internal error, and not with the
  // limit of the session.
  lemma StallIsForgotten(a: Snap, b: Snap, durable: bool, limits: Limits, rules: Rules, turn: nat, proposal: Proposal,
                            outcome: TurnOutcome, t: TurnTrace)
    requires TurnDone(a, b, durable, limits, rules, turn, proposal, Ok(outcome), t)
    requires StalledIn(t.segments) && (durable || t.reason != Error(EventBudget))
    ensures FailureDecides(outcome.reason, b.env) && outcome.reason != Error(SessionLimit)
  {
    hide Accounted, TurnClosed, InLimits, CountersTell, TurnEvents, Summaries, AttemptsOf, RoundsIn, RewritesHold;
  }

  lemma LatchedIsRecorded(xs: seq<AttemptTrace>)
    requires StopIn(xs) != NoStop
    ensures exists i: nat :: i < |AttemptsRounds(xs)| && AttemptsRounds(xs)[i].stop == StopIn(xs)
  {
    var rounds := AttemptsRounds(xs);
    assert rounds[|rounds| - 1].stop == StopIn(xs);
  }

  lemma TurnFailed(a: Snap, b: Snap, durable: bool, limits: Limits, rules: Rules, turn: nat, proposal: Proposal,
                   error: Failure, t: TurnTrace)
    requires PassedOn(durable, b.st.open, error)
    ensures TurnDone(a, b, durable, limits, rules, turn, proposal, Err(error), t)
  {
  }

  predicate IsEmpty(proposal: Proposal) {
    proposal.Reject? || proposal.messages == []
  }

  // How a proposal without messages ends its turn.
  function EmptyReason(proposal: Proposal, env: Env): TurnEndReason {
    if env.cancelled then Aborted else if proposal.Reject? then TurnEndReason.Blocked else TurnEndReason.Completed
  }

  // What happens between the start and the end of the turn (src/agent/mod.rs:1166-1186).
  method Body(s: Session, d: Driver, w: World, turn: nat, proposal: Proposal)
    returns (r: Result<TurnEndReason, Failure>, ghost segments: seq<Segment>)
    requires s.Valid() && Agree(s, d) && s.st.attempts.phase.NoAttempt? && NoWork(s.st.open)
    modifies s, d, w
    ensures s.Valid() && TurnRan(old(Look(s, d, w)), Look(s, d, w), s.durable, d, turn, r, segments)
    ensures IsEmpty(proposal) ==> segments == [] && s.st == old(s.st) && r.Ok? && EmptyTold(proposal, r.value, w.env)
    ensures r.Ok? && !IsEmpty(proposal) ==> EndExplained(segments, r.value, Look(s, d, w), d.limits)
    ensures r.Ok? ==> AgreedBut(s, d, StalledIn(segments))
    ensures r.Ok? && IsSuccess(r.value) ==> TokensKept(old(d.now), d.now, d.limits)
    ensures r.Ok? && proposal.Enter? ==> Delivered(segments, proposal.messages)
    ensures r.Ok? && !IsEmpty(proposal) ==> Answers(segments, r.value)
  {
    hide Ran, TurnRan;
    segments := [];
    ghost var a := Look(s, d, w);
    var cancelled := w.IsCancelled();
    ghost var b := Look(s, d, w);
    StopEnds(b, d.limits);
    if cancelled || IsEmpty(proposal) {
      r := Ok(EmptyReason(proposal, w.env));
      NothingEntered(a, b, s.durable, d, turn, r.value);
      return;
    }
    r, segments := RunEnteredTurn(s, d, w, turn, proposal.messages);
    EnteredLater(a, b, Look(s, d, w), s.durable, d, turn, r, segments);
  }

  lemma NothingEntered(a: Snap, b: Snap, durable: bool, d: Driver, turn: nat, reason: TurnEndReason)
    requires b.st == a.st && b.now == a.now && Drift(a.env, b.env)
    requires a.st.attempts.phase.NoAttempt? && NoWork(a.st.open)
    ensures TurnRan(a, b, durable, d, turn, Ok(reason), [])
  {
    hide TurnKept;
    TurnBegins(b, durable, d, turn);
    SpentIsAccounted(b.st.slots, |b.st.slots|);
    EnteredLater(a, b, b, durable, d, turn, Ok(reason), []);
  }

  lemma EnteredLater(a: Snap, b: Snap, c: Snap, durable: bool, d: Driver, turn: nat, r: Result<TurnEndReason, Failure>,
                     segments: seq<Segment>)
    requires b.st == a.st && b.now == a.now && Drift(a.env, b.env) && TurnRan(b, c, durable, d, turn, r, segments)
    ensures TurnRan(a, c, durable, d, turn, r, segments)
  {
  }

  // The start of the turn is in the log, and the end has its slot.
  ghost predicate TurnOpened(a: State, b: State, durable: bool, turn: nat) {
    && b.log == a.log + [TurnStart(turn)]
    && b.slots == [Settled(TurnStart(turn)), Live(TurnEnd(turn, Error(if durable then SessionLimit else EventBudget)), 0)]
    && b.open == a.open && b.surface == a.surface && b.attempts == a.attempts
  }

  // Start and end of the turn are claimed before anything else (src/agent/mod.rs:1133-1150).
  method OpenTurn(s: Session, turn: nat) returns (r: Result<Unit, Failure>)
    requires s.Valid()
    modifies s
    ensures s.Valid() && (r.Ok? ==> TurnOpened(old(s.st), s.st, s.durable, turn))
    ensures r.Ok? ==> s.marks == Marks(false, false, false, false)
    ensures r.Err? ==> !IsLoopBug(r.error)
  {
    s.Reserve();
    var _ :- s.ClaimBatch([TurnStart(turn), TurnEnd(turn, FallbackReason(s.durable))]);
    var _ :- s.SettleExact(0);
    return Ok(Unit);
  }

  // Whatever happened in between, the end still has its slot; a turn whose own reason
  // does not fit falls back to the protected one (src/agent/mod.rs:1188-1219).
  method RunTurnInner(s: Session, d: Driver, w: World, turn: nat, proposal: Proposal)
    returns (r: Result<TurnOutcome, Failure>, ghost t: TurnTrace)
    requires s.Valid() && s.st.attempts.phase.NoAttempt? && NoWork(s.st.open) && d.now == FreshCounters(d.now.headerLogged)
    modifies s, d, w
    ensures s.Valid() && TurnDone(old(Look(s, d, w)), Look(s, d, w), s.durable, d.limits, RulesOf(d), turn, proposal, r, t)
    ensures r.Ok? ==> !s.marks.limited && (s.marks.stalled <==> StalledIn(t.segments))
    ensures IsEmpty(proposal) && r.Ok? ==> t.segments == []
    ensures r.Ok? && proposal.Enter? ==> Delivered(t.segments, proposal.messages)
    ensures r.Ok? && !IsEmpty(proposal) ==> Answers(t.segments, t.reason)
  {
    hide Ran, TurnRan, TurnDone, ReasonTold, TurnOpened, EndExplained, EmptyTold;
    t := TurnTrace(turn, [], FallbackReason(s.durable));
    ghost var a := Look(s, d, w);
    var begun := OpenTurn(s, turn);
    ghost var b := Look(s, d, w);
    if begun.Err? {
      r := Err(begun.error);
      TurnFailed(a, b, s.durable, d.limits, RulesOf(d), turn, proposal, begun.error, t);
      return;
    }
    var reason;
    ghost var segments;
    reason, segments := Body(s, d, w, turn, proposal);
    ghost var c := Look(s, d, w);
    if reason.Err? {
      r := Err(reason.error);
      BodyFailed(b, c, s.durable, d, turn, reason, segments);
      TurnFailed(a, c, s.durable, d.limits, RulesOf(d), turn, proposal, reason.error, t);
      return;
    }
    BodyDone(a, b, c, s.durable, d, turn, reason, segments);
    var final := CloseTurn(s, d, turn, reason.value);
    ghost var e := Look(s, d, w);
    if final.Err? {
      r := Err(final.error);
      TurnFailed(a, e, s.durable, d.limits, RulesOf(d), turn, proposal, final.error, t);
      return;
    }
    t := TurnTrace(turn, segments, final.value);
    r := Ok(TurnOutcome(turn, final.value, d.now));
    TurnFinished(a, b, c, e, s.durable, d, turn, proposal, reason, segments, final.value, t);
  }

  // Settle turn/end and make it visible; a durable session at its limit does not
  // return an outcome.
  method CloseTurn(s: Session, d: Driver, turn: nat, reason: TurnEndReason) returns (r: Result<TurnEndReason, Failure>)
    requires s.Valid() && s.st.attempts.phase.NoAttempt? && NoWork(s.st.open)
    requires IsLive(s.st.slots, 1) && s.st.slots[1].fallback == TurnEnd(turn, FallbackReason(s.durable))
    requires d.now.durableLimit == s.marks.limited
    modifies s
    ensures s.Valid() && s.marks == old(s.marks).(unseen := s.marks.unseen)
    ensures r.Ok? ==>
      && !s.marks.limited
      && (r.value == reason || (!s.durable && r.value == Error(EventBudget)))
      && s.st == Consumed(old(s.st), 1, TurnEnd(turn, r.value)).(visible := s.st.visible)
    ensures r.Err? ==> !IsLoopBug(r.error)
  {
    var used :- s.Settle(1, TurnEnd(turn, reason));
    var _ :- s.FlushBarrier();
    if d.now.durableLimit || (used.Fallback? && s.durable) {
      return Err(Failure.DurableLimit);
    }
    r := Ok(if used.Fallback? then FallbackReason(s.durable) else reason);
  }

  lemma BodyFailed(b: Snap, c: Snap, durable: bool, d: Driver, turn: nat, r: Result<TurnEndReason, Failure>,
                   segments: seq<Segment>)
    requires TurnRan(b, c, durable, d, turn, r, segments) && r.Err?
    ensures PassedOn(durable, c.st.open, r.error)
  {
  }

  lemma BodyDone(a: Snap, b: Snap, c: Snap, durable: bool, d: Driver, turn: nat, r: Result<TurnEndReason, Failure>,
                 segments: seq<Segment>)
    requires TurnOpened(a.st, b.st, durable, turn) && TurnRan(b, c, durable, d, turn, r, segments) && r.Ok?
    ensures c.st.attempts.phase.NoAttempt? && NoWork(c.st.open)
    ensures IsLive(c.st.slots, 1) && c.st.slots[1].fallback == TurnEnd(turn, FallbackReason(durable))
  {
  }

  lemma TurnFinished(a: Snap, b: Snap, c: Snap, e: Snap, durable: bool, d: Driver, turn: nat, proposal: Proposal,
                     r: Result<TurnEndReason, Failure>, segments: seq<Segment>, final: TurnEndReason, t: TurnTrace)
    requires TurnOpened(a.st, b.st, durable, turn) && TurnRan(b, c, durable, d, turn, r, segments) && r.Ok?
    requires b.now == a.now && b.env == a.env && a.now == FreshCounters(a.now.headerLogged)
    requires e == c.(st := e.st, marks := e.marks) && (c.marks.crowded ==> e.marks.crowded) && |c.st.slots| > 1
    requires if IsEmpty(proposal) then EmptyTold(proposal, r.value, c.env) else EndExplained(segments, r.value, c, d.limits)
    requires e.st == Consumed(c.st, 1, TurnEnd(turn, final)).(visible := e.st.visible)
    requires IsSuccess(r.value) ==> TokensKept(a.now, c.now, d.limits)
    requires !c.now.durableLimit && (final == r.value || (!durable && final == Error(EventBudget)))
    requires t == TurnTrace(turn, segments, final)
    ensures TurnDone(a, e, durable, d.limits, RulesOf(d), turn, proposal, Ok(TurnOutcome(turn, final, c.now)), t)
  {
    hide SegmentsClosed, StopDecides, Within, Recorded, Ran, Accounted, InLimits, CountersTell, LeftBy, RoundsIn, Overran, AttemptsOf,
      RewritesHold, CostIn, StepsIn, StalledIn, ReasonTold, EndExplained, EmptyTold, SegmentsGoverned, Summaries, Tallied;
    FinishedReason(proposal, r.value, c, e, d.limits, final, durable, t);
    FinishedRuns(a.st, b.st, c.st, e.st, durable, turn, segments, final, t);
    FinishedCounts(a, c, d, segments);
  }

  lemma FinishedReason(proposal: Proposal, reason: TurnEndReason, c: Snap, e: Snap, limits: Limits, final: TurnEndReason,
                       durable: bool, t: TurnTrace)
    requires if IsEmpty(proposal) then EmptyTold(proposal, reason, c.env) else EndExplained(t.segments, reason, c, limits)
    requires e == c.(st := e.st, marks := e.marks) && (c.marks.crowded ==> e.marks.crowded)
    requires (final == reason || (!durable && final == Error(EventBudget))) && t.reason == final
    ensures ReasonTold(proposal, t, e, limits) || (!durable && t.reason == Error(EventBudget))
  {
    hide EndExplained;
    if !IsEmpty(proposal) {
      EndExplainedStays(t.segments, reason, c, e, limits);
    }
  }

  lemma EndExplainedStays(xs: seq<Segment>, reason: TurnEndReason, x: Snap, y: Snap, limits: Limits)
    requires EndExplained(xs, reason, x, limits) && y == x.(st := y.st, marks := y.marks) && (x.marks.crowded ==> y.marks.crowded)
    ensures EndExplained(xs, reason, y, limits)
  {
    hide GoesOn, Grounded, OutcomeReason, EndsBetween;
    if |xs| > 0 && xs[|xs| - 1].Step? && !GoesOn(xs[|xs| - 1]) {
      GroundedStays(xs[|xs| - 1].step, x, y, limits);
    } else {
      EndsStays(reason, x, y, limits);
    }
  }

  lemma FinishedCounts(a: Snap, c: Snap, d: Driver, segments: seq<Segment>)
    requires a.now == FreshCounters(a.now.headerLogged) && c.now.steps == a.now.steps + StepsIn(segments)
    requires Within(a.now.(steps := c.now.steps), c.now, d.limits, Overran(RoundsIn(segments)), CostIn(segments))
    requires c.now.steps <= d.limits.maxSteps
    ensures CountersTell(c.now, segments) && InLimits(segments, d.limits)
  {
  }

  lemma FinishedRuns(a: State, b: State, c: State, e: State, durable: bool, turn: nat, segments: seq<Segment>,
                     final: TurnEndReason, t: TurnTrace)
    requires TurnOpened(a, b, durable, turn) && Ran(b, c, SegmentsEvents(segments), {}) && |c.slots| > 1
    requires e == Consumed(c, 1, TurnEnd(turn, final)).(visible := e.visible)
    requires t == TurnTrace(turn, segments, final)
    ensures e.log == a.log + TurnEvents(t) && e.open == c.open && e.attempts == c.attempts
    ensures forall left :: Accounted(c.slots, |b.slots|, left) ==> Accounted(e.slots, 0, left)
  {
    hide SegmentsEvents, NextSurface, OpenAfter, SurfaceAfter, Accounted;
    FinishedLog(a.log, SegmentsEvents(segments), turn, final);
    assert b.slots[0].Settled? && c.slots[0] == b.slots[0];
    forall left | Accounted(c.slots, |b.slots|, left)
      ensures Accounted(e.slots, 0, left)
    {
      AccountedStill(c.slots, e.slots, 2, left);
      AccountedBefore(e.slots, 0, 2, left);
    }
  }

  lemma FinishedLog(log: seq<Event>, middle: seq<Event>, turn: nat, final: TurnEndReason)
    ensures log + [TurnStart(turn)] + middle + [TurnEnd(turn, final)] == log + ([TurnStart(turn)] + middle + [TurnEnd(turn, final)])
  {
  }

  class AgentLoop {
    const session: Session
    const world: World
    const limits: Limits
    const filePolicy: Policy
    const shellPolicy: Policy
    const pluginPolicy: Policy
    var poisoned: bool
    var headerLogged: bool
    var nextTurn: nat
    ghost var turns: seq<TurnTrace>

    // While the loop accepts turns, the session is idle: nothing is pending, no
    // attempt is open, its log is exactly the closed turns so far, its provider attempts
    // are theirs, and the world knows of exactly their tool rounds.
    ghost predicate Valid()
      reads this, session, world
    {
      && session.Valid()
      && (!poisoned ==>
            && session.st.attempts == TurnsAttempts(turns) && session.st.attempts.phase.NoAttempt?
            && NoWork(session.st.open) && !session.st.open.abandoned
            && session.st.log == TurnsEvents(turns)
            && world.env.rounds == TurnsRounds(turns)
            && TurnsClosed(turns) && TurnsGoverned(Rules(filePolicy, shellPolicy, pluginPolicy, limits.maxCallsPerStep), turns)
            && nextTurn == |turns| + 1)
    }

    constructor (durable: bool, limits: Limits, file: Policy, shell: Policy, plugin: Policy)
      ensures Valid() && fresh(session) && fresh(world) && !poisoned && turns == [] && session.durable == durable
    {
      session := new Session(durable);
      world := new World();
      this.limits := limits;
      filePolicy, shellPolicy, pluginPolicy := file, shell, plugin;
      poisoned, headerLogged, nextTurn, turns := false, false, 1, [];
    }

    // One turn of the loop. A turn that fails, or that leaves a call without a result,
    // is the last one.
    method RunTurn(proposal: Proposal) returns (r: Result<TurnOutcome, LoopError>)
      requires Valid()
      modifies this, session, world
      ensures Valid()
      ensures old(poisoned) ==> r == Err(Poisoned) && poisoned && session.st == old(session.st)
      ensures r == Err(LoopError.Declined) ==> !poisoned && session.st == old(session.st) && turns == old(turns)
      ensures r.Err? && !r.error.Declined? ==> poisoned
      ensures !poisoned && r != Err(LoopError.Declined) ==>
        && |turns| == |old(turns)| + 1 && turns[..|old(turns)|] == old(turns)
        && r.Ok? && r.value.turn == |turns| && r.value.reason == turns[|turns| - 1].reason
        && (proposal.Enter? ==> Delivered(turns[|turns| - 1].segments, proposal.messages))
        && (!IsEmpty(proposal) ==> Answers(turns[|turns| - 1].segments, r.value.reason))
      ensures session.durable && r.Ok? ==> !poisoned
      ensures r.Ok? ==>
        && |turns| == |old(turns)| + 1
        && world.env.rounds == old(world.env.rounds) + RoundsIn(turns[|turns| - 1].segments)
        && CountersTell(r.value.counters, turns[|turns| - 1].segments)
        && InLimits(turns[|turns| - 1].segments, limits)
        && (IsSuccess(r.value.reason) ==> r.value.counters.reportedTokens <= limits.maxReportedTokens)
        && RewritesHold(old(session.st.surface), turns[|turns| - 1].segments)
        && !session.marks.limited && (session.marks.stalled <==> StalledIn(turns[|turns| - 1].segments))
        && Accounted(session.st.slots, 0, LeftBy(turns[|turns| - 1].segments))
      ensures r.Err? && r.error.Failed? ==> PassedOn(session.durable, session.st.open, r.error.error)
    {
      hide TurnClosed, TurnEvents, RoundsIn, StepsIn, Summaries, Overran, Accounted, SegmentsGoverned, StopDecides, InLimits,
        CountersTell, RewritesHold, StalledIn, Answers, Delivered, AttemptsOf, TurnsAttempts, TurnsEvents, TurnsRounds, TurnsClosed, TurnsGoverned;
      if poisoned {
        return Err(Poisoned);
      }
      var accepted := world.Flip();
      if !accepted {
        return Err(LoopError.Declined);
      }
      ghost var before := session.st;
      var d := new Driver(limits, filePolicy, shellPolicy, pluginPolicy, headerLogged);
      var turn := nextTurn;
      var outcome;
      ghost var t;
      outcome, t := RunTurnInner(session, d, world, turn, proposal);
      headerLogged := d.now.headerLogged;
      if outcome.Err? {
        poisoned := true;
        return Err(LoopError.Failed(outcome.error));
      }
      nextTurn := nextTurn + 1;
      poisoned := session.st.open.abandoned || !NoWork(session.st.open);
      if !poisoned {
        TurnAdded(before, session.st, turns, t);
        RoundsAdded(Rules(filePolicy, shellPolicy, pluginPolicy, limits.maxCallsPerStep), turns, t);
      }
      turns := turns + [t];
      r := Ok(outcome.value);
    }
  }

  lemma TurnAdded(a: State, b: State, turns: seq<TurnTrace>, t: TurnTrace)
    requires a.log == TurnsEvents(turns) && b.log == a.log + TurnEvents(t)
    requires TurnsClosed(turns) && TurnComplete(t) && t.turn == |turns| + 1
    ensures b.log == TurnsEvents(turns + [t]) && TurnsClosed(turns + [t])
  {
    hide TurnEvents, TurnComplete;
    EventsAdded(turns, t);
  }

  lemma RoundsAdded(rules: Rules, turns: seq<TurnTrace>, t: TurnTrace)
    requires TurnsGoverned(rules, turns) && SegmentsGoverned(rules, t.segments)
    ensures TurnsRounds(turns + [t]) == TurnsRounds(turns) + RoundsIn(t.segments)
    ensures TurnsAttempts(turns + [t]) == AttemptsOf(TurnsAttempts(turns), t.segments)
    ensures TurnsGoverned(rules, turns + [t])
  {
    hide RoundsIn, SegmentsGoverned, AttemptsOf;
    assert (turns + [t])[..|turns|] == turns;
  }

  lemma EventsAdded(turns: seq<TurnTrace>, t: TurnTrace)
    ensures TurnsEvents(turns + [t]) == TurnsEvents(turns) + TurnEvents(t)
  {
    assert (turns + [t])[..|turns|] == turns;
  }

  // The log of a loop that was not poisoned obeys the order rules of the session from
  // its first event to its last.
  lemma {:induction false} LogIsAccepted(turns: seq<TurnTrace>)
    requires TurnsClosed(turns)
    ensures OrderRules.Reads(OrderRules.Idle(1), TurnsEvents(turns), OrderRules.Idle(|turns| + 1))
  {
    if |turns| == 0 {
      OrderRules.ReadsStill(OrderRules.Idle(1), []);
    } else {
      var last := |turns| - 1;
      LogIsAccepted(turns[..last]);
      OrderRules.ReadsTurn(turns[last]);
      OrderRules.ReadsOn(OrderRules.Idle(1), TurnsEvents(turns[..last]), OrderRules.Idle(last + 1),
                         TurnEvents(turns[last]), OrderRules.Idle(|turns| + 1));
    }
  }
}
