// One turn: steps until one of them ends it (src/agent/mod.rs:1221-1542).
module AgentTurn {
  import opened Common
  import opened SessionLog
  import opened SessionModel
  import opened WorldModel
  import opened DriverModel
  import opened LogGrammar
  import opened Moment
  import opened ToolIteration
  import opened ToolRound
  import opened StepAttempt
  import opened AgentStep
  import opened StepClosing
  import opened StepFrame
  import opened PreStep

  // A durable session closes every step with all its results; so did a memory session
  // that has not abandoned a call.
  predicate Strict(durable: bool, o: OpenWork) {
    durable || !o.abandoned
  }

  // What is abandoned stays so, and a durable session abandons nothing.
  predicate Abandons(durable: bool, a: OpenWork, b: OpenWork) {
    (a.abandoned ==> b.abandoned) && (durable ==> a.abandoned == b.abandoned)
  }

  // The outcomes of a step that answered.
  predicate GoesWell(outcome: StepOutcome) {
    outcome.Continue? || outcome.Completed? || outcome.MaxTokens?
  }

  // ----- one step in its frame

  // The session refuses to close a step over a pending question and, when it is durable,
  // over a call without a result.
  predicate Unclosable(durable: bool, o: OpenWork) {
    o.pending || (durable && o.unresolved > 0)
  }

  // The errors a turn may pass on; the session refuses an event only where a step
  // cannot be closed.
  predicate PassedOn(durable: bool, o: OpenWork, error: Failure) {
    && !error.SurfaceChanged? && !error.AttemptNotRetired?
    && (error.Refused? ==> Unclosable(durable, o))
  }

  // The answer whose claims a closed step left over, if it failed in a tool round.
  function LeftByStep(t: StepTrace): Option<Event> {
    if t.failed then UnfinishedAnswer(t.attempts) else None
  }

  // The provider attempts of the session after a closed step: those of the step, and
  // the one still open at its end closed with it.
  function AttemptsOfStep(a: Attempts, t: StepTrace): Attempts {
    ClosedByEnd(StepAttempts(a, t.attempts), t.outcome.Cancelled?)
  }

  function AttemptsOf(a: Attempts, xs: seq<Segment>): Attempts {
    if |xs| == 0 then a
    else
      var before := AttemptsOf(a, xs[..|xs| - 1]);
      if xs[|xs| - 1].Step? then AttemptsOfStep(before, xs[|xs| - 1].step) else before
  }

  lemma {:induction false} AttemptsConcat(a: Attempts, xs: seq<Segment>, ys: seq<Segment>)
    ensures AttemptsOf(a, xs + ys) == AttemptsOf(AttemptsOf(a, xs), ys)
  {
    hide AttemptsOfStep;
    if |ys| == 0 {
      assert xs + ys == xs;
    } else {
      var last := |ys| - 1;
      assert (xs + ys)[..|xs + ys| - 1] == xs + ys[..last];
      AttemptsConcat(a, xs, ys[..last]);
    }
  }

  // A step that was run and closed, or could not be closed.
  ghost predicate FramedStep(a: Snap, b: Snap, durable: bool, d: Driver, base: nat, r: Result<StepResolution, Failure>, t: StepTrace) {
    && (r.Ok? ==>
          && Ran(a.st, b.st, StepEvents(t), FrameClaims(base, |t.inputs| + 2))
          && |a.st.slots| <= |b.st.slots|
          && FrameSpent(b.st.slots, base, |t.inputs| + 2)
          && b.st.attempts == AttemptsOfStep(a.st.attempts, t) && b.st.attempts.phase.NoAttempt?
          && NoWork(b.st.open)
          && Abandons(durable, a.st.open, b.st.open)
          && AttemptsClosed(Strict(durable, b.st.open), t.attempts) && AttemptsGoverned(RulesOf(d), t.attempts)
          && Within(a.now.(steps := b.now.steps), b.now, d.limits, Overran(AttemptsRounds(t.attempts)), AttemptsCost(t.attempts))
          && b.now.steps == a.now.steps + 1
          && Recorded(a.env, b.env, AttemptsRounds(t.attempts))
          && Accounted(b.st.slots, |a.st.slots|, LeftByStep(t))
          && (GoesWell(r.value.outcome) ==> TokensKept(a.now, b.now, d.limits))
          && EndedAs(r.value, t) && Grounded(t, b, d.limits))
    && (r.Err? ==> PassedOn(durable, b.st.open, r.error))
  }

  // A step that failed has an error of its own and forgets the stop of its round; any
  // other one tells the first stop of its round, and goes well only with an answer. What the
  // attempts came to is what is told, unless the observer was lost at the very end.
  predicate EndedAs(resolution: StepResolution, t: StepTrace) {
    && (Stalled(t.attempts) ==> t.failed)
    && (t.failed ==> resolution.stop == NoStop && t.outcome == ErrorOutcome(Internal))
    && (!t.failed ==> resolution.stop == StopIn(t.attempts))
    && (if t.unseen then resolution == StepResolution(ErrorOutcome(ErrorCode.ObserverUnavailable), NoStop)
        else resolution.outcome == t.outcome)
    && (GoesWell(resolution.outcome) ==> AnsweredFully(t.attempts))
  }

  // What the attempts of a step that did not fail came to is true: its answer says so, or the
  // session, the limits or the world.
  predicate Grounded(t: StepTrace, x: Snap, limits: Limits) {
    && (t.unseen ==> x.now.observerUnavailable)
    && (!t.failed ==>
          && |t.attempts| > 0
          && OutcomeTold(t.attempts[|t.attempts| - 1].end, StepResolution(t.outcome, StopIn(t.attempts)), x, limits, |t.attempts| - 1))
  }

  predicate OutcomeTold(end: AttemptEnd, resolution: StepResolution, x: Snap, limits: Limits, tries: nat) {
    if end.Answered? then AnswerTold(end, resolution, x.now) else OutcomeHolds(resolution.outcome, x, limits, tries)
  }

  lemma GroundedStays(t: StepTrace, x: Snap, y: Snap, limits: Limits)
    requires Grounded(t, x, limits) && Holds(x, y)
    ensures Grounded(t, y, limits)
  {
    hide AnswerDecides;
  }

  // Enter the frame, run the step, close the frame. A passing failure inside the step
  // becomes an internal error of the turn; a failure that leaves the session unusable,
  // or a result the session still owns, is returned (src/agent/mod.rs:1425-1497).
  method RunFramed(s: Session, d: Driver, w: World, base: nat, turn: nat, messages: seq<Message>, prepared: Option<Preparation>)
    returns (r: Result<StepResolution, Failure>, ghost t: StepTrace)
    requires s.Valid() && Agree(s, d) && s.st.attempts.phase.NoAttempt? && NoWork(s.st.open)
    requires FrameLive(s.st.slots, base, FrameEvents(turn, d.now.steps + 1, messages), 0)
    requires prepared.Some? ==> PreparedFor(prepared.value, s.st.surface, messages) && Told(prepared.value, w.env.fault)
    modifies s, d, w
    ensures s.Valid() && t == StepTrace(turn, old(d.now).steps + 1, messages, t.attempts, t.failed, t.outcome, t.unseen)
    ensures r.Ok? ==> AgreedBut(s, d, Stalled(t.attempts))
    ensures FramedStep(old(Look(s, d, w)), Look(s, d, w), s.durable, d, base, r, t)
  {
    hide Ran, StepRan, FrameEntered, FrameClosed, FramedStep, AttemptsClosed, PreparedFor, MatchesSurface, NoWork, Stalled;
    ghost var a := Look(s, d, w);
    var step := d.now.steps + 1;
    t := StepTrace(turn, step, messages, [], false, Continue, false);
    var entered := EnterFrame(s, base, turn, step, messages);
    if entered.Err? {
      r := Err(entered.error);
      FrameFailed(a, Look(s, d, w), s.durable, d, base, r, t);
      return;
    }
    d.now := d.now.(steps := d.now.steps + 1);
    ghost var b := Look(s, d, w);
    EnteredReady(a, b, base, turn, step, messages);
    var ran;
    ghost var xs;
    ran, xs := RunStep(s, d, w, prepared);
    if ran.Err? && (ran.error.Fatal? || ran.error.Retained?) {
      r := Err(ran.error);
      t := t.(attempts := xs, failed := true, outcome := ErrorOutcome(Internal));
      FrameFailed(a, Look(s, d, w), s.durable, d, base, r, t);
      return;
    }
    r, t := CloseStep(s, d, w, base, turn, step, messages, ran, xs, a, b);
  }

  // Close the frame of a step that was run.
  method CloseStep(s: Session, d: Driver, ghost w: World, base: nat, ghost turn: nat, ghost step: nat, messages: seq<Message>,
                   ran: Result<StepResolution, Failure>, ghost xs: seq<AttemptTrace>, ghost a: Snap, ghost b: Snap)
    returns (r: Result<StepResolution, Failure>, ghost t: StepTrace)
    requires s.Valid() && Agree(s, d) && StepRan(b, Look(s, d, w), s.durable, d, ran, xs)
    requires ran.Err? ==> !ran.error.Fatal?
    requires FrameEntered(a.st, b.st, base, turn, step, messages) && b.env == a.env && b.now == a.now.(steps := a.now.steps + 1)
    requires a.st.attempts.phase.NoAttempt? && b.st.attempts.phase.NoAttempt? && NoWork(a.st.open) && b.st.open == a.st.open
    requires base + |messages| + 2 <= |a.st.slots|
    modifies s, d
    ensures s.Valid() && Agreed(s, d) && t == StepTrace(turn, step, messages, xs, t.failed, t.outcome, t.unseen)
    ensures FramedStep(a, Look(s, d, w), s.durable, d, base, r, t)
  {
    hide Ran, StepRan, FrameEntered, FrameClosed, FramedStep, AttemptsClosed, NoWork, Stalled, Agree;
    ghost var c := Look(s, d, w);
    var resolution := if ran.Ok? then ran.value else StepResolution(ErrorOutcome(Internal), NoStop);
    t := StepTrace(turn, step, messages, xs, ran.Err?, resolution.outcome, false);
    RanReady(a, b, c, s.durable, d, base, turn, step, messages, ran, xs);
    r := CloseFrame(s, d, base + |messages| + 1, turn, step, resolution);
    t := t.(unseen := r.Ok? && r.value != resolution);
    Framed(a, b, c, Look(s, d, w), s.durable, d, base, ran, resolution, r, t);
  }

  lemma FrameFailed(a: Snap, b: Snap, durable: bool, d: Driver, base: nat, r: Result<StepResolution, Failure>, t: StepTrace)
    requires r.Err? && !r.error.SurfaceChanged? && !r.error.AttemptNotRetired? && !r.error.Refused?
    ensures FramedStep(a, b, durable, d, base, r, t)
  {
  }

  lemma EnteredReady(a: Snap, b: Snap, base: nat, turn: nat, step: nat, messages: seq<Message>)
    requires FrameEntered(a.st, b.st, base, turn, step, messages) && a.st.attempts.phase.NoAttempt?
    requires NoWork(a.st.open)
    ensures b.st.attempts.phase.NoAttempt? && b.st.open == a.st.open
    ensures forall p :: PreparedFor(p, a.st.surface, messages) ==> MatchesSurface(p, b.st.surface)
  {
    QuietKeeps(a.st.open, [StepStart(turn, step)] + InputEvents(messages));
  }

  lemma RanReady(a: Snap, b: Snap, c: Snap, durable: bool, d: Driver, base: nat, turn: nat, step: nat, messages: seq<Message>,
                 ran: Result<StepResolution, Failure>, xs: seq<AttemptTrace>)
    requires FrameEntered(a.st, b.st, base, turn, step, messages) && StepRan(b, c, durable, d, ran, xs)
    requires b.st.attempts.phase.NoAttempt? && (ran.Err? ==> !ran.error.Fatal?)
    ensures !c.st.attempts.phase.Closed?
    ensures IsLive(c.st.slots, base + |messages| + 1) && c.st.slots[base + |messages| + 1].fallback == StepEnd(turn, step)
  {
    assert FrameAt(b.st.slots, base, FrameEvents(turn, step, messages), |messages| + 1);
    NeverLeftClosed(b.st.attempts, xs);
  }

  lemma {:induction false} NeverLeftClosed(a: Attempts, xs: seq<AttemptTrace>)
    requires a.phase.NoAttempt?
    ensures !StepAttempts(a, xs).phase.Closed?
  {
    if |xs| > 0 {
      NeverLeftClosed(a, xs[..|xs| - 1]);
    }
  }

  lemma Framed(a: Snap, b: Snap, c: Snap, e: Snap, durable: bool, d: Driver, base: nat,
               ran: Result<StepResolution, Failure>, resolution: StepResolution, r: Result<StepResolution, Failure>, t: StepTrace)
    requires FrameEntered(a.st, b.st, base, t.turn, t.step, t.inputs) && b.env == a.env && b.now == a.now.(steps := a.now.steps + 1)
    requires StepRan(b, c, durable, d, ran, t.attempts) && (ran.Err? ==> !ran.error.Fatal?) && t.failed == ran.Err?
    requires t.outcome == resolution.outcome && t.unseen == (r.Ok? && r.value != resolution) && a.st.attempts.phase.NoAttempt?
    requires NoWork(b.st.open) && b.st.open == a.st.open
    requires base + |t.inputs| + 2 <= |a.st.slots|
    requires resolution == if ran.Ok? then ran.value else StepResolution(ErrorOutcome(Internal), NoStop)
    requires e == c.(st := e.st, now := e.now, marks := e.marks) && FlagsRise(c.now, e.now) && (c.marks.crowded ==> e.marks.crowded)
    requires r.Ok? ==>
      && FrameClosed(c.st, e.st, base + |t.inputs| + 1, t.turn, t.step, t.outcome.Cancelled?)
      && Admits(durable, c.st.open, StepEnd(t.turn, t.step))
      && (c.st.attempts.phase.NoAttempt? ==> r.value == resolution)
      && (c.st.attempts.phase.Open? && IsEarly(resolution.outcome) ==> r.value == resolution || LostAtEnd(resolution, r.value, e.now))
    requires r.Err? && r.error.Refused? ==> e.st == c.st && !Admits(durable, c.st.open, StepEnd(t.turn, t.step))
    requires r.Err? ==> !r.error.SurfaceChanged? && !r.error.AttemptNotRetired?
    ensures FramedStep(a, e, durable, d, base, r, t)
  {
    hide AttemptsTrue, ChainsOk, AttemptsClosed, Within, Recorded, DoneTrue, AnsweredFully, EndedAs, Ran, SpentFrom, FrameSpent,
      Accounted, AttemptsRounds, AttemptsCost, Overran, FrameEntered, StepEvents, AttemptsEvents, FrameClaims, OpenAfter, LeftByStep, FailedAs, Unbroken, TokensKept;
    RanOpens(b.st, c.st, AttemptsEvents(t.attempts));
    StepCloses(durable, b.st.open, t.attempts, t.turn, t.step);
    LastAttempt(b.st.attempts, t.attempts);
    if ran.Ok? {
      DoneCloses(durable, ran.value, t.attempts, c, d.limits);
      DoneIsEarly(durable, ran.value, t.attempts, c, d.limits);
    }
    FramedEnds(durable, ran, resolution, r, t, c, e, d.limits);
    if r.Ok? {
      FramedRuns(a.st, b.st, c.st, e.st, base, t, ran);
      FramedCounts(a, b, c, e, d, AttemptsRounds(t.attempts), AttemptsCost(t.attempts));
      FramedAttempts(a.st, b.st, c.st, e.st, base, t, ran);
      FramedTokens(a.now, b.now, c.now, e.now, d.limits, r.value, t);
    }
  }

  lemma FramedTokens(a: Counters, b: Counters, c: Counters, e: Counters, limits: Limits, resolution: StepResolution, t: StepTrace)
    requires b == a.(steps := a.steps + 1) && FlagsRise(c, e) && EndedAs(resolution, t)
    requires Unbroken(t.attempts) ==> TokensKept(b, c, limits)
    ensures GoesWell(resolution.outcome) ==> TokensKept(a, e, limits)
  {
    hide BlocksComplete;
  }

  lemma FramedAttempts(a: State, b: State, c: State, e: State, base: nat, t: StepTrace, ran: Result<StepResolution, Failure>)
    requires FrameEntered(a, b, base, t.turn, t.step, t.inputs)
    requires AttemptsAre(c.attempts, StepAttempts(b.attempts, t.attempts), ran) && (ran.Err? ==> !ran.error.Fatal?)
    requires FrameClosed(c, e, base + |t.inputs| + 1, t.turn, t.step, t.outcome.Cancelled?)
    ensures e.attempts == AttemptsOfStep(a.attempts, t)
  {
    hide Ran;
  }

  lemma RanOpens(a: State, b: State, events: seq<Event>)
    requires Ran(a, b, events, {})
    ensures b.open == OpenAfter(a.open, events)
  {
  }

  lemma FramedEnds(durable: bool, ran: Result<StepResolution, Failure>, resolution: StepResolution,
                   r: Result<StepResolution, Failure>, t: StepTrace, c: Snap, e: Snap, limits: Limits)
    requires |t.attempts| > 0 && t.failed == ran.Err? && t.outcome == resolution.outcome && t.unseen == (r.Ok? && r.value != resolution)
    requires ran.Ok? ==> DoneTrue(durable, ran.value, t.attempts[|t.attempts| - 1].end, c, limits, |t.attempts| - 1)
    requires Stalled(t.attempts) ==> ran.Err?
    requires resolution == if ran.Ok? then ran.value else StepResolution(ErrorOutcome(Internal), NoStop)
    requires r.Ok? && r.value != resolution ==> LostAtEnd(resolution, r.value, e.now) && !t.attempts[|t.attempts| - 1].end.Answered?
    requires Holds(c, e)
    ensures r.Ok? ==> EndedAs(r.value, t) && Grounded(t, e, limits)
  {
    hide BlocksComplete, LostInMemory, AnswerDecides, CodeHolds;
    if ran.Ok? {
      DoneStays(durable, ran.value, t.attempts[|t.attempts| - 1].end, c, e, limits, |t.attempts| - 1);
    }
  }

  lemma DoneStays(durable: bool, resolution: StepResolution, end: AttemptEnd, x: Snap, y: Snap, limits: Limits, tries: nat)
    requires DoneTrue(durable, resolution, end, x, limits, tries) && Holds(x, y)
    ensures OutcomeTold(end, resolution, y, limits, tries)
  {
    hide BlocksComplete, LostInMemory, AnswerDecides, CodeHolds;
    if !end.Answered? {
      OutcomeStays(resolution.outcome, x, y, limits, tries);
    }
  }

  // Without an answer no step goes well.
  lemma DoneIsEarly(durable: bool, resolution: StepResolution, xs: seq<AttemptTrace>, c: Snap, limits: Limits)
    requires |xs| > 0 && DoneTrue(durable, resolution, xs[|xs| - 1].end, c, limits, |xs| - 1)
    ensures xs[|xs| - 1].end.Answered? || IsEarly(resolution.outcome)
  {
  }

  // A step that says how it was done may be closed.
  lemma DoneCloses(durable: bool, resolution: StepResolution, xs: seq<AttemptTrace>, c: Snap, limits: Limits)
    requires |xs| > 0 && AttemptsTrue(xs) && ChainsOk(xs)
    requires DoneTrue(durable, resolution, xs[|xs| - 1].end, c, limits, |xs| - 1)
    ensures AttemptsClosed(durable, xs)
  {
    forall i | 0 <= i < |xs| && xs[i].end.Answered?
      ensures BlocksClosed(durable, xs[i].end.calls, xs[i].end.blocks)
    {
      assert i < |xs| - 1 ==> Continued(xs[i]);
      assert AttemptTrue(xs[i]);
    }
  }

  lemma FramedCounts(a: Snap, b: Snap, c: Snap, e: Snap, d: Driver, rounds: seq<RoundRecord>, cost: Cost)
    requires b.env == a.env && b.now == a.now.(steps := a.now.steps + 1)
    requires Within(b.now, c.now, d.limits, Overran(rounds), cost) && Recorded(b.env, c.env, rounds)
    requires e.env == c.env && FlagsRise(c.now, e.now)
    ensures Within(a.now.(steps := e.now.steps), e.now, d.limits, Overran(rounds), cost) && e.now.steps == a.now.steps + 1
    ensures Recorded(a.env, e.env, rounds)
  {
  }

  lemma LastAttempt(a: Attempts, xs: seq<AttemptTrace>)
    ensures |xs| > 0 && xs[|xs| - 1].end.Answered? ==> StepAttempts(a, xs).phase.NoAttempt?
  {
  }

  lemma FramedRuns(a: State, b: State, c: State, e: State, base: nat, t: StepTrace, ran: Result<StepResolution, Failure>)
    requires FrameEntered(a, b, base, t.turn, t.step, t.inputs) && base + |t.inputs| + 2 <= |a.slots|
    requires Ran(b, c, AttemptsEvents(t.attempts), {})
    requires FrameClosed(c, e, base + |t.inputs| + 1, t.turn, t.step, t.outcome.Cancelled?)
    requires |t.attempts| > 0 && t.failed == ran.Err?
    requires ran.Ok? ==> SpentFrom(c.slots, |b.slots|)
    requires ran.Err? ==> !ran.error.Fatal? && FailedAs(b, c, ran.error, t.attempts[|t.attempts| - 1].end)
    ensures Ran(a, e, StepEvents(t), FrameClaims(base, |t.inputs| + 2))
    ensures |a.slots| <= |e.slots| && FrameSpent(e.slots, base, |t.inputs| + 2)
    ensures Accounted(e.slots, |a.slots|, LeftByStep(t))
  {
    hide Accounted, AttemptsEvents, SpentFrom;
    var claims := FrameClaims(base, |t.inputs| + 2);
    var head := [StepStart(t.turn, t.step)] + InputEvents(t.inputs);
    RanOn(a, b, c, head, AttemptsEvents(t.attempts), claims, {});
    RanOn(a, c, e, head + AttemptsEvents(t.attempts), [StepEnd(t.turn, t.step)], claims, {base + |t.inputs| + 1});
    assert Accounted(c.slots, |b.slots|, LeftByStep(t)) by {
      if ran.Ok? {
        SpentIsAccounted(c.slots, |b.slots|);
      }
    }
    AccountedStill(c.slots, e.slots, |b.slots|, LeftByStep(t));
  }

  lemma SpentIsAccounted(slots: seq<Slot>, first: nat)
    ensures SpentFrom(slots, first) <==> Accounted(slots, first, None)
  {
  }

  // ----- one iteration of the turn

  datatype Iteration = GoOn | Finish(reason: TurnEndReason)

  // The closed segments of a turn, the rounds it had, what it spent and its limits.
  ghost predicate TurnKept(a: Snap, b: Snap, durable: bool, d: Driver, turn: nat, segments: seq<Segment>) {
    && Ran(a.st, b.st, SegmentsEvents(segments), {})
    && |a.st.slots| <= |b.st.slots|
    && b.st.attempts == AttemptsOf(a.st.attempts, segments) && b.st.attempts.phase.NoAttempt?
    && NoWork(b.st.open)
    && Abandons(durable, a.st.open, b.st.open)
    && SegmentsClosed(Strict(durable, b.st.open), turn, segments, a.now.steps) && SegmentsGoverned(RulesOf(d), segments)
    && b.now.steps == a.now.steps + StepsIn(segments)
    && Within(a.now.(steps := b.now.steps), b.now, d.limits, Overran(RoundsIn(segments)), CostIn(segments))
    && RewritesHold(a.st.surface, segments)
    && (StalledIn(segments) ==> StepFailed(segments[|segments| - 1]))
    && Recorded(a.env, b.env, RoundsIn(segments))
  }

  // No segment latched a stop or failed.
  predicate NoneLatched(segments: seq<Segment>) {
    forall i :: 0 <= i < |segments| ==> LatchedStop(segments[i]) == NoStop && !StepFailed(segments[i])
  }

  // The one step there may be carries these messages.
  predicate Carries(segments: seq<Segment>, messages: seq<Message>) {
    forall i :: 0 <= i < |segments| && segments[i].Step? ==>
      segments[i].step.inputs == messages && StepsIn(segments[..i]) == 0
  }

  // An iteration that goes on, or ends the turn well, ended with a complete answer;
  // nothing but passages stands before it.
  predicate Ends(segments: seq<Segment>, next: Iteration) {
    && (forall i :: 0 <= i < |segments| - 1 ==> segments[i].Pre?)
    && (next.GoOn? ==> |segments| > 0 && StepAnswered(segments[|segments| - 1]))
    && (next.Finish? && IsSuccess(next.reason) ==> |segments| > 0 && SuccessTold(segments[|segments| - 1], next.reason))
  }

  // The step lets its turn go on: a whole round in which nothing was lost, nothing was
  // stopped and no call asks for the end.
  predicate GoesOn(s: Segment) {
    && s.Step? && !s.step.failed && !s.step.unseen && s.step.outcome.Continue?
    && |s.step.attempts| > 0 && StopIn(s.step.attempts) == NoStop
    && s.step.attempts[|s.step.attempts| - 1].end.Answered?
    && AnswerDecides(s.step.attempts[|s.step.attempts| - 1].end, Continue)
  }

  // The reason of a turn that an outcome ends.
  predicate OutcomeReason(outcome: StepOutcome, reason: TurnEndReason) {
    && !outcome.Continue?
    && (reason.Completed? <==> outcome.Completed?)
    && (reason.MaxTokens? <==> outcome.MaxTokens?)
    && (reason.Aborted? <==> outcome.Cancelled?)
    && (reason.Error? <==> outcome.ErrorOutcome?)
    && (reason.Error? ==> reason.code == outcome.code)
  }

  // How a step tells the end of its turn: by a durable ceiling, by the first stop of its
  // round, by what is true of the world, by the observer that was lost, or by what its
  // attempts came to.
  predicate StepExplains(t: StepTrace, reason: TurnEndReason, x: Snap, limits: Limits) {
    && Grounded(t, x, limits)
    && (t.failed ==> t.outcome == ErrorOutcome(Internal))
    && if x.now.durableLimit then reason == Error(SessionLimit)
       else if !t.failed && StopIn(t.attempts) != NoStop then reason == ReasonOfStop(StopIn(t.attempts))
       else if StopOf(x.env).Some? then reason == StopOf(x.env).value
       else if t.unseen then reason == Error(ErrorCode.ObserverUnavailable)
       else OutcomeReason(t.outcome, reason)
  }

  // Why a turn that was entered ended: its last step tells it, or that step lets the turn go
  // on, or there was none, and the reason is true of the moment between two steps.
  predicate EndExplained(xs: seq<Segment>, reason: TurnEndReason, x: Snap, limits: Limits) {
    if |xs| > 0 && xs[|xs| - 1].Step? && !GoesOn(xs[|xs| - 1]) then StepExplains(xs[|xs| - 1].step, reason, x, limits)
    else EndsBetween(reason, x, limits)
  }

  // What one iteration leaves: perhaps a passage of prunes and one compaction, then
  // perhaps a step. Only a step that failed leaves claims live.
  ghost predicate Iterated(a: Snap, b: Snap, durable: bool, d: Driver, turn: nat, r: Result<Iteration, Failure>, segments: seq<Segment>) {
    && (r.Ok? ==> TurnKept(a, b, durable, d, turn, segments) && Accounted(b.st.slots, |a.st.slots|, LeftBy(segments)))
    && (r.Ok? && r.value.GoOn? ==> StepsIn(segments) == 1 && NoneLatched(segments) && |segments| > 0 && GoesOn(segments[|segments| - 1]))
    && (r.Ok? && r.value.Finish? ==>
          StopDecides(segments, r.value.reason, b.now.durableLimit, b.env) && EndExplained(segments, r.value.reason, b, d.limits))
    && (r.Err? ==> PassedOn(durable, b.st.open, r.error))
  }

  // The turn goes on, or ends well.
  predicate Succeeds(r: Result<Iteration, Failure>) {
    r.Ok? && (r.value.GoOn? || IsSuccess(r.value.reason))
  }

  // How a step ends its turn when nothing stopped it.
  function EndOf(outcome: StepOutcome): Iteration {
    match outcome
    case Continue => GoOn
    case Completed => Finish(TurnEndReason.Completed)
    case MaxTokens => Finish(TurnEndReason.MaxTokens)
    case Cancelled => Finish(Aborted)
    case ErrorOutcome(code) => Finish(Error(code))
  }

  // Only an outcome that says so lets the turn go on; any other one is its reason.
  predicate OutcomeNext(outcome: StepOutcome, next: Iteration) {
    && (next.GoOn? <==> outcome.Continue?)
    && (next.Finish? ==> OutcomeReason(outcome, next.reason))
  }

  // How the end of a step ends the turn, or not: a durable limit first, then the
  // latched stop, then the present state of the world, then the outcome of the step
  // (src/agent/mod.rs:1498-1540).
  method Classify(d: Driver, w: World, resolution: StepResolution) returns (r: Iteration)
    modifies w
    ensures Later(old(w.env), w.env, w.env.firstStop)
    ensures d.now.durableLimit ==> r == Finish(Error(SessionLimit))
    ensures !d.now.durableLimit && resolution.stop != NoStop ==> r == Finish(ReasonOfStop(resolution.stop))
    ensures !d.now.durableLimit && resolution.stop == NoStop ==>
      if StopOf(w.env).Some? then r == Finish(StopOf(w.env).value) else OutcomeNext(resolution.outcome, r)
  {
    if d.now.durableLimit {
      return Finish(Error(SessionLimit));
    }
    if resolution.stop != NoStop {
      return Finish(ReasonOfStop(resolution.stop));
    }
    var stop := w.SampleStop();
    if stop != NoStop {
      return Finish(ReasonOfStop(stop));
    }
    r := EndOf(resolution.outcome);
  }

  // What is looked at before every step (src/agent/mod.rs:1230-1245).
  method EndBefore(d: Driver, w: World) returns (reason: Option<TurnEndReason>)
    modifies w
    ensures Later(old(w.env), w.env, w.env.firstStop)
    ensures StopOf(w.env).Some? ==> reason == StopOf(w.env)
    ensures StopOf(w.env).None? ==> reason == if d.now.steps >= d.limits.maxSteps then Some(Error(MaxSteps)) else None
    ensures reason.Some? ==> !IsSuccess(reason.value)
  {
    var stop := w.SampleStop();
    if stop != NoStop {
      return Some(ReasonOfStop(stop));
    }
    reason := if d.now.steps >= d.limits.maxSteps then Some(Error(MaxSteps)) else None;
  }

  // One iteration (src/agent/mod.rs:1230-1541).
  method Iterate(s: Session, d: Driver, w: World, turn: nat, messages: seq<Message>, was: bool)
    returns (r: Result<Iteration, Failure>, attempted: bool, ghost segments: seq<Segment>)
    requires s.Valid() && Agree(s, d) && s.st.attempts.phase.NoAttempt? && NoWork(s.st.open)
    modifies s, d, w
    ensures s.Valid() && Iterated(old(Look(s, d, w)), Look(s, d, w), s.durable, d, turn, r, segments)
    ensures r.Ok? ==> AgreedBut(s, d, StalledIn(segments))
    ensures Succeeds(r) ==> TokensKept(old(d.now), d.now, d.limits)
    ensures r.Ok? && d.now.steps > old(d.now).steps ==> d.now.steps <= d.limits.maxSteps
    ensures (was ==> attempted) && Summaries(segments) <= if attempted && !was then 1 else 0
    ensures r.Ok? ==> Carries(segments, messages) && Ends(segments, r.value)
  {
    hide Ran, Moved, Iterated, Passed, FramedStep, FrameLive, EndsBetween, NoWork;
    attempted, segments := was, [];
    ghost var a := Look(s, d, w);
    var end, base;
    end, base := OpenStep(s, d, w, turn, messages);
    if end.Err? || end.value.Some? {
      r := if end.Err? then Err(end.error) else Ok(Finish(end.value.value));
      IteratedNothing(a, Look(s, d, w), s.durable, d, turn, r);
      return;
    }
    r, attempted, segments := TakeStep(s, d, w, base, turn, messages, was, a);
  }

  // The looks before a step and the claim of its frame; a reason says that there is no step.
  method OpenStep(s: Session, d: Driver, w: World, turn: nat, messages: seq<Message>)
    returns (end: Result<Option<TurnEndReason>, Failure>, base: nat)
    requires s.Valid() && Agree(s, d)
    modifies s, d, w
    ensures s.Valid() && FlagsRise(old(d.now), d.now) && Drift(old(w.env), w.env)
    ensures end.Ok? ==> Agreed(s, d)
    ensures end.Ok? && end.value.None? ==>
      && OnlyMore(old(s.st), s.st) && base == |old(s.st).slots| && |s.st.slots| == base + |messages| + 2
      && FrameLive(s.st.slots, base, FrameEvents(turn, d.now.steps + 1, messages), 0)
      && d.now == old(d.now) && d.now.steps < d.limits.maxSteps
    ensures end.Err? || end.value.Some? ==> s.st == old(s.st)
    ensures end.Ok? && end.value.Some? ==> EndsBetween(end.value.value, Look(s, d, w), d.limits) && !IsSuccess(end.value.value)
    ensures end.Err? ==> !IsLoopBug(end.error)
  {
    hide FrameLive, StopOf, ReasonOfStop, EndsBetween, OnlyMore;
    base := 0;
    var reason := EndBefore(d, w);
    StopEnds(Look(s, d, w), d.limits);
    StepsEnd(Look(s, d, w), d.limits);
    if reason.Some? {
      return Ok(reason), base;
    }
    var claimed := ClaimFrame(s, FrameEvents(turn, d.now.steps + 1, messages));
    if claimed.Err? {
      end := NoFrame(d, claimed.error);
      RefusalEnds(claimed.error, Look(s, d, w), d.limits);
      return;
    }
    end, base := Ok(None), claimed.value;
  }

  // The passage and the step, once the frame is claimed.
  method TakeStep(s: Session, d: Driver, w: World, base: nat, turn: nat, messages: seq<Message>, was: bool, ghost a: Snap)
    returns (r: Result<Iteration, Failure>, attempted: bool, ghost segments: seq<Segment>)
    requires s.Valid() && Agree(s, d) && s.st.attempts.phase.NoAttempt? && NoWork(s.st.open)
    requires OnlyMore(a.st, s.st) && base == |a.st.slots| && |s.st.slots| == base + |messages| + 2
    requires d.now == a.now && Drift(a.env, w.env) && d.now.steps < d.limits.maxSteps
    requires FrameLive(s.st.slots, base, FrameEvents(turn, d.now.steps + 1, messages), 0)
    modifies s, d, w
    ensures s.Valid() && Iterated(a, Look(s, d, w), s.durable, d, turn, r, segments)
    ensures r.Ok? ==> AgreedBut(s, d, StalledIn(segments))
    ensures Succeeds(r) ==> TokensKept(a.now, d.now, d.limits)
    ensures r.Ok? ==> d.now.steps <= d.limits.maxSteps
    ensures (was ==> attempted) && Summaries(segments) <= if attempted && !was then 1 else 0
    ensures r.Ok? ==> Carries(segments, messages) && Ends(segments, r.value)
  {
    hide Ran, Moved, Iterated, Passed, FramedStep, FrameLive, Carries, Ends, Agree, StalledIn, TokensKept, Summaries, Told;
    ghost var b, step := Look(s, d, w), d.now.steps + 1;
    var passage;
    passage, attempted, segments := BeforeStep(s, d, w, messages, was);
    ghost var c := Look(s, d, w);
    if passage.Err? {
      r := Err(passage.error);
      PassageFailed(a, b, c, s.durable, d, turn, messages, was, attempted, passage, segments);
      return;
    }
    PassageReady(a, b, c, d, base, turn, step, messages, was, attempted, passage, segments);
    ghost var before := segments;
    r, segments := AfterPassage(s, d, w, base, turn, messages, passage, was, attempted, a, b, before);
  }

  // Give the frame back or run the step in it (src/agent/mod.rs:1425-1541).
  method AfterPassage(s: Session, d: Driver, w: World, base: nat, turn: nat, messages: seq<Message>, passage: Result<PreOutcome, Failure>,
                      ghost was: bool, ghost attempted: bool, ghost a: Snap, ghost b: Snap, ghost before: seq<Segment>)
    returns (r: Result<Iteration, Failure>, ghost segments: seq<Segment>)
    requires s.Valid() && Agree(s, d) && s.st.attempts.phase.NoAttempt? && NoWork(s.st.open) && s.st.open == a.st.open
    requires OnlyMore(a.st, b.st) && base == |a.st.slots| && |b.st.slots| == base + |messages| + 2
    requires b.now == a.now && Drift(a.env, b.env) && d.now.steps == a.now.steps
    requires Passed(b, Look(s, d, w), d, messages, was, attempted, passage, before) && passage.Ok?
    requires FrameLive(s.st.slots, base, FrameEvents(turn, d.now.steps + 1, messages), 0)
    requires passage.value.Proceed? && passage.value.prepared.Some? ==>
      PreparedFor(passage.value.prepared.value, s.st.surface, messages) && Told(passage.value.prepared.value, w.env.fault)
    modifies s, d, w
    ensures s.Valid() && Iterated(a, Look(s, d, w), s.durable, d, turn, r, segments)
    ensures r.Ok? ==> AgreedBut(s, d, StalledIn(segments))
    ensures Succeeds(r) ==> TokensKept(a.now, d.now, d.limits)
    ensures r.Ok? ==> d.now.steps <= a.now.steps + 1
    ensures Summaries(segments) == Summaries(before)
    ensures r.Ok? ==> Carries(segments, messages) && Ends(segments, r.value)
  {
    hide Ran, Moved, Iterated, Passed, FramedStep, FrameLive, Carries, Ends, Agree, PreparedFor, Stalled, TokensKept, Told, OnlyMore;
    PassageCarries(b, Look(s, d, w), d, messages, was, attempted, passage, before);
    segments := before;
    ghost var c := Look(s, d, w);
    var step := d.now.steps + 1;
    if passage.value.EndTurn? {
      var released := ReleaseFrame(s, base, FrameEvents(turn, step, messages));
      r := if released.Ok? then Ok(Finish(passage.value.reason)) else Err(released.error);
      PassageEnds(b, c, d, messages, was, attempted, passage, segments);
      IteratedPassage(a, b, c, Look(s, d, w), s.durable, d, base, turn, step, messages, was, attempted, passage, released, r, segments);
      return;
    }
    var resolution;
    ghost var t;
    resolution, t := RunFramed(s, d, w, base, turn, messages, passage.value.prepared);
    ghost var e := Look(s, d, w);
    if resolution.Err? {
      r := Err(resolution.error);
      IteratedUnframed(a, c, e, s.durable, d, base, turn, resolution, t, segments);
      return;
    }
    var next := Classify(d, w, resolution.value);
    r := Ok(next);
    IteratedStep(a, b, c, e, Look(s, d, w), s.durable, d, base, turn, messages, was, attempted, passage, resolution, next, t, segments);
    StepEnds(b, c, e, s.durable, d, base, messages, was, attempted, passage, resolution, next, t, segments);
    CountsConcat(segments, [Step(t)]);
    segments := segments + [Step(t)];
  }

  lemma PassageCarries(b: Snap, c: Snap, d: Driver, messages: seq<Message>, was: bool, attempted: bool,
                       passage: Result<PreOutcome, Failure>, segments: seq<Segment>)
    requires Passed(b, c, d, messages, was, attempted, passage, segments) && passage.Ok?
    ensures Carries(segments, messages) && !StalledIn(segments)
    ensures forall t: StepTrace :: t.inputs == messages ==> Carries(segments + [Step(t)], messages)
  {
    PassageQuiet(segments);
    forall t: StepTrace | t.inputs == messages
      ensures Carries(segments + [Step(t)], messages)
    {
      assert (segments + [Step(t)])[..|segments|] == segments;
    }
  }

  lemma PassageEnds(b: Snap, c: Snap, d: Driver, messages: seq<Message>, was: bool, attempted: bool,
                    passage: Result<PreOutcome, Failure>, segments: seq<Segment>)
    requires Passed(b, c, d, messages, was, attempted, passage, segments) && passage.Ok? && passage.value.EndTurn?
    ensures Ends(segments, Finish(passage.value.reason)) && !IsSuccess(passage.value.reason)
  {
  }

  lemma StepEnds(b: Snap, c: Snap, e: Snap, durable: bool, d: Driver, base: nat,
                 messages: seq<Message>, was: bool, attempted: bool, passage: Result<PreOutcome, Failure>,
                 resolution: Result<StepResolution, Failure>, next: Iteration, t: StepTrace, segments: seq<Segment>)
    requires Passed(b, c, d, messages, was, attempted, passage, segments) && passage.Ok?
    requires FramedStep(c, e, durable, d, base, resolution, t) && resolution.Ok?
    requires next.GoOn? ==> resolution.value.outcome.Continue?
    requires next.Finish? && IsSuccess(next.reason) ==>
      resolution.value.outcome == if next.reason.MaxTokens? then StepOutcome.MaxTokens else StepOutcome.Completed
    requires passage.value.Proceed?
    ensures Ends(segments + [Step(t)], next)
    ensures Succeeds(Ok(next)) ==> TokensKept(b.now, e.now, d.limits)
  {
    hide AnsweredFully, Ran, Within, Recorded, AttemptsClosed, Accounted, Moved, SpentFrom, RewritesHold, CostIn, EndsBetween,
      SegmentsEvents;
  }

  // No room for another step ends the turn.
  method NoFrame(d: Driver, error: Failure) returns (r: Result<Option<TurnEndReason>, Failure>)
    requires !IsLoopBug(error)
    modifies d
    ensures d.now == old(d.now).(durableLimit := old(d.now).durableLimit || error.DurableLimit?)
    ensures error.DurableLimit? ==> r == Ok(Some(Error(SessionLimit)))
    ensures error.MemoryBudget? ==> r == Ok(Some(Error(EventBudget)))
    ensures !IsBudget(error) ==> r == Err(error)
  {
    if IsBudget(error) {
      var code := d.FailureForBudget(error);
      return Ok(Some(Error(code)));
    }
    r := Err(error);
  }

  lemma StepsEnd(x: Snap, limits: Limits)
    ensures x.now.steps >= limits.maxSteps ==> EndsBetween(Error(MaxSteps), x, limits)
  {
  }

  lemma RefusalEnds(error: Failure, x: Snap, limits: Limits)
    requires (error.DurableLimit? ==> x.now.durableLimit) && (error.MemoryBudget? ==> x.marks.crowded)
    ensures error.DurableLimit? ==> EndsBetween(Error(SessionLimit), x, limits)
    ensures error.MemoryBudget? ==> EndsBetween(Error(EventBudget), x, limits)
  {
  }

  lemma IteratedNothing(a: Snap, b: Snap, durable: bool, d: Driver, turn: nat, r: Result<Iteration, Failure>)
    requires b.st == a.st && FlagsRise(a.now, b.now) && Drift(a.env, b.env)
    requires a.st.attempts.phase.NoAttempt? && NoWork(a.st.open)
    requires r.Ok? ==> r.value.Finish? && EndsBetween(r.value.reason, b, d.limits)
    requires r.Err? ==> !IsLoopBug(r.error)
    ensures Iterated(a, b, durable, d, turn, r, [])
  {
    RanQuietly(a.st, b.st, {});
    NothingRecorded(a.env, b.env);
  }

  lemma PassageFailed(a: Snap, b: Snap, c: Snap, durable: bool, d: Driver, turn: nat, messages: seq<Message>,
                      was: bool, attempted: bool, passage: Result<PreOutcome, Failure>, segments: seq<Segment>)
    requires Passed(b, c, d, messages, was, attempted, passage, segments) && passage.Err?
    ensures Iterated(a, c, durable, d, turn, Err(passage.error), segments) && (was ==> attempted)
    ensures Summaries(segments) <= if attempted && !was then 1 else 0
  {
  }

  // Prunes and compactions open no work.
  lemma {:induction false} PassageQuiet(segments: seq<Segment>)
    requires AllPre(segments)
    ensures forall i :: 0 <= i < |SegmentsEvents(segments)| ==> IsQuiet(SegmentsEvents(segments)[i])
    ensures StepsIn(segments) == 0 && RoundsIn(segments) == []
  {
    if |segments| > 0 {
      hide SegmentEvents, PreClosed, IsQuiet;
      var last := |segments| - 1;
      PassageQuiet(segments[..last]);
      SegmentsOne(segments[..last], segments[last]);
      assert segments[..last] + [segments[last]] == segments;
      PreQuiet(segments[last]);
    }
  }

  // Nor do they make attempts of a step.
  lemma {:induction false} PassageAttempts(a: Attempts, segments: seq<Segment>)
    requires AllPre(segments)
    ensures AttemptsOf(a, segments) == a
  {
    hide PreClosed;
    if |segments| > 0 {
      PassageAttempts(a, segments[..|segments| - 1]);
    }
  }

  lemma PreQuiet(s: Segment)
    requires s.Pre?
    ensures forall i :: 0 <= i < |SegmentEvents(s)| ==> IsQuiet(SegmentEvents(s)[i])
  {
  }

  // After the passage the frame is still claimed, and the preparation matches.
  lemma PassageReady(a: Snap, b: Snap, c: Snap, d: Driver, base: nat, turn: nat, step: nat, messages: seq<Message>,
                     was: bool, attempted: bool, passage: Result<PreOutcome, Failure>, segments: seq<Segment>)
    requires OnlyMore(a.st, b.st) && base == |a.st.slots| && |b.st.slots| == base + |messages| + 2
    requires FrameLive(b.st.slots, base, FrameEvents(turn, step, messages), 0)
    requires NoWork(a.st.open) && b.now == a.now
    requires Passed(b, c, d, messages, was, attempted, passage, segments) && passage.Ok?
    ensures FrameLive(c.st.slots, base, FrameEvents(turn, step, messages), 0)
    ensures c.st.attempts.phase.NoAttempt? && c.st.open == a.st.open && c.now.steps == a.now.steps
    ensures (was ==> attempted) && Summaries(segments) <= if attempted && !was then 1 else 0
    ensures passage.value.Proceed? && passage.value.prepared.Some? ==>
      PreparedFor(passage.value.prepared.value, c.st.surface, messages) && Told(passage.value.prepared.value, c.env.fault)
  {
    PassageQuiet(segments);
    QuietKeeps(b.st.open, SegmentsEvents(segments));
    forall i | 0 <= i < |messages| + 2
      ensures FrameAt(c.st.slots, base, FrameEvents(turn, step, messages), i)
    {
      assert FrameAt(b.st.slots, base, FrameEvents(turn, step, messages), i);
    }
  }

  lemma PassageRuns(a: State, b: State, c: State, segments: seq<Segment>, base: nat, n: nat)
    requires OnlyMore(a, b) && base == |a.slots| && |b.slots| == base + n
    requires Moved(b, c, SegmentsEvents(segments), {})
    ensures Ran(a, c, SegmentsEvents(segments), {}) && |b.slots| <= |c.slots|
  {
    RanQuietly(a, b, {});
    RanOn(a, b, c, [], SegmentsEvents(segments), {}, {});
    assert [] + SegmentsEvents(segments) == SegmentsEvents(segments);
  }

  lemma PassageClosed(durable: bool, turn: nat, segments: seq<Segment>, n: nat)
    requires AllPre(segments)
    ensures SegmentsClosed(durable, turn, segments, n)
    ensures NoneLatched(segments) && LeftBy(segments).None?
  {
  }

  lemma IteratedPassage(a: Snap, b: Snap, c: Snap, e: Snap, durable: bool, d: Driver, base: nat, turn: nat, step: nat, messages: seq<Message>,
                        was: bool, attempted: bool, passage: Result<PreOutcome, Failure>, released: Result<Unit, Failure>,
                        r: Result<Iteration, Failure>, segments: seq<Segment>)
    requires OnlyMore(a.st, b.st) && base == |a.st.slots| && |b.st.slots| == base + |messages| + 2
    requires NoWork(a.st.open) && b.now == a.now && Drift(a.env, b.env)
    requires Passed(b, c, d, messages, was, attempted, passage, segments) && passage.Ok? && passage.value.EndTurn?
    requires c.st.attempts.phase.NoAttempt? && c.st.open == a.st.open
    requires e == c.(st := e.st) && OnlyClaims(c.st, e.st, base, base + |messages| + 2)
    requires released.Ok? ==> FrameSpent(e.st.slots, base, |messages| + 2)
    requires released.Err? ==> !IsLoopBug(released.error)
    requires r == if released.Ok? then Ok(Finish(passage.value.reason)) else Err(released.error)
    ensures Iterated(a, e, durable, d, turn, r, segments)
  {
    hide SegmentsClosed, Ran, SpentFrom, Moved, OnlyClaims, FrameSpent, StopDecides, StepsIn, RoundsIn, NoneLatched, LatchedStop,
      Summaries, LeftBy, RewritesHold, CostIn, AttemptsOf, Stalled;
    if released.Ok? {
      PassageFacts(b, c, d, segments);
      NothingRecorded(a.env, e.env);
      StillClaims(c.st, e.st, base, |messages| + 2);
      PassageStops(segments, passage.value.reason, e.now.durableLimit, e.env);
      PassageExplains(b, c, e, d, messages, was, attempted, passage, segments);
      PassageClosed(Strict(durable, e.st.open), turn, segments, a.now.steps);
      PassageRuns(a.st, b.st, c.st, segments, base, |messages| + 2);
      assert Ran(a.st, e.st, SegmentsEvents(segments), {}) && SpentFrom(e.st.slots, |a.st.slots|) by {
        Unclaimed(a.st, b.st, c.st, e.st, SegmentsEvents(segments), base, |messages| + 2);
      }
    }
  }

  lemma PassageExplains(b: Snap, c: Snap, e: Snap, d: Driver, messages: seq<Message>, was: bool, attempted: bool,
                        passage: Result<PreOutcome, Failure>, segments: seq<Segment>)
    requires Passed(b, c, d, messages, was, attempted, passage, segments) && passage.Ok? && passage.value.EndTurn?
    requires e == c.(st := e.st)
    ensures EndExplained(segments, passage.value.reason, e, d.limits)
  {
    hide Between;
    PassedFacts(b, c, d, messages, was, attempted, passage, segments);
    PassageFacts(b, c, d, segments);
    EndsStays(passage.value.reason, c, e, d.limits);
  }

  lemma StillClaims(c: State, e: State, base: nat, n: nat)
    requires OnlyClaims(c, e, base, base + n)
    ensures e.attempts == c.attempts && e.open == c.open && |c.slots| <= |e.slots|
  {
  }

  lemma PassageStops(segments: seq<Segment>, reason: TurnEndReason, limit: bool, env: Env)
    requires AllPre(segments)
    ensures StopDecides(segments, reason, limit, env)
  {
  }

  lemma Unclaimed(a: State, b: State, c: State, e: State, events: seq<Event>, base: nat, n: nat)
    requires Ran(a, c, events, {}) && base == |a.slots| && |b.slots| == base + n && |b.slots| <= |c.slots|
    requires OnlyClaims(c, e, base, base + n) && FrameSpent(e.slots, base, n) && SpentFrom(c.slots, |b.slots|)
    ensures Ran(a, e, events, {}) && SpentFrom(e.slots, |a.slots|)
  {
  }

  lemma IteratedUnframed(a: Snap, c: Snap, e: Snap, durable: bool, d: Driver, base: nat, turn: nat,
                         resolution: Result<StepResolution, Failure>, t: StepTrace, segments: seq<Segment>)
    requires FramedStep(c, e, durable, d, base, resolution, t) && resolution.Err?
    ensures Iterated(a, e, durable, d, turn, Err(resolution.error), segments)
  {
  }

  lemma IteratedStep(a: Snap, b: Snap, c: Snap, e: Snap, f: Snap, durable: bool, d: Driver, base: nat, turn: nat,
                     messages: seq<Message>, was: bool, attempted: bool, passage: Result<PreOutcome, Failure>,
                     resolution: Result<StepResolution, Failure>, next: Iteration, t: StepTrace, segments: seq<Segment>)
    requires OnlyMore(a.st, b.st) && base == |a.st.slots| && |b.st.slots| == base + |messages| + 2
    requires b.now == a.now && Drift(a.env, b.env) && c.st.open == a.st.open
    requires t.turn == turn && t.step == a.now.steps + 1 && t.inputs == messages
    requires Passed(b, c, d, messages, was, attempted, passage, segments) && passage.Ok?
    requires FramedStep(c, e, durable, d, base, resolution, t) && resolution.Ok?
    requires f == e.(env := f.env) && Later(e.env, f.env, f.env.firstStop)
    requires Classified(resolution.value, next, f.now.durableLimit, f.env)
    ensures Iterated(a, f, durable, d, turn, Ok(next), segments + [Step(t)])
    ensures f.now.steps == a.now.steps + 1
  {
    hide Between, Within, Recorded, Drift, AttemptsClosed, FrameSpent, Ran, SpentFrom, Moved, SegmentsClosed, NoneLatched, StopDecides,
      StepsIn, SegmentsEvents, StepEvents, FrameClaims, LatchedStop, FramedStep, Passed, OnlyMore, Classified, Accounted, LeftBy,
      RoundsIn, AttemptsRounds, Overran, AttemptsOf, AttemptsOfStep, CostIn, AttemptsCost, RewritesHold, RewriteHolds;
    var one := Step(t);
    AttemptsOne(a.st.attempts, segments, t);
    FramedFacts(c, e, durable, d, base, resolution, t);
    PassedFacts(b, c, d, messages, was, attempted, passage, segments);
    FrameStarts(a.st, b.st);
    StepStops(resolution.value, t, next, f.now.durableLimit, f.env);
    GroundedStays(t, e, f, d.limits);
    StepTells(resolution.value, t, next, f, d.limits, segments);
    PassageFacts(b, c, d, segments);
    StepPays(a.st.surface, segments, t);
    PassageClosed(Strict(durable, e.st.open), turn, segments, a.now.steps);
    PassageRuns(a.st, b.st, c.st, segments, base, |messages| + 2);
    StepRuns(a.st, c.st, e.st, segments, t, base, |messages| + 2);
    StepSpent(a.st, b.st, c.st, e.st, segments, t, base);
    StepClosed(Strict(durable, e.st.open), turn, segments, one, a.now.steps);
    IteratedCounts(a, b, c, e, f, d, segments, t);
    StopsDecided(segments, one, next, f.now.durableLimit, f.env);
  }

  lemma StepPays(s: Surface, segments: seq<Segment>, t: StepTrace)
    requires RewritesHold(s, segments)
    ensures RewritesHold(s, segments + [Step(t)])
  {
    hide RewritesHold;
    PayAlone(SurfaceAfter(s, SegmentsEvents(segments)), Step(t));
    PayJoins(s, segments, [Step(t)]);
  }

  lemma AttemptsOne(a: Attempts, segments: seq<Segment>, t: StepTrace)
    ensures AttemptsOf(a, segments + [Step(t)]) == AttemptsOfStep(AttemptsOf(a, segments), t)
  {
    hide AttemptsOfStep;
    assert (segments + [Step(t)])[..|segments|] == segments;
  }

  // What is used of a step in its frame once it was closed.
  lemma FramedFacts(a: Snap, b: Snap, durable: bool, d: Driver, base: nat, r: Result<StepResolution, Failure>, t: StepTrace)
    requires FramedStep(a, b, durable, d, base, r, t) && r.Ok?
    ensures Ran(a.st, b.st, StepEvents(t), FrameClaims(base, |t.inputs| + 2))
    ensures |a.st.slots| <= |b.st.slots| && FrameSpent(b.st.slots, base, |t.inputs| + 2)
    ensures b.st.attempts == AttemptsOfStep(a.st.attempts, t) && b.st.attempts.phase.NoAttempt?
    ensures NoWork(b.st.open) && Abandons(durable, a.st.open, b.st.open)
    ensures AttemptsClosed(Strict(durable, b.st.open), t.attempts) && AttemptsGoverned(RulesOf(d), t.attempts)
    ensures Within(a.now.(steps := b.now.steps), b.now, d.limits, Overran(AttemptsRounds(t.attempts)), AttemptsCost(t.attempts))
    ensures b.now.steps == a.now.steps + 1 && Recorded(a.env, b.env, AttemptsRounds(t.attempts))
    ensures Accounted(b.st.slots, |a.st.slots|, LeftByStep(t)) && EndedAs(r.value, t) && Grounded(t, b, d.limits)
  {
    hide Ran, Within, Recorded, AttemptsClosed, FrameSpent, Accounted;
  }

  lemma PassedFacts(a: Snap, b: Snap, d: Driver, messages: seq<Message>, was: bool, attempted: bool,
                    r: Result<PreOutcome, Failure>, segments: seq<Segment>)
    requires Passed(a, b, d, messages, was, attempted, r, segments) && r.Ok?
    ensures Between(a, b, d, segments)
  {
  }

  lemma FrameStarts(a: State, b: State)
    requires OnlyMore(a, b)
    ensures b.open == a.open && b.attempts == a.attempts && b.surface == a.surface && |a.slots| <= |b.slots|
  {
  }

  // What classifying a step means for the end of the turn.
  predicate Classified(resolution: StepResolution, next: Iteration, limit: bool, env: Env) {
    if limit then next == Finish(Error(SessionLimit))
    else if resolution.stop != NoStop then next == Finish(ReasonOfStop(resolution.stop))
    else if StopOf(env).Some? then next == Finish(StopOf(env).value)
    else OutcomeNext(resolution.outcome, next)
  }

  lemma StepStops(resolution: StepResolution, t: StepTrace, next: Iteration, limit: bool, env: Env)
    requires EndedAs(resolution, t) && Classified(resolution, next, limit, env)
    ensures next.Finish? ==> SegmentDecides(Step(t), next.reason, limit, env)
    ensures next.GoOn? ==> LatchedStop(Step(t)) == NoStop && !t.failed
  {
    hide AnsweredFully;
  }

  lemma StepTells(resolution: StepResolution, t: StepTrace, next: Iteration, x: Snap, limits: Limits, segments: seq<Segment>)
    requires EndedAs(resolution, t) && Grounded(t, x, limits) && Classified(resolution, next, x.now.durableLimit, x.env)
    ensures next.Finish? ==> EndExplained(segments + [Step(t)], next.reason, x, limits)
    ensures next.GoOn? ==> GoesOn(Step(t))
  {
    hide AnsweredFully, AnswerDecides;
    var xs := segments + [Step(t)];
    assert xs[|xs| - 1] == Step(t);
  }

  lemma StopsDecided(segments: seq<Segment>, one: Segment, next: Iteration, limit: bool, env: Env)
    requires NoneLatched(segments)
    requires next.Finish? ==> SegmentDecides(one, next.reason, limit, env)
    requires next.GoOn? ==> LatchedStop(one) == NoStop && !StepFailed(one)
    ensures next.Finish? ==> StopDecides(segments + [one], next.reason, limit, env)
    ensures next.GoOn? ==> NoneLatched(segments + [one])
  {
    hide SegmentDecides, LatchedStop;
  }

  lemma PassageFacts(b: Snap, c: Snap, d: Driver, segments: seq<Segment>)
    requires Between(b, c, d, segments)
    ensures AllPre(segments) && Moved(b.st, c.st, SegmentsEvents(segments), {}) && SpentFrom(c.st.slots, |b.st.slots|)
    ensures Within(b.now, c.now, d.limits, false, CostIn(segments)) && Drift(b.env, c.env)
    ensures StepsIn(segments) == 0 && RoundsIn(segments) == []
    ensures c.st.attempts == b.st.attempts && AttemptsOf(b.st.attempts, segments) == b.st.attempts
    ensures RewritesHold(b.st.surface, segments)
  {
    hide RewritesHold, CostIn;
    PassageQuiet(segments);
    PassageAttempts(b.st.attempts, segments);
  }

  lemma StepRuns(a: State, c: State, e: State, segments: seq<Segment>, t: StepTrace, base: nat, n: nat)
    requires Ran(a, c, SegmentsEvents(segments), {}) && base == |a.slots|
    requires Ran(c, e, StepEvents(t), FrameClaims(base, n))
    ensures Ran(a, e, SegmentsEvents(segments + [Step(t)]), {}) && |a.slots| <= |e.slots|
  {
    assert (segments + [Step(t)])[..|segments|] == segments;
    RanOn(a, c, e, SegmentsEvents(segments), StepEvents(t), {}, FrameClaims(base, n));
  }

  lemma StepSpent(a: State, b: State, c: State, e: State, segments: seq<Segment>, t: StepTrace, base: nat)
    requires base == |a.slots| && |b.slots| == base + |t.inputs| + 2 && |b.slots| <= |c.slots| <= |e.slots|
    requires FrameSpent(e.slots, base, |t.inputs| + 2)
    requires SpentFrom(c.slots, |b.slots|)
    requires Ran(c, e, StepEvents(t), FrameClaims(base, |t.inputs| + 2))
    requires Accounted(e.slots, |c.slots|, LeftByStep(t))
    ensures Accounted(e.slots, |a.slots|, LeftBy(segments + [Step(t)]))
  {
    hide Accounted, StepEvents, OpenAfter, SurfaceAfter, UnfinishedAnswer;
    AccountedBefore(e.slots, |a.slots|, |c.slots|, LeftByStep(t));
  }

  lemma StepClosed(durable: bool, turn: nat, segments: seq<Segment>, one: Segment, n: nat)
    requires SegmentsClosed(durable, turn, segments, n) && StepsIn(segments) == 0
    requires one.Step? && SegmentClosed(durable, turn, one) && one.step.step == n + 1
    ensures SegmentsClosed(durable, turn, segments + [one], n) && StepsIn(segments + [one]) == 1
  {
    var all := segments + [one];
    assert all[..|segments|] == segments;
    forall i | 0 <= i < |all|
      ensures SegmentClosed(durable, turn, all[i]) && (all[i].Step? ==> all[i].step.step == n + StepsIn(all[..i]) + 1)
    {
      if i < |segments| {
        assert all[..i] == segments[..i];
      }
    }
  }

  lemma IteratedCounts(a: Snap, b: Snap, c: Snap, e: Snap, f: Snap, d: Driver, segments: seq<Segment>, t: StepTrace)
    requires f == e.(env := f.env) && Later(e.env, f.env, f.env.firstStop)
    requires b.now == a.now && Drift(a.env, b.env)
    requires Within(b.now, c.now, d.limits, false, CostIn(segments)) && Drift(b.env, c.env) && RoundsIn(segments) == []
    requires Within(c.now.(steps := e.now.steps), e.now, d.limits, Overran(AttemptsRounds(t.attempts)), AttemptsCost(t.attempts))
    requires Recorded(c.env, e.env, AttemptsRounds(t.attempts))
    requires e.now.steps == c.now.steps + 1
    ensures Within(a.now.(steps := f.now.steps), f.now, d.limits, Overran(RoundsIn(segments + [Step(t)])), CostIn(segments + [Step(t)]))
    ensures Recorded(a.env, f.env, RoundsIn(segments + [Step(t)]))
    ensures f.now.steps == a.now.steps + 1
  {
    hide AttemptsRounds, Overran, AttemptsCost, CostIn;
    RoundsOne(segments, Step(t));
    CostOne(segments, Step(t));
    assert [] + AttemptsRounds(t.attempts) == AttemptsRounds(t.attempts);
  }

  // ----- the turn that was entered

  // A turn after iterations that all went on.
  ghost predicate TurnProgress(a: Snap, b: Snap, durable: bool, d: Driver, turn: nat, segments: seq<Segment>) {
    && TurnKept(a, b, durable, d, turn, segments)
    && SpentFrom(b.st.slots, |a.st.slots|)
    && NoneLatched(segments)
    && (|segments| > 0 ==> GoesOn(segments[|segments| - 1]))
  }

  ghost predicate TurnRan(a: Snap, b: Snap, durable: bool, d: Driver, turn: nat, r: Result<TurnEndReason, Failure>,
                          segments: seq<Segment>)
  {
    && (r.Ok? ==>
          && TurnKept(a, b, durable, d, turn, segments)
          && StopDecides(segments, r.value, b.now.durableLimit, b.env)
          && Summaries(segments) <= 1
          && (a.now.steps <= d.limits.maxSteps ==> b.now.steps <= d.limits.maxSteps)
          && Accounted(b.st.slots, |a.st.slots|, LeftBy(segments)))
    && (r.Err? ==> PassedOn(durable, b.st.open, r.error))
  }

  lemma TurnBegins(a: Snap, durable: bool, d: Driver, turn: nat)
    requires a.st.attempts.phase.NoAttempt? && NoWork(a.st.open)
    ensures TurnProgress(a, a, durable, d, turn, [])
  {
    RanQuietly(a.st, a.st, {});
    NothingRecorded(a.env, a.env);
  }

  // Closed segments after closed segments are closed segments of the same turn.
  lemma KeptJoins(a: Snap, b: Snap, c: Snap, durable: bool, d: Driver, turn: nat, xs: seq<Segment>, ys: seq<Segment>)
    requires TurnKept(a, b, durable, d, turn, xs) && TurnKept(b, c, durable, d, turn, ys)
    ensures TurnKept(a, c, durable, d, turn, xs + ys)
  {
    hide Within, Recorded, SegmentsClosed, SegmentsGoverned, SegmentsEvents, StepsIn, Ran, RoundsIn, Overran, AttemptsOf, CostIn,
      RewritesHold;
    KeptPays(a.st, b.st, xs, ys);
    StalledJoins(xs, ys);
    AttemptsConcat(a.st.attempts, xs, ys);
    SegmentsConcat(xs, ys);
    GovernedJoins(RulesOf(d), xs, ys);
    CountsConcat(xs, ys);
    RunsJoin(a.st, b.st, c.st, SegmentsEvents(xs), SegmentsEvents(ys));
    SegmentsLoosen(Strict(durable, b.st.open), Strict(durable, c.st.open), turn, xs, a.now.steps);
    SegmentsJoin(Strict(durable, c.st.open), turn, xs, ys, a.now.steps);
    CountersJoin(a, b, c, d, xs, ys);
  }

  lemma StalledJoins(xs: seq<Segment>, ys: seq<Segment>)
    ensures StalledIn(xs + ys) <==> if |ys| == 0 then StalledIn(xs) else StalledIn(ys)
    ensures |xs + ys| > 0 ==> (xs + ys)[|xs + ys| - 1] == if |ys| == 0 then xs[|xs| - 1] else ys[|ys| - 1]
  {
    if |ys| == 0 {
      assert xs + ys == xs;
    }
  }

  lemma KeptPays(a: State, b: State, xs: seq<Segment>, ys: seq<Segment>)
    requires Ran(a, b, SegmentsEvents(xs), {}) && RewritesHold(a.surface, xs) && RewritesHold(b.surface, ys)
    ensures RewritesHold(a.surface, xs + ys)
  {
    hide RewritesHold, SegmentsEvents, OpenAfter, SurfaceAfter;
    PayJoins(a.surface, xs, ys);
  }

  lemma GovernedJoins(rules: Rules, xs: seq<Segment>, ys: seq<Segment>)
    requires SegmentsGoverned(rules, xs) && SegmentsGoverned(rules, ys)
    ensures SegmentsGoverned(rules, xs + ys)
  {
    hide AttemptsGoverned;
  }

  lemma IterationJoins(a: Snap, b: Snap, c: Snap, durable: bool, d: Driver, turn: nat, xs: seq<Segment>,
                       r: Result<Iteration, Failure>, ys: seq<Segment>)
    requires TurnProgress(a, b, durable, d, turn, xs) && Iterated(b, c, durable, d, turn, r, ys) && r.Ok?
    ensures TurnKept(a, c, durable, d, turn, xs + ys)
    ensures Accounted(c.st.slots, |a.st.slots|, LeftBy(xs + ys))
    ensures r.value.GoOn? ==> TurnProgress(a, c, durable, d, turn, xs + ys)
    ensures r.value.Finish? ==> StopDecides(xs + ys, r.value.reason, c.now.durableLimit, c.env)
    ensures r.value.Finish? ==> EndExplained(xs + ys, r.value.reason, c, d.limits)
  {
    hide TurnKept, SpentFrom, StopDecides, NoneLatched, Accounted, LeftBy, GoesOn, EndExplained;
    if r.value.Finish? {
      EndExplainedJoins(xs, ys, r.value.reason, c, d.limits);
    }
    KeptJoins(a, b, c, durable, d, turn, xs, ys);
    StopsJoin(xs, ys, r.value, c.now.durableLimit, c.env);
    KeptClaims(a, b, durable, d, turn, xs);
    KeptClaims(b, c, durable, d, turn, ys);
    ClaimsJoin(a.st, b.st, c.st, xs, ys);
    if r.value.GoOn? {
      NothingLeft(xs + ys);
      SpentIsAccounted(c.st.slots, |a.st.slots|);
    }
  }

  lemma EndExplainedJoins(xs: seq<Segment>, ys: seq<Segment>, reason: TurnEndReason, x: Snap, limits: Limits)
    requires |xs| > 0 ==> GoesOn(xs[|xs| - 1])
    requires EndExplained(ys, reason, x, limits)
    ensures EndExplained(xs + ys, reason, x, limits)
  {
    hide GoesOn, StepExplains, EndsBetween;
    if |ys| == 0 {
      assert xs + ys == xs;
    }
  }

  lemma KeptClaims(a: Snap, b: Snap, durable: bool, d: Driver, turn: nat, segments: seq<Segment>)
    requires TurnKept(a, b, durable, d, turn, segments)
    ensures |a.st.slots| <= |b.st.slots| && b.st.slots[..|a.st.slots|] == a.st.slots
  {
  }

  lemma NothingLeft(segments: seq<Segment>)
    requires NoneLatched(segments)
    ensures LeftBy(segments).None?
  {
  }

  lemma ClaimsJoin(a: State, b: State, c: State, xs: seq<Segment>, ys: seq<Segment>)
    requires |a.slots| <= |b.slots| <= |c.slots| && c.slots[..|b.slots|] == b.slots
    requires SpentFrom(b.slots, |a.slots|) && NoneLatched(xs)
    requires Accounted(c.slots, |b.slots|, LeftBy(ys))
    ensures Accounted(c.slots, |a.slots|, LeftBy(xs + ys))
  {
    hide Accounted, UnfinishedAnswer;
    forall i | |a.slots| <= i < |b.slots|
      ensures !c.slots[i].Live?
    {
      assert c.slots[i] == b.slots[i];
    }
    AccountedBefore(c.slots, |a.slots|, |b.slots|, LeftBy(ys));
    if |ys| == 0 {
      assert xs + ys == xs;
    }
  }

  lemma StopsJoin(xs: seq<Segment>, ys: seq<Segment>, next: Iteration, limit: bool, env: Env)
    requires NoneLatched(xs)
    requires next.GoOn? ==> NoneLatched(ys)
    requires next.Finish? ==> StopDecides(ys, next.reason, limit, env)
    ensures next.GoOn? ==> NoneLatched(xs + ys)
    ensures next.Finish? ==> StopDecides(xs + ys, next.reason, limit, env)
  {
    hide LatchedStop;
    if next.Finish? && |ys| == 0 {
      assert xs + ys == xs;
    }
  }

  lemma RunsJoin(a: State, b: State, c: State, xs: seq<Event>, ys: seq<Event>)
    requires Ran(a, b, xs, {}) && Ran(b, c, ys, {})
    ensures Ran(a, c, xs + ys, {}) && |a.slots| <= |c.slots|
  {
    RanOn(a, b, c, xs, ys, {}, {});
  }

  // What is closed strictly is closed.
  lemma SegmentsLoosen(strict: bool, loose: bool, turn: nat, xs: seq<Segment>, n: nat)
    requires SegmentsClosed(strict, turn, xs, n) && (loose ==> strict)
    ensures SegmentsClosed(loose, turn, xs, n)
  {
  }

  lemma SegmentsJoin(durable: bool, turn: nat, xs: seq<Segment>, ys: seq<Segment>, n: nat)
    requires SegmentsClosed(durable, turn, xs, n) && SegmentsClosed(durable, turn, ys, n + StepsIn(xs))
    ensures SegmentsClosed(durable, turn, xs + ys, n)
  {
    forall i | 0 <= i < |xs + ys|
      ensures SegmentClosed(durable, turn, (xs + ys)[i])
      ensures (xs + ys)[i].Step? ==> (xs + ys)[i].step.step == n + StepsIn((xs + ys)[..i]) + 1
    {
      if i < |xs| {
        assert (xs + ys)[..i] == xs[..i];
      } else {
        assert (xs + ys)[..i] == xs + ys[..i - |xs|];
        CountsConcat(xs, ys[..i - |xs|]);
      }
    }
  }

  lemma CountersJoin(a: Snap, b: Snap, c: Snap, d: Driver, xs: seq<Segment>, ys: seq<Segment>)
    requires Within(a.now.(steps := b.now.steps), b.now, d.limits, Overran(RoundsIn(xs)), CostIn(xs)) && Recorded(a.env, b.env, RoundsIn(xs))
    requires Within(b.now.(steps := c.now.steps), c.now, d.limits, Overran(RoundsIn(ys)), CostIn(ys)) && Recorded(b.env, c.env, RoundsIn(ys))
    ensures Within(a.now.(steps := c.now.steps), c.now, d.limits, Overran(RoundsIn(xs + ys)), CostIn(xs + ys))
    ensures Recorded(a.env, c.env, RoundsIn(xs + ys))
  {
    hide RoundsIn, Overran, CostIn;
    CostConcat(xs, ys);
    RoundsConcat(xs, ys);
    OverranJoins(RoundsIn(xs), RoundsIn(ys));
    RecordedOn(a.env, b.env, c.env, RoundsIn(xs), RoundsIn(ys));
  }

  // The loop of a turn; every further iteration took a step (src/agent/mod.rs:1221-1542).
  method RunEnteredTurn(s: Session, d: Driver, w: World, turn: nat, messages: seq<Message>)
    returns (r: Result<TurnEndReason, Failure>, ghost segments: seq<Segment>)
    requires s.Valid() && Agree(s, d) && s.st.attempts.phase.NoAttempt? && NoWork(s.st.open)
    modifies s, d, w
    ensures s.Valid() && TurnRan(old(Look(s, d, w)), Look(s, d, w), s.durable, d, turn, r, segments)
    ensures r.Ok? ==> AgreedBut(s, d, StalledIn(segments))
    ensures r.Ok? && IsSuccess(r.value) ==> TokensKept(old(d.now), d.now, d.limits)
    ensures r.Ok? ==> Delivered(segments, messages) && Answers(segments, r.value)
    ensures r.Ok? ==> EndExplained(segments, r.value, Look(s, d, w), d.limits)
  {
    hide Iterated, TurnProgress, TurnKept, Delivered, Carries, Ends, Answers, StepAnswered, EndExplained;
    ghost var a := Look(s, d, w);
    segments := [];
    var attempted := false;
    var pending := messages;
    TurnBegins(a, s.durable, d, turn);
    NothingDelivered(messages);
    while true
      invariant s.Valid() && s.st.attempts.phase.NoAttempt? && NoWork(s.st.open)
      invariant Agreed(s, d) && !StalledIn(segments) && TokensKept(a.now, d.now, d.limits)
      invariant TurnProgress(a, Look(s, d, w), s.durable, d, turn, segments)
      invariant Summaries(segments) <= if attempted then 1 else 0
      invariant forall i :: 0 <= i < |segments| && segments[i].Step? ==> StepAnswered(segments[i])
      invariant Delivered(segments, messages) && pending == if StepsIn(segments) == 0 then messages else []
      invariant a.now.steps <= d.limits.maxSteps ==> d.now.steps <= d.limits.maxSteps
      decreases d.limits.maxSteps - d.now.steps
    {
      ghost var b := Look(s, d, w);
      var iteration;
      ghost var more;
      iteration, attempted, more := Iterate(s, d, w, turn, pending, attempted);
      ghost var c := Look(s, d, w);
      if iteration.Err? {
        r := Err(iteration.error);
        IterationFailed(b, c, s.durable, d, turn, iteration, more);
        return;
      }
      IterationJoins(a, b, c, s.durable, d, turn, segments, iteration, more);
      IterationReady(b, c, s.durable, d, turn, iteration, more);
      CountsConcat(segments, more);
      StalledJoins(segments, more);
      DeliveredJoins(segments, more, messages);
      AnswersJoin(segments, more, iteration.value);
      segments := segments + more;
      if iteration.value.Finish? {
        return Ok(iteration.value.reason), segments;
      }
      pending := [];
    }
  }

  lemma AnswersJoin(xs: seq<Segment>, ys: seq<Segment>, next: Iteration)
    requires forall i :: 0 <= i < |xs| && xs[i].Step? ==> StepAnswered(xs[i])
    requires Ends(ys, next)
    ensures next.GoOn? ==> forall i :: 0 <= i < |xs + ys| && (xs + ys)[i].Step? ==> StepAnswered((xs + ys)[i])
    ensures next.Finish? ==> Answers(xs + ys, next.reason)
  {
    hide StepAnswered;
  }

  lemma NothingDelivered(messages: seq<Message>)
    ensures Delivered([], messages) && StepsIn([]) == 0
  {
  }

  lemma DeliveredJoins(xs: seq<Segment>, ys: seq<Segment>, messages: seq<Message>)
    requires Delivered(xs, messages) && Carries(ys, if StepsIn(xs) == 0 then messages else [])
    ensures Delivered(xs + ys, messages)
  {
    var all := xs + ys;
    forall i | 0 <= i < |all| && all[i].Step?
      ensures all[i].step.inputs == if StepsIn(all[..i]) == 0 then messages else []
    {
      if i < |xs| {
        assert all[..i] == xs[..i];
      } else {
        assert all[..i] == xs + ys[..i - |xs|];
        CountsConcat(xs, ys[..i - |xs|]);
      }
    }
  }

  lemma IterationFailed(b: Snap, c: Snap, durable: bool, d: Driver, turn: nat, r: Result<Iteration, Failure>, ys: seq<Segment>)
    requires Iterated(b, c, durable, d, turn, r, ys) && r.Err?
    ensures PassedOn(durable, c.st.open, r.error)
  {
  }

  lemma IterationReady(b: Snap, c: Snap, durable: bool, d: Driver, turn: nat, r: Result<Iteration, Failure>, ys: seq<Segment>)
    requires Iterated(b, c, durable, d, turn, r, ys) && r.Ok?
    ensures c.st.attempts.phase.NoAttempt? && NoWork(c.st.open) && b.now.steps <= c.now.steps
    ensures r.value.GoOn? ==> c.now.steps == b.now.steps + 1 && StepsIn(ys) == 1 && |ys| > 0 && !StalledIn(ys)
  {
  }
}
