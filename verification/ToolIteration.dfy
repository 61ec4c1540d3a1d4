// One iteration of a tool round: the call event, the dispatch with its approval and
// side effect, the one result, and the stop that is latched (src/agent/mod.rs:2624-2931).
module ToolIteration {
  import opened Common
  import opened SessionLog
  import opened SessionModel
  import opened WorldModel
  import opened DriverModel
  import opened LogGrammar
  import opened Moment
  import opened ToolCall
  import opened ToolApproval

  // The flags the loop over the calls keeps.
  datatype Round = Round(cancelled: bool, concludes: bool, failure: Option<ErrorCode>, latched: ToolStop)

  // A latched stop always keeps later calls from starting. A round fails because an outcome
  // was lost, or because the time was over.
  predicate RoundOk(round: Round) {
    && (round.latched != NoStop ==> round.cancelled || round.failure.Some?)
    && (round.failure.Some? ==> round.failure.value.ToolExecutor? || (round.failure.value.TurnTimeout? && round.latched != NoStop))
  }

  // The flags know of every outcome that was lost in this round, and of nothing else but
  // its first stop.
  predicate Remembers(round: Round, env: Env) {
    && RoundOk(round) && round.latched == env.firstStop
    && (round.cancelled ==> env.firstStop != NoStop)
    && (env.losses != [] ==> round.failure.Some?)
    && (round.failure == Some(ToolExecutor) ==> env.losses != [])
  }

  // No further tool may be prepared.
  predicate Stopping(round: Round, now: Counters) {
    round.cancelled || round.failure.Some? || now.observerUnavailable || now.durableLimit
  }

  // The first stop of the round is the latched one, then the one this run reports,
  // then a cancellation that was only seen in passing.
  predicate KnownStop(env: Env, latched: ToolStop, run: ToolRun, seen: bool) {
    && env.firstStop == Latch(Latch(latched, RunStop(run)), if seen then StopCancelled else NoStop)
    && (seen ==> env.cancelled && (run.Infrastructure? ==> RunStop(run) == StopCancelled))
  }

  // ----- before the dispatch

  // Commit the call event and bind the protected result to it.
  method BeginCall(s: Session, w: World, plan: Plan) returns (r: Result<Unit, Failure>, ghost began: bool)
    requires s.Valid() && AwaitsResult(s.st, plan) && plan.callClaim != plan.resultClaim
    requires IsLive(s.st.slots, plan.callClaim) && s.st.slots[plan.callClaim].fallback == Event.ToolCall(plan.call)
    modifies s
    ensures s.Valid() && |s.st.slots| == |old(s.st).slots| && s.marks == old(s.marks)
    ensures Moved(old(s.st), s.st, if began then [Event.ToolCall(plan.call)] else [], {plan.callClaim, plan.resultClaim})
    ensures IsLive(s.st.slots, plan.resultClaim)
    ensures s.st.attempts.phase.NoAttempt?
    ensures r.Ok? ==> began && AwaitsResult(s.st, plan) && s.st.slots[plan.callClaim].Settled?
    ensures r.Err? ==> !IsLoopBug(r.error) && (!began ==> s.st == old(s.st))
  {
    hide Moved;
    began := false;
    ghost var before := s.st;
    ghost var claims := {plan.callClaim, plan.resultClaim};
    QuietMoves(before, before, claims);
    var _ :- s.SettleExact(plan.callClaim);
    began := true;
    ghost var called := s.st;
    CalledMoves(before, plan);
    var size := w.Number();
    var _ :- s.Rebind(plan.resultClaim, ToolResult(plan.call, BudgetFallback, size));
    QuietMoves(called, s.st, claims);
    MovedOn(before, called, s.st, [Event.ToolCall(plan.call)], [], claims, claims);
    assert [Event.ToolCall(plan.call)] + [] == [Event.ToolCall(plan.call)];
    return Ok(Unit), began;
  }

  lemma CalledMoves(a: State, plan: Plan)
    requires a.attempts.phase.NoAttempt? && plan.callClaim < |a.slots|
    ensures Moved(a, Consumed(a, plan.callClaim, Event.ToolCall(plan.call)), [Event.ToolCall(plan.call)],
                  {plan.callClaim, plan.resultClaim})
  {
    RanOneMore(a, Consumed(a, plan.callClaim, Event.ToolCall(plan.call)), Event.ToolCall(plan.call),
               {plan.callClaim, plan.resultClaim});
  }

  // A call that is not started because the turn is stopping (src/agent/mod.rs:2659-2681).
  method Abort(w: World, plan: Plan) returns (run: ToolRun, seen: bool)
    modifies w
    ensures Later(WithLoss(old(w.env), plan.call, run.Infrastructure?), w.env, if seen then StopCancelled else RunStop(run))
    ensures Reports(run, None) && (old(w.env).cancelled ==> seen)
    ensures seen ==> w.env.cancelled && (run.Infrastructure? ==> RunStop(run) == StopCancelled)
    ensures RunStop(run) == StopCancelled || RunStop(run) == NoStop
    ensures run.Infrastructure? || CodeOf(run) == Some(AbortedBeforeDispatch)
  {
    seen := w.IsCancelled();
    if plan.profile.Standard? {
      return ModelError(AbortedBeforeDispatch), seen;
    }
    var again := w.IsCancelled();
    run := FailBeforeStart(w, plan, AbortedBeforeDispatch, if again then StopCancelled else NoStop);
  }

  // Whether the turn is stopping already; cancellation is looked at last.
  method MustAbort(d: Driver, w: World, round: Round) returns (abort: bool)
    requires Remembers(round, w.env)
    modifies w
    ensures Later(old(w.env), w.env, if w.env.cancelled then w.env.firstStop else NoStop)
    ensures w.env.firstStop == round.latched || (abort && w.env.cancelled && w.env.firstStop == Latch(round.latched, StopCancelled))
    ensures !abort ==> !Stopping(round, d.now.(durableLimit := false)) && w.env.firstStop == NoStop && w.env.losses == []
    ensures abort ==> Stopping(round, d.now) || w.env.cancelled
  {
    if round.failure.Some? || d.now.observerUnavailable || round.cancelled {
      return true;
    }
    abort := w.IsCancelled();
  }

  // Why a call did not run: the session is full, the round or the turn is stopping or the
  // observer is gone, or this is what kept it from being prepared.
  predicate Excused(code: DiagnosticCode, round: Round, a: Counters, b: Snap) {
    match code
    case SessionFull => b.now.durableLimit
    case AbortedBeforeDispatch => b.env.firstStop != NoStop || Stopping(round, a) || b.now.observerUnavailable
    case AbortedWhileRunning => b.env.firstStop != NoStop
    case _ => b.env.problem == Some(code)
  }

  // How a call ends that may not start because the session is full or the turn is
  // stopping, if that is so.
  method Withhold(s: Session, d: Driver, w: World, plan: Plan, round: Round) returns (run: Option<ToolRun>, seen: bool)
    requires Remembers(round, w.env) && Agree(s, d)
    modifies w
    ensures Later(WithLoss(old(w.env), plan.call, run.Some? && run.value.Infrastructure?), w.env, w.env.firstStop)
    ensures run.Some? ==>
      && Preparable(plan, run.value) && !run.value.Mutation? && !run.value.Action?
      && KnownStop(w.env, round.latched, run.value, seen)
      && !IsDeclined(run.value) && (d.now.durableLimit && !run.value.Infrastructure? ==> CodeOf(run.value) == Some(SessionFull))
      && (CodeOf(run.value).Some? ==> Excused(CodeOf(run.value).value, round, d.now, Look(s, d, w)))
    ensures run.None? ==> !seen && !Stopping(round, d.now) && round.latched == NoStop && !IsLate(w.env, s.marks)
  {
    seen := false;
    if d.now.durableLimit {
      var full := FailBeforeStart(w, plan, DiagnosticCode.SessionFull, NoStop);
      return Some(full), seen;
    }
    var abort := MustAbort(d, w, round);
    if !abort {
      return None, seen;
    }
    var aborted;
    aborted, seen := Abort(w, plan);
    run := Some(aborted);
  }

  // A run that gives a diagnostic has the excuse for it, and a full session tells nothing
  // else.
  predicate Explained(run: ToolRun, round: Round, a: Counters, b: Snap) {
    && (CodeOf(run).Some? ==> Excused(CodeOf(run).value, round, a, b))
    && (run.Timeout? ==> b.env.firstStop != NoStop)
    && (a.durableLimit && !run.Infrastructure? ==> CodeOf(run) == Some(DiagnosticCode.SessionFull))
  }

  // Decide how one call starts: not at all when the session is full, the turn is
  // stopping or the observer is gone, otherwise through the executor.
  method Dispatch(s: Session, d: Driver, w: World, plan: Plan, round: Round)
    returns (r: Result<ToolRun, Failure>, seen: bool, ghost prepared: bool)
    requires s.Valid() && s.st.attempts.phase.NoAttempt? && Remembers(round, w.env) && Agree(s, d)
    modifies s, d, w
    ensures s.Valid() && s.st == old(s.st).(visible := s.st.visible) && FlagsRise(old(d.now), d.now) && Agreed(s, d)
    ensures Later(WithLoss(old(w.env).(prepared := old(w.env).prepared + (if prepared then [plan.call] else []),
                                       problem := w.env.problem),
                           plan.call, r.Ok? && r.value.Infrastructure?), w.env, w.env.firstStop)
    ensures prepared ==> !Stopping(round, old(d.now))
    ensures r.Ok? ==> Preparable(plan, r.value) && KnownStop(w.env, round.latched, r.value, seen)
    ensures r.Ok? ==> Explained(r.value, round, old(d.now), Look(s, d, w)) && !IsDeclined(r.value)
    ensures r.Ok? && (r.value.Mutation? || r.value.Action?) ==> prepared && w.env.firstStop == NoStop
    ensures r.Err? ==> !IsLoopBug(r.error)
  {
    hide Agree;
    prepared := false;
    assert old(w.env).prepared + [] == old(w.env).prepared;
    var withheld;
    withheld, seen := Withhold(s, d, w, plan, round);
    if withheld.Some? {
      return Ok(withheld.value), seen, prepared;
    }
    r, prepared := Launch(s, d, w, plan, round);
  }

  // The barrier before the executor is asked, unless the observer is gone.
  method Launch(s: Session, d: Driver, w: World, plan: Plan, round: Round)
    returns (r: Result<ToolRun, Failure>, ghost prepared: bool)
    requires s.Valid() && s.st.attempts.phase.NoAttempt? && Agree(s, d)
    requires !IsLate(w.env, s.marks) && !Stopping(round, d.now) && round.latched == NoStop
    modifies s, d, w
    ensures s.Valid() && s.st == old(s.st).(visible := s.st.visible) && FlagsRise(old(d.now), d.now) && Agreed(s, d)
    ensures Later(WithLoss(old(w.env).(prepared := old(w.env).prepared + (if prepared then [plan.call] else []),
                                       problem := w.env.problem),
                           plan.call, r.Ok? && r.value.Infrastructure?), w.env, w.env.firstStop)
    ensures r.Ok? ==> Preparable(plan, r.value) && KnownStop(w.env, round.latched, r.value, false)
    ensures r.Ok? ==> Explained(r.value, round, old(d.now), Look(s, d, w)) && !IsDeclined(r.value)
    ensures r.Ok? && (r.value.Mutation? || r.value.Action?) ==> prepared && w.env.firstStop == NoStop
    ensures r.Err? ==> !IsLoopBug(r.error)
  {
    hide Agree;
    prepared := false;
    assert old(w.env).prepared + [] == old(w.env).prepared;
    var visible :- DispatchBarrier(s, d);
    var run: ToolRun;
    if !visible {
      run := FailBeforeStart(w, plan, AbortedBeforeDispatch, NoStop);
      return Ok(run), prepared;
    }
    run, prepared := RunOneTool(s, w, plan);
    r := Ok(run);
  }

  // ----- one call

  // What a block recorded outside the session.
  predicate Handled(a: Env, b: Env, block: ToolBlock) {
    var served := a.(prepared := a.prepared + (if block.prepared then [block.call] else []), problem := b.problem);
    Later(WithBlock(served, block), b, b.firstStop)
  }

  // What serving one call keeps: its approval rows were appended and its result is
  // still protected; it was prepared only while the round was not stopping, and had
  // an effect only when prepared and licensed.
  ghost predicate CallServed(a: Snap, b: Snap, d: Driver, plan: Plan, round: Round,
                             r: Result<ToolRun, Failure>, seen: bool, block: ToolBlock)
  {
    && block.call == plan.call && block.result.None? && block.stopping
    && block.policy == PolicyOf(d, plan.profile)
    && BlockTrue(block) && Governed(RulesOf(d), block)
    && (block.prepared ==> !Stopping(round, a.now))
    && FlagsRise(a.now, b.now)
    && Handled(a.env, b.env, block)
    && Moved(a.st, b.st, ApprovalEvents(plan.call, block.approval), {plan.resultClaim})
    && AwaitsResult(b.st, plan)
    && (r.Ok? ==>
          && !block.approval.Unanswered?
          && SpentFrom(b.st.slots, |a.st.slots|)
          && Reports(r.value, block.effect)
          && block.lost == r.value.Infrastructure?
          && Affordable(d.limits, b.now, r.value, block.effect)
          && AnswersFor(r.value, block) && Explained(r.value, round, a.now, b)
          && KnownStop(b.env, round.latched, r.value, seen))
    && (r.Err? ==> !IsLoopBug(r.error))
  }

  // A run that was declined names the reason of the rows, and any decision but to allow is
  // followed by nothing else.
  predicate AnswersFor(run: ToolRun, block: ToolBlock) {
    && (IsDeclined(run) ==> block.effect.None? && DeclineTrue(block.policy, block.approval, run.output.tag.reason))
    && (block.approval.Decided? && !block.approval.outcome.AllowedOnce? ==>
          block.effect.None? && (run.Infrastructure? || IsDeclined(run)))
  }

  // A block whose call is not over keeps later calls from starting.
  function Begun(d: Driver, plan: Plan, prepared: bool, approval: ApprovalTrace, effect: Option<Deed>, lost: bool): ToolBlock {
    ToolBlock(plan.call, PolicyOf(d, plan.profile), approval, effect, None, prepared, lost, true, false)
  }

  // Dispatch one call and resolve whatever the executor prepared.
  method Serve(s: Session, d: Driver, w: World, plan: Plan, round: Round)
    returns (r: Result<ToolRun, Failure>, seen: bool, ghost block: ToolBlock)
    requires s.Valid() && s.st.attempts.phase.NoAttempt? && AwaitsResult(s.st, plan)
    requires Remembers(round, w.env) && Effectless(w.env.deeds, plan.call) && Agree(s, d)
    modifies s, d, w
    ensures s.Valid() && Agreed(s, d) && CallServed(old(Look(s, d, w)), Look(s, d, w), d, plan, round, r, seen, block)
  {
    hide Moved, AwaitsResult, Stopping, Resolved, CallServed, Preparable, KnownStop, Agree;
    ghost var a := Look(s, d, w);
    ghost var prepared;
    r, seen, prepared := Dispatch(s, d, w, plan, round);
    ghost var b := Look(s, d, w);
    block := Begun(d, plan, prepared, NotAsked, None, r.Ok? && r.value.Infrastructure?);
    if r.Err? || (!r.value.Mutation? && !r.value.Action?) {
      ServedStraight(a, b, d, plan, round, r, seen, prepared);
      return;
    }
    StillAwaits(a.st, b.st, plan);
    ghost var approval, effect;
    r, approval, effect := ResolvePrepared(s, d, w, plan, r.value);
    seen := false;
    block := Begun(d, plan, true, approval, effect, r.Ok? && r.value.Infrastructure?);
    ServedResolved(a, b, Look(s, d, w), d, plan, round, r, approval, effect);
  }

  lemma StillAwaits(a: State, b: State, plan: Plan)
    requires AwaitsResult(a, plan) && b == a.(visible := b.visible)
    ensures AwaitsResult(b, plan)
  {
  }

  lemma ServedStraight(a: Snap, b: Snap, d: Driver, plan: Plan, round: Round,
                       r: Result<ToolRun, Failure>, seen: bool, prepared: bool)
    requires AwaitsResult(a.st, plan) && b.st == a.st.(visible := b.st.visible) && FlagsRise(a.now, b.now)
    requires Later(WithLoss(a.env.(prepared := a.env.prepared + (if prepared then [plan.call] else []), problem := b.env.problem),
                            plan.call, r.Ok? && r.value.Infrastructure?), b.env, b.env.firstStop)
    requires r.Ok? ==> Explained(r.value, round, a.now, b) && !IsDeclined(r.value)
    requires prepared ==> !Stopping(round, a.now)
    requires r.Ok? ==> !r.value.Mutation? && !r.value.Action? && Preparable(plan, r.value) && KnownStop(b.env, round.latched, r.value, seen)
    requires r.Err? ==> !IsLoopBug(r.error)
    ensures CallServed(a, b, d, plan, round, r, seen,
                       Begun(d, plan, prepared, NotAsked, None, r.Ok? && r.value.Infrastructure?))
  {
    QuietMoves(a.st, b.st, {plan.resultClaim});
  }

  lemma ServedResolved(a: Snap, b: Snap, c: Snap, d: Driver, plan: Plan, round: Round,
                       r: Result<ToolRun, Failure>, approval: ApprovalTrace, effect: Option<Deed>)
    requires AwaitsResult(a.st, plan) && b.st == a.st.(visible := b.st.visible) && !Stopping(round, a.now)
    requires FlagsRise(a.now, b.now) && FlagsRise(b.now, c.now)
    requires Later(a.env.(prepared := a.env.prepared + [plan.call], problem := b.env.problem), b.env, NoStop)
    requires a.env.firstStop == NoStop && round.latched == NoStop
    requires Resolved(b.st, c.st, b.env, c.env, d, c.now, plan, r, approval, effect)
    ensures CallServed(a, c, d, plan, round, r, false,
                       Begun(d, plan, true, approval, effect, r.Ok? && r.value.Infrastructure?))
  {
    hide Moved, AwaitsResult, SpentFrom, Affordable, Handled, EffectStep, HeardTruly;
    ServedMoves(a.st, b.st, c.st, plan, ApprovalEvents(plan.call, approval));
    ServedRecord(a.env, b.env, c.env, Begun(d, plan, true, approval, effect, r.Ok? && r.value.Infrastructure?),
                 if r.Ok? then RunStop(r.value) else c.env.firstStop);
  }

  lemma ServedMoves(a: State, b: State, c: State, plan: Plan, events: seq<Event>)
    requires AwaitsResult(a, plan) && b == a.(visible := b.visible) && Moved(b, c, events, {plan.resultClaim})
    ensures Moved(a, c, events, {plan.resultClaim})
  {
    QuietMoves(a, b, {plan.resultClaim});
    MovedOn(a, b, c, [], events, {plan.resultClaim}, {plan.resultClaim});
    assert [] + events == events;
  }

  lemma ServedRecord(a: Env, b: Env, c: Env, block: ToolBlock, stop: ToolStop)
    requires block.prepared && a.firstStop == NoStop && Later(a.(prepared := a.prepared + [block.call], problem := b.problem), b, NoStop)
    requires EffectStep(Consulted(b, block.approval), c, block.call, block.effect, block.lost, stop)
    ensures Handled(a, c, block) && c.firstStop == stop
    ensures block.effect.Some? ==> block.effect.value.call == block.call
  {
    var served := a.(prepared := a.prepared + [block.call], problem := b.problem);
    RecordedAlike(served, b, block);
    LaterOn(WithBlock(served, block), WithBlock(b, block), c, stop);
    assert c.problem == b.problem;
  }

  // The record with what one block adds to it.
  function WithBlock(env: Env, block: ToolBlock): Env {
    WithLoss(WithDeed(Consulted(env, block.approval), block.effect), block.call, block.lost)
  }

  lemma RecordedAlike(a: Env, b: Env, block: ToolBlock)
    requires Later(a, b, NoStop)
    ensures Later(WithBlock(a, block), WithBlock(b, block), NoStop)
  {
    hide Later, WithLoss, WithDeed, Consulted;
    ConsultedAlike(a, b, block.approval);
    DeedAlike(Consulted(a, block.approval), Consulted(b, block.approval), block.effect);
    LossAlike(WithDeed(Consulted(a, block.approval), block.effect), WithDeed(Consulted(b, block.approval), block.effect),
              block.call, block.lost);
  }

  method ResolvePrepared(s: Session, d: Driver, w: World, plan: Plan, run: ToolRun)
    returns (r: Result<ToolRun, Failure>, ghost approval: ApprovalTrace, ghost effect: Option<Deed>)
    requires s.Valid() && AwaitsResult(s.st, plan) && w.env.firstStop == NoStop && Effectless(w.env.deeds, plan.call) && Agree(s, d)
    requires (run.Mutation? || run.Action?) && Preparable(plan, run)
    modifies s, d, w
    ensures s.Valid() && FlagsRise(old(d.now), d.now) && Agreed(s, d)
    ensures Resolved(old(s.st), s.st, old(w.env), w.env, d, d.now, plan, r, approval, effect)
  {
    hide AwaitsResult, Resolved;
    if run.Mutation? {
      r, approval, effect := ResolveMutation(s, d, w, plan, run.maximum);
    } else {
      r, approval, effect := ResolveAction(s, d, w, plan, run.maximum);
    }
  }

  // How a call ends: the round goes on to the next call, or a memory session has
  // lost the outcome and the round is over.
  datatype CallEnd = Onward(round: Round) | Lost(stop: ToolStop)

  // The flags after one more look for a stop: whatever was known still is, and only a stop
  // that is latched now may have added anything.
  predicate RoundKeeps(a: Round, b: Round, stop: ToolStop) {
    && RoundOk(b)
    && b.latched == Latch(a.latched, stop)
    && b.concludes == a.concludes
    && (a.cancelled ==> b.cancelled)
    && (b.cancelled && !a.cancelled ==> b.latched != NoStop)
    && (a.failure.Some? ==> b.failure.Some?)
    && (b.failure == Some(ToolExecutor) ==> a.failure == b.failure)
  }

  // What a stop does to the flags of the round, where it was reported with a result.
  function Noted(round: Round, stop: ToolStop): (n: Round)
    requires RoundOk(round)
    ensures RoundKeeps(round, n, stop)
  {
    Round(round.cancelled || stop.StopCancelled?, round.concludes,
          if stop.StopTimeout? then Some(TurnTimeout) else round.failure, Latch(round.latched, stop))
  }

  // What the latched stop does to the flags at the end of one call.
  function Sampled(round: Round, stop: ToolStop): (n: Round)
    requires RoundOk(round)
    ensures RoundKeeps(round, n, stop)
  {
    var latched := Latch(round.latched, stop);
    Round(round.cancelled || latched.StopCancelled?, round.concludes,
          if latched.StopTimeout? && round.failure.None? then Some(TurnTimeout) else round.failure, latched)
  }

  function Remarked(round: Round, seen: bool): Round {
    round.(cancelled := round.cancelled || seen)
  }

  // Whether a run asks the turn to end: only with its own result.
  predicate Concludes(run: ToolRun, result: Option<ResultTrace>) {
    run.Finished? && run.output.concludes && result.Some? && result.value.body.FromTool?
  }

  // Settle the result of one call, or give its claim back (the match of
  // src/agent/mod.rs:2693-2906).
  method Close(s: Session, d: Driver, w: World, plan: Plan, round: Round, run: ToolRun, ghost effect: Option<Deed>)
    returns (r: Result<CallEnd, Failure>, ghost result: Option<ResultTrace>)
    requires s.Valid() && AwaitsResult(s.st, plan) && RoundOk(round)
    requires Reports(run, effect) && Affordable(d.limits, d.now, run, effect) && Agree(s, d)
    modifies s, d
    ensures s.Valid() && Agreed(s, d) && CallClosed(s.durable, old(s.st), s.st, plan, round, run, r, result)
    ensures r.Ok? && effect.Some? && result.Some? ==> ToldTruly(effect.value, result.value)
    ensures ResultsPaid(old(d.now), d.now, d.limits, Excessive(effect), BytesOf(result))
  {
    hide AwaitsResult, ResultSettled, Agree, RoundKeeps;
    match run {
      case Finished(_, _, _) =>
        r, result := CloseFinished(s, d, plan, round, run, effect);
      case Infrastructure(stop) =>
        r, result := CloseLost(s, w, plan, round, stop);
      case ModelError(code) =>
        var settled;
        settled, result := SettleDiagnostic(s, w, plan, Diagnostic(code));
        r := if settled.Err? then Err(settled.error) else Ok(Onward(Noted(round, RunStop(run))));
      case Timeout =>
        var settled;
        settled, result := SettleDiagnostic(s, w, plan, Diagnostic(AbortedWhileRunning));
        r := if settled.Err? then Err(settled.error) else Ok(Onward(Noted(round, StopTimeout)));
    }
  }

  // A finished run: its own result, or the protected template where that does not fit.
  method CloseFinished(s: Session, d: Driver, plan: Plan, round: Round, run: ToolRun, ghost effect: Option<Deed>)
    returns (r: Result<CallEnd, Failure>, ghost result: Option<ResultTrace>)
    requires s.Valid() && AwaitsResult(s.st, plan) && RoundOk(round) && run.Finished?
    requires Reports(run, effect) && Affordable(d.limits, d.now, run, effect) && Agree(s, d)
    modifies s, d
    ensures s.Valid() && Agreed(s, d) && CallClosed(s.durable, old(s.st), s.st, plan, round, run, r, result)
    ensures r.Ok? && effect.Some? && result.Some? ==> ToldTruly(effect.value, result.value)
    ensures ResultsPaid(old(d.now), d.now, d.limits, Excessive(effect), BytesOf(result))
  {
    hide AwaitsResult, ResultSettled, Agree, RoundKeeps;
    var settled;
    settled, result := SettleToolResult(s, d, plan, run.output, run.settlement);
    r := if settled.Err? then Err(settled.error)
         else Ok(Onward(Noted(round.(concludes := round.concludes || (run.output.concludes && settled.value)), run.stop)));
  }

  // A lost outcome: a durable session records that it is unknown, a memory session
  // releases the claim.
  method CloseLost(s: Session, w: World, plan: Plan, round: Round, stop: ToolStop)
    returns (r: Result<CallEnd, Failure>, ghost result: Option<ResultTrace>)
    requires s.Valid() && AwaitsResult(s.st, plan) && RoundOk(round)
    modifies s
    ensures s.Valid() && s.marks == old(s.marks)
    ensures CallClosed(s.durable, old(s.st), s.st, plan, round, Infrastructure(stop), r, result)
    ensures BytesOf(result) == 0
  {
    if s.durable {
      var settled;
      settled, result := SettleDiagnostic(s, w, plan, OutcomeUnknown);
      r := if settled.Err? then Err(settled.error)
           else Ok(Onward(round.(failure := Some(ToolExecutor), latched := Latch(round.latched, stop))));
    } else {
      result := None;
      var _ :- s.Release(plan.resultClaim);
      return Ok(Lost(Latch(round.latched, stop))), result;
    }
  }

  // The flags once a call is closed: a lost outcome is remembered as a failure.
  predicate RoundAfter(a: Round, b: Round, run: ToolRun, result: Option<ResultTrace>) {
    if run.Infrastructure? then
      && RoundOk(b) && b.latched == Latch(a.latched, RunStop(run)) && b.concludes == a.concludes
      && b.cancelled == a.cancelled && b.failure.Some?
    else
      RoundKeeps(a.(concludes := a.concludes || Concludes(run, result)), b, RunStop(run))
  }

  // What the text of a result may be: the protected template, or what became of the run.
  predicate Worded(run: ToolRun, result: ResultTrace) {
    || result.body.BudgetFallback?
    || (run.Finished? && result == ResultTrace(FromTool(run.output.tag), run.output.eventBytes))
    || (run.Infrastructure? && result.body.OutcomeUnknown?)
    || (run.ModelError? && result.body == Diagnostic(run.code))
    || (run.Timeout? && result.body == Diagnostic(AbortedWhileRunning))
  }

  // What closing one call leaves: its one result and its consumed claim, and flags
  // that account for the stop of the run.
  ghost predicate CallClosed(durable: bool, before: State, after: State, plan: Plan, round: Round, run: ToolRun,
                             r: Result<CallEnd, Failure>, result: Option<ResultTrace>)
    requires plan.resultClaim < |before.slots|
  {
    && (r.Ok? && r.value.Onward? ==>
          && result.Some?
          && ResultSettled(before, after, plan, result)
          && RoundAfter(round, r.value.round, run, result)
          && Worded(run, result.value)
          && (run.Finished? && run.settlement.PreferredRequired? ==>
                result.value == ResultTrace(FromTool(run.output.tag), run.output.eventBytes)))
    && (r.Ok? && r.value.Lost? ==>
          && !durable && run.Infrastructure? && result.None?
          && after == Freed(before, plan.resultClaim)
          && r.value.stop == Latch(round.latched, RunStop(run)))
    && (r.Err? ==> result.None? && after == before && !IsLoopBug(r.error))
  }

  // Only result bytes were counted, exactly these, and they stay within the limit of the
  // turn unless a change exceeded the bound it declared.
  predicate ResultsPaid(a: Counters, b: Counters, limits: Limits, over: bool, bytes: nat) {
    && b == a.(resultBytes := a.resultBytes + bytes)
    && (!over && a.resultBytes <= limits.maxTurnResultBytes ==> b.resultBytes <= limits.maxTurnResultBytes)
  }

  // The flags after the last look of an iteration.
  predicate LookedAt(a: Round, b: Round, run: ToolRun, env: Env) {
    && RoundKeeps(a, b, b.latched) && b.latched == env.firstStop
    && (!run.Infrastructure? && env.cancelled ==> b.latched != NoStop)
  }

  // The last look of an iteration: a stop may have come while the result was
  // committed. It is latched before any later call is dispatched; a lost outcome
  // skips this look (src/agent/mod.rs:2907-2930).
  method LookAgain(w: World, run: ToolRun, before: Round, seen: bool, end: CallEnd) returns (r: CallEnd)
    requires KnownStop(w.env, before.latched, run, seen)
    requires end.Onward? ==> RoundOk(end.round) && end.round.latched == Latch(before.latched, RunStop(run))
    requires end.Lost? ==> run.Infrastructure? && end.stop == Latch(before.latched, RunStop(run))
    modifies w
    ensures Later(old(w.env), w.env, w.env.firstStop)
    ensures r.Onward? == end.Onward?
    ensures r.Lost? ==> r == end && r.stop == w.env.firstStop
    ensures r.Onward? ==> LookedAt(end.round, r.round, run, w.env)
  {
    if run.Infrastructure? {
      return end;
    }
    var stop := w.SampleStop();
    r := CallEnd.Onward(Sampled(end.round, stop));
  }

  // The flags after one iteration speak for the first stop and the lost outcomes of the round.
  predicate StopKept(env: Env, r: Result<CallEnd, Failure>) {
    && (r.Ok? && r.value.Onward? ==> Remembers(r.value.round, env))
    && (r.Ok? && r.value.Lost? ==> r.value.stop == env.firstStop)
  }

  predicate Paid(a: Counters, b: Counters, limits: Limits, over: bool, bytes: nat) {
    && (a.observerUnavailable ==> b.observerUnavailable)
    && (a.durableLimit ==> b.durableLimit)
    && b == a.(resultBytes := a.resultBytes + bytes, observerUnavailable := b.observerUnavailable, durableLimit := b.durableLimit)
    && (!over && a.resultBytes <= limits.maxTurnResultBytes ==> b.resultBytes <= limits.maxTurnResultBytes)
  }

  function ReplyEvents(block: ToolBlock): seq<Event> {
    ApprovalEvents(block.call, block.approval) + ResultEvents(block.call, block.result)
  }

  // The diagnostic that a result gives, as a text of the loop or of an owned action.
  function CodeTold(result: Option<ResultTrace>): Option<DiagnosticCode> {
    if result.None? then None
    else if result.value.body.Diagnostic? then Some(result.value.body.code)
    else if result.value.body.FromTool? && result.value.body.tag.Prestart? then Some(result.value.body.tag.code)
    else None
  }

  // A diagnostic in a result has its excuse, and in a full session no result tells anything
  // but that.
  predicate Justified(result: Option<ResultTrace>, round: Round, a: Counters, b: Snap) {
    && (CodeTold(result).Some? ==> Excused(CodeTold(result).value, round, a, b))
    && (a.durableLimit && result.Some? ==>
          CodeTold(result) == Some(DiagnosticCode.SessionFull) || TellsLoss(result.value))
  }

  // What responding to one call keeps.
  ghost predicate Responded(a: Snap, b: Snap, durable: bool, d: Driver, plan: Plan, round: Round,
                            r: Result<CallEnd, Failure>, block: ToolBlock)
  {
    && block.call == plan.call
    && block.policy == PolicyOf(d, plan.profile)
    && BlockTrue(block) && Governed(RulesOf(d), block)
    && (block.prepared ==> !Stopping(round, a.now))
    && Handled(a.env, b.env, block)
    && (r.Ok? ==> Justified(block.result, round, a.now, b))
    && Paid(a.now, b.now, d.limits, Excessive(block.effect), BytesOf(block.result))
    && Moved(a.st, b.st, ReplyEvents(block), {plan.resultClaim})
    && StopKept(b.env, r)
    && (r.Ok? ==>
          && !block.approval.Unanswered?
          && SpentFrom(b.st.slots, |a.st.slots|)
          && plan.resultClaim < |a.st.slots| && !IsLive(b.st.slots, plan.resultClaim))
    && (r.Ok? && r.value.Onward? ==>
          && block.result.Some?
          && r.value.round.concludes == (round.concludes || block.concludes)
          && block.stopping == Stopping(r.value.round, b.now)
          && (Stopping(round, a.now) ==> block.stopping))
    && (!(r.Ok? && r.value.Onward?) ==> block.stopping)
    && (r.Ok? && r.value.Lost? ==> !durable && block.result.None? && block.lost)
    && (r.Err? ==> !IsLoopBug(r.error) && IsLive(b.st.slots, plan.resultClaim))
  }

  lemma NotServed(a: Snap, b: Snap, durable: bool, d: Driver, plan: Plan, round: Round,
                  served: Result<ToolRun, Failure>, seen: bool, block: ToolBlock)
    requires CallServed(a, b, d, plan, round, served, seen, block) && served.Err?
    ensures Responded(a, b, durable, d, plan, round, Err(served.error), block)
  {
    assert ApprovalEvents(plan.call, block.approval) + [] == ApprovalEvents(plan.call, block.approval);
  }

  lemma ServedWell(a: Snap, b: Snap, d: Driver, plan: Plan, round: Round,
                   served: Result<ToolRun, Failure>, seen: bool, block: ToolBlock)
    requires CallServed(a, b, d, plan, round, served, seen, block) && served.Ok?
    ensures AwaitsResult(b.st, plan) && KnownStop(b.env, round.latched, served.value, seen)
    ensures Affordable(d.limits, b.now, served.value, block.effect) && Reports(served.value, block.effect)
    ensures Explained(served.value, round, a.now, b)
    ensures |a.st.slots| <= |b.st.slots| && plan.resultClaim < |b.st.slots|
  {
  }

  lemma ClosedWell(durable: bool, before: State, after: State, plan: Plan, round: Round, run: ToolRun,
                   r: Result<CallEnd, Failure>, result: Option<ResultTrace>)
    requires plan.resultClaim < |before.slots| && CallClosed(durable, before, after, plan, round, run, r, result) && r.Ok?
    ensures r.value.Onward? ==> RoundOk(r.value.round) && r.value.round.latched == Latch(round.latched, RunStop(run))
    ensures r.value.Lost? ==> run.Infrastructure? && r.value.stop == Latch(round.latched, RunStop(run))
  {
  }

  // The flags of the round once it looked again.
  predicate Looked(run: ToolRun, env: Env, closed: Result<CallEnd, Failure>, r: Result<CallEnd, Failure>) {
    && (closed.Err? ==> r == closed)
    && (closed.Ok? ==>
          && r.Ok?
          && r.value.Onward? == closed.value.Onward?
          && (r.value.Lost? ==> r.value.stop == env.firstStop)
          && (r.value.Onward? ==> LookedAt(closed.value.round, r.value.round, run, env)))
  }

  lemma RespondedWell(a: Snap, b: Snap, c: Snap, e: Snap, durable: bool, d: Driver, plan: Plan, round: Round, run: ToolRun,
                      seen: bool, closed: Result<CallEnd, Failure>, r: Result<CallEnd, Failure>, open: ToolBlock, block: ToolBlock)
    requires plan.resultClaim < |a.st.slots| <= |b.st.slots|
    requires CallServed(a, b, d, plan, round, Ok(run), seen, open)
    requires CallClosed(durable, b.st, c.st, plan, Remarked(round, seen), run, closed, block.result)
    requires ResultsPaid(b.now, c.now, d.limits, Excessive(open.effect), BytesOf(block.result)) && c.env == b.env
    requires closed.Ok? && open.effect.Some? && block.result.Some? ==> ToldTruly(open.effect.value, block.result.value)
    requires Remembers(round, a.env)
    requires e == c.(env := e.env) && Later(c.env, e.env, e.env.firstStop)
    requires Looked(run, e.env, closed, r)
    requires block == open.(result := block.result, concludes := Concludes(run, block.result),
                            stopping := r.Ok? && r.value.Onward? ==> Stopping(r.value.round, e.now))
    ensures Responded(a, e, durable, d, plan, round, r, block)
  {
    hide Moved, SpentFrom, BlockTrue, Excused, Excessive, Stopping, KnownStop, RoundAfter, LookedAt, Remembers, Worded, Explained, Justified, AnswersFor, Reports, WithBlock, ToldTruly, BytesOf, Concludes;
    ReplyMoves(a.st, b.st, c.st, plan, closed, block);
    HandledStill(a.env, b.env, e.env, open, block);
    if r.Ok? {
      ResultJustified(run, round, a.now, b, e, block.result);
      if r.value.Onward? {
        RoundRemembers(a.env, b.env, e.env, round, seen, run, open, closed.value.round, r.value.round, block.result);
        RoundStops(round, seen, run, block.result, closed.value.round, r.value.round, e.env, a.now, e.now);
      }
    }
    BlockAnswered(run, open, block);
  }

  lemma HandledStill(a: Env, b: Env, e: Env, open: ToolBlock, block: ToolBlock)
    requires Handled(a, b, open) && Later(b, e, e.firstStop)
    requires block == open.(result := block.result, concludes := block.concludes, stopping := block.stopping)
    ensures Handled(a, e, block)
  {
  }

  // The block is true once its result is there; what a failed try left has none.
  lemma BlockAnswered(run: ToolRun, open: ToolBlock, block: ToolBlock)
    requires BlockTrue(open) && open.result.None? && open.stopping && AnswersFor(run, open) && open.lost == run.Infrastructure?
    requires Reports(run, open.effect)
    requires block == open.(result := block.result, concludes := Concludes(run, block.result), stopping := block.stopping)
    requires block.result.Some? ==> Worded(run, block.result.value)
    requires block.result.Some? && open.effect.Some? ==> ToldTruly(open.effect.value, block.result.value)
    requires block.lost ==> block.stopping
    ensures BlockTrue(block)
  {
  }

  lemma ResultJustified(run: ToolRun, round: Round, a: Counters, b: Snap, e: Snap, result: Option<ResultTrace>)
    requires Explained(run, round, a, b) && (result.Some? ==> Worded(run, result.value))
    requires Later(b.env, e.env, e.env.firstStop)
    requires b.now.durableLimit == e.now.durableLimit && b.now.observerUnavailable == e.now.observerUnavailable
    ensures Justified(result, round, a, e)
  {
  }

  // What the flags say at the end of an iteration.
  lemma RoundRemembers(a: Env, b: Env, e: Env, round: Round, seen: bool, run: ToolRun, open: ToolBlock,
                       closed: Round, after: Round, result: Option<ResultTrace>)
    requires Remembers(round, a) && Handled(a, b, open) && open.lost == run.Infrastructure?
    requires KnownStop(b, round.latched, run, seen) && Later(b, e, e.firstStop)
    requires RoundAfter(Remarked(round, seen), closed, run, result) && LookedAt(closed, after, run, e)
    ensures Remembers(after, e)
  {
  }

  // A lost outcome keeps later calls from starting, and a round never stops stopping.
  lemma RoundStops(round: Round, seen: bool, run: ToolRun, result: Option<ResultTrace>, closed: Round, after: Round, env: Env,
                   a: Counters, e: Counters)
    requires RoundAfter(Remarked(round, seen), closed, run, result) && LookedAt(closed, after, run, env)
    requires (a.observerUnavailable ==> e.observerUnavailable) && (a.durableLimit ==> e.durableLimit)
    ensures run.Infrastructure? || Stopping(round, a) ==> Stopping(after, e)
    ensures after.concludes == (round.concludes || Concludes(run, result))
  {
  }

  lemma ReplyMoves(a: State, b: State, c: State, plan: Plan, closed: Result<CallEnd, Failure>, block: ToolBlock)
    requires block.call == plan.call && plan.resultClaim < |a.slots| && |a.slots| <= |b.slots|
    requires Moved(a, b, ApprovalEvents(plan.call, block.approval), {plan.resultClaim})
    requires c == (if block.result.Some? then Consumed(b, plan.resultClaim, ToolResult(plan.call, block.result.value.body, block.result.value.size))
                   else if closed.Ok? then Freed(b, plan.resultClaim) else b)
    ensures Moved(a, c, ReplyEvents(block), {plan.resultClaim})
    ensures closed.Ok? && SpentFrom(b.slots, |a.slots|) ==>
      SpentFrom(c.slots, |a.slots|) && !IsLive(c.slots, plan.resultClaim)
  {
    if block.result.Some? {
      ConsumedMoves(b, plan.resultClaim, ToolResult(plan.call, block.result.value.body, block.result.value.size));
    } else {
      QuietMoves(b, c, {plan.resultClaim});
    }
    MovedOn(a, b, c, ApprovalEvents(plan.call, block.approval), ResultEvents(plan.call, block.result),
            {plan.resultClaim}, {plan.resultClaim});
  }

  // Close a served call and look again.
  method Finish(s: Session, d: Driver, w: World, plan: Plan, round: Round, run: ToolRun, seen: bool, ghost effect: Option<Deed>)
    returns (r: Result<CallEnd, Failure>, ghost closed: Result<CallEnd, Failure>, ghost result: Option<ResultTrace>)
    requires s.Valid() && AwaitsResult(s.st, plan) && plan.resultClaim < |s.st.slots| && RoundOk(round)
    requires Reports(run, effect) && Affordable(d.limits, d.now, run, effect) && Agree(s, d)
    requires KnownStop(w.env, round.latched, run, seen)
    modifies s, d, w
    ensures s.Valid() && Agreed(s, d)
    ensures CallClosed(s.durable, old(s.st), s.st, plan, Remarked(round, seen), run, closed, result)
    ensures closed.Ok? && effect.Some? && result.Some? ==> ToldTruly(effect.value, result.value)
    ensures ResultsPaid(old(d.now), d.now, d.limits, Excessive(effect), BytesOf(result))
    ensures Later(old(w.env), w.env, w.env.firstStop) && Looked(run, w.env, closed, r)
  {
    hide AwaitsResult, CallClosed, KnownStop, ResultsPaid, Affordable, Reports, ToldTruly, Excessive, Concludes, Agree, BytesOf;
    var noted := Remarked(round, seen);
    ghost var before := s.st;
    r, result := Close(s, d, w, plan, noted, run, effect);
    closed := r;
    if r.Ok? {
      ClosedWell(s.durable, before, s.st, plan, noted, run, r, result);
      var looked := LookAgain(w, run, round, seen, r.value);
      r := Ok(looked);
    }
  }

  // Everything after the call event: serve the call and close it.
  method Respond(s: Session, d: Driver, w: World, plan: Plan, round: Round)
    returns (r: Result<CallEnd, Failure>, ghost block: ToolBlock)
    requires s.Valid() && s.st.attempts.phase.NoAttempt? && AwaitsResult(s.st, plan)
    requires Remembers(round, w.env) && Effectless(w.env.deeds, plan.call) && Agree(s, d)
    requires plan.resultClaim < |s.st.slots|
    modifies s, d, w
    ensures s.Valid() && Agreed(s, d) && Responded(old(Look(s, d, w)), Look(s, d, w), s.durable, d, plan, round, r, block)
  {
    hide Moved, AwaitsResult, Stopping, CallServed, CallClosed, KnownStop, Responded, ResultsPaid, Affordable, Reports, ToldTruly, Excessive, Concludes, Agree, Effectless, Looked, BytesOf;
    ghost var a := Look(s, d, w);
    var served, seen;
    served, seen, block := Serve(s, d, w, plan, round);
    ghost var b, open := Look(s, d, w), block;
    if served.Err? {
      r := Err(served.error);
      NotServed(a, b, s.durable, d, plan, round, served, seen, block);
      return;
    }
    ServedWell(a, b, d, plan, round, served, seen, block);
    ghost var closed, result;
    r, closed, result := Finish(s, d, w, plan, round, served.value, seen, block.effect);
    ghost var e := Look(s, d, w);
    block := block.(result := result, concludes := Concludes(served.value, result),
                    stopping := r.Ok? && r.value.Onward? ==> Stopping(r.value.round, d.now));
    RespondedWell(a, b, e.(env := b.env), e, s.durable, d, plan, round, served.value, seen, closed, r, open, block);
  }

  // What one iteration of the round keeps: without a block nothing happened but an
  // error, otherwise the block is the call event followed by the response.
  ghost predicate CallRan(a: Snap, b: Snap, durable: bool, d: Driver, plan: Plan, round: Round,
                          r: Result<CallEnd, Failure>, block: Option<ToolBlock>)
  {
    match block
    case None =>
      r.Err? && !IsLoopBug(r.error) && a == b && IsLive(b.st.slots, plan.resultClaim)
    case Some(t) =>
      && t.call == plan.call
      && t.policy == PolicyOf(d, plan.profile)
      && BlockTrue(t) && Governed(RulesOf(d), t)
      && (t.prepared ==> !Stopping(round, a.now))
      && Handled(a.env, b.env, t)
      && (r.Ok? ==> Justified(t.result, round, a.now, b))
      && Paid(a.now, b.now, d.limits, Excessive(t.effect), BytesOf(t.result))
      && Moved(a.st, b.st, BlockEvents(t), {plan.callClaim, plan.resultClaim})
      && StopKept(b.env, r)
      && (r.Ok? ==>
            && !t.approval.Unanswered?
            && SpentFrom(b.st.slots, |a.st.slots|)
            && !IsLive(b.st.slots, plan.callClaim)
            && !IsLive(b.st.slots, plan.resultClaim))
      && (r.Ok? && r.value.Onward? ==>
            && t.result.Some?
            && r.value.round.concludes == (round.concludes || t.concludes)
            && t.stopping == Stopping(r.value.round, b.now)
            && (Stopping(round, a.now) ==> t.stopping))
      && (!(r.Ok? && r.value.Onward?) ==> t.stopping)
      && (r.Ok? && r.value.Lost? ==> !durable && t.result.None? && t.lost)
      && (r.Err? ==> !IsLoopBug(r.error) && IsLive(b.st.slots, plan.resultClaim))
  }

  lemma CallNotBegun(a: Snap, b: Snap, durable: bool, d: Driver, plan: Plan, round: Round,
                     r: Result<CallEnd, Failure>, began: bool, block: Option<ToolBlock>)
    requires r.Err? && !IsLoopBug(r.error) && b == a.(st := b.st)
    requires IsLive(b.st.slots, plan.resultClaim)
    requires began ==> Moved(a.st, b.st, [Event.ToolCall(plan.call)], {plan.callClaim, plan.resultClaim})
    requires !began ==> a.st == b.st
    requires block == if began then Some(Begun(d, plan, false, NotAsked, None, false)) else None
    ensures CallRan(a, b, durable, d, plan, round, r, block)
  {
    assert [Event.ToolCall(plan.call)] + [] + [] == [Event.ToolCall(plan.call)];
  }

  lemma CallResponded(a: Snap, b: Snap, c: Snap, durable: bool, d: Driver, plan: Plan, round: Round,
                      r: Result<CallEnd, Failure>, block: ToolBlock)
    requires Moved(a.st, b.st, [Event.ToolCall(plan.call)], {plan.callClaim, plan.resultClaim})
    requires |b.st.slots| == |a.st.slots| && b.env == a.env && b.now == a.now
    requires plan.callClaim < |a.st.slots| && plan.callClaim != plan.resultClaim && b.st.slots[plan.callClaim].Settled?
    requires Responded(b, c, durable, d, plan, round, r, block)
    ensures CallRan(a, c, durable, d, plan, round, r, Some(block))
  {
    MovedOn(a.st, b.st, c.st, [Event.ToolCall(plan.call)], ReplyEvents(block),
            {plan.callClaim, plan.resultClaim}, {plan.resultClaim});
    assert [Event.ToolCall(plan.call)] + ReplyEvents(block) == BlockEvents(block);
  }

  // One iteration of the round (src/agent/mod.rs:2624-2931).
  method RunCall(s: Session, d: Driver, w: World, plan: Plan, round: Round)
    returns (r: Result<CallEnd, Failure>, ghost block: Option<ToolBlock>)
    requires s.Valid() && s.st.attempts.phase.NoAttempt? && AwaitsResult(s.st, plan) && plan.callClaim != plan.resultClaim
    requires IsLive(s.st.slots, plan.callClaim) && s.st.slots[plan.callClaim].fallback == Event.ToolCall(plan.call)
    requires plan.resultClaim < |s.st.slots|
    requires Remembers(round, w.env) && Effectless(w.env.deeds, plan.call) && Agree(s, d)
    modifies s, d, w
    ensures s.Valid() && Agreed(s, d) && CallRan(old(Look(s, d, w)), Look(s, d, w), s.durable, d, plan, round, r, block)
  {
    hide Moved, AwaitsResult, CallRan, Responded, RoundOk;
    ghost var a := Look(s, d, w);
    var begun;
    ghost var began;
    begun, began := BeginCall(s, w, plan);
    ghost var b := Look(s, d, w);
    if begun.Err? {
      r := Err(begun.error);
      block := if began then Some(Begun(d, plan, false, NotAsked, None, false)) else None;
      CallNotBegun(a, b, s.durable, d, plan, round, r, began, block);
      return;
    }
    ghost var reply;
    r, reply := Respond(s, d, w, plan, round);
    block := Some(reply);
    CallResponded(a, b, Look(s, d, w), s.durable, d, plan, round, r, reply);
  }
}
