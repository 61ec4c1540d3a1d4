// One tool call from its committed call event to its one result: preparation by
// the executor, permission, the side effect, and the settled result
// (src/agent/mod.rs:3036-4138).
module ToolCall {
  import opened Common
  import opened SessionLog
  import opened SessionModel
  import opened WorldModel
  import opened DriverModel
  import opened LogGrammar
  import opened ToolApproval

  // Whether a tool is an ordinary one or an action the program owns itself.
  datatype Profile = Standard | ShellAction | PluginAction

  datatype ResultSettlement = FallbackAllowed | PreferredRequired

  datatype ToolRun =
    | Finished(output: Output, settlement: ResultSettlement, stop: ToolStop)
    | Mutation(maximum: nat)
    | Action(maximum: nat)
    | ModelError(code: DiagnosticCode)
    | Infrastructure(stop: ToolStop)
    | Timeout

  // The stop a run reports to its round.
  function RunStop(run: ToolRun): ToolStop {
    match run
    case Finished(_, _, stop) => stop
    case Infrastructure(stop) => stop
    case Timeout => StopTimeout
    case ModelError(code) => if code.AbortedWhileRunning? then StopCancelled else NoStop
    case _ => NoStop
  }

  datatype Plan = Plan(call: Id, profile: Profile, callClaim: nat, resultClaim: nat)

  function PolicyOf(d: Driver, profile: Profile): Policy {
    match profile
    case Standard => d.filePolicy
    case ShellAction => d.shellPolicy
    case PluginAction => d.pluginPolicy
  }

  // The only kind of side effect a profile may have.
  function KindOf(profile: Profile): EffectKind {
    match profile
    case Standard => FileChange
    case ShellAction => ShellRun
    case PluginAction => PluginRun
  }

  // The result of this call is still protected.
  ghost predicate AwaitsResult(st: State, plan: Plan) {
    && st.attempts.phase.NoAttempt?
    && IsLive(st.slots, plan.resultClaim)
    && st.slots[plan.resultClaim].fallback.ToolResult?
    && st.slots[plan.resultClaim].fallback.call == plan.call
    && st.slots[plan.resultClaim].fallback.body == BudgetFallback
  }

  // ----- settling one result

  // A try to settle the result of a call leaves one result event and one consumed
  // claim, or the session as it was.
  ghost predicate ResultSettled(before: State, after: State, plan: Plan, result: Option<ResultTrace>)
    requires plan.resultClaim < |before.slots|
  {
    after == match result
             case None => before
             case Some(t) => Consumed(before, plan.resultClaim, ToolResult(plan.call, t.body, t.size))
  }

  // A result that must not be replaced: preferred-only, with one resumed try when
  // a durable session still owns the candidate (src/agent/mod.rs:4097-4117).
  method SettleTruthful(s: Session, d: Driver, plan: Plan, output: Output)
    returns (r: Result<bool, Failure>, ghost result: Option<ResultTrace>)
    requires s.Valid() && AwaitsResult(s.st, plan) && Agree(s, d)
    modifies s, d
    ensures s.Valid() && ResultSettled(old(s.st), s.st, plan, result) && Agreed(s, d)
    ensures r.Ok? ==>
      && r.value
      && result == Some(ResultTrace(FromTool(output.tag), output.eventBytes))
      && d.now == old(d.now).(resultBytes := old(d.now).resultBytes + output.eventBytes)
    ensures r.Err? ==> result.None? && s.st == old(s.st) && d.now == old(d.now) && !IsLoopBug(r.error)
  {
    result := None;
    if !output.encodable {
      return Err(Failure.Rejected), result;
    }
    var preferred := ToolResult(plan.call, FromTool(output.tag), output.eventBytes);
    var first, retained := s.SettlePreferredOnly(plan.resultClaim, preferred);
    if first.Err? {
      if !retained {
        return Err(first.error), result;
      }
      var _ :- s.ResumePreferredOnly(plan.resultClaim, preferred);
    }
    result := Some(ResultTrace(FromTool(output.tag), output.eventBytes));
    d.now := d.now.(resultBytes := d.now.resultBytes + output.eventBytes);
    return Ok(true), result;
  }

  // A result that gives way to the protected fallback when it does not fit.
  method SettleOrdinary(s: Session, d: Driver, plan: Plan, output: Output)
    returns (r: Result<bool, Failure>, ghost result: Option<ResultTrace>)
    requires s.Valid() && AwaitsResult(s.st, plan) && Agree(s, d)
    modifies s, d
    ensures s.Valid() && ResultSettled(old(s.st), s.st, plan, result) && Agreed(s, d)
    ensures r.Ok? ==>
      && result.Some?
      && (if r.value then result.value == ResultTrace(FromTool(output.tag), output.eventBytes)
          else result.value.body == BudgetFallback)
      && d.now == old(d.now).(resultBytes := old(d.now).resultBytes + if r.value then output.eventBytes else 0)
      && (r.value ==> d.now.resultBytes <= d.limits.maxTurnResultBytes && output.encodable
                      && output.eventBytes <= d.limits.maxResultBytes && output.componentBytes <= d.limits.maxResultBytes)
    ensures r.Err? ==> result.None? && s.st == old(s.st) && d.now == old(d.now) && !IsLoopBug(r.error)
  {
    result := None;
    ghost var protected := ResultTrace(BudgetFallback, s.st.slots[plan.resultClaim].fallback.size);
    if !d.ResultFits(output.componentBytes) || !output.encodable || !d.ResultFits(output.eventBytes) {
      var _ :- s.SettleExact(plan.resultClaim);
      result := Some(protected);
      return Ok(false), result;
    }
    var used :- s.Settle(plan.resultClaim, ToolResult(plan.call, FromTool(output.tag), output.eventBytes));
    if used.Fallback? {
      result := Some(protected);
      return Ok(false), result;
    }
    result := Some(ResultTrace(FromTool(output.tag), output.eventBytes));
    d.now := d.now.(resultBytes := d.now.resultBytes + output.eventBytes);
    return Ok(true), result;
  }

  // Returns whether the tool's own result was committed (src/agent/mod.rs:4026-4138).
  method SettleToolResult(s: Session, d: Driver, plan: Plan, output: Output, settlement: ResultSettlement)
    returns (r: Result<bool, Failure>, ghost result: Option<ResultTrace>)
    requires s.Valid() && AwaitsResult(s.st, plan) && Agree(s, d)
    modifies s, d
    ensures s.Valid() && ResultSettled(old(s.st), s.st, plan, result) && Agreed(s, d)
    ensures r.Ok? ==>
      && result.Some?
      && (if r.value then result.value == ResultTrace(FromTool(output.tag), output.eventBytes)
          else result.value.body == BudgetFallback)
      && d.now == old(d.now).(resultBytes := old(d.now).resultBytes + if r.value then output.eventBytes else 0)
    ensures r.Ok? && settlement.PreferredRequired? ==> r.value
    ensures r.Ok? && settlement.FallbackAllowed? && r.value ==>
      d.now.resultBytes <= d.limits.maxTurnResultBytes && output.eventBytes <= d.limits.maxResultBytes
    ensures r.Err? ==> result.None? && s.st == old(s.st) && d.now == old(d.now) && !IsLoopBug(r.error)
  {
    hide ResultSettled, AwaitsResult, Agree;
    if settlement.PreferredRequired? {
      r, result := SettleTruthful(s, d, plan, output);
    } else {
      r, result := SettleOrdinary(s, d, plan, output);
    }
  }

  // A diagnostic of the loop itself, or the protected fallback (src/agent/mod.rs:2948-2992).
  method SettleDiagnostic(s: Session, w: World, plan: Plan, body: ResultBody)
    returns (r: Result<Unit, Failure>, ghost result: Option<ResultTrace>)
    requires s.Valid() && AwaitsResult(s.st, plan)
    modifies s
    ensures s.Valid() && ResultSettled(old(s.st), s.st, plan, result) && s.marks == old(s.marks)
    ensures r.Ok? ==> result.Some? && (result.value.body == body || result.value.body == BudgetFallback)
    ensures r.Err? ==> result.None? && s.st == old(s.st) && !IsLoopBug(r.error)
  {
    result := None;
    var size := w.Number();
    ghost var protected := ResultTrace(BudgetFallback, s.st.slots[plan.resultClaim].fallback.size);
    var used :- s.Settle(plan.resultClaim, ToolResult(plan.call, body, size));
    result := Some(if used.Preferred? then ResultTrace(body, size) else protected);
    return Ok(Unit), result;
  }

  // ----- before a tool starts

  // The diagnostic that a run gives instead of a result of the tool.
  function CodeOf(run: ToolRun): Option<DiagnosticCode> {
    if run.ModelError? then Some(run.code)
    else if run.Finished? && run.output.tag.Prestart? then Some(run.output.tag.code)
    else None
  }

  // A call that never started: an ordinary one gives its diagnostic, which a stop replaces;
  // an owned one gives its own text with the diagnostic, or its outcome is lost.
  predicate Prefailed(run: ToolRun, profile: Profile, code: DiagnosticCode, stop: ToolStop) {
    && RunStop(run) == stop && !run.Mutation? && !run.Action?
    && (profile.Standard? <==> run.ModelError? || run.Timeout?)
    && (run.ModelError? ==> run.code == if stop.StopCancelled? then AbortedWhileRunning else code)
    && (run.Finished? ==> run.settlement.FallbackAllowed? && run.output.tag == OutputTag.Prestart(code))
  }

  // A failure decided before the tool started (src/agent/mod.rs:3237-3275). built
  // tells whether the owned result could be constructed.
  function PrestartFailure(profile: Profile, code: DiagnosticCode, stop: ToolStop, size: nat, built: bool): (run: ToolRun)
    requires !code.AbortedWhileRunning?
    ensures Prefailed(run, profile, code, stop) && (run.Infrastructure? <==> !profile.Standard? && !built)
  {
    if profile.Standard? then
      match stop
      case StopTimeout => Timeout
      case StopCancelled => ModelError(AbortedWhileRunning)
      case NoStop => ModelError(code)
    else if built then
      Finished(Output(OutputTag.Prestart(code), size, size, true, false), FallbackAllowed, stop)
    else
      Infrastructure(stop)
  }

  method FailBeforeStart(w: World, plan: Plan, code: DiagnosticCode, stop: ToolStop) returns (run: ToolRun)
    requires !code.AbortedWhileRunning?
    modifies w
    ensures w.env == WithLoss(old(w.env), plan.call, run.Infrastructure?)
    ensures Prefailed(run, plan.profile, code, stop)
  {
    var size := w.Number();
    var lost := false;
    if !plan.profile.Standard? {
      lost := w.Loses(plan.call);
    }
    run := PrestartFailure(plan.profile, code, stop, size, !lost);
  }

  // A kind of preparation belongs to a profile: only an ordinary tool prepares a
  // mutation, only an owned one an action, and neither has started anything.
  predicate Preparable(plan: Plan, run: ToolRun) {
    && (run.Finished? ==> run.settlement.FallbackAllowed?)
    && (run.Mutation? ==> plan.profile.Standard?)
    && (run.Action? ==> !plan.profile.Standard?)
  }

  predicate IsProblem(code: DiagnosticCode) {
    code.UnknownTool? || code.ArgumentsTooLarge? || code.InvalidArguments? || code.ToolTimeout?
  }

  // What a run that the executor was asked for tells instead of a result: the problem that
  // kept it from being prepared, or else that a stop aborted it.
  predicate Blames(run: ToolRun, problem: Option<DiagnosticCode>) {
    && (problem.Some? ==> IsProblem(problem.value) && (run.Infrastructure? || CodeOf(run) == problem))
    && (problem.None? && CodeOf(run).Some? ==>
          RunStop(run) != NoStop && (CodeOf(run).value.AbortedBeforeDispatch? || CodeOf(run).value.AbortedWhileRunning?))
  }

  predicate IsDeclined(run: ToolRun) {
    run.Finished? && run.output.tag.Declined?
  }

  // Hand one call to the executor. Nothing is prepared once a stop was observed, an
  // outcome lost, the session full or its observer gone; a stop observed while preparing
  // wins over whatever the executor returns (src/agent/mod.rs:3036-3235).
  method RunOneTool(s: Session, w: World, plan: Plan) returns (run: ToolRun, ghost prepared: bool)
    requires !IsLate(w.env, s.marks) && s.st.visible == |s.st.log|
    modifies w
    ensures Later(WithLoss(old(w.env).(prepared := old(w.env).prepared + (if prepared then [plan.call] else []),
                                       problem := w.env.problem),
                           plan.call, run.Infrastructure?), w.env, RunStop(run))
    ensures Preparable(plan, run) && (run.Mutation? || run.Action? ==> prepared)
    ensures Blames(run, w.env.problem) && !IsDeclined(run)
  {
    prepared := false;
    var problem := w.Inspect();
    if problem.Some? {
      run := FailBeforeStart(w, plan, problem.value, NoStop);
      return;
    }
    var stop := w.SampleStop();
    if stop != NoStop {
      run := FailBeforeStart(w, plan, AbortedBeforeDispatch, stop);
      return;
    }
    prepared := true;
    w.Handle(s, plan.call);
    assert old(w.env).late + [] == old(w.env).late;
    run := Prepare(w, plan);
  }

  // What the executor returned: a finished result, a mutation, an owned action, or
  // nothing usable. A kind that the claim profile does not allow is an executor loss.
  method Prepare(w: World, plan: Plan) returns (run: ToolRun)
    requires IsHandled(w.env, plan.call) && w.env.problem.None?
    modifies w
    ensures Later(WithLoss(old(w.env).(problem := w.env.problem), plan.call, run.Infrastructure?), w.env, RunStop(run))
    ensures Preparable(plan, run) && Blames(run, w.env.problem) && !IsDeclined(run)
  {
    var interrupted := w.SampleStop();
    if interrupted != NoStop {
      run := FailBeforeStart(w, plan, AbortedBeforeDispatch, interrupted);
      return;
    }
    var timedOut := w.TimesOut();
    if timedOut {
      run := FailBeforeStart(w, plan, ToolTimeout, NoStop);
      return;
    }
    run := Returned(w, plan);
  }

  // Only a carrier that fits the profile of the call is taken; any other is an executor
  // loss (src/agent/mod.rs:3176-3221).
  method Returned(w: World, plan: Plan) returns (run: ToolRun)
    requires IsHandled(w.env, plan.call)
    modifies w
    ensures Later(WithLoss(old(w.env), plan.call, run.Infrastructure?), w.env, RunStop(run))
    ensures Preparable(plan, run) && CodeOf(run).None? && !IsDeclined(run)
  {
    var owned := !plan.profile.Standard?;
    var carrier := w.Answer(plan.call, owned);
    match carrier {
      case Direct(output, sound) =>
        run := if owned && !sound then Infrastructure(NoStop) else Finished(output, FallbackAllowed, NoStop);
      case Change(maximum) =>
        run := if owned then Infrastructure(NoStop) else Mutation(maximum);
      case Owned(maximum, matches) =>
        run := if !owned || !matches then Infrastructure(NoStop) else Action(maximum);
      case NoCarrier =>
        var stop := w.SampleStop();
        run := Infrastructure(stop);
    }
  }

  // A prepared action or mutation closed without starting: its own closing text, or
  // an executor loss when that text does not honour the contract.
  method Decline(w: World, plan: Plan, reason: DeclineReason, stop: ToolStop) returns (run: ToolRun)
    modifies w
    ensures w.env == WithLoss(old(w.env), plan.call, run.Infrastructure?)
    ensures RunStop(run) == stop
    ensures run.Infrastructure? ||
      (run.Finished? && run.settlement.FallbackAllowed? && run.output.tag == OutputTag.Declined(reason))
  {
    var lost := w.Loses(plan.call);
    var bytes := w.Number();
    var size := w.Number();
    var encodable := w.Flip();
    run := if lost then Infrastructure(stop)
           else Finished(Output(OutputTag.Declined(reason), bytes, size, encodable, false), FallbackAllowed, stop);
  }

  // ----- permission

  datatype Room = Reserved | StorageFull | OverBudget

  // The truthful result of a side effect gets its capacity before anything starts
  // (src/agent/mod.rs:3385-3420 and 3713-3748).
  method ProtectResult(s: Session, d: Driver, plan: Plan, maximum: nat) returns (r: Result<Room, Failure>)
    requires s.Valid() && AwaitsResult(s.st, plan) && Agree(s, d)
    modifies s, d
    ensures s.Valid() && AwaitsResult(s.st, plan) && FlagsRise(old(d.now), d.now) && Agreed(s, d)
    ensures Moved(old(s.st), s.st, [], {plan.resultClaim}) && |s.st.slots| == |old(s.st).slots|
    ensures r.Ok? && r.value.StorageFull? ==> d.now.durableLimit
    ensures r.Ok? && r.value.Reserved? ==>
      && maximum <= s.st.slots[plan.resultClaim].reserved && maximum <= d.limits.maxResultBytes
      && d.now.resultBytes + maximum <= d.limits.maxTurnResultBytes
    ensures r.Err? ==> !IsLoopBug(r.error)
  {
    ghost var before := s.st;
    QuietMoves(before, before, {plan.resultClaim});
    if !d.ResultFits(maximum) {
      return Ok(OverBudget);
    }
    var reserved := s.ReserveBytes(plan.resultClaim, maximum);
    if reserved.Err? {
      if reserved.error.DurableLimit? {
        d.now := d.now.(durableLimit := true);
        return Ok(StorageFull);
      }
      return if reserved.error.MemoryBudget? then Ok(OverBudget) else Err(reserved.error);
    }
    QuietMoves(before, s.st, {plan.resultClaim});
    return Ok(Reserved);
  }

  // What must hold where a side effect starts: no stop was observed in this round,
  // the call has had no effect yet, its result has capacity for the declared size,
  // and a question that was needed was answered by the user, and is decided by the very
  // last rows of a log that is stored and visible.
  ghost predicate MayStart(st: State, env: Env, policy: Policy, plan: Plan, maximum: nat, approval: ApprovalTrace) {
    && env.firstStop == NoStop
    && Effectless(env.deeds, plan.call)
    && IsLive(st.slots, plan.resultClaim) && maximum <= st.slots[plan.resultClaim].reserved
    && Licensed(policy, approval)
    && (policy.Ask? ==>
          && Reply(approval.id, AllowedOnce) in env.replies
          && st.visible == |st.log| && EndsWith(st.log, ApprovalEvents(plan.call, approval)))
  }

  predicate Effectless(deeds: seq<Deed>, call: Id) {
    forall i :: 0 <= i < |deeds| ==> deeds[i].call != call
  }

  predicate EndsWith(log: seq<Event>, rows: seq<Event>) {
    |rows| <= |log| && log[|log| - |rows|..] == rows
  }

  // Policy, capacity and question, in this order. Nothing has started yet.
  method Authorize(s: Session, d: Driver, w: World, plan: Plan, maximum: nat)
    returns (r: Result<Verdict, Failure>, ghost approval: ApprovalTrace)
    requires s.Valid() && AwaitsResult(s.st, plan) && w.env.firstStop == NoStop && Effectless(w.env.deeds, plan.call) && Agree(s, d)
    modifies s, d, w
    ensures s.Valid() && FlagsRise(old(d.now), d.now) && Agreed(s, d)
    ensures Moved(old(s.st), s.st, ApprovalEvents(plan.call, approval), {plan.resultClaim})
    ensures Later(Consulted(old(w.env), approval), w.env, w.env.firstStop)
    ensures HeardTruly(approval) && (!PolicyOf(d, plan.profile).Ask? ==> approval.NotAsked?)
    ensures AwaitsResult(s.st, plan)
    ensures r.Ok? ==>
      && !approval.Unanswered?
      && SpentFrom(s.st.slots, |old(s.st).slots|)
      && w.env.firstStop == VerdictStop(r.value)
      && VerdictTrue(r.value, PolicyOf(d, plan.profile), approval, d.now.durableLimit)
    ensures r.Ok? && r.value.Granted? ==>
      && MayStart(s.st, w.env, PolicyOf(d, plan.profile), plan, maximum, approval)
      && d.now.resultBytes + maximum <= d.limits.maxTurnResultBytes
    ensures r.Err? ==> !IsLoopBug(r.error)
  {
    hide Moved, Agree, VerdictTrue;
    approval := NotAsked;
    ghost var before := s.st;
    var policy := PolicyOf(d, plan.profile);
    QuietMoves(before, before, {plan.resultClaim});
    Unasked(policy, d.now.durableLimit);
    if policy.Deny? {
      return Ok(Refusal(PolicyDenied, NoStop)), approval;
    }
    var room :- ProtectResult(s, d, plan, maximum);
    Unasked(policy, d.now.durableLimit);
    if !room.Reserved? {
      return Ok(if room.StorageFull? then NoRoom else Refusal(OutputBudgetExceeded, NoStop)), approval;
    }
    if policy.Ask? {
      hide AwaitsResult, SpentFrom, Consulted, HeardTruly;
      ghost var protected := s.st;
      r, approval := AskWith(s, d, w, plan);
      MovedOn(before, protected, s.st, [], ApprovalEvents(plan.call, approval), {plan.resultClaim}, {});
      assert [] + ApprovalEvents(plan.call, approval) == ApprovalEvents(plan.call, approval);
    } else {
      r := Ok(Granted);
    }
  }

  // What a verdict may be that needs no question.
  lemma Unasked(policy: Policy, full: bool)
    ensures policy.Deny? ==> VerdictTrue(Refusal(PolicyDenied, NoStop), policy, NotAsked, full)
    ensures VerdictTrue(Refusal(OutputBudgetExceeded, NoStop), policy, NotAsked, full)
    ensures full ==> VerdictTrue(NoRoom, policy, NotAsked, full)
    ensures VerdictTrue(Granted, policy, NotAsked, full)
  {
  }

  // The question about this call, with its result protected all the while.
  method AskWith(s: Session, d: Driver, w: World, plan: Plan)
    returns (r: Result<Verdict, Failure>, ghost approval: ApprovalTrace)
    requires s.Valid() && AwaitsResult(s.st, plan) && w.env.firstStop == NoStop && Agree(s, d)
    modifies s, d, w
    ensures s.Valid() && FlagsRise(old(d.now), d.now) && Agreed(s, d) && AwaitsResult(s.st, plan)
    ensures Moved(old(s.st), s.st, ApprovalEvents(plan.call, approval), {})
    ensures plan.resultClaim < |s.st.slots| && s.st.slots[plan.resultClaim] == old(s.st).slots[plan.resultClaim]
    ensures Later(Consulted(old(w.env), approval), w.env, w.env.firstStop) && HeardTruly(approval)
    ensures w.env.deeds == old(w.env).deeds
    ensures r.Ok? ==>
      && !approval.Unanswered?
      && SpentFrom(s.st.slots, |old(s.st).slots|)
      && w.env.firstStop == VerdictStop(r.value)
      && VerdictTrue(r.value, Ask, approval, d.now.durableLimit)
    ensures r.Ok? && r.value.Granted? ==>
      && approval.Decided? && approval.outcome == AllowedOnce && Reply(approval.id, AllowedOnce) in w.env.replies
      && s.st.visible == |s.st.log| && EndsWith(s.st.log, ApprovalEvents(plan.call, approval))
    ensures r.Err? ==> !IsLoopBug(r.error)
  {
    hide Moved, Agree, VerdictTrue, SpentFrom;
    ghost var protected, asking := s.st, w.env;
    r, approval := AskUser(s, d, w, plan.call);
    AskedKeeps(protected, s.st, plan, ApprovalEvents(plan.call, approval));
    if r.Ok? && r.value.Granted? {
      AllowedByUser(asking, w.env, approval);
    }
  }

  lemma AllowedByUser(a: Env, b: Env, approval: ApprovalTrace)
    requires approval.Decided? && approval.outcome == AllowedOnce && HeardTruly(approval)
    requires Later(Consulted(a, approval), b, b.firstStop)
    ensures Reply(approval.id, AllowedOnce) in b.replies
  {
    assert b.replies[|a.replies|] == Reply(approval.id, AllowedOnce);
  }

  lemma AskedKeeps(a: State, b: State, plan: Plan, events: seq<Event>)
    requires Moved(a, b, events, {}) && AwaitsResult(a, plan)
    ensures AwaitsResult(b, plan) && b.slots[plan.resultClaim] == a.slots[plan.resultClaim]
    ensures EndsWith(b.log, events)
  {
  }

  // ----- the side effect

  // How a run tells the side effect it had, if any: a definite result must be settled
  // as it is, a report that nothing happened may give way to the fallback, and anything
  // else is a lost outcome.
  predicate Reports(run: ToolRun, effect: Option<Deed>) {
    && !run.Mutation? && !run.Action?
    && (effect.None? ==> !(run.Finished? && run.settlement.PreferredRequired?))
    && (effect.Some? ==> Tells(run, effect.value))
  }

  predicate Tells(run: ToolRun, deed: Deed) {
    if IsDefinite(deed) then
      run.Finished? && run.settlement.PreferredRequired? && run.output == deed.report.output
    else if IsHarmless(deed) then
      run.Finished? && run.settlement.FallbackAllowed? && (run.output == deed.report.output || run.output.tag.TimedOut?)
    else
      run.Infrastructure?
  }

  // The world recorded the effect of this call, if it had one, and whether its outcome
  // was lost, and stop was observed meanwhile.
  predicate EffectStep(a: Env, b: Env, call: Id, effect: Option<Deed>, lost: bool, stop: ToolStop) {
    && (effect.Some? ==> effect.value.call == call)
    && Later(WithLoss(WithDeed(a, effect), call, lost), b, stop)
  }

  // Something happens outside, once, for a call that may start it; the world records it
  // with whatever comes back.
  method Act(s: Session, d: Driver, w: World, plan: Plan, maximum: nat, ghost approval: ApprovalTrace) returns (deed: Deed)
    requires MayStart(s.st, w.env, PolicyOf(d, plan.profile), plan, maximum, approval) && IsRunning(w.env)
    modifies w
    ensures deed.call == plan.call && deed.kind == KindOf(plan.profile) && deed.maximum == maximum
    ensures !deed.report.Vague? ==> deed.report.output.tag.Tool?
    ensures w.env == WithLoss(WithDeed(old(w.env), Some(deed)), plan.call, IsLost(deed))
  {
    var report: Report := *;
    var text := w.Number();
    match report {
      case Vague =>
      case Untouched(output, sound) => report := Untouched(output.(tag := Tool(text)), sound);
      case Acted(output, sound) => report := Acted(output.(tag := Tool(text)), sound);
    }
    deed := Deed(plan.call, KindOf(plan.profile), maximum, report);
    w.env := WithLoss(WithDeed(w.env, Some(deed)), plan.call, IsLost(deed));
  }

  // Publish a file change. The loop may notice a stop while the job runs, but waits
  // for the job; a change that was published keeps its own result
  // (src/agent/mod.rs:3954-4020).
  method PublishMutation(s: Session, d: Driver, w: World, plan: Plan, maximum: nat, ghost approval: ApprovalTrace)
    returns (run: ToolRun, ghost deed: Deed)
    requires MayStart(s.st, w.env, PolicyOf(d, plan.profile), plan, maximum, approval) && plan.profile.Standard? && IsRunning(w.env)
    modifies w
    ensures deed.kind == KindOf(plan.profile) && deed.maximum == maximum && Reports(run, Some(deed))
    ensures IsOwnText(run) && !IsDeclined(run)
    ensures EffectStep(old(w.env), w.env, plan.call, Some(deed), run.Infrastructure?, RunStop(run))
  {
    var done := Act(s, d, w, plan, maximum, approval);
    deed := done;
    var noticed := w.Flip();
    var stop := NoStop;
    if noticed {
      stop := w.SampleStop();
    }
    match done.report {
      case Vague =>
        run := Infrastructure(stop);
      case Acted(output, _) =>
        run := Finished(output, PreferredRequired, stop);
      case Untouched(output, _) =>
        var timedOut := w.Flip();
        run := Finished(if timedOut && stop == NoStop then output.(tag := TimedOut, concludes := false) else output,
                        FallbackAllowed, stop);
    }
  }

  // Watch an owned action to its end: the first stop that was noticed is kept, then
  // what the action itself reports, then what is true at the end.
  method WatchAction(w: World) returns (stop: ToolStop)
    requires w.env.firstStop == NoStop
    modifies w
    ensures Later(old(w.env), w.env, stop)
  {
    var noticed := w.Flip();
    stop := NoStop;
    if noticed {
      stop := w.SampleStop();
    }
    if stop == NoStop {
      stop := w.ReportedStop();
    }
    stop := w.PreserveOrSample(stop);
  }

  // Run an owned action. Only a validated result of a start, within its declared
  // bound, is definite (src/agent/mod.rs:3541-3627).
  method RunAction(s: Session, d: Driver, w: World, plan: Plan, maximum: nat, ghost approval: ApprovalTrace)
    returns (run: ToolRun, ghost deed: Deed)
    requires MayStart(s.st, w.env, PolicyOf(d, plan.profile), plan, maximum, approval) && !plan.profile.Standard? && IsRunning(w.env)
    modifies w
    ensures deed.kind == KindOf(plan.profile) && deed.maximum == maximum && Reports(run, Some(deed))
    ensures IsOwnText(run) && !IsDeclined(run)
    ensures EffectStep(old(w.env), w.env, plan.call, Some(deed), run.Infrastructure?, RunStop(run))
  {
    var done := Act(s, d, w, plan, maximum, approval);
    deed := done;
    var stop := WatchAction(w);
    match done.report {
      case Vague =>
        run := Infrastructure(stop);
      case Untouched(output, sound) =>
        run := if sound then Finished(output, FallbackAllowed, stop) else Infrastructure(stop);
      case Acted(output, sound) =>
        run := if sound && output.eventBytes <= maximum then Finished(output, PreferredRequired, stop)
               else Infrastructure(stop);
    }
  }

  // ----- resolving what was prepared

  // No diagnostic, and declined only because it was not dispatched.
  predicate IsOwnText(run: ToolRun) {
    CodeOf(run).None? && !run.Timeout? && (IsDeclined(run) ==> run.output.tag.reason.NotDispatched?)
  }

  // What a run tells after a question or without one: a declined call names the reason of
  // its rows, after any decision but to allow it is declined or lost, and only a full
  // session is told by a diagnostic.
  predicate KeepsAnswer(run: ToolRun, policy: Policy, approval: ApprovalTrace, effect: Option<Deed>, full: bool) {
    && (IsDeclined(run) ==> effect.None? && DeclineTrue(policy, approval, run.output.tag.reason))
    && (approval.Decided? && !approval.outcome.AllowedOnce? ==> effect.None? && (run.Infrastructure? || IsDeclined(run)))
    && (CodeOf(run).Some? ==> CodeOf(run) == Some(DiagnosticCode.SessionFull) && full)
    && !run.Timeout?
  }

  // What resolving one call keeps, however it ends: its approval rows were
  // appended, its result is still protected, and it had at most one effect, which
  // was licensed.
  ghost predicate Resolved(before: State, after: State, a: Env, b: Env, d: Driver, now: Counters, plan: Plan,
                           r: Result<ToolRun, Failure>, approval: ApprovalTrace, effect: Option<Deed>)
  {
    && Moved(before, after, ApprovalEvents(plan.call, approval), {plan.resultClaim})
    && HeardTruly(approval)
    && EffectStep(Consulted(a, approval), b, plan.call, effect, r.Ok? && r.value.Infrastructure?, if r.Ok? then RunStop(r.value) else b.firstStop)
    && (effect.Some? ==>
          && Licensed(PolicyOf(d, plan.profile), approval)
          && effect.value.kind == KindOf(plan.profile))
    && AwaitsResult(after, plan)
    && (r.Ok? ==>
          && !approval.Unanswered?
          && SpentFrom(after.slots, |before.slots|)
          && Reports(r.value, effect)
          && KeepsAnswer(r.value, PolicyOf(d, plan.profile), approval, effect, now.durableLimit)
          && Affordable(d.limits, now, r.value, effect))
    && (!PolicyOf(d, plan.profile).Ask? ==> approval.NotAsked?)
    && (r.Err? ==> effect.None? && !IsLoopBug(r.error))
  }

  // The turn can still pay for a result that must be settled, unless it is larger than
  // it was declared.
  predicate Affordable(limits: Limits, now: Counters, run: ToolRun, effect: Option<Deed>) {
    run.Finished? && run.settlement.PreferredRequired? && !Excessive(effect) ==>
      now.resultBytes + run.output.eventBytes <= limits.maxTurnResultBytes
  }

  // A prepared change of a file (src/agent/mod.rs:3695-3859 and 3934-3952).
  method ResolveMutation(s: Session, d: Driver, w: World, plan: Plan, maximum: nat)
    returns (r: Result<ToolRun, Failure>, ghost approval: ApprovalTrace, ghost effect: Option<Deed>)
    requires s.Valid() && AwaitsResult(s.st, plan) && w.env.firstStop == NoStop && Effectless(w.env.deeds, plan.call) && Agree(s, d)
    requires plan.profile.Standard?
    modifies s, d, w
    ensures s.Valid() && FlagsRise(old(d.now), d.now) && Agreed(s, d)
    ensures Resolved(old(s.st), s.st, old(w.env), w.env, d, d.now, plan, r, approval, effect)
  {
    hide Moved, AwaitsResult, SpentFrom, HeardTruly, Agree, Effectless, KeepsAnswer, VerdictTrue, IsOwnText, Licensed;
    effect := None;
    var verdict;
    verdict, approval := Authorize(s, d, w, plan, maximum);
    if verdict.Err? {
      return Err(verdict.error), approval, effect;
    }
    var run: ToolRun;
    if !verdict.value.Granted? {
      run := Refused(w, plan, verdict.value);
      RefusedKeeps(run, plan, verdict.value, PolicyOf(d, plan.profile), approval, d.now.durableLimit);
      return Ok(run), approval, effect;
    }
    run, effect := StartMutation(s, d, w, plan, maximum, approval);
    r := Ok(run);
    StartedKeeps(run, PolicyOf(d, plan.profile), approval, effect, d.now.durableLimit);
  }

  // The last look before the change is published.
  method StartMutation(s: Session, d: Driver, w: World, plan: Plan, maximum: nat, ghost approval: ApprovalTrace)
    returns (run: ToolRun, ghost effect: Option<Deed>)
    requires MayStart(s.st, w.env, PolicyOf(d, plan.profile), plan, maximum, approval) && plan.profile.Standard?
    modifies w
    ensures Reports(run, effect) && IsOwnText(run) && (IsDeclined(run) ==> effect.None?)
    ensures effect.Some? ==> effect.value.kind == KindOf(plan.profile) && effect.value.maximum == maximum
    ensures EffectStep(old(w.env), w.env, plan.call, effect, run.Infrastructure?, RunStop(run))
  {
    effect := None;
    var stop := w.SampleStop();
    if stop != NoStop {
      run := Decline(w, plan, NotDispatched, stop);
      return;
    }
    ghost var deed;
    run, deed := PublishMutation(s, d, w, plan, maximum, approval);
    effect := Some(deed);
  }

  lemma RefusedKeeps(run: ToolRun, plan: Plan, verdict: Verdict, policy: Policy, approval: ApprovalTrace, full: bool)
    requires !verdict.Granted? && VerdictTrue(verdict, policy, approval, full)
    requires verdict.Refusal? ==> run.Infrastructure? || (run.Finished? && run.output.tag == OutputTag.Declined(verdict.reason))
    requires verdict.NoRoom? ==> Prefailed(run, plan.profile, DiagnosticCode.SessionFull, NoStop)
    ensures KeepsAnswer(run, policy, approval, None, full)
  {
    hide DeclineTrue;
  }

  lemma StartedKeeps(run: ToolRun, policy: Policy, approval: ApprovalTrace, effect: Option<Deed>, full: bool)
    requires Licensed(policy, approval) && (!policy.Ask? ==> approval.NotAsked?)
    requires IsOwnText(run) && (IsDeclined(run) ==> effect.None?)
    ensures KeepsAnswer(run, policy, approval, effect, full)
  {
  }

  // A verdict that starts nothing.
  method Refused(w: World, plan: Plan, verdict: Verdict) returns (run: ToolRun)
    requires !verdict.Granted?
    modifies w
    ensures w.env == WithLoss(old(w.env), plan.call, run.Infrastructure?)
    ensures RunStop(run) == VerdictStop(verdict) && Reports(run, None)
    ensures verdict.Refusal? ==> run.Infrastructure? || (run.Finished? && run.output.tag == OutputTag.Declined(verdict.reason))
    ensures verdict.NoRoom? ==> Prefailed(run, plan.profile, DiagnosticCode.SessionFull, NoStop)
  {
    match verdict {
      case NoRoom => run := FailBeforeStart(w, plan, DiagnosticCode.SessionFull, NoStop);
      case Refusal(reason, stop) => run := Decline(w, plan, reason, stop);
    }
  }

  datatype Setup = ReadyToRun | SetUp(run: ToolRun)

  // Set up an owned action. It is ready only if its contract and dispatch are the
  // prepared ones and no stop was observed (src/agent/mod.rs:3285-3370).
  method SetUpAction(w: World, plan: Plan) returns (setup: Setup)
    requires w.env.firstStop == NoStop
    modifies w
    ensures Later(WithLoss(old(w.env), plan.call, setup.SetUp? && setup.run.Infrastructure?), w.env,
                  if setup.SetUp? then RunStop(setup.run) else NoStop)
    ensures setup.SetUp? ==> Reports(setup.run, None) && IsOwnText(setup.run)
  {
    var stop := WatchAction(w);
    var lost := w.Loses(plan.call);
    if lost {
      return SetUp(Infrastructure(stop));
    }
    var ready := w.Flip();
    if !ready {
      var output: Output := *;
      var text := w.Number();
      return SetUp(Finished(output.(tag := Tool(text)), FallbackAllowed, stop));
    }
    if stop != NoStop {
      var run := Decline(w, plan, NotDispatched, stop);
      return SetUp(run);
    }
    setup := ReadyToRun;
  }

  // An owned action (src/agent/mod.rs:3278-3627).
  method ResolveAction(s: Session, d: Driver, w: World, plan: Plan, maximum: nat)
    returns (r: Result<ToolRun, Failure>, ghost approval: ApprovalTrace, ghost effect: Option<Deed>)
    requires s.Valid() && AwaitsResult(s.st, plan) && w.env.firstStop == NoStop && Effectless(w.env.deeds, plan.call) && Agree(s, d)
    requires !plan.profile.Standard?
    modifies s, d, w
    ensures s.Valid() && FlagsRise(old(d.now), d.now) && Agreed(s, d)
    ensures Resolved(old(s.st), s.st, old(w.env), w.env, d, d.now, plan, r, approval, effect)
  {
    hide Moved, AwaitsResult, Resolved, Agree, Effectless;
    approval, effect := NotAsked, None;
    ghost var before, a := s.st, w.env;
    var setup := SetUpAction(w, plan);
    if setup.SetUp? {
      r := Ok(setup.run);
      NotSetUp(before, a, w.env, d, d.now, plan, setup.run);
      return;
    }
    ghost var b := w.env;
    r, approval, effect := RunPermitted(s, d, w, plan, maximum);
    ResolvedLater(before, s.st, a, b, w.env, d, d.now, plan, r, approval, effect);
  }

  lemma NotSetUp(before: State, a: Env, b: Env, d: Driver, now: Counters, plan: Plan, run: ToolRun)
    requires AwaitsResult(before, plan) && Reports(run, None) && IsOwnText(run)
    requires Later(WithLoss(a, plan.call, run.Infrastructure?), b, RunStop(run))
    ensures Resolved(before, before, a, b, d, now, plan, Ok(run), NotAsked, None)
  {
    QuietMoves(before, before, {plan.resultClaim});
  }

  lemma ResolvedLater(before: State, after: State, a: Env, b: Env, c: Env, d: Driver, now: Counters, plan: Plan,
                      r: Result<ToolRun, Failure>, approval: ApprovalTrace, effect: Option<Deed>)
    requires Later(a, b, NoStop) && Resolved(before, after, b, c, d, now, plan, r, approval, effect)
    ensures Resolved(before, after, a, c, d, now, plan, r, approval, effect)
  {
    hide Moved, AwaitsResult, SpentFrom, Licensed, HeardTruly, Reports, Affordable, KeepsAnswer, Later, WithDeed, WithLoss, Consulted;
    var stop := if r.Ok? then RunStop(r.value) else c.firstStop;
    var lost := r.Ok? && r.value.Infrastructure?;
    ConsultedAlike(a, b, approval);
    DeedAlike(Consulted(a, approval), Consulted(b, approval), effect);
    LossAlike(WithDeed(Consulted(a, approval), effect), WithDeed(Consulted(b, approval), effect), plan.call, lost);
    LaterOn(WithLoss(WithDeed(Consulted(a, approval), effect), plan.call, lost),
            WithLoss(WithDeed(Consulted(b, approval), effect), plan.call, lost), c, stop);
  }

  // An action that was set up asks for permission and starts.
  method RunPermitted(s: Session, d: Driver, w: World, plan: Plan, maximum: nat)
    returns (r: Result<ToolRun, Failure>, ghost approval: ApprovalTrace, ghost effect: Option<Deed>)
    requires s.Valid() && AwaitsResult(s.st, plan) && w.env.firstStop == NoStop && Effectless(w.env.deeds, plan.call) && Agree(s, d)
    requires !plan.profile.Standard?
    modifies s, d, w
    ensures s.Valid() && FlagsRise(old(d.now), d.now) && Agreed(s, d)
    ensures Resolved(old(s.st), s.st, old(w.env), w.env, d, d.now, plan, r, approval, effect)
  {
    hide Moved, AwaitsResult, SpentFrom, HeardTruly, Agree, Effectless, KeepsAnswer, VerdictTrue, IsOwnText, Licensed;
    effect := None;
    var verdict;
    verdict, approval := Authorize(s, d, w, plan, maximum);
    if verdict.Err? {
      return Err(verdict.error), approval, effect;
    }
    var run: ToolRun;
    if !verdict.value.Granted? {
      run := Refused(w, plan, verdict.value);
      RefusedKeeps(run, plan, verdict.value, PolicyOf(d, plan.profile), approval, d.now.durableLimit);
      return Ok(run), approval, effect;
    }
    run, effect := StartAction(s, d, w, plan, maximum, approval);
    r := Ok(run);
    StartedKeeps(run, PolicyOf(d, plan.profile), approval, effect, d.now.durableLimit);
  }

  // The last look before the run.
  method StartAction(s: Session, d: Driver, w: World, plan: Plan, maximum: nat, ghost approval: ApprovalTrace)
    returns (run: ToolRun, ghost effect: Option<Deed>)
    requires MayStart(s.st, w.env, PolicyOf(d, plan.profile), plan, maximum, approval) && !plan.profile.Standard?
    modifies w
    ensures Reports(run, effect) && IsOwnText(run) && (IsDeclined(run) ==> effect.None?)
    ensures effect.Some? ==> effect.value.kind == KindOf(plan.profile) && effect.value.maximum == maximum
    ensures EffectStep(old(w.env), w.env, plan.call, effect, run.Infrastructure?, RunStop(run))
  {
    effect := None;
    var stop := w.SampleStop();
    if stop != NoStop {
      run := Decline(w, plan, NotDispatched, stop);
      return;
    }
    var lost := w.Loses(plan.call);
    if lost {
      return Infrastructure(NoStop), effect;
    }
    ghost var deed;
    run, deed := RunAction(s, d, w, plan, maximum, approval);
    effect := Some(deed);
  }
}
