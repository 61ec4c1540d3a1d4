// The question to the user before a side effect: asked, heard and decided, each
// stored in the log before anything is started (src/agent/mod.rs:3422-3525, the
// same text again at 3739-3846, and 3881-3935).
module ToolApproval {
  import opened Common
  import opened SessionLog
  import opened SessionModel
  import opened WorldModel
  import opened DriverModel
  import opened LogGrammar

  // What the audit of one approval comes to: the start is granted, or declined for
  // a reason and with the stop that was observed, or the session is full.
  datatype Verdict =
    | Granted
    | Refusal(reason: DeclineReason, stop: ToolStop)
    | NoRoom

  function VerdictStop(v: Verdict): ToolStop {
    if v.Refusal? then v.stop else NoStop
  }

  // What the log shows for an answer of the user: a stop turns every answer into a
  // cancellation, and no answer is none.
  function Shown(heard: Option<ApprovalOutcome>, stop: ToolStop): ApprovalOutcome {
    if stop != NoStop then ApprovalOutcome.Cancelled
    else if heard.Some? then heard.value
    else ApprovalOutcome.Unavailable
  }

  // Ask and wait. An answer may come or fail to come, and the stop is looked at once more
  // before it counts.
  method RequestApproval(s: Session, w: World, id: Id)
    returns (outcome: ApprovalOutcome, stop: ToolStop, ghost heard: Option<ApprovalOutcome>)
    requires IsAsked(s.st, id)
    modifies w
    ensures Later(WithReply(old(w.env), id, heard), w.env, stop)
    ensures outcome == Shown(heard, stop)
  {
    heard := None;
    stop := w.SampleStop();
    if stop != NoStop {
      return ApprovalOutcome.Cancelled, stop, heard;
    }
    var panicked := w.Flip();
    if panicked {
      return ApprovalOutcome.Unavailable, NoStop, heard;
    }
    outcome := ApprovalOutcome.Unavailable;
    var answered := w.Flip();
    if answered {
      outcome := w.Hear(s, id);
      heard := Some(outcome);
    }
    stop := w.SampleStop();
    if stop != NoStop {
      outcome := ApprovalOutcome.Cancelled;
    }
  }

  // Commit the asked row; its decision is protected before it is asked. The result
  // is the claim of the decision.
  method CommitQuestion(s: Session, call: Id, id: Id) returns (r: Result<nat, Failure>)
    requires s.Valid() && s.st.attempts.phase.NoAttempt?
    modifies s
    ensures s.Valid() && s.st.attempts.phase.NoAttempt?
    ensures Moved(old(s.st), s.st, if r.Ok? then [ApprovalAsked(id, call)] else [], {})
    ensures r.Ok? ==>
      && r.value == |old(s.st).slots| + 1
      && |s.st.slots| == r.value + 1
      && s.st.slots[r.value - 1].Settled?
      && s.st.slots[r.value].Live?
    ensures s.marks == MarksAfter(old(s.marks), r)
    ensures r.Err? ==> !IsLoopBug(r.error) && (IsBudget(r.error) ==> s.st == old(s.st))
  {
    hide Moved;
    ghost var before := s.st;
    MovedNothing(before);
    var first :- s.ClaimBatch([ApprovalAsked(id, call), ApprovalDecided(id, AllowedOnce)]);
    QuietMoves(before, s.st, {});
    ghost var claimed := s.st;
    var _ :- s.SettleExact(first);
    ConsumedMoves(claimed, first, ApprovalAsked(id, call));
    MovedWiden(before, claimed, s.st, [ApprovalAsked(id, call)], first);
    return Ok(first + 1);
  }

  // A claim made after a may be consumed without touching the claims of a.
  lemma MovedWiden(a: State, b: State, c: State, events: seq<Event>, claim: nat)
    requires Moved(a, b, [], {}) && Moved(b, c, events, {claim}) && claim >= |a.slots|
    ensures Moved(a, c, events, {})
  {
    MovedOn(a, b, c, [], events, {}, {claim});
    assert [] + events == events;
  }

  function DecisionEvents(id: Id, outcome: Option<ApprovalOutcome>): seq<Event> {
    if outcome.None? then [] else [ApprovalDecided(id, outcome.value)]
  }

  // Commit the exact decision that was made.
  method CommitDecision(s: Session, claim: nat, id: Id, outcome: ApprovalOutcome)
    returns (r: Result<Unit, Failure>)
    requires s.Valid() && s.st.attempts.phase.NoAttempt? && IsLive(s.st.slots, claim)
    modifies s
    ensures s.Valid() && s.st.attempts.phase.NoAttempt? && |s.st.slots| == |old(s.st).slots|
    ensures Moved(old(s.st), s.st, DecisionEvents(id, if r.Ok? then Some(outcome) else None), {claim})
    ensures s.marks == old(s.marks)
    ensures r.Ok? ==> s.st.slots[claim].Settled?
    ensures r.Err? ==> !IsLoopBug(r.error)
  {
    hide Moved;
    ghost var before := s.st;
    QuietMoves(before, s.st, {claim});
    var _ :- s.Rebind(claim, ApprovalDecided(id, outcome));
    QuietMoves(before, s.st, {claim});
    ghost var bound := s.st;
    var _ :- s.SettleExact(claim);
    ConsumedMoves(bound, claim, ApprovalDecided(id, outcome));
    MovedOn(before, bound, s.st, [], [ApprovalDecided(id, outcome)], {claim}, {claim});
    assert [] + [ApprovalDecided(id, outcome)] == [ApprovalDecided(id, outcome)];
    return Ok(Unit);
  }

  // A barrier, with the observer fault it may report.
  method DispatchBarrier(s: Session, d: Driver) returns (r: Result<bool, Failure>)
    requires s.Valid() && s.st.attempts.phase.NoAttempt? && Agree(s, d)
    modifies s, d
    ensures s.Valid() && s.st == old(s.st).(visible := s.st.visible) && Agreed(s, d)
    ensures r.Ok? ==>
      && (r.value ==> s.st.visible == |s.st.log| && s.marks == old(s.marks))
      && d.now == old(d.now).(observerUnavailable := old(d.now).observerUnavailable || !r.value)
    ensures r.Err? ==> s.st == old(s.st) && d.now == old(d.now) && r.error.Fatal?
  {
    var barrier :- s.FlushBarrier();
    if barrier.ObserverUnavailable? {
      d.LatchObserverFault();
    }
    return Ok(barrier.Ready?);
  }

  datatype Answer = Answer(outcome: ApprovalOutcome, stop: ToolStop)

  // Nobody is asked before the question is visible.
  method Consult(s: Session, d: Driver, w: World, id: Id)
    returns (r: Result<Answer, Failure>, ghost heard: Option<ApprovalOutcome>)
    requires s.Valid() && s.st.attempts.phase.NoAttempt? && w.env.firstStop == NoStop && Agree(s, d)
    requires IsAsked(s.st.(visible := |s.st.log|), id)
    modifies s, d, w
    ensures s.Valid() && s.st == old(s.st).(visible := s.st.visible) && FlagsRise(old(d.now), d.now) && Agreed(s, d)
    ensures Later(WithReply(old(w.env), id, heard), w.env, if r.Ok? then r.value.stop else NoStop)
    ensures r.Ok? ==> r.value.outcome == Shown(heard, r.value.stop)
    ensures r.Err? ==> !IsLoopBug(r.error)
  {
    hide Agree;
    heard := None;
    var visible :- DispatchBarrier(s, d);
    if !visible {
      return Ok(Answer(ApprovalOutcome.Unavailable, NoStop)), heard;
    }
    var outcome, stop;
    outcome, stop, heard := RequestApproval(s, w, id);
    r := Ok(Answer(outcome, stop));
  }

  // From the stored question to the stored decision.
  method HearUser(s: Session, d: Driver, w: World, claim: nat, id: Id)
    returns (r: Result<Verdict, Failure>, ghost outcome: Option<ApprovalOutcome>, ghost heard: Option<ApprovalOutcome>)
    requires s.Valid() && s.st.attempts.phase.NoAttempt? && IsLive(s.st.slots, claim) && w.env.firstStop == NoStop && Agree(s, d)
    requires IsAsked(s.st.(visible := |s.st.log|), id)
    modifies s, d, w
    ensures s.Valid() && s.st.attempts.phase.NoAttempt? && |s.st.slots| == |old(s.st).slots|
    ensures FlagsRise(old(d.now), d.now) && Agreed(s, d)
    ensures Moved(old(s.st), s.st, DecisionEvents(id, outcome), {claim})
    ensures Later(WithReply(old(w.env), id, heard), w.env, w.env.firstStop)
    ensures outcome.Some? ==> outcome.value == Shown(heard, w.env.firstStop)
    ensures r.Ok? ==>
      && outcome.Some?
      && s.st.slots[claim].Settled?
      && w.env.firstStop == VerdictStop(r.value)
      && VerdictTrue(r.value, Ask, Decided(id, outcome.value, heard), false)
      && (r.value.Granted? ==> outcome.value == AllowedOnce && s.st.visible == |s.st.log|)
    ensures r.Err? ==> !IsLoopBug(r.error)
  {
    hide Moved, Agree;
    outcome := None;
    ghost var before := s.st;
    var answer;
    answer, heard := Consult(s, d, w, id);
    ghost var asked := s.st;
    QuietMoves(before, asked, {claim});
    if answer.Err? {
      return Err(answer.error), outcome, heard;
    }
    r, outcome := Conclude(s, d, claim, id, answer.value);
    MovedOn(before, asked, s.st, [], DecisionEvents(id, outcome), {claim}, {claim});
    assert [] + DecisionEvents(id, outcome) == DecisionEvents(id, outcome);
  }

  // Store the decision, whatever it is, and make it visible.
  method Conclude(s: Session, d: Driver, claim: nat, id: Id, answer: Answer)
    returns (r: Result<Verdict, Failure>, ghost outcome: Option<ApprovalOutcome>)
    requires s.Valid() && s.st.attempts.phase.NoAttempt? && IsLive(s.st.slots, claim) && Agree(s, d)
    modifies s, d
    ensures s.Valid() && s.st.attempts.phase.NoAttempt? && |s.st.slots| == |old(s.st).slots|
    ensures FlagsRise(old(d.now), d.now) && Agreed(s, d)
    ensures Moved(old(s.st), s.st, DecisionEvents(id, outcome), {claim})
    ensures outcome.Some? ==> outcome.value == answer.outcome
    ensures r.Ok? ==>
      && outcome == Some(answer.outcome)
      && s.st.slots[claim].Settled?
      && VerdictStop(r.value) == answer.stop
      && VerdictTrue(r.value, Ask, Decided(id, answer.outcome, None), false)
      && (r.value.Granted? ==> answer.outcome == AllowedOnce && s.st.visible == |s.st.log|)
    ensures r.Err? ==> !IsLoopBug(r.error)
  {
    hide Moved;
    outcome := None;
    ghost var before := s.st;
    var _ :- CommitDecision(s, claim, id, answer.outcome);
    outcome := Some(answer.outcome);
    ghost var decided := s.st;
    StillMoved(before, decided, decided, DecisionEvents(id, outcome), {claim});
    var visible :- DispatchBarrier(s, d);
    StillMoved(before, decided, s.st, DecisionEvents(id, outcome), {claim});
    r := Ok(VerdictOf(answer.outcome, answer.stop, visible));
  }

  // Only an allowing decision that is stored and visible, with no stop observed,
  // grants the start.
  function VerdictOf(outcome: ApprovalOutcome, stop: ToolStop, visible: bool): (v: Verdict)
    ensures v.Granted? <==> outcome == AllowedOnce && visible && stop == NoStop
    ensures !v.NoRoom? && VerdictStop(v) == stop
    ensures v.Refusal? ==>
      && (v.reason.ApprovalRejected? <==> outcome.Rejected?)
      && (v.reason.ApprovalCancelled? <==> outcome.Cancelled?)
      && (v.reason.ApprovalUnavailable? <==> outcome.Unavailable?)
      && (v.reason.NotDispatched? <==> outcome.AllowedOnce?)
  {
    match outcome
    case AllowedOnce => if stop == NoStop && visible then Granted else Refusal(NotDispatched, stop)
    case Cancelled => Refusal(ApprovalCancelled, stop)
    case Rejected => Refusal(ApprovalRejected, stop)
    case Unavailable => Refusal(ApprovalUnavailable, stop)
  }

  function ApprovalOf(id: Id, outcome: Option<ApprovalOutcome>, heard: Option<ApprovalOutcome>): ApprovalTrace {
    if outcome.Some? then Decided(id, outcome.value, heard) else Unanswered(id, heard)
  }

  // The record with the answer of the user, if there was one.
  function Consulted(a: Env, approval: ApprovalTrace): Env {
    if approval.NotAsked? then a else WithReply(a, approval.id, approval.heard)
  }

  lemma ConsultedAlike(a: Env, b: Env, approval: ApprovalTrace)
    requires Later(a, b, NoStop)
    ensures Later(Consulted(a, approval), Consulted(b, approval), NoStop)
  {
  }

  // A verdict gives the reason its rows name, and tells a full session only where the
  // session is; any decision but to allow is a refusal.
  predicate VerdictTrue(v: Verdict, policy: Policy, approval: ApprovalTrace, full: bool) {
    && (v.Refusal? ==> DeclineTrue(policy, approval, v.reason))
    && (v.NoRoom? ==> approval.NotAsked? && full)
    && (approval.Decided? && !approval.outcome.AllowedOnce? ==> v.Refusal?)
    && (!policy.Ask? ==> approval.NotAsked?)
  }

  // The whole audit of one approval.
  method AskUser(s: Session, d: Driver, w: World, call: Id)
    returns (r: Result<Verdict, Failure>, ghost approval: ApprovalTrace)
    requires s.Valid() && s.st.attempts.phase.NoAttempt? && w.env.firstStop == NoStop && Agree(s, d)
    modifies s, d, w
    ensures s.Valid() && s.st.attempts.phase.NoAttempt? && FlagsRise(old(d.now), d.now) && Agreed(s, d)
    ensures Moved(old(s.st), s.st, ApprovalEvents(call, approval), {})
    ensures Later(Consulted(old(w.env), approval), w.env, w.env.firstStop)
    ensures approval.Decided? ==> approval.outcome == Shown(approval.heard, w.env.firstStop)
    ensures r.Ok? ==>
      && !approval.Unanswered?
      && SpentFrom(s.st.slots, |old(s.st).slots|)
      && w.env.firstStop == VerdictStop(r.value)
      && VerdictTrue(r.value, Ask, approval, d.now.durableLimit)
      && (r.value.Granted? ==> approval.Decided? && approval.outcome == AllowedOnce && s.st.visible == |s.st.log|)
    ensures r.Err? ==> !IsLoopBug(r.error)
  {
    hide Moved;
    approval := NotAsked;
    ghost var before := s.st;
    MovedNothing(before);
    var identifier := w.NewId();
    if identifier.Err? {
      return Ok(Refusal(ApprovalUnavailable, NoStop)), approval;
    }
    var id := identifier.value;
    var question := CommitQuestion(s, call, id);
    if question.Err? {
      if question.error.DurableLimit? {
        d.now := d.now.(durableLimit := true);
        return Ok(NoRoom), approval;
      }
      if question.error.MemoryBudget? {
        return Ok(Refusal(ApprovalUnavailable, NoStop)), approval;
      }
      return Err(question.error), approval;
    }
    ghost var asked := s.st;
    QuestionIsLast(before, asked, call, id);
    ghost var outcome, heard;
    r, outcome, heard := HearUser(s, d, w, question.value, id);
    approval := ApprovalOf(id, outcome, heard);
    AuditMoves(before, asked, s.st, call, id, outcome, heard);
  }

  lemma QuestionIsLast(a: State, b: State, call: Id, id: Id)
    requires Moved(a, b, [ApprovalAsked(id, call)], {})
    ensures IsAsked(b.(visible := |b.log|), id)
  {
  }

  lemma AuditMoves(a: State, b: State, c: State, call: Id, id: Id, outcome: Option<ApprovalOutcome>,
                   heard: Option<ApprovalOutcome>)
    requires Moved(a, b, [ApprovalAsked(id, call)], {})
    requires Moved(b, c, DecisionEvents(id, outcome), {|a.slots| + 1})
    requires |b.slots| == |a.slots| + 2 && |c.slots| == |b.slots| && b.slots[|a.slots|].Settled?
    ensures Moved(a, c, ApprovalEvents(call, ApprovalOf(id, outcome, heard)), {})
    ensures c.slots[|a.slots| + 1].Settled? ==> SpentFrom(c.slots, |a.slots|)
  {
    MovedOn(a, b, c, [ApprovalAsked(id, call)], DecisionEvents(id, outcome), {}, {|a.slots| + 1});
  }
}
