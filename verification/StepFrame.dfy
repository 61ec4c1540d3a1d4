// The frame of a step: its start, its input messages and its end are claimed
// together before anything else happens; entering settles all but the end, giving
// up releases all of them (src/agent/mod.rs:905-948 and 1462-1497).
module StepFrame {
  import opened Common
  import opened SessionLog
  import opened SessionModel
  import opened WorldModel
  import opened DriverModel
  import opened LogGrammar
  import opened Moment
  import opened ToolIteration
  import opened ToolRound
  import opened StepAttempt
  import opened AttemptLife

  function FrameEvents(turn: nat, step: nat, messages: seq<Message>): (events: seq<Event>)
    ensures |events| == |messages| + 2
    ensures events[0] == StepStart(turn, step)
    ensures forall i :: 0 <= i < |messages| ==> events[1 + i] == UserMessage(messages[i])
    ensures events[|messages| + 1] == StepEnd(turn, step)
  {
    [StepStart(turn, step)] + InputEvents(messages) + [StepEnd(turn, step)]
  }

  // The claims of the frame from the k-th on are live and protect their events.
  ghost predicate FrameLive(slots: seq<Slot>, base: nat, events: seq<Event>, k: nat) {
    && base + |events| <= |slots|
    && forall i :: k <= i < |events| ==> FrameAt(slots, base, events, i)
  }

  predicate FrameAt(slots: seq<Slot>, base: nat, events: seq<Event>, i: nat)
    requires i < |events|
  {
    IsLive(slots, base + i) && slots[base + i].fallback == events[i]
  }

  ghost predicate FrameSpent(slots: seq<Slot>, base: nat, k: nat) {
    forall c :: base <= c < base + k && c < |slots| ==> !slots[c].Live?
  }

  // Claim the whole frame, or nothing.
  method ClaimFrame(s: Session, events: seq<Event>) returns (r: Result<nat, Failure>)
    requires s.Valid()
    modifies s
    ensures s.Valid() && s.marks == MarksAfter(old(s.marks), r) && OnlyMore(old(s.st), s.st)
    ensures r.Ok? ==>
      && r.value == |old(s.st).slots| && |s.st.slots| == r.value + |events|
      && FrameLive(s.st.slots, r.value, events, 0)
    ensures r.Err? ==> s.st == old(s.st) && !IsLoopBug(r.error)
  {
    r := s.ClaimBatch(events);
    if r.Ok? {
      forall i | 0 <= i < |events|
        ensures FrameAt(s.st.slots, r.value, events, i)
      {
      }
    }
  }

  // Give every claim of the frame back.
  method ReleaseFrame(s: Session, base: nat, events: seq<Event>) returns (r: Result<Unit, Failure>)
    requires s.Valid() && FrameLive(s.st.slots, base, events, 0)
    modifies s
    ensures s.Valid() && s.marks == old(s.marks) && OnlyClaims(old(s.st), s.st, base, base + |events|)
    ensures r.Ok? ==> FrameSpent(s.st.slots, base, |events|)
    ensures r.Err? ==> r.error.Fatal?
  {
    var k := 0;
    while k < |events|
      invariant 0 <= k <= |events|
      invariant s.Valid() && s.marks == old(s.marks) && OnlyClaims(old(s.st), s.st, base, base + k)
      invariant FrameSpent(s.st.slots, base, k)
    {
      assert FrameAt(old(s.st.slots), base, events, k);
      var _ :- s.Release(base + k);
      k := k + 1;
    }
    return Ok(Unit);
  }

  // What entering leaves: the start and the messages are in the log and on the
  // surface, and only the claim of the end is still live.
  ghost predicate FrameEntered(a: State, b: State, base: nat, turn: nat, step: nat, messages: seq<Message>) {
    var events := FrameEvents(turn, step, messages);
    && Ran(a, b, [StepStart(turn, step)] + InputEvents(messages), FrameClaims(base, |events|))
    && |b.slots| == |a.slots|
    && b.attempts == a.attempts
    && b.surface == Surface(a.surface.messages + messages, a.surface.generation + |messages|)
    && FrameLive(b.slots, base, events, |events| - 1)
    && FrameSpent(b.slots, base, |events| - 1)
  }

  function FrameClaims(base: nat, n: nat): set<nat> {
    Numbers(base, n)
  }

  // One claim of the frame after the other, up to the end.
  ghost predicate Entering(a: State, b: State, base: nat, turn: nat, step: nat, messages: seq<Message>, k: nat)
    requires k <= |messages|
  {
    var events := FrameEvents(turn, step, messages);
    && Ran(a, b, [StepStart(turn, step)] + InputEvents(messages[..k]), FrameClaims(base, |events|))
    && |b.slots| == |a.slots|
    && b.attempts == a.attempts
    && b.surface == Surface(a.surface.messages + messages[..k], a.surface.generation + k)
    && FrameLive(b.slots, base, events, k + 1)
    && FrameSpent(b.slots, base, k + 1)
  }

  lemma EnterStart(a: State, base: nat, turn: nat, step: nat, messages: seq<Message>)
    requires FrameLive(a.slots, base, FrameEvents(turn, step, messages), 0)
    ensures Entering(a, Consumed(a, base, StepStart(turn, step)), base, turn, step, messages, 0)
  {
    var b := Consumed(a, base, StepStart(turn, step));
    var events := FrameEvents(turn, step, messages);
    assert FrameAt(a.slots, base, events, 0);
    StillLive(a.slots, b.slots, base, events, 0);
    RanOneMore(a, b, StepStart(turn, step), FrameClaims(base, |messages| + 2));
    assert [StepStart(turn, step)] + InputEvents(messages[..0]) == [StepStart(turn, step)];
    assert a.surface.messages + messages[..0] == a.surface.messages;
  }

  // Consuming the first live claim of the frame leaves the others.
  lemma StillLive(a: seq<Slot>, b: seq<Slot>, base: nat, events: seq<Event>, k: nat)
    requires FrameLive(a, base, events, k) && k < |events| && |b| == |a|
    requires forall c :: 0 <= c < |a| && c != base + k ==> b[c] == a[c]
    ensures FrameLive(b, base, events, k + 1)
  {
    forall i | k + 1 <= i < |events|
      ensures FrameAt(b, base, events, i)
    {
      assert FrameAt(a, base, events, i);
    }
  }

  lemma EnterInput(a: State, b: State, base: nat, turn: nat, step: nat, messages: seq<Message>, k: nat)
    requires k < |messages| && Entering(a, b, base, turn, step, messages, k)
    ensures Entering(a, Consumed(b, base + 1 + k, UserMessage(messages[k])), base, turn, step, messages, k + 1)
  {
    var c := Consumed(b, base + 1 + k, UserMessage(messages[k]));
    StillLive(b.slots, c.slots, base, FrameEvents(turn, step, messages), k + 1);
    var claims := FrameClaims(base, |messages| + 2);
    RanOneMore(b, c, UserMessage(messages[k]), claims);
    RanOn(a, b, c, [StepStart(turn, step)] + InputEvents(messages[..k]), [UserMessage(messages[k])], claims, claims);
    assert [StepStart(turn, step)] + InputEvents(messages[..k]) + [UserMessage(messages[k])]
        == [StepStart(turn, step)] + InputEvents(messages[..k + 1]);
    assert a.surface.messages + messages[..k] + [messages[k]] == a.surface.messages + messages[..k + 1];
  }

  method EnterFrame(s: Session, base: nat, turn: nat, step: nat, messages: seq<Message>) returns (r: Result<Unit, Failure>)
    requires s.Valid() && FrameLive(s.st.slots, base, FrameEvents(turn, step, messages), 0)
    modifies s
    ensures s.Valid() && s.marks == old(s.marks) && (r.Ok? ==> FrameEntered(old(s.st), s.st, base, turn, step, messages))
    ensures r.Err? ==> !IsLoopBug(r.error)
  {
    hide Ran, Entering;
    ghost var a := s.st;
    assert FrameAt(a.slots, base, FrameEvents(turn, step, messages), 0);
    EnterStart(a, base, turn, step, messages);
    var _ :- s.SettleExact(base);
    var k := 0;
    while k < |messages|
      invariant 0 <= k <= |messages| && s.Valid() && s.marks == old(s.marks)
      invariant Entering(a, s.st, base, turn, step, messages, k)
    {
      EnterInput(a, s.st, base, turn, step, messages, k);
      NextInput(a, s.st, base, turn, step, messages, k);
      var _ :- s.SettleExact(base + 1 + k);
      k := k + 1;
    }
    Entered(a, s.st, base, turn, step, messages);
    return Ok(Unit);
  }

  lemma NextInput(a: State, b: State, base: nat, turn: nat, step: nat, messages: seq<Message>, k: nat)
    requires k < |messages| && Entering(a, b, base, turn, step, messages, k)
    ensures IsLive(b.slots, base + 1 + k) && b.slots[base + 1 + k].fallback == UserMessage(messages[k])
  {
    assert FrameAt(b.slots, base, FrameEvents(turn, step, messages), k + 1);
  }

  lemma Entered(a: State, b: State, base: nat, turn: nat, step: nat, messages: seq<Message>)
    requires Entering(a, b, base, turn, step, messages, |messages|)
    ensures FrameEntered(a, b, base, turn, step, messages)
  {
    assert messages[..|messages|] == messages;
  }

  // ----- the end of the step

  // An attempt that is still open when its step ends is closed as cancelled or failed,
  // and retired.
  function ClosedByEnd(a: Attempts, cancelled: bool): Attempts {
    if a.phase.Open? then Retired(a, if cancelled then Disposition.Cancelled else Failed) else a
  }

  // What closing the step leaves.
  ghost predicate FrameClosed(a: State, b: State, claim: nat, turn: nat, step: nat, cancelled: bool) {
    && Ran(a, b, [StepEnd(turn, step)], {claim})
    && |b.slots| == |a.slots| && claim < |b.slots| && !b.slots[claim].Live?
    && b.attempts == ClosedByEnd(a.attempts, cancelled) && b.attempts.phase.NoAttempt?
    && b.open == NextOpen(a.open, StepEnd(turn, step))
    && b.surface == a.surface
  }

  // The outcomes of a step that did not commit an answer.
  predicate IsEarly(outcome: StepOutcome) {
    outcome.Cancelled? || outcome.ErrorOutcome?
  }

  // The observer was lost where the end of the step closed an attempt.
  predicate LostAtEnd(resolution: StepResolution, final: StepResolution, now: Counters) {
    final == StepResolution(ErrorOutcome(ErrorCode.ObserverUnavailable), NoStop) && final != resolution && now.observerUnavailable
  }

  // Settle step/end; an attempt that is still open is closed by the same event as
  // cancelled or failed, and then retired (src/agent/mod.rs:1460-1497). The outcome
  // of a step whose attempt was left open is never a success.
  method CloseFrame(s: Session, d: Driver, claim: nat, ghost turn: nat, ghost step: nat, resolution: StepResolution)
    returns (r: Result<StepResolution, Failure>)
    requires s.Valid() && !s.st.attempts.phase.Closed? && Agree(s, d)
    requires IsLive(s.st.slots, claim) && s.st.slots[claim].fallback == StepEnd(turn, step)
    modifies s, d
    ensures s.Valid() && FlagsRise(old(d.now), d.now) && Agreed(s, d)
    ensures r.Ok? ==>
      && FrameClosed(old(s.st), s.st, claim, turn, step, resolution.outcome.Cancelled?)
      && Admits(s.durable, old(s.st).open, StepEnd(turn, step))
      && (old(s.st).attempts.phase.NoAttempt? ==> r.value == resolution)
      && (old(s.st).attempts.phase.Open? && IsEarly(resolution.outcome) ==>
            r.value == resolution || LostAtEnd(resolution, r.value, d.now))
      && (old(s.st).attempts.phase.Open? && !IsEarly(resolution.outcome) ==> r.value.outcome.ErrorOutcome? && r.value.stop == NoStop)
    ensures r.Err? && r.error.Refused? ==> s.st == old(s.st) && !Admits(s.durable, s.st.open, StepEnd(turn, step))
    ensures r.Err? ==> !r.error.SurfaceChanged? && !r.error.AttemptNotRetired?
  {
    hide Agree;
    ghost var a := s.st;
    if s.st.attempts.phase.NoAttempt? {
      var _ :- s.SettleExact(claim);
      RanOneMore(a, s.st, StepEnd(turn, step), {claim});
      return Ok(resolution);
    }
    var final := resolution;
    if !IsEarly(resolution.outcome) {
      final := StepResolution(ErrorOutcome(Internal), NoStop);
    }
    var disposition := if final.outcome.Cancelled? then Disposition.Cancelled else Failed;
    var _ :- s.SettleClosureExact(claim, disposition);
    RanOneMore(a, s.st, StepEnd(turn, step), {claim});
    var visible :- RetireClosed(s, d);
    RanOneMore(a, s.st, StepEnd(turn, step), {claim});
    if !visible {
      final := StepResolution(ErrorOutcome(ErrorCode.ObserverUnavailable), NoStop);
    }
    return Ok(final);
  }
}
