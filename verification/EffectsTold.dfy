// What happened outside and what the log says about it: every side effect was allowed,
// by the policy for its kind or by the user, right after its own call; every one with a
// definite result is told by exactly that result; and no tool started after a stop or a
// lost outcome (src/agent/mod.rs:2652-2692, 3372-3525, 3606-3625 and 4011-4138).
module EffectsTold {
  import opened Common
  import opened SessionLog
  import opened WorldModel
  import opened DriverModel
  import opened LogGrammar
  import opened AgentLoopModel
  import OrderRules

  // The result of a call tells what came of its side effect.
  predicate IsTold(deed: Deed, e: Event) {
    && e.ToolResult? && e.call == deed.call
    && (IsDefinite(deed) ==> e.body == FromTool(deed.report.output.tag) && e.size == deed.report.output.eventBytes)
    && (IsLost(deed) ==> e.body == OutcomeUnknown || e.body == BudgetFallback)
  }

  // From the i-th event on, the call of a side effect, the question to the user and the
  // decision if there was one, and the result.
  predicate Serves(rules: Rules, replies: seq<Reply>, deed: Deed, events: seq<Event>, i: nat) {
    var policy := PolicyFor(rules, deed.kind);
    && i + 1 < |events| && events[i] == ToolCall(deed.call)
    && if events[i + 1].ToolResult? then policy.Allow? && IsTold(deed, events[i + 1])
       else
         && i + 3 < |events|
         && events[i + 1].ApprovalAsked? && events[i + 1].call == deed.call
         && events[i + 2].ApprovalDecided? && events[i + 2].id == events[i + 1].id
         && (policy.Allow? || (policy.Ask? && events[i + 2].outcome == AllowedOnce && Reply(events[i + 1].id, AllowedOnce) in replies))
         && IsTold(deed, events[i + 3])
  }

  ghost predicate IsServed(rules: Rules, replies: seq<Reply>, deed: Deed, events: seq<Event>) {
    exists i: nat :: Serves(rules, replies, deed, events, i)
  }

  ghost predicate DeedsServed(rules: Rules, replies: seq<Reply>, deeds: seq<Deed>, events: seq<Event>) {
    forall k :: 0 <= k < |deeds| ==> IsServed(rules, replies, deeds[k], events)
  }

  // A decision to allow or to reject is what the user answered.
  predicate DecisionsHeard(replies: seq<Reply>, events: seq<Event>) {
    forall i :: 0 <= i < |events| && events[i].ApprovalDecided? && (events[i].outcome.AllowedOnce? || events[i].outcome.Rejected?)
      ==> Reply(events[i].id, events[i].outcome) in replies
  }

  // What may be told of a call whose last row before the result is this one: a call that was
  // declined names the decision, and after any decision but to allow it is told as declined,
  // unless its outcome was lost or no text fits.
  predicate ResultTold(before: Event, body: ResultBody) {
    var declined := body.FromTool? && body.tag.Declined?;
    if before.ApprovalDecided? then
      && (declined ==>
            match before.outcome
            case AllowedOnce => body.tag.reason.NotDispatched?
            case Rejected => body.tag.reason.ApprovalRejected?
            case Cancelled => body.tag.reason.ApprovalCancelled?
            case Unavailable => body.tag.reason.ApprovalUnavailable?)
      && (!before.outcome.AllowedOnce? ==> declined || body.OutcomeUnknown? || body.BudgetFallback?)
    else
      declined ==> !body.tag.reason.ApprovalRejected? && !body.tag.reason.ApprovalCancelled?
  }

  predicate ResultsTold(events: seq<Event>) {
    forall i :: 0 <= i < |events| && events[i].ToolResult? ==> i > 0 && ResultTold(events[i - 1], events[i].body)
  }

  predicate IsServing(e: Event) {
    e.ToolCall? || e.ApprovalAsked? || e.ApprovalDecided? || e.ToolResult?
  }

  predicate CallsOnce(events: seq<Event>) {
    forall i, j :: 0 <= i < j < |events| && events[i].ToolCall? && events[j].ToolCall? ==> events[i].call != events[j].call
  }

  predicate DeedsDiffer(deeds: seq<Deed>) {
    forall j, k :: 0 <= j < k < |deeds| ==> deeds[j].call != deeds[k].call
  }

  // These events are one answer and nothing but the calls of its round, each once, and
  // they speak for what the world recorded: no call was handed over too late, every call
  // had at most one side effect, each of those was served, the user was not misquoted, and
  // every call that was declined is told with the reason of its rows.
  ghost predicate RoundAnswers(rules: Rules, r: RoundRecord, events: seq<Event>) {
    && |events| > 0 && events[0].AssistantMessage?
    && (forall i :: 0 < i < |events| ==> IsServing(events[i]))
    && CallsOnce(events)
    && r.late == []
    && DeedsDiffer(r.deeds)
    && DeedsServed(rules, r.replies, r.deeds, events)
    && DecisionsHeard(r.replies, events)
    && ResultsTold(events)
  }

  datatype Span = Span(lo: nat, hi: nat)

  // The rounds stand in the log one after the other, each in a stretch of its own.
  ghost predicate RoundsAnswer(rules: Rules, rounds: seq<RoundRecord>, events: seq<Event>) {
    exists spans :: SpansAnswer(rules, rounds, events, spans)
  }

  ghost predicate SpansAnswer(rules: Rules, rounds: seq<RoundRecord>, events: seq<Event>, spans: seq<Span>) {
    && |spans| == |rounds|
    && (forall k :: 0 <= k < |rounds| ==> SpanAnswers(rules, rounds[k], events, spans[k]))
    && (forall j, k :: 0 <= j < k < |spans| ==> spans[j].hi <= spans[k].lo)
  }

  ghost predicate SpanAnswers(rules: Rules, r: RoundRecord, events: seq<Event>, span: Span) {
    span.lo <= span.hi <= |events| && RoundAnswers(rules, r, events[span.lo..span.hi])
  }

  // ----- what holds in a part holds in the whole

  lemma DeedWithin(rules: Rules, replies: seq<Reply>, deed: Deed, before: seq<Event>, part: seq<Event>, after: seq<Event>)
    requires IsServed(rules, replies, deed, part)
    ensures IsServed(rules, replies, deed, before + part + after)
  {
    var i: nat :| Serves(rules, replies, deed, part, i);
    var all := before + part + after;
    assert forall j :: 0 <= j < |part| ==> all[|before| + j] == part[j];
    assert Serves(rules, replies, deed, all, |before| + i);
  }

  lemma ServedWithin(rules: Rules, replies: seq<Reply>, deeds: seq<Deed>, before: seq<Event>, part: seq<Event>, after: seq<Event>)
    requires DeedsServed(rules, replies, deeds, part)
    ensures DeedsServed(rules, replies, deeds, before + part + after)
  {
    hide IsServed;
    forall k | 0 <= k < |deeds|
      ensures IsServed(rules, replies, deeds[k], before + part + after)
    {
      DeedWithin(rules, replies, deeds[k], before, part, after);
    }
  }

  lemma ServedJoin(rules: Rules, replies: seq<Reply>, xs: seq<Deed>, ys: seq<Deed>, before: seq<Event>, after: seq<Event>)
    requires DeedsServed(rules, replies, xs, before) && DeedsServed(rules, replies, ys, after)
    ensures DeedsServed(rules, replies, xs + ys, before + after)
  {
    hide IsServed;
    ServedWithin(rules, replies, xs, [], before, after);
    ServedWithin(rules, replies, ys, before, after, []);
    assert [] + before + after == before + after && before + after + [] == before + after;
  }

  lemma SpanWithin(rules: Rules, r: RoundRecord, before: seq<Event>, part: seq<Event>, after: seq<Event>, span: Span)
    requires SpanAnswers(rules, r, part, span)
    ensures SpanAnswers(rules, r, before + part + after, Span(|before| + span.lo, |before| + span.hi))
  {
    hide RoundAnswers;
    assert (before + part + after)[|before| + span.lo..|before| + span.hi] == part[span.lo..span.hi];
  }

  // Two parts of a log speak together for the rounds of both.
  lemma RoundsJoin(rules: Rules, xs: seq<RoundRecord>, ys: seq<RoundRecord>, before: seq<Event>, after: seq<Event>)
    requires RoundsAnswer(rules, xs, before) && RoundsAnswer(rules, ys, after)
    ensures RoundsAnswer(rules, xs + ys, before + after)
  {
    hide SpanAnswers;
    var p: seq<Span> :| SpansAnswer(rules, xs, before, p);
    var q: seq<Span> :| SpansAnswer(rules, ys, after, q);
    var all := before + after;
    var spans := p + seq(|q|, k requires 0 <= k < |q| => Span(|before| + q[k].lo, |before| + q[k].hi));
    forall k | 0 <= k < |xs + ys|
      ensures SpanAnswers(rules, (xs + ys)[k], all, spans[k])
    {
      if k < |xs| {
        SpanWithin(rules, xs[k], [], before, after, p[k]);
        assert [] + before + after == all;
      } else {
        SpanWithin(rules, ys[k - |xs|], before, after, [], q[k - |xs|]);
        assert before + after + [] == all;
      }
    }
    SpansBelow(rules, xs, before, p);
    assert SpansAnswer(rules, xs + ys, all, spans);
  }

  lemma SpansBelow(rules: Rules, rounds: seq<RoundRecord>, events: seq<Event>, spans: seq<Span>)
    requires SpansAnswer(rules, rounds, events, spans)
    ensures forall k :: 0 <= k < |spans| ==> spans[k].hi <= |events|
  {
    forall k | 0 <= k < |spans|
      ensures spans[k].hi <= |events|
    {
      assert SpanAnswers(rules, rounds[k], events, spans[k]);
    }
  }

  lemma NothingToSay(rules: Rules, events: seq<Event>)
    ensures RoundsAnswer(rules, [], events)
  {
    assert SpansAnswer(rules, [], events, []);
  }

  lemma RoundsWithin(rules: Rules, rounds: seq<RoundRecord>, before: seq<Event>, part: seq<Event>, after: seq<Event>)
    requires RoundsAnswer(rules, rounds, part)
    ensures RoundsAnswer(rules, rounds, before + part + after)
  {
    hide RoundsAnswer;
    NothingToSay(rules, before);
    NothingToSay(rules, after);
    RoundsJoin(rules, [], rounds, before, part);
    RoundsJoin(rules, [] + rounds, [], before + part, after);
    assert [] + rounds + [] == rounds;
  }

  // ----- from one call up to the whole log

  // What the user answered for this call is among these replies.
  predicate IsAmong(b: ToolBlock, replies: seq<Reply>) {
    forall k :: 0 <= k < |HeardOf(b.approval)| ==> HeardOf(b.approval)[k] in replies
  }

  lemma {:induction false} RepliesAreAmong(blocks: seq<ToolBlock>, replies: seq<Reply>)
    requires forall r :: r in RepliesOf(blocks) ==> r in replies
    ensures forall i :: 0 <= i < |blocks| ==> IsAmong(blocks[i], replies)
  {
    if |blocks| > 0 {
      hide HeardOf;
      var last := |blocks| - 1;
      RepliesAreAmong(blocks[..last], replies);
      assert forall i :: 0 <= i < last ==> blocks[..last][i] == blocks[i];
      assert IsAmong(blocks[last], replies);
    }
  }

  lemma BlockServes(rules: Rules, replies: seq<Reply>, b: ToolBlock)
    requires BlockTrue(b) && Governed(rules, b) && BlockDone(b) && IsAmong(b, replies)
    ensures DeedsServed(rules, replies, Listed(b.effect), BlockEvents(b))
    ensures DecisionsHeard(replies, BlockEvents(b)) && ResultsTold(BlockEvents(b))
  {
    if b.approval.Decided? && b.approval.heard.Some? {
      assert HeardOf(b.approval)[0] == Reply(b.approval.id, b.approval.heard.value);
    }
    if b.effect.Some? {
      var events := BlockEvents(b);
      assert events[0] == ToolCall(b.call);
      if b.approval.NotAsked? {
        assert events[1] == ToolResult(b.call, b.result.value.body, b.result.value.size);
      } else {
        assert events[1] == ApprovalAsked(b.approval.id, b.call);
        assert events[2] == ApprovalDecided(b.approval.id, b.approval.outcome);
        assert events[3] == ToolResult(b.call, b.result.value.body, b.result.value.size);
      }
      assert Serves(rules, replies, b.effect.value, events, 0);
    }
  }

  lemma {:induction false} BlocksServe(rules: Rules, replies: seq<Reply>, blocks: seq<ToolBlock>)
    requires forall i :: 0 <= i < |blocks| ==> BlockTrue(blocks[i]) && Governed(rules, blocks[i]) && BlockDone(blocks[i])
    requires forall i :: 0 <= i < |blocks| ==> IsAmong(blocks[i], replies)
    ensures DeedsServed(rules, replies, DeedsOf(blocks), BlocksEvents(blocks))
    ensures DecisionsHeard(replies, BlocksEvents(blocks)) && ResultsTold(BlocksEvents(blocks))
  {
    if |blocks| > 0 {
      hide BlockTrue, Governed, BlockDone, DeedsServed, BlockEvents, IsAmong, ResultsTold, DecisionsHeard;
      var last := |blocks| - 1;
      BlocksServe(rules, replies, blocks[..last]);
      BlockServes(rules, replies, blocks[last]);
      ServedJoin(rules, replies, DeedsOf(blocks[..last]), Listed(blocks[last].effect), BlocksEvents(blocks[..last]), BlockEvents(blocks[last]));
      TellingJoins(replies, BlocksEvents(blocks[..last]), BlockEvents(blocks[last]));
    } else {
      assert DeedsServed(rules, replies, [], []);
    }
  }

  lemma TellingJoins(replies: seq<Reply>, xs: seq<Event>, ys: seq<Event>)
    requires DecisionsHeard(replies, xs) && DecisionsHeard(replies, ys) && ResultsTold(xs) && ResultsTold(ys)
    ensures DecisionsHeard(replies, xs + ys) && ResultsTold(xs + ys)
  {
    hide ResultTold;
  }

  // The blocks of a round serve its calls, each once.
  lemma {:induction false} BlocksAreServing(calls: seq<Id>, blocks: seq<ToolBlock>)
    requires BlocksBegun(calls, blocks) && CallsDiffer(calls)
    ensures forall i :: 0 <= i < |BlocksEvents(blocks)| ==> IsServing(BlocksEvents(blocks)[i])
    ensures forall i :: 0 <= i < |BlocksEvents(blocks)| && BlocksEvents(blocks)[i].ToolCall? ==>
      BlocksEvents(blocks)[i].call in calls[..|blocks|]
    ensures CallsOnce(BlocksEvents(blocks))
  {
    if |blocks| > 0 {
      var last := |blocks| - 1;
      BlocksAreServing(calls, blocks[..last]);
      assert blocks[last].call == calls[last] && calls[..|blocks|] == calls[..last] + [calls[last]];
      BlockIsServing(blocks[last]);
    }
  }

  lemma BlockIsServing(b: ToolBlock)
    ensures forall i :: 0 <= i < |BlockEvents(b)| ==> IsServing(BlockEvents(b)[i])
    ensures BlockEvents(b)[0] == ToolCall(b.call)
    ensures forall i :: 0 < i < |BlockEvents(b)| ==> !BlockEvents(b)[i].ToolCall?
  {
  }

  lemma {:induction false} DeedsAreOfCalls(calls: seq<Id>, blocks: seq<ToolBlock>)
    requires BlocksBegun(calls, blocks) && CallsDiffer(calls)
    requires forall i :: 0 <= i < |blocks| ==> BlockTrue(blocks[i])
    ensures forall k :: 0 <= k < |DeedsOf(blocks)| ==> DeedsOf(blocks)[k].call in calls[..|blocks|]
    ensures DeedsDiffer(DeedsOf(blocks))
  {
    if |blocks| > 0 {
      var last := |blocks| - 1;
      DeedsAreOfCalls(calls, blocks[..last]);
      assert blocks[last].call == calls[last] && calls[..|blocks|] == calls[..last] + [calls[last]];
    }
  }

  lemma AnswerAnswers(replies: seq<Reply>, message: Message, calls: seq<Id>, part: seq<Event>, events: seq<Event>)
    requires events == [AssistantMessage(message, calls)] + part && CallsOnce(part) && DecisionsHeard(replies, part) && ResultsTold(part)
    requires forall i :: 0 <= i < |part| ==> IsServing(part[i])
    ensures CallsOnce(events) && DecisionsHeard(replies, events) && ResultsTold(events) && forall i :: 0 < i < |events| ==> IsServing(events[i])
  {
  }

  lemma RoundIsAnswered(rules: Rules, end: AttemptEnd)
    requires AnswerTrue(end) && EndGoverned(rules, end) && end.Answered? && end.stop.Some?
    requires BlocksClosed(true, end.calls, end.blocks)
    ensures RoundAnswers(rules, RoundsOf(end)[0], EndEvents(end))
  {
    hide BlockTrue, Governed, BlocksEvents, DeedsServed, DeedsOf, DeedsDiffer, CallsOnce, IsAmong, RepliesOf, DecisionsHeard, ResultsTold,
      PreparedOf, LossesOf, StopsHold, IsServing;
    var events, replies := EndEvents(end), RepliesOf(end.blocks);
    RepliesAreAmong(end.blocks, replies);
    BlocksServe(rules, replies, end.blocks);
    BlocksAreServing(end.calls, end.blocks);
    DeedsAreOfCalls(end.calls, end.blocks);
    ServedWithin(rules, replies, DeedsOf(end.blocks), [AssistantMessage(end.message, end.calls)], BlocksEvents(end.blocks), []);
    assert [AssistantMessage(end.message, end.calls)] + BlocksEvents(end.blocks) + [] == events;
    AnswerAnswers(replies, end.message, end.calls, BlocksEvents(end.blocks), events);
  }

  lemma EndAnswers(rules: Rules, end: AttemptEnd)
    requires AnswerTrue(end) && EndGoverned(rules, end) && (end.Answered? ==> BlocksClosed(true, end.calls, end.blocks))
    ensures RoundsAnswer(rules, RoundsOf(end), EndEvents(end))
  {
    if end.Answered? && end.stop.Some? {
      RoundIsAnswered(rules, end);
      hide RoundAnswers, BlocksEvents, DeedsOf, PreparedOf, LossesOf, RepliesOf;
      var events := EndEvents(end);
      assert events[0..|events|] == events;
      assert SpansAnswer(rules, RoundsOf(end), events, [Span(0, |events|)]);
    } else {
      NothingToSay(rules, EndEvents(end));
    }
  }

  lemma {:induction false} AttemptsAnswer(rules: Rules, xs: seq<AttemptTrace>)
    requires AttemptsClosed(true, xs) && AttemptsGoverned(rules, xs)
    ensures RoundsAnswer(rules, AttemptsRounds(xs), AttemptsEvents(xs))
  {
    if |xs| > 0 {
      hide RoundsAnswer, RoundsOf, EndEvents, BlocksClosed, EndGoverned;
      var last := |xs| - 1;
      OrderRules.PrefixClosed(xs);
      AttemptsAnswer(rules, xs[..last]);
      assert AttemptTrue(xs[last]);
      EndAnswers(rules, xs[last].end);
      var head := xs[last].notes + Chunks(xs[last].chunks);
      RoundsWithin(rules, RoundsOf(xs[last].end), head, EndEvents(xs[last].end), []);
      assert head + EndEvents(xs[last].end) + [] == AttemptEvents(xs[last]);
      RoundsJoin(rules, AttemptsRounds(xs[..last]), RoundsOf(xs[last].end), AttemptsEvents(xs[..last]), AttemptEvents(xs[last]));
    } else {
      NothingToSay(rules, []);
    }
  }

  lemma SegmentAnswers(rules: Rules, turn: nat, s: Segment)
    requires SegmentClosed(true, turn, s) && (s.Step? ==> AttemptsGoverned(rules, s.step.attempts))
    ensures RoundsAnswer(rules, SegmentRounds(s), SegmentEvents(s))
  {
    hide RoundsAnswer, AttemptsClosed, AttemptsGoverned, AttemptsRounds, AttemptsEvents;
    if s.Step? {
      AttemptsAnswer(rules, s.step.attempts);
      RoundsWithin(rules, AttemptsRounds(s.step.attempts), [StepStart(s.step.turn, s.step.step)] + InputEvents(s.step.inputs),
                   AttemptsEvents(s.step.attempts), [StepEnd(s.step.turn, s.step.step)]);
    } else {
      NothingToSay(rules, SegmentEvents(s));
    }
  }

  lemma {:induction false} SegmentsAnswer(rules: Rules, turn: nat, xs: seq<Segment>)
    requires SegmentsGoverned(rules, xs) && forall i :: 0 <= i < |xs| ==> SegmentClosed(true, turn, xs[i])
    ensures RoundsAnswer(rules, RoundsIn(xs), SegmentsEvents(xs))
  {
    hide RoundsAnswer, SegmentClosed, SegmentRounds, SegmentEvents, AttemptsGoverned;
    if |xs| > 0 {
      var last := |xs| - 1;
      SegmentsAnswer(rules, turn, xs[..last]);
      SegmentAnswers(rules, turn, xs[last]);
      RoundsJoin(rules, RoundsIn(xs[..last]), SegmentRounds(xs[last]), SegmentsEvents(xs[..last]), SegmentEvents(xs[last]));
    } else {
      NothingToSay(rules, []);
    }
  }

  // The log of one turn speaks for the rounds of that turn.
  lemma TurnAnswers(rules: Rules, t: TurnTrace)
    requires TurnClosed(true, t) && SegmentsGoverned(rules, t.segments)
    ensures RoundsAnswer(rules, RoundsIn(t.segments), TurnEvents(t))
  {
    hide RoundsAnswer, SegmentClosed, SegmentsGoverned, RoundsIn, SegmentsEvents;
    SegmentsAnswer(rules, t.turn, t.segments);
    RoundsWithin(rules, RoundsIn(t.segments), [TurnStart(t.turn)], SegmentsEvents(t.segments), [TurnEnd(t.turn, t.reason)]);
  }

  // While the loop is not poisoned its world and its log agree, turn by turn and as a
  // whole: the rounds the world recorded stand in the log in their order, each in a
  // stretch of its own that speaks for everything that happened in it.
  lemma {:induction false} LogAnswersForEffects(rules: Rules, turns: seq<TurnTrace>)
    requires TurnsClosed(turns) && TurnsGoverned(rules, turns)
    ensures forall i :: 0 <= i < |turns| ==> RoundsAnswer(rules, RoundsIn(turns[i].segments), TurnEvents(turns[i]))
    ensures RoundsAnswer(rules, TurnsRounds(turns), TurnsEvents(turns))
  {
    hide RoundsAnswer, TurnClosed, SegmentsGoverned, RoundsIn, TurnEvents, Summaries;
    if |turns| > 0 {
      var last := |turns| - 1;
      LogAnswersForEffects(rules, turns[..last]);
      TurnAnswers(rules, turns[last]);
      forall i | 0 <= i < |turns|
        ensures RoundsAnswer(rules, RoundsIn(turns[i].segments), TurnEvents(turns[i]))
      {
        assert i < last ==> turns[..last][i] == turns[i];
      }
      RoundsJoin(rules, TurnsRounds(turns[..last]), RoundsIn(turns[last].segments), TurnsEvents(turns[..last]), TurnEvents(turns[last]));
    } else {
      NothingToSay(rules, []);
    }
  }
}
