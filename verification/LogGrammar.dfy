// The shape of a balanced log, as a tree of traces and the events each one
// flattens to. The loop is proved to leave logs of this shape; the lemmas at the
// end say what the shape means event by event.
module LogGrammar {
  import opened Common
  import opened SessionLog
  import opened WorldModel
  import opened DriverModel
  import opened Moment

  // A question without its decision, or with the decision that was logged; heard is
  // what the user answered, if anything.
  datatype ApprovalTrace =
    | NotAsked
    | Unanswered(id: Id, heard: Option<ApprovalOutcome>)
    | Decided(id: Id, outcome: ApprovalOutcome, heard: Option<ApprovalOutcome>)

  datatype ResultTrace = ResultTrace(body: ResultBody, size: nat)

  // One tool call under the policy that applied to it: its side effect if it had one,
  // prepared tells whether the executor saw it, lost whether its outcome was lost, and
  // stopping whether it kept later calls from starting, concludes whether its own result
  // asks the turn to end.
  datatype ToolBlock = ToolBlock(
    call: Id, policy: Policy, approval: ApprovalTrace, effect: Option<Deed>, result: Option<ResultTrace>,
    prepared: bool, lost: bool, stopping: bool, concludes: bool)

  function ApprovalEvents(call: Id, a: ApprovalTrace): seq<Event> {
    match a
    case NotAsked => []
    case Unanswered(id, _) => [ApprovalAsked(id, call)]
    case Decided(id, outcome, _) => [ApprovalAsked(id, call), ApprovalDecided(id, outcome)]
  }

  function ResultEvents(call: Id, r: Option<ResultTrace>): seq<Event> {
    if r.None? then [] else [ToolResult(call, r.value.body, r.value.size)]
  }

  function BlockEvents(b: ToolBlock): seq<Event> {
    [ToolCall(b.call)] + ApprovalEvents(b.call, b.approval) + ResultEvents(b.call, b.result)
  }

  function BlocksEvents(bs: seq<ToolBlock>): seq<Event> {
    if |bs| == 0 then [] else BlocksEvents(bs[..|bs| - 1]) + BlockEvents(bs[|bs| - 1])
  }

  // What became of a retry: the observer did not see its row, or it was counted and waited
  // for, and then perhaps started.
  datatype Fate = Unseen | Waited | Resumed

  // An answer with calls has a round, once one was begun, and stop is the first one
  // observed in it. A truncated answer was cut off at the output limit.
  datatype AttemptEnd =
    | Barred                        // no attempt may be made any more
    | Unsent(stalled: bool)         // nothing reached the provider; stalled says that a durable ceiling refused to begin
    | Interrupted                   // begun, and closed by the end of the step
    | Withheld(message: Message, calls: seq<Id>)   // its round was claimed, but the session refused the answer
    | Retried(key: nat, retryId: Id, number: nat, fate: Fate)
    | Answered(message: Message, calls: seq<Id>, blocks: seq<ToolBlock>, stop: Option<ToolStop>, truncated: bool)

  // notes are the request header and context rows written before the dispatch, chunks the
  // tokens that the chunks of the stream report, one number for each chunk.
  datatype AttemptTrace = AttemptTrace(notes: seq<Event>, chunks: seq<nat>, end: AttemptEnd)

  function Chunks(usages: seq<nat>): seq<Event> {
    seq(|usages|, i requires 0 <= i < |usages| => AssistantChunk(usages[i]))
  }

  function EndEvents(e: AttemptEnd): seq<Event> {
    match e
    case Barred => []
    case Unsent(_) => []
    case Interrupted => []
    case Withheld(_, _) => []
    case Retried(key, id, number, fate) =>
      [LlmRetry(key, id, number)] + if fate.Resumed? then [LlmRetryStarted(id, number)] else []
    case Answered(message, calls, blocks, _, _) => [AssistantMessage(message, calls)] + BlocksEvents(blocks)
  }

  function AttemptEvents(a: AttemptTrace): seq<Event> {
    a.notes + Chunks(a.chunks) + EndEvents(a.end)
  }

  function AttemptsEvents(xs: seq<AttemptTrace>): seq<Event> {
    if |xs| == 0 then [] else AttemptsEvents(xs[..|xs| - 1]) + AttemptEvents(xs[|xs| - 1])
  }

  // ----- retry chains

  // The latest number of one retry chain and the one identifier it runs under.
  datatype RetryChain = RetryChain(id: Id, latest: nat)

  function ChainsAfter(xs: seq<AttemptTrace>): map<nat, RetryChain> {
    if |xs| == 0 then map[]
    else
      var end := xs[|xs| - 1].end;
      var chains := ChainsAfter(xs[..|xs| - 1]);
      if end.Retried? then chains[end.key := RetryChain(end.retryId, end.number)] else chains
  }

  // Only a retry extends a chain: the first one opens it, later ones keep the
  // identifier and count on.
  predicate NextInChain(chains: map<nat, RetryChain>, end: AttemptEnd) {
    end.Retried? ==>
      if end.key in chains then end.retryId == chains[end.key].id && end.number == chains[end.key].latest + 1
      else end.number == 1
  }

  predicate ChainsOk(xs: seq<AttemptTrace>) {
    forall i :: 0 <= i < |xs| ==> NextInChain(ChainsAfter(xs[..i]), xs[i].end)
  }

  // failed tells that the attempts of the step ended with an internal error, although
  // the step could still be closed; outcome what they came to; and unseen that the observer
  // was lost where the end of the step closed an attempt.
  datatype StepTrace = StepTrace(
    turn: nat, step: nat, inputs: seq<Message>, attempts: seq<AttemptTrace>, failed: bool, outcome: StepOutcome,
    unseen: bool)

  function InputEvents(inputs: seq<Message>): seq<Event> {
    seq(|inputs|, i requires 0 <= i < |inputs| => UserMessage(inputs[i]))
  }

  function StepEvents(s: StepTrace): seq<Event> {
    [StepStart(s.turn, s.step)] + InputEvents(s.inputs) + AttemptsEvents(s.attempts) + [StepEnd(s.turn, s.step)]
  }

  // What may happen between steps: prune pairs, or one compaction bracket, or a summary
  // that was only drafted.
  datatype PreTrace =
    | Drafted
    | Pruned(target: nat, message: Message)
    | PruneCutShort(target: nat)
    | Bracket(id: Id, summarised: bool, checkpoint: Option<CheckpointTrace>, failed: bool, tokens: nat)

  datatype CheckpointTrace = CheckpointTrace(end: nat, message: Message)

  // A summary was tried.
  predicate IsSummary(p: PreTrace) {
    p.Drafted? || p.Bracket?
  }

  function PreEvents(p: PreTrace): seq<Event> {
    match p
    case Drafted => []
    case Pruned(target, m) => [PruneMarker(target), PrunedResult(target, m)]
    case PruneCutShort(target) => [PruneMarker(target)]
    case Bracket(id, summarised, checkpoint, failed, _) =>
      [CompactionStart(id)]
      + (if summarised then [CompactionSummary(id)] else [])
      + (if checkpoint.Some? then [Checkpoint(id, checkpoint.value.end, checkpoint.value.message)] else [])
      + [CompactionEnd(id, failed)]
  }

  datatype Segment = Pre(pre: PreTrace) | Step(step: StepTrace)

  function SegmentEvents(s: Segment): seq<Event> {
    match s
    case Pre(p) => PreEvents(p)
    case Step(t) => StepEvents(t)
  }

  function SegmentsEvents(xs: seq<Segment>): seq<Event> {
    if |xs| == 0 then [] else SegmentsEvents(xs[..|xs| - 1]) + SegmentEvents(xs[|xs| - 1])
  }

  lemma {:induction false} SegmentsConcat(xs: seq<Segment>, ys: seq<Segment>)
    ensures SegmentsEvents(xs + ys) == SegmentsEvents(xs) + SegmentsEvents(ys)
  {
    hide SegmentEvents;
    if |ys| == 0 {
      assert xs + ys == xs;
    } else {
      var last := |ys| - 1;
      assert (xs + ys)[..|xs + ys| - 1] == xs + ys[..last];
      SegmentsConcat(xs, ys[..last]);
    }
  }

  lemma SegmentsOne(xs: seq<Segment>, s: Segment)
    ensures SegmentsEvents(xs + [s]) == SegmentsEvents(xs) + SegmentEvents(s)
  {
    hide SegmentEvents;
    assert (xs + [s])[..|xs|] == xs;
  }

  datatype TurnTrace = TurnTrace(turn: nat, segments: seq<Segment>, reason: TurnEndReason)

  function TurnEvents(t: TurnTrace): seq<Event> {
    [TurnStart(t.turn)] + SegmentsEvents(t.segments) + [TurnEnd(t.turn, t.reason)]
  }

  // ----- what happened outside

  // The calls the executor saw.
  function PreparedOf(blocks: seq<ToolBlock>): seq<Id> {
    if |blocks| == 0 then []
    else PreparedOf(blocks[..|blocks| - 1]) + if blocks[|blocks| - 1].prepared then [blocks[|blocks| - 1].call] else []
  }

  function Listed<T>(o: Option<T>): seq<T> {
    if o.Some? then [o.value] else []
  }

  function DeedsOf(blocks: seq<ToolBlock>): seq<Deed> {
    if |blocks| == 0 then [] else DeedsOf(blocks[..|blocks| - 1]) + Listed(blocks[|blocks| - 1].effect)
  }

  function LossesOf(blocks: seq<ToolBlock>): seq<Id> {
    if |blocks| == 0 then []
    else LossesOf(blocks[..|blocks| - 1]) + if blocks[|blocks| - 1].lost then [blocks[|blocks| - 1].call] else []
  }

  // The record a round leaves in the world; no call of it was handed over too late.
  function RoundsOf(end: AttemptEnd): seq<RoundRecord> {
    if end.Answered? && end.stop.Some?
    then [RoundRecord(end.stop.value, PreparedOf(end.blocks), [], LossesOf(end.blocks), RepliesOf(end.blocks),
                      DeedsOf(end.blocks))]
    else []
  }

  function HeardOf(a: ApprovalTrace): seq<Reply> {
    if a.NotAsked? || a.heard.None? then [] else [Reply(a.id, a.heard.value)]
  }

  function RepliesOf(blocks: seq<ToolBlock>): seq<Reply> {
    if |blocks| == 0 then [] else RepliesOf(blocks[..|blocks| - 1]) + HeardOf(blocks[|blocks| - 1].approval)
  }

  lemma RoundOverran(end: AttemptEnd)
    requires end.Answered? && (end.stop.None? ==> end.blocks == [])
    ensures Overran(RoundsOf(end)) <==> AnyExceeds(DeedsOf(end.blocks))
  {
    if end.stop.Some? {
      assert RoundsOf(end)[0].deeds == DeedsOf(end.blocks);
    }
  }

  function AttemptsRounds(xs: seq<AttemptTrace>): seq<RoundRecord> {
    if |xs| == 0 then [] else AttemptsRounds(xs[..|xs| - 1]) + RoundsOf(xs[|xs| - 1].end)
  }

  function SegmentRounds(s: Segment): seq<RoundRecord> {
    if s.Step? then AttemptsRounds(s.step.attempts) else []
  }

  function RoundsIn(xs: seq<Segment>): seq<RoundRecord> {
    if |xs| == 0 then [] else RoundsIn(xs[..|xs| - 1]) + SegmentRounds(xs[|xs| - 1])
  }

  lemma {:induction false} RoundsConcat(xs: seq<Segment>, ys: seq<Segment>)
    ensures RoundsIn(xs + ys) == RoundsIn(xs) + RoundsIn(ys)
  {
    hide SegmentRounds;
    if |ys| == 0 {
      assert xs + ys == xs;
    } else {
      var last := |ys| - 1;
      assert (xs + ys)[..|xs + ys| - 1] == xs + ys[..last];
      RoundsConcat(xs, ys[..last]);
    }
  }

  lemma RoundsOne(xs: seq<Segment>, s: Segment)
    ensures RoundsIn(xs + [s]) == RoundsIn(xs) + SegmentRounds(s)
  {
    hide SegmentRounds;
    assert (xs + [s])[..|xs|] == xs;
  }

  // ----- what a turn spends

  // Attempts at the provider, retries, tool calls, bytes of results, and reported tokens.
  datatype Cost = Cost(attempts: nat, retries: nat, calls: nat, bytes: nat, tokens: nat)

  const FREE := Cost(0, 0, 0, 0, 0)

  function Plus(a: Cost, b: Cost): Cost {
    Cost(a.attempts + b.attempts, a.retries + b.retries, a.calls + b.calls, a.bytes + b.bytes, a.tokens + b.tokens)
  }

  // Only what a tool returned itself is paid for.
  function BytesOf(r: Option<ResultTrace>): nat {
    if r.Some? && r.value.body.FromTool? then r.value.size else 0
  }

  function BlocksBytes(blocks: seq<ToolBlock>): nat {
    if |blocks| == 0 then 0 else BlocksBytes(blocks[..|blocks| - 1]) + BytesOf(blocks[|blocks| - 1].result)
  }

  // What an answer adds to the attempt that gave it.
  function AnswerCost(end: AttemptEnd): Cost {
    match end
    case Answered(_, calls, blocks, stop, _) => Cost(0, 0, if stop.Some? then |calls| else 0, BlocksBytes(blocks), 0)
    case _ => FREE
  }

  function SumOf(xs: seq<nat>): nat {
    if |xs| == 0 then 0 else SumOf(xs[..|xs| - 1]) + xs[|xs| - 1]
  }

  function AttemptCost(t: AttemptTrace): Cost {
    match t.end
    case Barred => FREE
    case Answered(_, calls, blocks, stop, _) =>
      Cost(1, 0, if stop.Some? then |calls| else 0, BlocksBytes(blocks), SumOf(t.chunks))
    case Retried(_, _, _, fate) => Cost(1, if fate.Unseen? then 0 else 1, 0, 0, SumOf(t.chunks))
    case _ => Cost(1, 0, 0, 0, SumOf(t.chunks))
  }

  function AttemptsCost(xs: seq<AttemptTrace>): Cost {
    if |xs| == 0 then FREE else Plus(AttemptsCost(xs[..|xs| - 1]), AttemptCost(xs[|xs| - 1]))
  }

  function SegmentCost(s: Segment): Cost {
    match s
    case Pre(Drafted) => Cost(1, 0, 0, 0, 0)
    case Pre(Bracket(_, _, _, _, tokens)) => Cost(1, 0, 0, 0, tokens)
    case Pre(_) => FREE
    case Step(t) => AttemptsCost(t.attempts)
  }

  function CostIn(xs: seq<Segment>): Cost {
    if |xs| == 0 then FREE else Plus(CostIn(xs[..|xs| - 1]), SegmentCost(xs[|xs| - 1]))
  }

  lemma PlusJoins(a: Cost, b: Cost, c: Cost)
    ensures Plus(Plus(a, b), c) == Plus(a, Plus(b, c))
    ensures Plus(a, FREE) == a && Plus(FREE, a) == a
  {
  }

  lemma {:induction false} CostConcat(xs: seq<Segment>, ys: seq<Segment>)
    ensures CostIn(xs + ys) == Plus(CostIn(xs), CostIn(ys))
  {
    hide SegmentCost, Plus;
    if |ys| == 0 {
      assert xs + ys == xs;
      PlusJoins(CostIn(xs), FREE, FREE);
    } else {
      var last := |ys| - 1;
      assert (xs + ys)[..|xs + ys| - 1] == xs + ys[..last];
      CostConcat(xs, ys[..last]);
      PlusJoins(CostIn(xs), CostIn(ys[..last]), SegmentCost(ys[last]));
    }
  }

  lemma CostOne(xs: seq<Segment>, s: Segment)
    ensures CostIn(xs + [s]) == Plus(CostIn(xs), SegmentCost(s))
  {
    hide SegmentCost, Plus;
    assert (xs + [s])[..|xs|] == xs;
  }

  // ----- well-formed traces

  predicate BlockDone(b: ToolBlock) {
    !b.approval.Unanswered? && b.result.Some?
  }

  // The blocks follow the declared calls; every block but the last is done.
  predicate BlocksBegun(calls: seq<Id>, blocks: seq<ToolBlock>) {
    && |blocks| <= |calls|
    && (forall i :: 0 <= i < |blocks| ==> blocks[i].call == calls[i])
    && (forall i :: 0 <= i < |blocks| - 1 ==> BlockDone(blocks[i]))
  }

  // Every declared call has its block and its one result.
  predicate BlocksComplete(calls: seq<Id>, blocks: seq<ToolBlock>) {
    && BlocksBegun(calls, blocks)
    && |blocks| == |calls|
    && (|blocks| > 0 ==> BlockDone(blocks[|blocks| - 1]))
  }

  // A side effect was licensed by the policy, or by a user who allowed it once.
  predicate Licensed(policy: Policy, approval: ApprovalTrace) {
    policy.Allow? || (policy.Ask? && approval.Decided? && approval.outcome == AllowedOnce)
  }

  // A decision is what the user answered, or that nobody answered, unless it was
  // cancelled.
  predicate HeardTruly(approval: ApprovalTrace) {
    approval.Decided? && !approval.outcome.Cancelled? ==>
      approval.outcome == if approval.heard.Some? then approval.heard.value else ApprovalOutcome.Unavailable
  }

  // Why a call was declined: for what its own rows say, or before anybody was asked.
  predicate DeclineTrue(policy: Policy, approval: ApprovalTrace, reason: DeclineReason) {
    if approval.Decided? then
      match approval.outcome
      case AllowedOnce => reason.NotDispatched?
      case Rejected => reason.ApprovalRejected?
      case Cancelled => reason.ApprovalCancelled?
      case Unavailable => reason.ApprovalUnavailable?
    else
      && approval.NotAsked?
      && !reason.ApprovalRejected? && !reason.ApprovalCancelled?
      && (reason.PolicyDenied? ==> policy.Deny?)
      && (reason.ApprovalUnavailable? ==> policy.Ask?)
  }

  // Only under the policy to ask is a question asked. A result that tells of a declined call
  // names the reason of its rows, and after any decision but to allow no other result of a
  // tool is told.
  predicate AnswerKept(b: ToolBlock) {
    && (!b.policy.Ask? ==> b.approval.NotAsked?)
    && (b.result.Some? && b.result.value.body.FromTool? && b.result.value.body.tag.Declined? ==>
          b.effect.None? && DeclineTrue(b.policy, b.approval, b.result.value.body.tag.reason))
    && (b.approval.Decided? && !b.approval.outcome.AllowedOnce? && b.result.Some? ==>
          b.effect.None? && (b.result.value.body.FromTool? ==> b.result.value.body.tag.Declined?) && !b.result.value.body.Diagnostic?)
  }

  // A side effect belongs to its call and was licensed; a definite one has its own
  // result. A lost outcome has none but the diagnostic that says so, and keeps later
  // calls from starting.
  predicate BlockTrue(b: ToolBlock) {
    && (b.effect.Some? ==>
          && b.effect.value.call == b.call
          && b.prepared
          && Licensed(b.policy, b.approval)
          && (IsLost(b.effect.value) <==> b.lost)
          && (b.result.Some? ==> ToldTruly(b.effect.value, b.result.value)))
    && HeardTruly(b.approval) && AnswerKept(b)
    && (b.lost ==> b.stopping)
    && (b.lost && b.result.Some? ==> TellsLoss(b.result.value))
    && (b.result.Some? && b.result.value.body.OutcomeUnknown? ==> b.lost)
    && (b.concludes ==> b.result.Some? && b.result.value.body.FromTool?)
    && (b.effect.Some? && IsDefinite(b.effect.value) && b.result.Some? ==> b.concludes == b.effect.value.report.output.concludes)
  }

  predicate ToldTruly(deed: Deed, result: ResultTrace) {
    IsDefinite(deed) ==> result == ResultTrace(FromTool(deed.report.output.tag), deed.report.output.eventBytes)
  }

  predicate TellsLoss(result: ResultTrace) {
    result.body == OutcomeUnknown || result.body == BudgetFallback
  }

  function PolicyFor(rules: Rules, kind: EffectKind): Policy {
    match kind
    case FileChange => rules.file
    case ShellRun => rules.shell
    case PluginRun => rules.plugin
  }

  // The policy of a block with a side effect is the one for effects of its kind.
  predicate Governed(rules: Rules, b: ToolBlock) {
    b.effect.Some? ==> b.policy == PolicyFor(rules, b.effect.value.kind)
  }

  predicate EndGoverned(rules: Rules, end: AttemptEnd) {
    end.Answered? ==>
      && |end.calls| <= rules.callsPerAnswer
      && forall k :: 0 <= k < |end.blocks| ==> Governed(rules, end.blocks[k])
  }

  predicate AttemptsGoverned(rules: Rules, xs: seq<AttemptTrace>) {
    forall i :: 0 <= i < |xs| ==> EndGoverned(rules, xs[i].end)
  }

  predicate SegmentsGoverned(rules: Rules, xs: seq<Segment>) {
    forall i :: 0 <= i < |xs| && xs[i].Step? ==> AttemptsGoverned(rules, xs[i].step.attempts)
  }

  // Once a block was over with the round stopping, no later call is prepared, and the
  // round never stops stopping.
  predicate StopsHold(blocks: seq<ToolBlock>) {
    forall j, k :: 0 <= j < k < |blocks| && blocks[j].stopping ==> !blocks[k].prepared && blocks[k].stopping
  }

  predicate CallsDiffer(calls: seq<Id>) {
    forall j, k :: 0 <= j < k < |calls| ==> calls[j] != calls[k]
  }

  // A round that may be followed by the end of its step: no question stays open,
  // and a durable session has every result.
  predicate BlocksClosed(durable: bool, calls: seq<Id>, blocks: seq<ToolBlock>) {
    && BlocksBegun(calls, blocks)
    && (|blocks| > 0 ==> !blocks[|blocks| - 1].approval.Unanswered?)
    && (durable ==> BlocksComplete(calls, blocks))
  }

  predicate IsNote(e: Event) {
    e.RequestHeader? || e.RequestContext?
  }

  // What an answer says, however the rest of its round went.
  predicate AnswerTrue(end: AttemptEnd) {
    end.Answered? ==>
      && CallsDiffer(end.calls)
      && BlocksBegun(end.calls, end.blocks)
      && StopsHold(end.blocks)
      && (end.stop.None? ==> end.blocks == [])
      && (end.truncated ==> end.calls == [])
      && forall k :: 0 <= k < |end.blocks| ==> BlockTrue(end.blocks[k])
  }

  predicate AttemptTrue(t: AttemptTrace) {
    && |t.notes| <= 2
    && (forall i :: 0 <= i < |t.notes| ==> IsNote(t.notes[i]))
    && (t.end.Barred? ==> t.notes == [] && t.chunks == [])
    && AnswerTrue(t.end)
  }

  // Only a retry that was started is followed by another attempt.
  predicate Continued(t: AttemptTrace) {
    t.end.Retried? && t.end.fate.Resumed?
  }

  // Every attempt is true to its answer, and only the last one may end the step.
  predicate AttemptsTrue(xs: seq<AttemptTrace>) {
    && (forall i :: 0 <= i < |xs| ==> AttemptTrue(xs[i]))
    && (forall i :: 0 <= i < |xs| - 1 ==> Continued(xs[i]))
  }

  // The last attempt was kept from beginning by a durable ceiling.
  predicate Stalled(xs: seq<AttemptTrace>) {
    |xs| > 0 && xs[|xs| - 1].end == Unsent(true)
  }

  // The attempts of a step that was closed.
  predicate AttemptsClosed(durable: bool, xs: seq<AttemptTrace>) {
    && AttemptsTrue(xs)
    && ChainsOk(xs)
    && forall i :: 0 <= i < |xs| && xs[i].end.Answered? ==> BlocksClosed(durable, xs[i].end.calls, xs[i].end.blocks)
  }

  predicate PreClosed(p: PreTrace) {
    p.Bracket? ==> (p.checkpoint.Some? ==> p.summarised) && (!p.failed ==> p.checkpoint.Some?)
  }

  predicate SegmentClosed(durable: bool, turn: nat, s: Segment) {
    match s
    case Pre(p) => PreClosed(p)
    case Step(t) => t.turn == turn && AttemptsClosed(durable, t.attempts)
  }

  // The number of steps, which are numbered from one.
  function StepsIn(xs: seq<Segment>): nat {
    if |xs| == 0 then 0
    else StepsIn(xs[..|xs| - 1]) + if xs[|xs| - 1].Step? then 1 else 0
  }

  // The number of summaries that were tried.
  function Summaries(xs: seq<Segment>): nat {
    if |xs| == 0 then 0
    else Summaries(xs[..|xs| - 1]) + if xs[|xs| - 1].Pre? && IsSummary(xs[|xs| - 1].pre) then 1 else 0
  }

  lemma {:induction false} CountsConcat(xs: seq<Segment>, ys: seq<Segment>)
    ensures Summaries(xs + ys) == Summaries(xs) + Summaries(ys)
    ensures StepsIn(xs + ys) == StepsIn(xs) + StepsIn(ys)
  {
    if |ys| == 0 {
      assert xs + ys == xs;
    } else {
      var last := |ys| - 1;
      assert (xs + ys)[..|xs + ys| - 1] == xs + ys[..last];
      CountsConcat(xs, ys[..last]);
    }
  }

  // Closed segments whose steps are numbered on from n.
  predicate SegmentsClosed(durable: bool, turn: nat, xs: seq<Segment>, n: nat) {
    forall i :: 0 <= i < |xs| ==>
      SegmentClosed(durable, turn, xs[i]) && (xs[i].Step? ==> xs[i].step.step == n + StepsIn(xs[..i]) + 1)
  }

  // The first step of a turn carries its messages, and no later one carries any.
  predicate Delivered(xs: seq<Segment>, messages: seq<Message>) {
    forall i :: 0 <= i < |xs| && xs[i].Step? ==>
      xs[i].step.inputs == if StepsIn(xs[..i]) == 0 then messages else []
  }

  // The step ended well, with an answer, every call of it has its result and no outcome
  // was lost.
  predicate StepAnswered(s: Segment) {
    s.Step? && !s.step.failed && AnsweredFully(s.step.attempts)
  }

  predicate AnsweredFully(xs: seq<AttemptTrace>) {
    && |xs| > 0 && xs[|xs| - 1].end.Answered?
    && BlocksComplete(xs[|xs| - 1].end.calls, xs[|xs| - 1].end.blocks)
    && LossesOf(xs[|xs| - 1].end.blocks) == []
  }

  predicate IsSuccess(reason: TurnEndReason) {
    reason.Completed? || reason.MaxTokens?
  }

  // A turn goes on only after a complete answer, and succeeds only with one that says how.
  predicate Answers(xs: seq<Segment>, reason: TurnEndReason) {
    && (forall i :: 0 <= i < |xs| - 1 && xs[i].Step? ==> StepAnswered(xs[i]))
    && (IsSuccess(reason) ==> |xs| > 0 && SuccessTold(xs[|xs| - 1], reason))
  }

  predicate SuccessTold(s: Segment, reason: TurnEndReason) {
    && StepAnswered(s)
    && AnswerDecides(s.step.attempts[|s.step.attempts| - 1].end,
                     if reason.MaxTokens? then StepOutcome.MaxTokens else StepOutcome.Completed)
  }

  // ----- how a step decides the end of its turn

  predicate StepFailed(s: Segment) {
    s.Step? && s.step.failed
  }

  // The last step was kept from an attempt by a durable ceiling.
  predicate StalledIn(xs: seq<Segment>) {
    |xs| > 0 && xs[|xs| - 1].Step? && Stalled(xs[|xs| - 1].step.attempts)
  }

  // The first stop that was observed in the tool round of an attempt.
  function StopOfRound(end: AttemptEnd): ToolStop {
    if end.Answered? && end.stop.Some? then end.stop.value else NoStop
  }

  function StopIn(xs: seq<AttemptTrace>): ToolStop {
    if |xs| > 0 then StopOfRound(xs[|xs| - 1].end) else NoStop
  }

  function LatchedStop(s: Segment): ToolStop {
    if s.Step? then StopIn(s.step.attempts) else NoStop
  }

  function ReasonOfStop(stop: ToolStop): (r: TurnEndReason)
    requires stop != NoStop
    ensures r.Aborted? <==> stop.StopCancelled?
    ensures r == Error(TurnTimeout) <==> stop.StopTimeout?
  {
    if stop.StopCancelled? then Aborted else Error(TurnTimeout)
  }

  // How the world alone would end the turn now.
  function StopOf(env: Env): (r: Option<TurnEndReason>)
    ensures r == Some(Aborted) <==> env.cancelled
    ensures r == Some(Error(TurnTimeout)) <==> !env.cancelled && env.expired
    ensures r.None? <==> !env.cancelled && !env.expired
  {
    if env.cancelled then Some(Aborted) else if env.expired then Some(Error(TurnTimeout)) else None
  }

  // How a step that failed ends its turn: what is true of the world at the end counts,
  // then the failure itself. The first stop of its round is forgotten.
  predicate FailureDecides(reason: TurnEndReason, env: Env) {
    if StopOf(env).Some? then reason == StopOf(env).value
    else reason == Error(Internal) || reason == Error(ErrorCode.ObserverUnavailable)
  }

  // The last step decides: a durable limit first, then its failure, then the first stop
  // of its round.
  predicate SegmentDecides(s: Segment, reason: TurnEndReason, limit: bool, env: Env) {
    if limit then StepFailed(s) || LatchedStop(s) != NoStop ==> reason == Error(SessionLimit)
    else if StepFailed(s) then FailureDecides(reason, env)
    else LatchedStop(s) != NoStop ==> reason == ReasonOfStop(LatchedStop(s))
  }

  predicate StopDecides(xs: seq<Segment>, reason: TurnEndReason, limit: bool, env: Env) {
    && (forall i :: 0 <= i < |xs| - 1 ==> LatchedStop(xs[i]) == NoStop && !StepFailed(xs[i]))
    && (|xs| > 0 ==> SegmentDecides(xs[|xs| - 1], reason, limit, env))
  }

  // Some call asked the turn to end.
  predicate AnyConcludes(blocks: seq<ToolBlock>) {
    exists k :: 0 <= k < |blocks| && blocks[k].concludes
  }

  // What an answer makes of its step where no ceiling, no lost observer and no stop decides:
  // one without calls ends the turn, cut off at the output limit or whole; a round fails
  // if it lost an outcome, ends the turn if one of its calls asks for that, and otherwise
  // lets it go on.
  predicate AnswerDecides(end: AttemptEnd, outcome: StepOutcome)
    requires end.Answered?
  {
    if end.calls == [] then outcome == if end.truncated then StepOutcome.MaxTokens else StepOutcome.Completed
    else if LossesOf(end.blocks) != [] then outcome == ErrorOutcome(ToolExecutor)
    else outcome == if AnyConcludes(end.blocks) then StepOutcome.Completed else Continue
  }

  // ----- claims that outlive their step

  // The answer whose tool round is left unfinished where an attempt fails, if any.
  function AnswerLeft(end: AttemptEnd): Option<Event> {
    if end.Answered? || end.Withheld? then Some(AssistantMessage(end.message, end.calls)) else None
  }

  function UnfinishedAnswer(xs: seq<AttemptTrace>): Option<Event> {
    if |xs| > 0 then AnswerLeft(xs[|xs| - 1].end) else None
  }

  function LeftBy(xs: seq<Segment>): Option<Event> {
    if |xs| > 0 && StepFailed(xs[|xs| - 1]) then UnfinishedAnswer(xs[|xs| - 1].step.attempts) else None
  }

  // A balanced turn.
  predicate TurnClosed(durable: bool, t: TurnTrace) {
    SegmentsClosed(durable, t.turn, t.segments, 0)
  }
}
