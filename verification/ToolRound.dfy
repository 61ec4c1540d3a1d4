// One tool round: all its claims are made up front, the assistant message closes
// the provider attempt, and every declared call then runs to its one result
// (src/agent/mod.rs:2490-2946).
module ToolRound {
  import opened Common
  import opened SessionLog
  import opened SessionModel
  import opened WorldModel
  import opened DriverModel
  import opened LogGrammar
  import opened Moment
  import opened ToolCall
  import opened ToolIteration
  import opened AttemptLife

  datatype CallSpec = CallSpec(call: Id, profile: Profile)

  datatype StepResolution = StepResolution(outcome: StepOutcome, stop: ToolStop)

  function CallsOf(specs: seq<CallSpec>): (calls: seq<Id>)
    ensures |calls| == |specs|
    ensures forall i :: 0 <= i < |specs| ==> calls[i] == specs[i].call
  {
    seq(|specs|, i requires 0 <= i < |specs| => specs[i].call)
  }

  predicate Distinct(specs: seq<CallSpec>) {
    forall i, j :: 0 <= i < j < |specs| ==> specs[i].call != specs[j].call
  }

  // Claim base protects the assistant message; each call has two claims after it.
  function PlanAt(base: nat, specs: seq<CallSpec>, i: nat): Plan
    requires i < |specs|
  {
    Plan(specs[i].call, specs[i].profile, base + 1 + 2 * i, base + 2 + 2 * i)
  }

  // The number of the first claim after the round's own ones.
  function RoundEnd(base: nat, specs: seq<CallSpec>): nat {
    base + 1 + 2 * |specs|
  }

  predicate PlanLive(slots: seq<Slot>, plan: Plan) {
    && IsLive(slots, plan.callClaim)
    && slots[plan.callClaim].fallback == Event.ToolCall(plan.call)
    && IsLive(slots, plan.resultClaim)
    && slots[plan.resultClaim].fallback.ToolResult?
    && slots[plan.resultClaim].fallback.call == plan.call
    && slots[plan.resultClaim].fallback.body == BudgetFallback
  }

  ghost predicate PlansLive(slots: seq<Slot>, base: nat, specs: seq<CallSpec>, first: nat) {
    forall k :: first <= k < |specs| ==> PlanLive(slots, PlanAt(base, specs, k))
  }

  function RoundClaims(base: nat, specs: seq<CallSpec>): set<nat> {
    Numbers(base + 1, 2 * |specs|)
  }

  function Numbers(first: nat, n: nat): (r: set<nat>)
    ensures forall c :: c in r <==> first <= c < first + n
  {
    if n == 0 then {} else Numbers(first, n - 1) + {first + n - 1}
  }

  // ----- what the blocks of a round say

  ghost predicate BlocksFor(blocks: seq<ToolBlock>, specs: seq<CallSpec>, d: Driver) {
    && |blocks| <= |specs|
    && forall k :: 0 <= k < |blocks| ==>
         && blocks[k].call == specs[k].call && blocks[k].policy == PolicyOf(d, specs[k].profile)
         && BlockTrue(blocks[k]) && Governed(RulesOf(d), blocks[k])
  }

  // A call that has no block yet had no effect yet.
  lemma {:induction false} DeedsAreOfBlocks(blocks: seq<ToolBlock>, n: nat, call: Id)
    requires n == |blocks|
    requires forall k :: 0 <= k < n ==> blocks[k].call != call && BlockTrue(blocks[k])
    ensures Effectless(DeedsOf(blocks), call)
  {
    if n > 0 {
      DeedsAreOfBlocks(blocks[..n - 1], n - 1, call);
    }
  }

  // ----- the loop over the calls

  // The round after its first |blocks| calls.
  ghost predicate Progress(a: Snap, b: Snap, d: Driver, base: nat, specs: seq<CallSpec>, round: Round, blocks: seq<ToolBlock>) {
    && |a.st.slots| == RoundEnd(base, specs)
    && Moved(a.st, b.st, BlocksEvents(blocks), RoundClaims(base, specs))
    && BlocksFor(blocks, specs, d)
    && (forall k :: 0 <= k < |blocks| ==> BlockDone(blocks[k]) && (blocks[k].stopping ==> Stopping(round, b.now)))
    && round.concludes == AnyConcludes(blocks)
    && (|blocks| > 0 && Stopping(round, b.now) ==> blocks[|blocks| - 1].stopping)
    && StopsHold(blocks)
    && b.env.prepared == PreparedOf(blocks)
    && b.env.deeds == DeedsOf(blocks)
    && b.env.losses == LossesOf(blocks) && b.env.late == [] && b.env.replies == RepliesOf(blocks)
    && PlansLive(b.st.slots, base, specs, |blocks|)
    && |a.st.slots| <= |b.st.slots|
    && CallsSpent(b.st.slots, base, |blocks|)
    && SpentFrom(b.st.slots, RoundEnd(base, specs))
    && Remembers(round, b.env)
    && Onward(a.env, b.env)
    && Paid(a.now, b.now, d.limits, AnyExceeds(DeedsOf(blocks)), BlocksBytes(blocks))
  }

  lemma ConcludesJoins(blocks: seq<ToolBlock>, block: ToolBlock)
    ensures AnyConcludes(blocks + [block]) <==> AnyConcludes(blocks) || block.concludes
  {
    if AnyConcludes(blocks) {
      var k :| 0 <= k < |blocks| && blocks[k].concludes;
      assert (blocks + [block])[k].concludes;
    }
    assert (blocks + [block])[|blocks|] == block;
  }

  // Time passed in the world, and a stop that was seen stays the first.
  predicate Onward(a: Env, b: Env) {
    Drift(a, b) && (a.firstStop != NoStop ==> b.firstStop == a.firstStop)
  }

  lemma ProgressReady(a: Snap, b: Snap, d: Driver, base: nat, specs: seq<CallSpec>, round: Round, blocks: seq<ToolBlock>)
    requires Progress(a, b, d, base, specs, round, blocks) && |blocks| < |specs| && Distinct(specs)
    ensures
      var plan := PlanAt(base, specs, |blocks|);
      && b.st.attempts.phase.NoAttempt?
      && AwaitsResult(b.st, plan)
      && plan.resultClaim < |b.st.slots|
      && IsLive(b.st.slots, plan.callClaim) && b.st.slots[plan.callClaim].fallback == Event.ToolCall(plan.call)
      && Remembers(round, b.env)
      && Effectless(b.env.deeds, plan.call)
  {
    assert PlanLive(b.st.slots, PlanAt(base, specs, |blocks|));
    DeedsAreOfBlocks(blocks, |blocks|, specs[|blocks|].call);
  }

  lemma ProgressOn(a: Snap, b: Snap, c: Snap, durable: bool, d: Driver, base: nat, specs: seq<CallSpec>, round: Round,
                   blocks: seq<ToolBlock>, r: Result<CallEnd, Failure>, block: ToolBlock)
    requires Progress(a, b, d, base, specs, round, blocks) && |blocks| < |specs|
    requires CallRan(b, c, durable, d, PlanAt(base, specs, |blocks|), round, r, Some(block)) && r.Ok? && r.value.Onward?
    ensures Progress(a, c, d, base, specs, r.value.round, blocks + [block])
  {
    hide PlansLive, SpentFrom, Moved, CallsSpent, BlockTrue, RoundOk, AnyConcludes;
    RoundStep(a, b, c, durable, d, base, specs, round, blocks, r, block);
    StepSpends(b.st, c.st, base, specs, |blocks|, BlockEvents(block));
    ConcludesJoins(blocks, block);
  }

  // The claims of the first n calls were consumed.
  ghost predicate CallsSpent(slots: seq<Slot>, base: nat, n: nat) {
    forall c :: base + 1 <= c < base + 1 + 2 * n && c < |slots| ==> !slots[c].Live?
  }

  lemma StepSpends(b: State, c: State, base: nat, specs: seq<CallSpec>, n: nat, events: seq<Event>)
    requires n < |specs| && RoundEnd(base, specs) <= |b.slots|
    requires
      var plan := PlanAt(base, specs, n);
      && Moved(b, c, events, {plan.callClaim, plan.resultClaim})
      && !IsLive(c.slots, plan.callClaim) && !IsLive(c.slots, plan.resultClaim)
    requires PlansLive(b.slots, base, specs, n) && CallsSpent(b.slots, base, n)
    requires SpentFrom(b.slots, RoundEnd(base, specs)) && SpentFrom(c.slots, |b.slots|)
    ensures PlansLive(c.slots, base, specs, n + 1) && CallsSpent(c.slots, base, n + 1)
    ensures SpentFrom(c.slots, RoundEnd(base, specs))
  {
    forall k | n + 1 <= k < |specs|
      ensures PlanLive(c.slots, PlanAt(base, specs, k))
    {
      assert PlanLive(b.slots, PlanAt(base, specs, k));
    }
  }

  // The blocks that were begun, whatever became of the last one.
  ghost predicate RoundKept(a: Snap, b: Snap, d: Driver, base: nat, specs: seq<CallSpec>, blocks: seq<ToolBlock>) {
    && Moved(a.st, b.st, BlocksEvents(blocks), RoundClaims(base, specs))
    && |a.st.slots| <= |b.st.slots|
    && BlocksFor(blocks, specs, d)
    && BlocksBegun(CallsOf(specs), blocks)
    && StopsHold(blocks)
    && b.env.prepared == PreparedOf(blocks)
    && b.env.deeds == DeedsOf(blocks)
    && b.env.losses == LossesOf(blocks) && b.env.late == [] && b.env.replies == RepliesOf(blocks)
    && Onward(a.env, b.env)
    && Paid(a.now, b.now, d.limits, AnyExceeds(DeedsOf(blocks)), BlocksBytes(blocks))
  }

  // What running the calls of a round keeps.
  ghost predicate RoundRan(a: Snap, b: Snap, durable: bool, d: Driver, base: nat, specs: seq<CallSpec>,
                           r: Result<StepResolution, Failure>, blocks: seq<ToolBlock>)
  {
    && RoundKept(a, b, d, base, specs, blocks)
    && (r.Err? ==> !IsLoopBug(r.error) && (r.error.Fatal? || !SpentFrom(b.st.slots, base + 1)))
    && (r.Ok? ==>
          && r.value.stop == b.env.firstStop
          && SpentFrom(b.st.slots, base + 1)
          && (BlocksComplete(CallsOf(specs), blocks) || LostInMemory(durable, blocks))
          && OutcomeOf(r.value, b.now, blocks))
  }

  // A memory session that lost an outcome: every earlier call has its result, the
  // last one has none, and no later call was begun.
  ghost predicate LostInMemory(durable: bool, blocks: seq<ToolBlock>) {
    && !durable
    && |blocks| > 0
    && blocks[|blocks| - 1].result.None?
    && !blocks[|blocks| - 1].approval.Unanswered?
    && forall k :: 0 <= k < |blocks| - 1 ==> BlockDone(blocks[k])
  }

  predicate LastLost(blocks: seq<ToolBlock>) {
    |blocks| > 0 && blocks[|blocks| - 1].result.None?
  }

  // A lost outcome is an executor failure. Otherwise a durable ceiling wins over the
  // observer, which wins over everything else; a round that lost any outcome ends with
  // an error; and the round lets the turn go on, or conclude, exactly when it was not
  // stopping after its last call. Without a stop its answer decides.
  ghost predicate OutcomeOf(resolution: StepResolution, now: Counters, blocks: seq<ToolBlock>) {
    var outcome := resolution.outcome;
    && !outcome.MaxTokens?
    && (LossesOf(blocks) != [] ==> outcome.ErrorOutcome?)
    && (LastLost(blocks) ==> outcome == ErrorOutcome(ToolExecutor) && LossesOf(blocks) != [])
    && (!LastLost(blocks) ==>
          && (now.durableLimit ==> outcome == ErrorOutcome(SessionLimit))
          && (!now.durableLimit && now.observerUnavailable ==> outcome == ErrorOutcome(ErrorCode.ObserverUnavailable))
          && (!now.durableLimit && !now.observerUnavailable ==>
                if resolution.stop == NoStop then RoundDecides(blocks, outcome)
                else outcome.Cancelled? || outcome == ErrorOutcome(TurnTimeout) || outcome == ErrorOutcome(ToolExecutor))
          && (outcome.Continue? || outcome.Completed? ==>
                && resolution.stop == NoStop
                && forall k :: 0 <= k < |blocks| ==> BlockDone(blocks[k]) && !blocks[k].stopping)
          && (|blocks| > 0 && !blocks[|blocks| - 1].stopping ==> outcome.Continue? || outcome.Completed?))
  }

  predicate RoundDecides(blocks: seq<ToolBlock>, outcome: StepOutcome) {
    if LossesOf(blocks) != [] then outcome == ErrorOutcome(ToolExecutor)
    else outcome == if AnyConcludes(blocks) then StepOutcome.Completed else Continue
  }

  lemma NothingRun(a: Snap, d: Driver, base: nat, specs: seq<CallSpec>)
    requires a.st.attempts.phase.NoAttempt? && |a.st.slots| == RoundEnd(base, specs)
    requires PlansLive(a.st.slots, base, specs, 0)
    requires a.env.firstStop == NoStop && a.env.prepared == [] && a.env.deeds == [] && a.env.losses == [] && a.env.late == [] && a.env.replies == []
    ensures Progress(a, a, d, base, specs, Round(false, false, None, NoStop), [])
  {
    QuietMoves(a.st, a.st, RoundClaims(base, specs));
  }

  // The outcome of a round that reached its last call (src/agent/mod.rs:2932-2945).
  function Outcome(round: Round, now: Counters): StepOutcome {
    if now.durableLimit then ErrorOutcome(SessionLimit)
    else if now.observerUnavailable then ErrorOutcome(ErrorCode.ObserverUnavailable)
    else if round.failure.Some? then ErrorOutcome(round.failure.value)
    else if round.cancelled then StepOutcome.Cancelled
    else if round.concludes then StepOutcome.Completed
    else StepOutcome.Continue
  }

  lemma RoundEnded(a: Snap, b: Snap, durable: bool, d: Driver, base: nat, specs: seq<CallSpec>, round: Round, blocks: seq<ToolBlock>)
    requires Progress(a, b, d, base, specs, round, blocks) && |blocks| == |specs|
    ensures RoundRan(a, b, durable, d, base, specs, Ok(StepResolution(Outcome(round, b.now), round.latched)), blocks)
  {
  }

  lemma RoundFailed(a: Snap, b: Snap, c: Snap, durable: bool, d: Driver, base: nat, specs: seq<CallSpec>, round: Round,
                    blocks: seq<ToolBlock>, r: Result<CallEnd, Failure>, block: Option<ToolBlock>)
    requires Progress(a, b, d, base, specs, round, blocks) && |blocks| < |specs|
    requires CallRan(b, c, durable, d, PlanAt(base, specs, |blocks|), round, r, block) && r.Err?
    ensures RoundRan(a, c, durable, d, base, specs, Err(r.error), blocks + if block.Some? then [block.value] else [])
  {
    hide CallsSpent, BlockTrue, Governed, Moved, Paid, AnyExceeds, DeedsOf, PreparedOf, LossesOf, RepliesOf, BlocksBytes, BlocksEvents, StopsHold, Handled, BlockEvents, AnyConcludes;
    if block.Some? {
      RoundStep(a, b, c, durable, d, base, specs, round, blocks, r, block.value);
    } else {
      assert blocks + [] == blocks;
    }
  }

  // One more block, however its call ended.
  lemma RoundStep(a: Snap, b: Snap, c: Snap, durable: bool, d: Driver, base: nat, specs: seq<CallSpec>, round: Round,
                  blocks: seq<ToolBlock>, r: Result<CallEnd, Failure>, block: ToolBlock)
    requires Progress(a, b, d, base, specs, round, blocks) && |blocks| < |specs|
    requires CallRan(b, c, durable, d, PlanAt(base, specs, |blocks|), round, r, Some(block))
    ensures RoundKept(a, c, d, base, specs, blocks + [block])
  {
    hide PlansLive, SpentFrom, Moved, BlockTrue, Governed, Stopping, RoundOk, CallsSpent, Paid, AnyExceeds, DeedsOf, PreparedOf, LossesOf, RepliesOf, BlocksBytes, BytesOf, BlocksEvents, BlockEvents;
    StepRecorded(b.env, c.env, blocks, block);
    StepPaid(a.now, b.now, c.now, d.limits, blocks, block);
    StepMoves(a.st, b.st, c.st, base, specs, blocks, block);
  }

  // What one block adds to each list of the record.
  lemma RecordGrows(b: Env, c: Env, block: ToolBlock)
    requires Handled(b, c, block)
    ensures c.prepared == b.prepared + if block.prepared then [block.call] else []
    ensures c.deeds == b.deeds + Listed(block.effect)
    ensures c.losses == b.losses + if block.lost then [block.call] else []
    ensures c.replies == b.replies + HeardOf(block.approval)
    ensures c.late == b.late
  {
    hide WithBlock, HeardOf, Listed;
    var served := b.(prepared := b.prepared + (if block.prepared then [block.call] else []), problem := c.problem);
    BlockGrows(served, block);
  }

  lemma BlockGrows(a: Env, block: ToolBlock)
    ensures
      var b := WithBlock(a, block);
      && b.prepared == a.prepared && b.late == a.late
      && b.deeds == a.deeds + Listed(block.effect)
      && b.losses == a.losses + (if block.lost then [block.call] else [])
      && b.replies == a.replies + HeardOf(block.approval)
  {
    assert a.deeds + [] == a.deeds && a.losses + [] == a.losses && a.replies + [] == a.replies;
  }

  lemma StepRecorded(b: Env, c: Env, blocks: seq<ToolBlock>, block: ToolBlock)
    requires Handled(b, c, block) && b.prepared == PreparedOf(blocks) && b.deeds == DeedsOf(blocks) && b.losses == LossesOf(blocks)
    requires b.replies == RepliesOf(blocks)
    ensures c.prepared == PreparedOf(blocks + [block]) && c.deeds == DeedsOf(blocks + [block])
    ensures c.losses == LossesOf(blocks + [block]) && c.late == b.late && c.replies == RepliesOf(blocks + [block])
  {
    hide Handled, HeardOf, Listed;
    RecordGrows(b, c, block);
    assert (blocks + [block])[..|blocks|] == blocks;
  }

  lemma StepPaid(a: Counters, b: Counters, c: Counters, limits: Limits, blocks: seq<ToolBlock>, block: ToolBlock)
    requires Paid(a, b, limits, AnyExceeds(DeedsOf(blocks)), BlocksBytes(blocks))
    requires Paid(b, c, limits, Excessive(block.effect), BytesOf(block.result))
    ensures Paid(a, c, limits, AnyExceeds(DeedsOf(blocks + [block])), BlocksBytes(blocks + [block]))
  {
    assert (blocks + [block])[..|blocks|] == blocks;
    ExceedsJoins(DeedsOf(blocks), Listed(block.effect));
    assert Excessive(block.effect) ==> Exceeds(Listed(block.effect)[0]);
  }

  lemma StepMoves(a: State, b: State, c: State, base: nat, specs: seq<CallSpec>, blocks: seq<ToolBlock>, block: ToolBlock)
    requires |a.slots| == RoundEnd(base, specs) && |blocks| < |specs|
    requires Moved(a, b, BlocksEvents(blocks), RoundClaims(base, specs))
    requires
      var plan := PlanAt(base, specs, |blocks|);
      Moved(b, c, BlockEvents(block), {plan.callClaim, plan.resultClaim})
    ensures Moved(a, c, BlocksEvents(blocks + [block]), RoundClaims(base, specs)) && |a.slots| <= |c.slots|
  {
    hide Moved, BlockEvents, BlocksEvents, Numbers;
    var plan := PlanAt(base, specs, |blocks|);
    OneMoreBlock(blocks, block);
    MovedOn(a, b, c, BlocksEvents(blocks), BlockEvents(block), RoundClaims(base, specs), {plan.callClaim, plan.resultClaim});
    MovedGrows(a, c, BlocksEvents(blocks + [block]), RoundClaims(base, specs));
  }

  lemma OneMoreBlock(blocks: seq<ToolBlock>, block: ToolBlock)
    ensures BlocksEvents(blocks + [block]) == BlocksEvents(blocks) + BlockEvents(block)
  {
    assert (blocks + [block])[..|blocks|] == blocks;
  }

  lemma MovedGrows(a: State, b: State, events: seq<Event>, touched: set<nat>)
    requires Moved(a, b, events, touched)
    ensures |a.slots| <= |b.slots|
  {
  }

  // From before to after only claims numbered from first up to the end of the round
  // may have changed, and nothing was appended.
  ghost predicate OnlyClaims(before: State, after: State, first: nat, end: nat) {
    && after == before.(slots := after.slots)
    && |after.slots| == |before.slots|
    && forall c :: 0 <= c < |before.slots| && !(first <= c < end) ==> after.slots[c] == before.slots[c]
  }

  // Give back the claims of the calls from the given one on.
  method ReleaseCalls(s: Session, base: nat, specs: seq<CallSpec>, first: nat) returns (r: Result<Unit, Failure>)
    requires s.Valid() && first <= |specs| && RoundEnd(base, specs) <= |s.st.slots|
    requires PlansLive(s.st.slots, base, specs, first)
    modifies s
    ensures s.Valid() && s.marks == old(s.marks) && OnlyClaims(old(s.st), s.st, base + 1 + 2 * first, RoundEnd(base, specs))
    ensures r.Ok? ==> forall c :: base + 1 + 2 * first <= c < RoundEnd(base, specs) ==> !s.st.slots[c].Live?
    ensures r.Err? ==> r.error.Fatal?
  {
    var k := first;
    while k < |specs|
      invariant first <= k <= |specs|
      invariant s.Valid() && s.marks == old(s.marks) && OnlyClaims(old(s.st), s.st, base + 1 + 2 * first, base + 1 + 2 * k)
      invariant forall c :: base + 1 + 2 * first <= c < base + 1 + 2 * k ==> !s.st.slots[c].Live?
    {
      var plan := PlanAt(base, specs, k);
      assert PlanLive(old(s.st.slots), plan);
      var _ :- s.Release(plan.callClaim);
      var _ :- s.Release(plan.resultClaim);
      k := k + 1;
    }
    return Ok(Unit);
  }

  lemma RoundLost(a: Snap, b: Snap, c: Snap, e: Snap, durable: bool, d: Driver, base: nat, specs: seq<CallSpec>, round: Round,
                  blocks: seq<ToolBlock>, stop: ToolStop, block: ToolBlock, released: Result<Unit, Failure>)
    requires Progress(a, b, d, base, specs, round, blocks) && |blocks| < |specs|
    requires CallRan(b, c, durable, d, PlanAt(base, specs, |blocks|), round, Ok(Lost(stop)), Some(block))
    requires e == c.(st := e.st)
    requires OnlyClaims(c.st, e.st, base + 1 + 2 * (|blocks| + 1), RoundEnd(base, specs))
    requires RoundEnd(base, specs) <= |c.st.slots|
    requires released.Ok? ==>
      forall x :: base + 1 + 2 * (|blocks| + 1) <= x < RoundEnd(base, specs) ==> !e.st.slots[x].Live?
    requires released.Err? ==> released.error.Fatal?
    ensures RoundRan(a, e, durable, d, base, specs,
                     if released.Ok? then Ok(StepResolution(ErrorOutcome(ToolExecutor), stop)) else Err(released.error),
                     blocks + [block])
  {
    hide PlansLive, SpentFrom, Moved, BlockTrue, Governed, Stopping, RoundOk, CallsSpent;
    RoundStep(a, b, c, durable, d, base, specs, round, blocks, Ok(Lost(stop)), block);
    StepSpends(b.st, c.st, base, specs, |blocks|, BlockEvents(block));
    LostMoves(a.st, c.st, e.st, BlocksEvents(blocks + [block]), base, specs, |blocks| + 1);
    if released.Ok? {
      LostSpent(c.st, e.st, base, specs, |blocks| + 1);
    }
  }

  lemma LostMoves(a: State, c: State, e: State, events: seq<Event>, base: nat, specs: seq<CallSpec>, n: nat)
    requires Moved(a, c, events, RoundClaims(base, specs)) && OnlyClaims(c, e, base + 1 + 2 * n, RoundEnd(base, specs))
    ensures Moved(a, e, events, RoundClaims(base, specs))
  {
  }

  lemma LostSpent(c: State, e: State, base: nat, specs: seq<CallSpec>, n: nat)
    requires CallsSpent(c.slots, base, n) && SpentFrom(c.slots, RoundEnd(base, specs))
    requires OnlyClaims(c, e, base + 1 + 2 * n, RoundEnd(base, specs)) && RoundEnd(base, specs) <= |c.slots|
    requires forall x :: base + 1 + 2 * n <= x < RoundEnd(base, specs) ==> !e.slots[x].Live?
    ensures SpentFrom(e.slots, base + 1)
  {
  }

  // Every declared call in order (src/agent/mod.rs:2618-2945).
  method RunCalls(s: Session, d: Driver, w: World, base: nat, specs: seq<CallSpec>)
    returns (r: Result<StepResolution, Failure>, ghost blocks: seq<ToolBlock>)
    requires s.Valid() && s.st.attempts.phase.NoAttempt? && |s.st.slots| == RoundEnd(base, specs)
    requires PlansLive(s.st.slots, base, specs, 0) && Distinct(specs) && Agree(s, d)
    requires w.env.firstStop == NoStop && w.env.prepared == [] && w.env.deeds == [] && w.env.losses == [] && w.env.late == [] && w.env.replies == []
    modifies s, d, w
    ensures s.Valid() && Agreed(s, d) && RoundRan(old(Look(s, d, w)), Look(s, d, w), s.durable, d, base, specs, r, blocks)
  {
    hide Moved, Progress, CallRan, RoundRan, PlansLive, RoundOk;
    blocks := [];
    ghost var a := Look(s, d, w);
    var round := Round(false, false, None, NoStop);
    NothingRun(a, d, base, specs);
    var i := 0;
    while i < |specs|
      invariant 0 <= i <= |specs| && |blocks| == i && s.Valid() && Agreed(s, d)
      invariant Progress(a, Look(s, d, w), d, base, specs, round, blocks)
    {
      ghost var b := Look(s, d, w);
      ProgressReady(a, b, d, base, specs, round, blocks);
      var end;
      ghost var block;
      end, block := RunCall(s, d, w, PlanAt(base, specs, i), round);
      ghost var c := Look(s, d, w);
      if end.Err? {
        RoundFailed(a, b, c, s.durable, d, base, specs, round, blocks, end, block);
        return Err(end.error), blocks + if block.Some? then [block.value] else [];
      }
      BlockThere(b, c, s.durable, d, PlanAt(base, specs, i), round, end, block);
      if end.value.Lost? {
        LostReady(a, b, c, s.durable, d, base, specs, round, blocks, end.value.stop, block.value);
        var released := ReleaseCalls(s, base, specs, i + 1);
        RoundLost(a, b, c, Look(s, d, w), s.durable, d, base, specs, round, blocks, end.value.stop, block.value, released);
        blocks := blocks + [block.value];
        return if released.Ok? then Ok(StepResolution(ErrorOutcome(ToolExecutor), end.value.stop)) else Err(released.error), blocks;
      }
      ProgressOn(a, b, c, s.durable, d, base, specs, round, blocks, end, block.value);
      round := end.value.round;
      blocks := blocks + [block.value];
      i := i + 1;
    }
    RoundEnded(a, Look(s, d, w), s.durable, d, base, specs, round, blocks);
    r := Ok(StepResolution(Outcome(round, d.now), round.latched));
  }

  lemma BlockThere(b: Snap, c: Snap, durable: bool, d: Driver, plan: Plan, round: Round,
                   r: Result<CallEnd, Failure>, block: Option<ToolBlock>)
    requires CallRan(b, c, durable, d, plan, round, r, block) && r.Ok?
    ensures block.Some?
  {
  }

  lemma LostReady(a: Snap, b: Snap, c: Snap, durable: bool, d: Driver, base: nat, specs: seq<CallSpec>, round: Round,
                  blocks: seq<ToolBlock>, stop: ToolStop, block: ToolBlock)
    requires Progress(a, b, d, base, specs, round, blocks) && |blocks| < |specs|
    requires CallRan(b, c, durable, d, PlanAt(base, specs, |blocks|), round, Ok(Lost(stop)), Some(block))
    ensures RoundEnd(base, specs) <= |c.st.slots| && PlansLive(c.st.slots, base, specs, |blocks| + 1)
  {
    StepSpends(b.st, c.st, base, specs, |blocks|, BlockEvents(block));
  }

  // ----- the whole round

  // Two claims for every call: its call event and its protected result.
  function CallFallbacks(specs: seq<CallSpec>, size: nat): (events: seq<Event>)
    ensures |events| == 2 * |specs|
    ensures forall k :: 0 <= k < |specs| ==>
      events[2 * k] == Event.ToolCall(specs[k].call) && events[2 * k + 1] == ToolResult(specs[k].call, BudgetFallback, size)
  {
    if |specs| == 0 then []
    else
      var last := |specs| - 1;
      CallFallbacks(specs[..last], size) + [Event.ToolCall(specs[last].call), ToolResult(specs[last].call, BudgetFallback, size)]
  }

  // All the claims of the round are live and protect what they should.
  ghost predicate RoundClaimed(before: State, after: State, message: Message, specs: seq<CallSpec>) {
    var base := |before.slots|;
    && OnlyMore(before, after)
    && |after.slots| == RoundEnd(base, specs)
    && after.slots[base].Live?
    && after.slots[base].fallback == AssistantMessage(message, CallsOf(specs))
    && PlansLive(after.slots, base, specs, 0)
  }

  // Only new claims were made: nothing was appended and no older claim changed.
  ghost predicate OnlyMore(before: State, after: State) {
    && after == before.(slots := after.slots)
    && |before.slots| <= |after.slots|
    && forall c :: 0 <= c < |before.slots| ==> after.slots[c] == before.slots[c]
  }

  lemma BatchClaimed(before: State, message: Message, specs: seq<CallSpec>, size: nat)
    ensures RoundClaimed(before, Claimed(before, [AssistantMessage(message, CallsOf(specs))] + CallFallbacks(specs, size)), message, specs)
  {
    hide CallFallbacks, CallsOf;
    var base := |before.slots|;
    var events := [AssistantMessage(message, CallsOf(specs))] + CallFallbacks(specs, size);
    var after := Claimed(before, events);
    assert after.slots[base] == LiveSlots(events)[0];
    forall k | 0 <= k < |specs|
      ensures PlanLive(after.slots, PlanAt(base, specs, k))
    {
      assert events[1 + 2 * k] == Event.ToolCall(specs[k].call);
      assert events[2 + 2 * k] == ToolResult(specs[k].call, BudgetFallback, size);
      assert after.slots[base + 1 + 2 * k] == LiveSlots(events)[1 + 2 * k];
      assert after.slots[base + 2 + 2 * k] == LiveSlots(events)[2 + 2 * k];
    }
  }

  // Give back every claim of a round that did not begin.
  method ReleaseRound(s: Session, base: nat, message: Message, specs: seq<CallSpec>, ghost before: State) returns (r: Result<Unit, Failure>)
    requires s.Valid() && base == |before.slots| && RoundClaimed(before, s.st, message, specs)
    modifies s
    ensures s.Valid() && s.marks == old(s.marks) && OnlyMore(before, s.st)
    ensures r.Ok? ==> SpentFrom(s.st.slots, base)
    ensures r.Err? ==> r.error.Fatal?
  {
    ghost var claimed := s.st;
    var _ :- s.Release(base);
    forall k | 0 <= k < |specs|
      ensures PlanLive(s.st.slots, PlanAt(base, specs, k))
    {
      assert PlanLive(claimed.slots, PlanAt(base, specs, k));
    }
    var _ :- ReleaseCalls(s, base, specs, 0);
    return Ok(Unit);
  }

  // Raise the ceilings of the owned actions, so that even a failure before the
  // start can be told (src/agent/mod.rs:2568-2599).
  method RaiseCeilings(s: Session, w: World, message: Message, specs: seq<CallSpec>, ghost before: State)
    returns (r: Result<Unit, Failure>)
    requires s.Valid() && RoundClaimed(before, s.st, message, specs)
    modifies s
    ensures s.Valid() && s.marks == MarksAfter(old(s.marks), r) && RoundClaimed(before, s.st, message, specs)
    ensures r.Err? ==> !IsLoopBug(r.error)
  {
    var base := |s.st.slots| - 1 - 2 * |specs|;
    var i := 0;
    while i < |specs|
      invariant 0 <= i <= |specs|
      invariant s.Valid() && s.marks == old(s.marks) && RoundClaimed(before, s.st, message, specs)
    {
      if !specs[i].profile.Standard? {
        ghost var claimed := s.st;
        var plan := PlanAt(base, specs, i);
        assert PlanLive(claimed.slots, plan);
        var ceiling := w.Number();
        var _ :- s.ReserveBytes(plan.resultClaim, ceiling);
        RaisedClaimed(before, claimed, message, specs, i, ceiling);
      }
      i := i + 1;
    }
    return Ok(Unit);
  }

  lemma RaisedClaimed(before: State, claimed: State, message: Message, specs: seq<CallSpec>, i: nat, bytes: nat)
    requires RoundClaimed(before, claimed, message, specs) && i < |specs|
    requires IsLive(claimed.slots, PlanAt(|before.slots|, specs, i).resultClaim)
    ensures RoundClaimed(before, Raised(claimed, PlanAt(|before.slots|, specs, i).resultClaim, bytes), message, specs)
  {
    var base := |before.slots|;
    var after := Raised(claimed, PlanAt(base, specs, i).resultClaim, bytes);
    forall k | 0 <= k < |specs|
      ensures PlanLive(after.slots, PlanAt(base, specs, k))
    {
      assert PlanLive(claimed.slots, PlanAt(base, specs, k));
    }
  }

  // Claim the whole round, or nothing: an outcome instead of a claim says that
  // there was no room.
  method ClaimRound(s: Session, d: Driver, w: World, message: Message, specs: seq<CallSpec>)
    returns (r: Result<Option<StepOutcome>, Failure>)
    requires s.Valid() && Agree(s, d)
    modifies s, d
    ensures s.Valid() && FlagsRise(old(d.now), d.now) && OnlyMore(old(s.st), s.st)
    ensures Agreed(s, d) || IsFatal(r)
    ensures r.Ok? && r.value.None? ==> RoundClaimed(old(s.st), s.st, message, specs) && d.now == old(d.now)
    ensures r.Ok? && r.value.Some? ==> OutcomeHolds(r.value.value, Look(s, d, w), d.limits, 0) && SpentFrom(s.st.slots, |old(s.st).slots|)
    ensures r.Err? ==> !IsLoopBug(r.error) && (r.error.Fatal? || SpentFrom(s.st.slots, |old(s.st).slots|))
  {
    hide PlansLive;
    ghost var before := s.st;
    var size := w.Number();
    var identified := w.Flip();
    if !identified {
      return Err(Failure.Rejected);
    }
    BatchClaimed(before, message, specs, size);
    var batch := s.ClaimBatch([AssistantMessage(message, CallsOf(specs))] + CallFallbacks(specs, size));
    if batch.Err? {
      r := NoRoomFor(d, batch.error);
      return;
    }
    var raised := RaiseCeilings(s, w, message, specs, before);
    if raised.Err? {
      var _ :- ReleaseRound(s, batch.value, message, specs, before);
      r := NoRoomFor(d, raised.error);
      return;
    }
    r := Ok(None);
  }

  // A ceiling becomes the outcome of the step, any other failure is returned.
  method NoRoomFor(d: Driver, error: Failure) returns (r: Result<Option<StepOutcome>, Failure>)
    modifies d
    ensures d.now == old(d.now).(durableLimit := old(d.now).durableLimit || error.DurableLimit?)
    ensures error.DurableLimit? ==> r == Ok(Some(ErrorOutcome(SessionLimit)))
    ensures error.MemoryBudget? ==> r == Ok(Some(ErrorOutcome(EventBudget)))
    ensures !IsBudget(error) ==> r == Err(error)
  {
    if !IsBudget(error) {
      return Err(error);
    }
    var code := d.FailureForBudget(error);
    r := Ok(Some(ErrorOutcome(code)));
  }

  // What a whole round leaves. The answer was not committed and every claim of the
  // round was given back, or it was refused and all of them are still live; or the log
  // grew by the answer and the blocks, the attempt is committed and retired, and the
  // world recorded the round. A round that fails leaves claims of its own live.
  ghost predicate RoundCommitted(a: Snap, b: Snap, durable: bool, d: Driver, message: Message, specs: seq<CallSpec>,
                                 r: Result<StepResolution, Failure>, end: AttemptEnd)
  {
    && (r.Err? ==> !IsLoopBug(r.error))
    && match end
       case Interrupted =>
         && NotAppended(a, b)
         && (r.Ok? ==> OutcomeHolds(r.value.outcome, b, d.limits, 0) && r.value.stop == NoStop)
         && (r.Ok? || !r.error.Fatal? ==> SpentFrom(b.st.slots, |a.st.slots|))
       case Withheld(m, calls) =>
         && m == message && calls == CallsOf(specs)
         && NotAppended(a, b)
         && r.Err?
         && Accounted(b.st.slots, |a.st.slots|, Some(AssistantMessage(message, CallsOf(specs))))
       case Answered(m, calls, blocks, stop, truncated) =>
         && m == message && calls == CallsOf(specs) && !truncated
         && Ran(a.st, b.st, [AssistantMessage(message, CallsOf(specs))] + BlocksEvents(blocks), {})
         && (b.st.attempts == Retired(a.st.attempts, Committed) || (r.Err? && r.error.Fatal?))
         && BlocksFor(blocks, specs, d)
         && AnswerTrue(end)
         && Recorded(a.env, b.env, RoundsOf(end))
         && RoundPaid(a.now, b.now, d.limits, AnyExceeds(DeedsOf(blocks)), AnswerCost(end))
         && (stop.None? ==> r.Err? && r.error.Fatal?)
         && (r.Ok? ==>
               && r.value.stop == stop.value
               && SpentFrom(b.st.slots, |a.st.slots|)
               && (BlocksComplete(CallsOf(specs), blocks) || LostInMemory(durable, blocks))
               && OutcomeOf(r.value, b.now, blocks))
         && (r.Err? && !r.error.Fatal? ==>
               Accounted(b.st.slots, |a.st.slots|, Some(AssistantMessage(message, CallsOf(specs)))))
       case _ => false
  }

  // Nothing but claims was made.
  ghost predicate NotAppended(a: Snap, b: Snap) {
    OnlyMore(a.st, b.st) && b.env == a.env && FlagsRise(a.now, b.now)
  }

  // The calls of the round were counted, and its result bytes paid for.
  predicate RoundPaid(a: Counters, b: Counters, limits: Limits, over: bool, cost: Cost) {
    Paid(a.(toolCalls := a.toolCalls + cost.calls), b, limits, over, cost.bytes)
  }

  // A round of declared calls (src/agent/mod.rs:2490-2946).
  method CommitToolRound(s: Session, d: Driver, w: World, message: Message, specs: seq<CallSpec>)
    returns (r: Result<StepResolution, Failure>, ghost end: AttemptEnd)
    requires s.Valid() && s.st.attempts.phase.Open? && Distinct(specs) && Agree(s, d)
    modifies s, d, w
    ensures s.Valid() && (Agreed(s, d) || IsFatal(r)) && RoundCommitted(old(Look(s, d, w)), Look(s, d, w), s.durable, d, message, specs, r, end)
  {
    hide RoundClaimed, RoundRan, RoundCommitted, AttemptClosing;
    end := Interrupted;
    ghost var a := Look(s, d, w);
    var claimed := ClaimRound(s, d, w, message, specs);
    ghost var b := Look(s, d, w);
    if claimed.Err? || claimed.value.Some? {
      r := if claimed.Err? then Err(claimed.error) else Ok(StepResolution(claimed.value.value, NoStop));
      NotCommitted(a, b, s.durable, d, message, specs, r);
      return;
    }
    var base := |s.st.slots| - 1 - 2 * |specs|;
    AssistantReady(a.st, b.st, message, specs);
    var closed;
    ghost var began;
    closed, began := CloseByClaim(s, d, Committed, base);
    ghost var c := Look(s, d, w);
    if closed.Err? {
      r := Err(closed.error);
      end := if began then Answered(message, CallsOf(specs), [], None, false) else Withheld(message, CallsOf(specs));
      NotClosed(a, b, c, s.durable, d, message, specs, closed, began, end);
      return;
    }
    d.now := d.now.(toolCalls := d.now.toolCalls + |specs|);
    w.StartRound();
    ghost var e := Look(s, d, w);
    CallsReady(a.st, b.st, c.st, message, specs, closed, began);
    ghost var blocks;
    r, blocks := RunCalls(s, d, w, base, specs);
    ghost var f := Look(s, d, w);
    w.EndRound();
    end := Answered(message, CallsOf(specs), blocks, Some(f.env.firstStop), false);
    Committing(a, b, c, e, f, Look(s, d, w), s.durable, d, message, specs, closed, began, r, blocks, end);
  }

  lemma NotCommitted(a: Snap, b: Snap, durable: bool, d: Driver, message: Message, specs: seq<CallSpec>, r: Result<StepResolution, Failure>)
    requires NotAppended(a, b)
    requires r.Ok? ==> OutcomeHolds(r.value.outcome, b, d.limits, 0) && r.value.stop == NoStop && SpentFrom(b.st.slots, |a.st.slots|)
    requires r.Err? ==> !IsLoopBug(r.error) && (r.error.Fatal? || SpentFrom(b.st.slots, |a.st.slots|))
    ensures RoundCommitted(a, b, durable, d, message, specs, r, Interrupted)
  {
  }

  lemma AssistantReady(a: State, b: State, message: Message, specs: seq<CallSpec>)
    requires RoundClaimed(a, b, message, specs)
    ensures |b.slots| == RoundEnd(|a.slots|, specs)
    ensures IsLive(b.slots, |a.slots|) && b.slots[|a.slots|].fallback == AssistantMessage(message, CallsOf(specs))
  {
  }

  lemma NotClosed(a: Snap, b: Snap, c: Snap, durable: bool, d: Driver, message: Message, specs: seq<CallSpec>,
                  closed: Result<bool, Failure>, began: bool, end: AttemptEnd)
    requires RoundClaimed(a.st, b.st, message, specs) && b.env == a.env && b.now == a.now
    requires AttemptClosing(b.st, c.st, AssistantMessage(message, CallsOf(specs)), Committed, {|a.st.slots|}, closed, began) && closed.Err?
    requires c.env == b.env && FlagsRise(b.now, c.now)
    requires end == if began then Answered(message, CallsOf(specs), [], None, false) else Withheld(message, CallsOf(specs))
    requires Distinct(specs)
    ensures RoundCommitted(a, c, durable, d, message, specs, Err(closed.error), end)
  {
    if began {
      assert [AssistantMessage(message, CallsOf(specs))] + [] == [AssistantMessage(message, CallsOf(specs))];
      assert StopsHold([]);
      NothingRecorded(a.env, c.env);
    } else {
      assert LeftAt(c.st.slots, |a.st.slots|, |a.st.slots|, AssistantMessage(message, CallsOf(specs)));
    }
  }

  lemma CallsReady(a: State, b: State, c: State, message: Message, specs: seq<CallSpec>, closed: Result<bool, Failure>, began: bool)
    requires RoundClaimed(a, b, message, specs)
    requires AttemptClosing(b, c, AssistantMessage(message, CallsOf(specs)), Committed, {|a.slots|}, closed, began) && closed.Ok?
    ensures c.attempts.phase.NoAttempt? && |c.slots| == RoundEnd(|a.slots|, specs)
    ensures PlansLive(c.slots, |a.slots|, specs, 0)
    ensures c.attempts == Retired(a.attempts, Committed)
    ensures c.slots[|a.slots|] == Settled(AssistantMessage(message, CallsOf(specs)))
    ensures Ran(a, c, [AssistantMessage(message, CallsOf(specs))], {})
  {
    forall k | 0 <= k < |specs|
      ensures PlanLive(c.slots, PlanAt(|a.slots|, specs, k))
    {
      assert PlanLive(b.slots, PlanAt(|a.slots|, specs, k));
    }
  }

  lemma Committing(a: Snap, b: Snap, c: Snap, e: Snap, f: Snap, g: Snap, durable: bool, d: Driver, message: Message, specs: seq<CallSpec>,
                   closed: Result<bool, Failure>, began: bool, r: Result<StepResolution, Failure>, blocks: seq<ToolBlock>, end: AttemptEnd)
    requires RoundClaimed(a.st, b.st, message, specs) && b.env == a.env && b.now == a.now
    requires AttemptClosing(b.st, c.st, AssistantMessage(message, CallsOf(specs)), Committed, {|a.st.slots|}, closed, began) && closed.Ok?
    requires c.env == b.env && FlagsRise(b.now, c.now)
    requires e == c.(env := c.env.(firstStop := NoStop, prepared := [], late := [], losses := [], replies := [], deeds := []),
                     now := c.now.(toolCalls := c.now.toolCalls + |specs|))
    requires RoundRan(e, f, durable, d, |a.st.slots|, specs, r, blocks)
    requires g == f.(env := f.env.(rounds := f.env.rounds + [RecordOf(f.env)]))
    requires Distinct(specs)
    requires end == Answered(message, CallsOf(specs), blocks, Some(f.env.firstStop), false)
    ensures RoundCommitted(a, g, durable, d, message, specs, r, end)
  {
    hide BlockTrue, BlocksComplete, LostInMemory, OutcomeOf, StopsHold, BlocksBegun, RoundClaimed, AttemptClosing, Moved, Ran, AnyExceeds, PreparedOf, DeedsOf, LossesOf, RepliesOf, BlocksBytes;
    CallsReady(a.st, b.st, c.st, message, specs, closed, began);
    CommittedRan(a.st, c.st, f.st, message, specs, blocks);
    if r.Err? && !r.error.Fatal? {
      CommittedLeft(a.st, c.st, f.st, message, specs, blocks);
    }
  }

  lemma CommittedRan(a: State, c: State, f: State, message: Message, specs: seq<CallSpec>, blocks: seq<ToolBlock>)
    requires Ran(a, c, [AssistantMessage(message, CallsOf(specs))], {})
    requires Moved(c, f, BlocksEvents(blocks), RoundClaims(|a.slots|, specs))
    requires |a.slots| < |c.slots| && !c.slots[|a.slots|].Live?
    ensures Ran(a, f, [AssistantMessage(message, CallsOf(specs))] + BlocksEvents(blocks), {}) && f.attempts == c.attempts
    ensures SpentFrom(f.slots, |a.slots| + 1) ==> SpentFrom(f.slots, |a.slots|)
  {
    RanOn(a, c, f, [AssistantMessage(message, CallsOf(specs))], BlocksEvents(blocks), {}, RoundClaims(|a.slots|, specs));
  }

  lemma CommittedLeft(a: State, c: State, f: State, message: Message, specs: seq<CallSpec>, blocks: seq<ToolBlock>)
    requires Moved(c, f, BlocksEvents(blocks), RoundClaims(|a.slots|, specs))
    requires |a.slots| < |c.slots| && c.slots[|a.slots|] == Settled(AssistantMessage(message, CallsOf(specs)))
    requires !SpentFrom(f.slots, |a.slots| + 1)
    ensures Accounted(f.slots, |a.slots|, Some(AssistantMessage(message, CallsOf(specs))))
  {
    assert LeftAt(f.slots, |a.slots|, |a.slots|, AssistantMessage(message, CallsOf(specs)));
  }
}
