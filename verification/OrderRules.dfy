// The order rules of a session log, as an automaton that reads one event after the
// other, without any knowledge of the loop (src/session/projection.rs:1118-2895,
// where a projection refuses events in the wrong place). The log of every closed
// turn is accepted.
module OrderRules {
  import opened Common
  import opened SessionLog
  import opened LogGrammar

  datatype OpenCall =
    | NoCall
    | Called(call: Id)
    | Asking(call: Id, id: Id)
    | Heard(call: Id)

  // What a step is doing: talking to the provider, or working through the calls of
  // its one answer.
  datatype StepWork =
    | Talking(chains: map<nat, RetryChain>, scheduled: Option<RetryChain>)
    | Calling(calls: seq<Id>, resolved: nat, open: OpenCall)

  datatype Bracket =
    | NoBracket
    | Marked(target: nat)
    | Started(id: Id)
    | Summarised(id: Id)
    | Replaced(id: Id)

  datatype Place =
    | Idle(nextTurn: nat)
    | InTurn(turn: nat, nextStep: nat, bracket: Bracket)
    | InStep(turn: nat, step: nat, work: StepWork)

  // Where an event leads, if it may stand there at all.
  function Read(p: Place, e: Event): Option<Place> {
    match p
    case Idle(next) =>
      if e.TurnStart? && e.turn == next then Some(InTurn(next, 1, NoBracket)) else None
    case InTurn(turn, next, bracket) => ReadBetween(turn, next, bracket, e)
    case InStep(turn, step, Talking(chains, scheduled)) => ReadTalk(turn, step, chains, scheduled, e)
    case InStep(turn, step, Calling(calls, resolved, open)) => ReadCall(turn, step, calls, resolved, open, e)
  }

  // Between steps: prune pairs and compaction brackets. A prune marker may stand alone.
  function ReadBetween(turn: nat, next: nat, bracket: Bracket, e: Event): Option<Place> {
    match bracket
    case Started(id) =>
      if e == CompactionSummary(id) then Some(InTurn(turn, next, Summarised(id)))
      else if e == CompactionEnd(id, true) then Some(InTurn(turn, next, NoBracket)) else None
    case Summarised(id) =>
      if e.Checkpoint? && e.id == id then Some(InTurn(turn, next, Replaced(id)))
      else if e == CompactionEnd(id, true) then Some(InTurn(turn, next, NoBracket)) else None
    case Replaced(id) =>
      if e.CompactionEnd? && e.id == id then Some(InTurn(turn, next, NoBracket)) else None
    case _ =>
      if e.TurnEnd? && e.turn == turn then Some(Idle(turn + 1))
      else if e == StepStart(turn, next) then Some(InStep(turn, next, Talking(map[], None)))
      else if e.PruneMarker? then Some(InTurn(turn, next, Marked(e.target)))
      else if e.PrunedResult? && bracket == Marked(e.target) then Some(InTurn(turn, next, NoBracket))
      else if e.CompactionStart? then Some(InTurn(turn, next, Started(e.id)))
      else None
  }

  // Before the answer of a step. A retry continues its chain under one identifier, and
  // only a scheduled retry is started, once.
  function ReadTalk(turn: nat, step: nat, chains: map<nat, RetryChain>, scheduled: Option<RetryChain>, e: Event): Option<Place> {
    if e.UserMessage? || IsNote(e) || e.AssistantChunk? then Some(InStep(turn, step, Talking(chains, scheduled)))
    else if e.LlmRetry? && scheduled.None? && NextInChain(chains, Retried(e.key, e.retryId, e.number, Unseen)) then
      Some(InStep(turn, step, Talking(chains[e.key := RetryChain(e.retryId, e.number)], Some(RetryChain(e.retryId, e.number)))))
    else if e.LlmRetryStarted? && scheduled == Some(RetryChain(e.retryId, e.number)) then
      Some(InStep(turn, step, Talking(chains, None)))
    else if e.AssistantMessage? then Some(InStep(turn, step, Calling(e.calls, 0, NoCall)))
    else if e == StepEnd(turn, step) then Some(InTurn(turn, step + 1, NoBracket))
    else None
  }

  // After the answer: every declared call in order, a question and its decision
  // before its result, and the step ends only after the last result.
  function ReadCall(turn: nat, step: nat, calls: seq<Id>, resolved: nat, open: OpenCall, e: Event): Option<Place> {
    match open
    case NoCall =>
      if resolved < |calls| then
        if e == ToolCall(calls[resolved]) then Some(InStep(turn, step, Calling(calls, resolved, Called(calls[resolved])))) else None
      else if e == StepEnd(turn, step) then Some(InTurn(turn, step + 1, NoBracket)) else None
    case Called(call) =>
      if e.ApprovalAsked? && e.call == call then Some(InStep(turn, step, Calling(calls, resolved, Asking(call, e.id))))
      else if e.ToolResult? && e.call == call then Some(InStep(turn, step, Calling(calls, resolved + 1, NoCall))) else None
    case Asking(call, id) =>
      if e.ApprovalDecided? && e.id == id then Some(InStep(turn, step, Calling(calls, resolved, Heard(call)))) else None
    case Heard(call) =>
      if e.ToolResult? && e.call == call then Some(InStep(turn, step, Calling(calls, resolved + 1, NoCall))) else None
  }

  function ReadAll(p: Place, xs: seq<Event>): Option<Place> {
    if |xs| == 0 then Some(p)
    else
      var q := ReadAll(p, xs[..|xs| - 1]);
      if q.None? then None else Read(q.value, xs[|xs| - 1])
  }

  // The whole sequence is read, from one place to another.
  predicate Reads(p: Place, xs: seq<Event>, q: Place) {
    ReadAll(p, xs) == Some(q)
  }

  lemma {:induction false} ReadsOn(p: Place, xs: seq<Event>, q: Place, ys: seq<Event>, r: Place)
    requires Reads(p, xs, q) && Reads(q, ys, r)
    ensures Reads(p, xs + ys, r)
  {
    ReadAllConcat(p, xs, ys);
  }

  lemma {:induction false} ReadAllConcat(p: Place, xs: seq<Event>, ys: seq<Event>)
    requires ReadAll(p, xs).Some?
    ensures ReadAll(p, xs + ys) == ReadAll(ReadAll(p, xs).value, ys)
  {
    if |ys| == 0 {
      assert xs + ys == xs;
    } else {
      assert (xs + ys)[..|xs + ys| - 1] == xs + ys[..|ys| - 1];
      ReadAllConcat(p, xs, ys[..|ys| - 1]);
    }
  }

  lemma ReadsOne(p: Place, e: Event, q: Place)
    requires Read(p, e) == Some(q)
    ensures Reads(p, [e], q)
  {
    assert [e][..0] == [];
  }

  // A run of events that change nothing.
  lemma {:induction false} ReadsStill(p: Place, xs: seq<Event>)
    requires forall i :: 0 <= i < |xs| ==> Read(p, xs[i]) == Some(p)
    ensures Reads(p, xs, p)
  {
    if |xs| > 0 {
      ReadsStill(p, xs[..|xs| - 1]);
    }
  }

  // ----- the log of every closed turn is accepted

  lemma ReadsBlock(turn: nat, step: nat, calls: seq<Id>, i: nat, b: ToolBlock)
    requires i < |calls| && b.call == calls[i] && BlockDone(b)
    ensures Reads(InStep(turn, step, Calling(calls, i, NoCall)), BlockEvents(b), InStep(turn, step, Calling(calls, i + 1, NoCall)))
  {
    var start, end := InStep(turn, step, Calling(calls, i, NoCall)), InStep(turn, step, Calling(calls, i + 1, NoCall));
    var called := InStep(turn, step, Calling(calls, i, Called(b.call)));
    var result := ToolResult(b.call, b.result.value.body, b.result.value.size);
    ReadsOne(start, ToolCall(b.call), called);
    if b.approval.NotAsked? {
      ReadsOne(called, result, end);
      ReadsOn(start, [ToolCall(b.call)], called, [result], end);
      assert BlockEvents(b) == [ToolCall(b.call)] + [result];
    } else {
      var asking, heard := InStep(turn, step, Calling(calls, i, Asking(b.call, b.approval.id))),
                           InStep(turn, step, Calling(calls, i, Heard(b.call)));
      var asked, decided := ApprovalAsked(b.approval.id, b.call), ApprovalDecided(b.approval.id, b.approval.outcome);
      ReadsOne(called, asked, asking);
      ReadsOne(asking, decided, heard);
      ReadsOne(heard, result, end);
      ReadsOn(start, [ToolCall(b.call)], called, [asked], asking);
      ReadsOn(start, [ToolCall(b.call)] + [asked], asking, [decided], heard);
      ReadsOn(start, [ToolCall(b.call)] + [asked] + [decided], heard, [result], end);
      assert BlockEvents(b) == [ToolCall(b.call)] + [asked] + [decided] + [result];
    }
  }

  lemma {:induction false} ReadsBlocks(turn: nat, step: nat, calls: seq<Id>, blocks: seq<ToolBlock>)
    requires BlocksBegun(calls, blocks) && forall i :: 0 <= i < |blocks| ==> BlockDone(blocks[i])
    ensures Reads(InStep(turn, step, Calling(calls, 0, NoCall)), BlocksEvents(blocks),
                  InStep(turn, step, Calling(calls, |blocks|, NoCall)))
  {
    if |blocks| > 0 {
      var last := |blocks| - 1;
      ReadsBlocks(turn, step, calls, blocks[..last]);
      ReadsBlock(turn, step, calls, last, blocks[last]);
      ReadsOn(InStep(turn, step, Calling(calls, 0, NoCall)), BlocksEvents(blocks[..last]),
              InStep(turn, step, Calling(calls, last, NoCall)), BlockEvents(blocks[last]),
              InStep(turn, step, Calling(calls, |blocks|, NoCall)));
    }
  }

  // Where an attempt leads when the step before it was only talking.
  function AfterAttempt(turn: nat, step: nat, chains: map<nat, RetryChain>, end: AttemptEnd): Place {
    match end
    case Retried(key, id, number, fate) =>
      InStep(turn, step, Talking(chains[key := RetryChain(id, number)], if fate.Resumed? then None else Some(RetryChain(id, number))))
    case Answered(_, calls, blocks, _, _) => InStep(turn, step, Calling(calls, |blocks|, NoCall))
    case _ => InStep(turn, step, Talking(chains, None))
  }

  lemma ReadsEnd(turn: nat, step: nat, chains: map<nat, RetryChain>, end: AttemptEnd)
    requires NextInChain(chains, end)
    requires end.Answered? ==> BlocksComplete(end.calls, end.blocks)
    ensures Reads(InStep(turn, step, Talking(chains, None)), EndEvents(end), AfterAttempt(turn, step, chains, end))
  {
    var start := InStep(turn, step, Talking(chains, None));
    match end {
      case Barred => ReadsStill(start, []);
      case Unsent(_) => ReadsStill(start, []);
      case Interrupted => ReadsStill(start, []);
      case Withheld(_, _) => ReadsStill(start, []);
      case Retried(key, id, number, fate) =>
        var scheduled := AfterAttempt(turn, step, chains, Retried(key, id, number, Waited));
        ReadsOne(start, LlmRetry(key, id, number), scheduled);
        if fate.Resumed? {
          ReadsOne(scheduled, LlmRetryStarted(id, number), AfterAttempt(turn, step, chains, end));
          ReadsOn(start, [LlmRetry(key, id, number)], scheduled, [LlmRetryStarted(id, number)], AfterAttempt(turn, step, chains, end));
        } else {
          assert EndEvents(end) == [LlmRetry(key, id, number)];
        }
      case Answered(message, calls, blocks, _, _) =>
        var calling := InStep(turn, step, Calling(calls, 0, NoCall));
        ReadsOne(start, AssistantMessage(message, calls), calling);
        ReadsBlocks(turn, step, calls, blocks);
        ReadsOn(start, [AssistantMessage(message, calls)], calling, BlocksEvents(blocks), AfterAttempt(turn, step, chains, end));
    }
  }

  lemma ReadsAttempt(turn: nat, step: nat, chains: map<nat, RetryChain>, t: AttemptTrace)
    requires AttemptTrue(t) && NextInChain(chains, t.end)
    requires t.end.Answered? ==> BlocksComplete(t.end.calls, t.end.blocks)
    ensures Reads(InStep(turn, step, Talking(chains, None)), AttemptEvents(t), AfterAttempt(turn, step, chains, t.end))
  {
    var start := InStep(turn, step, Talking(chains, None));
    ReadsStill(start, t.notes + Chunks(t.chunks));
    ReadsEnd(turn, step, chains, t.end);
    ReadsOn(start, t.notes + Chunks(t.chunks), start, EndEvents(t.end), AfterAttempt(turn, step, chains, t.end));
  }

  // Where the attempts of a step lead.
  function AfterAttempts(turn: nat, step: nat, xs: seq<AttemptTrace>): Place {
    if |xs| == 0 then InStep(turn, step, Talking(map[], None))
    else AfterAttempt(turn, step, ChainsAfter(xs[..|xs| - 1]), xs[|xs| - 1].end)
  }

  lemma {:induction false} ReadsAttempts(turn: nat, step: nat, xs: seq<AttemptTrace>)
    requires AttemptsClosed(true, xs)
    ensures Reads(InStep(turn, step, Talking(map[], None)), AttemptsEvents(xs), AfterAttempts(turn, step, xs))
  {
    var start := InStep(turn, step, Talking(map[], None));
    if |xs| == 0 {
      ReadsStill(start, []);
    } else {
      var last := |xs| - 1;
      var before := xs[..last];
      PrefixClosed(xs);
      ReadsAttempts(turn, step, before);
      assert last > 0 ==> Continued(xs[last - 1]);
      assert AfterAttempts(turn, step, before) == InStep(turn, step, Talking(ChainsAfter(before), None));
      assert AttemptTrue(xs[last]) && NextInChain(ChainsAfter(before), xs[last].end);
      ReadsAttempt(turn, step, ChainsAfter(before), xs[last]);
      ReadsOn(start, AttemptsEvents(before), AfterAttempts(turn, step, before), AttemptEvents(xs[last]), AfterAttempts(turn, step, xs));
    }
  }

  lemma PrefixClosed(xs: seq<AttemptTrace>)
    requires AttemptsClosed(true, xs) && |xs| > 0
    ensures AttemptsClosed(true, xs[..|xs| - 1])
  {
    var before := xs[..|xs| - 1];
    forall i | 0 <= i < |before|
      ensures NextInChain(ChainsAfter(before[..i]), before[i].end)
    {
      assert before[..i] == xs[..i];
    }
  }

  // A place between steps where nothing is owed: a marker that was cut short may
  // still be remembered.
  predicate IsFree(b: Bracket) {
    b.NoBracket? || b.Marked?
  }

  lemma ReadsStep(t: StepTrace, b: Bracket)
    requires AttemptsClosed(true, t.attempts) && IsFree(b)
    ensures Reads(InTurn(t.turn, t.step, b), StepEvents(t), InTurn(t.turn, t.step + 1, NoBracket))
  {
    hide AttemptsClosed, AttemptsEvents, AfterAttempts, Reads;
    var start := InTurn(t.turn, t.step, b);
    var talking := InStep(t.turn, t.step, Talking(map[], None));
    var done := AfterAttempts(t.turn, t.step, t.attempts);
    var end := InTurn(t.turn, t.step + 1, NoBracket);
    var head := [StepStart(t.turn, t.step)];
    ReadsOne(start, StepStart(t.turn, t.step), talking);
    ReadsStill(talking, InputEvents(t.inputs));
    ReadsAttempts(t.turn, t.step, t.attempts);
    StepMayEnd(t);
    ReadsOne(done, StepEnd(t.turn, t.step), end);
    ReadsOn(start, head, talking, InputEvents(t.inputs), talking);
    ReadsOn(start, head + InputEvents(t.inputs), talking, AttemptsEvents(t.attempts), done);
    ReadsOn(start, head + InputEvents(t.inputs) + AttemptsEvents(t.attempts), done, [StepEnd(t.turn, t.step)], end);
  }

  lemma StepMayEnd(t: StepTrace)
    requires AttemptsClosed(true, t.attempts)
    ensures Read(AfterAttempts(t.turn, t.step, t.attempts), StepEnd(t.turn, t.step)) == Some(InTurn(t.turn, t.step + 1, NoBracket))
  {
  }

  // A summary that was only drafted is not in the log.
  function AfterPre(b: Bracket, p: PreTrace): Bracket {
    match p
    case Drafted => b
    case PruneCutShort(target) => Marked(target)
    case _ => NoBracket
  }

  lemma ReadsPre(turn: nat, next: nat, b: Bracket, p: PreTrace)
    requires PreClosed(p) && IsFree(b)
    ensures Reads(InTurn(turn, next, b), PreEvents(p), InTurn(turn, next, AfterPre(b, p)))
  {
    var start, end := InTurn(turn, next, b), InTurn(turn, next, AfterPre(b, p));
    match p {
      case Drafted => ReadsStill(start, []);
      case PruneCutShort(target) =>
        ReadsOne(start, PruneMarker(target), end);
      case Pruned(target, m) =>
        var marked := InTurn(turn, next, Marked(target));
        ReadsOne(start, PruneMarker(target), marked);
        ReadsOne(marked, PrunedResult(target, m), end);
        ReadsOn(start, [PruneMarker(target)], marked, [PrunedResult(target, m)], end);
      case Bracket(id, summarised, checkpoint, failed, tokens) =>
        ReadsBracket(turn, next, b, id, summarised, checkpoint, failed, tokens);
    }
  }

  lemma ReadsBracket(turn: nat, next: nat, b: Bracket, id: Id, summarised: bool, checkpoint: Option<CheckpointTrace>, failed: bool,
                     tokens: nat)
    requires IsFree(b) && PreClosed(PreTrace.Bracket(id, summarised, checkpoint, failed, tokens))
    ensures Reads(InTurn(turn, next, b), PreEvents(PreTrace.Bracket(id, summarised, checkpoint, failed, tokens)), InTurn(turn, next, NoBracket))
  {
    hide Reads;
    var start, end := InTurn(turn, next, b), InTurn(turn, next, NoBracket);
    var started, middle := InTurn(turn, next, Started(id)), InTurn(turn, next, Summarised(id));
    var xs := [CompactionStart(id)];
    ReadsOne(start, CompactionStart(id), started);
    var place := started;
    if summarised {
      ReadsOne(started, CompactionSummary(id), middle);
      ReadsOn(start, xs, started, [CompactionSummary(id)], middle);
      xs, place := xs + [CompactionSummary(id)], middle;
    }
    if checkpoint.Some? {
      var e := Checkpoint(id, checkpoint.value.end, checkpoint.value.message);
      ReadsOne(middle, e, InTurn(turn, next, Replaced(id)));
      ReadsOn(start, xs, middle, [e], InTurn(turn, next, Replaced(id)));
      xs, place := xs + [e], InTurn(turn, next, Replaced(id));
    }
    ReadsOne(place, CompactionEnd(id, failed), end);
    ReadsOn(start, xs, place, [CompactionEnd(id, failed)], end);
    assert PreEvents(PreTrace.Bracket(id, summarised, checkpoint, failed, tokens)) == xs + [CompactionEnd(id, failed)];
  }

  // Where the segments of a turn lead.
  function AfterSegments(turn: nat, xs: seq<Segment>): Place {
    InTurn(turn, StepsIn(xs) + 1, BracketAfter(xs))
  }

  function AfterSegment(b: Bracket, s: Segment): Bracket {
    if s.Pre? then AfterPre(b, s.pre) else NoBracket
  }

  function BracketAfter(xs: seq<Segment>): Bracket {
    if |xs| == 0 then NoBracket else AfterSegment(BracketAfter(xs[..|xs| - 1]), xs[|xs| - 1])
  }

  lemma {:induction false} ReadsSegments(turn: nat, xs: seq<Segment>)
    requires SegmentsClosed(true, turn, xs, 0)
    ensures Reads(InTurn(turn, 1, NoBracket), SegmentsEvents(xs), AfterSegments(turn, xs))
  {
    hide SegmentsClosed, Reads, SegmentClosed, SegmentsEvents;
    var start := InTurn(turn, 1, NoBracket);
    if |xs| == 0 {
      ReadsStill(start, []);
      NoSegments();
    } else {
      hide AfterSegments, SegmentEvents, StepsIn;
      var last := |xs| - 1;
      LastSegment(turn, xs);
      ReadsSegments(turn, xs[..last]);
      ReadsSegment(turn, xs[..last], xs[last]);
      assert xs[..last] + [xs[last]] == xs;
      SegmentsOne(xs[..last], xs[last]);
      ReadsOn(start, SegmentsEvents(xs[..last]), AfterSegments(turn, xs[..last]), SegmentEvents(xs[last]), AfterSegments(turn, xs));
    }
  }

  lemma NoSegments()
    ensures SegmentsEvents([]) == []
  {
  }

  lemma LastSegment(turn: nat, xs: seq<Segment>)
    requires SegmentsClosed(true, turn, xs, 0) && |xs| > 0
    ensures SegmentsClosed(true, turn, xs[..|xs| - 1], 0)
    ensures SegmentClosed(true, turn, xs[|xs| - 1])
    ensures xs[|xs| - 1].Step? ==> xs[|xs| - 1].step.step == StepsIn(xs[..|xs| - 1]) + 1
  {
    var before := xs[..|xs| - 1];
    forall i | 0 <= i < |before|
      ensures SegmentClosed(true, turn, before[i]) && (before[i].Step? ==> before[i].step.step == StepsIn(before[..i]) + 1)
    {
      assert before[..i] == xs[..i];
    }
  }

  lemma {:induction false} FreeAfter(xs: seq<Segment>)
    ensures IsFree(BracketAfter(xs))
  {
    if |xs| > 0 {
      FreeAfter(xs[..|xs| - 1]);
    }
  }

  lemma AfterOneMore(turn: nat, before: seq<Segment>, s: Segment)
    ensures AfterSegments(turn, before + [s]) ==
      InTurn(turn, StepsIn(before) + (if s.Step? then 2 else 1), AfterSegment(BracketAfter(before), s))
  {
    hide AfterSegment;
    assert (before + [s])[..|before|] == before;
  }

  lemma ReadsSegment(turn: nat, before: seq<Segment>, s: Segment)
    requires SegmentClosed(true, turn, s) && (s.Step? ==> s.step.step == StepsIn(before) + 1)
    ensures Reads(AfterSegments(turn, before), SegmentEvents(s), AfterSegments(turn, before + [s]))
  {
    hide Reads, AttemptsClosed, PreClosed, StepEvents, PreEvents, AfterPre, StepsIn, BracketAfter;
    var place := AfterSegments(turn, before);
    FreeAfter(before);
    AfterOneMore(turn, before, s);
    if s.Step? {
      ReadsStep(s.step, place.bracket);
    } else {
      ReadsPre(turn, place.nextStep, place.bracket, s.pre);
    }
  }

  // A closed turn takes an idle log to an idle log.
  lemma ReadsTurn(t: TurnTrace)
    requires TurnClosed(true, t)
    ensures Reads(Idle(t.turn), TurnEvents(t), Idle(t.turn + 1))
  {
    var begun, done := InTurn(t.turn, 1, NoBracket), AfterSegments(t.turn, t.segments);
    FreeAfter(t.segments);
    ReadsOne(Idle(t.turn), TurnStart(t.turn), begun);
    ReadsSegments(t.turn, t.segments);
    ReadsOne(done, TurnEnd(t.turn, t.reason), Idle(t.turn + 1));
    ReadsOn(Idle(t.turn), [TurnStart(t.turn)], begun, SegmentsEvents(t.segments), done);
    ReadsOn(Idle(t.turn), [TurnStart(t.turn)] + SegmentsEvents(t.segments), done, [TurnEnd(t.turn, t.reason)], Idle(t.turn + 1));
  }
}
