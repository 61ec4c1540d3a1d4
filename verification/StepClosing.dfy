// Why a closed step is complete: the session keeps track of open approvals and
// missing results event by event, refuses to close a step over them, and so every
// log in which the step was closed has the shape of complete blocks.
module StepClosing {
  import opened Common
  import opened SessionLog
  import opened SessionModel
  import opened LogGrammar

  function Results(blocks: seq<ToolBlock>): nat {
    if |blocks| == 0 then 0 else Results(blocks[..|blocks| - 1]) + if blocks[|blocks| - 1].result.Some? then 1 else 0
  }

  // One more event.
  lemma AfterOne(o: OpenWork, xs: seq<Event>, e: Event)
    ensures OpenAfter(o, xs + [e]) == NextOpen(OpenAfter(o, xs), e)
  {
    assert (xs + [e])[..|xs + [e]| - 1] == xs;
  }

  // Nothing opens or closes work but the events named here.
  predicate IsQuiet(e: Event) {
    !e.AssistantMessage? && !e.ToolResult? && !e.ApprovalAsked? && !e.ApprovalDecided? && !e.StepEnd?
  }

  lemma {:induction false} QuietKeeps(o: OpenWork, xs: seq<Event>)
    requires forall i :: 0 <= i < |xs| ==> IsQuiet(xs[i])
    ensures OpenAfter(o, xs) == o
  {
    if |xs| > 0 {
      QuietKeeps(o, xs[..|xs| - 1]);
    }
  }

  function Less(n: nat, k: nat): nat {
    if k <= n then n - k else 0
  }

  lemma ApprovalOpens(o: OpenWork, call: Id, a: ApprovalTrace)
    requires !o.pending
    ensures OpenAfter(o, ApprovalEvents(call, a)) == o.(pending := a.Unanswered?)
  {
    match a {
      case NotAsked =>
      case Unanswered(id, _) =>
        AfterOne(o, [], ApprovalAsked(id, call));
        assert [] + [ApprovalAsked(id, call)] == ApprovalEvents(call, a);
      case Decided(id, outcome, _) =>
        AfterOne(o, [], ApprovalAsked(id, call));
        assert [] + [ApprovalAsked(id, call)] == [ApprovalAsked(id, call)];
        AfterOne(o, [ApprovalAsked(id, call)], ApprovalDecided(id, outcome));
        assert [ApprovalAsked(id, call)] + [ApprovalDecided(id, outcome)] == ApprovalEvents(call, a);
    }
  }

  lemma ResultOpens(o: OpenWork, call: Id, r: Option<ResultTrace>)
    ensures OpenAfter(o, ResultEvents(call, r)) == o.(unresolved := Less(o.unresolved, if r.Some? then 1 else 0))
  {
    if r.Some? {
      AfterOne(o, [], ToolResult(call, r.value.body, r.value.size));
      assert [] + [ToolResult(call, r.value.body, r.value.size)] == ResultEvents(call, r);
    }
  }

  // One block: a question that was not answered stays pending, a result counts.
  lemma BlockOpens(o: OpenWork, b: ToolBlock)
    requires !o.pending
    ensures OpenAfter(o, BlockEvents(b)) ==
      OpenWork(b.approval.Unanswered?, Less(o.unresolved, if b.result.Some? then 1 else 0), o.abandoned)
  {
    var head := [ToolCall(b.call)];
    var asked := ApprovalEvents(b.call, b.approval);
    QuietKeeps(o, head);
    ApprovalOpens(o, b.call, b.approval);
    ResultOpens(o.(pending := b.approval.Unanswered?), b.call, b.result);
    AfterConcat(o, Surface([], 0), head, asked);
    AfterConcat(o, Surface([], 0), head + asked, ResultEvents(b.call, b.result));
  }

  lemma {:induction false} BlocksOpen(o: OpenWork, calls: seq<Id>, blocks: seq<ToolBlock>)
    requires BlocksBegun(calls, blocks) && !o.pending && o.unresolved == |calls|
    ensures OpenAfter(o, BlocksEvents(blocks)) ==
      OpenWork(|blocks| > 0 && blocks[|blocks| - 1].approval.Unanswered?, Less(|calls|, Results(blocks)), o.abandoned)
    ensures Results(blocks) <= |blocks|
    ensures Results(blocks) == |blocks| <==> forall i :: 0 <= i < |blocks| ==> blocks[i].result.Some?
  {
    hide BlockEvents, NextOpen;
    if |blocks| > 0 {
      var last := |blocks| - 1;
      BlocksOpen(o, calls, blocks[..last]);
      AfterConcat(o, Surface([], 0), BlocksEvents(blocks[..last]), BlockEvents(blocks[last]));
      BlockOpens(OpenAfter(o, BlocksEvents(blocks[..last])), blocks[last]);
    }
  }

  // The work of an answer as it is declared.
  function Undertaken(o: OpenWork, calls: seq<Id>): OpenWork {
    o.(unresolved := |calls|)
  }

  // A round over which the step may be closed is closed itself.
  lemma RoundCloses(durable: bool, o: OpenWork, calls: seq<Id>, blocks: seq<ToolBlock>)
    requires BlocksBegun(calls, blocks) && !o.pending
    requires
      var p := OpenAfter(Undertaken(o, calls), BlocksEvents(blocks));
      !p.pending && (durable ==> p.unresolved == 0)
    ensures BlocksClosed(durable, calls, blocks)
  {
    BlocksOpen(Undertaken(o, calls), calls, blocks);
  }

  lemma AttemptOpens(o: OpenWork, t: AttemptTrace)
    requires AttemptTrue(t)
    ensures OpenAfter(o, AttemptEvents(t)) ==
      if t.end.Answered? then OpenAfter(Undertaken(o, t.end.calls), BlocksEvents(t.end.blocks)) else o
  {
    var head := t.notes + Chunks(t.chunks);
    QuietKeeps(o, head);
    AfterConcat(o, Surface([], 0), head, EndEvents(t.end));
    if t.end.Answered? {
      var answer := AssistantMessage(t.end.message, t.end.calls);
      AfterOne(o, [], answer);
      assert [] + [answer] == [answer];
      AfterConcat(o, Surface([], 0), [answer], BlocksEvents(t.end.blocks));
    } else {
      QuietKeeps(o, EndEvents(t.end));
    }
  }

  // The work that the attempts of a step leave.
  function WorkAfter(o: OpenWork, xs: seq<AttemptTrace>): OpenWork {
    if |xs| > 0 && xs[|xs| - 1].end.Answered?
    then OpenAfter(Undertaken(o, xs[|xs| - 1].end.calls), BlocksEvents(xs[|xs| - 1].end.blocks))
    else o
  }

  lemma {:induction false} AttemptsOpen(o: OpenWork, xs: seq<AttemptTrace>)
    requires AttemptsTrue(xs)
    ensures OpenAfter(o, AttemptsEvents(xs)) == WorkAfter(o, xs)
  {
    if |xs| > 0 {
      var last := |xs| - 1;
      AttemptsOpen(o, xs[..last]);
      AfterConcat(o, Surface([], 0), AttemptsEvents(xs[..last]), AttemptEvents(xs[last]));
      AttemptOpens(o, xs[last]);
      assert last > 0 ==> Continued(xs[last - 1]);
    }
  }

  // Where the session lets the step end, its attempts are closed; and where they are
  // closed it does. A session that closed the step without abandoning a call has
  // closed it as strictly as a durable one.
  lemma StepCloses(durable: bool, o: OpenWork, xs: seq<AttemptTrace>, turn: nat, step: nat)
    requires AttemptsTrue(xs) && ChainsOk(xs) && NoWork(o)
    ensures
      var p := OpenAfter(o, AttemptsEvents(xs));
      && (Admits(durable, p, StepEnd(turn, step)) <==> AttemptsClosed(durable, xs))
      && (Admits(durable, p, StepEnd(turn, step)) && !NextOpen(p, StepEnd(turn, step)).abandoned ==> AttemptsClosed(true, xs))
      && p.abandoned == o.abandoned
  {
    hide AttemptsTrue, ChainsOk, AttemptsClosed, BlocksClosed;
    AttemptsOpen(o, xs);
    if |xs| > 0 && xs[|xs| - 1].end.Answered? {
      var end := xs[|xs| - 1].end;
      OnlyLastAnswers(durable, xs);
      OnlyLastAnswers(true, xs);
      AnswerCloses(durable, o, end);
      AnswerCloses(true, o, end);
    } else {
      OnlyLastAnswers(durable, xs);
      OnlyLastAnswers(true, xs);
    }
  }

  // Only the last attempt of a step can be an answer.
  lemma OnlyLastAnswers(durable: bool, xs: seq<AttemptTrace>)
    requires AttemptsTrue(xs) && ChainsOk(xs)
    ensures |xs| > 0 && xs[|xs| - 1].end.Answered? ==>
      AnswerTrue(xs[|xs| - 1].end)
      && (AttemptsClosed(durable, xs) <==> BlocksClosed(durable, xs[|xs| - 1].end.calls, xs[|xs| - 1].end.blocks))
    ensures |xs| == 0 || !xs[|xs| - 1].end.Answered? ==> AttemptsClosed(durable, xs)
  {
    assert forall i :: 0 <= i < |xs| - 1 ==> Continued(xs[i]);
    if |xs| > 0 {
      assert AttemptTrue(xs[|xs| - 1]);
    }
  }

  lemma AnswerCloses(durable: bool, o: OpenWork, end: AttemptEnd)
    requires end.Answered? && BlocksBegun(end.calls, end.blocks) && !o.pending
    ensures
      var p := OpenAfter(Undertaken(o, end.calls), BlocksEvents(end.blocks));
      && (!p.pending && (durable ==> p.unresolved == 0) <==> BlocksClosed(durable, end.calls, end.blocks))
      && p.abandoned == o.abandoned
  {
    BlocksOpen(Undertaken(o, end.calls), end.calls, end.blocks);
    var p := OpenAfter(Undertaken(o, end.calls), BlocksEvents(end.blocks));
    if !p.pending && (durable ==> p.unresolved == 0) {
      RoundCloses(durable, o, end.calls, end.blocks);
    }
  }
}
