// What happens between two steps: the request is prepared, and when it is too large
// tool results are pruned or the oldest messages summarised, until it fits or the
// turn ends (src/agent/mod.rs:1265-1424 and 1544-1640).
module PreStep {
  import opened Common
  import opened SessionLog
  import opened SessionModel
  import opened WorldModel
  import opened DriverModel
  import opened LogGrammar
  import opened Moment
  import opened ToolIteration
  import opened StepAttempt
  import opened Compaction

  // Segments of a turn that are not steps.
  predicate AllPre(segments: seq<Segment>) {
    forall i :: 0 <= i < |segments| ==> segments[i].Pre? && PreClosed(segments[i].pre)
  }

  // A pruned result stands in for the result of the same call, and no other message changed.
  predicate Slimmed(a: Surface, b: Surface, target: nat, m: Message) {
    && target < |a.messages| == |b.messages|
    && a.messages[target].ToolText? && m.ToolText? && m.call == a.messages[target].call && m.body == a.messages[target].body
    && b.messages[target] == m
    && (forall i :: 0 <= i < |a.messages| && i != target ==> b.messages[i] == a.messages[i])
    && b.generation > a.generation
  }

  // A checkpoint stands in for messages that cost more, a pruned result for what it shortens.
  predicate RewriteHolds(s: Surface, x: Segment) {
    && (x.Pre? && x.pre.Bracket? && x.pre.checkpoint.Some? ==>
          Shortened(s, SurfaceAfter(s, SegmentEvents(x)), x.pre.checkpoint.value))
    && (x.Pre? && x.pre.Pruned? ==>
          Slimmed(s, SurfaceAfter(s, SegmentEvents(x)), x.pre.target, x.pre.message))
  }

  // Every rewrite of these segments does, at the point of the log where it stands.
  predicate RewritesHold(s: Surface, xs: seq<Segment>) {
    forall i :: 0 <= i < |xs| ==> RewriteHolds(SurfaceAfter(s, SegmentsEvents(xs[..i])), xs[i])
  }

  lemma PayJoins(s: Surface, xs: seq<Segment>, ys: seq<Segment>)
    requires RewritesHold(s, xs) && RewritesHold(SurfaceAfter(s, SegmentsEvents(xs)), ys)
    ensures RewritesHold(s, xs + ys)
  {
    hide RewriteHolds, SegmentEvents, SegmentsEvents, SurfaceAfter, OpenAfter;
    forall i | 0 <= i < |xs + ys|
      ensures RewriteHolds(SurfaceAfter(s, SegmentsEvents((xs + ys)[..i])), (xs + ys)[i])
    {
      if i < |xs| {
        assert (xs + ys)[..i] == xs[..i];
      } else {
        var zs := ys[..i - |xs|];
        assert (xs + ys)[..i] == xs + zs;
        SegmentsConcat(xs, zs);
        AfterConcat(OpenWork(false, 0, false), s, SegmentsEvents(xs), SegmentsEvents(zs));
      }
    }
  }

  lemma PayAlone(s: Surface, x: Segment)
    requires RewriteHolds(s, x)
    ensures RewritesHold(s, [x])
  {
    hide RewriteHolds;
    assert [x][..0] == [];
  }

  // Between two steps only such segments were appended and every claim that was
  // made was given back or used.
  ghost predicate Between(a: Snap, b: Snap, d: Driver, segments: seq<Segment>) {
    && Moved(a.st, b.st, SegmentsEvents(segments), {})
    && SpentFrom(b.st.slots, |a.st.slots|)
    && AllPre(segments)
    && RewritesHold(a.st.surface, segments)
    && Within(a.now, b.now, d.limits, false, CostIn(segments))
    && Drift(a.env, b.env)
  }

  lemma BetweenNothing(a: Snap, b: Snap, d: Driver)
    requires b.st == a.st && b.now == a.now && Drift(a.env, b.env) && a.st.attempts.phase.NoAttempt?
    ensures Between(a, b, d, [])
  {
    MovedNothing(a.st);
  }

  lemma BetweenOn(a: Snap, b: Snap, c: Snap, d: Driver, xs: seq<Segment>, ys: seq<Segment>)
    requires Between(a, b, d, xs) && Between(b, c, d, ys)
    ensures Between(a, c, d, xs + ys)
  {
    hide PreClosed, SegmentsEvents, RewritesHold, CostIn, Plus, Within;
    SegmentsConcat(xs, ys);
    CostConcat(xs, ys);
    MovedOn(a.st, b.st, c.st, SegmentsEvents(xs), SegmentsEvents(ys), {}, {});
    PayJoins(a.st.surface, xs, ys);
    BetweenWithin(a.now, b.now, c.now, d.limits, CostIn(xs), CostIn(ys));
  }

  lemma BetweenWithin(a: Counters, b: Counters, c: Counters, limits: Limits, xs: Cost, ys: Cost)
    requires Within(a, b, limits, false, xs) && Within(b, c, limits, false, ys)
    ensures Within(a, c, limits, false, Plus(xs, ys))
  {
    WithinOn(a, b, c, limits, false, false, xs, ys);
  }

  // ----- pruning

  datatype PruneOutcome =
    | PruneProgress
    | PruneNoProgress
    | PruneCancelled
    | PruneError(code: ErrorCode)

  // What a pass tells that was cut short is true.
  predicate PruneTold(outcome: PruneOutcome, now: Counters, marks: Marks, env: Env) {
    && (outcome.PruneCancelled? ==> env.cancelled)
    && (outcome.PruneError? ==>
          || IsCeiling(ErrorOutcome(outcome.code), now, marks)
          || (outcome.code.ObserverUnavailable? && now.observerUnavailable))
  }

  // What a refusal tells; progress made is never reported as none.
  predicate PruneRefused(outcome: PruneOutcome, progress: bool, now: Counters, marks: Marks) {
    || (outcome.PruneProgress? && progress)
    || (outcome.PruneNoProgress? && !progress)
    || (outcome.PruneError? && IsCeiling(ErrorOutcome(outcome.code), now, marks))
  }

  // A failed append inside the pass (src/agent/mod.rs:1620-1640).
  method ClassifyPrune(d: Driver, error: Failure, progress: bool) returns (r: Result<PruneOutcome, Failure>)
    requires !IsLoopBug(error)
    modifies d
    ensures d.now == old(d.now).(durableLimit := old(d.now).durableLimit || error.DurableLimit?)
    ensures error.DurableLimit? ==> r == Ok(PruneError(SessionLimit))
    ensures error.MemoryBudget? ==> r == Ok(PruneError(EventBudget))
    ensures error.Fatal? ==> r == Err(error)
    ensures !IsBudget(error) && !error.Fatal? ==> r.Ok? && (progress ==> r.value.PruneProgress?) && (!progress ==> r.value.PruneNoProgress?)
  {
    if IsBudget(error) {
      var code := d.FailureForBudget(error);
      return Ok(PruneError(code));
    }
    r := if error.Fatal? then Err(error) else Ok(if progress then PruneProgress else PruneNoProgress);
  }

  lemma CutShortHolds(s: Surface, target: nat)
    ensures RewriteHolds(s, Pre(PruneCutShort(target)))
  {
  }

  lemma PrunedHolds(s: Surface, target: nat, m: Message)
    requires target < |s.messages| && s.messages[target].ToolText? && m.ToolText?
    requires m.call == s.messages[target].call && m.body == s.messages[target].body
    ensures RewriteHolds(s, Pre(Pruned(target, m)))
  {
    AfterTwo(s, PruneMarker(target), PrunedResult(target, m));
  }

  lemma AfterTwo(s: Surface, x: Event, y: Event)
    ensures SurfaceAfter(s, [x, y]) == NextSurface(NextSurface(s, x), y)
  {
    assert [x, y][..1] == [x] && [x][..0] == [];
    assert SurfaceAfter(s, [x]) == NextSurface(s, x);
  }

  // One marker and the rewrite it prices; the rewrite may be cut short.
  method PruneOne(s: Session, d: Driver, target: nat, message: Message, progress: bool)
    returns (r: Result<Option<PruneOutcome>, Failure>, ghost pre: Option<PreTrace>)
    requires s.Valid() && Agree(s, d) && s.st.attempts.phase.NoAttempt?
    requires target < |s.st.surface.messages| && s.st.surface.messages[target].ToolText? && message.ToolText?
    requires message.call == s.st.surface.messages[target].call && message.body == s.st.surface.messages[target].body
    modifies s, d
    ensures s.Valid() && Agreed(s, d) && s.st.attempts.phase.NoAttempt?
    ensures FlagsRise(old(d.now), d.now) && s.st.slots == old(s.st).slots
    ensures Moved(old(s.st), s.st, if pre.Some? then PreEvents(pre.value) else [], {})
    ensures pre.Some? ==> !IsSummary(pre.value) && RewriteHolds(old(s.st).surface, Pre(pre.value))
    ensures r.Ok? && r.value.None? ==> pre.Some? && pre.value.Pruned?
    ensures r.Ok? && r.value.Some? ==> s.st.surface == old(s.st).surface && PruneRefused(r.value.value, progress, d.now, s.marks)
    ensures r.Err? ==> !IsLoopBug(r.error)
  {
    hide Moved, RewriteHolds;
    ghost var a := s.st;
    MovedNothing(a);
    pre := None;
    CutShortHolds(a.surface, target);
    PrunedHolds(a.surface, target, message);
    var marked := s.Append(PruneMarker(target));
    if marked.Err? {
      var failed := ClassifyPrune(d, marked.error, progress);
      return if failed.Ok? then Ok(Some(failed.value)) else Err(failed.error), pre;
    }
    pre := Some(PruneCutShort(target));
    AppendedMoves(a, PruneMarker(target));
    ghost var b := s.st;
    var rewritten := s.Append(PrunedResult(target, message));
    if rewritten.Err? {
      var failed := ClassifyPrune(d, rewritten.error, progress);
      return if failed.Ok? then Ok(Some(failed.value)) else Err(failed.error), pre;
    }
    pre := Some(Pruned(target, message));
    AppendedMoves(b, PrunedResult(target, message));
    MovedOn(a, b, s.st, [PruneMarker(target)], [PrunedResult(target, message)], {}, {});
    assert [PruneMarker(target)] + [PrunedResult(target, message)] == PreEvents(Pruned(target, message));
    r := Ok(None);
  }

  // One more thing happened between the steps: nothing, or one prune.
  lemma BetweenNext(a: Snap, b: Snap, c: Snap, d: Driver, segments: seq<Segment>, pre: Option<PreTrace>)
    requires Between(a, b, d, segments)
    requires Moved(b.st, c.st, if pre.Some? then PreEvents(pre.value) else [], {}) && |c.st.slots| == |b.st.slots|
    requires pre.Some? ==> PreClosed(pre.value) && !IsSummary(pre.value) && RewriteHolds(b.st.surface, Pre(pre.value))
    requires FlagsRise(b.now, c.now) && Drift(b.env, c.env)
    ensures Between(a, c, d, segments + if pre.Some? then [Pre(pre.value)] else [])
  {
    hide SegmentsEvents, PreEvents, RewritesHold, RewriteHolds, CostIn;
    if pre.Some? {
      SegmentsOne(segments, Pre(pre.value));
      CostOne(segments, Pre(pre.value));
      PayAlone(b.st.surface, Pre(pre.value));
      PayJoins(a.st.surface, segments, [Pre(pre.value)]);
      MovedOn(a.st, b.st, c.st, SegmentsEvents(segments), PreEvents(pre.value), {}, {});
    } else {
      assert segments + [] == segments;
      MovedOn(a.st, b.st, c.st, SegmentsEvents(segments), [], {}, {});
      assert SegmentsEvents(segments) + [] == SegmentsEvents(segments);
    }
  }

  // One pass over the tool results that are too large. Without progress the surface
  // is as it was (src/agent/mod.rs:1566-1618).
  method Prune(s: Session, d: Driver, w: World) returns (r: Result<PruneOutcome, Failure>, ghost segments: seq<Segment>)
    requires s.Valid() && Agree(s, d) && s.st.attempts.phase.NoAttempt?
    modifies s, d, w
    ensures s.Valid() && Agreed(s, d) && (r.Ok? ==> Between(old(Look(s, d, w)), Look(s, d, w), d, segments))
    ensures r.Ok? && r.value.PruneNoProgress? ==> s.st.surface == old(s.st).surface
    ensures r.Ok? ==> PruneTold(r.value, d.now, s.marks, w.env)
    ensures w.env.fault == old(w.env).fault
    ensures d.now.attempts == old(d.now).attempts && d.now.reportedTokens == old(d.now).reportedTokens && Summaries(segments) == 0
    ensures r.Err? ==> !IsLoopBug(r.error)
  {
    hide Moved, Between, Agree, PruneTold;
    ghost var a := Look(s, d, w);
    segments := [];
    var progress := false;
    var n := w.Number();
    BetweenNothing(a, a, d);
    while n > 0
      invariant s.Valid() && s.st.attempts.phase.NoAttempt? && Agreed(s, d) && Between(a, Look(s, d, w), d, segments)
      invariant !progress ==> s.st.surface == a.st.surface
      invariant w.env.fault == a.env.fault
      invariant d.now.attempts == a.now.attempts && d.now.reportedTokens == a.now.reportedTokens && Summaries(segments) == 0
    {
      n := n - 1;
      ghost var b := Look(s, d, w);
      var next;
      ghost var pre;
      next, pre := PruneNext(s, d, w, progress);
      BetweenNext(a, b, Look(s, d, w), d, segments, pre);
      CountsConcat(segments, if pre.Some? then [Pre(pre.value)] else []);
      segments := segments + if pre.Some? then [Pre(pre.value)] else [];
      if next.Err? {
        return Err(next.error), segments;
      }
      if next.value.Some? {
        return Ok(next.value.value), segments;
      }
      progress := true;
    }
    ghost var b := Look(s, d, w);
    r := FinishPrune(s, d, progress);
    PassTold(r, d.now, s.marks, w.env);
    MovedNothing(b.st);
    StillMoved(b.st, b.st, s.st, [], {});
    BetweenNext(a, b, Look(s, d, w), d, segments, None);
    assert segments + [] == segments;
  }

  lemma PassTold(r: Result<PruneOutcome, Failure>, now: Counters, marks: Marks, env: Env)
    requires r.Ok? && r.value.PruneError? ==> r.value.code.ObserverUnavailable? && now.observerUnavailable
    requires r.Ok? ==> !r.value.PruneCancelled?
    ensures r.Ok? ==> PruneTold(r.value, now, marks, env)
  {
  }

  // Find and prune the next result; an outcome ends the pass.
  method PruneNext(s: Session, d: Driver, w: World, progress: bool)
    returns (r: Result<Option<PruneOutcome>, Failure>, ghost pre: Option<PreTrace>)
    requires s.Valid() && Agree(s, d) && s.st.attempts.phase.NoAttempt?
    modifies s, d, w
    ensures s.Valid() && Agreed(s, d) && s.st.attempts.phase.NoAttempt?
    ensures FlagsRise(old(d.now), d.now) && |s.st.slots| == |old(s.st).slots|
    ensures Drift(old(w.env), w.env) && w.env.fault == old(w.env).fault
    ensures Moved(old(s.st), s.st, if pre.Some? then PreEvents(pre.value) else [], {})
    ensures pre.Some? ==> PreClosed(pre.value) && !IsSummary(pre.value) && !w.env.cancelled
    ensures pre.Some? ==> RewriteHolds(old(s.st).surface, Pre(pre.value))
    ensures r.Ok? && r.value.Some? ==>
      && s.st.surface == old(s.st).surface
      && PruneTold(r.value.value, d.now, s.marks, w.env) && (r.value.value.PruneNoProgress? ==> !progress)
    ensures r.Err? ==> !IsLoopBug(r.error)
  {
    hide Moved, RewriteHolds;
    pre := None;
    MovedNothing(s.st);
    var stop := w.IsCancelled();
    if stop {
      return Ok(Some(PruneCancelled)), pre;
    }
    var target := w.Number();
    var price := w.Number();
    var messages := s.st.surface.messages;
    if target >= |messages| || !messages[target].ToolText? {
      return Ok(Some(if progress then PruneProgress else PruneNoProgress)), pre;
    }
    r, pre := PruneOne(s, d, target, ToolText(messages[target].call, messages[target].body, price), progress);
  }

  // The barrier at the end of the pass.
  method FinishPrune(s: Session, d: Driver, progress: bool) returns (r: Result<PruneOutcome, Failure>)
    requires s.Valid() && Agree(s, d) && s.st.attempts.phase.NoAttempt?
    modifies s, d
    ensures s.Valid() && Agreed(s, d) && s.st == old(s.st).(visible := s.st.visible) && FlagsRise(old(d.now), d.now)
    ensures r.Ok? ==>
      if r.value.PruneError? then r.value.code.ObserverUnavailable? && d.now.observerUnavailable
      else (r.value.PruneProgress? <==> progress) && (r.value.PruneNoProgress? <==> !progress)
    ensures r.Err? ==> !IsLoopBug(r.error)
  {
    var barrier :- s.FlushBarrier();
    if barrier.ObserverUnavailable? {
      d.LatchObserverFault();
      return Ok(PruneError(ErrorCode.ObserverUnavailable));
    }
    r := Ok(if progress then PruneProgress else PruneNoProgress);
  }

  // ----- before the step

  // What is known when the turn is about to end or go on: whether anything stopped it
  // (src/agent/mod.rs:1544-1564).
  method StopBefore(d: Driver, w: World) returns (reason: Option<TurnEndReason>)
    modifies w
    ensures Later(old(w.env), w.env, w.env.firstStop)
    ensures reason ==
      if d.now.durableLimit then Some(Error(SessionLimit))
      else if w.env.cancelled then Some(Aborted)
      else if w.env.expired then Some(Error(TurnTimeout))
      else None
  {
    if d.now.durableLimit {
      return Some(Error(SessionLimit));
    }
    var stop := w.SampleStop();
    match stop {
      case NoStop => reason := None;
      case StopCancelled => reason := Some(Aborted);
      case StopTimeout => reason := Some(Error(TurnTimeout));
    }
  }

  // How a turn ends for what StopBefore saw.
  lemma StopEnds(x: Snap, limits: Limits)
    ensures x.now.durableLimit ==> EndsBetween(Error(SessionLimit), x, limits)
    ensures x.env.cancelled ==> EndsBetween(Aborted, x, limits)
    ensures x.env.expired ==> EndsBetween(Error(TurnTimeout), x, limits)
    ensures x.env.fault == Some(ContextLimit) ==> EndsBetween(Error(ContextLimit), x, limits)
  {
  }

  lemma PruneEnds(outcome: PruneOutcome, x: Snap, y: Snap, limits: Limits)
    requires PruneTold(outcome, x.now, x.marks, x.env)
    requires y.now == x.now && y.marks == x.marks && (x.env.cancelled ==> y.env.cancelled)
    ensures outcome.PruneCancelled? ==> EndsBetween(Aborted, y, limits)
    ensures outcome.PruneError? ==> EndsBetween(Error(outcome.code), y, limits)
  {
  }

  lemma SetbackEnds(outcome: CompactionOutcome, x: Snap, limits: Limits)
    requires SetbackHolds(outcome, x, limits)
    ensures outcome.Cancelled? ==> EndsBetween(Aborted, x, limits)
    ensures outcome.TurnError? ==> EndsBetween(Error(outcome.code), x, limits)
  {
  }

  // How one of the remedies below left things: Between, a preparation that matches
  // the surface and says what the adapter said last, or the end of the turn for a reason
  // that is true.
  ghost predicate Relieved(a: Snap, b: Snap, d: Driver, messages: seq<Message>, p: Preparation,
                           r: Result<Option<TurnEndReason>, Failure>, segments: seq<Segment>)
  {
    && (r.Ok? ==> Between(a, b, d, segments))
    && (r.Ok? && r.value.None? ==>
          PreparedFor(p, b.st.surface, messages) && Told(p, b.env.fault) && TokensKept(a.now, b.now, d.limits))
    && (r.Ok? && r.value.Some? ==> EndsBetween(r.value.value, b, d.limits))
    && (r.Err? ==> !IsLoopBug(r.error))
  }

  // Prune once, and prepare again if that changed anything (the two uses of
  // src/agent/mod.rs:1276-1312 and 1321-1355). The turn may end instead. A request over
  // its limits is looked at once after the pass and, where the surface changed, before
  // and after the new preparation; under pressure the only look comes last.
  method PruneAndPrepare(s: Session, d: Driver, w: World, messages: seq<Message>, before: Preparation, stopFirst: bool)
    returns (r: Result<Option<TurnEndReason>, Failure>, p: Preparation, progress: bool, ghost segments: seq<Segment>)
    requires s.Valid() && Agree(s, d) && s.st.attempts.phase.NoAttempt? && PreparedFor(before, s.st.surface, messages)
    requires Told(before, w.env.fault)
    modifies s, d, w
    ensures s.Valid() && Agreed(s, d) && Relieved(old(Look(s, d, w)), Look(s, d, w), d, messages, p, r, segments)
    ensures !progress ==> p == before
    ensures d.now.attempts == old(d.now).attempts && Summaries(segments) == 0
    ensures r.Ok? ==> s.st.attempts.phase.NoAttempt?
  {
    hide Moved, Between, PreparedFor, Agree, EndsBetween, PruneTold, Told;
    ghost var a := Look(s, d, w);
    p, progress := before, false;
    var outcome;
    outcome, segments := Prune(s, d, w);
    if outcome.Err? {
      return Err(outcome.error), p, progress, segments;
    }
    ghost var b := Look(s, d, w);
    BetweenIdle(a, b, d, segments);
    if stopFirst {
      var stop := StopBefore(d, w);
      BetweenLater(a, b, Look(s, d, w), d, segments);
      StopEnds(Look(s, d, w), d.limits);
      if stop.Some? {
        return Ok(stop), p, progress, segments;
      }
    }
    PruneEnds(outcome.value, b, Look(s, d, w), d.limits);
    ghost var c := Look(s, d, w);
    match outcome.value {
      case PruneCancelled => r := Ok(Some(Aborted));
      case PruneError(code) => r := Ok(Some(Error(code)));
      case _ =>
        progress := outcome.value.PruneProgress?;
        var end;
        end, p := PrepareAgain(s, d, w, messages, before, progress, stopFirst);
        BetweenLater(a, c, Look(s, d, w), d, segments);
        r := Ok(end);
    }
  }

  // The looks after a pass, and the new preparation where the surface changed.
  method PrepareAgain(s: Session, d: Driver, w: World, messages: seq<Message>, before: Preparation, progress: bool, stopFirst: bool)
    returns (end: Option<TurnEndReason>, p: Preparation)
    requires !progress ==> PreparedFor(before, s.st.surface, messages) && Told(before, w.env.fault)
    modifies w
    ensures Drift(old(w.env), w.env)
    ensures end.None? ==> PreparedFor(p, s.st.surface, messages) && Told(p, w.env.fault)
    ensures end.Some? ==> EndsBetween(end.value, Look(s, d, w), d.limits)
    ensures !progress ==> p == before
  {
    hide PreparedFor, EndsBetween, Told;
    end, p := None, before;
    if progress && stopFirst {
      end := StopBefore(d, w);
      StopEnds(Look(s, d, w), d.limits);
      if end.Some? {
        return;
      }
    }
    if progress {
      p := Prepare(s, w, messages);
    }
    if progress || !stopFirst {
      end := StopBefore(d, w);
      StopEnds(Look(s, d, w), d.limits);
    }
  }

  lemma BetweenLater(a: Snap, b: Snap, c: Snap, d: Driver, segments: seq<Segment>)
    requires Between(a, b, d, segments) && c.st == b.st && c.now == b.now && Drift(b.env, c.env)
    ensures Between(a, c, d, segments)
  {
  }

  lemma BetweenIdle(a: Snap, b: Snap, d: Driver, segments: seq<Segment>)
    requires Between(a, b, d, segments)
    ensures b.st.attempts.phase.NoAttempt?
  {
  }

  datatype Trigger = NoTrigger | Pressure | OverLimit

  // Whether the request is too large, or the context nearly full (src/agent/mod.rs:984-999).
  method TriggerOf(w: World, p: Preparation) returns (t: Trigger)
    ensures t.OverLimit? <==> p.HardLimit?
    ensures t.Pressure? ==> p.Ready?
  {
    var pressed := w.Flip();
    t := if p.HardLimit? then OverLimit else if p.Ready? && pressed then Pressure else NoTrigger;
  }

  // Summarise once; only a replaced surface needs a new preparation
  // (src/agent/mod.rs:1365-1416).
  method SummariseOnce(s: Session, d: Driver, w: World, messages: seq<Message>, before: Preparation)
    returns (r: Result<Option<TurnEndReason>, Failure>, p: Preparation, attempted: bool, ghost segments: seq<Segment>)
    requires s.Valid() && Agree(s, d) && s.st.attempts.phase.NoAttempt? && PreparedFor(before, s.st.surface, messages)
    requires Told(before, w.env.fault)
    modifies s, d, w
    ensures s.Valid() && (Agreed(s, d) || IsFatal(r)) && Relieved(old(Look(s, d, w)), Look(s, d, w), d, messages, p, r, segments)
    ensures old(d.now).attempts <= d.now.attempts && (attempted <==> d.now.attempts > old(d.now).attempts)
    ensures attempted ==> d.now.attempts < d.limits.maxAttempts
    ensures Summaries(segments) <= if attempted then 1 else 0
  {
    hide Moved, Between, PreparedFor, Compacted, Agree, EndsBetween, SetbackHolds;
    ghost var a := Look(s, d, w);
    p, segments := before, [];
    var attempts := d.now.attempts;
    var outcome;
    ghost var trace;
    outcome, trace := CompactOnce(s, d, w);
    attempted := d.now.attempts > attempts;
    if outcome.Err? {
      return Err(outcome.error), p, attempted, segments;
    }
    ghost var b := Look(s, d, w);
    segments := if trace.Some? then [Pre(trace.value)] else [];
    CompactedBetween(a, b, d, outcome.value, trace);
    var end;
    end, p := AfterSummary(s, d, w, messages, before, outcome.value);
    BetweenLater(a, b, Look(s, d, w), d, segments);
    r := Ok(end);
  }

  // What a compaction means for the turn: a replaced surface is prepared anew, and a request
  // that was over its limits and still is ends the turn.
  method AfterSummary(s: Session, d: Driver, w: World, messages: seq<Message>, before: Preparation, outcome: CompactionOutcome)
    returns (end: Option<TurnEndReason>, p: Preparation)
    requires SetbackHolds(outcome, Look(s, d, w), d.limits) && Told(before, w.env.fault)
    requires !outcome.Progress? && !outcome.TurnError? ==> PreparedFor(before, s.st.surface, messages)
    modifies w
    ensures Drift(old(w.env), w.env)
    ensures end.None? ==> PreparedFor(p, s.st.surface, messages) && Told(p, w.env.fault) && !outcome.TurnError?
    ensures end.Some? ==> EndsBetween(end.value, Look(s, d, w), d.limits)
    ensures end.None? && p.HardLimit? ==> outcome.Progress?
  {
    hide PreparedFor, EndsBetween, SetbackHolds;
    StopEnds(Look(s, d, w), d.limits);
    SetbackEnds(outcome, Look(s, d, w), d.limits);
    end, p := None, before;
    match outcome {
      case Progress =>
        end := StopBefore(d, w);
        StopEnds(Look(s, d, w), d.limits);
        if end.None? {
          p := Prepare(s, w, messages);
        }
      case NoProgress => end := if before.HardLimit? then Some(Error(ContextLimit)) else None;
      case AdvisoryFailure => end := if before.HardLimit? then Some(Error(ContextLimit)) else None;
      case Cancelled => end := Some(Aborted);
      case TurnError(code) => end := Some(Error(code));
    }
  }

  lemma CompactedBetween(a: Snap, b: Snap, d: Driver, outcome: CompactionOutcome, trace: Option<PreTrace>)
    requires Compacted(a.st, b.st, outcome, trace) && a.st.attempts.phase.NoAttempt?
    requires Spent(a.now, b.now, d.limits) && Drift(a.env, b.env)
    requires b.now.attempts == a.now.attempts + if trace.Some? then 1 else 0
    requires Tallied(a.now.reportedTokens, b.now.reportedTokens, TokensOf(trace))
    ensures Between(a, b, d, if trace.Some? then [Pre(trace.value)] else [])
    ensures !outcome.Progress? && !outcome.TurnError? ==> b.st.surface == a.st.surface
  {
    hide Moved, Shortened, Between, Within, SpentFrom, PreEvents;
    if trace.None? {
      NothingBetween(a, b, d);
    } else {
      SummaryBetween(a, b, d, outcome, trace.value);
    }
  }

  lemma NothingBetween(a: Snap, b: Snap, d: Driver)
    requires b.st == a.st && a.st.attempts.phase.NoAttempt? && Counted(a.now, b.now) && Drift(a.env, b.env)
    requires Tallied(a.now.reportedTokens, b.now.reportedTokens, 0)
    ensures Between(a, b, d, [])
  {
    MovedNothing(a.st);
  }

  lemma SummaryBetween(a: Snap, b: Snap, d: Driver, outcome: CompactionOutcome, t: PreTrace)
    requires Compacted(a.st, b.st, outcome, Some(t))
    requires Spent(a.now, b.now, d.limits) && Drift(a.env, b.env) && b.now.attempts == a.now.attempts + 1
    requires Tallied(a.now.reportedTokens, b.now.reportedTokens, TokensOf(Some(t)))
    ensures Between(a, b, d, [Pre(t)])
  {
    hide Moved, Shortened, RewriteHolds, SegmentsEvents, RewritesHold, CostIn, PreEvents, SpentFrom, PreClosed;
    SummaryPays(a.st, b.st, outcome, t);
    SegmentAlone(Pre(t));
  }

  lemma SummaryPays(a: State, b: State, outcome: CompactionOutcome, t: PreTrace)
    requires Compacted(a, b, outcome, Some(t))
    ensures RewritesHold(a.surface, [Pre(t)])
  {
    hide Shortened, PreEvents, RewritesHold;
    PayAlone(a.surface, Pre(t));
  }

  lemma SegmentAlone(x: Segment)
    ensures SegmentsEvents([x]) == SegmentEvents(x) && CostIn([x]) == SegmentCost(x)
  {
    SegmentsOne([], x);
    CostOne([], x);
    PlusJoins(SegmentCost(x), FREE, FREE);
    assert [] + [x] == [x];
    assert [] + SegmentEvents(x) == SegmentEvents(x);
  }

  datatype PreOutcome = Proceed(prepared: Option<Preparation>) | EndTurn(reason: TurnEndReason)

  // A request that a step may start with: it matches the surface, says what the adapter
  // said last, and is not over the limits of the model.
  predicate Sendable(p: Preparation, s: Surface, messages: seq<Message>, fault: Option<ErrorCode>) {
    PreparedFor(p, s, messages) && Told(p, fault) && fault != Some(ContextLimit)
  }

  // What the whole passage between two steps leaves: a request to start with, or the end of
  // the turn for a reason that is true. At most one summary is tried in a turn, and it never
  // takes the last attempt.
  ghost predicate Passed(a: Snap, b: Snap, d: Driver, messages: seq<Message>, was: bool, attempted: bool,
                         r: Result<PreOutcome, Failure>, segments: seq<Segment>)
  {
    && (was ==> attempted)
    && Summaries(segments) <= (if attempted && !was then 1 else 0)
    && (was || !attempted ==> b.now.attempts == a.now.attempts)
    && (b.now.attempts > a.now.attempts ==> b.now.attempts < d.limits.maxAttempts)
    && (r.Ok? ==> Between(a, b, d, segments))
    && (r.Ok? && r.value.Proceed? ==>
          if r.value.prepared.None? then b.now.attempts >= d.limits.maxAttempts
          else Sendable(r.value.prepared.value, b.st.surface, messages, b.env.fault))
    && (r.Ok? && r.value.Proceed? ==> TokensKept(a.now, b.now, d.limits))
    && (r.Ok? && r.value.EndTurn? ==> EndsBetween(r.value.reason, b, d.limits))
    && (r.Err? ==> !IsLoopBug(r.error))
  }

  lemma RelievedOn(a: Snap, b: Snap, c: Snap, d: Driver, messages: seq<Message>, p: Preparation, q: Preparation,
                   first: Result<Option<TurnEndReason>, Failure>, r: Result<Option<TurnEndReason>, Failure>,
                   xs: seq<Segment>, ys: seq<Segment>)
    requires Relieved(a, b, d, messages, p, first, xs) && first.Ok? && first.value.None?
    requires Relieved(b, c, d, messages, q, r, ys)
    ensures Relieved(a, c, d, messages, q, r, xs + ys)
  {
    hide Between, PreparedFor;
    if r.Ok? {
      BetweenOn(a, b, c, d, xs, ys);
    }
  }

  lemma RelievedAlready(a: Snap, b: Snap, d: Driver, messages: seq<Message>, p: Preparation)
    requires PreparedFor(p, b.st.surface, messages) && Told(p, b.env.fault) && b == a && a.st.attempts.phase.NoAttempt?
    ensures Relieved(a, b, d, messages, p, Ok(None), [])
  {
    BetweenNothing(a, b, d);
  }

  // Prune where the request is over its limits, then where the context is nearly
  // full. A turn that already tried a summary is not pruned for pressure.
  method MakeRoom(s: Session, d: Driver, w: World, messages: seq<Message>, before: Preparation, was: bool)
    returns (r: Result<Option<TurnEndReason>, Failure>, p: Preparation, trigger: Trigger, ghost segments: seq<Segment>)
    requires s.Valid() && Agree(s, d) && s.st.attempts.phase.NoAttempt? && PreparedFor(before, s.st.surface, messages)
    requires Told(before, w.env.fault)
    modifies s, d, w
    ensures s.Valid() && Agreed(s, d) && Relieved(old(Look(s, d, w)), Look(s, d, w), d, messages, p, r, segments)
    ensures d.now.attempts == old(d.now).attempts && Summaries(segments) == 0
    ensures r.Ok? ==> s.st.attempts.phase.NoAttempt? && (r.value.None? ==> (trigger.OverLimit? <==> p.HardLimit?))
  {
    hide Moved, Between, PreparedFor, Relieved, Agree, EndsBetween;
    ghost var a := Look(s, d, w);
    p, trigger, segments := before, NoTrigger, [];
    RelievedAlready(a, a, d, messages, p);
    r := Ok(None);
    if before.HardLimit? {
      var progress;
      r, p, progress, segments := PruneAndPrepare(s, d, w, messages, before, true);
      if r.Err? || r.value.Some? {
        return;
      }
    }
    trigger := TriggerOf(w, p);
    if was && trigger.Pressure? {
      trigger := NoTrigger;
    }
    if trigger.Pressure? {
      ghost var b, xs, q, first := Look(s, d, w), segments, p, r;
      RelievedReady(a, b, d, messages, q, r, segments);
      var progress;
      ghost var ys;
      r, p, progress, ys := PruneAndPrepare(s, d, w, messages, p, false);
      RelievedOn(a, b, Look(s, d, w), d, messages, q, p, first, r, xs, ys);
      CountsConcat(xs, ys);
      segments := xs + ys;
      if progress {
        trigger := TriggerOf(w, p);
      }
    }
  }

  lemma RelievedReady(a: Snap, b: Snap, d: Driver, messages: seq<Message>, p: Preparation,
                      r: Result<Option<TurnEndReason>, Failure>, segments: seq<Segment>)
    requires Relieved(a, b, d, messages, p, r, segments) && r.Ok?
    ensures Between(a, b, d, segments) && b.st.attempts.phase.NoAttempt?
    ensures r.value.None? ==>
      PreparedFor(p, b.st.surface, messages) && Told(p, b.env.fault) && TokensKept(a.now, b.now, d.limits)
    ensures r.value.Some? ==> EndsBetween(r.value.value, b, d.limits)
  {
  }

  // The passage before one step (src/agent/mod.rs:1265-1424).
  method BeforeStep(s: Session, d: Driver, w: World, messages: seq<Message>, was: bool)
    returns (r: Result<PreOutcome, Failure>, attempted: bool, ghost segments: seq<Segment>)
    requires s.Valid() && Agree(s, d) && s.st.attempts.phase.NoAttempt?
    modifies s, d, w
    ensures s.Valid() && (Agreed(s, d) || IsFatal(r)) && Passed(old(Look(s, d, w)), Look(s, d, w), d, messages, was, attempted, r, segments)
  {
    hide Moved, Between, PreparedFor, Relieved, Agree, EndsBetween;
    ghost var a := Look(s, d, w);
    attempted, segments := was, [];
    BetweenNothing(a, a, d);
    if d.now.attempts >= d.limits.maxAttempts {
      return Ok(Proceed(None)), attempted, segments;
    }
    var p := Prepare(s, w, messages);
    var stop := StopBefore(d, w);
    ghost var b := Look(s, d, w);
    BetweenNothing(a, b, d);
    StopEnds(b, d.limits);
    if stop.Some? {
      return Ok(EndTurn(stop.value)), attempted, segments;
    }
    r, attempted, segments := Reduce(s, d, w, messages, p, was);
    PassedLater(a, b, Look(s, d, w), d, messages, was, attempted, r, segments);
  }

  lemma PassedLater(a: Snap, b: Snap, c: Snap, d: Driver, messages: seq<Message>, was: bool, attempted: bool,
                    r: Result<PreOutcome, Failure>, segments: seq<Segment>)
    requires Between(a, b, d, []) && b.now == a.now && Passed(b, c, d, messages, was, attempted, r, segments)
    ensures Passed(a, c, d, messages, was, attempted, r, segments)
  {
    hide Between, PreparedFor;
    if r.Ok? {
      BetweenOn(a, b, c, d, [], segments);
      assert [] + segments == segments;
    }
  }

  // Make room, summarise at most once in the turn, and give up on a request that is
  // still too large.
  method Reduce(s: Session, d: Driver, w: World, messages: seq<Message>, before: Preparation, was: bool)
    returns (r: Result<PreOutcome, Failure>, attempted: bool, ghost segments: seq<Segment>)
    requires s.Valid() && Agree(s, d) && s.st.attempts.phase.NoAttempt? && PreparedFor(before, s.st.surface, messages)
    requires Told(before, w.env.fault)
    modifies s, d, w
    ensures s.Valid() && (Agreed(s, d) || IsFatal(r)) && Passed(old(Look(s, d, w)), Look(s, d, w), d, messages, was, attempted, r, segments)
  {
    hide Moved, Between, PreparedFor, Relieved, Agree, EndsBetween;
    ghost var a := Look(s, d, w);
    attempted := was;
    var end, p, trigger;
    end, p, trigger, segments := MakeRoom(s, d, w, messages, before, was);
    ghost var b := Look(s, d, w);
    if end.Err? {
      RelievedError(a, b, d, messages, p, end, segments);
      return Err(end.error), attempted, segments;
    }
    RelievedReady(a, b, d, messages, p, end, segments);
    if end.value.Some? {
      return Ok(EndTurn(end.value.value)), attempted, segments;
    }
    StopEnds(b, d.limits);
    if was && trigger.OverLimit? {
      return Ok(EndTurn(Error(ContextLimit))), attempted, segments;
    }
    if !was && !trigger.NoTrigger? {
      ghost var xs, q, first := segments, p, end;
      ghost var ys;
      end, p, attempted, ys := SummariseOnce(s, d, w, messages, p);
      ghost var c := Look(s, d, w);
      RelievedOn(a, b, c, d, messages, q, p, first, end, xs, ys);
      CountsConcat(xs, ys);
      segments := xs + ys;
      if end.Err? {
        RelievedError(a, c, d, messages, p, end, segments);
        return Err(end.error), attempted, segments;
      }
      RelievedReady(a, c, d, messages, p, end, segments);
      if end.value.Some? {
        return Ok(EndTurn(end.value.value)), attempted, segments;
      }
    }
    StopEnds(Look(s, d, w), d.limits);
    r := Ok(if p.HardLimit? then EndTurn(Error(ContextLimit)) else Proceed(Some(p)));
  }

  lemma RelievedError(a: Snap, b: Snap, d: Driver, messages: seq<Message>, p: Preparation,
                      r: Result<Option<TurnEndReason>, Failure>, segments: seq<Segment>)
    requires Relieved(a, b, d, messages, p, r, segments) && r.Err?
    ensures !IsLoopBug(r.error)
  {
  }
}
