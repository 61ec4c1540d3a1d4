// One provider attempt of a step: prepare, dispatch, stream, and then retry or commit
// the answer (src/agent/mod.rs:1642-2477).
module StepAttempt {
  import opened Common
  import opened SessionLog
  import opened SessionModel
  import opened WorldModel
  import opened DriverModel
  import opened LogGrammar
  import opened Moment
  import opened ToolCall
  import opened ToolIteration
  import opened ToolRound
  import opened AttemptLife
  import Retries

  // ----- the provider request

  // A request is prepared from the messages it will carry and the generation the
  // surface will have when it is sent.
  datatype Preparation =
    | Ready(messages: seq<Message>, generation: nat)
    | PreparedFailure(code: ErrorCode)
    | Deferred(code: ErrorCode)
    | HardLimit

  predicate PreparedFor(p: Preparation, s: Surface, pending: seq<Message>) {
    p.Ready? ==> p.messages == s.messages + pending && p.generation == s.generation + |pending|
  }

  predicate MatchesSurface(p: Preparation, s: Surface) {
    p.Ready? ==> p.messages == s.messages && p.generation == s.generation
  }

  // A preparation says what the adapter last said: that the request fits, that it is over
  // the limits of the model, or what is wrong with it.
  predicate Told(p: Preparation, fault: Option<ErrorCode>) {
    match p
    case Ready(_, _) => fault.None?
    case HardLimit => fault == Some(ContextLimit)
    case PreparedFailure(code) => code.ProviderFailure? && fault == Some(code)
    case Deferred(code) => (code.Internal? || code.Request? || code.ProviderFailure?) && fault == Some(code)
  }

  // Prepare a request for the present surface with messages still to be appended
  // (src/agent/mod.rs:1642-1729).
  method Prepare(s: Session, w: World, pending: seq<Message>) returns (p: Preparation)
    modifies w
    ensures PreparedFor(p, s.st.surface, pending) && Told(p, w.env.fault)
    ensures w.env == old(w.env).(fault := w.env.fault)
  {
    var fitness := w.Preflight();
    match fitness {
      case Fits => p := Preparation.Ready(s.st.surface.messages + pending, s.st.surface.generation + |pending|);
      case Oversized => p := HardLimit;
      case Unprepared(code) => p := Deferred(code);
      case Unaccepted(code) => p := PreparedFailure(code);
    }
  }

  // ----- what happens to the counters and the world

  predicate FlagsKept(a: Counters, b: Counters) {
    && (a.observerUnavailable ==> b.observerUnavailable)
    && (a.durableLimit ==> b.durableLimit)
  }

  // Exactly this was spent, and what was within its limit stays within it; result bytes
  // do unless a change was larger than declared.
  predicate Within(a: Counters, b: Counters, limits: Limits, over: bool, cost: Cost) {
    && FlagsKept(a, b)
    && a.steps == b.steps
    && b.retries == a.retries + cost.retries
    && Tallied(a.reportedTokens, b.reportedTokens, cost.tokens)
    && b.attempts == a.attempts + cost.attempts
    && (a.attempts <= limits.maxAttempts ==> b.attempts <= limits.maxAttempts)
    && b.toolCalls == a.toolCalls + cost.calls
    && (a.toolCalls <= limits.maxCallsPerTurn ==> b.toolCalls <= limits.maxCallsPerTurn)
    && b.resultBytes == a.resultBytes + cost.bytes
    && (!over && a.resultBytes <= limits.maxTurnResultBytes ==> b.resultBytes <= limits.maxTurnResultBytes)
  }

  lemma WithinOn(a: Counters, b: Counters, c: Counters, limits: Limits, x: bool, y: bool, xs: Cost, ys: Cost)
    requires Within(a, b, limits, x, xs) && Within(b, c, limits, y, ys)
    ensures Within(a, c, limits, x || y, Plus(xs, ys))
  {
  }

  // ----- one attempt

  // The attempts of the session after one more attempt of the step.
  function AttemptsAfter(a: Attempts, end: AttemptEnd): Attempts {
    match end
    case Barred => a
    case Unsent(_) => a
    case Interrupted => Attempts(Open, a.begun + 1, a.ended, a.retired)
    case Withheld(_, _) => Attempts(Open, a.begun + 1, a.ended, a.retired)
    case Retried(_, _, _, _) => Attempts(NoAttempt, a.begun + 1, a.ended + [Retry], a.retired + 1)
    case Answered(_, _, _, _, _) => Attempts(NoAttempt, a.begun + 1, a.ended + [Committed], a.retired + 1)
  }

  predicate AttemptsAre<T>(after: Attempts, expected: Attempts, r: Result<T, Failure>) {
    after == expected || (r.Err? && r.error.Fatal?)
  }

  // How an attempt ended the step: its answer says so, and without one what is told is true.
  ghost predicate DoneTrue(durable: bool, resolution: StepResolution, end: AttemptEnd, b: Snap, limits: Limits, tries: nat) {
    && !end.Withheld?
    && resolution.stop == StopOfRound(end)
    && (if end.Answered? then AnswerTold(end, resolution, b.now) else OutcomeHolds(resolution.outcome, b, limits, tries))
    && (end.Answered? ==> BlocksComplete(end.calls, end.blocks) || LostInMemory(durable, end.blocks))
    && (resolution.outcome.Continue? || resolution.outcome.Completed? || resolution.outcome.MaxTokens? ==>
          && end.Answered? && BlocksComplete(end.calls, end.blocks) && LossesOf(end.blocks) == []
          && resolution.stop == NoStop)
    && (resolution.outcome.Continue? ==> !b.now.durableLimit && !b.now.observerUnavailable)
  }

  // What an answer makes of its step: the stop of its round counts first, then a lost
  // observer, then the answer itself. In a round a ceiling is told as such.
  predicate AnswerTold(end: AttemptEnd, resolution: StepResolution, now: Counters)
    requires end.Answered?
  {
    && (end.stop.Some? <==> end.calls != [])
    && AnswerSays(end, resolution, now)
  }

  predicate AnswerSays(end: AttemptEnd, resolution: StepResolution, now: Counters)
    requires end.Answered?
  {
    || (end.stop.Some? && now.durableLimit && resolution.outcome == ErrorOutcome(SessionLimit))
    || (now.observerUnavailable && resolution.outcome == ErrorOutcome(ErrorCode.ObserverUnavailable))
    || (resolution.stop == NoStop && AnswerDecides(end, resolution.outcome))
    || (resolution.stop != NoStop && (resolution.outcome.Cancelled? || resolution.outcome == ErrorOutcome(TurnTimeout)
                                      || resolution.outcome == ErrorOutcome(ToolExecutor)))
  }

  // ----- opening

  // The limits that are looked at before every attempt (src/agent/mod.rs:1786-1801).
  method Gate(d: Driver, w: World) returns (outcome: Option<StepOutcome>)
    modifies w
    ensures Later(old(w.env), w.env, w.env.firstStop)
    ensures outcome.None? ==> d.now.attempts < d.limits.maxAttempts && IsRunning(w.env)
    ensures outcome.Some? ==>
      IsStop(outcome.value, w.env) || (outcome.value == ErrorOutcome(MaxAttempts) && d.now.attempts >= d.limits.maxAttempts)
  {
    outcome := Stopped(w);
    if outcome.None? && d.now.attempts >= d.limits.maxAttempts {
      outcome := Some(ErrorOutcome(MaxAttempts));
    }
  }

  method Stopped(w: World) returns (outcome: Option<StepOutcome>)
    modifies w
    ensures Later(old(w.env), w.env, w.env.firstStop)
    ensures outcome.Some? ==> IsStop(outcome.value, w.env)
    ensures outcome.None? ==> IsRunning(w.env)
  {
    var stop := w.SampleStop();
    match stop {
      case NoStop => outcome := None;
      case StopCancelled => outcome := Some(StepOutcome.Cancelled);
      case StopTimeout => outcome := Some(ErrorOutcome(TurnTimeout));
    }
  }

  // An ordinary append of the step; a ceiling ends the step.
  method AppendRow(s: Session, d: Driver, e: Event) returns (r: Result<Option<StepOutcome>, Failure>)
    requires s.Valid() && !e.StepEnd? && !e.TurnEnd? && Agree(s, d)
    modifies s, d
    ensures s.Valid() && FlagsRise(old(d.now), d.now) && d.now.observerUnavailable == old(d.now).observerUnavailable
    ensures Agreed(s, d)
    ensures s.st == if r.Ok? && r.value.None? then Appended(old(s.st), e) else old(s.st)
    ensures r.Ok? && r.value.Some? ==> IsCeiling(r.value.value, d.now, s.marks)
    ensures r.Err? ==> !IsLoopBug(r.error)
  {
    var appended := s.Append(e);
    if appended.Ok? {
      return Ok(None);
    }
    r := NoRoomFor(d, appended.error);
  }

  // The request header is logged when it is new; it does not change the surface.
  method WriteHeader(s: Session, d: Driver, w: World)
    returns (r: Result<Option<StepOutcome>, Failure>, ghost notes: seq<Event>)
    requires s.Valid() && Agree(s, d)
    modifies s, d
    ensures s.Valid() && Agreed(s, d) && s.st.attempts == old(s.st).attempts && s.st.slots == old(s.st).slots
    ensures s.st.surface == old(s.st).surface
    ensures Ran(old(s.st), s.st, notes, {})
    ensures |notes| <= 1 && forall i :: 0 <= i < |notes| ==> IsNote(notes[i])
    ensures d.now == old(d.now).(headerLogged := d.now.headerLogged, durableLimit := d.now.durableLimit)
    ensures FlagsKept(old(d.now), d.now)
    ensures r.Ok? && r.value.Some? ==> IsCeiling(r.value.value, d.now, s.marks)
    ensures r.Err? ==> !IsLoopBug(r.error)
  {
    hide Ran;
    ghost var a := s.st;
    notes := [];
    RanQuietly(a, a, {});
    r := Ok(None);
    var changed := w.Flip();
    if !d.now.headerLogged || changed {
      var header := w.Number();
      r := AppendRow(s, d, RequestHeader(header));
      if r.Err? || r.value.Some? {
        return;
      }
      d.now := d.now.(headerLogged := true);
      notes := [RequestHeader(header)];
      RanOneMore(a, s.st, RequestHeader(header), {});
    }
  }

  // So is the context, behind the header (src/agent/mod.rs:1856-1919).
  method WriteNotes(s: Session, d: Driver, w: World)
    returns (r: Result<Option<StepOutcome>, Failure>, ghost notes: seq<Event>)
    requires s.Valid() && Agree(s, d)
    modifies s, d
    ensures s.Valid() && Agreed(s, d) && s.st.attempts == old(s.st).attempts && s.st.slots == old(s.st).slots
    ensures s.st.surface == old(s.st).surface
    ensures Ran(old(s.st), s.st, notes, {})
    ensures |notes| <= 2 && forall i :: 0 <= i < |notes| ==> IsNote(notes[i])
    ensures d.now == old(d.now).(headerLogged := d.now.headerLogged, durableLimit := d.now.durableLimit)
    ensures FlagsKept(old(d.now), d.now)
    ensures r.Ok? && r.value.Some? ==> IsCeiling(r.value.value, d.now, s.marks)
    ensures r.Err? ==> !IsLoopBug(r.error)
  {
    hide Ran, Agree;
    ghost var a := s.st;
    r, notes := WriteHeader(s, d, w);
    if r.Err? || r.value.Some? {
      return;
    }
    ghost var b := s.st;
    var changed := w.Flip();
    if changed {
      var context := w.Number();
      r := AppendRow(s, d, RequestContext(context));
      if r.Ok? && r.value.None? {
        RanOneMore(b, s.st, RequestContext(context), {});
        RanOn(a, b, s.st, notes, [RequestContext(context)], {}, {});
        notes := notes + [RequestContext(context)];
      }
    }
  }

  // Everything up to the barrier before the dispatch. The request that is to be sent is
  // compared with the surface once more; it always matches (src/agent/mod.rs:1803-1960).
  method PrepareDispatch(s: Session, d: Driver, w: World, prepared: Option<Preparation>)
    returns (r: Result<Option<StepOutcome>, Failure>, request: Preparation, ghost notes: seq<Event>)
    requires s.Valid() && Agree(s, d) && s.st.attempts.phase.NoAttempt?
    requires prepared.Some? ==> MatchesSurface(prepared.value, s.st.surface) && Told(prepared.value, w.env.fault)
    modifies s, d, w
    ensures s.Valid() && Agreed(s, d) && s.st.attempts == old(s.st).attempts && s.st.slots == old(s.st).slots
    ensures Ran(old(s.st), s.st, notes, {})
    ensures |notes| <= 2 && forall i :: 0 <= i < |notes| ==> IsNote(notes[i])
    ensures d.now == old(d.now).(headerLogged := d.now.headerLogged, durableLimit := d.now.durableLimit, observerUnavailable := d.now.observerUnavailable)
    ensures FlagsKept(old(d.now), d.now)
    ensures Drift(old(w.env), w.env)
    ensures r.Ok? && r.value.Some? ==> OutcomeHolds(r.value.value, Look(s, d, w), d.limits, 0)
    ensures r.Ok? && r.value.None? ==> request.Ready? && MatchesSurface(request, s.st.surface) && MayDispatch(s.st, w.env)
    ensures r.Err? ==> !IsLoopBug(r.error)
  {
    hide Ran, OutcomeHolds, IsCeiling;
    ghost var a := s.st;
    notes := [];
    RanQuietly(a, a, {});
    var early;
    early, request := ChooseRequest(s, d, w, prepared);
    if early.Some? {
      return Ok(early), request, notes;
    }
    r, notes := WriteNotes(s, d, w);
    CeilingHolds(r, Look(s, d, w), d.limits);
    if r.Err? || r.value.Some? {
      return;
    }
    ghost var b := s.st;
    r := BuildRequest(s, d, w, request);
    RanStill(a, b, s.st, notes);
  }

  // The last comparison with the surface, the request that is built, and the barrier.
  method BuildRequest(s: Session, d: Driver, w: World, request: Preparation) returns (r: Result<Option<StepOutcome>, Failure>)
    requires s.Valid() && Agree(s, d) && s.st.attempts.phase.NoAttempt?
    requires (request.Ready? || request.PreparedFailure?) && MatchesSurface(request, s.st.surface) && Told(request, w.env.fault)
    modifies s, d, w
    ensures s.Valid() && Agreed(s, d) && s.st == old(s.st).(visible := s.st.visible) && FlagsRise(old(d.now), d.now)
    ensures Drift(old(w.env), w.env)
    ensures r.Ok? && r.value.Some? ==> OutcomeHolds(r.value.value, Look(s, d, w), d.limits, 0)
    ensures r.Ok? && r.value.None? ==> request.Ready? && MayDispatch(s.st, w.env)
    ensures r.Err? ==> !IsLoopBug(r.error)
  {
    hide OutcomeHolds;
    if request.PreparedFailure? {
      FaultHolds(request.code, Look(s, d, w), d.limits);
      return Ok(Some(ErrorOutcome(request.code)));
    }
    if !MatchesSurface(request, s.st.surface) {
      return Err(SurfaceChanged);
    }
    var unbuilt := w.Fails(Request);
    if unbuilt {
      FaultHolds(Request, Look(s, d, w), d.limits);
      return Ok(Some(ErrorOutcome(Request)));
    }
    r := PassBarrier(s, d, w);
  }

  // The request that was prepared before the step, or a new one.
  method ChooseRequest(s: Session, d: Driver, w: World, prepared: Option<Preparation>)
    returns (early: Option<StepOutcome>, request: Preparation)
    requires prepared.Some? ==> MatchesSurface(prepared.value, s.st.surface) && Told(prepared.value, w.env.fault)
    modifies w
    ensures w.env == old(w.env).(fault := w.env.fault)
    ensures early.Some? ==> OutcomeHolds(early.value, Look(s, d, w), d.limits, 0)
    ensures early.None? ==> (request.Ready? || request.PreparedFailure?) && MatchesSurface(request, s.st.surface) && Told(request, w.env.fault)
  {
    hide OutcomeHolds;
    if prepared.Some? {
      request := prepared.value;
    } else {
      request := Prepare(s, w, []);
      assert s.st.surface.messages + [] == s.st.surface.messages;
    }
    early := Unsendable(w, request);
    if early.Some? {
      FaultHolds(early.value.code, Look(s, d, w), d.limits);
    }
  }

  lemma RanStill(a: State, b: State, c: State, events: seq<Event>)
    requires Ran(a, b, events, {}) && c == b.(visible := c.visible)
    ensures Ran(a, c, events, {})
  {
  }

  // A preparation that ends the step before anything is written.
  method Unsendable(w: World, p: Preparation) returns (early: Option<StepOutcome>)
    requires Told(p, w.env.fault)
    modifies w
    ensures w.env == old(w.env).(fault := w.env.fault)
    ensures early.Some? ==> early.value.ErrorOutcome? && IsFault(early.value.code) && w.env.fault == Some(early.value.code)
    ensures early.None? ==> (p.Ready? || p.PreparedFailure?) && w.env == old(w.env)
  {
    match p {
      case Deferred(code) => early := Some(ErrorOutcome(code));
      case HardLimit => early := Some(ErrorOutcome(ContextLimit));
      case _ =>
        var overOutputLimit := w.Fails(MaxOutputTokens);
        early := if overOutputLimit then Some(ErrorOutcome(MaxOutputTokens)) else None;
    }
  }

  // A request is sent only while nothing has stopped the turn and everything before it is
  // stored and visible.
  predicate MayDispatch(st: State, env: Env) {
    IsRunning(env) && st.visible == |st.log|
  }

  // The barrier before the dispatch, and the last look before it.
  method PassBarrier(s: Session, d: Driver, w: World) returns (r: Result<Option<StepOutcome>, Failure>)
    requires s.Valid() && Agree(s, d) && s.st.attempts.phase.NoAttempt?
    modifies s, d, w
    ensures s.Valid() && Agreed(s, d) && s.st == old(s.st).(visible := s.st.visible) && FlagsRise(old(d.now), d.now)
    ensures Later(old(w.env), w.env, w.env.firstStop)
    ensures r.Ok? && r.value.Some? ==> OutcomeHolds(r.value.value, Look(s, d, w), d.limits, 0)
    ensures r.Ok? && r.value.None? ==> MayDispatch(s.st, w.env)
    ensures r.Err? ==> !IsLoopBug(r.error)
  {
    hide OutcomeHolds, IsStop;
    var barrier :- s.FlushBarrier();
    if barrier.ObserverUnavailable? {
      d.LatchObserverFault();
      UnseenHolds(Look(s, d, w), d.limits);
      return Ok(Some(ErrorOutcome(ErrorCode.ObserverUnavailable)));
    }
    var stop := Stopped(w);
    StopHolds(stop, Look(s, d, w), d.limits);
    r := Ok(stop);
  }

  // ----- the stream

  // What was reported stays within the limit of the turn.
  predicate WithinTokens(d: Driver, now: Counters) {
    now.reportedTokens <= d.limits.maxReportedTokens
  }

  // What reading a stream leaves: these chunks in the log, and their tokens counted.
  ghost predicate ReadSoFar(a: Snap, b: Snap, chunks: seq<nat>) {
    && b.st.attempts == a.st.attempts && b.st.slots == a.st.slots
    && Ran(a.st, b.st, Chunks(chunks), {})
    && FlagsKept(a.now, b.now)
    && b.now == a.now.(reportedTokens := b.now.reportedTokens, durableLimit := b.now.durableLimit)
    && Tallied(a.now.reportedTokens, b.now.reportedTokens, SumOf(chunks))
    && Drift(a.env, b.env)
  }

  // Read the provider's stream into the log, chunk by chunk; it is finite
  // (src/agent/mod.rs:2210-2315).
  method ConsumeStream(s: Session, d: Driver, w: World)
    returns (r: Result<Option<StepOutcome>, Failure>, ghost chunks: seq<nat>)
    requires s.Valid() && Agree(s, d) && s.st.attempts.phase.Open?
    modifies s, d, w
    ensures s.Valid() && Agreed(s, d) && ReadSoFar(old(Look(s, d, w)), Look(s, d, w), chunks)
    ensures r.Ok? && r.value.Some? ==> OutcomeHolds(r.value.value, Look(s, d, w), d.limits, 0)
    ensures r.Ok? && r.value.None? && WithinTokens(d, old(d.now)) ==> WithinTokens(d, d.now)
    ensures r.Ok? && r.value.None? ==> IsRunning(w.env)
    ensures r.Err? ==> !IsLoopBug(r.error)
  {
    hide ReadSoFar, Agree, WithinTokens, Tallied, FlagsKept, OutcomeHolds;
    ghost var a := Look(s, d, w);
    chunks := [];
    ReadNothing(a);
    var items := w.Number();
    while items > 0
      invariant s.Valid() && Agreed(s, d) && s.st.attempts.phase.Open?
      invariant ReadSoFar(a, Look(s, d, w), chunks)
      invariant WithinTokens(d, a.now) ==> WithinTokens(d, d.now)
    {
      items := items - 1;
      ghost var b := Look(s, d, w);
      ghost var kept;
      r, kept := ReadChunk(s, d, w);
      ReadOn(a, b, Look(s, d, w), chunks, kept);
      chunks := chunks + if kept.Some? then [kept.value] else [];
      if r.Err? || r.value.Some? {
        return;
      }
    }
    ghost var c := Look(s, d, w);
    r := Seal(s, d, w);
    ReadSealed(a, c, Look(s, d, w), d, chunks);
  }

  lemma ReadNothing(a: Snap)
    ensures ReadSoFar(a, a, [])
  {
    RanQuietly(a.st, a.st, {});
    assert Chunks([]) == [];
  }

  lemma ReadOn(a: Snap, b: Snap, c: Snap, chunks: seq<nat>, kept: Option<nat>)
    requires ReadSoFar(a, b, chunks)
    requires c.st == if kept.Some? then Appended(b.st, AssistantChunk(kept.value)) else b.st
    requires FlagsKept(b.now, c.now)
    requires c.now == b.now.(reportedTokens := c.now.reportedTokens, durableLimit := c.now.durableLimit)
    requires Tallied(b.now.reportedTokens, c.now.reportedTokens, if kept.Some? then kept.value else 0)
    requires Drift(b.env, c.env)
    ensures ReadSoFar(a, c, chunks + if kept.Some? then [kept.value] else [])
  {
    hide Ran, Chunks, SumOf;
    if kept.Some? {
      RanOneMore(b.st, c.st, AssistantChunk(kept.value), {});
      RanOn(a.st, b.st, c.st, Chunks(chunks), [AssistantChunk(kept.value)], {}, {});
      OneMoreChunk(chunks, kept.value);
    } else {
      assert chunks + [] == chunks;
    }
  }

  lemma ReadSealed(a: Snap, b: Snap, c: Snap, d: Driver, chunks: seq<nat>)
    requires ReadSoFar(a, b, chunks) && c.st == b.st && FlagsRise(b.now, c.now)
    requires c.now.observerUnavailable == b.now.observerUnavailable && Drift(b.env, c.env)
    ensures ReadSoFar(a, c, chunks) && (WithinTokens(d, b.now) ==> WithinTokens(d, c.now))
  {
    hide Ran, Chunks, SumOf;
  }

  lemma OneMoreChunk(chunks: seq<nat>, usage: nat)
    ensures Chunks(chunks) + [AssistantChunk(usage)] == Chunks(chunks + [usage])
    ensures SumOf(chunks + [usage]) == SumOf(chunks) + usage
  {
    assert (chunks + [usage])[..|chunks|] == chunks;
  }

  // One item of the stream; kept is what the chunk reports, once it is in the log.
  method ReadChunk(s: Session, d: Driver, w: World) returns (r: Result<Option<StepOutcome>, Failure>, ghost kept: Option<nat>)
    requires s.Valid() && Agree(s, d) && s.st.attempts.phase.Open?
    modifies s, d, w
    ensures s.Valid() && Agreed(s, d)
    ensures s.st == if kept.Some? then Appended(old(s.st), AssistantChunk(kept.value)) else old(s.st)
    ensures FlagsKept(old(d.now), d.now)
    ensures d.now == old(d.now).(reportedTokens := d.now.reportedTokens, durableLimit := d.now.durableLimit)
    ensures Tallied(old(d.now).reportedTokens, d.now.reportedTokens, if kept.Some? then kept.value else 0)
    ensures Drift(old(w.env), w.env)
    ensures r.Ok? && r.value.Some? ==> OutcomeHolds(r.value.value, Look(s, d, w), d.limits, 0)
    ensures r.Ok? && r.value.None? ==> kept.Some? && (WithinTokens(d, old(d.now)) ==> WithinTokens(d, d.now))
    ensures r.Err? ==> !IsLoopBug(r.error)
  {
    kept := None;
    hide OutcomeHolds, IsStop, Agree;
    var stop := Stopped(w);
    StopHolds(stop, Look(s, d, w), d.limits);
    if stop.Some? {
      return Ok(stop), kept;
    }
    var broken := w.Fails(ProviderFailure);
    if broken {
      FaultHolds(ProviderFailure, Look(s, d, w), d.limits);
      return Ok(Some(ErrorOutcome(ProviderFailure))), kept;
    }
    r, kept := KeepChunk(s, d, w);
  }

  // A chunk that arrived: it is appended unless it breaks the protocol of the stream, and
  // the tokens it reports are counted.
  method KeepChunk(s: Session, d: Driver, w: World) returns (r: Result<Option<StepOutcome>, Failure>, ghost kept: Option<nat>)
    requires s.Valid() && Agree(s, d) && s.st.attempts.phase.Open?
    modifies s, d, w
    ensures s.Valid() && Agreed(s, d)
    ensures s.st == if kept.Some? then Appended(old(s.st), AssistantChunk(kept.value)) else old(s.st)
    ensures FlagsKept(old(d.now), d.now)
    ensures d.now == old(d.now).(reportedTokens := d.now.reportedTokens, durableLimit := d.now.durableLimit)
    ensures Tallied(old(d.now).reportedTokens, d.now.reportedTokens, if kept.Some? then kept.value else 0)
    ensures Drift(old(w.env), w.env)
    ensures r.Ok? && r.value.Some? ==> OutcomeHolds(r.value.value, Look(s, d, w), d.limits, 0)
    ensures r.Ok? && r.value.None? ==> kept.Some? && (WithinTokens(d, old(d.now)) ==> WithinTokens(d, d.now))
    ensures r.Err? ==> !IsLoopBug(r.error)
  {
    hide OutcomeHolds;
    kept := None;
    var reports := w.Flip();
    var usage: nat := 0;
    if reports {
      usage := w.Number();
    }
    var illegal := w.Fails(ProviderFailure);
    var appended := s.AppendChunk(usage, !illegal);
    if appended.Err? {
      r := NoRoomFor(d, appended.error);
      CeilingHolds(r, Look(s, d, w), d.limits);
      return;
    }
    if appended.value.InvalidChunk? {
      FaultHolds(ProviderFailure, Look(s, d, w), d.limits);
      return Ok(Some(ErrorOutcome(ProviderFailure))), kept;
    }
    kept := Some(usage);
    if !reports {
      return Ok(None), kept;
    }
    var over := d.ReportTokens(usage);
    if over {
      TokensHold(Look(s, d, w), d.limits);
    }
    r := Ok(if over then Some(ErrorOutcome(TokenBudget)) else None);
  }

  // The end of the stream: the attempt is sealed, unless it is incomplete or too large.
  method Seal(s: Session, d: Driver, w: World) returns (r: Result<Option<StepOutcome>, Failure>)
    requires s.Valid() && Agree(s, d)
    modifies s, d, w
    ensures s.Valid() && s.st == old(s.st) && Agreed(s, d)
    ensures FlagsRise(old(d.now), d.now) && d.now.observerUnavailable == old(d.now).observerUnavailable
    ensures Drift(old(w.env), w.env)
    ensures r.Ok? && r.value.Some? ==> OutcomeHolds(r.value.value, Look(s, d, w), d.limits, 0)
    ensures r.Ok? && r.value.None? ==> IsRunning(w.env)
    ensures r.Err? ==> !IsLoopBug(r.error)
  {
    var incomplete := w.Fails(ProviderFailure);
    if incomplete {
      return Ok(Some(ErrorOutcome(ProviderFailure)));
    }
    var sealed := s.SealAttempt();
    if sealed.Err? {
      r := NoRoomFor(d, sealed.error);
      return;
    }
    var stop := Stopped(w);
    r := Ok(stop);
  }

  // ----- a retry

  datatype Choice =
    | GiveUp(outcome: StepOutcome)
    | Try(key: nat, id: Id, number: nat)

  // Whether and under which number to try again. The policy is asked without a
  // sample first; when it needs one it cannot refuse any more
  // (src/agent/mod.rs:2040-2084).
  method ChooseRetry(ghost s: Session, d: Driver, w: World, chains: map<nat, RetryChain>, retriesInStep: nat) returns (r: Result<Choice, Failure>)
    requires w.env.fault == Some(ProviderFailure)
    modifies w
    ensures Later(old(w.env), w.env, w.env.firstStop)
    ensures r.Ok? && r.value.GiveUp? ==> OutcomeHolds(r.value.outcome, Look(s, d, w), d.limits, retriesInStep)
    ensures r.Ok? && r.value.Try? ==>
      && NextInChain(chains, Retried(r.value.key, r.value.id, r.value.number, Unseen))
      && retriesInStep < d.limits.maxRetries && d.now.attempts < d.limits.maxAttempts
    ensures r.Err? ==> !IsLoopBug(r.error)
  {
    var stop := w.IsCancelled();
    if stop {
      return Ok(GiveUp(StepOutcome.Cancelled));
    }
    var key := w.Number();
    var policy: Retries.RetryPolicy := *;
    var error: Retries.ProviderError := *;
    var number := if key in chains then chains[key].latest + 1 else 1;
    var decision := Retries.Decide(policy, error, number, None);
    if decision.Stop? {
      return Ok(GiveUp(ErrorOutcome(ProviderFailure)));
    }
    if retriesInStep >= d.limits.maxRetries {
      return Ok(GiveUp(ErrorOutcome(MaxRetries)));
    }
    if d.now.attempts >= d.limits.maxAttempts {
      return Ok(GiveUp(ErrorOutcome(MaxAttempts)));
    }
    if decision.NeedsSample? {
      var sample: real := *;
      var valid := w.Flip();
      if !valid {
        return Err(Failure.Rejected);
      }
      Retries.SampleDecidesOnce(policy, error, number, sample);
      decision := Retries.Decide(policy, error, number, Some(sample));
    }
    assert decision.RetryIn?;
    if key in chains {
      return Ok(Try(key, chains[key].id, number));
    }
    var id :- w.NewId();
    return Ok(Try(key, id, number));
  }

  // Wait, look for a stop once more, and log that the retry started
  // (src/agent/mod.rs:2153-2189).
  method StartRetry(s: Session, d: Driver, w: World, id: Id, number: nat)
    returns (r: Result<Option<StepOutcome>, Failure>, ghost started: bool)
    requires s.Valid() && Agree(s, d)
    modifies s, d, w
    ensures s.Valid() && Agreed(s, d) && s.st == if started then Appended(old(s.st), LlmRetryStarted(id, number)) else old(s.st)
    ensures FlagsRise(old(d.now), d.now) && Later(old(w.env), w.env, w.env.firstStop)
    ensures r.Ok? ==> (started <==> r.value.None?)
    ensures started ==> IsRunning(w.env)
    ensures r.Ok? && r.value.Some? ==> OutcomeHolds(r.value.value, Look(s, d, w), d.limits, 0)
    ensures r.Err? ==> !IsLoopBug(r.error)
  {
    started := false;
    var stop := Stopped(w);
    if stop.Some? {
      return Ok(stop), started;
    }
    r := AppendRow(s, d, LlmRetryStarted(id, number));
    started := r.Ok? && r.value.None?;
  }

  // Close the failed attempt with its retry row, wait, and start the retry. Without
  // an outcome the step goes on (src/agent/mod.rs:2040-2191).
  method ScheduleRetry(s: Session, d: Driver, w: World, chains: map<nat, RetryChain>, retriesInStep: nat)
    returns (r: Result<Option<StepOutcome>, Failure>, next: Option<Choice>, ghost end: AttemptEnd)
    requires s.Valid() && Agree(s, d) && s.st.attempts.phase.Open? && w.env.fault == Some(ProviderFailure)
    modifies s, d, w
    ensures s.Valid() && Agreed(s, d) && RetryScheduled(old(s.st), s.st, chains, r, end)
    ensures r.Ok? && r.value.Some? ==> OutcomeHolds(r.value.value, Look(s, d, w), d.limits, retriesInStep)
    ensures FlagsKept(old(d.now), d.now) && Later(old(w.env), w.env, w.env.firstStop)
    ensures d.now == old(d.now).(retries := d.now.retries, durableLimit := d.now.durableLimit, observerUnavailable := d.now.observerUnavailable)
    ensures d.now.retries == old(d.now).retries + if end.Retried? && !end.fate.Unseen? then 1 else 0
    ensures end.Retried? ==> retriesInStep < d.limits.maxRetries && d.now.attempts < d.limits.maxAttempts
    ensures r.Ok? && r.value.None? ==>
      && end.Retried? && next == Some(Try(end.key, end.retryId, end.number))
  {
    hide Ran, AttemptClosing, OutcomeHolds, Agree;
    end, next := Interrupted, None;
    ghost var a := s.st;
    var choice := ChooseRetry(s, d, w, chains, retriesInStep);
    if choice.Err? || choice.value.GiveUp? {
      r := if choice.Err? then Err(choice.error) else Ok(Some(choice.value.outcome));
      StillOpen(a, chains, r);
      return;
    }
    var id, number := choice.value.id, choice.value.number;
    ghost var closed, done;
    r, closed, done := CloseForRetry(s, d, w, LlmRetry(choice.value.key, id, number));
    ghost var b := s.st;
    if done {
      end := Retried(choice.value.key, id, number, Unseen);
    }
    if r.Ok? && r.value.Some? {
      MoreTries(r.value.value, Look(s, d, w), d.limits, retriesInStep);
    }
    if closed.Err? {
      RetryNotClosed(a, b, chains, choice.value, closed, done, r);
    } else {
      RetryClosed(a, b, chains, choice.value, closed, done);
    }
    if r.Err? || r.value.Some? {
      return;
    }
    next := Some(choice.value);
    r, end := FollowRetry(s, d, w, chains, choice.value, a);
    if r.Ok? && r.value.Some? {
      MoreTries(r.value.value, Look(s, d, w), d.limits, retriesInStep);
    }
  }

  // The retry row closes the failed attempt; an outcome says that it did not, or that the
  // observer did not see it.
  method CloseForRetry(s: Session, d: Driver, ghost w: World, row: Event)
    returns (r: Result<Option<StepOutcome>, Failure>, ghost closed: Result<bool, Failure>, ghost done: bool)
    requires s.Valid() && Agree(s, d) && s.st.attempts.phase.Open? && !row.StepEnd? && !row.TurnEnd?
    modifies s, d
    ensures s.Valid() && Agreed(s, d) && FlagsRise(old(d.now), d.now)
    ensures AttemptClosing(old(s.st), s.st, row, Retry, {}, closed, done)
    ensures r.Ok? && r.value.Some? ==> OutcomeHolds(r.value.value, Look(s, d, w), d.limits, 0)
    ensures r.Ok? && r.value.None? ==> closed.Ok? && done
    ensures closed.Err? ==> if r.Ok? then IsBudget(closed.error) && r.value.Some? else r.error == closed.error
    ensures closed.Ok? ==> r == Ok(if closed.value then None else Some(ErrorOutcome(ErrorCode.ObserverUnavailable)))
  {
    hide Ran, OutcomeHolds;
    var end;
    end, done := CloseByAppend(s, d, Retry, row);
    closed := end;
    if end.Err? {
      r := NoRoomFor(d, end.error);
      CeilingHolds(r, Look(s, d, w), d.limits);
    } else if end.value {
      r := Ok(None);
    } else {
      r := Ok(Some(ErrorOutcome(ErrorCode.ObserverUnavailable)));
      UnseenHolds(Look(s, d, w), d.limits);
    }
  }

  // The retry is scheduled and seen: count it, wait, and start it.
  method FollowRetry(s: Session, d: Driver, w: World, ghost chains: map<nat, RetryChain>, choice: Choice, ghost a: State)
    returns (r: Result<Option<StepOutcome>, Failure>, ghost end: AttemptEnd)
    requires s.Valid() && Agree(s, d) && choice.Try?
    requires RetryScheduled(a, s.st, chains, Ok(Some(ErrorOutcome(ErrorCode.ObserverUnavailable))),
                            Retried(choice.key, choice.id, choice.number, Unseen))
    modifies s, d, w
    ensures s.Valid() && Agreed(s, d) && RetryScheduled(a, s.st, chains, r, end)
    ensures r.Ok? && r.value.Some? ==> OutcomeHolds(r.value.value, Look(s, d, w), d.limits, 0)
    ensures end.Retried? && !end.fate.Unseen? && choice == Try(end.key, end.retryId, end.number)
    ensures FlagsRise(old(d.now).(retries := old(d.now).retries + 1), d.now) && Later(old(w.env), w.env, w.env.firstStop)
  {
    hide RetryScheduled;
    ghost var b := s.st;
    d.now := d.now.(retries := d.now.retries + 1);
    ghost var started;
    r, started := StartRetry(s, d, w, choice.id, choice.number);
    end := Retried(choice.key, choice.id, choice.number, if started then Resumed else Waited);
    RetryStarted(a, b, s.st, chains, choice, r, started);
  }

  // What scheduling a retry leaves: the attempt still open, or closed and retired
  // with its retry row, which may have been started.
  ghost predicate RetryScheduled(a: State, b: State, chains: map<nat, RetryChain>, r: Result<Option<StepOutcome>, Failure>, end: AttemptEnd) {
    && b.slots == a.slots
    && Ran(a, b, EndEvents(end), {})
    && (end.Interrupted? || end.Retried?)
    && NextInChain(chains, end)
    && (end.Interrupted? ==> b.attempts == a.attempts)
    && (end.Retried? ==> AttemptsAre(b.attempts, Retired(a.attempts, Retry), r))
    && (r.Ok? && r.value.None? ==> end.Retried? && end.fate.Resumed?)
    && (r.Err? ==> !IsLoopBug(r.error))
  }

  lemma StillOpen(a: State, chains: map<nat, RetryChain>, r: Result<Option<StepOutcome>, Failure>)
    requires r.Ok? ==> r.value.Some?
    requires r.Err? ==> !IsLoopBug(r.error)
    ensures RetryScheduled(a, a, chains, r, Interrupted)
  {
    RanQuietly(a, a, {});
  }

  lemma RetryNotClosed(a: State, b: State, chains: map<nat, RetryChain>, choice: Choice,
                       closed: Result<bool, Failure>, done: bool, r: Result<Option<StepOutcome>, Failure>)
    requires choice.Try? && NextInChain(chains, Retried(choice.key, choice.id, choice.number, Unseen))
    requires AttemptClosing(a, b, LlmRetry(choice.key, choice.id, choice.number), Retry, {}, closed, done) && closed.Err?
    requires r.Ok? ==> IsBudget(closed.error) && r.value.Some?
    requires r.Err? ==> r.error == closed.error
    ensures RetryScheduled(a, b, chains, r, if done then Retried(choice.key, choice.id, choice.number, Unseen) else Interrupted)
  {
    assert [LlmRetry(choice.key, choice.id, choice.number)] + [] == [LlmRetry(choice.key, choice.id, choice.number)];
  }

  lemma RetryClosed(a: State, b: State, chains: map<nat, RetryChain>, choice: Choice, closed: Result<bool, Failure>, done: bool)
    requires choice.Try? && NextInChain(chains, Retried(choice.key, choice.id, choice.number, Unseen))
    requires AttemptClosing(a, b, LlmRetry(choice.key, choice.id, choice.number), Retry, {}, closed, done) && closed.Ok?
    ensures done && b.attempts.phase.NoAttempt?
    ensures RetryScheduled(a, b, chains, Ok(Some(ErrorOutcome(ErrorCode.ObserverUnavailable))),
                           Retried(choice.key, choice.id, choice.number, Unseen))
  {
    assert [LlmRetry(choice.key, choice.id, choice.number)] + [] == [LlmRetry(choice.key, choice.id, choice.number)];
  }

  lemma RetryStarted(a: State, b: State, c: State, chains: map<nat, RetryChain>, choice: Choice,
                     r: Result<Option<StepOutcome>, Failure>, started: bool)
    requires choice.Try?
    requires RetryScheduled(a, b, chains, Ok(Some(ErrorOutcome(ErrorCode.ObserverUnavailable))),
                            Retried(choice.key, choice.id, choice.number, Unseen))
    requires c == if started then Appended(b, LlmRetryStarted(choice.id, choice.number)) else b
    requires r.Ok? ==> (started <==> r.value.None?)
    requires r.Err? ==> !IsLoopBug(r.error)
    ensures RetryScheduled(a, c, chains, r, Retried(choice.key, choice.id, choice.number, if started then Resumed else Waited))
  {
    if started {
      var e := LlmRetryStarted(choice.id, choice.number);
      RanOneMore(b, c, e, {});
      RanOn(a, b, c, EndEvents(Retried(choice.key, choice.id, choice.number, Unseen)), [e], {}, {});
      assert EndEvents(Retried(choice.key, choice.id, choice.number, Unseen)) + [e]
          == EndEvents(Retried(choice.key, choice.id, choice.number, Resumed));
    }
  }

  // ----- an answer

  // What committing a finished attempt leaves: the attempt still open, or committed
  // and retired with its answer and the tool round it asked for.
  ghost predicate AnswerCommitted(a: Snap, b: Snap, durable: bool, d: Driver, r: Result<StepResolution, Failure>, end: AttemptEnd) {
    && Ran(a.st, b.st, EndEvents(end), {})
    && (end.Interrupted? || end.Withheld? || end.Answered?)
    && (!end.Answered? ==> b.st.attempts == a.st.attempts)
    && (end.Answered? ==> AttemptsAre(b.st.attempts, Retired(a.st.attempts, Committed), r))
    && AnswerTrue(end) && EndGoverned(RulesOf(d), end)
    && Within(a.now, b.now, d.limits, Overran(RoundsOf(end)), AnswerCost(end))
    && b.now.retries == a.now.retries && b.now.reportedTokens == a.now.reportedTokens
    && Recorded(a.env, b.env, RoundsOf(end))
    && (r.Ok? ==> DoneTrue(durable, r.value, end, b, d.limits, 0) && SpentFrom(b.st.slots, |a.st.slots|))
    && (r.Err? ==> FailedAs(a.st, b.st, r.error, end))
  }

  // What an attempt that fails leaves live: nothing, or claims of its tool round.
  ghost predicate FailedAs(a: State, b: State, error: Failure, end: AttemptEnd) {
    && !IsLoopBug(error)
    && (!error.Fatal? ==> Accounted(b.slots, |a.slots|, AnswerLeft(end)))
  }

  lemma NotAnswered(a: Snap, b: Snap, durable: bool, d: Driver, r: Result<StepResolution, Failure>)
    requires b.st == a.st && FlagsRise(a.now, b.now) && Drift(a.env, b.env)
    requires r.Ok? ==> OutcomeHolds(r.value.outcome, b, d.limits, 0) && r.value.stop == NoStop
    requires r.Err? ==> !IsLoopBug(r.error)
    ensures AnswerCommitted(a, b, durable, d, r, Interrupted)
  {
    RanQuietly(a.st, b.st, {});
    NothingRecorded(a.env, b.env);
  }

  // An answer without tool calls (src/agent/mod.rs:2401-2432).
  method CommitPlainAnswer(s: Session, d: Driver, w: World, message: Message, maxTokens: bool)
    returns (r: Result<StepResolution, Failure>, ghost end: AttemptEnd)
    requires s.Valid() && Agree(s, d) && s.st.attempts.phase.Open?
    modifies s, d
    ensures s.Valid() && Agreed(s, d) && AnswerCommitted(old(Look(s, d, w)), Look(s, d, w), s.durable, d, r, end)
  {
    hide Ran, OutcomeHolds, AnswerCommitted;
    end := Interrupted;
    ghost var a := Look(s, d, w);
    var closed;
    ghost var done;
    closed, done := CloseByAppend(s, d, Committed, AssistantMessage(message, []));
    if done {
      end := Answered(message, [], [], None, maxTokens);
    }
    if closed.Err? {
      var early := NoRoomFor(d, closed.error);
      CeilingHolds(early, Look(s, d, w), d.limits);
      r := if early.Err? then Err(early.error) else Ok(StepResolution(early.value.value, NoStop));
    } else {
      r := Ok(StepResolution(if !closed.value then ErrorOutcome(ErrorCode.ObserverUnavailable)
                             else if maxTokens then StepOutcome.MaxTokens else StepOutcome.Completed, NoStop));
    }
    PlainAnswered(a, Look(s, d, w), s.durable, d, message, maxTokens, closed, done, r, end);
  }

  lemma PlainAnswered(a: Snap, b: Snap, durable: bool, d: Driver, message: Message, cut: bool, closed: Result<bool, Failure>,
                      done: bool, r: Result<StepResolution, Failure>, end: AttemptEnd)
    requires AttemptClosing(a.st, b.st, AssistantMessage(message, []), Committed, {}, closed, done)
    requires FlagsRise(a.now, b.now) && Drift(a.env, b.env)
    requires end == if done then Answered(message, [], [], None, cut) else Interrupted
    requires closed.Err? ==>
      if IsBudget(closed.error) then r.Ok? && OutcomeHolds(r.value.outcome, b, d.limits, 0) && r.value.stop == NoStop
      else r == Err(closed.error)
    requires closed.Ok? ==> r.Ok? && r.value.stop == NoStop
    requires closed.Ok? && closed.value ==> r.value.outcome == if cut then StepOutcome.MaxTokens else StepOutcome.Completed
    requires closed.Ok? && !closed.value ==> b.now.observerUnavailable && r.value.outcome == ErrorOutcome(ErrorCode.ObserverUnavailable)
    ensures AnswerCommitted(a, b, durable, d, r, end)
  {
    assert [AssistantMessage(message, [])] + [] == [AssistantMessage(message, [])];
    NothingRecorded(a.env, b.env);
    if !done {
      RanQuietly(a.st, b.st, {});
    }
  }

  // Commit a finished attempt: a plain answer, or an answer with its tool round
  // (src/agent/mod.rs:2318-2448). Truncated answers carry no tool calls.
  method CommitAttempt(s: Session, d: Driver, w: World) returns (r: Result<StepResolution, Failure>, ghost end: AttemptEnd)
    requires s.Valid() && Agree(s, d) && s.st.attempts.phase.Open? && IsRunning(w.env)
    modifies s, d, w
    ensures s.Valid() && (Agreed(s, d) || IsFatal(r)) && AnswerCommitted(old(Look(s, d, w)), Look(s, d, w), s.durable, d, r, end)
  {
    hide AnswerCommitted, RoundCommitted, Distinct, CallsOf, Agree;
    end := Interrupted;
    ghost var a := Look(s, d, w);
    var maxTokens := w.Truncates();
    var specs: seq<CallSpec> := *;
    if maxTokens {
      specs := [];
    }
    w.Asks(CallsOf(specs));
    var price := w.Number();
    var id := w.NewId();
    if id.Err? {
      r := Err(id.error);
      NotAnswered(a, Look(s, d, w), s.durable, d, r);
      return;
    }
    var refusal := ValidateCalls(s, d, w, specs);
    if refusal.Some? {
      r := Ok(StepResolution(refusal.value, NoStop));
      NotAnswered(a, Look(s, d, w), s.durable, d, r);
      return;
    }
    ghost var b := Look(s, d, w);
    var message := Assistant(id.value, price);
    if specs == [] {
      r, end := CommitPlainAnswer(s, d, w, message, maxTokens);
      AnswerLater(a, b, Look(s, d, w), s.durable, d, r, end);
      return;
    }
    r, end := CommitToolRound(s, d, w, message, specs);
    RoundAnswered(a, b, Look(s, d, w), s.durable, d, message, specs, r, end);
  }

  // The limits on the number of calls, and the calls themselves (src/agent/mod.rs:2457-2477).
  method ValidateCalls(ghost s: Session, d: Driver, w: World, specs: seq<CallSpec>) returns (refusal: Option<StepOutcome>)
    requires w.env.asked == CallsOf(specs)
    modifies w
    ensures w.env == old(w.env).(fault := w.env.fault)
    ensures refusal.Some? ==> OutcomeHolds(refusal.value, Look(s, d, w), d.limits, 0)
    ensures |specs| > d.limits.maxCallsPerStep || d.now.toolCalls + |specs| > d.limits.maxCallsPerTurn
      ==> refusal == Some(ErrorOutcome(MaxToolCalls))
    ensures !Distinct(specs) ==> refusal.Some?
  {
    if |specs| > d.limits.maxCallsPerStep || d.now.toolCalls + |specs| > d.limits.maxCallsPerTurn {
      return Some(ErrorOutcome(MaxToolCalls));
    }
    var misnamed := w.Fails(InvalidToolCall);
    if misnamed || !Distinct(specs) {
      return Some(ErrorOutcome(InvalidToolCall));
    }
    var unplanned := w.Fails(ToolExecutor);
    refusal := if unplanned then Some(ErrorOutcome(ToolExecutor)) else None;
  }

  lemma AnswerLater(a: Snap, b: Snap, c: Snap, durable: bool, d: Driver, r: Result<StepResolution, Failure>, end: AttemptEnd)
    requires b.st == a.st && b.now == a.now && Drift(a.env, b.env) && AnswerCommitted(b, c, durable, d, r, end)
    ensures AnswerCommitted(a, c, durable, d, r, end)
  {
  }

  lemma RoundAnswered(a: Snap, b: Snap, c: Snap, durable: bool, d: Driver, message: Message, specs: seq<CallSpec>,
                      r: Result<StepResolution, Failure>, end: AttemptEnd)
    requires b.st == a.st && b.now == a.now && Drift(a.env, b.env)
    requires a.now.toolCalls + |specs| <= d.limits.maxCallsPerTurn && 0 < |specs| <= d.limits.maxCallsPerStep
    requires RoundCommitted(b, c, durable, d, message, specs, r, end)
    ensures AnswerCommitted(a, c, durable, d, r, end)
  {
    hide DeedsOf, LossesOf, PreparedOf, AnyExceeds, Overran, BlocksComplete, BlocksEvents;
    if end.Answered? {
      hide AnswerTrue, EndGoverned, BlocksFor, Recorded, RoundsOf, BlockDone, Accounted;
      if r.Ok? {
        RoundTold(c.now, end, r.value);
      }
      hide OutcomeOf, AnswerTold;
      RoundGoverned(d, specs, end);
      RoundOverran(end);
      LaterRecorded(a.env, b.env, c.env, RoundsOf(end));
    } else {
      RanQuietly(a.st, c.st, {});
      NothingRecorded(a.env, c.env);
    }
  }

  lemma RoundTold(now: Counters, end: AttemptEnd, resolution: StepResolution)
    requires end.Answered? && end.stop.Some? && end.calls != [] && resolution.stop == end.stop.value
    requires OutcomeOf(resolution, now, end.blocks)
    requires forall k :: 0 <= k < |end.blocks| ==> BlockTrue(end.blocks[k])
    ensures AnswerTold(end, resolution, now)
  {
  }

  lemma LaterRecorded(a: Env, b: Env, c: Env, rounds: seq<RoundRecord>)
    requires Drift(a, b) && Recorded(b, c, rounds)
    ensures Recorded(a, c, rounds)
  {
  }

  lemma RoundGoverned(d: Driver, specs: seq<CallSpec>, end: AttemptEnd)
    requires end.Answered? && BlocksFor(end.blocks, specs, d) && AnswerTrue(end)
    requires |end.calls| == |specs| <= d.limits.maxCallsPerStep
    ensures EndGoverned(RulesOf(d), end) && (end.stop.None? ==> end.blocks == [])
  {
    hide BlockTrue, Governed;
  }

  // ----- one whole attempt

  // An attempt either ends the step or hands over to the next one with a longer chain.
  datatype Attempted =
    | Again(key: nat, id: Id, number: nat)
    | Done(resolution: StepResolution)

  // What one attempt of a step leaves (its events, the state of its provider
  // attempt, the counters), whatever became of it.
  ghost predicate AttemptRan(a: Snap, b: Snap, durable: bool, d: Driver, chains: map<nat, RetryChain>, retriesInStep: nat,
                             r: Result<Attempted, Failure>, t: AttemptTrace)
  {
    && Ran(a.st, b.st, AttemptEvents(t), {})
    && AttemptsAre(b.st.attempts, AttemptsAfter(a.st.attempts, t.end), r)
    && AttemptTrue(t) && EndGoverned(RulesOf(d), t.end)
    && NextInChain(chains, t.end)
    && (t.end.Retried? ==> retriesInStep < d.limits.maxRetries)
    && Within(a.now, b.now, d.limits, Overran(RoundsOf(t.end)), AttemptCost(t))
    && (t.end.Interrupted? || TokensKept(a.now, b.now, d.limits))
    && Recorded(a.env, b.env, RoundsOf(t.end))
    && (r.Ok? ==> SpentFrom(b.st.slots, |a.st.slots|))
    && (r.Ok? && r.value.Done? ==> DoneTrue(durable, r.value.resolution, t.end, b, d.limits, retriesInStep))
    && (r.Ok? && r.value.Again? ==>
          && t.end.Retried? && t.end.fate.Resumed?
          && r.value == Again(t.end.key, t.end.retryId, t.end.number)
          && b.now.attempts < d.limits.maxAttempts)
    && (t.end == Unsent(true) ==> r.Err?)
    && (r.Err? ==> FailedAs(a.st, b.st, r.error, t.end))
  }

  // One turn of the loop of a step (src/agent/mod.rs:1785-2206).
  method RunAttempt(s: Session, d: Driver, w: World, prepared: Option<Preparation>, chains: map<nat, RetryChain>, retriesInStep: nat)
    returns (r: Result<Attempted, Failure>, ghost t: AttemptTrace)
    requires s.Valid() && Agree(s, d) && s.st.attempts.phase.NoAttempt?
    requires prepared.Some? ==> MatchesSurface(prepared.value, s.st.surface) && Told(prepared.value, w.env.fault)
    modifies s, d, w
    ensures s.Valid() && (AgreedBut(s, d, t.end == Unsent(true)) || IsFatal(r)) && AttemptRan(old(Look(s, d, w)), Look(s, d, w), s.durable, d, chains, retriesInStep, r, t)
  {
    hide Ran, AttemptRan, MatchesSurface;
    ghost var a := Look(s, d, w);
    t := AttemptTrace([], [], Barred);
    var gate := Gate(d, w);
    if gate.Some? {
      r := Ok(Done(StepResolution(gate.value, NoStop)));
      AttemptBarred(a, Look(s, d, w), s.durable, d, chains, retriesInStep, gate.value);
      return;
    }
    d.now := d.now.(attempts := d.now.attempts + 1);
    var early, request;
    ghost var notes;
    early, request, notes := PrepareDispatch(s, d, w, prepared);
    ghost var b := Look(s, d, w);
    t := AttemptTrace(notes, [], Unsent(false));
    if early.Err? || early.value.Some? {
      r := if early.Err? then Err(early.error) else Ok(Done(StepResolution(early.value.value, NoStop)));
      AttemptUnsent(a, b, s.durable, d, chains, retriesInStep, r, notes, false);
      return;
    }
    r, t := SendAttempt(s, d, w, request, chains, retriesInStep, notes, a);
  }

  lemma AttemptBarred(a: Snap, b: Snap, durable: bool, d: Driver, chains: map<nat, RetryChain>, retriesInStep: nat, outcome: StepOutcome)
    requires a.st.attempts.phase.NoAttempt? && b.st == a.st && b.now == a.now && Drift(a.env, b.env)
    requires OutcomeHolds(outcome, b, d.limits, retriesInStep)
    ensures AttemptRan(a, b, durable, d, chains, retriesInStep, Ok(Done(StepResolution(outcome, NoStop))), AttemptTrace([], [], Barred))
  {
    hide BlockTrue, BlocksBegun, StopsHold, CallsDiffer, Governed, BlocksComplete, LossesOf, PreparedOf, DeedsOf, RepliesOf, BlocksBytes, Overran;
    RanQuietly(a.st, a.st, {});
    assert [] + Chunks([]) + [] == [];
    NothingRecorded(a.env, b.env);
  }

  lemma AttemptUnsent(a: Snap, b: Snap, durable: bool, d: Driver, chains: map<nat, RetryChain>, retriesInStep: nat,
                      r: Result<Attempted, Failure>, notes: seq<Event>, stalled: bool)
    requires Ran(a.st, b.st, notes, {}) && b.st.attempts == a.st.attempts && b.st.slots == a.st.slots
    requires |notes| <= 2 && forall i :: 0 <= i < |notes| ==> IsNote(notes[i])
    requires Within(a.now, b.now, d.limits, false, Cost(1, 0, 0, 0, 0)) && Drift(a.env, b.env)
    requires b.now.reportedTokens == a.now.reportedTokens
    requires r.Ok? ==> r.value.Done? && OutcomeHolds(r.value.resolution.outcome, b, d.limits, 0) && r.value.resolution.stop == NoStop && !stalled
    requires r.Err? ==> !IsLoopBug(r.error)
    ensures AttemptRan(a, b, durable, d, chains, retriesInStep, r, AttemptTrace(notes, [], Unsent(stalled)))
  {
    hide Ran, BlockTrue, BlocksBegun, StopsHold, CallsDiffer, Governed, BlocksComplete, LossesOf, PreparedOf, DeedsOf, RepliesOf, BlocksBytes, Overran;
    assert notes + Chunks([]) + [] == notes;
    NothingRecorded(a.env, b.env);
  }

  // ----- from the dispatch on

  function OpenedAttempts(a: Attempts): Attempts {
    Attempts(Open, a.begun + 1, a.ended, a.retired)
  }

  // The attempt is open and its notes and chunks are in the log.
  ghost predicate Streaming(a: Snap, c: Snap, d: Driver, notes: seq<Event>, chunks: seq<nat>) {
    && Ran(a.st, c.st, notes + Chunks(chunks), {})
    && a.st.attempts.phase.NoAttempt?
    && c.st.attempts == OpenedAttempts(a.st.attempts)
    && c.st.slots == a.st.slots
    && |notes| <= 2 && (forall i :: 0 <= i < |notes| ==> IsNote(notes[i]))
    && Within(a.now, c.now, d.limits, false, Cost(1, 0, 0, 0, SumOf(chunks)))
    && Drift(a.env, c.env)
  }

  // The request is dispatched, which only one that matches the surface may be: stream
  // it, then retry or commit (src/agent/mod.rs:1962-2206).
  method SendAttempt(s: Session, d: Driver, w: World, request: Preparation, chains: map<nat, RetryChain>, retriesInStep: nat,
                     ghost notes: seq<Event>, ghost a: Snap)
    returns (r: Result<Attempted, Failure>, ghost t: AttemptTrace)
    requires request.Ready? && MatchesSurface(request, s.st.surface) && MayDispatch(s.st, w.env)
    requires s.Valid() && Agree(s, d) && s.st.attempts == a.st.attempts && s.st.attempts.phase.NoAttempt? && s.st.slots == a.st.slots
    requires Ran(a.st, s.st, notes, {}) && |notes| <= 2 && forall i :: 0 <= i < |notes| ==> IsNote(notes[i])
    requires Within(a.now, d.now, d.limits, false, Cost(1, 0, 0, 0, 0)) && Drift(a.env, w.env)
    requires d.now.reportedTokens == a.now.reportedTokens
    modifies s, d, w
    ensures s.Valid() && (AgreedBut(s, d, t.end == Unsent(true)) || IsFatal(r)) && AttemptRan(a, Look(s, d, w), s.durable, d, chains, retriesInStep, r, t)
  {
    hide Ran, AttemptRan, Streaming, RetryScheduled, AnswerCommitted, ReadSoFar, OutcomeHolds;
    ghost var b := Look(s, d, w);
    var begun := s.BeginAttempt();
    if begun.Err? {
      r := Err(begun.error);
      t := AttemptTrace(notes, [], Unsent(begun.error.DurableLimit?));
      AttemptUnsent(a, Look(s, d, w), s.durable, d, chains, retriesInStep, r, notes, begun.error.DurableLimit?);
      return;
    }
    AttemptOpened(a, b, Look(s, d, w), d, notes);
    ghost var c := Look(s, d, w);
    var panicked := w.Fails(ProviderFailure);
    if panicked {
      r := Ok(Done(StepResolution(ErrorOutcome(ProviderFailure), NoStop)));
      t := AttemptTrace(notes, [], Interrupted);
      AttemptFails(a, c, Look(s, d, w), d, notes, []);
      FaultHolds(ProviderFailure, Look(s, d, w), d.limits);
      AttemptInterrupted(a, Look(s, d, w), s.durable, d, chains, retriesInStep, r, notes, []);
      return;
    }
    r, t := FinishAttempt(s, d, w, chains, retriesInStep, notes, a);
  }

  // Read the stream to its end and settle what it was.
  method FinishAttempt(s: Session, d: Driver, w: World, chains: map<nat, RetryChain>, retriesInStep: nat,
                       ghost notes: seq<Event>, ghost a: Snap)
    returns (r: Result<Attempted, Failure>, ghost t: AttemptTrace)
    requires s.Valid() && Agree(s, d) && s.st.attempts.phase.Open? && Streaming(a, Look(s, d, w), d, notes, [])
    requires d.now.reportedTokens == a.now.reportedTokens
    modifies s, d, w
    ensures s.Valid() && (AgreedBut(s, d, t.end == Unsent(true)) || IsFatal(r)) && AttemptRan(a, Look(s, d, w), s.durable, d, chains, retriesInStep, r, t)
  {
    hide Ran, AttemptRan, Streaming, RetryScheduled, AnswerCommitted, ReadSoFar, OutcomeHolds;
    ghost var b := Look(s, d, w);
    var streamed;
    ghost var chunks;
    streamed, chunks := ConsumeStream(s, d, w);
    ghost var c := Look(s, d, w);
    AttemptStreamed(a, b, c, d, notes, chunks);
    if streamed.Err? || streamed.value.Some? {
      r := if streamed.Err? then Err(streamed.error) else Ok(Done(StepResolution(streamed.value.value, NoStop)));
      t := AttemptTrace(notes, chunks, Interrupted);
      AttemptInterrupted(a, c, s.durable, d, chains, retriesInStep, r, notes, chunks);
      return;
    }
    ghost var end;
    var failed := w.Fails(ProviderFailure);
    ghost var e := Look(s, d, w);
    AttemptFails(a, c, e, d, notes, chunks);
    if failed {
      var outcome, next;
      outcome, next, end := ScheduleRetry(s, d, w, chains, retriesInStep);
      r := if outcome.Err? then Err(outcome.error)
           else if outcome.value.Some? then Ok(Done(StepResolution(outcome.value.value, NoStop)))
           else Ok(Again(next.value.key, next.value.id, next.value.number));
      t := AttemptTrace(notes, chunks, end);
      AttemptRetried(a, e, Look(s, d, w), s.durable, d, chains, retriesInStep, outcome, r, notes, chunks, end);
    } else {
      var answered;
      answered, end := CommitAttempt(s, d, w);
      r := if answered.Err? then Err(answered.error) else Ok(Done(answered.value));
      t := AttemptTrace(notes, chunks, end);
      AttemptAnswered(a, e, Look(s, d, w), s.durable, d, chains, retriesInStep, answered, notes, chunks, end);
    }
  }

  lemma AttemptOpened(a: Snap, b: Snap, c: Snap, d: Driver, notes: seq<Event>)
    requires b.st.attempts == a.st.attempts && a.st.attempts.phase.NoAttempt? && b.st.slots == a.st.slots
    requires Ran(a.st, b.st, notes, {}) && |notes| <= 2 && forall i :: 0 <= i < |notes| ==> IsNote(notes[i])
    requires Within(a.now, b.now, d.limits, false, Cost(1, 0, 0, 0, 0)) && Drift(a.env, b.env)
    requires c == b.(st := b.st.(attempts := OpenedAttempts(a.st.attempts)))
    ensures Streaming(a, c, d, notes, [])
  {
    assert notes + Chunks([]) == notes;
  }

  lemma AttemptStreamed(a: Snap, b: Snap, c: Snap, d: Driver, notes: seq<Event>, chunks: seq<nat>)
    requires Streaming(a, b, d, notes, [])
    requires ReadSoFar(b, c, chunks)
    ensures Streaming(a, c, d, notes, chunks) && c.st.attempts.phase.Open?
  {
    assert notes + Chunks([]) == notes;
    RanOn(a.st, b.st, c.st, notes, Chunks(chunks), {}, {});
  }

  // Something went wrong outside.
  lemma AttemptFails(a: Snap, b: Snap, c: Snap, d: Driver, notes: seq<Event>, chunks: seq<nat>)
    requires Streaming(a, b, d, notes, chunks) && c == b.(env := b.env.(fault := c.env.fault))
    ensures Streaming(a, c, d, notes, chunks)
  {
  }

  lemma AttemptInterrupted(a: Snap, c: Snap, durable: bool, d: Driver, chains: map<nat, RetryChain>, retriesInStep: nat,
                           r: Result<Attempted, Failure>, notes: seq<Event>, chunks: seq<nat>)
    requires Streaming(a, c, d, notes, chunks)
    requires r.Ok? ==> r.value.Done? && OutcomeHolds(r.value.resolution.outcome, c, d.limits, 0) && r.value.resolution.stop == NoStop
    requires r.Err? ==> !IsLoopBug(r.error)
    ensures AttemptRan(a, c, durable, d, chains, retriesInStep, r, AttemptTrace(notes, chunks, Interrupted))
  {
    hide BlockTrue, BlocksBegun, StopsHold, CallsDiffer, Governed, BlocksComplete, LossesOf, PreparedOf, DeedsOf, RepliesOf, BlocksBytes, Overran;
    assert notes + Chunks(chunks) + [] == notes + Chunks(chunks);
    NothingRecorded(a.env, c.env);
  }

  lemma AttemptRetried(a: Snap, c: Snap, e: Snap, durable: bool, d: Driver, chains: map<nat, RetryChain>, retriesInStep: nat,
                       outcome: Result<Option<StepOutcome>, Failure>, r: Result<Attempted, Failure>,
                       notes: seq<Event>, chunks: seq<nat>, end: AttemptEnd)
    requires Streaming(a, c, d, notes, chunks) && TokensKept(a.now, c.now, d.limits)
    requires RetryScheduled(c.st, e.st, chains, outcome, end)
    requires FlagsKept(c.now, e.now) && Drift(c.env, e.env)
    requires e.now == c.now.(retries := e.now.retries, durableLimit := e.now.durableLimit, observerUnavailable := e.now.observerUnavailable)
    requires e.now.retries == c.now.retries + if end.Retried? && !end.fate.Unseen? then 1 else 0
    requires end.Retried? ==> retriesInStep < d.limits.maxRetries && e.now.attempts < d.limits.maxAttempts
    requires outcome.Ok? && outcome.value.Some? ==> OutcomeHolds(outcome.value.value, e, d.limits, retriesInStep)
    requires r == if outcome.Err? then Err(outcome.error)
                  else if outcome.value.Some? then Ok(Done(StepResolution(outcome.value.value, NoStop)))
                  else if end.Retried? then Ok(Again(end.key, end.retryId, end.number)) else Err(Failure.Fatal)
    ensures AttemptRan(a, e, durable, d, chains, retriesInStep, r, AttemptTrace(notes, chunks, end))
    ensures !end.Unsent?
  {
    hide BlockTrue, BlocksBegun, StopsHold, CallsDiffer, Governed, BlocksComplete, LossesOf, PreparedOf, DeedsOf, RepliesOf, BlocksBytes, Overran;
    RanOn(a.st, c.st, e.st, notes + Chunks(chunks), EndEvents(end), {}, {});
    NothingRecorded(a.env, e.env);
  }

  lemma AttemptAnswered(a: Snap, c: Snap, e: Snap, durable: bool, d: Driver, chains: map<nat, RetryChain>, retriesInStep: nat,
                        r: Result<StepResolution, Failure>, notes: seq<Event>, chunks: seq<nat>, end: AttemptEnd)
    requires Streaming(a, c, d, notes, chunks) && TokensKept(a.now, c.now, d.limits)
    requires AnswerCommitted(c, e, durable, d, r, end)
    ensures AttemptRan(a, e, durable, d, chains, retriesInStep,
                       if r.Err? then Err(r.error) else Ok(Done(r.value)), AttemptTrace(notes, chunks, end))
    ensures !end.Unsent?
  {
    hide AnswerTrue, EndGoverned, RoundsOf, BlockTrue, BlocksBegun, StopsHold, CallsDiffer, Governed, BlocksComplete, LossesOf, PreparedOf, DeedsOf, RepliesOf, BlocksBytes, Overran;
    RanOn(a.st, c.st, e.st, notes + Chunks(chunks), EndEvents(end), {}, {});
  }
}
