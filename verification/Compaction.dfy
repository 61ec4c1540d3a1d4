// Replacing the oldest messages by a summary, inside one bracket of events
// (src/agent/compaction.rs:66-665).
module Compaction {
  import opened Common
  import opened SessionLog
  import opened SessionModel
  import opened WorldModel
  import opened DriverModel
  import opened LogGrammar
  import opened Moment
  import Stream = SummaryStreamModel

  datatype CompactionOutcome =
    | Progress
    | NoProgress
    | AdvisoryFailure
    | Cancelled
    | TurnError(code: ErrorCode)

  // A stop that was seen.
  predicate IsStopTold(outcome: CompactionOutcome, env: Env) {
    (outcome.Cancelled? && env.cancelled) || (outcome == TurnError(TurnTimeout) && env.expired)
  }

  // What storage refused: a ceiling ends the turn, anything else is no progress.
  predicate IsRefusal(outcome: CompactionOutcome, now: Counters, marks: Marks) {
    || outcome.NoProgress?
    || (outcome == TurnError(SessionLimit) && now.durableLimit)
    || (outcome == TurnError(EventBudget) && marks.crowded)
  }

  // What a compaction tells that did not go well is true.
  predicate SetbackHolds(outcome: CompactionOutcome, x: Snap, limits: Limits) {
    && (outcome.Cancelled? ==> EndsBetween(Aborted, x, limits))
    && (outcome.TurnError? ==> EndsBetween(Error(outcome.code), x, limits))
  }

  lemma SetbackStays(outcome: CompactionOutcome, x: Snap, y: Snap, limits: Limits)
    requires SetbackHolds(outcome, x, limits) && Holds(x, y)
    ensures SetbackHolds(outcome, y, limits)
  {
  }

  lemma StopSetsBack(outcome: Option<CompactionOutcome>, x: Snap, limits: Limits)
    requires outcome.Some? ==> IsStopTold(outcome.value, x.env)
    ensures outcome.Some? ==> IsSetback(outcome.value) && SetbackHolds(outcome.value, x, limits)
  {
  }

  lemma RefusalSetsBack(r: Result<Option<CompactionOutcome>, Failure>, x: Snap, limits: Limits)
    requires r.Ok? && r.value.Some? ==> IsRefusal(r.value.value, x.now, x.marks)
    ensures r.Ok? && r.value.Some? ==> IsSetback(r.value.value) && SetbackHolds(r.value.value, x, limits)
  {
  }

  lemma ErrorSetsBack(code: ErrorCode, x: Snap, limits: Limits)
    requires EndsBetween(Error(code), x, limits)
    ensures SetbackHolds(TurnError(code), x, limits)
  {
  }

  // The oldest messages up to end are to be replaced; they cost some tokens.
  datatype Candidate = Candidate(id: Id, end: nat, tokens: nat)

  predicate IsCandidate(c: Candidate, messages: seq<Message>) {
    0 < c.end <= |messages| && c.tokens == Price(messages[..c.end]) && 0 < c.tokens
  }

  // A stop before or between the stages of a compaction.
  method StageStop(w: World) returns (outcome: Option<CompactionOutcome>)
    modifies w
    ensures Later(old(w.env), w.env, w.env.firstStop)
    ensures outcome.Some? ==> IsStopTold(outcome.value, w.env)
    ensures outcome.None? ==> IsRunning(w.env)
  {
    var stop := w.SampleStop();
    match stop {
      case NoStop => outcome := None;
      case StopCancelled => outcome := Some(CompactionOutcome.Cancelled);
      case StopTimeout => outcome := Some(TurnError(TurnTimeout));
    }
  }

  // The counters a compaction may touch besides the attempt it spends.
  predicate Counted(a: Counters, b: Counters) {
    && (a.observerUnavailable ==> b.observerUnavailable)
    && (a.durableLimit ==> b.durableLimit)
    && b == a.(reportedTokens := b.reportedTokens, observerUnavailable := b.observerUnavailable, durableLimit := b.durableLimit)
  }

  // The outcomes that close a bracket as failed.
  predicate IsSetback(outcome: CompactionOutcome) {
    !outcome.Progress?
  }

  // Find what to replace and spend one attempt on it, unless it would be the last
  // (src/agent/compaction.rs:75-215).
  method Propose(s: Session, d: Driver, w: World) returns (r: Result<Candidate, CompactionOutcome>)
    modifies d, w
    ensures Later(old(w.env), w.env, w.env.firstStop)
    ensures d.now == old(d.now).(attempts := d.now.attempts) && (Agree(s, d) <==> old(Agree(s, d)))
    ensures d.now.attempts == old(d.now).attempts ||
      (d.now.attempts == old(d.now).attempts + 1 && d.now.attempts < d.limits.maxAttempts)
    ensures r.Ok? ==> IsCandidate(r.value, s.st.surface.messages) && d.now.attempts == old(d.now).attempts + 1 && IsRunning(w.env)
    ensures r.Err? ==> r.error.NoProgress? || IsStopTold(r.error, w.env)
  {
    var stop := StageStop(w);
    if stop.Some? {
      return Err(stop.value);
    }
    if d.now.attempts + 1 >= d.limits.maxAttempts {
      return Err(NoProgress);
    }
    var end := w.Number();
    var drafted := w.Flip();
    var messages := s.st.surface.messages;
    if !(0 < end <= |messages|) || Price(messages[..end]) == 0 || !drafted {
      return Err(NoProgress);
    }
    d.now := d.now.(attempts := d.now.attempts + 1);
    var prepared := w.Flip();
    if !prepared {
      return Err(NoProgress);
    }
    var id := w.NewId();
    return if id.Ok? then Ok(Candidate(id.value, end, Price(messages[..end]))) else Err(NoProgress);
  }

  datatype Opening = Opened(claim: nat) | NotOpened(outcome: CompactionOutcome)

  // The end of the bracket is protected before its start is appended
  // (src/agent/compaction.rs:229-266).
  method OpenBracket(s: Session, d: Driver, id: Id) returns (r: Result<Opening, Failure>)
    requires s.Valid() && Agree(s, d) && s.st.attempts.phase.NoAttempt?
    modifies s, d
    ensures s.Valid() && (Agreed(s, d) || IsFatal(r)) && s.st.attempts.phase.NoAttempt? && FlagsRise(old(d.now), d.now)
    ensures s.st.surface == old(s.st).surface
    ensures r.Ok? && r.value.Opened? ==>
      && Moved(old(s.st), s.st, [CompactionStart(id)], {})
      && r.value.claim == |old(s.st).slots| && |s.st.slots| == r.value.claim + 1
      && s.st.slots[r.value.claim].Live? && s.st.slots[r.value.claim].fallback == CompactionEnd(id, true)
    ensures r.Ok? && r.value.NotOpened? ==>
      && Moved(old(s.st), s.st, [], {})
      && SpentFrom(s.st.slots, |old(s.st).slots|)
      && IsRefusal(r.value.outcome, d.now, s.marks)
    ensures r.Err? ==> !IsLoopBug(r.error)
  {
    ghost var before := s.st;
    MovedNothing(before);
    var claim := s.ClaimBatch([CompactionEnd(id, true)]);
    if claim.Err? {
      r := NotStarted(d, claim.error);
      return;
    }
    ghost var claimed := s.st;
    var started := s.Append(CompactionStart(id));
    if started.Err? {
      if !started.error.Fatal? {
        var _ :- s.Release(claim.value);
      }
      QuietMoves(before, s.st, {});
      r := NotStarted(d, started.error);
      return;
    }
    RanOneMore(before, s.st, CompactionStart(id), {});
    r := Ok(Opened(claim.value));
  }

  // How a failure before the start is told.
  method NotStarted(d: Driver, error: Failure) returns (r: Result<Opening, Failure>)
    requires !IsLoopBug(error)
    modifies d
    ensures d.now == old(d.now).(durableLimit := old(d.now).durableLimit || error.DurableLimit?)
    ensures error.DurableLimit? ==> r == Ok(NotOpened(TurnError(SessionLimit)))
    ensures error.MemoryBudget? ==> r == Ok(NotOpened(TurnError(EventBudget)))
    ensures error.Fatal? ==> r == Err(error)
    ensures !IsBudget(error) && !error.Fatal? ==> r == Ok(NotOpened(NoProgress))
  {
    if IsBudget(error) {
      var code := d.FailureForBudget(error);
      return Ok(NotOpened(TurnError(code)));
    }
    r := if error.Fatal? then Err(error) else Ok(NotOpened(NoProgress));
  }

  function MiddleEvents(id: Id, summarised: bool, checkpoint: Option<CheckpointTrace>): seq<Event> {
    (if summarised then [CompactionSummary(id)] else []) + ReplaceEvents(id, checkpoint)
  }

  function ReplaceEvents(id: Id, checkpoint: Option<CheckpointTrace>): seq<Event> {
    if checkpoint.Some? then [Checkpoint(id, checkpoint.value.end, checkpoint.value.message)] else []
  }

  // Of all the events of a bracket only the checkpoint changes the surface.
  function Checkpointed(s: Surface, id: Id, checkpoint: Option<CheckpointTrace>): Surface {
    if checkpoint.Some? then NextSurface(s, Checkpoint(id, checkpoint.value.end, checkpoint.value.message)) else s
  }

  // Append one event of the bracket; what is refused becomes a setback.
  method AppendStage(s: Session, d: Driver, e: Event) returns (r: Result<Option<CompactionOutcome>, Failure>)
    requires s.Valid() && Agree(s, d) && s.st.attempts.phase.NoAttempt? && !e.StepEnd? && !e.TurnEnd?
    modifies s, d
    ensures s.Valid() && Agreed(s, d) && FlagsRise(old(d.now), d.now)
    ensures s.st == if r.Ok? && r.value.None? then Appended(old(s.st), e) else old(s.st)
    ensures r.Ok? && r.value.Some? ==> IsRefusal(r.value.value, d.now, s.marks)
    ensures r.Err? ==> !IsLoopBug(r.error)
  {
    var appended := s.Append(e);
    if appended.Ok? {
      return Ok(None);
    }
    if IsBudget(appended.error) {
      var code := d.FailureForBudget(appended.error);
      return Ok(Some(TurnError(code)));
    }
    r := if appended.error.Fatal? then Err(appended.error) else Ok(Some(NoProgress));
  }

  // What the provider sends until the stream ends, fails, or is given up for a stop
  // (src/agent/compaction.rs:738-778).
  method Listen(w: World) returns (polls: seq<Stream.Poll>)
    modifies w
    ensures Later(old(w.env), w.env, w.env.firstStop)
    ensures forall i :: 0 <= i < |polls| - 1 ==> polls[i].Got?
    ensures Stream.SawCancel in polls ==> w.env.cancelled
    ensures Stream.SawDeadline in polls ==> w.env.expired
  {
    polls := [];
    var n := w.Number();
    while n > 0
      invariant Later(old(w.env), w.env, w.env.firstStop)
      invariant forall i :: 0 <= i < |polls| ==> polls[i].Got?
    {
      n := n - 1;
      var stop := w.SampleStop();
      if stop != NoStop {
        return polls + [if stop.StopCancelled? then Stream.SawCancel else Stream.SawDeadline];
      }
      var broken := w.Flip();
      if broken {
        return polls + [Stream.ReadFailed];
      }
      var chunk: Stream.Chunk := *;
      polls := polls + [Stream.Got(chunk)];
    }
  }

  // How a stream that gave no summary is told.
  function SetbackOf(outcome: Stream.Outcome): CompactionOutcome
    requires !outcome.Success?
  {
    match outcome
    case Reports(_) => AdvisoryFailure
    case Cancelled => CompactionOutcome.Cancelled
    case TimedOut => TurnError(TurnTimeout)
    case Invalid(_) => NoProgress
  }

  predicate ReportsFailure(polls: seq<Stream.Poll>, cs: seq<Stream.Chunk>) {
    && |cs| == |polls| && cs != [] && cs[|cs| - 1].kind.Finish?
    && (cs[|cs| - 1].kind.reason.Failed? || cs[|cs| - 1].kind.reason.Aborted?)
  }

  // A stream that was given up for a stop says so, unless its tokens were too many, and
  // only one that reports a failure is told as one.
  predicate StreamTold(setback: Option<CompactionOutcome>, polls: seq<Stream.Poll>) {
    var cs := Stream.Taken(polls);
    && (|cs| < |polls| && polls[|cs|].SawCancel? ==>
          setback == Some(CompactionOutcome.Cancelled) || setback == Some(TurnError(TokenBudget)))
    && (|cs| < |polls| && polls[|cs|].SawDeadline? ==>
          setback == Some(TurnError(TurnTimeout)) || setback == Some(TurnError(TokenBudget)))
    && (setback == Some(AdvisoryFailure) ==> ReportsFailure(polls, cs))
    && (ReportsFailure(polls, cs) ==> setback == Some(AdvisoryFailure) || setback == Some(TurnError(TokenBudget)))
  }

  // These polls were a whole stream that stopped, with a summary and this usage.
  ghost predicate GaveSummary(polls: seq<Stream.Poll>, usage: Option<nat>) {
    exists isSpace: char -> bool, outcome: Stream.Outcome ::
      Summarised(isSpace, polls, outcome) && usage == Stream.Reported(Stream.Taken(polls))
  }

  ghost predicate Summarised(isSpace: char -> bool, polls: seq<Stream.Poll>, outcome: Stream.Outcome) {
    outcome.Success? && Stream.Judged(isSpace, polls, Stream.Taken(polls), outcome)
  }

  function Used(usage: Option<nat>): nat {
    if usage.Some? then usage.value else 0
  }

  // What was counted is within the limit, unless the outcome ends the turn.
  predicate TokensWatched(a: Counters, b: Counters, limits: Limits, outcome: Option<CompactionOutcome>) {
    TokensKept(a, b, limits) || (outcome.Some? && outcome.value.TurnError?)
  }

  // Usage that was reported counts against the limit of the turn
  // (src/agent/compaction.rs:592-613).
  method RecordUsage(d: Driver, usage: Option<nat>) returns (over: bool)
    modifies d
    ensures d.now == old(d.now).(reportedTokens := d.now.reportedTokens)
    ensures Tallied(old(d.now).reportedTokens, d.now.reportedTokens, Used(usage))
    ensures over <==> usage.Some? && d.now.reportedTokens > d.limits.maxReportedTokens
    ensures usage.None? ==> d.now == old(d.now)
  {
    over := false;
    if usage.Some? {
      over := d.ReportTokens(usage.value);
    }
  }

  // The summary stream came to an end, one way or another; its usage is counted
  // once (src/agent/compaction.rs:267-397). An outcome says that there is no summary,
  // otherwise the stream gave one.
  method Collect(s: Session, d: Driver, w: World)
    returns (r: Result<Option<CompactionOutcome>, Failure>, usage: Option<nat>, ghost polls: seq<Stream.Poll>, ghost tokens: nat)
    requires s.Valid() && Agree(s, d) && s.st.attempts.phase.NoAttempt?
    modifies s, d, w
    ensures s.Valid() && Agreed(s, d) && s.st == old(s.st).(visible := s.st.visible) && Counted(old(d.now), d.now)
    ensures Later(old(w.env), w.env, w.env.firstStop)
    ensures r.Ok? && r.value.Some? ==> IsSetback(r.value.value) && SetbackHolds(r.value.value, Look(s, d, w), d.limits)
    ensures r.Ok? && polls != [] ==> StreamTold(r.value, polls)
    ensures r.Ok? && r.value.None? ==> GaveSummary(polls, usage) && d.now.reportedTokens == old(d.now).reportedTokens && tokens == 0
    ensures Tallied(old(d.now).reportedTokens, d.now.reportedTokens, tokens) && (tokens == 0 || usage == Some(tokens))
    ensures r.Ok? ==> TokensWatched(old(d.now), d.now, d.limits, r.value)
    ensures r.Err? ==> !IsLoopBug(r.error)
  {
    hide GaveSummary, SetbackHolds, StreamTold, IsHeard;
    usage, polls, tokens := None, [], 0;
    var barrier :- s.FlushBarrier();
    if barrier.ObserverUnavailable? {
      d.LatchObserverFault();
      ErrorSetsBack(ErrorCode.ObserverUnavailable, Look(s, d, w), d.limits);
      return Ok(Some(TurnError(ErrorCode.ObserverUnavailable))), usage, polls, tokens;
    }
    var setback;
    setback, usage, polls, tokens := Ask(d, w);
    HeardSetsBack(setback, Look(s, d, w), d.limits);
    r := Ok(setback);
  }

  // Ask for the summary, unless a stop comes first or no stream is opened.
  method Ask(d: Driver, w: World)
    returns (setback: Option<CompactionOutcome>, usage: Option<nat>, ghost polls: seq<Stream.Poll>, ghost tokens: nat)
    modifies d, w
    ensures d.now == old(d.now).(reportedTokens := d.now.reportedTokens)
    ensures Later(old(w.env), w.env, w.env.firstStop)
    ensures setback.Some? ==> IsHeard(setback.value, d.now, w.env, d.limits)
    ensures polls != [] ==> StreamTold(setback, polls)
    ensures setback.None? ==> GaveSummary(polls, usage) && d.now == old(d.now) && tokens == 0
    ensures Tallied(old(d.now).reportedTokens, d.now.reportedTokens, tokens) && (tokens == 0 || usage == Some(tokens))
    ensures TokensWatched(old(d.now), d.now, d.limits, setback)
  {
    hide GaveSummary, StreamTold;
    usage, polls, tokens := None, [], 0;
    setback := StageStop(w);
    var streaming := w.Flip();
    if setback.Some? || !streaming {
      return if setback.Some? then setback else Some(NoProgress), usage, polls, tokens;
    }
    setback, usage, polls, tokens := Hear(d, w);
  }

  // What is told of a stream that was listened to.
  predicate IsHeard(outcome: CompactionOutcome, now: Counters, env: Env, limits: Limits) {
    || outcome.NoProgress? || outcome.AdvisoryFailure?
    || IsStopTold(outcome, env)
    || (outcome == TurnError(TokenBudget) && now.reportedTokens > limits.maxReportedTokens)
  }

  lemma HeardSetsBack(outcome: Option<CompactionOutcome>, x: Snap, limits: Limits)
    requires outcome.Some? ==> IsHeard(outcome.value, x.now, x.env, limits)
    ensures outcome.Some? ==> IsSetback(outcome.value) && SetbackHolds(outcome.value, x, limits)
  {
  }

  lemma NothingSetsBack(x: Snap, limits: Limits)
    ensures SetbackHolds(NoProgress, x, limits) && SetbackHolds(Progress, x, limits)
  {
  }

  // Listen to the whole stream; a stop after a summary is told before its usage is counted.
  method Hear(d: Driver, w: World)
    returns (setback: Option<CompactionOutcome>, usage: Option<nat>, ghost polls: seq<Stream.Poll>, ghost tokens: nat)
    modifies d, w
    ensures d.now == old(d.now).(reportedTokens := d.now.reportedTokens)
    ensures Later(old(w.env), w.env, w.env.firstStop)
    ensures setback.Some? ==> IsHeard(setback.value, d.now, w.env, d.limits)
    ensures polls != [] ==> StreamTold(setback, polls)
    ensures setback.None? ==> GaveSummary(polls, usage) && d.now == old(d.now) && tokens == 0
    ensures Tallied(old(d.now).reportedTokens, d.now.reportedTokens, tokens) && (tokens == 0 || usage == Some(tokens))
    ensures TokensWatched(old(d.now), d.now, d.limits, setback)
  {
    hide GaveSummary, StreamTold;
    tokens := 0;
    var outcome;
    outcome, usage, polls := HearSummary(w);
    if !outcome.Success? {
      tokens := Used(usage);
      var over := RecordUsage(d, usage);
      setback := Some(if over then TurnError(TokenBudget) else SetbackOf(outcome));
    } else {
      setback := StageStop(w);
    }
  }

  lemma SummaryGiven(isSpace: char -> bool, polls: seq<Stream.Poll>, outcome: Stream.Outcome)
    requires Summarised(isSpace, polls, outcome)
    ensures GaveSummary(polls, Stream.Reported(Stream.Taken(polls)))
  {
  }

  lemma StopsHeard(isSpace: char -> bool, polls: seq<Stream.Poll>, outcome: Stream.Outcome)
    requires Stream.Judged(isSpace, polls, Stream.Taken(polls), outcome)
    ensures outcome.Cancelled? ==> Stream.SawCancel in polls
    ensures outcome.TimedOut? ==> Stream.SawDeadline in polls
    ensures outcome.Success? ==> forall stop: Option<CompactionOutcome> :: stop != Some(AdvisoryFailure) ==> StreamTold(stop, polls)
    ensures !outcome.Success? ==> StreamTold(Some(SetbackOf(outcome)), polls)
    ensures StreamTold(Some(TurnError(TokenBudget)), polls)
  {
  }

  // Listen to the stream and assemble what was heard; which characters are blank is
  // left open.
  method HearSummary(w: World) returns (outcome: Stream.Outcome, usage: Option<nat>, ghost polls: seq<Stream.Poll>)
    modifies w
    ensures Later(old(w.env), w.env, w.env.firstStop)
    ensures outcome.Success? ==> GaveSummary(polls, usage)
    ensures outcome.Cancelled? ==> w.env.cancelled
    ensures outcome.TimedOut? ==> w.env.expired
    ensures outcome.Success? ==> forall stop: Option<CompactionOutcome> :: stop != Some(AdvisoryFailure) ==> StreamTold(stop, polls)
    ensures !outcome.Success? ==> StreamTold(Some(SetbackOf(outcome)), polls)
    ensures StreamTold(Some(TurnError(TokenBudget)), polls)
  {
    hide Stream.Judged, Stream.Reported, Stream.Takes, Stream.TakenFrom, StreamTold;
    var heard := Listen(w);
    polls := heard;
    var isSpace: char -> bool := *;
    outcome, usage := Stream.CollectSummary(isSpace, heard);
    StopsHeard(isSpace, polls, outcome);
    if outcome.Success? {
      SummaryGiven(isSpace, polls, outcome);
    }
  }

  // From the open bracket to the checkpoint (src/agent/compaction.rs:267-549). An
  // outcome says that the surface was not replaced.
  method Summarise(s: Session, d: Driver, w: World, c: Candidate)
    returns (r: Result<Option<CompactionOutcome>, Failure>, ghost summarised: bool, ghost checkpoint: Option<CheckpointTrace>,
             ghost polls: seq<Stream.Poll>, ghost tokens: nat)
    requires s.Valid() && Agree(s, d) && s.st.attempts.phase.NoAttempt? && IsCandidate(c, s.st.surface.messages)
    modifies s, d, w
    ensures s.Valid() && Agreed(s, d) && s.st.attempts.phase.NoAttempt? && s.st.slots == old(s.st).slots
    ensures Counted(old(d.now), d.now) && Later(old(w.env), w.env, w.env.firstStop)
    ensures Moved(old(s.st), s.st, MiddleEvents(c.id, summarised, checkpoint), {})
    ensures s.st.surface == Checkpointed(old(s.st).surface, c.id, checkpoint)
    ensures checkpoint.Some? ==> summarised && checkpoint.value.end == c.end && checkpoint.value.message.price < c.tokens && IsRunning(w.env)
    ensures summarised ==> exists usage :: GaveSummary(polls, usage)
    ensures Tallied(old(d.now).reportedTokens, d.now.reportedTokens, tokens)
    ensures r.Ok? ==> TokensWatched(old(d.now), d.now, d.limits, r.value)
    ensures r.Ok? ==> (r.value.None? <==> checkpoint.Some?)
    ensures r.Ok? && r.value.Some? ==> IsSetback(r.value.value) && SetbackHolds(r.value.value, Look(s, d, w), d.limits)
    ensures r.Err? ==> !IsLoopBug(r.error)
  {
    hide Agree, SetbackHolds, IsRefusal, StreamTold;
    summarised, checkpoint := false, None;
    ghost var before := s.st;
    QuietMoves(before, before, {});
    var collected, usage;
    collected, usage, polls, tokens := Collect(s, d, w);
    QuietMoves(before, s.st, {});
    if collected.Err? || collected.value.Some? {
      return collected, summarised, checkpoint, polls, tokens;
    }
    var stored := AppendStage(s, d, CompactionSummary(c.id));
    RefusalSetsBack(stored, Look(s, d, w), d.limits);
    if stored.Err? || stored.value.Some? {
      return stored, summarised, checkpoint, polls, tokens;
    }
    summarised := true;
    RanOneMore(before, s.st, CompactionSummary(c.id), {});
    ghost var middle := s.st;
    r, checkpoint := Replace(s, d, w, c, usage);
    tokens := Used(usage);
    MovedOn(before, middle, s.st, [CompactionSummary(c.id)], ReplaceEvents(c.id, checkpoint), {}, {});
  }

  // From the summary to the checkpoint, which must be cheaper than what it replaces.
  method Replace(s: Session, d: Driver, w: World, c: Candidate, usage: Option<nat>)
    returns (r: Result<Option<CompactionOutcome>, Failure>, ghost checkpoint: Option<CheckpointTrace>)
    requires s.Valid() && Agree(s, d) && s.st.attempts.phase.NoAttempt? && IsCandidate(c, s.st.surface.messages)
    modifies s, d, w
    ensures s.Valid() && Agreed(s, d) && s.st.attempts.phase.NoAttempt? && s.st.slots == old(s.st).slots
    ensures Counted(old(d.now), d.now) && Later(old(w.env), w.env, w.env.firstStop)
    ensures Moved(old(s.st), s.st, ReplaceEvents(c.id, checkpoint), {})
    ensures s.st.surface == Checkpointed(old(s.st).surface, c.id, checkpoint)
    ensures checkpoint.Some? ==> checkpoint.value.end == c.end && checkpoint.value.message.price < c.tokens && IsRunning(w.env)
    ensures r.Ok? ==> (r.value.None? <==> checkpoint.Some?)
    ensures r.Ok? && r.value.Some? ==> IsSetback(r.value.value) && SetbackHolds(r.value.value, Look(s, d, w), d.limits)
    ensures Tallied(old(d.now).reportedTokens, d.now.reportedTokens, Used(usage))
    ensures r.Ok? ==> TokensWatched(old(d.now), d.now, d.limits, r.value)
    ensures r.Err? ==> !IsLoopBug(r.error)
  {
    hide Moved, Price, SetbackHolds;
    checkpoint := None;
    MovedNothing(s.st);
    var over := RecordUsage(d, usage);
    if over {
      ErrorSetsBack(TokenBudget, Look(s, d, w), d.limits);
      return Ok(Some(TurnError(TokenBudget))), checkpoint;
    }
    r, checkpoint := PlaceCheckpoint(s, d, w, c);
  }

  // The checkpoint itself, unless a stop comes first or it would not pay.
  method PlaceCheckpoint(s: Session, d: Driver, w: World, c: Candidate)
    returns (r: Result<Option<CompactionOutcome>, Failure>, ghost checkpoint: Option<CheckpointTrace>)
    requires s.Valid() && Agree(s, d) && s.st.attempts.phase.NoAttempt? && IsCandidate(c, s.st.surface.messages)
    modifies s, d, w
    ensures s.Valid() && Agreed(s, d) && s.st.attempts.phase.NoAttempt? && s.st.slots == old(s.st).slots
    ensures FlagsRise(old(d.now), d.now) && Later(old(w.env), w.env, w.env.firstStop)
    ensures Moved(old(s.st), s.st, ReplaceEvents(c.id, checkpoint), {})
    ensures s.st.surface == Checkpointed(old(s.st).surface, c.id, checkpoint)
    ensures checkpoint.Some? ==> checkpoint.value.end == c.end && checkpoint.value.message.price < c.tokens && IsRunning(w.env)
    ensures r.Ok? ==> (r.value.None? <==> checkpoint.Some?)
    ensures r.Ok? && r.value.Some? ==> IsSetback(r.value.value) && SetbackHolds(r.value.value, Look(s, d, w), d.limits)
    ensures r.Err? ==> !IsLoopBug(r.error)
  {
    hide Moved, Price, Agree, SetbackHolds, IsRefusal, IsStopTold;
    checkpoint := None;
    ghost var before := s.st;
    MovedNothing(before);
    var stop := StageStop(w);
    StopSetsBack(stop, Look(s, d, w), d.limits);
    if stop.Some? {
      return Ok(stop), checkpoint;
    }
    var id := w.NewId();
    var price := w.Number();
    if id.Err? || price >= c.tokens {
      NothingSetsBack(Look(s, d, w), d.limits);
      return Ok(Some(NoProgress)), checkpoint;
    }
    var message := User(id.value, price);
    r := AppendStage(s, d, Checkpoint(c.id, c.end, message));
    RefusalSetsBack(r, Look(s, d, w), d.limits);
    if r.Ok? && r.value.None? {
      checkpoint := Some(CheckpointTrace(c.end, message));
      AppendedMoves(before, Checkpoint(c.id, c.end, message));
    }
  }

  // ----- the end of the bracket

  // The barrier after the end; an observer that is gone ends the turn.
  method AnnounceEnd(s: Session, d: Driver, outcome: CompactionOutcome) returns (r: Result<CompactionOutcome, Failure>)
    requires s.Valid() && Agree(s, d) && s.st.attempts.phase.NoAttempt?
    modifies s, d
    ensures s.Valid() && Agreed(s, d) && s.st == old(s.st).(visible := s.st.visible) && FlagsRise(old(d.now), d.now)
    ensures r.Ok? ==> r.value == outcome || (r.value == TurnError(ErrorCode.ObserverUnavailable) && d.now.observerUnavailable)
    ensures r.Err? ==> !IsLoopBug(r.error)
  {
    var barrier :- s.FlushBarrier();
    if barrier.Ready? {
      return Ok(outcome);
    }
    d.LatchObserverFault();
    r := Ok(TurnError(ErrorCode.ObserverUnavailable));
  }

  // The end of the bracket is in its claim's slot.
  ghost predicate BracketEnded(before: State, after: State, claim: nat, id: Id, failed: bool) {
    && Moved(before, after, [CompactionEnd(id, failed)], {claim})
    && after.surface == before.surface
    && |after.slots| == |before.slots| && claim < |after.slots|
    && !after.slots[claim].Live?
  }

  lemma EndSettled(before: State, after: State, claim: nat, id: Id, failed: bool)
    requires before.attempts.phase.NoAttempt? && claim < |before.slots|
    requires after == Consumed(before, claim, CompactionEnd(id, failed)).(visible := after.visible)
    ensures BracketEnded(before, after, claim, id, failed)
  {
    RanOneMore(before, after, CompactionEnd(id, failed), {claim});
  }

  // Close as failed, with the reason where there is one (src/agent/compaction.rs:615-665).
  method CloseFailed(s: Session, d: Driver, claim: nat, id: Id, outcome: CompactionOutcome)
    returns (r: Result<CompactionOutcome, Failure>)
    requires s.Valid() && Agree(s, d) && s.st.attempts.phase.NoAttempt?
    requires IsLive(s.st.slots, claim) && s.st.slots[claim].fallback == CompactionEnd(id, true)
    modifies s, d
    ensures s.Valid() && Agreed(s, d) && FlagsRise(old(d.now), d.now)
    ensures r.Ok? ==>
      && BracketEnded(old(s.st), s.st, claim, id, true)
      && (r.value == outcome || (r.value == TurnError(ErrorCode.ObserverUnavailable) && d.now.observerUnavailable))
    ensures r.Err? ==> !IsLoopBug(r.error)
  {
    hide Agree;
    ghost var before := s.st;
    var settled := false;
    if !outcome.Progress? && !outcome.NoProgress? {
      var reported := s.Settle(claim, CompactionEnd(id, true));
      if reported.Err? && reported.error.Fatal? {
        return Err(reported.error);
      }
      settled := reported.Ok?;
    }
    if !settled {
      var _ :- s.SettleExact(claim);
    }
    r := AnnounceEnd(s, d, outcome);
    EndSettled(before, s.st, claim, id, true);
  }

  // Close after the checkpoint: as done, or as failed when that was rejected before
  // its commit; either way the surface was replaced (src/agent/compaction.rs:550-590).
  method CloseDone(s: Session, d: Driver, claim: nat, id: Id)
    returns (r: Result<CompactionOutcome, Failure>, ghost failed: bool)
    requires s.Valid() && Agree(s, d) && s.st.attempts.phase.NoAttempt?
    requires IsLive(s.st.slots, claim) && s.st.slots[claim].fallback == CompactionEnd(id, true)
    modifies s, d
    ensures s.Valid() && Agreed(s, d) && FlagsRise(old(d.now), d.now)
    ensures r.Ok? ==>
      && BracketEnded(old(s.st), s.st, claim, id, failed)
      && (r.value.Progress? || (r.value == TurnError(ErrorCode.ObserverUnavailable) && d.now.observerUnavailable))
    ensures r.Err? ==> !IsLoopBug(r.error)
  {
    hide Agree;
    ghost var before := s.st;
    failed := false;
    var settled, retained := s.SettlePreferredOnly(claim, CompactionEnd(id, false));
    if retained {
      settled := s.ResumePreferredOnly(claim, CompactionEnd(id, false));
    }
    if settled.Err? {
      if retained || settled.error.Fatal? {
        return Err(settled.error), failed;
      }
      failed := true;
      var _ :- s.SettleExact(claim);
    }
    r := AnnounceEnd(s, d, Progress);
    EndSettled(before, s.st, claim, id, failed);
  }

  // ----- the whole bracket

  // The oldest messages gave way to one cheaper message.
  predicate Shortened(a: Surface, b: Surface, c: CheckpointTrace) {
    && 0 < c.end <= |a.messages|
    && b == Surface([c.message] + a.messages[c.end..], a.generation + 1)
    && c.message.price < Price(a.messages[..c.end])
  }

  // What a compaction that did not fail leaves.
  ghost predicate Compacted(a: State, b: State, outcome: CompactionOutcome, trace: Option<PreTrace>) {
    && SpentFrom(b.slots, |a.slots|)
    && match trace
       case None => IsSetback(outcome) && b == a
       case Some(t) =>
         && IsSummary(t)
         && PreClosed(t)
         && Moved(a, b, PreEvents(t), {})
         && (t.Drafted? ==> IsSetback(outcome) && b.surface == a.surface)
         && (t.Bracket? ==>
               && (outcome.TurnError? || (outcome.Progress? <==> t.checkpoint.Some?))
               && (t.checkpoint.None? ==> b.surface == a.surface)
               && (t.checkpoint.Some? ==> Shortened(a.surface, b.surface, t.checkpoint.value)))
  }

  // At most one attempt was spent, and never the last one of the turn.
  predicate Spent(a: Counters, b: Counters, limits: Limits) {
    && (b.attempts == a.attempts || (b.attempts == a.attempts + 1 && b.attempts < limits.maxAttempts))
    && Counted(a.(attempts := b.attempts), b)
  }

  lemma BracketMoves(a: State, b: State, c: State, e: State, cand: Candidate, summarised: bool,
                     checkpoint: Option<CheckpointTrace>, failed: bool, tokens: nat)
    requires Moved(a, b, [CompactionStart(cand.id)], {}) && |b.slots| == |a.slots| + 1
    requires Moved(b, c, MiddleEvents(cand.id, summarised, checkpoint), {}) && c.slots == b.slots
    requires BracketEnded(c, e, |a.slots|, cand.id, failed)
    ensures Moved(a, e, PreEvents(Bracket(cand.id, summarised, checkpoint, failed, tokens)), {})
    ensures SpentFrom(e.slots, |a.slots|)
  {
    hide Moved, MiddleEvents;
    MovedOn(a, b, c, [CompactionStart(cand.id)], MiddleEvents(cand.id, summarised, checkpoint), {}, {});
    MovedOn(a, c, e, [CompactionStart(cand.id)] + MiddleEvents(cand.id, summarised, checkpoint), [CompactionEnd(cand.id, failed)],
            {}, {|a.slots|});
    BracketEvents(cand.id, summarised, checkpoint, failed, tokens);
    assert SpentFrom(e.slots, |a.slots|);
  }

  lemma BracketEvents(id: Id, summarised: bool, checkpoint: Option<CheckpointTrace>, failed: bool, tokens: nat)
    ensures PreEvents(Bracket(id, summarised, checkpoint, failed, tokens))
      == [CompactionStart(id)] + MiddleEvents(id, summarised, checkpoint) + [CompactionEnd(id, failed)]
  {
  }

  // The tokens that a summary reported, where they were counted.
  function TokensOf(trace: Option<PreTrace>): nat {
    if trace.Some? && trace.value.Bracket? then trace.value.tokens else 0
  }

  // From the open bracket to its end.
  method RunBracket(s: Session, d: Driver, w: World, c: Candidate, claim: nat, ghost a: State)
    returns (r: Result<CompactionOutcome, Failure>, ghost trace: Option<PreTrace>)
    requires s.Valid() && Agree(s, d) && s.st.attempts.phase.NoAttempt?
    requires Moved(a, s.st, [CompactionStart(c.id)], {}) && a.surface == s.st.surface && IsCandidate(c, a.surface.messages)
    requires claim == |a.slots| && |s.st.slots| == claim + 1
    requires s.st.slots[claim].Live? && s.st.slots[claim].fallback == CompactionEnd(c.id, true)
    modifies s, d, w
    ensures s.Valid() && Agreed(s, d) && (r.Ok? ==> trace.Some? && Compacted(a, s.st, r.value, trace))
    ensures Counted(old(d.now), d.now) && Later(old(w.env), w.env, w.env.firstStop)
    ensures r.Ok? ==> Tallied(old(d.now).reportedTokens, d.now.reportedTokens, TokensOf(trace))
    ensures r.Ok? ==> TokensWatched(old(d.now), d.now, d.limits, Some(r.value)) && SetbackHolds(r.value, Look(s, d, w), d.limits)
    ensures r.Err? ==> !IsLoopBug(r.error)
  {
    hide Moved, Price, Compacted, BracketEnded, Agree, SetbackHolds, Holds;
    trace := None;
    ghost var b := s.st;
    ghost var summarised, checkpoint, failed, polls, tokens;
    var setback;
    setback, summarised, checkpoint, polls, tokens := Summarise(s, d, w, c);
    ghost var middle := s.st;
    if setback.Err? {
      return Err(setback.error), trace;
    }
    failed := true;
    ghost var x := Look(s, d, w);
    if setback.value.Some? {
      r := CloseFailed(s, d, claim, c.id, setback.value.value);
    } else {
      NothingSetsBack(x, d.limits);
      r, failed := CloseDone(s, d, claim, c.id);
    }
    EndSetsBack(x, Look(s, d, w), d.limits, if setback.value.Some? then setback.value.value else Progress, r);
    if r.Ok? {
      trace := Some(Bracket(c.id, summarised, checkpoint, failed, tokens));
      Compacting(a, b, middle, s.st, c, summarised, checkpoint, failed, tokens, r.value);
    }
  }

  // No tokens were reported.
  lemma NothingTold(a: Counters, b: Counters, limits: Limits)
    requires b.reportedTokens == a.reportedTokens
    ensures Tallied(a.reportedTokens, b.reportedTokens, TokensOf(None)) && TokensOf(Some(Drafted)) == TokensOf(None)
    ensures forall outcome :: TokensWatched(a, b, limits, outcome)
  {
  }

  lemma EndSetsBack(x: Snap, y: Snap, limits: Limits, outcome: CompactionOutcome, r: Result<CompactionOutcome, Failure>)
    requires SetbackHolds(outcome, x, limits) && FlagsRise(x.now, y.now) && y.env == x.env && (x.marks.crowded ==> y.marks.crowded)
    requires r.Ok? ==> r.value == outcome || (r.value == TurnError(ErrorCode.ObserverUnavailable) && y.now.observerUnavailable)
    ensures r.Ok? ==> SetbackHolds(r.value, y, limits)
  {
    SetbackStays(outcome, x, y, limits);
  }

  // One attempt at a compaction (src/agent/compaction.rs:66-590).
  method CompactOnce(s: Session, d: Driver, w: World)
    returns (r: Result<CompactionOutcome, Failure>, ghost trace: Option<PreTrace>)
    requires s.Valid() && Agree(s, d) && s.st.attempts.phase.NoAttempt?
    modifies s, d, w
    ensures s.Valid() && (Agreed(s, d) || IsFatal(r)) && (r.Ok? ==> Compacted(old(s.st), s.st, r.value, trace))
    ensures Spent(old(d.now), d.now, d.limits) && Later(old(w.env), w.env, w.env.firstStop)
    ensures r.Ok? ==> d.now.attempts == old(d.now).attempts + if trace.Some? then 1 else 0
    ensures r.Ok? ==> Tallied(old(d.now).reportedTokens, d.now.reportedTokens, TokensOf(trace))
    ensures r.Ok? ==> TokensWatched(old(d.now), d.now, d.limits, Some(r.value)) && SetbackHolds(r.value, Look(s, d, w), d.limits)
    ensures r.Err? ==> !IsLoopBug(r.error)
  {
    hide Moved, Price, Compacted, SetbackHolds, IsRefusal, Agree, Tallied, TokensWatched, IsStopTold, IsCandidate, TokensOf, SpentFrom;
    trace := None;
    ghost var a := s.st;
    MovedNothing(a);
    var proposal := Propose(s, d, w);
    NothingTold(old(d.now), d.now, d.limits);
    if proposal.Err? {
      if d.now.attempts > old(d.now).attempts {
        trace := Some(Drafted);
      }
      StopSetsBack(if proposal.error.NoProgress? then None else Some(proposal.error), Look(s, d, w), d.limits);
      NothingSetsBack(Look(s, d, w), d.limits);
      NotCompacted(a, a, proposal.error, trace);
      return Ok(proposal.error), trace;
    }
    ghost var ready := d.now;
    r, trace := CompactDraft(s, d, w, proposal.value);
    if r.Ok? {
      WatchedFrom(old(d.now), ready, d.now, d.limits, Some(r.value));
    }
  }

  // Open the bracket of a summary that was drafted, and run it.
  method CompactDraft(s: Session, d: Driver, w: World, c: Candidate)
    returns (r: Result<CompactionOutcome, Failure>, ghost trace: Option<PreTrace>)
    requires s.Valid() && Agree(s, d) && s.st.attempts.phase.NoAttempt? && IsCandidate(c, s.st.surface.messages)
    modifies s, d, w
    ensures s.Valid() && (Agreed(s, d) || IsFatal(r)) && (r.Ok? ==> trace.Some? && Compacted(old(s.st), s.st, r.value, trace))
    ensures Counted(old(d.now), d.now) && Later(old(w.env), w.env, w.env.firstStop)
    ensures r.Ok? ==> Tallied(old(d.now).reportedTokens, d.now.reportedTokens, TokensOf(trace))
    ensures r.Ok? ==> TokensWatched(old(d.now), d.now, d.limits, Some(r.value)) && SetbackHolds(r.value, Look(s, d, w), d.limits)
    ensures r.Err? ==> !IsLoopBug(r.error)
  {
    hide Moved, Price, Compacted, SetbackHolds, IsRefusal, Agree, Tallied, TokensWatched, IsStopTold, IsCandidate, TokensOf, SpentFrom;
    trace := None;
    ghost var a, ready := s.st, d.now;
    var opening :- OpenBracket(s, d, c.id);
    NothingTold(ready, d.now, d.limits);
    if opening.NotOpened? {
      trace := Some(Drafted);
      RefusalSetsBack(Ok(Some(opening.outcome)), Look(s, d, w), d.limits);
      NotCompacted(a, s.st, opening.outcome, trace);
      return Ok(opening.outcome), trace;
    }
    ghost var begun := d.now;
    r, trace := RunBracket(s, d, w, c, opening.claim, a);
    if r.Ok? {
      WatchedFrom(ready, begun, d.now, d.limits, Some(r.value));
    }
  }

  lemma WatchedFrom(a: Counters, b: Counters, c: Counters, limits: Limits, outcome: Option<CompactionOutcome>)
    requires b.reportedTokens == a.reportedTokens && TokensWatched(b, c, limits, outcome)
    ensures TokensWatched(a, c, limits, outcome)
  {
  }

  lemma NotCompacted(a: State, b: State, outcome: CompactionOutcome, trace: Option<PreTrace>)
    requires Moved(a, b, [], {}) && b.surface == a.surface && IsSetback(outcome)
    requires SpentFrom(b.slots, |a.slots|)
    requires if trace.Some? then trace.value.Drafted? else b == a
    ensures Compacted(a, b, outcome, trace)
  {
  }

  lemma Compacting(a: State, b: State, c: State, e: State, cand: Candidate, summarised: bool,
                   checkpoint: Option<CheckpointTrace>, failed: bool, tokens: nat, outcome: CompactionOutcome)
    requires Moved(a, b, [CompactionStart(cand.id)], {}) && |b.slots| == |a.slots| + 1
    requires Moved(b, c, MiddleEvents(cand.id, summarised, checkpoint), {}) && c.slots == b.slots
    requires BracketEnded(c, e, |a.slots|, cand.id, failed)
    requires b.surface == a.surface && c.surface == Checkpointed(b.surface, cand.id, checkpoint)
    requires IsCandidate(cand, a.surface.messages)
    requires checkpoint.Some? ==> summarised && checkpoint.value.end == cand.end && checkpoint.value.message.price < cand.tokens
    requires outcome.TurnError? || (outcome.Progress? <==> checkpoint.Some?)
    requires checkpoint.None? ==> failed
    ensures Compacted(a, e, outcome, Some(Bracket(cand.id, summarised, checkpoint, failed, tokens)))
  {
    BracketMoves(a, b, c, e, cand, summarised, checkpoint, failed, tokens);
  }

  // A shortened surface costs strictly less.
  lemma ShortenedIsCheaper(a: Surface, b: Surface, c: CheckpointTrace)
    requires Shortened(a, b, c)
    ensures Price(b.messages) < Price(a.messages)
  {
    PriceAppend(a.messages[..c.end], a.messages[c.end..]);
    assert a.messages == a.messages[..c.end] + a.messages[c.end..];
    assert b.messages[1..] == a.messages[c.end..];
  }
}
