# A verified model of the dsh agent

This project models the parts of the `dsh` coding agent where the order of things matters, and
proves what they keep. It is written in Dafny 4.11; `dafny verify dfyconfig.toml` checks all of it.

**The agent loop** (`Common`, `SessionLog`, `Session`, `World`, `Driver`, `Moment`, `LogGrammar`, `ToolApproval`,
`ToolCall`, `ToolIteration`, `ToolRound`, `Attempt`, `Compaction`, `Retries`, `StepAttempt`, `Step`,
`StepClosing`, `StepFrame`, `PreStep`, `Turn`, `AgentLoop`, `TurnReasons`, `OrderRules`, `RetryChains`, `EffectsTold`,
`AttemptsEnd`, `Breakdown`). One turn drives an append-only event log. Capacity for later events is claimed up front, and each claim is later settled, rebound or
released. `Session` is a class with the log, the claimed slots, the model-visible surface with its
generation, and at most one provider attempt; `World` holds cancellation, deadlines and the answers of
providers, tools and people, all arbitrary, and keeps a record of its own of every tool round: the first stop
anyone observed in it, the calls the executor saw, which of them it should not have seen any more, the calls whose
outcome was lost, what the user answered to which question, and every side effect with what came back from it. It also
keeps what last went wrong outside, such as a request that is over the limits of the model, so that a turn that tells an
error can be held to it.
`Session` keeps a record of its own as well: whether a durable ceiling or one of a memory session refused anything in
this turn, and whether a barrier told that the observer is gone. `Driver` holds the counters and flags of a turn; what they say is proved
against these two records and against the log. The async functions of
the loop are methods over these three objects, with the same branches, loops and early exits. Each method
carries a ghost trace of what it appended, a tree of the grammar in `LogGrammar`, and its contract ties
the new log, slots, surface, attempts and counters to that trace, and the rounds the world recorded to the
rounds of the trace. What a turn spends (attempts, retries, calls, bytes of results, reported tokens) is a function of its
trace too (`LogGrammar.CostIn`), and the counters are proved equal to it. The contracts of a level are collected
in one predicate on snapshots of the three objects: `TurnDone` for a turn, `TurnRan` for its loop,
`FramedStep` for one step in its frame, `StepRan` and `AttemptRan` below it, `RoundRan` for a round of
tool calls, `Compacted` for a summary. What a step or a turn tells is held against a moment of these objects in `Moment`
and, for a whole turn, in `TurnReasons`.

**The approval handshake** (`ApprovalJoin`, `ApprovalProtocol`, `ApprovalSelector`, `LinearSelector`). The terminal joins the
event and the envelope of one question, which arrive in either order; agent and terminal together are a
labelled transition system whose runs are all interleavings. The selector decides which keys may confirm, in a terminal
that reports arrows unmistakably and in an ordinary one where answers are typed.

**Bounded JSON** (`Json`, `JsonEquality`). An explicit stack in place of recursion for inspecting and
dropping a tree, the normal form of numbers, and semantic equality. The integer range is that of section 6
of RFC 8259.

**Resident credit** (`ResidentCredit`, `ChargedBytes`, `HashTableCharge`). Charges computed with bit masks,
and one atomic counter shared by many leases.

**Byte machines** (`RecordReader`, `Screen`, `ScreenText`, `Transcript`, `SummaryStream`). The record reader
of the plugin examples, the terminal screen with deferred wrap that transcripts are replayed on, the cutting
of a transcript into text and control sequences (section 5.4 of ECMA-48), and the assembly of a summary from
a stream of interleaved blocks.

## What is assumed

- Storage may refuse an operation with any failure of the classes in `Common.Failure`; a refused or failed
  operation leaves the session as it was. A batch of claims is all or nothing, a log event leaves the
  surface generation alone, a surface event adds one. These are the contracts of the methods of `Session`.
- An attempt may be retired only after its closure crossed a barrier, and a session refuses `step/end` over
  a pending question or, when durable, over a call without a result (`SessionLog.Admits`). That the loop
  never runs into these refusals, except at `step/end` after an internal failure, is proved.
- A provider's stream is finite, and one pass of pruning looks at finitely many tool results.
- An awaited future either completes or is interrupted; a panic that the source catches is one of the
  answers of `World`.

## What the proofs found

- The check that the surface still matches the preflighted request can never fail: no contract of the loop
  admits the error `SurfaceChanged` (`StepAttempt.PrepareDispatch`, `AgentLoopModel.AgentLoop.RunTurn`).
- After a sample was drawn for a retry the policy cannot refuse any more, so the second refusal in `run_step`
  is dead (`Retries.SampleDecidesOnce`).
- The branch of `try_with_capacity` that gives credit back is dead (`ChargedBytesModel.NeverLess`), and
  merging two live leases of one pool is never refused (`ResidentCredit.NothingUnderflows`).
- Two ways to cut the same input into reads give the record reader different outcomes exactly when a record
  ends less than one buffer below the limit and more than the limit is there to be read
  (`RecordReaderModel.FragmentationMatters`).
- A combining character joins the glyph before it except behind a one-column glyph in the last column, and
  behind a two-column glyph anywhere else (`ScreenText.MarkJoins`).
- The grammar of streams forbids a block index that was ever used, so no closed index is reused; the exits
  of `collect_summary` for a missing slot, an unknown chunk, a missing finish and an unclosed block are dead
  (`SummaryStreamModel.CollectSummary`).
- A turn can return an outcome with claims that were never spent: exactly when its last step failed inside a
  tool round it had claimed, and then everything before that round is spent and the turn is no success
  (`AgentLoopModel.ClaimsLeftExactly`).
- A step that fails forgets the first stop of its round. The first stop decides the turn if and only if the
  step did not fail or the world has come to the same stop by the end of the turn (`AgentLoopModel.FirstStopDecides`).
  `Breakdown.FirstStopLost` is a run of both: the deadline is seen first, storage refuses the result, and the
  turn ends as aborted with the claim of the result still live.

- A durable ceiling that refuses anything ends its turn without an outcome, with one exception: the ceiling
  that refuses to begin a provider attempt is not remembered (src/agent/mod.rs:1967). Then, and only then, an
  outcome is returned although a ceiling was hit: the step fails, and the turn ends as the world stands by then
  or with an internal error, never with the limit of the session (`AgentLoopModel.AgentLoop.RunTurn`,
  `AgentLoopModel.StallIsForgotten`). `Breakdown.LimitForgotten` is such a run.

## Model

| member | source | states |
|---|---|---|
| `AgentLoopModel.AgentLoop.RunTurn` | src/agent/mod.rs:813-876 | While the loop is not poisoned its log is exactly the closed turns so far, numbered from one, its provider attempts are theirs, the world knows of exactly their tool rounds, nothing is pending and no attempt is live; every error but a declined proposal poisons it; a durable session that returns an outcome stays usable; the counters an outcome carries are exactly the steps of its turn, the attempts it made or drafted, the retries it waited for, the calls it ran, the bytes that tools returned and the tokens that were reported; all of these but the retries, whose limit is that of a step, are within their limits, the bytes unless a file change returned more than it had declared and the tokens if the turn succeeded; every checkpoint replaced messages that cost more; an outcome means that no durable ceiling refused anything, but that one may have kept the last step from an attempt, which its trace tells exactly; the new turn delivers the proposal's messages and is answered as its reason says; neither a changed surface nor an attempt that was not retired is ever reported, and a refusal only over a pending question or, in a durable session, over a call without a result |
| `AgentLoopModel.RunTurnInner` | src/agent/mod.rs:1114-1219 | An outcome means: the log grew by one balanced turn whose last event carries the returned reason; the world recorded exactly the tool rounds of that turn, with the first stop, the prepared calls, the answers of the user and the side effects of each, every effect under the policy for its kind and every answer with at most as many calls as allowed; every claim is spent, or the last step failed in a tool round and every claim before that round is; no attempt is left and at most one summary was tried; the first stop of the last round is the reason unless its step failed or a memory session fell back to its protected reason; the reason is told by the last step (a ceiling, the stop, what is true of the world, a lost observer, or what its answer or its failed attempt came to, which is then true) or, where that step lets the turn go on or there is none, by what was true between two steps; an empty proposal is blocked, completed or aborted; steps, attempts, calls, result bytes and tokens are counted as the trace tells and within their limits, result bytes if every file change kept its declared bound and tokens if the turn succeeded; the session refused nothing for a durable ceiling, except the attempt that the trace says was not begun; the first step alone carries the proposal's messages, and every step the turn went on after, as the last one of a successful turn, did not fail and ended with an answer whose calls all have their results |
| `TurnReasons.AnswerIsTold` | src/agent/mod.rs:1498-1540 | Where nothing stopped it and its reason was stored, a turn ends at the output limit if and only if its last answer was cut off there, and is completed if and only if that answer was whole: not cut off, and without calls or with one that asks for the end in a round that lost nothing |
| `TurnReasons.ReasonIsTrue` | src/agent/mod.rs:1221-1542 | A turn is aborted or timed out only if that is so at the end or was the first stop of its last round; the limits of context, steps, attempts and tokens, the ceiling of a memory session, a lost observer and a failed executor are told only where they are so; the limit of a durable session is never told by an outcome |
| `TurnReasons.RequestIsTooLarge` | src/agent/mod.rs:1276-1422 | A turn that ended before a step, with nothing to stop it and no limit reached, ended because its request is over the limits of the model, and tells exactly that |
| `AgentLoopModel.ClaimsLeftExactly` | src/agent/mod.rs:1428-1459 | A turn that returns an outcome has unspent claims if and only if its last step failed with an answer whose tool round was claimed; such a turn is not a success |
| `AgentLoopModel.FirstStopDecides` | src/agent/mod.rs:1498-1529 | The first stop that the world recorded in the last tool round of a turn is the reason of that turn if and only if the last step did not fail or the world has come to the same stop by the end; only a memory session without room for the reason is exempt |
| `AgentLoopModel.StallIsForgotten` | src/agent/mod.rs:1962-1967 | A turn whose last step was kept from an attempt by a durable ceiling ends as the world stands at the end or with an internal error, and not with the limit of the session; only a memory session without room for the reason is exempt |
| `AgentLoopModel.OpenTurn` | src/agent/mod.rs:1133-1150 | Start and end of the turn are claimed together before the start is settled, so the end keeps its slot whatever follows |
| `AgentLoopModel.CloseTurn` | src/agent/mod.rs:1188-1207 | The end takes its own slot with the turn's reason or, in a memory session only, with the protected one; no outcome comes back from a session that a durable ceiling refused anything |
| `AgentLoopModel.Body` | src/agent/mod.rs:1166-1186 | A rejected or empty proposal leaves the session as it was and ends the turn as aborted, blocked or completed; an entered one leaves a run of closed segments, the rounds the world recorded are exactly theirs, and claims are left only by a last step that failed |
| `AgentLoopModel.TurnFinished` | src/agent/mod.rs:1137-1219 | Opening, body and closing add up to one balanced turn in the log, with every claim of the turn spent or left by the tool round of its failed last step |
| `AgentLoopModel.LogIsAccepted` | src/session/projection.rs:1118-2895 | The log of any number of closed turns is accepted, from the first event to the last, by the order rules of a session, which know nothing of the loop |
| `EffectsTold.LogAnswersForEffects` | src/agent/mod.rs:3372-4138 | For every turn of a loop that is not poisoned, and for all of them together: the tool rounds the world recorded stand in the log in their order, each in a stretch of its own that begins with its answer and holds nothing but its calls, each once. In that stretch every side effect follows its own call, allowed by the policy for its kind (file change, shell command, plugin action) or by an AllowedOnce right before its result that the world knows the user gave to this very question; its result tells a definite effect by tag and size and a lost one as unknown; every logged decision to allow or to reject is what the user answered, and after any decision but to allow the call is told as declined for just that reason, unless its outcome was lost or no text fits. No call had two side effects, and none was handed to the executor after a stop, a lost outcome, a durable ceiling of the session or the loss of its observer, nor while the turn was cancelled or out of time, nor before its own row was stored and visible |
| `EffectsTold.BlocksServe` | src/agent/mod.rs:2624-2906 | In the events of one round every side effect of its record stands after its own call, allowed by the policy for its kind or by a recorded answer of the user to the question before it, before the result that tells it; no decision to allow or to reject misquotes the user; and a call that was declined is told with the reason of the decision before it |
| `EffectsTold.DeedsAreOfCalls` | src/agent/mod.rs:2624-2692 | The side effects of a round belong to different calls |
| `OrderRules.ReadsTurn` | src/session/projection.rs:1118-2895 | Every closed turn takes an idle log to an idle log of the next turn |
| `OrderRules.ReadsStep` | src/agent/mod.rs:1425-1485 | A closed step is read from its start to its end: user messages, attempts under their retry chains, one answer, its calls in order, each with its decision before its result |
| `OrderRules.ReadsBlocks` | src/agent/mod.rs:2624-2906 | The blocks of a complete round are read one call after the other, every question answered under its own identifier before the result |
| `OrderRules.ReadsAttempts` | src/agent/mod.rs:2040-2191 | A closed chain of attempts is read: each retry continues its chain by one under one identifier and is started at most once |
| `OrderRules.ReadsSegments` | src/agent/mod.rs:1230-1541 | The segments of a turn are read in order, steps numbered one after the other, whatever prunes and brackets stand between them |
| `AgentTurn.RunEnteredTurn` | src/agent/mod.rs:1221-1542 | The loop ends because every further iteration takes a step; on every result its segments are closed, their steps numbered from one, their rounds are those the world recorded, what they cost was counted, their checkpoints replaced what cost more, at most one of them is a summary, no step but the last failed or latched a stop, and the last one decides the reason: a durable limit first, then its failure with the state of the world, then the first stop observed in its round; the flags of the turn are what the session recorded, and a success kept the reported tokens within their limit |
| `AgentTurn.Iterate` | src/agent/mod.rs:1230-1541 | One iteration leaves a passage of prunes and at most one bracket, then one closed step or none; where it takes no step every claim is given back, and where it takes one claims are left only if that step failed in a tool round |
| `AgentTurn.AfterPassage` | src/agent/mod.rs:1425-1541 | The claimed frame is either spent by one step or released whole; no claim of the iteration is left, except claims of a tool round in which that step failed |
| `AgentTurn.RunFramed` | src/agent/mod.rs:1425-1497 | A step that was run is closed: its frame is spent, its attempts closed as strictly as the session demands, an attempt still open is closed as cancelled exactly when the step was and as failed otherwise, and retired; the world recorded exactly its round, and the stop it returns is the first one observed there; the outcome it returns is the one its answer gives, or the error or cancellation that is true of the world, the limits or the session; a failed step ends as an internal error or for a lost observer and leaves claims exactly of a tool round it did not finish; only a fatal failure, a result the session still owns or a refusal to close over open work is returned instead |
| `AgentTurn.Classify` | src/agent/mod.rs:1498-1540 | A durable limit decides first, then the stop latched in the tool round, then a cancellation or deadline observed now, then the outcome of the step: only one that says so goes on, and completed, cut off, cancelled and every error each end the turn as just that |
| `AgentTurn.StepTells` | src/agent/mod.rs:1498-1540 | A turn that a step ends is told by that step, and a turn goes on only after a whole round in which nothing was lost or stopped and no call asks for the end |
| `AgentTurn.EndBefore` | src/agent/mod.rs:1230-1245 | A step begins only if the turn is neither cancelled nor out of time nor at its limit of steps, looked at in this order |
| `AgentTurn.IterationJoins` | src/agent/mod.rs:1230-1541 | Iterations compose: closed segments after closed segments stay closed and correctly numbered, their costs add up, and only the last may have latched a stop |
| `AgentTurn.CountersJoin` | src/agent/mod.rs:1230-1541 | What two runs of segments spend adds up: attempts, calls, bytes and saturating tokens of both together, each still within its limit |
| `AgentTurn.DeliveredJoins` | src/agent/mod.rs:1247-1264 | The messages of a turn are appended once, by its first step, however many iterations pass before or after it |
| `AgentTurn.AnswersJoin` | src/agent/mod.rs:1530-1540 | A turn goes on only after a complete answer and succeeds only with one |
| `AgentTurn.StepEnds` | src/agent/mod.rs:1425-1540 | A step whose outcome lets the turn go on or succeed ended with an answer in which every call has its result |
| `AgentTurn.StepStops` | src/agent/mod.rs:1498-1540 | However a step ended, classifying it gives the durable limit first, then for a failed step the state of the world or its own error, otherwise the first stop of its round |
| `Breakdown.FirstStopLost` | src/agent/mod.rs:1451-1459 | A run in which it is not: the deadline was first, storage refused the result, the turn is aborted and the claim of the result stays live, all within the contract of a turn |
| `Breakdown.LimitForgotten` | src/agent/mod.rs:1962-1967 | A run of a durable session in which a ceiling refuses to begin the only attempt: the turn returns an outcome that does not tell so, all within the contract of a turn |
| `AgentTurn.NeverLeftClosed` | src/agent/mod.rs:1460-1497 | No run of attempts leaves one closed but not retired |
| `StepFrame.ClaimFrame` | src/agent/mod.rs:1247-1264 | The whole frame of a step is claimed or nothing is |
| `StepFrame.EnterFrame` | src/agent/mod.rs:929-938 | Entering appends step/start and the user messages in order, spends exactly their claims and keeps the claim of step/end |
| `StepFrame.ReleaseFrame` | src/agent/mod.rs:940-947 | Releasing spends every claim of the frame, appends nothing and touches no other claim |
| `StepFrame.CloseFrame` | src/agent/mod.rs:1460-1497 | step/end is appended in its slot; an open attempt is closed by the same event, as cancelled exactly when the outcome of the step is a cancellation and as failed otherwise, then retired, and such a step never counts as a success; only an observer lost at the end replaces its outcome |
| `AttemptsEnd.EveryAttemptEnds` | src/agent/mod.rs:1460-1497 | Over any number of turns: as many provider attempts were begun as have a disposition and as were retired, none is open, and the dispositions are, in order, retry for a retried attempt, committed for an answered one, and cancelled or failed for one that the end of its step closed |
| `AttemptsEnd.StepEnds` | src/agent/mod.rs:1785-2206 | The same for the attempts of one step |
| `StepClosing.StepCloses` | src/session/projection.rs:1208-1238 | The session admits step/end if and only if the attempts of the step are closed in the sense of the grammar; without an abandoned call a memory session closed it as strictly as a durable one |
| `SessionModel.EndsAreAnswered` | src/session/projection.rs:1936-1944 | Whatever the log holds, the session lets a turn end exactly when no question in it is open, and a step too, a durable one only when every call of the message it is about has a result |
| `SessionModel.PendingIsAsked` | src/session/projection.rs:2117-2154 | The session holds an approval for pending exactly when a question of its log has no decision after it |
| `SessionModel.GenerationTells` | src/session/projection.rs:1412-1423 | The generation never falls, and it stands still exactly over events that change nothing the model would be shown; so a request of the present generation shows the present messages |
| `StepClosing.BlocksOpen` | src/agent/mod.rs:2624-2906 | What a round leaves open is exactly what its blocks say: the declared calls less the results, and a question of the last block without its decision |
| `StepClosing.AttemptsOpen` | src/agent/mod.rs:1785-2206 | Only the answer of a step can leave work open |
| `PreStep.BeforeStep` | src/agent/mod.rs:1265-1424 | Whatever the passage did, a request it hands on matches the surface it left plus the pending messages and is not over the limits of the model; a turn it ends instead is ended for a reason that is true; the attempts and tokens it spent are exactly those of the summary it tried; at most one summary is tried in the turn and it never spends the last attempt |
| `PreStep.Reduce` | src/agent/mod.rs:1276-1422 | Pruning, summarising and re-preparing leave a matching request that the adapter did not find too large, or end the turn for a reason that is true: aborted only if cancelled, timed out only after the deadline, a ceiling only where storage refused something, the token limit only above it, a lost observer only after one, and the context limit only where the adapter last said so |
| `PreStep.AfterSummary` | src/agent/mod.rs:1381-1416 | What a compaction means for the turn: a replaced surface is prepared anew unless a stop comes first; a request over its limits that was not replaced ends the turn with the context limit; any other end is true |
| `PreStep.MakeRoom` | src/agent/mod.rs:1276-1355 | Pruning alone never tries a summary and never spends an attempt, and every prune that changed the surface is followed by a new preparation |
| `PreStep.SummariseOnce` | src/agent/mod.rs:1365-1416 | A replaced surface is prepared anew, an unchanged one keeps its preparation |
| `PreStep.PayJoins` | src/agent/compaction.rs:515-529 | Wherever a checkpoint stands in the segments of a turn, it replaced a prefix of the surface of that moment that cost more; wherever a pruned result stands, it replaced the result of the same call, changed no other message and moved the generation on |
| `PreStep.PruneAndPrepare` | src/agent/mod.rs:1276-1312 | Without progress the preparation stays, with progress it is made for the new surface; a stop ends the turn where the source looks for one, for a reason that is true |
| `PreStep.Prune` | src/agent/mod.rs:1566-1618 | Every finished prune is a marker and its rewrite, an unfinished one only its marker; a pass without progress left the surface as it was; a pass cut short tells a cancellation, a ceiling or a lost observer only where there was one |
| `PreStep.ClassifyPrune` | src/agent/mod.rs:1620-1640 | A ceiling becomes its own error, a fatal failure is returned, and any other refusal tells progress exactly when there was some |
| `PreStep.StopBefore` | src/agent/mod.rs:1544-1564 | A durable limit is told before a cancellation, and that before the deadline |
| `AgentStep.RunStep` | src/agent/mod.rs:1770-2207 | A step makes at least one and at most one more attempt than its retries allow; only its last attempt is an answer, the world recorded exactly the round of that answer with the stop the step returns, its outcome is what that answer gives or an error that is true, what its attempts cost was counted, its retry chains count 1, 2, 3 and so on under one identifier each, every attempt begun was retired or is the one left open, and every claim it made is spent unless it failed in a tool round |
| `AgentStep.ChainJoins` | src/agent/mod.rs:2044-2084 | A retry that continues its chain keeps all chains of the step in order |
| `RetryChains.ChainCounts` | src/agent/mod.rs:2044-2082 | In a step whose chains are in order a chain exists for exactly the keys that were retried, its latest number counts their retries, and all of them carry its identifier |
| `RetryChains.NumbersCount` | src/agent/mod.rs:2046-2084 | The number of a retry is its place in its chain, counted from one |
| `RetryChains.ChainsSum` | src/agent/mod.rs:2149-2151 | The retries of a step are the lengths of its chains taken together |
| `StepAttempt.RunAttempt` | src/agent/mod.rs:1785-2206 | One attempt appends exactly its trace and is counted once, unless a stop or the limit of attempts barred it; it begins at most one provider attempt, gives it exactly one disposition, goes on only after a started retry with another attempt left, and leaves in the world exactly the round of its answer, whose first stop is the one it returns; the tokens of its chunks, its calls and its result bytes are added to the counters of the turn; a ceiling that keeps it from beginning is told by its trace |
| `StepAttempt.PrepareDispatch` | src/agent/mod.rs:1803-1960 | The request handed on to be sent matches the surface at dispatch in generation and messages, for a preparation made before the step as for a new one; at most a header and a context row are written before it |
| `StepAttempt.SendAttempt` | src/agent/mod.rs:1962-2206 | Only a request that matches the surface may be dispatched, and only while the turn is neither cancelled nor out of time and every row before it is stored and visible |
| `StepAttempt.Prepare` | src/agent/mod.rs:1642-1729 | A preparation fits the present surface extended by the pending messages, its generation higher by their number, and says what the adapter said of it: ready, over the limits, not prepared or not accepted |
| `StepAttempt.ConsumeStream` | src/agent/mod.rs:2210-2315 | Reading the stream appends one chunk event per accepted chunk and leaves the attempt open; the tokens those chunks report are added to the count of the turn, and a stream that came to its end kept the count within the limit; a stream that ends the step tells a stop, a ceiling, the token limit or the failure of the provider only where there was one |
| `StepAttempt.ChooseRetry` | src/agent/mod.rs:2040-2084 | A retry is chosen only while retries and attempts are left; it continues its chain or opens one with number one; giving up tells a cancellation, a limit that is reached or the failure of the provider |
| `StepAttempt.ScheduleRetry` | src/agent/mod.rs:2040-2191 | The failed attempt is closed by its retry row, stored and retired before the wait; the step goes on only when the start of the retry is logged; a retry is counted exactly when the observer saw its row |
| `StepAttempt.CommitAttempt` | src/agent/mod.rs:2318-2448 | May be called only while the turn is neither cancelled nor out of time; the answer closes its attempt as committed and retires it before any tool starts; a truncated answer carries no tool call and is recorded as such; the outcome is the one the answer gives; its calls are no more than an answer may have, and they and the bytes of their results are added to the counters of the turn exactly when the round was begun; the stop returned is the first one the world recorded for the round; a failure leaves claims exactly when the round was claimed and not finished |
| `StepAttempt.CommitPlainAnswer` | src/agent/mod.rs:2401-2432 | An answer without calls is the closure of its attempt; it is told as completed, as cut off exactly when it was, or as a lost observer where its barrier said so, and a failed append leaves the attempt open |
| `StepAttempt.ValidateCalls` | src/agent/mod.rs:2457-2477 | Calls beyond the limits of the step or of the turn are told so, and duplicates are refused; what is accepted is distinct and within both |
| `Retries.RetryIsBounded` | src/agent/retry.rs:12-61 | A delay is between zero and the ceiling of the policy; the decision is to stop exactly when a bounded policy is out of retries, does not know the code, or is told to wait longer than its ceiling; the delay that a provider asks for is kept within the ceiling; a sample is asked for exactly where there is none and no such delay |
| `Retries.SampleDecidesOnce` | src/agent/retry.rs:12-61 | Deciding without a sample and then with one never contradicts itself, and a sample is asked for at most once |
| `Retries.JitterIsProportional` | src/agent/retry.rs:12-61 | Jitter moves a delay by at most its ratio in both directions; the smallest and largest samples move it by just that, and a middle one leaves it where it was |
| `Retries.DelaysDouble` | src/agent/retry.rs:50-58 | The first retry waits the initial delay, every further one twice as long as the one before up to the ceiling, and beyond the largest exponent the delay stays |
| `Retries.DelaysGrow` | src/agent/retry.rs:12-61 | Delays before jitter never shrink from one retry to the next |
| `AttemptLife.CloseByAppend` | src/agent/mod.rs:2116-2142 | Closing by an append gives the attempt one disposition, stores it, and retires it, or leaves it open when nothing was appended |
| `AttemptLife.CloseByClaim` | src/agent/mod.rs:2600-2617 | Closing from the claim that protects the answer spends that claim and no other, then retires the attempt |
| `AttemptLife.RetireClosed` | src/agent/mod.rs:2139-2142 | An attempt is retired only after a barrier stored its closure |
| `ToolRound.CommitToolRound` | src/agent/mod.rs:2490-2946 | Each of the 1 + 2n claims of a round is spent once: a durable session has exactly one result for each call; a memory session that lost an outcome has results for exactly the calls before it, none for it, and no later call event. The world keeps the first stop, the prepared calls, the lost outcomes, the answers of the user and the side effects of the round, as its blocks say, and no call it should not have seen; the calls of the round and the bytes of its results are counted; a round that lost an outcome never goes on or concludes; a round that fails leaves the claim of its answer spent or live and some claim after it live |
| `ToolRound.RunCalls` | src/agent/mod.rs:2618-2945 | Calls run in order, each has at most one effect, the stop returned is the first one observed by anybody, and prepared calls, lost outcomes, answers of the user and side effects are as the world recorded them; the executor sees no call after a stop, a lost outcome, a durable ceiling of the session or the loss of its observer; once a call ended with the round stopping every later one does; a round that lost an outcome ends with an error, and a round goes on or concludes exactly when it was not stopping after its last call, and concludes exactly when some call asked for it; without a stop, a ceiling or a lost observer it fails exactly when it lost an outcome; otherwise it tells a lost outcome, a durable limit and a lost observer, in this order |
| `ToolRound.RoundStep` | src/agent/mod.rs:2624-2931 | One more call keeps all of this, however it ended |
| `ToolRound.ReleaseCalls` | src/agent/mod.rs:2751-2755 | The claims of the calls that never began are all released, and no others |
| `ToolRound.ClaimRound` | src/agent/mod.rs:2508-2599 | Either every claim of the round is live with its own fallback, owned actions at their raised ceilings, or none is |
| `ToolRound.RaiseCeilings` | src/agent/mod.rs:2568-2599 | Raising the ceilings of owned actions keeps every claim of the round live with its own fallback |
| `ToolIteration.RunCall` | src/agent/mod.rs:2624-2931 | One iteration leaves one block of the grammar and spends both claims of its call; the first stop stays latched; a call that did not run is told with the diagnostic that is so: the session is full, the round was stopping or the observer lost, or what kept the executor from preparing it, and in a full session nothing else is told |
| `ToolIteration.Dispatch` | src/agent/mod.rs:2652-2692 | A session that refused something for a durable ceiling, a stopping round or a lost observer keeps the executor from seeing the call, let alone answering for it; whatever it returns without a usable outcome is recorded as lost |
| `ToolIteration.Close` | src/agent/mod.rs:2693-2906 | The text of the result is that of the run or the protected template, and agrees with what the world recorded: a definite side effect is told by its own tag and size, a lost one by the unknown-outcome diagnostic, the protected fallback or, in a memory session, a released claim; exactly the bytes of a result of the tool itself are added to those of the turn, and they stay within its limit unless the effect exceeded its declared bound; the round concludes only by a result that says so |
| `ToolIteration.LookAgain` | src/agent/mod.rs:2907-2930 | A stop that came while the result was committed is latched before the next call, unless one was latched already |
| `ToolCall.RunOneTool` | src/agent/mod.rs:3036-3235 | May be called only where nothing keeps the executor from starting and every row of the log is stored and visible; nothing is prepared after a stop, and a stop seen while preparing wins over the executor's answer; only an ordinary tool prepares a mutation and only an owned one an action; a call that was not prepared is told with the problem the world records |
| `ToolCall.Returned` | src/agent/mod.rs:3176-3221 | What the executor returns is taken exactly when it fits the call: a change only of an ordinary tool, an action only of an owned one it matches, an output of an owned one only within its contract; everything else is recorded as a lost outcome |
| `ToolCall.PrestartFailure` | src/agent/mod.rs:3237-3275 | A failure before the start reports its stop and its diagnostic, which a cancellation of an ordinary call replaces, never an effect, and gives way to the fallback |
| `ToolCall.Authorize` | src/agent/mod.rs:3372-3525 | A grant means: allowed by policy or by the user, whose recorded AllowedOnce to this very question is stored and visible, no stop observed, no effect yet, and the declared result size reserved and affordable |
| `ToolCall.ProtectResult` | src/agent/mod.rs:3385-3420 | The declared size is within the limit of one result and reserved in the result claim of this call, or no effect may start; a refusal by a durable ceiling sets the limit of the turn, and nothing else does |
| `ToolCall.Act` | src/agent/mod.rs:3541-3611 | The one place where a side effect starts: no stop was observed, nobody has cancelled and there is time left at that moment, the call had no effect, its result is reserved, and the policy or the user allowed it; its kind is that of the profile |
| `ToolCall.PublishMutation` | src/agent/mod.rs:3954-4020 | May be called only where a side effect may start; the world records one side effect for the call with what came back: a published change must be settled with that very result, whatever its size, an unpublished one may give way to the fallback, anything else is a lost outcome |
| `ToolCall.RunAction` | src/agent/mod.rs:3541-3627 | May be called only where a side effect may start; the world records one side effect for the call with what came back: it is definite exactly for a sound result of a start within the declared bound, harmless exactly for a sound report of no start, and lost otherwise |
| `ToolCall.ResolveMutation` | src/agent/mod.rs:3695-3859 | A prepared file change has at most one effect, licensed and recorded by the world, and leaves the result of its call protected; a change that was declined names the reason of its rows |
| `ToolCall.ResolveAction` | src/agent/mod.rs:3278-3627 | A prepared action has at most one effect, licensed and recorded by the world, and leaves the result of its call protected; an action that was declined names the reason of its rows |
| `ToolCall.WatchAction` | src/agent/mod.rs:3557-3611 | The stop of a watched action is the first of: noticed while it ran, reported by it, true at its end |
| `ToolCall.SettleToolResult` | src/agent/mod.rs:4026-4138 | One result event spends the claim of its call; a definite result is never replaced by the fallback, an ordinary one is within the limit of one result and keeps the turn within its result bytes |
| `ToolCall.SettleTruthful` | src/agent/mod.rs:4097-4117 | A result that must not be replaced is settled as it is, after at most one resumed try, or an error is returned and nothing was appended |
| `ToolCall.SettleDiagnostic` | src/agent/mod.rs:2948-2992 | The diagnostic or the protected fallback spends the claim of the call, once |
| `ToolApproval.AskUser` | src/agent/mod.rs:3422-3525 | One question leaves asked and exactly one decided row with the same identifier, whose outcome is what the world knows the user answered, a cancellation after a stop, or unavailable without an answer; only AllowedOnce that is stored and visible, with no stop, grants the start; a refusal by a durable ceiling and a lost observer set the flags of the turn |
| `ToolApproval.CommitQuestion` | src/agent/mod.rs:3439-3470 | The decision's row is claimed before the question is stored |
| `ToolApproval.HearUser` | src/agent/mod.rs:3470-3488 | From the stored question to the stored decision the session does nothing else, the user is asked only when this question is the last row of the log and everything is visible, and the decision is what the user answered unless a stop cancelled it |
| `ToolApproval.VerdictOf` | src/agent/mod.rs:3492-3522 | Only an allowing, visible decision without a stop is a grant; every other one carries its stop on and declines with the reason of that decision: rejected, cancelled, unavailable, or not dispatched after it was allowed |
| `ToolApproval.RequestApproval` | src/agent/mod.rs:3876-3932 | May be called only when the question is the last row of the log and visible; the outcome is what the user answered, unavailable without an answer, and a cancellation after any stop |
| `Compaction.CompactOnce` | src/agent/compaction.rs:66-590 | Once the start is logged exactly one end with its identifier follows: start, optional summary, optional checkpoint after a summary, end; without a checkpoint the surface is unchanged, with one a prefix of it was replaced by one cheaper message; exactly one attempt is counted where a summary was drafted, never the last one, and the tokens it reported; an outcome that ends the turn is true |
| `Compaction.Propose` | src/agent/compaction.rs:75-215 | The candidate is a non-empty, priced prefix of the surface and costs exactly one attempt, never the last one |
| `Compaction.Collect` | src/agent/compaction.rs:267-397 | A summary is there only if what the provider sent was a whole stream that stopped, judged a summary by its assembly, and its usage is what the stream reported; a stream given up for a stop tells that stop, only one that reports a failure is told as one, and every other end is no progress, after its usage was counted once |
| `Compaction.OpenBracket` | src/agent/compaction.rs:229-266 | The end of the bracket is protected before its start is appended, and released again when the start is refused |
| `Compaction.Replace` | src/agent/compaction.rs:456-549 | A checkpoint is appended only when it is cheaper than what it replaces, and only while the turn is neither cancelled nor out of time |
| `Compaction.CloseFailed` | src/agent/compaction.rs:615-665 | The bracket ends as failed in its protected slot and the outcome is kept, unless the observer is gone |
| `Compaction.CloseDone` | src/agent/compaction.rs:550-590 | After the checkpoint the bracket always ends, as done or as failed, and the outcome is progress unless the observer is gone |
| `Compaction.ShortenedIsCheaper` | src/agent/compaction.rs:515-529 | Replacing the candidate by its checkpoint makes the surface cost strictly less |
| `DriverModel.Driver.ReportTokens` | src/agent/compaction.rs:592-613 | Reported tokens saturate at the largest word, and exceeding the limit is told exactly |
| `ApprovalJoinModel.ApprovalJoin.Asked` | src/cli/approval_join.rs:136-159 | Refuses a second open question and a decided one; otherwise keeps the half or joins it |
| `ApprovalJoinModel.ApprovalJoin.Receive` | src/cli/approval_join.rs:161-179 | A late envelope of a decided question is dropped; otherwise it is kept or joined, never over another one |
| `ApprovalJoinModel.ApprovalJoin.Activate` | src/cli/approval_join.rs:280-316 | Two halves become a question only when identifier, tool, call and reason agree and a canonical preview belongs to apply_patch; without a challenge the agent is answered unavailable |
| `ApprovalJoinModel.ApprovalJoin.AnswerQuestion` | src/cli/approval_join.rs:187-199 | An answer goes, as it was given, to the identifier that was shown, once |
| `ApprovalJoinModel.ApprovalJoin.Decided` | src/cli/approval_join.rs:201-244 | A decision clears what belongs to its question and is remembered within the bounds of the turn; a decision on another question is refused |
| `ApprovalJoinModel.ApprovalJoin.Finish` | src/cli/approval_join.rs:254-278 | A normal finish needs the end of the turn and nothing left over, and forgets the turn's decisions |
| `ApprovalJoinModel.ChallengePool.Next` | src/cli/approval.rs:117-137 | A challenge handed out differs from every value drawn before it; a repeated value is used up |
| `ApprovalJoinModel.ChallengesAreDistinct` | src/cli/approval.rs:117-137 | No two draws of a pool hand out the same challenge |
| `ApprovalProtocol.RunIsSafe` | src/cli/approval_join.rs:121-343 | The invariant that ties the agent, the channel, the event queue and the join together holds in every interleaving |
| `ApprovalProtocol.StepOk` | src/cli/approval_join.rs:121-343 | Every step of either side, and every observation in any cross-channel order, keeps that invariant |
| `ApprovalProtocol.JoinNeverRefuses` | src/cli/approval_join.rs:136-343 | In no interleaving does the join return an error |
| `ApprovalProtocol.BytesBounded` | src/cli/approval_join.rs:318-332 | With identifiers of at most 1024 bytes and at most 256 questions the memory of decided questions never overflows |
| `ApprovalProtocol.FinishSucceeds` | src/cli/approval_join.rs:254-278 | Once the turn is over and all of it was seen, the normal finish succeeds |
| `ApprovalProtocol.AllowedOnlyByAnswer` | src/agent/mod.rs:3433-3521 | The agent hears AllowedOnce only if the user allowed, at some earlier step, a question shown with the identifier, tool, call and reason of the agent's own asked event |
| `ApprovalProtocol.LoggedOnlyByAnswer` | src/agent/mod.rs:3433-3521 | A question is logged as allowed only if the user, at some earlier step, was shown that very question and allowed it; asked and decided stand one after the other under its identifier |
| `ApprovalSelectorModel.AllowIsAuthorised` | src/cli/approval_selector.rs:169-344 | In every run of the enhanced profile a step decides AllowedOnce if and only if it is Enter and an arrow of a strictly earlier feed focused that choice with no change of selection since; the choice is focused exactly when a serial is stored |
| `LinearSelector.LinearIsTyped` | src/cli/approval_selector.rs:169-344 | In every run of the linear profile a step allows once if and only if it is Enter or Newline and the characters typed since the record was last empty spell y, yes, allow, or allow with the challenge, or there are none and the line to allow is highlighted; it rejects and cancels by the same rule for their words, and an escape cancels. What is typed and what is highlighted are told from the keys alone |
| `LinearSelector.ParseNames` | src/cli/approval.rs:152-175 | A typed record means an answer exactly when it is one of the words for it or its verb with the challenge |
| `LinearSelector.EventMoves` | src/cli/approval_selector.rs:206-334 | With nothing typed an event moves the highlight around the three lines, and a word edited into the record moves it to the line it names |
| `ApprovalSelectorModel.ApprovalSelector.FeedInput` | src/cli/approval_selector.rs:169-204 | The selector with its fixed buffer takes one piece of input event by event as the value model says, up to the event that ends the feed, and records each step; what those steps may decide is proved for all runs below |
| `ApprovalSelectorModel.ApprovalSelector.TakeOne` | src/cli/approval_selector.rs:206-307 | One decoded event changes selection, record, focus and draining flags as the value model says |
| `ApprovalSelectorModel.ApprovalSelector.Expire` | src/cli/approval_selector.rs:160-167 | A pending escape that expires cancels and clears the record |
| `ApprovalSelectorModel.EnhancedStep` | src/cli/approval_selector.rs:206-344 | In the enhanced profile the record stays empty, focus and serial agree, and allowing needs an older focus |
| `ApprovalSelectorModel.FocusIsUnique` | src/cli/approval_selector.rs:309-313 | At most one arrow can be the one that focused the present choice |
| `Json.InspectJson` | src/json_value.rs:488-572 | The traversal with an explicit stack gives exactly the recursive preorder result, first error or saturated charge, with at most one frame more than the maximum depth |
| `Json.VisitAdmits` | src/json_value.rs:511-556 | A tree passes if and only if it has few enough nodes, is shallow enough and all numbers are finite, not minus zero and safe when integral; then every node was counted once |
| `Json.NumberIsInteroperable` | src/json_value.rs:519-537 | A number is admitted exactly when it is finite, not minus zero, and below two to the power of 53 in magnitude if it is whole |
| `Json.VisitCharges` | src/json_value.rs:511-601 | The charge is the sum of the charges of all allocations of the tree, saturated once at the largest word |
| `Json.ObjectChargeCovers` | src/json_value.rs:580-601 | An object is charged for the least number of tree nodes that hold its entries at five to each node but the first, and for one node even where it is empty |
| `Json.DropIteratively` | src/json_value.rs:657-700 | Dropping without recursion ends and visits exactly the preorder of the tree |
| `Json.PreorderCounts` | src/json_value.rs:657-700 | That order has one entry for every node of the tree |
| `JsonEquality.EqualityIsCanonical` | src/json_value.rs:456-486 | On admitted trees semantic equality is identity of normal forms; the cutoff at the maximum depth is never reached |
| `JsonEquality.EqualityIsEquivalence` | src/json_value.rs:456-486 | Semantic equality is reflexive, symmetric and transitive on admitted trees |
| `JsonEquality.EqualKeys` | src/json_value.rs:476-483 | Looking keys up in one direction with equal counts already makes the key sets equal |
| `JsonEquality.NormaliseNumbers` | src/json_value.rs:629-655 | Rewriting child after child gives the normal form, in which a float that is a safe integer is that integer |
| `JsonEquality.NormaliseIdempotent` | src/json_value.rs:629-655 | Normalising twice is normalising once |
| `JsonEquality.NumberIdempotent` | src/json_value.rs:629-642 | The normal form keeps the value of a number, and a float becomes an integer exactly where it is whole and below two to the power of 53 in magnitude |
| `JsonEquality.NormaliseKeeps` | src/json_value.rs:456-486 | The normal form of an admitted tree is admitted and semantically equal to it |
| `ResidentCredit.RoundUpIsLeast` | src/resident_credit.rs:379-384 | Adding and masking finds the least multiple of the alignment that is not below the value, and fails exactly on overflow |
| `ResidentCredit.AndClears` | src/resident_credit.rs:379-384 | Masking with the complement of a power of two less one takes the remainder away |
| `ResidentCredit.ChargeCovers` | src/resident_credit.rs:370-377 | A charge covers the allocation and its overhead with less than one alignment of padding |
| `ResidentCredit.ChargeMonotone` | src/resident_credit.rs:370-377 | A larger allocation is never charged less, and if it can be charged so can the smaller one |
| `ResidentCredit.ActConserves` | src/resident_credit.rs:103-181 | Acquire, split, merge, a rejected merge and drop each keep the counter equal to the live leases and within its limit |
| `ResidentCredit.CreditIsConserved` | src/resident_credit.rs:103-181 | So does every interleaving of them by any number of owners over any number of pools |
| `ResidentCredit.NothingUnderflows` | src/resident_credit.rs:160-181 | A drop never takes the counter below zero and a merge within one pool never overflows |
| `ResidentCredit.RefusedExactly` | src/resident_credit.rs:103-181 | With the counter and the leases in agreement an acquisition is refused exactly when it and what the leases hold are over the limit, a split exactly when it asks for more than the lease holds, a merge only between pools, a drop never |
| `ChargedBytesModel.ChargedBytes.TryWithCapacity` | src/resident_credit.rs:207-240 | With other owners acting in between, a buffer holds one lease of exactly the charge of its real capacity, and after a failure at any point this owner holds the leases it had; the credits stay conserved |
| `ChargedBytesModel.ChargedBytes.ExtendInPlace` | src/resident_credit.rs:261-267 | Appending never grows the charged backing: it fits or nothing happens |
| `ChargedBytesModel.CreditPool.FetchUpdate` | src/resident_credit.rs:103-120 | The atomic acquisition is the acquire step of the counter model: all of it within the limit, as a new lease, or nothing |
| `ChargedBytesModel.CreditPool.Absorb` | src/resident_credit.rs:154-181 | Merging two leases and dropping the empty one gives the first the bytes of both, keeps every other lease and the conservation of the counter |
| `ChargedBytesModel.NeverLess` | src/resident_credit.rs:207-240 | The real backing is never charged less than the requested one |
| `HashTableCharge.PowerFromIsLeast` | src/resident_credit.rs:341-348 | The bucket count starts from the least power of two that is not below the entries |
| `HashTableCharge.TableChargeCovers` | src/resident_credit.rs:335-355 | The charge covers a table whose buckets, each with its control byte, hold the entries at a load of at most seven eighths |
| `HashTableCharge.TableChargeMonotone` | src/resident_credit.rs:335-355 | A table for fewer entries is never charged more |
| `RecordReaderModel.RecordReader.NextRecord` | examples/plugin_support/mod.rs:189-226 | One call gives the next record, a clean end or an error, and never keeps more than the record limit |
| `RecordReaderModel.RecordReader.ReadAll` | examples/plugin_support/mod.rs:50-97 | Reading to the end gives the outcome of the whole run |
| `RecordReaderModel.RecordsAreSegments` | examples/plugin_support/mod.rs:189-226 | For every cut of the input the records are leading newline-terminated segments of the stream, in order |
| `RecordReaderModel.FragmentationMatters` | examples/plugin_support/mod.rs:189-226 | All pairs of cuts of a stream into reads of 1 to 8192 bytes have the same outcome if and only if no record ends so close to the limit that a full read with its newline overflows |
| `RecordReaderModel.CrampedCut` | examples/plugin_support/mod.rs:217-222 | Otherwise it gives a cut whose outcome differs from reading byte by byte: the bytes before such a newline one by one, then a full buffer |
| `RecordReaderModel.SinglyFrames` | examples/plugin_support/mod.rs:189-226 | Reading byte by byte gives the reference outcome, in which only the length of a record counts |
| `RecordReaderModel.SmallRecordsAreRoomy` | examples/plugin_support/mod.rs:189-226 | Records of at most MAX_RECORD_BYTES - 8191 bytes are always safe from this |
| `RecordReaderModel.FramingIsComplete` | examples/plugin_support/mod.rs:189-226 | The segments up to the first that is no record are returned; a record is framed by braces, has no line break of either kind, parses, and fits the limit with its newline; without an error all segments are records and nothing is left over, and otherwise the first segment that is none, or a stream without a last newline, tells which error it was |
| `ScreenModel.PlayKeeps` | scripts/render-terminal-snapshot.py:91-181 | After any operations the grid is rectangular, the cursor in it, a wrap pending only in the last column, and every style has its colours in the palette and is not bold and dim at once |
| `ScreenModel.Screen.Put` | scripts/render-terminal-snapshot.py:158-181 | A character lands where the value model puts it; a refused one leaves the screen as it was or wrapped, still in its invariant |
| `ScreenModel.Screen.Write` | scripts/render-terminal-snapshot.py:171-181 | The glyph stands at the cursor, a wide one with a continuation behind it, no other cell changes, and the cursor is behind it or a wrap pending in the last column |
| `ScreenModel.Screen.LineFeed` | scripts/render-terminal-snapshot.py:111-114 | A line feed in the last row scrolls by exactly one line |
| `ScreenModel.Screen.ScrollIfNeeded` | scripts/render-terminal-snapshot.py:105-109 | Scrolling drops the first line and appends a blank one, once at most |
| `ScreenModel.Screen.Tab` | scripts/render-terminal-snapshot.py:124-127 | Putting blanks one by one overwrites exactly the cells up to the next multiple of eight or the last column |
| `ScreenModel.TabIsNextStop` | scripts/render-terminal-snapshot.py:124-127 | A tab ends at the first multiple of eight behind the cursor, or in the last column where there is none, with blanks in between and no other cell touched |
| `ScreenModel.Screen.SetGraphics` | scripts/render-terminal-snapshot.py:137-156 | The style changes only when all parameters are allowed, and then weight and colours are each what the last parameter about it says |
| `ScreenModel.GraphicsAreLast` | scripts/render-terminal-snapshot.py:137-156 | Bold, dim, foreground and background after a list of parameters are each what the last parameter about it says, zero being about all of them |
| `ScreenModel.BlankStep` | scripts/render-terminal-snapshot.py:124-127 | One blank brings the cursor one column closer to the same stop |
| `ScreenText.TextIsChunked` | scripts/render-terminal-snapshot.py:105-181 | Any number of one-column characters on a new screen show the text cut into lines as wide as the screen with exactly the last ones kept, the cursor behind them |
| `ScreenText.TypingShows` | scripts/render-terminal-snapshot.py:105-181 | The same after any text shown before |
| `ScreenText.LinesCut` | scripts/render-terminal-snapshot.py:158-181 | The cut loses nothing, every line but the last is full, and the last is not empty |
| `ScreenText.MarkJoins` | scripts/render-terminal-snapshot.py:158-163 | A combining character joins the glyph put before it if and only if a one-column glyph left no wrap pending or the screen has one column, or a two-column glyph left one |
| `TranscriptModel.ScanInverts` | scripts/render-terminal-snapshot.py:229-262 | Every list of tokens in normal form is found again in its bytes |
| `TranscriptModel.ScanIsExact` | scripts/render-terminal-snapshot.py:229-262 | The tokens found are the input, whole and in order, and in normal form |
| `TranscriptModel.ParseTranscript` | scripts/render-terminal-snapshot.py:210-263 | The loop over the bytes shows exactly the replay of the tokens on a new screen, or refuses exactly when a token or an operation is refused |
| `TranscriptModel.ControlSequence` | scripts/render-terminal-snapshot.py:236-247 | A control sequence is accepted only with at most sixteen bytes up to its final one, and is skipped whole |
| `TranscriptModel.ParseCsi` | scripts/render-terminal-snapshot.py:184-207 | Only cursor up five, erase line and graphics are obeyed: five rows up, a blank row, or another style and nothing else |
| `TranscriptModel.ControlCharacter` | scripts/render-terminal-snapshot.py:248-261 | Only carriage return, line feed, tab and backspace are obeyed, each moving the cursor as it should and a feed in the last row scrolling one line |
| `TranscriptModel.ReplayKeeps` | scripts/render-terminal-snapshot.py:210-263 | Every accepted transcript leaves a screen in its invariant |
| `SummaryStreamModel.StreamValidator.Accept` | src/model/stream.rs:69-176 | A refused chunk changes nothing; an accepted one is one the grammar allows |
| `SummaryStreamModel.AcceptedFacts` | src/model/stream.rs:75-176 | In an accepted stream an index is used once, open blocks are the started ones that have not ended, and only the last chunk finishes |
| `SummaryStreamModel.BlocksKeepType` | src/model/stream.rs:116-134 | Every block ends as the type it was started as |
| `SummaryStreamModel.StoppedIsClosed` | src/model/stream.rs:141-152 | After a stream that stopped every block has ended |
| `SummaryStreamModel.CollectSummary` | src/agent/compaction.rs:713-880 | With the chunks taken up to the first that is refused: a summary is given if and only if they are the whole stream, it stopped, holds only text and reasoning and some text that is not blank; it lists exactly the text blocks, in the order they started; four of the error exits are unreachable |
| `SummaryStreamModel.StartsInOrder` | src/agent/compaction.rs:780-806 | The blocks of a stream stand in the order in which its chunks start them, and all of them do |
| `SummaryStreamModel.EndIsTold` | src/agent/compaction.rs:780-806 | The content of a block is that of the last chunk that ends it |
| `SummaryStreamModel.UsageIsTold` | src/agent/compaction.rs:780-806 | The usage of a stream is that of the last chunk that tells one |

## Left out

- The bodies of `Session` and `SessionReservation`, storage, journals and recovery: replaced by the contracts
  listed above. Payloads, sequence numbers and timestamps of events are not modelled.
- AgentLoopModel.RunTurnInner: after a fatal storage failure, or a result the session still owns, an error is
  returned and only its class is promised; the log of such a turn may be cut short, as in the source.
- AgentLoopModel.ClaimsLeftExactly: what was refused to a step that failed is not recorded, so nothing says that a
  step fails only after a refusal by storage or for want of entropy.
- AgentTurn.RunFramed: a panic inside a step is modelled as a passing failure, not as unwinding.
- Compaction.Propose: which prefix is chosen (`compaction_candidate`, the retained-token target and the
  pressure threshold) is any answer, because the tokens of messages are estimated outside the loop.
- PreStep.Prune: which results are too large and what they are rewritten to is any answer; that a rewrite
  saves tokens is not claimed.
- StepAttempt.Prepare: the encoding of requests, their byte limits and the adapter's preflight are any answer.
- StepAttempt.ValidateCalls: the length and character rules of call identifiers and tool names are any answer.
- ToolCall.RunAction: whether a result honours its contract (`validate_action_result` and its plugin form in
  `src/agent/tool.rs`) is any answer; the validators themselves are single checks on one value.
- Retries.JitterIsProportional: delays are reals; floating-point rounding is not modelled. The key of a retry
  chain is opaque, its text (`policy_key`) is not built.
- Wall-clock time, timeouts of cleanup and the fairness of the scheduler.
- ApprovalProtocol.RunIsSafe: covers one turn; the join between turns is covered by the class.
- The key decoder that turns bytes into key events, and rendering of the dialog.
- JsonEquality.NormaliseNumbers: rewrites a value, not a tree in place, so sharing is not captured.
- JSON text, its parsing and encoding; the strict parser of the plugin examples is an arbitrary predicate.
- Json.VisitCharges: sizes of the tree's nodes in memory are parameters.
- ResidentCredit.ActConserves: an owner that uses a lease after giving it away cannot be expressed in the
  source; such an action is skipped.
- TranscriptModel.ParseTranscript: decoding UTF-8, reading decimal parameters and the width of a character are
  parameters, and all refusals are one.
- SummaryStreamModel.CollectSummary: which characters are blank is a parameter, and failing to reserve its two
  tables is not modelled.
- Workspace tools, providers, command line, session listing, SVG and PNG output: input and output.
