// The events of a session log, and the two facts a session keeps about the log as
// it grows: which work is still open, and what the model would be shown.
module SessionLog {
  import opened Common

  // Calls, approvals, messages and compactions are named by opaque identifiers.
  type Id = nat

  datatype ApprovalOutcome = AllowedOnce | Rejected | Cancelled | Unavailable

  datatype ErrorCode =
    | EventBudget | SessionLimit | TurnTimeout | MaxSteps | MaxAttempts | MaxRetries
    | ContextLimit | MaxOutputTokens | TokenBudget | MaxToolCalls | InvalidToolCall
    | ToolExecutor | ObserverUnavailable | Internal | Request | ProviderFailure

  datatype TurnEndReason = Completed | MaxTokens | Blocked | Aborted | Error(code: ErrorCode)

  // What the text of one tool result is: the protected template, a diagnostic of
  // the loop, the unknown-outcome diagnostic, or the output of the tool itself.
  datatype ResultBody =
    | BudgetFallback
    | Diagnostic(code: DiagnosticCode)
    | OutcomeUnknown
    | FromTool(tag: OutputTag)

  datatype DiagnosticCode =
    | AbortedBeforeDispatch | AbortedWhileRunning | SessionFull | UnknownTool
    | ArgumentsTooLarge | InvalidArguments | ToolTimeout

  datatype DeclineReason =
    | PolicyDenied | ApprovalRejected | ApprovalCancelled | ApprovalUnavailable
    | NotDispatched | OutputBudgetExceeded

  datatype OutputTag =
    | Prestart(code: DiagnosticCode)
    | Declined(reason: DeclineReason)
    | TimedOut
    | Tool(text: nat)

  // One model-visible message with its estimated price in tokens.
  datatype Message =
    | User(id: Id, price: nat)
    | Assistant(id: Id, price: nat)
    | ToolText(call: Id, body: ResultBody, price: nat)

  datatype Event =
    | TurnStart(turn: nat)
    | TurnEnd(turn: nat, reason: TurnEndReason)
    | StepStart(turn: nat, step: nat)
    | StepEnd(turn: nat, step: nat)
    | UserMessage(message: Message)
    | RequestHeader(header: nat)
    | RequestContext(context: nat)
    | AssistantChunk(usage: nat)      // with the output tokens it reports, if any
    | LlmRetry(key: nat, retryId: Id, number: nat)
    | LlmRetryStarted(retryId: Id, number: nat)
    | AssistantMessage(message: Message, calls: seq<Id>)
    | ToolCall(call: Id)
    | ToolResult(call: Id, body: ResultBody, size: nat)
    | ApprovalAsked(id: Id, call: Id)
    | ApprovalDecided(id: Id, outcome: ApprovalOutcome)
    | CompactionStart(id: Id)
    | CompactionSummary(id: Id)
    | Checkpoint(id: Id, end: nat, message: Message)
    | CompactionEnd(id: Id, failed: bool)
    | PruneMarker(target: nat)
    | PrunedResult(target: nat, message: Message)

  // ----- what a session keeps about its log

  // Whether an approval waits for its decision, how many declared tool calls have no
  // result yet, and whether a step was closed over such calls, which leaves them
  // without a result for good (src/session/projection.rs:1208-1238).
  datatype OpenWork = OpenWork(pending: bool, unresolved: nat, abandoned: bool)

  function NextOpen(o: OpenWork, e: Event): OpenWork {
    if e.AssistantMessage? then o.(unresolved := |e.calls|)
    else if e.ToolResult? then o.(unresolved := if o.unresolved > 0 then o.unresolved - 1 else 0)
    else if e.ApprovalAsked? then o.(pending := true)
    else if e.ApprovalDecided? then o.(pending := false)
    else if e.StepEnd? then OpenWork(false, 0, o.abandoned || o.unresolved > 0)
    else o
  }

  predicate NoWork(o: OpenWork) {
    !o.pending && o.unresolved == 0
  }

  // The session refuses to close a step or a turn over a pending approval, and a
  // durable one refuses to close a step that still lacks a result.
  predicate Admits(durable: bool, o: OpenWork, e: Event) {
    && (e.StepEnd? ==> !o.pending && (durable ==> o.unresolved == 0))
    && (e.TurnEnd? ==> !o.pending)
  }

  // The messages the model would be shown, with a counter of their changes.
  datatype Surface = Surface(messages: seq<Message>, generation: nat)

  predicate IsSurfaceEvent(e: Event) {
    e.UserMessage? || e.AssistantMessage? || e.ToolResult? || e.Checkpoint? || e.PrunedResult?
  }

  // How one event changes the messages: most are appended, a checkpoint replaces
  // a prefix, and a pruned result replaces one tool result.
  function NextMessages(messages: seq<Message>, e: Event): seq<Message> {
    if e.UserMessage? then messages + [e.message]
    else if e.AssistantMessage? then messages + [e.message]
    else if e.ToolResult? then messages + [ToolText(e.call, e.body, e.size)]
    else if e.Checkpoint? && e.end <= |messages| then [e.message] + messages[e.end..]
    else if e.PrunedResult? && e.target < |messages| then messages[e.target := e.message]
    else messages
  }

  function NextSurface(s: Surface, e: Event): Surface {
    if IsSurfaceEvent(e) then Surface(NextMessages(s.messages, e), s.generation + 1) else s
  }

  function Price(messages: seq<Message>): nat {
    if |messages| == 0 then 0 else messages[0].price + Price(messages[1..])
  }

  lemma {:induction false} PriceAppend(a: seq<Message>, b: seq<Message>)
    ensures Price(a + b) == Price(a) + Price(b)
  {
    if |a| == 0 {
      assert a + b == b;
    } else {
      assert (a + b)[1..] == a[1..] + b;
      PriceAppend(a[1..], b);
    }
  }
}
