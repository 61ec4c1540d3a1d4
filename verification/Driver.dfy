// The counters, limits and latched flags of one agent turn.
module DriverModel {
  import opened Common
  import opened SessionLog
  import opened SessionModel

  datatype Policy = Allow | Ask | Deny

  // What the user allows: changes of files, shell commands, plugin actions, and so many
  // calls in one answer.
  datatype Rules = Rules(file: Policy, shell: Policy, plugin: Policy, callsPerAnswer: nat)

  function RulesOf(d: Driver): Rules {
    Rules(d.filePolicy, d.shellPolicy, d.pluginPolicy, d.limits.maxCallsPerStep)
  }

  // The flags of the turn are exactly what storage answered in it. A ceiling that only
  // kept an attempt from beginning is not remembered (src/agent/mod.rs:1967).
  ghost predicate Agree(s: Session, d: Driver)
    reads s`marks, d`now
  {
    d.now.durableLimit == s.marks.limited && d.now.observerUnavailable == s.marks.unseen
  }

  // The flags agree, and no ceiling kept an attempt from beginning meanwhile.
  twostate predicate Agreed(s: Session, d: Driver)
    reads s`marks, d`now
  {
    Agree(s, d) && s.marks.stalled == old(s.marks.stalled) && (old(s.marks.crowded) ==> s.marks.crowded)
  }

  // The flags agree, and a ceiling kept an attempt from beginning exactly where that is said.
  twostate predicate AgreedBut(s: Session, d: Driver, stalled: bool)
    reads s`marks, d`now
  {
    Agree(s, d) && s.marks.stalled == (old(s.marks.stalled) || stalled) && (old(s.marks.crowded) ==> s.marks.crowded)
  }

  datatype Limits = Limits(
    maxSteps: nat, maxAttempts: nat, maxRetries: nat,
    maxCallsPerStep: nat, maxCallsPerTurn: nat,
    maxOutputTokens: nat, maxReportedTokens: nat,
    maxResultBytes: nat, maxTurnResultBytes: nat)

  datatype Counters = Counters(
    steps: nat, attempts: nat, retries: nat, toolCalls: nat,
    reportedTokens: nat, resultBytes: nat,
    observerUnavailable: bool,
    durableLimit: bool,        // a ceiling of a durable session was hit in this turn
    headerLogged: bool)

  // Only the latched flags may have risen.
  predicate FlagsRise(a: Counters, b: Counters) {
    && (a.observerUnavailable ==> b.observerUnavailable)
    && (a.durableLimit ==> b.durableLimit)
    && b == a.(observerUnavailable := b.observerUnavailable, durableLimit := b.durableLimit)
  }

  const MAX_U64: nat := 0xFFFF_FFFF_FFFF_FFFF

  function Min(a: nat, b: nat): nat {
    if a < b then a else b
  }

  // Reported tokens are added up, and the sum saturates.
  predicate Tallied(a: nat, b: nat, tokens: nat) {
    a <= MAX_U64 ==> b == Min(a + tokens, MAX_U64)
  }

  // Reported tokens that were within their limit still are.
  predicate TokensKept(a: Counters, b: Counters, limits: Limits) {
    a.reportedTokens <= limits.maxReportedTokens ==> b.reportedTokens <= limits.maxReportedTokens
  }

  class Driver {
    const limits: Limits
    const filePolicy: Policy
    const shellPolicy: Policy
    const pluginPolicy: Policy
    var now: Counters

    constructor (limits: Limits, file: Policy, shell: Policy, plugin: Policy, headerLogged: bool)
      ensures this.limits == limits && filePolicy == file && shellPolicy == shell && pluginPolicy == plugin
      ensures now == Counters(0, 0, 0, 0, 0, 0, false, false, headerLogged)
    {
      this.limits := limits;
      filePolicy, shellPolicy, pluginPolicy := file, shell, plugin;
      now := Counters(0, 0, 0, 0, 0, 0, false, false, headerLogged);
    }

    // A durable ceiling is remembered: it decides the reason of the whole turn.
    method FailureForBudget(error: Failure) returns (code: ErrorCode)
      requires IsBudget(error)
      modifies this
      ensures now == old(now).(durableLimit := old(now).durableLimit || error.DurableLimit?)
      ensures code == if error.DurableLimit? then SessionLimit else EventBudget
    {
      if error.DurableLimit? {
        now := now.(durableLimit := true);
        code := SessionLimit;
      } else {
        code := EventBudget;
      }
    }

    method LatchObserverFault()
      modifies this
      ensures now == old(now).(observerUnavailable := true)
    {
      now := now.(observerUnavailable := true);
    }

    // Count reported output tokens; the sum saturates (src/agent/compaction.rs:592-612
    // and src/agent/mod.rs:2285-2299).
    method ReportTokens(tokens: nat) returns (over: bool)
      modifies this
      ensures now == old(now).(reportedTokens := Min(old(now).reportedTokens + tokens, MAX_U64))
      ensures over <==> now.reportedTokens > limits.maxReportedTokens
    {
      now := now.(reportedTokens := Min(now.reportedTokens + tokens, MAX_U64));
      over := now.reportedTokens > limits.maxReportedTokens;
    }

    predicate ResultFits(bytes: nat)
      reads this
    {
      bytes <= limits.maxResultBytes && now.resultBytes + bytes <= limits.maxTurnResultBytes
    }
  }
}
