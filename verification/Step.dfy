// One step of a turn: attempts under their retry chains until one of them ends the
// step (src/agent/mod.rs:1770-2207).
module AgentStep {
  import opened Common
  import opened SessionLog
  import opened SessionModel
  import opened WorldModel
  import opened DriverModel
  import opened LogGrammar
  import opened Moment
  import opened ToolIteration
  import opened ToolRound
  import opened StepAttempt

  // The provider attempts of the session after the attempts of a step.
  function StepAttempts(a: Attempts, xs: seq<AttemptTrace>): Attempts {
    if |xs| == 0 then a else AttemptsAfter(StepAttempts(a, xs[..|xs| - 1]), xs[|xs| - 1].end)
  }

  predicate AllContinued(xs: seq<AttemptTrace>) {
    forall i :: 0 <= i < |xs| ==> Continued(xs[i])
  }

  // The step after attempts that all went on to the next one.
  ghost predicate StepProgress(a: Snap, b: Snap, d: Driver, chains: map<nat, RetryChain>, xs: seq<AttemptTrace>) {
    && StepKept(a, b, d, xs)
    && AllContinued(xs)
    && chains == ChainsAfter(xs)
    && |xs| <= d.limits.maxRetries
    && b.st.attempts == StepAttempts(a.st.attempts, xs) && b.st.attempts.phase.NoAttempt?
    && SpentFrom(b.st.slots, |a.st.slots|)
  }

  // What the attempts of a step keep, whatever became of the last one.
  ghost predicate StepKept(a: Snap, b: Snap, d: Driver, xs: seq<AttemptTrace>) {
    && Ran(a.st, b.st, AttemptsEvents(xs), {})
    && |a.st.slots| <= |b.st.slots|
    && AttemptsTrue(xs) && AttemptsGoverned(RulesOf(d), xs)
    && ChainsOk(xs)
    && Within(a.now, b.now, d.limits, Overran(AttemptsRounds(xs)), AttemptsCost(xs))
    && (Unbroken(xs) ==> TokensKept(a.now, b.now, d.limits))
    && Recorded(a.env, b.env, AttemptsRounds(xs))
  }

  // The last attempt came to the end of its stream, if its request was sent.
  predicate Unbroken(xs: seq<AttemptTrace>) {
    |xs| > 0 ==> !xs[|xs| - 1].end.Interrupted?
  }

  // What a whole step leaves. A step that fails leaves claims only of the tool round
  // it did not finish. The first retries of a chain are counted against the
  // limit of the step, so at most one attempt more than that was made.
  ghost predicate StepRan(a: Snap, b: Snap, durable: bool, d: Driver, r: Result<StepResolution, Failure>, xs: seq<AttemptTrace>) {
    && StepKept(a, b, d, xs)
    && 0 < |xs| <= d.limits.maxRetries + 1
    && AttemptsAre(b.st.attempts, StepAttempts(a.st.attempts, xs), r)
    && (r.Ok? ==> SpentFrom(b.st.slots, |a.st.slots|) && DoneTrue(durable, r.value, xs[|xs| - 1].end, b, d.limits, |xs| - 1))
    && (Stalled(xs) ==> r.Err?)
    && (r.Err? ==> FailedAs(a.st, b.st, r.error, xs[|xs| - 1].end))
  }

  lemma StepBegins(a: Snap, d: Driver)
    requires a.st.attempts.phase.NoAttempt?
    ensures StepProgress(a, a, d, map[], [])
  {
    RanQuietly(a.st, a.st, {});
    NothingRecorded(a.env, a.env);
  }

  lemma AttemptJoins(a: Snap, b: Snap, c: Snap, durable: bool, d: Driver, chains: map<nat, RetryChain>, xs: seq<AttemptTrace>,
                     r: Result<Attempted, Failure>, t: AttemptTrace)
    requires StepProgress(a, b, d, chains, xs) && AttemptRan(b, c, durable, d, chains, |xs|, r, t)
    ensures StepKept(a, c, d, xs + [t])
    ensures AttemptsAre(c.st.attempts, StepAttempts(a.st.attempts, xs + [t]), r)
    ensures SpentFrom(c.st.slots, |b.st.slots|) ==> SpentFrom(c.st.slots, |a.st.slots|)
    ensures Continued(t) ==> AllContinued(xs + [t])
  {
    hide AttemptTrue, EndGoverned, ChainsOk, NextInChain, Within, Recorded, Ran, DoneTrue, SpentFrom, AttemptsTrue, AllContinued, FailedAs, AttemptCost, AttemptsCost, Unbroken, TokensKept, AttemptsAfter, RoundsOf, AttemptsRounds, Overran;
    assert (xs + [t])[..|xs|] == xs;
    ChainJoins(xs, t);
    TruthJoins(xs, t);
    RunJoins(a.st, b.st, c.st, xs, t);
    RoundsJoin(a, b, c, d, xs, t);
    TokensJoin(a.now, b.now, c.now, d.limits, xs, t);
  }

  lemma TokensJoin(a: Counters, b: Counters, c: Counters, limits: Limits, xs: seq<AttemptTrace>, t: AttemptTrace)
    requires AllContinued(xs) && (Unbroken(xs) ==> TokensKept(a, b, limits))
    requires t.end.Interrupted? || TokensKept(b, c, limits)
    ensures Unbroken(xs + [t]) ==> TokensKept(a, c, limits)
  {
  }

  lemma RoundsJoin(a: Snap, b: Snap, c: Snap, d: Driver, xs: seq<AttemptTrace>, t: AttemptTrace)
    requires Within(a.now, b.now, d.limits, Overran(AttemptsRounds(xs)), AttemptsCost(xs)) && Recorded(a.env, b.env, AttemptsRounds(xs))
    requires Within(b.now, c.now, d.limits, Overran(RoundsOf(t.end)), AttemptCost(t)) && Recorded(b.env, c.env, RoundsOf(t.end))
    ensures Within(a.now, c.now, d.limits, Overran(AttemptsRounds(xs + [t])), AttemptsCost(xs + [t]))
    ensures Recorded(a.env, c.env, AttemptsRounds(xs + [t]))
  {
    hide Overran, RoundsOf, Within, Recorded, AttemptCost, Plus;
    var before, after := AttemptsRounds(xs), RoundsOf(t.end);
    assert AttemptsRounds(xs + [t]) == before + after && AttemptsCost(xs + [t]) == Plus(AttemptsCost(xs), AttemptCost(t)) by {
      assert (xs + [t])[..|xs|] == xs;
    }
    WithinOn(a.now, b.now, c.now, d.limits, Overran(before), Overran(after), AttemptsCost(xs), AttemptCost(t));
    OverranJoins(before, after);
    RecordedOn(a.env, b.env, c.env, before, after);
  }

  lemma TruthJoins(xs: seq<AttemptTrace>, t: AttemptTrace)
    requires AttemptsTrue(xs) && AllContinued(xs) && AttemptTrue(t)
    ensures AttemptsTrue(xs + [t])
    ensures Continued(t) ==> AllContinued(xs + [t])
  {
  }

  lemma ChainJoins(xs: seq<AttemptTrace>, t: AttemptTrace)
    requires ChainsOk(xs) && NextInChain(ChainsAfter(xs), t.end)
    ensures ChainsOk(xs + [t])
  {
    var ys := xs + [t];
    forall i | 0 <= i < |ys|
      ensures NextInChain(ChainsAfter(ys[..i]), ys[i].end)
    {
      assert ys[..i] == xs[..i];
    }
  }

  lemma RunJoins(a: State, b: State, c: State, xs: seq<AttemptTrace>, t: AttemptTrace)
    requires Ran(a, b, AttemptsEvents(xs), {}) && Ran(b, c, AttemptEvents(t), {})
    ensures Ran(a, c, AttemptsEvents(xs + [t]), {})
    ensures |a.slots| <= |c.slots|
    ensures SpentFrom(b.slots, |a.slots|) && SpentFrom(c.slots, |b.slots|) ==> SpentFrom(c.slots, |a.slots|)
  {
    assert (xs + [t])[..|xs|] == xs;
    RanOn(a, b, c, AttemptsEvents(xs), AttemptEvents(t), {}, {});
  }

  lemma StepGoesOn(a: Snap, b: Snap, c: Snap, durable: bool, d: Driver, chains: map<nat, RetryChain>, xs: seq<AttemptTrace>,
                   key: nat, id: Id, number: nat, t: AttemptTrace)
    requires StepProgress(a, b, d, chains, xs)
    requires AttemptRan(b, c, durable, d, chains, |xs|, Ok(Again(key, id, number)), t)
    ensures StepProgress(a, c, d, chains[key := RetryChain(id, number)], xs + [t])
  {
    hide Ran, Within, Recorded;
    AttemptJoins(a, b, c, durable, d, chains, xs, Ok(Again(key, id, number)), t);
    assert (xs + [t])[..|xs|] == xs;
  }

  lemma StepDone(a: Snap, b: Snap, c: Snap, durable: bool, d: Driver, chains: map<nat, RetryChain>, xs: seq<AttemptTrace>,
                 r: Result<Attempted, Failure>, t: AttemptTrace)
    requires StepProgress(a, b, d, chains, xs) && AttemptRan(b, c, durable, d, chains, |xs|, r, t)
    requires r.Ok? ==> r.value.Done?
    ensures StepRan(a, c, durable, d, if r.Ok? then Ok(r.value.resolution) else Err(r.error), xs + [t])
  {
    hide Ran, Within, AnswerTrue, Recorded, FailedAs;
    AttemptJoins(a, b, c, durable, d, chains, xs, r, t);
    if r.Err? {
      FailureJoins(a.st, b.st, c.st, xs, r.error, t);
    }
  }

  lemma FailureJoins(a: State, b: State, c: State, xs: seq<AttemptTrace>, error: Failure, t: AttemptTrace)
    requires Ran(a, b, AttemptsEvents(xs), {}) && Ran(b, c, AttemptEvents(t), {})
    requires SpentFrom(b.slots, |a.slots|) && FailedAs(b, c, error, t.end)
    ensures FailedAs(a, c, error, t.end)
  {
    hide AttemptsEvents, AttemptEvents, OpenAfter, SurfaceAfter, Accounted;
    if !error.Fatal? {
      AccountedBefore(c.slots, |a.slots|, |b.slots|, AnswerLeft(t.end));
    }
  }

  // The loop of one step. Every turn of it spends an attempt of the whole turn.
  method RunStep(s: Session, d: Driver, w: World, first: Option<Preparation>)
    returns (r: Result<StepResolution, Failure>, ghost xs: seq<AttemptTrace>)
    requires s.Valid() && s.st.attempts.phase.NoAttempt? && Agree(s, d)
    requires first.Some? ==> MatchesSurface(first.value, s.st.surface) && Told(first.value, w.env.fault)
    modifies s, d, w
    ensures s.Valid() && (AgreedBut(s, d, Stalled(xs)) || IsFatal(r)) && StepRan(old(Look(s, d, w)), Look(s, d, w), s.durable, d, r, xs)
  {
    hide StepProgress, AttemptRan, StepRan, Agree;
    ghost var a := Look(s, d, w);
    xs := [];
    var chains: map<nat, RetryChain> := map[];
    var retriesInStep := 0;
    var prepared := first;
    StepBegins(a, d);
    while true
      invariant s.Valid() && s.st.attempts.phase.NoAttempt? && Agreed(s, d)
      invariant prepared.Some? ==> MatchesSurface(prepared.value, s.st.surface) && Told(prepared.value, w.env.fault)
      invariant StepProgress(a, Look(s, d, w), d, chains, xs) && retriesInStep == |xs|
      decreases d.limits.maxAttempts - d.now.attempts
    {
      ghost var b := Look(s, d, w);
      var attempted;
      ghost var t;
      attempted, t := RunAttempt(s, d, w, prepared, chains, retriesInStep);
      ghost var c := Look(s, d, w);
      if attempted.Err? || attempted.value.Done? {
        StepDone(a, b, c, s.durable, d, chains, xs, attempted, t);
        r := if attempted.Ok? then Ok(attempted.value.resolution) else Err(attempted.error);
        xs := xs + [t];
        return;
      }
      var next := attempted.value;
      StepGoesOn(a, b, c, s.durable, d, chains, xs, next.key, next.id, next.number, t);
      AttemptSpent(b, c, s.durable, d, chains, retriesInStep, next.key, next.id, next.number, t);
      chains := chains[next.key := RetryChain(next.id, next.number)];
      retriesInStep := retriesInStep + 1;
      xs := xs + [t];
      prepared := None;
    }
  }

  lemma AttemptSpent(b: Snap, c: Snap, durable: bool, d: Driver, chains: map<nat, RetryChain>, retriesInStep: nat,
                     key: nat, id: Id, number: nat, t: AttemptTrace)
    requires AttemptRan(b, c, durable, d, chains, retriesInStep, Ok(Again(key, id, number)), t)
    ensures b.now.attempts < c.now.attempts < d.limits.maxAttempts && t.end.Retried?
    ensures b.st.attempts.phase.NoAttempt? ==> c.st.attempts.phase.NoAttempt?
  {
  }
}
