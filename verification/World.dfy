// Everything the loop does not decide itself: cancellation, clocks, fresh
// identifiers, and the answers of providers, tools and people. Each answer is
// arbitrary. Cancellation and the turn deadline only ever become true.
module WorldModel {
  import opened Common
  import opened SessionLog
  import opened SessionModel

  datatype ToolStop = NoStop | StopCancelled | StopTimeout

  // The first stop observed is kept; later ones do not replace it.
  function Latch(current: ToolStop, observed: ToolStop): ToolStop {
    if current.NoStop? then observed else current
  }

  // What a tool produced: its text, its size as components and as an event, whether it
  // can be encoded, and whether it asks the turn to end.
  datatype Output = Output(tag: OutputTag, componentBytes: nat, eventBytes: nat, encodable: bool, concludes: bool)

  // A side effect is the change of a file, or the run of an action the program owns: a
  // shell command or an action of a plugin.
  datatype EffectKind = FileChange | ShellRun | PluginRun

  // What comes back from a side effect: nothing to rely on, the news that nothing was
  // published or started, or a result after it was. Whether an action kept its contract
  // is part of the answer.
  datatype Report =
    | Vague
    | Untouched(output: Output, sound: bool)
    | Acted(output: Output, sound: bool)

  // What the executor returns for a call: a finished output, a prepared change of a file,
  // a prepared action that may or may not be the one asked for, or nothing.
  datatype Carrier =
    | Direct(output: Output, sound: bool)
    | Change(maximum: nat)
    | Owned(maximum: nat, matches: bool)
    | NoCarrier

  // What the adapter says of a request: it fits, it is over the limits of the model, it
  // could not be prepared, or it would not be accepted.
  datatype Fitness = Fits | Oversized | Unprepared(code: ErrorCode) | Unaccepted(code: ErrorCode)

  function FaultOf(v: Fitness): Option<ErrorCode> {
    match v
    case Fits => None
    case Oversized => Some(ContextLimit)
    case Unprepared(code) => Some(code)
    case Unaccepted(code) => Some(code)
  }

  // Only an ordinary call may be answered by a change and only an owned one by an action
  // that matches it; the output of an owned one must keep its contract
  // (src/agent/mod.rs:3176-3221).
  predicate IsUsable(owned: bool, c: Carrier) {
    match c
    case Direct(_, sound) => owned ==> sound
    case Change(_) => !owned
    case Owned(_, matches) => owned && matches
    case NoCarrier => false
  }

  // One side effect as the world records it: who caused it, the result bytes it was
  // declared with, and what came back.
  datatype Deed = Deed(call: Id, kind: EffectKind, maximum: nat, report: Report)

  // A published change is definite whatever the size of its result; an action only with
  // a sound result within its declared bound (src/agent/mod.rs:3601-3627 and 4011-4019).
  predicate IsDefinite(deed: Deed) {
    deed.report.Acted? &&
    (deed.kind.FileChange? || (deed.report.sound && deed.report.output.eventBytes <= deed.maximum))
  }

  // It is certain that nothing happened.
  predicate IsHarmless(deed: Deed) {
    deed.report.Untouched? && (deed.kind.FileChange? || deed.report.sound)
  }

  // Whether anything happened is lost.
  predicate IsLost(deed: Deed) {
    !IsDefinite(deed) && !IsHarmless(deed)
  }

  // A definite result that is larger than declared.
  predicate Exceeds(deed: Deed) {
    IsDefinite(deed) && deed.report.output.eventBytes > deed.maximum
  }

  predicate Excessive(effect: Option<Deed>) {
    effect.Some? && Exceeds(effect.value)
  }

  predicate AnyExceeds(deeds: seq<Deed>) {
    exists i :: 0 <= i < |deeds| && Exceeds(deeds[i])
  }

  lemma ExceedsJoins(xs: seq<Deed>, ys: seq<Deed>)
    ensures AnyExceeds(xs + ys) <==> AnyExceeds(xs) || AnyExceeds(ys)
  {
    if AnyExceeds(xs) {
      var i :| 0 <= i < |xs| && Exceeds(xs[i]);
      assert (xs + ys)[i] == xs[i];
    }
    if AnyExceeds(ys) {
      var i :| 0 <= i < |ys| && Exceeds(ys[i]);
      assert (xs + ys)[|xs| + i] == ys[i];
    }
  }

  // What the user answered to a question.
  datatype Reply = Reply(id: Id, outcome: ApprovalOutcome)

  // A tool round that is over: the first stop anyone observed in it, the calls the
  // executor saw, those among them it should not have seen, the calls whose outcome was
  // lost, the answers of the user, and the side effects.
  datatype RoundRecord = RoundRecord(
    stop: ToolStop, prepared: seq<Id>, late: seq<Id>, losses: seq<Id>, replies: seq<Reply>, deeds: seq<Deed>)

  function RecordOf(env: Env): RoundRecord {
    RoundRecord(env.firstStop, env.prepared, env.late, env.losses, env.replies, env.deeds)
  }

  // The outside world, with a record of what the present tool round saw and did, and of
  // all earlier ones. Nothing that was recorded is ever taken back.
  datatype Env = Env(
    cancelled: bool,
    expired: bool,
    nextId: nat,
    firstStop: ToolStop,
    prepared: seq<Id>,
    late: seq<Id>,
    losses: seq<Id>,
    replies: seq<Reply>,
    deeds: seq<Deed>,
    rounds: seq<RoundRecord>,
    fault: Option<ErrorCode>,           // what last went wrong outside, since a request fitted
    asked: seq<Id>,                     // the calls of the last answer of the provider
    truncated: bool,                    // whether that answer was cut off at the output limit
    problem: Option<DiagnosticCode>)    // what kept the last call from being prepared

  // Time passed and nothing else happened; stop is what was observed meanwhile.
  predicate Later(a: Env, b: Env, stop: ToolStop) {
    && (a.cancelled ==> b.cancelled)
    && (a.expired ==> b.expired)
    && a.nextId <= b.nextId
    && b == a.(cancelled := b.cancelled, expired := b.expired, nextId := b.nextId, firstStop := Latch(a.firstStop, stop))
  }

  // The record with one more lost call, or none.
  function WithLoss(a: Env, call: Id, lost: bool): Env {
    if lost then a.(losses := a.losses + [call]) else a
  }

  // The record with one more side effect, or none.
  function WithDeed(a: Env, effect: Option<Deed>): Env {
    if effect.Some? then a.(deeds := a.deeds + [effect.value]) else a
  }

  // The record with one more answer of the user, or none.
  function WithReply(a: Env, id: Id, heard: Option<ApprovalOutcome>): Env {
    if heard.Some? then a.(replies := a.replies + [Reply(id, heard.value)]) else a
  }

  // What is added to two records that only time sets apart leaves them so.
  lemma DeedAlike(a: Env, b: Env, effect: Option<Deed>)
    requires Later(a, b, NoStop)
    ensures Later(WithDeed(a, effect), WithDeed(b, effect), NoStop)
  {
  }

  lemma LossAlike(a: Env, b: Env, call: Id, lost: bool)
    requires Later(a, b, NoStop)
    ensures Later(WithLoss(a, call, lost), WithLoss(b, call, lost), NoStop)
  {
  }

  lemma LaterOn(a: Env, b: Env, c: Env, stop: ToolStop)
    requires Later(a, b, NoStop) && Later(b, c, stop)
    ensures Later(a, c, stop) && (a.firstStop == NoStop ==> c.firstStop == stop)
  {
  }

  // No tool may start any more: a stop was observed or an outcome lost in this round, a
  // durable ceiling was hit, or the observer is gone (src/agent/mod.rs:2652-2692).
  predicate IsLate(env: Env, marks: Marks) {
    env.firstStop != NoStop || env.losses != [] || marks.limited || marks.unseen
  }

  // Nobody has cancelled and there is time left.
  predicate IsRunning(env: Env) {
    !env.cancelled && !env.expired
  }

  // What keeps a call from the executor at the moment it is handed over: all of this, a
  // cancellation, the deadline, or a row of the log that is not stored and visible yet.
  predicate IsTooLate(env: Env, marks: Marks, st: State) {
    IsLate(env, marks) || !IsRunning(env) || st.visible != |st.log|
  }

  // The last row of the log asks this question, and the user can see it.
  predicate IsAsked(st: State, id: Id) {
    && |st.log| > 0 && st.log[|st.log| - 1].ApprovalAsked? && st.log[|st.log| - 1].id == id
    && st.visible == |st.log|
  }

  // The executor was handed this call last, and nothing has stopped the round since.
  predicate IsHandled(env: Env, call: Id) {
    && |env.prepared| > 0 && env.prepared[|env.prepared| - 1] == call
    && env.firstStop == NoStop && env.losses == []
  }

  // Cancellation and the deadline are never undone, and these rounds were run meanwhile.
  predicate Recorded(a: Env, b: Env, rounds: seq<RoundRecord>) {
    && (a.cancelled ==> b.cancelled)
    && (a.expired ==> b.expired)
    && a.nextId <= b.nextId
    && b.rounds == a.rounds + rounds
  }

  // No round was run meanwhile.
  predicate Drift(a: Env, b: Env) {
    && (a.cancelled ==> b.cancelled)
    && (a.expired ==> b.expired)
    && a.nextId <= b.nextId
    && b.rounds == a.rounds
  }

  lemma RecordedOn(a: Env, b: Env, c: Env, xs: seq<RoundRecord>, ys: seq<RoundRecord>)
    requires Recorded(a, b, xs) && Recorded(b, c, ys)
    ensures Recorded(a, c, xs + ys)
  {
    assert a.rounds + xs + ys == a.rounds + (xs + ys);
  }

  lemma NothingRecorded(a: Env, b: Env)
    ensures Drift(a, b) <==> Recorded(a, b, [])
  {
    assert a.rounds + [] == a.rounds;
  }

  // Whether some change in these rounds exceeded the result bound it declared.
  predicate Overran(rounds: seq<RoundRecord>) {
    exists i :: 0 <= i < |rounds| && AnyExceeds(rounds[i].deeds)
  }

  lemma OverranJoins(xs: seq<RoundRecord>, ys: seq<RoundRecord>)
    ensures Overran(xs + ys) <==> Overran(xs) || Overran(ys)
  {
    if Overran(xs) {
      var i :| 0 <= i < |xs| && AnyExceeds(xs[i].deeds);
      assert (xs + ys)[i] == xs[i];
    }
    if Overran(ys) {
      var i :| 0 <= i < |ys| && AnyExceeds(ys[i].deeds);
      assert (xs + ys)[|xs| + i] == ys[i];
    }
  }

  class World {
    var env: Env

    constructor ()
      ensures env == Env(false, false, 0, NoStop, [], [], [], [], [], [], None, [], false, None)
    {
      env := Env(false, false, 0, NoStop, [], [], [], [], [], [], None, [], false, None);
    }

    // A new tool round starts its own record.
    method StartRound()
      modifies this
      ensures env == old(env).(firstStop := NoStop, prepared := [], late := [], losses := [], replies := [], deeds := [])
    {
      env := env.(firstStop := NoStop, prepared := [], late := [], losses := [], replies := [], deeds := []);
    }

    // The record of a round is kept for good.
    method EndRound()
      modifies this
      ensures env == old(env).(rounds := old(env).rounds + [RecordOf(old(env))])
    {
      env := env.(rounds := env.rounds + [RecordOf(env)]);
    }

    // The executor is handed a call.
    method Handle(s: Session, call: Id)
      modifies this
      ensures env == old(env).(prepared := old(env).prepared + [call],
                               late := old(env).late + if IsTooLate(old(env), s.marks, s.st) then [call] else [])
    {
      env := env.(prepared := env.prepared + [call], late := env.late + if IsTooLate(env, s.marks, s.st) then [call] else []);
    }

    // The executor answers for the call it was handed; an answer that is of no use is a
    // lost outcome.
    method Answer(call: Id, owned: bool) returns (c: Carrier)
      requires IsHandled(env, call)
      modifies this
      ensures env == WithLoss(old(env), call, !IsUsable(owned, c))
      ensures c.Direct? ==> c.output.tag.Tool?
    {
      c := *;
      if c.Direct? {
        var text := Number();
        c := Direct(c.output.(tag := Tool(text)), c.sound);
      }
      env := WithLoss(env, call, !IsUsable(owned, c));
    }

    // Whether this goes wrong outside.
    method Fails(code: ErrorCode) returns (failed: bool)
      modifies this
      ensures env == if failed then old(env).(fault := Some(code)) else old(env)
    {
      failed := *;
      if failed {
        env := env.(fault := Some(code));
      }
    }

    // The adapter looks at a request before it is sent.
    method Preflight() returns (v: Fitness)
      modifies this
      ensures env == old(env).(fault := FaultOf(v))
      ensures v.Unprepared? ==> v.code.Internal? || v.code.Request? || v.code.ProviderFailure?
      ensures v.Unaccepted? ==> v.code.ProviderFailure?
    {
      v := *;
      if v.Unprepared? && !v.code.Internal? && !v.code.ProviderFailure? {
        v := Unprepared(Request);
      } else if v.Unaccepted? {
        v := Unaccepted(ProviderFailure);
      }
      env := env.(fault := FaultOf(v));
    }

    // The provider's answer asks for these calls.
    method Asks(calls: seq<Id>)
      modifies this
      ensures env == old(env).(asked := calls)
    {
      env := env.(asked := calls);
    }

    // Whether the provider cut its answer off.
    method Truncates() returns (cut: bool)
      modifies this
      ensures env == old(env).(truncated := cut)
    {
      cut := *;
      env := env.(truncated := cut);
    }

    // A call is compared with what the executor declared.
    method Inspect() returns (problem: Option<DiagnosticCode>)
      modifies this
      ensures env == old(env).(problem := problem)
      ensures problem.Some? ==> problem.value.UnknownTool? || problem.value.ArgumentsTooLarge? || problem.value.InvalidArguments?
    {
      problem := *;
      if problem.Some? && !problem.value.UnknownTool? && !problem.value.ArgumentsTooLarge? {
        problem := Some(InvalidArguments);
      }
      env := env.(problem := problem);
    }

    // The executor may not prepare a call in time.
    method TimesOut() returns (late: bool)
      modifies this
      ensures env == if late then old(env).(problem := Some(ToolTimeout)) else old(env)
    {
      late := *;
      if late {
        env := env.(problem := Some(ToolTimeout));
      }
    }

    // The user answers a question that was asked.
    method Hear(s: Session, id: Id) returns (outcome: ApprovalOutcome)
      requires IsAsked(s.st, id) && IsRunning(env)
      modifies this
      ensures env == WithReply(old(env), id, Some(outcome))
    {
      outcome := *;
      env := WithReply(env, id, Some(outcome));
    }

    // Whether something the call depends on fails without a usable outcome.
    method Loses(call: Id) returns (lost: bool)
      modifies this
      ensures env == WithLoss(old(env), call, lost)
    {
      lost := *;
      env := WithLoss(env, call, lost);
    }

    method Flip() returns (b: bool) {
      b := *;
    }

    method Number() returns (n: nat) {
      n := *;
    }

    // A fresh opaque identifier, or no entropy.
    method NewId() returns (r: Result<Id, Failure>)
      modifies this
      ensures Later(old(env), env, NoStop) && env == old(env).(nextId := env.nextId)
      ensures r.Ok? ==> old(env).nextId <= r.value < env.nextId
      ensures r.Err? ==> r.error.Rejected?
    {
      var entropy: bool := *;
      if !entropy {
        return Err(Failure.Rejected);
      }
      r := Ok(env.nextId);
      env := env.(nextId := env.nextId + 1);
    }

    method IsCancelled() returns (c: bool)
      modifies this
      ensures c == env.cancelled && Later(old(env), env, if c then StopCancelled else NoStop)
    {
      var now: bool := *;
      c := env.cancelled || now;
      env := env.(cancelled := c, firstStop := Latch(env.firstStop, if c then StopCancelled else NoStop));
    }

    method IsExpired() returns (e: bool)
      modifies this
      ensures e == env.expired && env.cancelled == old(env).cancelled
      ensures Later(old(env), env, if e then StopTimeout else NoStop)
    {
      var now: bool := *;
      e := env.expired || now;
      env := env.(expired := e, firstStop := Latch(env.firstStop, if e then StopTimeout else NoStop));
    }

    // Cancellation is looked at first, then the deadline.
    method SampleStop() returns (stop: ToolStop)
      modifies this
      ensures Later(old(env), env, stop)
      ensures stop == StopCancelled <==> env.cancelled
      ensures stop == StopTimeout <==> !env.cancelled && env.expired
    {
      var c := IsCancelled();
      if c {
        return StopCancelled;
      }
      var e := IsExpired();
      stop := if e then StopTimeout else NoStop;
    }

    // A stop already seen is kept, otherwise the present one is sampled.
    method PreserveOrSample(current: ToolStop) returns (stop: ToolStop)
      modifies this
      ensures current != NoStop ==> stop == current && env == old(env)
      ensures current == NoStop ==> Later(old(env), env, stop)
    {
      stop := current;
      if current == NoStop {
        stop := SampleStop();
      }
    }

    // A stop that an owned action reports about its own run.
    method ReportedStop() returns (stop: ToolStop)
      modifies this
      ensures Later(old(env), env, stop)
    {
      stop := *;
      env := env.(firstStop := Latch(env.firstStop, stop));
    }
  }
}
