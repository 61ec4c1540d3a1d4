// Closing one provider attempt: its closure event, the barrier that stores it, and
// its retirement, always in this order (src/agent/mod.rs:2116-2142, 2401-2426 and
// 2600-2617).
module AttemptLife {
  import opened Common
  import opened SessionLog
  import opened SessionModel
  import opened DriverModel

  // The attempts once the open one was closed with a disposition and retired.
  function Retired(a: Attempts, d: Disposition): Attempts {
    Attempts(NoAttempt, a.begun, a.ended + [d], a.retired + 1)
  }

  // What a closing attempt leaves: the closure event or nothing, and the attempt
  // retired, still open, or closed by a session that can no longer be trusted.
  ghost predicate AttemptClosing(before: State, after: State, e: Event, d: Disposition, touched: set<nat>,
                                 r: Result<bool, Failure>, closed: bool)
  {
    && Ran(before, after, if closed then [e] else [], touched)
    && |after.slots| == |before.slots|
    && (closed ==> forall c :: c in touched && c < |after.slots| ==> after.slots[c] == Settled(e))
    && (r.Ok? ==> closed && after.attempts == Retired(before.attempts, d))
    && (r.Err? ==> !IsLoopBug(r.error) && (if closed then r.error.Fatal? else after == before))
  }

  // The closure is in the log: store it and retire the attempt.
  method RetireClosed(s: Session, d: Driver) returns (r: Result<bool, Failure>)
    requires s.Valid() && s.st.attempts.phase.Closed? && Agree(s, d)
    modifies s, d
    ensures s.Valid() && Agreed(s, d)
    ensures s.st == old(s.st).(visible := s.st.visible, attempts := s.st.attempts)
    ensures FlagsRise(old(d.now), d.now)
    ensures r.Ok? ==>
      && s.st.attempts == old(s.st).attempts.(phase := NoAttempt, retired := old(s.st).attempts.retired + 1)
      && (!r.value ==> d.now.observerUnavailable)
    ensures r.Err? ==> r.error.Fatal?
  {
    var barrier :- s.FlushBarrier();
    var retired := s.RetireAttempt();
    assert retired.Ok?;
    if barrier.ObserverUnavailable? {
      d.LatchObserverFault();
    }
    return Ok(barrier.Ready?);
  }

  // Close the open attempt with an ordinary append.
  method CloseByAppend(s: Session, d: Driver, disposition: Disposition, e: Event)
    returns (r: Result<bool, Failure>, ghost closed: bool)
    requires s.Valid() && s.st.attempts.phase.Open? && !e.StepEnd? && !e.TurnEnd? && Agree(s, d)
    modifies s, d
    ensures s.Valid() && AttemptClosing(old(s.st), s.st, e, disposition, {}, r, closed)
    ensures FlagsRise(old(d.now), d.now) && (r.Ok? && !r.value ==> d.now.observerUnavailable)
    ensures if closed then Agreed(s, d) else d.now == old(d.now) && s.marks == MarksAfter(old(s.marks), r)
  {
    hide AttemptsOk;
    closed := false;
    ghost var before := s.st;
    RanQuietly(before, before, {});
    var _ :- s.AppendClosure(disposition, e);
    closed := true;
    RanOneMore(before, s.st, e, {});
    ghost var middle := s.st;
    r := RetireClosed(s, d);
    RanOneMore(before, s.st, e, {});
  }

  // Close the open attempt with the event of the claim that protects it.
  method CloseByClaim(s: Session, d: Driver, disposition: Disposition, claim: nat)
    returns (r: Result<bool, Failure>, ghost closed: bool)
    requires s.Valid() && s.st.attempts.phase.Open? && IsLive(s.st.slots, claim) && Agree(s, d)
    requires !s.st.slots[claim].fallback.StepEnd? && !s.st.slots[claim].fallback.TurnEnd?
    modifies s, d
    ensures s.Valid() && Agreed(s, d) && AttemptClosing(old(s.st), s.st, old(s.st).slots[claim].fallback, disposition, {claim}, r, closed)
    ensures FlagsRise(old(d.now), d.now) && (r.Ok? && !r.value ==> d.now.observerUnavailable)
    ensures r.Err? ==> !IsBudget(r.error)
  {
    hide Agree;
    closed := false;
    ghost var before := s.st;
    ghost var e := before.slots[claim].fallback;
    RanQuietly(before, before, {claim});
    var _ :- s.SettleClosureExact(claim, disposition);
    closed := true;
    RanOneMore(before, s.st, e, {claim});
    r := RetireClosed(s, d);
    RanOneMore(before, s.st, e, {claim});
  }
}
