// A session as the agent loop uses it: an append-only log, the capacity slots that
// were claimed for later events, and at most one provider attempt. Storage is an
// oracle that may refuse an operation in the ways the source distinguishes; a
// refused or failed operation leaves the session as it was.
module SessionModel {
  import opened Common
  import opened SessionLog

  // A claimed slot protects the capacity for one event. It is live until it is
  // settled, which appends one event, or released, which appends none.
  datatype Slot =
    | Live(fallback: Event, reserved: nat)
    | Settled(event: Event)
    | Released

  datatype Disposition = Retry | Committed | Failed | Cancelled

  // A closed attempt may be retired once its closure crossed a barrier.
  datatype AttemptPhase =
    | NoAttempt
    | Open
    | Closed(disposition: Disposition, stored: bool)

  // The provider attempts of a session: how many were begun, how each closed one
  // ended, and how many were retired.
  datatype Attempts = Attempts(phase: AttemptPhase, begun: nat, ended: seq<Disposition>, retired: nat)

  datatype Barrier = Ready | ObserverUnavailable

  datatype Settlement = Preferred | Fallback

  datatype ChunkAppend = Kept | InvalidChunk

  datatype State = State(
    log: seq<Event>,
    slots: seq<Slot>,
    open: OpenWork,
    surface: Surface,
    attempts: Attempts,
    visible: nat)      // length of the log at the last Ready barrier

  function EventSize(e: Event): nat {
    if e.ToolResult? then e.size else 0
  }

  // A claim is settled with another event only of the kind it protects.
  predicate SameKind(preferred: Event, fallback: Event) {
    || (preferred.ToolResult? && fallback.ToolResult?)
    || (preferred.CompactionEnd? && fallback.CompactionEnd?)
    || (preferred.TurnEnd? && fallback.TurnEnd?)
  }

  predicate IsLive(slots: seq<Slot>, claim: nat) {
    claim < |slots| && slots[claim].Live?
  }

  // ----- the operations, as functions on the state

  function Appended(s: State, e: Event): State {
    s.(log := s.log + [e], open := NextOpen(s.open, e), surface := NextSurface(s.surface, e))
  }

  function Consumed(s: State, claim: nat, e: Event): State
    requires claim < |s.slots|
  {
    Appended(s, e).(slots := s.slots[claim := Settled(e)])
  }

  function Freed(s: State, claim: nat): State
    requires claim < |s.slots|
  {
    s.(slots := s.slots[claim := Released])
  }

  function Rebound(s: State, claim: nat, fallback: Event): State
    requires IsLive(s.slots, claim)
  {
    s.(slots := s.slots[claim := s.slots[claim].(fallback := fallback)])
  }

  function Max(a: nat, b: nat): nat {
    if a < b then b else a
  }

  function Raised(s: State, claim: nat, bytes: nat): State
    requires IsLive(s.slots, claim)
  {
    s.(slots := s.slots[claim := s.slots[claim].(reserved := Max(s.slots[claim].reserved, bytes))])
  }

  function LiveSlots(fallbacks: seq<Event>): (slots: seq<Slot>)
    ensures |slots| == |fallbacks|
  {
    seq(|fallbacks|, i requires 0 <= i < |fallbacks| => Live(fallbacks[i], EventSize(fallbacks[i])))
  }

  function Claimed(s: State, fallbacks: seq<Event>): State {
    s.(slots := s.slots + LiveSlots(fallbacks))
  }

  function Closing(s: State, d: Disposition): State {
    s.(attempts := s.attempts.(phase := Closed(d, false), ended := s.attempts.ended + [d]))
  }

  function Flushed(s: State, barrier: Barrier): State {
    s.(visible := if barrier.Ready? then |s.log| else s.visible,
       attempts := if s.attempts.phase.Closed? then s.attempts.(phase := s.attempts.phase.(stored := true))
                   else s.attempts)
  }

  // Every begun attempt gets one disposition when it closes, and is retired once.
  predicate AttemptsOk(a: Attempts) {
    && a.begun == |a.ended| + (if a.phase.Open? then 1 else 0)
    && |a.ended| == a.retired + (if a.phase.Closed? then 1 else 0)
    && (a.phase.Closed? ==> a.ended[|a.ended| - 1] == a.phase.disposition)
  }

  // ----- what a run of operations does to the state

  // Open work and surface are functions of the events that were appended.
  function OpenAfter(o: OpenWork, events: seq<Event>): OpenWork {
    if |events| == 0 then o else NextOpen(OpenAfter(o, events[..|events| - 1]), events[|events| - 1])
  }

  function SurfaceAfter(s: Surface, events: seq<Event>): Surface {
    if |events| == 0 then s else NextSurface(SurfaceAfter(s, events[..|events| - 1]), events[|events| - 1])
  }

  lemma {:induction false} AfterConcat(o: OpenWork, s: Surface, xs: seq<Event>, ys: seq<Event>)
    ensures OpenAfter(o, xs + ys) == OpenAfter(OpenAfter(o, xs), ys)
    ensures SurfaceAfter(s, xs + ys) == SurfaceAfter(SurfaceAfter(s, xs), ys)
  {
    if |ys| == 0 {
      assert xs + ys == xs;
    } else {
      assert (xs + ys)[..|xs + ys| - 1] == xs + ys[..|ys| - 1];
      AfterConcat(o, s, xs, ys[..|ys| - 1]);
    }
  }

  // A question of the log that nothing answered: no decision and no end of the step came
  // after it.
  predicate IsOpenAsk(events: seq<Event>, k: int) {
    && 0 <= k < |events| && events[k].ApprovalAsked?
    && forall j :: k < j < |events| ==> !events[j].ApprovalDecided? && !events[j].StepEnd?
  }

  // The message of the model whose calls the step is still about.
  predicate IsOpenAnswer(events: seq<Event>, k: int) {
    && 0 <= k < |events| && events[k].AssistantMessage?
    && forall j :: k < j < |events| ==> !events[j].AssistantMessage? && !events[j].StepEnd?
  }

  function ResultsIn(events: seq<Event>): nat {
    if |events| == 0 then 0
    else ResultsIn(events[..|events| - 1]) + if events[|events| - 1].ToolResult? then 1 else 0
  }

  // An approval is pending exactly where a question of the log is open.
  lemma {:induction false} PendingIsAsked(o: OpenWork, events: seq<Event>)
    requires !o.pending
    ensures OpenAfter(o, events).pending <==> exists k :: IsOpenAsk(events, k)
  {
    if |events| > 0 {
      var most, last := events[..|events| - 1], events[|events| - 1];
      PendingIsAsked(o, most);
      if last.ApprovalAsked? {
        assert IsOpenAsk(events, |most|);
      } else if OpenAfter(o, events).pending {
        var k :| IsOpenAsk(most, k);
        assert IsOpenAsk(events, k);
      } else {
        forall k
          ensures !IsOpenAsk(events, k)
        {
          assert IsOpenAsk(events, k) ==> IsOpenAsk(most, k) && !last.ApprovalDecided? && !last.StepEnd?;
        }
      }
    }
  }

  // The calls without a result are those of the message the step is about, less the
  // results that came after it.
  lemma {:induction false} UnresolvedIsOwed(o: OpenWork, events: seq<Event>, k: nat)
    requires IsOpenAnswer(events, k)
    ensures OpenAfter(o, events).unresolved + ResultsIn(events[k + 1..]) == Max(|events[k].calls|, ResultsIn(events[k + 1..]))
  {
    var most := events[..|events| - 1];
    if k < |most| {
      UnresolvedIsOwed(o, most, k);
      assert events[k + 1..][..|events[k + 1..]| - 1] == most[k + 1..];
    }
  }

  lemma {:induction false} NothingIsOwed(o: OpenWork, events: seq<Event>)
    requires o.unresolved == 0 && forall k :: !IsOpenAnswer(events, k)
    ensures OpenAfter(o, events).unresolved == 0
  {
    if |events| > 0 {
      var most, last := events[..|events| - 1], events[|events| - 1];
      if !last.StepEnd? {
        assert !IsOpenAnswer(events, |most|);
        forall k
          ensures !IsOpenAnswer(most, k)
        {
          assert IsOpenAnswer(most, k) ==> IsOpenAnswer(events, k);
        }
        NothingIsOwed(o, most);
      }
    }
  }

  // A turn ends exactly where no question of the log is open; a step of a session in memory
  // too, and one of a durable session only once every call of its message has a result.
  lemma EndsAreAnswered(durable: bool, o: OpenWork, events: seq<Event>, e: Event)
    requires NoWork(o) && (e.StepEnd? || e.TurnEnd?)
    ensures Admits(durable, OpenAfter(o, events), e) <==>
      && (forall k :: !IsOpenAsk(events, k))
      && (durable && e.StepEnd? ==> forall k :: IsOpenAnswer(events, k) ==> |events[k].calls| <= ResultsIn(events[k + 1..]))
  {
    hide OpenAfter, IsOpenAsk, ResultsIn;
    PendingIsAsked(o, events);
    if forall k :: !IsOpenAnswer(events, k) {
      NothingIsOwed(o, events);
    } else {
      forall k | IsOpenAnswer(events, k)
        ensures |events[k].calls| <= ResultsIn(events[k + 1..]) <==> OpenAfter(o, events).unresolved == 0
      {
        UnresolvedIsOwed(o, events, k);
      }
    }
  }

  // The generation of the surface tells whether the model would be shown anything else: it
  // never falls, and it stands still exactly where nothing was said, answered or rewritten.
  lemma {:induction false} GenerationTells(s: Surface, events: seq<Event>)
    ensures SurfaceAfter(s, events).generation >= s.generation
    ensures SurfaceAfter(s, events).generation == s.generation ==> SurfaceAfter(s, events) == s
    ensures SurfaceAfter(s, events).generation == s.generation <==>
      forall e :: e in events ==>
        !e.UserMessage? && !e.AssistantMessage? && !e.ToolResult? && !e.Checkpoint? && !e.PrunedResult?
  {
    if |events| > 0 {
      var most, last := events[..|events| - 1], events[|events| - 1];
      assert events == most + [last];
      GenerationTells(s, most);
    }
  }

  // From a to b exactly these events were appended, and only the touched claims
  // among those of a may have changed.
  ghost predicate Ran(a: State, b: State, events: seq<Event>, touched: set<nat>) {
    && b.log == a.log + events
    && b.open == OpenAfter(a.open, events)
    && b.surface == SurfaceAfter(a.surface, events)
    && |a.slots| <= |b.slots|
    && forall c :: 0 <= c < |a.slots| && c !in touched ==> b.slots[c] == a.slots[c]
  }

  // The same where no provider attempt is live.
  ghost predicate Moved(a: State, b: State, events: seq<Event>, touched: set<nat>) {
    && Ran(a, b, events, touched)
    && a.attempts.phase.NoAttempt?
    && b.attempts == a.attempts
  }

  // Two runs compose; claims made by the first may be touched by the second.
  lemma RanOn(a: State, b: State, c: State, xs: seq<Event>, ys: seq<Event>, s: set<nat>, t: set<nat>)
    requires Ran(a, b, xs, s) && Ran(b, c, ys, t)
    requires forall x :: x in t ==> x in s || x >= |a.slots|
    ensures Ran(a, c, xs + ys, s)
  {
    AfterConcat(a.open, a.surface, xs, ys);
    assert a.log + xs + ys == a.log + (xs + ys);
  }

  lemma RanQuietly(a: State, b: State, touched: set<nat>)
    requires b.log == a.log && b.open == a.open && b.surface == a.surface && |a.slots| <= |b.slots|
    requires forall c :: 0 <= c < |a.slots| && c !in touched ==> b.slots[c] == a.slots[c]
    ensures Ran(a, b, [], touched)
  {
    assert a.log + [] == a.log;
  }

  // One more event, in the slot of a claim or as an ordinary append.
  lemma RanOneMore(a: State, b: State, e: Event, touched: set<nat>)
    requires b.log == a.log + [e] && b.open == NextOpen(a.open, e) && b.surface == NextSurface(a.surface, e)
    requires |a.slots| <= |b.slots|
    requires forall c :: 0 <= c < |a.slots| && c !in touched ==> b.slots[c] == a.slots[c]
    ensures Ran(a, b, [e], touched)
  {
    assert [e][..0] == [];
    assert OpenAfter(a.open, [e]) == NextOpen(a.open, e);
    assert SurfaceAfter(a.surface, [e]) == NextSurface(a.surface, e);
  }

  lemma MovedNothing(a: State)
    requires a.attempts.phase.NoAttempt?
    ensures Moved(a, a, [], {})
  {
    assert a.log == a.log + [];
  }

  lemma MovedOn(a: State, b: State, c: State, xs: seq<Event>, ys: seq<Event>, s: set<nat>, t: set<nat>)
    requires Moved(a, b, xs, s) && Moved(b, c, ys, t)
    requires forall x :: x in t ==> x in s || x >= |a.slots|
    ensures Moved(a, c, xs + ys, s)
  {
    RanOn(a, b, c, xs, ys, s, t);
  }

  lemma ConsumedMoves(a: State, claim: nat, e: Event)
    requires a.attempts.phase.NoAttempt? && claim < |a.slots|
    ensures Moved(a, Consumed(a, claim, e), [e], {claim})
  {
    RanOneMore(a, Consumed(a, claim, e), e, {claim});
  }

  lemma AppendedMoves(a: State, e: Event)
    requires a.attempts.phase.NoAttempt?
    ensures Moved(a, Appended(a, e), [e], {})
  {
    RanOneMore(a, Appended(a, e), e, {});
  }

  // What leaves the log alone.
  lemma QuietMoves(a: State, b: State, touched: set<nat>)
    requires a.attempts.phase.NoAttempt?
    requires b == a.(slots := b.slots, visible := b.visible)
    requires |a.slots| <= |b.slots|
    requires forall c :: 0 <= c < |a.slots| && c !in touched ==> b.slots[c] == a.slots[c]
    ensures Moved(a, b, [], touched)
  {
    assert a.log + [] == a.log;
  }

  // A barrier moves nothing.
  lemma StillMoved(a: State, b: State, c: State, events: seq<Event>, touched: set<nat>)
    requires Moved(a, b, events, touched) && c == b.(visible := c.visible)
    ensures Moved(a, c, events, touched)
  {
  }

  // Every claim from the given number on was settled or released.
  ghost predicate SpentFrom(slots: seq<Slot>, first: nat) {
    forall c :: first <= c < |slots| ==> !slots[c].Live?
  }

  // The claims from the given number on: all spent, or, where an answer is left over,
  // spent up to the claim of that answer and not all of them from there on.
  ghost predicate Accounted(slots: seq<Slot>, first: nat, left: Option<Event>) {
    if left.None? then SpentFrom(slots, first)
    else exists base :: LeftAt(slots, first, base, left.value)
  }

  ghost predicate LeftAt(slots: seq<Slot>, first: nat, base: nat, answer: Event) {
    && first <= base < |slots|
    && (forall c :: first <= c < base ==> !slots[c].Live?)
    && (slots[base] == Settled(answer) || (slots[base].Live? && slots[base].fallback == answer))
    && !SpentFrom(slots, base)
  }

  // Claims are left over exactly where an answer is.
  lemma LeftIsExact(slots: seq<Slot>, first: nat, left: Option<Event>)
    requires Accounted(slots, first, left)
    ensures SpentFrom(slots, first) <==> left.None?
  {
  }

  // Spent claims before the accounted ones are accounted for.
  lemma AccountedBefore(slots: seq<Slot>, first: nat, middle: nat, left: Option<Event>)
    requires first <= middle <= |slots| && Accounted(slots, middle, left)
    requires forall c :: first <= c < middle ==> !slots[c].Live?
    ensures Accounted(slots, first, left)
  {
    if left.Some? {
      var base: nat :| LeftAt(slots, middle, base, left.value);
      assert LeftAt(slots, first, base, left.value);
    }
  }

  // Nothing changed from there on.
  lemma AccountedStill(a: seq<Slot>, b: seq<Slot>, first: nat, left: Option<Event>)
    requires Accounted(a, first, left) && |b| == |a|
    requires forall c :: first <= c < |a| ==> b[c] == a[c]
    ensures Accounted(b, first, left)
  {
    if left.Some? {
      var base: nat :| LeftAt(a, first, base, left.value);
      var c: nat :| base <= c < |a| && a[c].Live?;
      assert b[c].Live?;
      assert LeftAt(b, first, base, left.value);
    }
  }

  // What storage answered since the turn began: whether a durable ceiling refused
  // anything, whether it refused to begin an attempt, whether a ceiling of a memory
  // session refused anything, and whether a barrier told that the observer is gone.
  datatype Marks = Marks(limited: bool, stalled: bool, crowded: bool, unseen: bool)

  function MarksAfter<T>(m: Marks, r: Result<T, Failure>): Marks {
    if r.Err? && r.error.DurableLimit? then m.(limited := true)
    else if r.Err? && r.error.MemoryBudget? then m.(crowded := true)
    else m
  }

  // What storage answers where capacity is already protected: no ceiling applies.
  predicate IsProtectedError(f: Failure) {
    f.Fatal? || f.Rejected?
  }

  class Session {
    const durable: bool
    var st: State
    var marks: Marks

    ghost predicate Valid()
      reads this
    {
      AttemptsOk(st.attempts) && st.visible <= |st.log|
    }

    constructor (durable: bool)
      ensures this.durable == durable && Valid()
      ensures st == State([], [], OpenWork(false, 0, false), Surface([], 0), Attempts(NoAttempt, 0, [], 0), 0)
      ensures marks == Marks(false, false, false, false)
    {
      this.durable := durable;
      st := State([], [], OpenWork(false, 0, false), Surface([], 0), Attempts(NoAttempt, 0, [], 0), 0);
      marks := Marks(false, false, false, false);
    }

    // Start the reservation of one turn: it owns no claim yet.
    method Reserve()
      requires Valid()
      modifies this
      ensures Valid() && st == old(st).(slots := []) && marks == Marks(false, false, false, false)
    {
      st := st.(slots := []);
      marks := Marks(false, false, false, false);
    }

    // What storage answers: nothing wrong, a ceiling, a fatal or a passing refusal.
    static method StorageOutcome() returns (f: Option<Failure>)
      ensures f.Some? ==> IsBudget(f.value) || IsProtectedError(f.value)
    {
      f := *;
      if f.Some? && !IsBudget(f.value) {
        f := Some(if f.value.Rejected? then Failure.Rejected else Failure.Fatal);
      }
    }

    static method ProtectedOutcome() returns (f: Option<Failure>)
      ensures f.Some? ==> IsProtectedError(f.value)
    {
      f := *;
      if f.Some? && !f.value.Rejected? {
        f := Some(Failure.Fatal);
      }
    }

    // All or nothing: the claims are numbered consecutively from the result.
    method ClaimBatch(fallbacks: seq<Event>) returns (r: Result<nat, Failure>)
      requires Valid()
      modifies this
      ensures Valid() && marks == MarksAfter(old(marks), r)
      ensures r.Ok? ==> r.value == |old(st).slots| && st == Claimed(old(st), fallbacks)
      ensures r.Err? ==> st == old(st) && (IsBudget(r.error) || IsProtectedError(r.error))
    {
      var outcome := StorageOutcome();
      if outcome.Some? {
        marks := marks.(limited := marks.limited || outcome.value.DurableLimit?, crowded := marks.crowded || outcome.value.MemoryBudget?);
        return Err(outcome.value);
      }
      r := Ok(|st.slots|);
      st := Claimed(st, fallbacks);
    }

    // Commit exactly the protected fallback.
    method SettleExact(claim: nat) returns (r: Result<Unit, Failure>)
      requires Valid() && IsLive(st.slots, claim)
      modifies this
      ensures Valid() && marks == old(marks)
      ensures r.Ok? ==> st == Consumed(old(st), claim, old(st).slots[claim].fallback)
      ensures r.Err? ==> st == old(st) && (IsProtectedError(r.error) || r.error.Refused?)
      ensures r.Err? && r.error.Refused? <==> !Admits(durable, old(st).open, old(st).slots[claim].fallback)
    {
      var e := st.slots[claim].fallback;
      if !Admits(durable, st.open, e) {
        return Err(Refused);
      }
      var outcome := ProtectedOutcome();
      if outcome.Some? {
        return Err(outcome.value);
      }
      st := Consumed(st, claim, e);
      r := Ok(Unit);
    }

    // Commit a preferred event of the same kind when it fits, otherwise the
    // protected fallback.
    method Settle(claim: nat, preferred: Event) returns (r: Result<Settlement, Failure>)
      requires Valid() && IsLive(st.slots, claim) && SameKind(preferred, st.slots[claim].fallback)
      modifies this
      ensures Valid() && marks == old(marks)
      ensures r.Ok? ==>
        st == Consumed(old(st), claim, if r.value.Preferred? then preferred else old(st).slots[claim].fallback)
      ensures r.Err? ==> st == old(st) && (IsProtectedError(r.error) || r.error.Refused?)
      ensures r.Err? && r.error.Refused? <==> !Admits(durable, old(st).open, preferred)
    {
      if !Admits(durable, st.open, preferred) {
        return Err(Refused);
      }
      var fits: bool := *;
      var outcome := ProtectedOutcome();
      if outcome.Some? {
        return Err(outcome.value);
      }
      st := Consumed(st, claim, if fits then preferred else st.slots[claim].fallback);
      r := Ok(if fits then Preferred else Fallback);
    }

    // Never substitutes the fallback: the event must fit the claim's own ceiling.
    // retained tells that a durable session still owns the rejected candidate.
    method SettlePreferredOnly(claim: nat, preferred: Event) returns (r: Result<Unit, Failure>, retained: bool)
      requires Valid() && IsLive(st.slots, claim) && SameKind(preferred, st.slots[claim].fallback) && !preferred.TurnEnd?
      modifies this
      ensures Valid() && marks == old(marks)
      ensures r.Ok? ==> st == Consumed(old(st), claim, preferred) && EventSize(preferred) <= old(st).slots[claim].reserved
      ensures r.Err? ==> st == old(st) && IsProtectedError(r.error)
      ensures retained ==> durable && r.Err? && r.error.Rejected? && EventSize(preferred) <= st.slots[claim].reserved
    {
      retained := false;
      if EventSize(preferred) > st.slots[claim].reserved {
        return Err(Failure.Rejected), retained;
      }
      var outcome := ProtectedOutcome();
      if outcome.Some? {
        return Err(outcome.value), durable && outcome.value.Rejected?;
      }
      st := Consumed(st, claim, preferred);
      r := Ok(Unit);
    }

    // One more try for the very candidate the session still owns.
    method ResumePreferredOnly(claim: nat, preferred: Event) returns (r: Result<Unit, Failure>)
      requires Valid() && IsLive(st.slots, claim) && SameKind(preferred, st.slots[claim].fallback) && !preferred.TurnEnd?
      requires EventSize(preferred) <= st.slots[claim].reserved
      modifies this
      ensures Valid() && marks == old(marks)
      ensures r.Ok? ==> st == Consumed(old(st), claim, preferred)
      ensures r.Err? ==> st == old(st) && (r.error.Fatal? || r.error.Retained?)
    {
      var outcome := ProtectedOutcome();
      if outcome.Some? {
        return Err(if outcome.value.Rejected? then Retained else Failure.Fatal);
      }
      st := Consumed(st, claim, preferred);
      r := Ok(Unit);
    }

    method Release(claim: nat) returns (r: Result<Unit, Failure>)
      requires Valid() && IsLive(st.slots, claim)
      modifies this
      ensures Valid() && marks == old(marks)
      ensures r.Ok? ==> st == Freed(old(st), claim)
      ensures r.Err? ==> st == old(st) && r.error.Fatal?
    {
      var fatal: bool := *;
      if fatal {
        return Err(Failure.Fatal);
      }
      st := Freed(st, claim);
      r := Ok(Unit);
    }

    // Only the fallback changes: nothing is appended and nothing is consumed.
    method Rebind(claim: nat, fallback: Event) returns (r: Result<Unit, Failure>)
      requires Valid() && IsLive(st.slots, claim)
      modifies this
      ensures Valid() && marks == old(marks)
      ensures r.Ok? ==> st == Rebound(old(st), claim, fallback)
      ensures r.Err? ==> st == old(st) && IsProtectedError(r.error)
    {
      if EventSize(fallback) > st.slots[claim].reserved {
        return Err(Failure.Rejected);
      }
      var outcome := ProtectedOutcome();
      if outcome.Some? {
        return Err(outcome.value);
      }
      st := Rebound(st, claim, fallback);
      r := Ok(Unit);
    }

    // Raise the byte ceiling of one claim; it is never lowered.
    method ReserveBytes(claim: nat, requested: nat) returns (r: Result<Unit, Failure>)
      requires Valid() && IsLive(st.slots, claim)
      modifies this
      ensures Valid() && marks == MarksAfter(old(marks), r)
      ensures r.Ok? ==> st == Raised(old(st), claim, requested)
      ensures r.Err? ==> st == old(st) && (IsBudget(r.error) || IsProtectedError(r.error))
    {
      if requested > st.slots[claim].reserved {
        var outcome := StorageOutcome();
        if outcome.Some? {
          marks := marks.(limited := marks.limited || outcome.value.DurableLimit?, crowded := marks.crowded || outcome.value.MemoryBudget?);
          return Err(outcome.value);
        }
      }
      st := Raised(st, claim, requested);
      r := Ok(Unit);
    }

    // Append an ordinary event without invading any claim.
    method Append(e: Event) returns (r: Result<Unit, Failure>)
      requires Valid() && !e.StepEnd? && !e.TurnEnd?
      modifies this
      ensures Valid() && marks == MarksAfter(old(marks), r)
      ensures r.Ok? ==> st == Appended(old(st), e)
      ensures r.Err? ==> st == old(st) && (IsBudget(r.error) || IsProtectedError(r.error))
    {
      var outcome := StorageOutcome();
      if outcome.Some? {
        marks := marks.(limited := marks.limited || outcome.value.DurableLimit?, crowded := marks.crowded || outcome.value.MemoryBudget?);
        return Err(outcome.value);
      }
      st := Appended(st, e);
      r := Ok(Unit);
    }

    // Everything appended so far is stored; a Ready barrier also made it visible.
    method FlushBarrier() returns (r: Result<Barrier, Failure>)
      requires Valid()
      modifies this
      ensures Valid() && marks == old(marks).(unseen := old(marks).unseen || (r.Ok? && r.value.ObserverUnavailable?))
      ensures r.Ok? ==> st == Flushed(old(st), r.value)
      ensures r.Ok? ==> st.visible == if r.value.Ready? then |st.log| else old(st).visible
      ensures r.Err? ==> st == old(st) && r.error.Fatal?
    {
      var fatal: bool, seen: bool := *, *;
      if fatal {
        return Err(Failure.Fatal);
      }
      r := Ok(if seen then Ready else Barrier.ObserverUnavailable);
      if seen {
        st := st.(visible := |st.log|);
      }
      if st.attempts.phase.Closed? {
        st := st.(attempts := st.attempts.(phase := st.attempts.phase.(stored := true)));
      }
      marks := marks.(unseen := marks.unseen || !seen);
    }

    // ----- the provider attempt

    method BeginAttempt() returns (r: Result<Unit, Failure>)
      requires Valid()
      modifies this
      ensures Valid() && marks == old(marks).(stalled := old(marks).stalled || (r.Err? && r.error.DurableLimit?))
      ensures r.Ok? ==>
        && old(st).attempts.phase.NoAttempt?
        && st == old(st).(attempts := old(st).attempts.(phase := Open, begun := old(st).attempts.begun + 1))
      ensures r.Err? ==> st == old(st) && !r.error.Refused? && !r.error.SurfaceChanged?
      ensures old(st).attempts.phase.NoAttempt? ==> !(r.Err? && r.error.AttemptNotRetired?)
    {
      if !st.attempts.phase.NoAttempt? {
        return Err(AttemptNotRetired);
      }
      var outcome := StorageOutcome();
      if outcome.Some? {
        marks := marks.(stalled := marks.stalled || outcome.value.DurableLimit?);
        return Err(outcome.value);
      }
      st := st.(attempts := st.attempts.(phase := Open, begun := st.attempts.begun + 1));
      r := Ok(Unit);
    }

    // One chunk of the open attempt; a chunk that breaks the stream protocol is not appended.
    method AppendChunk(usage: nat, legal: bool) returns (r: Result<ChunkAppend, Failure>)
      requires Valid()
      modifies this
      ensures Valid() && marks == MarksAfter(old(marks), r)
      ensures st == if r.Ok? && r.value.Kept? then Appended(old(st), AssistantChunk(usage)) else old(st)
      ensures r.Ok? && r.value.InvalidChunk? ==> !legal
      ensures r.Err? ==> !r.error.Refused? && !r.error.SurfaceChanged?
      ensures old(st).attempts.phase.Open? ==> !(r.Err? && r.error.AttemptNotRetired?)
    {
      if !st.attempts.phase.Open? {
        return Err(AttemptNotRetired);
      }
      if !legal {
        return Ok(InvalidChunk);
      }
      var outcome := StorageOutcome();
      if outcome.Some? {
        marks := marks.(limited := marks.limited || outcome.value.DurableLimit?, crowded := marks.crowded || outcome.value.MemoryBudget?);
        return Err(outcome.value);
      }
      st := Appended(st, AssistantChunk(usage));
      r := Ok(Kept);
    }

    // The finished attempt gets a last look at the ceilings before it is committed.
    method SealAttempt() returns (r: Result<Unit, Failure>)
      requires Valid()
      modifies this
      ensures Valid() && marks == MarksAfter(old(marks), r) && st == old(st)
      ensures r.Err? ==> IsBudget(r.error) || IsProtectedError(r.error)
    {
      var outcome := StorageOutcome();
      if outcome.Some? {
        marks := marks.(limited := marks.limited || outcome.value.DurableLimit?, crowded := marks.crowded || outcome.value.MemoryBudget?);
        return Err(outcome.value);
      }
      r := Ok(Unit);
    }

    // The closure event of the open attempt, as an ordinary append.
    method AppendClosure(d: Disposition, e: Event) returns (r: Result<Unit, Failure>)
      requires Valid() && !e.StepEnd? && !e.TurnEnd?
      modifies this
      ensures Valid() && marks == MarksAfter(old(marks), r)
      ensures r.Ok? ==> st == Closing(Appended(old(st), e), d)
      ensures r.Err? ==> st == old(st) && !r.error.SurfaceChanged? && !r.error.Refused?
      ensures old(st).attempts.phase.Open? ==> !(r.Err? && r.error.AttemptNotRetired?)
    {
      if !st.attempts.phase.Open? {
        return Err(AttemptNotRetired);
      }
      r := Append(e);
      if r.Ok? {
        st := Closing(st, d);
      }
    }

    // The closure event of the open attempt, from the claim that protects it.
    method SettleClosureExact(claim: nat, d: Disposition) returns (r: Result<Unit, Failure>)
      requires Valid() && IsLive(st.slots, claim)
      modifies this
      ensures Valid() && marks == old(marks)
      ensures r.Ok? ==> st == Closing(Consumed(old(st), claim, old(st).slots[claim].fallback), d)
      ensures r.Err? ==> st == old(st) && !r.error.SurfaceChanged? && !IsBudget(r.error)
      ensures old(st).attempts.phase.Open? ==> !(r.Err? && r.error.AttemptNotRetired?)
      ensures r.Ok? ==> Admits(durable, old(st).open, old(st).slots[claim].fallback)
      ensures Admits(durable, old(st).open, old(st).slots[claim].fallback) ==> !(r.Err? && r.error.Refused?)
    {
      if !st.attempts.phase.Open? {
        return Err(AttemptNotRetired);
      }
      r := SettleExact(claim);
      if r.Ok? {
        st := Closing(st, d);
      }
    }

    // Only an attempt whose closure crossed a barrier may be retired.
    method RetireAttempt() returns (r: Result<Unit, Failure>)
      requires Valid()
      modifies this
      ensures Valid() && marks == old(marks)
      ensures r.Ok? <==> old(st).attempts.phase.Closed? && old(st).attempts.phase.stored
      ensures r.Ok? ==>
        st == old(st).(attempts := old(st).attempts.(phase := NoAttempt, retired := old(st).attempts.retired + 1))
      ensures r.Err? ==> st == old(st) && r.error.AttemptNotRetired?
    {
      if !st.attempts.phase.Closed? || !st.attempts.phase.stored {
        return Err(AttemptNotRetired);
      }
      st := st.(attempts := st.attempts.(phase := NoAttempt, retired := st.attempts.retired + 1));
      r := Ok(Unit);
    }
  }
}
