// The approval dialog: which choice is focused, and which key strokes may confirm it
// (src/cli/approval_selector.rs:1-344). Bytes arrive already decoded into events; whether
// an event still belongs to the present input epoch is part of it.
module ApprovalSelectorModel {
  import opened Common
  import opened SessionLog

  const MAX_APPROVAL_RECORD_BYTES: nat := 64
  const MAX_SERIAL: nat := 0xFFFF_FFFF_FFFF_FFFF

  datatype Selection = AllowOnce | Reject | Cancel {
    function Previous(): Selection {
      match this
      case AllowOnce => Cancel
      case Reject => AllowOnce
      case Cancel => Reject
    }

    function Next(): Selection {
      match this
      case AllowOnce => Reject
      case Reject => Cancel
      case Cancel => AllowOnce
    }

    function Outcome(): ApprovalOutcome {
      match this
      case AllowOnce => AllowedOnce
      case Reject => ApprovalOutcome.Rejected
      case Cancel => Cancelled
    }
  }

  datatype Profile = LinearRecord | EnhancedDirectional

  datatype Key =
    | Char(c: char) | Enter | Newline | Escape | Eof | Tab | BackTab
    | Left | Right | Up | Down | Backspace | OtherKey

  datatype InputEvent =
    | KeyEvent(key: Key)
    | PasteStarted
    | Paste
    | PasteRefused
    | SequenceTooLong
    | Refused

  datatype Decoded = Decoded(current: bool, event: InputEvent)

  datatype Update = Nothing | Redraw | Decide(outcome: ApprovalOutcome) | EndOfInput | Invalid

  predicate EndsFeed(u: Update) {
    u.Decide? || u.EndOfInput? || u.Invalid?
  }

  // ----- answers typed as text

  // A whole record, ended by a newline (src/cli/approval.rs:152-175).
  function ParseAnswer(record: string, challenge: string): Option<ApprovalOutcome> {
    if record in {"y", "yes", "allow"} || record == "allow " + challenge then Some(AllowedOnce)
    else if record in {"n", "no", "reject"} || record == "reject " + challenge then Some(ApprovalOutcome.Rejected)
    else if record in {"c", "cancel"} || record == "cancel " + challenge then Some(Cancelled)
    else None
  }

  // The choice that a record typed so far names.
  function Shortcut(record: string): Option<Selection> {
    if record in {"y", "yes", "allow"} then Some(AllowOnce)
    else if record in {"n", "no", "reject"} then Some(Reject)
    else if record in {"c", "cancel"} then Some(Cancel)
    else None
  }

  // ----- the selector as a value

  datatype State = State(
    profile: Profile,
    selected: Selection,
    record: string,
    serial: nat,
    focus: Option<nat>,
    drainingSequence: bool,
    drainingPaste: bool)

  function NewState(profile: Profile): State {
    State(profile, Reject, "", 0, None, false, false)
  }

  function Select(s: State, selected: Selection): State {
    s.(selected := selected, focus := if selected == AllowOnce then Some(s.serial) else None)
  }

  function UpdateShortcut(s: State): (State, Update) {
    match Shortcut(s.record)
    case None => (s, Nothing)
    case Some(selected) => (Select(s, selected), if s.selected != selected then Redraw else Nothing)
  }

  // In the enhanced profile the choice to allow must have been focused by an earlier feed.
  function Confirm(s: State, challenge: string): (State, Update) {
    if s.record == "" then
      if s.profile.EnhancedDirectional? && s.selected == AllowOnce && (s.focus.None? || s.focus.value >= s.serial)
      then (Select(s, Reject), Invalid)
      else (s, Decide(s.selected.Outcome()))
    else
      var answer := ParseAnswer(s.record, challenge);
      (s.(record := ""), if answer.Some? then Decide(answer.value) else Invalid)
  }

  predicate IsGraphic(c: char) {
    '!' <= c <= '~' || c == ' '
  }

  function TypeChar(s: State, c: char): (State, Update) {
    if s.record == "" && c in {'h', 'k'} then
      if s.profile.EnhancedDirectional? then (s, Invalid) else (Select(s, s.selected.Previous()), Redraw)
    else if s.record == "" && c in {'j', 'l'} then
      if s.profile.EnhancedDirectional? then (s, Invalid) else (Select(s, s.selected.Next()), Redraw)
    else if IsGraphic(c) then
      if s.profile.EnhancedDirectional? then (s, Invalid)
      else if |s.record| >= MAX_APPROVAL_RECORD_BYTES then (s.(record := ""), Invalid)
      else UpdateShortcut(s.(record := s.record + [c]))
    else (s, Invalid)
  }

  function PressKey(s: State, key: Key, challenge: string): (State, Update) {
    match key
    case Escape => (s.(record := ""), Decide(Cancelled))
    case Enter => Confirm(s, challenge)
    case Newline => if s.profile.LinearRecord? then Confirm(s, challenge) else (s, Invalid)
    case Eof => (s, EndOfInput)
    case Tab =>
      if s.profile.LinearRecord? && s.record == "" then (Select(s, s.selected.Next()), Redraw) else (s, Invalid)
    case BackTab =>
      if s.profile.LinearRecord? && s.record == "" then (Select(s, s.selected.Previous()), Redraw) else (s, Invalid)
    case Up => if s.record == "" then (Select(s, s.selected.Previous()), Redraw) else (s, Invalid)
    case Left => if s.record == "" then (Select(s, s.selected.Previous()), Redraw) else (s, Invalid)
    case Down => if s.record == "" then (Select(s, s.selected.Next()), Redraw) else (s, Invalid)
    case Right => if s.record == "" then (Select(s, s.selected.Next()), Redraw) else (s, Invalid)
    case Backspace => if s.record != "" then UpdateShortcut(s.(record := s.record[..|s.record| - 1])) else (s, Invalid)
    case Char(c) => TypeChar(s, c)
    case OtherKey => (s, Invalid)
  }

  function FeedEvent(s: State, e: InputEvent, challenge: string): (State, Update) {
    match e
    case KeyEvent(key) => PressKey(s, key, challenge)
    case PasteStarted => (s.(drainingPaste := true), Nothing)
    case SequenceTooLong =>
      if s.drainingSequence then (s.(drainingSequence := false, record := ""), Invalid)
      else (s.(drainingSequence := true), Nothing)
    case _ => (s.(drainingPaste := false, record := ""), Invalid)
  }

  // An event of an earlier epoch is refused unseen.
  function TakeEvent(s: State, d: Decoded, challenge: string): (State, Update) {
    if d.current then FeedEvent(s, d.event, challenge) else (s, Invalid)
  }

  // One event taken by one feed.
  datatype Step = Step(serial: nat, input: Decoded, before: Selection, after: Selection, update: Update)

  datatype Fed = Fed(state: State, update: Update, steps: seq<Step>)

  // The events of one feed, until one of them ends it.
  function FeedEvents(s: State, events: seq<Decoded>, challenge: string, redraw: bool): Fed
    decreases |events|
  {
    if events == [] then Fed(s, if redraw then Redraw else Nothing, [])
    else
      var (next, update) := TakeEvent(s, events[0], challenge);
      var step := Step(s.serial, events[0], s.selected, next.selected, update);
      if EndsFeed(update) then Fed(next, update, [step])
      else
        var rest := FeedEvents(next, events[1..], challenge, redraw || update.Redraw?);
        rest.(steps := [step] + rest.steps)
  }

  function Prefixed(steps: seq<Step>, fed: Fed): Fed {
    fed.(steps := steps + fed.steps)
  }

  lemma FeedTakes(s: State, events: seq<Decoded>, i: nat, challenge: string, redraw: bool, steps: seq<Step>)
    requires i < |events|
    ensures
      var (next, update) := TakeEvent(s, events[i], challenge);
      var longer := steps + [Step(s.serial, events[i], s.selected, next.selected, update)];
      Prefixed(steps, FeedEvents(s, events[i..], challenge, redraw)) ==
        if EndsFeed(update) then Fed(next, update, longer)
        else Prefixed(longer, FeedEvents(next, events[i + 1..], challenge, redraw || update.Redraw?))
  {
    hide TakeEvent;
    assert events[i..][0] == events[i] && events[i..][1..] == events[i + 1..];
    var (next, update) := TakeEvent(s, events[i], challenge);
    var step := Step(s.serial, events[i], s.selected, next.selected, update);
    var rest := FeedEvents(next, events[i + 1..], challenge, redraw || update.Redraw?);
    assert steps + ([step] + rest.steps) == (steps + [step]) + rest.steps;
  }

  function Feed(s: State, events: seq<Decoded>, challenge: string): Fed {
    if s.serial == MAX_SERIAL then Fed(s, Invalid, [])
    else FeedEvents(s.(serial := s.serial + 1), events, challenge, false)
  }

  // The wait for the rest of an escape sequence ends; pending says whether there was one.
  function ExpireEscape(s: State, pending: bool): (State, Update) {
    if pending then (s.(record := ""), Decide(Cancelled)) else (s, Nothing)
  }

  // ----- the selector itself

  class ApprovalSelector {
    var selected: Selection
    const profile: Profile
    const record: array<char>
    var recordLen: nat
    var feedSerial: nat
    var allowFocusSerial: Option<nat>
    var drainingRejectedSequence: bool
    var drainingRejectedPaste: bool

    ghost predicate Valid()
      reads this
    {
      record.Length == MAX_APPROVAL_RECORD_BYTES && recordLen <= MAX_APPROVAL_RECORD_BYTES && feedSerial <= MAX_SERIAL
    }

    ghost function Show(): State
      reads this, record
      requires Valid()
    {
      State(profile, selected, record[..recordLen], feedSerial, allowFocusSerial, drainingRejectedSequence, drainingRejectedPaste)
    }

    constructor (profile: Profile)
      ensures Valid() && fresh(record) && Show() == NewState(profile)
    {
      // Enter must be safe even when a stale byte crosses the input fence.
      selected := Reject;
      this.profile := profile;
      record := new char[MAX_APPROVAL_RECORD_BYTES](_ => '\0');
      recordLen := 0;
      feedSerial := 0;
      allowFocusSerial := None;
      drainingRejectedSequence := false;
      drainingRejectedPaste := false;
    }

    method SelectChoice(choice: Selection)
      requires Valid()
      modifies this
      ensures Valid() && Show() == Select(old(Show()), choice)
    {
      selected := choice;
      allowFocusSerial := if choice == AllowOnce then Some(feedSerial) else None;
    }

    method UpdateShortcutSelection() returns (update: Update)
      requires Valid()
      modifies this
      ensures Valid() && (Show(), update) == UpdateShortcut(old(Show()))
    {
      var choice := Shortcut(record[..recordLen]);
      if choice.Some? {
        var changed := selected != choice.value;
        SelectChoice(choice.value);
        if changed {
          return Redraw;
        }
      }
      update := Nothing;
    }

    method ConfirmChoice(challenge: string) returns (update: Update)
      requires Valid()
      modifies this
      ensures Valid() && (Show(), update) == Confirm(old(Show()), challenge)
    {
      if recordLen == 0 {
        if profile == EnhancedDirectional && selected == AllowOnce
          && (allowFocusSerial.None? || allowFocusSerial.value >= feedSerial) {
          SelectChoice(Reject);
          return Invalid;
        }
        return Decide(selected.Outcome());
      }
      var answer := ParseAnswer(record[..recordLen], challenge);
      recordLen := 0;
      update := if answer.Some? then Decide(answer.value) else Invalid;
    }

    method TypeCharacter(c: char) returns (update: Update)
      requires Valid()
      modifies this, record
      ensures Valid() && (Show(), update) == TypeChar(old(Show()), c)
    {
      if recordLen == 0 && c in {'h', 'k', 'j', 'l'} {
        if profile == EnhancedDirectional {
          return Invalid;
        }
        SelectChoice(if c in {'h', 'k'} then selected.Previous() else selected.Next());
        return Redraw;
      }
      if !IsGraphic(c) || profile == EnhancedDirectional {
        return Invalid;
      }
      if recordLen == record.Length {
        recordLen := 0;
        return Invalid;
      }
      record[recordLen] := c;
      recordLen := recordLen + 1;
      assert record[..recordLen] == old(record[..recordLen]) + [c];
      update := UpdateShortcutSelection();
    }

    method Press(key: Key, challenge: string) returns (update: Update)
      requires Valid()
      modifies this, record
      ensures Valid() && (Show(), update) == PressKey(old(Show()), key, challenge)
    {
      match key {
        case Escape =>
          recordLen := 0;
          return Decide(Cancelled);
        case Enter =>
          update := ConfirmChoice(challenge);
        case Newline =>
          if profile != LinearRecord {
            return Invalid;
          }
          update := ConfirmChoice(challenge);
        case Eof =>
          return EndOfInput;
        case Char(c) =>
          update := TypeCharacter(c);
        case Backspace =>
          if recordLen == 0 {
            return Invalid;
          }
          recordLen := recordLen - 1;
          assert record[..recordLen] == old(record[..recordLen])[..recordLen];
          update := UpdateShortcutSelection();
        case OtherKey =>
          return Invalid;
        case _ =>
          if recordLen != 0 || (key in {Tab, BackTab} && profile != LinearRecord) {
            return Invalid;
          }
          SelectChoice(if key in {Tab, Down, Right} then selected.Next() else selected.Previous());
          update := Redraw;
      }
    }

    // One decoded event (lines 206-307).
    method TakeOne(e: InputEvent, challenge: string) returns (update: Update)
      requires Valid()
      modifies this, record
      ensures Valid() && (Show(), update) == FeedEvent(old(Show()), e, challenge)
    {
      match e {
        case KeyEvent(key) =>
          update := Press(key, challenge);
        case PasteStarted =>
          drainingRejectedPaste := true;
          update := Nothing;
        case SequenceTooLong =>
          if !drainingRejectedSequence {
            drainingRejectedSequence := true;
            return Nothing;
          }
          drainingRejectedSequence := false;
          recordLen := 0;
          update := Invalid;
        case _ =>
          drainingRejectedPaste := false;
          recordLen := 0;
          update := Invalid;
      }
    }

    // The events that one piece of input completes (lines 169-204).
    method FeedInput(events: seq<Decoded>, challenge: string) returns (update: Update, ghost steps: seq<Step>)
      requires Valid()
      modifies this, record
      ensures Valid() && Fed(Show(), update, steps) == Feed(old(Show()), events, challenge)
    {
      hide FeedEvent;
      steps := [];
      if feedSerial == MAX_SERIAL {
        return Invalid, [];
      }
      feedSerial := feedSerial + 1;
      ghost var start := Show();
      assert start == old(Show()).(serial := feedSerial);
      var redraw := false;
      for i := 0 to |events|
        invariant Valid()
        invariant Prefixed(steps, FeedEvents(Show(), events[i..], challenge, redraw))
          == FeedEvents(start, events, challenge, false)
      {
        ghost var before := Show();
        FeedTakes(before, events, i, challenge, redraw, steps);
        if events[i].current {
          update := TakeOne(events[i].event, challenge);
        } else {
          update := Invalid;
        }
        steps := steps + [Step(before.serial, events[i], before.selected, selected, update)];
        if EndsFeed(update) {
          return;
        }
        redraw := redraw || update.Redraw?;
      }
      update := if redraw then Redraw else Nothing;
    }

    // Lines 160-167.
    method Expire(pending: bool) returns (update: Update)
      requires Valid()
      modifies this
      ensures Valid() && (Show(), update) == ExpireEscape(old(Show()), pending)
    {
      if pending {
        recordLen := 0;
        return Decide(Cancelled);
      }
      update := Nothing;
    }
  }

  // ----- whole runs of a dialog

  datatype Action = FeedAction(events: seq<Decoded>) | ExpireAction(pending: bool)

  datatype History = History(state: State, steps: seq<Step>)

  // An escape that no sequence follows is a key of its own.
  const ALONE := Decoded(true, KeyEvent(Escape))

  function Act(h: History, a: Action, challenge: string): History {
    match a
    case FeedAction(events) =>
      var fed := Feed(h.state, events, challenge);
      History(fed.state, h.steps + fed.steps)
    case ExpireAction(pending) =>
      var (next, update) := ExpireEscape(h.state, pending);
      History(next, h.steps + if pending then [Step(h.state.serial, ALONE, h.state.selected, next.selected, update)] else [])
  }

  function Run(profile: Profile, actions: seq<Action>, challenge: string): History {
    if actions == [] then History(NewState(profile), [])
    else Act(Run(profile, actions[..|actions| - 1], challenge), actions[|actions| - 1], challenge)
  }

  predicate IsArrow(e: InputEvent) {
    e.KeyEvent? && (e.key.Up? || e.key.Down? || e.key.Left? || e.key.Right?)
  }

  // Step a is the arrow that focused the choice to allow, and nothing moved the focus up
  // to step m.
  predicate FocusedAt(steps: seq<Step>, a: nat, m: nat) {
    && a < m <= |steps|
    && steps[a].input.current && IsArrow(steps[a].input.event)
    && steps[a].before != AllowOnce
    && forall b :: a <= b < m ==> steps[b].after == AllowOnce
  }

  // What the enhanced profile keeps about the steps behind it: the stored serial is that
  // of the arrow that focused the choice to allow.
  ghost predicate Follows(h: History) {
    && h.state.profile.EnhancedDirectional? && h.state.record == ""
    && (h.state.selected == AllowOnce <==> h.state.focus.Some?)
    && (h.state.focus.Some? ==>
          exists a: nat :: FocusedAt(h.steps, a, |h.steps|) && h.steps[a].serial == h.state.focus.value)
    && Chained(h.steps) && (h.steps != [] ==> h.steps[|h.steps| - 1].after == h.state.selected)
    && (h.steps == [] ==> h.state.selected != AllowOnce)
  }

  // Every step starts with the choice the step before it left.
  predicate Chained(steps: seq<Step>) {
    && (forall i :: 0 <= i < |steps| - 1 ==> steps[i].after == steps[i + 1].before)
    && (steps != [] ==> steps[0].before != AllowOnce)
  }

  // The event that focuses is the only one that can.
  lemma FocusIsUnique(steps: seq<Step>, a: nat, b: nat, m: nat)
    requires Chained(steps) && FocusedAt(steps, a, m) && FocusedAt(steps, b, m)
    ensures a == b
  {
    NotLater(steps, a, b, m);
    NotLater(steps, b, a, m);
  }

  lemma NotLater(steps: seq<Step>, a: nat, b: nat, m: nat)
    requires Chained(steps) && FocusedAt(steps, a, m)
    ensures a < b ==> !FocusedAt(steps, b, m)
  {
    assert a < b < m ==> steps[b - 1].after == steps[b].before;
  }

  lemma NotFocused(steps: seq<Step>, a: nat)
    requires steps != [] ==> steps[|steps| - 1].after != AllowOnce
    ensures !FocusedAt(steps, a, |steps|)
  {
  }

  // Step m decides to allow exactly when it is Enter and the choice was focused by an
  // arrow of an earlier feed.
  ghost predicate Justified(steps: seq<Step>, m: nat)
    requires m < |steps|
  {
    steps[m].update == Decide(AllowedOnce) <==>
      && steps[m].input == Decoded(true, KeyEvent(Enter))
      && exists a: nat :: FocusedAt(steps, a, m) && steps[a].serial < steps[m].serial
  }

  ghost predicate AllJustified(steps: seq<Step>) {
    forall m :: 0 <= m < |steps| ==> Justified(steps, m)
  }

  // What one event does in the enhanced profile.
  lemma EnhancedStep(s: State, d: Decoded, challenge: string)
    requires s.profile.EnhancedDirectional? && s.record == "" && (s.selected == AllowOnce <==> s.focus.Some?)
    ensures
      var (next, update) := TakeEvent(s, d, challenge);
      && next.profile.EnhancedDirectional? && next.record == "" && next.serial == s.serial
      && (next.selected == AllowOnce <==> next.focus.Some?)
      && (next.selected == AllowOnce ==>
            (s.selected == AllowOnce && next.focus == s.focus)
            || (s.selected != AllowOnce && d.current && IsArrow(d.event) && next.focus == Some(s.serial)))
      && (update == Decide(AllowedOnce) <==>
            d == Decoded(true, KeyEvent(Enter)) && s.selected == AllowOnce && s.focus.value < s.serial)
  {
  }

  lemma FocusedStays(steps: seq<Step>, more: seq<Step>, a: nat, m: nat)
    requires m <= |steps|
    ensures FocusedAt(steps + more, a, m) <==> FocusedAt(steps, a, m)
  {
    hide IsArrow;
    forall b | a <= b < m
      ensures (steps + more)[b] == steps[b]
    {
    }
  }

  // One more step keeps what is known of the run.
  lemma StepFollows(h: History, d: Decoded, challenge: string)
    requires Follows(h) && AllJustified(h.steps)
    ensures
      var (next, update) := TakeEvent(h.state, d, challenge);
      var step := Step(h.state.serial, d, h.state.selected, next.selected, update);
      Follows(History(next, h.steps + [step])) && AllJustified(h.steps + [step])
  {
    hide TakeEvent, IsArrow;
    EnhancedStep(h.state, d, challenge);
    var (next, update) := TakeEvent(h.state, d, challenge);
    var step := Step(h.state.serial, d, h.state.selected, next.selected, update);
    var after := h.steps + [step];
    JustifiedLast(h, step);
    JustifiedBefore(h.steps, step);
    if next.focus.Some? {
      if h.state.selected == AllowOnce {
        var a: nat :| FocusedAt(h.steps, a, |h.steps|) && h.steps[a].serial == h.state.focus.value;
        assert FocusedAt(after, a, |after|) && after[a].serial == next.focus.value;
      } else {
        assert FocusedAt(after, |h.steps|, |after|) && after[|h.steps|].serial == next.focus.value;
      }
    }
  }

  lemma JustifiedBefore(steps: seq<Step>, step: Step)
    requires AllJustified(steps)
    ensures forall m :: 0 <= m < |steps| ==> Justified(steps + [step], m)
  {
    forall m | 0 <= m < |steps|
      ensures Justified(steps + [step], m)
    {
      hide FocusedAt;
      assert Justified(steps, m);
      forall a: nat | a < m
        ensures FocusedAt(steps + [step], a, m) <==> FocusedAt(steps, a, m)
      {
        FocusedStays(steps, [step], a, m);
      }
      BeforeOnly(steps, m);
      BeforeOnly(steps + [step], m);
    }
  }

  lemma BeforeOnly(steps: seq<Step>, m: nat)
    ensures forall a: nat :: FocusedAt(steps, a, m) ==> a < m
  {
  }

  lemma JustifiedLast(h: History, step: Step)
    requires Follows(h) && step.before == h.state.selected && step.serial == h.state.serial
    requires step.update == Decide(AllowedOnce) <==>
      step.input == Decoded(true, KeyEvent(Enter)) && h.state.selected == AllowOnce && h.state.focus.value < h.state.serial
    ensures Justified(h.steps + [step], |h.steps|)
  {
    hide IsArrow;
    var m := |h.steps|;
    var after := h.steps + [step];
    if h.state.selected == AllowOnce {
      var a: nat :| FocusedAt(h.steps, a, m) && h.steps[a].serial == h.state.focus.value;
      FocusedStays(h.steps, [step], a, m);
      forall b: nat | FocusedAt(after, b, m)
        ensures b == a
      {
        FocusedStays(h.steps, [step], b, m);
        FocusIsUnique(h.steps, a, b, m);
      }
    } else {
      forall b: nat | FocusedAt(after, b, m)
        ensures false
      {
        FocusedStays(h.steps, [step], b, m);
        NotFocused(h.steps, b);
      }
    }
  }

  lemma {:induction false} FeedFollows(h: History, events: seq<Decoded>, challenge: string, redraw: bool)
    requires Follows(h) && AllJustified(h.steps)
    ensures
      var fed := FeedEvents(h.state, events, challenge, redraw);
      Follows(History(fed.state, h.steps + fed.steps)) && AllJustified(h.steps + fed.steps)
    decreases |events|
  {
    hide Follows, AllJustified, TakeEvent;
    if events == [] {
      assert h.steps + [] == h.steps;
    } else {
      StepFollows(h, events[0], challenge);
      var (next, update) := TakeEvent(h.state, events[0], challenge);
      var step := Step(h.state.serial, events[0], h.state.selected, next.selected, update);
      if !EndsFeed(update) {
        FeedFollows(History(next, h.steps + [step]), events[1..], challenge, redraw || update.Redraw?);
        var rest := FeedEvents(next, events[1..], challenge, redraw || update.Redraw?);
        assert (h.steps + [step]) + rest.steps == h.steps + ([step] + rest.steps);
      }
    }
  }

  lemma ActFollows(h: History, a: Action, challenge: string)
    requires Follows(h) && AllJustified(h.steps)
    ensures Follows(Act(h, a, challenge)) && AllJustified(Act(h, a, challenge).steps)
  {
    match a {
      case FeedAction(events) =>
        if h.state.serial == MAX_SERIAL {
          assert h.steps + [] == h.steps;
        } else {
          var started := History(h.state.(serial := h.state.serial + 1), h.steps);
          FeedFollows(started, events, challenge, false);
        }
      case ExpireAction(pending) =>
        if pending {
          StepFollows(h, ALONE, challenge);
        } else {
          assert h.steps + [] == h.steps;
        }
    }
  }

  // In every run of the enhanced profile, a step decides to allow exactly when it is
  // Enter, an arrow of an earlier feed focused that choice, and the focus has not moved
  // since; and the choice is focused exactly when a serial is stored.
  lemma {:induction false} AllowIsAuthorised(actions: seq<Action>, challenge: string)
    ensures
      var h := Run(EnhancedDirectional, actions, challenge);
      && (h.state.selected == AllowOnce <==> h.state.focus.Some?)
      && AllJustified(h.steps)
  {
    RunFollows(actions, challenge);
  }

  lemma {:induction false} RunFollows(actions: seq<Action>, challenge: string)
    ensures
      var h := Run(EnhancedDirectional, actions, challenge);
      Follows(h) && AllJustified(h.steps)
  {
    if actions != [] {
      hide Follows, AllJustified;
      var before := actions[..|actions| - 1];
      RunFollows(before, challenge);
      ActFollows(Run(EnhancedDirectional, before, challenge), actions[|actions| - 1], challenge);
    }
  }
}
