// The approval dialog of an ordinary terminal: what was typed and what is highlighted, told
// from the keys alone, and which keys decide (src/cli/approval_selector.rs:206-344 and
// src/cli/approval.rs:152-175).
module LinearSelector {
  import opened Common
  import opened SessionLog
  import opened ApprovalSelectorModel

  // ----- the reference: what stands in the record and which line is highlighted

  predicate IsForward(e: InputEvent) {
    e.KeyEvent? && (e.key.Tab? || e.key.Down? || e.key.Right? || e.key == Char('j') || e.key == Char('l'))
  }

  predicate IsBackward(e: InputEvent) {
    e.KeyEvent? && (e.key.BackTab? || e.key.Up? || e.key.Left? || e.key == Char('k') || e.key == Char('h'))
  }

  predicate IsReturn(d: Decoded) {
    d.current && d.event.KeyEvent? && (d.event.key.Enter? || d.event.key.Newline?)
  }

  predicate IsEscape(d: Decoded) {
    d.current && d.event == KeyEvent(Escape)
  }

  // How often an input was cut because its sequence was too long.
  function Cuts(steps: seq<Step>): nat {
    if |steps| == 0 then 0
    else Cuts(steps[..|steps| - 1]) + if steps[|steps| - 1].input == Decoded(true, SequenceTooLong) then 1 else 0
  }

  // What one event makes of the characters typed so far. Letters that move the highlight are
  // no characters while there are none yet, and every second cut sequence empties the record.
  function Edited(typed: string, cuts: nat, d: Decoded): string {
    if !d.current || d.event.PasteStarted? then typed
    else if d.event.SequenceTooLong? then if cuts % 2 == 1 then "" else typed
    else if !d.event.KeyEvent? || d.event.key.Enter? || d.event.key.Newline? || d.event.key.Escape? then ""
    else if d.event.key.Backspace? then if typed == "" then "" else typed[..|typed| - 1]
    else if !d.event.key.Char? || !(' ' <= d.event.key.c <= '~') || (typed == "" && (IsForward(d.event) || IsBackward(d.event))) then typed
    else if |typed| == MAX_APPROVAL_RECORD_BYTES then ""
    else typed + [d.event.key.c]
  }

  // The characters typed since the record was last empty.
  function Typed(steps: seq<Step>): string {
    if |steps| == 0 then ""
    else
      var before := steps[..|steps| - 1];
      Edited(Typed(before), Cuts(before), steps[|steps| - 1].input)
  }

  // The words that name the three lines of the dialog.
  predicate NamesLine(typed: string, line: nat) {
    || (line == 0 && (typed == "y" || typed == "yes" || typed == "allow"))
    || (line == 1 && (typed == "n" || typed == "no" || typed == "reject"))
    || (line == 2 && (typed == "c" || typed == "cancel"))
  }

  // The line highlighted after one event: with nothing typed it moves around the three lines,
  // and a word that is edited into the record moves it to its own.
  function Moved(line: nat, typed: string, after: string, d: Decoded): nat {
    if !d.current then line
    else if typed == "" && IsForward(d.event) then (line + 1) % 3
    else if typed == "" && IsBackward(d.event) then (line + 2) % 3
    else if !d.event.KeyEvent? || typed == after then line
    else if NamesLine(after, 0) then 0
    else if NamesLine(after, 1) then 1
    else if NamesLine(after, 2) then 2
    else line
  }

  // To allow once is line 0, to reject, where every dialog starts, line 1, to cancel line 2.
  function Highlighted(steps: seq<Step>): nat {
    if |steps| == 0 then 1
    else
      var before := steps[..|steps| - 1];
      Moved(Highlighted(before), Typed(before), Typed(steps), steps[|steps| - 1].input)
  }

  // The record names this line: by a word, by its verb with the challenge, or by nothing
  // typed where the line is highlighted.
  predicate Names(typed: string, highlighted: nat, challenge: string, line: nat) {
    if typed == "" then highlighted == line
    else
      || NamesLine(typed, line)
      || (line == 0 && typed == "allow " + challenge)
      || (line == 1 && typed == "reject " + challenge)
      || (line == 2 && typed == "cancel " + challenge)
  }

  // ----- the dialog keeps to the reference

  // A step decides for a line exactly when it is Enter, or Newline, on what names it; and an
  // escape cancels whatever stands there.
  predicate Decides(typed: string, highlighted: nat, challenge: string, d: Decoded, update: Update) {
    && (update == Decide(AllowedOnce) <==> IsReturn(d) && Names(typed, highlighted, challenge, 0))
    && (update == Decide(ApprovalOutcome.Rejected) <==> IsReturn(d) && Names(typed, highlighted, challenge, 1))
    && (update == Decide(ApprovalOutcome.Cancelled) <==> IsEscape(d) || (IsReturn(d) && Names(typed, highlighted, challenge, 2)))
    && update != Decide(Unavailable)
  }

  predicate StepDecides(steps: seq<Step>, m: nat, challenge: string)
    requires m < |steps|
  {
    Decides(Typed(steps[..m]), Highlighted(steps[..m]), challenge, steps[m].input, steps[m].update)
  }

  function LineOf(selected: Selection): nat {
    if selected == AllowOnce then 0 else if selected == Reject then 1 else 2
  }

  predicate Shows(s: State, typed: string, cuts: nat, line: nat) {
    && s.profile.LinearRecord? && s.record == typed && |typed| <= MAX_APPROVAL_RECORD_BYTES
    && (s.drainingSequence <==> cuts % 2 == 1)
    && LineOf(s.selected) == line
  }

  predicate Follows(h: History) {
    Shows(h.state, Typed(h.steps), Cuts(h.steps), Highlighted(h.steps))
  }

  predicate AllDecide(steps: seq<Step>, challenge: string) {
    forall m :: 0 <= m < |steps| ==> StepDecides(steps, m, challenge)
  }

  lemma ParseNames(typed: string, challenge: string)
    requires typed != ""
    ensures ParseAnswer(typed, challenge) == Some(AllowedOnce) <==> Names(typed, 0, challenge, 0)
    ensures ParseAnswer(typed, challenge) == Some(ApprovalOutcome.Rejected) <==> Names(typed, 0, challenge, 1)
    ensures ParseAnswer(typed, challenge) == Some(ApprovalOutcome.Cancelled) <==> Names(typed, 0, challenge, 2)
    ensures ParseAnswer(typed, challenge) != Some(Unavailable)
  {
    assert ("allow " + challenge)[0] == 'a' && ("reject " + challenge)[0] == 'r' && ("cancel " + challenge)[0] == 'c';
    assert ("allow " + challenge)[5] == ' ' && ("reject " + challenge)[6] == ' ' && ("cancel " + challenge)[6] == ' ';
  }

  lemma EventEdits(s: State, d: Decoded, challenge: string, typed: string, cuts: nat, line: nat)
    requires Shows(s, typed, cuts, line)
    ensures
      var next := TakeEvent(s, d, challenge).0;
      var after := Edited(typed, cuts, d);
      && next.profile == s.profile && next.serial == s.serial
      && next.record == after && |after| <= MAX_APPROVAL_RECORD_BYTES
      && (next.drainingSequence <==> (cuts + if d == Decoded(true, SequenceTooLong) then 1 else 0) % 2 == 1)
  {
  }

  lemma EventMoves(s: State, d: Decoded, challenge: string, typed: string, cuts: nat, line: nat)
    requires Shows(s, typed, cuts, line)
    ensures LineOf(TakeEvent(s, d, challenge).0.selected) == Moved(line, typed, Edited(typed, cuts, d), d)
  {
    if d.current && d.event.KeyEvent? && (d.event.key.Char? || d.event.key.Backspace?) {
      EditMoves(s, d, challenge, typed, cuts, line);
    }
  }

  lemma EditMoves(s: State, d: Decoded, challenge: string, typed: string, cuts: nat, line: nat)
    requires Shows(s, typed, cuts, line)
    requires d.current && d.event.KeyEvent? && (d.event.key.Char? || d.event.key.Backspace?)
    ensures LineOf(TakeEvent(s, d, challenge).0.selected) == Moved(line, typed, Edited(typed, cuts, d), d)
  {
    hide Shortcut, NamesLine;
    ShortcutNames(Edited(typed, cuts, d));
  }

  // A record that is a word highlights the line it names.
  lemma ShortcutNames(record: string)
    ensures
      match Shortcut(record)
      case Some(selected) => NamesLine(record, LineOf(selected))
      case None => !NamesLine(record, 0) && !NamesLine(record, 1) && !NamesLine(record, 2)
    ensures forall i, j: nat :: NamesLine(record, i) && NamesLine(record, j) ==> i == j
    ensures record == "" ==> Shortcut(record).None?
  {
  }

  lemma EventDecides(s: State, d: Decoded, challenge: string, typed: string, cuts: nat, line: nat)
    requires Shows(s, typed, cuts, line)
    ensures Decides(typed, line, challenge, d, TakeEvent(s, d, challenge).1)
  {
    if typed != "" {
      ParseNames(typed, challenge);
    }
  }

  lemma StepFollows(h: History, d: Decoded, challenge: string)
    requires Follows(h) && AllDecide(h.steps, challenge)
    ensures
      var (next, update) := TakeEvent(h.state, d, challenge);
      var step := Step(h.state.serial, d, h.state.selected, next.selected, update);
      Follows(History(next, h.steps + [step])) && AllDecide(h.steps + [step], challenge)
  {
    hide TakeEvent, Edited, Moved, Decides;
    var (next, update) := TakeEvent(h.state, d, challenge);
    var step := Step(h.state.serial, d, h.state.selected, next.selected, update);
    var after := h.steps + [step];
    EventEdits(h.state, d, challenge, Typed(h.steps), Cuts(h.steps), Highlighted(h.steps));
    EventMoves(h.state, d, challenge, Typed(h.steps), Cuts(h.steps), Highlighted(h.steps));
    EventDecides(h.state, d, challenge, Typed(h.steps), Cuts(h.steps), Highlighted(h.steps));
    assert after[..|h.steps|] == h.steps;
    forall m | 0 <= m < |after|
      ensures StepDecides(after, m, challenge)
    {
      assert m < |h.steps| ==> after[..m] == h.steps[..m] && StepDecides(h.steps, m, challenge);
    }
  }

  lemma {:induction false} FeedFollows(h: History, events: seq<Decoded>, challenge: string, redraw: bool)
    requires Follows(h) && AllDecide(h.steps, challenge)
    ensures
      var fed := FeedEvents(h.state, events, challenge, redraw);
      Follows(History(fed.state, h.steps + fed.steps)) && AllDecide(h.steps + fed.steps, challenge)
    decreases |events|
  {
    hide Follows, AllDecide, TakeEvent;
    if events == [] {
      assert h.steps + [] == h.steps;
    } else {
      StepFollows(h, events[0], challenge);
      var (next, update) := TakeEvent(h.state, events[0], challenge);
      var step := Step(h.state.serial, events[0], h.state.selected, next.selected, update);
      if !EndsFeed(update) {
        FeedFollows(History(next, h.steps + [step]), events[1..], challenge, redraw || update.Redraw?);
        var rest := FeedEvents(next, events[1..], challenge, redraw || update.Redraw?);
        assert (h.steps + [step]) + rest.steps == h.steps + ([step] + rest.steps);
      }
    }
  }

  lemma ActFollows(h: History, a: Action, challenge: string)
    requires Follows(h) && AllDecide(h.steps, challenge)
    ensures Follows(Act(h, a, challenge)) && AllDecide(Act(h, a, challenge).steps, challenge)
  {
    hide Follows, AllDecide, FeedEvents;
    assert h.steps + [] == h.steps;
    match a {
      case FeedAction(events) =>
        if h.state.serial != MAX_SERIAL {
          FeedStarts(h);
          FeedFollows(History(h.state.(serial := h.state.serial + 1), h.steps), events, challenge, false);
        }
      case ExpireAction(pending) =>
        if pending {
          StepFollows(h, ALONE, challenge);
        }
    }
  }

  lemma FeedStarts(h: History)
    requires Follows(h)
    ensures Follows(History(h.state.(serial := h.state.serial + 1), h.steps))
  {
  }

  // In every run of the linear profile, each step allows, rejects or cancels exactly when the
  // keys before it say so: Enter or Newline on a word for that answer, on its verb with the
  // challenge, or on nothing typed where that line is highlighted, and an escape to cancel.
  lemma {:induction false} LinearIsTyped(actions: seq<Action>, challenge: string)
    ensures
      var h := Run(LinearRecord, actions, challenge);
      && AllDecide(h.steps, challenge)
      && h.state.record == Typed(h.steps) && LineOf(h.state.selected) == Highlighted(h.steps)
  {
    RunFollows(actions, challenge);
  }

  lemma {:induction false} RunFollows(actions: seq<Action>, challenge: string)
    ensures Follows(Run(LinearRecord, actions, challenge)) && AllDecide(Run(LinearRecord, actions, challenge).steps, challenge)
  {
    if actions != [] {
      hide Follows, AllDecide;
      var before := actions[..|actions| - 1];
      RunFollows(before, challenge);
      ActFollows(Run(LinearRecord, before, challenge), actions[|actions| - 1], challenge);
    }
  }
}
