// What plain text looks like on the screen: cut into lines as wide as the screen, of
// which the last ones stay (scripts/render-terminal-snapshot.py:105-114 and 158-181).
module ScreenText {
  import opened Common
  import opened ScreenModel

  // A text cut every so many columns.
  function Lines(t: string, columns: nat): (ls: seq<string>)
    requires columns > 0
    ensures |ls| > 0 && |ls[|ls| - 1]| <= columns
    decreases |t|
  {
    if |t| <= columns then [t] else [t[..columns]] + Lines(t[columns..], columns)
  }

  function Joined(ls: seq<string>): string {
    if ls == [] then "" else ls[0] + Joined(ls[1..])
  }

  // The cut loses nothing, every line but the last is full, and the last is not empty.
  lemma {:induction false} LinesCut(t: string, columns: nat)
    requires columns > 0
    ensures Joined(Lines(t, columns)) == t
    ensures forall i :: 0 <= i < |Lines(t, columns)| - 1 ==> |Lines(t, columns)[i]| == columns
    ensures t != "" ==> Lines(t, columns)[|Lines(t, columns)| - 1] != ""
    decreases |t|
  {
    var ls := Lines(t, columns);
    if |t| > columns {
      assert ls[1..] == Lines(t[columns..], columns);
      LinesCut(t[columns..], columns);
    } else {
      assert ls[1..] == [] && t + "" == t;
    }
  }

  // One more character joins the last line, or starts a line when that is full.
  function Extended(ls: seq<string>, character: char, columns: nat): seq<string>
    requires |ls| > 0
  {
    var last := ls[|ls| - 1];
    if |last| < columns then ls[..|ls| - 1] + [last + [character]] else ls + [[character]]
  }

  lemma ExtendsTail(line: string, ls: seq<string>, character: char, columns: nat)
    requires |ls| > 0
    ensures Extended([line] + ls, character, columns) == [line] + Extended(ls, character, columns)
  {
    var all := [line] + ls;
    assert all[|all| - 1] == ls[|ls| - 1] && all[..|all| - 1] == [line] + ls[..|ls| - 1];
  }

  lemma LongLines(t: string, columns: nat)
    requires 0 < columns < |t|
    ensures Lines(t, columns) == [t[..columns]] + Lines(t[columns..], columns)
  {
  }

  lemma {:induction false} LinesExtend(t: string, character: char, columns: nat)
    requires columns > 0
    ensures Lines(t + [character], columns) == Extended(Lines(t, columns), character, columns)
    decreases |t|
  {
    var longer := t + [character];
    if |t| > columns {
      hide Lines, Extended;
      LongLines(t, columns);
      LongLines(longer, columns);
      assert longer[..columns] == t[..columns] && longer[columns..] == t[columns..] + [character];
      LinesExtend(t[columns..], character, columns);
      ExtendsTail(t[..columns], Lines(t[columns..], columns), character, columns);
    } else if |t| == columns {
      assert longer[..columns] == t && longer[columns..] == [character];
    }
  }

  // The last lines of a text that fit the screen.
  function Kept(ls: seq<string>, rows: nat): seq<string> {
    if |ls| > rows then ls[|ls| - rows..] else ls
  }

  function Padded(line: string, style: Style, columns: nat): seq<Cell> {
    seq(columns, j requires 0 <= j < columns => if j < |line| then Cell([line[j]], style, false) else BLANK)
  }

  function RowOf(kept: seq<string>, i: nat, style: Style, columns: nat): seq<Cell> {
    Padded(if i < |kept| then kept[i] else "", style, columns)
  }

  // The screen that shows these lines, with the cursor behind the last one.
  function Shown(kept: seq<string>, style: Style, columns: nat, rows: nat): Display
    requires 0 < |kept| <= rows && |kept[|kept| - 1]| <= columns && 0 < columns
  {
    var end := |kept[|kept| - 1]|;
    Display(
      columns,
      rows,
      seq(rows, i requires 0 <= i < rows => RowOf(kept, i, style, columns)),
      |kept| - 1,
      if end == columns then columns - 1 else end,
      end == columns,
      style)
  }

  predicate FitsScreen(kept: seq<string>, style: Style, columns: nat, rows: nat) {
    && 1 <= columns <= MAX_COLUMNS && 1 <= rows <= MAX_ROWS && StyleOk(style)
    && 0 < |kept| <= rows && |kept[|kept| - 1]| <= columns
  }

  lemma ShownOk(kept: seq<string>, style: Style, columns: nat, rows: nat)
    requires FitsScreen(kept, style, columns, rows)
    ensures DisplayOk(Shown(kept, style, columns, rows))
  {
  }

  // A character within the last line.
  lemma ShownGrows(kept: seq<string>, character: char, style: Style, columns: nat, rows: nat)
    requires FitsScreen(kept, style, columns, rows) && |kept[|kept| - 1]| < columns
    ensures
      var longer := Extended(kept, character, columns);
      && FitsScreen(longer, style, columns, rows) && DisplayOk(Shown(kept, style, columns, rows))
      && Placed(Shown(kept, style, columns, rows), character, Some(1)) == Some(Shown(longer, style, columns, rows))
  {
    ShownOk(kept, style, columns, rows);
    var d := Shown(kept, style, columns, rows);
    var longer := Extended(kept, character, columns);
    var after := Placed(d, character, Some(1)).value;
    var last := kept[|kept| - 1];
    assert after.lines[d.row] == Padded(last + [character], style, columns);
    assert after.lines == Shown(longer, style, columns, rows).lines;
  }

  // A pending wrap opens a line below, or scrolls.
  lemma ShownWraps(kept: seq<string>, style: Style, columns: nat, rows: nat)
    requires FitsScreen(kept, style, columns, rows) && |kept[|kept| - 1]| == columns
    ensures
      var next := Kept(kept + [""], rows);
      && FitsScreen(next, style, columns, rows)
      && Wrapped(Shown(kept, style, columns, rows)) == Shown(next, style, columns, rows)
  {
    var d := Shown(kept, style, columns, rows);
    var next := Kept(kept + [""], rows);
    assert Padded("", style, columns) == Repeat(BLANK, columns);
    assert Wrapped(d).lines == Shown(next, style, columns, rows).lines;
  }

  lemma ShownStep(kept: seq<string>, character: char, style: Style, columns: nat, rows: nat)
    requires FitsScreen(kept, style, columns, rows)
    ensures
      var next := Kept(Extended(kept, character, columns), rows);
      && FitsScreen(next, style, columns, rows) && DisplayOk(Shown(kept, style, columns, rows))
      && Placed(Shown(kept, style, columns, rows), character, Some(1)) == Some(Shown(next, style, columns, rows))
  {
    hide DisplayOk, Shown, StyleOk;
    ShownOk(kept, style, columns, rows);
    if |kept[|kept| - 1]| < columns {
      ShownGrows(kept, character, style, columns, rows);
    } else {
      var below := Kept(kept + [""], rows);
      PendingShows(kept, style, columns, rows);
      WrapFirst(Shown(kept, style, columns, rows), character);
      ShownWraps(kept, style, columns, rows);
      ShownGrows(below, character, style, columns, rows);
      StartsLine(kept, character, columns, rows);
    }
  }

  lemma StartsLine(kept: seq<string>, character: char, columns: nat, rows: nat)
    requires 0 < |kept| <= rows && |kept[|kept| - 1]| == columns > 0
    ensures Extended(Kept(kept + [""], rows), character, columns) == Kept(Extended(kept, character, columns), rows)
  {
    assert "" + [character] == [character];
    var below := Kept(kept + [""], rows);
    assert below[|below| - 1] == "";
  }

  lemma PendingShows(kept: seq<string>, style: Style, columns: nat, rows: nat)
    requires FitsScreen(kept, style, columns, rows)
    ensures Shown(kept, style, columns, rows).pendingWrap <==> |kept[|kept| - 1]| == columns
  {
  }

  // A pending wrap is the same as a wrap done at once.
  lemma WrapFirst(d: Display, character: char)
    requires DisplayOk(d) && d.pendingWrap
    ensures DisplayOk(Wrapped(d)) && Placed(d, character, Some(1)) == Placed(Wrapped(d), character, Some(1))
  {
    hide DisplayOk, Fed;
    NewLineKeeps(d);
    ShapeOf(d);
    ShapeOf(Wrapped(d));
  }

  // Keeping the last lines after every character is keeping them at the end.
  lemma KeptExtends(ls: seq<string>, character: char, columns: nat, rows: nat)
    requires |ls| > 0 && rows > 0
    ensures Kept(Extended(Kept(ls, rows), character, columns), rows) == Kept(Extended(ls, character, columns), rows)
  {
    var kept := Kept(ls, rows);
    assert kept[|kept| - 1] == ls[|ls| - 1];
  }

  function Typed(text: string): (ops: seq<Op>)
    ensures |ops| == |text| && forall i :: 0 <= i < |ops| ==> OpOk(ops[i])
  {
    seq(|text|, i requires 0 <= i < |text| => PutOp(text[i], Some(1)))
  }

  // Characters one column wide, typed on a screen that shows the text before, show the
  // whole text: cut into lines as wide as the screen, with exactly the last ones kept.
  lemma {:induction false} TypingShows(before: string, text: string, style: Style, columns: nat, rows: nat)
    requires 1 <= columns <= MAX_COLUMNS && 1 <= rows <= MAX_ROWS && StyleOk(style)
    ensures
      var d := Shown(Kept(Lines(before, columns), rows), style, columns, rows);
      && DisplayOk(d)
      && Play(d, Typed(text)) == Some(Shown(Kept(Lines(before + text, columns), rows), style, columns, rows))
    decreases |text|
  {
    hide Shown, DisplayOk, StyleOk, Placed, Lines, Kept;
    var kept := Kept(Lines(before, columns), rows);
    KeptFits(before, style, columns, rows);
    ShownOk(kept, style, columns, rows);
    if text == "" {
      assert before + text == before;
    } else {
      var longer := before + [text[0]];
      ShownStep(kept, text[0], style, columns, rows);
      KeptExtends(Lines(before, columns), text[0], columns, rows);
      LinesExtend(before, text[0], columns);
      TypingShows(longer, text[1..], style, columns, rows);
      assert longer + text[1..] == before + text;
      assert Typed(text)[1..] == Typed(text[1..]);
    }
  }

  lemma KeptFits(text: string, style: Style, columns: nat, rows: nat)
    requires 1 <= columns <= MAX_COLUMNS && 1 <= rows <= MAX_ROWS && StyleOk(style)
    ensures FitsScreen(Kept(Lines(text, columns), rows), style, columns, rows)
  {
  }

  // On a new screen.
  lemma TextIsChunked(text: string, style: Style, columns: nat, rows: nat)
    requires 1 <= columns <= MAX_COLUMNS && 1 <= rows <= MAX_ROWS && StyleOk(style)
    ensures
      var d := NewDisplay(columns, rows).(style := style);
      && DisplayOk(d)
      && Play(d, Typed(text)) == Some(Shown(Kept(Lines(text, columns), rows), style, columns, rows))
  {
    TypingShows("", text, style, columns, rows);
    assert "" + text == text;
    NewShows(style, columns, rows);
  }

  lemma NewShows(style: Style, columns: nat, rows: nat)
    requires columns > 0 && rows > 0
    ensures Lines("", columns) == [""] && Kept([""], rows) == [""]
    ensures NewDisplay(columns, rows).(style := style) == Shown([""], style, columns, rows)
  {
    forall i | 0 <= i < rows
      ensures RowOf([""], i, style, columns) == Repeat(BLANK, columns)
    {
    }
    assert NewDisplay(columns, rows).lines == Shown([""], style, columns, rows).lines;
  }

  // Where the glyph just written stands.
  function GlyphColumn(after: Display, width: nat): int {
    if after.pendingWrap then after.columns - width else after.column - width
  }

  lemma GlyphLands(d: Display, glyph: char, width: nat)
    requires DisplayOk(d) && 1 <= width <= 2 && width <= d.columns
    ensures Placed(d, glyph, Some(width)).Some?
    ensures
      var after := Placed(d, glyph, Some(width)).value;
      && DisplayOk(after) && after.columns == d.columns && 0 <= GlyphColumn(after, width) < d.columns
      && after.lines[after.row][GlyphColumn(after, width)] == Cell([glyph], d.style, false)
  {
    PutKeeps(d, glyph, Some(width));
    hide DisplayOk, Wrapped;
    ShapeOf(d);
    NewLineKeeps(d);
    var at := if d.pendingWrap then Wrapped(d) else d;
    NewLineKeeps(at);
    var on := if at.column + width > d.columns then Wrapped(at) else at;
    ShapeOf(on);
  }

  lemma MarkLands(d: Display, mark: char, column: nat)
    requires DisplayOk(d) && column < d.columns && |d.lines[d.row][column].text| == 1
    ensures Marked(d, mark).lines[d.row][column].text == d.lines[d.row][column].text + [mark]
      <==> column == (if d.column > 0 then d.column - 1 else 0)
  {
  }

  // A combining character put after a glyph joins that glyph exactly when a glyph of one
  // column left no wrap pending (or the screen has one column), or a glyph of two columns
  // left one. Otherwise it joins the cell before the glyph, or the glyph's second half.
  lemma MarkJoins(d: Display, glyph: char, width: nat, mark: char)
    requires DisplayOk(d) && 1 <= width <= 2 && width <= d.columns
    ensures Placed(d, glyph, Some(width)).Some? && DisplayOk(Placed(d, glyph, Some(width)).value)
    ensures
      var after := Placed(d, glyph, Some(width)).value;
      var at := GlyphColumn(after, width);
      && 0 <= at < |after.lines[after.row]| == |Marked(after, mark).lines[after.row]|
      && (Marked(after, mark).lines[after.row][at].text == [glyph] + [mark]
          <==> if width == 1 then !after.pendingWrap || d.columns == 1 else after.pendingWrap)
  {
    hide Placed;
    GlyphLands(d, glyph, width);
    var after := Placed(d, glyph, Some(width)).value;
    MarkLands(after, mark, GlyphColumn(after, width));
  }
}
