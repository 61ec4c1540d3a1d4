// The terminal screen that transcripts are replayed on, with deferred wrap at the last
// column (scripts/render-terminal-snapshot.py:61-181). The width of a character comes
// from the Unicode tables and is a parameter.
module ScreenModel {
  import opened Common

  const MAX_COLUMNS: nat := 160
  const MAX_ROWS: nat := 60
  const ALLOWED_GRAPHICS: set<int> := {0, 1, 2, 30, 31, 32, 33, 35, 36, 39, 43, 49}

  datatype Style = Style(foreground: Option<int>, background: Option<int>, bold: bool, dim: bool)

  const PLAIN: Style := Style(None, None, false, false)

  datatype Cell = Cell(text: string, style: Style, continuation: bool)

  const BLANK: Cell := Cell(" ", PLAIN, false)

  function Repeat<T>(x: T, n: nat): (s: seq<T>)
    ensures |s| == n && forall i :: 0 <= i < n ==> s[i] == x
  {
    seq(n, i => x)
  }

  // Everything a screen holds.
  datatype Display = Display(
    columns: nat,
    rows: nat,
    lines: seq<seq<Cell>>,
    row: nat,
    column: nat,
    pendingWrap: bool,
    style: Style)

  function NewDisplay(columns: nat, rows: nat): Display {
    Display(columns, rows, Repeat(Repeat(BLANK, columns), rows), 0, 0, false, PLAIN)
  }

  // Colours have an entry in the palette, and bold excludes dim.
  predicate StyleOk(s: Style) {
    && (s.foreground.Some? ==> 30 <= s.foreground.value <= 37)
    && (s.background.Some? ==> 40 <= s.background.value <= 47)
    && !(s.bold && s.dim)
  }

  // What every screen satisfies: a rectangular grid, the cursor inside it, and a wrap
  // pending only in the last column.
  predicate DisplayOk(d: Display) {
    && 1 <= d.columns <= MAX_COLUMNS && 1 <= d.rows <= MAX_ROWS
    && |d.lines| == d.rows && (forall i :: 0 <= i < d.rows ==> |d.lines[i]| == d.columns)
    && d.row < d.rows && d.column < d.columns
    && (d.pendingWrap ==> d.column == d.columns - 1)
    && StyleOk(d.style)
    && forall i, j :: 0 <= i < d.rows && 0 <= j < d.columns ==> StyleOk(d.lines[i][j].style)
  }

  // ----- what every operation does

  function Fed(d: Display): Display
    requires |d.lines| > 0
  {
    if d.row + 1 < d.rows then d.(row := d.row + 1, pendingWrap := false)
    else d.(lines := d.lines[1..] + [Repeat(BLANK, d.columns)], pendingWrap := false)
  }

  function Returned(d: Display): Display {
    d.(column := 0, pendingWrap := false)
  }

  function SteppedBack(d: Display): Display {
    d.(column := if d.column > 0 then d.column - 1 else 0, pendingWrap := false)
  }

  function Raised(d: Display, count: nat): Display {
    d.(row := if d.row > count then d.row - count else 0, pendingWrap := false)
  }

  function Erased(d: Display): Display
    requires d.row < |d.lines|
  {
    d.(lines := d.lines[d.row := Repeat(BLANK, d.columns)], pendingWrap := false)
  }

  function Graphic(s: Style, parameter: int): Style {
    if parameter == 0 then PLAIN
    else if parameter == 1 then s.(bold := true, dim := false)
    else if parameter == 2 then s.(dim := true, bold := false)
    else if 30 <= parameter <= 37 then s.(foreground := Some(parameter))
    else if parameter == 39 then s.(foreground := None)
    else if 40 <= parameter <= 47 then s.(background := Some(parameter))
    else if parameter == 49 then s.(background := None)
    else s
  }

  // The style after a list of parameters, or nothing when one of them is not allowed.
  function Graphics(s: Style, parameters: seq<int>): Option<Style>
    decreases |parameters|
  {
    if parameters == [] then Some(s)
    else if parameters[0] !in ALLOWED_GRAPHICS then None
    else Graphics(Graphic(s, parameters[0]), parameters[1..])
  }

  function Styled(d: Display, parameters: seq<int>): Option<Display> {
    match Graphics(d.style, if parameters == [] then [0] else parameters)
    case None => None
    case Some(s) => Some(d.(style := s))
  }

  function Wrapped(d: Display): Display
    requires |d.lines| > 0
  {
    Fed(d.(column := 0))
  }

  // A character of the given width, or nothing when it cannot be shown.
  function Placed(d: Display, character: char, width: Option<nat>): Option<Display>
    requires DisplayOk(d)
  {
    if width.None? then None
    else if width.value == 0 then Some(Marked(d, character))
    else if width.value > d.columns then None
    else
      NewLineKeeps(d);
      var at := if d.pendingWrap then Wrapped(d) else d;
      NewLineKeeps(at);
      var on := if at.column + width.value > d.columns then Wrapped(at) else at;
      Some(Written(on, character, width.value))
  }

  // A combining character joins the text of the cell before the cursor.
  function Marked(d: Display, character: char): Display
    requires DisplayOk(d)
  {
    var previous := if d.column > 0 then d.column - 1 else 0;
    var cell := d.lines[d.row][previous];
    d.(lines := d.lines[d.row := d.lines[d.row][previous := cell.(text := cell.text + [character])]])
  }

  function Written(d: Display, character: char, width: nat): Display
    requires d.row < |d.lines| && |d.lines[d.row]| == d.columns && 1 <= width && d.column + width <= d.columns
  {
    var line := d.lines[d.row][d.column := Cell([character], d.style, false)];
    var both := if width == 2 then line[d.column + 1 := Cell("", d.style, true)] else line;
    var end := d.column + width;
    d.(lines := d.lines[d.row := both],
       column := if end == d.columns then d.columns - 1 else end,
       pendingWrap := end == d.columns)
  }

  function TabTarget(d: Display): nat
    requires d.columns > 0
  {
    var stop := (d.column / 8 + 1) * 8;
    if stop < d.columns - 1 then stop else d.columns - 1
  }

  // Blanks from the cursor up to a column.
  function Blanked(d: Display, target: nat): Display
    requires DisplayOk(d) && target < d.columns
  {
    if d.column >= target then d
    else
      var line := d.lines[d.row];
      var blanks := Repeat(Cell(" ", d.style, false), target - d.column);
      d.(lines := d.lines[d.row := line[..d.column] + blanks + line[target..]], column := target, pendingWrap := false)
  }

  // Blanks up to the next multiple of eight, at most to the last column.
  function Tabbed(d: Display): Display
    requires DisplayOk(d)
  {
    Blanked(d, TabTarget(d))
  }

  // ----- the invariant

  predicate SameShape(a: Display, b: Display) {
    a.columns == b.columns && a.rows == b.rows && a.style == b.style
  }

  lemma NewLineKeeps(d: Display)
    requires DisplayOk(d)
    ensures DisplayOk(Wrapped(d)) && SameShape(Wrapped(d), d) && Wrapped(d).column == 0 && !Wrapped(d).pendingWrap
  {
  }

  lemma WriteKeeps(d: Display, character: char, width: nat)
    requires DisplayOk(d) && 1 <= width <= 2 && d.column + width <= d.columns
    ensures DisplayOk(Written(d, character, width)) && SameShape(Written(d, character, width), d)
  {
  }

  lemma MarkKeeps(d: Display, character: char)
    requires DisplayOk(d)
    ensures DisplayOk(Marked(d, character)) && SameShape(Marked(d, character), d)
  {
  }

  lemma PutKeeps(d: Display, character: char, width: Option<nat>)
    requires DisplayOk(d) && (width.Some? ==> width.value <= 2)
    ensures Placed(d, character, width).Some? ==>
      DisplayOk(Placed(d, character, width).value) && SameShape(Placed(d, character, width).value, d)
  {
    hide Wrapped, Written, Marked, DisplayOk;
    if width.Some? && width.value == 0 {
      MarkKeeps(d, character);
    } else if width.Some? && width.value <= d.columns {
      ShapeOf(d);
      NewLineKeeps(d);
      var at := if d.pendingWrap then Wrapped(d) else d;
      NewLineKeeps(at);
      var on := if at.column + width.value > d.columns then Wrapped(at) else at;
      WriteKeeps(on, character, width.value);
    }
  }

  lemma ShapeOf(d: Display)
    requires DisplayOk(d)
    ensures 1 <= d.columns && 1 <= d.rows && |d.lines| == d.rows && d.row < d.rows && d.column < d.columns
    ensures |d.lines[d.row]| == d.columns
  {
  }

  lemma TabKeeps(d: Display)
    requires DisplayOk(d)
    ensures DisplayOk(Tabbed(d)) && SameShape(Tabbed(d), d)
  {
  }

  lemma {:induction false} GraphicsOk(s: Style, parameters: seq<int>)
    requires StyleOk(s)
    ensures Graphics(s, parameters).Some? ==> StyleOk(Graphics(s, parameters).value)
    decreases |parameters|
  {
    if parameters != [] && parameters[0] in ALLOWED_GRAPHICS {
      GraphicsOk(Graphic(s, parameters[0]), parameters[1..]);
    }
  }

  // The last of the parameters that is one of these.
  function LastOf(parameters: seq<int>, among: set<int>): Option<int> {
    if parameters == [] then None
    else if parameters[|parameters| - 1] in among then Some(parameters[|parameters| - 1])
    else LastOf(parameters[..|parameters| - 1], among)
  }

  const WEIGHTS := {0, 1, 2}
  const FOREGROUNDS := {0, 30, 31, 32, 33, 34, 35, 36, 37, 39}
  const BACKGROUNDS := {0, 40, 41, 42, 43, 44, 45, 46, 47, 49}

  // What a list of parameters makes of a style: each part is what the last parameter about
  // it says, 0 being about all of them, and what none is about stays.
  predicate GraphicsTold(s: Style, parameters: seq<int>, after: Style) {
    var weight, ink, paper := LastOf(parameters, WEIGHTS), LastOf(parameters, FOREGROUNDS), LastOf(parameters, BACKGROUNDS);
    && after.bold == (if weight.None? then s.bold else weight.value == 1)
    && after.dim == (if weight.None? then s.dim else weight.value == 2)
    && after.foreground == (if ink.None? then s.foreground else if ink.value in {0, 39} then None else ink)
    && after.background == (if paper.None? then s.background else if paper.value in {0, 49} then None else paper)
  }

  lemma {:induction false} GraphicsAreLast(s: Style, parameters: seq<int>)
    requires Graphics(s, parameters).Some?
    ensures GraphicsTold(s, parameters, Graphics(s, parameters).value)
    decreases |parameters|
  {
    if |parameters| > 0 {
      var last := |parameters| - 1;
      GraphicsSplit(s, parameters[..last], parameters[last]);
      assert parameters == parameters[..last] + [parameters[last]];
      GraphicsAreLast(s, parameters[..last]);
    }
  }

  // One parameter that is not allowed spoils the whole list.
  lemma {:induction false} GraphicsAreAllowed(s: Style, parameters: seq<int>)
    ensures Graphics(s, parameters).Some? <==> forall i :: 0 <= i < |parameters| ==> parameters[i] in ALLOWED_GRAPHICS
    decreases |parameters|
  {
    hide Graphic, ALLOWED_GRAPHICS;
    if parameters != [] && parameters[0] in ALLOWED_GRAPHICS {
      GraphicsAreAllowed(Graphic(s, parameters[0]), parameters[1..]);
      assert forall i :: 1 <= i < |parameters| ==> parameters[i] == parameters[1..][i - 1];
    }
  }

  lemma {:induction false} GraphicsSplit(s: Style, parameters: seq<int>, last: int)
    ensures Graphics(s, parameters + [last]) ==
      if Graphics(s, parameters).None? || last !in ALLOWED_GRAPHICS then None else Some(Graphic(Graphics(s, parameters).value, last))
    decreases |parameters|
  {
    if parameters == [] {
      assert [last][1..] == [] && [] + [last] == [last];
    } else {
      assert (parameters + [last])[1..] == parameters[1..] + [last];
      if parameters[0] in ALLOWED_GRAPHICS {
        GraphicsSplit(Graphic(s, parameters[0]), parameters[1..], last);
      }
    }
  }

  datatype Op =
    | PutOp(character: char, width: Option<nat>)
    | LineFeedOp
    | CarriageReturnOp
    | BackspaceOp
    | TabOp
    | UpOp(count: nat)
    | EraseOp
    | GraphicsOp(parameters: seq<int>)

  function Apply(d: Display, op: Op): Option<Display>
    requires DisplayOk(d)
  {
    match op
    case PutOp(character, width) => Placed(d, character, width)
    case LineFeedOp => Some(Fed(d))
    case CarriageReturnOp => Some(Returned(d))
    case BackspaceOp => Some(SteppedBack(d))
    case TabOp => Some(Tabbed(d))
    case UpOp(count) => Some(Raised(d, count))
    case EraseOp => Some(Erased(d))
    case GraphicsOp(parameters) => Styled(d, parameters)
  }

  // Characters are at most two columns wide.
  predicate OpOk(op: Op) {
    op.PutOp? && op.width.Some? ==> op.width.value <= 2
  }

  lemma ApplyKeeps(d: Display, op: Op)
    requires DisplayOk(d) && OpOk(op)
    ensures Apply(d, op).Some? ==>
      DisplayOk(Apply(d, op).value) && Apply(d, op).value.columns == d.columns && Apply(d, op).value.rows == d.rows
  {
    match op {
      case PutOp(character, width) =>
        hide DisplayOk;
        PutKeeps(d, character, width);
      case TabOp =>
        hide DisplayOk;
        TabKeeps(d);
      case GraphicsOp(parameters) => GraphicsOk(d.style, if parameters == [] then [0] else parameters);
      case _ =>
    }
  }

  // Operations in order, until one is refused.
  function Play(d: Display, ops: seq<Op>): Option<Display>
    requires DisplayOk(d) && forall i :: 0 <= i < |ops| ==> OpOk(ops[i])
    decreases |ops|
  {
    if ops == [] then Some(d)
    else
      ApplyKeeps(d, ops[0]);
      var next := Apply(d, ops[0]);
      if next.None? then None else Play(next.value, ops[1..])
  }

  // After any operations the grid is rectangular with the cursor in it, and a wrap is
  // pending only in the last column.
  lemma {:induction false} PlayKeeps(d: Display, ops: seq<Op>)
    requires DisplayOk(d) && forall i :: 0 <= i < |ops| ==> OpOk(ops[i])
    ensures Play(d, ops).Some? ==>
      DisplayOk(Play(d, ops).value) && Play(d, ops).value.columns == d.columns && Play(d, ops).value.rows == d.rows
    decreases |ops|
  {
    if ops != [] {
      hide DisplayOk, Apply;
      ApplyKeeps(d, ops[0]);
      if Apply(d, ops[0]).Some? {
        PlayKeeps(Apply(d, ops[0]).value, ops[1..]);
      }
    }
  }

  lemma NewDisplayOk(columns: nat, rows: nat)
    requires 1 <= columns <= MAX_COLUMNS && 1 <= rows <= MAX_ROWS
    ensures DisplayOk(NewDisplay(columns, rows))
  {
  }

  // ----- the screen itself

  class Screen {
    const columns: nat
    const rows: nat
    var lines: seq<seq<Cell>>
    var row: nat
    var column: nat
    var pendingWrap: bool
    var style: Style

    ghost function Show(): Display
      reads this
    {
      Display(columns, rows, lines, row, column, pendingWrap, style)
    }

    ghost predicate Valid()
      reads this
    {
      DisplayOk(Show())
    }

    constructor (columns: nat, rows: nat)
      requires 1 <= columns <= MAX_COLUMNS && 1 <= rows <= MAX_ROWS
      ensures Valid() && Show() == NewDisplay(columns, rows)
    {
      this.columns := columns;
      this.rows := rows;
      lines := Repeat(Repeat(BLANK, columns), rows);
      row, column, pendingWrap, style := 0, 0, false, PLAIN;
    }

    // A geometry out of range is refused (lines 92-97).
    static method Create(columns: nat, rows: nat) returns (screen: Screen?)
      ensures screen != null <==> 1 <= columns <= MAX_COLUMNS && 1 <= rows <= MAX_ROWS
      ensures screen != null ==> fresh(screen) && screen.Valid() && screen.Show() == NewDisplay(columns, rows)
    {
      if !(1 <= columns <= MAX_COLUMNS) || !(1 <= rows <= MAX_ROWS) {
        return null;
      }
      screen := new Screen(columns, rows);
    }

    method ScrollIfNeeded()
      requires |lines| == rows && rows > 0 && row <= rows
      modifies this
      ensures row == (if old(row) < rows then old(row) else rows - 1)
      ensures lines == (if old(row) < rows then old(lines) else old(lines)[1..] + [Repeat(BLANK, columns)])
      ensures column == old(column) && pendingWrap == old(pendingWrap) && style == old(style)
    {
      while row >= rows
        invariant |lines| == rows && row <= rows
        invariant if row == old(row) then lines == old(lines)
          else row + 1 == old(row) == rows && lines == old(lines)[1..] + [Repeat(BLANK, columns)]
        invariant column == old(column) && pendingWrap == old(pendingWrap) && style == old(style)
        decreases row
      {
        lines := lines[1..];
        lines := lines + [Repeat(BLANK, columns)];
        row := row - 1;
      }
    }

    method LineFeed()
      requires |lines| == rows && row < rows
      modifies this
      ensures Show() == Fed(old(Show()))
      ensures row == (if old(row) == rows - 1 then old(row) else old(row) + 1) && column == old(column) && style == old(style)
      ensures old(row) < rows - 1 ==> lines == old(lines)
      ensures old(row) == rows - 1 ==> forall i :: 0 <= i < rows - 1 ==> lines[i] == old(lines)[i + 1]
    {
      row := row + 1;
      pendingWrap := false;
      ScrollIfNeeded();
    }

    method CarriageReturn()
      requires Valid()
      modifies this
      ensures Valid() && Show() == Returned(old(Show()))
      ensures column == 0 && row == old(row) && lines == old(lines) && style == old(style) && !pendingWrap
    {
      column := 0;
      pendingWrap := false;
    }

    method Backspace()
      requires Valid()
      modifies this
      ensures Valid() && Show() == SteppedBack(old(Show()))
      ensures column == old(column) == 0 || column + 1 == old(column)
      ensures row == old(row) && lines == old(lines) && style == old(style) && !pendingWrap
    {
      column := if column - 1 > 0 then column - 1 else 0;
      pendingWrap := false;
    }

    method CursorUp(count: nat)
      requires Valid()
      modifies this
      ensures Valid() && Show() == Raised(old(Show()), count)
      ensures row + count == old(row) || (row == 0 && old(row) < count)
      ensures column == old(column) && lines == old(lines) && style == old(style) && !pendingWrap
    {
      row := if row - count > 0 then row - count else 0;
      pendingWrap := false;
    }

    method EraseLine()
      requires Valid()
      modifies this
      ensures Valid() && Show() == Erased(old(Show()))
      ensures forall j :: 0 <= j < columns ==> lines[row][j] == Cell(" ", Style(None, None, false, false), false)
      ensures forall i :: 0 <= i < rows && i != row ==> lines[i] == old(lines)[i]
      ensures row == old(row) && column == old(column) && style == old(style) && !pendingWrap
    {
      lines := lines[row := Repeat(BLANK, columns)];
      pendingWrap := false;
    }

    // The style changes only when every parameter is allowed (lines 137-156).
    method SetGraphics(parameters: seq<int>) returns (ok: bool)
      requires Valid()
      modifies this
      ensures Valid()
      ensures ok == Styled(old(Show()), parameters).Some?
      ensures Show() == if ok then Styled(old(Show()), parameters).value else old(Show())
      ensures ok ==> GraphicsTold(old(style), if parameters == [] then [0] else parameters, style)
      ensures ok <==> forall i :: 0 <= i < |parameters| ==> parameters[i] in ALLOWED_GRAPHICS
    {
      var all := if parameters == [] then [0] else parameters;
      var next := style;
      for i := 0 to |all|
        invariant StyleOk(next) && Graphics(style, all) == Graphics(next, all[i..])
      {
        var parameter := all[i];
        assert all[i..][1..] == all[i + 1..];
        if parameter !in ALLOWED_GRAPHICS {
          assert parameters != [];
          return false;
        }
        if parameter == 0 {
          next := PLAIN;
        } else if parameter == 1 {
          next := next.(bold := true, dim := false);
        } else if parameter == 2 {
          next := next.(dim := true, bold := false);
        } else if 30 <= parameter <= 37 {
          next := next.(foreground := Some(parameter));
        } else if parameter == 39 {
          next := next.(foreground := None);
        } else if 40 <= parameter <= 47 {
          next := next.(background := Some(parameter));
        } else if parameter == 49 {
          next := next.(background := None);
        }
      }
      GraphicsAreLast(style, all);
      GraphicsAreAllowed(style, all);
      style := next;
      ok := true;
    }

    // Write one character (lines 158-181). A character too wide for the screen is
    // refused, but only after a pending wrap was carried out.
    method Put(character: char, width: Option<nat>) returns (ok: bool)
      requires Valid() && (width.Some? ==> width.value <= 2)
      modifies this
      ensures Valid()
      ensures ok == Placed(old(Show()), character, width).Some?
      ensures ok ==> Show() == Placed(old(Show()), character, width).value
      ensures !ok ==> Show() == old(Show()) || Show() == Wrapped(old(Show()))
    {
      hide Fed, DisplayOk;
      if width.None? {
        return false;
      }
      ShapeOf(Show());
      if width.value == 0 {
        MarkKeeps(Show(), character);
        var previous := if column - 1 > 0 then column - 1 else 0;
        var cell := lines[row][previous];
        lines := lines[row := lines[row][previous := cell.(text := cell.text + [character])]];
        return true;
      }
      NewLineKeeps(Show());
      if pendingWrap {
        column := 0;
        LineFeed();
      }
      if width.value > columns {
        return false;
      }
      NewLineKeeps(Show());
      if column + width.value > columns {
        column := 0;
        LineFeed();
      }
      ShapeOf(Show());
      WriteKeeps(Show(), character, width.value);
      Write(character, width.value);
      ok := true;
    }

    // The glyph at the cursor, and the cursor behind it or a wrap pending.
    method Write(character: char, width: nat)
      requires !pendingWrap && row < |lines| && |lines[row]| == columns && 1 <= width && column + width <= columns
      modifies this
      ensures Show() == Written(old(Show()), character, width)
      ensures lines[row][old(column)] == Cell([character], style, false)
      ensures width == 2 ==> lines[row][old(column) + 1] == Cell("", style, true)
      ensures forall j :: 0 <= j < columns && j != old(column) && (width == 2 ==> j != old(column) + 1) ==>
        lines[row][j] == old(lines)[row][j]
      ensures forall i :: 0 <= i < |lines| && i != row ==> lines[i] == old(lines)[i]
      ensures row == old(row) && (if pendingWrap then column + 1 == columns == old(column) + width else column == old(column) + width)
    {
      lines := lines[row := lines[row][column := Cell([character], style, false)]];
      if width == 2 {
        lines := lines[row := lines[row][column + 1 := Cell("", style, true)]];
      }
      var end := column + width;
      if end == columns {
        column := columns - 1;
        pendingWrap := true;
      } else {
        column := end;
      }
    }

    // Blanks up to the next tab stop, put one by one (lines 124-127).
    method Tab()
      requires Valid()
      modifies this
      ensures Valid() && Show() == Tabbed(old(Show()))
      ensures TabTold(old(Show()), Show())
    {
      hide DisplayOk, Placed, Blanked;
      ShapeOf(Show());
      var stop := (column / 8 + 1) * 8;
      var target := if columns - 1 < stop then columns - 1 else stop;
      while column < target
        invariant Valid() && Blanked(Show(), target) == Blanked(old(Show()), target)
        decreases target - column
      {
        BlankStep(Show(), target);
        var ok := Put(' ', Some(1));
      }
      BlankEnds(Show(), target);
      TabIsNextStop(old(Show()));
    }
  }

  // A tab moves to the first multiple of eight behind the cursor, or to the last column
  // where there is none, and blanks what it passes over.
  predicate TabTold(before: Display, after: Display) {
    && after == before.(lines := after.lines, column := after.column, pendingWrap := after.pendingWrap)
    && before.row < |before.lines| == |after.lines| && |before.lines[before.row]| == |after.lines[before.row]| == before.columns
    && (before.column < after.column < before.columns || before.column == after.column == before.columns - 1)
    && (after.column % 8 == 0 || after.column == before.columns - 1)
    && (forall j :: before.column < j < after.column ==> j % 8 != 0)
    && (forall j :: 0 <= j < before.columns ==>
          after.lines[before.row][j] ==
            if before.column <= j < after.column then Cell(" ", before.style, false) else before.lines[before.row][j])
    && forall i :: 0 <= i < |before.lines| && i != before.row ==> after.lines[i] == before.lines[i]
  }

  lemma TabIsNextStop(d: Display)
    requires DisplayOk(d)
    ensures TabTold(d, Tabbed(d))
  {
    assert TabTarget(d) % 8 == 0 || TabTarget(d) == d.columns - 1;
    assert forall j :: d.column < j < TabTarget(d) ==> j % 8 != 0;
  }

  // One blank brings the cursor one column closer.
  lemma BlankStep(d: Display, target: nat)
    requires DisplayOk(d) && d.column < target < d.columns
    ensures
      var next := Placed(d, ' ', Some(1));
      && next.Some? && DisplayOk(next.value) && next.value.column == d.column + 1
      && Blanked(next.value, target) == Blanked(d, target)
  {
    var next := Placed(d, ' ', Some(1)).value;
    var line, blank := d.lines[d.row], Cell(" ", d.style, false);
    assert next.lines[d.row] == line[d.column := blank];
    assert Repeat(blank, target - d.column) == [blank] + Repeat(blank, target - d.column - 1);
    assert line[d.column := blank][..d.column + 1] == line[..d.column] + [blank];
    assert line[d.column := blank][target..] == line[target..];
    assert Blanked(next, target).lines == Blanked(d, target).lines by {
      assert Blanked(next, target).lines[d.row] == Blanked(d, target).lines[d.row];
    }
  }

  lemma BlankEnds(d: Display, target: nat)
    requires DisplayOk(d) && d.column >= target && target < d.columns
    ensures Blanked(d, target) == d
  {
  }
}
