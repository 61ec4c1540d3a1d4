// Cutting a terminal transcript into text, control sequences and control characters, and
// replaying it (scripts/render-terminal-snapshot.py:184-263; control sequences as in
// section 5.4 of ECMA-48). Decoding UTF-8 and reading decimal parameters are parameters;
// the source's errors all read as a refusal.
module TranscriptModel {
  import opened Common
  import opened ScreenModel

  const MAX_INPUT_BYTES: nat := 1_048_576
  const MAX_CSI_BYTES: nat := 16
  const ESCAPE: byte := 0x1B
  const BRACKET: byte := 0x5B

  predicate IsPrintable(b: byte) {
    b >= 0x20 && b != 0x7F
  }

  predicate IsFinal(b: byte) {
    0x40 <= b <= 0x7E
  }

  predicate IsControl(b: byte) {
    b == 0x0D || b == 0x0A || b == 0x09 || b == 0x08
  }

  // ----- cutting

  datatype Token =
    | Text(bytes: seq<byte>)
    | Csi(sequence: seq<byte>)
    | Control(code: byte)

  // The index of the first byte that ends a control sequence, or the length.
  function FinalAt(s: seq<byte>): (n: nat)
    ensures n <= |s| && (forall i :: 0 <= i < n ==> !IsFinal(s[i])) && (n < |s| ==> IsFinal(s[n]))
  {
    if s == [] || IsFinal(s[0]) then 0 else 1 + FinalAt(s[1..])
  }

  function Flushed(printable: seq<byte>): seq<Token> {
    if printable == [] then [] else [Text(printable)]
  }

  function After(tokens: seq<Token>, rest: Option<seq<Token>>): Option<seq<Token>> {
    if rest.None? then None else Some(tokens + rest.value)
  }

  predicate StartsSequence(s: seq<byte>) {
    && |s| >= 2 && s[0] == ESCAPE && s[1] == BRACKET
    && FinalAt(s[2..]) < |s| - 2 && FinalAt(s[2..]) < MAX_CSI_BYTES
  }

  // The tokens of the bytes, with the printable bytes gathered before them.
  function ScanFrom(printable: seq<byte>, s: seq<byte>): Option<seq<Token>>
    decreases |s|
  {
    if s == [] then Some(Flushed(printable))
    else if IsPrintable(s[0]) then ScanFrom(printable + [s[0]], s[1..])
    else if StartsSequence(s) then
      var end := 2 + FinalAt(s[2..]) + 1;
      After(Flushed(printable) + [Csi(s[2..end])], ScanFrom([], s[end..]))
    else if IsControl(s[0]) then After(Flushed(printable) + [Control(s[0])], ScanFrom([], s[1..]))
    else None
  }

  function Scan(s: seq<byte>): Option<seq<Token>> {
    ScanFrom([], s)
  }

  // ----- the cut is exact

  function TokenBytes(t: Token): seq<byte> {
    match t
    case Text(bytes) => bytes
    case Csi(sequence) => [ESCAPE, BRACKET] + sequence
    case Control(code) => [code]
  }

  function Encode(tokens: seq<Token>): seq<byte> {
    if tokens == [] then [] else TokenBytes(tokens[0]) + Encode(tokens[1..])
  }

  predicate TokenOk(t: Token) {
    match t
    case Text(bytes) => bytes != [] && forall i :: 0 <= i < |bytes| ==> 0x20 <= bytes[i] != 0x7F
    case Csi(sequence) =>
      && 1 <= |sequence| <= 16 && 0x40 <= sequence[|sequence| - 1] <= 0x7E
      && forall i :: 0 <= i < |sequence| - 1 ==> !(0x40 <= sequence[i] <= 0x7E)
    case Control(code) => code in {0x0D, 0x0A, 0x09, 0x08}
  }

  // Tokens as they come from bytes: no two texts side by side.
  predicate Normal(tokens: seq<Token>) {
    && (forall i :: 0 <= i < |tokens| ==> TokenOk(tokens[i]))
    && (forall i :: 0 <= i < |tokens| - 1 ==> !(tokens[i].Text? && tokens[i + 1].Text?))
  }

  lemma FinalIs(s: seq<byte>, n: nat)
    requires n <= |s| && (forall i :: 0 <= i < n ==> !IsFinal(s[i])) && (n < |s| ==> IsFinal(s[n]))
    ensures FinalAt(s) == n
  {
  }

  predicate AllPrintable(s: seq<byte>) {
    forall i :: 0 <= i < |s| ==> IsPrintable(s[i])
  }

  lemma EncodeAppends(a: seq<Token>, b: seq<Token>)
    ensures Encode(a + b) == Encode(a) + Encode(b)
  {
    if a == [] {
      assert a + b == b;
    } else {
      assert (a + b)[1..] == a[1..] + b;
      EncodeAppends(a[1..], b);
    }
  }

  lemma EncodeFlushed(printable: seq<byte>, t: Token)
    ensures Encode(Flushed(printable)) == printable && Encode(Flushed(printable) + [t]) == printable + TokenBytes(t)
  {
    assert Encode([t]) == TokenBytes(t) + Encode([]);
    assert [Text(printable)][1..] == [];
    EncodeAppends(Flushed(printable), [t]);
  }

  lemma Gather(printable: seq<byte>, s: seq<byte>)
    requires s != [] && AllPrintable(printable) && IsPrintable(s[0])
    ensures AllPrintable(printable + [s[0]]) && (printable + [s[0]]) + s[1..] == printable + s
  {
  }

  // One token cut off, and the rest.
  lemma CutOff(printable: seq<byte>, t: Token, rest: seq<Token>)
    requires AllPrintable(printable) && TokenOk(t) && !t.Text? && Normal(rest)
    ensures
      var all := Flushed(printable) + [t] + rest;
      Normal(all) && Encode(all) == printable + (TokenBytes(t) + Encode(rest))
  {
    hide Encode;
    EncodeFlushed(printable, t);
    EncodeAppends(Flushed(printable) + [t], rest);
  }

  // The tokens are the input, whole and in order, and in normal form.
  lemma {:induction false} ScanIsExact(printable: seq<byte>, s: seq<byte>)
    requires AllPrintable(printable)
    ensures
      var scanned := ScanFrom(printable, s);
      scanned.Some? ==> Normal(scanned.value) && Encode(scanned.value) == printable + s
    decreases |s|
  {
    hide Encode, Normal, AllPrintable, FinalAt, TokenOk;
    if s == [] {
      NoneLeft(printable);
    } else if IsPrintable(s[0]) {
      Gather(printable, s);
      ScanIsExact(printable + [s[0]], s[1..]);
    } else if StartsSequence(s) {
      var end := 2 + FinalAt(s[2..]) + 1;
      SequenceOk(s);
      NothingGathered();
      ScanIsExact([], s[end..]);
      if ScanFrom([], s[end..]).Some? {
        CutOff(printable, Csi(s[2..end]), ScanFrom([], s[end..]).value);
        assert s == [ESCAPE, BRACKET] + s[2..end] + ([] + s[end..]);
      }
    } else if IsControl(s[0]) {
      NothingGathered();
      ScanIsExact([], s[1..]);
      ControlOk(s[0]);
      if ScanFrom([], s[1..]).Some? {
        CutOff(printable, Control(s[0]), ScanFrom([], s[1..]).value);
        assert s == [s[0]] + ([] + s[1..]);
      }
    }
  }

  lemma ControlOk(code: byte)
    requires IsControl(code)
    ensures TokenOk(Control(code))
  {
  }

  lemma NothingGathered()
    ensures AllPrintable([])
  {
  }

  lemma NoneLeft(printable: seq<byte>)
    requires AllPrintable(printable)
    ensures Normal(Flushed(printable)) && Encode(Flushed(printable)) == printable + []
  {
    EncodeFlushed(printable, Control(8));
  }

  lemma SequenceOk(s: seq<byte>)
    requires StartsSequence(s)
    ensures TokenOk(Csi(s[2..2 + FinalAt(s[2..]) + 1]))
  {
    var sequence := s[2..2 + FinalAt(s[2..]) + 1];
    assert sequence == s[2..][..FinalAt(s[2..]) + 1];
  }

  lemma {:induction false} TextScans(printable: seq<byte>, bytes: seq<byte>, rest: seq<byte>)
    requires AllPrintable(bytes)
    ensures ScanFrom(printable, bytes + rest) == ScanFrom(printable + bytes, rest)
    decreases |bytes|
  {
    if bytes == [] {
      assert bytes + rest == rest && printable + bytes == printable;
    } else {
      assert (bytes + rest)[1..] == bytes[1..] + rest;
      assert (printable + [bytes[0]]) + bytes[1..] == printable + bytes;
      TextScans(printable + [bytes[0]], bytes[1..], rest);
    }
  }

  lemma AfterBoth(a: seq<Token>, b: seq<Token>, rest: Option<seq<Token>>)
    ensures After(a + b, rest) == After(a, After(b, rest)) && After([], rest) == rest
  {
    if rest.Some? {
      assert (a + b) + rest.value == a + (b + rest.value) && [] + rest.value == rest.value;
    }
  }

  lemma FlushedNone(t: Token)
    ensures Flushed([]) + [t] == [t]
  {
  }

  // What was gathered goes before the next control.
  lemma FlushFirst(printable: seq<byte>, s: seq<byte>)
    requires s != [] && !IsPrintable(s[0])
    ensures ScanFrom(printable, s) == After(Flushed(printable), ScanFrom([], s))
  {
    hide After, Flushed, FinalAt;
    if StartsSequence(s) {
      var end := 2 + FinalAt(s[2..]) + 1;
      AfterBoth(Flushed(printable), [Csi(s[2..end])], ScanFrom([], s[end..]));
      FlushedNone(Csi(s[2..end]));
    } else if IsControl(s[0]) {
      AfterBoth(Flushed(printable), [Control(s[0])], ScanFrom([], s[1..]));
      FlushedNone(Control(s[0]));
    } else {
      NoneAfter(Flushed(printable));
    }
  }

  lemma NoneAfter(tokens: seq<Token>)
    ensures After(tokens, None) == None
  {
  }

  lemma CsiScans(sequence: seq<byte>, rest: seq<byte>)
    requires TokenOk(Csi(sequence))
    ensures ScanFrom([], [ESCAPE, BRACKET] + sequence + rest) == After([Csi(sequence)], ScanFrom([], rest))
  {
    var s := [ESCAPE, BRACKET] + sequence + rest;
    assert s[2..] == sequence + rest;
    FinalIs(s[2..], |sequence| - 1);
    assert s[2..2 + |sequence|] == sequence && s[2 + |sequence|..] == rest;
    FlushedNone(Csi(sequence));
  }

  lemma ControlScans(code: byte, rest: seq<byte>)
    requires IsControl(code)
    ensures ScanFrom([], [code] + rest) == After([Control(code)], ScanFrom([], rest))
  {
    assert ([code] + rest)[1..] == rest;
    FlushedNone(Control(code));
  }

  lemma TextThen(bytes: seq<byte>, tokens: seq<Token>)
    requires Normal([Text(bytes)] + tokens)
    ensures ScanFrom([], bytes + Encode(tokens)) == After([Text(bytes)], ScanFrom([], Encode(tokens)))
  {
    assert ([Text(bytes)] + tokens)[0] == Text(bytes);
    TextScans([], bytes, Encode(tokens));
    assert [] + bytes == bytes;
    if tokens == [] {
      assert [Text(bytes)] + [] == [Text(bytes)];
    } else {
      assert ([Text(bytes)] + tokens)[1] == tokens[0] && TokenOk(tokens[0]);
      FlushFirst(bytes, Encode(tokens));
    }
  }

  // Cutting undoes joining: every normal list of tokens is found again.
  lemma {:induction false} ScanInverts(tokens: seq<Token>)
    requires Normal(tokens)
    ensures Scan(Encode(tokens)) == Some(tokens)
  {
    if tokens != [] {
      hide ScanFrom;
      var t, rest := tokens[0], tokens[1..];
      assert [t] + rest == tokens && TokenOk(t);
      ScanInverts(rest);
      match t {
        case Text(bytes) => TextThen(bytes, rest);
        case Csi(sequence) => CsiScans(sequence, Encode(rest));
        case Control(code) => ControlScans(code, Encode(rest));
      }
    }
  }

  // ----- replaying

  // The width of a character, from the Unicode tables.
  datatype Width = Unsupported | Zero | One | Two

  function ColumnsOf(w: Width): Option<nat> {
    match w
    case Unsupported => None
    case Zero => Some(0)
    case One => Some(1)
    case Two => Some(2)
  }

  datatype Glyph = Glyph(character: char, width: Width)

  datatype Codec = Codec(decode: seq<byte> -> Option<seq<Glyph>>, parameters: seq<byte> -> Option<seq<int>>)

  function TextOps(glyphs: seq<Glyph>): (ops: seq<Op>)
    ensures |ops| == |glyphs| && forall i :: 0 <= i < |ops| ==> OpOk(ops[i])
  {
    seq(|glyphs|, i requires 0 <= i < |glyphs| => PutOp(glyphs[i].character, ColumnsOf(glyphs[i].width)))
  }

  // The operations of a token, or nothing when it is not supported.
  function TokenOps(codec: Codec, t: Token): (ops: Option<seq<Op>>)
    ensures ops.Some? ==> forall i :: 0 <= i < |ops.value| ==> OpOk(ops.value[i])
  {
    match t
    case Text(bytes) =>
      var glyphs := codec.decode(bytes);
      if glyphs.None? then None else Some(TextOps(glyphs.value))
    case Control(code) =>
      if code == 0x0D then Some([CarriageReturnOp])
      else if code == 0x0A then Some([LineFeedOp])
      else if code == 0x09 then Some([TabOp])
      else if code == 0x08 then Some([BackspaceOp])
      else None
    case Csi(sequence) =>
      if sequence == [] then None
      else
        var final, body := sequence[|sequence| - 1], sequence[..|sequence| - 1];
        if final == 0x41 && body == [0x35] then Some([UpOp(5)])
        else if final == 0x4B && body == [0x32] then Some([EraseOp])
        else if final != 0x6D then None
        else
          var parameters := if body == [] then Some([]) else codec.parameters(body);
          if parameters.None? then None else Some([GraphicsOp(parameters.value)])
  }

  function Replay(codec: Codec, d: Display, tokens: seq<Token>): Option<Display>
    requires DisplayOk(d)
    decreases |tokens|
  {
    if tokens == [] then Some(d)
    else
      var ops := TokenOps(codec, tokens[0]);
      if ops.None? then None
      else
        PlayKeeps(d, ops.value);
        var next := Play(d, ops.value);
        if next.None? then None else Replay(codec, next.value, tokens[1..])
  }

  lemma {:induction false} ReplayKeeps(codec: Codec, d: Display, tokens: seq<Token>)
    requires DisplayOk(d)
    ensures Replay(codec, d, tokens).Some? ==> DisplayOk(Replay(codec, d, tokens).value)
    decreases |tokens|
  {
    if tokens != [] && TokenOps(codec, tokens[0]).Some? {
      hide DisplayOk, Play, TokenOps;
      var ops := TokenOps(codec, tokens[0]).value;
      PlayKeeps(d, ops);
      if Play(d, ops).Some? {
        ReplayKeeps(codec, Play(d, ops).value, tokens[1..]);
      }
    }
  }

  // What a transcript shows.
  function Transcript(codec: Codec, data: seq<byte>, columns: nat, rows: nat): Option<Display> {
    if |data| > MAX_INPUT_BYTES || !(1 <= columns <= MAX_COLUMNS) || !(1 <= rows <= MAX_ROWS) then None
    else
      NewDisplayOk(columns, rows);
      ReplayFrom(codec, NewDisplay(columns, rows), [], data)
  }

  // The rest of a replay, with the printable bytes gathered so far.
  function ReplayFrom(codec: Codec, d: Display, printable: seq<byte>, s: seq<byte>): Option<Display>
    requires DisplayOk(d)
  {
    var tokens := ScanFrom(printable, s);
    if tokens.None? then None else Replay(codec, d, tokens.value)
  }

  lemma PlayOne(d: Display, op: Op)
    requires DisplayOk(d) && OpOk(op)
    ensures Play(d, [op]) == Apply(d, op)
  {
    ApplyKeeps(d, op);
    assert [op][1..] == [];
  }

  lemma ReplayOne(codec: Codec, d: Display, t: Token)
    requires DisplayOk(d)
    ensures Replay(codec, d, [t]) == if TokenOps(codec, t).None? then None else Play(d, TokenOps(codec, t).value)
  {
    assert [t][1..] == [];
    if TokenOps(codec, t).Some? {
      PlayKeeps(d, TokenOps(codec, t).value);
    }
  }

  lemma {:induction false} ReplayAppends(codec: Codec, d: Display, a: seq<Token>, b: seq<Token>)
    requires DisplayOk(d)
    ensures Replay(codec, d, a).Some? ==> DisplayOk(Replay(codec, d, a).value)
    ensures Replay(codec, d, a + b) ==
      if Replay(codec, d, a).None? then None else Replay(codec, Replay(codec, d, a).value, b)
    decreases |a|
  {
    if a == [] {
      assert a + b == b;
    } else {
      hide DisplayOk, Play, TokenOps;
      assert (a + b)[1..] == a[1..] + b;
      var ops := TokenOps(codec, a[0]);
      if ops.Some? {
        PlayKeeps(d, ops.value);
        if Play(d, ops.value).Some? {
          ReplayAppends(codec, Play(d, ops.value).value, a[1..], b);
        }
      }
    }
  }

  // Tokens in front of what is still to be cut.
  lemma ReplaySplits(codec: Codec, d: Display, tokens: seq<Token>, rest: seq<byte>)
    requires DisplayOk(d)
    ensures
      var scanned := After(tokens, ScanFrom([], rest));
      var shown := Replay(codec, d, tokens);
      && (shown.Some? ==> DisplayOk(shown.value))
      && (if scanned.None? then None else Replay(codec, d, scanned.value))
        == if shown.None? then None else ReplayFrom(codec, shown.value, [], rest)
  {
    hide DisplayOk, Replay;
    ReplayKeeps(codec, d, tokens);
    if ScanFrom([], rest).Some? {
      ReplayAppends(codec, d, tokens, ScanFrom([], rest).value);
    }
  }

  // ----- one step of the replay

  lemma GatherReplays(codec: Codec, d: Display, printable: seq<byte>, s: seq<byte>)
    requires DisplayOk(d) && s != [] && IsPrintable(s[0])
    ensures ReplayFrom(codec, d, printable, s) == ReplayFrom(codec, d, printable + [s[0]], s[1..])
  {
  }

  lemma FlushReplays(codec: Codec, d: Display, printable: seq<byte>, s: seq<byte>)
    requires DisplayOk(d) && s != [] && !IsPrintable(s[0])
    ensures
      var shown := Replay(codec, d, Flushed(printable));
      && (shown.Some? ==> DisplayOk(shown.value))
      && ReplayFrom(codec, d, printable, s) == if shown.None? then None else ReplayFrom(codec, shown.value, [], s)
  {
    hide DisplayOk, Replay, ScanFrom;
    FlushFirst(printable, s);
    ReplaySplits(codec, d, Flushed(printable), s);
  }

  lemma LastReplays(codec: Codec, d: Display, printable: seq<byte>)
    requires DisplayOk(d)
    ensures ReplayFrom(codec, d, printable, []) == Replay(codec, d, Flushed(printable))
  {
  }

  lemma LoneEscape(codec: Codec, d: Display, s: seq<byte>)
    requires DisplayOk(d) && s != [] && s[0] == ESCAPE && (|s| < 2 || s[1] != BRACKET)
    ensures ReplayFrom(codec, d, [], s).None?
  {
  }

  lemma NoFinal(codec: Codec, d: Display, s: seq<byte>, n: nat)
    requires DisplayOk(d) && n + 2 <= |s| && s[0] == ESCAPE && s[1] == BRACKET
    requires (forall i :: 2 <= i < n + 2 ==> !IsFinal(s[i])) && (n > MAX_CSI_BYTES || n + 2 == |s|)
    ensures ReplayFrom(codec, d, [], s).None?
  {
    forall i | 0 <= i < n
      ensures !IsFinal(s[2..][i])
    {
      assert s[2..][i] == s[2 + i];
    }
    assert FinalAt(s[2..]) >= n;
  }

  lemma SequenceReplays(codec: Codec, d: Display, s: seq<byte>, n: nat)
    requires DisplayOk(d) && n + 2 < |s| && s[0] == ESCAPE && s[1] == BRACKET
    requires (forall i :: 2 <= i < n + 2 ==> !IsFinal(s[i])) && IsFinal(s[2 + n])
    ensures
      var sequence := s[2..2 + n + 1];
      var shown := Replay(codec, d, [Csi(sequence)]);
      && (shown.Some? ==> DisplayOk(shown.value))
      && ReplayFrom(codec, d, [], s) ==
           if |sequence| > MAX_CSI_BYTES || shown.None? then None
           else ReplayFrom(codec, shown.value, [], s[2 + n + 1..])
  {
    hide DisplayOk, Replay;
    FinalIs(s[2..], n);
    var sequence := s[2..2 + n + 1];
    FlushedNone(Csi(sequence));
    ReplaySplits(codec, d, [Csi(sequence)], s[2 + n + 1..]);
  }

  lemma ControlReplays(codec: Codec, d: Display, s: seq<byte>)
    requires DisplayOk(d) && s != [] && !IsPrintable(s[0]) && s[0] != ESCAPE
    ensures
      var shown := Replay(codec, d, [Control(s[0])]);
      && (shown.Some? ==> DisplayOk(shown.value))
      && ReplayFrom(codec, d, [], s) ==
           if !IsControl(s[0]) || shown.None? then None else ReplayFrom(codec, shown.value, [], s[1..])
  {
    hide DisplayOk, Replay;
    FlushedNone(Control(s[0]));
    ReplaySplits(codec, d, [Control(s[0])], s[1..]);
  }

  // Put the gathered text on the screen (lines 217-227).
  method FlushPrintable(codec: Codec, screen: Screen, printable: seq<byte>) returns (ok: bool)
    requires screen.Valid()
    modifies screen
    ensures screen.Valid()
    ensures ok == Replay(codec, old(screen.Show()), Flushed(printable)).Some?
    ensures ok ==> screen.Show() == Replay(codec, old(screen.Show()), Flushed(printable)).value
  {
    hide DisplayOk, Placed;
    if printable == [] {
      return true;
    }
    ReplayOne(codec, screen.Show(), Text(printable));
    var text := codec.decode(printable);
    if text.None? {
      return false;
    }
    ghost var ops := TextOps(text.value);
    for i := 0 to |text.value|
      invariant screen.Valid() && Play(screen.Show(), ops[i..]) == Play(old(screen.Show()), ops)
    {
      assert ops[i..][0] == ops[i] && ops[i..][1..] == ops[i + 1..];
      ok := screen.Put(text.value[i].character, ColumnsOf(text.value[i].width));
      if !ok {
        return false;
      }
    }
    ok := true;
  }

  // What an accepted control sequence does: five rows up, the row of the cursor blank, or
  // another style and nothing else.
  predicate CsiTold(sequence: seq<byte>, before: Display, after: Display) {
    if sequence == [0x35, 0x41] then
      && after == before.(row := after.row, pendingWrap := false)
      && (after.row + 5 == before.row || (after.row == 0 && before.row < 5))
    else if sequence == [0x32, 0x4B] then
      && before.row < |before.lines|
      && after == before.(lines := before.lines[before.row := Repeat(BLANK, before.columns)], pendingWrap := false)
    else
      && sequence != [] && sequence[|sequence| - 1] == 0x6D
      && after == before.(style := after.style) && (sequence == [0x6D] ==> after.style == PLAIN)
  }

  // What a control character does: back to the first column, one line down, on to the next
  // tab stop, or one column back.
  predicate ControlTold(code: byte, before: Display, after: Display) {
    match code
    case 0x0D => after == before.(column := 0, pendingWrap := false)
    case 0x0A =>
      if before.row + 1 < before.rows then after == before.(row := before.row + 1, pendingWrap := false)
      else (
        && |before.lines| > 0
        && after == before.(lines := before.lines[1..] + [Repeat(BLANK, before.columns)], pendingWrap := false))
    case 0x09 => TabTold(before, after)
    case 0x08 =>
      && after == before.(column := after.column, pendingWrap := false)
      && (after.column == before.column == 0 || after.column + 1 == before.column)
    case _ => false
  }

  // One control sequence (lines 184-207).
  method ParseCsi(codec: Codec, screen: Screen, sequence: seq<byte>) returns (ok: bool)
    requires screen.Valid() && sequence != []
    modifies screen
    ensures screen.Valid()
    ensures ok == (|sequence| <= MAX_CSI_BYTES && Replay(codec, old(screen.Show()), [Csi(sequence)]).Some?)
    ensures ok ==> screen.Show() == Replay(codec, old(screen.Show()), [Csi(sequence)]).value
    ensures ok ==> CsiTold(sequence, old(screen.Show()), screen.Show())
    ensures sequence in {[0x35, 0x41], [0x32, 0x4B], [0x6D]} ==> ok
  {
    hide DisplayOk;
    if |sequence| > MAX_CSI_BYTES {
      return false;
    }
    ReplayOne(codec, screen.Show(), Csi(sequence));
    var final, body := sequence[|sequence| - 1], sequence[..|sequence| - 1];
    if final == 0x41 && body == [0x35] {
      PlayOne(screen.Show(), UpOp(5));
      screen.CursorUp(5);
      return true;
    }
    if final == 0x4B && body == [0x32] {
      PlayOne(screen.Show(), EraseOp);
      ShapeOf(screen.Show());
      screen.EraseLine();
      return true;
    }
    if final != 0x6D {
      return false;
    }
    var parameters := if body == [] then Some([]) else codec.parameters(body);
    if parameters.None? {
      return false;
    }
    PlayOne(screen.Show(), GraphicsOp(parameters.value));
    ok := screen.SetGraphics(parameters.value);
  }

  // One control character (lines 248-261).
  method ControlCharacter(codec: Codec, screen: Screen, code: byte) returns (ok: bool)
    requires screen.Valid()
    modifies screen
    ensures screen.Valid()
    ensures ok == (IsControl(code) && Replay(codec, old(screen.Show()), [Control(code)]).Some?)
    ensures ok ==> screen.Show() == Replay(codec, old(screen.Show()), [Control(code)]).value
    ensures ok == (code in {0x0D, 0x0A, 0x09, 0x08}) && (ok ==> ControlTold(code, old(screen.Show()), screen.Show()))
  {
    hide DisplayOk;
    ReplayOne(codec, screen.Show(), Control(code));
    if code == 0x0D {
      PlayOne(screen.Show(), CarriageReturnOp);
      screen.CarriageReturn();
    } else if code == 0x0A {
      PlayOne(screen.Show(), LineFeedOp);
      FeedOk(screen.Show());
      screen.LineFeed();
    } else if code == 0x09 {
      PlayOne(screen.Show(), TabOp);
      screen.Tab();
    } else if code == 0x08 {
      PlayOne(screen.Show(), BackspaceOp);
      screen.Backspace();
    } else {
      return false;
    }
    ok := true;
  }

  lemma FeedOk(d: Display)
    requires DisplayOk(d)
    ensures |d.lines| == d.rows && d.row < d.rows && DisplayOk(Fed(d))
  {
  }

  // Find the end of a control sequence and obey it (lines 236-247).
  method ControlSequence(codec: Codec, screen: Screen, data: seq<byte>, index: nat) returns (ok: bool, next: nat)
    requires screen.Valid() && index < |data| && data[index] == ESCAPE
    modifies screen
    ensures screen.Valid()
    ensures !ok ==> ReplayFrom(codec, old(screen.Show()), [], data[index..]).None?
    ensures ok ==> index < next <= |data|
    ensures ok ==>
      ReplayFrom(codec, screen.Show(), [], data[next..]) == ReplayFrom(codec, old(screen.Show()), [], data[index..])
  {
    hide DisplayOk, ReplayFrom;
    ghost var s := data[index..];
    next := index;
    if index + 1 >= |data| || data[index + 1] != BRACKET {
      LoneEscape(codec, screen.Show(), s);
      return false, next;
    }
    var end := index + 2;
    while end < |data| && !IsFinal(data[end])
      invariant index + 2 <= end <= |data| && forall i :: 2 <= i < end - index ==> !IsFinal(s[i])
    {
      end := end + 1;
      if end - (index + 2) > MAX_CSI_BYTES {
        NoFinal(codec, screen.Show(), s, end - (index + 2));
        return false, next;
      }
    }
    if end >= |data| {
      NoFinal(codec, screen.Show(), s, end - (index + 2));
      return false, next;
    }
    SequenceReplays(codec, screen.Show(), s, end - (index + 2));
    assert data[index + 2..end + 1] == s[2..end + 1 - index] && s[end + 1 - index..] == data[end + 1..];
    ok := ParseCsi(codec, screen, data[index + 2..end + 1]);
    next := end + 1;
  }

  // Replay a whole transcript, or refuse it (lines 210-263).
  method ParseTranscript(codec: Codec, data: seq<byte>, columns: nat, rows: nat) returns (screen: Screen?)
    ensures screen != null <==> Transcript(codec, data, columns, rows).Some?
    ensures screen != null ==> fresh(screen) && screen.Valid()
    ensures screen != null ==> screen.Show() == Transcript(codec, data, columns, rows).value
  {
    hide DisplayOk, ReplayFrom, Replay;
    if |data| > MAX_INPUT_BYTES {
      return null;
    }
    var made := Screen.Create(columns, rows);
    if made == null {
      return null;
    }
    var index := 0;
    var printable: seq<byte> := [];
    ghost var whole := Transcript(codec, data, columns, rows);
    assert data[0..] == data;
    while index < |data|
      invariant index <= |data| && fresh(made) && made.Valid()
      invariant ReplayFrom(codec, made.Show(), printable, data[index..]) == whole
    {
      var code := data[index];
      ghost var s := data[index..];
      if IsPrintable(code) {
        GatherReplays(codec, made.Show(), printable, s);
        assert s[1..] == data[index + 1..];
        printable := printable + [code];
        index := index + 1;
        continue;
      }
      FlushReplays(codec, made.Show(), printable, s);
      var ok := FlushPrintable(codec, made, printable);
      printable := [];
      if !ok {
        return null;
      }
      if code == ESCAPE {
        ok, index := ControlSequence(codec, made, data, index);
        if !ok {
          return null;
        }
      } else {
        ControlReplays(codec, made.Show(), s);
        ok := ControlCharacter(codec, made, code);
        if !ok {
          return null;
        }
        assert s[1..] == data[index + 1..];
        index := index + 1;
      }
    }
    assert data[index..] == [];
    LastReplays(codec, made.Show(), printable);
    var ok := FlushPrintable(codec, made, printable);
    if !ok {
      return null;
    }
    screen := made;
  }
}
