// The record reader of the plugin examples: newline-terminated records cut out of reads
// of any size (examples/plugin_support/mod.rs:3 and 176-226). Parsing the JSON text of a
// record is an arbitrary predicate of its bytes.
module RecordReaderModel {
  import opened Common

  const MAX_RECORD_BYTES: nat := 131_072
  const BUFFER_BYTES: nat := 8192
  const NEWLINE: byte := 10
  const CARRIAGE_RETURN: byte := 13
  const OPEN_BRACE: byte := 123
  const CLOSE_BRACE: byte := 125

  datatype ReadError = TooLarge | BadFraming | BadJson | Partial | Broken

  // What one read of the input gives: some bytes, none at the end of the input, or an error.
  datatype Read = Bytes(data: seq<byte>) | Failure

  // The index of the first newline, or the length.
  function FirstNewline(s: seq<byte>): (n: nat)
    ensures n <= |s| && (forall i :: 0 <= i < n ==> s[i] != NEWLINE) && (n < |s| ==> s[n] == NEWLINE)
  {
    if s == [] || s[0] == NEWLINE then 0 else 1 + FirstNewline(s[1..])
  }

  predicate WellFramed(body: seq<byte>) {
    |body| > 0 && body[0] == OPEN_BRACE && body[|body| - 1] == CLOSE_BRACE
    && CARRIAGE_RETURN !in body && NEWLINE !in body
  }

  function Check(parses: seq<byte> -> bool, body: seq<byte>): Result<seq<byte>, ReadError> {
    if !WellFramed(body) then Err(BadFraming)
    else if !parses(body) then Err(BadJson)
    else Ok(body)
  }

  predicate Fits(input: seq<Read>) {
    forall i :: 0 <= i < |input| && input[i].Bytes? ==> |input[i].data| <= BUFFER_BYTES
  }

  // The outcome of one call: the answer, the bytes kept back and the reads left.
  datatype Next = Next(answer: Result<Option<seq<byte>>, ReadError>, pending: seq<byte>, input: seq<Read>)

  function Call(parses: seq<byte> -> bool, pending: seq<byte>, input: seq<Read>): Next
    decreases |input|
  {
    var end := FirstNewline(pending);
    if end < |pending| then
      if end + 1 > MAX_RECORD_BYTES then Next(Err(TooLarge), pending, input)
      else
        var checked := Check(parses, pending[..end]);
        Next(if checked.Ok? then Ok(Some(checked.value)) else Err(checked.error), pending[end + 1..], input)
    else if |pending| == MAX_RECORD_BYTES then Next(Err(TooLarge), pending, input)
    else if input == [] then Next(AtEnd(pending), pending, input)
    else match input[0]
      case Failure => Next(Err(Broken), pending, input[1..])
      case Bytes(data) =>
        if data == [] then Next(AtEnd(pending), pending, input[1..])
        else if |pending| + |data| > MAX_RECORD_BYTES then Next(Err(TooLarge), pending, input[1..])
        else Call(parses, pending + data, input[1..])
  }

  function AtEnd(pending: seq<byte>): Result<Option<seq<byte>>, ReadError> {
    if pending == [] then Ok(None) else Err(Partial)
  }

  // Everything read until the input ends or fails.
  datatype Outcome = Outcome(records: seq<seq<byte>>, error: Option<ReadError>)

  function Also(body: seq<byte>, rest: Outcome): Outcome {
    Outcome([body] + rest.records, rest.error)
  }

  function Run(parses: seq<byte> -> bool, pending: seq<byte>, input: seq<Read>): Outcome
    decreases |input|, |pending|
  {
    var end := FirstNewline(pending);
    if end < |pending| then
      if end + 1 > MAX_RECORD_BYTES then Outcome([], Some(TooLarge))
      else
        var checked := Check(parses, pending[..end]);
        if checked.Err? then Outcome([], Some(checked.error))
        else Also(checked.value, Run(parses, pending[end + 1..], input))
    else if |pending| == MAX_RECORD_BYTES then Outcome([], Some(TooLarge))
    else if input == [] then Ended(pending)
    else match input[0]
      case Failure => Outcome([], Some(Broken))
      case Bytes(data) =>
        if data == [] then Ended(pending)
        else if |pending| + |data| > MAX_RECORD_BYTES then Outcome([], Some(TooLarge))
        else Run(parses, pending + data, input[1..])
  }

  function Ended(pending: seq<byte>): Outcome {
    Outcome([], if pending == [] then None else Some(Partial))
  }

  // A run is one call after the other.
  lemma {:induction false} RunByCalls(parses: seq<byte> -> bool, pending: seq<byte>, input: seq<Read>)
    ensures
      var next := Call(parses, pending, input);
      Run(parses, pending, input) ==
        match next.answer
        case Ok(None) => Outcome([], None)
        case Ok(Some(body)) => Also(body, Run(parses, next.pending, next.input))
        case Err(e) => Outcome([], Some(e))
    decreases |input|
  {
    if FirstNewline(pending) == |pending| && |pending| != MAX_RECORD_BYTES && input != [] && input[0].Bytes?
      && input[0].data != [] && |pending| + |input[0].data| <= MAX_RECORD_BYTES {
      RunByCalls(parses, pending + input[0].data, input[1..]);
    }
  }

  function Unread(input: seq<Read>): nat {
    if input == [] then 0 else 1 + (if input[0].Bytes? then |input[0].data| else 0) + Unread(input[1..])
  }

  lemma {:induction false} CallShrinks(parses: seq<byte> -> bool, pending: seq<byte>, input: seq<Read>)
    ensures
      var next := Call(parses, pending, input);
      && (|pending| <= MAX_RECORD_BYTES ==> |next.pending| <= MAX_RECORD_BYTES)
      && (Fits(input) ==> Fits(next.input))
      && (next.answer.Ok? && next.answer.value.Some? ==>
            |next.pending| + Unread(next.input) < |pending| + Unread(input))
    decreases |input|
  {
    if FirstNewline(pending) == |pending| && |pending| != MAX_RECORD_BYTES && input != [] && input[0].Bytes?
      && input[0].data != [] && |pending| + |input[0].data| <= MAX_RECORD_BYTES {
      CallShrinks(parses, pending + input[0].data, input[1..]);
    }
  }

  class RecordReader {
    var pending: seq<byte>
    var input: seq<Read>
    const parses: seq<byte> -> bool

    ghost predicate Valid()
      reads this
    {
      |pending| <= MAX_RECORD_BYTES && Fits(input)
    }

    constructor (parses: seq<byte> -> bool, input: seq<Read>)
      requires Fits(input)
      ensures Valid() && pending == [] && this.input == input && this.parses == parses
    {
      this.parses := parses;
      this.input := input;
      pending := [];
    }

    // Read until the pending bytes hold a whole record (lines 189-226).
    method NextRecord() returns (answer: Result<Option<seq<byte>>, ReadError>)
      requires Valid()
      modifies this
      ensures Valid()
      ensures Next(answer, pending, input) == Call(parses, old(pending), old(input))
    {
      while true
        invariant Valid()
        invariant Call(parses, pending, input)
          == Call(parses, old(pending), old(input))
        decreases |input|
      {
        var end := FirstNewline(pending);
        if end < |pending| {
          end := end + 1;
          if end > MAX_RECORD_BYTES {
            return Err(TooLarge);
          }
          var record := pending[..end];
          assert record[..|record| - 1] == pending[..end - 1];
          pending := pending[end..];
          var checked := Check(parses, record[..|record| - 1]);
          if checked.Err? {
            return Err(checked.error);
          }
          return Ok(Some(checked.value));
        }
        if |pending| == MAX_RECORD_BYTES {
          return Err(TooLarge);
        }
        var count := if input == [] then Bytes([]) else input[0];
        input := if input == [] then [] else input[1..];
        if count.Failure? {
          return Err(Broken);
        }
        if |count.data| == 0 {
          return AtEnd(pending);
        }
        if |pending| + |count.data| > MAX_RECORD_BYTES {
          return Err(TooLarge);
        }
        pending := pending + count.data;
      }
    }

    // The host's loop: records until the input ends or a call fails (lines 37-97).
    method ReadAll() returns (outcome: Outcome)
      requires Valid()
      modifies this
      ensures Valid()
      ensures outcome == Run(parses, old(pending), old(input))
    {
      var records: seq<seq<byte>> := [];
      while true
        invariant Valid()
        invariant Outcome(records + Run(parses, pending, input).records, Run(parses, pending, input).error)
          == Run(parses, old(pending), old(input))
        decreases |pending| + Unread(input)
      {
        RunByCalls(parses, pending, input);
        CallShrinks(parses, pending, input);
        ghost var before := Run(parses, pending, input);
        var answer := NextRecord();
        match answer {
          case Err(e) =>
            return Outcome(records, Some(e));
          case Ok(None) =>
            return Outcome(records, None);
          case Ok(Some(body)) =>
            assert records + before.records == (records + [body]) + Run(parses, pending, input).records;
            records := records + [body];
        }
      }
    }
  }

  // ----- what a run means for the stream of bytes

  // The bytes before the input ends or fails.
  function Stream(input: seq<Read>): seq<byte> {
    if input == [] || input[0].Failure? || input[0].data == [] then [] else input[0].data + Stream(input[1..])
  }

  // The newline-terminated segments of a stream, without their newlines.
  function Segments(s: seq<byte>): seq<seq<byte>>
    decreases |s|
  {
    var end := FirstNewline(s);
    if end == |s| then [] else [s[..end]] + Segments(s[end + 1..])
  }

  lemma NewlineIs(s: seq<byte>, n: nat)
    requires n <= |s| && (forall i :: 0 <= i < n ==> s[i] != NEWLINE) && (n < |s| ==> s[n] == NEWLINE)
    ensures FirstNewline(s) == n
  {
  }

  // The first newline of a prefix is the first newline of the whole.
  lemma NewlineStays(s: seq<byte>, t: seq<byte>)
    requires FirstNewline(s) < |s|
    ensures FirstNewline(s + t) == FirstNewline(s)
    ensures (s + t)[..FirstNewline(s)] == s[..FirstNewline(s)]
    ensures (s + t)[FirstNewline(s) + 1..] == s[FirstNewline(s) + 1..] + t
  {
    NewlineIs(s + t, FirstNewline(s));
  }

  // The first record of a run comes from the bytes at hand, or more bytes are read, or
  // nothing comes.
  lemma RunRecords(parses: seq<byte> -> bool, pending: seq<byte>, input: seq<Read>)
    ensures
      var end := FirstNewline(pending);
      var records := Run(parses, pending, input).records;
      if end < |pending| then records == [] || records == [pending[..end]] + Run(parses, pending[end + 1..], input).records
      else if MayRead(pending, input) then records == Run(parses, pending + input[0].data, input[1..]).records
      else records == []
  {
    CheckKeeps(parses, pending[..FirstNewline(pending)]);
  }

  predicate MayRead(pending: seq<byte>, input: seq<Read>) {
    && |pending| != MAX_RECORD_BYTES && input != [] && input[0].Bytes? && input[0].data != []
    && |pending| + |input[0].data| <= MAX_RECORD_BYTES
  }

  lemma FirstSegment(s: seq<byte>, t: seq<byte>)
    requires FirstNewline(s) < |s|
    ensures Segments(s + t) == [s[..FirstNewline(s)]] + Segments(s[FirstNewline(s) + 1..] + t)
  {
    NewlineStays(s, t);
  }

  // However the input is cut into reads, the records are leading segments of the
  // stream, in order.
  lemma {:induction false} RecordsAreSegments(parses: seq<byte> -> bool, pending: seq<byte>, input: seq<Read>)
    ensures Run(parses, pending, input).records <= Segments(pending + Stream(input))
    decreases |input|, |pending|
  {
    hide FirstNewline, Run, Stream, Segments;
    RunRecords(parses, pending, input);
    var end := FirstNewline(pending);
    if end < |pending| {
      FirstSegment(pending, Stream(input));
      RecordsAreSegments(parses, pending[end + 1..], input);
    } else if MayRead(pending, input) {
      StreamSplits(pending, input);
      RecordsAreSegments(parses, pending + input[0].data, input[1..]);
    }
  }

  lemma CheckKeeps(parses: seq<byte> -> bool, body: seq<byte>)
    ensures Check(parses, body).Ok? ==> Check(parses, body).value == body && WellFramed(body) && parses(body)
  {
  }

  lemma StreamSplits(pending: seq<byte>, input: seq<Read>)
    requires input != [] && input[0].Bytes? && input[0].data != []
    ensures pending + Stream(input) == (pending + input[0].data) + Stream(input[1..])
  {
  }

  // The reference no read size enters; SinglyFrames shows that it is what one byte at a
  // time gives.
  function Framing(parses: seq<byte> -> bool, s: seq<byte>): Outcome
    decreases |s|
  {
    var end := FirstNewline(s);
    if end >= MAX_RECORD_BYTES then Outcome([], Some(TooLarge))
    else if end == |s| then Ended(s)
    else
      var checked := Check(parses, s[..end]);
      if checked.Err? then Outcome([], Some(checked.error)) else Also(checked.value, Framing(parses, s[end + 1..]))
  }

  // No read can overflow the buffer: whichever read brings the newline of a record, the
  // record and the rest of the read fit.
  predicate Roomy(parses: seq<byte> -> bool, s: seq<byte>)
    decreases |s|
  {
    var end := FirstNewline(s);
    end < MAX_RECORD_BYTES && end < |s| ==>
      && (end + BUFFER_BYTES <= MAX_RECORD_BYTES || |s| <= MAX_RECORD_BYTES)
      && (Check(parses, s[..end]).Ok? ==> Roomy(parses, s[end + 1..]))
  }

  // A way to cut the stream into reads of 1 to 8192 bytes.
  predicate Splits(input: seq<Read>, s: seq<byte>) {
    && (forall i :: 0 <= i < |input| ==> input[i].Bytes? && 1 <= |input[i].data| <= BUFFER_BYTES)
    && Stream(input) == s
  }

  lemma NoNewline(s: seq<byte>, t: seq<byte>)
    requires FirstNewline(s) == |s|
    ensures FirstNewline(s + t) >= |s|
  {
    forall i | 0 <= i < |s|
      ensures (s + t)[i] != NEWLINE
    {
    }
  }

  lemma {:induction false} RoomyRuns(parses: seq<byte> -> bool, pending: seq<byte>, input: seq<Read>)
    requires Splits(input, Stream(input)) && |pending| <= MAX_RECORD_BYTES && Roomy(parses, pending + Stream(input))
    ensures Run(parses, pending, input) == Framing(parses, pending + Stream(input))
    decreases |input|, |pending|
  {
    var s := pending + Stream(input);
    var end := FirstNewline(pending);
    if end < |pending| {
      NewlineStays(pending, Stream(input));
      if Check(parses, pending[..end]).Ok? {
        RoomyRuns(parses, pending[end + 1..], input);
      }
    } else {
      NoNewline(pending, Stream(input));
      if |pending| < MAX_RECORD_BYTES {
        if input == [] {
          assert s == pending;
        } else {
          var data := input[0].data;
          assert s == (pending + data) + Stream(input[1..]);
          if |pending| + |data| <= MAX_RECORD_BYTES {
            RoomyRuns(parses, pending + data, input[1..]);
          }
        }
      }
    }
  }

  // ----- when the cut does matter

  // One byte at a time.
  function Singly(s: seq<byte>): (input: seq<Read>)
    ensures Splits(input, s)
  {
    if s == [] then [] else [Bytes([s[0]])] + Singly(s[1..])
  }

  lemma {:induction false} StreamAppends(a: seq<Read>, b: seq<Read>, s: seq<byte>, t: seq<byte>)
    requires Splits(a, s) && Splits(b, t)
    ensures Splits(a + b, s + t)
  {
    if a == [] {
      assert a + b == b && s + t == t;
    } else {
      assert (a + b)[1..] == a[1..] + b;
      StreamAppends(a[1..], b, s[|a[0].data|..], t);
      assert s + t == a[0].data + (s[|a[0].data|..] + t);
    }
  }

  lemma ByteGathers(parses: seq<byte> -> bool, pending: seq<byte>, data: seq<byte>, input: seq<Read>)
    requires FirstNewline(pending) == |pending| < MAX_RECORD_BYTES && data != []
    requires |pending| + |data| <= MAX_RECORD_BYTES
    ensures Run(parses, pending, [Bytes(data)] + input) == Run(parses, pending + data, input)
  {
    hide FirstNewline;
    assert ([Bytes(data)] + input)[1..] == input;
  }

  // Single bytes without a newline only gather.
  lemma {:induction false} SinglyGathers(parses: seq<byte> -> bool, pending: seq<byte>, s: seq<byte>, input: seq<Read>)
    requires NEWLINE !in pending && NEWLINE !in s && |pending| + |s| < MAX_RECORD_BYTES
    ensures Run(parses, pending, Singly(s) + input) == Run(parses, pending + s, input)
    decreases |s|
  {
    hide Run, FirstNewline;
    if s == [] {
      assert pending + s == pending && Singly(s) + input == input;
    } else {
      NewlineIs(pending, |pending|);
      assert Singly(s) + input == [Bytes([s[0]])] + (Singly(s[1..]) + input);
      ByteGathers(parses, pending, [s[0]], Singly(s[1..]) + input);
      assert (pending + [s[0]]) + s[1..] == pending + s;
      SinglyGathers(parses, pending + [s[0]], s[1..], input);
    }
  }

  lemma RecordGathers(parses: seq<byte> -> bool, s: seq<byte>, data: seq<byte>, input: seq<Read>)
    requires FirstNewline(s) == |s| < MAX_RECORD_BYTES && data != []
    ensures Run(parses, [], Singly(s) + ([Bytes(data)] + input)) ==
      if |s| + |data| > MAX_RECORD_BYTES then Outcome([], Some(TooLarge)) else Run(parses, s + data, input)
  {
    assert [] + s == s;
    SinglyGathers(parses, [], s, [Bytes(data)] + input);
    assert ([Bytes(data)] + input)[1..] == input;
  }

  // The bytes before the newline one by one, then a full buffer: too large for the rest.
  lemma OverflowCut(parses: seq<byte> -> bool, s: seq<byte>) returns (input: seq<Read>)
    requires MAX_RECORD_BYTES - BUFFER_BYTES < FirstNewline(s) < MAX_RECORD_BYTES < |s|
    ensures Splits(input, s) && Run(parses, [], input) == Outcome([], Some(TooLarge))
  {
    hide Run, Splits, Stream;
    var end := FirstNewline(s);
    var count := if |s| - end < BUFFER_BYTES then |s| - end else BUFFER_BYTES;
    var body, full, rest := s[..end], s[end..end + count], s[end + count..];
    NewlineIs(body, end);
    OneRead(full);
    StreamAppends([Bytes(full)], Singly(rest), full, rest);
    StreamAppends(Singly(body), [Bytes(full)] + Singly(rest), body, full + rest);
    assert body + (full + rest) == s;
    RecordGathers(parses, body, full, Singly(rest));
    input := Singly(body) + ([Bytes(full)] + Singly(rest));
  }

  lemma OneRead(data: seq<byte>)
    requires 1 <= |data| <= BUFFER_BYTES
    ensures Splits([Bytes(data)], data)
  {
    assert [Bytes(data)][1..] == [];
    assert data + [] == data;
  }

  // A first record read byte by byte puts a later overflow off.
  lemma LaterCut(parses: seq<byte> -> bool, s: seq<byte>, others: seq<Read>) returns (input: seq<Read>)
    requires FirstNewline(s) < |s| && FirstNewline(s) < MAX_RECORD_BYTES
    requires Check(parses, s[..FirstNewline(s)]).Ok? && Splits(others, s[FirstNewline(s) + 1..])
    ensures Splits(input, s) && Run(parses, [], input) == Also(s[..FirstNewline(s)], Run(parses, [], others))
  {
    hide Run, Splits, Stream, Check;
    var end := FirstNewline(s);
    var body, after := s[..end], s[end + 1..];
    NewlineIs(body, end);
    OneRead([NEWLINE]);
    StreamAppends([Bytes([NEWLINE])], others, [NEWLINE], after);
    StreamAppends(Singly(body), [Bytes([NEWLINE])] + others, body, [NEWLINE] + after);
    assert body + ([NEWLINE] + after) == s;
    RecordGathers(parses, body, [NEWLINE], others);
    OneRecord(parses, body, others);
    input := Singly(body) + ([Bytes([NEWLINE])] + others);
  }

  // A stream that is not roomy has a cut whose outcome is another.
  lemma {:induction false} CrampedOutcome(parses: seq<byte> -> bool, s: seq<byte>) returns (input: seq<Read>)
    requires !Roomy(parses, s)
    ensures Splits(input, s) && Run(parses, [], input) != Framing(parses, s)
    decreases |s|
  {
    hide Run, Splits, FirstNewline, WellFramed;
    var end := FirstNewline(s);
    if end + BUFFER_BYTES > MAX_RECORD_BYTES && |s| > MAX_RECORD_BYTES {
      input := OverflowCut(parses, s);
    } else {
      CheckKeeps(parses, s[..end]);
      var others := CrampedOutcome(parses, s[end + 1..]);
      input := LaterCut(parses, s, others);
      AlsoTells(s[..end], Run(parses, [], others), Framing(parses, s[end + 1..]));
    }
  }

  lemma AlsoTells(body: seq<byte>, a: Outcome, b: Outcome)
    requires a != b
    ensures Also(body, a) != Also(body, b)
  {
    assert Also(body, a).records[1..] == a.records && Also(body, b).records[1..] == b.records;
  }

  lemma OneRecord(parses: seq<byte> -> bool, body: seq<byte>, input: seq<Read>)
    requires FirstNewline(body) == |body| < MAX_RECORD_BYTES && Check(parses, body).Ok?
    ensures Run(parses, body + [NEWLINE], input) == Also(body, Run(parses, [], input))
  {
    RecordRuns(parses, body, input);
  }

  // What a record leads to, good or bad.
  function After(parses: seq<byte> -> bool, body: seq<byte>, rest: Outcome): Outcome {
    var checked := Check(parses, body);
    if checked.Err? then Outcome([], Some(checked.error)) else Also(checked.value, rest)
  }

  lemma RecordRuns(parses: seq<byte> -> bool, body: seq<byte>, input: seq<Read>)
    requires FirstNewline(body) == |body| < MAX_RECORD_BYTES
    ensures Run(parses, body + [NEWLINE], input) == After(parses, body, Run(parses, [], input))
  {
    hide Check;
    var pending := body + [NEWLINE];
    NewlineIs(pending, |body|);
    assert pending[..|body|] == body && pending[|body| + 1..] == [];
  }

  lemma RecordFrames(parses: seq<byte> -> bool, body: seq<byte>, rest: seq<byte>)
    requires FirstNewline(body) == |body| < MAX_RECORD_BYTES
    ensures Framing(parses, body + ([NEWLINE] + rest)) == After(parses, body, Framing(parses, rest))
  {
    hide Check;
    var s := body + ([NEWLINE] + rest);
    NewlineIs(s, |body|);
    assert s[..|body|] == body && s[|body| + 1..] == rest;
  }

  // Read one byte at a time, no read can overflow the buffer.
  lemma {:induction false} SinglyFrames(parses: seq<byte> -> bool, pending: seq<byte>, s: seq<byte>)
    requires NEWLINE !in pending && |pending| <= MAX_RECORD_BYTES
    ensures Run(parses, pending, Singly(s)) == Framing(parses, pending + s)
    decreases |s|
  {
    hide Run, Framing, FirstNewline, Check;
    NewlineIs(pending, |pending|);
    if s == [] || |pending| == MAX_RECORD_BYTES {
      SinglyEnds(parses, pending, s);
    } else {
      ByteGathers(parses, pending, [s[0]], Singly(s[1..]));
      assert pending + s == (pending + [s[0]]) + s[1..] == pending + ([s[0]] + s[1..]);
      if s[0] == NEWLINE {
        RecordRuns(parses, pending, Singly(s[1..]));
        RecordFrames(parses, pending, s[1..]);
        SinglyFrames(parses, [], s[1..]);
        assert [] + s[1..] == s[1..];
      } else {
        SinglyFrames(parses, pending + [s[0]], s[1..]);
      }
    }
  }

  lemma SinglyEnds(parses: seq<byte> -> bool, pending: seq<byte>, s: seq<byte>)
    requires FirstNewline(pending) == |pending| <= MAX_RECORD_BYTES && (s == [] || |pending| == MAX_RECORD_BYTES)
    ensures Run(parses, pending, Singly(s)) == Framing(parses, pending + s)
  {
    NoNewline(pending, s);
    if s == [] {
      assert pending + s == pending;
    }
  }

  // A stream that is not roomy has two cuts with different outcomes: one byte at a time,
  // and one in which a full read brings the newline of a record near the limit.
  lemma CrampedCut(parses: seq<byte> -> bool, s: seq<byte>) returns (input: seq<Read>)
    requires !Roomy(parses, s)
    ensures Splits(input, s) && Splits(Singly(s), s)
    ensures Run(parses, [], input) != Run(parses, [], Singly(s))
  {
    hide Run, Framing, Roomy;
    input := CrampedOutcome(parses, s);
    SinglyFrames(parses, [], s);
    assert [] + s == s;
  }

  // All cuts of the stream have the same outcome exactly when the stream is roomy.
  lemma FragmentationMatters(parses: seq<byte> -> bool, s: seq<byte>)
    ensures Roomy(parses, s) <==>
      forall a, b :: Splits(a, s) && Splits(b, s) ==> Run(parses, [], a) == Run(parses, [], b)
  {
    hide Run, Framing, Roomy;
    if Roomy(parses, s) {
      forall a, b | Splits(a, s) && Splits(b, s)
        ensures Run(parses, [], a) == Run(parses, [], b)
      {
        assert [] + Stream(a) == s && [] + Stream(b) == s;
        RoomyRuns(parses, [], a);
        RoomyRuns(parses, [], b);
      }
    } else {
      var input := CrampedCut(parses, s);
    }
  }

  predicate Small(segments: seq<seq<byte>>) {
    forall i :: 0 <= i < |segments| ==> |segments[i]| + 1 <= MAX_RECORD_BYTES - (BUFFER_BYTES - 1)
  }

  lemma SmallRest(first: seq<byte>, rest: seq<seq<byte>>)
    requires Small([first] + rest)
    ensures |first| + 1 <= MAX_RECORD_BYTES - (BUFFER_BYTES - 1) && Small(rest)
  {
    var all := [first] + rest;
    assert all[0] == first && all[1..] == rest;
  }

  // Records that leave a whole buffer free are roomy enough.
  lemma {:induction false} SmallRecordsAreRoomy(parses: seq<byte> -> bool, s: seq<byte>)
    requires Small(Segments(s))
    ensures Roomy(parses, s)
    decreases |s|
  {
    hide FirstNewline, Small, Check;
    var end := FirstNewline(s);
    if end < |s| {
      SmallRest(s[..end], Segments(s[end + 1..]));
      SmallRecordsAreRoomy(parses, s[end + 1..]);
    }
  }

  // A record in its braces: no line break of either kind, and its newline still fits.
  predicate IsFramed(body: seq<byte>) {
    && 0 < |body| && body[0] == 123 && body[|body| - 1] == 125
    && forall k :: 0 <= k < |body| ==> body[k] != 10 && body[k] != 13
  }

  predicate IsRecord(parses: seq<byte> -> bool, body: seq<byte>) {
    IsFramed(body) && parses(body) && |body| + 1 <= MAX_RECORD_BYTES
  }

  // The segments up to the first that is no record are returned. Without an error these are
  // all of them and nothing is left over; otherwise the first segment that is none tells which
  // error it was, or the stream ends without a newline.
  lemma {:induction false} FramingIsComplete(parses: seq<byte> -> bool, s: seq<byte>)
    ensures
      var o, all := Framing(parses, s), Segments(s);
      var n := |o.records|;
      && o.records <= all
      && (forall i :: 0 <= i < n ==> IsRecord(parses, all[i]))
      && (o.error.None? ==> n == |all| && (s == [] || s[|s| - 1] == NEWLINE))
      && (o.error.Some? ==> if n == |all| then s != [] && s[|s| - 1] != NEWLINE else !IsRecord(parses, all[n]))
      && (o.error == Some(Partial) ==> n == |all|)
      && (o.error == Some(BadFraming) ==> n < |all| && !IsFramed(all[n]))
      && (o.error == Some(BadJson) ==> n < |all| && IsFramed(all[n]) && !parses(all[n]))
    decreases |s|
  {
    var end := FirstNewline(s);
    if end < MAX_RECORD_BYTES && end < |s| {
      CheckFrames(parses, s[..end]);
      if Check(parses, s[..end]).Ok? {
        FramingIsComplete(parses, s[end + 1..]);
      }
    }
  }

  lemma CheckFrames(parses: seq<byte> -> bool, body: seq<byte>)
    ensures Check(parses, body) ==
      if !IsFramed(body) then Err(BadFraming) else if parses(body) then Ok(body) else Err(BadJson)
  {
  }
}
