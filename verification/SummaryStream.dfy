// The grammar of a model's stream, and putting a summary together from one: interleaved
// blocks, each in its place (src/model/stream.rs:14-205, src/agent/compaction.rs:713-880).
module SummaryStreamModel {
  import opened Common

  const MAX_PROVIDER_STREAM_CHUNKS: nat := 4_000
  const MAX_COMPACTION_STREAM_BYTES: nat := 10 * 1024 * 1024

  datatype BlockType = TextType | ReasoningType | ImageType | ToolCallType | ToolResultType | OtherType(name: string)

  datatype Block =
    | Text(text: string)
    | Reasoning(text: string)
    | Image
    | ToolCall
    | ToolResult
    | OtherBlock(name: string)

  function TypeOf(b: Block): BlockType {
    match b
    case Text(_) => TextType
    case Reasoning(_) => ReasoningType
    case Image => ImageType
    case ToolCall => ToolCallType
    case ToolResult => ToolResultType
    case OtherBlock(name) => OtherType(name)
  }

  datatype Finish = Stop | Failed(failure: nat) | Aborted(failure: nat) | ToolCalls | MaxTokens | OtherFinish

  datatype ChunkKind =
    | BlockStart(index: nat, blockType: BlockType)
    | Delta(index: nat, deltaType: BlockType)
    | BlockEnd(index: nat, block: Block)
    | Usage(tokens: nat)
    | Finish(reason: Finish)
    | OtherChunk

  datatype Chunk = Chunk(kind: ChunkKind, size: nat)

  // ----- the grammar

  datatype Grammar = Grammar(
    open: map<nat, BlockType>,
    seen: set<nat>,
    usageSeen: bool,
    finished: bool,
    count: nat)

  const START: Grammar := Grammar(map[], {}, false, false, 0)

  predicate MayLeaveOpen(f: Finish) {
    f.Failed? || f.Aborted?
  }

  // A block is one of its type.
  predicate IsOfType(b: Block, t: BlockType) {
    && (t.TextType? <==> b.Text?)
    && (t.ReasoningType? <==> b.Reasoning?)
    && (t.ImageType? <==> b.Image?)
    && (t.ToolCallType? <==> b.ToolCall?)
    && (t.ToolResultType? <==> b.ToolResult?)
    && (t.OtherType? ==> b.OtherBlock? && b.name == t.name)
  }

  // Whether a chunk may come next.
  predicate Allows(g: Grammar, c: ChunkKind) {
    && !g.finished
    && g.count < MAX_PROVIDER_STREAM_CHUNKS && (g.count + 1 == MAX_PROVIDER_STREAM_CHUNKS ==> c.Finish?)
    && match c
       case BlockStart(index, _) => index !in g.seen
       case Delta(index, deltaType) =>
         index in g.open && g.open[index] == deltaType && deltaType in {TextType, ReasoningType, ToolCallType}
       case BlockEnd(index, block) => index in g.open && IsOfType(block, g.open[index])
       case Usage(_) => !g.usageSeen
       case Finish(reason) => reason.Failed? || reason.Aborted? || g.open == map[]
       case OtherChunk => false
  }

  function Advance(g: Grammar, c: ChunkKind): Grammar {
    var moved := match c
      case BlockStart(index, blockType) => g.(seen := g.seen + {index}, open := g.open[index := blockType])
      case Delta(_, _) => g
      case BlockEnd(index, _) => g.(open := g.open - {index})
      case Usage(_) => g.(usageSeen := true)
      case Finish(_) => g.(finished := true)
      case OtherChunk => g;
    moved.(count := g.count + 1)
  }

  class StreamValidator {
    var open: map<nat, BlockType>
    var seen: set<nat>
    var usageSeen: bool
    var finished: bool
    var count: nat

    ghost function Show(): Grammar
      reads this
    {
      Grammar(open, seen, usageSeen, finished, count)
    }

    constructor ()
      ensures Show() == START
    {
      open, seen, usageSeen, finished, count := map[], {}, false, false, 0;
    }

    // A refused chunk changes nothing (src/model/stream.rs:69-176).
    method Accept(c: ChunkKind) returns (ok: bool)
      modifies this
      ensures ok == Allows(old(Show()), c)
      ensures Show() == if ok then Advance(old(Show()), c) else old(Show())
    {
      if finished {
        return false;
      }
      if count >= MAX_PROVIDER_STREAM_CHUNKS || (count + 1 == MAX_PROVIDER_STREAM_CHUNKS && !c.Finish?) {
        return false;
      }
      match c {
        case BlockStart(index, blockType) =>
          if index in seen {
            return false;
          }
          seen := seen + {index};
          open := open[index := blockType];
        case Delta(index, deltaType) =>
          if index !in open || open[index] != deltaType || deltaType !in {TextType, ReasoningType, ToolCallType} {
            return false;
          }
        case BlockEnd(index, block) =>
          if index !in open || open[index] != TypeOf(block) {
            return false;
          }
          open := open - {index};
        case Usage(_) =>
          if usageSeen {
            return false;
          }
          usageSeen := true;
        case Finish(reason) =>
          if !MayLeaveOpen(reason) && |open| != 0 {
            return false;
          }
          finished := true;
        case OtherChunk =>
          return false;
      }
      count := count + 1;
      ok := true;
    }
  }

  // ----- streams

  // The state after chunks that were all accepted, or nothing.
  function After(cs: seq<Chunk>): Option<Grammar> {
    if cs == [] then Some(START)
    else
      var before := After(cs[..|cs| - 1]);
      if before.None? || !Allows(before.value, cs[|cs| - 1].kind) then None
      else Some(Advance(before.value, cs[|cs| - 1].kind))
  }

  // The blocks a stream started, in order.
  function Started(cs: seq<Chunk>): seq<nat> {
    if cs == [] then []
    else
      var before, last := Started(cs[..|cs| - 1]), cs[|cs| - 1].kind;
      if last.BlockStart? then before + [last.index] else before
  }

  // How a block ended, if it has.
  function Ended(cs: seq<Chunk>, index: nat): Option<Block> {
    if cs == [] then None
    else
      var last := cs[|cs| - 1].kind;
      if last.BlockEnd? && last.index == index then Some(last.block) else Ended(cs[..|cs| - 1], index)
  }

  function TotalSize(cs: seq<Chunk>): nat {
    if cs == [] then 0 else TotalSize(cs[..|cs| - 1]) + cs[|cs| - 1].size
  }

  // What a stream reported; an accepted one reports at most once.
  function Reported(cs: seq<Chunk>): Option<nat> {
    if cs == [] then None
    else
      var last := cs[|cs| - 1].kind;
      if last.Usage? then Some(last.tokens) else Reported(cs[..|cs| - 1])
  }

  // Facts about an accepted stream.
  ghost predicate Facts(cs: seq<Chunk>, g: Grammar) {
    && (forall x :: x in g.seen <==> x in Started(cs))
    && (forall i, j :: 0 <= i < j < |Started(cs)| ==> Started(cs)[i] != Started(cs)[j])
    && (forall x :: x in g.open <==> x in Started(cs) && Ended(cs, x).None?)
    && (forall x :: x !in Started(cs) ==> Ended(cs, x).None?)
    && (g.finished <==> cs != [] && cs[|cs| - 1].kind.Finish?)
  }

  lemma {:induction false} AcceptedFacts(cs: seq<Chunk>)
    requires After(cs).Some?
    ensures Facts(cs, After(cs).value)
  {
    if cs != [] {
      var before, last := cs[..|cs| - 1], cs[|cs| - 1].kind;
      AcceptedFacts(before);
      var g := After(before).value;
      assert Started(cs) == if last.BlockStart? then Started(before) + [last.index] else Started(before);
      forall x
        ensures Ended(cs, x) == if last.BlockEnd? && last.index == x then Some(last.block) else Ended(before, x)
      {
      }
    }
  }

  predicate LastUsage(cs: seq<Chunk>, i: nat) {
    i < |cs| && cs[i].kind.Usage? && forall j :: i < j < |cs| ==> !cs[j].kind.Usage?
  }

  predicate Ends(c: Chunk, index: nat) {
    c.kind.BlockEnd? && c.kind.index == index
  }

  predicate LastEnd(cs: seq<Chunk>, index: nat, i: nat) {
    i < |cs| && Ends(cs[i], index) && forall j :: i < j < |cs| ==> !Ends(cs[j], index)
  }

  // The usage of a stream is that of the last chunk that tells one.
  lemma {:induction false} UsageIsTold(cs: seq<Chunk>)
    ensures Reported(cs).Some? <==> exists i :: 0 <= i < |cs| && cs[i].kind.Usage?
    ensures forall i: nat :: LastUsage(cs, i) ==> Reported(cs) == Some(cs[i].kind.tokens)
  {
    if cs != [] {
      var last := |cs| - 1;
      var before := cs[..last];
      UsageIsTold(before);
      assert forall i :: 0 <= i < last ==> before[i] == cs[i];
      forall i: nat | LastUsage(cs, i)
        ensures Reported(cs) == Some(cs[i].kind.tokens)
      {
        assert i < last ==> LastUsage(before, i);
      }
    }
  }

  // The block of an index is that of the last chunk that ends it.
  lemma {:induction false} EndIsTold(cs: seq<Chunk>, index: nat)
    ensures (forall i :: 0 <= i < |cs| ==> !Ends(cs[i], index)) ==> Ended(cs, index).None?
    ensures forall i: nat :: LastEnd(cs, index, i) ==> Ended(cs, index) == Some(cs[i].kind.block)
  {
    if cs != [] {
      var last := |cs| - 1;
      var before := cs[..last];
      EndIsTold(before, index);
      assert forall i :: 0 <= i < last ==> before[i] == cs[i];
      forall i: nat | LastEnd(cs, index, i)
        ensures Ended(cs, index) == Some(cs[i].kind.block)
      {
        if i < last {
          assert LastEnd(before, index, i) && !Ends(cs[last], index);
        }
      }
    }
  }

  // The indexes of the blocks stand in the order in which the stream starts them: at lists
  // where.
  ghost predicate StartsAt(started: seq<nat>, cs: seq<Chunk>, at: seq<nat>) {
    && |at| == |started|
    && (forall j, k :: 0 <= j < k < |at| ==> at[j] < at[k])
    && (forall k :: 0 <= k < |at| ==> at[k] < |cs| && cs[at[k]].kind.BlockStart? && cs[at[k]].kind.index == started[k])
    && (forall i :: 0 <= i < |cs| && cs[i].kind.BlockStart? ==> i in at)
  }

  lemma {:induction false} StartsInOrder(cs: seq<Chunk>) returns (at: seq<nat>)
    ensures StartsAt(Started(cs), cs, at)
  {
    hide StartsAt;
    if cs == [] {
      at := [];
      StartsNowhere();
    } else {
      var last := |cs| - 1;
      var before := StartsInOrder(cs[..last]);
      StartsOn(Started(cs[..last]), cs[..last], cs[last], before);
      assert cs[..last] + [cs[last]] == cs;
      at := if cs[last].kind.BlockStart? then before + [last] else before;
    }
  }

  lemma StartsNowhere()
    ensures StartsAt([], [], [])
  {
  }

  lemma StartsOn(started: seq<nat>, cs: seq<Chunk>, c: Chunk, at: seq<nat>)
    requires StartsAt(started, cs, at)
    ensures c.kind.BlockStart? ==> StartsAt(started + [c.kind.index], cs + [c], at + [|cs|])
    ensures !c.kind.BlockStart? ==> StartsAt(started, cs + [c], at)
  {
    assert (at + [|cs|])[|at|] == |cs|;
    forall i | 0 <= i < |cs| && cs[i].kind.BlockStart?
      ensures i in at + [|cs|]
    {
      assert i in at;
    }
  }

  // The type a block was started with.
  function Declared(cs: seq<Chunk>, index: nat): Option<BlockType> {
    if cs == [] then None
    else
      var last := cs[|cs| - 1].kind;
      if last.BlockStart? && last.index == index then Some(last.blockType) else Declared(cs[..|cs| - 1], index)
  }

  // Every block ends as what it was started as.
  lemma {:induction false} BlocksKeepType(cs: seq<Chunk>)
    requires After(cs).Some?
    ensures forall x :: x in After(cs).value.open ==> Declared(cs, x) == Some(After(cs).value.open[x])
    ensures forall x :: Ended(cs, x).Some? ==> Declared(cs, x).Some? && IsOfType(Ended(cs, x).value, Declared(cs, x).value)
  {
    if cs != [] {
      var before, last := cs[..|cs| - 1], cs[|cs| - 1].kind;
      AcceptedFacts(before);
      BlocksKeepType(before);
      forall x
        ensures Ended(cs, x) == if last.BlockEnd? && last.index == x then Some(last.block) else Ended(before, x)
        ensures Declared(cs, x) == if last.BlockStart? && last.index == x then Some(last.blockType) else Declared(before, x)
      {
      }
    }
  }

  // ----- collecting a summary

  // What one wait for the stream gives; cancellation and the deadline are looked at first.
  // After the last one the stream has ended.
  datatype Poll = SawCancel | SawDeadline | ReadFailed | Got(chunk: Chunk)

  // Why there is no summary; the source tells none of these apart.
  datatype Exit =
    | StreamBroke | TooManyBytes | BadGrammar | MissingSlot | UnknownChunk
    | NotFinished | NoFinish | NotStopped | Unclosed | ForeignBlock | NoText

  datatype Outcome =
    | Success(summary: seq<Block>, raw: seq<Block>)
    | Reports(failure: nat)
    | Cancelled
    | TimedOut
    | Invalid(exit: Exit)

  predicate IsProse(b: Block) {
    b.Text? || b.Reasoning?
  }

  predicate IsSpoken(isSpace: char -> bool, b: Block) {
    b.Text? && exists i :: 0 <= i < |b.text| && !isSpace(b.text[i])
  }

  // The blocks of a stream in the order they started, each as it ended.
  function Assembled(cs: seq<Chunk>): seq<Option<Block>> {
    seq(|Started(cs)|, i requires 0 <= i < |Started(cs)| => Ended(cs, Started(cs)[i]))
  }

  function TextOnly(blocks: seq<Block>): seq<Block> {
    if blocks == [] then []
    else TextOnly(blocks[..|blocks| - 1]) + if blocks[|blocks| - 1].Text? then [blocks[|blocks| - 1]] else []
  }

  // The text blocks of raw are summary, in their order: at lists where they stand.
  ghost predicate TextAt(summary: seq<Block>, raw: seq<Block>, at: seq<nat>) {
    && |at| == |summary|
    && (forall k :: 0 <= k < |at| ==> at[k] < |raw| && raw[at[k]] == summary[k])
    && (forall j, k :: 0 <= j < k < |at| ==> at[j] < at[k])
    && (forall i :: 0 <= i < |raw| ==> (raw[i].Text? <==> i in at))
  }

  ghost predicate IsTextOf(summary: seq<Block>, raw: seq<Block>) {
    exists at :: TextAt(summary, raw, at)
  }

  // The first polls gave these chunks, and all were accepted within the byte bound.
  predicate Takes(polls: seq<Poll>, cs: seq<Chunk>) {
    && |cs| <= |polls| && (forall i :: 0 <= i < |cs| ==> polls[i] == Got(cs[i]))
    && After(cs).Some? && TotalSize(cs) <= MAX_COMPACTION_STREAM_BYTES
  }

  // The chunks that can be taken after those: one by one, until one is refused or the
  // wait gives something else.
  function TakenFrom(polls: seq<Poll>, cs: seq<Chunk>): (all: seq<Chunk>)
    requires Takes(polls, cs)
    ensures Takes(polls, all) && cs <= all
    ensures |all| < |polls| && polls[|all|].Got? ==> !Takes(polls, all + [polls[|all|].chunk])
    decreases |polls| - |cs|
  {
    if |cs| < |polls| && polls[|cs|].Got? && Takes(polls, cs + [polls[|cs|].chunk])
    then TakenFrom(polls, cs + [polls[|cs|].chunk])
    else cs
  }

  function Taken(polls: seq<Poll>): seq<Chunk> {
    TakenFrom(polls, [])
  }

  predicate IsStopped(cs: seq<Chunk>) {
    cs != [] && cs[|cs| - 1].kind == ChunkKind.Finish(Stop)
  }

  // A block that ended as text which is not blank.
  ghost predicate Says(isSpace: char -> bool, b: Option<Block>) {
    b.Some? && b.value.Text? && !(forall i :: 0 <= i < |b.value.text| ==> isSpace(b.value.text[i]))
  }

  // What the outcome is, given the chunks taken.
  ghost predicate Judged(isSpace: char -> bool, polls: seq<Poll>, cs: seq<Chunk>, outcome: Outcome)
    requires |cs| <= |polls|
  {
    var ends := |cs| == |polls|;
    && (outcome.Cancelled? <==> !ends && polls[|cs|].SawCancel?)
    && (outcome.TimedOut? <==> !ends && polls[|cs|].SawDeadline?)
    && (forall f :: outcome == Reports(f) <==>
          ends && cs != [] && cs[|cs| - 1].kind in {ChunkKind.Finish(Failed(f)), ChunkKind.Finish(Aborted(f))})
    && (outcome.Success? <==>
          ends && IsStopped(cs)
          && (forall b :: b in Assembled(cs) ==> b.Some? && (b.value.Text? || b.value.Reasoning?))
          && exists b :: b in Assembled(cs) && Says(isSpace, b))
    && (outcome.Success? ==>
          && Assembled(cs) == Wrapped(outcome.raw)
          && IsTextOf(outcome.summary, outcome.raw))
    && (outcome.Invalid? ==> outcome.exit !in {MissingSlot, UnknownChunk, NoFinish, Unclosed})
  }

  function Wrapped(blocks: seq<Block>): seq<Option<Block>> {
    seq(|blocks|, i requires 0 <= i < |blocks| => Some(blocks[i]))
  }

  datatype Slot = Slot(index: nat, block: Option<Block>)

  // The slots and their positions after some chunks.
  ghost predicate Placed(cs: seq<Chunk>, slots: seq<Slot>, positions: map<nat, nat>) {
    && |slots| == |Started(cs)|
    && (forall i :: 0 <= i < |slots| ==> slots[i] == Slot(Started(cs)[i], Ended(cs, Started(cs)[i])))
    && (forall x :: x in positions <==> x in Started(cs))
    && (forall x :: x in positions ==> positions[x] < |slots| && slots[positions[x]].index == x)
  }

  lemma PlacedStart(cs: seq<Chunk>, c: Chunk, slots: seq<Slot>, positions: map<nat, nat>)
    requires Placed(cs, slots, positions) && After(cs + [c]).Some? && c.kind.BlockStart?
    ensures Placed(cs + [c], slots + [Slot(c.kind.index, None)], positions[c.kind.index := |slots|])
  {
    var all := cs + [c];
    assert all[..|all| - 1] == cs;
    AcceptedFacts(cs);
    forall x
      ensures Ended(all, x) == Ended(cs, x)
    {
    }
  }

  lemma PlacedEnd(cs: seq<Chunk>, c: Chunk, slots: seq<Slot>, positions: map<nat, nat>)
    requires Placed(cs, slots, positions) && After(cs + [c]).Some? && c.kind.BlockEnd?
    ensures c.kind.index in positions
    ensures
      var slot := positions[c.kind.index];
      slot < |slots| && Placed(cs + [c], slots[slot := slots[slot].(block := Some(c.kind.block))], positions)
  {
    var all := cs + [c];
    assert all[..|all| - 1] == cs;
    AcceptedFacts(cs);
    forall x
      ensures Ended(all, x) == if c.kind.index == x then Some(c.kind.block) else Ended(cs, x)
    {
    }
  }

  lemma PlacedOther(cs: seq<Chunk>, c: Chunk, slots: seq<Slot>, positions: map<nat, nat>)
    requires Placed(cs, slots, positions) && !c.kind.BlockStart? && !c.kind.BlockEnd?
    ensures Placed(cs + [c], slots, positions)
  {
    var all := cs + [c];
    assert all[..|all| - 1] == cs;
    forall x
      ensures Ended(all, x) == Ended(cs, x)
    {
    }
  }

  // After a stream that stopped every block has ended.
  lemma StoppedIsClosed(cs: seq<Chunk>)
    requires After(cs).Some? && IsStopped(cs)
    ensures forall b :: b in Assembled(cs) ==> b.Some?
  {
    var before := cs[..|cs| - 1];
    AcceptedFacts(before);
    AcceptedFacts(cs);
    assert After(before).value.open == map[];
    forall x | x in Started(cs)
      ensures Ended(cs, x).Some?
    {
      assert x !in After(cs).value.open;
    }
  }

  // The steps of one chunk (lines 765-806).
  method TakeChunk(validator: StreamValidator, c: Chunk, emitted: nat, slots: seq<Slot>, positions: map<nat, nat>, ghost cs: seq<Chunk>)
    returns (exit: Option<Exit>, emitted': nat, slots': seq<Slot>, positions': map<nat, nat>)
    requires After(cs) == Some(validator.Show()) && TotalSize(cs) == emitted && Placed(cs, slots, positions)
    modifies validator
    ensures exit.None? <==> After(cs + [c]).Some? && TotalSize(cs + [c]) <= MAX_COMPACTION_STREAM_BYTES
    ensures exit.None? ==> After(cs + [c]) == Some(validator.Show()) && TotalSize(cs + [c]) == emitted'
    ensures exit.None? ==> Placed(cs + [c], slots', positions')
    ensures exit.Some? ==> exit.value in {TooManyBytes, BadGrammar}
  {
    hide Placed, Allows, Advance;
    slots', positions' := slots, positions;
    emitted' := emitted + c.size;
    assert (cs + [c])[..|cs|] == cs;
    if emitted' > MAX_COMPACTION_STREAM_BYTES {
      return Some(TooManyBytes), emitted', slots', positions';
    }
    var accepted := validator.Accept(c.kind);
    if !accepted {
      return Some(BadGrammar), emitted', slots', positions';
    }
    exit := None;
    match c.kind {
      case BlockStart(index, _) =>
        PlacedStart(cs, c, slots, positions);
        var slot := |slots|;
        slots' := slots + [Slot(index, None)];
        positions' := positions[index := slot];
      case BlockEnd(index, block) =>
        PlacedEnd(cs, c, slots, positions);
        if index in positions {
          var slot := positions[index];
          slots' := slots[slot := slots[slot].(block := Some(block))];
        } else {
          exit := Some(MissingSlot);
        }
      case OtherChunk =>
        NeverOther(cs, c);
        exit := Some(UnknownChunk);
      case _ =>
        PlacedOther(cs, c, slots, positions);
    }
  }

  lemma NeverOther(cs: seq<Chunk>, c: Chunk)
    ensures After(cs + [c]).Some? ==> !c.kind.OtherChunk?
  {
  }

  // ----- the end of the stream

  lemma {:induction false} TextStays(blocks: seq<Block>)
    ensures forall b :: b in TextOnly(blocks) <==> b in blocks && b.Text?
  {
    if blocks != [] {
      TextStays(blocks[..|blocks| - 1]);
    }
  }

  // Keeping the text blocks keeps their order.
  lemma {:induction false} TextInOrder(blocks: seq<Block>) returns (at: seq<nat>)
    ensures TextAt(TextOnly(blocks), blocks, at)
  {
    hide TextAt;
    if blocks == [] {
      at := [];
      TextNowhere();
    } else {
      var last := |blocks| - 1;
      var before := TextInOrder(blocks[..last]);
      TextOn(TextOnly(blocks[..last]), blocks[..last], blocks[last], before);
      assert blocks[..last] + [blocks[last]] == blocks;
      assert TextOnly(blocks[..last]) + [] == TextOnly(blocks[..last]);
      at := if blocks[last].Text? then before + [last] else before;
    }
  }

  lemma TextNowhere()
    ensures TextAt([], [], [])
  {
  }

  lemma TextOn(summary: seq<Block>, raw: seq<Block>, b: Block, at: seq<nat>)
    requires TextAt(summary, raw, at)
    ensures b.Text? ==> TextAt(summary + [b], raw + [b], at + [|raw|])
    ensures !b.Text? ==> TextAt(summary, raw + [b], at)
  {
    assert (at + [|raw|])[|at|] == |raw|;
    forall i | 0 <= i < |raw| && raw[i].Text?
      ensures i in at + [|raw|]
    {
      assert i in at;
    }
    forall i | 0 <= i < |raw| && !raw[i].Text?
      ensures i !in at + [|raw|]
    {
      assert i !in at;
    }
  }

  function Closed(slots: seq<Slot>): Option<seq<Block>> {
    if slots == [] then Some([])
    else
      var before, last := Closed(slots[..|slots| - 1]), slots[|slots| - 1].block;
      if before.None? || last.None? then None else Some(before.value + [last.value])
  }

  lemma {:induction false} ClosedBlocks(slots: seq<Slot>)
    ensures Closed(slots).Some? <==> forall i :: 0 <= i < |slots| ==> slots[i].block.Some?
    ensures Closed(slots).Some? ==> |Closed(slots).value| == |slots|
    ensures Closed(slots).Some? ==>
      forall i :: 0 <= i < |slots| ==> slots[i].block == Some(Closed(slots).value[i])
  {
    if slots != [] {
      ClosedBlocks(slots[..|slots| - 1]);
    }
  }

  // What the collected blocks are good for (lines 837-879).
  method JudgeBlocks(isSpace: char -> bool, slots: seq<Slot>) returns (outcome: Outcome)
    ensures outcome.Success? || outcome.Invalid?
    ensures outcome.Success? ==>
      && Closed(slots) == Some(outcome.raw) && IsTextOf(outcome.summary, outcome.raw)
      && (forall b :: b in outcome.raw ==> IsProse(b))
      && exists b :: b in outcome.raw && IsSpoken(isSpace, b)
    ensures outcome.Invalid? ==>
      match Closed(slots)
      case None => outcome.exit == Unclosed
      case Some(raw) =>
        outcome.exit in {ForeignBlock, NoText}
        && ((exists b :: b in raw && !IsProse(b)) || forall b :: b in raw ==> !IsSpoken(isSpace, b))
  {
    var raw := Closed(slots);
    if raw.None? {
      return Invalid(Unclosed);
    }
    if exists b :: b in raw.value && !IsProse(b) {
      return Invalid(ForeignBlock);
    }
    var summary := TextOnly(raw.value);
    TextStays(raw.value);
    ghost var at := TextInOrder(raw.value);
    if summary == [] || !exists b :: b in summary && IsSpoken(isSpace, b) {
      return Invalid(NoText);
    }
    outcome := Success(summary, raw.value);
  }

  // The end of a stream whose chunks were all accepted (lines 808-879).
  method JudgeStream(isSpace: char -> bool, validator: StreamValidator, finish: Option<Finish>, slots: seq<Slot>,
                     ghost polls: seq<Poll>, ghost cs: seq<Chunk>, ghost positions: map<nat, nat>)
    returns (outcome: Outcome)
    requires |cs| == |polls| && After(cs) == Some(validator.Show()) && Placed(cs, slots, positions)
    requires finish == FinishOf(cs)
    ensures Judged(isSpace, polls, cs, outcome)
  {
    hide Placed, Judged;
    FinishedIs(cs);
    if !validator.finished {
      outcome := Invalid(NotFinished);
      JudgedInvalid(isSpace, polls, cs, outcome);
    } else if finish.None? {
      outcome := Invalid(NoFinish);
    } else {
      match finish.value {
        case Stop =>
          outcome := JudgeBlocks(isSpace, slots);
          JudgedBlocks(isSpace, polls, cs, slots, positions, outcome);
        case Failed(failure) =>
          outcome := Reports(failure);
          JudgedReport(isSpace, polls, cs, failure);
        case Aborted(failure) =>
          outcome := Reports(failure);
          JudgedReport(isSpace, polls, cs, failure);
        case _ =>
          outcome := Invalid(NotStopped);
          JudgedInvalid(isSpace, polls, cs, outcome);
      }
    }
  }

  function FinishOf(cs: seq<Chunk>): Option<Finish> {
    if cs != [] && cs[|cs| - 1].kind.Finish? then Some(cs[|cs| - 1].kind.reason) else None
  }

  lemma FinishedIs(cs: seq<Chunk>)
    requires After(cs).Some?
    ensures After(cs).value.finished <==> FinishOf(cs).Some?
  {
    AcceptedFacts(cs);
  }

  lemma JudgedInvalid(isSpace: char -> bool, polls: seq<Poll>, cs: seq<Chunk>, outcome: Outcome)
    requires |cs| == |polls| && outcome.Invalid? && outcome.exit in {NotFinished, NotStopped}
    requires FinishOf(cs).None? || FinishOf(cs).value in {Finish.ToolCalls, MaxTokens, OtherFinish}
    ensures Judged(isSpace, polls, cs, outcome)
  {
  }

  lemma JudgedReport(isSpace: char -> bool, polls: seq<Poll>, cs: seq<Chunk>, failure: nat)
    requires |cs| == |polls| && FinishOf(cs).Some? && FinishOf(cs).value in {Failed(failure), Finish.Aborted(failure)}
    ensures Judged(isSpace, polls, cs, Reports(failure))
  {
  }

  lemma AssembledSlots(cs: seq<Chunk>, slots: seq<Slot>, positions: map<nat, nat>)
    requires Placed(cs, slots, positions)
    ensures |Assembled(cs)| == |slots| && forall i :: 0 <= i < |slots| ==> Assembled(cs)[i] == slots[i].block
  {
  }

  lemma JudgedBlocks(isSpace: char -> bool, polls: seq<Poll>, cs: seq<Chunk>, slots: seq<Slot>, positions: map<nat, nat>, outcome: Outcome)
    requires |cs| == |polls| && After(cs).Some? && IsStopped(cs) && Placed(cs, slots, positions)
    requires outcome.Success? || outcome.Invalid?
    requires outcome.Success? ==>
      && Closed(slots) == Some(outcome.raw) && IsTextOf(outcome.summary, outcome.raw)
      && (forall b :: b in outcome.raw ==> IsProse(b))
      && exists b :: b in outcome.raw && IsSpoken(isSpace, b)
    requires outcome.Invalid? ==>
      match Closed(slots)
      case None => outcome.exit == Unclosed
      case Some(raw) =>
        outcome.exit in {ForeignBlock, NoText}
        && ((exists b :: b in raw && !IsProse(b)) || forall b :: b in raw ==> !IsSpoken(isSpace, b))
    ensures Judged(isSpace, polls, cs, outcome)
  {
    hide Placed, Closed, After, Assembled;
    StoppedIsClosed(cs);
    AssembledSlots(cs, slots, positions);
    ClosedBlocks(slots);
    forall i | 0 <= i < |slots|
      ensures slots[i].block.Some?
    {
      assert Assembled(cs)[i] in Assembled(cs);
    }
    var raw := Closed(slots).value;
    assert Assembled(cs) == Wrapped(raw);
    WrappedHolds(raw);
    assert forall b :: IsSpoken(isSpace, b) <==> Says(isSpace, Some(b));
  }

  lemma WrappedHolds(raw: seq<Block>)
    ensures forall b :: b in Wrapped(raw) <==> b.Some? && b.value in raw
  {
    forall b: Block | b in raw
      ensures Some(b) in Wrapped(raw)
    {
      var i :| 0 <= i < |raw| && raw[i] == b;
      assert Wrapped(raw)[i] == Some(b);
    }
  }

  // A summary out of a stream (lines 713-880).
  method CollectSummary(isSpace: char -> bool, polls: seq<Poll>) returns (outcome: Outcome, usage: Option<nat>)
    ensures Judged(isSpace, polls, Taken(polls), outcome)
    ensures usage == Reported(Taken(polls))
  {
    hide Placed, Judged, After, TakenFrom;
    var validator := new StreamValidator();
    usage := None;
    ghost var cs: seq<Chunk> := [];
    var slots: seq<Slot> := [];
    var positions: map<nat, nat> := map[];
    var finish: Option<Finish> := None;
    var emitted := 0;
    Begun();
    for i := 0 to |polls|
      invariant |cs| == i && Takes(polls, cs) && TakenFrom(polls, cs) == Taken(polls)
      invariant fresh(validator) && After(cs) == Some(validator.Show()) && TotalSize(cs) == emitted
      invariant Placed(cs, slots, positions) && finish == FinishOf(cs) && usage == Reported(cs)
    {
      TakesNext(polls, cs);
      match polls[i] {
        case SawCancel =>
          JudgedEarly(isSpace, polls, cs, Cancelled);
          return Cancelled, usage;
        case SawDeadline =>
          JudgedEarly(isSpace, polls, cs, TimedOut);
          return TimedOut, usage;
        case ReadFailed =>
          JudgedEarly(isSpace, polls, cs, Invalid(StreamBroke));
          return Invalid(StreamBroke), usage;
        case Got(chunk) =>
          var exit;
          exit, emitted, slots, positions := TakeChunk(validator, chunk, emitted, slots, positions, cs);
          if exit.Some? {
            JudgedEarly(isSpace, polls, cs, Invalid(exit.value));
            return Invalid(exit.value), usage;
          }
          Extends(cs, chunk);
          FinishMoves(cs, chunk);
          if chunk.kind.Usage? {
            usage := Some(chunk.kind.tokens);
          } else if chunk.kind.Finish? {
            finish := Some(chunk.kind.reason);
          }
          cs := cs + [chunk];
      }
    }
    TakesAll(polls, cs);
    outcome := JudgeStream(isSpace, validator, finish, slots, polls, cs, positions);
  }

  // Taking goes on with the next chunk exactly when it is accepted within the bound.
  lemma TakesNext(polls: seq<Poll>, cs: seq<Chunk>)
    requires Takes(polls, cs) && |cs| < |polls|
    ensures polls[|cs|].Got? ==>
      var longer := cs + [polls[|cs|].chunk];
      && (Takes(polls, longer) <==> After(longer).Some? && TotalSize(longer) <= MAX_COMPACTION_STREAM_BYTES)
      && (Takes(polls, longer) ==> TakenFrom(polls, longer) == TakenFrom(polls, cs))
      && (!Takes(polls, longer) ==> TakenFrom(polls, cs) == cs)
    ensures !polls[|cs|].Got? ==> TakenFrom(polls, cs) == cs
  {
    hide Takes, After, TotalSize;
    if polls[|cs|].Got? {
      TakesLonger(polls, cs, polls[|cs|].chunk);
    }
  }

  lemma TakesLonger(polls: seq<Poll>, cs: seq<Chunk>, c: Chunk)
    requires Takes(polls, cs) && |cs| < |polls| && polls[|cs|] == Got(c)
    ensures Takes(polls, cs + [c]) <==> After(cs + [c]).Some? && TotalSize(cs + [c]) <= MAX_COMPACTION_STREAM_BYTES
  {
    hide After, TotalSize, TakenFrom;
  }

  lemma TakesAll(polls: seq<Poll>, cs: seq<Chunk>)
    requires Takes(polls, cs) && |cs| == |polls|
    ensures TakenFrom(polls, cs) == cs
  {
  }

  lemma Begun()
    ensures After([]) == Some(START) && Placed([], [], map[])
  {
  }

  lemma Extends(cs: seq<Chunk>, c: Chunk)
    ensures TotalSize(cs + [c]) == TotalSize(cs) + c.size
    ensures Reported(cs + [c]) == if c.kind.Usage? then Some(c.kind.tokens) else Reported(cs)
  {
    assert (cs + [c])[..|cs|] == cs;
  }

  // Nothing is accepted after the finish.
  lemma FinishMoves(cs: seq<Chunk>, c: Chunk)
    requires After(cs + [c]).Some?
    ensures FinishOf(cs).None? && FinishOf(cs + [c]) == if c.kind.Finish? then Some(c.kind.reason) else None
  {
    assert (cs + [c])[..|cs|] == cs;
    FinishedIs(cs);
  }

  lemma JudgedEarly(isSpace: char -> bool, polls: seq<Poll>, cs: seq<Chunk>, outcome: Outcome)
    requires |cs| < |polls|
    requires match polls[|cs|]
      case SawCancel => outcome.Cancelled?
      case SawDeadline => outcome.TimedOut?
      case ReadFailed => outcome == Invalid(StreamBroke)
      case Got(_) => outcome.Invalid? && outcome.exit in {TooManyBytes, BadGrammar}
    ensures Judged(isSpace, polls, cs, outcome)
  {
  }
}
