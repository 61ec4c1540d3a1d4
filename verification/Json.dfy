// Bounded JSON values: the iterative inspection and drop of untrusted trees, the
// normal form of numbers, and semantic equality (src/json_value.rs:456-700). Keys are
// kept in ascending order, as in the source's ordered map. Numbers are exact: an
// integer or a real; rounding of integers beyond the safe range is not modelled,
// since every such integer is refused.
module Json {
  import opened Common
  import Credit = ResidentCredit

  const MAX_JSON_DEPTH: nat := 128
  const MAX_JSON_NODES: nat := 1_000_000

  // Section 6 of RFC 8259: integers in this range are interoperable.
  const MAX_SAFE_INTEGER: nat := 9_007_199_254_740_991

  datatype Number =
    | PosInt(n: nat)
    | NegInt(i: int)
    | Float(r: real)
    | NegativeZero
    | NotFinite

  datatype Field = Field(key: string, keyCapacity: nat, value: Json)

  datatype Json =
    | Null
    | Bool(b: bool)
    | Text(text: string, capacity: nat)
    | Num(number: Number)
    | Arr(items: seq<Json>, capacity: nat)
    | Obj(fields: seq<Field>)

  function Children(v: Json): (cs: seq<Json>)
    ensures forall i :: 0 <= i < |cs| ==> cs[i] < v
  {
    match v
    case Arr(items, _) => items
    case Obj(fields) => seq(|fields|, i requires 0 <= i < |fields| => fields[i].value)
    case _ => []
  }

  // ----- what is admitted

  function AsReal(n: Number): Option<real> {
    match n
    case PosInt(k) => Some(k as real)
    case NegInt(i) => Some(i as real)
    case Float(r) => Some(r)
    case NegativeZero => Some(0.0)
    case NotFinite => None
  }

  predicate IsIntegral(r: real) {
    r.Floor as real == r
  }

  function Magnitude(r: real): real {
    if r < 0.0 then -r else r
  }

  predicate IsSafe(r: real) {
    Magnitude(r) <= MAX_SAFE_INTEGER as real
  }

  predicate NumberOk(n: Number) {
    && !n.NotFinite? && !n.NegativeZero?
    && (IsIntegral(AsReal(n).value) ==> IsSafe(AsReal(n).value))
  }

  // The numbers that are admitted: finite ones with a sign that means something, and among
  // the whole ones only those below two to the power of 53 in magnitude.
  lemma NumberIsInteroperable(n: Number)
    ensures NumberOk(n) <==>
      match n
      case PosInt(k) => k < 0x20_0000_0000_0000
      case NegInt(i) => -0x20_0000_0000_0000 < i < 0x20_0000_0000_0000
      case Float(r) => r.Floor as real == r ==> -0x20_0000_0000_0000 < r.Floor < 0x20_0000_0000_0000
      case _ => false
  {
  }

  datatype JsonError = TooManyNodes | TooDeep | InvalidNumber

  datatype Tally = Tally(nodes: nat, charge: nat)

  // Sizes of the nodes of the tree in memory, which the compiler chooses.
  datatype Layout = Layout(valueSize: nat, stringSize: nat)

  function AddCharge(total: nat, charge: Option<nat>): nat {
    var sum := total + (if charge.Some? then charge.value else Credit.MAX_WORD);
    if sum <= Credit.MAX_WORD then sum else Credit.MAX_WORD
  }

  // A conservative number of tree nodes for the entries of one object
  // (src/json_value.rs:580-601).
  function ObjectCharge(l: Layout, entries: nat): Option<nat> {
    var nodes := if entries == 0 then 1 else (entries - 1 + 4) / 5 + 1;
    var bytes := 16 + 11 * (l.stringSize + l.valueSize) + 12 * 8;
    if bytes > Credit.MAX_WORD then None
    else
      var one := Credit.HeapAllocationCharge(bytes, 16);
      if one.None? then None else Credit.CheckedMul(nodes, one.value)
  }

  // An object is charged for the least number of nodes that hold its entries when every node
  // but the first holds no more than five, and for one node even where it is empty.
  lemma ObjectChargeCovers(l: Layout, entries: nat)
    requires ObjectCharge(l, entries).Some?
    ensures exists nodes: nat :: HoldsEntries(nodes, entries) && ObjectCharge(l, entries) == Some(nodes * NodeCharge(l))
    ensures ObjectCharge(l, entries).value >= 16 + 11 * (l.stringSize + l.valueSize) + 12 * 8
  {
    var nodes := if entries == 0 then 1 else (entries - 1 + 4) / 5 + 1;
    assert HoldsEntries(nodes, entries);
    Credit.HeapAlignmentIsPower();
    Credit.ChargeCovers(16 + 11 * (l.stringSize + l.valueSize) + 12 * 8, 16);
    AtLeastOnce(nodes, NodeCharge(l));
  }

  predicate HoldsEntries(nodes: nat, entries: nat) {
    && nodes >= 1 && entries <= 5 * (nodes - 1) + 1
    && (nodes > 1 ==> entries > 5 * (nodes - 2) + 1)
  }

  function NodeCharge(l: Layout): nat {
    var one := Credit.HeapAllocationCharge(16 + 11 * (l.stringSize + l.valueSize) + 12 * 8, 16);
    if one.Some? then one.value else 0
  }

  lemma AtLeastOnce(n: nat, x: nat)
    requires n >= 1
    ensures n * x >= x
  {
  }

  function KeyCharges(total: nat, fields: seq<Field>): nat {
    if |fields| == 0 then total
    else AddCharge(KeyCharges(total, fields[..|fields| - 1]), Credit.ByteBufferCharge(fields[|fields| - 1].keyCapacity))
  }

  // Look at one node: count it, check its depth and its number, add its charge.
  function Enter(l: Layout, v: Json, depth: nat, t: Tally): Result<Tally, JsonError> {
    var nodes := t.nodes + 1;
    if nodes > MAX_JSON_NODES then Err(TooManyNodes)
    else if depth > MAX_JSON_DEPTH then Err(TooDeep)
    else match v
      case Text(_, capacity) => Ok(Tally(nodes, AddCharge(t.charge, Credit.ByteBufferCharge(capacity))))
      case Num(n) => if NumberOk(n) then Ok(Tally(nodes, t.charge)) else Err(InvalidNumber)
      case Arr(_, capacity) => Ok(Tally(nodes, AddCharge(t.charge, Credit.VecBackingCharge(l.valueSize, 8, capacity))))
      case Obj(fields) => Ok(Tally(nodes, KeyCharges(AddCharge(t.charge, ObjectCharge(l, |fields|)), fields)))
      case _ => Ok(Tally(nodes, t.charge))
  }

  // The recursive inspection: a node before its children, the children in order, and
  // the first error ends it.
  function Visit(l: Layout, v: Json, depth: nat, t: Tally): Result<Tally, JsonError>
    decreases v, |Children(v)| + 1
  {
    var entered := Enter(l, v, depth, t);
    if entered.Err? then entered else VisitFrom(l, v, 0, depth + 1, entered.value)
  }

  function VisitFrom(l: Layout, v: Json, k: nat, depth: nat, t: Tally): Result<Tally, JsonError>
    requires k <= |Children(v)|
    decreases v, |Children(v)| - k
  {
    if k == |Children(v)| then Ok(t)
    else
      var visited := Visit(l, Children(v)[k], depth, t);
      if visited.Err? then visited else VisitFrom(l, v, k + 1, depth, visited.value)
  }

  // ----- the inspection with an explicit stack

  // A container whose children from next on are still to be visited.
  datatype Frame = Frame(node: Json, next: nat, depth: nat)

  predicate FramesOk(frames: seq<Frame>) {
    && |frames| <= MAX_JSON_DEPTH + 1
    && forall i :: 0 <= i < |frames| ==> frames[i].next <= |Children(frames[i].node)| && frames[i].depth == i + 1
  }

  // What is left to do once the present node is done.
  function Resume(l: Layout, frames: seq<Frame>, t: Tally): Result<Tally, JsonError>
    requires FramesOk(frames)
    decreases |frames|
  {
    if |frames| == 0 then Ok(t)
    else
      var top := frames[|frames| - 1];
      var visited := VisitFrom(l, top.node, top.next, top.depth, t);
      if visited.Err? then visited else Resume(l, frames[..|frames| - 1], visited.value)
  }

  function Continue(l: Layout, current: Option<Json>, frames: seq<Frame>, t: Tally): Result<Tally, JsonError>
    requires FramesOk(frames)
  {
    if current.None? then Resume(l, frames, t)
    else
      var visited := Visit(l, current.value, |frames|, t);
      if visited.Err? then visited else Resume(l, frames, visited.value)
  }

  function Count(v: Json): nat
    decreases v, |Children(v)| + 1
  {
    1 + CountFrom(v, 0)
  }

  function CountFrom(v: Json, k: nat): nat
    requires k <= |Children(v)|
    decreases v, |Children(v)| - k
  {
    if k == |Children(v)| then 0 else Count(Children(v)[k]) + CountFrom(v, k + 1)
  }

  function CountFrames(frames: seq<Frame>): nat
    requires FramesOk(frames)
    decreases |frames|
  {
    if |frames| == 0 then 0
    else CountFrom(frames[|frames| - 1].node, frames[|frames| - 1].next) + CountFrames(frames[..|frames| - 1])
  }

  predicate IsContainer(v: Json) {
    v.Arr? || v.Obj?
  }

  // Where the traversal stands once a container was entered: its first child comes
  // next, the others wait in a frame.
  function FirstChild(v: Json): Option<Json> {
    if |Children(v)| > 0 then Some(Children(v)[0]) else None
  }

  function FrameOf(v: Json, depth: nat): Frame {
    Frame(v, if |Children(v)| > 0 then 1 else 0, depth + 1)
  }

  lemma EnterContainer(l: Layout, v: Json, frames: seq<Frame>, t: Tally, e: Tally)
    requires FramesOk(frames) && |frames| <= MAX_JSON_DEPTH && Enter(l, v, |frames|, t) == Ok(e)
    ensures FramesOk(frames + [FrameOf(v, |frames|)])
    ensures Continue(l, FirstChild(v), frames + [FrameOf(v, |frames|)], e) == Continue(l, Some(v), frames, t)
  {
    hide Enter;
    var after := frames + [FrameOf(v, |frames|)];
    assert after[..|frames|] == frames;
    assert Visit(l, v, |frames|, t) == VisitFrom(l, v, 0, |frames| + 1, e);
  }

  lemma ContainerCount(v: Json, frames: seq<Frame>)
    requires FramesOk(frames) && |frames| <= MAX_JSON_DEPTH
    ensures FramesOk(frames + [FrameOf(v, |frames|)])
    ensures (if FirstChild(v).Some? then Count(FirstChild(v).value) else 0) + CountFrames(frames + [FrameOf(v, |frames|)]) + 1
      == Count(v) + CountFrames(frames)
  {
    assert (frames + [FrameOf(v, |frames|)])[..|frames|] == frames;
  }

  lemma EnterLeaf(l: Layout, v: Json, frames: seq<Frame>, t: Tally, e: Tally)
    requires FramesOk(frames) && Children(v) == [] && Enter(l, v, |frames|, t) == Ok(e)
    ensures Continue(l, None, frames, e) == Continue(l, Some(v), frames, t) && Count(v) == 1
  {
    hide Enter;
    assert VisitFrom(l, v, 0, |frames| + 1, e) == Ok(e);
  }

  datatype Visiting = Visiting(node: Json, depth: nat)

  function NodeOf(c: Option<Visiting>): Option<Json> {
    if c.Some? then Some(c.value.node) else None
  }

  // The iterative inspection computes the recursive one, with at most one frame for
  // every level of nesting; peak is the largest number of frames
  // (src/json_value.rs:488-572).
  method InspectJson(l: Layout, v: Json) returns (r: Result<nat, JsonError>, peak: nat)
    ensures r == match Visit(l, v, 0, Tally(0, 0)) case Ok(t) => Ok(t.charge) case Err(e) => Err(e)
    ensures peak <= MAX_JSON_DEPTH + 1
  {
    hide Enter, Visit, VisitFrom, Resume, Continue, Count, CountFrom, CountFrames;
    var current := Some(Visiting(v, 0));
    var parents: seq<Frame> := [];
    Started(l, v);
    var tally := Tally(0, 0);
    peak := 0;
    while current.Some?
      invariant FramesOk(parents) && (current.None? ==> parents == []) && peak <= MAX_JSON_DEPTH + 1
      invariant current.Some? ==> current.value.depth == |parents|
      invariant Continue(l, NodeOf(current), parents, tally) == Visit(l, v, 0, Tally(0, 0))
      decreases (if current.Some? then Count(current.value.node) else 0) + CountFrames(parents)
    {
      var node, depth := current.value.node, current.value.depth;
      var entered := Enter(l, node, depth, tally);
      if entered.Err? {
        Refused(l, node, parents, tally);
        return Err(entered.error), peak;
      }
      DepthOk(l, node, depth, tally);
      current := None;
      if IsContainer(node) {
        EnterContainer(l, node, parents, tally, entered.value);
        ContainerCount(node, parents);
        var children := Children(node);
        if |children| > 0 {
          current := Some(Visiting(children[0], depth + 1));
        }
        parents := parents + [Frame(node, if |children| > 0 then 1 else 0, depth + 1)];
        peak := if peak < |parents| then |parents| else peak;
      } else {
        EnterLeaf(l, node, parents, tally, entered.value);
      }
      tally := entered.value;
      ghost var work := (if current.Some? then Count(current.value.node) else 0) + CountFrames(parents);
      while current.None? && |parents| > 0
        invariant FramesOk(parents)
        invariant current.Some? ==> current.value.depth == |parents|
        invariant Continue(l, NodeOf(current), parents, tally) == Visit(l, v, 0, Tally(0, 0))
        invariant (if current.Some? then Count(current.value.node) else 0) + CountFrames(parents) == work
        decreases |parents|, current.None?
      {
        var top := parents[|parents| - 1];
        if top.next < |Children(top.node)| {
          NextChild(l, parents, tally);
          current := Some(Visiting(Children(top.node)[top.next], top.depth));
          parents := parents[|parents| - 1 := top.(next := top.next + 1)];
        } else {
          PopFrame(l, parents, tally);
          parents := parents[..|parents| - 1];
        }
      }
    }
    Finished(l, tally);
    r := Ok(tally.charge);
  }

  lemma Started(l: Layout, v: Json)
    ensures FramesOk([]) && Continue(l, Some(v), [], Tally(0, 0)) == Visit(l, v, 0, Tally(0, 0))
  {
  }

  lemma Finished(l: Layout, t: Tally)
    ensures Continue(l, None, [], t) == Ok(t)
  {
  }

  lemma Refused(l: Layout, v: Json, frames: seq<Frame>, t: Tally)
    requires FramesOk(frames) && Enter(l, v, |frames|, t).Err?
    ensures Continue(l, Some(v), frames, t) == Enter(l, v, |frames|, t)
  {
  }

  lemma DepthOk(l: Layout, v: Json, depth: nat, t: Tally)
    ensures Enter(l, v, depth, t).Ok? ==> depth <= MAX_JSON_DEPTH
    ensures IsContainer(v) || Children(v) == []
  {
  }

  lemma PopFrame(l: Layout, frames: seq<Frame>, t: Tally)
    requires FramesOk(frames) && |frames| > 0
    requires frames[|frames| - 1].next == |Children(frames[|frames| - 1].node)|
    ensures FramesOk(frames[..|frames| - 1])
    ensures Continue(l, None, frames[..|frames| - 1], t) == Continue(l, None, frames, t)
    ensures CountFrames(frames[..|frames| - 1]) == CountFrames(frames)
  {
  }

  lemma NextChild(l: Layout, frames: seq<Frame>, t: Tally)
    requires FramesOk(frames) && |frames| > 0
    requires frames[|frames| - 1].next < |Children(frames[|frames| - 1].node)|
    ensures
      var top := frames[|frames| - 1];
      var child := Children(top.node)[top.next];
      var after := frames[|frames| - 1 := top.(next := top.next + 1)];
      && FramesOk(after)
      && Continue(l, Some(child), after, t) == Continue(l, None, frames, t)
      && Count(child) + CountFrames(after) == CountFrames(frames)
  {
    var top := frames[|frames| - 1];
    var after := frames[|frames| - 1 := top.(next := top.next + 1)];
    assert after[..|after| - 1] == frames[..|frames| - 1];
  }

  // ----- what the inspection means

  function Deeper(a: nat, b: nat): nat {
    if a < b then b else a
  }

  // Levels of nesting below a node.
  function Height(v: Json): nat
    decreases v, |Children(v)| + 1
  {
    HeightFrom(v, 0)
  }

  function HeightFrom(v: Json, k: nat): nat
    requires k <= |Children(v)|
    decreases v, |Children(v)| - k
  {
    if k == |Children(v)| then 0 else Deeper(1 + Height(Children(v)[k]), HeightFrom(v, k + 1))
  }

  predicate NumbersOk(v: Json)
    decreases v, |Children(v)| + 1
  {
    (v.Num? ==> NumberOk(v.number)) && NumbersOkFrom(v, 0)
  }

  predicate NumbersOkFrom(v: Json, k: nat)
    requires k <= |Children(v)|
    decreases v, |Children(v)| - k
  {
    k == |Children(v)| || (NumbersOk(Children(v)[k]) && NumbersOkFrom(v, k + 1))
  }

  // A tree is admitted exactly when it has few enough nodes, is shallow enough and all
  // its numbers are safe; and then every node was counted once.
  lemma {:induction false} VisitAdmits(l: Layout, v: Json, depth: nat, t: Tally)
    ensures Visit(l, v, depth, t).Ok? <==>
      t.nodes + Count(v) <= MAX_JSON_NODES && depth + Height(v) <= MAX_JSON_DEPTH && NumbersOk(v)
    ensures Visit(l, v, depth, t).Ok? ==> Visit(l, v, depth, t).value.nodes == t.nodes + Count(v)
    decreases v, |Children(v)| + 1
  {
    hide AddCharge, KeyCharges, ObjectCharge, NumberOk;
    var entered := Enter(l, v, depth, t);
    if entered.Ok? {
      VisitFromAdmits(l, v, 0, depth + 1, entered.value);
    }
  }

  lemma {:induction false} VisitFromAdmits(l: Layout, v: Json, k: nat, depth: nat, t: Tally)
    requires k <= |Children(v)| && 0 < depth <= MAX_JSON_DEPTH + 1 && t.nodes <= MAX_JSON_NODES
    ensures VisitFrom(l, v, k, depth, t).Ok? <==>
      t.nodes + CountFrom(v, k) <= MAX_JSON_NODES && depth - 1 + HeightFrom(v, k) <= MAX_JSON_DEPTH && NumbersOkFrom(v, k)
    ensures VisitFrom(l, v, k, depth, t).Ok? ==> VisitFrom(l, v, k, depth, t).value.nodes == t.nodes + CountFrom(v, k)
    decreases v, |Children(v)| - k
  {
    hide Enter;
    if k < |Children(v)| {
      VisitAdmits(l, Children(v)[k], depth, t);
      var visited := Visit(l, Children(v)[k], depth, t);
      if visited.Ok? {
        VisitFromAdmits(l, v, k + 1, depth, visited.value);
      }
    }
  }

  // What one allocation adds, where a charge that cannot be computed counts as the largest word.
  function Owed(charge: Option<nat>): nat {
    if charge.Some? then charge.value else Credit.MAX_WORD
  }

  function KeysOwed(fields: seq<Field>): nat {
    if |fields| == 0 then 0
    else KeysOwed(fields[..|fields| - 1]) + Owed(Credit.ByteBufferCharge(fields[|fields| - 1].keyCapacity))
  }

  function OwnCharge(l: Layout, v: Json): nat {
    match v
    case Text(_, capacity) => Owed(Credit.ByteBufferCharge(capacity))
    case Arr(_, capacity) => Owed(Credit.VecBackingCharge(l.valueSize, 8, capacity))
    case Obj(fields) => Owed(ObjectCharge(l, |fields|)) + KeysOwed(fields)
    case _ => 0
  }

  // No allocation of a node is charged less than what it holds.
  lemma OwnChargeCovers(l: Layout, v: Json)
    ensures v.Text? && v.capacity <= Credit.MAX_WORD ==> OwnCharge(l, v) >= v.capacity
    ensures v.Arr? && v.capacity * l.valueSize <= Credit.MAX_WORD ==> OwnCharge(l, v) >= v.capacity * l.valueSize
  {
    if v.Text? {
      HeapCovers(v.capacity, 1, 0);
    } else if v.Arr? {
      HeapCovers(v.capacity * l.valueSize, 8, 3);
      AtLeastZero(v.capacity, l.valueSize);
    }
  }

  lemma AtLeastZero(n: nat, x: nat)
    ensures n * x >= 0 && (x == 0 ==> n * x == 0)
  {
  }

  lemma HeapCovers(size: nat, align: nat, k: nat)
    requires (align == 1 && k == 0) || (align == 8 && k == 3)
    ensures size <= Credit.MAX_WORD ==> Owed(Credit.HeapAllocationCharge(size, align)) >= size
  {
    assert align == Credit.Pow2(k);
    assert Credit.IsPowerOfTwo(align);
    if size > 0 && Credit.HeapAllocationCharge(size, align).Some? {
      Credit.ChargeCovers(size, align);
    }
  }

  function TotalCharge(l: Layout, v: Json): nat
    decreases v, |Children(v)| + 1
  {
    OwnCharge(l, v) + TotalChargeFrom(l, v, 0)
  }

  function TotalChargeFrom(l: Layout, v: Json, k: nat): nat
    requires k <= |Children(v)|
    decreases v, |Children(v)| - k
  {
    if k == |Children(v)| then 0 else TotalCharge(l, Children(v)[k]) + TotalChargeFrom(l, v, k + 1)
  }

  function Saturate(n: nat): nat {
    if n <= Credit.MAX_WORD then n else Credit.MAX_WORD
  }

  lemma {:induction false} KeysSaturate(total: nat, owed: nat, fields: seq<Field>)
    requires total == Saturate(owed)
    ensures KeyCharges(total, fields) == Saturate(owed + KeysOwed(fields))
  {
    if |fields| > 0 {
      KeysSaturate(total, owed, fields[..|fields| - 1]);
    }
  }

  // The charge of an admitted tree is the sum of the charges of all its allocations,
  // as far as a word can tell.
  lemma {:induction false} VisitCharges(l: Layout, v: Json, depth: nat, t: Tally, owed: nat)
    requires Visit(l, v, depth, t).Ok? && t.charge == Saturate(owed)
    ensures Visit(l, v, depth, t).value.charge == Saturate(owed + TotalCharge(l, v))
    decreases v, |Children(v)| + 1
  {
    hide NumberOk, ObjectCharge;
    if v.Obj? {
      var first := AddCharge(t.charge, ObjectCharge(l, |v.fields|));
      KeysSaturate(first, owed + Owed(ObjectCharge(l, |v.fields|)), v.fields);
    }
    var entered := Enter(l, v, depth, t);
    VisitFromCharges(l, v, 0, depth + 1, entered.value, owed + OwnCharge(l, v));
  }

  lemma {:induction false} VisitFromCharges(l: Layout, v: Json, k: nat, depth: nat, t: Tally, owed: nat)
    requires k <= |Children(v)| && VisitFrom(l, v, k, depth, t).Ok? && t.charge == Saturate(owed)
    ensures VisitFrom(l, v, k, depth, t).value.charge == Saturate(owed + TotalChargeFrom(l, v, k))
    decreases v, |Children(v)| - k
  {
    hide Enter;
    if k < |Children(v)| {
      VisitCharges(l, Children(v)[k], depth, t, owed);
      VisitFromCharges(l, v, k + 1, depth, Visit(l, Children(v)[k], depth, t).value, owed + TotalCharge(l, Children(v)[k]));
    }
  }

  // ----- dropping a tree

  // A node before its children, the children in order.
  function Preorder(v: Json): seq<Json>
    decreases v, |Children(v)| + 1
  {
    [v] + PreorderFrom(v, 0)
  }

  function PreorderFrom(v: Json, k: nat): seq<Json>
    requires k <= |Children(v)|
    decreases v, |Children(v)| - k
  {
    if k == |Children(v)| then [] else Preorder(Children(v)[k]) + PreorderFrom(v, k + 1)
  }

  lemma {:induction false} PreorderCounts(v: Json)
    ensures |Preorder(v)| == Count(v)
    decreases v, |Children(v)| + 1
  {
    PreorderFromCounts(v, 0);
  }

  lemma {:induction false} PreorderFromCounts(v: Json, k: nat)
    requires k <= |Children(v)|
    ensures |PreorderFrom(v, k)| == CountFrom(v, k)
    decreases v, |Children(v)| - k
  {
    if k < |Children(v)| {
      PreorderCounts(Children(v)[k]);
      PreorderFromCounts(v, k + 1);
    }
  }

  // A container whose children from next on are still to be dropped.
  datatype Owner = Owner(node: Json, next: nat)

  predicate OwnersOk(owners: seq<Owner>) {
    forall i :: 0 <= i < |owners| ==> owners[i].next <= |Children(owners[i].node)|
  }

  // What is left to be dropped, innermost owner first.
  function Left(owners: seq<Owner>): seq<Json>
    requires OwnersOk(owners)
  {
    if |owners| == 0 then []
    else PreorderFrom(owners[|owners| - 1].node, owners[|owners| - 1].next) + Left(owners[..|owners| - 1])
  }

  function LeftWith(current: Option<Json>, owners: seq<Owner>): seq<Json>
    requires OwnersOk(owners)
  {
    (if current.Some? then Preorder(current.value) else []) + Left(owners)
  }

  lemma DropNext(v: Json, owners: seq<Owner>)
    requires OwnersOk(owners)
    ensures
      var after := owners + [Owner(v, if |Children(v)| > 0 then 1 else 0)];
      && OwnersOk(after)
      && LeftWith(Some(v), owners) == [v] + LeftWith(FirstChild(v), after)
    ensures Children(v) == [] ==> LeftWith(Some(v), owners) == [v] + LeftWith(None, owners)
  {
    hide Preorder, PreorderFrom, Children;
    var next := if |Children(v)| > 0 then 1 else 0;
    var after := owners + [Owner(v, next)];
    assert after[..|owners|] == owners;
    assert Left(after) == PreorderFrom(v, next) + Left(owners);
    PreorderSplits(v);
    if |Children(v)| > 0 {
      Regroup([v], Preorder(Children(v)[0]), PreorderFrom(v, 1), Left(owners));
    } else {
      assert PreorderFrom(v, 0) == [];
    }
  }

  lemma PreorderSplits(v: Json)
    ensures |Children(v)| == 0 ==> Preorder(v) == [v] && PreorderFrom(v, 0) == []
    ensures |Children(v)| > 0 ==> Preorder(v) == [v] + (Preorder(Children(v)[0]) + PreorderFrom(v, 1))
  {
  }

  lemma Regroup(a: seq<Json>, b: seq<Json>, c: seq<Json>, d: seq<Json>)
    ensures (a + (b + c)) + d == a + (b + (c + d))
  {
  }

  lemma DropSibling(owners: seq<Owner>)
    requires OwnersOk(owners) && |owners| > 0 && owners[|owners| - 1].next < |Children(owners[|owners| - 1].node)|
    ensures
      var top := owners[|owners| - 1];
      var after := owners[|owners| - 1 := top.(next := top.next + 1)];
      && OwnersOk(after)
      && LeftWith(None, owners) == LeftWith(Some(Children(top.node)[top.next]), after)
  {
    var top := owners[|owners| - 1];
    var after := owners[|owners| - 1 := top.(next := top.next + 1)];
    assert after[..|after| - 1] == owners[..|owners| - 1];
  }

  lemma DropOwner(owners: seq<Owner>)
    requires OwnersOk(owners) && |owners| > 0 && owners[|owners| - 1].next == |Children(owners[|owners| - 1].node)|
    ensures OwnersOk(owners[..|owners| - 1]) && LeftWith(None, owners[..|owners| - 1]) == LeftWith(None, owners)
  {
  }

  // Drop a tree of any depth without recursion; order lists the nodes as they go. Every
  // node goes exactly once (src/json_value.rs:657-700).
  method DropIteratively(v: Json) returns (order: seq<Json>)
    ensures order == Preorder(v)
  {
    hide Preorder, PreorderFrom, Left, LeftWith;
    order := [];
    var current := Some(v);
    var owners: seq<Owner> := [];
    DropStarts(v);
    while current.Some?
      invariant OwnersOk(owners) && (current.None? ==> owners == [])
      invariant order + LeftWith(current, owners) == Preorder(v)
      decreases |LeftWith(current, owners)|
    {
      var node := current.value;
      DropNext(node, owners);
      order := order + [node];
      current := None;
      if IsContainer(node) {
        var children := Children(node);
        if |children| > 0 {
          current := Some(children[0]);
        }
        owners := owners + [Owner(node, if |children| > 0 then 1 else 0)];
      }
      ghost var left := LeftWith(current, owners);
      while current.None? && |owners| > 0
        invariant OwnersOk(owners) && LeftWith(current, owners) == left
        decreases |owners|, current.None?
      {
        var top := owners[|owners| - 1];
        if top.next < |Children(top.node)| {
          DropSibling(owners);
          current := Some(Children(top.node)[top.next]);
          owners := owners[|owners| - 1 := top.(next := top.next + 1)];
        } else {
          DropOwner(owners);
          owners := owners[..|owners| - 1];
        }
      }
    }
    DropEnds(order);
  }

  lemma DropStarts(v: Json)
    ensures OwnersOk([]) && [] + LeftWith(Some(v), []) == Preorder(v)
  {
  }

  lemma DropEnds(order: seq<Json>)
    ensures order + LeftWith(None, []) == order
  {
  }
}
