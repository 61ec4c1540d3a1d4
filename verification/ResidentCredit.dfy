// Credits for resident memory: what one allocation is charged, and one counter that
// every owner of a lease updates (src/resident_credit.rs).
module ResidentCredit {
  import opened Common

  // ----- machine words

  function Pow2(k: nat): (r: nat)
    ensures r >= 1
  {
    if k == 0 then 1 else 2 * Pow2(k - 1)
  }

  const WORD_BITS: nat := 64
  const MAX_WORD: nat := 0xFFFF_FFFF_FFFF_FFFF

  // Bitwise and, bit by bit from the lowest.
  function And(x: nat, y: nat): nat
    decreases x
  {
    if x == 0 || y == 0 then 0 else 2 * And(x / 2, y / 2) + (x % 2) * (y % 2)
  }

  // Bitwise complement of a word.
  function Not(y: nat): nat
    requires y <= MAX_WORD
  {
    MAX_WORD - y
  }

  function CheckedAdd(a: nat, b: nat): Option<nat> {
    if a + b <= MAX_WORD then Some(a + b) else None
  }

  function CheckedMul(a: nat, b: nat): Option<nat> {
    if a * b <= MAX_WORD then Some(a * b) else None
  }

  lemma {:induction false} AndOnes(x: nat, w: nat)
    requires x < Pow2(w)
    ensures And(x, Pow2(w) - 1) == x
  {
    if w > 0 && x > 0 {
      assert (Pow2(w) - 1) / 2 == Pow2(w - 1) - 1 && (Pow2(w) - 1) % 2 == 1;
      AndOnes(x / 2, w - 1);
    }
  }

  lemma {:induction false} PowMonotone(k: nat, w: nat)
    requires k <= w
    ensures Pow2(k) <= Pow2(w)
  {
    if k < w {
      PowMonotone(k, w - 1);
    }
  }

  lemma AndEven(x: nat, y: nat)
    ensures And(x, 2 * y) == 2 * And(x / 2, y)
  {
    assert (2 * y) / 2 == y && (2 * y) % 2 == 0;
  }

  // Clearing the low k bits takes the remainder away.
  lemma {:induction false} AndClears(x: nat, w: nat, k: nat)
    requires x < Pow2(w) && k <= w
    ensures Pow2(k) <= Pow2(w) && And(x, Pow2(w) - Pow2(k)) == x - x % Pow2(k)
  {
    PowMonotone(k, w);
    if k == 0 {
      AndOnes(x, w);
    } else {
      hide And;
      AndClears(x / 2, w - 1, k - 1);
      AndEven(x, Pow2(w - 1) - Pow2(k - 1));
      HalfRemainder(x, Pow2(k - 1));
    }
  }

  lemma HalfRemainder(x: nat, m: nat)
    requires m > 0
    ensures x % (2 * m) == 2 * ((x / 2) % m) + x % 2
  {
    var q, r := (x / 2) / m, (x / 2) % m;
    assert x == (2 * m) * q + (2 * r + x % 2) by {
      assert x / 2 == m * q + r;
      assert (2 * m) * q == 2 * (m * q);
    }
    RemainderIs(x, 2 * m, q, 2 * r + x % 2);
  }

  lemma RemainderIs(x: nat, m: nat, q: nat, r: nat)
    requires m > 0 && r < m && x == m * q + r
    ensures x % m == r
  {
    var d := x / m - q;
    assert m * (x / m) + x % m == x;
    assert m * d == m * (x / m) - m * q;
    TimesStep(m, 1, d);
    TimesStep(m, d, -1);
  }

  lemma TimesStep(m: nat, low: int, high: int)
    ensures low <= high ==> m * low <= m * high
  {
  }

  lemma {:induction false} PowAdd(a: nat, b: nat)
    ensures Pow2(a + b) == Pow2(a) * Pow2(b)
  {
    if b > 0 {
      PowAdd(a, b - 1);
    }
  }

  lemma HalfWord()
    ensures Pow2(32) == 0x1_0000_0000
  {
    assert Pow2(4) == 16;
    PowAdd(4, 4);
    PowAdd(8, 8);
    PowAdd(16, 16);
  }

  lemma WordIsPower()
    ensures MAX_WORD == Pow2(WORD_BITS) - 1
  {
    hide Pow2;
    HalfWord();
    PowAdd(32, 32);
  }

  // ----- the charge of one allocation

  const HEAP_ALLOCATION_OVERHEAD: nat := 32
  const HEAP_ALIGNMENT: nat := 16

  ghost predicate IsPowerOfTwo(align: nat) {
    exists k: nat :: k < WORD_BITS && align == Pow2(k)
  }

  // Round up by adding and masking (src/resident_credit.rs:379-384).
  function RoundUp(value: nat, align: nat): Option<nat>
    requires 0 < align <= MAX_WORD + 1
  {
    var raised := CheckedAdd(value, align - 1);
    if raised.None? then None else Some(And(raised.value, Not(align - 1)))
  }

  lemma RoundUpValue(value: nat, align: nat)
    requires IsPowerOfTwo(align) && 0 < align <= MAX_WORD + 1 && value + align - 1 <= MAX_WORD
    ensures RoundUp(value, align) == Some((value + align - 1) - (value + align - 1) % align)
  {
    hide And, Pow2;
    var k: nat :| k < WORD_BITS && align == Pow2(k);
    WordIsPower();
    AndClears(value + (align - 1), WORD_BITS, k);
  }

  // The mask finds the least multiple of the alignment that is not below the value.
  lemma RoundUpIsLeast(value: nat, align: nat)
    requires IsPowerOfTwo(align) && 0 < align <= MAX_WORD + 1
    ensures RoundUp(value, align).Some? <==> value + align - 1 <= MAX_WORD
    ensures RoundUp(value, align).Some? ==>
      var r := RoundUp(value, align).value;
      && r % align == 0
      && value <= r < value + align
      && forall m: nat :: m % align == 0 && value <= m ==> r <= m
  {
    hide And, IsPowerOfTwo;
    if value + align - 1 <= MAX_WORD {
      RoundUpValue(value, align);
      MultipleBelow(value + align - 1, align);
      var r := RoundUp(value, align).value;
      forall m: nat | m % align == 0 && value <= m
        ensures r <= m
      {
        NoMultipleBetween(r, m, align);
      }
    }
  }

  lemma MultipleBelow(x: nat, align: nat)
    requires align > 0
    ensures (x - x % align) % align == 0 && x - align < x - x % align <= x
  {
    var q := x / align;
    assert x - x % align == align * q;
    RemainderIs(align * q, align, q, 0);
  }

  // Multiples are at least the alignment apart.
  lemma NoMultipleBetween(r: nat, m: nat, align: nat)
    requires align > 0 && r % align == 0 && m % align == 0 && r < m + align
    ensures r <= m
  {
    var q, p := r / align, m / align;
    assert r == align * q && m == align * p;
    TimesStep(align, p + 1, q);
    TimesStep(align, q, p);
  }

  function Larger(a: nat, b: nat): nat {
    if a < b then b else a
  }

  // What one allocation is charged (src/resident_credit.rs:370-377).
  function HeapAllocationCharge(size: nat, align: nat): Option<nat>
    requires 0 < align <= MAX_WORD + 1
  {
    if size == 0 then Some(0)
    else
      var rounded := RoundUp(size, Larger(align, HEAP_ALIGNMENT));
      if rounded.None? then None else CheckedAdd(rounded.value, HEAP_ALLOCATION_OVERHEAD)
  }

  function ByteBufferCharge(capacity: nat): Option<nat> {
    HeapAllocationCharge(capacity, 1)
  }

  // A backing of capacity elements of a given size and alignment
  // (src/resident_credit.rs:327-333).
  function VecBackingCharge(elementSize: nat, elementAlign: nat, capacity: nat): Option<nat>
    requires 0 < elementAlign <= MAX_WORD + 1
  {
    if elementSize == 0 then Some(0)
    else
      var bytes := CheckedMul(capacity, elementSize);
      if bytes.None? then None else HeapAllocationCharge(bytes.value, elementAlign)
  }

  lemma HeapAlignmentIsPower()
    ensures IsPowerOfTwo(HEAP_ALIGNMENT)
  {
    assert Pow2(4) == HEAP_ALIGNMENT;
  }

  // A charge covers the allocation and its overhead, and the padding is less than one
  // alignment.
  lemma ChargeCovers(size: nat, align: nat)
    requires IsPowerOfTwo(align) && 0 < align <= MAX_WORD + 1 && size > 0
    requires HeapAllocationCharge(size, align).Some?
    ensures
      var charge := HeapAllocationCharge(size, align).value;
      size + HEAP_ALLOCATION_OVERHEAD <= charge < size + Larger(align, HEAP_ALIGNMENT) + HEAP_ALLOCATION_OVERHEAD
  {
    HeapAlignmentIsPower();
    RoundUpIsLeast(size, Larger(align, HEAP_ALIGNMENT));
  }

  // A larger allocation is never charged less, and if it can be charged so can the
  // smaller one.
  lemma ChargeMonotone(small: nat, large: nat, align: nat)
    requires IsPowerOfTwo(align) && 0 < align <= MAX_WORD + 1 && small <= large
    requires HeapAllocationCharge(large, align).Some?
    ensures HeapAllocationCharge(small, align).Some?
    ensures HeapAllocationCharge(small, align).value <= HeapAllocationCharge(large, align).value
  {
    if small > 0 {
      HeapAlignmentIsPower();
      RoundUpIsLeast(small, Larger(align, HEAP_ALIGNMENT));
      RoundUpIsLeast(large, Larger(align, HEAP_ALIGNMENT));
    }
  }

  // ----- the counter and its leases, step by step

  datatype Lease = Live(pool: nat, bytes: nat) | Dropped

  datatype Pool = Pool(limit: nat, used: nat)

  // All pools and all leases ever made; dropping a lease leaves its number behind.
  datatype Credits = Credits(pools: seq<Pool>, leases: seq<Lease>)

  // What a lease holds of one pool.
  function Share(l: Lease, pool: nat): nat {
    if l.Live? && l.pool == pool then l.bytes else 0
  }

  function Held(leases: seq<Lease>, pool: nat): nat {
    if |leases| == 0 then 0 else Held(leases[..|leases| - 1], pool) + Share(leases[|leases| - 1], pool)
  }

  // One atomic action of some owner.
  datatype Action =
    | Acquire(into: nat, bytes: nat)
    | SplitOff(lease: nat, bytes: nat)
    | Merge(lease: nat, other: nat)
    | Drop(lease: nat)

  predicate IsLive(c: Credits, lease: nat) {
    lease < |c.leases| && c.leases[lease].Live? && c.leases[lease].pool < |c.pools|
  }

  predicate CanAct(c: Credits, a: Action) {
    match a
    case Acquire(pool, _) => pool < |c.pools|
    case SplitOff(lease, _) => IsLive(c, lease)
    case Merge(lease, other) => IsLive(c, lease) && IsLive(c, other) && lease != other
    case Drop(lease) => IsLive(c, lease)
  }

  // A refused acquisition, split or merge changes nothing here; the owner of a refused
  // merge still holds the other lease, and drops it in a later action.
  function Act(c: Credits, a: Action): Credits
    requires CanAct(c, a)
  {
    match a
    case Acquire(pool, bytes) =>
      var next := CheckedAdd(c.pools[pool].used, bytes);
      if next.None? || next.value > c.pools[pool].limit then c
      else Credits(c.pools[pool := c.pools[pool].(used := next.value)], c.leases + [Live(pool, bytes)])
    case SplitOff(lease, bytes) =>
      var l := c.leases[lease];
      if bytes > l.bytes then c
      else c.(leases := c.leases[lease := l.(bytes := l.bytes - bytes)] + [Live(l.pool, bytes)])
    case Merge(lease, other) =>
      var l, o := c.leases[lease], c.leases[other];
      if l.pool != o.pool || CheckedAdd(l.bytes, o.bytes).None? then c
      else c.(leases := c.leases[lease := l.(bytes := l.bytes + o.bytes)][other := o.(bytes := 0)])
    case Drop(lease) =>
      var l := c.leases[lease];
      var pool := c.pools[l.pool];
      Credits(c.pools[l.pool := pool.(used := if l.bytes <= pool.used then pool.used - l.bytes else 0)], c.leases[lease := Dropped])
  }

  // Every byte a pool counts is held by exactly one live lease, and no pool is over its limit.
  ghost predicate Conserved(c: Credits) {
    && (forall p :: 0 <= p < |c.pools| ==> c.pools[p].used == Held(c.leases, p) && c.pools[p].used <= c.pools[p].limit)
    && (forall i :: 0 <= i < |c.leases| ==> c.leases[i].Live? ==> c.leases[i].pool < |c.pools|)
  }

  lemma HeldPush(leases: seq<Lease>, l: Lease, pool: nat)
    ensures Held(leases + [l], pool) == Held(leases, pool) + Share(l, pool)
  {
    assert (leases + [l])[..|leases|] == leases;
  }

  lemma {:induction false} HeldUpdate(leases: seq<Lease>, i: nat, l: Lease, pool: nat)
    requires i < |leases|
    ensures Held(leases[i := l], pool) + Share(leases[i], pool) == Held(leases, pool) + Share(l, pool)
  {
    var last := |leases| - 1;
    if i == last {
      assert leases[i := l][..last] == leases[..last];
    } else {
      assert leases[i := l][..last] == leases[..last][i := l];
      HeldUpdate(leases[..last], i, l, pool);
    }
  }

  lemma {:induction false} HeldAtLeast(leases: seq<Lease>, i: nat, pool: nat)
    requires i < |leases|
    ensures Share(leases[i], pool) <= Held(leases, pool)
  {
    if i < |leases| - 1 {
      HeldAtLeast(leases[..|leases| - 1], i, pool);
    }
  }

  // An action moves what a pool counts by as much as what its leases hold.
  ghost predicate Balanced(c: Credits, d: Credits, p: nat)
    requires p < |c.pools|
  {
    && |d.pools| == |c.pools|
    && d.pools[p].limit == c.pools[p].limit
    && d.pools[p].used - c.pools[p].used == Held(d.leases, p) - Held(c.leases, p)
    && (d.pools[p].used <= c.pools[p].used || d.pools[p].used <= d.pools[p].limit)
  }

  lemma AcquireBalances(c: Credits, pool: nat, bytes: nat, p: nat)
    requires CanAct(c, Acquire(pool, bytes)) && p < |c.pools|
    ensures Balanced(c, Act(c, Acquire(pool, bytes)), p)
  {
    hide Held;
    HeldPush(c.leases, Live(pool, bytes), p);
  }

  lemma SplitBalances(c: Credits, lease: nat, bytes: nat, p: nat)
    requires CanAct(c, SplitOff(lease, bytes)) && p < |c.pools|
    ensures Balanced(c, Act(c, SplitOff(lease, bytes)), p)
  {
    hide Held;
    var l := c.leases[lease];
    if bytes <= l.bytes {
      HeldUpdate(c.leases, lease, l.(bytes := l.bytes - bytes), p);
      HeldPush(c.leases[lease := l.(bytes := l.bytes - bytes)], Live(l.pool, bytes), p);
    }
  }

  lemma MergeBalances(c: Credits, lease: nat, other: nat, p: nat)
    requires CanAct(c, Merge(lease, other)) && p < |c.pools|
    ensures Balanced(c, Act(c, Merge(lease, other)), p)
  {
    hide Held;
    var l, o := c.leases[lease], c.leases[other];
    HeldUpdate(c.leases, lease, l.(bytes := l.bytes + o.bytes), p);
    HeldUpdate(c.leases[lease := l.(bytes := l.bytes + o.bytes)], other, o.(bytes := 0), p);
  }

  lemma DropBalances(c: Credits, lease: nat, p: nat)
    requires CanAct(c, Drop(lease)) && p < |c.pools| && Conserved(c)
    ensures Balanced(c, Act(c, Drop(lease)), p)
  {
    hide Held;
    HeldAtLeast(c.leases, lease, p);
    HeldUpdate(c.leases, lease, Dropped, p);
  }

  lemma ActConserves(c: Credits, a: Action)
    requires Conserved(c) && CanAct(c, a)
    ensures Conserved(Act(c, a))
  {
    hide Held;
    forall p | 0 <= p < |c.pools|
      ensures Act(c, a).pools[p].used == Held(Act(c, a).leases, p) && Act(c, a).pools[p].used <= Act(c, a).pools[p].limit
    {
      match a {
        case Acquire(pool, bytes) => AcquireBalances(c, pool, bytes, p);
        case SplitOff(lease, bytes) => SplitBalances(c, lease, bytes, p);
        case Merge(lease, other) => MergeBalances(c, lease, other, p);
        case Drop(lease) => DropBalances(c, lease, p);
      }
    }
    assert |Act(c, a).pools| == |c.pools|;
  }

  function Perform(c: Credits, actions: seq<Action>): Credits
    decreases |actions|
  {
    if |actions| == 0 then c
    else if CanAct(c, actions[0]) then Perform(Act(c, actions[0]), actions[1..])
    else Perform(c, actions[1..])
  }

  // Whatever the owners do in whatever order, no byte is lost or counted twice; an
  // action on a lease that is gone cannot be expressed by its owner and is skipped.
  lemma {:induction false} CreditIsConserved(c: Credits, actions: seq<Action>)
    requires Conserved(c)
    ensures Conserved(Perform(c, actions))
    decreases |actions|
  {
    if |actions| > 0 {
      if CanAct(c, actions[0]) {
        ActConserves(c, actions[0]);
        CreditIsConserved(Act(c, actions[0]), actions[1..]);
      } else {
        CreditIsConserved(c, actions[1..]);
      }
    }
  }

  // A drop never takes the counter below zero, and merging is never refused for its size.
  lemma NothingUnderflows(c: Credits, a: Action)
    requires Conserved(c) && CanAct(c, a)
    requires forall p :: 0 <= p < |c.pools| ==> c.pools[p].limit <= MAX_WORD
    ensures a.Drop? ==> c.leases[a.lease].bytes <= c.pools[c.leases[a.lease].pool].used
    ensures a.Merge? && c.leases[a.lease].pool == c.leases[a.other].pool ==>
      CheckedAdd(c.leases[a.lease].bytes, c.leases[a.other].bytes).Some?
  {
    if a.Drop? {
      HeldAtLeast(c.leases, a.lease, c.leases[a.lease].pool);
    } else if a.Merge? {
      var l, o := c.leases[a.lease], c.leases[a.other];
      HeldUpdate(c.leases, a.lease, l.(bytes := 0), l.pool);
      HeldAtLeast(c.leases[a.lease := l.(bytes := 0)], a.other, l.pool);
    }
  }

  // What an action finds too much: more than the leases of the pool leave of its limit,
  // or more than a lease holds. Only leases of one pool are merged.
  lemma RefusedExactly(c: Credits, a: Action)
    requires Conserved(c) && CanAct(c, a)
    requires forall p :: 0 <= p < |c.pools| ==> c.pools[p].limit <= MAX_WORD
    ensures Act(c, a) == c <==>
      match a
      case Acquire(pool, bytes) => Held(c.leases, pool) + bytes > c.pools[pool].limit
      case SplitOff(lease, bytes) => bytes > c.leases[lease].bytes
      case Merge(lease, other) => c.leases[lease].pool != c.leases[other].pool || c.leases[other].bytes == 0
      case Drop(_) => false
  {
    NothingUnderflows(c, a);
    match a {
      case Acquire(pool, bytes) =>
        assert Act(c, a) != c ==> |Act(c, a).leases| > |c.leases|;
      case SplitOff(lease, bytes) =>
        assert Act(c, a) != c ==> |Act(c, a).leases| > |c.leases|;
      case Merge(lease, other) =>
        var l, o := c.leases[lease], c.leases[other];
        if o.bytes == 0 {
          assert c.leases[lease := l.(bytes := l.bytes + o.bytes)][other := o.(bytes := 0)] == c.leases;
        } else {
          assert c.leases[lease := l.(bytes := l.bytes + o.bytes)][other := o.(bytes := 0)][other] != o;
        }
      case Drop(lease) =>
        assert Act(c, a).leases[lease] == Dropped;
    }
  }
}
