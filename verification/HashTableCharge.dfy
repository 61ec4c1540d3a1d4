// The charge of a hash table that is reserved once for a bounded number of entries
// (src/resident_credit.rs:335-355).
module HashTableCharge {
  import opened Common
  import opened ResidentCredit

  // The least power of two from the k-th on that is not below n.
  function PowerFrom(n: nat, k: nat): nat
    decreases n - Pow2(k)
  {
    if Pow2(k) >= n then Pow2(k) else PowerFrom(n, k + 1)
  }

  lemma {:induction false} PowerFromIsLeast(n: nat, k: nat)
    ensures PowerFrom(n, k) >= n && exists j: nat :: j >= k && PowerFrom(n, k) == Pow2(j)
    ensures forall j: nat :: j >= k && Pow2(j) >= n ==> PowerFrom(n, k) <= Pow2(j)
    decreases n - Pow2(k)
  {
    if Pow2(k) >= n {
      forall j: nat | j >= k
        ensures Pow2(k) <= Pow2(j)
      {
        PowMonotone(k, j);
      }
    } else {
      PowerFromIsLeast(n, k + 1);
    }
  }

  function CheckedNextPowerOfTwo(n: nat): Option<nat> {
    var power := PowerFrom(n, 0);
    if power <= MAX_WORD then Some(power) else None
  }

  // Twice the next power of two, and at least sixteen buckets.
  function Buckets(entries: nat): Option<nat> {
    var power := CheckedNextPowerOfTwo(entries);
    if power.None? then None
    else
      var doubled := CheckedMul(power.value, 2);
      if doubled.None? then None else Some(Larger(doubled.value, 16))
  }

  function TableCharge(entries: nat, elementSize: nat, elementAlign: nat): Option<nat>
    requires 0 < elementAlign <= MAX_WORD + 1
  {
    if entries == 0 then Some(0)
    else
      var buckets := Buckets(entries);
      if buckets.None? then None
      else
        var slots := CheckedMul(buckets.value, elementSize);
        var controls := CheckedAdd(buckets.value, 16);
        if slots.None? || controls.None? then None
        else
          var bytes := CheckedAdd(slots.value, controls.value);
          if bytes.None? then None else HeapAllocationCharge(bytes.value, Larger(elementAlign, 8))
  }

  lemma {:induction false} PowBelow(k: nat, w: nat)
    requires Pow2(k) < Pow2(w)
    ensures k < w
  {
    if k >= w {
      PowMonotone(w, k);
      assert false;
    }
  }

  lemma BucketsArePower(entries: nat)
    requires Buckets(entries).Some?
    ensures IsPowerOfTwo(Buckets(entries).value) && Buckets(entries).value >= 16
    ensures 2 * entries <= Buckets(entries).value
  {
    PowerFromIsLeast(entries, 0);
    var j: nat :| PowerFrom(entries, 0) == Pow2(j);
    assert Pow2(j + 1) == 2 * Pow2(j) && Pow2(4) == 16;
    WordIsPower();
    PowBelow(j + 1, WORD_BITS);
  }

  lemma AlignIsPower(align: nat)
    requires IsPowerOfTwo(align)
    ensures IsPowerOfTwo(Larger(align, 8))
  {
    assert Pow2(3) == 8;
  }

  // The charge covers a table whose buckets, each with its control byte, hold the
  // entries at a load of at most seven eighths.
  lemma TableChargeCovers(entries: nat, elementSize: nat, elementAlign: nat)
    requires IsPowerOfTwo(elementAlign) && 0 < elementAlign <= MAX_WORD + 1 && entries > 0
    requires TableCharge(entries, elementSize, elementAlign).Some?
    ensures Buckets(entries).Some?
    ensures
      var buckets := Buckets(entries).value;
      && IsPowerOfTwo(buckets) && 8 * entries <= 7 * buckets
      && TableCharge(entries, elementSize, elementAlign).value
           >= buckets * elementSize + (buckets + 16) + HEAP_ALLOCATION_OVERHEAD
  {
    hide IsPowerOfTwo, HeapAllocationCharge, Buckets;
    BucketsArePower(entries);
    AlignIsPower(elementAlign);
    var buckets := Buckets(entries).value;
    ChargeCovers(buckets * elementSize + (buckets + 16), Larger(elementAlign, 8));
  }

  lemma BucketsMonotone(small: nat, large: nat)
    requires small <= large && Buckets(large).Some?
    ensures Buckets(small).Some? && Buckets(small).value <= Buckets(large).value
  {
    PowerFromIsLeast(small, 0);
    PowerFromIsLeast(large, 0);
    var j: nat :| PowerFrom(large, 0) == Pow2(j);
  }

  // A table for fewer entries is never charged more.
  lemma TableChargeMonotone(small: nat, large: nat, elementSize: nat, elementAlign: nat)
    requires IsPowerOfTwo(elementAlign) && 0 < elementAlign <= MAX_WORD + 1 && small <= large
    requires TableCharge(large, elementSize, elementAlign).Some?
    ensures TableCharge(small, elementSize, elementAlign).Some?
    ensures TableCharge(small, elementSize, elementAlign).value <= TableCharge(large, elementSize, elementAlign).value
  {
    if small > 0 {
      hide IsPowerOfTwo, HeapAllocationCharge, Buckets;
      BucketsMonotone(small, large);
      AlignIsPower(elementAlign);
      var few, many := Buckets(small).value, Buckets(large).value;
      TimesStep(elementSize, few, many);
      assert few * elementSize <= many * elementSize;
      ChargeMonotone(few * elementSize + (few + 16), many * elementSize + (many + 16), Larger(elementAlign, 8));
    }
  }
}
