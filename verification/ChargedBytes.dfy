// A byte buffer whose allocation is charged to a pool that other owners use at the
// same time (src/resident_credit.rs:183-299).
module ChargedBytesModel {
  import opened Common
  import opened ResidentCredit

  // An action of others leaves these leases alone.
  predicate Spares(a: Action, own: set<nat>) {
    match a
    case Acquire(_, _) => true
    case SplitOff(lease, _) => lease !in own
    case Merge(lease, other) => lease !in own && other !in own
    case Drop(lease) => lease !in own
  }

  // From c to d no lease was forgotten, these are as they were, and so is the limit.
  predicate Keeps(c: Credits, d: Credits, own: set<nat>) {
    && |c.pools| == 1 == |d.pools| && d.pools[0].limit == c.pools[0].limit
    && |c.leases| <= |d.leases|
    && forall i :: i in own && i < |c.leases| ==> d.leases[i] == c.leases[i]
  }

  lemma ActKeeps(c: Credits, a: Action, own: set<nat>)
    requires |c.pools| == 1 && CanAct(c, a) && Spares(a, own)
    ensures Keeps(c, Act(c, a), own)
  {
  }

  // A pool as one owner of leases sees it: every update is one atomic action, and
  // between any two of its own the other owners may have acted, but never on its leases.
  class CreditPool {
    var credits: Credits
    var own: set<nat>

    ghost predicate Valid()
      reads this
    {
      && |credits.pools| == 1 && credits.pools[0].limit <= MAX_WORD
      && Conserved(credits)
      && forall i :: i in own ==> i < |credits.leases| && credits.leases[i].Live?
    }

    constructor (limit: nat)
      requires limit <= MAX_WORD
      ensures Valid() && credits == Credits([Pool(limit, 0)], []) && own == {}
    {
      credits, own := Credits([Pool(limit, 0)], []), {};
    }

    // The other owners acquire, split, merge and drop leases of their own.
    method OthersAct()
      requires Valid()
      modifies this
      ensures Valid() && own == old(own) && Keeps(old(credits), credits, own)
    {
      var n: nat := *;
      while n > 0
        invariant Valid() && own == old(own) && Keeps(old(credits), credits, own)
      {
        var action: Action := *;
        if CanAct(credits, action) && Spares(action, own) {
          ActConserves(credits, action);
          ActKeeps(credits, action, own);
          credits := Act(credits, action);
        }
        n := n - 1;
      }
    }

    // The atomic update of an acquisition: all of it, or nothing (src/resident_credit.rs:103-120).
    method FetchUpdate(bytes: nat) returns (lease: Option<nat>)
      requires Valid()
      modifies this
      ensures Valid() && credits == Act(old(credits), Acquire(0, bytes))
      ensures lease.Some? <==> old(credits).pools[0].used + bytes <= old(credits).pools[0].limit
      ensures lease.None? ==> own == old(own)
      ensures lease.Some? ==>
        && lease.value == |old(credits).leases| && own == old(own) + {lease.value}
        && credits.leases == old(credits).leases + [Live(0, bytes)]
    {
      var number := |credits.leases|;
      ActConserves(credits, Acquire(0, bytes));
      credits := Act(credits, Acquire(0, bytes));
      if |credits.leases| == number {
        return None;
      }
      own := own + {number};
      lease := Some(number);
    }

    method TryAcquire(bytes: nat) returns (lease: Option<nat>)
      requires Valid()
      modifies this
      ensures Valid() && Keeps(old(credits), credits, old(own))
      ensures lease.None? ==> own == old(own)
      ensures lease.Some? ==>
        && lease.value !in old(own) && own == old(own) + {lease.value}
        && lease.value < |credits.leases| && credits.leases[lease.value] == Live(0, bytes)
    {
      OthersAct();
      lease := FetchUpdate(bytes);
    }

    // One lease takes over the bytes of another, which is then dropped
    // (src/resident_credit.rs:154-181).
    method Absorb(lease: nat, other: nat)
      requires Valid() && lease in own && other in own && lease != other
      modifies this
      ensures Valid() && own == old(own) - {other} && Keeps(old(credits), credits, own - {lease})
      ensures credits.leases[lease] == Live(0, old(credits).leases[lease].bytes + old(credits).leases[other].bytes)
    {
      NothingUnderflows(credits, Merge(lease, other));
      ActConserves(credits, Merge(lease, other));
      credits := Act(credits, Merge(lease, other));
      ActConserves(credits, Drop(other));
      credits := Act(credits, Drop(other));
      own := own - {other};
    }

    // The end of a lease (src/resident_credit.rs:176-181).
    method Release(lease: nat)
      requires Valid() && lease in own
      modifies this
      ensures Valid() && own == old(own) - {lease} && Keeps(old(credits), credits, own)
      ensures lease < |credits.leases| && credits.leases[lease].Dropped?
    {
      OthersAct();
      ActConserves(credits, Drop(lease));
      credits := Act(credits, Drop(lease));
      own := own - {lease};
    }
  }

  datatype ChargedBytesError = Limit | Capacity

  class ChargedBytes {
    var bytes: seq<byte>
    const capacity: nat
    const charge: nat
    const lease: nat

    // The lease is exactly the charge of the real capacity.
    ghost predicate Valid()
      reads this
    {
      |bytes| <= capacity && ByteBufferCharge(capacity) == Some(charge)
    }

    constructor (capacity: nat, charge: nat, lease: nat)
      requires ByteBufferCharge(capacity) == Some(charge)
      ensures Valid() && bytes == [] && this.capacity == capacity && this.charge == charge && this.lease == lease
    {
      bytes := [];
      this.capacity := capacity;
      this.charge := charge;
      this.lease := lease;
    }

    // The requested backing is charged first, the difference to the real one after the
    // allocation. The real backing is never smaller, so nothing is ever given back
    // here; and a failure at any point leaves this owner with the leases it had
    // (src/resident_credit.rs:207-240).
    static method TryWithCapacity(capacity: nat, pool: CreditPool) returns (r: Result<ChargedBytes, ChargedBytesError>)
      requires pool.Valid()
      modifies pool
      ensures pool.Valid() && Keeps(old(pool.credits), pool.credits, old(pool.own))
      ensures r.Ok? ==>
        && r.value.Valid() && r.value.bytes == []
        && capacity <= r.value.capacity
        && r.value.lease !in old(pool.own) && pool.own == old(pool.own) + {r.value.lease}
        && r.value.lease < |pool.credits.leases|
        && pool.credits.leases[r.value.lease] == Live(0, r.value.charge)
      ensures r.Err? ==> pool.own == old(pool.own)
    {
      var requested := ByteBufferCharge(capacity);
      if requested.None? {
        return Err(Capacity);
      }
      var lease := pool.TryAcquire(requested.value);
      if lease.None? {
        return Err(Limit);
      }
      var reserved: bool, slack: nat := *, *;
      var backing := capacity + slack;
      var actual := ByteBufferCharge(backing);
      if !reserved || actual.None? {
        pool.Release(lease.value);
        return Err(Capacity);
      }
      NeverLess(capacity, backing);
      if actual.value > requested.value {
        var extra := pool.TryAcquire(actual.value - requested.value);
        if extra.None? {
          pool.Release(lease.value);
          return Err(Limit);
        }
        pool.Absorb(lease.value, extra.value);
      }
      var buffer := new ChargedBytes(backing, actual.value, lease.value);
      r := Ok(buffer);
    }

    // Append only into the backing that is already charged.
    method ExtendInPlace(source: seq<byte>) returns (ok: bool)
      requires Valid()
      modifies this
      ensures Valid()
      ensures ok <==> |old(bytes)| + |source| <= capacity
      ensures bytes == if ok then old(bytes) + source else old(bytes)
    {
      if capacity - |bytes| < |source| {
        return false;
      }
      bytes := bytes + source;
      ok := true;
    }

    method PushInPlace(b: byte) returns (ok: bool)
      requires Valid()
      modifies this
      ensures Valid()
      ensures ok <==> |old(bytes)| < capacity
      ensures bytes == if ok then old(bytes) + [b] else old(bytes)
    {
      if |bytes| == capacity {
        return false;
      }
      bytes := bytes + [b];
      ok := true;
    }

    method Truncate(length: nat)
      requires Valid()
      modifies this
      ensures Valid() && bytes == if length < |old(bytes)| then old(bytes)[..length] else old(bytes)
    {
      if length < |bytes| {
        bytes := bytes[..length];
      }
    }
  }

  // The branch that would split the lease is dead.
  lemma NeverLess(requested: nat, backing: nat)
    requires requested <= backing && ByteBufferCharge(backing).Some?
    ensures ByteBufferCharge(requested).Some?
    ensures ByteBufferCharge(requested).value <= ByteBufferCharge(backing).value
  {
    assert IsPowerOfTwo(1) by {
      assert Pow2(0) == 1;
    }
    ChargeMonotone(requested, backing, 1);
  }
}
