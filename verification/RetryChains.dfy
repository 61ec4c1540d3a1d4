// What the retry chains of a closed step count (src/agent/mod.rs:1783-1784 and 2044-2151).
module RetryChains {
  import opened Common
  import opened SessionLog
  import opened LogGrammar

  predicate IsRetryOf(t: AttemptTrace, key: nat) {
    t.end.Retried? && t.end.key == key
  }

  // The retries under one key.
  function RetriesOf(xs: seq<AttemptTrace>, key: nat): nat {
    if |xs| == 0 then 0 else RetriesOf(xs[..|xs| - 1], key) + if IsRetryOf(xs[|xs| - 1], key) then 1 else 0
  }

  function Retries(xs: seq<AttemptTrace>): nat {
    if |xs| == 0 then 0 else Retries(xs[..|xs| - 1]) + if xs[|xs| - 1].end.Retried? then 1 else 0
  }

  // A chain exists for exactly the keys that were retried; its latest number is the
  // number of their retries, and all of them run under its identifier.
  lemma {:induction false} ChainCounts(xs: seq<AttemptTrace>, key: nat)
    requires ChainsOk(xs)
    ensures key in ChainsAfter(xs) <==> RetriesOf(xs, key) > 0
    ensures key in ChainsAfter(xs) ==> ChainsAfter(xs)[key].latest == RetriesOf(xs, key)
    ensures forall i :: 0 <= i < |xs| && IsRetryOf(xs[i], key) ==>
      key in ChainsAfter(xs) && xs[i].end.retryId == ChainsAfter(xs)[key].id
  {
    if |xs| > 0 {
      var last := |xs| - 1;
      var before := xs[..last];
      PrefixChains(xs);
      ChainCounts(before, key);
      assert NextInChain(ChainsAfter(xs[..last]), xs[last].end);
      forall i | 0 <= i < |xs| && IsRetryOf(xs[i], key)
        ensures key in ChainsAfter(xs) && xs[i].end.retryId == ChainsAfter(xs)[key].id
      {
        if i < last {
          assert before[i] == xs[i];
          RetriesThere(before, key, i);
        }
      }
    }
  }

  lemma PrefixChains(xs: seq<AttemptTrace>)
    requires ChainsOk(xs) && |xs| > 0
    ensures ChainsOk(xs[..|xs| - 1])
  {
    var before := xs[..|xs| - 1];
    forall i | 0 <= i < |before|
      ensures NextInChain(ChainsAfter(before[..i]), before[i].end)
    {
      assert before[..i] == xs[..i] && before[i] == xs[i];
    }
  }

  lemma {:induction false} RetriesThere(xs: seq<AttemptTrace>, key: nat, i: nat)
    requires i < |xs| && IsRetryOf(xs[i], key)
    ensures RetriesOf(xs, key) > 0
  {
    if i < |xs| - 1 {
      RetriesThere(xs[..|xs| - 1], key, i);
    }
  }

  // The number of a retry is its place in its chain: 1, 2, 3 and so on.
  lemma NumbersCount(xs: seq<AttemptTrace>, i: nat)
    requires ChainsOk(xs) && i < |xs| && xs[i].end.Retried?
    ensures xs[i].end.number == RetriesOf(xs[..i + 1], xs[i].end.key)
  {
    var key := xs[i].end.key;
    var before := xs[..i];
    forall j | 0 <= j < |before|
      ensures NextInChain(ChainsAfter(before[..j]), before[j].end)
    {
      assert before[..j] == xs[..j];
    }
    ChainCounts(before, key);
    assert NextInChain(ChainsAfter(xs[..i]), xs[i].end);
    assert xs[..i + 1][..i] == before;
  }

  function SumOver(xs: seq<AttemptTrace>, keys: seq<nat>): nat {
    if |keys| == 0 then 0 else SumOver(xs, keys[..|keys| - 1]) + RetriesOf(xs, keys[|keys| - 1])
  }

  predicate Distinct(keys: seq<nat>) {
    forall i, j :: 0 <= i < j < |keys| ==> keys[i] != keys[j]
  }

  // Retries in a step are the lengths of its chains taken together.
  lemma {:induction false} ChainsSum(xs: seq<AttemptTrace>, keys: seq<nat>)
    requires Distinct(keys)
    requires forall i :: 0 <= i < |xs| && xs[i].end.Retried? ==> xs[i].end.key in keys
    ensures SumOver(xs, keys) == Retries(xs)
  {
    if |xs| == 0 {
      NothingCounted(keys);
    } else {
      var before, t := xs[..|xs| - 1], xs[|xs| - 1];
      ChainsSum(before, keys);
      OneCounted(xs, keys);
      assert t == xs[|xs| - 1];
    }
  }

  lemma {:induction false} NothingCounted(keys: seq<nat>)
    ensures SumOver([], keys) == 0
  {
    if |keys| > 0 {
      NothingCounted(keys[..|keys| - 1]);
    }
  }

  // The last attempt adds one where its key is listed.
  lemma {:induction false} OneCounted(xs: seq<AttemptTrace>, keys: seq<nat>)
    requires |xs| > 0 && Distinct(keys)
    ensures
      var t := xs[|xs| - 1];
      SumOver(xs, keys) == SumOver(xs[..|xs| - 1], keys) + if t.end.Retried? && t.end.key in keys then 1 else 0
  {
    if |keys| > 0 {
      var rest, key := keys[..|keys| - 1], keys[|keys| - 1];
      OneCounted(xs, rest);
      assert keys == rest + [key];
      assert key !in rest;
    }
  }
}
