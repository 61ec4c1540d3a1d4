// Semantic equality of JSON values and the normal form of their numbers: two admitted
// trees are equal exactly when their normal forms are identical
// (src/json_value.rs:456-486 and 629-655).
module JsonEquality {
  import opened Common
  import opened Json

  // ----- objects as ordered maps

  // The order of keys, character by character.
  predicate Below(a: string, b: string) {
    |b| > 0 && (|a| == 0 || a[0] < b[0] || (a[0] == b[0] && Below(a[1..], b[1..])))
  }

  lemma {:induction false} BelowAsymmetric(a: string, b: string)
    requires Below(a, b)
    ensures a != b && !Below(b, a)
  {
    if |a| > 0 && a[0] == b[0] {
      BelowAsymmetric(a[1..], b[1..]);
    }
  }

  predicate Ascending(fields: seq<Field>) {
    forall i, j :: 0 <= i < j < |fields| ==> Below(fields[i].key, fields[j].key)
  }

  function Get(fields: seq<Field>, key: string): Option<Json> {
    if |fields| == 0 then None
    else if fields[|fields| - 1].key == key then Some(fields[|fields| - 1].value)
    else Get(fields[..|fields| - 1], key)
  }

  lemma {:induction false} GetAt(fields: seq<Field>, i: nat)
    requires Ascending(fields) && i < |fields|
    ensures Get(fields, fields[i].key) == Some(fields[i].value)
  {
    if i < |fields| - 1 {
      BelowAsymmetric(fields[i].key, fields[|fields| - 1].key);
      GetAt(fields[..|fields| - 1], i);
    }
  }

  lemma {:induction false} GetFinds(fields: seq<Field>, key: string) returns (i: nat)
    requires Get(fields, key).Some?
    ensures i < |fields| && fields[i].key == key && Get(fields, key) == Some(fields[i].value)
  {
    if fields[|fields| - 1].key == key {
      i := |fields| - 1;
    } else {
      i := GetFinds(fields[..|fields| - 1], key);
    }
  }

  function KeysOf(fields: seq<Field>): set<string> {
    if |fields| == 0 then {} else KeysOf(fields[..|fields| - 1]) + {fields[|fields| - 1].key}
  }

  lemma {:induction false} KeyIsIn(fields: seq<Field>, i: nat)
    requires i < |fields|
    ensures fields[i].key in KeysOf(fields)
  {
    if i < |fields| - 1 {
      KeyIsIn(fields[..|fields| - 1], i);
    }
  }

  lemma {:induction false} KeyIsAt(fields: seq<Field>, key: string) returns (i: nat)
    requires key in KeysOf(fields)
    ensures i < |fields| && fields[i].key == key
  {
    if fields[|fields| - 1].key == key {
      i := |fields| - 1;
    } else {
      i := KeyIsAt(fields[..|fields| - 1], key);
    }
  }

  // The last key is new, and the others stay ascending.
  lemma LastIsNew(fields: seq<Field>)
    requires Ascending(fields) && |fields| > 0
    ensures fields[|fields| - 1].key !in KeysOf(fields[..|fields| - 1]) && Ascending(fields[..|fields| - 1])
  {
    var last := |fields| - 1;
    if fields[last].key in KeysOf(fields[..last]) {
      var i := KeyIsAt(fields[..last], fields[last].key);
      BelowAsymmetric(fields[i].key, fields[last].key);
      assert false;
    }
  }

  lemma {:induction false} KeysCount(fields: seq<Field>)
    requires Ascending(fields)
    ensures |KeysOf(fields)| == |fields|
  {
    hide Ascending;
    if |fields| > 0 {
      LastIsNew(fields);
      KeysCount(fields[..|fields| - 1]);
    }
  }

  // A set within another of the same size is that other one.
  lemma SameSize(a: set<string>, b: set<string>)
    requires a <= b && |a| == |b|
    ensures a == b
  {
    assert b == a + (b - a) && |b| == |a| + |b - a|;
  }

  // No key of an ascending list is above its last one.
  lemma LastIsGreatest(fields: seq<Field>, i: nat)
    requires Ascending(fields) && i < |fields|
    ensures fields[i].key == fields[|fields| - 1].key || Below(fields[i].key, fields[|fields| - 1].key)
  {
  }

  lemma SameLast(fs: seq<Field>, gs: seq<Field>)
    requires Ascending(fs) && Ascending(gs) && KeysOf(fs) == KeysOf(gs) && |fs| == |gs| > 0
    ensures fs[|fs| - 1].key == gs[|gs| - 1].key
  {
    hide Below, Ascending, KeysOf;
    var f, g := fs[|fs| - 1].key, gs[|gs| - 1].key;
    KeyIsIn(fs, |fs| - 1);
    KeyIsIn(gs, |gs| - 1);
    var i := KeyIsAt(gs, f);
    var j := KeyIsAt(fs, g);
    LastIsGreatest(gs, i);
    LastIsGreatest(fs, j);
    if Below(f, g) {
      BelowAsymmetric(f, g);
    }
  }

  // Two ascending lists over the same keys list them alike.
  lemma {:induction false} SameKeys(fs: seq<Field>, gs: seq<Field>)
    requires Ascending(fs) && Ascending(gs) && KeysOf(fs) == KeysOf(gs) && |fs| == |gs|
    ensures forall i :: 0 <= i < |fs| ==> fs[i].key == gs[i].key
  {
    if |fs| > 0 {
      hide Ascending, Below;
      var last := |fs| - 1;
      SameLast(fs, gs);
      LastIsNew(fs);
      LastIsNew(gs);
      assert KeysOf(fs[..last]) == KeysOf(fs) - {fs[last].key};
      SameKeys(fs[..last], gs[..last]);
      forall i | 0 <= i < |fs|
        ensures fs[i].key == gs[i].key
      {
        assert i < last ==> fs[..last][i].key == gs[..last][i].key;
      }
    }
  }

  // ----- equality as the source computes it

  predicate EqualAt(a: Json, b: Json, depth: nat)
    decreases a
  {
    depth <= MAX_JSON_DEPTH
    && match (a, b)
       case (Null, Null) => true
       case (Bool(x), Bool(y)) => x == y
       case (Text(x, _), Text(y, _)) => x == y
       case (Num(x), Num(y)) => AsReal(x) == AsReal(y)
       case (Arr(xs, _), Arr(ys, _)) =>
         |xs| == |ys| && forall i :: 0 <= i < |xs| ==> EqualAt(xs[i], ys[i], depth + 1)
       case (Obj(xs), Obj(ys)) =>
         && |xs| == |ys|
         && forall i :: 0 <= i < |xs| ==>
              var y := Get(ys, xs[i].key);
              y.Some? && EqualAt(xs[i].value, y.value, depth + 1)
       case _ => false
  }

  predicate SemanticallyEqual(a: Json, b: Json) {
    EqualAt(a, b, 0)
  }

  // ----- the normal form

  // A float that is a safe integer becomes that integer.
  function NormalNumber(n: Number): Number {
    var r := AsReal(n);
    if r.None? then n
    else if IsIntegral(r.value) && IsSafe(r.value) then
      if r.value >= 0.0 then PosInt(r.value.Floor) else NegInt(r.value.Floor)
    else n
  }

  function Normalise(v: Json): Json {
    match v
    case Num(n) => Num(NormalNumber(n))
    case Arr(items, capacity) => Arr(seq(|items|, i requires 0 <= i < |items| => Normalise(items[i])), capacity)
    case Obj(fields) =>
      Obj(seq(|fields|, i requires 0 <= i < |fields| => fields[i].(value := Normalise(fields[i].value))))
    case _ => v
  }

  // Rewrite the numbers of a tree, child after child (src/json_value.rs:629-655).
  method NormaliseNumbers(v: Json) returns (r: Json)
    ensures r == Normalise(v)
    decreases v
  {
    match v {
      case Num(n) =>
        r := Num(NormalNumber(n));
      case Arr(items, capacity) =>
        var rewritten := items;
        for i := 0 to |items|
          invariant |rewritten| == |items| && rewritten[i..] == items[i..]
          invariant forall k :: 0 <= k < i ==> rewritten[k] == Normalise(items[k])
        {
          var item := NormaliseNumbers(items[i]);
          rewritten := rewritten[i := item];
        }
        assert rewritten == Normalise(v).items;
        r := Arr(rewritten, capacity);
      case Obj(fields) =>
        var rewritten := fields;
        for i := 0 to |fields|
          invariant |rewritten| == |fields| && rewritten[i..] == fields[i..]
          invariant forall k :: 0 <= k < i ==> rewritten[k] == fields[k].(value := Normalise(fields[k].value))
        {
          var item := NormaliseNumbers(fields[i].value);
          rewritten := rewritten[i := fields[i].(value := item)];
        }
        assert rewritten == Normalise(v).fields;
        r := Obj(rewritten);
      case _ =>
        r := v;
    }
  }

  // A tree without the capacities of its allocations, which are no part of its value.
  function Bare(v: Json): Json {
    match v
    case Text(text, _) => Text(text, 0)
    case Arr(items, _) => Arr(seq(|items|, i requires 0 <= i < |items| => Bare(items[i])), 0)
    case Obj(fields) =>
      Obj(seq(|fields|, i requires 0 <= i < |fields| => Field(fields[i].key, 0, Bare(fields[i].value))))
    case _ => v
  }

  function Canonical(v: Json): Json {
    Bare(Normalise(v))
  }

  // ----- admitted trees

  // What the types of the source guarantee: keys ascend, and a negative integer is
  // negative.
  predicate Formed(v: Json) {
    match v
    case Num(n) => (n.NegInt? ==> n.i < 0)
    case Arr(items, _) => forall i :: 0 <= i < |items| ==> Formed(items[i])
    case Obj(fields) => Ascending(fields) && forall i :: 0 <= i < |fields| ==> Formed(fields[i].value)
    case _ => true
  }

  predicate Admitted(v: Json) {
    Formed(v) && NumbersOk(v) && Height(v) <= MAX_JSON_DEPTH
  }

  lemma {:induction false} ChildFrom(v: Json, k: nat, i: nat)
    requires k <= i < |Children(v)|
    ensures Height(Children(v)[i]) + 1 <= HeightFrom(v, k)
    ensures NumbersOkFrom(v, k) ==> NumbersOk(Children(v)[i])
    decreases i - k
  {
    if k < i {
      ChildFrom(v, k + 1, i);
    }
  }

  // The children of an admitted tree are admitted one level deeper.
  lemma ChildAdmitted(v: Json, i: nat)
    requires i < |Children(v)| && Formed(v) && NumbersOk(v)
    ensures Height(Children(v)[i]) + 1 <= Height(v)
    ensures Formed(Children(v)[i]) && NumbersOk(Children(v)[i])
  {
    ChildFrom(v, 0, i);
  }

  // ----- equality is identity of canonical forms

  lemma NumbersAgree(x: Number, y: Number)
    requires NumberOk(x) && NumberOk(y) && (x.NegInt? ==> x.i < 0) && (y.NegInt? ==> y.i < 0)
    ensures AsReal(x) == AsReal(y) <==> NormalNumber(x) == NormalNumber(y)
  {
  }

  lemma {:induction false} EqualIsCanonical(a: Json, b: Json, depth: nat)
    requires Formed(a) && NumbersOk(a) && Formed(b) && NumbersOk(b) && depth + Height(a) <= MAX_JSON_DEPTH
    ensures EqualAt(a, b, depth) <==> Canonical(a) == Canonical(b)
    decreases a, 1
  {
    match (a, b) {
      case (Num(x), Num(y)) => NumbersAgree(x, y);
      case (Arr(xs, _), Arr(ys, _)) => ArraysAgree(a, b, depth);
      case (Obj(xs), Obj(ys)) => ObjectsAgree(a, b, depth);
      case _ =>
    }
  }

  lemma {:induction false} ArraysAgree(a: Json, b: Json, depth: nat)
    requires a.Arr? && b.Arr?
    requires Formed(a) && NumbersOk(a) && Formed(b) && NumbersOk(b) && depth + Height(a) <= MAX_JSON_DEPTH
    ensures EqualAt(a, b, depth) <==> Canonical(a) == Canonical(b)
    decreases a, 0
  {
    var xs, ys := a.items, b.items;
    if |xs| == |ys| {
      forall i | 0 <= i < |xs|
        ensures EqualAt(xs[i], ys[i], depth + 1) <==> Canonical(xs[i]) == Canonical(ys[i])
      {
        ChildAdmitted(a, i);
        ChildAdmitted(b, i);
        EqualIsCanonical(xs[i], ys[i], depth + 1);
      }
      assert Canonical(a).items == seq(|xs|, i requires 0 <= i < |xs| => Canonical(xs[i]));
      assert Canonical(b).items == seq(|ys|, i requires 0 <= i < |ys| => Canonical(ys[i]));
      if Canonical(a) == Canonical(b) {
        forall i | 0 <= i < |xs|
          ensures Canonical(xs[i]) == Canonical(ys[i])
        {
          assert Canonical(a).items[i] == Canonical(b).items[i];
        }
      }
    }
  }

  lemma {:induction false} ObjectsAgree(a: Json, b: Json, depth: nat)
    requires a.Obj? && b.Obj?
    requires Formed(a) && NumbersOk(a) && Formed(b) && NumbersOk(b) && depth + Height(a) <= MAX_JSON_DEPTH
    ensures EqualAt(a, b, depth) <==> Canonical(a) == Canonical(b)
    decreases a, 0
  {
    hide EqualAt, Canonical, Height, NumbersOk, Ascending;
    if EqualAt(a, b, depth) {
      EqualKeys(a.fields, b.fields, depth);
    }
    if Canonical(a) == Canonical(b) {
      CanonicalKeys(a, b);
    }
    if SameKeyOrder(a.fields, b.fields) {
      forall i | 0 <= i < |a.fields|
        ensures EqualAt(a.fields[i].value, b.fields[i].value, depth + 1)
          <==> Canonical(a.fields[i].value) == Canonical(b.fields[i].value)
      {
        ChildAdmitted(a, i);
        ChildAdmitted(b, i);
        assert Children(a)[i] == a.fields[i].value && Children(b)[i] == b.fields[i].value;
        EqualIsCanonical(a.fields[i].value, b.fields[i].value, depth + 1);
      }
      EqualByIndex(a, b, depth);
      CanonicalByIndex(a, b);
    }
  }

  predicate SameKeyOrder(xs: seq<Field>, ys: seq<Field>) {
    |xs| == |ys| && forall i :: 0 <= i < |xs| ==> xs[i].key == ys[i].key
  }

  // Equal objects have the same keys, although only one direction is looked up.
  lemma EqualKeys(xs: seq<Field>, ys: seq<Field>, depth: nat)
    requires Ascending(xs) && Ascending(ys) && EqualAt(Obj(xs), Obj(ys), depth)
    ensures SameKeyOrder(xs, ys)
  {
    forall key | key in KeysOf(xs)
      ensures key in KeysOf(ys)
    {
      var i := KeyIsAt(xs, key);
      assert Get(ys, xs[i].key).Some?;
      var j := GetFinds(ys, key);
      KeyIsIn(ys, j);
    }
    KeysCount(xs);
    KeysCount(ys);
    SameSize(KeysOf(xs), KeysOf(ys));
    SameKeys(xs, ys);
  }

  lemma CanonicalFields(a: Json)
    requires a.Obj?
    ensures Canonical(a).Obj? && |Canonical(a).fields| == |a.fields|
    ensures forall i :: 0 <= i < |a.fields| ==>
      Canonical(a).fields[i] == Field(a.fields[i].key, 0, Canonical(a.fields[i].value))
  {
  }

  lemma CanonicalKeys(a: Json, b: Json)
    requires a.Obj? && b.Obj? && Canonical(a) == Canonical(b)
    ensures SameKeyOrder(a.fields, b.fields)
  {
    CanonicalFields(a);
    CanonicalFields(b);
    forall i | 0 <= i < |a.fields|
      ensures a.fields[i].key == b.fields[i].key
    {
      assert Canonical(a).fields[i] == Canonical(b).fields[i];
    }
  }

  lemma CanonicalFromIndex(a: Json, b: Json)
    requires a.Obj? && b.Obj? && SameKeyOrder(a.fields, b.fields)
    requires forall i :: 0 <= i < |a.fields| ==> Canonical(a.fields[i].value) == Canonical(b.fields[i].value)
    ensures Canonical(a) == Canonical(b)
  {
    hide Canonical;
    CanonicalFields(a);
    CanonicalFields(b);
    assert Canonical(a).fields == Canonical(b).fields;
  }

  lemma CanonicalToIndex(a: Json, b: Json, i: nat)
    requires a.Obj? && b.Obj? && Canonical(a) == Canonical(b) && i < |a.fields| == |b.fields|
    ensures Canonical(a.fields[i].value) == Canonical(b.fields[i].value)
  {
    hide Canonical;
    CanonicalFields(a);
    CanonicalFields(b);
    assert Canonical(a).fields[i] == Canonical(b).fields[i];
  }

  lemma CanonicalByIndex(a: Json, b: Json)
    requires a.Obj? && b.Obj? && SameKeyOrder(a.fields, b.fields)
    ensures Canonical(a) == Canonical(b) <==>
      forall i :: 0 <= i < |a.fields| ==> Canonical(a.fields[i].value) == Canonical(b.fields[i].value)
  {
    hide Canonical;
    if Canonical(a) == Canonical(b) {
      forall i | 0 <= i < |a.fields|
        ensures Canonical(a.fields[i].value) == Canonical(b.fields[i].value)
      {
        CanonicalToIndex(a, b, i);
      }
    }
    if forall i :: 0 <= i < |a.fields| ==> Canonical(a.fields[i].value) == Canonical(b.fields[i].value) {
      CanonicalFromIndex(a, b);
    }
  }

  lemma EqualByIndex(a: Json, b: Json, depth: nat)
    requires a.Obj? && b.Obj? && SameKeyOrder(a.fields, b.fields) && Ascending(b.fields) && depth <= MAX_JSON_DEPTH
    ensures EqualAt(a, b, depth) <==>
      forall i :: 0 <= i < |a.fields| ==> EqualAt(a.fields[i].value, b.fields[i].value, depth + 1)
  {
    forall i | 0 <= i < |a.fields|
      ensures Get(b.fields, a.fields[i].key) == Some(b.fields[i].value)
    {
      GetAt(b.fields, i);
    }
  }

  // ----- what follows

  // On admitted trees the cutoff at the maximum depth is never reached, and equality is
  // an equivalence: it is identity of canonical forms.
  lemma EqualityIsCanonical(a: Json, b: Json)
    requires Admitted(a) && Admitted(b)
    ensures SemanticallyEqual(a, b) <==> Canonical(a) == Canonical(b)
  {
    EqualIsCanonical(a, b, 0);
  }

  lemma EqualityIsEquivalence(a: Json, b: Json, c: Json)
    requires Admitted(a) && Admitted(b) && Admitted(c)
    ensures SemanticallyEqual(a, a)
    ensures SemanticallyEqual(a, b) <==> SemanticallyEqual(b, a)
    ensures SemanticallyEqual(a, b) && SemanticallyEqual(b, c) ==> SemanticallyEqual(a, c)
  {
    hide SemanticallyEqual, Canonical, Admitted;
    EqualityIsCanonical(a, a);
    EqualityIsCanonical(a, b);
    EqualityIsCanonical(b, a);
    EqualityIsCanonical(b, c);
    EqualityIsCanonical(a, c);
  }

  // The normal form of a number keeps its value; a float becomes an integer exactly where it
  // is whole and below two to the power of 53 in magnitude.
  lemma NumberIdempotent(n: Number)
    ensures NormalNumber(NormalNumber(n)) == NormalNumber(n) && AsReal(NormalNumber(n)) == AsReal(n)
    ensures n.Float? ==>
      (NormalNumber(n) != n <==> n.r.Floor as real == n.r && -0x20_0000_0000_0000 < n.r.Floor < 0x20_0000_0000_0000)
    ensures NormalNumber(n) != n ==> NormalNumber(n).PosInt? || NormalNumber(n).NegInt?
  {
  }

  // Normalising twice is normalising once.
  lemma {:induction false} NormaliseIdempotent(v: Json)
    ensures Normalise(Normalise(v)) == Normalise(v)
  {
    match v {
      case Num(n) => NumberIdempotent(n);
      case Arr(items, capacity) =>
        forall i | 0 <= i < |items|
          ensures Normalise(Normalise(items[i])) == Normalise(items[i])
        {
          NormaliseIdempotent(items[i]);
        }
        assert Normalise(Normalise(v)).items == Normalise(v).items;
      case Obj(fields) =>
        forall i | 0 <= i < |fields|
          ensures Normalise(Normalise(fields[i].value)) == Normalise(fields[i].value)
        {
          NormaliseIdempotent(fields[i].value);
        }
        assert Normalise(Normalise(v)).fields == Normalise(v).fields;
      case _ =>
    }
  }

  lemma NumberKeeps(n: Number)
    requires NumberOk(n) && (n.NegInt? ==> n.i < 0)
    ensures NumberOk(NormalNumber(n)) && AsReal(NormalNumber(n)) == AsReal(n)
    ensures NormalNumber(n).NegInt? ==> NormalNumber(n).i < 0
  {
  }

  // A tree and its normal form have the same shape, and one is admitted where the other is.
  lemma {:induction false} NormaliseAdmits(v: Json)
    requires Formed(v) && NumbersOk(v)
    ensures Formed(Normalise(v)) && NumbersOk(Normalise(v)) && Height(Normalise(v)) == Height(v)
    decreases v, 1
  {
    if v.Num? {
      NumberKeeps(v.number);
    }
    NormaliseAdmitsFrom(v, 0);
    if v.Obj? {
      ghost var after := Normalise(v);
      forall i | 0 <= i < |after.fields|
        ensures Formed(after.fields[i].value)
      {
        assert after.fields[i].value == Children(after)[i];
      }
    }
  }

  lemma {:induction false} NormaliseAdmitsFrom(v: Json, k: nat)
    requires k <= |Children(v)| && Formed(v) && NumbersOkFrom(v, k)
    ensures |Children(Normalise(v))| == |Children(v)| && HeightFrom(Normalise(v), k) == HeightFrom(v, k)
    ensures NumbersOkFrom(Normalise(v), k)
    ensures forall i :: k <= i < |Children(v)| ==> Formed(Children(Normalise(v))[i])
    decreases v, 0, |Children(v)| - k
  {
    if k < |Children(v)| {
      NormaliseAdmits(Children(v)[k]);
      assert Children(Normalise(v))[k] == Normalise(Children(v)[k]);
      NormaliseAdmitsFrom(v, k + 1);
    }
  }

  // The normal form of an admitted tree is admitted and equal to it.
  lemma NormaliseKeeps(v: Json)
    requires Admitted(v)
    ensures Admitted(Normalise(v)) && SemanticallyEqual(v, Normalise(v))
  {
    NormaliseAdmits(v);
    NormaliseIdempotent(v);
    EqualityIsCanonical(v, Normalise(v));
  }
}
