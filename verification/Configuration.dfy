/** Configuration composition: recursive merge, include resolution with cycle detection, and provenance order. */
module Configuration {
  import opened Common

  datatype Value = Leaf(text: string) | List(items: seq<Value>) | Dict(fields: Mapping)
  type Mapping = map<string, Value>

  const OVERRIDES := "overrides"

  // ---- merging ----

  function At(m: Mapping, key: string): Option<Value> {
    if key in m then Some(m[key]) else None
  }

  /** What a key that held `prev` holds after being updated with `v`; appending to a non-list raises. */
  function MergeValue(key: string, prev: Option<Value>, v: Value): Result<Value>
    decreases v, 1
  {
    if v.Dict? && prev.Some? && prev.value.Dict? then
      var r := Merge(prev.value.fields, v.fields);
      if r.Ok? then Ok(Dict(r.value)) else Rejected
    else if key == OVERRIDES && v.List? then
      if prev.None? then Ok(v) else if prev.value.List? then Ok(List(prev.value.items + v.items)) else Rejected
    else Ok(v)
  }

  function Merge(base: Mapping, update: Mapping): Result<Mapping>
    decreases Dict(update), 0
  {
    if forall key :: key in update ==> MergeValue(key, At(base, key), update[key]).Ok? then
      Ok(map key | key in base.Keys + update.Keys ::
        if key in update then MergeValue(key, At(base, key), update[key]).value else base[key])
    else Rejected
  }

  /** The loop over `update.items()`, on a copy of the base. */
  method MergeInto(base: Mapping, update: Mapping) returns (r: Result<Mapping>)
    ensures r == Merge(base, update)
    decreases Dict(update), 0
  {
    var result, left := base, update.Keys;
    while left != {}
      invariant left <= update.Keys
      invariant forall key :: key in update && key !in left ==> MergeValue(key, At(base, key), update[key]).Ok?
      invariant forall key :: At(result, key) == Merged(base, update, update.Keys - left, key)
    {
      var key :| key in left;
      var value := update[key];
      var next := value;
      assert At(result, key) == At(base, key);
      if value.Dict? && key in result && result[key].Dict? {
        var inner := MergeInto(result[key].fields, value.fields);
        if inner.Rejected? {
          return Rejected;
        }
        next := Dict(inner.value);
      } else if key == OVERRIDES && value.List? {
        if key in result && !result[key].List? {
          return Rejected;
        }
        next := List((if key in result then result[key].items else []) + value.items);
        assert [] + value.items == value.items;
      }
      assert MergeValue(key, At(base, key), value) == Ok(next);
      MergedStep(base, update, update.Keys - left, key, result, next);
      result := result[key := next];
      assert update.Keys - (left - {key}) == update.Keys - left + {key};
      left := left - {key};
    }
    assert Merge(base, update).Ok?;
    SameAt(result, Merge(base, update).value);
    r := Ok(result);
  }

  /** The value of a key once the keys in `done` have been updated. */
  function Merged(base: Mapping, update: Mapping, done: set<string>, key: string): Option<Value> {
    if key !in update || key !in done then At(base, key)
    else
      var r := MergeValue(key, At(base, key), update[key]);
      if r.Ok? then Some(r.value) else None
  }

  lemma MergedStep(base: Mapping, update: Mapping, done: set<string>, key: string, result: Mapping, next: Value)
    requires key in update && MergeValue(key, At(base, key), update[key]) == Ok(next)
    requires forall k :: At(result, k) == Merged(base, update, done, k)
    ensures forall k :: At(result[key := next], k) == Merged(base, update, done + {key}, k)
  {
    hide MergeValue;
    forall k ensures At(result[key := next], k) == Merged(base, update, done + {key}, k) {
      assert At(result, k) == Merged(base, update, done, k);
    }
  }

  lemma SameAt(m: Mapping, n: Mapping)
    requires forall key :: At(m, key) == At(n, key)
    ensures m == n
  {
    assert forall key :: key in m <==> At(m, key).Some?;
    assert forall key :: key in n <==> At(n, key).Some?;
    forall key | key in m ensures key in n && m[key] == n[key] {
      assert At(m, key) == At(n, key);
    }
    forall key | key in n ensures key in m {
      assert At(m, key) == At(n, key);
    }
  }

  // ---- one key at a time ----

  function Op(key: string, x: Option<Value>, y: Option<Value>): Result<Option<Value>> {
    if y.None? then Ok(x)
    else
      var r := MergeValue(key, x, y.value);
      if r.Ok? then Ok(Some(r.value)) else Rejected
  }

  lemma MergeIsOp(a: Mapping, b: Mapping)
    ensures Merge(a, b).Ok? <==> forall key :: Op(key, At(a, key), At(b, key)).Ok?
    ensures Merge(a, b).Ok? ==> forall key :: At(Merge(a, b).value, key) == Op(key, At(a, key), At(b, key)).value
  {
    hide MergeValue;
    if forall key :: Op(key, At(a, key), At(b, key)).Ok? {
      forall key | key in b ensures MergeValue(key, At(a, key), b[key]).Ok? {
        assert Op(key, At(a, key), At(b, key)).Ok?;
      }
    }
  }

  // ---- when a later mapping absorbs an earlier one ----

  predicate AbsorbsValue(key: string, x: Value, z: Value)
    decreases z, 1
  {
    if z.Dict? && x.Dict? then Absorbs(x.fields, z.fields)
    else key == OVERRIDES && z.List? ==> x == List([])
  }

  /** Every key of `x` is in `z`, down to the leaves, and contributes nothing to an `overrides` list. */
  predicate Absorbs(x: Mapping, z: Mapping)
    decreases Dict(z), 0
  {
    forall key :: key in x ==> key in z && AbsorbsValue(key, x[key], z[key])
  }

  lemma {:induction false} AbsorbsMeans(x: Mapping, z: Mapping)
    ensures Merge(x, z) == Ok(z) <==> Absorbs(x, z)
    decreases Dict(z), 0
  {
    forall key | key in x && key in z ensures MergeValue(key, Some(x[key]), z[key]) == Ok(z[key]) <==> AbsorbsValue(key, x[key], z[key]) {
      AbsorbsValueMeans(key, x[key], z[key]);
    }
    hide MergeValue, AbsorbsValue;
    MergeIsOp(x, z);
    NewKeys(z);
    if Absorbs(x, z) {
      forall key ensures Op(key, At(x, key), At(z, key)) == Ok(At(z, key)) {
      }
      SameAt(Merge(x, z).value, z);
    }
    if Merge(x, z) == Ok(z) {
      forall key | key in x ensures key in z && AbsorbsValue(key, x[key], z[key]) {
        assert At(z, key) == Op(key, At(x, key), At(z, key)).value;
      }
    }
  }

  /** A key that was absent takes its new value. */
  lemma NewKeys(z: Mapping)
    ensures forall key :: key in z ==> MergeValue(key, None, z[key]) == Ok(z[key])
  {
  }

  lemma {:induction false} AbsorbsValueMeans(key: string, x: Value, z: Value)
    ensures MergeValue(key, Some(x), z) == Ok(z) <==> AbsorbsValue(key, x, z)
    decreases z, 1
  {
    if z.Dict? && x.Dict? {
      AbsorbsMeans(x.fields, z.fields);
    } else if key == OVERRIDES && z.List? && x.List? {
      assert x.items + z.items == z.items ==> |x.items| == 0;
      assert [] + z.items == z.items;
    }
  }

  // ---- associativity ----

  predicate KeptValue(x: Value, y: Value, z: Value)
    decreases z, 1
  {
    x.Dict? && z.Dict? ==> if y.Dict? then Kept(x.fields, y.fields, z.fields) else Absorbs(x.fields, z.fields)
  }

  /** No mapping of `a` that `b` replaces by something else comes back under a mapping of `c` that lacks part of it. */
  predicate Kept(a: Mapping, b: Mapping, c: Mapping)
    decreases Dict(c), 0
  {
    forall key :: key in a && key in b && key in c ==> KeptValue(a[key], b[key], c[key])
  }

  /** The grouping a nested include uses: the later two first. */
  function MergeRight(a: Mapping, b: Mapping, c: Mapping): Result<Mapping> {
    if Merge(b, c).Ok? then Merge(a, Merge(b, c).value) else Rejected
  }

  function RightValue(key: string, x: Value, y: Value, z: Value): Result<Value> {
    var yz := MergeValue(key, Some(y), z);
    if yz.Ok? then MergeValue(key, Some(x), yz.value) else Rejected
  }

  ghost predicate ValueAgrees(key: string, x: Value, y: Value, z: Value)
    requires MergeValue(key, Some(x), y).Ok?
  {
    var left := MergeValue(key, Some(MergeValue(key, Some(x), y).value), z);
    && (left.Rejected? ==> RightValue(key, x, y, z).Rejected?)
    && (left.Ok? ==> (RightValue(key, x, y, z) == left <==> KeptValue(x, y, z)))
  }

  ghost predicate Agrees(a: Mapping, b: Mapping, c: Mapping)
    requires Merge(a, b).Ok?
  {
    var left := Merge(Merge(a, b).value, c);
    && (left.Rejected? ==> MergeRight(a, b, c).Rejected?)
    && (left.Ok? ==> (MergeRight(a, b, c) == left <==> Kept(a, b, c)))
  }

  lemma {:induction false} ValueAssociates(key: string, x: Value, y: Value, z: Value)
    requires MergeValue(key, Some(x), y).Ok?
    ensures ValueAgrees(key, x, y, z)
    decreases z, 1
  {
    if x.Dict? && z.Dict? {
      if y.Dict? {
        BothAgree(x.fields, y.fields, z.fields);
      } else {
        AbsorbsMeans(x.fields, z.fields);
      }
    } else if key == OVERRIDES && x.List? && y.List? && z.List? {
      assert (x.items + y.items) + z.items == x.items + (y.items + z.items);
    }
  }

  lemma {:induction false} BothAgree(a: Mapping, b: Mapping, c: Mapping)
    requires Merge(a, b).Ok?
    ensures Agrees(a, b, c)
    decreases Dict(c), 0
  {
    MergeIsOp(a, b);
    hide Merge, Agrees, ValueAgrees;
    forall key ensures KeyAgrees(a, b, c, key) {
      assert Op(key, At(a, key), At(b, key)).Ok?;
      if key in a && key in b && key in c {
        ValueAssociates(key, a[key], b[key], c[key]);
      }
      FromValue(a, b, c, key);
    }
    Regroup(a, b, c);
  }

  lemma FromValue(a: Mapping, b: Mapping, c: Mapping, key: string)
    requires Op(key, At(a, key), At(b, key)).Ok?
    requires key in a && key in b && key in c ==> ValueAgrees(key, a[key], b[key], c[key])
    ensures KeyAgrees(a, b, c, key)
  {
    NewKey(key, At(b, key), At(c, key));
    hide MergeValue, KeptValue;
  }

  lemma NewKey(key: string, y: Option<Value>, z: Option<Value>)
    ensures z.Some? ==> MergeValue(key, None, z.value) == Ok(z.value)
    ensures y.Some? ==> MergeValue(key, None, y.value) == Ok(y.value)
    ensures y.Some? && z.Some? && MergeValue(key, y, z.value).Ok? ==>
      MergeValue(key, None, MergeValue(key, y, z.value).value) == MergeValue(key, y, z.value)
  {
  }

  function LeftOp(key: string, x: Option<Value>, y: Option<Value>, z: Option<Value>): Result<Option<Value>> {
    if Op(key, x, y).Ok? then Op(key, Op(key, x, y).value, z) else Rejected
  }

  function RightOp(key: string, x: Option<Value>, y: Option<Value>, z: Option<Value>): Result<Option<Value>> {
    if Op(key, y, z).Ok? then Op(key, x, Op(key, y, z).value) else Rejected
  }

  function LeftAt(a: Mapping, b: Mapping, c: Mapping, key: string): Result<Option<Value>> {
    LeftOp(key, At(a, key), At(b, key), At(c, key))
  }

  function RightAt(a: Mapping, b: Mapping, c: Mapping, key: string): Result<Option<Value>> {
    RightOp(key, At(a, key), At(b, key), At(c, key))
  }

  ghost predicate KeptAt(a: Mapping, b: Mapping, c: Mapping, key: string) {
    key in a && key in b && key in c ==> KeptValue(a[key], b[key], c[key])
  }

  /** At one key: an error on the left is one on the right, and otherwise the sides agree if and only if nothing is lost. */
  ghost predicate KeyAgrees(a: Mapping, b: Mapping, c: Mapping, key: string) {
    && (LeftAt(a, b, c, key).Rejected? ==> RightAt(a, b, c, key).Rejected?)
    && (LeftAt(a, b, c, key).Ok? ==> (RightAt(a, b, c, key) == LeftAt(a, b, c, key) <==> KeptAt(a, b, c, key)))
  }

  lemma LeftIsOp(a: Mapping, b: Mapping, c: Mapping)
    requires Merge(a, b).Ok?
    ensures var left := Merge(Merge(a, b).value, c);
      && (left.Ok? <==> forall key :: LeftAt(a, b, c, key).Ok?)
      && (left.Ok? ==> forall key :: LeftAt(a, b, c, key) == Ok(At(left.value, key)))
  {
    var ab := Merge(a, b).value;
    MergeIsOp(a, b);
    MergeIsOp(ab, c);
    hide MergeValue, Merge;
    forall key ensures LeftAt(a, b, c, key) == Op(key, At(ab, key), At(c, key)) {
      assert Op(key, At(a, key), At(b, key)).Ok?;
    }
  }

  lemma RightIsOp(a: Mapping, b: Mapping, c: Mapping)
    ensures var right := MergeRight(a, b, c);
      && (right.Ok? <==> forall key :: RightAt(a, b, c, key).Ok?)
      && (right.Ok? ==> forall key :: RightAt(a, b, c, key) == Ok(At(right.value, key)))
  {
    MergeIsOp(b, c);
    hide MergeValue, Merge;
    if Merge(b, c).Ok? {
      var bc := Merge(b, c).value;
      MergeIsOp(a, bc);
      forall key ensures RightAt(a, b, c, key) == Op(key, At(a, key), At(bc, key)) {
        assert Op(key, At(b, key), At(c, key)).Ok?;
      }
    } else {
      var key :| Op(key, At(b, key), At(c, key)).Rejected?;
      assert RightAt(a, b, c, key).Rejected?;
    }
  }

  lemma KeptEverywhere(a: Mapping, b: Mapping, c: Mapping)
    ensures Kept(a, b, c) <==> forall key :: KeptAt(a, b, c, key)
  {
    hide KeptValue;
    if forall key :: KeptAt(a, b, c, key) {
      forall key | key in a && key in b && key in c ensures KeptValue(a[key], b[key], c[key]) {
        assert KeptAt(a, b, c, key);
      }
    }
  }

  /** From keys to mappings. */
  lemma Regroup(a: Mapping, b: Mapping, c: Mapping)
    requires Merge(a, b).Ok?
    requires forall key :: KeyAgrees(a, b, c, key)
    ensures Agrees(a, b, c)
  {
    LeftIsOp(a, b, c);
    RightIsOp(a, b, c);
    var left, right := Merge(Merge(a, b).value, c), MergeRight(a, b, c);
    KeptEverywhere(a, b, c);
    hide Kept, KeptAt, Merge, MergeRight, LeftAt, RightAt;
    if left.Rejected? {
      var key :| LeftAt(a, b, c, key).Rejected?;
      assert KeyAgrees(a, b, c, key);
    } else if Kept(a, b, c) {
      forall key ensures RightAt(a, b, c, key) == LeftAt(a, b, c, key) == Ok(At(left.value, key)) {
        assert KeptAt(a, b, c, key) && KeyAgrees(a, b, c, key);
      }
      forall key ensures At(left.value, key) == At(right.value, key) {
        assert RightAt(a, b, c, key) == Ok(At(left.value, key));
      }
      SameAt(left.value, right.value);
    } else {
      var key :| !KeptAt(a, b, c, key);
      assert KeyAgrees(a, b, c, key);
      assert LeftAt(a, b, c, key) == Ok(At(left.value, key)) != RightAt(a, b, c, key);
    }
  }

  // ---- when a merge raises ----

  predicate ClashValue(key: string, prev: Option<Value>, v: Value)
    decreases v, 1
  {
    if v.Dict? && prev.Some? && prev.value.Dict? then Clash(prev.value.fields, v.fields)
    else key == OVERRIDES && v.List? && prev.Some? && !prev.value.List?
  }

  /** Somewhere a list of overrides meets a value that is no list. */
  predicate Clash(base: Mapping, update: Mapping)
    decreases Dict(update), 0
  {
    exists key :: key in update && ClashValue(key, At(base, key), update[key])
  }

  lemma {:induction false} ClashValueMeans(key: string, prev: Option<Value>, v: Value)
    ensures MergeValue(key, prev, v).Rejected? <==> ClashValue(key, prev, v)
    decreases v, 1
  {
    if v.Dict? && prev.Some? && prev.value.Dict? {
      ClashMeans(prev.value.fields, v.fields);
    }
  }

  lemma {:induction false} ClashMeans(base: Mapping, update: Mapping)
    ensures Merge(base, update).Rejected? <==> Clash(base, update)
    decreases Dict(update), 0
  {
    forall key | key in update ensures MergeValue(key, At(base, key), update[key]).Rejected? <==> ClashValue(key, At(base, key), update[key]) {
      ClashValueMeans(key, At(base, key), update[key]);
    }
    hide MergeValue, ClashValue;
  }

  predicate StillValue(key: string, x: Option<Value>, y: Value, z: Value)
    decreases z, 1
  {
    if y.Dict? && z.Dict? then
      if x.Some? && x.value.Dict? then Still(x.value.fields, y.fields, z.fields) else Clash(y.fields, z.fields)
    else if key == OVERRIDES && z.List? then !y.List? || (x.Some? && !x.value.List?)
    else ClashValue(key, x, z)
  }

  /** The grouping that merges `b` and `c` first meets such a clash. */
  predicate Still(a: Mapping, b: Mapping, c: Mapping)
    decreases Dict(c), 0
  {
    || (exists key :: key in c && key in b && StillValue(key, At(a, key), b[key], c[key]))
    || (exists key :: key in c && key !in b && ClashValue(key, At(a, key), c[key]))
    || (exists key :: key in b && key !in c && ClashValue(key, At(a, key), b[key]))
  }

  lemma {:induction false} StillValueMeans(key: string, x: Option<Value>, y: Value, z: Value)
    ensures RightOp(key, x, Some(y), Some(z)).Rejected? <==> StillValue(key, x, y, z)
    decreases z, 1
  {
    if y.Dict? && z.Dict? {
      ClashMeans(y.fields, z.fields);
      if x.Some? && x.value.Dict? {
        StillMeans(x.value.fields, y.fields, z.fields);
      }
    } else if key != OVERRIDES || !z.List? {
      ClashValueMeans(key, x, z);
    }
    hide Merge, Still, Clash;
  }

  lemma StillNone(key: string, x: Option<Value>, v: Value)
    ensures RightOp(key, x, None, Some(v)).Rejected? <==> ClashValue(key, x, v)
    ensures RightOp(key, x, Some(v), None).Rejected? <==> ClashValue(key, x, v)
    ensures RightOp(key, x, None, None).Ok?
  {
    ClashValueMeans(key, x, v);
    NewKey(key, None, Some(v));
    hide MergeValue, ClashValue;
  }

  lemma {:induction false} StillMeans(a: Mapping, b: Mapping, c: Mapping)
    ensures MergeRight(a, b, c).Rejected? <==> Still(a, b, c)
    decreases Dict(c), 0
  {
    RightIsOp(a, b, c);
    hide MergeRight, Merge, MergeValue, ClashValue, StillValue;
    forall key ensures RightAt(a, b, c, key).Rejected? <==>
      (key in c && key in b && StillValue(key, At(a, key), b[key], c[key]))
      || (key in c && key !in b && ClashValue(key, At(a, key), c[key]))
      || (key in b && key !in c && ClashValue(key, At(a, key), b[key]))
    {
      if key in c && key in b {
        StillValueMeans(key, At(a, key), b[key], c[key]);
      } else {
        StillNone(key, At(a, key), if key in c then c[key] else if key in b then b[key] else Leaf(""));
      }
    }
    hide RightAt;
  }

  /** The grouping a flat sequence uses: the earlier two first. */
  function MergeLeft(a: Mapping, b: Mapping, c: Mapping): Result<Mapping> {
    if Merge(a, b).Ok? then Merge(Merge(a, b).value, c) else Rejected
  }

  /**
   * The two groupings agree, errors included, if and only if both raise, or neither does and nothing is lost between
   * them: after a clash of the first two the later grouping must clash as well.
   */
  lemma MergeAssociates(a: Mapping, b: Mapping, c: Mapping)
    ensures MergeLeft(a, b, c) == MergeRight(a, b, c)
      <==> (if Merge(a, b).Rejected? then Still(a, b, c) else Clash(Merge(a, b).value, c) || Kept(a, b, c))
  {
    if Merge(a, b).Rejected? {
      StillMeans(a, b, c);
    } else {
      BothAgree(a, b, c);
      ClashMeans(Merge(a, b).value, c);
    }
    hide Clash, Still, Kept, Merge;
  }

  /** Without that condition the groupings differ: a mapping, replaced by a leaf, comes back merged on one side only. */
  lemma GroupingMatters()
    ensures var a: Mapping := map["x" := Dict(map["p" := Leaf("1")])];
      var b: Mapping := map["x" := Leaf("5")];
      var c: Mapping := map["x" := Dict(map["q" := Leaf("2")])];
      && Merge(a, b).Ok? && Merge(Merge(a, b).value, c).Ok?
      && MergeRight(a, b, c) != Merge(Merge(a, b).value, c)
  {
    var a: Mapping := map["x" := Dict(map["p" := Leaf("1")])];
    var b: Mapping := map["x" := Leaf("5")];
    var c: Mapping := map["x" := Dict(map["q" := Leaf("2")])];
    assert MergeValue("x", At(a, "x"), b["x"]) == Ok(Leaf("5"));
    assert Merge(a, b).Ok?;
    var ab := Merge(a, b).value;
    assert At(ab, "x") == Some(Leaf("5"));
    assert MergeValue("x", At(ab, "x"), c["x"]) == Ok(c["x"]);
    assert Merge(ab, c).Ok?;
    var p, q := a["x"].fields, c["x"].fields;
    assert "p" in p && "p" !in q && !Absorbs(p, q);
    assert !KeptValue(a["x"], b["x"], c["x"]);
    ClashMeans(a, b);
    ClashMeans(ab, c);
    MergeAssociates(a, b, c);
  }

  /** A clash of the first two can be gone once the later two are merged: the list that caused it is replaced. */
  lemma ClashCanVanish()
    ensures var a: Mapping := map[OVERRIDES := Leaf("x")];
      var b: Mapping := map[OVERRIDES := List([])];
      var c: Mapping := map[OVERRIDES := Leaf("y")];
      && MergeLeft(a, b, c).Rejected? && MergeRight(a, b, c) == Ok(c)
  {
    var a: Mapping := map[OVERRIDES := Leaf("x")];
    var b: Mapping := map[OVERRIDES := List([])];
    var c: Mapping := map[OVERRIDES := Leaf("y")];
    assert ClashValue(OVERRIDES, At(a, OVERRIDES), b[OVERRIDES]);
    ClashMeans(a, b);
    assert Absorbs(a, c) && Absorbs(b, c);
    AbsorbsMeans(b, c);
    AbsorbsMeans(a, c);
  }

  // ---- kind-consistent payloads ----

  /** Along every path the schema says whether a mapping stands there; `overrides` always holds a list. */
  ghost predicate Conforms(m: Mapping, path: seq<string>, kind: seq<string> -> bool)
    decreases Dict(m)
  {
    forall key :: key in m ==>
      && (m[key].Dict? <==> kind(path + [key]))
      && (m[key].Dict? ==> Conforms(m[key].fields, path + [key], kind))
      && (key == OVERRIDES ==> m[key].List?)
  }

  lemma {:induction false} ConformsMerge(a: Mapping, b: Mapping, path: seq<string>, kind: seq<string> -> bool)
    requires Conforms(a, path, kind) && Conforms(b, path, kind)
    ensures Merge(a, b).Ok? && Conforms(Merge(a, b).value, path, kind)
    decreases Dict(b)
  {
    forall key | key in b
      ensures MergeValue(key, At(a, key), b[key]).Ok?
      ensures var v := MergeValue(key, At(a, key), b[key]).value;
        && (v.Dict? <==> kind(path + [key])) && (v.Dict? ==> Conforms(v.fields, path + [key], kind))
        && (key == OVERRIDES ==> v.List?)
    {
      if b[key].Dict? && key in a {
        ConformsMerge(a[key].fields, b[key].fields, path + [key], kind);
      }
    }
    hide MergeValue;
  }

  lemma {:induction false} ConformsKeeps(a: Mapping, b: Mapping, c: Mapping, path: seq<string>, kind: seq<string> -> bool)
    requires Conforms(a, path, kind) && Conforms(b, path, kind) && Conforms(c, path, kind)
    ensures Kept(a, b, c)
    decreases Dict(c)
  {
    forall key | key in a && key in b && key in c ensures KeptValue(a[key], b[key], c[key]) {
      if a[key].Dict? {
        ConformsKeeps(a[key].fields, b[key].fields, c[key].fields, path + [key], kind);
      }
    }
  }

  /** Kind-consistent mappings merge without error, and grouping does not matter. */
  lemma ConsistentMergeAssociates(a: Mapping, b: Mapping, c: Mapping, kind: seq<string> -> bool)
    requires Conforms(a, [], kind) && Conforms(b, [], kind) && Conforms(c, [], kind)
    ensures Merge(a, b).Ok? && Merge(b, c).Ok? && Merge(Merge(a, b).value, c).Ok?
    ensures Merge(a, Merge(b, c).value) == Merge(Merge(a, b).value, c)
  {
    ConformsMerge(a, b, [], kind);
    ConformsMerge(b, c, [], kind);
    ConformsMerge(Merge(a, b).value, c, [], kind);
    ConformsKeeps(a, b, c, [], kind);
    ClashMeans(a, b);
    hide Merge, Kept, Conforms, Clash, Still;
    MergeAssociates(a, b, c);
  }

  // ---- include resolution ----

  /** A configuration file; malformed stands for a payload or include list of the wrong type. */
  datatype File = Malformed | Config(includes: seq<string>, payload: Mapping)
  type Files = map<string, File>
  datatype Loaded = Loaded(data: Mapping, sources: seq<string>)

  lemma StackGrows(files: Files, path: string, stack: set<string>)
    requires path in files && path !in stack
    ensures |files.Keys - (stack + {path})| < |files.Keys - stack|
  {
    assert files.Keys - (stack + {path}) == (files.Keys - stack) - {path};
  }

  function Load(files: Files, path: string, stack: set<string>): Result<Loaded>
    decreases |files.Keys - stack|, 0, 0
  {
    if path in stack || path !in files || files[path].Malformed? then Rejected
    else
      StackGrows(files, path, stack);
      var above := LoadAll(files, files[path].includes, stack + {path});
      if above.Rejected? then Rejected
      else
        var data := Merge(above.value.data, files[path].payload);
        if data.Rejected? then Rejected else Ok(Loaded(data.value, above.value.sources + [path]))
  }

  function LoadAll(files: Files, includes: seq<string>, stack: set<string>): Result<Loaded>
    decreases |files.Keys - stack|, 1, |includes|
  {
    if includes == [] then Ok(Loaded(map[], []))
    else
      var before := LoadAll(files, includes[..|includes| - 1], stack);
      if before.Rejected? then Rejected
      else
        var next := Load(files, includes[|includes| - 1], stack);
        if next.Rejected? then Rejected
        else
          var data := Merge(before.value.data, next.value.data);
          if data.Rejected? then Rejected else Ok(Loaded(data.value, before.value.sources + next.value.sources))
  }

  lemma {:induction false} PrefixRejected(files: Files, includes: seq<string>, stack: set<string>, n: nat)
    requires n <= |includes| && LoadAll(files, includes[..n], stack).Rejected?
    ensures LoadAll(files, includes, stack).Rejected?
    decreases |includes|
  {
    if n < |includes| {
      var m := |includes| - 1;
      assert includes[..m][..n] == includes[..n];
      PrefixRejected(files, includes[..m], stack, n);
    } else {
      assert includes[..n] == includes;
    }
  }

  method LoadConfig(files: Files, path: string, stack: set<string>) returns (r: Result<Loaded>)
    ensures r == Load(files, path, stack)
    decreases |files.Keys - stack|
  {
    if path in stack || path !in files || files[path].Malformed? {
      return Rejected;
    }
    StackGrows(files, path, stack);
    var includes := files[path].includes;
    var result, sources := map[], [];
    for n := 0 to |includes|
      invariant LoadAll(files, includes[..n], stack + {path}) == Ok(Loaded(result, sources))
    {
      assert includes[..n + 1][..n] == includes[..n];
      var inherited := LoadConfig(files, includes[n], stack + {path});
      if inherited.Rejected? {
        PrefixRejected(files, includes, stack + {path}, n + 1);
        return Rejected;
      }
      var merged := MergeInto(result, inherited.value.data);
      if merged.Rejected? {
        PrefixRejected(files, includes, stack + {path}, n + 1);
        return Rejected;
      }
      result, sources := merged.value, sources + inherited.value.sources;
    }
    assert includes[..|includes|] == includes;
    sources := sources + [path];
    var data := MergeInto(result, files[path].payload);
    r := if data.Ok? then Ok(Loaded(data.value, sources)) else Rejected;
  }

  // ---- which file graphs resolve ----

  predicate Healthy(files: Files, path: string) {
    path in files && files[path].Config?
  }

  predicate Includes(files: Files, p: string, q: string) {
    Healthy(files, p) && q in files[p].includes
  }

  /** A chain of includes. */
  ghost predicate IsWalk(files: Files, walk: seq<string>) {
    && walk != []
    && forall i, j :: 0 <= i && j == i + 1 < |walk| ==> Includes(files, walk[i], walk[j])
  }

  /** Every file on the walk is healthy, outside the stack, and met once. */
  ghost predicate Clean(files: Files, walk: seq<string>, stack: set<string>) {
    Distinct(walk) && forall p :: p in walk ==> Healthy(files, p) && p !in stack
  }

  ghost predicate Resolvable(files: Files, path: string, stack: set<string>) {
    forall walk :: IsWalk(files, walk) && walk[0] == path ==> Clean(files, walk, stack)
  }

  lemma {:induction false} IncludeLoads(files: Files, includes: seq<string>, stack: set<string>, i: nat)
    requires LoadAll(files, includes, stack).Ok? && i < |includes|
    ensures Load(files, includes[i], stack).Ok?
    decreases |includes|
  {
    if i < |includes| - 1 {
      IncludeLoads(files, includes[..|includes| - 1], stack, i);
    }
  }

  lemma WalkTail(files: Files, walk: seq<string>)
    requires IsWalk(files, walk) && |walk| > 1
    ensures IsWalk(files, walk[1..]) && Includes(files, walk[0], walk[1])
  {
    var rest := walk[1..];
    forall i, j | 0 <= i && j == i + 1 < |rest| ensures Includes(files, rest[i], rest[j]) {
      assert Includes(files, walk[i + 1], walk[j + 1]);
    }
  }

  lemma CleanCons(files: Files, path: string, rest: seq<string>, stack: set<string>)
    ensures Clean(files, [path] + rest, stack) <==>
      Healthy(files, path) && path !in stack && Clean(files, rest, stack + {path})
  {
    var walk := [path] + rest;
    assert walk[0] == path && forall i :: 0 <= i < |rest| ==> walk[i + 1] == rest[i];
    assert forall p :: p in walk <==> p == path || p in rest;
    if Distinct(walk) {
      forall i, j | 0 <= i < j < |rest| ensures rest[i] != rest[j] {
        assert walk[i + 1] != walk[j + 1];
      }
    }
    if Distinct(rest) && path !in rest {
      forall i, j | 0 <= i < j < |walk| ensures walk[i] != walk[j] {
        assert i > 0 ==> rest[i - 1] != rest[j - 1];
      }
    }
  }

  lemma {:induction false} LoadedIsClean(files: Files, path: string, stack: set<string>, walk: seq<string>)
    requires Load(files, path, stack).Ok? && IsWalk(files, walk) && walk[0] == path
    ensures Clean(files, walk, stack)
    decreases |walk|
  {
    assert walk == [path] + walk[1..];
    if |walk| > 1 {
      WalkTail(files, walk);
      var i :| 0 <= i < |files[path].includes| && files[path].includes[i] == walk[1];
      IncludeLoads(files, files[path].includes, stack + {path}, i);
      LoadedIsClean(files, walk[1], stack + {path}, walk[1..]);
    }
    CleanCons(files, path, walk[1..], stack);
  }

  lemma NextResolvable(files: Files, path: string, stack: set<string>, next: string)
    requires Resolvable(files, path, stack) && Healthy(files, path) && next in files[path].includes
    ensures Resolvable(files, next, stack + {path})
  {
    forall rest | IsWalk(files, rest) && rest[0] == next ensures Clean(files, rest, stack + {path}) {
      var walk := [path] + rest;
      forall i, j | 0 <= i && j == i + 1 < |walk| ensures Includes(files, walk[i], walk[j]) {
        assert i > 0 ==> Includes(files, rest[i - 1], rest[j - 1]);
      }
      assert IsWalk(files, walk);
      CleanCons(files, path, rest, stack);
    }
  }

  /** Every healthy file that includes lead to from `path` follows the schema. */
  ghost predicate ReachConforms(files: Files, path: string, kind: seq<string> -> bool) {
    forall walk :: IsWalk(files, walk) && walk[0] == path && Healthy(files, walk[|walk| - 1]) ==>
      Conforms(files[walk[|walk| - 1]].payload, [], kind)
  }

  lemma OwnConforms(files: Files, path: string, kind: seq<string> -> bool)
    requires ReachConforms(files, path, kind) && Healthy(files, path)
    ensures Conforms(files[path].payload, [], kind)
  {
    var walk := [path];
    assert IsWalk(files, walk) && walk[|walk| - 1] == path;
  }

  lemma NextConforms(files: Files, path: string, next: string, kind: seq<string> -> bool)
    requires ReachConforms(files, path, kind) && Includes(files, path, next)
    ensures ReachConforms(files, next, kind)
  {
    hide Conforms;
    forall rest | IsWalk(files, rest) && rest[0] == next && Healthy(files, rest[|rest| - 1])
      ensures Conforms(files[rest[|rest| - 1]].payload, [], kind)
    {
      var walk := [path] + rest;
      forall i, j | 0 <= i && j == i + 1 < |walk| ensures Includes(files, walk[i], walk[j]) {
        assert i > 0 ==> Includes(files, rest[i - 1], rest[j - 1]);
      }
      assert IsWalk(files, walk) && walk[|walk| - 1] == rest[|rest| - 1];
    }
  }

  lemma {:induction false} ResolvableLoads(files: Files, path: string, stack: set<string>, kind: seq<string> -> bool)
    requires ReachConforms(files, path, kind) && Resolvable(files, path, stack)
    ensures Load(files, path, stack).Ok? && Conforms(Load(files, path, stack).value.data, [], kind)
    decreases |files.Keys - stack|, 0, 0
  {
    hide Conforms, Merge, ReachConforms;
    assert IsWalk(files, [path]);
    assert Clean(files, [path], stack);
    assert path in [path];
    StackGrows(files, path, stack);
    var includes := files[path].includes;
    forall q | q in includes ensures Resolvable(files, q, stack + {path}) && ReachConforms(files, q, kind) {
      NextResolvable(files, path, stack, q);
      NextConforms(files, path, q, kind);
    }
    OwnConforms(files, path, kind);
    ResolvableLoadsAll(files, includes, stack + {path}, kind);
    ConformsMerge(LoadAll(files, includes, stack + {path}).value.data, files[path].payload, [], kind);
  }

  lemma {:induction false} ResolvableLoadsAll(files: Files, includes: seq<string>, stack: set<string>, kind: seq<string> -> bool)
    requires forall q :: q in includes ==> Resolvable(files, q, stack) && ReachConforms(files, q, kind)
    ensures LoadAll(files, includes, stack).Ok? && Conforms(LoadAll(files, includes, stack).value.data, [], kind)
    decreases |files.Keys - stack|, 1, |includes|
  {
    hide Resolvable, ReachConforms, Merge;
    if includes != [] {
      var m := |includes| - 1;
      ResolvableLoadsAll(files, includes[..m], stack, kind);
      ResolvableLoads(files, includes[m], stack, kind);
      ConformsMerge(LoadAll(files, includes[..m], stack).value.data, Load(files, includes[m], stack).value.data, [], kind);
    }
  }

  /** If the reachable files are kind-consistent, loading succeeds exactly when all of them are healthy and on no include cycle. */
  lemma LoadsIffNoCycle(files: Files, path: string, kind: seq<string> -> bool)
    requires ReachConforms(files, path, kind)
    ensures Load(files, path, {}).Ok? <==> forall walk :: IsWalk(files, walk) && walk[0] == path ==> Clean(files, walk, {})
  {
    if Load(files, path, {}).Ok? {
      forall walk | IsWalk(files, walk) && walk[0] == path ensures Clean(files, walk, {}) {
        LoadedIsClean(files, path, {}, walk);
      }
    } else if Resolvable(files, path, {}) {
      ResolvableLoads(files, path, {}, kind);
    }
  }

  // ---- the result is a left fold over the sources ----

  function Fold(files: Files, sources: seq<string>): Result<Mapping>
  {
    if sources == [] then Ok(map[])
    else
      var last := sources[|sources| - 1];
      var before := Fold(files, sources[..|sources| - 1]);
      if before.Ok? && Healthy(files, last) then Merge(before.value, files[last].payload) else Rejected
  }

  ghost predicate SourcesConform(files: Files, sources: seq<string>, kind: seq<string> -> bool) {
    forall p :: p in sources ==> Healthy(files, p) && Conforms(files[p].payload, [], kind)
  }

  lemma SourcesPart(files: Files, xs: seq<string>, ys: seq<string>, kind: seq<string> -> bool)
    ensures SourcesConform(files, xs + ys, kind) <==> SourcesConform(files, xs, kind) && SourcesConform(files, ys, kind)
  {
    hide Conforms;
    assert forall p :: p in xs + ys <==> p in xs || p in ys;
  }

  lemma {:induction false} FoldConforms(files: Files, sources: seq<string>, kind: seq<string> -> bool)
    requires SourcesConform(files, sources, kind)
    ensures Fold(files, sources).Ok? && Conforms(Fold(files, sources).value, [], kind)
  {
    hide Merge;
    if sources != [] {
      var last := sources[|sources| - 1];
      FoldConforms(files, sources[..|sources| - 1], kind);
      assert last in sources;
      ConformsMerge(Fold(files, sources[..|sources| - 1]).value, files[last].payload, [], kind);
    }
  }

  lemma MergeNothing(a: Mapping)
    ensures Merge(a, map[]) == Ok(a)
  {
    SameAt(Merge(a, map[]).value, a);
  }

  lemma {:induction false} FoldAppend(files: Files, xs: seq<string>, ys: seq<string>, kind: seq<string> -> bool)
    requires SourcesConform(files, xs, kind) && SourcesConform(files, ys, kind)
    ensures Fold(files, xs).Ok? && Fold(files, ys).Ok?
    ensures Fold(files, xs + ys) == Merge(Fold(files, xs).value, Fold(files, ys).value)
  {
    FoldConforms(files, xs, kind);
    if ys == [] {
      assert xs + ys == xs;
      MergeNothing(Fold(files, xs).value);
    } else {
      hide Merge, Conforms;
      var init, last := ys[..|ys| - 1], ys[|ys| - 1];
      assert (xs + ys)[..|xs + ys| - 1] == xs + init;
      assert last in ys;
      FoldAppend(files, xs, init, kind);
      FoldConforms(files, init, kind);
      ConsistentMergeAssociates(Fold(files, xs).value, Fold(files, init).value, files[last].payload, kind);
    }
  }

  /** The data is the left fold of the payloads, which follow the schema. */
  ghost predicate IsFold(files: Files, l: Loaded, kind: seq<string> -> bool) {
    SourcesConform(files, l.sources, kind) && Fold(files, l.sources) == Ok(l.data)
  }

  /** Whatever the nesting of includes, kind-consistent files load to the left fold of their payloads in source order. */
  lemma {:induction false} LoadIsFold(files: Files, path: string, stack: set<string>, kind: seq<string> -> bool)
    requires ReachConforms(files, path, kind) && Load(files, path, stack).Ok?
    ensures IsFold(files, Load(files, path, stack).value, kind)
    decreases |files.Keys - stack|, 0, 0
  {
    hide Merge, Conforms, ReachConforms;
    StackGrows(files, path, stack);
    var includes := files[path].includes;
    forall q | q in includes ensures ReachConforms(files, q, kind) {
      NextConforms(files, path, q, kind);
    }
    LoadAllIsFold(files, includes, stack + {path}, kind);
    OwnConforms(files, path, kind);
    var sources := LoadAll(files, includes, stack + {path}).value.sources;
    SourcesPart(files, sources, [path], kind);
    assert (sources + [path])[..|sources|] == sources;
  }

  lemma {:induction false} LoadAllIsFold(files: Files, includes: seq<string>, stack: set<string>, kind: seq<string> -> bool)
    requires (forall q :: q in includes ==> ReachConforms(files, q, kind)) && LoadAll(files, includes, stack).Ok?
    ensures IsFold(files, LoadAll(files, includes, stack).value, kind)
    decreases |files.Keys - stack|, 1, |includes|
  {
    hide Merge, Conforms, ReachConforms;
    if includes != [] {
      var m := |includes| - 1;
      LoadAllIsFold(files, includes[..m], stack, kind);
      LoadIsFold(files, includes[m], stack, kind);
      var xs, ys := LoadAll(files, includes[..m], stack).value.sources, Load(files, includes[m], stack).value.sources;
      SourcesPart(files, xs, ys, kind);
      FoldAppend(files, xs, ys, kind);
    }
  }
}
