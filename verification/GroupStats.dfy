/** Group normalisation: population statistics over the rows that share a key. */
module GroupStats {
  import opened Common

  function Sum(xs: seq<real>): real {
    if xs == [] then 0.0 else Sum(xs[..|xs| - 1]) + xs[|xs| - 1]
  }

  function Mean(xs: seq<real>): real
    requires |xs| > 0
  {
    Sum(xs) / |xs| as real
  }

  function Times(x: real, y: real): real {
    x * y
  }

  function Squares(xs: seq<real>, centre: real): seq<real> {
    seq(|xs|, i requires 0 <= i < |xs| => Times(xs[i] - centre, xs[i] - centre))
  }

  function Variance(xs: seq<real>): real
    requires |xs| > 0
  {
    Mean(Squares(xs, Mean(xs)))
  }

  /** `root` plays the part of the square root on the non-negative reals. */
  ghost predicate IsRoot(root: real -> real) {
    forall x: real :: x >= 0.0 ==> root(x) >= 0.0 && Times(root(x), root(x)) == x
  }

  datatype Scale = Scale(eps: real, minGroupSize: int, root: real -> real)

  function Deviation(xs: seq<real>, sc: Scale): real
    requires |xs| > 0
  {
    sc.root(Variance(xs))
  }

  /** What one member `x` of the group `xs` is mapped to. */
  function Scaled(xs: seq<real>, x: real, sc: Scale): real
    requires sc.eps > 0.0
  {
    if |xs| == 0 || |xs| < sc.minGroupSize then 0.0
    else
      var std := Deviation(xs, sc);
      if std > 0.0 then (x - Mean(xs)) / (std + sc.eps) else 0.0
  }

  /** The values filed under `key`, in order. */
  function Select<V, K(==)>(values: seq<V>, keys: seq<K>, key: K): seq<V>
    requires |values| == |keys|
  {
    if keys == [] then []
    else
      var n := |keys| - 1;
      Select(values[..n], keys[..n], key) + if keys[n] == key then [values[n]] else []
  }

  /** The positions filed under `key`, in order. */
  function Members<K(==)>(keys: seq<K>, key: K): seq<nat> {
    if keys == [] then []
    else
      var n := |keys| - 1;
      Members(keys[..n], key) + if keys[n] == key then [n] else []
  }

  /** `m` lists positions of `key`, strictly increasing. */
  ghost predicate Positions<K>(m: seq<nat>, keys: seq<K>, key: K) {
    && (forall j :: 0 <= j < |m| ==> m[j] < |keys| && keys[m[j]] == key)
    && (forall i, j :: 0 <= i < j < |m| ==> m[i] < m[j])
  }

  lemma {:induction false} MembersSound<K>(keys: seq<K>, key: K)
    ensures Positions(Members(keys, key), keys, key)
  {
    if keys != [] {
      var n := |keys| - 1;
      MembersSound(keys[..n], key);
      var before, m := Members(keys[..n], key), Members(keys, key);
      assert m == before || m == before + [n];
      forall j | 0 <= j < |before| ensures before[j] < n && keys[before[j]] == key {
        assert keys[..n][before[j]] == key;
      }
    }
  }

  lemma {:induction false} MembersComplete<K>(keys: seq<K>, i: nat)
    requires i < |keys|
    ensures i in Members(keys, keys[i])
  {
    var n := |keys| - 1;
    if i < n {
      MembersComplete(keys[..n], i);
      assert i in Members(keys[..n], keys[i]);
    } else {
      var m := Members(keys, keys[i]);
      assert m[|m| - 1] == n;
    }
  }

  function Gather(values: seq<real>, positions: seq<nat>): seq<real>
    requires forall j :: 0 <= j < |positions| ==> positions[j] < |values|
  {
    seq(|positions|, j requires 0 <= j < |positions| => values[positions[j]])
  }

  lemma {:induction false} GatherMembers<K>(values: seq<real>, keys: seq<K>, key: K)
    requires |values| == |keys|
    requires forall j :: 0 <= j < |Members(keys, key)| ==> Members(keys, key)[j] < |values|
    ensures Gather(values, Members(keys, key)) == Select(values, keys, key)
  {
    if keys != [] {
      var n := |keys| - 1;
      var before := Members(keys[..n], key);
      MembersSound(keys[..n], key);
      GatherMembers(values[..n], keys[..n], key);
      GatherPrefix(values, n, before);
      GatherAppend(values, before, if keys[n] == key then [n] else []);
    }
  }

  lemma GatherPrefix(values: seq<real>, n: nat, positions: seq<nat>)
    requires n <= |values| && forall j :: 0 <= j < |positions| ==> positions[j] < n
    ensures Gather(values, positions) == Gather(values[..n], positions)
  {
  }

  lemma GatherAppend(values: seq<real>, a: seq<nat>, b: seq<nat>)
    requires forall j :: 0 <= j < |a| ==> a[j] < |values|
    requires forall j :: 0 <= j < |b| ==> b[j] < |values|
    ensures Gather(values, a + b) == Gather(values, a) + Gather(values, b)
  {
  }

  lemma {:induction false} SelectNonEmpty<K>(values: seq<real>, keys: seq<K>, i: nat)
    requires |values| == |keys| && i < |keys|
    ensures |Select(values, keys, keys[i])| > 0
  {
    var n := |keys| - 1;
    if i < n {
      SelectNonEmpty(values[..n], keys[..n], i);
    }
  }

  lemma {:induction false} SelectAppend<V, K>(v1: seq<V>, k1: seq<K>, v2: seq<V>, k2: seq<K>, key: K)
    requires |v1| == |k1| && |v2| == |k2|
    ensures Select(v1 + v2, k1 + k2, key) == Select(v1, k1, key) + Select(v2, k2, key)
  {
    if k2 == [] {
      assert v1 + v2 == v1 && k1 + k2 == k1;
    } else {
      var n := |k2| - 1;
      SelectAppend(v1, k1, v2[..n], k2[..n], key);
      assert (v1 + v2)[..|v1| + n] == v1 + v2[..n];
      assert (k1 + k2)[..|k1| + n] == k1 + k2[..n];
    }
  }

  // ---- the algorithm ----

  method GroupNormalize<K(==)>(values: seq<real>, keys: seq<K>, sc: Scale) returns (r: Result<seq<real>>)
    requires sc.eps > 0.0
    ensures r.Ok? <==> |values| == |keys|
    ensures r.Ok? ==> |r.value| == |values|
    ensures r.Ok? ==> forall i :: 0 <= i < |values| ==>
      |Select(values, keys, keys[i])| > 0 && r.value[i] == Scaled(Select(values, keys, keys[i]), values[i], sc)
  {
    if |values| != |keys| {
      return Rejected;
    }
    var order, groups := GroupPositions(keys);
    var result := new real[|values|](_ => 0.0);
    forall i | 0 <= i < |values| ensures |Select(values, keys, keys[i])| > 0 {
      SelectNonEmpty(values, keys, i);
    }
    for o := 0 to |order|
      invariant forall i :: 0 <= i < |values| ==>
        |Select(values, keys, keys[i])| > 0 &&
        result[i] == if keys[i] in order[..o] then Scaled(Select(values, keys, keys[i]), values[i], sc) else 0.0
    {
      var key := order[o];
      assert key !in order[..o] && order[..o + 1] == order[..o] + [key];
      NormalizeGroup(values, keys, key, groups[key], sc, result);
    }
    assert order[..|order|] == order;
    r := Ok(result[..]);
  }

  /** One pass of the loop over groups: only positions of `key` may leave zero. */
  method NormalizeGroup<K(==)>(values: seq<real>, keys: seq<K>, key: K, indices: seq<nat>, sc: Scale,
                               result: array<real>)
    requires sc.eps > 0.0 && |values| == |keys| == result.Length
    requires indices == Members(keys, key) && key in keys
    requires forall i :: 0 <= i < |keys| && keys[i] == key ==> result[i] == 0.0
    modifies result
    ensures |Select(values, keys, key)| > 0
    ensures forall i :: 0 <= i < |keys| && keys[i] == key ==>
      result[i] == Scaled(Select(values, keys, key), values[i], sc)
    ensures forall i :: 0 <= i < |keys| && keys[i] != key ==> result[i] == old(result[i])
  {
    MembersSound(keys, key);
    GatherMembers(values, keys, key);
    var i0 :| 0 <= i0 < |keys| && keys[i0] == key;
    SelectNonEmpty(values, keys, i0);
    var subset := Gather(values, indices);
    if |indices| < sc.minGroupSize {
      return;
    }
    var std := Deviation(subset, sc);
    if std > 0.0 {
      forall j | 0 <= j < |indices| {
        result[indices[j]] := Scaled(subset, subset[j], sc);
      }
      forall i | 0 <= i < |keys| && keys[i] == key
        ensures result[i] == Scaled(subset, values[i], sc)
      {
        MembersComplete(keys, i);
      }
    }
  }

  /** The insertion-ordered dictionary from key to positions. */
  method GroupPositions<K(==)>(keys: seq<K>) returns (order: seq<K>, groups: map<K, seq<nat>>)
    ensures Distinct(order)
    ensures forall key :: key in order <==> key in keys
    ensures forall key :: key in groups <==> key in keys
    ensures forall key :: key in keys ==> groups[key] == Members(keys, key) && groups[key] != []
  {
    order, groups := [], map[];
    for i := 0 to |keys|
      invariant Distinct(order)
      invariant forall key :: key in order <==> key in keys[..i]
      invariant forall key :: key in groups <==> key in keys[..i]
      invariant forall key :: key in groups ==> groups[key] == Members(keys[..i], key) && groups[key] != []
    {
      var key := keys[i];
      ghost var seen := keys[..i];
      assert keys[..i + 1] == seen + [key];
      MembersSnoc(seen, key);
      if key !in groups {
        MembersAbsent(seen, key);
        order := order + [key];
        groups := groups[key := []];
      }
      groups := groups[key := groups[key] + [i]];
    }
    assert keys[..|keys|] == keys;
  }

  lemma MembersSnoc<K>(seen: seq<K>, x: K)
    ensures Members(seen + [x], x) == Members(seen, x) + [|seen|]
    ensures forall key :: key in seen && key != x ==> Members(seen + [x], key) == Members(seen, key)
  {
    assert (seen + [x])[..|seen|] == seen;
  }

  lemma MembersAbsent<K>(keys: seq<K>, key: K)
    requires key !in keys
    ensures Members(keys, key) == []
  {
  }

  // ---- what normalisation guarantees about one group ----

  function ScaledAll(xs: seq<real>, sc: Scale): seq<real>
    requires |xs| > 0 && sc.eps > 0.0
  {
    seq(|xs|, i requires 0 <= i < |xs| => Scaled(xs, xs[i], sc))
  }

  lemma {:induction false} SumLinear(xs: seq<real>, ys: seq<real>, zs: seq<real>, a: real)
    requires |xs| == |ys| == |zs|
    requires forall i :: 0 <= i < |zs| ==> zs[i] == a * xs[i] + ys[i]
    ensures Sum(zs) == a * Sum(xs) + Sum(ys)
  {
    if zs != [] {
      var n := |zs| - 1;
      SumLinear(xs[..n], ys[..n], zs[..n], a);
      assert a * (Sum(xs[..n]) + xs[n]) == a * Sum(xs[..n]) + a * xs[n];
    }
  }

  lemma {:induction false} SumConstant(xs: seq<real>, c: real)
    requires forall i :: 0 <= i < |xs| ==> xs[i] == c
    ensures Sum(xs) == |xs| as real * c
  {
    if xs != [] {
      SumConstant(xs[..|xs| - 1], c);
    }
  }

  lemma {:induction false} SumAppend(xs: seq<real>, ys: seq<real>)
    ensures Sum(xs + ys) == Sum(xs) + Sum(ys)
  {
    if ys == [] {
      assert xs + ys == xs;
    } else {
      SumAppend(xs, ys[..|ys| - 1]);
      assert (xs + ys)[..|xs + ys| - 1] == xs + ys[..|ys| - 1];
    }
  }

  lemma MeanTimesSize(xs: seq<real>)
    requires |xs| > 0
    ensures Mean(xs) * |xs| as real == Sum(xs)
  {
  }

  lemma {:induction false} SumShift(xs: seq<real>, zs: seq<real>, m: real)
    requires |xs| == |zs| && forall i :: 0 <= i < |zs| ==> zs[i] == xs[i] - m
    ensures Sum(zs) == Sum(xs) - |xs| as real * m
  {
    if xs != [] {
      SumShift(xs[..|xs| - 1], zs[..|xs| - 1], m);
    }
  }

  lemma {:induction false} SumDivide(xs: seq<real>, zs: seq<real>, d: real)
    requires d > 0.0
    requires |xs| == |zs| && forall i :: 0 <= i < |zs| ==> zs[i] == xs[i] / d
    ensures Sum(zs) == Sum(xs) / d
  {
    if xs != [] {
      var n := |xs| - 1;
      SumDivide(xs[..n], zs[..n], d);
      assert Sum(xs[..n]) / d + xs[n] / d == (Sum(xs[..n]) + xs[n]) / d;
    }
  }

  function Centred(xs: seq<real>): seq<real>
    requires |xs| > 0
  {
    seq(|xs|, i requires 0 <= i < |xs| => xs[i] - Mean(xs))
  }

  lemma CentredSum(xs: seq<real>)
    requires |xs| > 0
    ensures Sum(Centred(xs)) == 0.0
  {
    SumShift(xs, Centred(xs), Mean(xs));
    MeanTimesSize(xs);
  }

  lemma NormalisedSumsToZero(xs: seq<real>, sc: Scale)
    requires |xs| > 0 && sc.eps > 0.0
    ensures Sum(ScaledAll(xs, sc)) == 0.0
  {
    var std := Deviation(xs, sc);
    if |xs| >= sc.minGroupSize && std > 0.0 {
      SumDivide(Centred(xs), ScaledAll(xs, sc), std + sc.eps);
      CentredSum(xs);
    } else {
      SumConstant(ScaledAll(xs, sc), 0.0);
    }
  }

  lemma SquareSign(d: real)
    ensures d == 0.0 ==> Times(d, d) == 0.0
    ensures d != 0.0 ==> Times(d, d) > 0.0
  {
    TimesSign(d, d);
  }

  lemma TimesSign(x: real, y: real)
    ensures x > 0.0 && y > 0.0 ==> Times(x, y) > 0.0
    ensures x < 0.0 && y < 0.0 ==> Times(x, y) > 0.0
    ensures x == 0.0 ==> Times(x, y) == 0.0
  {
    if x < 0.0 && y < 0.0 {
      assert (-x) * (-y) > 0.0;
    }
  }

  lemma {:induction false} SumOfNonNegatives(xs: seq<real>)
    requires forall i :: 0 <= i < |xs| ==> xs[i] >= 0.0
    ensures Sum(xs) >= 0.0
    ensures Sum(xs) == 0.0 ==> forall i :: 0 <= i < |xs| ==> xs[i] == 0.0
  {
    if xs != [] {
      SumOfNonNegatives(xs[..|xs| - 1]);
      assert xs == xs[..|xs| - 1] + [xs[|xs| - 1]];
    }
  }

  lemma SumOfSquaresZero(xs: seq<real>, c: real)
    ensures Sum(Squares(xs, c)) >= 0.0
    ensures Sum(Squares(xs, c)) == 0.0 <==> forall i :: 0 <= i < |xs| ==> xs[i] == c
  {
    var sq := Squares(xs, c);
    forall i | 0 <= i < |xs|
      ensures xs[i] == c ==> sq[i] == 0.0
      ensures xs[i] != c ==> sq[i] > 0.0
    {
      SquareSign(xs[i] - c);
    }
    SumOfNonNegatives(sq);
    if forall i :: 0 <= i < |xs| ==> xs[i] == c {
      SumConstant(sq, 0.0);
    }
  }

  lemma VarianceSign(xs: seq<real>)
    requires |xs| > 0
    ensures Variance(xs) >= 0.0
    ensures Variance(xs) == 0.0 <==> forall i :: 0 <= i < |xs| ==> xs[i] == Mean(xs)
  {
    SumOfSquaresZero(xs, Mean(xs));
    QuotientSign(Sum(Squares(xs, Mean(xs))), |xs| as real);
  }

  lemma QuotientSign(x: real, n: real)
    requires x >= 0.0 && n > 0.0
    ensures x / n >= 0.0
    ensures x / n == 0.0 <==> x == 0.0
  {
  }

  lemma MeanOfEqual(xs: seq<real>)
    requires |xs| > 0
    ensures (forall i :: 0 <= i < |xs| ==> xs[i] == Mean(xs)) <==> forall i :: 0 <= i < |xs| ==> xs[i] == xs[0]
  {
    if forall i :: 0 <= i < |xs| ==> xs[i] == xs[0] {
      SumConstant(xs, xs[0]);
    }
  }

  lemma RootSign(root: real -> real, v: real)
    requires IsRoot(root) && v >= 0.0
    ensures root(v) >= 0.0
    ensures root(v) == 0.0 <==> v == 0.0
  {
    SquareSign(root(v));
  }

  /** The deviation is zero exactly for a group whose members all agree. */
  lemma DeviationZero(xs: seq<real>, sc: Scale)
    requires |xs| > 0 && IsRoot(sc.root)
    ensures Deviation(xs, sc) >= 0.0
    ensures Deviation(xs, sc) == 0.0 <==> forall i :: 0 <= i < |xs| ==> xs[i] == xs[0]
  {
    VarianceSign(xs);
    MeanOfEqual(xs);
    RootSign(sc.root, Variance(xs));
  }
}
