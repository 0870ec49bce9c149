/** Shared result types and a pigeonhole fact used by several components. */
module Common {
  datatype Option<+T> = None | Some(value: T)

  /** A call that returns normally, or one that raises `ValueError`. */
  datatype Result<+T> = Ok(value: T) | Rejected

  ghost predicate Distinct<T>(xs: seq<T>) {
    forall i, j :: 0 <= i < j < |xs| ==> xs[i] != xs[j]
  }

  lemma TakeSnoc<T>(xs: seq<T>, m: nat)
    requires m < |xs|
    ensures xs[..m + 1] == xs[..m] + [xs[m]]
  {
  }

  ghost predicate Increasing(xs: seq<nat>) {
    forall i, j :: 0 <= i < j < |xs| ==> xs[i] < xs[j]
  }

  /** An increasing sequence is determined by its elements. */
  lemma {:induction false} SameIncreasing(x: seq<nat>, y: seq<nat>)
    requires Increasing(x) && Increasing(y) && forall i :: i in x <==> i in y
    ensures x == y
  {
    if x == [] {
      EmptyIffNone(y);
    } else {
      assert x[0] in y;
      var n, m := |x| - 1, |y| - 1;
      assert x[n] in y && y[m] in x;
      assert x[n] == y[m];
      forall i ensures i in x[..n] <==> i in y[..m] {
        assert i in x[..n] <==> i in x && i != x[n];
        assert i in y[..m] <==> i in y && i != y[m];
      }
      SameIncreasing(x[..n], y[..m]);
    }
  }

  lemma LastIsLargest(chosen: seq<nat>, n: nat)
    requires Increasing(chosen) && n in chosen && forall x :: 0 <= x < |chosen| ==> chosen[x] <= n
    ensures chosen[|chosen| - 1] == n
    ensures forall j :: j in chosen[..|chosen| - 1] <==> j in chosen && j != n
  {
    var x :| 0 <= x < |chosen| && chosen[x] == n;
    var last := chosen[|chosen| - 1];
    assert chosen[x] <= last;
    assert chosen == chosen[..|chosen| - 1] + [last];
  }

  function Elements<T>(xs: seq<T>): set<T> {
    set x | x in xs
  }

  /** A duplicate-free sequence has as many elements as positions, and conversely. */
  lemma {:induction false} DistinctSize<T>(xs: seq<T>)
    ensures |Elements(xs)| <= |xs|
    ensures Distinct(xs) <==> |Elements(xs)| == |xs|
  {
    if xs != [] {
      var init, last := xs[..|xs| - 1], xs[|xs| - 1];
      DistinctSize(init);
      assert Elements(xs) == Elements(init) + {last};
      if last in init {
        assert Elements(xs) == Elements(init);
        var i :| 0 <= i < |init| && init[i] == last;
        assert xs[i] == xs[|xs| - 1];
      } else {
        assert Distinct(xs) <==> Distinct(init) by {
          if Distinct(init) {
            forall i, j | 0 <= i < j < |xs| ensures xs[i] != xs[j] {
              if j < |init| { assert init[i] != init[j]; } else { assert init[i] in init; }
            }
          }
          if Distinct(xs) {
            forall i, j | 0 <= i < j < |init| ensures init[i] != init[j] {
              assert xs[i] != xs[j];
            }
          }
        }
      }
    }
  }

  function Below(n: nat): (b: set<nat>)
    ensures |b| == n
    ensures forall x :: x in b <==> 0 <= x < n
  {
    if n == 0 then {} else Below(n - 1) + {n - 1}
  }

  /** Pigeonhole: n distinct numbers below n hit every number below n. */
  lemma Pigeonhole(xs: seq<nat>, n: nat)
    requires |xs| == n && Distinct(xs) && forall i :: 0 <= i < n ==> xs[i] < n
    ensures forall v: nat :: v < n ==> v in xs
  {
    DistinctSize(xs);
    SubsetSize(Elements(xs), Below(n));
    forall v: nat | v < n ensures v in xs {
      assert v in Elements(xs);
    }
  }

  lemma {:induction false} SubsetSize<T>(a: set<T>, b: set<T>)
    requires a <= b
    ensures |a| <= |b|
    ensures |a| == |b| ==> a == b
  {
    if a != {} {
      var x :| x in a;
      SubsetSize(a - {x}, b - {x});
    }
  }

  lemma EmptyIffNone<T>(xs: seq<T>)
    ensures xs == [] <==> forall x :: x !in xs
  {
    if xs != [] {
      assert xs[0] in xs;
    }
  }

  lemma AppendSnoc<T>(a: seq<T>, b: seq<T>, x: T)
    ensures a + (b + [x]) == (a + b) + [x]
  {
  }
}
