/** Strided search for the first repeating prefix, refined inside the stride, against a plain linear search. */
module RepetitionScan {
  import opened Common

  /** `detect(p)` tells whether the prefix of length `p` repeats. */
  type Detector = nat -> bool

  // ---- the plain search ----

  function Linear(detect: Detector, lo: nat, hi: nat): (r: Option<nat>)
    ensures r.Some? ==> lo <= r.value <= hi && detect(r.value) && forall p: nat :: lo <= p < r.value ==> !detect(p)
    ensures r.None? ==> forall p: nat :: lo <= p <= hi ==> !detect(p)
    decreases hi + 1 - lo
  {
    if lo > hi then None else if detect(lo) then Some(lo) else Linear(detect, lo + 1, hi)
  }

  // ---- the sampled prefixes ----

  /** `min + k * stride`. */
  function Nominal(min: nat, stride: nat, k: nat): nat {
    if k == 0 then min else Nominal(min, stride, k - 1) + stride
  }

  /** The loop still runs at the k-th sample. */
  predicate Sampled(min: nat, n: nat, stride: nat, k: nat) {
    Nominal(min, stride, k) < n + stride
  }

  function Sample(min: nat, n: nat, stride: nat, k: nat): nat {
    if Nominal(min, stride, k) < n then Nominal(min, stride, k) else n
  }

  /** Sample `k` is the first that repeats. */
  ghost predicate FirstHit(detect: Detector, min: nat, n: nat, stride: nat, k: nat) {
    && Sampled(min, n, stride, k) && detect(Sample(min, n, stride, k))
    && forall j: nat :: j < k ==> !detect(Sample(min, n, stride, j))
  }

  function WindowStart(min: nat, stop: nat, stride: nat): nat {
    if stop < min + stride then min else stop - stride + 1
  }

  /** The scan's answer: the first repeating length in the window of the first repeating sample. */
  ghost predicate Scanned(detect: Detector, min: nat, n: nat, stride: nat, r: Option<nat>) {
    if r.Some? then exists k: nat :: HitAt(detect, min, n, stride, r, k)
    else forall k: nat :: Sampled(min, n, stride, k) ==> !detect(Sample(min, n, stride, k))
  }

  ghost predicate HitAt(detect: Detector, min: nat, n: nat, stride: nat, r: Option<nat>, k: nat) {
    && FirstHit(detect, min, n, stride, k)
    && r == Linear(detect, WindowStart(min, Sample(min, n, stride, k), stride), Sample(min, n, stride, k))
  }

  method ScanTurn(detect: Detector, min: nat, n: nat, stride: nat) returns (r: Option<nat>)
    requires stride > 0
    ensures n < min ==> r == None
    ensures n >= min ==> Scanned(detect, min, n, stride, r)
  {
    var at := min;
    ghost var k := 0;
    while at < n + stride
      invariant at == Nominal(min, stride, k)
      invariant n >= min ==> forall j: nat :: j < k ==> !detect(Sample(min, n, stride, j))
      decreases n + stride - at
    {
      var stop := if at < n then at else n;
      if detect(stop) {
        r := FirstExact(detect, WindowStart(min, stop, stride), stop);
        if r.Some? {
          assert n >= min ==> HitAt(detect, min, n, stride, r, k);
          return;
        }
      }
      at := at + stride;
      k := k + 1;
    }
    r := None;
    forall j: nat | Sampled(min, n, stride, j) && n >= min ensures !detect(Sample(min, n, stride, j)) {
      if j >= k {
        NominalGrows(min, stride, k, j);
      }
    }
  }

  method FirstExact(detect: Detector, lo: nat, hi: nat) returns (r: Option<nat>)
    ensures r == Linear(detect, lo, hi)
  {
    var exact := lo;
    while exact <= hi
      invariant exact <= hi + 1 || exact == lo
      invariant Linear(detect, lo, hi) == Linear(detect, exact, hi)
    {
      if detect(exact) {
        return Some(exact);
      }
      exact := exact + 1;
    }
    r := None;
  }

  lemma {:induction false} NominalGrows(min: nat, stride: nat, j: nat, k: nat)
    requires j <= k
    ensures Nominal(min, stride, j) <= Nominal(min, stride, k)
    ensures j < k ==> Nominal(min, stride, j) + stride <= Nominal(min, stride, k)
  {
    if j < k {
      NominalGrows(min, stride, j, k - 1);
    }
  }

  // ---- agreement with the plain search ----

  /** The first sample at or after a length is less than one stride later. */
  lemma {:induction false} SampleAfter(min: nat, n: nat, stride: nat, p: nat, k: nat) returns (j: nat)
    requires stride > 0 && min <= p <= n && Nominal(min, stride, k) <= p
    ensures Sampled(min, n, stride, j) && p <= Sample(min, n, stride, j) < p + stride
    ensures forall i: nat :: i < j ==> Sample(min, n, stride, i) < p || Sample(min, n, stride, i) == p
    decreases p - Nominal(min, stride, k)
  {
    if Nominal(min, stride, k) + stride <= p {
      j := SampleAfter(min, n, stride, p, k + 1);
    } else {
      j := if Nominal(min, stride, k) == p then k else k + 1;
      forall i: nat | i < j ensures Sample(min, n, stride, i) <= p {
        NominalGrows(min, stride, i, k);
      }
    }
  }

  /** The scan finds the first repeating length exactly when none exists, or the first repeating sample is within a stride of it. */
  lemma ScanIsLinear(detect: Detector, min: nat, n: nat, stride: nat, r: Option<nat>)
    requires stride > 0 && n >= min && Scanned(detect, min, n, stride, r)
    ensures r == Linear(detect, min, n) <==>
      Linear(detect, min, n).None? || exists k: nat :: FirstHit(detect, min, n, stride, k) && Sample(min, n, stride, k) < Linear(detect, min, n).value + stride
  {
    var first := Linear(detect, min, n);
    if r.Some? {
      var k: nat :| HitAt(detect, min, n, stride, r, k);
      NominalGrows(min, stride, 0, k);
      var stop := Sample(min, n, stride, k);
      assert min <= WindowStart(min, stop, stride) <= r.value <= stop <= n && detect(r.value);
      assert first.Some? && first.value <= r.value;
      assert stop < first.value + stride <==> WindowStart(min, stop, stride) <= first.value;
      forall j: nat | FirstHit(detect, min, n, stride, j) ensures j == k {
        assert j < k || k < j || j == k;
      }
    }
  }

  /** When a repetition, once found, stays found, the strided scan is the plain search. */
  lemma MonotoneScanIsLinear(detect: Detector, min: nat, n: nat, stride: nat, r: Option<nat>)
    requires stride > 0 && n >= min && Scanned(detect, min, n, stride, r)
    requires forall p: nat, q: nat :: min <= p <= q <= n && detect(p) ==> detect(q)
    ensures r == Linear(detect, min, n)
  {
    var first := Linear(detect, min, n);
    ScanIsLinear(detect, min, n, stride, r);
    if first.Some? {
      var j := SampleAfter(min, n, stride, first.value, 0);
      assert detect(Sample(min, n, stride, j));
      var k: nat :| HitAt(detect, min, n, stride, r, k);
      assert k > j ==> !detect(Sample(min, n, stride, j));
      NominalGrows(min, stride, k, j);
      assert FirstHit(detect, min, n, stride, k) && Sample(min, n, stride, k) < first.value + stride;
    }
  }

  /** Without that, a repetition between samples can be missed. */
  lemma ScanCanMiss(detect: Detector)
    requires forall p: nat :: detect(p) <==> p == 3
    ensures Scanned(detect, 1, 9, 4, None) && Linear(detect, 1, 9) == Some(3)
  {
    forall k: nat | Sampled(1, 9, 4, k) ensures !detect(Sample(1, 9, 4, k)) {
      if k > 0 {
        NominalGrows(1, 4, 0, k);
      }
    }
  }
}
