/** What the scale of a group normalisation is, and what the normalised values are, told from the values alone. */
module GroupScale {
  import opened Common
  import opened GroupStats

  /** The sum of (x - c)^2 over the members. */
  function SpreadFrom(xs: seq<real>, c: real): real {
    if xs == [] then 0.0
    else
      var gap := xs[|xs| - 1] - c;
      SpreadFrom(xs[..|xs| - 1], c) + gap * gap
  }

  /** The sum of (xs[i] - xs[j])^2 over all pairs of members. */
  function PairSpread(xs: seq<real>): real {
    if xs == [] then 0.0 else PairSpread(xs[..|xs| - 1]) + SpreadFrom(xs[..|xs| - 1], xs[|xs| - 1])
  }

  lemma {:induction false} SpreadIsSquares(xs: seq<real>, c: real)
    ensures Sum(Squares(xs, c)) == SpreadFrom(xs, c)
  {
    if xs != [] {
      var n := |xs| - 1;
      SpreadIsSquares(xs[..n], c);
      assert Squares(xs, c)[..n] == Squares(xs[..n], c);
    }
  }

  function SquareSum(xs: seq<real>): real {
    SpreadFrom(xs, 0.0)
  }

  /** The spread around `c`, from the sum `s` of the squares and the sum `t`. */
  function Around(s: real, t: real, n: real, c: real): real {
    s - 2.0 * c * t + n * c * c
  }

  function Pairs(s: real, t: real, n: real): real {
    n * s - t * t
  }

  lemma AroundStep(s: real, t: real, n: real, c: real, x: real)
    ensures Around(s, t, n, c) + (x - c) * (x - c) == Around(s + x * x, t + x, n + 1.0, c)
  {
  }

  lemma PairsStep(s: real, t: real, n: real, x: real)
    ensures Pairs(s, t, n) + Around(s, t, n, x) == Pairs(s + x * x, t + x, n + 1.0)
  {
  }

  lemma SquareStep(xs: seq<real>)
    requires xs != []
    ensures SquareSum(xs) == SquareSum(xs[..|xs| - 1]) + xs[|xs| - 1] * xs[|xs| - 1]
  {
  }

  lemma SpreadUnfold(xs: seq<real>, c: real)
    requires xs != []
    ensures SpreadFrom(xs, c) == SpreadFrom(xs[..|xs| - 1], c) + (xs[|xs| - 1] - c) * (xs[|xs| - 1] - c)
    ensures Sum(xs) == Sum(xs[..|xs| - 1]) + xs[|xs| - 1]
  {
  }

  lemma SpreadNone(c: real)
    ensures SpreadFrom([], c) == Around(SquareSum([]), Sum([]), 0.0, c)
  {
  }

  lemma {:induction false} SpreadExpands(xs: seq<real>, c: real)
    ensures SpreadFrom(xs, c) == Around(SquareSum(xs), Sum(xs), |xs| as real, c)
  {
    hide *;
    if xs == [] {
      SpreadNone(c);
      assert |xs| as real == 0.0;
    } else {
      var n, x := |xs| - 1, xs[|xs| - 1];
      assert |xs[..n]| as real == n as real && n as real + 1.0 == |xs| as real;
      SpreadExpands(xs[..n], c);
      SpreadUnfold(xs, c);
      SquareStep(xs);
      AroundStep(SquareSum(xs[..n]), Sum(xs[..n]), n as real, c, x);
      assert SquareSum(xs[..n]) + x * x == SquareSum(xs);
    }
  }

  lemma PairsUnfold(xs: seq<real>)
    requires xs != []
    ensures PairSpread(xs) == PairSpread(xs[..|xs| - 1]) + SpreadFrom(xs[..|xs| - 1], xs[|xs| - 1])
    ensures Sum(xs) == Sum(xs[..|xs| - 1]) + xs[|xs| - 1]
  {
  }

  lemma PairsNone()
    ensures PairSpread([]) == Pairs(SquareSum([]), Sum([]), 0.0)
  {
  }

  lemma {:induction false} PairsExpand(xs: seq<real>)
    ensures PairSpread(xs) == Pairs(SquareSum(xs), Sum(xs), |xs| as real)
  {
    hide *;
    if xs == [] {
      PairsNone();
      assert |xs| as real == 0.0;
    } else {
      var n, x := |xs| - 1, xs[|xs| - 1];
      assert |xs[..n]| as real == n as real && n as real + 1.0 == |xs| as real;
      PairsExpand(xs[..n]);
      PairsUnfold(xs);
      SpreadExpands(xs[..n], x);
      SquareStep(xs);
      PairsStep(SquareSum(xs[..n]), Sum(xs[..n]), n as real, x);
      assert SquareSum(xs[..n]) + x * x == SquareSum(xs);
    }
  }

  /** With m n == t, v n == s - 2 m t + n m^2 gives v n n == n s - t^2. */
  lemma MomentStep(v: real, m: real, s: real, t: real, n: real)
    requires m * n == t && v * n == Around(s, t, n, m)
    ensures v * n * n == Pairs(s, t, n)
  {
    assert Around(s, t, n, m) * n == n * s - 2.0 * (m * n) * t + (m * n) * (m * n);
  }

  lemma VarianceTimesSize(xs: seq<real>)
    requires xs != []
    ensures Variance(xs) * |xs| as real == SpreadFrom(xs, Mean(xs))
  {
    SpreadIsSquares(xs, Mean(xs));
    VarianceIsMean(xs, Mean(xs));
    hide *;
  }

  lemma VarianceIsMean(xs: seq<real>, m: real)
    requires xs != [] && m == Mean(xs)
    ensures Variance(xs) * |xs| as real == Sum(Squares(xs, m))
  {
    hide Sum, Times;
    var sq := Squares(xs, m);
    assert |sq| == |xs| && Variance(xs) == Mean(sq);
    hide Squares, Variance;
    MeanTimesSize(sq);
    hide Mean;
  }

  lemma VarianceOfPairs(xs: seq<real>)
    requires xs != []
    ensures Variance(xs) * |xs| as real * |xs| as real == PairSpread(xs)
  {
    hide *;
    MeanTimesSize(xs);
    VarianceTimesSize(xs);
    SpreadExpands(xs, Mean(xs));
    PairsExpand(xs);
    MomentStep(Variance(xs), Mean(xs), SquareSum(xs), Sum(xs), |xs| as real);
  }

  /** `d` is the population deviation of the group: not negative, and n^2 d^2 is the sum of the squared differences of all pairs. */
  ghost predicate IsSpread(xs: seq<real>, d: real) {
    d >= 0.0 && d * d * |xs| as real * |xs| as real == PairSpread(xs)
  }

  lemma DeviationIsSpread(xs: seq<real>, sc: Scale)
    requires xs != [] && IsRoot(sc.root)
    ensures IsSpread(xs, Deviation(xs, sc))
  {
    VarianceOfPairs(xs);
    VarianceSign(xs);
    hide Variance, PairSpread;
    assert Times(Deviation(xs, sc), Deviation(xs, sc)) == Variance(xs);
  }

  /**
   * What `zs` must be when `raws` are centred and scaled by the deviation of `values`: nothing below the minimum size or
   * without spread; otherwise the differences of `raws` over the deviation plus epsilon, around zero.
   */
  ghost predicate IsShared(values: seq<real>, raws: seq<real>, zs: seq<real>, eps: real, minGroupSize: int, d: real) {
    && |zs| == |raws| == |values| && IsSpread(values, d)
    && if |values| < minGroupSize || d == 0.0 then forall i :: 0 <= i < |zs| ==> zs[i] == 0.0
       else Sum(zs) == 0.0 && forall i, j :: 0 <= i < |zs| && 0 <= j < |zs| ==> (zs[i] - zs[j]) * (d + eps) == raws[i] - raws[j]
  }

  /** `zs` are the values of the group `xs`, normalised. */
  ghost predicate IsNormalised(xs: seq<real>, zs: seq<real>, eps: real, minGroupSize: int, d: real) {
    IsShared(xs, xs, zs, eps, minGroupSize, d)
  }

  lemma QuotientGap(x: real, y: real, m: real, f: real)
    requires f > 0.0
    ensures ((x - m) / f - (y - m) / f) * f == x - y
  {
    assert (x - m) / f - (y - m) / f == (x - y) / f;
  }

  /** The members of `zs` are those of `xs` moved by `m` and divided by `f`. */
  ghost predicate Divided(xs: seq<real>, zs: seq<real>, m: real, f: real) {
    f > 0.0 && |zs| == |xs| && forall i :: 0 <= i < |zs| ==> zs[i] == (xs[i] - m) / f
  }

  lemma DividedGaps(xs: seq<real>, zs: seq<real>, m: real, f: real)
    requires Divided(xs, zs, m, f)
    ensures forall i, j :: 0 <= i < |zs| && 0 <= j < |zs| ==> (zs[i] - zs[j]) * f == xs[i] - xs[j]
  {
    forall i, j | 0 <= i < |zs| && 0 <= j < |zs| ensures (zs[i] - zs[j]) * f == xs[i] - xs[j] {
      QuotientGap(xs[i], xs[j], m, f);
    }
  }

  lemma ScaledDivides(xs: seq<real>, zs: seq<real>, sc: Scale, d: real)
    requires xs != [] && |zs| == |xs| && sc.eps > 0.0 && d == Deviation(xs, sc)
    requires forall i :: 0 <= i < |zs| ==> zs[i] == Scaled(xs, xs[i], sc)
    ensures |xs| >= sc.minGroupSize && d > 0.0 ==> Divided(xs, zs, Mean(xs), d + sc.eps)
    ensures |xs| < sc.minGroupSize || d <= 0.0 ==> forall i :: 0 <= i < |zs| ==> zs[i] == 0.0
    ensures Sum(zs) == 0.0
  {
    NormalisedSumsToZero(xs, sc);
    assert zs == ScaledAll(xs, sc);
    hide Mean, Deviation, Sum, ScaledAll;
  }

  /** Shares of raw components, as the audit computes them from a group's values. */
  lemma DividedIsShared(values: seq<real>, raws: seq<real>, zs: seq<real>, sc: Scale, m: real)
    requires values != [] && |values| == |raws| == |zs| && sc.eps > 0.0 && IsRoot(sc.root) && Sum(zs) == 0.0
    requires |values| >= sc.minGroupSize && Deviation(values, sc) > 0.0 ==> Divided(raws, zs, m, Deviation(values, sc) + sc.eps)
    requires |values| < sc.minGroupSize || Deviation(values, sc) <= 0.0 ==> forall i :: 0 <= i < |zs| ==> zs[i] == 0.0
    ensures IsShared(values, raws, zs, sc.eps, sc.minGroupSize, Deviation(values, sc))
  {
    hide Mean, Deviation, Sum, IsRoot, PairSpread, Divided;
    var d := Deviation(values, sc);
    DeviationIsSpread(values, sc);
    if |values| >= sc.minGroupSize && d > 0.0 {
      DividedGaps(raws, zs, m, d + sc.eps);
    }
  }

  /** The normalisation of one group. */
  lemma ScaledIsNormalised(xs: seq<real>, zs: seq<real>, sc: Scale)
    requires xs != [] && |zs| == |xs| && sc.eps > 0.0 && IsRoot(sc.root)
    requires forall i :: 0 <= i < |zs| ==> zs[i] == Scaled(xs, xs[i], sc)
    ensures IsNormalised(xs, zs, sc.eps, sc.minGroupSize, Deviation(xs, sc))
  {
    hide Mean, Deviation, Scaled, Sum, IsRoot, Divided, IsShared;
    ScaledDivides(xs, zs, sc, Deviation(xs, sc));
    DividedIsShared(xs, xs, zs, sc, Mean(xs));
  }

  lemma PairOfTwo(xs: seq<real>)
    requires |xs| == 2
    ensures PairSpread(xs) == (xs[1] - xs[0]) * (xs[1] - xs[0])
  {
    assert xs[..1][..0] == [] && xs[..0] == [];
    assert PairSpread(xs[..1]) == 0.0;
    assert SpreadFrom(xs[..1], xs[1]) == (xs[0] - xs[1]) * (xs[0] - xs[1]);
  }

  lemma SumOfTwo(zs: seq<real>)
    requires |zs| == 2
    ensures Sum(zs) == zs[0] + zs[1]
  {
    assert Sum(zs) == Sum(zs[..1]) + zs[1];
    assert Sum(zs[..1]) == Sum(zs[..1][..0]) + zs[0];
  }

  lemma SquareGrows(x: real, y: real)
    requires x >= 0.0
    ensures x < y ==> x * x < y * y
  {
    if x < y {
      TimesSign(y - x, y + x);
      assert Times(y - x, y + x) == y * y - x * x;
    }
  }

  lemma SquaresAgree(x: real, y: real)
    requires x >= 0.0 && y >= 0.0 && x * x == y * y
    ensures x == y
  {
    SquareGrows(x, y);
    SquareGrows(y, x);
  }

  /** What half a distance becomes when it is divided by itself plus epsilon. */
  function Shrunk(h: real, eps: real): real
    requires h > 0.0 && eps > 0.0
  {
    h / (h + eps)
  }

  /** Two members a < b become -h / (h + eps) and h / (h + eps), where h is half their distance. */
  lemma TwoMembers(xs: seq<real>, zs: seq<real>, eps: real, minGroupSize: int, d: real)
    requires IsNormalised(xs, zs, eps, minGroupSize, d) && |xs| == 2 && minGroupSize <= 2 && eps > 0.0 && xs[0] < xs[1]
    ensures var h := (xs[1] - xs[0]) / 2.0; d == h && |zs| == 2 && zs[0] == -Shrunk(h, eps) && zs[1] == Shrunk(h, eps)
  {
    var h := (xs[1] - xs[0]) / 2.0;
    PairOfTwo(xs);
    assert (d * 2.0) * (d * 2.0) == (h * 2.0) * (h * 2.0);
    SquaresAgree(d * 2.0, h * 2.0);
    SumOfTwo(zs);
    assert (zs[1] - zs[0]) * (h + eps) == 2.0 * h;
    assert zs[1] * (h + eps) == h;
  }
}
