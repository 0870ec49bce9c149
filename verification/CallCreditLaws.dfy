/** Laws of call credit: what the two corrections mean, and which tokens they touch. */
module CallCreditLaws {
  import opened Common
  import opened GroupStats
  import opened MtGtpo
  import opened Spans
  import opened CallCredit

  // ---- algebra across the two estimators ----

  /** The part of a return that lies beyond the turn's own reward, over all peers. */
  function Futures(c: CallBatch, s: Settings, uid: string, k: nat): seq<real>
    requires Shaped(TableOf(c.base))
  {
    var t := TableOf(c.base);
    var peers := Peers(t, uid, k);
    seq(|peers|, a requires 0 <= a < |peers| => TurnReturn(t, s, peers[a], k) - t.rewards[peers[a]][k])
  }

  lemma {:induction false} SumDifference(xs: seq<real>, ys: seq<real>, zs: seq<real>)
    requires |xs| == |ys| == |zs| && forall i :: 0 <= i < |zs| ==> zs[i] == xs[i] - ys[i]
    ensures Sum(zs) == Sum(xs) - Sum(ys)
  {
    if zs != [] {
      var n := |zs| - 1;
      SumDifference(xs[..n], ys[..n], zs[..n]);
    }
  }

  lemma MeanDifference(xs: seq<real>, ys: seq<real>, zs: seq<real>)
    requires |xs| == |ys| == |zs| && |zs| > 0 && forall i :: 0 <= i < |zs| ==> zs[i] == xs[i] - ys[i]
    ensures Mean(zs) == Mean(xs) - Mean(ys)
  {
    SumDifference(xs, ys, zs);
    QuotientOfDifference(Sum(xs), Sum(ys), |zs| as real);
  }

  lemma QuotientOfDifference(x: real, y: real, n: real)
    requires n > 0.0
    ensures (x - y) / n == x / n - y / n
  {
  }

  lemma FutureMean(c: CallBatch, s: Settings, uid: string, k: nat)
    requires Shaped(TableOf(c.base)) && Peers(TableOf(c.base), uid, k) != []
    ensures Mean(Futures(c, s, uid, k))
         == Mean(PeerReturns(TableOf(c.base), s, uid, k))
          - Mean(Pick(TableOf(c.base), TableOf(c.base).rewards, Peers(TableOf(c.base), uid, k), k))
  {
    var t := TableOf(c.base);
    MeanDifference(PeerReturns(t, s, uid, k), Pick(t, t.rewards, Peers(t, uid, k), k), Futures(c, s, uid, k));
  }

  lemma JudgedNone(advantage: real, reward: real, q: seq<real>, eligible: bool, f: Figures, s: Settings, residual: bool)
    requires f.std >= 0.0 && s.scale.eps > 0.0
    requires Judge(advantage, reward, q, eligible, f, s, residual).reason.None?
    ensures q != [] && eligible && f.support >= s.scale.minGroupSize && f.callSupport >= s.scale.minGroupSize && f.std > 0.0
    ensures var adv := Judge(advantage, reward, q, eligible, f, s, residual).callAdvantages;
      |adv| == |q| && forall j :: 0 <= j < |q| ==> adv[j] == Corrected(advantage, reward, q, j, f, s.scale.eps, residual)
  {
  }

  /** What an applied record says, with the baseline advantage split into its two terms. */
  lemma AppliedRecord(c: CallBatch, s: Settings, residual: bool, i: nat, k: nat)
    requires Sound(c, s) && i < |c.base.mask| && Lit(c.base.mask[i]) && k < |c.base.rewards[i]|
    requires RecordOf(c, s, residual, i, k).reason.None?
    ensures var f, adv := GroupFigures(c, s, c.base.uids[i], k), RecordOf(c, s, residual, i, k).callAdvantages;
      && f.std > 0.0 && c.callRewards[i][k] != [] && |adv| == |c.callRewards[i][k]|
      && f.support >= s.scale.minGroupSize
      && forall j :: 0 <= j < |adv| ==> adv[j] == Corrected(TurnAdvantage(TableOf(c.base), s, i, k), c.base.rewards[i][k],
                                                            c.callRewards[i][k], j, f, s.scale.eps, residual)
  {
    JudgedNone(TurnAdvantage(TableOf(c.base), s, i, k), c.base.rewards[i][k], c.callRewards[i][k], c.eligible[i][k],
               GroupFigures(c, s, c.base.uids[i], k), s, residual);
  }

  /** The group call credit looks at is the group, mean and deviation the baseline was normalised with. */
  lemma SameGroup(c: CallBatch, s: Settings, i: nat, k: nat)
    requires Sound(c, s) && i < |c.base.mask| && Lit(c.base.mask[i]) && k < |c.base.rewards[i]|
    requires var f := GroupFigures(c, s, c.base.uids[i], k); f.std > 0.0 && f.support >= s.scale.minGroupSize
    ensures Peers(TableOf(c.base), c.base.uids[i], k) != []
    ensures GroupFigures(c, s, c.base.uids[i], k).meanReward
         == Mean(Pick(TableOf(c.base), c.base.rewards, Peers(TableOf(c.base), c.base.uids[i], k), k))
    ensures TurnTerm(TableOf(c.base), s, i, k)
         == (TurnReturn(TableOf(c.base), s, i, k) - Mean(PeerReturns(TableOf(c.base), s, c.base.uids[i], k)))
          / (GroupFigures(c, s, c.base.uids[i], k).std + s.scale.eps)
  {
  }

  lemma SwapImmediate(g: real, meanG: real, r: real, meanR: real, q: real, b: real, d: real, episode: real)
    requires d > 0.0
    ensures ((g - meanG) / d + episode) + ((q - b) - (r - meanR)) / d
         == ((q - b) + ((g - r) - (meanG - meanR))) / d + episode
  {
    var x, y := g - meanG, (q - b) - (r - meanR);
    assert x / d + y / d == (x + y) / d;
    assert x + y == (q - b) + ((g - r) - (meanG - meanR));
  }

  /** Local mode replaces exactly the centred immediate term and keeps the centred future term and the episode term. */
  lemma LocalFormula(c: CallBatch, s: Settings, i: nat, k: nat, j: nat)
    requires Sound(c, s) && i < |c.base.mask| && Lit(c.base.mask[i]) && k < |c.base.rewards[i]|
    requires RecordOf(c, s, false, i, k).reason.None? && j < |c.callRewards[i][k]|
    ensures var t, f := TableOf(c.base), GroupFigures(c, s, c.base.uids[i], k);
      var future := TurnReturn(t, s, i, k) - c.base.rewards[i][k];
      && Peers(t, t.uids[i], k) != [] && f.std > 0.0 && |RecordOf(c, s, false, i, k).callAdvantages| == |c.callRewards[i][k]|
      && RecordOf(c, s, false, i, k).callAdvantages[j]
         == ((c.callRewards[i][k][j] - f.callBaseline) + (future - Mean(Futures(c, s, t.uids[i], k)))) / (f.std + s.scale.eps)
          + s.lambdaOutcome * EpisodeAdvantage(t, s, i)
  {
    hide RecordOf, GroupFigures, TurnTerm, EpisodeAdvantage, TurnReturn, Futures, Mean, Peers;
    var t, f := TableOf(c.base), GroupFigures(c, s, c.base.uids[i], k);
    AppliedRecord(c, s, false, i, k);
    SameGroup(c, s, i, k);
    FutureMean(c, s, t.uids[i], k);
    SwapImmediate(TurnReturn(t, s, i, k), Mean(PeerReturns(t, s, t.uids[i], k)), c.base.rewards[i][k], f.meanReward,
                  c.callRewards[i][k][j], f.callBaseline, f.std + s.scale.eps,
                  s.lambdaOutcome * EpisodeAdvantage(t, s, i));
  }

  lemma {:induction false} SumAddConstant(xs: seq<real>, zs: seq<real>, a: real)
    requires |xs| == |zs| && forall i :: 0 <= i < |zs| ==> zs[i] == a + xs[i]
    ensures Sum(zs) == Sum(xs) + |xs| as real * a
  {
    if xs != [] {
      SumAddConstant(xs[..|xs| - 1], zs[..|xs| - 1], a);
    }
  }

  /** Adding the scaled deviations of `q` to a constant leaves the constant as the mean. */
  lemma MeanOfShares(q: seq<real>, adv: seq<real>, a: real, d: real)
    requires |q| == |adv| && |q| > 0 && d > 0.0
    requires forall j :: 0 <= j < |q| ==> adv[j] == a + (q[j] - Mean(q)) / d
    ensures Mean(adv) == a
  {
    var shares := seq(|q|, j requires 0 <= j < |q| => Centred(q)[j] / d);
    SumDivide(Centred(q), shares, d);
    CentredSum(q);
    SumAddConstant(shares, adv, a);
    CancelSize(a, |q| as real);
  }

  lemma CancelSize(a: real, n: real)
    requires n > 0.0
    ensures (0.0 + n * a) / n == a
  {
  }

  /** Residual mode conserves the turn: the calls' advantages average to the unmodified turn advantage. */
  lemma ResidualConserves(c: CallBatch, s: Settings, i: nat, k: nat)
    requires Sound(c, s) && i < |c.base.mask| && Lit(c.base.mask[i]) && k < |c.base.rewards[i]|
    requires RecordOf(c, s, true, i, k).reason.None?
    ensures var adv := RecordOf(c, s, true, i, k).callAdvantages;
      |adv| == |c.callRewards[i][k]| > 0 && Mean(adv) == TurnAdvantage(TableOf(c.base), s, i, k)
  {
    hide RecordOf, GroupFigures, TurnAdvantage, Mean;
    AppliedRecord(c, s, true, i, k);
    MeanOfShares(c.callRewards[i][k], RecordOf(c, s, true, i, k).callAdvantages, TurnAdvantage(TableOf(c.base), s, i, k),
                 GroupFigures(c, s, c.base.uids[i], k).std + s.scale.eps);
  }

  /** The local baseline gives each call-bearing trajectory one vote: the votes balance around it. */
  lemma VotesBalance(c: CallBatch, s: Settings, uid: string, k: nat)
    requires Sound(c, s) && CallMembers(c, Peers(TableOf(c.base), uid, k), k) != []
    ensures var votes := Votes(c, CallMembers(c, Peers(TableOf(c.base), uid, k), k), k);
      && (forall a :: 0 <= a < |votes| ==> Centred(votes)[a] == votes[a] - GroupFigures(c, s, uid, k).callBaseline)
      && Sum(Centred(votes)) == 0.0
  {
    CentredSum(Votes(c, CallMembers(c, Peers(TableOf(c.base), uid, k), k), k));
  }

  /** If every peer makes exactly one call and is paid for it, local credit gives back the turn advantage. */
  lemma SingleCallEquivalence(c: CallBatch, s: Settings, i: nat, k: nat)
    requires Sound(c, s) && i < |c.base.mask| && Lit(c.base.mask[i]) && k < |c.base.rewards[i]|
    requires RecordOf(c, s, false, i, k).reason.None?
    requires var peers := Peers(TableOf(c.base), c.base.uids[i], k);
      forall a :: 0 <= a < |peers| ==> c.callRewards[peers[a]][k] == [c.base.rewards[peers[a]][k]]
    requires c.callRewards[i][k] == [c.base.rewards[i][k]]
    ensures RecordOf(c, s, false, i, k).callAdvantages == [TurnAdvantage(TableOf(c.base), s, i, k)]
  {
    hide RecordOf, GroupFigures, TurnAdvantage, Mean, Peers;
    var t, uid := TableOf(c.base), c.base.uids[i];
    AppliedRecord(c, s, false, i, k);
    SameGroup(c, s, i, k);
    SingleCallBaseline(c, s, uid, k);
    MeanOfOne(c.base.rewards[i][k]);
    NoSwap(TurnAdvantage(t, s, i, k), c.base.rewards[i][k], GroupFigures(c, s, uid, k).meanReward,
           GroupFigures(c, s, uid, k).std + s.scale.eps);
  }

  lemma NoSwap(a: real, r: real, m: real, d: real)
    requires d > 0.0
    ensures a + ((r - m) - (r - m)) / d == a
  {
  }

  /** Members with one call each vote with their own immediate reward. */
  lemma SingleCallVotes(c: CallBatch, rows: seq<nat>, k: nat)
    requires Shaped(TableOf(c.base)) && Rows(TableOf(c.base), rows)
    requires forall a :: 0 <= a < |rows| ==> rows[a] < |c.callRewards| && k < |c.callRewards[rows[a]]|
    requires forall a :: 0 <= a < |rows| ==>
      k < |c.base.rewards[rows[a]]| && c.callRewards[rows[a]][k] == [c.base.rewards[rows[a]][k]]
    ensures CallMembers(c, rows, k) == rows && |Votes(c, rows, k)| == |rows|
    ensures Votes(c, rows, k) == Pick(TableOf(c.base), c.base.rewards, rows, k)
  {
    hide Mean;
    EveryoneCalls(c, rows, k);
    forall a | 0 <= a < |rows| ensures Votes(c, rows, k)[a] == c.base.rewards[rows[a]][k] {
      MeanOfOne(c.base.rewards[rows[a]][k]);
    }
  }

  /** With one call each, the call baseline is the mean immediate reward. */
  lemma SingleCallBaseline(c: CallBatch, s: Settings, uid: string, k: nat)
    requires Sound(c, s) && Peers(TableOf(c.base), uid, k) != []
    requires var peers := Peers(TableOf(c.base), uid, k);
      forall a :: 0 <= a < |peers| ==> c.callRewards[peers[a]][k] == [c.base.rewards[peers[a]][k]]
    ensures GroupFigures(c, s, uid, k).callBaseline == GroupFigures(c, s, uid, k).meanReward
  {
    hide Deviation, Mean, Cohort, Active, AllReturns, Votes, Pick, CallMembers;
    SingleCallVotes(c, Peers(TableOf(c.base), uid, k), k);
  }

  lemma MeanOfOne(x: real)
    ensures Mean([x]) == x
  {
    assert Sum([x]) == Sum([x][..0]) + [x][0];
  }

  lemma {:induction false} EveryoneCalls(c: CallBatch, rows: seq<nat>, k: nat)
    requires forall a :: 0 <= a < |rows| ==>
      rows[a] < |c.callRewards| && k < |c.callRewards[rows[a]]| && c.callRewards[rows[a]][k] != []
    ensures CallMembers(c, rows, k) == rows
  {
    if rows != [] {
      var n := |rows| - 1;
      var init := rows[..n];
      forall a | 0 <= a < |init|
        ensures init[a] < |c.callRewards| && k < |c.callRewards[init[a]]| && c.callRewards[init[a]][k] != []
      {
        assert init[a] == rows[a];
      }
      EveryoneCalls(c, init, k);
      assert rows == init + [rows[n]] && c.callRewards[rows[n]][k] != [];
    }
  }

  // ---- which tokens change ----

  lemma {:induction false} PatchSpanListed(ps: seq<Patch>, k: nat, j: nat) returns (x: nat)
    requires forall q :: 0 <= q < |ps| ==> |ps[q].spans| == |ps[q].values|
    requires k < |ps| && j < |ps[k].spans|
    ensures |AllSpans(ps)| == |AllValues(ps)| && x < |AllSpans(ps)|
    ensures AllSpans(ps)[x] == ps[k].spans[j] && AllValues(ps)[x] == ps[k].values[j]
  {
    var n := |ps| - 1;
    PatchSizes(ps);
    PatchSizes(ps[..n]);
    if k == n {
      x := |AllSpans(ps[..n])| + j;
    } else {
      x := PatchSpanListed(ps[..n], k, j);
    }
  }

  lemma {:induction false} PatchSizes(ps: seq<Patch>)
    requires forall q :: 0 <= q < |ps| ==> |ps[q].spans| == |ps[q].values|
    ensures |AllSpans(ps)| == |AllValues(ps)|
  {
    if ps != [] {
      PatchSizes(ps[..|ps| - 1]);
    }
  }

  lemma {:induction false} ListedSpanOwner(ps: seq<Patch>, x: nat) returns (k: nat, j: nat)
    requires x < |AllSpans(ps)|
    ensures k < |ps| && j < |ps[k].spans| && AllSpans(ps)[x] == ps[k].spans[j]
  {
    var n := |ps| - 1;
    if x < |AllSpans(ps[..n])| {
      k, j := ListedSpanOwner(ps[..n], x);
    } else {
      k, j := n, x - |AllSpans(ps[..n])|;
    }
  }

  ghost predicate Applied(c: CallBatch, s: Settings, residual: bool, i: nat, k: nat)
    requires Ready(c, s) && i < |c.base.mask|
  {
    Lit(c.base.mask[i]) && k < |c.base.rewards[i]| && RecordOf(c, s, residual, i, k).reason.None?
  }

  lemma AppliedHasSpans(c: CallBatch, s: Settings, residual: bool, i: nat, k: nat)
    requires Ready(c, s) && i < |c.base.mask| && Applied(c, s, residual, i, k)
    ensures c.callSpans[i][k].Some? && |c.callSpans[i][k].value| == |c.callRewards[i][k]|
    ensures |RecordOf(c, s, residual, i, k).callAdvantages| == |c.callRewards[i][k]|
  {
    assert TurnOk(c.base.rewards[i][k], c.callRewards[i][k], c.eligible[i][k], c.callSpans[i][k],
                  c.base.spans[i][k], c.base.mask[i]);
  }

  /** Every token of call `j` of an applied turn carries that call's corrected advantage. */
  lemma CallTokenCredit(c: CallBatch, s: Settings, residual: bool, o: CreditScores, i: nat, k: nat, j: nat, p: nat)
    requires Ready(c, s) && Credited(c, s, residual, o) && i < |c.base.mask| && Applied(c, s, residual, i, k)
    requires c.callSpans[i][k].Some? && j < |c.callSpans[i][k].value| && Covers(c.callSpans[i][k].value[j], p)
    ensures p < c.base.length && o.replaced[i, p]
    ensures j < |RecordOf(c, s, residual, i, k).callAdvantages|
    ensures o.advantages[i, p] == RecordOf(c, s, residual, i, k).callAdvantages[j]
  {
    var records := RowRecords(c, s, residual, i);
    var ps := PatchesOf(records, c.callSpans[i]);
    assert AllWrites(c, o.records)[i] == ps;
    AppliedHasSpans(c, s, residual, i, k);
    PrefixFits(c, s, residual, i, records);
    assert ps[k] == Patch(c.callSpans[i][k].value, RecordOf(c, s, residual, i, k).callAdvantages);
    var x := PatchSpanListed(ps, k, j);
    assert Covered(AllSpans(ps), p);
  }

  lemma UncoveredPatches(ps: seq<Patch>, p: int)
    requires forall k: nat, j: nat :: k < |ps| && j < |ps[k].spans| ==> !Covers(ps[k].spans[j], p)
    ensures !Covered(AllSpans(ps), p)
  {
    forall x | 0 <= x < |AllSpans(ps)| ensures !Covers(AllSpans(ps)[x], p) {
      var k, j := ListedSpanOwner(ps, x);
    }
  }

  /** Every token outside the call spans of applied turns keeps its baseline advantage. */
  lemma OtherTokensKept(c: CallBatch, s: Settings, residual: bool, o: CreditScores, i: nat, p: nat)
    requires Ready(c, s) && Credited(c, s, residual, o) && i < |c.base.mask| && p < c.base.length
    requires forall k: nat :: Applied(c, s, residual, i, k) && c.callSpans[i][k].Some? ==> !Covered(c.callSpans[i][k].value, p)
    ensures o.advantages[i, p] == o.baseline.tokenAdvantages[i, p] && !o.replaced[i, p]
  {
    assert o.baseline.tokenAdvantages.Length1 == c.base.length;
    hide RecordOf, Scored;
    var ps := AllWrites(c, o.records)[i];
    assert RowPatched(o.advantages, o.replaced, o.baseline.tokenAdvantages, i, ps);
    forall k: nat, j: nat | k < |ps| && j < |ps[k].spans| ensures !Covers(ps[k].spans[j], p) {
      assert ps[k] == PatchOf(o.records[i][k], c.callSpans[i][k]);
      assert ps[k].spans == c.callSpans[i][k].value && Applied(c, s, residual, i, k);
    }
    UncoveredPatches(ps, p);
  }

  // ---- how many tokens change ----

  function TotalTokens(writes: seq<seq<Patch>>): int {
    if writes == [] then 0 else TotalTokens(writes[..|writes| - 1]) + TotalLength(AllSpans(writes[|writes| - 1]))
  }

  /** `applied_tokens`: the marked cells number the summed lengths of all rewritten call spans. */
  method CountReplaced(replaced: array2<bool>, ghost writes: seq<seq<Patch>>) returns (total: int)
    requires |writes| == replaced.Length0
    requires forall i :: 0 <= i < |writes| ==>
      Ordered(AllSpans(writes[i]), replaced.Length1) && Marked(replaced, i, AllSpans(writes[i]))
    ensures total == TotalTokens(writes)
  {
    total := 0;
    for i := 0 to replaced.Length0
      invariant total == TotalTokens(writes[..i])
    {
      ghost var spans := AllSpans(writes[i]);
      var count := 0;
      for p := 0 to replaced.Length1
        invariant count == CountCovered(spans, p)
      {
        if replaced[i, p] {
          count := count + 1;
        }
      }
      CoveredCount(spans, replaced.Length1);
      total := total + count;
      assert writes[..i + 1][..i] == writes[..i];
    }
    assert writes[..|writes|] == writes;
  }
}
