/** The advantages of both estimators, told from the batch and the output alone. */
module EstimatorOutcomes {
  import opened Common
  import opened GroupStats
  import opened GroupScale
  import opened MtGtpo
  import opened MtGtpoLaws
  import opened Spans
  import opened CallCredit
  import opened CallCreditLaws

  // ---- groups ----

  /** `rows` lists, in order, the rows of sample group `uid` with a masked token that reach turn `k`; -1 asks for any. */
  ghost predicate Lists(b: Batch, uid: string, k: int, rows: seq<nat>)
    requires |b.mask| == |b.uids| == |b.rewards|
  {
    && Increasing(rows)
    && (forall a :: 0 <= a < |rows| ==> rows[a] < |b.mask|)
    && forall i :: 0 <= i < |b.mask| ==>
      (i in rows <==> (exists p :: 0 <= p < |b.mask[i]| && b.mask[i][p] != 0) && b.uids[i] == uid && k < |b.rewards[i]|)
  }

  lemma ListsPeers(b: Batch, uid: string, k: int, rows: seq<nat>)
    requires |b.mask| == |b.uids| == |b.rewards| == |b.outcomes| && Lists(b, uid, k, rows)
    ensures rows == Peers(TableOf(b), uid, k)
  {
    PeersAreMembers(TableOf(b), uid, k);
    forall i ensures i in rows <==> i in Peers(TableOf(b), uid, k) {
      if 0 <= i < |b.mask| {
        assert TableOf(b).active[i] == Lit(b.mask[i]);
      }
    }
    SameIncreasing(rows, Peers(TableOf(b), uid, k));
  }

  // ---- the turn-position estimator ----

  /** The values of turn `k` in the listed rows. */
  function At(table: seq<seq<real>>, rows: seq<nat>, k: nat): seq<real>
    requires forall a :: 0 <= a < |rows| ==> rows[a] < |table| && k < |table[rows[a]]|
  {
    seq(|rows|, a requires 0 <= a < |rows| => table[rows[a]][k])
  }

  /** An advantage without the weighted episode advantage. */
  function Without(advantage: real, lambda: real, episode: real): real {
    advantage - lambda * episode
  }

  function OwnTerms(o: Scores, lambda: real, rows: seq<nat>, k: nat): seq<real>
    requires forall a :: 0 <= a < |rows| ==>
      rows[a] < |o.turnAdvantages| == |o.episode| && k < |o.turnAdvantages[rows[a]]|
  {
    seq(|rows|, a requires 0 <= a < |rows| => Without(o.turnAdvantages[rows[a]][k], lambda, o.episode[rows[a]]))
  }

  /** Episode advantages are the outcomes normalised in their sample group. */
  lemma EpisodeNormalised(b: Batch, s: Settings, o: Scores, uid: string, rows: seq<nat>) returns (d: real)
    requires Rectangular(b) && Accepts(b, s) && Scored(b, s, o) && IsRoot(s.scale.root)
    requires Lists(b, uid, -1, rows) && rows != []
    ensures IsNormalised(Gather(b.outcomes, rows), Gather(o.episode, rows), s.scale.eps, s.scale.minGroupSize, d)
  {
    ListsPeers(b, uid, -1, rows);
    var t := TableOf(b);
    var xs, zs := Gather(b.outcomes, rows), Gather(o.episode, rows);
    assert xs == OutcomesOf(t, rows);
    forall a | 0 <= a < |zs| ensures zs[a] == Scaled(xs, xs[a], s.scale) {
      assert zs[a] == EpisodeAdvantage(t, s, rows[a]);
    }
    hide Scored, Accepts, Scaled, IsNormalised, Deviation;
    ScaledIsNormalised(xs, zs, s.scale);
    d := Deviation(xs, s.scale);
  }

  lemma TurnListed(b: Batch, s: Settings, o: Scores, i: nat, k: nat)
    requires Rectangular(b) && Accepts(b, s) && Scored(b, s, o) && i < |b.mask| && Lit(b.mask[i]) && k < |b.rewards[i]|
    ensures |o.turnReturns| == |o.turnAdvantages| == |o.episode| == |b.mask|
    ensures |o.turnReturns[i]| == |o.turnAdvantages[i]| == |b.rewards[i]|
    ensures o.turnReturns[i][k] == TurnReturn(TableOf(b), s, i, k)
    ensures Without(o.turnAdvantages[i][k], s.lambdaOutcome, o.episode[i]) == TurnTerm(TableOf(b), s, i, k)
  {
    hide Return, Scaled, Peers, Shown;
    var t := TableOf(b);
    assert t.active[i];
    assert o.turnReturns[i] == RowReturns(t, s, i) && o.turnAdvantages[i] == RowAdvantages(t, s, i);
    assert o.turnAdvantages[i][k] == TurnAdvantage(t, s, i, k);
  }

  /** Every listed row has a return and an advantage for turn `k`. */
  ghost predicate Reach(o: Scores, rows: seq<nat>, k: nat) {
    && |o.turnReturns| == |o.turnAdvantages| == |o.episode|
    && forall a :: 0 <= a < |rows| ==>
      rows[a] < |o.turnReturns| && k < |o.turnReturns[rows[a]]| == |o.turnAdvantages[rows[a]]|
  }

  lemma TurnsListed(b: Batch, s: Settings, o: Scores, rows: seq<nat>, k: nat)
    requires Rectangular(b) && Accepts(b, s) && Scored(b, s, o)
    requires forall a :: 0 <= a < |rows| ==> rows[a] < |b.mask| && Lit(b.mask[rows[a]]) && k < |b.rewards[rows[a]]|
    ensures Reach(o, rows, k)
    ensures forall a :: 0 <= a < |rows| ==>
      && At(o.turnReturns, rows, k)[a] == TurnReturn(TableOf(b), s, rows[a], k)
      && OwnTerms(o, s.lambdaOutcome, rows, k)[a] == TurnTerm(TableOf(b), s, rows[a], k)
  {
    assert ValidSettings(s) && Shaped(TableOf(b));
    assert |o.turnReturns| == |o.turnAdvantages| == |o.episode| == |b.mask|;
    hide Scored, Accepts, Rectangular, TurnReturn, TurnTerm, Shaped, Without, TableOf, Lit, BinaryRow;
    forall a | 0 <= a < |rows|
      ensures k < |o.turnReturns[rows[a]]| == |o.turnAdvantages[rows[a]]|
      ensures o.turnReturns[rows[a]][k] == TurnReturn(TableOf(b), s, rows[a], k)
      ensures Without(o.turnAdvantages[rows[a]][k], s.lambdaOutcome, o.episode[rows[a]]) == TurnTerm(TableOf(b), s, rows[a], k)
    {
      TurnListed(b, s, o, rows[a], k);
    }
  }

  lemma TermsNormalised(t: Table, s: Settings, uid: string, k: nat, rows: seq<nat>, xs: seq<real>, zs: seq<real>)
    returns (d: real)
    requires Shaped(t) && ValidSettings(s) && IsRoot(s.scale.root)
    requires rows == Peers(t, uid, k) && |xs| == |zs| == |rows| && rows != []
    requires forall a :: 0 <= a < |rows| ==>
      xs[a] == TurnReturn(t, s, rows[a], k) && zs[a] == TurnTerm(t, s, rows[a], k)
    ensures IsNormalised(xs, zs, s.scale.eps, s.scale.minGroupSize, d)
  {
    hide Return, Scaled, Peers, IsNormalised, Deviation, IsRoot;
    assert xs == PeerReturns(t, s, uid, k);
    ScaledIsNormalised(xs, zs, s.scale);
    d := Deviation(xs, s.scale);
  }

  /** Without the episode term, the advantages of turn `k` are its returns normalised over the rows that reach it. */
  lemma TurnsNormalised(b: Batch, s: Settings, o: Scores, uid: string, k: nat, rows: seq<nat>) returns (d: real)
    requires Rectangular(b) && Accepts(b, s) && Scored(b, s, o) && IsRoot(s.scale.root)
    requires Lists(b, uid, k, rows) && rows != []
    ensures Reach(o, rows, k)
    ensures IsNormalised(At(o.turnReturns, rows, k), OwnTerms(o, s.lambdaOutcome, rows, k), s.scale.eps, s.scale.minGroupSize, d)
  {
    assert forall a :: 0 <= a < |rows| ==> rows[a] in rows;
    TurnsListed(b, s, o, rows, k);
    ListsPeers(b, uid, k, rows);
    assert ValidSettings(s) && Shaped(TableOf(b));
    hide *;
    d := TermsNormalised(TableOf(b), s, uid, k, rows, At(o.turnReturns, rows, k), OwnTerms(o, s.lambdaOutcome, rows, k));
  }

  // ---- two rows of one turn ----

  /** Outcomes 0 and 1 in one sample group, one rewardless turn and one token each. */
  function TwoRows(): Batch {
    Batch([0.0, 1.0], ["u", "u"], [[0.0], [0.0]], [[(0, 1)], [(0, 1)]], [[1], [1]], 1)
  }

  function Plain(eps: real, root: real -> real): Settings {
    Settings(1.0, 0.0, Scale(eps, 2, root))
  }

  lemma TwoRowsAccepted(eps: real, root: real -> real)
    requires eps > 0.0
    ensures Rectangular(TwoRows()) && Accepts(TwoRows(), Plain(eps, root))
    ensures Lists(TwoRows(), "u", 0, [0, 1])
  {
    var b := TwoRows();
    forall i | 0 <= i < |b.mask| ensures b.mask[i] == [1] && b.spans[i] == [(0, 1)] && b.rewards[i] == [0.0] && b.uids[i] == "u" {
    }
    assert [1][0] == 1 && Covers([(0, 1)][0], 0);
    assert Tiles([(0, 1)], [1]) && RowAccepts([0.0], [(0, 1)], [1]);
    forall i | 0 <= i < |b.mask| ensures b.mask[i][0] != 0 {
    }
  }

  /** Half the gap over half the gap plus epsilon, once below zero and once above. */
  lemma TwoRowsScores(eps: real, root: real -> real, o: Scores)
    requires eps > 0.0 && IsRoot(root) && Rectangular(TwoRows()) && Accepts(TwoRows(), Plain(eps, root))
    requires Scored(TwoRows(), Plain(eps, root), o)
    ensures o.tokenAdvantages.Length0 == 2 && o.tokenAdvantages.Length1 == 1
    ensures o.tokenAdvantages[0, 0] == -Shrunk(0.5, eps) && o.tokenAdvantages[1, 0] == Shrunk(0.5, eps)
  {
    var b, s := TwoRows(), Plain(eps, root);
    TwoRowsAccepted(eps, root);
    TwoTerms(Plain(eps, root), o);
    hide *;
    var d := TurnsNormalised(TwoRows(), Plain(eps, root), o, "u", 0, [0, 1]);
    TwoMembers([0.0, 1.0], [o.tokenAdvantages[0, 0], o.tokenAdvantages[1, 0]], eps, 2, d);
    assert (1.0 - 0.0) / 2.0 == 0.5;
  }

  lemma TwoTerms(s: Settings, o: Scores)
    requires Rectangular(TwoRows()) && Accepts(TwoRows(), s) && Scored(TwoRows(), s, o) && s.gamma == 1.0 && s.lambdaOutcome == 0.0
    ensures o.tokenAdvantages.Length0 == 2 && o.tokenAdvantages.Length1 == 1 && Reach(o, [0, 1], 0)
    ensures At(o.turnReturns, [0, 1], 0) == [0.0, 1.0]
    ensures OwnTerms(o, 0.0, [0, 1], 0) == [o.tokenAdvantages[0, 0], o.tokenAdvantages[1, 0]]
  {
    hide Scored, Accepts, TurnReturn, TableOf, Rectangular, Without, TurnTerm, Lit, BinaryRow;
    TwoReturns(s);
    TwoTokens(s, o);
    TurnListed(TwoRows(), s, o, 0, 0);
    TurnListed(TwoRows(), s, o, 1, 0);
    WithoutNothing(o.turnAdvantages[0][0], o.episode[0]);
    WithoutNothing(o.turnAdvantages[1][0], o.episode[1]);
  }

  lemma WithoutNothing(a: real, e: real)
    ensures Without(a, 0.0, e) == a
  {
  }

  lemma TwoTokens(s: Settings, o: Scores)
    requires Rectangular(TwoRows()) && Accepts(TwoRows(), s) && Scored(TwoRows(), s, o)
    ensures o.tokenAdvantages.Length0 == 2 && o.tokenAdvantages.Length1 == 1
    ensures |o.turnAdvantages| == 2 && |o.turnAdvantages[0]| == |o.turnAdvantages[1]| == 1
    ensures o.tokenAdvantages[0, 0] == o.turnAdvantages[0][0] && o.tokenAdvantages[1, 0] == o.turnAdvantages[1][0]
  {
    var b := TwoRows();
    TwoReturns(s.(gamma := 1.0));
    assert Covers(b.spans[0][0], 0) && Covers(b.spans[1][0], 0);
    assert TableOf(b).active[0] && TableOf(b).active[1];
    assert Painted(o.tokenAdvantages, 0, b.spans[0], o.turnAdvantages[0]);
    assert Painted(o.tokenAdvantages, 1, b.spans[1], o.turnAdvantages[1]);
  }

  lemma TwoReturns(s: Settings)
    requires s.gamma == 1.0
    ensures TurnReturn(TableOf(TwoRows()), s, 0, 0) == 0.0 && TurnReturn(TableOf(TwoRows()), s, 1, 0) == 1.0
    ensures Lit(TwoRows().mask[0]) && Lit(TwoRows().mask[1])
  {
    assert TwoRows().mask[0][0] != 0 && TwoRows().mask[1][0] != 0;
  }

  // ---- call credit ----

  /** `callers` lists, in order, those of `rows` that make a paid call at turn `k`. */
  ghost predicate Callers(c: CallBatch, rows: seq<nat>, k: nat, callers: seq<nat>)
    requires forall a :: 0 <= a < |rows| ==> rows[a] < |c.callRewards| && k < |c.callRewards[rows[a]]|
  {
    Increasing(callers) && forall i :: i in callers <==> i in rows && c.callRewards[i][k] != []
  }

  lemma {:induction false} CallMembersAre(c: CallBatch, rows: seq<nat>, k: nat)
    requires forall a :: 0 <= a < |rows| ==> rows[a] < |c.callRewards| && k < |c.callRewards[rows[a]]|
    requires Increasing(rows)
    ensures Increasing(CallMembers(c, rows, k))
    ensures forall i :: i in CallMembers(c, rows, k) <==> i in rows && c.callRewards[i][k] != []
  {
    if rows != [] {
      var n := |rows| - 1;
      CallMembersAre(c, rows[..n], k);
      assert rows == rows[..n] + [rows[n]];
    }
  }

  lemma CallersAre(c: CallBatch, rows: seq<nat>, k: nat, callers: seq<nat>)
    requires forall a :: 0 <= a < |rows| ==> rows[a] < |c.callRewards| && k < |c.callRewards[rows[a]]|
    requires Increasing(rows) && Callers(c, rows, k, callers)
    ensures callers == CallMembers(c, rows, k)
  {
    CallMembersAre(c, rows, k);
    SameIncreasing(callers, CallMembers(c, rows, k));
  }

  predicate Uniform(xs: seq<real>) {
    forall i, j :: 0 <= i < |xs| && 0 <= j < |xs| ==> xs[i] == xs[j]
  }

  /** When each verdict on a turn is given: the first of the source's conditions that fails, or none. */
  predicate Verdict(reason: Option<Reason>, q: seq<real>, eligible: bool, support: nat, callSupport: nat, least: int,
                    values: seq<real>, residual: bool) {
    var callable := q != [] && eligible;
    var supported := callable && support >= least && callSupport >= least && !Uniform(values);
    match reason
    case Some(NoCalls) => q == []
    case Some(AttributionIneligible) => q != [] && !eligible
    case Some(InsufficientTurnSupport) => callable && support < least
    case Some(InsufficientCallSupport) => callable && support >= least && callSupport < least
    case Some(ZeroReturnVariance) => callable && support >= least && callSupport >= least && Uniform(values)
    case Some(SingleCall) => supported && residual && |q| == 1
    case Some(UniformCallRewards) => supported && residual && |q| > 1 && Uniform(q)
    case None => supported && (residual ==> !Uniform(q))
  }

  /** Row `i` with a masked token, its turn `k`, and the two lists of peers that matter for it. */
  ghost predicate Judged(c: CallBatch, s: Settings, residual: bool, o: CreditScores, i: nat, k: nat, rows: seq<nat>, callers: seq<nat>)
    reads o.advantages, o.replaced, o.baseline.tokenAdvantages, o.baseline.tokenReturns
  {
    && Ready(c, s) && Credited(c, s, residual, o) && i < |c.base.mask| && k < |c.base.rewards[i]|
    && Lists(c.base, c.base.uids[i], k, rows) && i in rows && Callers(c, rows, k, callers)
  }

  lemma JudgedLists(c: CallBatch, s: Settings, residual: bool, o: CreditScores, i: nat, k: nat, rows: seq<nat>, callers: seq<nat>)
    requires Judged(c, s, residual, o, i, k, rows, callers)
    ensures rows == Peers(TableOf(c.base), c.base.uids[i], k) && rows != [] && callers == CallMembers(c, rows, k)
    ensures Lit(c.base.mask[i]) && Sound(c, s)
    ensures forall a :: 0 <= a < |rows| ==> rows[a] < |c.base.mask| && Lit(c.base.mask[rows[a]]) && k < |c.base.rewards[rows[a]]|
  {
    hide Credited, IsRoot;
    assert forall a :: 0 <= a < |rows| ==> rows[a] in rows;
    ListsPeers(c.base, c.base.uids[i], k, rows);
    CallersAre(c, rows, k, callers);
  }

  lemma JudgedRecord(c: CallBatch, s: Settings, residual: bool, o: CreditScores, i: nat, k: nat)
    requires Ready(c, s) && Credited(c, s, residual, o) && i < |c.base.mask| && Lit(c.base.mask[i]) && k < |c.base.rewards[i]|
    ensures |o.records| == |c.base.mask| && |o.records[i]| == |c.base.rewards[i]| && o.records[i][k] == RecordOf(c, s, residual, i, k)
    ensures Scored(c.base, s, o.baseline)
  {
    hide RecordOf, AllPatched, Scored;
    assert AllRecords(c, s, residual)[i] == RowRecords(c, s, residual, i);
  }

  lemma PeerReturnsAt(b: Batch, s: Settings, o: Scores, uid: string, k: nat, rows: seq<nat>)
    requires Rectangular(b) && Accepts(b, s) && Scored(b, s, o) && rows == Peers(TableOf(b), uid, k)
    requires forall a :: 0 <= a < |rows| ==> rows[a] < |b.mask| && Lit(b.mask[rows[a]]) && k < |b.rewards[rows[a]]|
    ensures Reach(o, rows, k) && At(o.turnReturns, rows, k) == PeerReturns(TableOf(b), s, uid, k)
  {
    TurnsListed(b, s, o, rows, k);
    hide Scored, Rectangular, Return, Reach, Lit;
  }

  lemma JudgedPeers(c: CallBatch, s: Settings, residual: bool, o: CreditScores, i: nat, k: nat, rows: seq<nat>, callers: seq<nat>)
    requires Judged(c, s, residual, o, i, k, rows, callers)
    ensures i < |c.base.mask| && k < |c.base.rewards[i]| && Lit(c.base.mask[i]) && Sound(c, s)
    ensures Reach(o.baseline, rows, k) && At(o.baseline.turnReturns, rows, k) == PeerReturns(TableOf(c.base), s, c.base.uids[i], k)
  {
    JudgedLists(c, s, residual, o, i, k, rows, callers);
    hide RecordOf, AllPatched, Scored, Peers, PeerReturns, Reach, Lists, Callers, CallMembers, IsRoot;
    PeerReturnsAt(c.base, s, o.baseline, c.base.uids[i], k, rows);
  }

  lemma DeviationUniform(xs: seq<real>, sc: Scale)
    requires xs != [] && IsRoot(sc.root)
    ensures Deviation(xs, sc) == 0.0 <==> Uniform(xs)
    ensures Deviation(xs, sc) >= 0.0
  {
    DeviationZero(xs, sc);
  }

  lemma ReasonIsVerdict(q: seq<real>, eligible: bool, f: Figures, least: int, values: seq<real>, residual: bool)
    requires f.std == 0.0 <==> Uniform(values)
    ensures Verdict(FallbackReason(q, eligible, f, least, residual), q, eligible, f.support, f.callSupport, least, values, residual)
  {
  }

  /** The verdict recorded for a turn is the one that fits the batch. */
  lemma RecordedVerdict(c: CallBatch, s: Settings, residual: bool, o: CreditScores, i: nat, k: nat, rows: seq<nat>, callers: seq<nat>)
    requires Judged(c, s, residual, o, i, k, rows, callers)
    ensures |o.records| == |c.base.mask| && |o.records[i]| == |c.base.rewards[i]| && Reach(o.baseline, rows, k)
    ensures Verdict(o.records[i][k].reason, c.callRewards[i][k], c.eligible[i][k], |rows|, |callers|, s.scale.minGroupSize,
                    At(o.baseline.turnReturns, rows, k), residual)
    ensures o.records[i][k].reason.Some? ==> o.records[i][k].callAdvantages == []
  {
    hide Judged, PeerReturns, Peers, Callers, CallMembers, Lists, Deviation, Mean, Uniform, Verdict, IsRoot, TurnAdvantage, FallbackReason,
      Scored, Credited, Lit, BinaryRow, RowAccepts, TurnOk, GroupFigures, TableOf, RecordOf;
    JudgedLists(c, s, residual, o, i, k, rows, callers);
    JudgedPeers(c, s, residual, o, i, k, rows, callers);
    JudgedBasics(c, s, residual, o, i, k, rows, callers);
    JudgedRecord(c, s, residual, o, i, k);
    FiguresOf(c, s, c.base.uids[i], k, rows, callers);
    RecordUnfolds(c, s, residual, i, k);
    var f := GroupFigures(c, s, c.base.uids[i], k);
    var values := At(o.baseline.turnReturns, rows, k);
    DeviationUniform(values, s.scale);
    ReasonIsVerdict(c.callRewards[i][k], c.eligible[i][k], f, s.scale.minGroupSize, values, residual);
  }

  lemma RecordUnfolds(c: CallBatch, s: Settings, residual: bool, i: nat, k: nat)
    requires Sound(c, s) && i < |c.base.mask| && Lit(c.base.mask[i]) && k < |c.base.rewards[i]|
    ensures RecordOf(c, s, residual, i, k).reason == FallbackReason(c.callRewards[i][k], c.eligible[i][k],
                GroupFigures(c, s, c.base.uids[i], k), s.scale.minGroupSize, residual)
    ensures RecordOf(c, s, residual, i, k).reason.Some? ==> RecordOf(c, s, residual, i, k).callAdvantages == []
  {
    hide FallbackReason, GroupFigures, TurnAdvantage, Corrected;
  }

  /** What one gap between two advantages must be. */
  predicate GapIs(x: real, y: real, p: real, q: real, scale: real) {
    (x - y) * scale == p - q
  }

  lemma GapOfShares(a: real, p: real, q: real, m: real, f: real)
    requires f > 0.0
    ensures GapIs(a + (p - m) / f, a + (q - m) / f, p, q, f)
  {
    assert (p - m) / f - (q - m) / f == (p - q) / f;
  }

  lemma ResidualGap(advantage: real, reward: real, q: seq<real>, j: nat, l: nat, f: Figures, eps: real)
    requires j < |q| && l < |q| && f.std + eps > 0.0
    ensures GapIs(Corrected(advantage, reward, q, j, f, eps, true), Corrected(advantage, reward, q, l, f, eps, true),
                  q[j], q[l], f.std + eps)
  {
    GapOfShares(advantage, q[j], q[l], Mean(q), f.std + eps);
    hide Mean, GapIs;
  }

  /** Residual mode pays the calls of a turn around its baseline advantage, further apart exactly as their rewards are. */
  ghost predicate Spread(o: CreditScores, i: nat, k: nat, q: seq<real>, scale: real)
    requires i < |o.records| == |o.baseline.turnAdvantages| && k < |o.records[i]| == |o.baseline.turnAdvantages[i]|
  {
    var adv := o.records[i][k].callAdvantages;
    && |adv| == |q| && Sum(adv) == Times(|adv| as real, o.baseline.turnAdvantages[i][k])
    && forall j, l :: 0 <= j < |q| && 0 <= l < |q| ==> GapIs(adv[j], adv[l], q[j], q[l], scale)
  }

  lemma SumFromMean(xs: seq<real>, m: real)
    requires xs != [] && Mean(xs) == m
    ensures Sum(xs) == Times(|xs| as real, m)
  {
    MeanTimesSize(xs);
    hide Mean, Sum;
  }

  lemma BaselineAdvantage(b: Batch, s: Settings, o: Scores, i: nat, k: nat)
    requires Rectangular(b) && Accepts(b, s) && Scored(b, s, o) && i < |b.mask| && Lit(b.mask[i]) && k < |b.rewards[i]|
    ensures |o.turnAdvantages| == |b.mask| && |o.turnAdvantages[i]| == |b.rewards[i]|
    ensures o.turnAdvantages[i][k] == TurnAdvantage(TableOf(b), s, i, k)
  {
    hide Return, Scaled, Peers, Shown, TurnTerm, EpisodeAdvantage;
    assert TableOf(b).active[i];
    assert o.turnAdvantages[i] == RowAdvantages(TableOf(b), s, i);
  }

  lemma AppliedSpread(c: CallBatch, s: Settings, o: CreditScores, i: nat, k: nat)
    requires Ready(c, s) && Credited(c, s, true, o) && i < |c.base.mask| && Lit(c.base.mask[i]) && k < |c.base.rewards[i]|
    requires Sound(c, s) && RecordOf(c, s, true, i, k).reason.None?
    ensures |o.records| == |o.baseline.turnAdvantages| == |c.base.mask|
    ensures |o.records[i]| == |o.baseline.turnAdvantages[i]| == |c.base.rewards[i]|
    ensures Spread(o, i, k, c.callRewards[i][k], GroupFigures(c, s, c.base.uids[i], k).std + s.scale.eps)
  {
    hide Scored, Credited, IsRoot, Peers, PeerReturns, Mean, Deviation, RecordOf, GroupFigures, TurnAdvantage, Corrected, Spread,
      IsSpread, GapIs, Times, Sum, Lists, Callers, CallMembers, Lit, BinaryRow, RowAccepts, TurnOk, AllPatched, TableOf, Judged;
    JudgedRecord(c, s, true, o, i, k);
    BaselineAdvantage(c.base, s, o.baseline, i, k);
    AppliedRecord(c, s, true, i, k);
    ResidualConserves(c, s, i, k);
    var adv, q, f := o.records[i][k].callAdvantages, c.callRewards[i][k], GroupFigures(c, s, c.base.uids[i], k);
    var advantage, reward, eps := o.baseline.turnAdvantages[i][k], c.base.rewards[i][k], s.scale.eps;
    SumFromMean(adv, advantage);
    ResidualGaps(advantage, reward, q, adv, f, eps);
    SpreadMeans(o, i, k, q, f.std + eps);
  }

  /** In an applied residual turn the calls share the baseline advantage, and differ by their rewards over the deviation. */
  lemma ResidualSpread(c: CallBatch, s: Settings, o: CreditScores, i: nat, k: nat, rows: seq<nat>, callers: seq<nat>) returns (d: real)
    requires Judged(c, s, true, o, i, k, rows, callers)
    requires |o.records| == |c.base.mask| && |o.records[i]| == |c.base.rewards[i]| && o.records[i][k].reason.None?
    ensures Reach(o.baseline, rows, k) && IsSpread(At(o.baseline.turnReturns, rows, k), d)
    ensures |o.baseline.turnAdvantages| == |c.base.mask| && |o.baseline.turnAdvantages[i]| == |c.base.rewards[i]|
    ensures Spread(o, i, k, c.callRewards[i][k], d + s.scale.eps)
  {
    hide Scored, Credited, IsRoot, Peers, PeerReturns, Mean, Deviation, RecordOf, GroupFigures, TurnAdvantage, Corrected, Spread,
      IsSpread, GapIs, Times, Sum, Lists, Callers, CallMembers, Lit, BinaryRow, RowAccepts, TurnOk, AllPatched, TableOf, Judged;
    JudgedLists(c, s, true, o, i, k, rows, callers);
    JudgedPeers(c, s, true, o, i, k, rows, callers);
    JudgedBasics(c, s, true, o, i, k, rows, callers);
    JudgedRecord(c, s, true, o, i, k);
    AppliedSpread(c, s, o, i, k);
    FiguresOf(c, s, c.base.uids[i], k, rows, callers);
    var values := At(o.baseline.turnReturns, rows, k);
    DeviationIsSpread(values, s.scale);
    d := Deviation(values, s.scale);
  }

  lemma JudgedBasics(c: CallBatch, s: Settings, residual: bool, o: CreditScores, i: nat, k: nat, rows: seq<nat>, callers: seq<nat>)
    requires Judged(c, s, residual, o, i, k, rows, callers)
    ensures Rectangular(c.base) && Accepts(c.base, s) && Scored(c.base, s, o.baseline) && s.scale.eps > 0.0 && IsRoot(s.scale.root)
    ensures Ready(c, s) && Credited(c, s, residual, o) && i < |c.base.mask| && k < |c.base.rewards[i]|
    ensures forall a :: 0 <= a < |rows| ==> rows[a] < |c.base.mask| && Lit(c.base.mask[rows[a]]) && k < |c.base.rewards[rows[a]]|
  {
    hide Scored, IsRoot, AllPatched;
    JudgedLists(c, s, residual, o, i, k, rows, callers);
  }

  lemma FiguresOf(c: CallBatch, s: Settings, uid: string, k: nat, rows: seq<nat>, callers: seq<nat>)
    requires Sound(c, s) && rows == Peers(TableOf(c.base), uid, k) && rows != []
    requires (forall a :: 0 <= a < |rows| ==> rows[a] < |c.callRewards| && k < |c.callRewards[rows[a]]|)
    requires callers == CallMembers(c, rows, k)
    ensures var f := GroupFigures(c, s, uid, k);
      && PeerReturns(TableOf(c.base), s, uid, k) != [] && f.std == Deviation(PeerReturns(TableOf(c.base), s, uid, k), s.scale)
      && f.support == |rows| && f.callSupport == |callers|
  {
    hide Peers, Deviation, Mean, MeanOr0, CallMembers, IsRoot;
  }

  lemma ResidualGaps(advantage: real, reward: real, q: seq<real>, adv: seq<real>, f: Figures, eps: real)
    requires f.std > 0.0 && eps > 0.0 && |adv| == |q|
    requires forall j :: 0 <= j < |q| ==> adv[j] == Corrected(advantage, reward, q, j, f, eps, true)
    ensures forall j, l :: 0 <= j < |q| && 0 <= l < |q| ==> GapIs(adv[j], adv[l], q[j], q[l], f.std + eps)
  {
    hide Corrected, GapIs;
    forall j, l | 0 <= j < |q| && 0 <= l < |q| ensures GapIs(adv[j], adv[l], q[j], q[l], f.std + eps) {
      ResidualGap(advantage, reward, q, j, l, f, eps);
    }
  }

  lemma SpreadMeans(o: CreditScores, i: nat, k: nat, q: seq<real>, scale: real)
    requires i < |o.records| == |o.baseline.turnAdvantages| && k < |o.records[i]| == |o.baseline.turnAdvantages[i]|
    requires |o.records[i][k].callAdvantages| == |q|
    requires Sum(o.records[i][k].callAdvantages) == Times(|q| as real, o.baseline.turnAdvantages[i][k])
    requires forall j, l :: 0 <= j < |q| && 0 <= l < |q| ==>
      GapIs(o.records[i][k].callAdvantages[j], o.records[i][k].callAdvantages[l], q[j], q[l], scale)
    ensures Spread(o, i, k, q, scale)
  {
  }

  /** One vote per caller: its own mean call reward. */
  ghost predicate VotesOf(c: CallBatch, callers: seq<nat>, k: nat, votes: seq<real>)
    requires forall a :: 0 <= a < |callers| ==> callers[a] < |c.callRewards| && k < |c.callRewards[callers[a]]|
  {
    && |votes| == |callers|
    && forall a :: 0 <= a < |votes| ==>
      Times(votes[a], |c.callRewards[callers[a]][k]| as real) == Sum(c.callRewards[callers[a]][k])
  }

  /** Local mode moves a call away from the baseline by its reward against the vote, instead of the turn's reward against the mean. */
  ghost predicate Moved(x: real, advantage: real, q: real, vote: real, reward: real, mean: real, scale: real) {
    (x - advantage) * scale == (q - vote) - (reward - mean)
  }

  ghost predicate LocalShares(c: CallBatch, o: CreditScores, i: nat, k: nat, vote: real, mean: real, scale: real)
    requires i < |o.records| == |o.baseline.turnAdvantages| == |c.callRewards| == |c.base.rewards|
    requires k < |o.records[i]| == |o.baseline.turnAdvantages[i]| == |c.callRewards[i]| == |c.base.rewards[i]|
  {
    var adv, q := o.records[i][k].callAdvantages, c.callRewards[i][k];
    && |adv| == |q|
    && forall j :: 0 <= j < |q| ==>
      Moved(adv[j], o.baseline.turnAdvantages[i][k], q[j], vote, c.base.rewards[i][k], mean, scale)
  }

  lemma LocalMove(advantage: real, reward: real, q: seq<real>, j: nat, f: Figures, eps: real)
    requires j < |q| && f.std + eps > 0.0
    ensures Moved(Corrected(advantage, reward, q, j, f, eps, false), advantage, q[j], f.callBaseline, reward, f.meanReward, f.std + eps)
  {
    hide Mean;
    assert ((q[j] - f.callBaseline) - (reward - f.meanReward)) / (f.std + eps) * (f.std + eps)
        == (q[j] - f.callBaseline) - (reward - f.meanReward);
  }

  lemma AppliedShares(c: CallBatch, s: Settings, o: CreditScores, i: nat, k: nat)
    requires Ready(c, s) && Credited(c, s, false, o) && i < |c.base.mask| && Lit(c.base.mask[i]) && k < |c.base.rewards[i]|
    requires Sound(c, s) && RecordOf(c, s, false, i, k).reason.None?
    ensures |o.records| == |o.baseline.turnAdvantages| == |c.base.mask|
    ensures |o.records[i]| == |o.baseline.turnAdvantages[i]| == |c.base.rewards[i]|
    ensures var f := GroupFigures(c, s, c.base.uids[i], k);
      LocalShares(c, o, i, k, f.callBaseline, f.meanReward, f.std + s.scale.eps)
  {
    hide Scored, Credited, IsRoot, Mean, Deviation, RecordOf, GroupFigures, TurnAdvantage, Corrected, Moved, Sum, Lit, BinaryRow,
      RowAccepts, TurnOk, AllPatched, TableOf;
    JudgedRecord(c, s, false, o, i, k);
    BaselineAdvantage(c.base, s, o.baseline, i, k);
    AppliedRecord(c, s, false, i, k);
    forall j | 0 <= j < |c.callRewards[i][k]|
      ensures var f := GroupFigures(c, s, c.base.uids[i], k);
        Moved(o.records[i][k].callAdvantages[j], o.baseline.turnAdvantages[i][k], c.callRewards[i][k][j], f.callBaseline,
              c.base.rewards[i][k], f.meanReward, f.std + s.scale.eps)
    {
      LocalMove(o.baseline.turnAdvantages[i][k], c.base.rewards[i][k], c.callRewards[i][k], j,
                GroupFigures(c, s, c.base.uids[i], k), s.scale.eps);
    }
  }

  lemma FigureMeans(c: CallBatch, s: Settings, uid: string, k: nat, rows: seq<nat>, callers: seq<nat>, votes: seq<real>)
    requires Sound(c, s) && rows == Peers(TableOf(c.base), uid, k) && rows != []
    requires (forall a :: 0 <= a < |rows| ==> rows[a] < |c.callRewards| && k < |c.callRewards[rows[a]]|)
    requires callers == CallMembers(c, rows, k) && callers != [] && VotesOf(c, callers, k, votes)
    ensures var f := GroupFigures(c, s, uid, k);
      && Times(f.meanReward, |rows| as real) == Sum(At(c.base.rewards, rows, k))
      && Times(f.callBaseline, |callers| as real) == Sum(votes)
  {
    hide Peers, Deviation, IsRoot, CallMembers, Sum;
    var t, f := TableOf(c.base), GroupFigures(c, s, uid, k);
    assert Pick(t, t.rewards, rows, k) == At(c.base.rewards, rows, k);
    forall a | 0 <= a < |callers| ensures votes[a] == Votes(c, callers, k)[a] {
      VoteIsMean(c.callRewards[callers[a]][k], votes[a]);
    }
    assert votes == Votes(c, callers, k);
    hide Mean;
    MeanTimesSize(At(c.base.rewards, rows, k));
    MeanTimesSize(votes);
  }

  lemma VoteIsMean(q: seq<real>, vote: real)
    requires q != [] && Times(vote, |q| as real) == Sum(q)
    ensures vote == Mean(q)
  {
    hide Sum;
  }

  /** In an applied local turn each call is moved by its centred reward in place of the turn's. */
  lemma LocalSpread(c: CallBatch, s: Settings, o: CreditScores, i: nat, k: nat, rows: seq<nat>, callers: seq<nat>, votes: seq<real>)
    returns (d: real, vote: real, mean: real)
    requires Judged(c, s, false, o, i, k, rows, callers)
    requires |o.records| == |c.base.mask| && |o.records[i]| == |c.base.rewards[i]| && o.records[i][k].reason.None?
    requires forall a :: 0 <= a < |callers| ==> callers[a] < |c.callRewards| && k < |c.callRewards[callers[a]]|
    requires VotesOf(c, callers, k, votes)
    ensures Reach(o.baseline, rows, k) && IsSpread(At(o.baseline.turnReturns, rows, k), d)
    ensures (forall a :: 0 <= a < |rows| ==> rows[a] < |c.base.rewards| && k < |c.base.rewards[rows[a]]|)
      && Times(mean, |rows| as real) == Sum(At(c.base.rewards, rows, k))
    ensures Times(vote, |callers| as real) == Sum(votes)
    ensures |o.baseline.turnAdvantages| == |c.base.mask| && |o.baseline.turnAdvantages[i]| == |c.base.rewards[i]|
    ensures LocalShares(c, o, i, k, vote, mean, d + s.scale.eps)
  {
    hide Scored, Credited, IsRoot, Peers, PeerReturns, Mean, Deviation, RecordOf, GroupFigures, TurnAdvantage, Corrected, LocalShares,
      IsSpread, Times, Sum, Lists, CallMembers, Lit, BinaryRow, RowAccepts, TurnOk, AllPatched, TableOf, Judged, VotesOf;
    JudgedLists(c, s, false, o, i, k, rows, callers);
    JudgedPeers(c, s, false, o, i, k, rows, callers);
    JudgedBasics(c, s, false, o, i, k, rows, callers);
    JudgedRecord(c, s, false, o, i, k);
    AppliedShares(c, s, o, i, k);
    FiguresOf(c, s, c.base.uids[i], k, rows, callers);
    CallersPaid(c, s, o, i, k, rows, callers);
    FigureMeans(c, s, c.base.uids[i], k, rows, callers, votes);
    var values := At(o.baseline.turnReturns, rows, k);
    DeviationIsSpread(values, s.scale);
    var f := GroupFigures(c, s, c.base.uids[i], k);
    d, vote, mean := f.std, f.callBaseline, f.meanReward;
  }

  lemma CallersPaid(c: CallBatch, s: Settings, o: CreditScores, i: nat, k: nat, rows: seq<nat>, callers: seq<nat>)
    requires Judged(c, s, false, o, i, k, rows, callers) && Sound(c, s) && Lit(c.base.mask[i]) && RecordOf(c, s, false, i, k).reason.None?
    ensures callers != []
  {
    hide Credited, GroupFigures, TurnAdvantage, Corrected, Peers, IsRoot, TurnOk, RowAccepts;
    AppliedRecord(c, s, false, i, k);
    assert i in callers;
  }

  /** The tokens of an applied turn's call carry the advantage recorded for that call. */
  lemma RecordedTokens(c: CallBatch, s: Settings, residual: bool, o: CreditScores, i: nat, k: nat, j: nat, p: nat)
    requires Ready(c, s) && Credited(c, s, residual, o) && i < |c.base.mask| && Lit(c.base.mask[i]) && k < |c.base.rewards[i]|
    requires |o.records| == |c.base.mask| && |o.records[i]| == |c.base.rewards[i]| && o.records[i][k].reason.None?
    requires c.callSpans[i][k].Some? && j < |c.callSpans[i][k].value| && Covers(c.callSpans[i][k].value[j], p)
    ensures p < c.base.length && o.replaced[i, p]
    ensures j < |o.records[i][k].callAdvantages| && o.advantages[i, p] == o.records[i][k].callAdvantages[j]
  {
    JudgedRecord(c, s, residual, o, i, k);
    CallTokenCredit(c, s, residual, o, i, k, j, p);
    hide *;
  }

  /** Two tokens of two calls of an applied residual turn differ by the calls' rewards over the deviation plus epsilon. */
  lemma ResidualTokens(c: CallBatch, s: Settings, o: CreditScores, i: nat, k: nat, rows: seq<nat>, callers: seq<nat>,
                       j: nat, p: nat, l: nat, q: nat) returns (d: real)
    requires Judged(c, s, true, o, i, k, rows, callers)
    requires |o.records| == |c.base.mask| && |o.records[i]| == |c.base.rewards[i]| && o.records[i][k].reason.None?
    requires c.callSpans[i][k].Some? && j < |c.callSpans[i][k].value| && l < |c.callSpans[i][k].value|
    requires Covers(c.callSpans[i][k].value[j], p) && Covers(c.callSpans[i][k].value[l], q)
    ensures Reach(o.baseline, rows, k) && IsSpread(At(o.baseline.turnReturns, rows, k), d)
    ensures p < c.base.length && q < c.base.length && j < |c.callRewards[i][k]| && l < |c.callRewards[i][k]|
    ensures GapIs(o.advantages[i, p], o.advantages[i, q], c.callRewards[i][k][j], c.callRewards[i][k][l], d + s.scale.eps)
  {
    hide Scored, IsRoot, Sum, Lists, Callers, Lit, BinaryRow, RowAccepts, TurnOk, Judged, IsSpread, GapIs, Times, Covers;
    JudgedLists(c, s, true, o, i, k, rows, callers);
    JudgedPeers(c, s, true, o, i, k, rows, callers);
    JudgedBasics(c, s, true, o, i, k, rows, callers);
    JudgedRecord(c, s, true, o, i, k);
    RecordedTokens(c, s, true, o, i, k, j, p);
    RecordedTokens(c, s, true, o, i, k, l, q);
    d := ResidualSpread(c, s, o, i, k, rows, callers);
  }
}
