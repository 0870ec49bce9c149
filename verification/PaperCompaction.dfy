/** When the compact one-token-per-turn batch gives the active rows of a batch the values of the real one. */
module PaperCompaction {
  import opened Common
  import opened GroupStats
  import opened MtGtpo
  import opened MtGtpoLaws
  import opened PaperAudit
  import opened Spans

  function CompactTable(b: Batch): (t: Table)
    requires |b.outcomes| == |b.uids| == |b.rewards|
    ensures Shaped(t)
  {
    TableOf(CompactBatch(b.outcomes, b.uids, b.rewards))
  }

  /** The same trajectories, except that `u` may count more of them as active. */
  ghost predicate Wider(t: Table, u: Table) {
    && Shaped(t) && Shaped(u) && u.outcomes == t.outcomes && u.uids == t.uids && u.rewards == t.rewards
    && forall i :: 0 <= i < |t.active| && t.active[i] ==> u.active[i]
  }

  /** Row `i` has the same returns, turn advantages and episode advantage in both tables. */
  ghost predicate SameValues(t: Table, u: Table, s: Settings, i: nat)
    requires Shaped(t) && Shaped(u) && ValidSettings(s) && i < |t.uids| && i < |u.uids|
  {
    && RowReturns(u, s, i) == RowReturns(t, s, i) && RowAdvantages(u, s, i) == RowAdvantages(t, s, i)
    && EpisodeAdvantage(u, s, i) == EpisodeAdvantage(t, s, i)
  }

  // ---- peers in the two tables ----

  function PeersBelow(t: Table, uid: string, k: int, n: nat): seq<nat>
    requires Shaped(t) && n <= |t.active|
  {
    Cohort(t, uid, k, ActiveBelow(t.active, n))
  }

  /** The active rows of a sample group, one row at a time. */
  lemma PeersSnoc(t: Table, uid: string, k: int, n: nat)
    requires Shaped(t) && 0 < n <= |t.active|
    ensures PeersBelow(t, uid, k, n) == PeersBelow(t, uid, k, n - 1)
          + if t.active[n - 1] && t.uids[n - 1] == uid && k < |t.rewards[n - 1]| then [n - 1] else []
  {
    var before, rows := ActiveBelow(t.active, n - 1), ActiveBelow(t.active, n);
    if t.active[n - 1] {
      assert rows == before + [n - 1] && rows[..|before|] == before;
    } else {
      assert rows == before;
    }
  }

  lemma PeersAreBelow(t: Table, uid: string, k: int)
    requires Shaped(t)
    ensures PeersBelow(t, uid, k, |t.active|) == Peers(t, uid, k)
  {
  }

  lemma NoPeers(t: Table, uid: string, k: int)
    requires Shaped(t)
    ensures PeersBelow(t, uid, k, 0) == []
  {
  }

  lemma {:induction false} SamePeersBelow(t: Table, u: Table, uid: string, k: int, n: nat)
    requires Wider(t, u) && n <= |t.active|
    requires forall j :: 0 <= j < |t.active| && u.active[j] && !t.active[j] ==> t.uids[j] != uid
    ensures PeersBelow(u, uid, k, n) == PeersBelow(t, uid, k, n)
  {
    hide PeersBelow;
    if n > 0 {
      SamePeersBelow(t, u, uid, k, n - 1);
      PeersSnoc(t, uid, k, n);
      PeersSnoc(u, uid, k, n);
    } else {
      NoPeers(t, uid, k);
      NoPeers(u, uid, k);
    }
  }

  lemma {:induction false} FewerPeersBelow(t: Table, u: Table, uid: string, k: int, m: int, n: nat)
    requires Wider(t, u) && n <= |t.active| && m <= k
    ensures |PeersBelow(t, uid, k, n)| <= |PeersBelow(u, uid, m, n)|
  {
    hide PeersBelow;
    if n > 0 {
      FewerPeersBelow(t, u, uid, k, m, n - 1);
      PeersSnoc(t, uid, k, n);
      PeersSnoc(u, uid, m, n);
    } else {
      NoPeers(t, uid, k);
    }
  }

  lemma {:induction false} PeersOfShape(t: Table, u: Table, uid: string, k: int, n: nat)
    requires Shaped(t) && Shaped(u) && u.uids == t.uids && u.active == t.active && n <= |t.active|
    requires forall j :: 0 <= j < |t.rewards| ==> |u.rewards[j]| == |t.rewards[j]|
    ensures PeersBelow(u, uid, k, n) == PeersBelow(t, uid, k, n)
  {
    hide PeersBelow;
    if n > 0 {
      PeersOfShape(t, u, uid, k, n - 1);
      PeersSnoc(t, uid, k, n);
      PeersSnoc(u, uid, k, n);
    } else {
      NoPeers(t, uid, k);
      NoPeers(u, uid, k);
    }
  }

  /** Where every active row lists a turn, all of them reach the first one. */
  lemma {:induction false} FirstTurnPeers(t: Table, uid: string, n: nat)
    requires Shaped(t) && n <= |t.active| && forall j :: 0 <= j < |t.active| && t.active[j] ==> t.rewards[j] != []
    ensures PeersBelow(t, uid, 0, n) == PeersBelow(t, uid, -1, n)
  {
    hide PeersBelow;
    if n > 0 {
      FirstTurnPeers(t, uid, n - 1);
      PeersSnoc(t, uid, 0, n);
      PeersSnoc(t, uid, -1, n);
    } else {
      NoPeers(t, uid, 0);
      NoPeers(t, uid, -1);
    }
  }

  lemma {:induction false} PeerListed(t: Table, uid: string, k: int, i: nat, n: nat)
    requires Shaped(t) && i < n <= |t.active| && t.active[i] && t.uids[i] == uid && k < |t.rewards[i]|
    ensures i in PeersBelow(t, uid, k, n)
  {
    hide PeersBelow;
    PeersSnoc(t, uid, k, n);
    if i < n - 1 {
      PeerListed(t, uid, k, i, n - 1);
    }
  }

  // ---- values in the two tables ----

  lemma ReturnsIgnoreActive(t: Table, u: Table, s: Settings)
    requires Wider(t, u)
    ensures AllReturns(u, s) == AllReturns(t, s)
  {
    hide Return;
    forall i | 0 <= i < |t.uids| ensures RowReturns(u, s, i) == RowReturns(t, s, i) {
    }
  }

  /** Same peers, same values. */
  lemma SamePeersSameValues(t: Table, u: Table, s: Settings, i: nat)
    requires Wider(t, u) && ValidSettings(s) && i < |t.uids| && t.active[i]
    requires forall k: int :: Peers(u, t.uids[i], k) == Peers(t, t.uids[i], k)
    ensures SameValues(t, u, s, i)
  {
    hide Scaled, Peers, Return;
    ReturnsIgnoreActive(t, u, s);
    assert AllReturns(u, s)[i] == AllReturns(t, s)[i];
    assert OutcomesOf(u, Peers(u, t.uids[i], -1)) == OutcomesOf(t, Peers(t, t.uids[i], -1));
    forall k | 0 <= k < |t.rewards[i]| ensures TurnAdvantage(u, s, i, k) == TurnAdvantage(t, s, i, k) {
      assert PeerReturns(u, s, t.uids[i], k) == PeerReturns(t, s, t.uids[i], k);
    }
  }

  /** Groups below the minimum size get nothing. */
  lemma SmallGroupsSameValues(t: Table, u: Table, s: Settings, i: nat)
    requires Wider(t, u) && ValidSettings(s) && i < |t.uids| && t.active[i]
    requires |Peers(u, t.uids[i], -1)| < s.scale.minGroupSize
    ensures SameValues(t, u, s, i)
  {
    hide Return, Deviation, Mean, Peers, PeersBelow;
    ReturnsIgnoreActive(t, u, s);
    assert AllReturns(u, s)[i] == AllReturns(t, s)[i];
    var uid := t.uids[i];
    FewerPeers(t, u, uid, -1, -1);
    forall k | 0 <= k < |t.rewards[i]| ensures TurnAdvantage(u, s, i, k) == TurnAdvantage(t, s, i, k) {
      FewerPeers(t, u, uid, k, -1);
      FewerPeers(u, u, uid, k, -1);
    }
  }

  lemma FewerPeers(t: Table, u: Table, uid: string, k: int, m: int)
    requires Wider(t, u) && m <= k
    ensures |Peers(t, uid, k)| <= |Peers(u, uid, m)|
  {
    FewerPeersBelow(t, u, uid, k, m, |t.active|);
    PeersAreBelow(t, uid, k);
    PeersAreBelow(u, uid, m);
  }

  // ---- exactly when an active row keeps its values ----

  /** No all-zero row that lists turns shares the uid of row `i`, or too few rows of that uid list turns to be normalised. */
  ghost predicate Sheltered(b: Batch, s: Settings, i: nat)
    requires |b.outcomes| == |b.uids| == |b.rewards| == |b.mask| && i < |b.mask|
  {
    || (forall j :: 0 <= j < |b.mask| && !Lit(b.mask[j]) && b.uids[j] == b.uids[i] ==> b.rewards[j] == [])
    || |Peers(CompactTable(b), b.uids[i], 0)| < s.scale.minGroupSize
  }

  lemma CompactIsWider(b: Batch, s: Settings)
    requires Rectangular(b) && Accepts(b, s)
    ensures Wider(TableOf(b), CompactTable(b))
    ensures forall j :: 0 <= j < |b.mask| ==> (CompactTable(b).active[j] <==> b.rewards[j] != [])
    ensures forall j :: 0 <= j < |b.mask| ==> (TableOf(b).active[j] <==> Lit(b.mask[j]))
  {
    CompactAccepted(b.outcomes, b.uids, b.rewards, s);
    forall j | 0 <= j < |b.mask| && Lit(b.mask[j]) ensures b.rewards[j] != [] {
      assert RowAccepts(b.rewards[j], b.spans[j], b.mask[j]);
    }
  }

  lemma ShelteredKeepsValues(b: Batch, s: Settings, i: nat)
    requires Rectangular(b) && Accepts(b, s) && i < |b.mask| && Lit(b.mask[i]) && Sheltered(b, s, i)
    ensures SameValues(TableOf(b), CompactTable(b), s, i)
  {
    var t, u, uid := TableOf(b), CompactTable(b), b.uids[i];
    CompactIsWider(b, s);
    if |Peers(u, uid, 0)| < s.scale.minGroupSize {
      FirstTurnPeers(u, uid, |u.active|);
      PeersAreBelow(u, uid, 0);
      PeersAreBelow(u, uid, -1);
      hide TableOf, CompactTable, Sheltered, Wider;
      SmallGroupsSameValues(t, u, s, i);
    } else {
      hide TableOf, CompactTable;
      forall k: int ensures Peers(u, uid, k) == Peers(t, uid, k) {
        SamePeersBelow(t, u, uid, k, |t.active|);
        PeersAreBelow(t, uid, k);
        PeersAreBelow(u, uid, k);
      }
      hide Peers, Sheltered, Wider;
      SamePeersSameValues(t, u, s, i);
    }
  }

  /** Other outcomes and rewards for the same uids, turn counts, spans and masks. */
  ghost predicate SameShape(b: Batch, c: Batch) {
    && c == b.(outcomes := c.outcomes, rewards := c.rewards)
    && |c.outcomes| == |b.outcomes| && |c.rewards| == |b.rewards|
    && forall j :: 0 <= j < |b.rewards| ==> |c.rewards[j]| == |b.rewards[j]|
  }

  lemma ShapeDecides(b: Batch, c: Batch, s: Settings, i: nat)
    requires Rectangular(b) && Accepts(b, s) && SameShape(b, c) && i < |b.mask|
    ensures Rectangular(c) && Accepts(c, s)
    ensures Peers(CompactTable(c), b.uids[i], 0) == Peers(CompactTable(b), b.uids[i], 0)
    ensures Sheltered(c, s, i) <==> Sheltered(b, s, i)
  {
    forall j | 0 <= j < |c.mask| && Lit(c.mask[j]) ensures RowAccepts(c.rewards[j], c.spans[j], c.mask[j]) {
      assert RowAccepts(b.rewards[j], b.spans[j], b.mask[j]);
    }
    CompactIsWider(b, s);
    CompactIsWider(c, s);
    var t, u := CompactTable(b), CompactTable(c);
    assert u.active == t.active;
    PeersOfShape(t, u, b.uids[i], 0, |t.active|);
    PeersAreBelow(t, b.uids[i], 0);
    PeersAreBelow(u, b.uids[i], 0);
  }

  /** All outcomes and rewards zero, except for the first turn of row `g`. */
  function Probe(b: Batch, g: nat): Batch
    requires |b.outcomes| == |b.rewards|
  {
    b.(outcomes := seq(|b.outcomes|, _ => 0.0),
       rewards := seq(|b.rewards|, j requires 0 <= j < |b.rewards| =>
         seq(|b.rewards[j]|, k => if j == g && k == 0 then 1.0 else 0.0)))
  }

  lemma {:induction false} ZeroReturn(rewards: seq<real>, gamma: real, k: nat)
    requires k <= |rewards| && forall j :: k <= j < |rewards| ==> rewards[j] == 0.0
    ensures Return(rewards, 0.0, gamma, k) == 0.0
    decreases |rewards| - k
  {
    if k < |rewards| {
      ZeroReturn(rewards, gamma, k + 1);
    }
  }

  lemma ZeroGroupScaled(xs: seq<real>, sc: Scale)
    requires sc.eps > 0.0 && forall a :: 0 <= a < |xs| ==> xs[a] == 0.0
    ensures Scaled(xs, 0.0, sc) == 0.0
  {
    hide Deviation;
    if |xs| > 0 {
      SumConstant(xs, 0.0);
    }
  }

  lemma MixedGroupScaled(xs: seq<real>, sc: Scale, a: nat, g: nat)
    requires sc.eps > 0.0 && IsRoot(sc.root) && |xs| >= sc.minGroupSize && a < |xs| && g < |xs|
    requires xs[a] == 0.0 && xs[g] == 1.0 && forall j :: 0 <= j < |xs| ==> xs[j] >= 0.0
    ensures Scaled(xs, 0.0, sc) != 0.0
  {
    DeviationZero(xs, sc);
    SumOfNonNegatives(xs);
    assert Deviation(xs, sc) > 0.0;
    hide Deviation, Sum;
    QuotientSign(Sum(xs), |xs| as real);
    QuotientSign(Mean(xs), Deviation(xs, sc) + sc.eps);
  }

  lemma ProbeReturns(b: Batch, g: nat, s: Settings, j: nat)
    requires |b.outcomes| == |b.rewards| && j < |b.rewards| && b.rewards[j] != []
    ensures |Probe(b, g).rewards[j]| == |b.rewards[j]|
    ensures Return(Probe(b, g).rewards[j], Probe(b, g).outcomes[j], s.gamma, 0) == if j == g then 1.0 else 0.0
  {
    var p := Probe(b, g);
    ZeroReturn(p.rewards[j], s.gamma, 1);
  }

  /** Rows whose first returns are all zero give each other nothing. */
  lemma ZeroAdvantage(t: Table, s: Settings, i: nat)
    requires Shaped(t) && ValidSettings(s) && i < |t.uids| && t.rewards[i] != [] && TurnReturn(t, s, i, 0) == 0.0
    requires forall x :: x in PeerReturns(t, s, t.uids[i], 0) ==> x == 0.0
    requires forall j :: 0 <= j < |t.outcomes| ==> t.outcomes[j] == 0.0
    ensures TurnAdvantage(t, s, i, 0) == 0.0
  {
    hide Scaled, Return, Peers;
    var xs := PeerReturns(t, s, t.uids[i], 0);
    forall a | 0 <= a < |xs| ensures xs[a] == 0.0 {
      assert xs[a] in xs;
    }
    ZeroGroupScaled(xs, s.scale);
    ZeroGroupScaled(OutcomesOf(t, Peers(t, t.uids[i], -1)), s.scale);
  }

  /** One first return of one among non-negative ones moves a row with return zero. */
  lemma MovedAdvantage(u: Table, s: Settings, i: nat, x: nat, y: nat)
    requires Shaped(u) && ValidSettings(s) && IsRoot(s.scale.root) && i < |u.uids|
    requires u.rewards[i] != [] && TurnReturn(u, s, i, 0) == 0.0
    requires var ys := PeerReturns(u, s, u.uids[i], 0);
      && |ys| >= s.scale.minGroupSize && x < |ys| && y < |ys| && ys[x] == 0.0 && ys[y] == 1.0
      && forall a :: 0 <= a < |ys| ==> ys[a] >= 0.0
    requires forall j :: 0 <= j < |u.outcomes| ==> u.outcomes[j] == 0.0
    ensures TurnAdvantage(u, s, i, 0) != 0.0
  {
    hide Scaled, Return, Peers;
    MixedGroupScaled(PeerReturns(u, s, u.uids[i], 0), s.scale, x, y);
    ZeroGroupScaled(OutcomesOf(u, Peers(u, u.uids[i], -1)), s.scale);
  }

  lemma PeerReturnAt(t: Table, s: Settings, uid: string, a: nat)
    requires Shaped(t) && a < |Peers(t, uid, 0)|
    ensures |PeerReturns(t, s, uid, 0)| == |Peers(t, uid, 0)|
    ensures PeerReturns(t, s, uid, 0)[a] == TurnReturn(t, s, Peers(t, uid, 0)[a], 0)
  {
    hide Return, Cohort;
  }

  /** The tables of a probe: no row but `g`, which `u` alone counts, has a first return. */
  ghost predicate Probed(t: Table, u: Table, s: Settings, i: nat, g: nat) {
    && Wider(t, u) && i < |t.uids| && g < |t.uids| && t.active[i] && !t.active[g] && u.active[g] && t.uids[g] == t.uids[i]
    && (forall j :: 0 <= j < |t.outcomes| ==> t.outcomes[j] == 0.0)
    && forall j: nat :: j < |t.rewards| && u.active[j] ==>
      t.rewards[j] != [] && TurnReturn(t, s, j, 0) == if j == g then 1.0 else 0.0
  }

  lemma ProbedChanges(t: Table, u: Table, s: Settings, i: nat, g: nat)
    requires Probed(t, u, s, i, g) && ValidSettings(s) && IsRoot(s.scale.root)
    requires |Peers(u, t.uids[i], 0)| >= s.scale.minGroupSize
    ensures t.rewards[i] != [] && TurnAdvantage(t, s, i, 0) == 0.0 && TurnAdvantage(u, s, i, 0) != 0.0
  {
    var uid := t.uids[i];
    var ps, qs := Peers(t, uid, 0), Peers(u, uid, 0);
    PeersAreBelow(u, uid, 0);
    PeerListed(u, uid, 0, i, |u.active|);
    PeerListed(u, uid, 0, g, |u.active|);
    hide Return, Cohort, Peers, PeerReturns, PeersBelow, TurnAdvantage;
    forall x | x in PeerReturns(t, s, uid, 0) ensures x == 0.0 {
      var a :| 0 <= a < |PeerReturns(t, s, uid, 0)| && PeerReturns(t, s, uid, 0)[a] == x;
      PeerCount(t, s, uid);
      PeerReturnAt(t, s, uid, a);
    }
    ZeroAdvantage(t, s, i);
    PeerCount(u, s, uid);
    forall a | 0 <= a < |qs| ensures PeerReturns(u, s, uid, 0)[a] == if qs[a] == g then 1.0 else 0.0 {
      PeerReturnAt(u, s, uid, a);
    }
    var x :| 0 <= x < |qs| && qs[x] == i;
    var y :| 0 <= y < |qs| && qs[y] == g;
    MovedAdvantage(u, s, i, x, y);
  }

  lemma PeerCount(t: Table, s: Settings, uid: string)
    requires Shaped(t)
    ensures |PeerReturns(t, s, uid, 0)| == |Peers(t, uid, 0)|
  {
  }

  /** The probe has no signal among the active rows, and some among the rows that list turns. */
  lemma ProbeChanges(b: Batch, s: Settings, i: nat, g: nat)
    requires Rectangular(b) && Accepts(b, s) && IsRoot(s.scale.root) && i < |b.mask| && Lit(b.mask[i])
    requires g < |b.mask| && !Lit(b.mask[g]) && b.uids[g] == b.uids[i] && b.rewards[g] != []
    requires |Peers(CompactTable(b), b.uids[i], 0)| >= s.scale.minGroupSize
    ensures SameShape(b, Probe(b, g)) && Accepts(Probe(b, g), s)
    ensures RowAdvantages(CompactTable(Probe(b, g)), s, i) != RowAdvantages(TableOf(Probe(b, g)), s, i)
  {
    var c := Probe(b, g);
    ShapeDecides(b, c, s, i);
    CompactIsWider(c, s);
    var t, u := TableOf(c), CompactTable(c);
    forall j: nat | j < |c.rewards| && c.rewards[j] != []
      ensures Return(c.rewards[j], c.outcomes[j], s.gamma, 0) == if j == g then 1.0 else 0.0
    {
      ProbeReturns(b, g, s, j);
    }
    assert Probed(t, u, s, i, g);
    hide Probed, Probe, CompactTable, TableOf;
    ProbedChanges(t, u, s, i, g);
    assert RowAdvantages(t, s, i)[0] == TurnAdvantage(t, s, i, 0);
    assert RowAdvantages(u, s, i)[0] == TurnAdvantage(u, s, i, 0);
  }

  /** Whatever the outcomes and rewards, compaction keeps the values of an active row exactly if the row is sheltered. */
  lemma CompactKeepsValues(b: Batch, s: Settings, i: nat)
    requires Rectangular(b) && Accepts(b, s) && IsRoot(s.scale.root) && i < |b.mask| && Lit(b.mask[i])
    ensures Sheltered(b, s, i) ==>
      forall c :: SameShape(b, c) ==> Accepts(c, s) && SameValues(TableOf(c), CompactTable(c), s, i)
    ensures !Sheltered(b, s, i) ==>
      exists c :: SameShape(b, c) && Accepts(c, s) && RowAdvantages(CompactTable(c), s, i) != RowAdvantages(TableOf(c), s, i)
  {
    hide SameValues, Probe, RowAdvantages;
    if Sheltered(b, s, i) {
      forall c | SameShape(b, c) ensures Accepts(c, s) && SameValues(TableOf(c), CompactTable(c), s, i) {
        ShapeDecides(b, c, s, i);
        ShelteredKeepsValues(c, s, i);
      }
    } else {
      var g :| 0 <= g < |b.mask| && !Lit(b.mask[g]) && b.uids[g] == b.uids[i] && b.rewards[g] != [];
      ProbeChanges(b, s, i, g);
    }
  }

  function TwoRows(): Batch {
    Batch([0.0, 0.0], ["a", "a"], [[0.0], [1.0]], [[(0, 1)], []], [[1], [0]], 1)
  }

  lemma TwoRowsAccepted(s: Settings)
    requires ValidSettings(s)
    ensures Rectangular(TwoRows()) && Accepts(TwoRows(), s) && Lit(TwoRows().mask[0]) && !Lit(TwoRows().mask[1])
  {
    var b := TwoRows();
    assert Covers((0, 1), 0) && b.spans[0][0] == (0, 1);
    assert b.mask[0][0] == 1;
  }

  /** Two rows of one uid, the second with an all-zero mask and one listed turn: the first row's advantage changes. */
  lemma CompactCanChange(s: Settings)
    requires ValidSettings(s) && IsRoot(s.scale.root) && s.scale.minGroupSize == 2
    ensures Rectangular(TwoRows()) && Accepts(TwoRows(), s)
    ensures TurnAdvantage(TableOf(TwoRows()), s, 0, 0) == 0.0 && TurnAdvantage(CompactTable(TwoRows()), s, 0, 0) != 0.0
  {
    var b := TwoRows();
    TwoRowsAccepted(s);
    CompactIsWider(b, s);
    var t, u := TableOf(b), CompactTable(b);
    assert Probed(t, u, s, 0, 1);
    TwoPeers(u);
    ProbedChanges(t, u, s, 0, 1);
  }

  lemma TwoPeers(u: Table)
    requires Shaped(u) && u.uids == ["a", "a"] && u.active == [true, true] && u.rewards == [[0.0], [1.0]]
    ensures Peers(u, "a", 0) == [0, 1]
  {
    PeersAreBelow(u, "a", 0);
    PeersSnoc(u, "a", 0, 2);
    PeersSnoc(u, "a", 0, 1);
    NoPeers(u, "a", 0);
  }
}
