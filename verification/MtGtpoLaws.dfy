/** Laws of the hybrid advantages: closed form of the returns, token ownership, irrelevance of inactive rows. */
module MtGtpoLaws {
  import opened Common
  import opened GroupStats
  import opened MtGtpo
  import opened Spans

  // ---- closed form of the backward loop ----

  function Power(gamma: real, n: nat): real {
    if n == 0 then 1.0 else gamma * Power(gamma, n - 1)
  }

  function DiscountedTerms(rewards: seq<real>, gamma: real, k: nat): seq<real>
    requires k <= |rewards|
  {
    seq(|rewards| - k, d requires 0 <= d < |rewards| - k => Power(gamma, d) * rewards[k + d])
  }

  /** The reward still to come, seen from turn `k`: the sum of gamma^(j-k) * r[j] over j >= k. */
  function Discounted(rewards: seq<real>, gamma: real, k: nat): real
    requires k <= |rewards|
  {
    Sum(DiscountedTerms(rewards, gamma, k))
  }

  lemma {:induction false} SumScaledShift(later: seq<real>, now: seq<real>, gamma: real)
    requires |now| == |later| && forall d :: 0 <= d < |now| ==> now[d] == gamma * later[d]
    ensures Sum(now) == gamma * Sum(later)
  {
    if now != [] {
      var n := |now| - 1;
      SumScaledShift(later[..n], now[..n], gamma);
      assert gamma * (Sum(later[..n]) + later[n]) == gamma * Sum(later[..n]) + gamma * later[n];
    }
  }

  lemma PowerStep(gamma: real, d: nat, x: real)
    ensures Power(gamma, d + 1) * x == gamma * (Power(gamma, d) * x)
  {
  }

  lemma DiscountedStep(rewards: seq<real>, gamma: real, k: nat)
    requires k < |rewards|
    ensures Discounted(rewards, gamma, k) == rewards[k] + gamma * Discounted(rewards, gamma, k + 1)
  {
    var now, later := DiscountedTerms(rewards, gamma, k), DiscountedTerms(rewards, gamma, k + 1);
    assert Power(gamma, 0) * rewards[k] == rewards[k];
    forall d | 0 <= d < |later| ensures now[1..][d] == gamma * later[d] {
      PowerStep(gamma, d, rewards[k + 1 + d]);
    }
    SumScaledShift(later, now[1..], gamma);
    assert now == [rewards[k]] + now[1..];
    SumAppend([rewards[k]], now[1..]);
    assert Sum([rewards[k]]) == rewards[k] by {
      assert [rewards[k]][..0] == [];
    }
  }

  function Terminal(gamma: real, n: nat, outcome: real): real {
    Power(gamma, n) * outcome
  }

  lemma TerminalStep(gamma: real, n: nat, outcome: real)
    ensures Terminal(gamma, n + 1, outcome) == gamma * Terminal(gamma, n, outcome)
    ensures Terminal(gamma, 0, outcome) == outcome
  {
    PowerStep(gamma, n, outcome);
  }

  /** Any g with g == r + gamma * g', d == r + gamma * d', e == gamma * e' and g' == d' + e' is d + e. */
  lemma StepAdds(gamma: real, r: real, g: real, g': real, d: real, d': real, e: real, e': real)
    requires g == r + gamma * g' && d == r + gamma * d' && e == gamma * e' && g' == d' + e'
    ensures g == d + e
  {
  }

  /** The backward loop pays every later reward and the terminal outcome exactly once, each at its own discount. */
  lemma {:induction false} ReturnClosedForm(rewards: seq<real>, outcome: real, gamma: real, k: nat)
    requires k <= |rewards|
    ensures Return(rewards, outcome, gamma, k)
         == Discounted(rewards, gamma, k) + Terminal(gamma, |rewards| - k, outcome)
    decreases |rewards| - k
  {
    if k < |rewards| {
      var n := |rewards| - k - 1;
      ReturnClosedForm(rewards, outcome, gamma, k + 1);
      DiscountedStep(rewards, gamma, k);
      TerminalStep(gamma, n, outcome);
      StepAdds(gamma, rewards[k], Return(rewards, outcome, gamma, k), Return(rewards, outcome, gamma, k + 1),
               Discounted(rewards, gamma, k), Discounted(rewards, gamma, k + 1),
               Terminal(gamma, n + 1, outcome), Terminal(gamma, n, outcome));
    } else {
      TerminalStep(gamma, 0, outcome);
    }
  }

  // ---- token ownership ----

  /** Under an accepted tiling a token has one covering turn if it is masked in, and none otherwise. */
  lemma TilingOwner(spans: seq<Span>, row: seq<int>, p: nat)
    requires BinaryRow(row) && Tiles(spans, row) && p < |row|
    ensures row[p] == 1 ==> exists k :: 0 <= k < |spans| && Covers(spans[k], p)
    ensures row[p] == 0 ==> !Covered(spans, p)
    ensures forall j, k :: 0 <= j < |spans| && 0 <= k < |spans| && Covers(spans[j], p) && Covers(spans[k], p) ==> j == k
  {
    forall j, k | 0 <= j < k < |spans| ensures !(Covers(spans[j], p) && Covers(spans[k], p)) {
      assert spans[j].1 <= spans[k].0;
    }
  }

  /** Each masked token carries the advantage and return of its covering turn; every other token carries zero. */
  lemma TokenCredit(b: Batch, s: Settings, o: Scores, i: nat, p: nat)
    requires Rectangular(b) && Accepts(b, s) && Scored(b, s, o) && i < |b.mask| && p < b.length
    ensures b.mask[i][p] == 0 ==> o.tokenAdvantages[i, p] == 0.0 && o.tokenReturns[i, p] == 0.0
    ensures b.mask[i][p] == 1 ==>
      exists k ::
        && 0 <= k < |b.spans[i]| == |b.rewards[i]| && Covers(b.spans[i][k], p)
        && o.tokenAdvantages[i, p] == TurnAdvantage(TableOf(b), s, i, k)
        && o.tokenReturns[i, p] == TurnReturn(TableOf(b), s, i, k)
  {
    var t := TableOf(b);
    if t.active[i] {
      TilingOwner(b.spans[i], b.mask[i], p);
      if b.mask[i][p] == 1 {
        var k :| 0 <= k < |b.spans[i]| && Covers(b.spans[i][k], p);
        assert o.turnAdvantages[i][k] == TurnAdvantage(t, s, i, k);
        assert o.turnReturns[i][k] == TurnReturn(t, s, i, k);
      }
    } else {
      assert ZeroRow(o.tokenAdvantages, i) && ZeroRow(o.tokenReturns, i);
    }
  }

  // ---- inactive rows do not matter ----

  /** The table that keeps only the given rows. */
  function Keep(t: Table, rows: seq<nat>): Table
    requires Rows(t, rows)
  {
    Table(OutcomesOf(t, rows), UidsOf(t, rows),
          seq(|rows|, a requires 0 <= a < |rows| => t.rewards[rows[a]]),
          Flags(t.active, rows))
  }

  function Through(rows: seq<nat>, sub: seq<nat>): seq<nat>
    requires forall a :: 0 <= a < |sub| ==> sub[a] < |rows|
  {
    seq(|sub|, a requires 0 <= a < |sub| => rows[sub[a]])
  }

  function Flags(active: seq<bool>, rows: seq<nat>): seq<bool>
    requires forall a :: 0 <= a < |rows| ==> rows[a] < |active|
  {
    seq(|rows|, a requires 0 <= a < |rows| => active[rows[a]])
  }

  /** The kept rows are in order and include every active row. */
  ghost predicate CoversActive(active: seq<bool>, rows: seq<nat>) {
    && (forall a :: 0 <= a < |rows| ==> rows[a] < |active|)
    && Increasing(rows)
    && forall i :: 0 <= i < |active| && active[i] ==> i in rows
  }

  ghost predicate KeepsActive(t: Table, rows: seq<nat>) {
    Rows(t, rows) && CoversActive(t.active, rows)
  }

  lemma {:induction false} ActiveGap(active: seq<bool>, lo: nat, hi: nat)
    requires lo <= hi <= |active| && forall i :: lo <= i < hi ==> !active[i]
    ensures ActiveBelow(active, hi) == ActiveBelow(active, lo)
  {
    if lo < hi {
      ActiveGap(active, lo, hi - 1);
    }
  }

  /** No active row lies between two consecutive kept rows. */
  lemma KeptGap(active: seq<bool>, rows: seq<nat>, lo: nat, hi: nat)
    requires CoversActive(active, rows) && lo <= hi <= |active|
    requires forall a :: 0 <= a < |rows| ==> rows[a] < lo || hi <= rows[a]
    ensures ActiveBelow(active, hi) == ActiveBelow(active, lo)
  {
    assert forall i :: lo <= i < hi ==> i !in rows;
    ActiveGap(active, lo, hi);
  }

  function Bound(rows: seq<nat>, m: nat): nat
    requires m <= |rows|
  {
    if m == 0 then 0 else rows[m - 1] + 1
  }

  lemma BoundSplits(rows: seq<nat>, m: nat)
    requires Increasing(rows) && m <= |rows|
    ensures forall a :: 0 <= a < m ==> rows[a] < Bound(rows, m)
    ensures forall a :: m <= a < |rows| ==> Bound(rows, m) <= rows[a]
  {
    if m > 0 {
      assert forall a :: 0 <= a < m - 1 ==> rows[a] < rows[m - 1];
      assert forall a :: m <= a < |rows| ==> rows[m - 1] < rows[a];
    }
  }

  lemma ThroughSnoc(rows: seq<nat>, sub: seq<nat>, x: nat)
    requires x < |rows| && forall a :: 0 <= a < |sub| ==> sub[a] < |rows|
    ensures Through(rows, sub + [x]) == Through(rows, sub) + [rows[x]]
  {
  }

  lemma {:induction false} KeptActive(active: seq<bool>, rows: seq<nat>, m: nat)
    requires CoversActive(active, rows) && m <= |rows|
    ensures Through(rows, ActiveBelow(Flags(active, rows), m)) == ActiveBelow(active, Bound(rows, m))
  {
    if m > 0 {
      KeptActive(active, rows, m - 1);
      var r := rows[m - 1];
      BoundSplits(rows, m - 1);
      KeptGap(active, rows, Bound(rows, m - 1), r);
      assert ActiveBelow(active, r + 1) == ActiveBelow(active, r) + if active[r] then [r] else [];
      ThroughSnoc(rows, ActiveBelow(Flags(active, rows), m - 1), m - 1);
    }
  }

  lemma KeptActiveAll(t: Table, rows: seq<nat>)
    requires KeepsActive(t, rows)
    ensures Through(rows, Active(Keep(t, rows))) == Active(t)
  {
    KeptActive(t.active, rows, |rows|);
    BoundSplits(rows, |rows|);
    KeptGap(t.active, rows, Bound(rows, |rows|), |t.active|);
  }

  lemma {:induction false} KeptCohort(t: Table, rows: seq<nat>, uid: string, k: int, sub: seq<nat>)
    requires Rows(t, rows) && Rows(Keep(t, rows), sub)
    ensures Through(rows, Cohort(Keep(t, rows), uid, k, sub)) == Cohort(t, uid, k, Through(rows, sub))
  {
    if sub != [] {
      var n := |sub| - 1;
      var kept := Keep(t, rows);
      KeptCohort(t, rows, uid, k, sub[..n]);
      assert Through(rows, sub)[..n] == Through(rows, sub[..n]);
      ThroughSnoc(rows, Cohort(kept, uid, k, sub[..n]), sub[n]);
    }
  }

  lemma KeptPeers(t: Table, rows: seq<nat>, uid: string, k: int)
    requires KeepsActive(t, rows)
    ensures Through(rows, Peers(Keep(t, rows), uid, k)) == Peers(t, uid, k)
  {
    KeptActiveAll(t, rows);
    KeptCohort(t, rows, uid, k, Active(Keep(t, rows)));
  }

  lemma KeptReturns(t: Table, s: Settings, rows: seq<nat>, uid: string, k: nat)
    requires KeepsActive(t, rows)
    ensures PeerReturns(Keep(t, rows), s, uid, k) == PeerReturns(t, s, uid, k)
  {
    KeptPeers(t, rows, uid, k);
    var kept := Keep(t, rows);
    var c, d := Peers(kept, uid, k), Peers(t, uid, k);
    assert Through(rows, c) == d;
    forall a | 0 <= a < |c|
      ensures AllReturns(kept, s)[c[a]][k] == AllReturns(t, s)[d[a]][k]
    {
      assert d[a] == rows[c[a]];
    }
  }

  lemma KeptOutcomes(t: Table, rows: seq<nat>, uid: string)
    requires KeepsActive(t, rows)
    ensures OutcomesOf(Keep(t, rows), Peers(Keep(t, rows), uid, -1)) == OutcomesOf(t, Peers(t, uid, -1))
  {
    KeptPeers(t, rows, uid, -1);
    var c, d := Peers(Keep(t, rows), uid, -1), Peers(t, uid, -1);
    assert Through(rows, c) == d;
  }

  /** Dropping rows whose mask is all zero changes no return and no advantage of the rows that stay. */
  lemma InactiveRowsIrrelevant(t: Table, s: Settings, rows: seq<nat>, a: nat)
    requires KeepsActive(t, rows) && ValidSettings(s) && a < |rows|
    ensures EpisodeAdvantage(Keep(t, rows), s, a) == EpisodeAdvantage(t, s, rows[a])
    ensures forall k :: 0 <= k < |t.rewards[rows[a]]| ==>
      && TurnReturn(Keep(t, rows), s, a, k) == TurnReturn(t, s, rows[a], k)
      && TurnAdvantage(Keep(t, rows), s, a, k) == TurnAdvantage(t, s, rows[a], k)
  {
    hide Scaled, Peers, Return;
    var i := rows[a];
    KeptOutcomes(t, rows, t.uids[i]);
    forall k | 0 <= k < |t.rewards[i]|
      ensures TurnReturn(Keep(t, rows), s, a, k) == TurnReturn(t, s, i, k)
      ensures TurnAdvantage(Keep(t, rows), s, a, k) == TurnAdvantage(t, s, i, k)
    {
      KeptReturns(t, s, rows, t.uids[i], k);
    }
  }

  /** Two tables that agree on their active rows give those rows the same values. */
  lemma ActiveRowsDecide(t: Table, u: Table, s: Settings, a: nat)
    requires Shaped(t) && Shaped(u) && ValidSettings(s) && a < |Active(t)|
    requires |Active(u)| == |Active(t)| && Keep(t, Active(t)) == Keep(u, Active(u))
    ensures EpisodeAdvantage(t, s, Active(t)[a]) == EpisodeAdvantage(u, s, Active(u)[a])
    ensures RowReturns(t, s, Active(t)[a]) == RowReturns(u, s, Active(u)[a])
    ensures RowAdvantages(t, s, Active(t)[a]) == RowAdvantages(u, s, Active(u)[a])
  {
    ActiveKept(t);
    ActiveKept(u);
    InactiveRowsIrrelevant(t, s, Active(t), a);
    InactiveRowsIrrelevant(u, s, Active(u), a);
    var i, j := Active(t)[a], Active(u)[a];
    assert Keep(t, Active(t)).rewards[a] == t.rewards[i] && Keep(u, Active(u)).rewards[a] == u.rewards[j];
  }

  lemma ActiveKept(t: Table)
    requires Shaped(t)
    ensures KeepsActive(t, Active(t))
  {
    ActiveIncreasing(t.active, |t.active|);
    forall i | 0 <= i < |t.uids| && t.active[i] ensures i in Active(t) {
      ActiveComplete(t.active, |t.active|, i);
    }
  }
}
