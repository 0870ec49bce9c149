/** Call credit: redistributes a turn's advantage over the token spans of its tool calls. */
module CallCredit {
  import opened Common
  import opened GroupStats
  import opened MtGtpo
  import opened Spans

  datatype CallBatch = CallBatch(base: Batch, callRewards: seq<seq<seq<real>>>,
                                 callSpans: seq<seq<Option<seq<Span>>>>, eligible: seq<seq<bool>>)

  const LOCAL := "call_local_v1"
  const RESIDUAL := "call_residual_v1"

  // ---- what a batch must look like ----

  /** In order, pairwise disjoint, non-empty and inside the turn. */
  ghost predicate Within(spans: seq<Span>, turn: Span) {
    && (forall j :: 0 <= j < |spans| ==> turn.0 <= spans[j].0 < spans[j].1 <= turn.1)
    && (forall i, j :: 0 <= i < j < |spans| ==> spans[i].1 <= spans[j].0)
  }

  ghost predicate CallSpansOk(spans: seq<Span>, turn: Span, row: seq<int>) {
    Within(spans, turn) && forall p :: 0 <= p < |row| && Covered(spans, p) ==> row[p] != 0
  }

  ghost predicate TurnOk(reward: real, q: seq<real>, eligible: bool, spans: Option<seq<Span>>, turn: Span, row: seq<int>) {
    && (q != [] ==> Sum(q) == reward)
    && if eligible
       then q != [] && spans.Some? && |spans.value| == |q| && CallSpansOk(spans.value, turn, row)
       else spans.None?
  }

  ghost predicate CallShaped(c: CallBatch) {
    && |c.callRewards| == |c.callSpans| == |c.eligible| == |c.base.mask| == |c.base.rewards|
    && forall i :: 0 <= i < |c.base.mask| && Lit(c.base.mask[i]) ==>
      |c.callRewards[i]| == |c.callSpans[i]| == |c.eligible[i]| == |c.base.rewards[i]|
  }

  ghost predicate CallAccepts(c: CallBatch, s: Settings, mode: string) {
    && (mode == LOCAL || mode == RESIDUAL)
    && Rectangular(c.base) && Accepts(c.base, s) && CallShaped(c)
    && forall i, k :: 0 <= i < |c.base.mask| && Lit(c.base.mask[i]) && 0 <= k < |c.base.rewards[i]| ==>
      TurnOk(c.base.rewards[i][k], c.callRewards[i][k], c.eligible[i][k], c.callSpans[i][k], c.base.spans[i][k], c.base.mask[i])
  }

  method CheckCallSpans(spans: seq<Span>, turn: Span, row: seq<int>) returns (ok: bool)
    requires 0 <= turn.0 <= turn.1 <= |row|
    ensures ok <==> CallSpansOk(spans, turn, row)
  {
    var previous := turn.0;
    for j := 0 to |spans|
      invariant Within(spans[..j], turn)
      invariant turn.0 <= previous <= turn.1
      invariant previous == if j == 0 then turn.0 else spans[j - 1].1
      invariant forall p :: 0 <= p < |row| && Covered(spans[..j], p) ==> row[p] != 0
    {
      var (a, b) := spans[j];
      if !(previous <= a < b <= turn.1) {
        return false;
      }
      if exists p :: a <= p < b && row[p] == 0 {
        ghost var p :| a <= p < b && row[p] == 0;
        assert Covers(spans[j], p);
        return false;
      }
      forall p | 0 <= p < |row| && Covered(spans[..j + 1], p) ensures row[p] != 0 {
        CoveredSnoc(spans, j, p);
      }
      previous := b;
      assert spans[..j + 1] == spans[..j] + [spans[j]];
    }
    assert spans[..|spans|] == spans;
    return true;
  }

  method CheckTurn(reward: real, q: seq<real>, eligible: bool, spans: Option<seq<Span>>, turn: Span, row: seq<int>)
    returns (ok: bool)
    requires 0 <= turn.0 <= turn.1 <= |row|
    ensures ok <==> TurnOk(reward, q, eligible, spans, turn, row)
  {
    if q != [] && Sum(q) != reward {
      return false;
    }
    if eligible {
      if q == [] || spans.None? || |q| != |spans.value| {
        return false;
      }
      ok := CheckCallSpans(spans.value, turn, row);
    } else {
      ok := spans.None?;
    }
  }

  method CheckCalls(c: CallBatch, s: Settings) returns (ok: bool)
    requires Rectangular(c.base) && Accepts(c.base, s)
    ensures ok <==> CallAccepts(c, s, LOCAL)
    ensures ok <==> CallAccepts(c, s, RESIDUAL)
  {
    var n := |c.base.mask|;
    if |c.callRewards| != n || |c.callSpans| != n || |c.eligible| != n {
      return false;
    }
    for i := 0 to n
      invariant forall r :: 0 <= r < i && Lit(c.base.mask[r]) ==>
        |c.callRewards[r]| == |c.callSpans[r]| == |c.eligible[r]| == |c.base.rewards[r]|
    {
      var turns := |c.base.rewards[i]|;
      if Lit(c.base.mask[i]) && (|c.callRewards[i]| != turns || |c.callSpans[i]| != turns || |c.eligible[i]| != turns) {
        return false;
      }
    }
    for i := 0 to |c.base.mask|
      invariant forall r, k :: 0 <= r < i && Lit(c.base.mask[r]) && 0 <= k < |c.base.rewards[r]| ==>
        TurnOk(c.base.rewards[r][k], c.callRewards[r][k], c.eligible[r][k], c.callSpans[r][k], c.base.spans[r][k], c.base.mask[r])
    {
      if Lit(c.base.mask[i]) {
        assert RowAccepts(c.base.rewards[i], c.base.spans[i], c.base.mask[i]);
        for k := 0 to |c.base.rewards[i]|
          invariant forall j :: 0 <= j < k ==>
            TurnOk(c.base.rewards[i][j], c.callRewards[i][j], c.eligible[i][j], c.callSpans[i][j], c.base.spans[i][j], c.base.mask[i])
        {
          ok := CheckTurn(c.base.rewards[i][k], c.callRewards[i][k], c.eligible[i][k], c.callSpans[i][k],
                          c.base.spans[i][k], c.base.mask[i]);
          if !ok {
            return;
          }
        }
      }
    }
    return true;
  }

  // ---- the figures of one (uid, turn) group ----

  datatype Figures = Figures(meanReward: real, std: real, support: nat, callSupport: nat, callBaseline: real)

  /** The members with at least one paid call at turn `k`. */
  function CallMembers(c: CallBatch, rows: seq<nat>, k: nat): (m: seq<nat>)
    requires forall a :: 0 <= a < |rows| ==> rows[a] < |c.callRewards| && k < |c.callRewards[rows[a]]|
    ensures forall a :: 0 <= a < |m| ==> m[a] in rows && c.callRewards[m[a]][k] != []
  {
    if rows == [] then []
    else
      var n := |rows| - 1;
      CallMembers(c, rows[..n], k) + if c.callRewards[rows[n]][k] != [] then [rows[n]] else []
  }

  /** One vote per call-bearing trajectory: the mean of its own call rewards. */
  function Votes(c: CallBatch, rows: seq<nat>, k: nat): seq<real>
    requires forall a :: 0 <= a < |rows| ==> rows[a] < |c.callRewards| && k < |c.callRewards[rows[a]]|
    requires forall a :: 0 <= a < |rows| ==> c.callRewards[rows[a]][k] != []
  {
    seq(|rows|, a requires 0 <= a < |rows| => Mean(c.callRewards[rows[a]][k]))
  }

  function MeanOr0(xs: seq<real>): real {
    if xs == [] then 0.0 else Mean(xs)
  }

  ghost predicate Sound(c: CallBatch, s: Settings) {
    CallShaped(c) && Shaped(TableOf(c.base)) && ValidSettings(s) && IsRoot(s.scale.root)
  }

  /** What the estimator computes once for the group (uid, k). */
  function GroupFigures(c: CallBatch, s: Settings, uid: string, k: nat): (f: Figures)
    requires Sound(c, s)
    ensures f.std >= 0.0
  {
    var t := TableOf(c.base);
    var peers := Peers(t, uid, k);
    if peers == [] then Figures(0.0, 0.0, 0, 0, 0.0)
    else
      var calling := CallMembers(c, peers, k);
      DeviationZero(PeerReturns(t, s, uid, k), s.scale);
      Figures(Mean(Pick(t, t.rewards, peers, k)), Deviation(PeerReturns(t, s, uid, k), s.scale),
              |peers|, |calling|, MeanOr0(Votes(c, calling, k)))
  }

  // ---- one turn ----

  datatype Reason = NoCalls | AttributionIneligible | InsufficientTurnSupport | InsufficientCallSupport
                  | ZeroReturnVariance | SingleCall | UniformCallRewards

  function FallbackReason(q: seq<real>, eligible: bool, f: Figures, minGroupSize: int, residual: bool): Option<Reason> {
    if q == [] then Some(NoCalls)
    else if !eligible then Some(AttributionIneligible)
    else if f.support < minGroupSize then Some(InsufficientTurnSupport)
    else if f.callSupport < minGroupSize then Some(InsufficientCallSupport)
    else if f.std == 0.0 then Some(ZeroReturnVariance)
    else if residual && |q| == 1 then Some(SingleCall)
    else if residual && forall j :: 0 <= j < |q| ==> q[j] == q[0] then Some(UniformCallRewards)
    else None
  }

  /** The corrected advantage of call `j`. */
  function Corrected(advantage: real, reward: real, q: seq<real>, j: nat, f: Figures, eps: real, residual: bool): real
    requires j < |q| && f.std + eps > 0.0
  {
    if residual then advantage + (q[j] - Mean(q)) / (f.std + eps)
    else advantage + ((q[j] - f.callBaseline) - (reward - f.meanReward)) / (f.std + eps)
  }

  datatype TurnRecord = TurnRecord(reason: Option<Reason>, callAdvantages: seq<real>)

  function Judge(advantage: real, reward: real, q: seq<real>, eligible: bool, f: Figures, s: Settings, residual: bool): TurnRecord
    requires f.std >= 0.0 && s.scale.eps > 0.0
  {
    var reason := FallbackReason(q, eligible, f, s.scale.minGroupSize, residual);
    TurnRecord(reason, if reason.Some? then [] else
      seq(|q|, j requires 0 <= j < |q| => Corrected(advantage, reward, q, j, f, s.scale.eps, residual)))
  }

  /** The verdict on turn `k` of active row `i`. */
  function RecordOf(c: CallBatch, s: Settings, residual: bool, i: nat, k: nat): TurnRecord
    requires Sound(c, s) && i < |c.base.mask| && Lit(c.base.mask[i]) && k < |c.base.rewards[i]|
  {
    Judge(TurnAdvantage(TableOf(c.base), s, i, k), c.base.rewards[i][k], c.callRewards[i][k], c.eligible[i][k],
          GroupFigures(c, s, c.base.uids[i], k), s, residual)
  }

  // ---- painting call spans over the baseline ----

  /** The token spans one applied turn rewrites, with the value of each. */
  datatype Patch = Patch(spans: seq<Span>, values: seq<real>)

  function AllSpans(ps: seq<Patch>): seq<Span> {
    if ps == [] then [] else AllSpans(ps[..|ps| - 1]) + ps[|ps| - 1].spans
  }

  function AllValues(ps: seq<Patch>): seq<real> {
    if ps == [] then [] else AllValues(ps[..|ps| - 1]) + ps[|ps| - 1].values
  }

  /** Patch k stays inside turn k. */
  ghost predicate Fitted(ps: seq<Patch>, turns: seq<Span>) {
    |ps| <= |turns| && forall k :: 0 <= k < |ps| ==> |ps[k].spans| == |ps[k].values| && Within(ps[k].spans, turns[k])
  }

  lemma {:induction false} PatchesOrdered(ps: seq<Patch>, turns: seq<Span>, length: nat)
    requires Fitted(ps, turns) && Ordered(turns, length)
    ensures |AllSpans(ps)| == |AllValues(ps)| && Ordered(AllSpans(ps), length)
    ensures forall j :: 0 <= j < |AllSpans(ps)| ==> ps != [] && AllSpans(ps)[j].1 <= turns[|ps| - 1].1
  {
    if ps != [] {
      var n := |ps| - 1;
      PatchesOrdered(ps[..n], turns, length);
    }
  }

  ghost predicate Overlaid(tokens: array2<real>, base: array2<real>, i: nat, spans: seq<Span>, values: seq<real>)
    requires i < tokens.Length0 == base.Length0 && tokens.Length1 == base.Length1
    requires |spans| == |values| && Ordered(spans, tokens.Length1)
    reads tokens, base
  {
    && (forall j, p :: 0 <= j < |spans| && spans[j].0 <= p < spans[j].1 ==> tokens[i, p] == values[j])
    && (forall p :: 0 <= p < tokens.Length1 && !Covered(spans, p) ==> tokens[i, p] == base[i, p])
  }

  ghost predicate Marked(replaced: array2<bool>, i: nat, spans: seq<Span>)
    requires i < replaced.Length0
    reads replaced
  {
    forall p :: 0 <= p < replaced.Length1 ==> (replaced[i, p] <==> Covered(spans, p))
  }

  /** Rewrites one more span of row `i`, beyond all the spans rewritten so far. */
  method PaintCall(tokens: array2<real>, replaced: array2<bool>, base: array2<real>, i: nat,
                   ghost spans: seq<Span>, ghost values: seq<real>, span: Span, value: real)
    requires i < tokens.Length0 == base.Length0 == replaced.Length0 && tokens != base
    requires tokens.Length1 == base.Length1 == replaced.Length1
    requires |spans| == |values| && Ordered(spans + [span], tokens.Length1)
    requires Ordered(spans, tokens.Length1)
    requires Overlaid(tokens, base, i, spans, values) && Marked(replaced, i, spans)
    modifies tokens, replaced
    ensures Overlaid(tokens, base, i, spans + [span], values + [value]) && Marked(replaced, i, spans + [span])
    ensures forall r, p :: 0 <= r < tokens.Length0 && r != i && 0 <= p < tokens.Length1 ==>
      tokens[r, p] == old(tokens[r, p]) && replaced[r, p] == old(replaced[r, p])
  {
    var (a, b) := span;
    ghost var more := spans + [span];
    assert more[|spans|] == span;
    forall p | a <= p < b {
      tokens[i, p] := value;
    }
    forall p | a <= p < b {
      replaced[i, p] := true;
    }
    forall p ensures Covered(more, p) <==> Covered(spans, p) || Covers(span, p) {
      assert more[..|spans|] == spans && more[..|spans| + 1] == more;
      CoveredSnoc(more, |spans|, p);
    }
    forall j | 0 <= j < |spans| ensures spans[j].1 <= a {
      assert more[j] == spans[j];
    }
  }

  lemma PatchSnoc(ps: seq<Patch>, patch: Patch)
    ensures AllSpans(ps + [patch]) == AllSpans(ps) + patch.spans
    ensures AllValues(ps + [patch]) == AllValues(ps) + patch.values
  {
    assert (ps + [patch])[..|ps|] == ps;
  }

  ghost predicate RowPatched(tokens: array2<real>, replaced: array2<bool>, base: array2<real>, i: nat,
                             ps: seq<Patch>)
    requires i < tokens.Length0 == base.Length0 == replaced.Length0
    requires tokens.Length1 == base.Length1 == replaced.Length1
    reads tokens, base, replaced
  {
    && |AllSpans(ps)| == |AllValues(ps)| && Ordered(AllSpans(ps), tokens.Length1)
    && Overlaid(tokens, base, i, AllSpans(ps), AllValues(ps)) && Marked(replaced, i, AllSpans(ps))
  }

  /** Rewrites the spans of one turn, in call order. */
  method PaintCalls(tokens: array2<real>, replaced: array2<bool>, base: array2<real>, i: nat,
                    ghost before: seq<Span>, ghost held: seq<real>, more: seq<Span>, values: seq<real>)
    requires i < tokens.Length0 == base.Length0 == replaced.Length0 && tokens != base
    requires tokens.Length1 == base.Length1 == replaced.Length1
    requires |before| == |held| && |more| == |values|
    requires Ordered(before, tokens.Length1) && Ordered(before + more, tokens.Length1)
    requires Overlaid(tokens, base, i, before, held) && Marked(replaced, i, before)
    modifies tokens, replaced
    ensures Overlaid(tokens, base, i, before + more, held + values) && Marked(replaced, i, before + more)
    ensures forall r, p :: 0 <= r < tokens.Length0 && r != i && 0 <= p < tokens.Length1 ==>
      tokens[r, p] == old(tokens[r, p]) && replaced[r, p] == old(replaced[r, p])
  {
    ghost var spans, vals := before, held;
    for j := 0 to |more|
      invariant spans == before + more[..j] && vals == held + values[..j]
      invariant Ordered(spans, tokens.Length1) && Overlaid(tokens, base, i, spans, vals) && Marked(replaced, i, spans)
      invariant forall r, p :: 0 <= r < tokens.Length0 && r != i && 0 <= p < tokens.Length1 ==>
        tokens[r, p] == old(tokens[r, p]) && replaced[r, p] == old(replaced[r, p])
    {
      ghost var next := spans + [more[j]];
      assert next == (before + more)[..|next|];
      OrderedPrefix(before + more, |next|, tokens.Length1);
      PaintCall(tokens, replaced, base, i, spans, vals, more[j], values[j]);
      spans, vals := next, vals + [values[j]];
    }
    assert spans == before + more && vals == held + values;
  }

  /** Applies the next turn of row `i`: writes each call's value over the call's own span. */
  method ApplyTurn(tokens: array2<real>, replaced: array2<bool>, base: array2<real>, i: nat,
                   ghost ps: seq<Patch>, ghost turns: seq<Span>, patch: Patch)
    requires i < tokens.Length0 == base.Length0 == replaced.Length0 && tokens != base
    requires tokens.Length1 == base.Length1 == replaced.Length1
    requires Ordered(turns, tokens.Length1) && Fitted(ps + [patch], turns)
    requires RowPatched(tokens, replaced, base, i, ps)
    modifies tokens, replaced
    ensures RowPatched(tokens, replaced, base, i, ps + [patch])
    ensures forall r, p :: 0 <= r < tokens.Length0 && r != i && 0 <= p < tokens.Length1 ==>
      tokens[r, p] == old(tokens[r, p]) && replaced[r, p] == old(replaced[r, p])
  {
    PatchSnoc(ps, patch);
    PatchesOrdered(ps + [patch], turns, tokens.Length1);
    assert (ps + [patch])[|ps|] == patch;
    PaintCalls(tokens, replaced, base, i, AllSpans(ps), AllValues(ps), patch.spans, patch.values);
  }

  // ---- the dictionary of (uid, turn) groups ----

  function CountUid(order: seq<(string, nat)>, uid: string): nat {
    if order == [] then 0
    else CountUid(order[..|order| - 1], uid) + if order[|order| - 1].0 == uid then 1 else 0
  }

  /** Within one sample group the keys arrive in turn order 0, 1, 2, ... */
  ghost predicate Ranked(order: seq<(string, nat)>) {
    forall o :: 0 <= o < |order| ==> order[o].1 == CountUid(order[..o], order[o].0)
  }

  /** The keys in order of first appearance, as a dictionary iterates over them. */
  function FirstSeen(keys: seq<(string, nat)>): (order: seq<(string, nat)>)
    ensures forall key :: key in order <==> key in keys
  {
    if keys == [] then []
    else
      var n := |keys| - 1;
      var before := FirstSeen(keys[..n]);
      assert keys == keys[..n] + [keys[n]];
      if keys[n] in keys[..n] then before else before + [keys[n]]
  }

  lemma CountUidSnoc(order: seq<(string, nat)>, key: (string, nat), uid: string)
    ensures CountUid(order + [key], uid) == CountUid(order, uid) + if key.0 == uid then 1 else 0
  {
    assert (order + [key])[..|order|] == order;
  }

  lemma RankedSnoc(order: seq<(string, nat)>, key: (string, nat))
    requires Ranked(order) && key.1 == CountUid(order, key.0)
    ensures Ranked(order + [key])
  {
    var more := order + [key];
    forall o | 0 <= o < |more| ensures more[o].1 == CountUid(more[..o], more[o].0) {
      assert more[..o] == if o < |order| then order[..o] else order;
    }
  }

  /** The keys of one sample group are exactly its turns below some count. */
  ghost predicate Closed(order: seq<(string, nat)>) {
    forall key: (string, nat) :: key in order <==> key.1 < CountUid(order, key.0)
  }

  /** Every turn's predecessor appears before it. */
  ghost predicate Consecutive(keys: seq<(string, nat)>) {
    forall p :: 0 <= p < |keys| && keys[p].1 > 0 ==> (keys[p].0, keys[p].1 - 1) in keys[..p]
  }

  lemma ConsecutivePrefix(keys: seq<(string, nat)>, n: nat)
    requires Consecutive(keys) && n <= |keys|
    ensures Consecutive(keys[..n])
  {
    forall p | 0 <= p < n && keys[..n][p].1 > 0 ensures (keys[..n][p].0, keys[..n][p].1 - 1) in keys[..n][..p] {
      assert keys[..n][..p] == keys[..p];
    }
  }

  lemma ClosedSnoc(order: seq<(string, nat)>, key: (string, nat))
    requires Closed(order) && key.1 == CountUid(order, key.0)
    ensures Closed(order + [key])
  {
    forall other: (string, nat) ensures other in order + [key] <==> other.1 < CountUid(order + [key], other.0) {
      CountUidSnoc(order, key, other.0);
      assert other in order <==> other.1 < CountUid(order, other.0);
    }
  }

  lemma {:induction false} FirstSeenRanked(keys: seq<(string, nat)>)
    requires Consecutive(keys)
    ensures Ranked(FirstSeen(keys)) && Closed(FirstSeen(keys))
  {
    if keys != [] {
      var n := |keys| - 1;
      var key, before := keys[n], FirstSeen(keys[..n]);
      ConsecutivePrefix(keys, n);
      FirstSeenRanked(keys[..n]);
      if key !in keys[..n] {
        assert key.1 > 0 ==> (key.0, key.1 - 1) in before;
        assert key !in before;
        RankedSnoc(before, key);
        ClosedSnoc(before, key);
      }
    }
  }

  lemma {:induction false} FlatConsecutive(t: Table, rows: seq<nat>)
    requires Rows(t, rows)
    ensures Consecutive(FlatKeys(t, Flat(t, rows)))
  {
    if rows != [] {
      var n := |rows| - 1;
      var r := rows[n];
      FlatConsecutive(t, rows[..n]);
      var before, all := FlatKeys(t, Flat(t, rows[..n])), FlatKeys(t, Flat(t, rows));
      assert all[..|before|] == before;
      forall p | 0 <= p < |all| && all[p].1 > 0 ensures (all[p].0, all[p].1 - 1) in all[..p] {
        if p < |before| {
          assert all[p] == before[p] && all[..p] == before[..p];
        } else {
          assert all[..p][p - 1] == (all[p].0, all[p].1 - 1);
        }
      }
    }
  }

  /** The rows filed under (uid, turn k) are the cohort. */
  function FiledRows(t: Table, positions: seq<(nat, nat)>, uid: string, k: nat): seq<nat>
    requires InTable(t, positions)
  {
    Select(Firsts(positions), FlatKeys(t, positions), (uid, k))
  }

  lemma FiledRowsAppend(t: Table, a: seq<(nat, nat)>, b: seq<(nat, nat)>, uid: string, k: nat)
    requires InTable(t, a) && InTable(t, b) && InTable(t, a + b)
    ensures FiledRows(t, a + b, uid, k) == FiledRows(t, a, uid, k) + FiledRows(t, b, uid, k)
  {
    assert Firsts(a + b) == Firsts(a) + Firsts(b);
    assert FlatKeys(t, a + b) == FlatKeys(t, a) + FlatKeys(t, b);
    SelectAppend(Firsts(a), FlatKeys(t, a), Firsts(b), FlatKeys(t, b), (uid, k));
  }

  lemma {:induction false} FiledRowsBlock(t: Table, i: nat, count: nat, uid: string, k: nat)
    requires Shaped(t) && i < |t.uids| && count <= |t.rewards[i]|
    ensures InTable(t, RowPositions(i, count))
    ensures FiledRows(t, RowPositions(i, count), uid, k) == if t.uids[i] == uid && k < count then [i] else []
  {
    if count > 0 {
      var before, last: seq<(nat, nat)> := RowPositions(i, count - 1), [(i, count - 1)];
      assert RowPositions(i, count) == before + last;
      FiledRowsAppend(t, before, last, uid, k);
      FiledRowsBlock(t, i, count - 1, uid, k);
      FiledRowsOne(t, i, count - 1, uid, k);
    }
  }

  lemma FiledRowsOne(t: Table, i: nat, j: nat, uid: string, k: nat)
    requires Shaped(t) && i < |t.uids| && j < |t.rewards[i]|
    ensures FiledRows(t, [(i, j)], uid, k) == if t.uids[i] == uid && k == j then [i] else []
  {
    var ps := [(i, j)];
    var rows, keys := Firsts(ps), FlatKeys(t, ps);
    assert rows[0] == i && keys[0] == (t.uids[i], j);
    assert rows[..0] == [] && keys[..0] == [];
    assert Select(rows[..0], keys[..0], (uid, k)) == [];
  }

  lemma FiledRowsNone(t: Table, uid: string, k: nat)
    requires Shaped(t)
    ensures FiledRows(t, [], uid, k) == []
  {
  }

  lemma {:induction false} FiledRowsCohort(t: Table, rows: seq<nat>, uid: string, k: nat)
    requires Rows(t, rows)
    ensures FiledRows(t, Flat(t, rows), uid, k) == Cohort(t, uid, k, rows)
  {
    FiledRowsNone(t, uid, k);
    hide FiledRows, RowPositions, InTable;
    if rows != [] {
      var n := |rows| - 1;
      FiledRowsCohort(t, rows[..n], uid, k);
      FiledRowsBlock(t, rows[n], |t.rewards[rows[n]]|, uid, k);
      FiledRowsAppend(t, Flat(t, rows[..n]), RowPositions(rows[n], |t.rewards[rows[n]]|), uid, k);
    }
  }

  /** The insertion-ordered dictionary from (uid, turn) to the active rows that reach that turn. */
  method BuildGroups(t: Table) returns (order: seq<(string, nat)>, groups: map<(string, nat), seq<nat>>)
    requires Shaped(t)
    ensures order == FirstSeen(FlatKeys(t, Flat(t, Active(t)))) && Ranked(order) && Closed(order)
    ensures forall key :: key in groups <==> key in order
    ensures forall key :: key in groups ==> groups[key] == Peers(t, key.0, key.1)
  {
    var positions := Flat(t, Active(t));
    ghost var keys, rows := FlatKeys(t, positions), Firsts(positions);
    order, groups := [], map[];
    for p := 0 to |positions|
      invariant order == FirstSeen(keys[..p])
      invariant forall key :: key in groups <==> key in keys[..p]
      invariant forall key :: key in groups ==> groups[key] == Select(rows[..p], keys[..p], key)
    {
      var (i, k) := positions[p];
      var key := (t.uids[i], k);
      FilingStep(rows, keys, p);
      if key !in groups {
        order := order + [key];
        groups := groups[key := []];
      }
      groups := groups[key := groups[key] + [i]];
    }
    assert keys[..|keys|] == keys && rows[..|rows|] == rows;
    FlatConsecutive(t, Active(t));
    FirstSeenRanked(keys);
    forall key | key in groups ensures groups[key] == Peers(t, key.0, key.1) {
      FiledRowsCohort(t, Active(t), key.0, key.1);
    }
  }

  lemma FilingStep(rows: seq<nat>, keys: seq<(string, nat)>, p: nat)
    requires |rows| == |keys| && p < |keys|
    ensures FirstSeen(keys[..p + 1]) == FirstSeen(keys[..p]) + if keys[p] in keys[..p] then [] else [keys[p]]
    ensures forall key :: key in keys[..p + 1] <==> key in keys[..p] || key == keys[p]
    ensures forall key ::
      Select(rows[..p + 1], keys[..p + 1], key) == Select(rows[..p], keys[..p], key) + (if key == keys[p] then [rows[p]] else [])
    ensures keys[p] !in keys[..p] ==> Select(rows[..p], keys[..p], keys[p]) == []
  {
    assert keys[..p + 1] == keys[..p] + [keys[p]] && keys[..p + 1][..p] == keys[..p] && rows[..p + 1][..p] == rows[..p];
    if keys[p] !in keys[..p] {
      SelectAbsent(rows[..p], keys[..p], keys[p]);
    }
  }

  lemma SelectAbsent(rows: seq<nat>, keys: seq<(string, nat)>, key: (string, nat))
    requires |rows| == |keys| && key !in keys
    ensures Select(rows, keys, key) == []
  {
  }

  // ---- the estimator ----

  datatype CreditScores = CreditScores(advantages: array2<real>, replaced: array2<bool>, baseline: Scores,
                                       records: seq<seq<TurnRecord>>)

  ghost predicate Ready(c: CallBatch, s: Settings) {
    Rectangular(c.base) && IsRoot(s.scale.root) && CallAccepts(c, s, LOCAL)
  }

  ghost function RowRecords(c: CallBatch, s: Settings, residual: bool, i: nat): seq<TurnRecord>
    requires Ready(c, s) && i < |c.base.mask| && Lit(c.base.mask[i])
  {
    seq(|c.base.rewards[i]|, k requires 0 <= k < |c.base.rewards[i]| => RecordOf(c, s, residual, i, k))
  }

  function PatchOf(r: TurnRecord, spans: Option<seq<Span>>): Patch {
    if r.reason.None? && spans.Some? then Patch(spans.value, r.callAdvantages) else Patch([], [])
  }

  /** The token rewrites of row `i`, turn by turn. */
  function PatchesOf(records: seq<TurnRecord>, spans: seq<Option<seq<Span>>>): seq<Patch>
    requires |records| <= |spans|
  {
    seq(|records|, k requires 0 <= k < |records| => PatchOf(records[k], spans[k]))
  }

  lemma RecordFits(c: CallBatch, s: Settings, residual: bool, i: nat, k: nat)
    requires Ready(c, s) && i < |c.base.mask| && Lit(c.base.mask[i]) && k < |c.base.rewards[i]|
    ensures var patch := PatchOf(RecordOf(c, s, residual, i, k), c.callSpans[i][k]);
      |patch.spans| == |patch.values| && Within(patch.spans, c.base.spans[i][k])
    ensures Ordered(c.base.spans[i], c.base.length) && |c.base.spans[i]| == |c.base.rewards[i]|
  {
    assert RowAccepts(c.base.rewards[i], c.base.spans[i], c.base.mask[i]);
    assert TurnOk(c.base.rewards[i][k], c.callRewards[i][k], c.eligible[i][k], c.callSpans[i][k],
                  c.base.spans[i][k], c.base.mask[i]);
  }

  lemma PrefixFits(c: CallBatch, s: Settings, residual: bool, i: nat, records: seq<TurnRecord>)
    requires Ready(c, s) && i < |c.base.mask| && Lit(c.base.mask[i]) && records <= RowRecords(c, s, residual, i)
    ensures Fitted(PatchesOf(records, c.callSpans[i]), c.base.spans[i])
  {
    assert RowAccepts(c.base.rewards[i], c.base.spans[i], c.base.mask[i]);
    forall k | 0 <= k < |records|
      ensures var patch := PatchesOf(records, c.callSpans[i])[k];
        |patch.spans| == |patch.values| && Within(patch.spans, c.base.spans[i][k])
    {
      RecordFits(c, s, residual, i, k);
      assert records[k] == RowRecords(c, s, residual, i)[k];
    }
  }

  /** The expected records of every row; none for an inactive row. */
  ghost function AllRecords(c: CallBatch, s: Settings, residual: bool): seq<seq<TurnRecord>>
    requires Ready(c, s)
  {
    seq(|c.base.mask|, i requires 0 <= i < |c.base.mask| =>
      if Lit(c.base.mask[i]) then RowRecords(c, s, residual, i) else [])
  }

  ghost predicate Prefixes(records: seq<seq<TurnRecord>>, want: seq<seq<TurnRecord>>) {
    |records| == |want| && forall i :: 0 <= i < |records| ==> records[i] <= want[i]
  }

  lemma PrefixStep(records: seq<seq<TurnRecord>>, want: seq<seq<TurnRecord>>, i: nat, record: TurnRecord)
    requires Prefixes(records, want) && i < |records| && |records[i]| < |want[i]| && record == want[i][|records[i]|]
    ensures Prefixes(records[i := records[i] + [record]], want)
  {
  }

  method JudgeTurn(c: CallBatch, s: Settings, residual: bool, o: Scores, i: nat, k: nat, f: Figures)
    returns (record: TurnRecord)
    requires Ready(c, s) && TurnsScored(TableOf(c.base), s, o.turnAdvantages, o.turnReturns) && i < |c.base.mask| && Lit(c.base.mask[i]) && k < |c.base.rewards[i]|
    requires f == GroupFigures(c, s, c.base.uids[i], k)
    ensures k < |AllRecords(c, s, residual)[i]| && record == AllRecords(c, s, residual)[i][k]
  {
    assert o.turnAdvantages[i] == AllAdvantages(TableOf(c.base), s)[i];
    record := Judge(o.turnAdvantages[i][k], c.base.rewards[i][k], c.callRewards[i][k], c.eligible[i][k], f, s, residual);
  }

  method ComputeFigures(c: CallBatch, s: Settings, o: Scores, uid: string, k: nat, members: seq<nat>) returns (f: Figures)
    requires Ready(c, s) && TurnsScored(TableOf(c.base), s, o.turnAdvantages, o.turnReturns) && members == Peers(TableOf(c.base), uid, k) && members != []
    ensures f == GroupFigures(c, s, uid, k)
  {
    var t := TableOf(c.base);
    forall a | 0 <= a < |members| ensures o.turnReturns[members[a]] == AllReturns(t, s)[members[a]] {}
    var values := seq(|members|, a requires 0 <= a < |members| => o.turnReturns[members[a]][k]);
    assert values == PeerReturns(t, s, uid, k);
    var immediate := Pick(t, t.rewards, members, k);
    var calling := CallMembers(c, members, k);
    var baseline := MeanOr0(Votes(c, calling, k));
    f := Figures(Mean(immediate), Deviation(values, s.scale), |members|, |calling|, baseline);
  }

  function Quota(count: nat, turns: nat): nat {
    if count < turns then count else turns
  }

  /** How far each active row has come after `o` groups and the first `m` members of the next one. */
  ghost predicate Progress(c: CallBatch, order: seq<(string, nat)>, o: nat, visited: seq<nat>, records: seq<seq<TurnRecord>>)
    requires CallShaped(c) && Shaped(TableOf(c.base)) && o <= |order| && |records| == |c.base.mask|
  {
    forall i :: 0 <= i < |records| && Lit(c.base.mask[i]) ==>
      |records[i]| == Quota(CountUid(order[..o], c.base.uids[i]), |c.base.rewards[i]|) + if i in visited then 1 else 0
  }

  lemma {:induction false} CohortIncreasing(t: Table, uid: string, k: int, rows: seq<nat>)
    requires Rows(t, rows) && Increasing(rows)
    ensures Increasing(Cohort(t, uid, k, rows))
  {
    if rows != [] {
      CohortIncreasing(t, uid, k, rows[..|rows| - 1]);
    }
  }

  lemma {:induction false} CohortComplete(t: Table, uid: string, k: int, rows: seq<nat>, i: nat)
    requires Rows(t, rows) && i in rows && t.uids[i] == uid && k < |t.rewards[i]|
    ensures i in Cohort(t, uid, k, rows)
  {
    var n := |rows| - 1;
    if rows[n] == i {
      assert Cohort(t, uid, k, rows)[|Cohort(t, uid, k, rows)| - 1] == i;
    } else {
      CohortComplete(t, uid, k, rows[..n], i);
    }
  }

  lemma PeersAreMembers(t: Table, uid: string, k: int)
    requires Shaped(t)
    ensures Increasing(Peers(t, uid, k))
    ensures forall i :: 0 <= i < |t.uids| ==> (i in Peers(t, uid, k) <==> t.active[i] && t.uids[i] == uid && k < |t.rewards[i]|)
  {
    ActiveIncreasing(t.active, |t.active|);
    CohortIncreasing(t, uid, k, Active(t));
    forall i | 0 <= i < |t.uids| && t.active[i] && t.uids[i] == uid && k < |t.rewards[i]| ensures i in Peers(t, uid, k) {
      ActiveComplete(t.active, |t.active|, i);
      CohortComplete(t, uid, k, Active(t), i);
    }
  }

  /** Finishing a group advances exactly its own members, each by one turn. */
  lemma ProgressStep(c: CallBatch, order: seq<(string, nat)>, o: nat, members: seq<nat>, records: seq<seq<TurnRecord>>)
    requires CallShaped(c) && Shaped(TableOf(c.base)) && o < |order| && |records| == |c.base.mask|
    requires Ranked(order) && members == Peers(TableOf(c.base), order[o].0, order[o].1)
    requires Progress(c, order, o, members, records)
    ensures Progress(c, order, o + 1, [], records)
  {
    PeersAreMembers(TableOf(c.base), order[o].0, order[o].1);
    assert order[..o + 1] == order[..o] + [order[o]];
    forall i | 0 <= i < |records| && Lit(c.base.mask[i])
      ensures |records[i]| == Quota(CountUid(order[..o + 1], c.base.uids[i]), |c.base.rewards[i]|)
    {
      CountUidSnoc(order[..o], order[o], c.base.uids[i]);
    }
  }

  lemma {:induction false} FlatComplete(t: Table, rows: seq<nat>, i: nat, k: nat) returns (q: nat)
    requires Rows(t, rows) && i in rows && k < |t.rewards[i]|
    ensures q < |Flat(t, rows)| && Flat(t, rows)[q] == (i, k)
  {
    var n := |rows| - 1;
    if rows[n] == i {
      q := |Flat(t, rows[..n])| + k;
    } else {
      q := FlatComplete(t, rows[..n], i, k);
    }
  }

  lemma KeyPresent(t: Table, i: nat, k: nat)
    requires Shaped(t) && i < |t.uids| && t.active[i] && k < |t.rewards[i]|
    ensures (t.uids[i], k) in FirstSeen(FlatKeys(t, Flat(t, Active(t))))
  {
    ActiveComplete(t.active, |t.active|, i);
    var q := FlatComplete(t, Active(t), i, k);
    assert FlatKeys(t, Flat(t, Active(t)))[q] == (t.uids[i], k);
  }

  /** When every group is done, every turn of every active row has been judged. */
  lemma ProgressEnd(c: CallBatch, order: seq<(string, nat)>, records: seq<seq<TurnRecord>>)
    requires CallShaped(c) && Shaped(TableOf(c.base)) && |records| == |c.base.mask| && Closed(order)
    requires order == FirstSeen(FlatKeys(TableOf(c.base), Flat(TableOf(c.base), Active(TableOf(c.base)))))
    requires Progress(c, order, |order|, [], records)
    ensures forall i :: 0 <= i < |records| && Lit(c.base.mask[i]) ==> |records[i]| == |c.base.rewards[i]|
  {
    var t := TableOf(c.base);
    assert order[..|order|] == order;
    forall i | 0 <= i < |records| && Lit(c.base.mask[i]) ensures |records[i]| == |c.base.rewards[i]| {
      if |t.rewards[i]| > 0 {
        KeyPresent(t, i, |t.rewards[i]| - 1);
      }
    }
  }

  lemma PrefixesEnd(c: CallBatch, s: Settings, residual: bool, records: seq<seq<TurnRecord>>)
    requires Ready(c, s) && Prefixes(records, AllRecords(c, s, residual))
    requires forall i :: 0 <= i < |records| && Lit(c.base.mask[i]) ==> |records[i]| == |c.base.rewards[i]|
    ensures records == AllRecords(c, s, residual)
  {
    var want := AllRecords(c, s, residual);
    assert forall i :: 0 <= i < |records| ==> |records[i]| == |want[i]|;
    assert forall i :: 0 <= i < |records| ==> records[i] == want[i];
  }

  /** Judges one member of the group and appends its record. */
  method JudgeMember(c: CallBatch, s: Settings, residual: bool, b: Scores, ghost want: seq<seq<TurnRecord>>,
                     ghost order: seq<(string, nat)>, ghost o: nat, k: nat, members: seq<nat>, m: nat, f: Figures,
                     records: seq<seq<TurnRecord>>) returns (more: seq<seq<TurnRecord>>)
    requires Ready(c, s) && TurnsScored(TableOf(c.base), s, b.turnAdvantages, b.turnReturns)
    requires want == AllRecords(c, s, residual) && o < |order| && order[o].1 == k && Ranked(order)
    requires members == Peers(TableOf(c.base), order[o].0, k) && m < |members|
    requires f == GroupFigures(c, s, order[o].0, k)
    requires Prefixes(records, want) && Progress(c, order, o, members[..m], records)
    ensures Prefixes(more, want) && Progress(c, order, o, members[..m + 1], more)
  {
    var i := members[m];
    MemberDue(c, order, o, members, m, records);
    var record := JudgeTurn(c, s, residual, b, i, k, f);
    PrefixStep(records, want, i, record);
    more := records[i := records[i] + [record]];
    ProgressMember(c, order, o, members[..m], i, records, more);
    TakeSnoc(members, m);
  }

  /** Judges the members of one group; each gets its next record. */
  method JudgeGroup(c: CallBatch, s: Settings, residual: bool, b: Scores, ghost want: seq<seq<TurnRecord>>,
                    ghost order: seq<(string, nat)>, ghost o: nat, uid: string, k: nat, members: seq<nat>,
                    records: seq<seq<TurnRecord>>) returns (more: seq<seq<TurnRecord>>)
    requires Ready(c, s) && TurnsScored(TableOf(c.base), s, b.turnAdvantages, b.turnReturns)
    requires want == AllRecords(c, s, residual)
    requires o < |order| && order[o] == (uid, k) && Ranked(order) && members == Peers(TableOf(c.base), uid, k)
    requires Prefixes(records, want) && Progress(c, order, o, [], records)
    ensures Prefixes(more, want) && Progress(c, order, o + 1, [], more)
  {
    more := records;
    if members != [] {
      var f := ComputeFigures(c, s, b, uid, k, members);
      for m := 0 to |members|
        invariant Prefixes(more, want) && Progress(c, order, o, members[..m], more)
      {
        more := JudgeMember(c, s, residual, b, want, order, o, k, members, m, f, more);
      }
    }
    assert members[..|members|] == members;
    ProgressStep(c, order, o, members, more);
  }

  /** The next member of a group has been judged on exactly its earlier turns. */
  lemma MemberDue(c: CallBatch, order: seq<(string, nat)>, o: nat, members: seq<nat>, m: nat, records: seq<seq<TurnRecord>>)
    requires CallShaped(c) && Shaped(TableOf(c.base)) && o < |order| && |records| == |c.base.mask|
    requires Ranked(order) && members == Peers(TableOf(c.base), order[o].0, order[o].1) && m < |members|
    requires Progress(c, order, o, members[..m], records)
    ensures members[m] < |records| && Lit(c.base.mask[members[m]]) && order[o].1 < |c.base.rewards[members[m]]|
    ensures c.base.uids[members[m]] == order[o].0
    ensures |records[members[m]]| == order[o].1 && members[m] !in members[..m]
  {
    PeersAreMembers(TableOf(c.base), order[o].0, order[o].1);
    assert TableOf(c.base).active[members[m]];
  }

  lemma ProgressMember(c: CallBatch, order: seq<(string, nat)>, o: nat, visited: seq<nat>, i: nat,
                       before: seq<seq<TurnRecord>>, after: seq<seq<TurnRecord>>)
    requires CallShaped(c) && Shaped(TableOf(c.base)) && o <= |order| && |before| == |after| == |c.base.mask|
    requires Progress(c, order, o, visited, before) && i < |before| && i !in visited
    requires |after[i]| == |before[i]| + 1
    requires forall r :: 0 <= r < |before| && r != i ==> after[r] == before[r]
    ensures Progress(c, order, o, visited + [i], after)
  {
  }

  method JudgeAll(c: CallBatch, s: Settings, residual: bool, b: Scores) returns (records: seq<seq<TurnRecord>>)
    requires Ready(c, s) && TurnsScored(TableOf(c.base), s, b.turnAdvantages, b.turnReturns)
    ensures records == AllRecords(c, s, residual)
  {
    var order, groups := BuildGroups(TableOf(c.base));
    ghost var want := AllRecords(c, s, residual);
    records := seq(|c.base.mask|, _ => []);
    for o := 0 to |order|
      invariant Prefixes(records, want) && Progress(c, order, o, [], records)
    {
      records := JudgeGroup(c, s, residual, b, want, order, o, order[o].0, order[o].1, groups[order[o]], records);
    }
    ProgressEnd(c, order, records);
    PrefixesEnd(c, s, residual, records);
  }

  // ---- writing the records onto the tokens ----

  ghost predicate RowsFit(c: CallBatch, records: seq<seq<TurnRecord>>, length: nat) {
    && |records| == |c.callSpans| == |c.base.spans|
    && forall i :: 0 <= i < |records| && records[i] != [] ==>
        && |records[i]| <= |c.callSpans[i]| && Ordered(c.base.spans[i], length)
        && Fitted(PatchesOf(records[i], c.callSpans[i]), c.base.spans[i])
  }

  lemma RecordsFit(c: CallBatch, s: Settings, residual: bool)
    requires Ready(c, s)
    ensures RowsFit(c, AllRecords(c, s, residual), c.base.length)
  {
    forall i | 0 <= i < |c.base.mask| && Lit(c.base.mask[i])
      ensures Fitted(PatchesOf(RowRecords(c, s, residual, i), c.callSpans[i]), c.base.spans[i])
      ensures Ordered(c.base.spans[i], c.base.length)
    {
      PrefixFits(c, s, residual, i, RowRecords(c, s, residual, i));
      assert RowAccepts(c.base.rewards[i], c.base.spans[i], c.base.mask[i]);
    }
  }

  /** The rewrites that one row's records ask for. */
  function Writes(records: seq<TurnRecord>, spans: seq<Option<seq<Span>>>): seq<Patch> {
    if |records| <= |spans| then PatchesOf(records, spans) else []
  }

  /** Writes one row, turn by turn and call by call. */
  method WriteRow(adv: array2<real>, replaced: array2<bool>, base: array2<real>, i: nat, records: seq<TurnRecord>,
                  spans: seq<Option<seq<Span>>>, ghost turns: seq<Span>)
    requires i < adv.Length0 == base.Length0 == replaced.Length0 && adv != base
    requires adv.Length1 == base.Length1 == replaced.Length1
    requires |records| <= |spans| && Ordered(turns, adv.Length1) && Fitted(PatchesOf(records, spans), turns)
    requires RowPatched(adv, replaced, base, i, [])
    modifies adv, replaced
    ensures RowPatched(adv, replaced, base, i, PatchesOf(records, spans))
    ensures forall r, p :: 0 <= r < adv.Length0 && r != i && 0 <= p < adv.Length1 ==>
      adv[r, p] == old(adv[r, p]) && replaced[r, p] == old(replaced[r, p])
  {
    ghost var all := PatchesOf(records, spans);
    for k := 0 to |records|
      invariant RowPatched(adv, replaced, base, i, all[..k])
      invariant forall r, p :: 0 <= r < adv.Length0 && r != i && 0 <= p < adv.Length1 ==>
        adv[r, p] == old(adv[r, p]) && replaced[r, p] == old(replaced[r, p])
    {
      assert all[..k + 1] == all[..k] + [PatchOf(records[k], spans[k])];
      ApplyTurn(adv, replaced, base, i, all[..k], turns, PatchOf(records[k], spans[k]));
    }
    assert all[..|records|] == all;
  }

  ghost predicate AllPatched(adv: array2<real>, replaced: array2<bool>, base: array2<real>, writes: seq<seq<Patch>>)
    reads adv, replaced, base
  {
    && |writes| == adv.Length0 == replaced.Length0 == base.Length0
    && adv.Length1 == replaced.Length1 == base.Length1
    && forall i :: 0 <= i < |writes| ==> RowPatched(adv, replaced, base, i, writes[i])
  }

  function AllWrites(c: CallBatch, records: seq<seq<TurnRecord>>): seq<seq<Patch>>
    requires |records| == |c.callSpans|
  {
    seq(|records|, i requires 0 <= i < |records| => Writes(records[i], c.callSpans[i]))
  }

  /** Writes row `i` and leaves the other rows as they were written. */
  method WriteNext(adv: array2<real>, replaced: array2<bool>, base: array2<real>, i: nat, records: seq<TurnRecord>,
                   spans: seq<Option<seq<Span>>>, ghost turns: seq<Span>, ghost written: seq<seq<Patch>>)
    requires AllPatched(adv, replaced, base, written) && i < |written| && written[i] == [] && adv != base
    requires |records| <= |spans| && Ordered(turns, adv.Length1) && Fitted(PatchesOf(records, spans), turns)
    modifies adv, replaced
    ensures AllPatched(adv, replaced, base, written[i := Writes(records, spans)])
  {
    WriteRow(adv, replaced, base, i, records, spans, turns);
    forall r | 0 <= r < |written| && r != i ensures RowPatched(adv, replaced, base, r, written[r]) {
      assert old(RowPatched(adv, replaced, base, r, written[r]));
      assert forall p :: 0 <= p < adv.Length1 ==> adv[r, p] == old(adv[r, p]) && replaced[r, p] == old(replaced[r, p]);
    }
  }

  method WriteAll(c: CallBatch, base: array2<real>, records: seq<seq<TurnRecord>>)
    returns (adv: array2<real>, replaced: array2<bool>)
    requires RowsFit(c, records, base.Length1) && |records| == base.Length0
    ensures fresh(adv) && fresh(replaced)
    ensures AllPatched(adv, replaced, base, AllWrites(c, records))
  {
    adv, replaced := StartFrom(base);
    ghost var want := AllWrites(c, records);
    ghost var written: seq<seq<Patch>> := seq(|records|, _ => []);
    for i := 0 to base.Length0
      invariant |written| == |want| && forall r :: 0 <= r < |want| ==> written[r] == if r < i then want[r] else []
      invariant AllPatched(adv, replaced, base, written)
    {
      if records[i] != [] {
        WriteNext(adv, replaced, base, i, records[i], c.callSpans[i], c.base.spans[i], written);
      }
      NoWrites(records[i], c.callSpans[i]);
      written := written[i := want[i]];
    }
    assert written == want;
  }

  lemma NoWrites(records: seq<TurnRecord>, spans: seq<Option<seq<Span>>>)
    ensures records == [] ==> Writes(records, spans) == []
  {
  }

  method StartFrom(base: array2<real>) returns (adv: array2<real>, replaced: array2<bool>)
    ensures fresh(adv) && fresh(replaced)
    ensures adv.Length0 == replaced.Length0 == base.Length0 && adv.Length1 == replaced.Length1 == base.Length1
    ensures forall i :: 0 <= i < base.Length0 ==> RowPatched(adv, replaced, base, i, [])
  {
    adv := new real[base.Length0, base.Length1]((i, p) reads base requires 0 <= i < base.Length0 && 0 <= p < base.Length1 => base[i, p]);
    replaced := new bool[base.Length0, base.Length1]((i, p) => false);
  }

  // ---- the estimator as a whole ----

  /** Everything but the call spans of applied turns keeps its baseline value. */
  ghost predicate Credited(c: CallBatch, s: Settings, residual: bool, o: CreditScores)
    requires Ready(c, s)
    reads o.advantages, o.replaced, o.baseline.tokenAdvantages, o.baseline.tokenReturns
  {
    && Scored(c.base, s, o.baseline)
    && o.records == AllRecords(c, s, residual)
    && AllPatched(o.advantages, o.replaced, o.baseline.tokenAdvantages, AllWrites(c, o.records))
  }

  method ComputeCallCredit(c: CallBatch, s: Settings, mode: string) returns (r: Result<CreditScores>)
    requires Rectangular(c.base) && IsRoot(s.scale.root)
    ensures r.Ok? <==> CallAccepts(c, s, mode)
    ensures r.Ok? ==> fresh(r.value.advantages) && fresh(r.value.replaced)
    ensures r.Ok? ==> Credited(c, s, mode == RESIDUAL, r.value)
  {
    if mode != LOCAL && mode != RESIDUAL {
      return Rejected;
    }
    var scored := ComputeMtGtpo(c.base, s);
    if scored.Rejected? {
      return Rejected;
    }
    var b := scored.value;
    var ok := CheckCalls(c, s);
    if !ok {
      return Rejected;
    }
    var records := JudgeAll(c, s, mode == RESIDUAL, b);
    RecordsFit(c, s, mode == RESIDUAL);
    var adv, replaced := WriteAll(c, b.tokenAdvantages, records);
    r := Ok(CreditScores(adv, replaced, b, records));
  }
}
