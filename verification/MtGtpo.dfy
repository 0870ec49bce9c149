/** Turn-position hybrid advantages: span tiling, backward returns, group normalisation, token broadcast. */
module MtGtpo {
  import opened Common
  import opened GroupStats
  import opened Spans

  datatype Settings = Settings(gamma: real, lambdaOutcome: real, scale: Scale)

  ghost predicate ValidSettings(s: Settings) {
    0.0 <= s.gamma <= 1.0 && s.lambdaOutcome >= 0.0 && s.scale.eps > 0.0 && s.scale.minGroupSize >= 2
  }

  /** One update; `mask` is a matrix with `length` columns. */
  datatype Batch = Batch(outcomes: seq<real>, uids: seq<string>, rewards: seq<seq<real>>,
                         spans: seq<seq<Span>>, mask: seq<seq<int>>, length: nat)

  ghost predicate Rectangular(b: Batch) {
    forall i :: 0 <= i < |b.mask| ==> |b.mask[i]| == b.length
  }

  predicate BinaryRow(row: seq<int>) {
    forall p :: 0 <= p < |row| ==> row[p] == 0 || row[p] == 1
  }

  predicate Lit(row: seq<int>) {
    exists p :: 0 <= p < |row| && row[p] != 0
  }

  // ---- what the numbers depend on ----

  /** Everything a turn value may depend on: no spans, no token widths. */
  datatype Table = Table(outcomes: seq<real>, uids: seq<string>, rewards: seq<seq<real>>, active: seq<bool>)

  predicate Shaped(t: Table) {
    |t.outcomes| == |t.uids| == |t.rewards| == |t.active|
  }

  function TableOf(b: Batch): Table {
    Table(b.outcomes, b.uids, b.rewards, seq(|b.mask|, i requires 0 <= i < |b.mask| => Lit(b.mask[i])))
  }

  /** G[k] = r[k] + gamma * G[k+1], with the terminal reward at virtual turn K. */
  function Return(rewards: seq<real>, outcome: real, gamma: real, k: nat): real
    requires k <= |rewards|
    decreases |rewards| - k
  {
    if k == |rewards| then outcome else rewards[k] + gamma * Return(rewards, outcome, gamma, k + 1)
  }

  predicate Rows(t: Table, rows: seq<nat>) {
    Shaped(t) && forall a :: 0 <= a < |rows| ==> rows[a] < |t.uids|
  }

  function ActiveBelow(active: seq<bool>, n: nat): (rows: seq<nat>)
    requires n <= |active|
    ensures forall a :: 0 <= a < |rows| ==> rows[a] < n && active[rows[a]]
  {
    if n == 0 then [] else ActiveBelow(active, n - 1) + if active[n - 1] then [n - 1] else []
  }

  function Active(t: Table): seq<nat>
    requires Shaped(t)
  {
    ActiveBelow(t.active, |t.active|)
  }

  /** Those of `rows` in sample group `uid` that reach turn `k`; k = -1 asks for the whole episode. */
  function Cohort(t: Table, uid: string, k: int, rows: seq<nat>): (c: seq<nat>)
    requires Rows(t, rows)
    ensures forall a :: 0 <= a < |c| ==>
      c[a] in rows && c[a] < |t.uids| && t.uids[c[a]] == uid && k < |t.rewards[c[a]]|
  {
    if rows == [] then []
    else
      var n := |rows| - 1;
      var i := rows[n];
      Cohort(t, uid, k, rows[..n]) + if t.uids[i] == uid && k < |t.rewards[i]| then [i] else []
  }

  function Peers(t: Table, uid: string, k: int): (c: seq<nat>)
    requires Shaped(t)
    ensures forall a :: 0 <= a < |c| ==>
      c[a] < |t.uids| && t.active[c[a]] && t.uids[c[a]] == uid && k < |t.rewards[c[a]]|
  {
    Cohort(t, uid, k, Active(t))
  }

  function OutcomesOf(t: Table, rows: seq<nat>): seq<real>
    requires Rows(t, rows)
  {
    seq(|rows|, a requires 0 <= a < |rows| => t.outcomes[rows[a]])
  }

  /** `want` lists one value for every turn of every row. */
  ghost predicate Fits(t: Table, want: seq<seq<real>>) {
    |want| == |t.rewards| && forall r :: 0 <= r < |want| ==> |want[r]| == |t.rewards[r]|
  }

  /** The values that `want` lists for turn `k` of the given rows. */
  function Pick(t: Table, want: seq<seq<real>>, rows: seq<nat>, k: nat): seq<real>
    requires Rows(t, rows) && Fits(t, want) && forall a :: 0 <= a < |rows| ==> k < |t.rewards[rows[a]]|
  {
    seq(|rows|, a requires 0 <= a < |rows| => want[rows[a]][k])
  }

  function TurnReturn(t: Table, s: Settings, i: nat, k: nat): real
    requires Shaped(t) && i < |t.uids| && k < |t.rewards[i]|
  {
    Return(t.rewards[i], t.outcomes[i], s.gamma, k)
  }

  function RowReturns(t: Table, s: Settings, i: nat): seq<real>
    requires Shaped(t) && i < |t.uids|
  {
    seq(|t.rewards[i]|, k requires 0 <= k < |t.rewards[i]| => TurnReturn(t, s, i, k))
  }

  function AllReturns(t: Table, s: Settings): (all: seq<seq<real>>)
    requires Shaped(t)
    ensures Fits(t, all)
  {
    seq(|t.uids|, i requires 0 <= i < |t.uids| => RowReturns(t, s, i))
  }

  /** The returns of turn `k` over every active row of the sample group that reaches it. */
  function PeerReturns(t: Table, s: Settings, uid: string, k: nat): seq<real>
    requires Shaped(t)
  {
    Pick(t, AllReturns(t, s), Peers(t, uid, k), k)
  }

  function EpisodeAdvantage(t: Table, s: Settings, i: nat): real
    requires Shaped(t) && ValidSettings(s) && i < |t.uids|
  {
    if t.active[i] then Scaled(OutcomesOf(t, Peers(t, t.uids[i], -1)), t.outcomes[i], s.scale) else 0.0
  }

  /** The normalised return of a turn among its peers. */
  function TurnTerm(t: Table, s: Settings, i: nat, k: nat): real
    requires Shaped(t) && ValidSettings(s) && i < |t.uids| && k < |t.rewards[i]|
  {
    Scaled(PeerReturns(t, s, t.uids[i], k), TurnReturn(t, s, i, k), s.scale)
  }

  function TurnAdvantage(t: Table, s: Settings, i: nat, k: nat): real
    requires Shaped(t) && ValidSettings(s) && i < |t.uids| && k < |t.rewards[i]|
  {
    TurnTerm(t, s, i, k) + s.lambdaOutcome * EpisodeAdvantage(t, s, i)
  }

  // ---- span tiling ----

  ghost predicate Tiles(spans: seq<Span>, row: seq<int>) {
    Ordered(spans, |row|) && forall p :: 0 <= p < |row| ==> (row[p] == 1 <==> Covered(spans, p))
  }

  ghost predicate RowAccepts(rewards: seq<real>, spans: seq<Span>, row: seq<int>) {
    |rewards| == |spans| && spans != [] && Tiles(spans, row)
  }

  ghost predicate Accepts(b: Batch, s: Settings) {
    && ValidSettings(s)
    && |b.outcomes| == |b.uids| == |b.rewards| == |b.spans| == |b.mask|
    && (forall i :: 0 <= i < |b.mask| ==> BinaryRow(b.mask[i]))
    && (forall i :: 0 <= i < |b.mask| && Lit(b.mask[i]) ==> RowAccepts(b.rewards[i], b.spans[i], b.mask[i]))
  }

  method CheckSpans(spans: seq<Span>, row: seq<int>) returns (ok: bool)
    requires BinaryRow(row)
    ensures ok <==> Tiles(spans, row)
  {
    var covered := new int[|row|](_ => 0);
    var endPrevious := 0;
    for j := 0 to |spans|
      invariant Ordered(spans[..j], |row|)
      invariant endPrevious == if j == 0 then 0 else spans[j - 1].1
      invariant forall q :: 0 <= q < j ==> spans[q].1 <= endPrevious <= |row|
      invariant forall p :: 0 <= p < |row| ==> covered[p] == if Covered(spans[..j], p) then 1 else 0
    {
      var (start, end) := spans[j];
      if !(endPrevious <= start < end <= |row|) {
        return false;
      }
      if exists p :: start <= p < end && row[p] == 0 {
        ghost var p :| start <= p < end && row[p] == 0;
        assert Covers(spans[j], p);
        return false;
      }
      forall p | start <= p < end {
        covered[p] := covered[p] + 1;
      }
      forall p | 0 <= p < |row|
        ensures covered[p] == if Covered(spans[..j + 1], p) then 1 else 0
      {
        CoveredSnoc(spans, j, p);
        BeyondIsUncovered(spans[..j], endPrevious, p);
      }
      endPrevious := end;
      assert spans[..j + 1] == spans[..j] + [spans[j]];
    }
    assert spans[..|spans|] == spans;
    ok := covered[..] == row;
  }

  // ---- backward returns ----

  method BackwardReturns(rewards: seq<real>, outcome: real, gamma: real) returns (values: seq<real>)
    ensures |values| == |rewards|
    ensures forall k :: 0 <= k < |rewards| ==> values[k] == Return(rewards, outcome, gamma, k)
  {
    var buffer := new real[|rewards|](_ => 0.0);
    var running := outcome;
    for k := |rewards| downto 0
      invariant running == Return(rewards, outcome, gamma, k)
      invariant forall j :: k <= j < |rewards| ==> buffer[j] == Return(rewards, outcome, gamma, j)
    {
      running := rewards[k] + gamma * running;
      buffer[k] := running;
    }
    values := buffer[..];
  }

  // ---- the flattened turn list handed to group normalisation ----

  function RowPositions(i: nat, count: nat): seq<(nat, nat)> {
    seq(count, k requires 0 <= k < count => (i, k))
  }

  ghost predicate InTable(t: Table, positions: seq<(nat, nat)>) {
    && Shaped(t)
    && forall q :: 0 <= q < |positions| ==> positions[q].0 < |t.uids| && positions[q].1 < |t.rewards[positions[q].0]|
  }

  function Flat(t: Table, rows: seq<nat>): (ps: seq<(nat, nat)>)
    requires Rows(t, rows)
    ensures InTable(t, ps)
  {
    if rows == [] then []
    else
      var n := |rows| - 1;
      Flat(t, rows[..n]) + RowPositions(rows[n], |t.rewards[rows[n]]|)
  }

  function FlatKeys(t: Table, positions: seq<(nat, nat)>): seq<(string, nat)>
    requires InTable(t, positions)
  {
    seq(|positions|, q requires 0 <= q < |positions| => (t.uids[positions[q].0], positions[q].1))
  }

  function Firsts(positions: seq<(nat, nat)>): seq<nat> {
    seq(|positions|, q requires 0 <= q < |positions| => positions[q].0)
  }

  function Lookup(t: Table, want: seq<seq<real>>, positions: seq<(nat, nat)>): seq<real>
    requires InTable(t, positions) && Fits(t, want)
  {
    seq(|positions|, q requires 0 <= q < |positions| => want[positions[q].0][positions[q].1])
  }

  /** The values that the flat list files under (uid, turn k). */
  function Filed(t: Table, want: seq<seq<real>>, positions: seq<(nat, nat)>, uid: string, k: nat): seq<real>
    requires InTable(t, positions) && Fits(t, want)
  {
    Select(Lookup(t, want, positions), FlatKeys(t, positions), (uid, k))
  }

  lemma FlatAppend(t: Table, want: seq<seq<real>>, a: seq<(nat, nat)>, b: seq<(nat, nat)>)
    requires InTable(t, a) && InTable(t, b) && InTable(t, a + b) && Fits(t, want)
    ensures Lookup(t, want, a + b) == Lookup(t, want, a) + Lookup(t, want, b)
    ensures FlatKeys(t, a + b) == FlatKeys(t, a) + FlatKeys(t, b)
    ensures Firsts(a + b) == Firsts(a) + Firsts(b)
  {
  }

  lemma FiledAppend(t: Table, want: seq<seq<real>>, a: seq<(nat, nat)>, b: seq<(nat, nat)>, uid: string, k: nat)
    requires InTable(t, a) && InTable(t, b) && InTable(t, a + b) && Fits(t, want)
    ensures Filed(t, want, a + b, uid, k) == Filed(t, want, a, uid, k) + Filed(t, want, b, uid, k)
  {
    FlatAppend(t, want, a, b);
    SelectAppend(Lookup(t, want, a), FlatKeys(t, a), Lookup(t, want, b), FlatKeys(t, b), (uid, k));
  }

  lemma FiledOne(t: Table, want: seq<seq<real>>, i: nat, j: nat, uid: string, k: nat)
    requires Shaped(t) && Fits(t, want) && i < |t.uids| && j < |t.rewards[i]|
    ensures Filed(t, want, [(i, j)], uid, k) == if t.uids[i] == uid && k == j then [want[i][j]] else []
  {
    var ps := [(i, j)];
    var values, keys := Lookup(t, want, ps), FlatKeys(t, ps);
    assert keys[0] == (t.uids[i], j) && values[0] == want[i][j];
    assert keys[..0] == [] && values[..0] == [];
    assert Select(values[..0], keys[..0], (uid, k)) == [];
  }

  lemma {:induction false} FiledRow(t: Table, want: seq<seq<real>>, i: nat, count: nat, uid: string, k: nat)
    requires Shaped(t) && Fits(t, want) && i < |t.uids| && count <= |t.rewards[i]|
    ensures Filed(t, want, RowPositions(i, count), uid, k) == if t.uids[i] == uid && k < count then [want[i][k]] else []
  {
    if count > 0 {
      var before, last: seq<(nat, nat)> := RowPositions(i, count - 1), [(i, count - 1)];
      assert RowPositions(i, count) == before + last;
      FiledAppend(t, want, before, last, uid, k);
      FiledRow(t, want, i, count - 1, uid, k);
      FiledOne(t, want, i, count - 1, uid, k);
    }
  }

  lemma PickSnoc(t: Table, want: seq<seq<real>>, rows: seq<nat>, i: nat, k: nat)
    requires Rows(t, rows) && Fits(t, want) && i < |t.uids| && k < |t.rewards[i]|
    requires forall q :: 0 <= q < |rows| ==> k < |t.rewards[rows[q]]|
    ensures Pick(t, want, rows + [i], k) == Pick(t, want, rows, k) + [want[i][k]]
  {
  }

  lemma FiledNone(t: Table, want: seq<seq<real>>, uid: string, k: nat)
    requires Shaped(t) && Fits(t, want)
    ensures Filed(t, want, [], uid, k) == []
  {
  }

  /** Grouping the flat list by (uid, turn) gathers exactly the values of the cohort. */
  lemma {:induction false} FiledCohort(t: Table, want: seq<seq<real>>, rows: seq<nat>, uid: string, k: nat)
    requires Rows(t, rows) && Fits(t, want)
    ensures Filed(t, want, Flat(t, rows), uid, k) == Pick(t, want, Cohort(t, uid, k, rows), k)
  {
    FiledNone(t, want, uid, k);
    hide Filed, RowPositions;
    if rows != [] {
      var n := |rows| - 1;
      var i := rows[n];
      FiledCohort(t, want, rows[..n], uid, k);
      FiledRow(t, want, i, |t.rewards[i]|, uid, k);
      FiledAppend(t, want, Flat(t, rows[..n]), RowPositions(i, |t.rewards[i]|), uid, k);
      if t.uids[i] == uid && k < |t.rewards[i]| {
        PickSnoc(t, want, Cohort(t, uid, k, rows[..n]), i, k);
      }
    }
  }

  function UidsOf(t: Table, rows: seq<nat>): seq<string>
    requires Rows(t, rows)
  {
    seq(|rows|, a requires 0 <= a < |rows| => t.uids[rows[a]])
  }

  lemma {:induction false} EpisodeSelect(t: Table, rows: seq<nat>, uid: string)
    requires Rows(t, rows)
    ensures Select(OutcomesOf(t, rows), UidsOf(t, rows), uid) == OutcomesOf(t, Cohort(t, uid, -1, rows))
  {
    if rows != [] {
      var n := |rows| - 1;
      EpisodeSelect(t, rows[..n], uid);
      assert OutcomesOf(t, rows)[..n] == OutcomesOf(t, rows[..n]);
      assert UidsOf(t, rows)[..n] == UidsOf(t, rows[..n]);
    }
  }

  // ---- the estimator ----

  datatype Scores = Scores(tokenAdvantages: array2<real>, tokenReturns: array2<real>, episode: seq<real>,
                           turnAdvantages: seq<seq<real>>, turnReturns: seq<seq<real>>)

  function RowAdvantages(t: Table, s: Settings, i: nat): seq<real>
    requires Shaped(t) && ValidSettings(s) && i < |t.uids|
  {
    seq(|t.rewards[i]|, k requires 0 <= k < |t.rewards[i]| => TurnAdvantage(t, s, i, k))
  }

  function AllAdvantages(t: Table, s: Settings): (all: seq<seq<real>>)
    requires Shaped(t) && ValidSettings(s)
    ensures Fits(t, all)
  {
    seq(|t.uids|, i requires 0 <= i < |t.uids| => RowAdvantages(t, s, i))
  }

  /** Row `i` of the token matrix: span k carries `values[k]`, every other token is zero. */
  ghost predicate Painted(tokens: array2<real>, i: nat, spans: seq<Span>, values: seq<real>)
    requires i < tokens.Length0 && |spans| == |values| && Ordered(spans, tokens.Length1)
    reads tokens
  {
    && (forall k, p :: 0 <= k < |spans| && spans[k].0 <= p < spans[k].1 ==> tokens[i, p] == values[k])
    && (forall p :: 0 <= p < tokens.Length1 && !Covered(spans, p) ==> tokens[i, p] == 0.0)
  }

  ghost predicate ZeroRow(tokens: array2<real>, i: nat)
    requires i < tokens.Length0
    reads tokens
  {
    forall p :: 0 <= p < tokens.Length1 ==> tokens[i, p] == 0.0
  }

  /** One matrix: listed rows show `values[i][k]` on span k of row i, every other token is zero. */
  ghost predicate Shown(tokens: array2<real>, spans: seq<seq<Span>>, values: seq<seq<real>>, active: seq<bool>)
    requires |spans| == |values| == |active| == tokens.Length0
    reads tokens
  {
    forall i :: 0 <= i < |active| ==>
      if active[i]
      then |spans[i]| == |values[i]| && Ordered(spans[i], tokens.Length1) && Painted(tokens, i, spans[i], values[i])
      else ZeroRow(tokens, i)
  }

  ghost predicate TurnsScored(t: Table, s: Settings, advantages: seq<seq<real>>, values: seq<seq<real>>)
    requires Shaped(t) && ValidSettings(s)
  {
    && |advantages| == |values| == |t.uids|
    && forall i :: 0 <= i < |t.uids| ==>
      if t.active[i]
      then advantages[i] == AllAdvantages(t, s)[i] && values[i] == AllReturns(t, s)[i]
      else advantages[i] == [] && values[i] == []
  }

  /** The values are the table's, and each token shows the value of the turn whose span covers it. */
  ghost predicate Scored(b: Batch, s: Settings, o: Scores)
    requires Rectangular(b) && Accepts(b, s)
    reads o.tokenAdvantages, o.tokenReturns
  {
    && o.tokenAdvantages.Length0 == o.tokenReturns.Length0 == |b.mask|
    && o.tokenAdvantages.Length1 == o.tokenReturns.Length1 == b.length
    && |o.episode| == |b.mask|
    && (forall i :: 0 <= i < |b.mask| ==> o.episode[i] == EpisodeAdvantage(TableOf(b), s, i))
    && TurnsScored(TableOf(b), s, o.turnAdvantages, o.turnReturns)
    && Shown(o.tokenAdvantages, b.spans, o.turnAdvantages, TableOf(b).active)
    && Shown(o.tokenReturns, b.spans, o.turnReturns, TableOf(b).active)
  }

  lemma AppendRow(t: Table, s: Settings, positions: seq<(nat, nat)>, i: nat, found: seq<real>)
    requires InTable(t, positions) && i < |t.uids| && |found| == |t.rewards[i]|
    requires forall k :: 0 <= k < |found| ==> found[k] == TurnReturn(t, s, i, k)
    ensures var more := RowPositions(i, |t.rewards[i]|);
      && InTable(t, positions + more)
      && Lookup(t, AllReturns(t, s), positions + more) == Lookup(t, AllReturns(t, s), positions) + found
      && FlatKeys(t, positions + more) == FlatKeys(t, positions) + FlatKeys(t, more)
  {
    FlatAppend(t, AllReturns(t, s), positions, RowPositions(i, |t.rewards[i]|));
    assert found == Lookup(t, AllReturns(t, s), RowPositions(i, |t.rewards[i]|));
  }

  method CheckRow(rewards: seq<real>, spans: seq<Span>, row: seq<int>) returns (ok: bool)
    requires BinaryRow(row)
    ensures ok <==> RowAccepts(rewards, spans, row)
  {
    if |rewards| != |spans| || spans == [] {
      return false;
    }
    ok := CheckSpans(spans, row);
  }

  /** Every row passes exactly if every listed active row does. */
  lemma ListedRowsAccept(b: Batch)
    requires |b.outcomes| == |b.uids| == |b.rewards| == |b.spans| == |b.mask|
    ensures (forall q :: 0 <= q < |Active(TableOf(b))| ==>
        var i := Active(TableOf(b))[q]; RowAccepts(b.rewards[i], b.spans[i], b.mask[i]))
      <==> forall i :: 0 <= i < |b.mask| && Lit(b.mask[i]) ==> RowAccepts(b.rewards[i], b.spans[i], b.mask[i])
  {
    hide RowAccepts;
    var t := TableOf(b);
    forall i | 0 <= i < |b.mask| && Lit(b.mask[i]) ensures i in Active(t) {
      ActiveComplete(t.active, |t.active|, i);
    }
  }

  method CollectTurns(b: Batch, s: Settings)
    returns (ok: bool, positions: seq<(nat, nat)>, keys: seq<(string, nat)>, values: seq<real>)
    requires Rectangular(b) && |b.outcomes| == |b.uids| == |b.rewards| == |b.spans| == |b.mask|
    requires forall i :: 0 <= i < |b.mask| ==> BinaryRow(b.mask[i])
    ensures ok <==> forall i :: 0 <= i < |b.mask| && Lit(b.mask[i]) ==> RowAccepts(b.rewards[i], b.spans[i], b.mask[i])
    ensures ok ==> var t := TableOf(b);
      && positions == Flat(t, Active(t)) && InTable(t, positions)
      && keys == FlatKeys(t, positions) && values == Lookup(t, AllReturns(t, s), positions)
  {
    hide RowAccepts, AllReturns, Return;
    var t := TableOf(b);
    var rows := Active(t);
    ListedRowsAccept(b);
    ok, positions, keys, values := true, [], [], [];
    for a := 0 to |rows|
      invariant forall q :: 0 <= q < a ==> RowAccepts(b.rewards[rows[q]], b.spans[rows[q]], b.mask[rows[q]])
      invariant positions == Flat(t, rows[..a]) && InTable(t, positions)
      invariant keys == FlatKeys(t, positions) && values == Lookup(t, AllReturns(t, s), positions)
    {
      var i := rows[a];
      ok := CheckRow(b.rewards[i], b.spans[i], b.mask[i]);
      if !ok {
        return;
      }
      var found := BackwardReturns(b.rewards[i], b.outcomes[i], s.gamma);
      TakeSnoc(rows, a);
      AppendRow(t, s, positions, i, found);
      positions := positions + RowPositions(i, |b.rewards[i]|);
      keys := keys + FlatKeys(t, RowPositions(i, |b.rewards[i]|));
      values := values + found;
      assert rows[..a + 1][..a] == rows[..a];
    }
    assert rows[..|rows|] == rows;
  }

  lemma {:induction false} ActiveComplete(active: seq<bool>, n: nat, i: nat)
    requires i < n <= |active| && active[i]
    ensures i in ActiveBelow(active, n)
  {
    if i < n - 1 {
      ActiveComplete(active, n - 1, i);
    } else {
      assert ActiveBelow(active, n)[|ActiveBelow(active, n)| - 1] == i;
    }
  }

  lemma {:induction false} ActiveIncreasing(active: seq<bool>, n: nat)
    requires n <= |active|
    ensures Increasing(ActiveBelow(active, n))
  {
    if n > 0 {
      ActiveIncreasing(active, n - 1);
    }
  }

  lemma EpisodeEntry(t: Table, s: Settings, rows: seq<nat>, a: nat)
    requires Shaped(t) && ValidSettings(s) && rows == Active(t) && a < |rows|
    ensures EpisodeAdvantage(t, s, rows[a])
         == Scaled(Select(OutcomesOf(t, rows), UidsOf(t, rows), UidsOf(t, rows)[a]), OutcomesOf(t, rows)[a], s.scale)
  {
    EpisodeSelect(t, rows, t.uids[rows[a]]);
  }

  method EpisodeScores(t: Table, s: Settings) returns (episode: seq<real>)
    requires Shaped(t) && ValidSettings(s)
    ensures |episode| == |t.uids|
    ensures forall i :: 0 <= i < |t.uids| ==> episode[i] == EpisodeAdvantage(t, s, i)
  {
    var rows := Active(t);
    var scaled := GroupNormalize(OutcomesOf(t, rows), UidsOf(t, rows), s.scale);
    forall a | 0 <= a < |rows| ensures scaled.value[a] == EpisodeAdvantage(t, s, rows[a]) {
      EpisodeEntry(t, s, rows, a);
    }
    episode := Scatter(t, rows, scaled.value);
    forall i | 0 <= i < |t.uids| ensures episode[i] == EpisodeAdvantage(t, s, i) {
      if t.active[i] {
        ActiveComplete(t.active, |t.active|, i);
        var a :| 0 <= a < |rows| && rows[a] == i;
        assert episode[rows[a]] == scaled.value[a];
      }
    }
  }

  /** Assignment through an index list into a zero vector. */
  method Scatter(t: Table, rows: seq<nat>, values: seq<real>) returns (full: seq<real>)
    requires Shaped(t) && rows == Active(t) && |values| == |rows|
    ensures |full| == |t.uids|
    ensures forall a :: 0 <= a < |rows| ==> full[rows[a]] == values[a]
    ensures forall i :: 0 <= i < |t.uids| && !t.active[i] ==> full[i] == 0.0
  {
    var buffer := new real[|t.uids|](_ => 0.0);
    ActiveIncreasing(t.active, |t.active|);
    for a := 0 to |rows|
      invariant forall q :: 0 <= q < a ==> buffer[rows[q]] == values[q]
      invariant forall i :: 0 <= i < |t.uids| && !t.active[i] ==> buffer[i] == 0.0
    {
      buffer[rows[a]] := values[a];
    }
    full := buffer[..];
  }

  method PaintRow(tokens: array2<real>, i: nat, spans: seq<Span>, values: seq<real>)
    requires i < tokens.Length0 && |spans| == |values| && Ordered(spans, tokens.Length1) && ZeroRow(tokens, i)
    modifies tokens
    ensures Painted(tokens, i, spans, values)
    ensures forall r, p :: 0 <= r < tokens.Length0 && r != i && 0 <= p < tokens.Length1 ==> tokens[r, p] == old(tokens[r, p])
  {
    for k := 0 to |spans|
      invariant forall j, p :: 0 <= j < k && spans[j].0 <= p < spans[j].1 ==> tokens[i, p] == values[j]
      invariant forall p :: 0 <= p < tokens.Length1 && !Covered(spans, p) ==> tokens[i, p] == 0.0
      invariant forall r, p :: 0 <= r < tokens.Length0 && r != i && 0 <= p < tokens.Length1 ==> tokens[r, p] == old(tokens[r, p])
    {
      var (start, end) := spans[k];
      assert forall p :: start <= p < end ==> Covers(spans[k], p);
      forall p | start <= p < end {
        tokens[i, p] := values[k];
      }
    }
  }

  /** `normalized` lists the normalised return of every turn of the flat list. */
  ghost predicate Normalised(t: Table, s: Settings, positions: seq<(nat, nat)>, normalized: seq<real>)
    requires InTable(t, positions) && ValidSettings(s)
  {
    && |normalized| == |positions|
    && forall q :: 0 <= q < |positions| ==> normalized[q] == TurnTerm(t, s, positions[q].0, positions[q].1)
  }

  /** Appends each flat entry to the list of its own row. */
  method Unflatten(n: nat, positions: seq<(nat, nat)>, flat: seq<real>) returns (table: seq<seq<real>>)
    requires |flat| == |positions| && forall q :: 0 <= q < |positions| ==> positions[q].0 < n
    ensures |table| == n
    ensures forall i :: 0 <= i < n ==> table[i] == Select<real, nat>(flat, Firsts(positions), i)
  {
    table := seq(n, _ => []);
    ghost var keys := Firsts(positions);
    for p := 0 to |positions|
      invariant |table| == n
      invariant forall i :: 0 <= i < n ==> table[i] == Select<real, nat>(flat[..p], keys[..p], i)
    {
      var i := positions[p].0;
      assert flat[..p + 1][..p] == flat[..p] && keys[..p + 1][..p] == keys[..p];
      table := table[i := table[i] + [flat[p]]];
    }
    assert flat[..|flat|] == flat && keys[..|keys|] == keys;
  }

  lemma {:induction false} SelectUniform(values: seq<real>, keys: seq<nat>, r: nat, key: nat)
    requires |values| == |keys| && forall q :: 0 <= q < |keys| ==> keys[q] == r
    ensures Select<real, nat>(values, keys, key) == if key == r then values else []
  {
    if keys != [] {
      SelectUniform(values[..|keys| - 1], keys[..|keys| - 1], r, key);
    }
  }

  function RowShare(t: Table, want: seq<seq<real>>, positions: seq<(nat, nat)>, i: nat): seq<real>
    requires InTable(t, positions) && Fits(t, want)
  {
    Select<real, nat>(Lookup(t, want, positions), Firsts(positions), i)
  }

  lemma RowShareAppend(t: Table, want: seq<seq<real>>, a: seq<(nat, nat)>, b: seq<(nat, nat)>, i: nat)
    requires InTable(t, a) && InTable(t, b) && InTable(t, a + b) && Fits(t, want)
    ensures RowShare(t, want, a + b, i) == RowShare(t, want, a, i) + RowShare(t, want, b, i)
  {
    FlatAppend(t, want, a, b);
    SelectAppend(Lookup(t, want, a), Firsts(a), Lookup(t, want, b), Firsts(b), i);
  }

  lemma RowShareBlock(t: Table, want: seq<seq<real>>, r: nat, i: nat)
    requires Shaped(t) && Fits(t, want) && r < |t.uids|
    ensures RowShare(t, want, RowPositions(r, |t.rewards[r]|), i) == if i == r then want[r] else []
  {
    var block := RowPositions(r, |t.rewards[r]|);
    assert Lookup(t, want, block) == want[r];
    SelectUniform(want[r], Firsts(block), r, i);
  }

  lemma RowShareNone(t: Table, want: seq<seq<real>>, i: nat)
    requires Shaped(t) && Fits(t, want)
    ensures RowShare(t, want, [], i) == []
  {
  }

  lemma IncreasingLast(rows: seq<nat>, i: nat)
    requires rows != [] && Increasing(rows)
    ensures i in rows <==> i in rows[..|rows| - 1] || i == rows[|rows| - 1]
    ensures rows[|rows| - 1] !in rows[..|rows| - 1]
  {
    assert rows == rows[..|rows| - 1] + [rows[|rows| - 1]];
  }

  /** Selecting by row the flat list made from `want` gives each row its wanted list back, in turn order. */
  lemma {:induction false} RowSelect(t: Table, rows: seq<nat>, want: seq<seq<real>>, i: nat)
    requires Rows(t, rows) && Increasing(rows) && Fits(t, want) && i < |t.uids|
    ensures RowShare(t, want, Flat(t, rows), i) == if i in rows then want[i] else []
  {
    RowShareNone(t, want, i);
    hide RowShare, RowPositions, Lookup;
    if rows != [] {
      var n := |rows| - 1;
      RowSelect(t, rows[..n], want, i);
      RowShareBlock(t, want, rows[n], i);
      RowShareAppend(t, want, Flat(t, rows[..n]), RowPositions(rows[n], |t.rewards[rows[n]]|), i);
      IncreasingLast(rows, i);
    }
  }

  function AddEpisode(t: Table, s: Settings, positions: seq<(nat, nat)>, normalized: seq<real>, episode: seq<real>): seq<real>
    requires InTable(t, positions) && |normalized| == |positions| && |episode| == |t.uids|
  {
    seq(|positions|, q requires 0 <= q < |positions| => normalized[q] + s.lambdaOutcome * episode[positions[q].0])
  }

  /** Reads the normalised flat list back row by row and adds the weighted episode term. */
  method ReadBack(t: Table, s: Settings, positions: seq<(nat, nat)>, values: seq<real>, normalized: seq<real>,
                  episode: seq<real>) returns (turnAdv: seq<seq<real>>, turnRet: seq<seq<real>>)
    requires Shaped(t) && ValidSettings(s) && positions == Flat(t, Active(t))
    requires values == Lookup(t, AllReturns(t, s), positions) && Normalised(t, s, positions, normalized)
    requires |episode| == |t.uids| && forall i :: 0 <= i < |episode| ==> episode[i] == EpisodeAdvantage(t, s, i)
    ensures TurnsScored(t, s, turnAdv, turnRet)
  {
    var flat := AddEpisode(t, s, positions, normalized, episode);
    turnAdv := Unflatten(|t.uids|, positions, flat);
    turnRet := Unflatten(|t.uids|, positions, values);
    AdvantageLookup(t, s, positions, normalized, episode);
    RowsReadBack(t, AllAdvantages(t, s), positions, flat, turnAdv);
    RowsReadBack(t, AllReturns(t, s), positions, values, turnRet);
  }

  lemma AdvantageLookup(t: Table, s: Settings, positions: seq<(nat, nat)>, normalized: seq<real>, episode: seq<real>)
    requires Shaped(t) && ValidSettings(s) && positions == Flat(t, Active(t)) && Normalised(t, s, positions, normalized)
    requires |episode| == |t.uids| && forall i :: 0 <= i < |episode| ==> episode[i] == EpisodeAdvantage(t, s, i)
    ensures AddEpisode(t, s, positions, normalized, episode) == Lookup(t, AllAdvantages(t, s), positions)
  {
    var flat := AddEpisode(t, s, positions, normalized, episode);
    assert forall q :: 0 <= q < |flat| ==> flat[q] == TurnAdvantage(t, s, positions[q].0, positions[q].1);
  }

  lemma RowsReadBack(t: Table, want: seq<seq<real>>, positions: seq<(nat, nat)>, flat: seq<real>, table: seq<seq<real>>)
    requires Shaped(t) && Fits(t, want) && |table| == |t.uids|
    requires positions == Flat(t, Active(t)) && flat == Lookup(t, want, positions)
    requires forall i :: 0 <= i < |table| ==> table[i] == Select<real, nat>(flat, Firsts(positions), i)
    ensures forall i :: 0 <= i < |table| ==> table[i] == if t.active[i] then want[i] else []
  {
    ActiveIncreasing(t.active, |t.active|);
    forall i | 0 <= i < |table| ensures table[i] == if t.active[i] then want[i] else [] {
      if t.active[i] {
        ActiveComplete(t.active, |t.active|, i);
      } else {
        assert i !in ActiveBelow(t.active, |t.active|);
      }
      RowSelect(t, Active(t), want, i);
    }
  }

  method PaintRows(b: Batch, values: seq<seq<real>>) returns (tokens: array2<real>)
    requires Rectangular(b) && |b.spans| == |b.mask| == |values| == |TableOf(b).active|
    requires forall i :: 0 <= i < |b.mask| && TableOf(b).active[i] ==>
      |b.spans[i]| == |values[i]| && Ordered(b.spans[i], b.length)
    ensures fresh(tokens) && tokens.Length0 == |b.mask| && tokens.Length1 == b.length
    ensures Shown(tokens, b.spans, values, TableOf(b).active)
  {
    var active := TableOf(b).active;
    tokens := new real[|b.mask|, b.length]((i, p) => 0.0);
    for i := 0 to |b.mask|
      invariant forall r :: 0 <= r < |b.mask| ==>
        if active[r] && r < i then Painted(tokens, r, b.spans[r], values[r]) else ZeroRow(tokens, r)
    {
      if active[i] {
        label before: 
        PaintRow(tokens, i, b.spans[i], values[i]);
        forall r | 0 <= r < |b.mask| && r != i
          ensures if active[r] && r < i then Painted(tokens, r, b.spans[r], values[r]) else ZeroRow(tokens, r)
        {
          assert forall p :: 0 <= p < b.length ==> tokens[r, p] == old@before(tokens[r, p]);
        }
      }
    }
  }

  /** Normalising the flat list by (uid, turn) is normalising each turn among its peers. */
  lemma GroupsAreCohorts(t: Table, s: Settings, positions: seq<(nat, nat)>, normalized: seq<real>)
    requires Shaped(t) && positions == Flat(t, Active(t)) && ValidSettings(s) && |normalized| == |positions|
    requires var values, keys := Lookup(t, AllReturns(t, s), positions), FlatKeys(t, positions);
      forall q :: 0 <= q < |values| ==> normalized[q] == Scaled(Select(values, keys, keys[q]), values[q], s.scale)
    ensures Normalised(t, s, positions, normalized)
  {
    forall q | 0 <= q < |positions| ensures normalized[q] == TurnTerm(t, s, positions[q].0, positions[q].1) {
      FiledCohort(t, AllReturns(t, s), Active(t), t.uids[positions[q].0], positions[q].1);
    }
  }

  method CheckSettings(s: Settings) returns (ok: bool)
    ensures ok <==> ValidSettings(s)
  {
    ok := 0.0 <= s.gamma && s.gamma <= 1.0 && s.lambdaOutcome >= 0.0 && s.scale.eps > 0.0 && s.scale.minGroupSize >= 2;
  }

  method ComputeMtGtpo(b: Batch, s: Settings) returns (r: Result<Scores>)
    requires Rectangular(b)
    ensures r.Ok? <==> Accepts(b, s)
    ensures r.Ok? ==> fresh(r.value.tokenAdvantages) && fresh(r.value.tokenReturns)
    ensures r.Ok? ==> r.value.tokenAdvantages != r.value.tokenReturns && Scored(b, s, r.value)
  {
    var n := |b.mask|;
    var valid := CheckSettings(s);
    if !valid || !(|b.outcomes| == |b.uids| == |b.rewards| == |b.spans| == n) {
      return Rejected;
    }
    if exists i :: 0 <= i < n && !BinaryRow(b.mask[i]) {
      return Rejected;
    }
    var ok, positions, keys, values := CollectTurns(b, s);
    if !ok {
      return Rejected;
    }
    var t := TableOf(b);
    var episode := EpisodeScores(t, s);
    var normalized := GroupNormalize(values, keys, s.scale);
    GroupsAreCohorts(t, s, positions, normalized.value);
    var turnAdv, turnRet := ReadBack(t, s, positions, values, normalized.value, episode);
    var tokenAdv := PaintRows(b, turnAdv);
    var tokenRet := PaintRows(b, turnRet);
    r := Ok(Scores(tokenAdv, tokenRet, episode, turnAdv, turnRet));
  }
}
