/** The whole join: row and batch identity checks, and what they guarantee to the call-credit estimator. */
module CallJoinBatch {
  import opened Common
  import opened Spans
  import opened GroupStats
  import opened MtGtpo
  import opened CallAttribution
  import opened CallRetention
  import opened CallJoin
  import CallCredit

  /** The execution identities used by the first `n` turns. */
  function IdsBefore(turns: seq<Fact>, n: nat): set<string>
    requires n <= |turns|
  {
    if n == 0 then {} else IdsBefore(turns, n - 1) + EventIds(turns[n - 1].events)
  }

  /** The facts are about this trajectory, not seen before, and this sample group. */
  ghost predicate SameSource(p: Process, facts: Facts, uid: string, seen: set<string>) {
    facts.trajectory != "" && facts.trajectory !in seen && facts.trajectory == p.trajectory && facts.uid == uid
  }

  /** The facts hold the row's own tokens and mask from the start, and nothing is masked in beyond them. */
  ghost predicate SameTokens(facts: Facts, ids: seq<int>, mask: seq<int>) {
    && |facts.mask| == |facts.ids| <= |ids| == |mask|
    && (forall t :: 0 <= t < |facts.ids| ==> facts.ids[t] == ids[t] && facts.mask[t] == mask[t])
    && (forall t :: |facts.ids| <= t < |mask| ==> mask[t] == 0)
  }

  /** One fact per paid turn, and paper rewards are summed. */
  ghost predicate SameTurns(p: Process, facts: Facts) {
    |p.turns| == |facts.turns| && (p.paper ==> p.aggregation == "sum")
  }

  ghost predicate RowJoins(p: Process, facts: Facts, uid: string, ids: seq<int>, mask: seq<int>, seen: set<string>) {
    && SameSource(p, facts, uid, seen) && SameTokens(facts, ids, mask) && SameTurns(p, facts)
    && forall k: nat :: k < |facts.turns| ==>
      TurnJoins(p, k, facts.turns[k], facts.ids, facts.mask, IdsBefore(facts.turns, k))
  }

  method CheckIdentity(p: Process, facts: Facts, uid: string, ids: seq<int>, mask: seq<int>, seen: set<string>) returns (ok: bool)
    ensures ok <==> SameSource(p, facts, uid, seen) && SameTokens(facts, ids, mask) && SameTurns(p, facts)
  {
    if facts.trajectory == "" || facts.trajectory in seen || facts.trajectory != p.trajectory || facts.uid != uid {
      return false;
    }
    var length := |facts.ids|;
    if length > |ids| || |ids| != |mask| || |facts.mask| != length {
      return false;
    }
    if facts.ids != ids[..length] || facts.mask != mask[..length] || exists t :: length <= t < |mask| && mask[t] != 0 {
      return false;
    }
    if |p.turns| != |facts.turns| {
      return false;
    }
    ok := !p.paper || p.aggregation == "sum";
  }

  ghost predicate RowCredit(credits: seq<Credit>, p: Process, facts: Facts) {
    && |credits| == |p.turns| == |facts.turns|
    && forall k: nat :: k < |credits| ==> TurnCredit(credits[k], p.turns[k], facts.turns[k], |facts.ids|)
  }

  ghost predicate JoinedBelow(p: Process, facts: Facts, credits: seq<Credit>, n: nat) {
    && n <= |facts.turns| == |p.turns| && |credits| == n
    && forall k: nat :: k < n ==>
      && TurnJoins(p, k, facts.turns[k], facts.ids, facts.mask, IdsBefore(facts.turns, k))
      && TurnCredit(credits[k], p.turns[k], facts.turns[k], |facts.ids|)
  }

  lemma JoinedSnoc(p: Process, facts: Facts, credits: seq<Credit>, n: nat, c: Credit)
    requires JoinedBelow(p, facts, credits, n) && n < |facts.turns|
    requires TurnJoins(p, n, facts.turns[n], facts.ids, facts.mask, IdsBefore(facts.turns, n))
    requires TurnCredit(c, p.turns[n], facts.turns[n], |facts.ids|)
    ensures JoinedBelow(p, facts, credits + [c], n + 1)
  {
    hide TurnJoins, TurnCredit, IdsBefore;
  }

  lemma JoinedAll(p: Process, facts: Facts, uid: string, ids: seq<int>, mask: seq<int>, seen: set<string>, credits: seq<Credit>)
    requires SameSource(p, facts, uid, seen) && SameTokens(facts, ids, mask) && SameTurns(p, facts) && JoinedBelow(p, facts, credits, |facts.turns|)
    ensures RowJoins(p, facts, uid, ids, mask, seen) && RowCredit(credits, p, facts)
  {
    hide TurnJoins, TurnCredit, IdsBefore;
  }

  method JoinRow(p: Process, facts: Facts, uid: string, ids: seq<int>, mask: seq<int>, seen: set<string>)
    returns (out: Result<seq<Credit>>)
    ensures out.Ok? <==> RowJoins(p, facts, uid, ids, mask, seen)
    ensures out.Ok? ==> RowCredit(out.value, p, facts)
  {
    hide TurnJoins, TurnCredit, EventIds, RowCredit;
    var same := CheckIdentity(p, facts, uid, ids, mask, seen);
    if !same {
      return Rejected;
    }
    var credits, rowIds := [], {};
    for k := 0 to |facts.turns|
      invariant rowIds == IdsBefore(facts.turns, k) && JoinedBelow(p, facts, credits, k)
    {
      var credit, used := JoinTurn(p, k, facts.turns[k], facts.ids, facts.mask, rowIds);
      if credit.Rejected? {
        return Rejected;
      }
      JoinedSnoc(p, facts, credits, k, credit.value);
      credits := credits + [credit.value];
      rowIds := used;
    }
    JoinedAll(p, facts, uid, ids, mask, seen, credits);
    out := Ok(credits);
  }

  datatype Join = Join(processes: seq<Process>, facts: seq<Facts>, uids: seq<string>, ids: seq<seq<int>>, mask: seq<seq<int>>)

  ghost predicate JoinShaped(b: Join) {
    && |b.processes| == |b.facts| == |b.uids| == |b.ids| == |b.mask|
    && forall i :: 0 <= i < |b.mask| ==> |b.ids[i]| == |b.mask[i]| && BinaryRow(b.mask[i])
  }

  method CheckShape(b: Join) returns (ok: bool)
    ensures ok <==> JoinShaped(b)
  {
    if exists i :: 0 <= i < |b.mask| && (exists p :: 0 <= p < |b.mask[i]| && b.mask[i][p] != 0 && b.mask[i][p] != 1) {
      return false;
    }
    if !(|b.processes| == |b.facts| == |b.uids| == |b.ids| == |b.mask|) {
      return false;
    }
    ok := forall i :: 0 <= i < |b.mask| ==> |b.ids[i]| == |b.mask[i]|;
  }

  /** The trajectories of the active rows before row `n`. */
  ghost function Trajectories(b: Join, n: nat): set<string>
    requires JoinShaped(b) && n <= |b.mask|
  {
    if n == 0 then {}
    else Trajectories(b, n - 1) + if Lit(b.mask[n - 1]) then {b.facts[n - 1].trajectory} else {}
  }

  ghost predicate RowOk(b: Join, i: nat)
    requires JoinShaped(b) && i < |b.mask|
  {
    Lit(b.mask[i]) ==> RowJoins(b.processes[i], b.facts[i], b.uids[i], b.ids[i], b.mask[i], Trajectories(b, i))
  }

  ghost predicate Joins(b: Join) {
    JoinShaped(b) && forall i: nat :: i < |b.mask| ==> RowOk(b, i)
  }

  ghost predicate JoinCredit(credits: seq<seq<Credit>>, b: Join) {
    && JoinShaped(b) && |credits| == |b.mask|
    && forall i :: 0 <= i < |b.mask| ==>
      if Lit(b.mask[i]) then RowCredit(credits[i], b.processes[i], b.facts[i]) else credits[i] == []
  }

  /** A joined row: its own trajectory, sample group, tokens and mask from the start, one fact a turn, paper pay summed. */
  ghost predicate SameRow(b: Join, i: nat)
    requires JoinShaped(b) && i < |b.mask|
  {
    var p, facts := b.processes[i], b.facts[i];
    && facts.trajectory == p.trajectory != "" && facts.uid == b.uids[i]
    && facts.ids <= b.ids[i] && facts.mask <= b.mask[i] && |facts.ids| == |facts.mask|
    && (forall t :: |facts.ids| <= t < |b.mask[i]| ==> b.mask[i][t] == 0)
    && |p.turns| == |facts.turns| && (p.paper ==> p.aggregation == "sum")
  }

  lemma JoinedFields(b: Join, i: nat)
    requires JoinShaped(b) && i < |b.mask| && Lit(b.mask[i]) && RowOk(b, i)
    ensures SameRow(b, i)
  {
    hide TurnJoins, IdsBefore, Lit;
  }

  method CallCreditInputs(b: Join) returns (out: Result<seq<seq<Credit>>>)
    ensures out.Ok? <==> Joins(b)
    ensures out.Ok? ==> forall i: nat :: i < |b.mask| && Lit(b.mask[i]) ==> SameRow(b, i)
    ensures out.Ok? ==> JoinCredit(out.value, b)
  {
    hide RowJoins, RowCredit, Lit;
    var shaped := CheckShape(b);
    if !shaped {
      return Rejected;
    }
    var credits, seen := [], {};
    for i := 0 to |b.mask|
      invariant |credits| == i && seen == Trajectories(b, i)
      invariant forall j: nat :: j < i ==> RowOk(b, j)
      invariant forall j :: 0 <= j < i ==>
        if Lit(b.mask[j]) then RowCredit(credits[j], b.processes[j], b.facts[j]) else credits[j] == []
    {
      if Lit(b.mask[i]) {
        var row := JoinRow(b.processes[i], b.facts[i], b.uids[i], b.ids[i], b.mask[i], seen);
        if row.Rejected? {
          assert !RowOk(b, i);
          return Rejected;
        }
        seen := seen + {b.facts[i].trajectory};
        credits := credits + [row.value];
      } else {
        credits := credits + [[]];
      }
    }
    forall i: nat | i < |b.mask| && Lit(b.mask[i]) ensures SameRow(b, i) {
      JoinedFields(b, i);
    }
    out := Ok(credits);
  }

  // ---- what the join guarantees ----

  lemma {:induction false} IdsGrow(turns: seq<Fact>, j: nat, k: nat)
    requires j < k <= |turns|
    ensures EventIds(turns[j].events) <= IdsBefore(turns, k)
  {
    if j < k - 1 {
      IdsGrow(turns, j, k - 1);
    }
  }

  lemma TurnFresh(p: Process, k: nat, f: Fact, ids: seq<int>, mask: seq<int>, rowIds: set<string>)
    requires TurnJoins(p, k, f, ids, mask, rowIds)
    ensures IdsFresh(f.events, rowIds)
  {
  }

  /** No execution identity is used twice in a row: not inside a turn, not across turns. */
  lemma RowIdsUnique(p: Process, facts: Facts, uid: string, ids: seq<int>, mask: seq<int>, seen: set<string>,
                     j: nat, x: nat, k: nat, y: nat)
    requires RowJoins(p, facts, uid, ids, mask, seen)
    requires j <= k < |facts.turns| && x < |facts.turns[j].events| && y < |facts.turns[k].events| && (j, x) != (k, y)
    ensures facts.turns[j].events[x].id.Some? && facts.turns[j].events[x].id != facts.turns[k].events[y].id
  {
    hide TurnJoins, IdsBefore;
    TurnFresh(p, j, facts.turns[j], facts.ids, facts.mask, IdsBefore(facts.turns, j));
    TurnFresh(p, k, facts.turns[k], facts.ids, facts.mask, IdsBefore(facts.turns, k));
    if j < k {
      IdsGrow(facts.turns, j, k);
      assert facts.turns[j].events[x] in facts.turns[j].events;
    }
  }

  lemma {:induction false} TrajectoriesGrow(b: Join, i: nat, n: nat)
    requires JoinShaped(b) && i < n <= |b.mask| && Lit(b.mask[i])
    ensures b.facts[i].trajectory in Trajectories(b, n)
  {
    if i < n - 1 {
      TrajectoriesGrow(b, i, n - 1);
    }
  }

  /** Active rows come from different trajectories. */
  lemma TrajectoriesUnique(b: Join, i: nat, j: nat)
    requires Joins(b) && i < j < |b.mask| && Lit(b.mask[i]) && Lit(b.mask[j])
    ensures b.facts[i].trajectory != b.facts[j].trajectory
  {
    assert RowOk(b, j);
    TrajectoriesGrow(b, i, j);
  }

  /** The call-credit inputs the join emits, beside the estimator's own batch. */
  function CallBatchOf(base: Batch, credits: seq<seq<Credit>>): CallCredit.CallBatch {
    CallCredit.CallBatch(base,
      seq(|credits|, i requires 0 <= i < |credits| => seq(|credits[i]|, k requires 0 <= k < |credits[i]| => credits[i][k].q)),
      seq(|credits|, i requires 0 <= i < |credits| => seq(|credits[i]|, k requires 0 <= k < |credits[i]| => credits[i][k].spans)),
      seq(|credits|, i requires 0 <= i < |credits| => seq(|credits[i]|, k requires 0 <= k < |credits[i]| => credits[i][k].eligible)))
  }

  /** The paid rewards of a turn with calls add up to the turn reward. */
  ghost predicate SumAggregated(t: PaidTurn) {
    t.calls != [] ==> Sum(RewardsOf(t.calls)) == t.reward
  }

  /** The estimator sees the rows the join saw: same masks, turn rewards and turn spans. */
  ghost predicate SameRows(b: Join, base: Batch) {
    && JoinShaped(b) && base.mask == b.mask && |base.rewards| == |base.spans| == |b.mask|
    && forall i :: 0 <= i < |b.mask| && Lit(b.mask[i]) ==>
      && base.rewards[i] == b.processes[i].rewards && base.spans[i] == b.processes[i].spans
      && |b.processes[i].rewards| == |b.processes[i].turns|
  }

  ghost predicate InOrder(r: Record) {
    (forall i :: 0 <= i < |r.calls| ==> r.calls[i].block.Some?) && Increasing(BlockNumbers(r))
  }

  /** Attached calls are in block order exactly if the parser reported its sources in that order. */
  lemma OrderFromParser(before: Record, prov: Provenance, parsed: seq<ParsedCall>, r: Record)
    requires Attached(before, prov, true, parsed, r.calls)
    ensures InOrder(r) <==> Increasing(prov.sources)
  {
    forall i | 0 <= i < |r.calls| ensures r.calls[i].block == Some(prov.sources[i]) {
      assert r.calls[i] == NewCall(before, prov, true, parsed, i);
    }
    assert BlockNumbers(r) == prov.sources;
  }

  ghost predicate TurnBuilt(f: Fact) {
    f.attribution.Some? ==> Built(f.attribution.value.record)
  }

  ghost predicate TurnInOrder(f: Fact) {
    f.attribution.Some? && f.attribution.value.eligible ==> InOrder(f.attribution.value.record)
  }

  /** What call credit asks of a joined turn: block order if eligible, and pay that adds up to the reward. */
  ghost predicate TurnFeeds(t: PaidTurn, f: Fact) {
    TurnInOrder(f) && SumAggregated(t)
  }

  lemma TurnAccepted(p: Process, k: nat, f: Fact, ids: seq<int>, mask: seq<int>, rowIds: set<string>, c: Credit, row: seq<int>)
    requires TurnJoins(p, k, f, ids, mask, rowIds) && TurnCredit(c, p.turns[k], f, |ids|)
    requires TurnBuilt(f)
    requires |mask| <= |row| && row[..|mask|] == mask
    ensures CallCredit.TurnOk(p.rewards[k], c.q, c.eligible, c.spans, p.spans[k], row) <==> TurnFeeds(p.turns[k], f)
  {
    RewardsConserved(p, k, f, ids, mask, rowIds, c);
    QuotaKept(p, k, f, c, |ids|);
    var a := f.attribution.value;
    if a.eligible {
      SpansPassIffInOrder(a.record, ids, mask, c.spans.value, row);
    }
  }

  lemma QuotaKept(p: Process, k: nat, f: Fact, c: Credit, limit: nat)
    requires k < |p.turns| && TurnCredit(c, p.turns[k], f, limit)
    requires multiset(c.q) == multiset(RewardsOf(p.turns[k].calls))
    ensures |c.q| == |ExecutedCalls(f.attribution.value.record.calls)|
    ensures c.q != [] <==> p.turns[k].calls != []
  {
    assert |multiset(c.q)| == |multiset(RewardsOf(p.turns[k].calls))|;
  }

  /**
   * What the join emits is accepted by the call-credit estimator exactly when every eligible turn reported its calls
   * in block order and the paid rewards of every turn with calls add up to the turn reward.
   */
  lemma JoinFeedsCallCredit(b: Join, credits: seq<seq<Credit>>, base: Batch, s: Settings)
    requires Joins(b) && JoinCredit(credits, b) && SameRows(b, base)
    requires Rectangular(base) && Accepts(base, s)
    requires forall i, k :: 0 <= i < |b.mask| && Lit(b.mask[i]) && 0 <= k < |b.facts[i].turns| ==> TurnBuilt(b.facts[i].turns[k])
    ensures CallCredit.CallAccepts(CallBatchOf(base, credits), s, CallCredit.LOCAL) <==>
      forall i, k :: 0 <= i < |b.mask| && Lit(b.mask[i]) && 0 <= k < |b.facts[i].turns| ==>
        k < |b.processes[i].turns| && TurnFeeds(b.processes[i].turns[k], b.facts[i].turns[k])
  {
    hide TurnJoins, TurnCredit, TurnBuilt, TurnFeeds, TurnInOrder, CallCredit.TurnOk, SumAggregated, Lit, Tiles;
    var c := CallBatchOf(base, credits);
    forall i, k | 0 <= i < |b.mask| && Lit(b.mask[i]) && 0 <= k < |b.facts[i].turns|
      ensures |credits[i]| == |b.facts[i].turns| == |base.rewards[i]| == |base.spans[i]| == |b.processes[i].turns|
      ensures CallCredit.TurnOk(base.rewards[i][k], c.callRewards[i][k], c.eligible[i][k], c.callSpans[i][k], base.spans[i][k], base.mask[i])
         <==> TurnFeeds(b.processes[i].turns[k], b.facts[i].turns[k])
    {
      TurnOkAt(b, credits, base, i, k);
      assert c.callRewards[i][k] == credits[i][k].q && c.eligible[i][k] == credits[i][k].eligible;
      assert c.callSpans[i][k] == credits[i][k].spans;
    }
    assert forall i :: 0 <= i < |b.mask| && Lit(b.mask[i]) ==> |credits[i]| == |base.rewards[i]| by {
      forall i | 0 <= i < |b.mask| && Lit(b.mask[i]) ensures |credits[i]| == |base.rewards[i]| {
        assert RowOk(b, i);
      }
    }
  }

  lemma TurnOkAt(b: Join, credits: seq<seq<Credit>>, base: Batch, i: nat, k: nat)
    requires Joins(b) && JoinCredit(credits, b) && SameRows(b, base)
    requires i < |b.mask| && Lit(b.mask[i]) && k < |b.facts[i].turns| && TurnBuilt(b.facts[i].turns[k])
    ensures |credits[i]| == |b.facts[i].turns| == |base.rewards[i]| == |b.processes[i].turns| && k < |base.spans[i]|
    ensures CallCredit.TurnOk(base.rewards[i][k], credits[i][k].q, credits[i][k].eligible, credits[i][k].spans, base.spans[i][k], base.mask[i])
       <==> TurnFeeds(b.processes[i].turns[k], b.facts[i].turns[k])
  {
    hide TurnCredit, TurnBuilt, TurnFeeds, TurnInOrder, CallCredit.TurnOk, SumAggregated, Lit;
    assert RowOk(b, i);
    var p, facts := b.processes[i], b.facts[i];
    assert TurnJoins(p, k, facts.turns[k], facts.ids, facts.mask, IdsBefore(facts.turns, k));
    TurnAccepted(p, k, facts.turns[k], facts.ids, facts.mask, IdsBefore(facts.turns, k), credits[i][k], b.mask[i]);
  }

  // ---- one concrete row ----

  function FindEvent(): Event {
    Event(Some("a"), "find", "", false, None)
  }

  function BookEvent(): Event {
    Event(Some("b"), "book", "", false, None)
  }

  /** One row of one turn with two executed and paid calls. */
  function OneRow(paper: bool, aggregation: string): Join {
    var turn := PaidTurn(0, (0, 4), 3.0, [Paid(FindEvent(), 1.0), Paid(BookEvent(), 2.0)]);
    var fact := Fact(0, (0, 4), Some(Published(Swapped(), (0, 4), true)), [FindEvent(), BookEvent()]);
    Join([Process("t", [turn], [(0, 4)], [3.0], paper, aggregation)],
         [Facts("t", "u", SwappedTokens(), [1, 1, 1, 1], [fact])], ["u"], [SwappedTokens()], [[1, 1, 1, 1]])
  }

  /** The row joins exactly if its rewards are no paper rewards, or summed ones. */
  lemma AggregationDecides(paper: bool, aggregation: string)
    ensures Joins(OneRow(paper, aggregation)) <==> (paper ==> aggregation == "sum")
  {
    hide TurnJoins, Swapped, SwappedTokens;
    var b := OneRow(paper, aggregation);
    var p, facts := b.processes[0], b.facts[0];
    assert b.mask[0][0] == 1;
    SwappedJoins(p, facts.turns[0], p.turns[0].calls[0], p.turns[0].calls[1]);
    OneRowTurns(p, facts);
    assert JoinShaped(b) by {
      SwappedLength();
    }
    assert RowOk(b, 0) <==> SameTurns(p, facts);
  }

  lemma SwappedLength()
    ensures |SwappedTokens()| == 4
  {
  }

  lemma OneRowTurns(p: Process, facts: Facts)
    requires |facts.turns| == 1 && TurnJoins(p, 0, facts.turns[0], facts.ids, facts.mask, {})
    ensures forall k: nat :: k < |facts.turns| ==> TurnJoins(p, k, facts.turns[k], facts.ids, facts.mask, IdsBefore(facts.turns, k))
  {
    hide TurnJoins;
    assert IdsBefore(facts.turns, 0) == {};
  }
}
