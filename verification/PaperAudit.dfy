/** Two re-derivations of the hybrid advantages: the compact one-token-per-turn batch and the additive decomposition. */
module PaperAudit {
  import opened Common
  import opened GroupStats
  import opened MtGtpo
  import opened Spans
  import opened MtGtpoLaws

  // ---- the compact batch: one synthetic token per turn ----

  function Longest(rewards: seq<seq<real>>): nat {
    if rewards == [] then 0
    else
      var rest := Longest(rewards[..|rewards| - 1]);
      if rest < |rewards[|rewards| - 1]| then |rewards[|rewards| - 1]| else rest
  }

  lemma {:induction false} LongestBounds(rewards: seq<seq<real>>, i: nat)
    requires i < |rewards|
    ensures |rewards[i]| <= Longest(rewards)
  {
    var n := |rewards| - 1;
    if i < n {
      LongestBounds(rewards[..n], i);
    }
  }

  /** The longest list of rewards is one of them. */
  lemma {:induction false} LongestReached(rewards: seq<seq<real>>) returns (i: nat)
    requires rewards != []
    ensures i < |rewards| && |rewards[i]| == Longest(rewards)
  {
    var n := |rewards| - 1;
    if n == 0 || Longest(rewards[..n]) < |rewards[n]| {
      i := n;
      assert n == 0 ==> Longest(rewards[..n]) == 0;
    } else {
      i := LongestReached(rewards[..n]);
    }
  }

  function UnitSpans(count: nat): seq<Span> {
    seq(count, k requires 0 <= k < count => (k, k + 1))
  }

  function UnitRow(count: nat, length: nat): seq<int> {
    seq(length, p requires 0 <= p < length => if p < count then 1 else 0)
  }

  function CompactBatch(outcomes: seq<real>, uids: seq<string>, rewards: seq<seq<real>>): Batch {
    Batch(outcomes, uids, rewards,
          seq(|rewards|, i requires 0 <= i < |rewards| => UnitSpans(|rewards[i]|)),
          seq(|rewards|, i requires 0 <= i < |rewards| => UnitRow(|rewards[i]|, Longest(rewards))),
          Longest(rewards))
  }

  /** Fills the compact masks in place; no trajectories at all is an error (maximum of nothing). */
  method BuildCompact(outcomes: seq<real>, uids: seq<string>, rewards: seq<seq<real>>) returns (r: Result<Batch>)
    ensures r.Ok? <==> rewards != []
    ensures r.Ok? ==> r.value == CompactBatch(outcomes, uids, rewards)
  {
    if rewards == [] {
      return Rejected;
    }
    var length := Longest(rewards);
    var masks: seq<seq<int>>, spans: seq<seq<Span>> := [], [];
    for i := 0 to |rewards|
      invariant |masks| == |spans| == i
      invariant forall r :: 0 <= r < i ==> masks[r] == UnitRow(|rewards[r]|, length) && spans[r] == UnitSpans(|rewards[r]|)
    {
      LongestBounds(rewards, i);
      var row := new int[length](_ => 0);
      forall p | 0 <= p < |rewards[i]| {
        row[p] := 1;
      }
      masks := masks + [row[..]];
      spans := spans + [UnitSpans(|rewards[i]|)];
    }
    var b := Batch(outcomes, uids, rewards, spans, masks, length);
    assert b.mask == CompactBatch(outcomes, uids, rewards).mask && b.spans == CompactBatch(outcomes, uids, rewards).spans;
    r := Ok(b);
  }

  lemma UnitRowTiled(count: nat, length: nat)
    requires count <= length
    ensures BinaryRow(UnitRow(count, length)) && Tiles(UnitSpans(count), UnitRow(count, length))
    ensures Lit(UnitRow(count, length)) <==> count > 0
  {
    var spans, row := UnitSpans(count), UnitRow(count, length);
    forall p | 0 <= p < length ensures row[p] == 1 <==> Covered(spans, p) {
      if p < count {
        assert Covers(spans[p], p);
      }
    }
    if count > 0 {
      assert row[0] != 0;
    }
  }

  /** The compact batch is accepted whenever the settings and the list lengths are. */
  lemma CompactAccepted(outcomes: seq<real>, uids: seq<string>, rewards: seq<seq<real>>, s: Settings)
    ensures Rectangular(CompactBatch(outcomes, uids, rewards))
    ensures Accepts(CompactBatch(outcomes, uids, rewards), s)
      <==> ValidSettings(s) && |outcomes| == |uids| == |rewards|
    ensures TableOf(CompactBatch(outcomes, uids, rewards))
      == Table(outcomes, uids, rewards, seq(|rewards|, i requires 0 <= i < |rewards| => rewards[i] != []))
  {
    var b := CompactBatch(outcomes, uids, rewards);
    forall i | 0 <= i < |rewards|
      ensures BinaryRow(b.mask[i]) && Tiles(b.spans[i], b.mask[i])
      ensures Lit(b.mask[i]) <==> rewards[i] != []
    {
      LongestBounds(rewards, i);
      UnitRowTiled(|rewards[i]|, b.length);
    }
    assert TableOf(b).active == seq(|rewards|, i requires 0 <= i < |rewards| => rewards[i] != []);
  }

  /** Compaction keeps the whole table, the inactive rows' values included, exactly if the all-zero rows list no turns. */
  lemma CompactKeepsTable(b: Batch, s: Settings)
    requires Rectangular(b) && Accepts(b, s)
    ensures TableOf(CompactBatch(b.outcomes, b.uids, b.rewards)) == TableOf(b)
      <==> forall i :: 0 <= i < |b.mask| && !Lit(b.mask[i]) ==> b.rewards[i] == []
  {
    CompactAccepted(b.outcomes, b.uids, b.rewards, s);
    var t, u := TableOf(b), TableOf(CompactBatch(b.outcomes, b.uids, b.rewards));
    forall i | 0 <= i < |b.mask| && Lit(b.mask[i]) ensures u.active[i] {
      assert RowAccepts(b.rewards[i], b.spans[i], b.mask[i]);
    }
    if forall i :: 0 <= i < |b.mask| && !Lit(b.mask[i]) ==> b.rewards[i] == [] {
      assert u.active == t.active;
    }
    if u == t {
      forall i | 0 <= i < |b.mask| && !Lit(b.mask[i]) ensures b.rewards[i] == [] {
        assert u.active[i] == t.active[i];
      }
    }
  }

  /** The turn values of the compact batch. */
  method CompactScores(outcomes: seq<real>, uids: seq<string>, rewards: seq<seq<real>>, s: Settings) returns (r: Result<Scores>)
    ensures r.Ok? <==> rewards != [] && ValidSettings(s) && |outcomes| == |uids| == |rewards|
    ensures r.Ok? ==> var t := TableOf(CompactBatch(outcomes, uids, rewards));
      && Shaped(t) && TurnsScored(t, s, r.value.turnAdvantages, r.value.turnReturns)
      && |r.value.episode| == |rewards|
      && forall i :: 0 <= i < |rewards| ==> r.value.episode[i] == EpisodeAdvantage(t, s, i)
  {
    var compact := BuildCompact(outcomes, uids, rewards);
    if compact.Rejected? {
      return Rejected;
    }
    CompactAccepted(outcomes, uids, rewards, s);
    r := ComputeMtGtpo(compact.value, s);
  }

  // ---- additive decomposition ----

  /** One component's centred share of the group's scale. */
  function Share(values: seq<real>, raws: seq<real>, x: real, sc: Scale): real
    requires |raws| == |values| && sc.eps > 0.0
  {
    if |values| == 0 || |values| < sc.minGroupSize then 0.0
    else
      var std := Deviation(values, sc);
      if std > 0.0 then (x - Mean(raws)) / (std + sc.eps) else 0.0
  }

  lemma {:induction false} SumAdds(zs: seq<real>, xs: seq<real>, ys: seq<real>)
    requires |zs| == |xs| == |ys| && forall i :: 0 <= i < |zs| ==> zs[i] == xs[i] + ys[i]
    ensures Sum(zs) == Sum(xs) + Sum(ys)
  {
    if zs != [] {
      var n := |zs| - 1;
      SumAdds(zs[..n], xs[..n], ys[..n]);
    }
  }

  lemma QuotientAdds(x: real, y: real, d: real)
    requires d > 0.0
    ensures (x + y) / d == x / d + y / d
  {
  }

  /** Shares add up: a component that is the sum of two others receives the sum of their shares. */
  lemma ShareAdds(values: seq<real>, zs: seq<real>, xs: seq<real>, ys: seq<real>, z: real, x: real, y: real, sc: Scale)
    requires |values| == |zs| == |xs| == |ys| && sc.eps > 0.0 && z == x + y
    requires forall i :: 0 <= i < |zs| ==> zs[i] == xs[i] + ys[i]
    ensures Share(values, zs, z, sc) == Share(values, xs, x, sc) + Share(values, ys, y, sc)
  {
    hide Deviation, Sum;
    if |values| > 0 {
      SumAdds(zs, xs, ys);
      QuotientAdds(Sum(xs), Sum(ys), |values| as real);
      var d := Deviation(values, sc) + sc.eps;
      if Deviation(values, sc) > 0.0 {
        QuotientAdds(x - Mean(xs), y - Mean(ys), d);
      }
    }
  }

  /** Over its own group a component's shares cancel. */
  lemma SharesCancel(values: seq<real>, raws: seq<real>, shares: seq<real>, sc: Scale)
    requires |values| == |raws| == |shares| && sc.eps > 0.0
    requires forall a :: 0 <= a < |shares| ==> shares[a] == Share(values, raws, raws[a], sc)
    ensures Sum(shares) == 0.0
  {
    hide Deviation;
    if |values| == 0 || |values| < sc.minGroupSize || Deviation(values, sc) <= 0.0 {
      SumConstant(shares, 0.0);
    } else {
      SumDivide(Centred(raws), shares, Deviation(values, sc) + sc.eps);
      CentredSum(raws);
    }
  }

  datatype Component = DuplicateImmediate | OtherImmediate | FutureProcess | TerminalOutcome

  datatype CallEvent = CallEvent(reward: real, duplicate: bool)

  function DuplicateSum(calls: seq<CallEvent>): real {
    if calls == [] then 0.0
    else DuplicateSum(calls[..|calls| - 1]) + if calls[|calls| - 1].duplicate then calls[|calls| - 1].reward else 0.0
  }

  function DuplicateReward(calls: seq<CallEvent>, meanAggregation: bool): real {
    if meanAggregation then DuplicateSum(calls) / (if |calls| > 1 then |calls| else 1) as real else DuplicateSum(calls)
  }

  /** The inputs of the audit: one list of call events per turn. */
  datatype Audit = Audit(outcomes: seq<real>, uids: seq<string>, rewards: seq<seq<real>>,
                         calls: seq<seq<seq<CallEvent>>>, meanAggregation: seq<bool>)

  /** One process per row. */
  predicate Processes(a: Audit) {
    |a.rewards| == |a.calls| == |a.meanAggregation|
  }

  /** Lists of one length, and no turn record without a turn reward. */
  predicate AuditShaped(a: Audit) {
    && |a.outcomes| == |a.uids| == |a.rewards| == |a.calls| == |a.meanAggregation|
    && forall i :: 0 <= i < |a.rewards| ==> |a.calls[i]| <= |a.rewards[i]|
  }

  /** Every turn has its record. */
  predicate AllRecorded(a: Audit) {
    AuditShaped(a) && forall i :: 0 <= i < |a.rewards| ==> |a.calls[i]| == |a.rewards[i]|
  }

  function AuditTable(a: Audit): (t: Table)
    requires AuditShaped(a)
    ensures Shaped(t)
  {
    Table(a.outcomes, a.uids, a.rewards, seq(|a.rewards|, i requires 0 <= i < |a.rewards| => a.rewards[i] != []))
  }

  /** The table of the turns that have a record. */
  function Recorded(a: Audit): (t: Table)
    requires AuditShaped(a)
    ensures Shaped(t) && |t.uids| == |a.rewards|
    ensures forall i :: 0 <= i < |a.rewards| ==> |t.rewards[i]| == |a.calls[i]|
  {
    Table(a.outcomes, a.uids, seq(|a.rewards|, i requires 0 <= i < |a.rewards| => a.rewards[i][..|a.calls[i]|]),
          seq(|a.rewards|, i requires 0 <= i < |a.rewards| => a.calls[i] != []))
  }

  /** The returns of the recorded turns, as the estimator computed them. */
  function RecordedReturns(a: Audit, s: Settings): (all: seq<seq<real>>)
    requires AuditShaped(a)
    ensures Fits(Recorded(a), all)
  {
    seq(|a.rewards|, i requires 0 <= i < |a.rewards| =>
      seq(|a.calls[i]|, k requires 0 <= k < |a.calls[i]| => TurnReturn(AuditTable(a), s, i, k)))
  }

  function Raw(a: Audit, s: Settings, c: Component, i: nat, k: nat): real
    requires AuditShaped(a) && i < |a.rewards| && k < |a.calls[i]|
  {
    var duplicate := DuplicateReward(a.calls[i][k], a.meanAggregation[i]);
    var terminal := Terminal(s.gamma, |a.rewards[i]| - k, a.outcomes[i]);
    match c
    case DuplicateImmediate => duplicate
    case OtherImmediate => a.rewards[i][k] - duplicate
    case FutureProcess => TurnReturn(AuditTable(a), s, i, k) - a.rewards[i][k] - terminal
    case TerminalOutcome => terminal
  }

  function Raws(a: Audit, s: Settings, c: Component): (all: seq<seq<real>>)
    requires AuditShaped(a)
    ensures Fits(Recorded(a), all)
  {
    seq(|a.rewards|, i requires 0 <= i < |a.rewards| =>
      seq(|a.calls[i]|, k requires 0 <= k < |a.calls[i]| => Raw(a, s, c, i, k)))
  }

  /** The returns of the recorded turns of one (uid, turn) group. */
  function GroupReturns(a: Audit, s: Settings, uid: string, k: nat): seq<real>
    requires AuditShaped(a)
  {
    Pick(Recorded(a), RecordedReturns(a, s), Peers(Recorded(a), uid, k), k)
  }

  function PeerRaws(a: Audit, s: Settings, c: Component, uid: string, k: nat): seq<real>
    requires AuditShaped(a)
  {
    Pick(Recorded(a), Raws(a, s, c), Peers(Recorded(a), uid, k), k)
  }

  /** The part of turn `k`'s advantage that component `c` accounts for. */
  function Part(a: Audit, s: Settings, c: Component, i: nat, k: nat): real
    requires AuditShaped(a) && ValidSettings(s) && i < |a.rewards| && k < |a.calls[i]|
  {
    Share(GroupReturns(a, s, a.uids[i], k), PeerRaws(a, s, c, a.uids[i], k), Raw(a, s, c, i, k), s.scale)
  }

  /** Turn `k`'s return, normalised over the recorded turns of its group. */
  function RecordedTerm(a: Audit, s: Settings, i: nat, k: nat): real
    requires AuditShaped(a) && ValidSettings(s) && i < |a.rewards| && k < |a.calls[i]|
  {
    Scaled(GroupReturns(a, s, a.uids[i], k), TurnReturn(AuditTable(a), s, i, k), s.scale)
  }

  /** Each peer's return is the sum of its four raw components. */
  lemma PeerSplit(a: Audit, s: Settings, uid: string, k: nat, x: nat)
    requires AuditShaped(a) && x < |GroupReturns(a, s, uid, k)|
    ensures GroupReturns(a, s, uid, k)[x]
         == PeerRaws(a, s, DuplicateImmediate, uid, k)[x] + PeerRaws(a, s, OtherImmediate, uid, k)[x]
          + (PeerRaws(a, s, FutureProcess, uid, k)[x] + PeerRaws(a, s, TerminalOutcome, uid, k)[x])
  {
    hide Terminal, DuplicateReward, Return, Cohort;
  }

  /** The four components of one turn together. */
  function PartSum(a: Audit, s: Settings, i: nat, k: nat): real
    requires AuditShaped(a) && ValidSettings(s) && i < |a.rewards| && k < |a.calls[i]|
  {
    Part(a, s, DuplicateImmediate, i, k) + Part(a, s, OtherImmediate, i, k) + Part(a, s, FutureProcess, i, k)
    + Part(a, s, TerminalOutcome, i, k)
  }

  /** The four centred components add up to the return as normalised over the recorded turns, degenerate groups included. */
  lemma PartsAddUp(a: Audit, s: Settings, i: nat, k: nat)
    requires AuditShaped(a) && ValidSettings(s) && i < |a.rewards| && k < |a.calls[i]|
    ensures PartSum(a, s, i, k) == RecordedTerm(a, s, i, k)
  {
    hide Deviation, Mean, Scaled, Terminal, DuplicateReward, EpisodeAdvantage, Share, Return, Cohort;
    var t, uid := AuditTable(a), a.uids[i];
    var values := GroupReturns(a, s, uid, k);
    var n := |values|;
    var dup, other := PeerRaws(a, s, DuplicateImmediate, uid, k), PeerRaws(a, s, OtherImmediate, uid, k);
    var future, terminal := PeerRaws(a, s, FutureProcess, uid, k), PeerRaws(a, s, TerminalOutcome, uid, k);
    var now := seq(n, x requires 0 <= x < n => dup[x] + other[x]);
    var later := seq(n, x requires 0 <= x < n => future[x] + terminal[x]);
    var immediate, beyond := a.rewards[i][k], TurnReturn(t, s, i, k) - a.rewards[i][k];
    ShareAdds(values, now, dup, other, immediate,
              Raw(a, s, DuplicateImmediate, i, k), Raw(a, s, OtherImmediate, i, k), s.scale);
    ShareAdds(values, later, future, terminal, beyond,
              Raw(a, s, FutureProcess, i, k), Raw(a, s, TerminalOutcome, i, k), s.scale);
    forall x | 0 <= x < n ensures values[x] == now[x] + later[x] {
      PeerSplit(a, s, uid, k, x);
    }
    ShareAdds(values, values, now, later, TurnReturn(t, s, i, k), immediate, beyond, s.scale);
    ShareIsScaled(values, TurnReturn(t, s, i, k), s.scale);
  }

  /** With every turn recorded the groups are the estimator's. */
  lemma AllRecordedTerm(a: Audit, s: Settings, i: nat, k: nat)
    requires AllRecorded(a) && ValidSettings(s) && i < |a.rewards| && k < |a.calls[i]|
    ensures RecordedTerm(a, s, i, k) == TurnTerm(AuditTable(a), s, i, k)
  {
    hide Scaled, Return, Cohort;
    assert Recorded(a) == AuditTable(a) by {
      forall j | 0 <= j < |a.rewards| ensures a.rewards[j][..|a.calls[j]|] == a.rewards[j] {
      }
      assert Recorded(a).rewards == a.rewards;
      assert Recorded(a).active == AuditTable(a).active;
    }
    assert RecordedReturns(a, s) == AllReturns(AuditTable(a), s);
  }

  /** The four centred components and the episode term rebuild the hybrid advantage, degenerate groups included. */
  lemma Reconstructs(a: Audit, s: Settings, i: nat, k: nat)
    requires AllRecorded(a) && ValidSettings(s) && i < |a.rewards| && k < |a.calls[i]|
    ensures PartSum(a, s, i, k) + s.lambdaOutcome * EpisodeAdvantage(AuditTable(a), s, i)
         == TurnAdvantage(AuditTable(a), s, i, k)
  {
    hide TurnTerm, EpisodeAdvantage, RecordedTerm, PartSum;
    PartsAddUp(a, s, i, k);
    AllRecordedTerm(a, s, i, k);
  }

  lemma ShareIsScaled(values: seq<real>, x: real, sc: Scale)
    requires sc.eps > 0.0
    ensures Share(values, values, x, sc) == Scaled(values, x, sc)
  {
  }

  function PeerParts(a: Audit, s: Settings, c: Component, uid: string, k: nat): seq<real>
    requires AuditShaped(a) && ValidSettings(s)
  {
    var peers := Peers(Recorded(a), uid, k);
    seq(|peers|, x requires 0 <= x < |peers| => Part(a, s, c, peers[x], k))
  }

  /** Each component sums to zero over its (uid, turn) group. */
  lemma ComponentsCancel(a: Audit, s: Settings, c: Component, uid: string, k: nat)
    requires AuditShaped(a) && ValidSettings(s)
    ensures Sum(PeerParts(a, s, c, uid, k)) == 0.0
  {
    hide Share, Raw, Return, Cohort;
    SharesCancel(GroupReturns(a, s, uid, k), PeerRaws(a, s, c, uid, k), PeerParts(a, s, c, uid, k), s.scale);
  }

  /** `future_process` is the discounted sum of the later rewards of the trajectory, and of nothing else. */
  lemma FutureIsLaterRewards(a: Audit, s: Settings, i: nat, k: nat)
    requires AuditShaped(a) && i < |a.rewards| && k < |a.calls[i]|
    ensures Raw(a, s, FutureProcess, i, k) == s.gamma * Discounted(a.rewards[i], s.gamma, k + 1)
  {
    ReturnClosedForm(a.rewards[i], a.outcomes[i], s.gamma, k);
    DiscountedStep(a.rewards[i], s.gamma, k);
  }

  // ---- the audit as it runs ----

  datatype Parts = Parts(duplicate: real, other: real, future: real, terminal: real)

  datatype CreditRow = CreditRow(row: nat, turn: nat, ret: real, reward: real, raw: Parts, advantage: real, episode: real, parts: Parts)

  /** Centred shares of one component over all groups of the flat record list. */
  method ComponentParts(values: seq<real>, raws: seq<real>, keys: seq<(string, nat)>, order: seq<(string, nat)>,
                        groups: map<(string, nat), seq<nat>>, sc: Scale) returns (parts: seq<real>)
    requires |values| == |raws| == |keys| && sc.eps > 0.0 && Distinct(order)
    requires forall key :: key in order <==> key in keys
    requires forall key :: key in keys ==> key in groups && groups[key] == Members(keys, key)
    ensures |parts| == |keys|
    ensures forall q :: 0 <= q < |keys| ==>
      |Select(raws, keys, keys[q])| == |Select(values, keys, keys[q])| &&
      parts[q] == Share(Select(values, keys, keys[q]), Select(raws, keys, keys[q]), raws[q], sc)
  {
    hide Share;
    var buffer := new real[|keys|](_ => 0.0);
    forall key ensures |Select(raws, keys, key)| == |Select(values, keys, key)| {
      SelectSizes(raws, values, keys, key);
    }
    for o := 0 to |order|
      invariant forall q :: 0 <= q < |keys| && keys[q] in order[..o] ==>
        buffer[q] == Share(Select(values, keys, keys[q]), Select(raws, keys, keys[q]), raws[q], sc)
    {
      var key := order[o];
      TakeSnoc(order, o);
      ShareGroup(values, raws, keys, key, groups[key], sc, buffer);
    }
    assert order[..|order|] == order;
    parts := buffer[..];
  }

  method ShareGroup(values: seq<real>, raws: seq<real>, keys: seq<(string, nat)>, key: (string, nat), indices: seq<nat>,
                    sc: Scale, buffer: array<real>)
    requires |values| == |raws| == |keys| == buffer.Length && sc.eps > 0.0
    requires indices == Members(keys, key) && |Select(raws, keys, key)| == |Select(values, keys, key)|
    modifies buffer
    ensures forall q :: 0 <= q < |keys| && keys[q] == key ==>
      buffer[q] == Share(Select(values, keys, key), Select(raws, keys, key), raws[q], sc)
    ensures forall q :: 0 <= q < |keys| && keys[q] != key ==> buffer[q] == old(buffer[q])
  {
    hide Share;
    MembersSound(keys, key);
    GatherMembers(values, keys, key);
    GatherMembers(raws, keys, key);
    var groupValues, groupRaws := Gather(values, indices), Gather(raws, indices);
    forall j | 0 <= j < |indices| {
      buffer[indices[j]] := Share(groupValues, groupRaws, raws[indices[j]], sc);
    }
    forall q | 0 <= q < |keys| && keys[q] == key ensures buffer[q] == Share(groupValues, groupRaws, raws[q], sc) {
      MembersComplete(keys, q);
    }
  }

  lemma {:induction false} SelectSizes(xs: seq<real>, ys: seq<real>, keys: seq<(string, nat)>, key: (string, nat))
    requires |xs| == |ys| == |keys|
    ensures |Select(xs, keys, key)| == |Select(ys, keys, key)|
  {
    if keys != [] {
      SelectSizes(xs[..|keys| - 1], ys[..|keys| - 1], keys[..|keys| - 1], key);
    }
  }

  ghost predicate Explains(a: Audit, s: Settings, row: CreditRow)
    requires AuditShaped(a) && ValidSettings(s)
  {
    && row.row < |a.rewards| && row.turn < |a.calls[row.row]|
    && row.ret == TurnReturn(AuditTable(a), s, row.row, row.turn)
    && row.advantage == TurnAdvantage(AuditTable(a), s, row.row, row.turn)
    && row.episode == s.lambdaOutcome * EpisodeAdvantage(AuditTable(a), s, row.row)
    && row.reward == a.rewards[row.row][row.turn] && row.raw == RawParts(a, s, row.row, row.turn)
    && row.parts == PartsOf(a, s, row.row, row.turn)
  }

  function PartsOf(a: Audit, s: Settings, i: nat, k: nat): Parts
    requires AuditShaped(a) && ValidSettings(s) && i < |a.rewards| && k < |a.calls[i]|
  {
    Parts(Part(a, s, DuplicateImmediate, i, k), Part(a, s, OtherImmediate, i, k),
          Part(a, s, FutureProcess, i, k), Part(a, s, TerminalOutcome, i, k))
  }

  function RawParts(a: Audit, s: Settings, i: nat, k: nat): Parts
    requires AuditShaped(a) && i < |a.rewards| && k < |a.calls[i]|
  {
    Parts(Raw(a, s, DuplicateImmediate, i, k), Raw(a, s, OtherImmediate, i, k),
          Raw(a, s, FutureProcess, i, k), Raw(a, s, TerminalOutcome, i, k))
  }

  function Total(row: CreditRow): real {
    row.parts.duplicate + row.parts.other + row.parts.future + row.parts.terminal + row.episode
  }

  lemma PartsOfComponent(a: Audit, s: Settings, c: Component, positions: seq<(nat, nat)>, parts: seq<real>)
    requires AuditShaped(a) && ValidSettings(s) && positions == Flat(Recorded(a), Active(Recorded(a)))
    requires var t := Recorded(a);
      var values, raws, keys := Lookup(t, RecordedReturns(a, s), positions), Lookup(t, Raws(a, s, c), positions), FlatKeys(t, positions);
      |parts| == |keys| && forall q :: 0 <= q < |keys| ==>
        |Select(raws, keys, keys[q])| == |Select(values, keys, keys[q])| &&
        parts[q] == Share(Select(values, keys, keys[q]), Select(raws, keys, keys[q]), raws[q], s.scale)
    ensures forall q :: 0 <= q < |positions| ==> parts[q] == Part(a, s, c, positions[q].0, positions[q].1)
  {
    hide Share, Raw, Return, Cohort;
    var t := Recorded(a);
    forall q | 0 <= q < |positions| ensures parts[q] == Part(a, s, c, positions[q].0, positions[q].1) {
      FiledCohort(t, RecordedReturns(a, s), Active(t), t.uids[positions[q].0], positions[q].1);
      FiledCohort(t, Raws(a, s, c), Active(t), t.uids[positions[q].0], positions[q].1);
    }
  }

  method MakeRecord(a: Audit, s: Settings, o: Scores, i: nat, k: nat, parts: Parts) returns (record: CreditRow)
    requires AuditShaped(a) && ValidSettings(s) && i < |a.rewards| && k < |a.calls[i]|
    requires TurnsScored(AuditTable(a), s, o.turnAdvantages, o.turnReturns)
    requires |o.episode| == |a.rewards| && o.episode[i] == EpisodeAdvantage(AuditTable(a), s, i)
    requires parts == PartsOf(a, s, i, k)
    ensures record.row == i && record.turn == k && Explains(a, s, record)
    ensures Total(record) == record.advantage <==> Reproduces(a, s, i, k)
  {
    hide Part, EpisodeAdvantage, TurnTerm, RecordedTerm, Return;
    assert AuditTable(a).active[i];
    assert o.turnAdvantages[i] == AllAdvantages(AuditTable(a), s)[i] && o.turnReturns[i] == AllReturns(AuditTable(a), s)[i];
    record := CreditRow(i, k, o.turnReturns[i][k], a.rewards[i][k], RawParts(a, s, i, k), o.turnAdvantages[i][k], s.lambdaOutcome * o.episode[i], parts);
    PartsAddUp(a, s, i, k);
  }

  /** Leaving out the turns without a record does not change the normalised return. */
  predicate Reproduces(a: Audit, s: Settings, i: nat, k: nat)
    requires AuditShaped(a) && ValidSettings(s) && i < |a.rewards| && k < |a.calls[i]|
  {
    RecordedTerm(a, s, i, k) == TurnTerm(AuditTable(a), s, i, k)
  }

  ghost predicate AllReproduce(a: Audit, s: Settings, positions: seq<(nat, nat)>)
    requires AuditShaped(a) && ValidSettings(s)
  {
    forall q :: 0 <= q < |positions| ==>
      positions[q].0 < |a.rewards| && positions[q].1 < |a.calls[positions[q].0]| && Reproduces(a, s, positions[q].0, positions[q].1)
  }

  /**
   * The audit raises on a turn record without a reward, and on a turn whose normalised return depends on turns without
   * a record; otherwise every recorded turn is explained.
   */
  method Decompose(a: Audit, s: Settings) returns (r: Result<seq<CreditRow>>)
    requires Processes(a)
    ensures r.Ok?
      <==> (a.rewards != [] && ValidSettings(s) && AuditShaped(a)
            && forall i, k :: 0 <= i < |a.rewards| && 0 <= k < |a.calls[i]| ==> Reproduces(a, s, i, k))
    ensures r.Ok? ==> var positions := Flat(Recorded(a), Active(Recorded(a)));
      |r.value| == |positions| && Explained(a, s, positions, r.value)
    ensures AllRecorded(a) ==> (r.Ok? <==> a.rewards != [] && ValidSettings(s))
  {
    hide Share, Raw, Return, Cohort, Part, EpisodeAdvantage, TurnTerm, TurnsScored, Explained, RecordedTerm, Reproduces;
    var scores := CompactScores(a.outcomes, a.uids, a.rewards, s);
    if scores.Rejected? || exists i :: 0 <= i < |a.rewards| && |a.calls[i]| > |a.rewards[i]| {
      return Rejected;
    }
    CompactAccepted(a.outcomes, a.uids, a.rewards, s);
    assert AuditTable(a) == TableOf(CompactBatch(a.outcomes, a.uids, a.rewards));
    var t := Recorded(a);
    var positions := Flat(t, Active(t));
    var keys := FlatKeys(t, positions);
    var order, groups := GroupPositions(keys);
    var dup := PartsFor(a, s, DuplicateImmediate, positions, keys, order, groups);
    var other := PartsFor(a, s, OtherImmediate, positions, keys, order, groups);
    var future := PartsFor(a, s, FutureProcess, positions, keys, order, groups);
    var terminal := PartsFor(a, s, TerminalOutcome, positions, keys, order, groups);
    r := ExplainAll(a, s, scores.value, positions, dup, other, future, terminal);
    AllPositions(a, s, positions);
    RecordedReproduce(a, s);
  }

  /** The flat record list holds exactly the recorded turns. */
  lemma AllPositions(a: Audit, s: Settings, positions: seq<(nat, nat)>)
    requires AuditShaped(a) && ValidSettings(s) && positions == Flat(Recorded(a), Active(Recorded(a)))
    ensures AllReproduce(a, s, positions) <==>
      forall i, k :: 0 <= i < |a.rewards| && 0 <= k < |a.calls[i]| ==> Reproduces(a, s, i, k)
  {
    hide Reproduces;
    var t := Recorded(a);
    if AllReproduce(a, s, positions) {
      forall i, k | 0 <= i < |a.rewards| && 0 <= k < |a.calls[i]| ensures Reproduces(a, s, i, k) {
        assert t.active[i];
        ActiveComplete(t.active, |t.active|, i);
        FlatHas(t, Active(t), i, k);
        var q :| 0 <= q < |positions| && positions[q] == (i, k);
      }
    }
  }

  lemma {:induction false} FlatHas(t: Table, rows: seq<nat>, i: nat, k: nat)
    requires Rows(t, rows) && i in rows && k < |t.rewards[i]|
    ensures (i, k) in Flat(t, rows)
  {
    var n := |rows| - 1;
    if rows[n] == i {
      assert RowPositions(i, |t.rewards[i]|)[k] == (i, k);
    } else {
      assert i in rows[..n];
      FlatHas(t, rows[..n], i, k);
    }
  }

  /** With every turn recorded the audit's own check never fires. */
  lemma RecordedReproduce(a: Audit, s: Settings)
    requires ValidSettings(s)
    ensures AllRecorded(a) ==>
      forall i, k :: 0 <= i < |a.rewards| && 0 <= k < |a.calls[i]| ==> Reproduces(a, s, i, k)
  {
    hide RecordedTerm, TurnTerm;
    if AllRecorded(a) {
      forall i, k | 0 <= i < |a.rewards| && 0 <= k < |a.calls[i]| ensures Reproduces(a, s, i, k) {
        AllRecordedTerm(a, s, i, k);
      }
    }
  }

  ghost predicate Explained(a: Audit, s: Settings, positions: seq<(nat, nat)>, records: seq<CreditRow>)
    requires AuditShaped(a) && ValidSettings(s)
  {
    && |records| <= |positions|
    && forall q :: 0 <= q < |records| ==>
      && (records[q].row, records[q].turn) == positions[q] && Explains(a, s, records[q])
      && Total(records[q]) == records[q].advantage
  }

  /** Builds the records and raises if one of them does not add up to its advantage. */
  method ExplainAll(a: Audit, s: Settings, o: Scores, positions: seq<(nat, nat)>, dup: seq<real>, other: seq<real>,
                    future: seq<real>, terminal: seq<real>) returns (r: Result<seq<CreditRow>>)
    requires AuditShaped(a) && ValidSettings(s) && positions == Flat(Recorded(a), Active(Recorded(a)))
    requires TurnsScored(AuditTable(a), s, o.turnAdvantages, o.turnReturns) && |o.episode| == |a.rewards|
    requires forall i :: 0 <= i < |a.rewards| ==> o.episode[i] == EpisodeAdvantage(AuditTable(a), s, i)
    requires |dup| == |other| == |future| == |terminal| == |positions|
    requires forall q :: 0 <= q < |positions| ==>
      Parts(dup[q], other[q], future[q], terminal[q]) == PartsOf(a, s, positions[q].0, positions[q].1)
    ensures r.Ok? <==> AllReproduce(a, s, positions)
    ensures r.Ok? ==> |r.value| == |positions| && Explained(a, s, positions, r.value)
  {
    hide PartsOf, EpisodeAdvantage, TurnsScored, Explains, Reproduces;
    var records: seq<CreditRow> := [];
    for q := 0 to |positions|
      invariant |records| == q && Explained(a, s, positions, records)
      invariant forall x :: 0 <= x < q ==> Reproduces(a, s, positions[x].0, positions[x].1)
    {
      var (i, k) := positions[q];
      var record := MakeRecord(a, s, o, i, k, Parts(dup[q], other[q], future[q], terminal[q]));
      if Total(record) - record.advantage != 0.0 {
        return Rejected;
      }
      records := records + [record];
    }
    r := Ok(records);
  }

  method PartsFor(a: Audit, s: Settings, c: Component, positions: seq<(nat, nat)>, keys: seq<(string, nat)>,
                  order: seq<(string, nat)>, groups: map<(string, nat), seq<nat>>) returns (parts: seq<real>)
    requires AuditShaped(a) && ValidSettings(s) && positions == Flat(Recorded(a), Active(Recorded(a)))
    requires keys == FlatKeys(Recorded(a), positions) && Distinct(order)
    requires forall key :: key in order <==> key in keys
    requires forall key :: key in keys ==> key in groups && groups[key] == Members(keys, key)
    ensures |parts| == |positions|
    ensures forall q :: 0 <= q < |positions| ==> parts[q] == Part(a, s, c, positions[q].0, positions[q].1)
  {
    hide Share, Raw, Return, Cohort;
    var t := Recorded(a);
    parts := ComponentParts(Lookup(t, RecordedReturns(a, s), positions), Lookup(t, Raws(a, s, c), positions), keys, order, groups, s.scale);
    PartsOfComponent(a, s, c, positions, parts);
  }
}
