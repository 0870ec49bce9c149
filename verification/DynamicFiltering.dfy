/** Dropping groups without signal: by terminal reward before the update, or by advantage after it. */
module DynamicFiltering {
  import opened Common
  import opened GroupStats
  import opened TauGigpo

  const TOLERANCE := 0.000000001

  datatype Kind = AllZero | AllOne | Informative | Incomplete

  function Classify(values: seq<real>, expectedSize: int, maxReward: real): Kind {
    if values == [] then Incomplete
    else if expectedSize > 0 && |values| != expectedSize then Incomplete
    else if forall k :: 0 <= k < |values| ==> values[k] <= 0.0 then AllZero
    else if forall k :: 0 <= k < |values| ==> values[k] >= maxReward - TOLERANCE then AllOne
    else if forall j, k :: 0 <= j < |values| && 0 <= k < |values| ==> values[j] - values[k] <= TOLERANCE then AllOne
    else Informative
  }

  /** When a group is of each kind. */
  lemma KindMeans(values: seq<real>, expectedSize: int, maxReward: real)
    ensures var short := values == [] || (expectedSize > 0 && |values| != expectedSize);
      var positive := exists k :: 0 <= k < |values| && values[k] > 0.0;
      var below := exists k :: 0 <= k < |values| && values[k] < maxReward - TOLERANCE;
      var apart := exists j, k :: 0 <= j < |values| && 0 <= k < |values| && values[j] - values[k] > TOLERANCE;
      match Classify(values, expectedSize, maxReward)
      case Incomplete => short
      case AllZero => !short && !positive
      case AllOne => !short && positive && !(below && apart)
      case Informative => !short && positive && below && apart
  {
  }

  // ---- the fixed-rollout filter ----

  datatype Verdict = Verdict(uid: string, kind: Kind, rewards: seq<real>, indices: seq<nat>)
  /** How many verdicts are of this kind. */
  function CountKind(verdicts: seq<Verdict>, kind: Kind): nat {
    if verdicts == [] then 0
    else CountKind(verdicts[..|verdicts| - 1], kind) + if verdicts[|verdicts| - 1].kind == kind then 1 else 0
  }

  datatype Stats = Stats(candidate: nat, effective: nat, allZero: nat, allOne: nat, incomplete: nat)

  function KindOf(rewards: seq<real>, uids: seq<string>, groupSize: int, maxReward: real, uid: string): Kind
    requires |rewards| == |uids|
  {
    Classify(Select(rewards, uids, uid), groupSize, maxReward)
  }

  /** The statistics count the verdicts of each kind. */
  ghost predicate Tally(stats: Stats, verdicts: seq<Verdict>) {
    && stats.candidate == |verdicts| == stats.effective + stats.allZero + stats.allOne + stats.incomplete
    && stats.effective == CountKind(verdicts, Informative) && stats.allZero == CountKind(verdicts, AllZero)
    && stats.allOne == CountKind(verdicts, AllOne) && stats.incomplete == CountKind(verdicts, Incomplete)
  }

  method CountVerdict(stats: Stats, ghost verdicts: seq<Verdict>, verdict: Verdict) returns (more: Stats)
    requires Tally(stats, verdicts)
    ensures Tally(more, verdicts + [verdict])
  {
    assert (verdicts + [verdict])[..|verdicts|] == verdicts;
    more := stats.(candidate := stats.candidate + 1);
    match verdict.kind {
      case Informative => more := more.(effective := more.effective + 1);
      case AllZero => more := more.(allZero := more.allZero + 1);
      case AllOne => more := more.(allOne := more.allOne + 1);
      case Incomplete => more := more.(incomplete := more.incomplete + 1);
    }
  }

  lemma NoVerdicts()
    ensures Tally(Stats(0, 0, 0, 0, 0), [])
  {
  }

  ghost predicate Judged(v: Verdict, rewards: seq<real>, uids: seq<string>, groupSize: int, maxReward: real)
    requires |rewards| == |uids|
  {
    && v.uid in uids && v.indices == Members(uids, v.uid) && v.rewards == Select(rewards, uids, v.uid)
    && v.kind == KindOf(rewards, uids, groupSize, maxReward, v.uid)
  }

  method JudgeGroup(rewards: seq<real>, uids: seq<string>, groupSize: int, maxReward: real, uid: string, indices: seq<nat>)
    returns (verdict: Verdict)
    requires |rewards| == |uids| && uid in uids && indices == Members(uids, uid)
    ensures verdict.uid == uid && Judged(verdict, rewards, uids, groupSize, maxReward)
  {
    MembersSound(uids, uid);
    GatherMembers(rewards, uids, uid);
    var values := Gather(rewards, indices);
    verdict := Verdict(uid, Classify(values, groupSize, maxReward), values, indices);
  }

  /** One verdict for each of the first `n` keys. */
  ghost predicate JudgedBelow(verdicts: seq<Verdict>, order: seq<string>, n: nat, rewards: seq<real>, uids: seq<string>,
                              groupSize: int, maxReward: real)
    requires |rewards| == |uids| && n <= |order|
  {
    |verdicts| == n && forall k :: 0 <= k < n ==> verdicts[k].uid == order[k] && Judged(verdicts[k], rewards, uids, groupSize, maxReward)
  }

  /** One verdict for each uid, no uid twice. */
  ghost predicate AllJudged(verdicts: seq<Verdict>, rewards: seq<real>, uids: seq<string>, groupSize: int, maxReward: real)
    requires |rewards| == |uids|
  {
    && (forall v :: v in verdicts ==> Judged(v, rewards, uids, groupSize, maxReward))
    && (forall uid :: uid in uids ==> exists k :: 0 <= k < |verdicts| && verdicts[k].uid == uid)
    && (forall j, k :: 0 <= j < k < |verdicts| ==> verdicts[j].uid != verdicts[k].uid)
  }

  lemma NoneJudged(order: seq<string>, rewards: seq<real>, uids: seq<string>, groupSize: int, maxReward: real)
    requires |rewards| == |uids|
    ensures JudgedBelow([], order, 0, rewards, uids, groupSize, maxReward)
  {
  }

  lemma JudgedSnoc(verdicts: seq<Verdict>, order: seq<string>, n: nat, rewards: seq<real>, uids: seq<string>, groupSize: int,
                   maxReward: real, verdict: Verdict)
    requires |rewards| == |uids| && n < |order| && JudgedBelow(verdicts, order, n, rewards, uids, groupSize, maxReward)
    requires verdict.uid == order[n] && Judged(verdict, rewards, uids, groupSize, maxReward)
    ensures JudgedBelow(verdicts + [verdict], order, n + 1, rewards, uids, groupSize, maxReward)
  {
    hide Judged;
  }

  lemma JudgedEnd(verdicts: seq<Verdict>, order: seq<string>, rewards: seq<real>, uids: seq<string>, groupSize: int, maxReward: real)
    requires |rewards| == |uids| && JudgedBelow(verdicts, order, |order|, rewards, uids, groupSize, maxReward)
    requires Distinct(order) && forall key :: key in order <==> key in uids
    ensures AllJudged(verdicts, rewards, uids, groupSize, maxReward)
  {
    hide Judged;
    forall uid | uid in uids ensures exists k :: 0 <= k < |verdicts| && verdicts[k].uid == uid {
      var k :| 0 <= k < |order| && order[k] == uid;
      assert verdicts[k].uid == uid;
    }
  }

  method EvaluateGroups(rewards: seq<real>, uids: seq<string>, groupSize: int, maxReward: real)
    returns (r: Result<(seq<Verdict>, Stats)>)
    ensures r.Ok? <==> |rewards| == |uids|
    ensures r.Ok? ==> AllJudged(r.value.0, rewards, uids, groupSize, maxReward) && Tally(r.value.1, r.value.0)
  {
    if |rewards| != |uids| {
      return Rejected;
    }
    var order, verdicts, stats := JudgeAll(rewards, uids, groupSize, maxReward);
    JudgedEnd(verdicts, order, rewards, uids, groupSize, maxReward);
    r := Ok((verdicts, stats));
  }

  method JudgeAll(rewards: seq<real>, uids: seq<string>, groupSize: int, maxReward: real)
    returns (order: seq<string>, verdicts: seq<Verdict>, stats: Stats)
    requires |rewards| == |uids|
    ensures JudgedBelow(verdicts, order, |order|, rewards, uids, groupSize, maxReward) && Tally(stats, verdicts)
    ensures Distinct(order) && forall key :: key in order <==> key in uids
  {
    hide Tally, Judged, JudgedBelow;
    var groups;
    order, groups := GroupPositions(uids);
    NoVerdicts();
    NoneJudged(order, rewards, uids, groupSize, maxReward);
    verdicts, stats := [], Stats(0, 0, 0, 0, 0);
    for o := 0 to |order|
      invariant JudgedBelow(verdicts, order, o, rewards, uids, groupSize, maxReward) && Tally(stats, verdicts)
    {
      var uid := order[o];
      var verdict := JudgeGroup(rewards, uids, groupSize, maxReward, uid, groups[uid]);
      stats := CountVerdict(stats, verdicts, verdict);
      JudgedSnoc(verdicts, order, o, rewards, uids, groupSize, maxReward, verdict);
      verdicts := verdicts + [verdict];
    }
  }

  /** A matrix of the given width. */
  ghost predicate Matrix<T>(rows: seq<seq<T>>, width: nat) {
    forall i :: 0 <= i < |rows| ==> |rows[i]| == width
  }

  method ApplyDynamicFilter(mask: seq<seq<int>>, width: nat, rewards: seq<real>, uids: seq<string>, groupSize: int, maxReward: real)
    returns (r: Result<array2<int>>)
    requires Matrix(mask, width)
    ensures r.Ok? <==> |mask| == |rewards| == |uids|
    ensures r.Ok? ==> fresh(r.value) && r.value.Length0 == |mask| && r.value.Length1 == width
    ensures r.Ok? ==> forall i, t :: 0 <= i < |mask| && 0 <= t < width ==>
      r.value[i, t] == if KindOf(rewards, uids, groupSize, maxReward, uids[i]) == Informative then mask[i][t] else 0
  {
    if |mask| != |rewards| {
      return Rejected;
    }
    var judged := EvaluateGroups(rewards, uids, groupSize, maxReward);
    if judged.Rejected? {
      return Rejected;
    }
    hide Classify;
    var verdicts := judged.value.0;
    var filtered := new int[|mask|, width]((i, t) requires 0 <= i < |mask| && 0 <= t < width && Matrix(mask, width) => mask[i][t]);
    for k := 0 to |verdicts|
      invariant forall i, t :: 0 <= i < |mask| && 0 <= t < width ==>
        filtered[i, t] == if exists q :: 0 <= q < k && verdicts[q].uid == uids[i] && verdicts[q].kind != Informative then 0 else mask[i][t]
    {
      assert Judged(verdicts[k], rewards, uids, groupSize, maxReward);
      if verdicts[k].kind != Informative {
        ZeroRows(filtered, verdicts[k].indices, uids, verdicts[k].uid);
      }
    }
    forall i | 0 <= i < |mask|
      ensures (exists q :: 0 <= q < |verdicts| && verdicts[q].uid == uids[i] && verdicts[q].kind != Informative)
         <==> KindOf(rewards, uids, groupSize, maxReward, uids[i]) != Informative
    {
      assert uids[i] in uids;
      var q :| 0 <= q < |verdicts| && verdicts[q].uid == uids[i];
      assert Judged(verdicts[q], rewards, uids, groupSize, maxReward);
    }
    r := Ok(filtered);
  }

  /** Zeroes the rows filed under `uid`, and no others. */
  method ZeroRows(m: array2<int>, indices: seq<nat>, uids: seq<string>, uid: string)
    requires m.Length0 == |uids| && indices == Members(uids, uid)
    modifies m
    ensures forall i, t :: 0 <= i < m.Length0 && 0 <= t < m.Length1 ==>
      m[i, t] == if uids[i] == uid then 0 else old(m[i, t])
  {
    MembersSound(uids, uid);
    for a := 0 to |indices|
      invariant forall i, t :: 0 <= i < m.Length0 && 0 <= t < m.Length1 ==>
        m[i, t] == if i in indices[..a] then 0 else old(m[i, t])
    {
      var row := indices[a];
      forall t | 0 <= t < m.Length1 {
        m[row, t] := 0;
      }
      assert indices[..a + 1] == indices[..a] + [row];
    }
    assert indices[..|indices|] == indices;
    forall i: nat | i < |uids| ensures i in indices <==> uids[i] == uid {
      if uids[i] == uid {
        MembersComplete(uids, i);
      }
    }
  }

  // ---- the filter drops no signal ----

  predicate Binary(values: seq<real>) {
    forall k :: 0 <= k < |values| ==> values[k] == 0.0 || values[k] == 1.0
  }

  predicate Uniform(values: seq<real>) {
    forall k :: 0 <= k < |values| ==> values[k] == values[0]
  }

  lemma UniformIsCentred(values: seq<real>, k: nat, fnorm: real)
    requires k < |values| && Uniform(values) && fnorm > 0.0
    ensures Centring(values, values[k], fnorm) == 0.0
  {
    MeanOfEqual(values);
    hide Mean;
  }

  /** A complete group of 0/1 rewards is kept exactly when its rewards differ, provided the maximum reward is above the tolerance. */
  lemma BinaryKept(values: seq<real>, expectedSize: int, maxReward: real)
    requires values != [] && Binary(values) && (expectedSize > 0 ==> |values| == expectedSize)
    ensures Classify(values, expectedSize, maxReward) == Informative <==> !Uniform(values) && maxReward > TOLERANCE
  {
    if !Uniform(values) {
      var k :| 0 <= k < |values| && values[k] != values[0];
      assert values[k] - values[0] == 1.0 || values[0] - values[k] == 1.0;
      var zero := if values[0] == 0.0 then 0 else k;
      assert values[zero] == 0.0;
    }
  }

  /** What the filter takes for a group without contrast, beyond the groups that have none. */
  predicate Blind(values: seq<real>, expectedSize: int, maxReward: real) {
    || (expectedSize > 0 && |values| != expectedSize)
    || (forall k :: 0 <= k < |values| ==> values[k] <= 0.0)
    || (forall k :: 0 <= k < |values| ==> values[k] >= maxReward - TOLERANCE)
    || (forall j, k :: 0 <= j < |values| && 0 <= k < |values| ==> values[j] - values[k] <= TOLERANCE)
  }

  /** Some member of the group has a non-zero advantage. */
  ghost predicate Contrast(values: seq<real>, fnorm: real)
    requires fnorm > 0.0
  {
    exists k :: 0 <= k < |values| && Centring(values, values[k], fnorm) != 0.0
  }

  lemma ContrastIffMixed(values: seq<real>, fnorm: real)
    requires fnorm > 0.0
    ensures Contrast(values, fnorm) <==> !Uniform(values)
  {
    hide Mean;
    if Uniform(values) {
      forall k | 0 <= k < |values| ensures Centring(values, values[k], fnorm) == 0.0 {
        UniformIsCentred(values, k, fnorm);
      }
    } else {
      var k :| 0 <= k < |values| && values[k] != values[0];
      assert Centring(values, values[k], fnorm) != 0.0 || Centring(values, values[0], fnorm) != 0.0;
    }
  }

  /** A group with signal is dropped exactly when its rewards differ and one of the four conditions holds. */
  lemma DropsSignalIff(values: seq<real>, expectedSize: int, maxReward: real, fnorm: real)
    requires fnorm > 0.0
    ensures Classify(values, expectedSize, maxReward) != Informative && Contrast(values, fnorm)
       <==> !Uniform(values) && Blind(values, expectedSize, maxReward)
  {
    ContrastIffMixed(values, fnorm);
    hide Contrast, Uniform;
    assert values == [] ==> Uniform(values) by {
      EmptyUniform(values);
    }
  }

  lemma EmptyUniform(values: seq<real>)
    ensures values == [] ==> Uniform(values)
  {
  }

  /** The filter changes the masked advantage of a token with mask value `token` in row `i`. */
  ghost predicate Changes(rewards: seq<real>, uids: seq<string>, groupSize: int, maxReward: real, fnorm: real, i: nat, token: int)
    requires |rewards| == |uids| && i < |uids| && fnorm > 0.0
  {
    var adv := Centring(Select(rewards, uids, uids[i]), rewards[i], fnorm);
    var kept := if KindOf(rewards, uids, groupSize, maxReward, uids[i]) == Informative then token else 0;
    Times(kept as real, adv) != Times(token as real, adv)
  }

  lemma ChangesIff(rewards: seq<real>, uids: seq<string>, groupSize: int, maxReward: real, fnorm: real, i: nat, token: int)
    requires |rewards| == |uids| && i < |uids| && fnorm > 0.0
    ensures Changes(rewards, uids, groupSize, maxReward, fnorm, i, token)
       <==> token != 0 && KindOf(rewards, uids, groupSize, maxReward, uids[i]) != Informative
            && Centring(Select(rewards, uids, uids[i]), rewards[i], fnorm) != 0.0
  {
    hide Centring, Select, KindOf;
    var adv := Centring(Select(rewards, uids, uids[i]), rewards[i], fnorm);
    assert token != 0 && adv != 0.0 ==> Times(token as real, adv) != 0.0;
  }

  /** Over a whole group, signal is lost exactly when its rewards differ and it is blind; whatever the masks. */
  lemma SignalLostIff(rewards: seq<real>, uids: seq<string>, groupSize: int, maxReward: real, fnorm: real, i: nat)
    requires |rewards| == |uids| && i < |uids| && fnorm > 0.0
    ensures var values := Select(rewards, uids, uids[i]);
      (exists j: nat, token: int :: j < |uids| && uids[j] == uids[i] && Changes(rewards, uids, groupSize, maxReward, fnorm, j, token))
      <==> !Uniform(values) && Blind(values, groupSize, maxReward)
  {
    var values := Select(rewards, uids, uids[i]);
    DropsSignalIff(values, groupSize, maxReward, fnorm);
    hide Select, Classify, Centring, Uniform, Blind, Changes;
    forall j: nat, token: int | j < |uids| && uids[j] == uids[i] && Changes(rewards, uids, groupSize, maxReward, fnorm, j, token)
      ensures KindOf(rewards, uids, groupSize, maxReward, uids[i]) != Informative && Contrast(values, fnorm)
    {
      ChangesIff(rewards, uids, groupSize, maxReward, fnorm, j, token);
      var k := SelectHas(rewards, uids, j);
    }
    if Classify(values, groupSize, maxReward) != Informative && Contrast(values, fnorm) {
      var k :| 0 <= k < |values| && Centring(values, values[k], fnorm) != 0.0;
      var j := SelectFrom(rewards, uids, uids[i], k);
      ChangesIff(rewards, uids, groupSize, maxReward, fnorm, j, 1);
    }
  }

  /** With 0/1 rewards and complete groups, no token's masked advantage changes. */
  lemma NoSignalLost(rewards: seq<real>, uids: seq<string>, groupSize: int, maxReward: real, fnorm: real, i: nat, token: int)
    requires |rewards| == |uids| && i < |uids| && fnorm > 0.0 && maxReward > TOLERANCE
    requires Binary(rewards) && (groupSize > 0 ==> |Select(rewards, uids, uids[i])| == groupSize)
    ensures !Changes(rewards, uids, groupSize, maxReward, fnorm, i, token)
  {
    var values := Select(rewards, uids, uids[i]);
    SelectNonEmpty(rewards, uids, i);
    SelectBinary(rewards, uids, uids[i]);
    BinaryKept(values, groupSize, maxReward);
    SignalLostIff(rewards, uids, groupSize, maxReward, fnorm, i);
    hide Select, Centring, Uniform, Changes;
  }

  lemma {:induction false} SelectBinary(rewards: seq<real>, uids: seq<string>, uid: string)
    requires |rewards| == |uids| && Binary(rewards)
    ensures Binary(Select(rewards, uids, uid))
  {
    if uids != [] {
      SelectBinary(rewards[..|uids| - 1], uids[..|uids| - 1], uid);
    }
  }

  lemma {:induction false} SelectHas(rewards: seq<real>, uids: seq<string>, i: nat) returns (k: nat)
    requires |rewards| == |uids| && i < |uids|
    ensures k < |Select(rewards, uids, uids[i])| && Select(rewards, uids, uids[i])[k] == rewards[i]
  {
    var n := |uids| - 1;
    if i < n {
      k := SelectHas(rewards[..n], uids[..n], i);
    } else {
      k := |Select(rewards, uids, uids[i])| - 1;
    }
  }

  lemma {:induction false} SelectFrom(rewards: seq<real>, uids: seq<string>, uid: string, k: nat) returns (i: nat)
    requires |rewards| == |uids| && k < |Select(rewards, uids, uid)|
    ensures i < |uids| && uids[i] == uid && rewards[i] == Select(rewards, uids, uid)[k]
  {
    var n := |uids| - 1;
    if k < |Select(rewards[..n], uids[..n], uid)| {
      i := SelectFrom(rewards[..n], uids[..n], uid, k);
    } else {
      i := n;
    }
  }

  lemma MixedPair(x: real, y: real)
    ensures x != y ==> !Uniform([x, y])
  {
    assert [x, y][1] == y;
  }

  /** Each condition loses signal: a short group, a negative one, one above the maximum, one closer than the tolerance. */
  lemma SignalCanBeLost()
    ensures Classify([0.0, 1.0], 8, 1.0) != Informative && Contrast([0.0, 1.0], 1.0)
    ensures Classify([-1.0, 0.0], 2, 1.0) != Informative && Contrast([-1.0, 0.0], 1.0)
    ensures Classify([1.0, 2.0], 2, 1.0) != Informative && Contrast([1.0, 2.0], 1.0)
    ensures var close := [0.5, 0.5 + TOLERANCE]; Classify(close, 2, 1.0) != Informative && Contrast(close, 1.0)
  {
    hide Classify, Contrast, Uniform;
    MixedPair(0.0, 1.0);
    DropsSignalIff([0.0, 1.0], 8, 1.0, 1.0);
    MixedPair(-1.0, 0.0);
    DropsSignalIff([-1.0, 0.0], 2, 1.0, 1.0);
    MixedPair(1.0, 2.0);
    DropsSignalIff([1.0, 2.0], 2, 1.0, 1.0);
    MixedPair(0.5, 0.5 + TOLERANCE);
    DropsSignalIff([0.5, 0.5 + TOLERANCE], 2, 1.0, 1.0);
  }

  // ---- the advantage filter ----

  function Abs(x: real): real {
    if x < 0.0 then -x else x
  }

  /** The unpadded rows of a group. */
  function RealRows(uids: seq<string>, padded: seq<bool>, uid: string): seq<nat>
    requires |uids| == |padded|
  {
    if uids == [] then []
    else
      var n := |uids| - 1;
      RealRows(uids[..n], padded[..n], uid) + if uids[n] == uid && !padded[n] then [n] else []
  }

  /** Some generated token of the group has an advantage above the tolerance. */
  ghost predicate HasSignal(mask: seq<seq<int>>, adv: seq<seq<real>>, width: nat, uids: seq<string>, padded: seq<bool>,
                            tolerance: real, uid: string)
    requires |mask| == |adv| == |uids| == |padded| && Matrix(mask, width) && Matrix(adv, width)
  {
    exists i, t :: 0 <= i < |uids| && uids[i] == uid && !padded[i] && 0 <= t < width && Abs(adv[i][t]) > tolerance && mask[i][t] > 0
  }

  /** The filtered mask, cell by cell. */
  ghost function Cell(mask: seq<seq<int>>, adv: seq<seq<real>>, width: nat, uids: seq<string>, padded: seq<bool>, tolerance: real,
                      i: nat, t: nat): int
    requires |mask| == |adv| == |uids| == |padded| && Matrix(mask, width) && Matrix(adv, width) && i < |uids| && t < width
  {
    if padded[i] || !HasSignal(mask, adv, width, uids, padded, tolerance, uids[i]) then 0 else mask[i][t]
  }

  ghost predicate Complete(uids: seq<string>, padded: seq<bool>, groupSize: int)
    requires |uids| == |padded|
  {
    forall uid :: uid in uids && RealRows(uids, padded, uid) != [] ==> |RealRows(uids, padded, uid)| == groupSize
  }

  lemma {:induction false} RealRowsMeans(uids: seq<string>, padded: seq<bool>, uid: string)
    requires |uids| == |padded|
    ensures forall i :: i in RealRows(uids, padded, uid) <==> 0 <= i < |uids| && uids[i] == uid && !padded[i]
    ensures forall b :: 0 <= b < |RealRows(uids, padded, uid)| ==> RealRows(uids, padded, uid)[b] < |uids|
  {
    if uids != [] {
      RealRowsMeans(uids[..|uids| - 1], padded[..|uids| - 1], uid);
    }
  }

  /** At tolerance zero, with a non-negative mask, no unpadded token's masked advantage changes. */
  lemma ZeroToleranceKeepsSignal(mask: seq<seq<int>>, adv: seq<seq<real>>, width: nat, uids: seq<string>, padded: seq<bool>, i: nat, t: nat)
    requires |mask| == |adv| == |uids| == |padded| && Matrix(mask, width) && Matrix(adv, width) && i < |uids| && t < width
    requires !padded[i] && mask[i][t] >= 0
    ensures Cell(mask, adv, width, uids, padded, 0.0, i, t) as real * adv[i][t] == mask[i][t] as real * adv[i][t]
  {
    if !HasSignal(mask, adv, width, uids, padded, 0.0, uids[i]) {
      assert Abs(adv[i][t]) == 0.0 || mask[i][t] == 0;
    }
  }

  ghost predicate IsFiltered(result: seq<seq<int>>, mask: seq<seq<int>>, adv: seq<seq<real>>, width: nat, uids: seq<string>,
                             padded: seq<bool>, tolerance: real)
  {
    && |result| == |mask| == |adv| == |uids| == |padded| && Matrix(mask, width) && Matrix(adv, width) && Matrix(result, width)
    && forall i, t :: 0 <= i < |result| && 0 <= t < width ==> result[i][t] == Cell(mask, adv, width, uids, padded, tolerance, i, t)
  }

  /** Every kept group still shows a token above the tolerance. */
  lemma KeptGroupsHaveSignal(result: seq<seq<int>>, mask: seq<seq<int>>, adv: seq<seq<real>>, width: nat, uids: seq<string>,
                             padded: seq<bool>, tolerance: real, uid: string)
    requires IsFiltered(result, mask, adv, width, uids, padded, tolerance)
    ensures HasSignal(result, adv, width, uids, padded, tolerance, uid) <==> HasSignal(mask, adv, width, uids, padded, tolerance, uid)
  {
    if HasSignal(mask, adv, width, uids, padded, tolerance, uid) {
      var i, t :| 0 <= i < |uids| && uids[i] == uid && !padded[i] && 0 <= t < width && Abs(adv[i][t]) > tolerance && mask[i][t] > 0;
      assert result[i][t] == mask[i][t];
    }
    if HasSignal(result, adv, width, uids, padded, tolerance, uid) {
      var i, t :| 0 <= i < |uids| && uids[i] == uid && !padded[i] && 0 <= t < width && Abs(adv[i][t]) > tolerance && result[i][t] > 0;
      assert result[i][t] == Cell(mask, adv, width, uids, padded, tolerance, i, t);
    }
  }

  /** Filtering twice, at any tolerance, is filtering once. */
  lemma FilterIdempotent(result: seq<seq<int>>, mask: seq<seq<int>>, adv: seq<seq<real>>, width: nat, uids: seq<string>,
                         padded: seq<bool>, tolerance: real)
    requires IsFiltered(result, mask, adv, width, uids, padded, tolerance)
    ensures IsFiltered(result, result, adv, width, uids, padded, tolerance)
  {
    forall i, t | 0 <= i < |result| && 0 <= t < width
      ensures result[i][t] == Cell(result, adv, width, uids, padded, tolerance, i, t)
    {
      KeptGroupsHaveSignal(result, mask, adv, width, uids, padded, tolerance, uids[i]);
      assert result[i][t] == Cell(mask, adv, width, uids, padded, tolerance, i, t);
    }
  }

  ghost function PaddedOf(padding: Option<seq<bool>>, n: nat): seq<bool> {
    if padding.Some? then padding.value else seq(n, _ => false)
  }

  ghost predicate Accepts(mask: seq<seq<int>>, width: nat, adv: seq<seq<real>>, advWidth: nat, uids: seq<string>, groupSize: int,
                          tolerance: real, padding: Option<seq<bool>>)
  {
    && |mask| == |adv| == |uids| && width == advWidth && tolerance >= 0.0 && groupSize >= 2
    && (padding.Some? ==> |padding.value| == |uids|)
    && Complete(uids, PaddedOf(padding, |uids|), groupSize)
  }

  method ApplyAdvantageFilter(mask: seq<seq<int>>, width: nat, adv: seq<seq<real>>, advWidth: nat, uids: seq<string>, groupSize: int,
                              tolerance: real, padding: Option<seq<bool>>)
    returns (r: Result<array2<int>>)
    requires Matrix(mask, width) && Matrix(adv, advWidth)
    ensures r.Ok? <==> Accepts(mask, width, adv, advWidth, uids, groupSize, tolerance, padding)
    ensures r.Ok? ==> fresh(r.value) && r.value.Length0 == |mask| && r.value.Length1 == width
    ensures r.Ok? ==> forall i, t :: 0 <= i < |mask| && 0 <= t < width ==>
      r.value[i, t] == Cell(mask, adv, width, uids, PaddedOf(padding, |uids|), tolerance, i, t)
  {
    if |mask| != |adv| || width != advWidth || |mask| != |uids| || tolerance < 0.0 || groupSize < 2 {
      return Rejected;
    }
    var padded := if padding.Some? then padding.value else seq(|uids|, _ => false);
    if |padded| != |uids| {
      return Rejected;
    }
    var result := new int[|mask|, width]((i, t) requires 0 <= i < |mask| == |padded| && 0 <= t < width && Matrix(mask, width) =>
      if padded[i] then 0 else mask[i][t]);
    var ok := FilterAll(result, mask, adv, width, uids, padded, groupSize, tolerance);
    r := if ok then Ok(result) else Rejected;
  }

  /** The groups in `done` show their filtered cells; the others only lack their padded rows. */
  ghost predicate FilteredBelow(result: array2<int>, mask: seq<seq<int>>, adv: seq<seq<real>>, width: nat, uids: seq<string>,
                                padded: seq<bool>, tolerance: real, done: seq<string>)
    requires |mask| == |adv| == |uids| == |padded| && Matrix(mask, width) && Matrix(adv, width)
    requires result.Length0 == |mask| && result.Length1 == width
    reads result
  {
    forall i, t :: 0 <= i < |mask| && 0 <= t < width ==>
      result[i, t] == if uids[i] in done then Cell(mask, adv, width, uids, padded, tolerance, i, t)
                      else if padded[i] then 0 else mask[i][t]
  }

  method FilterAll(result: array2<int>, mask: seq<seq<int>>, adv: seq<seq<real>>, width: nat, uids: seq<string>, padded: seq<bool>,
                   groupSize: int, tolerance: real) returns (ok: bool)
    requires |mask| == |adv| == |uids| == |padded| && Matrix(mask, width) && Matrix(adv, width)
    requires result.Length0 == |mask| && result.Length1 == width
    requires FilteredBelow(result, mask, adv, width, uids, padded, tolerance, [])
    modifies result
    ensures ok <==> Complete(uids, padded, groupSize)
    ensures ok ==> FilteredBelow(result, mask, adv, width, uids, padded, tolerance, uids)
  {
    hide Cell, FilteredBelow, Matrix, Complete, Members, RealRows;
    var order := UidOrder(uids);
    for o := 0 to |order|
      invariant forall k :: 0 <= k < o ==> CompleteGroup(uids, padded, groupSize, order[k])
      invariant FilteredBelow(result, mask, adv, width, uids, padded, tolerance, order[..o])
    {
      var uid := order[o];
      var rows := RealRows(uids, padded, uid);
      RealRowsMeans(uids, padded, uid);
      TakeSnoc(order, o);
      assert uid !in order[..o];
      if rows != [] && |rows| != groupSize {
        NotComplete(uids, padded, groupSize, uid);
        return false;
      }
      FilterGroup(result, mask, adv, width, uids, padded, tolerance, uid, rows, order[..o]);
    }
    assert order[..|order|] == order;
    SameDone(result, mask, adv, width, uids, padded, tolerance, order);
    AllComplete(uids, padded, groupSize, order);
    return true;
  }

  method UidOrder(uids: seq<string>) returns (order: seq<string>)
    ensures Distinct(order) && forall uid :: uid in order <==> uid in uids
  {
    var groups;
    order, groups := GroupPositions(uids);
  }

  lemma SameDone(result: array2<int>, mask: seq<seq<int>>, adv: seq<seq<real>>, width: nat, uids: seq<string>, padded: seq<bool>,
                 tolerance: real, order: seq<string>)
    requires |mask| == |adv| == |uids| == |padded| && Matrix(mask, width) && Matrix(adv, width)
    requires result.Length0 == |mask| && result.Length1 == width && forall uid :: uid in order <==> uid in uids
    requires FilteredBelow(result, mask, adv, width, uids, padded, tolerance, order)
    ensures FilteredBelow(result, mask, adv, width, uids, padded, tolerance, uids)
  {
    hide Cell;
  }

  lemma NotComplete(uids: seq<string>, padded: seq<bool>, groupSize: int, uid: string)
    requires |uids| == |padded| && uid in uids && !CompleteGroup(uids, padded, groupSize, uid)
    ensures !Complete(uids, padded, groupSize)
  {
  }

  lemma AllComplete(uids: seq<string>, padded: seq<bool>, groupSize: int, order: seq<string>)
    requires |uids| == |padded| && forall uid :: uid in order <==> uid in uids
    requires forall k :: 0 <= k < |order| ==> CompleteGroup(uids, padded, groupSize, order[k])
    ensures Complete(uids, padded, groupSize)
  {
    hide RealRows;
    forall uid | uid in uids && RealRows(uids, padded, uid) != [] ensures |RealRows(uids, padded, uid)| == groupSize {
      assert uid in order;
      var k :| 0 <= k < |order| && order[k] == uid;
      assert CompleteGroup(uids, padded, groupSize, order[k]);
    }
  }

  ghost predicate CompleteGroup(uids: seq<string>, padded: seq<bool>, groupSize: int, uid: string)
    requires |uids| == |padded|
  {
    RealRows(uids, padded, uid) != [] ==> |RealRows(uids, padded, uid)| == groupSize
  }

  /** The decision on one group: groups without unpadded rows are skipped, groups without signal are zeroed. */
  method FilterGroup(result: array2<int>, mask: seq<seq<int>>, adv: seq<seq<real>>, width: nat, uids: seq<string>, padded: seq<bool>,
                     tolerance: real, uid: string, rows: seq<nat>, ghost done: seq<string>)
    requires |mask| == |adv| == |uids| == |padded| && Matrix(mask, width) && Matrix(adv, width)
    requires result.Length0 == |mask| && result.Length1 == width
    requires forall i :: i in rows <==> 0 <= i < |uids| && uids[i] == uid && !padded[i]
    requires forall b :: 0 <= b < |rows| ==> rows[b] < |uids|
    requires FilteredBelow(result, mask, adv, width, uids, padded, tolerance, done) && uid !in done
    modifies result
    ensures FilteredBelow(result, mask, adv, width, uids, padded, tolerance, done + [uid])
  {
    forall i | 0 <= i < |uids| && uids[i] == uid && rows == [] ensures padded[i] {
      assert i !in rows;
    }
    if rows != [] {
      var keep := GroupSignal(mask, adv, width, uids, padded, tolerance, uid, rows);
      if !keep {
        forall i, t | 0 <= i < |mask| && 0 <= t < width && uids[i] == uid && !padded[i] {
          result[i, t] := 0;
        }
      }
    }
  }

  method GroupSignal(mask: seq<seq<int>>, adv: seq<seq<real>>, width: nat, uids: seq<string>, padded: seq<bool>, tolerance: real,
                     uid: string, rows: seq<nat>) returns (keep: bool)
    requires |mask| == |adv| == |uids| == |padded| && Matrix(mask, width) && Matrix(adv, width)
    requires forall i :: i in rows <==> 0 <= i < |uids| && uids[i] == uid && !padded[i]
    requires forall b :: 0 <= b < |rows| ==> rows[b] < |uids|
    ensures keep <==> HasSignal(mask, adv, width, uids, padded, tolerance, uid)
  {
    for a := 0 to |rows|
      invariant forall b, t :: 0 <= b < a && 0 <= t < width ==> !(Abs(adv[rows[b]][t]) > tolerance && mask[rows[b]][t] > 0)
    {
      var i := rows[a];
      assert i in rows;
      if t :| 0 <= t < width && Abs(adv[i][t]) > tolerance && mask[i][t] > 0 {
        return true;
      }
    }
    forall i, t | 0 <= i < |uids| && uids[i] == uid && !padded[i] && 0 <= t < width
      ensures !(Abs(adv[i][t]) > tolerance && mask[i][t] > 0)
    {
      assert i in rows;
      var b :| 0 <= b < |rows| && rows[b] == i;
    }
    return false;
  }
}