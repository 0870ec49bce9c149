/** Anchor-grouped step advantages added to centred episode advantages, on tokens. */
module TauGigpo {
  import opened Common
  import opened GroupStats
  import opened MtGtpoLaws
  import opened Spans

  const MIN_ANCHOR_GROUP_SIZE := 2
  const ABSTAIN := "abstain:v4"

  datatype StepRecord = StepRecord(trajectory: nat, index: nat, anchor: Option<string>, span: Option<Span>)

  // ---- steps from an anchor payload ----

  /** One entry per generated segment; None marks an observation, which is no step, while an abstention is one without an anchor. */
  function RowSteps(trajectory: nat, ids: seq<Option<string>>, spans: seq<Option<Span>>): seq<StepRecord>
    requires |ids| == |spans|
  {
    if ids == [] then []
    else
      var n := |ids| - 1;
      var before := RowSteps(trajectory, ids[..n], spans[..n]);
      if ids[n].None? then before
      else before + [StepRecord(trajectory, |before|, if ids[n].value == ABSTAIN then None else ids[n], spans[n])]
  }

  predicate Aligned(ids: seq<seq<Option<string>>>, spans: seq<seq<Option<Span>>>) {
    |ids| == |spans| && forall i :: 0 <= i < |ids| ==> |ids[i]| == |spans[i]|
  }

  function Steps(ids: seq<seq<Option<string>>>, spans: seq<seq<Option<Span>>>, n: nat): seq<StepRecord>
    requires Aligned(ids, spans) && n <= |ids|
  {
    if n == 0 then [] else Steps(ids, spans, n - 1) + RowSteps(n - 1, ids[n - 1], spans[n - 1])
  }

  method StepsFromPayload(ids: seq<seq<Option<string>>>, spans: seq<seq<Option<Span>>>) returns (r: Result<seq<StepRecord>>)
    ensures r.Ok? <==> Aligned(ids, spans)
    ensures r.Ok? ==> r.value == Steps(ids, spans, |ids|)
  {
    var records := [];
    if |ids| != |spans| {
      return Rejected;
    }
    for i := 0 to |ids|
      invariant forall j :: 0 <= j < i ==> |ids[j]| == |spans[j]|
      invariant Aligned(ids[..i], spans[..i]) && records == Steps(ids[..i], spans[..i], i)
    {
      if |ids[i]| != |spans[i]| {
        return Rejected;
      }
      var row := StepsOfRow(i, ids[i], spans[i]);
      StepsPrefix(ids, spans, i);
      records := records + row;
    }
    assert ids[..|ids|] == ids && spans[..|ids|] == spans;
    r := Ok(records);
  }

  method StepsOfRow(trajectory: nat, ids: seq<Option<string>>, spans: seq<Option<Span>>) returns (row: seq<StepRecord>)
    requires |ids| == |spans|
    ensures row == RowSteps(trajectory, ids, spans)
  {
    row := [];
    var stepIndex := 0;
    for k := 0 to |ids|
      invariant row == RowSteps(trajectory, ids[..k], spans[..k]) && stepIndex == |row|
    {
      assert ids[..k + 1][..k] == ids[..k] && spans[..k + 1][..k] == spans[..k];
      if ids[k].Some? {
        row := row + [StepRecord(trajectory, stepIndex, if ids[k].value == ABSTAIN then None else ids[k], spans[k])];
        stepIndex := stepIndex + 1;
      }
    }
    assert ids[..|ids|] == ids && spans[..|ids|] == spans;
  }

  lemma StepsPrefix(ids: seq<seq<Option<string>>>, spans: seq<seq<Option<Span>>>, i: nat)
    requires i < |ids| == |spans| && Aligned(ids[..i + 1], spans[..i + 1])
    ensures Aligned(ids[..i], spans[..i])
    ensures Steps(ids[..i + 1], spans[..i + 1], i + 1) == Steps(ids[..i], spans[..i], i) + RowSteps(i, ids[i], spans[i])
  {
    assert forall j :: 0 <= j < i ==> ids[..i][j] == ids[..i + 1][j] && spans[..i][j] == spans[..i + 1][j];
    StepsShared(ids[..i], spans[..i], ids[..i + 1], spans[..i + 1], i);
  }

  lemma {:induction false} StepsShared(a: seq<seq<Option<string>>>, b: seq<seq<Option<Span>>>, c: seq<seq<Option<string>>>,
                                       d: seq<seq<Option<Span>>>, n: nat)
    requires Aligned(a, b) && Aligned(c, d) && n <= |a| && n <= |c|
    requires forall j :: 0 <= j < n ==> a[j] == c[j] && b[j] == d[j]
    ensures Steps(a, b, n) == Steps(c, d, n)
  {
    if n > 0 {
      StepsShared(a, b, c, d, n - 1);
    }
  }

  // ---- step returns ----

  function Trajectories(steps: seq<StepRecord>): seq<nat> {
    seq(|steps|, p requires 0 <= p < |steps| => steps[p].trajectory)
  }

  function CountOf(steps: seq<StepRecord>, trajectory: nat): nat {
    |Members(Trajectories(steps), trajectory)|
  }

  lemma PowerNonZero(gamma: real, n: nat)
    requires gamma != 0.0
    ensures Power(gamma, n) != 0.0
  {
    if n > 0 {
      PowerNonZero(gamma, n - 1);
    }
  }

  /** `gamma ** n`, for a negative exponent too. */
  function IntPower(gamma: real, n: int): real
    requires n >= 0 || gamma != 0.0
  {
    if n >= 0 then Power(gamma, n)
    else
      PowerNonZero(gamma, -n);
      1.0 / Power(gamma, -n)
  }

  function Remaining(steps: seq<StepRecord>, p: nat): int
    requires p < |steps|
  {
    CountOf(steps, steps[p].trajectory) - 1 - steps[p].index
  }

  predicate Payable(steps: seq<StepRecord>, terminal: seq<real>, gamma: real, p: nat)
    requires p < |steps|
  {
    steps[p].trajectory < |terminal| && (Remaining(steps, p) >= 0 || gamma != 0.0)
  }

  ghost predicate AllPayable(steps: seq<StepRecord>, terminal: seq<real>, gamma: real) {
    forall p: nat :: p < |steps| ==> Payable(steps, terminal, gamma, p)
  }

  /** The terminal reward, discounted by the assistant steps still to come. */
  function StepReturn(steps: seq<StepRecord>, terminal: seq<real>, gamma: real, p: nat): real
    requires p < |steps| && Payable(steps, terminal, gamma, p)
  {
    IntPower(gamma, Remaining(steps, p)) * terminal[steps[p].trajectory]
  }

  method StepReturns(steps: seq<StepRecord>, terminal: seq<real>, gamma: real) returns (r: Result<seq<real>>)
    ensures r.Ok? <==> AllPayable(steps, terminal, gamma)
    ensures r.Ok? ==> |r.value| == |steps| && forall p: nat :: p < |steps| ==>
      Payable(steps, terminal, gamma, p) && r.value[p] == StepReturn(steps, terminal, gamma, p)
  {
    var counts: map<nat, nat> := map[];
    for p := 0 to |steps|
      invariant forall k :: k in counts ==> counts[k] == CountOf(steps[..p], k)
      invariant forall q :: 0 <= q < p ==> steps[q].trajectory in counts
      invariant forall k :: k !in counts ==> CountOf(steps[..p], k) == 0
    {
      var k := steps[p].trajectory;
      CountSnoc(steps, p);
      counts := counts[k := (if k in counts then counts[k] else 0) + 1];
    }
    assert steps[..|steps|] == steps;
    var values := [];
    for p := 0 to |steps|
      invariant |values| == p
      invariant forall q: nat :: q < p ==> Payable(steps, terminal, gamma, q) && values[q] == StepReturn(steps, terminal, gamma, q)
    {
      var step := steps[p];
      var remaining := counts[step.trajectory] - 1 - step.index;
      assert remaining == Remaining(steps, p);
      if step.trajectory >= |terminal| || (remaining < 0 && gamma == 0.0) {
        assert !Payable(steps, terminal, gamma, p);
        return Rejected;
      }
      values := values + [IntPower(gamma, remaining) * terminal[step.trajectory]];
    }
    r := Ok(values);
  }

  ghost predicate CountsAfter(less: seq<StepRecord>, more: seq<StepRecord>, trajectory: nat) {
    forall k: nat :: CountOf(more, k) == CountOf(less, k) + if k == trajectory then 1 else 0
  }

  lemma CountSnoc(steps: seq<StepRecord>, p: nat)
    requires p < |steps|
    ensures CountsAfter(steps[..p], steps[..p + 1], steps[p].trajectory)
  {
    assert Trajectories(steps[..p + 1])[..p] == Trajectories(steps[..p]);
  }

  // ---- rebuilt steps are numbered without gaps ----

  /** Rows of one trajectory after another, each numbered from zero. */
  ghost predicate Numbered(steps: seq<StepRecord>, n: nat) {
    && (forall p :: 0 <= p < |steps| ==> steps[p].trajectory < n)
    && (forall p, q :: 0 <= p && q == p + 1 < |steps| ==> Follows(steps[p], steps[q]))
    && (steps != [] ==> steps[0].index == 0)
  }

  predicate Follows(a: StepRecord, b: StepRecord) {
    if b.trajectory == a.trajectory then b.index == a.index + 1 else a.trajectory < b.trajectory && b.index == 0
  }

  ghost predicate RowNumbered(row: seq<StepRecord>, trajectory: nat) {
    forall p :: 0 <= p < |row| ==> row[p].trajectory == trajectory && row[p].index == p
  }

  lemma {:induction false} RowIsNumbered(trajectory: nat, ids: seq<Option<string>>, spans: seq<Option<Span>>)
    requires |ids| == |spans|
    ensures RowNumbered(RowSteps(trajectory, ids, spans), trajectory)
  {
    if ids != [] {
      RowIsNumbered(trajectory, ids[..|ids| - 1], spans[..|ids| - 1]);
    }
  }

  lemma AppendNumbered(before: seq<StepRecord>, row: seq<StepRecord>, n: nat)
    requires Numbered(before, n) && RowNumbered(row, n)
    ensures Numbered(before + row, n + 1)
  {
    var all := before + row;
    forall p, q | 0 <= p && q == p + 1 < |all| ensures Follows(all[p], all[q]) {
      if q < |before| {
        assert Follows(before[p], before[q]);
      } else {
        assert all[q] == row[q - |before|];
        assert p >= |before| ==> all[p] == row[p - |before|];
      }
    }
  }

  lemma {:induction false} StepsAreNumbered(ids: seq<seq<Option<string>>>, spans: seq<seq<Option<Span>>>, n: nat)
    requires Aligned(ids, spans) && n <= |ids|
    ensures Numbered(Steps(ids, spans, n), n)
  {
    if n > 0 {
      StepsAreNumbered(ids, spans, n - 1);
      RowIsNumbered(n - 1, ids[n - 1], spans[n - 1]);
      AppendNumbered(Steps(ids, spans, n - 1), RowSteps(n - 1, ids[n - 1], spans[n - 1]), n - 1);
    }
  }

  ghost predicate NoneAbove(steps: seq<StepRecord>, trajectory: nat) {
    forall k: nat :: k > trajectory ==> CountOf(steps, k) == 0
  }

  /** Numbered steps: those of a trajectory, counted up to some point. */
  lemma {:induction false} IndexCounts(steps: seq<StepRecord>, n: nat, p: nat)
    requires Numbered(steps, n) && p < |steps|
    ensures CountOf(steps[..p + 1], steps[p].trajectory) == steps[p].index + 1
    ensures NoneAbove(steps[..p + 1], steps[p].trajectory)
  {
    CountSnoc(steps, p);
    var less, more := steps[..p], steps[..p + 1];
    hide CountOf;
    if p > 0 {
      IndexCounts(steps, n, p - 1);
      assert Follows(steps[p - 1], steps[p]);
    } else {
      NoSteps(less);
    }
  }

  lemma NoSteps(steps: seq<StepRecord>)
    requires steps == []
    ensures forall k: nat :: CountOf(steps, k) == 0
  {
  }

  lemma {:induction false} LaterCounts(steps: seq<StepRecord>, n: nat, p: nat, m: nat)
    requires Numbered(steps, n) && p < m <= |steps|
    requires p + 1 < |steps| ==> steps[p + 1].trajectory != steps[p].trajectory
    ensures CountOf(steps[..m], steps[p].trajectory) == steps[p].index + 1
    ensures m > p + 1 ==> steps[m - 1].trajectory > steps[p].trajectory
  {
    if m == p + 1 {
      IndexCounts(steps, n, p);
    } else {
      LaterCounts(steps, n, p, m - 1);
      CountSnoc(steps, m - 1);
      assert Follows(steps[m - 2], steps[m - 1]);
    }
  }

  lemma {:induction false} StepsRemain(steps: seq<StepRecord>, n: nat, p: nat)
    requires Numbered(steps, n) && p < |steps|
    ensures Remaining(steps, p) >= 0
    ensures if p + 1 < |steps| && steps[p + 1].trajectory == steps[p].trajectory
      then Remaining(steps, p) == Remaining(steps, p + 1) + 1 else Remaining(steps, p) == 0
    decreases |steps| - p
  {
    assert steps[..|steps|] == steps;
    if p + 1 < |steps| && steps[p + 1].trajectory == steps[p].trajectory {
      StepsRemain(steps, n, p + 1);
      assert Follows(steps[p], steps[p + 1]);
    } else {
      LaterCounts(steps, n, p, |steps|);
    }
  }

  /** Returns of rebuilt steps: G[t] = gamma * G[t+1] along each trajectory, and the last step gets the terminal reward. */
  lemma ReturnsRecur(ids: seq<seq<Option<string>>>, spans: seq<seq<Option<Span>>>, terminal: seq<real>, gamma: real, p: nat)
    requires Aligned(ids, spans) && |terminal| == |ids| && p < |Steps(ids, spans, |ids|)|
    ensures var steps := Steps(ids, spans, |ids|);
      && (forall q: nat :: q < |steps| ==> Payable(steps, terminal, gamma, q))
      && (StepReturn(steps, terminal, gamma, p)
          == if p + 1 < |steps| && steps[p + 1].trajectory == steps[p].trajectory
             then gamma * StepReturn(steps, terminal, gamma, p + 1) else terminal[steps[p].trajectory])
  {
    var steps := Steps(ids, spans, |ids|);
    StepsAreNumbered(ids, spans, |ids|);
    forall q: nat | q < |steps| ensures Payable(steps, terminal, gamma, q) {
      StepsRemain(steps, |ids|, q);
    }
    StepsRemain(steps, |ids|, p);
    hide CountOf;
    if p + 1 < |steps| && steps[p + 1].trajectory == steps[p].trajectory {
      StepsRemain(steps, |ids|, p + 1);
      PowerStep(gamma, Remaining(steps, p + 1), terminal[steps[p].trajectory]);
    }
  }

  /** A trajectory has one step per entry that is not an observation: abstentions count. */
  lemma {:induction false} AbstentionsCount(trajectory: nat, ids: seq<Option<string>>, spans: seq<Option<Span>>)
    requires |ids| == |spans|
    ensures |RowSteps(trajectory, ids, spans)| == |ids| - |Members(ids, None)|
  {
    if ids != [] {
      AbstentionsCount(trajectory, ids[..|ids| - 1], spans[..|ids| - 1]);
    }
  }

  // ---- step advantages ----

  function Anchors(steps: seq<StepRecord>): seq<Option<string>> {
    seq(|steps|, p requires 0 <= p < |steps| => steps[p].anchor)
  }

  /** Mean-centred within the anchor group; exactly zero without an anchor or in a group that is too small. */
  function StepAdvantage(values: seq<real>, anchors: seq<Option<string>>, p: nat, fnorm: real, minGroupSize: int): real
    requires |values| == |anchors| && p < |values| && fnorm != 0.0
  {
    var group := Select(values, anchors, anchors[p]);
    if anchors[p].None? || group == [] || |group| < minGroupSize then 0.0 else (values[p] - Mean(group)) / fnorm
  }

  function AllReturns(steps: seq<StepRecord>, terminal: seq<real>, gamma: real): seq<real>
    requires AllPayable(steps, terminal, gamma)
  {
    seq(|steps|, p requires 0 <= p < |steps| && Payable(steps, terminal, gamma, p) => StepReturn(steps, terminal, gamma, p))
  }

  method StepAdvantages(steps: seq<StepRecord>, terminal: seq<real>, gamma: real, fnorm: real, minGroupSize: int)
    returns (r: Result<seq<real>>)
    requires fnorm != 0.0
    ensures r.Ok? <==> AllPayable(steps, terminal, gamma)
    ensures r.Ok? ==> |r.value| == |steps| && forall p: nat :: p < |steps| ==>
      r.value[p] == StepAdvantage(AllReturns(steps, terminal, gamma), Anchors(steps), p, fnorm, minGroupSize)
  {
    var returned := StepReturns(steps, terminal, gamma);
    if returned.Rejected? {
      return Rejected;
    }
    assert returned.value == AllReturns(steps, terminal, gamma);
    var advantages := AnchorCentred(returned.value, Anchors(steps), fnorm, minGroupSize);
    r := Ok(advantages);
  }

  method AnchorCentred(values: seq<real>, anchors: seq<Option<string>>, fnorm: real, minGroupSize: int) returns (advantages: seq<real>)
    requires |values| == |anchors| && fnorm != 0.0
    ensures |advantages| == |values|
    ensures forall p: nat :: p < |values| ==> advantages[p] == StepAdvantage(values, anchors, p, fnorm, minGroupSize)
  {
    var order, groups := GroupPositions(anchors);
    var out := new real[|values|](_ => 0.0);
    for o := 0 to |order|
      invariant forall p: nat :: p < |values| ==>
        out[p] == if anchors[p] in order[..o] then StepAdvantage(values, anchors, p, fnorm, minGroupSize) else 0.0
    {
      var key := order[o];
      assert key !in order[..o] && order[..o + 1] == order[..o] + [key];
      CentreGroup(out, values, anchors, key, groups[key], fnorm, minGroupSize);
    }
    forall p: nat | p < |values| ensures anchors[p] in order[..|order|] {
      assert anchors[p] in anchors && order[..|order|] == order;
    }
    advantages := out[..];
  }

  method CentreGroup(out: array<real>, values: seq<real>, anchors: seq<Option<string>>, key: Option<string>, positions: seq<nat>,
                     fnorm: real, minGroupSize: int)
    requires |values| == |anchors| == out.Length && fnorm != 0.0 && positions == Members(anchors, key)
    requires forall p: nat :: p < |values| && anchors[p] == key ==> out[p] == 0.0
    modifies out
    ensures forall p: nat :: p < |values| ==>
      out[p] == if anchors[p] == key then StepAdvantage(values, anchors, p, fnorm, minGroupSize) else old(out[p])
  {
    MembersSound(anchors, key);
    GatherMembers(values, anchors, key);
    if key.None? || |positions| < minGroupSize || positions == [] {
      return;
    }
    var subset := Gather(values, positions);
    var mean := Mean(subset);
    forall a | 0 <= a < |positions| {
      out[positions[a]] := (subset[a] - mean) / fnorm;
    }
    forall p: nat | p < |values| && anchors[p] == key ensures out[p] == (values[p] - mean) / fnorm {
      MembersComplete(anchors, p);
    }
  }

  // ---- anchor groups balance ----

  lemma {:induction false} SelectMap(values: seq<real>, out: seq<real>, keys: seq<Option<string>>, key: Option<string>, m: real, f: real)
    requires |values| == |out| == |keys| && f != 0.0
    requires forall p :: 0 <= p < |keys| && keys[p] == key ==> out[p] == (values[p] - m) / f
    ensures |Select(out, keys, key)| == |Select(values, keys, key)|
    ensures forall j :: 0 <= j < |Select(out, keys, key)| ==> Select(out, keys, key)[j] == (Select(values, keys, key)[j] - m) / f
  {
    if keys != [] {
      var n := |keys| - 1;
      SelectMap(values[..n], out[..n], keys[..n], key, m, f);
    }
  }

  lemma {:induction false} SumScaled(xs: seq<real>, zs: seq<real>, m: real, f: real)
    requires |xs| == |zs| && f != 0.0 && forall j :: 0 <= j < |zs| ==> zs[j] == (xs[j] - m) / f
    ensures Sum(zs) == (Sum(xs) - |xs| as real * m) / f
  {
    if zs != [] {
      var n := |zs| - 1;
      SumScaled(xs[..n], zs[..n], m, f);
      DivideSum(Sum(xs[..n]) - n as real * m, xs[n] - m, f);
      assert |xs| as real * m == n as real * m + m;
    }
  }

  lemma DivideSum(x: real, y: real, f: real)
    requires f != 0.0
    ensures x / f + y / f == (x + y) / f
  {
  }

  ghost predicate Centred(values: seq<real>, advantages: seq<real>, anchors: seq<Option<string>>, fnorm: real, minGroupSize: int) {
    && |values| == |anchors| == |advantages| && fnorm != 0.0
    && forall p: nat :: p < |values| ==> advantages[p] == StepAdvantage(values, anchors, p, fnorm, minGroupSize)
  }

  /** The step advantages of an anchor group sum to zero. */
  lemma AnchorGroupBalances(values: seq<real>, advantages: seq<real>, anchors: seq<Option<string>>, anchor: string, fnorm: real, minGroupSize: int)
    requires Centred(values, advantages, anchors, fnorm, minGroupSize)
    ensures Sum(Select(advantages, anchors, Some(anchor))) == 0.0
  {
    var key := Some(anchor);
    var group := Select(values, anchors, key);
    SelectSizes(values, advantages, anchors, key);
    if group == [] {
      assert Select(advantages, anchors, key) == [];
    } else if |group| < minGroupSize {
      SelectZero(advantages, anchors, key);
      SumConstant(Select(advantages, anchors, key), 0.0);
    } else {
      hide Select, Mean, Sum;
      SelectMap(values, advantages, anchors, key, Mean(group), fnorm);
      CentredScaledSum(group, Select(advantages, anchors, key), fnorm);
    }
  }

  lemma CentredScaledSum(xs: seq<real>, zs: seq<real>, f: real)
    requires |xs| == |zs| > 0 && f != 0.0 && forall j :: 0 <= j < |zs| ==> zs[j] == (xs[j] - Mean(xs)) / f
    ensures Sum(zs) == 0.0
  {
    SumScaled(xs, zs, Mean(xs), f);
    MeanTimesSize(xs);
    hide Mean, Sum;
    assert Sum(xs) - |xs| as real * Mean(xs) == 0.0;
  }

  /** A step alone in its anchor group gets exactly no step advantage, whatever the size threshold. */
  lemma SingletonsGetNothing(values: seq<real>, advantages: seq<real>, anchors: seq<Option<string>>, p: nat, fnorm: real, minGroupSize: int)
    requires Centred(values, advantages, anchors, fnorm, minGroupSize) && p < |anchors|
    requires anchors[p].None? || |Select(values, anchors, anchors[p])| == 1 || |Select(values, anchors, anchors[p])| < minGroupSize
    ensures advantages[p] == 0.0
  {
    var group := Select(values, anchors, anchors[p]);
    if anchors[p].Some? && |group| == 1 {
      SelectOnly(values, anchors, p);
      hide Select;
      assert Sum(group) == Sum(group[..0]) + group[0];
    }
  }

  lemma {:induction false} SelectSizes(a: seq<real>, b: seq<real>, keys: seq<Option<string>>, key: Option<string>)
    requires |a| == |b| == |keys|
    ensures |Select(a, keys, key)| == |Select(b, keys, key)|
  {
    if keys != [] {
      SelectSizes(a[..|keys| - 1], b[..|keys| - 1], keys[..|keys| - 1], key);
    }
  }

  lemma {:induction false} SelectZero(values: seq<real>, keys: seq<Option<string>>, key: Option<string>)
    requires |values| == |keys| && forall p :: 0 <= p < |keys| && keys[p] == key ==> values[p] == 0.0
    ensures forall j :: 0 <= j < |Select(values, keys, key)| ==> Select(values, keys, key)[j] == 0.0
  {
    if keys != [] {
      SelectZero(values[..|keys| - 1], keys[..|keys| - 1], key);
    }
  }

  lemma {:induction false} SelectOnly(values: seq<real>, keys: seq<Option<string>>, p: nat)
    requires |values| == |keys| && p < |keys| && |Select(values, keys, keys[p])| == 1
    ensures Select(values, keys, keys[p])[0] == values[p]
  {
    var n := |keys| - 1;
    if p < n {
      SelectNonEmpty(values[..n], keys[..n], p);
      SelectOnly(values[..n], keys[..n], p);
    } else {
      assert Select(values, keys, keys[p]) == Select(values[..n], keys[..n], keys[p]) + [values[n]];
    }
  }

  // ---- tokens ----

  /** The step term lands on this token: anchored, of this trajectory, and its span covers the position. */
  predicate Lands(step: StepRecord, i: int, t: int) {
    step.anchor.Some? && step.span.Some? && step.trajectory == i && Covers(step.span.value, t)
  }

  /** omega times the advantages of the first `n` steps that land on token `t` of trajectory `i`. */
  function StepTerm(steps: seq<StepRecord>, advantages: seq<real>, omega: real, n: nat, i: int, t: int): real
    requires n <= |steps| == |advantages|
  {
    if n == 0 then 0.0
    else StepTerm(steps, advantages, omega, n - 1, i, t) + if Lands(steps[n - 1], i, t) then Times(omega, advantages[n - 1]) else 0.0
  }

  /** An anchored step whose span covers a token of the response. */
  ghost predicate Visible(step: StepRecord, length: nat) {
    step.anchor.Some? && step.span.Some? && exists t: nat :: t < length && Covers(step.span.value, t)
  }

  /** `out[trajectory, start:end] += gain` on the clipped span; a visible step of no row raises. */
  method AddStep(out: array2<real>, step: StepRecord, gain: real) returns (ok: bool)
    modifies out
    ensures ok <==> (Visible(step, out.Length1) ==> step.trajectory < out.Length0)
    ensures ok ==> forall i, t :: 0 <= i < out.Length0 && 0 <= t < out.Length1 ==>
      out[i, t] == old(out[i, t]) + if Lands(step, i, t) then gain else 0.0
  {
    if step.anchor.None? || step.span.None? {
      return true;
    }
    var (start, end) := step.span.value;
    var a, b := if start < 0 then 0 else start, if end > out.Length1 then out.Length1 else end;
    if b <= a {
      return true;
    }
    assert Covers(step.span.value, a);
    if step.trajectory >= out.Length0 {
      return false;
    }
    var i := step.trajectory;
    forall t | a <= t < b {
      out[i, t] := out[i, t] + gain;
    }
    return true;
  }

  ghost predicate MaskFits(mask: Option<seq<seq<int>>>, rows: nat, length: nat) {
    mask.Some? ==> |mask.value| == rows && forall i :: 0 <= i < rows ==> |mask.value[i]| == length
  }

  function MaskValue(mask: Option<seq<seq<int>>>, i: nat, t: nat): real
    requires mask.Some? ==> i < |mask.value| && t < |mask.value[i]|
  {
    if mask.Some? then mask.value[i][t] as real else 1.0
  }

  /** Each token carries its trajectory's episode term plus the step terms that land on it, times its mask. */
  ghost predicate Combined(out: array2<real>, episode: seq<real>, stepAdvantages: seq<real>, steps: seq<StepRecord>,
                           mask: Option<seq<seq<int>>>, omega: real)
    reads out
  {
    && out.Length0 <= |episode| && |stepAdvantages| == |steps| && MaskFits(mask, out.Length0, out.Length1)
    && forall i, t :: 0 <= i < out.Length0 && 0 <= t < out.Length1 ==>
      out[i, t] == Times(episode[i] + StepTerm(steps, stepAdvantages, omega, |steps|, i, t), MaskValue(mask, i, t))
  }

  method CombineAdvantages(episode: seq<real>, stepAdvantages: seq<real>, steps: seq<StepRecord>, rows: nat, length: nat,
                           mask: Option<seq<seq<int>>>, omega: real) returns (r: Result<array2<real>>)
    requires |stepAdvantages| == |steps| && MaskFits(mask, rows, length)
    ensures r.Ok? <==> rows <= |episode| && forall p :: 0 <= p < |steps| && Visible(steps[p], length) ==> steps[p].trajectory < rows
    ensures r.Ok? ==> fresh(r.value) && r.value.Length0 == rows && r.value.Length1 == length
    ensures r.Ok? ==> Combined(r.value, episode, stepAdvantages, steps, mask, omega)
  {
    if rows > |episode| {
      return Rejected;
    }
    var out := new real[rows, length]((i, t) requires 0 <= i < rows <= |episode| => episode[i]);
    var ok := AddSteps(out, episode, stepAdvantages, steps, omega);
    if !ok {
      return Rejected;
    }
    ApplyMask(out, mask);
    r := Ok(out);
  }

  /** The step terms of the first `p` steps have been added. */
  ghost predicate Added(out: array2<real>, episode: seq<real>, stepAdvantages: seq<real>, steps: seq<StepRecord>, omega: real, p: nat)
    requires p <= |steps| == |stepAdvantages| && out.Length0 <= |episode|
    reads out
  {
    forall i, t :: 0 <= i < out.Length0 && 0 <= t < out.Length1 ==>
      out[i, t] == episode[i] + StepTerm(steps, stepAdvantages, omega, p, i, t)
  }

  method AddSteps(out: array2<real>, episode: seq<real>, stepAdvantages: seq<real>, steps: seq<StepRecord>, omega: real)
    returns (ok: bool)
    requires |stepAdvantages| == |steps| && out.Length0 <= |episode| && Added(out, episode, stepAdvantages, steps, omega, 0)
    modifies out
    ensures ok <==> forall p :: 0 <= p < |steps| && Visible(steps[p], out.Length1) ==> steps[p].trajectory < out.Length0
    ensures ok ==> Added(out, episode, stepAdvantages, steps, omega, |steps|)
  {
    hide Lands, Visible, Times;
    for p := 0 to |steps|
      invariant forall q :: 0 <= q < p && Visible(steps[q], out.Length1) ==> steps[q].trajectory < out.Length0
      invariant Added(out, episode, stepAdvantages, steps, omega, p)
    {
      ok := AddStep(out, steps[p], Times(omega, stepAdvantages[p]));
      if !ok {
        return;
      }
    }
    return true;
  }

  method ApplyMask(out: array2<real>, mask: Option<seq<seq<int>>>)
    requires MaskFits(mask, out.Length0, out.Length1)
    modifies out
    ensures forall i, t :: 0 <= i < out.Length0 && 0 <= t < out.Length1 ==> out[i, t] == Times(old(out[i, t]), MaskValue(mask, i, t))
  {
    if mask.Some? {
      forall i, t | 0 <= i < out.Length0 && 0 <= t < out.Length1 {
        out[i, t] := Times(out[i, t], mask.value[i][t] as real);
      }
    }
  }

  // ---- the whole estimator ----

  /** The group-mean-centred episode advantage. */
  function Centring(values: seq<real>, x: real, fnorm: real): real
    requires fnorm > 0.0
  {
    if values == [] then 0.0 else (x - Mean(values)) / fnorm
  }

  method EpisodeAdvantages(terminal: seq<real>, uids: seq<string>, fnorm: real) returns (r: Result<seq<real>>)
    ensures r.Ok? <==> |terminal| == |uids| && fnorm > 0.0
    ensures r.Ok? ==> |r.value| == |terminal| && forall i :: 0 <= i < |terminal| ==>
      r.value[i] == Centring(Select(terminal, uids, uids[i]), terminal[i], fnorm)
  {
    if |terminal| != |uids| || fnorm <= 0.0 {
      return Rejected;
    }
    var order, groups := GroupPositions(uids);
    var out := new real[|terminal|](_ => 0.0);
    for o := 0 to |order|
      invariant forall i :: 0 <= i < |terminal| && uids[i] in order[..o] ==>
        out[i] == Centring(Select(terminal, uids, uids[i]), terminal[i], fnorm)
    {
      var uid := order[o];
      assert uid !in order[..o] && order[..o + 1] == order[..o] + [uid];
      CentreEpisodes(out, terminal, uids, uid, groups[uid], fnorm);
    }
    forall i | 0 <= i < |terminal| ensures uids[i] in order[..|order|] {
      assert uids[i] in uids && order[..|order|] == order;
    }
    r := Ok(out[..]);
  }

  method CentreEpisodes(out: array<real>, terminal: seq<real>, uids: seq<string>, uid: string, indices: seq<nat>, fnorm: real)
    requires |terminal| == |uids| == out.Length && fnorm > 0.0 && indices == Members(uids, uid) != []
    modifies out
    ensures forall i :: 0 <= i < |terminal| ==>
      out[i] == if uids[i] == uid then Centring(Select(terminal, uids, uid), terminal[i], fnorm) else old(out[i])
  {
    MembersSound(uids, uid);
    GatherMembers(terminal, uids, uid);
    var subset := Gather(terminal, indices);
    var mean := Mean(subset);
    forall a | 0 <= a < |indices| {
      out[indices[a]] := (subset[a] - mean) / fnorm;
    }
    forall i: nat | i < |terminal| && uids[i] == uid ensures out[i] == (terminal[i] - mean) / fnorm {
      MembersComplete(uids, i);
    }
  }

  datatype Options = Options(omega: real, gamma: real, fnorm: real, minGroupSize: int)

  /** Any list of steps, turned into token advantages: the episode term everywhere, plus the step terms. */
  method ComputeTauGigpo(terminal: seq<real>, uids: seq<string>, steps: seq<StepRecord>, length: nat, mask: Option<seq<seq<int>>>,
                         o: Options) returns (r: Result<array2<real>>)
    requires MaskFits(mask, |terminal|, length)
    ensures r.Ok? <==> |terminal| == |uids| && o.fnorm > 0.0 && AllPayable(steps, terminal, o.gamma)
    ensures r.Ok? ==> r.value.Length0 == |terminal| && r.value.Length1 == length
    ensures r.Ok? ==> exists advantages: seq<real> ::
      Anchored(advantages, steps, terminal, o) && TokensShow(r.value, terminal, uids, steps, advantages, mask, o)
  {
    var episode := EpisodeAdvantages(terminal, uids, o.fnorm);
    if episode.Rejected? {
      return Rejected;
    }
    var advantages := StepAdvantages(steps, terminal, o.gamma, o.fnorm, o.minGroupSize);
    if advantages.Rejected? {
      return Rejected;
    }
    forall p | 0 <= p < |steps| ensures steps[p].trajectory < |terminal| {
      assert Payable(steps, terminal, o.gamma, p);
    }
    hide AllPayable, StepAdvantage, AllReturns, Centring, Combined, Select, TokensShow;
    r := CombineAdvantages(episode.value, advantages.value, steps, |terminal|, length, mask, o.omega);
    assert Anchored(advantages.value, steps, terminal, o);
    TokensFromParts(r.value, terminal, uids, steps, episode.value, advantages.value, mask, o);
  }

  /** The same from the payload of a rollout, whose steps are rebuilt first. */
  method ComputeFromPayload(terminal: seq<real>, uids: seq<string>, ids: seq<seq<Option<string>>>, spans: seq<seq<Option<Span>>>,
                            length: nat, mask: Option<seq<seq<int>>>, o: Options) returns (r: Result<array2<real>>)
    requires MaskFits(mask, |terminal|, length)
    ensures r.Ok? <==>
      && |terminal| == |uids| && o.fnorm > 0.0 && Aligned(ids, spans)
      && AllPayable(Steps(ids, spans, |ids|), terminal, o.gamma)
    ensures r.Ok? ==> r.value.Length0 == |terminal| && r.value.Length1 == length
    ensures r.Ok? ==> exists advantages: seq<real> ::
      Anchored(advantages, Steps(ids, spans, |ids|), terminal, o) && TokensShow(r.value, terminal, uids, Steps(ids, spans, |ids|), advantages, mask, o)
  {
    hide AllPayable, Steps, Anchored, TokensShow;
    var rebuilt := StepsFromPayload(ids, spans);
    if rebuilt.Rejected? {
      return Rejected;
    }
    r := ComputeTauGigpo(terminal, uids, rebuilt.value, length, mask, o);
  }

  lemma TokensFromParts(tokens: array2<real>, terminal: seq<real>, uids: seq<string>, steps: seq<StepRecord>, episode: seq<real>,
                        advantages: seq<real>, mask: Option<seq<seq<int>>>, o: Options)
    requires |terminal| == |uids| == |episode| == tokens.Length0 && o.fnorm > 0.0
    requires forall i :: 0 <= i < |episode| ==> episode[i] == Centring(Select(terminal, uids, uids[i]), terminal[i], o.fnorm)
    requires Combined(tokens, episode, advantages, steps, mask, o.omega)
    ensures TokensShow(tokens, terminal, uids, steps, advantages, mask, o)
  {
    hide Centring, StepTerm, Select;
  }

  ghost predicate Anchored(advantages: seq<real>, steps: seq<StepRecord>, terminal: seq<real>, o: Options) {
    && o.fnorm > 0.0 && AllPayable(steps, terminal, o.gamma) && |advantages| == |steps|
    && forall p: nat :: p < |steps| ==>
      advantages[p] == StepAdvantage(AllReturns(steps, terminal, o.gamma), Anchors(steps), p, o.fnorm, o.minGroupSize)
  }

  ghost predicate TokensShow(tokens: array2<real>, terminal: seq<real>, uids: seq<string>, steps: seq<StepRecord>, advantages: seq<real>,
                             mask: Option<seq<seq<int>>>, o: Options)
    reads tokens
  {
    && |terminal| == |uids| == tokens.Length0 && o.fnorm > 0.0 && |advantages| == |steps| && MaskFits(mask, tokens.Length0, tokens.Length1)
    && forall i, t :: 0 <= i < tokens.Length0 && 0 <= t < tokens.Length1 ==>
      tokens[i, t] == Times(
        Centring(Select(terminal, uids, uids[i]), terminal[i], o.fnorm) + StepTerm(steps, advantages, o.omega, |steps|, i, t),
        MaskValue(mask, i, t))
  }
}