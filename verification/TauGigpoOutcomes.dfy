/** The step and episode terms of the anchor-grouped estimator, told from rewards, anchors and uids alone. */
module TauGigpoOutcomes {
  import opened Common
  import opened GroupStats
  import opened MtGtpoLaws
  import opened TauGigpo

  // ---- returns ----

  lemma DividePower(gamma: real, x: real)
    requires gamma != 0.0 && x != 0.0
    ensures gamma * x != 0.0 && 1.0 / x == gamma * (1.0 / (gamma * x))
  {
  }

  /** One more step to come is one more factor gamma, below zero too. */
  lemma PowerLaw(gamma: real, n: int)
    requires n >= 0 || gamma != 0.0
    ensures IntPower(gamma, n + 1) == gamma * IntPower(gamma, n) && IntPower(gamma, 0) == 1.0
  {
    if n < 0 {
      PowerNonZero(gamma, -n - 1);
      DividePower(gamma, Power(gamma, -n - 1));
    }
  }

  lemma Reassociate(gamma: real, x: real, y: real)
    ensures (gamma * x) * y == gamma * (x * y)
  {
  }

  /** `same` lists the steps of one trajectory. */
  ghost predicate OfTrajectory(steps: seq<StepRecord>, trajectory: nat, same: seq<nat>) {
    Increasing(same) && forall q: nat :: q in same <==> q < |steps| && steps[q].trajectory == trajectory
  }

  lemma MembersAre<K>(keys: seq<K>, key: K, rows: seq<nat>)
    requires Increasing(rows) && forall i: nat :: i in rows <==> i < |keys| && keys[i] == key
    ensures rows == Members(keys, key)
  {
    MembersSound(keys, key);
    forall i: nat ensures i in rows <==> i in Members(keys, key) {
      if i < |keys| && keys[i] == key {
        MembersComplete(keys, i);
      }
    }
    SameIncreasing(rows, Members(keys, key));
  }

  lemma CountIs(steps: seq<StepRecord>, trajectory: nat, same: seq<nat>)
    requires OfTrajectory(steps, trajectory, same)
    ensures CountOf(steps, trajectory) == |same|
  {
    MembersAre(Trajectories(steps), trajectory, same);
  }

  /**
   * In any list of steps: the last numbered step of a trajectory gets the terminal reward, and a step gets gamma times the
   * return of one numbered next.
   */
  lemma AnyReturnsRecur(steps: seq<StepRecord>, terminal: seq<real>, gamma: real, p: nat, q: nat, same: seq<nat>)
    requires AllPayable(steps, terminal, gamma) && p < |steps| && q < |steps|
    requires OfTrajectory(steps, steps[p].trajectory, same)
    ensures Payable(steps, terminal, gamma, p) && Payable(steps, terminal, gamma, q)
    ensures steps[p].index == |same| - 1 ==> StepReturn(steps, terminal, gamma, p) == terminal[steps[p].trajectory]
    ensures steps[q].trajectory == steps[p].trajectory && steps[q].index == steps[p].index + 1 ==>
      StepReturn(steps, terminal, gamma, p) == gamma * StepReturn(steps, terminal, gamma, q)
  {
    CountIs(steps, steps[p].trajectory, same);
    assert Payable(steps, terminal, gamma, p) && Payable(steps, terminal, gamma, q);
    hide CountOf, IntPower, OfTrajectory, AllPayable;
    PowerLaw(gamma, 0);
    if steps[q].trajectory == steps[p].trajectory && steps[q].index == steps[p].index + 1 {
      PowerLaw(gamma, Remaining(steps, q));
      Reassociate(gamma, IntPower(gamma, Remaining(steps, q)), terminal[steps[p].trajectory]);
    }
  }

  // ---- step advantages ----

  /** What the terms of one group must be: sum zero, and differences that are the values' over fnorm. */
  ghost predicate IsCentred(values: seq<real>, terms: seq<real>, fnorm: real) {
    && |terms| == |values| && Sum(terms) == 0.0
    && forall i, j :: 0 <= i < |terms| && 0 <= j < |terms| ==> (terms[i] - terms[j]) * fnorm == values[i] - values[j]
  }

  lemma CentredGap(x: real, y: real, m: real, f: real)
    requires f != 0.0
    ensures ((x - m) / f - (y - m) / f) * f == x - y
  {
    assert (x - m) / f - (y - m) / f == (x - y) / f;
  }

  /** The values minus their mean, over fnorm. */
  ghost predicate Averaged(values: seq<real>, terms: seq<real>, fnorm: real) {
    && |terms| == |values| > 0 && fnorm != 0.0
    && forall i :: 0 <= i < |terms| ==> terms[i] == (values[i] - Mean(values)) / fnorm
  }

  lemma CentredGroup(values: seq<real>, terms: seq<real>, fnorm: real)
    requires Averaged(values, terms, fnorm)
    ensures IsCentred(values, terms, fnorm)
  {
    CentredScaledSum(values, terms, fnorm);
    hide Mean, Sum;
    forall i, j | 0 <= i < |terms| && 0 <= j < |terms| ensures (terms[i] - terms[j]) * fnorm == values[i] - values[j] {
      CentredGap(values[i], values[j], Mean(values), fnorm);
    }
  }

  /** `rows` lists the steps that share an anchor. */
  ghost predicate SharesAnchor(anchors: seq<Option<string>>, anchor: string, rows: seq<nat>) {
    Increasing(rows) && forall p: nat :: p in rows <==> p < |anchors| && anchors[p] == Some(anchor)
  }

  lemma SharesBounds(anchors: seq<Option<string>>, anchor: string, rows: seq<nat>)
    requires SharesAnchor(anchors, anchor, rows)
    ensures forall a :: 0 <= a < |rows| ==> rows[a] < |anchors| && anchors[rows[a]] == Some(anchor)
  {
    assert forall a :: 0 <= a < |rows| ==> rows[a] in rows;
  }

  /** Steps without an anchor and groups below the minimum get nothing; any other anchor group is centred over fnorm. */
  lemma AnchorTerms(steps: seq<StepRecord>, terminal: seq<real>, o: Options, advantages: seq<real>, anchor: string, rows: seq<nat>)
    requires Anchored(advantages, steps, terminal, o) && SharesAnchor(Anchors(steps), anchor, rows) && rows != []
    ensures forall p :: 0 <= p < |steps| && steps[p].anchor.None? ==> advantages[p] == 0.0
    ensures forall a :: 0 <= a < |rows| ==> rows[a] < |steps|
    ensures if |rows| < o.minGroupSize then forall a :: 0 <= a < |rows| ==> advantages[rows[a]] == 0.0
      else IsCentred(Gather(AllReturns(steps, terminal, o.gamma), rows), Gather(advantages, rows), o.fnorm)
  {
    hide *;
    StepsAreAdvantages(steps, terminal, o, advantages);
    var values, anchors := AllReturns(steps, terminal, o.gamma), Anchors(steps);
    SharesBounds(anchors, anchor, rows);
    NoAnchorNoTerm(steps, values, o, advantages);
    AnchorMembers(values, anchors, anchor, rows);
    AnchorAverages(values, anchors, o, advantages, anchor, rows);
    if |rows| >= o.minGroupSize {
      CentredGroup(Gather(values, rows), Gather(advantages, rows), o.fnorm);
    }
  }

  /** One advantage a step, each its step advantage among the values. */
  ghost predicate StepsScored(values: seq<real>, anchors: seq<Option<string>>, o: Options, advantages: seq<real>) {
    && |values| == |anchors| == |advantages| && o.fnorm > 0.0
    && forall p: nat :: p < |anchors| ==> advantages[p] == StepAdvantage(values, anchors, p, o.fnorm, o.minGroupSize)
  }

  lemma StepsAreAdvantages(steps: seq<StepRecord>, terminal: seq<real>, o: Options, advantages: seq<real>)
    requires Anchored(advantages, steps, terminal, o)
    ensures AllPayable(steps, terminal, o.gamma) && o.fnorm > 0.0
    ensures |AllReturns(steps, terminal, o.gamma)| == |Anchors(steps)| == |steps| == |advantages| && forall p :: 0 <= p < |steps| ==> Anchors(steps)[p] == steps[p].anchor
    ensures StepsScored(AllReturns(steps, terminal, o.gamma), Anchors(steps), o, advantages)
  {
    hide StepAdvantage, AllPayable;
  }

  lemma NoAnchorNoTerm(steps: seq<StepRecord>, values: seq<real>, o: Options, advantages: seq<real>)
    requires StepsScored(values, Anchors(steps), o, advantages) && |steps| == |advantages|
    requires forall p :: 0 <= p < |steps| ==> Anchors(steps)[p] == steps[p].anchor
    ensures forall p :: 0 <= p < |steps| && steps[p].anchor.None? ==> advantages[p] == 0.0
  {
    hide Select, Mean;
  }

  lemma AnchorMembers(values: seq<real>, anchors: seq<Option<string>>, anchor: string, rows: seq<nat>)
    requires |values| == |anchors| && SharesAnchor(anchors, anchor, rows)
    requires forall a :: 0 <= a < |rows| ==> rows[a] < |anchors|
    ensures Gather(values, rows) == Select(values, anchors, Some(anchor))
  {
    MembersAre(anchors, Some(anchor), rows);
    hide Select;
    GatherMembers(values, anchors, Some(anchor));
  }

  lemma AnchorAverages(values: seq<real>, anchors: seq<Option<string>>, o: Options, advantages: seq<real>, anchor: string, rows: seq<nat>)
    requires StepsScored(values, anchors, o, advantages) && rows != []
    requires forall a :: 0 <= a < |rows| ==> rows[a] < |anchors| && anchors[rows[a]] == Some(anchor)
    requires Gather(values, rows) == Select(values, anchors, Some(anchor))
    ensures if |rows| < o.minGroupSize then forall a :: 0 <= a < |rows| ==> advantages[rows[a]] == 0.0
      else Averaged(Gather(values, rows), Gather(advantages, rows), o.fnorm)
  {
    hide Select, Mean;
    var group := Gather(values, rows);
    forall a | 0 <= a < |rows|
      ensures advantages[rows[a]] == if |rows| < o.minGroupSize then 0.0 else (group[a] - Mean(group)) / o.fnorm
    {
    }
  }

  // ---- episode terms ----

  function EpisodeTerms(terminal: seq<real>, uids: seq<string>, fnorm: real): (terms: seq<real>)
    requires |terminal| == |uids| && fnorm > 0.0
    ensures |terms| == |terminal|
  {
    seq(|terminal|, i requires 0 <= i < |terminal| => Centring(Select(terminal, uids, uids[i]), terminal[i], fnorm))
  }

  /** `rows` lists the rows of one sample group. */
  ghost predicate SharesUid(uids: seq<string>, uid: string, rows: seq<nat>) {
    Increasing(rows) && forall i: nat :: i in rows <==> i < |uids| && uids[i] == uid
  }

  /** The terminal rewards of a sample group are centred over fnorm, whatever its size. */
  lemma EpisodeCentred(terminal: seq<real>, uids: seq<string>, fnorm: real, uid: string, rows: seq<nat>)
    requires |terminal| == |uids| && fnorm > 0.0 && SharesUid(uids, uid, rows) && rows != []
    ensures forall a :: 0 <= a < |rows| ==> rows[a] < |uids|
    ensures IsCentred(Gather(terminal, rows), Gather(EpisodeTerms(terminal, uids, fnorm), rows), fnorm)
  {
    hide *;
    EpisodeMembers(terminal, uids, uid, rows);
    EpisodeAverages(terminal, uids, fnorm, uid, rows);
    CentredGroup(Gather(terminal, rows), Gather(EpisodeTerms(terminal, uids, fnorm), rows), fnorm);
  }

  lemma EpisodeMembers(terminal: seq<real>, uids: seq<string>, uid: string, rows: seq<nat>)
    requires |terminal| == |uids| && SharesUid(uids, uid, rows)
    ensures forall a :: 0 <= a < |rows| ==> rows[a] < |uids| && uids[rows[a]] == uid
    ensures Gather(terminal, rows) == Select(terminal, uids, uid)
  {
    assert forall a :: 0 <= a < |rows| ==> rows[a] in rows;
    MembersAre(uids, uid, rows);
    hide Select;
    GatherMembers(terminal, uids, uid);
  }

  lemma EpisodeAverages(terminal: seq<real>, uids: seq<string>, fnorm: real, uid: string, rows: seq<nat>)
    requires |terminal| == |uids| && fnorm > 0.0 && rows != []
    requires forall a :: 0 <= a < |rows| ==> rows[a] < |uids| && uids[rows[a]] == uid
    requires Gather(terminal, rows) == Select(terminal, uids, uid)
    ensures Averaged(Gather(terminal, rows), Gather(EpisodeTerms(terminal, uids, fnorm), rows), fnorm)
  {
    hide Select, Mean, Centring;
    var group, terms := Gather(terminal, rows), Gather(EpisodeTerms(terminal, uids, fnorm), rows);
    forall a | 0 <= a < |rows| ensures terms[a] == (group[a] - Mean(group)) / fnorm {
      CentringIs(group, group[a], fnorm);
    }
  }

  lemma CentringIs(values: seq<real>, x: real, fnorm: real)
    requires values != [] && fnorm > 0.0
    ensures Centring(values, x, fnorm) == (x - Mean(values)) / fnorm
  {
    hide Mean;
  }

  // ---- tokens ----

  /** `landing` lists the anchored steps of trajectory `i` whose span covers token `t`. */
  ghost predicate Landing(steps: seq<StepRecord>, i: nat, t: nat, landing: seq<nat>) {
    && Increasing(landing)
    && forall p: nat :: p in landing <==>
      p < |steps| && steps[p].anchor.Some? && steps[p].trajectory == i && steps[p].span.Some?
      && steps[p].span.value.0 <= t < steps[p].span.value.1
  }

  function Weighted(advantages: seq<real>, omega: real, landing: seq<nat>): seq<real>
    requires forall a :: 0 <= a < |landing| ==> landing[a] < |advantages|
  {
    seq(|landing|, a requires 0 <= a < |landing| => Times(omega, advantages[landing[a]]))
  }

  lemma LandingSnoc(steps: seq<StepRecord>, n: nat, i: nat, t: nat, landing: seq<nat>)
    requires n < |steps| && Landing(steps[..n + 1], i, t, landing)
    ensures forall a :: 0 <= a < |landing| ==> landing[a] <= n
    ensures Lands(steps[n], i, t) ==>
      landing != [] && landing[|landing| - 1] == n && Landing(steps[..n], i, t, landing[..|landing| - 1])
    ensures !Lands(steps[n], i, t) ==> Landing(steps[..n], i, t, landing)
  {
    assert forall a :: 0 <= a < |landing| ==> landing[a] in landing;
    if Lands(steps[n], i, t) {
      assert n in landing;
      LastIsLargest(landing, n);
      var before := landing[..|landing| - 1];
      forall p: nat ensures p in before <==>
        p < n && steps[..n][p].anchor.Some? && steps[..n][p].trajectory == i && steps[..n][p].span.Some?
        && steps[..n][p].span.value.0 <= t < steps[..n][p].span.value.1
      {
        assert p in landing <==> p in before || p == n;
      }
    } else {
      assert n !in landing;
    }
  }

  lemma {:induction false} StepTermIs(steps: seq<StepRecord>, advantages: seq<real>, omega: real, n: nat, i: nat, t: nat, landing: seq<nat>)
    requires n <= |steps| == |advantages| && Landing(steps[..n], i, t, landing)
    ensures forall a :: 0 <= a < |landing| ==> landing[a] < n
    ensures StepTerm(steps, advantages, omega, n, i, t) == Sum(Weighted(advantages, omega, landing))
  {
    if n == 0 {
      EmptyIffNone(landing);
    } else {
      LandingSnoc(steps, n - 1, i, t, landing);
      hide Lands, Times;
      if Lands(steps[n - 1], i, t) {
        var before := landing[..|landing| - 1];
        StepTermIs(steps, advantages, omega, n - 1, i, t, before);
        assert Weighted(advantages, omega, landing)[..|landing| - 1] == Weighted(advantages, omega, before);
      } else {
        StepTermIs(steps, advantages, omega, n - 1, i, t, landing);
      }
    }
  }

  /** A token carries its row's episode term plus omega times the advantages of the steps landing on it, under its mask. */
  lemma TokenIs(tokens: array2<real>, terminal: seq<real>, uids: seq<string>, steps: seq<StepRecord>, advantages: seq<real>,
                mask: Option<seq<seq<int>>>, o: Options, i: nat, t: nat, landing: seq<nat>)
    requires TokensShow(tokens, terminal, uids, steps, advantages, mask, o) && i < tokens.Length0 && t < tokens.Length1
    requires Landing(steps, i, t, landing)
    ensures forall a :: 0 <= a < |landing| ==> landing[a] < |advantages|
    ensures var token := EpisodeTerms(terminal, uids, o.fnorm)[i] + Sum(Weighted(advantages, o.omega, landing));
      tokens[i, t] == if mask.Some? then Times(token, mask.value[i][t] as real) else token
  {
    assert steps[..|steps|] == steps;
    StepTermIs(steps, advantages, o.omega, |steps|, i, t, landing);
    hide StepTerm, Centring, Select, Weighted, Sum, Landing;
  }
}
