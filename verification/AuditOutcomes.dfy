/** What the audit's records say, told from the call events and the other records of the group. */
module AuditOutcomes {
  import opened Common
  import opened GroupStats
  import opened GroupScale
  import opened MtGtpo
  import opened MtGtpoLaws
  import opened PaperAudit
  import CallCredit

  // ---- the raw components of one turn ----

  /** `chosen` lists, in order, the calls paid as duplicates. */
  ghost predicate Duplicates(calls: seq<CallEvent>, chosen: seq<nat>) {
    Increasing(chosen) && forall j: nat :: j in chosen <==> j < |calls| && calls[j].duplicate
  }

  function RewardsAt(calls: seq<CallEvent>, chosen: seq<nat>): seq<real>
    requires forall x :: 0 <= x < |chosen| ==> chosen[x] < |calls|
  {
    seq(|chosen|, x requires 0 <= x < |chosen| => calls[chosen[x]].reward)
  }

  lemma DuplicatesBounded(calls: seq<CallEvent>, chosen: seq<nat>)
    requires Duplicates(calls, chosen)
    ensures forall x :: 0 <= x < |chosen| ==> chosen[x] < |calls|
  {
    assert forall x :: 0 <= x < |chosen| ==> chosen[x] in chosen;
  }

  lemma LastDuplicate(calls: seq<CallEvent>, chosen: seq<nat>)
    requires Duplicates(calls, chosen) && calls != []
    ensures calls[|calls| - 1].duplicate ==>
      chosen != [] && chosen[|chosen| - 1] == |calls| - 1 && Duplicates(calls[..|calls| - 1], chosen[..|chosen| - 1])
    ensures !calls[|calls| - 1].duplicate ==> Duplicates(calls[..|calls| - 1], chosen)
  {
    var n := |calls| - 1;
    DuplicatesBounded(calls, chosen);
    if calls[n].duplicate {
      assert n in chosen;
      LastIsLargest(chosen, n);
      var before := chosen[..|chosen| - 1];
      forall j: nat ensures j in before <==> j < n && calls[..n][j].duplicate {
        assert j in chosen <==> j < |calls| && calls[j].duplicate;
      }
    } else {
      forall j: nat ensures j in chosen <==> j < n && calls[..n][j].duplicate {
        assert j in chosen <==> j < |calls| && calls[j].duplicate;
      }
    }
  }

  /** The duplicate part is the sum over the duplicates. */
  lemma {:induction false} DuplicateSumIs(calls: seq<CallEvent>, chosen: seq<nat>)
    requires Duplicates(calls, chosen)
    ensures forall x :: 0 <= x < |chosen| ==> chosen[x] < |calls|
    ensures DuplicateSum(calls) == Sum(RewardsAt(calls, chosen))
  {
    DuplicatesBounded(calls, chosen);
    if calls == [] {
      EmptyIffNone(chosen);
    } else {
      var n := |calls| - 1;
      LastDuplicate(calls, chosen);
      if calls[n].duplicate {
        var before := chosen[..|chosen| - 1];
        DuplicateSumIs(calls[..n], before);
        assert RewardsAt(calls, chosen)[..|chosen| - 1] == RewardsAt(calls[..n], before);
      } else {
        DuplicateSumIs(calls[..n], chosen);
        assert RewardsAt(calls, chosen) == RewardsAt(calls[..n], chosen);
      }
    }
  }

  /** What mean aggregation divides by. */
  function Divisor(calls: nat, meanAggregation: bool): real {
    if meanAggregation && calls > 1 then calls as real else 1.0
  }

  /** A record's raw components: the duplicates' pay, the rest of the reward, the later rewards, the discounted outcome. */
  lemma RecordedRaws(a: Audit, s: Settings, r: CreditRow, chosen: seq<nat>)
    requires AuditShaped(a) && ValidSettings(s) && Explains(a, s, r) && Duplicates(a.calls[r.row][r.turn], chosen)
    ensures r.row < |a.rewards| && r.turn < |a.calls[r.row]| && forall x :: 0 <= x < |chosen| ==> chosen[x] < |a.calls[r.row][r.turn]|
    ensures Times(r.raw.duplicate, Divisor(|a.calls[r.row][r.turn]|, a.meanAggregation[r.row]))
         == Sum(RewardsAt(a.calls[r.row][r.turn], chosen))
    ensures r.raw.duplicate + r.raw.other == r.reward == a.rewards[r.row][r.turn]
    ensures r.raw.future == s.gamma * Discounted(a.rewards[r.row], s.gamma, r.turn + 1)
    ensures r.raw.terminal == Times(Power(s.gamma, |a.rewards[r.row]| - r.turn), a.outcomes[r.row])
    ensures r.ret == r.reward + r.raw.future + r.raw.terminal
  {
    hide Part, TurnReturn, TurnAdvantage, EpisodeAdvantage, Discounted, DuplicateSum, Sum, Duplicates;
    var calls := a.calls[r.row][r.turn];
    DuplicateSumIs(calls, chosen);
    DividedBack(DuplicateSum(calls), calls, a.meanAggregation[r.row]);
    FutureIsLaterRewards(a, s, r.row, r.turn);
    hide DuplicateReward;
  }

  lemma DividedBack(sum: real, calls: seq<CallEvent>, meanAggregation: bool)
    requires sum == DuplicateSum(calls)
    ensures Times(DuplicateReward(calls, meanAggregation), Divisor(|calls|, meanAggregation)) == sum
  {
    hide DuplicateSum;
  }

  /** With no duplicate the duplicate part is zero; with nothing but duplicates it is all that was paid. */
  lemma AllOrNothing(a: Audit, s: Settings, r: CreditRow)
    requires AuditShaped(a) && ValidSettings(s) && Explains(a, s, r)
    ensures r.row < |a.calls| == |a.meanAggregation| && r.turn < |a.calls[r.row]|
    ensures var calls := a.calls[r.row][r.turn];
      && ((forall j :: 0 <= j < |calls| ==> !calls[j].duplicate) ==> r.raw.duplicate == 0.0)
      && ((forall j :: 0 <= j < |calls| ==> calls[j].duplicate) ==>
          Times(r.raw.duplicate, Divisor(|calls|, a.meanAggregation[r.row])) == Sum(seq(|calls|, j requires 0 <= j < |calls| => calls[j].reward)))
  {
    var calls := a.calls[r.row][r.turn];
    if forall j :: 0 <= j < |calls| ==> !calls[j].duplicate {
      NoneIsZero(a, s, r);
    }
    if forall j :: 0 <= j < |calls| ==> calls[j].duplicate {
      var chosen := seq(|calls|, j requires 0 <= j < |calls| => j);
      EveryoneListed(calls, chosen);
      RecordedRaws(a, s, r, chosen);
      assert RewardsAt(calls, chosen) == seq(|calls|, j requires 0 <= j < |calls| => calls[j].reward);
    }
  }

  lemma EveryoneListed(calls: seq<CallEvent>, chosen: seq<nat>)
    requires forall j :: 0 <= j < |calls| ==> calls[j].duplicate
    requires |chosen| == |calls| && forall j :: 0 <= j < |chosen| ==> chosen[j] == j
    ensures Duplicates(calls, chosen)
  {
    forall j: nat ensures j in chosen <==> j < |calls| && calls[j].duplicate {
      assert j < |calls| ==> chosen[j] == j;
    }
  }

  lemma NoneIsZero(a: Audit, s: Settings, r: CreditRow)
    requires AuditShaped(a) && ValidSettings(s) && Explains(a, s, r)
    requires forall j :: 0 <= j < |a.calls[r.row][r.turn]| ==> !a.calls[r.row][r.turn][j].duplicate
    ensures r.raw.duplicate == 0.0
  {
    RecordedRaws(a, s, r, []);
    ZeroFactor(r.raw.duplicate, Divisor(|a.calls[r.row][r.turn]|, a.meanAggregation[r.row]));
  }

  lemma ZeroFactor(x: real, y: real)
    requires Times(x, y) == 0.0 && y > 0.0
    ensures x == 0.0
  {
  }

  /** Summed pay: one more call changes the duplicate part by its reward exactly if it is a duplicate. */
  lemma OneMoreCall(a: Audit, b: Audit, s: Settings, r: CreditRow, q: CreditRow, call: CallEvent)
    requires AuditShaped(a) && AuditShaped(b) && ValidSettings(s) && Explains(a, s, r) && Explains(b, s, q)
    requires b.calls[q.row][q.turn] == a.calls[r.row][r.turn] + [call] && !a.meanAggregation[r.row] && !b.meanAggregation[q.row]
    ensures q.raw.duplicate == r.raw.duplicate + if call.duplicate then call.reward else 0.0
  {
    hide Part, TurnReturn, TurnAdvantage, EpisodeAdvantage;
    var calls := a.calls[r.row][r.turn];
    assert (calls + [call])[..|calls|] == calls;
  }

  // ---- the shares of one group ----

  function Entry(p: Parts, c: Component): real {
    match c
    case DuplicateImmediate => p.duplicate
    case OtherImmediate => p.other
    case FutureProcess => p.future
    case TerminalOutcome => p.terminal
  }

  function RowsOf(records: seq<CreditRow>): seq<nat> {
    seq(|records|, x requires 0 <= x < |records| => records[x].row)
  }

  function ReturnsOf(records: seq<CreditRow>): seq<real> {
    seq(|records|, x requires 0 <= x < |records| => records[x].ret)
  }

  function RawsOf(records: seq<CreditRow>, c: Component): seq<real> {
    seq(|records|, x requires 0 <= x < |records| => Entry(records[x].raw, c))
  }

  function SharesOf(records: seq<CreditRow>, c: Component): seq<real> {
    seq(|records|, x requires 0 <= x < |records| => Entry(records[x].parts, c))
  }

  /** One record for each row of sample group `uid` that has a record of turn `k`, in row order. */
  ghost predicate GroupRecords(a: Audit, s: Settings, uid: string, k: nat, records: seq<CreditRow>)
    requires AuditShaped(a) && ValidSettings(s)
  {
    && Increasing(RowsOf(records))
    && (forall x :: 0 <= x < |records| ==> Explains(a, s, records[x]) && records[x].turn == k)
    && forall i: nat :: i in RowsOf(records) <==> i < |a.rewards| && a.uids[i] == uid && k < |a.calls[i]|
  }

  lemma GroupRows(a: Audit, s: Settings, uid: string, k: nat, records: seq<CreditRow>)
    requires AuditShaped(a) && ValidSettings(s) && GroupRecords(a, s, uid, k, records)
    ensures RowsOf(records) == Peers(Recorded(a), uid, k)
  {
    hide Explains;
    var t := Recorded(a);
    CallCredit.PeersAreMembers(t, uid, k);
    hide Peers;
    forall i ensures i in RowsOf(records) <==> i in Peers(t, uid, k) {
      if 0 <= i < |a.rewards| {
        assert t.active[i] == (a.calls[i] != []);
      }
    }
    SameIncreasing(RowsOf(records), Peers(t, uid, k));
  }

  lemma RecordEntries(a: Audit, s: Settings, r: CreditRow, c: Component)
    requires AuditShaped(a) && ValidSettings(s) && Explains(a, s, r)
    ensures r.ret == RecordedReturns(a, s)[r.row][r.turn] && Entry(r.raw, c) == Raws(a, s, c)[r.row][r.turn]
    ensures Entry(r.parts, c) == Part(a, s, c, r.row, r.turn) && Entry(r.raw, c) == Raw(a, s, c, r.row, r.turn)
  {
    hide Part, Raw, TurnReturn, TurnAdvantage, EpisodeAdvantage;
  }

  lemma GroupColumns(a: Audit, s: Settings, uid: string, k: nat, records: seq<CreditRow>, c: Component)
    requires AuditShaped(a) && ValidSettings(s) && GroupRecords(a, s, uid, k, records)
    ensures ReturnsOf(records) == GroupReturns(a, s, uid, k) && RawsOf(records, c) == PeerRaws(a, s, c, uid, k)
  {
    hide Explains, Peers, Raws, RecordedReturns, Recorded, Entry;
    GroupRows(a, s, uid, k, records);
    forall x | 0 <= x < |records|
      ensures RowsOf(records)[x] == records[x].row && records[x].turn == k
      ensures records[x].ret == RecordedReturns(a, s)[records[x].row][k] && Entry(records[x].raw, c) == Raws(a, s, c)[records[x].row][k]
    {
      RecordEntries(a, s, records[x], c);
    }
  }

  lemma ShareDivides(values: seq<real>, raws: seq<real>, zs: seq<real>, sc: Scale)
    requires values != [] && |values| == |raws| == |zs| && sc.eps > 0.0
    requires forall x :: 0 <= x < |zs| ==> zs[x] == Share(values, raws, raws[x], sc)
    ensures |values| >= sc.minGroupSize && Deviation(values, sc) > 0.0 ==> Divided(raws, zs, Mean(raws), Deviation(values, sc) + sc.eps)
    ensures |values| < sc.minGroupSize || Deviation(values, sc) <= 0.0 ==> forall x :: 0 <= x < |zs| ==> zs[x] == 0.0
    ensures Sum(zs) == 0.0
  {
    hide Mean, Deviation, Sum;
    SharesCancel(values, raws, zs, sc);
  }

  /** In each group every component's raw values are centred and scaled by the deviation of the returns. */
  lemma PartsShared(a: Audit, s: Settings, uid: string, k: nat, records: seq<CreditRow>, c: Component) returns (d: real)
    requires AuditShaped(a) && ValidSettings(s) && IsRoot(s.scale.root) && GroupRecords(a, s, uid, k, records) && records != []
    ensures IsShared(ReturnsOf(records), RawsOf(records, c), SharesOf(records, c), s.scale.eps, s.scale.minGroupSize, d)
  {
    hide Explains, Peers, Raw, Part, Entry, Share, Deviation, Mean, Sum, IsShared, IsRoot;
    var values, raws, zs := ReturnsOf(records), RawsOf(records, c), SharesOf(records, c);
    GroupColumns(a, s, uid, k, records, c);
    forall x | 0 <= x < |zs| ensures zs[x] == Share(values, raws, raws[x], s.scale) {
      RecordEntries(a, s, records[x], c);
      assert records[x].row in RowsOf(records) by {
        assert RowsOf(records)[x] == records[x].row;
      }
      PartIsShare(a, s, c, records[x].row, k);
    }
    ShareDivides(values, raws, zs, s.scale);
    DividedIsShared(values, raws, zs, s.scale, Mean(raws));
    d := Deviation(values, s.scale);
  }

  lemma PartIsShare(a: Audit, s: Settings, c: Component, i: nat, k: nat)
    requires AuditShaped(a) && ValidSettings(s) && i < |a.rewards| && k < |a.calls[i]|
    ensures Part(a, s, c, i, k)
         == Share(GroupReturns(a, s, a.uids[i], k), PeerRaws(a, s, c, a.uids[i], k), Raw(a, s, c, i, k), s.scale)
  {
    hide Share, Raw, Peers;
  }
}
