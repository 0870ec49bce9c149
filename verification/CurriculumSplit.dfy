/** The group-preserving train/validation split of reviewed labels. */
module CurriculumSplit {
  import opened Common
  import opened Sorting
  import opened CurriculumGroups
  import opened BucketQuota

  // ---- the whole split ----

  datatype Split = Split(train: seq<nat>, validation: seq<nat>, held: seq<HeldRow>, sides: Sides,
                         buckets: seq<seq<Group>>, reports: seq<Report>)

  /** The groups placed in bucket `b`, in order. */
  function PlacedIn(groups: seq<Group>, protected: set<nat>, b: nat): (p: seq<Group>)
    ensures forall g :: g in p <==> g in groups && VerdictOf(g, protected).Placed? && Level(VerdictOf(g, protected).bucket) == b
  {
    if groups == [] then []
    else
      var v := VerdictOf(groups[|groups| - 1], protected);
      PlacedIn(groups[..|groups| - 1], protected, b) + if v.Placed? && Level(v.bucket) == b then [groups[|groups| - 1]] else []
  }

  function HeldIn(groups: seq<Group>, protected: set<nat>): seq<HeldRow> {
    if groups == [] then []
    else
      var g := groups[|groups| - 1];
      var v := VerdictOf(g, protected);
      HeldIn(groups[..|groups| - 1], protected) + if v.Held? then Hold(g.members, v.reason) else []
  }

  lemma VerdictStep(groups: seq<Group>, n: nat, protected: set<nat>)
    requires n < |groups|
    ensures var v := VerdictOf(groups[n], protected);
      && (forall b :: PlacedIn(groups[..n + 1], protected, b) == PlacedIn(groups[..n], protected, b)
            + if v.Placed? && Level(v.bucket) == b then [groups[n]] else [])
      && HeldIn(groups[..n + 1], protected) == HeldIn(groups[..n], protected) + if v.Held? then Hold(groups[n].members, v.reason) else []
  {
    hide VerdictOf;
    TakeSnoc(groups, n);
    assert groups[..n + 1][..n] == groups[..n];
  }

  ghost predicate Clean(groups: seq<Group>) {
    forall g :: g in groups ==> !LocksClash(g.members)
  }

  /** One pass over the groups: stop on a lock clash, hold whole groups, or queue them by bucket. */
  method SortOut(groups: seq<Group>, protected: set<nat>) returns (ok: bool, queues: seq<seq<Group>>, held: seq<HeldRow>)
    ensures ok <==> Clean(groups)
    ensures ok ==> |queues| == 3 && forall b: nat :: b < 3 ==> queues[b] == PlacedIn(groups, protected, b)
    ensures ok ==> held == HeldIn(groups, protected)
  {
    hide LocksClash, VerdictOf;
    queues, held := [[], [], []], [];
    for n := 0 to |groups|
      invariant forall g :: g in groups[..n] ==> !LocksClash(g.members)
      invariant |queues| == 3 && forall b: nat :: b < 3 ==> queues[b] == PlacedIn(groups[..n], protected, b)
      invariant held == HeldIn(groups[..n], protected)
    {
      var g := groups[n];
      TakeSnoc(groups, n);
      VerdictStep(groups, n, protected);
      if LocksClash(g.members) {
        ok := false;
        return;
      }
      match VerdictOf(g, protected)
      case Held(reason) =>
        held := held + Hold(g.members, reason);
      case Placed(bucket, _) =>
        queues := queues[Level(bucket) := queues[Level(bucket)] + [g]];
    }
    assert groups[..|groups|] == groups;
    ok := true;
  }

  function BySource(h: HeldRow): int {
    h.source
  }

  function ById(g: Group): int {
    g.id
  }

  function Identity(n: nat): int {
    n
  }

  /** A bucket's locks are honoured, its report is right, and its quota is met as far as whole groups allow. */
  ghost predicate BucketOk(groups: seq<Group>, ratio: real, rank: nat -> int, sides: Sides, r: Report) {
    && Honoured(groups, sides) && Greedy(groups, rank, sides, r) && Balanced(groups, sides, r) && TakenBack(groups, sides, r)
    && r.rows == |RowsOf(groups)| && r.target == Target(r.rows, ratio)
    && r.validation == Weigh(groups, OnValidation(sides))
    && Distance(r.validation, r.target) <= Distance(LockedValidation(groups), r.target)
    && (Singles(groups) && 0.0 < ratio < 1.0 ==> r.validation == r.target)
  }

  lemma FilledIsOk(groups: seq<Group>, ratio: real, rank: nat -> int, before: Sides, sides: Sides,
                   train: seq<nat>, validation: seq<nat>, r: Report)
    requires Filled(groups, ratio, rank, before, sides, train, validation, r)
    ensures BucketOk(groups, ratio, rank, sides, r)
  {
    hide LockOf, RowsOf, Target, LockedValidation, Singles, Chosen, Honoured, Greedy, Balanced, TakenBack, Weigh, Extends;
  }

  /** Two filled lists, side by side. */
  lemma FiledAppend(a: seq<Group>, b: seq<Group>, less: Sides, more: Sides, t1: seq<nat>, v1: seq<nat>, t2: seq<nat>, v2: seq<nat>)
    requires Filed(a, less, t1, v1) && Filed(b, more, t2, v2)
    requires forall id :: id in less ==> id in more && more[id] == less[id]
    ensures Filed(a + b, more, t1 + t2, v1 + v2)
  {
    RowsAppend(a, b);
    WeighAppend(a, b, OnValidation(more));
    WeighSame(a, OnValidation(less), OnValidation(more));
    assert |v1 + v2| == Weigh(a + b, OnValidation(more));
    assert multiset(t1 + t2) + multiset(v1 + v2) == RowsOf(a + b);
    FiledSides(a, b, less, more, t1, v1, t2, v2);
    hide RowsOf, Weigh;
  }

  lemma FiledSides(a: seq<Group>, b: seq<Group>, less: Sides, more: Sides, t1: seq<nat>, v1: seq<nat>, t2: seq<nat>, v2: seq<nat>)
    requires Filed(a, less, t1, v1) && Filed(b, more, t2, v2)
    requires forall id :: id in less ==> id in more && more[id] == less[id]
    ensures forall g :: g in a + b ==>
      g.id in more && forall l :: l in g.members ==> l.source in if more[g.id] == Train then t1 + t2 else v1 + v2
  {
    hide RowsOf, Weigh;
  }

  lemma NothingFiled()
    ensures Filed([], map[], [], []) && IdSet([]) == {}
  {
  }

  lemma IdSetAppend(a: seq<Group>, b: seq<Group>)
    ensures IdSet(a + b) == IdSet(a) + IdSet(b)
  {
  }

  /** The groups of the first `n` queues, in order. */
  function Joined(queues: seq<seq<Group>>, n: nat): seq<Group>
    requires n <= |queues|
  {
    if n == 0 then [] else Joined(queues, n - 1) + queues[n - 1]
  }

  /** The first `n` buckets are filled: rows, sides and reports. */
  ghost predicate FilledBelow(queues: seq<seq<Group>>, n: nat, ratio: real, rank: nat -> int, sides: Sides, train: seq<nat>, validation: seq<nat>,
                              reports: seq<Report>)
    requires n <= |queues|
  {
    && Filed(Joined(queues, n), sides, train, validation) && sides.Keys == IdSet(Joined(queues, n)) && |reports| == n
    && BucketsOk(queues, n, ratio, rank, sides, reports)
  }

  lemma BucketStays(groups: seq<Group>, ratio: real, rank: nat -> int, less: Sides, more: Sides, r: Report)
    requires BucketOk(groups, ratio, rank, less, r) && IdSet(groups) <= less.Keys
    requires forall id :: id in less ==> id in more && more[id] == less[id]
    ensures BucketOk(groups, ratio, rank, more, r)
  {
    hide LockOf, RowsOf, Target, LockedValidation, Singles, Chosen;
    KeptHonoured(groups, less, more);
    forall g | g in groups ensures g.id in less {
      assert g.id in IdSet(groups);
    }
    WeighSame(groups, OnValidation(less), OnValidation(more));
  }

  lemma {:induction false} JoinedHas(queues: seq<seq<Group>>, n: nat, b: nat)
    requires b < n <= |queues|
    ensures IdSet(queues[b]) <= IdSet(Joined(queues, n))
  {
    IdSetAppend(Joined(queues, n - 1), queues[n - 1]);
    if b < n - 1 {
      JoinedHas(queues, n - 1, b);
    }
  }

  ghost predicate BucketsOk(queues: seq<seq<Group>>, n: nat, ratio: real, rank: nat -> int, sides: Sides, reports: seq<Report>)
    requires n <= |queues| && n <= |reports|
  {
    forall b: nat :: b < n ==> BucketOk(queues[b], ratio, rank, sides, reports[b])
  }

  lemma BucketsStay(queues: seq<seq<Group>>, n: nat, ratio: real, rank: nat -> int, less: Sides, reports: seq<Report>, more: Sides)
    requires n <= |queues| && n <= |reports| && BucketsOk(queues, n, ratio, rank, less, reports) && less.Keys == IdSet(Joined(queues, n))
    requires forall id :: id in less ==> id in more && more[id] == less[id]
    ensures BucketsOk(queues, n, ratio, rank, more, reports)
  {
    hide BucketOk, IdSet, Joined;
    forall b: nat | b < n ensures BucketOk(queues[b], ratio, rank, more, reports[b]) {
      JoinedHas(queues, n, b);
      BucketStays(queues[b], ratio, rank, less, more, reports[b]);
    }
  }

  lemma FilledStep(queues: seq<seq<Group>>, n: nat, ratio: real, rank: nat -> int, less: Sides, train: seq<nat>, validation: seq<nat>,
                   reports: seq<Report>, more: Sides, t: seq<nat>, v: seq<nat>, r: Report)
    requires n < |queues| && FilledBelow(queues, n, ratio, rank, less, train, validation, reports)
    requires Filled(queues[n], ratio, rank, less, more, t, v, r)
    ensures FilledBelow(queues, n + 1, ratio, rank, more, train + t, validation + v, reports + [r])
  {
    FilledParts(queues[n], ratio, rank, less, more, t, v, r);
    FilledIsOk(queues[n], ratio, rank, less, more, t, v, r);
    BucketsStay(queues, n, ratio, rank, less, reports, more);
    hide Filed, Filled, BucketOk, IdSet;
    FiledAppend(Joined(queues, n), queues[n], less, more, train, validation, t, v);
    IdSetAppend(Joined(queues, n), queues[n]);
    BucketsSnoc(queues, n, ratio, rank, more, reports, r);
  }

  lemma BucketsSnoc(queues: seq<seq<Group>>, n: nat, ratio: real, rank: nat -> int, sides: Sides, reports: seq<Report>, r: Report)
    requires n < |queues| && n == |reports| && BucketsOk(queues, n, ratio, rank, sides, reports) && BucketOk(queues[n], ratio, rank, sides, r)
    ensures BucketsOk(queues, n + 1, ratio, rank, sides, reports + [r])
  {
    hide BucketOk;
  }

  lemma FilledParts(groups: seq<Group>, ratio: real, rank: nat -> int, before: Sides, sides: Sides, train: seq<nat>, validation: seq<nat>, r: Report)
    requires Filled(groups, ratio, rank, before, sides, train, validation, r)
    ensures Filed(groups, sides, train, validation) && sides.Keys == before.Keys + IdSet(groups)
    ensures forall id :: id in before ==> id in sides && sides[id] == before[id]
  {
  }

  /** The queue `n` is well named, and its groups are none of the earlier ones. */
  ghost predicate Apart(queues: seq<seq<Group>>, n: nat)
    requires n < |queues|
  {
    && DistinctIds(queues[n])
    && forall g :: g in queues[n] ==> g.members != [] && g.id !in IdSet(Joined(queues, n))
  }

  method FillAll(queues: seq<seq<Group>>, ratio: real, rank: nat -> int)
    returns (train: seq<nat>, validation: seq<nat>, sides: Sides, reports: seq<Report>)
    requires forall n: nat :: n < |queues| ==> Apart(queues, n)
    ensures FilledBelow(queues, |queues|, ratio, rank, sides, train, validation, reports)
  {
    train, validation, sides, reports := [], [], map[], [];
    NothingFiled();
    for n := 0 to |queues|
      invariant FilledBelow(queues, n, ratio, rank, sides, train, validation, reports)
    {
      hide Filed, Filled, BucketOk, IdSet, DistinctIds;
      assert Apart(queues, n);
      var t, v, more, r := FillBucket(queues[n], ratio, rank, sides);
      FilledStep(queues, n, ratio, rank, sides, train, validation, reports, more, t, v, r);
      train, validation, sides, reports := train + t, validation + v, more, reports + [r];
    }
  }

  // ---- putting it together ----

  /** The same groups in another order. */
  lemma FamiliesReordered(groups: seq<Group>, labels: seq<Label>, sorted: seq<Group>)
    requires Families(groups, labels) && DistinctIds(sorted) && forall g :: g in sorted <==> g in groups
    ensures Families(sorted, labels)
  {
    hide MembersOf;
    forall i | 0 <= i < |sorted| ensures sorted[i].members == MembersOf(labels, sorted[i].id) != [] {
      assert sorted[i] in groups;
    }
    forall l | l in labels && Grouped(l) ensures exists i :: 0 <= i < |sorted| && sorted[i].id == l.group.value {
      var j :| 0 <= j < |groups| && groups[j].id == l.group.value;
      assert groups[j] in sorted;
    }
  }

  lemma FamiliesSorted(groups: seq<Group>, labels: seq<Label>)
    requires Families(groups, labels)
    ensures Families(SortBy(groups, ById), labels) && DistinctIds(SortBy(groups, ById))
    ensures RowsOf(SortBy(groups, ById)) == RowsOf(groups)
  {
    assert DistinctIds(groups);
    hide Families, SortBy, RowsOf, DistinctIds;
    SortDistinct(groups, ById);
    SortSame(groups, ById);
    RowsSorted(groups, ById);
    FamiliesReordered(groups, labels, SortBy(groups, ById));
  }

  function HeldRows(held: seq<HeldRow>): multiset<nat> {
    multiset(HeldSources(held))
  }

  lemma HeldAppend(a: seq<HeldRow>, b: seq<HeldRow>)
    ensures HeldRows(a + b) == HeldRows(a) + HeldRows(b)
  {
    assert HeldSources(a + b) == HeldSources(a) + HeldSources(b);
  }

  lemma HoldRows(g: Group, reason: Reason)
    ensures HeldRows(Hold(g.members, reason)) == Rows(g)
  {
    assert HeldSources(Hold(g.members, reason)) == Sources(g.members);
  }

  lemma PlacedStep(groups: seq<Group>, protected: set<nat>, b: nat)
    requires groups != []
    ensures var init, g := groups[..|groups| - 1], groups[|groups| - 1];
      var v := VerdictOf(g, protected);
      RowsOf(PlacedIn(groups, protected, b))
        == RowsOf(PlacedIn(init, protected, b)) + if v.Placed? && Level(v.bucket) == b then Rows(g) else multiset{}
  {
    hide RowsOf, Rows, VerdictOf;
    var init, g := groups[..|groups| - 1], groups[|groups| - 1];
    assert PlacedIn(init, protected, b) + [] == PlacedIn(init, protected, b);
    RowsSnoc(PlacedIn(init, protected, b), g);
  }

  lemma HeldStep(groups: seq<Group>, protected: set<nat>)
    requires groups != []
    ensures var init, g := groups[..|groups| - 1], groups[|groups| - 1];
      HeldRows(HeldIn(groups, protected))
        == HeldRows(HeldIn(init, protected)) + if VerdictOf(g, protected).Held? then Rows(g) else multiset{}
  {
    hide Rows, VerdictOf, Hold, HeldRows;
    var init, g := groups[..|groups| - 1], groups[|groups| - 1];
    assert HeldIn(init, protected) + [] == HeldIn(init, protected);
    var v := VerdictOf(g, protected);
    if v.Held? {
      HoldRows(g, v.reason);
      HeldAppend(HeldIn(init, protected), Hold(g.members, v.reason));
    }
  }

  lemma NothingPlaced(protected: set<nat>)
    ensures forall b :: PlacedIn([], protected, b) == []
    ensures RowsOf([]) == multiset{} && HeldRows(HeldIn([], protected)) == multiset{}
  {
  }

  /** Every row of every group is either queued in its one bucket or held. */
  lemma {:induction false} RowsPlaced(groups: seq<Group>, protected: set<nat>)
    ensures RowsOf(PlacedIn(groups, protected, 0)) + RowsOf(PlacedIn(groups, protected, 1)) + RowsOf(PlacedIn(groups, protected, 2))
         + HeldRows(HeldIn(groups, protected)) == RowsOf(groups)
  {
    NothingPlaced(protected);
    hide RowsOf, Rows, VerdictOf, HeldRows, PlacedIn, HeldIn;
    if groups != [] {
      var init, g := groups[..|groups| - 1], groups[|groups| - 1];
      RowsPlaced(init, protected);
      PlacedStep(groups, protected, 0);
      PlacedStep(groups, protected, 1);
      PlacedStep(groups, protected, 2);
      HeldStep(groups, protected);
      assert groups == init + [g];
      RowsSnoc(init, g);
      var v := VerdictOf(g, protected);
      assert v.Placed? ==> Level(v.bucket) == 0 || Level(v.bucket) == 1 || Level(v.bucket) == 2;
    }
  }

  lemma {:induction false} PlacedDistinct(groups: seq<Group>, protected: set<nat>, b: nat)
    requires DistinctIds(groups)
    ensures DistinctIds(PlacedIn(groups, protected, b))
  {
    hide VerdictOf;
    if groups != [] {
      var init, g := groups[..|groups| - 1], groups[|groups| - 1];
      PlacedDistinct(init, protected, b);
      forall h | h in init ensures h.id != g.id {
      }
      hide PlacedIn, DistinctIds;
      var placed := PlacedIn(init, protected, b);
      assert placed + [] == placed;
      PlacedNext(groups, protected, b);
      DistinctSnoc(placed, g);
    }
  }

  lemma PlacedNext(groups: seq<Group>, protected: set<nat>, b: nat)
    requires groups != []
    ensures var init, g := PlacedIn(groups[..|groups| - 1], protected, b), groups[|groups| - 1];
      PlacedIn(groups, protected, b) == init + [g] || PlacedIn(groups, protected, b) == init
  {
    hide VerdictOf;
  }

  ghost predicate Queued(groups: seq<Group>, protected: set<nat>, queues: seq<seq<Group>>) {
    |queues| == 3 && forall b: nat :: b < 3 ==> queues[b] == PlacedIn(groups, protected, b)
  }

  /** The level of each group in the joined queues tells its queue. */
  lemma {:induction false} JoinedLevels(groups: seq<Group>, protected: set<nat>, queues: seq<seq<Group>>, n: nat)
    requires Queued(groups, protected, queues) && n <= 3
    ensures forall g :: g in Joined(queues, n) <==>
      g in groups && VerdictOf(g, protected).Placed? && Level(VerdictOf(g, protected).bucket) < n
  {
    hide VerdictOf;
    if n > 0 {
      JoinedLevels(groups, protected, queues, n - 1);
    }
  }

  lemma QueuesApart(groups: seq<Group>, protected: set<nat>, queues: seq<seq<Group>>, n: nat)
    requires Queued(groups, protected, queues) && n < 3 && DistinctIds(groups)
    requires forall g :: g in groups ==> g.members != []
    ensures Apart(queues, n)
  {
    hide VerdictOf;
    PlacedDistinct(groups, protected, n);
    JoinedLevels(groups, protected, queues, n);
    forall g | g in queues[n] ensures g.members != [] && g.id !in IdSet(Joined(queues, n)) {
      forall h | h in Joined(queues, n) ensures h.id != g.id {
        assert h in groups && g in groups;
        var a :| 0 <= a < |groups| && groups[a] == h;
        var b :| 0 <= b < |groups| && groups[b] == g;
        assert h != g;
      }
    }
  }

  lemma QueuedRows(groups: seq<Group>, protected: set<nat>, queues: seq<seq<Group>>)
    requires Queued(groups, protected, queues)
    ensures RowsOf(Joined(queues, 3)) + HeldRows(HeldIn(groups, protected)) == RowsOf(groups)
  {
    RowsPlaced(groups, protected);
    NoParts();
    hide RowsOf, HeldRows, PlacedIn, HeldIn;
    assert Joined(queues, 1) == [] + queues[0] && Joined(queues, 2) == Joined(queues, 1) + queues[1];
    RowsAppend([], queues[0]);
    RowsAppend(Joined(queues, 1), queues[1]);
    RowsAppend(Joined(queues, 2), queues[2]);
  }

  lemma {:induction false} HeldHas(groups: seq<Group>, protected: set<nat>, g: Group, l: Label)
    requires g in groups && l in g.members && VerdictOf(g, protected).Held?
    ensures HeldRow(l.source, VerdictOf(g, protected).reason) in HeldIn(groups, protected)
  {
    hide VerdictOf;
    var init, last := groups[..|groups| - 1], groups[|groups| - 1];
    if g == last {
      var reason := VerdictOf(g, protected).reason;
      var i :| 0 <= i < |g.members| && g.members[i] == l;
      assert Hold(g.members, reason)[i] == HeldRow(l.source, reason);
    } else {
      HeldHas(init, protected, g, l);
    }
  }

  /** A label's only place, as its group's verdict says. */
  ghost predicate Destination(labels: seq<Label>, protected: set<nat>, s: Split, l: Label) {
    if !Grouped(l) then HeldRow(l.source, UnreviewedGroup) in s.held
    else
      var g := Group(l.group.value, MembersOf(labels, l.group.value));
      match VerdictOf(g, protected)
      case Held(reason) => HeldRow(l.source, reason) in s.held && g.id !in s.sides
      case Placed(_, lock) =>
        && g.id in s.sides && l.source in (if s.sides[g.id] == Train then s.train else s.validation)
        && (lock.Some? ==> s.sides[g.id] == lock.value)
  }

  /** The bucket lists hold exactly the placed groups of the labels, each once. */
  ghost predicate Bucketed(labels: seq<Label>, protected: set<nat>, s: Split) {
    && |s.buckets| == |s.reports| == 3 && (forall b: nat :: b < 3 ==> DistinctIds(s.buckets[b]))
    && (forall b: nat, g :: b < 3 ==> (g in s.buckets[b] <==>
          && g.members == MembersOf(labels, g.id) != []
          && VerdictOf(g, protected).Placed? && Level(VerdictOf(g, protected).bucket) == b))
  }

  ghost predicate SplitOk(labels: seq<Label>, ratio: real, rank: nat -> int, protected: set<nat>, s: Split) {
    && multiset(s.train) + multiset(s.validation) + HeldRows(s.held) == multiset(Sources(labels))
    && SortedBy(s.train, Identity) && SortedBy(s.validation, Identity) && SortedBy(s.held, BySource)
    && (forall l :: l in labels ==> Destination(labels, protected, s, l))
    && Bucketed(labels, protected, s) && BucketsOk(s.buckets, 3, ratio, rank, s.sides, s.reports)
  }

  ghost predicate NoClash(labels: seq<Label>) {
    forall id: nat :: !LocksClash(MembersOf(labels, id))
  }

  ghost predicate CanSplit(labels: seq<Label>, ratio: real) {
    && 0.0 < ratio < 1.0 && Distinct(Sources(labels))
    && NoClash(labels)
  }

  lemma ClashIffGroupClash(groups: seq<Group>, labels: seq<Label>)
    requires Families(groups, labels)
    ensures Clean(groups) <==> NoClash(labels)
  {
    hide MembersOf;
    if forall g :: g in groups ==> !LocksClash(g.members) {
      forall id: nat ensures !LocksClash(MembersOf(labels, id)) {
        if MembersOf(labels, id) != [] {
          FamilyOf(groups, labels, id);
        }
      }
    } else {
      var g :| g in groups && LocksClash(g.members);
      var i :| 0 <= i < |groups| && groups[i] == g;
      assert LocksClash(MembersOf(labels, g.id));
    }
  }

  lemma FamilyOf(groups: seq<Group>, labels: seq<Label>, id: nat)
    requires Families(groups, labels) && MembersOf(labels, id) != []
    ensures Group(id, MembersOf(labels, id)) in groups
  {
    var l := MembersOf(labels, id)[0];
    assert l in MembersOf(labels, id);
    var i :| 0 <= i < |groups| && groups[i].id == l.group.value;
    assert groups[i] == Group(id, MembersOf(labels, id));
  }

  method BuildSplit(labels: seq<Label>, ratio: real, rank: nat -> int, protected: set<nat>) returns (r: Result<Split>)
    ensures r.Ok? <==> CanSplit(labels, ratio)
    ensures r.Ok? ==> SplitOk(labels, ratio, rank, protected, r.value)
  {
    hide Families, LocksClash, MembersOf, RowsOf, HeldRows, VerdictOf, FilledBelow, BucketsOk, SortBy, Sources, Destination, Bucketed,
      Dealt, DistinctIds, HeldIn, PlacedIn, Apart;
    if !(0.0 < ratio < 1.0) {
      return Rejected;
    }
    var ids := Sources(labels);
    DistinctSize(ids);
    if |Elements(ids)| != |ids| {
      return Rejected;
    }
    var groups, ungrouped := GroupLabels(labels);
    var sorted := SortBy(groups, ById);
    DealtAll(labels, groups, ungrouped);
    FamiliesSorted(groups, labels);
    ClashIffGroupClash(sorted, labels);
    var ok, queues, heldGroups := SortOut(sorted, protected);
    if !ok {
      return Rejected;
    }
    QueuesFillable(labels, sorted, protected, queues);
    var train, validation, sides, reports := FillAll(queues, ratio, rank);
    var held := ungrouped + heldGroups;
    var s := Split(SortBy(train, Identity), SortBy(validation, Identity), SortBy(held, BySource), sides, queues, reports);
    SortKeeps(train, Identity);
    SortKeeps(validation, Identity);
    SortKeeps(held, BySource);
    SplitRows(labels, groups, sorted, protected, queues, ungrouped, heldGroups, ratio, rank, sides, train, validation, reports, s);
    SplitDestinations(labels, sorted, protected, queues, ungrouped, heldGroups, ratio, rank, sides, train, validation, reports, s);
    FilledBuckets(queues, ratio, rank, sides, train, validation, reports);
    SplitBuckets(labels, sorted, protected, s);
    r := Ok(s);
  }

  lemma DealtAll(labels: seq<Label>, groups: seq<Group>, held: seq<HeldRow>)
    requires Dealt(labels, |labels|, groups, held)
    ensures Families(groups, labels) && forall l :: l in labels && !Grouped(l) ==> HeldRow(l.source, UnreviewedGroup) in held
  {
    assert labels[..|labels|] == labels;
  }

  lemma FilledBuckets(queues: seq<seq<Group>>, ratio: real, rank: nat -> int, sides: Sides, train: seq<nat>, validation: seq<nat>, reports: seq<Report>)
    requires |queues| == 3 && FilledBelow(queues, 3, ratio, rank, sides, train, validation, reports)
    ensures |reports| == 3 && BucketsOk(queues, 3, ratio, rank, sides, reports)
  {
  }

  lemma QueuesFillable(labels: seq<Label>, sorted: seq<Group>, protected: set<nat>, queues: seq<seq<Group>>)
    requires Families(sorted, labels) && DistinctIds(sorted)
    requires |queues| == 3 && forall b: nat :: b < 3 ==> queues[b] == PlacedIn(sorted, protected, b)
    ensures forall n: nat :: n < |queues| ==> Apart(queues, n)
  {
    forall g | g in sorted ensures g.members != [] {
    }
    hide Families, PlacedIn, Apart;
    forall n: nat | n < |queues| ensures Apart(queues, n) {
      QueuesApart(sorted, protected, queues, n);
    }
  }

  lemma {:induction false} HeldInsert(h: HeldRow, held: seq<HeldRow>, key: HeldRow -> int)
    ensures HeldRows(InsertBy(h, held, key)) == HeldRows([h]) + HeldRows(held)
  {
    hide HeldRows;
    if held != [] && key(h) > key(held[0]) {
      var first, rest := held[0], held[1..];
      HeldInsert(h, rest, key);
      HeldAppend([first], InsertBy(h, rest, key));
      HeldAppend([first], rest);
      assert held == [first] + rest;
    } else {
      HeldAppend([h], held);
    }
  }

  lemma {:induction false} HeldSorted(held: seq<HeldRow>, key: HeldRow -> int)
    ensures HeldRows(SortBy(held, key)) == HeldRows(held)
  {
    if held != [] {
      var first, rest := held[0], held[1..];
      HeldSorted(rest, key);
      HeldInsert(first, SortBy(rest, key), key);
      HeldAppend([first], rest);
      assert held == [first] + rest;
    }
  }

  lemma SplitRows(labels: seq<Label>, groups: seq<Group>, sorted: seq<Group>, protected: set<nat>, queues: seq<seq<Group>>,
                  ungrouped: seq<HeldRow>, heldGroups: seq<HeldRow>, ratio: real, rank: nat -> int, sides: Sides,
                  train: seq<nat>, validation: seq<nat>, reports: seq<Report>, s: Split)
    requires Dealt(labels, |labels|, groups, ungrouped) && RowsOf(sorted) == RowsOf(groups)
    requires Queued(sorted, protected, queues) && heldGroups == HeldIn(sorted, protected)
    requires FilledBelow(queues, 3, ratio, rank, sides, train, validation, reports)
    requires multiset(s.train) == multiset(train) && multiset(s.validation) == multiset(validation)
    requires s.held == SortBy(ungrouped + heldGroups, BySource)
    ensures multiset(s.train) + multiset(s.validation) + HeldRows(s.held) == multiset(Sources(labels))
  {
    QueuedRows(sorted, protected, queues);
    HeldSorted(ungrouped + heldGroups, BySource);
    HeldAppend(ungrouped, heldGroups);
    assert labels[..|labels|] == labels;
    assert multiset(train) + multiset(validation) == RowsOf(Joined(queues, 3));
    assert RowsOf(groups) + HeldRows(ungrouped) == multiset(Sources(labels));
  }

  lemma SplitDestinations(labels: seq<Label>, sorted: seq<Group>, protected: set<nat>, queues: seq<seq<Group>>,
                          ungrouped: seq<HeldRow>, heldGroups: seq<HeldRow>, ratio: real, rank: nat -> int, sides: Sides,
                          train: seq<nat>, validation: seq<nat>, reports: seq<Report>, s: Split)
    requires Families(sorted, labels) && Queued(sorted, protected, queues) && heldGroups == HeldIn(sorted, protected)
    requires forall l :: l in labels && !Grouped(l) ==> HeldRow(l.source, UnreviewedGroup) in ungrouped
    requires FilledBelow(queues, 3, ratio, rank, sides, train, validation, reports) && s.sides == sides
    requires s.train == SortBy(train, Identity) && s.validation == SortBy(validation, Identity)
    requires s.held == SortBy(ungrouped + heldGroups, BySource)
    ensures forall l :: l in labels ==> Destination(labels, protected, s, l)
  {
    SortSame(train, Identity);
    SortSame(validation, Identity);
    SortSame(ungrouped + heldGroups, BySource);
    hide SortBy, Families, VerdictOf, HeldIn, MembersOf, FilledBelow;
    forall l | l in labels ensures Destination(labels, protected, s, l) {
      if Grouped(l) {
        var g := Group(l.group.value, MembersOf(labels, l.group.value));
        LabelFamily(labels, sorted, l);
        if VerdictOf(g, protected).Held? {
          HeldHas(sorted, protected, g, l);
          HeldUnplaced(labels, sorted, protected, queues, g, ratio, rank, sides, train, validation, reports);
        } else {
          PlacedSide(sorted, protected, queues, g, l, ratio, rank, sides, train, validation, reports);
        }
      }
    }
  }

  lemma LabelFamily(labels: seq<Label>, groups: seq<Group>, l: Label)
    requires Families(groups, labels) && l in labels && Grouped(l)
    ensures var g := Group(l.group.value, MembersOf(labels, l.group.value)); g in groups && l in g.members
  {
    EmptyIffNone(MembersOf(labels, l.group.value));
    FamilyOf(groups, labels, l.group.value);
  }

  lemma HeldUnplaced(labels: seq<Label>, groups: seq<Group>, protected: set<nat>, queues: seq<seq<Group>>, g: Group, ratio: real, rank: nat -> int,
                     sides: Sides, train: seq<nat>, validation: seq<nat>, reports: seq<Report>)
    requires Families(groups, labels) && Queued(groups, protected, queues) && g in groups && VerdictOf(g, protected).Held?
    requires FilledBelow(queues, 3, ratio, rank, sides, train, validation, reports)
    ensures g.id !in sides
  {
    assert DistinctIds(groups);
    hide VerdictOf, Families, Filed, BucketsOk, DistinctIds;
    JoinedLevels(groups, protected, queues, 3);
    forall h | h in Joined(queues, 3) ensures h.id != g.id {
      if h.id == g.id {
        OneId(groups, g, h);
      }
    }
  }

  lemma PlacedSide(groups: seq<Group>, protected: set<nat>, queues: seq<seq<Group>>, g: Group, l: Label, ratio: real, rank: nat -> int,
                   sides: Sides, train: seq<nat>, validation: seq<nat>, reports: seq<Report>)
    requires Queued(groups, protected, queues) && g in groups && l in g.members && VerdictOf(g, protected).Placed?
    requires FilledBelow(queues, 3, ratio, rank, sides, train, validation, reports)
    ensures g.id in sides && l.source in if sides[g.id] == Train then train else validation
    ensures VerdictOf(g, protected).lock.Some? ==> sides[g.id] == VerdictOf(g, protected).lock.value
  {
    var b := Level(VerdictOf(g, protected).bucket);
    assert VerdictOf(g, protected).lock == LockOf(g.members);
    JoinedLevels(groups, protected, queues, 3);
    assert g in Joined(queues, 3) && g in queues[b];
    assert BucketOk(queues[b], ratio, rank, sides, reports[b]);
    hide VerdictOf, LockOf, RowsOf, Balanced, Queued;
  }

  lemma SplitBuckets(labels: seq<Label>, sorted: seq<Group>, protected: set<nat>, s: Split)
    requires Families(sorted, labels) && Queued(sorted, protected, s.buckets) && |s.reports| == 3 && DistinctIds(sorted)
    ensures Bucketed(labels, protected, s)
  {
    hide VerdictOf, DistinctIds;
    forall b: nat | b < 3 ensures DistinctIds(s.buckets[b]) {
      PlacedDistinct(sorted, protected, b);
    }
    forall b: nat, g | b < 3
      ensures g in s.buckets[b] <==>
        && g.members == MembersOf(labels, g.id) != []
        && VerdictOf(g, protected).Placed? && Level(VerdictOf(g, protected).bucket) == b
    {
      FamilyIff(sorted, labels, g);
    }
  }

  lemma FamilyIff(groups: seq<Group>, labels: seq<Label>, g: Group)
    requires Families(groups, labels)
    ensures g in groups <==> g.members == MembersOf(labels, g.id) != []
  {
    hide MembersOf;
    if g.members == MembersOf(labels, g.id) != [] {
      FamilyOf(groups, labels, g.id);
    }
  }

  /** Each row is in train, in validation or held, in one of the three and once. */
  lemma ExactlyOnePlace(labels: seq<Label>, ratio: real, rank: nat -> int, protected: set<nat>, s: Split, i: nat)
    requires CanSplit(labels, ratio) && SplitOk(labels, ratio, rank, protected, s) && i < |labels|
    ensures multiset(s.train)[labels[i].source] + multiset(s.validation)[labels[i].source] + HeldRows(s.held)[labels[i].source] == 1
  {
    hide Destination, Bucketed, BucketsOk, HeldRows, SortedBy, MembersOf;
    var ids := Sources(labels);
    assert ids[i] == labels[i].source;
    OnceIfDistinct(ids, i);
    assert (multiset(s.train) + multiset(s.validation) + HeldRows(s.held))[ids[i]] == multiset(ids)[ids[i]];
  }

  lemma OnceIfDistinct(xs: seq<nat>, i: nat)
    requires Distinct(xs) && i < |xs|
    ensures multiset(xs)[xs[i]] == 1
  {
    assert xs == xs[..i] + [xs[i]] + xs[i + 1..];
    assert xs[i] !in xs[..i] && xs[i] !in xs[i + 1..];
  }

  /** A placed row follows any historical split recorded in its group. */
  lemma LocksHonoured(labels: seq<Label>, ratio: real, rank: nat -> int, protected: set<nat>, s: Split, l: Label, other: Label, side: Side)
    requires CanSplit(labels, ratio) && SplitOk(labels, ratio, rank, protected, s)
    requires l in labels && other in labels && Grouped(l) && Grouped(other) && l.group == other.group
    requires other.lock == Some(Known(side)) && l.group.value in s.sides
    ensures s.sides[l.group.value] == side && l.source in if side == Train then s.train else s.validation
  {
    hide Bucketed, BucketsOk, HeldRows, SortedBy, GroupBucket;
    var g := Group(l.group.value, MembersOf(labels, l.group.value));
    assert Destination(labels, protected, s, l);
    assert other in g.members && !LocksClash(g.members);
    var i :| 0 <= i < |g.members| && g.members[i] == other;
    assert Locked(g.members, Known(side));
    assert LockOf(g.members) == Some(side);
  }

  /** Two rows of one group are never split: both are in train, both in validation, or both held. */
  lemma GroupsStayTogether(labels: seq<Label>, ratio: real, rank: nat -> int, protected: set<nat>, s: Split, l: Label, other: Label)
    requires CanSplit(labels, ratio) && SplitOk(labels, ratio, rank, protected, s)
    requires l in labels && other in labels && Grouped(l) && Grouped(other) && l.group == other.group
    ensures if l.group.value in s.sides
      then var list := if s.sides[l.group.value] == Train then s.train else s.validation; l.source in list && other.source in list
      else exists reason :: HeldRow(l.source, reason) in s.held && HeldRow(other.source, reason) in s.held
  {
    hide Bucketed, BucketsOk, HeldRows, SortedBy, VerdictOf, MembersOf;
    assert Destination(labels, protected, s, l) && Destination(labels, protected, s, other);
  }
}
