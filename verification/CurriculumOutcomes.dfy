/** Where a split puts each row, told from the labels of its family alone. */
module CurriculumOutcomes {
  import opened Common
  import opened CurriculumGroups
  import opened BucketQuota
  import opened CurriculumSplit
  import opened Sorting
  import opened GroupStats

  /** `m` is a reviewed member of family `id`. */
  predicate InFamily(m: Label, id: nat) {
    m.group == Some(id) && m.groupReviewed
  }

  /** Reviewed for its difficulty, from the task's constraints, with both questions answered. */
  predicate Rated(m: Label) {
    m.reviewed && m.difficulty.Some? && m.basedOnConstraints && m.replanning.Some? && m.subgoals.Some?
  }

  /** A rated task that is hard, or needs replanning or dependent subgoals. */
  predicate Demanding(m: Label) {
    Rated(m) && (m.difficulty == Some(Hard) || m.replanning == Some(true) || m.subgoals == Some(true))
  }

  /** The family's place among foundation, constraints and strategy: the place of its most demanding member. */
  ghost predicate BelongsTo(labels: seq<Label>, id: nat, b: nat) {
    var demanding := exists m :: m in labels && InFamily(m, id) && Demanding(m);
    var medium := exists m :: m in labels && InFamily(m, id) && Rated(m) && m.difficulty == Some(Medium);
    b == if demanding then 2 else if medium then 1 else 0
  }

  ghost predicate AllRated(labels: seq<Label>, id: nat) {
    forall m :: m in labels && InFamily(m, id) ==> Rated(m)
  }

  lemma {:induction false} BucketMeans(members: seq<Label>)
    ensures GroupBucket(members).Some? <==> forall m :: m in members ==> Rated(m)
    ensures GroupBucket(members).Some? ==>
      && (Level(GroupBucket(members).value) == 2 <==> exists m :: m in members && Demanding(m))
      && (Level(GroupBucket(members).value) == 0 <==>
          forall m :: m in members ==> !Demanding(m) && m.difficulty == Some(Easy))
  {
    if members != [] {
      var n := |members| - 1;
      BucketMeans(members[..n]);
      assert members == members[..n] + [members[n]];
      RatedMeans(members[n]);
      hide AssignBucket, Rated, Demanding;
    }
  }

  lemma RatedMeans(m: Label)
    ensures AssignBucket(m).Some? <==> Rated(m)
    ensures Rated(m) ==> (Level(AssignBucket(m).value) == 2 <==> Demanding(m))
    ensures Rated(m) ==> (Level(AssignBucket(m).value) == 0 <==> !Demanding(m) && m.difficulty == Some(Easy))
  {
  }

  lemma FamilyMembers(labels: seq<Label>, id: nat)
    ensures forall m :: m in MembersOf(labels, id) <==> m in labels && InFamily(m, id)
  {
  }

  /** A family's verdict, from its members. */
  lemma VerdictMeans(labels: seq<Label>, id: nat, protected: set<nat>)
    ensures var v := VerdictOf(Group(id, MembersOf(labels, id)), protected);
      && (id in protected ==> v == Held(ProtectedGroup))
      && (id !in protected && !AllRated(labels, id) ==> v == Held(UnreviewedDifficulty))
      && (id !in protected && AllRated(labels, id) ==> v.Placed? && BelongsTo(labels, id, Level(v.bucket)))
  {
    var members := MembersOf(labels, id);
    FamilyMembers(labels, id);
    BucketMeans(members);
    if GroupBucket(members).Some? {
      FamilyLevel(labels, id);
    }
    hide GroupBucket, Level, MembersOf, Rated, Demanding, InFamily, BelongsTo;
  }

  lemma FamilyLevel(labels: seq<Label>, id: nat)
    requires GroupBucket(MembersOf(labels, id)).Some?
    ensures BelongsTo(labels, id, Level(GroupBucket(MembersOf(labels, id)).value))
  {
    var members := MembersOf(labels, id);
    FamilyMembers(labels, id);
    BucketMeans(members);
    hide GroupBucket, MembersOf, InFamily, Rated, Demanding;
    forall m | m in members && !Demanding(m) ensures m.difficulty == Some(Easy) || m.difficulty == Some(Medium) {
      RatedKinds(m);
    }
    assert forall m :: m in labels && InFamily(m, id) ==> m in members;
    LevelBound(GroupBucket(members).value);
    hide Level;
    if Level(GroupBucket(members).value) != 2 && Level(GroupBucket(members).value) != 0 {
      var m :| m in members && !(!Demanding(m) && m.difficulty == Some(Easy));
    }
  }

  lemma RatedKinds(m: Label)
    requires Rated(m)
    ensures Demanding(m) || m.difficulty == Some(Easy) || m.difficulty == Some(Medium)
  {
    match m.difficulty.value
    case Easy =>
    case Medium =>
    case Hard =>
  }

  lemma LevelBound(b: Bucket)
    ensures Level(b) <= 2
  {
  }

  /** No member of the family is locked to an unknown split, and no two to different sides. */
  ghost predicate LocksAgree(labels: seq<Label>, id: nat) {
    && (forall l :: l in labels && InFamily(l, id) ==> l.lock != Some(Unknown))
    && (forall l, m :: l in labels && m in labels && InFamily(l, id) && InFamily(m, id) ==>
        l.lock != Some(Known(Train)) || m.lock != Some(Known(Validation)))
  }

  lemma ClashMeans(labels: seq<Label>, id: nat)
    ensures LocksClash(MembersOf(labels, id)) <==> !LocksAgree(labels, id)
  {
    var members := MembersOf(labels, id);
    FamilyMembers(labels, id);
    hide MembersOf, InFamily;
    forall lock ensures Locked(members, lock) <==> exists l :: l in members && l.lock == Some(lock) {
    }
    hide Locked;
  }

  /** The build goes through exactly for a ratio inside (0, 1), distinct rows and families whose locks agree. */
  lemma SplitsIff(labels: seq<Label>, ratio: real)
    ensures CanSplit(labels, ratio) <==>
      0.0 < ratio < 1.0 && Distinct(Sources(labels)) && forall id: nat :: LocksAgree(labels, id)
  {
    forall id: nat ensures LocksClash(MembersOf(labels, id)) <==> !LocksAgree(labels, id) {
      ClashMeans(labels, id);
    }
    hide LocksClash, LocksAgree, MembersOf;
  }

  lemma LockKinds(lock: Lock)
    ensures lock == Unknown || lock == Known(Train) || lock == Known(Validation)
  {
    match lock
    case Unknown =>
    case Known(side) => assert side == Train || side == Validation;
  }

  /** The lock of any member is the lock of the family. */
  lemma LockMeans(labels: seq<Label>, id: nat, l: Label)
    requires LocksAgree(labels, id) && l in labels && InFamily(l, id)
    ensures l.lock.Some? ==> l.lock.value.Known? && LockOf(MembersOf(labels, id)) == Some(l.lock.value.side)
  {
    var members := MembersOf(labels, id);
    FamilyMembers(labels, id);
    hide MembersOf, InFamily;
    forall lock ensures Locked(members, lock) <==> exists m :: m in members && m.lock == Some(lock) {
    }
    assert l in members;
    if l.lock.Some? {
      assert Locked(members, l.lock.value);
      LockKinds(l.lock.value);
    }
    hide Locked;
    if l.lock == Some(Known(Validation)) && Locked(members, Known(Train)) {
      assert false;
    }
  }

  /** Where each row goes: held for its family's review, its protection or its difficulty, or on its family's side. */
  lemma RowGoes(labels: seq<Label>, ratio: real, rank: nat -> int, protected: set<nat>, s: Split, l: Label)
    requires CanSplit(labels, ratio) && SplitOk(labels, ratio, rank, protected, s) && l in labels
    ensures l.group.None? || !l.groupReviewed ==> HeldRow(l.source, UnreviewedGroup) in s.held
    ensures l.group.Some? && l.groupReviewed ==>
      var id := l.group.value;
      if id in protected then HeldRow(l.source, ProtectedGroup) in s.held && id !in s.sides
      else if !AllRated(labels, id) then HeldRow(l.source, UnreviewedDifficulty) in s.held && id !in s.sides
      else
        && id in s.sides && l.source in (if s.sides[id] == Train then s.train else s.validation)
        && (l.lock.Some? ==> l.lock == Some(Known(s.sides[id])))
  {
    assert Destination(labels, protected, s, l);
    if l.group.Some? && l.groupReviewed {
      var id := l.group.value;
      VerdictMeans(labels, id, protected);
      SplitsIff(labels, ratio);
      LockMeans(labels, id, l);
      hide SplitOk, CanSplit, MembersOf, AllRated, GroupBucket, LockOf, LocksAgree, BelongsTo;
    }
  }

  /** A family is in exactly the bucket its most demanding member belongs to. */
  lemma FamilyBucket(labels: seq<Label>, ratio: real, rank: nat -> int, protected: set<nat>, s: Split, l: Label, b: nat)
    requires SplitOk(labels, ratio, rank, protected, s) && l in labels && l.group.Some? && l.groupReviewed && b < 3
    ensures |s.buckets| == 3
    ensures (exists g :: g in s.buckets[b] && g.id == l.group.value) <==>
      l.group.value !in protected && AllRated(labels, l.group.value) && BelongsTo(labels, l.group.value, b)
  {
    var id := l.group.value;
    var g := Group(id, MembersOf(labels, id));
    VerdictMeans(labels, id, protected);
    FamilyMembers(labels, id);
    assert l in g.members;
    BucketHolds(labels, protected, s, id, b);
    hide SplitOk, Bucketed, MembersOf, AllRated, VerdictOf, Level;
  }

  lemma BucketHolds(labels: seq<Label>, protected: set<nat>, s: Split, id: nat, b: nat)
    requires Bucketed(labels, protected, s) && b < 3
    ensures var g := Group(id, MembersOf(labels, id));
      && ((exists h :: h in s.buckets[b] && h.id == id) <==> g in s.buckets[b])
      && (g in s.buckets[b] <==> g.members != [] && VerdictOf(g, protected).Placed? && Level(VerdictOf(g, protected).bucket) == b)
  {
    var g := Group(id, MembersOf(labels, id));
    hide VerdictOf, MembersOf, Level, DistinctIds;
    if h :| h in s.buckets[b] && h.id == id {
      assert h == g;
    }
  }

  // ---- how one bucket is filled ----

  /** The bucket's target is the ratio of its rows, rounded to the nearest row, halves up. */
  lemma TargetRounds(groups: seq<Group>, ratio: real, rank: nat -> int, sides: Sides, r: Report)
    requires BucketOk(groups, ratio, rank, sides, r)
    ensures r.rows == |RowsOf(groups)| && Rounds(r.target, Times(r.rows as real, ratio))
  {
    RoundHalfUp(r.rows, ratio);
    BucketTarget(groups, ratio, rank, sides, r);
    hide *;
  }

  lemma BucketTarget(groups: seq<Group>, ratio: real, rank: nat -> int, sides: Sides, r: Report)
    requires BucketOk(groups, ratio, rank, sides, r)
    ensures r.rows == |RowsOf(groups)| && r.target == Target(r.rows, ratio)
  {
    hide Honoured, Greedy, Balanced, TakenBack, Target, Weigh, Distance, LockedValidation, RowsOf, Singles;
  }

  predicate Rounds(n: int, x: real) {
    n as real - 0.5 <= x < n as real + 0.5
  }

  lemma RoundHalfUp(rows: nat, ratio: real)
    ensures Rounds(Target(rows, ratio), Times(rows as real, ratio))
  {
  }

  /** No member of the group is locked to a side. */
  ghost predicate Unlocked(g: Group) {
    forall m :: m in g.members ==> m.lock != Some(Known(Train)) && m.lock != Some(Known(Validation))
  }

  function Gap(count: int, target: int): int {
    if count < target then target - count else count - target
  }

  /**
   * The free groups in `queue` order, by rank: each goes to validation exactly if that brings the count strictly closer
   * to the target; `counts` are the rows on the validation side before each.
   */
  ghost predicate FilledInOrder(queue: seq<Group>, counts: seq<int>, rank: nat -> int, target: int, sides: Sides) {
    && |counts| == |queue| + 1
    && (forall i, j :: 0 <= i < j < |queue| ==> rank(queue[i].id) <= rank(queue[j].id))
    && forall i :: 0 <= i < |queue| ==> Offer(queue[i], counts[i], counts[i + 1], target, sides)
  }

  ghost predicate Offer(g: Group, count: int, next: int, target: int, sides: Sides) {
    var closer := Gap(count + |g.members|, target) < Gap(count, target);
    && g.id in sides && (sides[g.id] == Validation <==> closer)
    && next == if closer then count + |g.members| else count
  }

  /** The rows of groups locked to validation. */
  function LockedRows(groups: seq<Group>): nat {
    if groups == [] then 0
    else
      var g := groups[|groups| - 1];
      LockedRows(groups[..|groups| - 1])
      + if exists m :: m in g.members && m.lock == Some(Known(Validation)) then |g.members| else 0
  }

  lemma LockIs(g: Group)
    requires !LocksClash(g.members)
    ensures LockOf(g.members).None? <==> Unlocked(g)
    ensures LockOf(g.members) == Some(Validation) <==> exists m :: m in g.members && m.lock == Some(Known(Validation))
  {
  }

  lemma {:induction false} LockedRowsAre(groups: seq<Group>)
    requires forall g :: g in groups ==> !LocksClash(g.members)
    ensures LockedValidation(groups) == LockedRows(groups)
  {
    if groups != [] {
      var n := |groups| - 1;
      LockedRowsAre(groups[..n]);
      LockIs(groups[n]);
      hide LocksClash, LockOf;
    }
  }

  /** Every bucket is filled greedily: its free groups by rank, starting from the rows locked to validation. */
  lemma GreedyBucket(groups: seq<Group>, ratio: real, rank: nat -> int, sides: Sides, r: Report)
    returns (queue: seq<Group>, counts: seq<int>)
    requires BucketOk(groups, ratio, rank, sides, r) && forall g :: g in groups ==> !LocksClash(g.members)
    ensures forall g :: g in queue <==> g in groups && Unlocked(g)
    ensures multiset(queue) == multiset(FreeOf(groups))
    ensures FilledInOrder(queue, counts, rank, r.target, sides)
    ensures counts[0] == LockedRows(groups) && counts[|queue|] == r.validation
  {
    queue := Queue(groups, rank);
    SortSame(FreeOf(groups), ByRank(rank));
    SortKeeps(FreeOf(groups), ByRank(rank));
    LockedRowsAre(groups);
    var start, target := LockedValidation(groups), r.target;
    counts := CountsOf(Sizes(queue), start, target, |queue|);
    forall g ensures g in queue <==> g in groups && Unlocked(g) {
      if g in groups {
        LockIs(g);
      }
    }
    assert Offered(queue, |queue|, target, start, sides, r.validation);
    hide LocksClash, LockOf, LockedRows, Unlocked, Honoured, Balanced, TakenBack, RowsOf, SortBy, Greedy, LockedValidation, FreeOf;
    forall i | 0 <= i < |queue| ensures Offer(queue[i], counts[i], counts[i + 1], target, sides) {
      OfferIs(queue, target, start, sides, i);
    }
    forall i, j | 0 <= i < j < |queue| ensures rank(queue[i].id) <= rank(queue[j].id) {
      assert ByRank(rank)(queue[i]) <= ByRank(rank)(queue[j]);
    }
  }

  function CountsOf(sizes: seq<nat>, start: int, target: int, n: nat): (c: seq<int>)
    requires n <= |sizes|
    ensures |c| == n + 1 && forall i :: 0 <= i <= n ==> c[i] == After(sizes, start, target, i)
  {
    seq(n + 1, i requires 0 <= i <= n => After(sizes, start, target, i))
  }

  lemma OfferIs(queue: seq<Group>, target: int, start: nat, sides: Sides, i: nat)
    requires i < |queue| && queue[i].id in sides
    requires sides[queue[i].id] == Validation <==> Takes(Sizes(queue), start, target, i)
    ensures Offer(queue[i], After(Sizes(queue), start, target, i), After(Sizes(queue), start, target, i + 1), target, sides)
  {
  }
}
