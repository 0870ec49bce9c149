/** Filling one bucket: locked groups first, then a greedy validation quota over whole free groups. */
module BucketQuota {
  import opened Common
  import opened Sorting
  import opened CurriculumGroups

  // ---- the greedy quota ----

  function Distance(current: int, target: int): nat {
    if current < target then target - current else current - target
  }

  predicate Chosen(size: nat, current: int, target: int) {
    Distance(current + size, target) < Distance(current, target)
  }

  /** The validation count after offering the first `n` groups. */
  function After(sizes: seq<nat>, start: int, target: int, n: nat): int
    requires n <= |sizes|
  {
    if n == 0 then start
    else
      var current := After(sizes, start, target, n - 1);
      current + if Chosen(sizes[n - 1], current, target) then sizes[n - 1] else 0
  }

  predicate Takes(sizes: seq<nat>, start: int, target: int, i: nat)
    requires i < |sizes|
  {
    Chosen(sizes[i], After(sizes, start, target, i), target)
  }

  lemma {:induction false} AfterGrows(sizes: seq<nat>, start: int, target: int, i: nat, n: nat)
    requires i <= n <= |sizes|
    ensures After(sizes, start, target, i) <= After(sizes, start, target, n)
    ensures Distance(After(sizes, start, target, n), target) <= Distance(After(sizes, start, target, i), target)
  {
    if i < n {
      AfterGrows(sizes, start, target, i, n - 1);
    }
  }

  /** At the end no group left in train would bring the count strictly closer to the target. */
  lemma LocallyOptimal(sizes: seq<nat>, start: int, target: int, i: nat)
    requires i < |sizes| && !Takes(sizes, start, target, i)
    ensures !Chosen(sizes[i], After(sizes, start, target, |sizes|), target)
  {
    AfterGrows(sizes, start, target, i, |sizes|);
  }

  /** Taking a validation group back is an improvement exactly if it is smaller than twice the overshoot. */
  lemma TakeBackIff(sizes: seq<nat>, start: int, target: int, i: nat)
    requires i < |sizes| && Takes(sizes, start, target, i)
    ensures var end := After(sizes, start, target, |sizes|);
      Distance(end - sizes[i], target) < Distance(end, target) <==> sizes[i] < 2 * (end - target)
  {
    hide After;
  }

  /** No validation group would, taken back, bring the count strictly closer to the target. */
  ghost predicate KeepsBest(sizes: seq<nat>, start: int, target: int) {
    var end := After(sizes, start, target, |sizes|);
    forall i: nat :: i < |sizes| && Takes(sizes, start, target, i) ==> Distance(end - sizes[i], target) >= Distance(end, target)
  }

  /** Optimal in both directions if and only if no validation group is smaller than twice the overshoot. */
  lemma TwoWayIff(sizes: seq<nat>, start: int, target: int)
    ensures var end := After(sizes, start, target, |sizes|);
      && (KeepsBest(sizes, start, target)
          <==> forall i: nat :: i < |sizes| && Takes(sizes, start, target, i) ==> sizes[i] >= 2 * (end - target))
      && (end <= target ==> KeepsBest(sizes, start, target))
  {
    hide Takes, After, Distance;
    forall i: nat | i < |sizes| && Takes(sizes, start, target, i)
      ensures var end := After(sizes, start, target, |sizes|);
        Distance(end - sizes[i], target) < Distance(end, target) <==> sizes[i] < 2 * (end - target)
    {
      TakeBackIff(sizes, start, target, i);
    }
  }

  /** The group that overshoots is never the one to take back. */
  lemma OvershooterStays(sizes: seq<nat>, start: int, target: int, i: nat)
    requires i < |sizes| && Takes(sizes, start, target, i) && After(sizes, start, target, i + 1) > target
    ensures sizes[i] >= 2 * (After(sizes, start, target, |sizes|) - target)
    ensures forall j: nat :: i < j < |sizes| ==> !Takes(sizes, start, target, j)
  {
    forall j: nat | i < j < |sizes| ensures !Takes(sizes, start, target, j) {
      AfterGrows(sizes, start, target, i + 1, j);
    }
    NothingTaken(sizes, start, target, i + 1, |sizes|);
  }

  lemma {:induction false} NothingTaken(sizes: seq<nat>, start: int, target: int, i: nat, n: nat)
    requires i <= n <= |sizes| && forall j: nat :: i <= j < n ==> !Takes(sizes, start, target, j)
    ensures After(sizes, start, target, n) == After(sizes, start, target, i)
  {
    if i < n {
      NothingTaken(sizes, start, target, i, n - 1);
      assert !Takes(sizes, start, target, n - 1);
    }
  }

  /** A count that ends above the target either began there or has one group that carried it over. */
  lemma {:induction false} Overshooter(sizes: seq<nat>, start: int, target: int, n: nat) returns (j: nat)
    requires n <= |sizes| && start <= target < After(sizes, start, target, n)
    ensures j < n && Takes(sizes, start, target, j) && After(sizes, start, target, j) <= target < After(sizes, start, target, j + 1)
  {
    if After(sizes, start, target, n - 1) > target {
      j := Overshooter(sizes, start, target, n - 1);
    } else {
      j := n - 1;
    }
  }

  lemma {:induction false} NothingAbove(sizes: seq<nat>, start: int, target: int, n: nat)
    requires n <= |sizes| && start >= target
    ensures After(sizes, start, target, n) == start
    ensures forall i: nat :: i < n ==> !Takes(sizes, start, target, i)
  {
    if n > 0 {
      NothingAbove(sizes, start, target, n - 1);
    }
  }

  ghost predicate LargestFirst(sizes: seq<nat>) {
    forall i, j :: 0 <= i < j < |sizes| ==> sizes[i] >= sizes[j]
  }

  lemma NoSmallTaken(sizes: seq<nat>, start: int, target: int, i: nat)
    requires LargestFirst(sizes) && i < |sizes| && Takes(sizes, start, target, i)
    ensures sizes[i] >= 2 * (After(sizes, start, target, |sizes|) - target)
  {
    hide LargestFirst, After, Takes;
    if start < target < After(sizes, start, target, |sizes|) {
      var j := Overshooter(sizes, start, target, |sizes|);
      OvershooterStays(sizes, start, target, j);
      NotBefore(sizes, i, j);
    } else if start >= target {
      NothingAbove(sizes, start, target, |sizes|);
    }
  }

  lemma NotBefore(sizes: seq<nat>, i: nat, j: nat)
    requires LargestFirst(sizes) && i < |sizes| && j < |sizes|
    ensures i <= j ==> sizes[i] >= sizes[j]
  {
  }

  /** Groups offered in non-increasing size leave a bucket that is optimal in both directions. */
  lemma LargestFirstIsOptimal(sizes: seq<nat>, start: int, target: int)
    requires LargestFirst(sizes)
    ensures KeepsBest(sizes, start, target)
  {
    hide KeepsBest, After, Takes, LargestFirst;
    forall i: nat | i < |sizes| && Takes(sizes, start, target, i)
      ensures sizes[i] >= 2 * (After(sizes, start, target, |sizes|) - target)
    {
      NoSmallTaken(sizes, start, target, i);
    }
    TwoWayIff(sizes, start, target);
  }

  /** The other direction is not promised: an early small group, then one that overshoots by more than half of it. */
  lemma NotOptimalBothWays()
    ensures var sizes: seq<nat>, target := [1, 5], 4;
      && Takes(sizes, 0, target, 0) && !KeepsBest(sizes, 0, target)
  {
    var sizes: seq<nat> := [1, 5];
    assert After(sizes, 0, 4, 1) == 1 && After(sizes, 0, 4, 2) == 6;
    hide After;
    TwoWayIff(sizes, 0, 4);
  }

  /** With single rows and nothing locked, the quota is met exactly. */
  lemma {:induction false} SinglesFill(sizes: seq<nat>, target: nat, n: nat)
    requires n <= |sizes| && forall i :: 0 <= i < |sizes| ==> sizes[i] == 1
    ensures After(sizes, 0, target, n) == if n < target then n else target
  {
    if n > 0 {
      SinglesFill(sizes, target, n - 1);
    }
  }

  function Target(total: nat, ratio: real): int {
    (total as real * ratio + 0.5).Floor
  }

  lemma TargetInRange(total: nat, ratio: real)
    requires 0.0 < ratio < 1.0
    ensures 0 <= Target(total, ratio) <= total
  {
    assert 0.0 <= total as real * ratio <= total as real;
  }

  // ---- filling one bucket ----

  type Sides = map<nat, Side>

  function Sizes(groups: seq<Group>): seq<nat> {
    seq(|groups|, i requires 0 <= i < |groups| => |groups[i].members|)
  }

  function FreeOf(groups: seq<Group>): (f: seq<Group>)
    ensures forall g :: g in f <==> g in groups && LockOf(g.members).None?
  {
    if groups == [] then []
    else
      var g := groups[|groups| - 1];
      FreeOf(groups[..|groups| - 1]) + if LockOf(g.members).None? then [g] else []
  }

  function LockedOf(groups: seq<Group>): (f: seq<Group>)
    ensures forall g :: g in f <==> g in groups && LockOf(g.members).Some?
  {
    if groups == [] then []
    else
      var g := groups[|groups| - 1];
      LockedOf(groups[..|groups| - 1]) + if LockOf(g.members).Some? then [g] else []
  }

  lemma PartsStep(groups: seq<Group>)
    requires groups != []
    ensures var init, g := groups[..|groups| - 1], groups[|groups| - 1];
      && groups == init + [g]
      && LockedOf(groups) == LockedOf(init) + (if LockOf(g.members).Some? then [g] else [])
      && FreeOf(groups) == FreeOf(init) + (if LockOf(g.members).Some? then [] else [g])
  {
    hide LockOf;
  }

  lemma NoParts()
    ensures LockedOf([]) == [] && FreeOf([]) == [] && RowsOf([]) == multiset{}
  {
  }

  lemma {:induction false} RowsSplit(groups: seq<Group>)
    ensures RowsOf(groups) == RowsOf(LockedOf(groups)) + RowsOf(FreeOf(groups))
  {
    NoParts();
    hide RowsOf, LockedOf, FreeOf, LockOf, Rows;
    if groups != [] {
      var init, g := groups[..|groups| - 1], groups[|groups| - 1];
      PartsStep(groups);
      RowsSplit(init);
      RowsSnoc(init, g);
      var locked, free := LockedOf(init), FreeOf(init);
      assert locked + [] == locked && free + [] == free;
      if LockOf(g.members).Some? {
        RowsSnoc(locked, g);
      } else {
        RowsSnoc(free, g);
      }
    }
  }

  lemma {:induction false} RowsCons(g: Group, groups: seq<Group>)
    ensures RowsOf([g] + groups) == Rows(g) + RowsOf(groups)
  {
    hide Rows;
    if groups == [] {
      assert [g] + groups == [] + [g];
      RowsSnoc([], g);
    } else {
      var n := |groups| - 1;
      RowsCons(g, groups[..n]);
      assert [g] + groups == ([g] + groups[..n]) + [groups[n]];
      RowsSnoc([g] + groups[..n], groups[n]);
      assert RowsOf(groups) == RowsOf(groups[..n]) + Rows(groups[n]);
      hide RowsOf;
    }
  }

  lemma {:induction false} RowsInsert(g: Group, groups: seq<Group>, key: Group -> int)
    ensures RowsOf(InsertBy(g, groups, key)) == Rows(g) + RowsOf(groups)
  {
    hide Rows, RowsOf;
    if groups != [] && key(g) > key(groups[0]) {
      RowsInsert(g, groups[1..], key);
      RowsCons(groups[0], InsertBy(g, groups[1..], key));
      RowsCons(groups[0], groups[1..]);
      assert groups == [groups[0]] + groups[1..];
    } else {
      RowsCons(g, groups);
    }
  }

  lemma {:induction false} RowsSorted(groups: seq<Group>, key: Group -> int)
    ensures RowsOf(SortBy(groups, key)) == RowsOf(groups)
  {
    if groups != [] {
      hide Rows, RowsOf;
      RowsSorted(groups[1..], key);
      RowsInsert(groups[0], SortBy(groups[1..], key), key);
      RowsCons(groups[0], groups[1..]);
      assert groups == [groups[0]] + groups[1..];
    }
  }

  /** The total weight of the groups. */
  function Weigh(groups: seq<Group>, w: Group -> nat): nat {
    if groups == [] then 0 else Weigh(groups[..|groups| - 1], w) + w(groups[|groups| - 1])
  }

  lemma WeighSnoc(groups: seq<Group>, g: Group, w: Group -> nat)
    ensures Weigh(groups + [g], w) == Weigh(groups, w) + w(g)
  {
    assert (groups + [g])[..|groups|] == groups;
  }

  lemma {:induction false} WeighSame(groups: seq<Group>, w: Group -> nat, x: Group -> nat)
    requires forall g :: g in groups ==> w(g) == x(g)
    ensures Weigh(groups, w) == Weigh(groups, x)
  {
    if groups != [] {
      WeighSame(groups[..|groups| - 1], w, x);
    }
  }

  lemma {:induction false} WeighAppend(a: seq<Group>, b: seq<Group>, w: Group -> nat)
    ensures Weigh(a + b, w) == Weigh(a, w) + Weigh(b, w)
  {
    if b == [] {
      assert a + b == a;
    } else {
      var init, g := b[..|b| - 1], b[|b| - 1];
      WeighAppend(a, init, w);
      WeighSnoc(a + init, g, w);
      assert a + b == (a + init) + [g];
    }
  }

  lemma {:induction false} WeighInsert(g: Group, groups: seq<Group>, key: Group -> int, w: Group -> nat)
    ensures Weigh(InsertBy(g, groups, key), w) == w(g) + Weigh(groups, w)
  {
    WeighSnoc([], g, w);
    if groups != [] && key(g) > key(groups[0]) {
      var first, rest := groups[0], groups[1..];
      WeighInsert(g, rest, key, w);
      WeighAppend([first], InsertBy(g, rest, key), w);
      WeighAppend([first], rest, w);
      assert groups == [first] + rest;
    } else {
      WeighAppend([g], groups, w);
      assert [] + [g] == [g];
    }
  }

  lemma {:induction false} WeighSorted(groups: seq<Group>, key: Group -> int, w: Group -> nat)
    ensures Weigh(SortBy(groups, key), w) == Weigh(groups, w)
  {
    if groups != [] {
      var first, rest := groups[0], groups[1..];
      WeighSorted(rest, key, w);
      WeighInsert(first, SortBy(rest, key), key, w);
      WeighSnoc([], first, w);
      WeighAppend([first], rest, w);
      assert groups == [first] + rest && [] + [first] == [first];
    }
  }

  lemma {:induction false} WeighSplit(groups: seq<Group>, w: Group -> nat)
    ensures Weigh(groups, w) == Weigh(LockedOf(groups), w) + Weigh(FreeOf(groups), w)
  {
    NoParts();
    hide LockedOf, FreeOf, LockOf;
    if groups != [] {
      var init, g := groups[..|groups| - 1], groups[|groups| - 1];
      PartsStep(groups);
      WeighSplit(init, w);
      var locked, free := LockedOf(init), FreeOf(init);
      assert locked + [] == locked && free + [] == free;
      if LockOf(g.members).Some? {
        WeighSnoc(locked, g, w);
      } else {
        WeighSnoc(free, g, w);
      }
    }
  }

  /** The rows a group contributes to validation. */
  function OnValidation(sides: Sides): Group -> nat {
    (g: Group) => if g.id in sides && sides[g.id] == Validation then |g.members| else 0
  }

  /** What a filling step has put where: each listed group whole on its recorded side. */
  ghost predicate Filed(groups: seq<Group>, sides: Sides, train: seq<nat>, validation: seq<nat>) {
    && multiset(train) + multiset(validation) == RowsOf(groups)
    && |validation| == Weigh(groups, OnValidation(sides))
    && forall g :: g in groups ==>
      && g.id in sides
      && forall l :: l in g.members ==> l.source in if sides[g.id] == Train then train else validation
  }

  lemma {:induction false} RowsCount(groups: seq<Group>)
    ensures |RowsOf(groups)| == Total(groups)
  {
    if groups != [] {
      RowsCount(groups[..|groups| - 1]);
    }
  }

  function Total(groups: seq<Group>): nat {
    if groups == [] then 0 else Total(groups[..|groups| - 1]) + |groups[|groups| - 1].members|
  }

  lemma {:induction false} RowsAppend(a: seq<Group>, b: seq<Group>)
    ensures RowsOf(a + b) == RowsOf(a) + RowsOf(b)
  {
    hide RowsOf, Rows;
    if b == [] {
      NoParts();
      assert a + b == a;
    } else {
      var init, g := b[..|b| - 1], b[|b| - 1];
      assert b == init + [g];
      RowsAppend(a, init);
      AppendSnoc(a, init, g);
      RowsSnoc(a + init, g);
      RowsSnoc(init, g);
    }
  }

  /** The rows of one group go to the end of its side's list. */
  ghost predicate Moved(train: seq<nat>, validation: seq<nat>, rows: seq<nat>, side: Side, t: seq<nat>, v: seq<nat>) {
    if side == Train then t == train + rows && v == validation else t == train && v == validation + rows
  }

  lemma FiledMembers(groups: seq<Group>, sides: Sides, train: seq<nat>, validation: seq<nat>, g: Group, side: Side, t: seq<nat>, v: seq<nat>)
    requires Filed(groups, sides, train, validation) && forall h :: h in groups ==> h.id != g.id
    requires Moved(train, validation, Sources(g.members), side, t, v)
    ensures forall h :: h in groups + [g] ==>
      && h.id in sides[g.id := side]
      && forall l :: l in h.members ==> l.source in if sides[g.id := side][h.id] == Train then t else v
  {
    hide RowsOf;
    forall l | l in g.members ensures l.source in Sources(g.members) {
      var i :| 0 <= i < |g.members| && g.members[i] == l;
      assert Sources(g.members)[i] == l.source;
    }
    hide Sources;
    assert forall x :: x in train ==> x in t;
    assert forall x :: x in validation ==> x in v;
  }

  lemma WeighMoved(groups: seq<Group>, sides: Sides, g: Group, side: Side)
    requires forall h :: h in groups ==> h.id != g.id
    ensures Weigh(groups + [g], OnValidation(sides[g.id := side]))
         == Weigh(groups, OnValidation(sides)) + if side == Validation then |Sources(g.members)| else 0
  {
    WeighSnoc(groups, g, OnValidation(sides[g.id := side]));
    WeighSame(groups, OnValidation(sides), OnValidation(sides[g.id := side]));
  }

  lemma FiledSnoc(groups: seq<Group>, sides: Sides, train: seq<nat>, validation: seq<nat>, g: Group, side: Side, t: seq<nat>, v: seq<nat>)
    requires Filed(groups, sides, train, validation) && forall h :: h in groups ==> h.id != g.id
    requires Moved(train, validation, Sources(g.members), side, t, v)
    ensures Filed(groups + [g], sides[g.id := side], t, v)
  {
    RowsSnoc(groups, g);
    FiledMembers(groups, sides, train, validation, g, side, t, v);
    MoveRows(train, validation, Sources(g.members), side, t, v);
    WeighMoved(groups, sides, g, side);
    hide RowsOf, Sources, Moved, Weigh, OnValidation;
  }

  lemma MoveRows(train: seq<nat>, validation: seq<nat>, rows: seq<nat>, side: Side, t: seq<nat>, v: seq<nat>)
    requires Moved(train, validation, rows, side, t, v)
    ensures multiset(t) + multiset(v) == (multiset(train) + multiset(validation)) + multiset(rows)
    ensures |v| == |validation| + if side == Validation then |rows| else 0
  {
  }

  ghost predicate DistinctIds(groups: seq<Group>) {
    forall i, j :: 0 <= i < j < |groups| ==> groups[i].id != groups[j].id
  }

  function IdSet(groups: seq<Group>): set<nat> {
    set g | g in groups :: g.id
  }

  /** `more` keeps the entries of `less` and adds exactly the listed groups. */
  ghost predicate Extends(less: Sides, more: Sides, groups: seq<Group>) {
    && more.Keys == less.Keys + IdSet(groups)
    && forall id :: id in less ==> more[id] == less[id]
  }

  lemma ExtendsSnoc(less: Sides, more: Sides, groups: seq<Group>, g: Group, side: Side)
    requires Extends(less, more, groups) && g.id !in less
    ensures Extends(less, more[g.id := side], groups + [g])
  {
    assert IdSet(groups + [g]) == IdSet(groups) + {g.id};
  }

  lemma HonouredSnoc(groups: seq<Group>, sides: Sides, g: Group, side: Side)
    requires Honoured(groups, sides) && forall h :: h in groups ==> h.id != g.id
    requires LockOf(g.members).Some? ==> LockOf(g.members).value == side
    ensures Honoured(groups + [g], sides[g.id := side])
    ensures LockOf(g.members).None? ==> Honoured(groups + [g], sides)
  {
    hide LockOf;
  }

  ghost predicate Honoured(groups: seq<Group>, sides: Sides) {
    forall g :: g in groups && LockOf(g.members).Some? ==> g.id in sides && sides[g.id] == LockOf(g.members).value
  }

  /** The rows locked to validation. */
  function LockedValidation(groups: seq<Group>): nat {
    if groups == [] then 0
    else
      var g := groups[|groups| - 1];
      LockedValidation(groups[..|groups| - 1]) + if LockOf(g.members) == Some(Validation) then |g.members| else 0
  }

  ghost predicate LockedDone(groups: seq<Group>, n: nat, before: Sides, sides: Sides, train: seq<nat>, validation: seq<nat>)
    requires n <= |groups|
  {
    && Filed(LockedOf(groups[..n]), sides, train, validation)
    && Extends(before, sides, LockedOf(groups[..n])) && Honoured(groups[..n], sides)
    && |validation| == LockedValidation(groups[..n])
  }

  lemma LockedStart(groups: seq<Group>, before: Sides)
    ensures LockedDone(groups, 0, before, before, [], [])
  {
  }

  lemma LockedStep(groups: seq<Group>, n: nat, before: Sides, sides: Sides, train: seq<nat>, validation: seq<nat>,
                   side: Side, t: seq<nat>, v: seq<nat>)
    requires n < |groups| && DistinctIds(groups) && LockedDone(groups, n, before, sides, train, validation)
    requires groups[n].id !in before && LockOf(groups[n].members) == Some(side)
    requires Moved(train, validation, Sources(groups[n].members), side, t, v)
    ensures LockedDone(groups, n + 1, before, sides[groups[n].id := side], t, v)
  {
    var g := groups[n];
    PartsStep(groups[..n + 1]);
    assert groups[..n + 1][..n] == groups[..n] && groups[..n + 1] == groups[..n] + [g];
    forall h | h in groups[..n] ensures h.id != g.id {
    }
    FiledSnoc(LockedOf(groups[..n]), sides, train, validation, g, side, t, v);
    MoveRows(train, validation, Sources(g.members), side, t, v);
    ExtendsSnoc(before, sides, LockedOf(groups[..n]), g, side);
    HonouredSnoc(groups[..n], sides, g, side);
    hide Filed, LockOf, Honoured, Extends, LockedOf, Moved;
  }

  lemma UnlockedStep(groups: seq<Group>, n: nat, before: Sides, sides: Sides, train: seq<nat>, validation: seq<nat>)
    requires n < |groups| && DistinctIds(groups) && LockedDone(groups, n, before, sides, train, validation)
    requires LockOf(groups[n].members).None?
    ensures LockedDone(groups, n + 1, before, sides, train, validation)
  {
    PartsStep(groups[..n + 1]);
    assert groups[..n + 1][..n] == groups[..n] && groups[..n + 1] == groups[..n] + [groups[n]];
    assert LockedOf(groups[..n]) + [] == LockedOf(groups[..n]);
    forall h | h in groups[..n] ensures h.id != groups[n].id {
    }
    HonouredSnoc(groups[..n], sides, groups[n], Train);
    hide Filed, LockOf, Extends, LockedOf, Honoured;
  }

  method FillLocked(groups: seq<Group>, before: Sides)
    returns (train: seq<nat>, validation: seq<nat>, sides: Sides)
    requires DistinctIds(groups) && forall g :: g in groups ==> g.id !in before
    ensures LockedDone(groups, |groups|, before, sides, train, validation)
  {
    train, validation, sides := [], [], before;
    LockedStart(groups, before);
    hide LockedDone, LockOf, LockedOf, DistinctIds;
    for n := 0 to |groups|
      invariant LockedDone(groups, n, before, sides, train, validation)
    {
      var g := groups[n];
      var side := LockOf(g.members);
      if side.None? {
        UnlockedStep(groups, n, before, sides, train, validation);
      } else {
        var t := if side.value == Train then train + Sources(g.members) else train;
        var v := if side.value == Train then validation else validation + Sources(g.members);
        LockedStep(groups, n, before, sides, train, validation, side.value, t, v);
        train, validation := t, v;
        sides := sides[g.id := side.value];
      }
    }
  }

  lemma OneId(groups: seq<Group>, g: Group, h: Group)
    requires DistinctIds(groups) && g in groups && h in groups && g.id == h.id
    ensures g == h
  {
  }

  lemma DistinctSnoc(groups: seq<Group>, g: Group)
    requires DistinctIds(groups) && forall h :: h in groups ==> h.id != g.id
    ensures DistinctIds(groups + [g])
  {
  }

  lemma {:induction false} PartsDistinct(groups: seq<Group>)
    requires DistinctIds(groups)
    ensures DistinctIds(LockedOf(groups)) && DistinctIds(FreeOf(groups))
  {
    if groups != [] {
      var init, g := groups[..|groups| - 1], groups[|groups| - 1];
      PartsStep(groups);
      PartsDistinct(init);
      forall h | h in init ensures h.id != g.id {
      }
      hide LockOf, LockedOf, FreeOf, DistinctIds;
      assert LockedOf(init) + [] == LockedOf(init) && FreeOf(init) + [] == FreeOf(init);
      DistinctSnoc(LockedOf(init), g);
      DistinctSnoc(FreeOf(init), g);
    }
  }

  lemma {:induction false} SortDistinct(groups: seq<Group>, key: Group -> int)
    requires DistinctIds(groups)
    ensures DistinctIds(SortBy(groups, key))
  {
    if groups != [] {
      SortDistinct(groups[1..], key);
      SortSame(groups[1..], key);
      InsertDistinct(groups[0], SortBy(groups[1..], key), key);
    }
  }

  lemma {:induction false} InsertDistinct(g: Group, groups: seq<Group>, key: Group -> int)
    requires DistinctIds(groups) && forall h :: h in groups ==> h.id != g.id
    ensures DistinctIds(InsertBy(g, groups, key))
  {
    if groups != [] && key(g) > key(groups[0]) {
      InsertDistinct(g, groups[1..], key);
      InsertPermutes(g, groups[1..], key);
      var rest := InsertBy(g, groups[1..], key);
      forall j | 0 <= j < |rest| ensures groups[0].id != rest[j].id {
        assert rest[j] in multiset(rest);
        assert rest[j] in groups[1..] || rest[j] == g;
      }
    }
  }

  lemma OrderDistinct(groups: seq<Group>, key: Group -> int)
    requires DistinctIds(groups)
    ensures DistinctIds(LockedOf(groups) + SortBy(FreeOf(groups), key))
  {
    PartsDistinct(groups);
    SortDistinct(FreeOf(groups), key);
    SortSame(FreeOf(groups), key);
    var locked, free := LockedOf(groups), SortBy(FreeOf(groups), key);
    forall i, j | 0 <= i < |locked| && 0 <= j < |free| ensures locked[i].id != free[j].id {
      assert locked[i] in locked && free[j] in free && free[j] in FreeOf(groups);
      assert locked[i] != free[j];
      var a: nat :| a < |groups| && groups[a] == locked[i];
      var b: nat :| b < |groups| && groups[b] == free[j];
      assert a != b;
    }
    hide LockOf, LockedOf, FreeOf, SortBy;
  }

  /** The first `n` free groups went where the greedy rule sends them, and `count` rows are in validation. */
  ghost predicate Offered(free: seq<Group>, n: nat, target: int, start: nat, sides: Sides, count: nat)
    requires n <= |free|
  {
    && count == After(Sizes(free), start, target, n)
    && forall i :: 0 <= i < n ==>
      free[i].id in sides && (sides[free[i].id] == Validation <==> Takes(Sizes(free), start, target, i))
  }

  ghost predicate FreeDone(locked: seq<Group>, free: seq<Group>, n: nat, target: int, start: nat, before: Sides, sides: Sides,
                           train: seq<nat>, validation: seq<nat>)
    requires n <= |free|
  {
    && Filed(locked + free[..n], sides, train, validation) && Extends(before, sides, free[..n])
    && Offered(free, n, target, start, sides, |validation|)
  }

  lemma FreeFiled(locked: seq<Group>, free: seq<Group>, n: nat, before: Sides, sides: Sides,
                  train: seq<nat>, validation: seq<nat>, side: Side, t: seq<nat>, v: seq<nat>)
    requires n < |free| && DistinctIds(locked + free) && free[n].id !in before
    requires Filed(locked + free[..n], sides, train, validation) && Extends(before, sides, free[..n])
    requires Moved(train, validation, Sources(free[n].members), side, t, v)
    ensures Filed(locked + free[..n + 1], sides[free[n].id := side], t, v)
    ensures Extends(before, sides[free[n].id := side], free[..n + 1])
  {
    hide Filed, Extends, Moved;
    var g := free[n];
    NotYet(locked, free, n);
    TakeSnoc(free, n);
    AppendSnoc(locked, free[..n], g);
    FiledSnoc(locked + free[..n], sides, train, validation, g, side, t, v);
    ExtendsSnoc(before, sides, free[..n], g, side);
  }

  lemma OfferedSnoc(free: seq<Group>, n: nat, target: int, start: nat, sides: Sides, count: nat, side: Side)
    requires n < |free| && Offered(free, n, target, start, sides, count) && forall i :: 0 <= i < n ==> free[i].id != free[n].id
    requires side == if Chosen(|free[n].members|, count, target) then Validation else Train
    ensures Offered(free, n + 1, target, start, sides[free[n].id := side],
                    count + if side == Validation then |free[n].members| else 0)
  {
    var sizes := Sizes(free);
    assert sizes[n] == |free[n].members|;
    assert side == Validation <==> Takes(sizes, start, target, n);
    assert After(sizes, start, target, n + 1) == count + if side == Validation then |free[n].members| else 0;
    hide Takes, Chosen, After, Sizes;
    SidesSnoc(free, sizes, n, target, start, sides, side);
  }

  lemma FreeStep(locked: seq<Group>, free: seq<Group>, n: nat, target: int, start: nat, before: Sides, sides: Sides,
                 train: seq<nat>, validation: seq<nat>, side: Side, t: seq<nat>, v: seq<nat>)
    requires n < |free| && DistinctIds(locked + free) && FreeDone(locked, free, n, target, start, before, sides, train, validation)
    requires free[n].id !in before
    requires side == if Chosen(|free[n].members|, |validation|, target) then Validation else Train
    requires Moved(train, validation, Sources(free[n].members), side, t, v)
    ensures FreeDone(locked, free, n + 1, target, start, before, sides[free[n].id := side], t, v)
  {
    hide Filed, Extends, DistinctIds, Offered, Chosen, Moved;
    FreeFiled(locked, free, n, before, sides, train, validation, side, t, v);
    NotYet(locked, free, n);
    MoveRows(train, validation, Sources(free[n].members), side, t, v);
    OfferedSnoc(free, n, target, start, sides, |validation|, side);
  }

  lemma SidesSnoc(free: seq<Group>, sizes: seq<nat>, n: nat, target: int, start: nat, sides: Sides, side: Side)
    requires n < |free| == |sizes| && forall i :: 0 <= i < n ==> free[i].id != free[n].id
    requires forall i :: 0 <= i < n ==>
      free[i].id in sides && (sides[free[i].id] == Validation <==> Takes(sizes, start, target, i))
    requires side == Validation <==> Takes(sizes, start, target, n)
    ensures var more := sides[free[n].id := side];
      forall i :: 0 <= i < n + 1 ==>
        free[i].id in more && (more[free[i].id] == Validation <==> Takes(sizes, start, target, i))
  {
    hide Takes;
  }

  lemma NotYet(locked: seq<Group>, free: seq<Group>, n: nat)
    requires DistinctIds(locked + free) && n < |free|
    ensures forall h :: h in locked + free[..n] ==> h.id != free[n].id
    ensures forall i :: 0 <= i < n ==> free[i].id != free[n].id
  {
    forall i | 0 <= i < n ensures free[i].id != free[n].id {
      assert (locked + free)[|locked| + i].id != (locked + free)[|locked| + n].id;
    }
    forall h | h in locked + free[..n] ensures h.id != free[n].id {
      var i :| 0 <= i < |locked| + n && (locked + free[..n])[i] == h;
      assert (locked + free)[i] == h && (locked + free)[|locked| + n] == free[n];
    }
  }

  method FillFree(locked: seq<Group>, free: seq<Group>, target: int, train0: seq<nat>, validation0: seq<nat>, before: Sides)
    returns (train: seq<nat>, validation: seq<nat>, sides: Sides)
    requires DistinctIds(locked + free) && Filed(locked, before, train0, validation0)
    requires forall g :: g in free ==> g.id !in before
    ensures FreeDone(locked, free, |free|, target, |validation0|, before, sides, train, validation)
  {
    train, validation, sides := train0, validation0, before;
    var current := |validation|;
    assert locked + free[..0] == locked;
    assert FreeDone(locked, free, 0, target, |validation0|, before, sides, train, validation);
    hide Filed, RowsOf, Chosen, Extends, DistinctIds, Takes;
    for n := 0 to |free|
      invariant FreeDone(locked, free, n, target, |validation0|, before, sides, train, validation)
      invariant current == |validation|
    {
      var g := free[n];
      var chosen := Chosen(|g.members|, current, target);
      var side := if chosen then Validation else Train;
      var t := if chosen then train else train + Sources(g.members);
      var v := if chosen then validation + Sources(g.members) else validation;
      FreeStep(locked, free, n, target, |validation0|, before, sides, train, validation, side, t, v);
      current := current + if chosen then |g.members| else 0;
      train, validation := t, v;
      sides := sides[g.id := side];
    }
  }

  // ---- one bucket ----

  datatype Report = Report(rows: nat, target: int, validation: nat)

  /** The quota as far as whole groups and locks allow: nothing free in train would bring the count closer. */
  ghost predicate Balanced(groups: seq<Group>, sides: Sides, r: Report) {
    forall g :: g in groups && LockOf(g.members).None? && g.id in sides && sides[g.id] == Train ==>
      !Chosen(|g.members|, r.validation, r.target)
  }

  function ByRank(rank: nat -> int): Group -> int {
    (g: Group) => rank(g.id)
  }

  /** The free groups in the order in which they are offered to validation. */
  function Queue(groups: seq<Group>, rank: nat -> int): seq<Group> {
    SortBy(FreeOf(groups), ByRank(rank))
  }

  /** Free groups were offered in rank order, starting from the rows locked to validation, and taken by the greedy rule. */
  ghost predicate Greedy(groups: seq<Group>, rank: nat -> int, sides: Sides, r: Report) {
    Offered(Queue(groups, rank), |Queue(groups, rank)|, r.target, LockedValidation(groups), sides, r.validation)
  }

  /** Taking a free validation group back would help exactly if it is smaller than twice the overshoot. */
  ghost predicate TakenBack(groups: seq<Group>, sides: Sides, r: Report) {
    forall g :: g in groups && LockOf(g.members).None? && g.id in sides && sides[g.id] == Validation ==>
      (Distance(r.validation - |g.members|, r.target) < Distance(r.validation, r.target)
       <==> |g.members| < 2 * (r.validation - r.target))
  }

  ghost predicate Filled(groups: seq<Group>, ratio: real, rank: nat -> int, before: Sides, sides: Sides,
                         train: seq<nat>, validation: seq<nat>, r: Report) {
    && Filed(groups, sides, train, validation) && Extends(before, sides, groups) && Honoured(groups, sides)
    && r.rows == |RowsOf(groups)| && r.target == Target(r.rows, ratio) && r.validation == |validation|
    && Greedy(groups, rank, sides, r) && Balanced(groups, sides, r) && TakenBack(groups, sides, r)
    && Distance(r.validation, r.target) <= Distance(LockedValidation(groups), r.target)
    && (Singles(groups) && 0.0 < ratio < 1.0 ==> r.validation == r.target)
  }

  ghost predicate Singles(groups: seq<Group>) {
    forall g :: g in groups ==> |g.members| == 1 && LockOf(g.members).None?
  }

  method FillBucket(groups: seq<Group>, ratio: real, rank: nat -> int, before: Sides)
    returns (train: seq<nat>, validation: seq<nat>, sides: Sides, r: Report)
    requires DistinctIds(groups) && forall g :: g in groups ==> g.id !in before && g.members != []
    ensures Filled(groups, ratio, rank, before, sides, train, validation, r)
  {
    var key := ByRank(rank);
    hide Filed, RowsOf, Balanced, LockOf, SortBy, Target, ByRank, TakenBack, Offered;
    var free := Queue(groups, rank);
    var total := CountRows(groups);
    var target := Target(total, ratio);
    var train0, validation0, sides0 := FillLocked(groups, before);
    OrderDistinct(groups, key);
    SortSame(FreeOf(groups), key);
    assert groups[..|groups|] == groups && free[..|free|] == free;
    FreeUnplaced(groups, free, before, sides0);
    train, validation, sides := FillFree(LockedOf(groups), free, target, train0, validation0, sides0);
    r := Report(total, target, |validation|);
    TogetherFiled(groups, key, sides, train, validation);
    TogetherExtends(groups, free, before, sides0, sides);
    TogetherBalanced(groups, free, target, |validation0|, sides0, sides, train, validation, r);
    SmallGroupsReturn(groups, sides, r);
    KeptHonoured(groups, sides0, sides);
    if Singles(groups) && 0.0 < ratio < 1.0 {
      OfferedCount(free, target, |validation0|, sides, |validation|);
      SinglesExact(groups, free, ratio, |validation0|);
    }
  }

  lemma {:induction false} SinglesCount(groups: seq<Group>)
    requires Singles(groups)
    ensures |FreeOf(groups)| == |groups| == |RowsOf(groups)| && LockedValidation(groups) == 0
  {
    if groups != [] {
      var init, g := groups[..|groups| - 1], groups[|groups| - 1];
      SinglesCount(init);
      assert g in groups && |Rows(g)| == 1;
    }
  }

  lemma SinglesExact(groups: seq<Group>, free: seq<Group>, ratio: real, start: nat)
    requires Singles(groups) && 0.0 < ratio < 1.0 && |free| == |FreeOf(groups)| && start == LockedValidation(groups)
    requires forall g :: g in free ==> g in groups
    ensures After(Sizes(free), start, Target(|RowsOf(groups)|, ratio), |free|) == Target(|RowsOf(groups)|, ratio)
  {
    SinglesCount(groups);
    TargetInRange(|RowsOf(groups)|, ratio);
    forall i | 0 <= i < |free| ensures Sizes(free)[i] == 1 {
      assert free[i] in groups;
    }
    SinglesFill(Sizes(free), Target(|RowsOf(groups)|, ratio), |free|);
  }

  lemma KeptHonoured(groups: seq<Group>, less: Sides, more: Sides)
    requires Honoured(groups, less) && forall id :: id in less ==> id in more && more[id] == less[id]
    ensures Honoured(groups, more)
  {
    hide LockOf;
  }

  lemma TogetherRows(groups: seq<Group>, key: Group -> int)
    ensures RowsOf(LockedOf(groups) + SortBy(FreeOf(groups), key)) == RowsOf(groups)
  {
    hide RowsOf, LockedOf, FreeOf, SortBy;
    RowsAppend(LockedOf(groups), SortBy(FreeOf(groups), key));
    RowsSplit(groups);
    RowsSorted(FreeOf(groups), key);
  }

  lemma TogetherWeight(groups: seq<Group>, key: Group -> int, w: Group -> nat)
    ensures Weigh(LockedOf(groups) + SortBy(FreeOf(groups), key), w) == Weigh(groups, w)
  {
    hide Weigh, LockedOf, FreeOf, SortBy;
    WeighAppend(LockedOf(groups), SortBy(FreeOf(groups), key), w);
    WeighSplit(groups, w);
    WeighSorted(FreeOf(groups), key, w);
  }

  lemma TogetherFiled(groups: seq<Group>, key: Group -> int, sides: Sides, train: seq<nat>, validation: seq<nat>)
    requires Filed(LockedOf(groups) + SortBy(FreeOf(groups), key), sides, train, validation)
    ensures Filed(groups, sides, train, validation)
  {
    TogetherRows(groups, key);
    TogetherWeight(groups, key, OnValidation(sides));
    SortSame(FreeOf(groups), key);
    var parts := LockedOf(groups) + SortBy(FreeOf(groups), key);
    forall g | g in groups ensures g in parts {
      assert g in LockedOf(groups) || g in FreeOf(groups);
    }
    hide RowsOf, LockedOf, FreeOf, SortBy, Sources, Weigh, OnValidation;
  }

  lemma TogetherExtends(groups: seq<Group>, free: seq<Group>, before: Sides, middle: Sides, sides: Sides)
    requires Extends(before, middle, LockedOf(groups)) && Extends(middle, sides, free)
    requires forall g :: g in free <==> g in FreeOf(groups)
    ensures Extends(before, sides, groups)
  {
    assert forall g :: g in groups <==> g in LockedOf(groups) || g in free;
    assert IdSet(groups) == IdSet(LockedOf(groups)) + IdSet(free);
  }

  lemma TogetherBalanced(groups: seq<Group>, free: seq<Group>, target: int, start: nat, before: Sides, sides: Sides,
                         train: seq<nat>, validation: seq<nat>, r: Report)
    requires FreeDone(LockedOf(groups), free, |free|, target, start, before, sides, train, validation)
    requires forall g :: g in free <==> g in FreeOf(groups)
    requires r.target == target && r.validation == |validation|
    ensures Balanced(groups, sides, r) && Distance(r.validation, target) <= Distance(start, target)
  {
    hide Filed, Extends, LockOf, Chosen, After;
    forall g | g in groups && LockOf(g.members).None? && g.id in sides && sides[g.id] == Train
      ensures !Chosen(|g.members|, r.validation, r.target)
    {
      assert g in free;
      var i :| 0 <= i < |free| && free[i] == g;
      assert !Takes(Sizes(free), start, target, i);
      LocallyOptimal(Sizes(free), start, target, i);
    }
    AfterGrows(Sizes(free), start, target, 0, |free|);
    AfterNothing(Sizes(free), start, target);
  }

  lemma OfferedCount(free: seq<Group>, target: int, start: nat, sides: Sides, count: nat)
    requires Offered(free, |free|, target, start, sides, count)
    ensures count == After(Sizes(free), start, target, |free|)
  {
  }

  lemma SmallGroupsReturn(groups: seq<Group>, sides: Sides, r: Report)
    requires forall g :: g in groups ==> g.members != []
    ensures TakenBack(groups, sides, r)
  {
    hide LockOf;
  }

  lemma AfterNothing(sizes: seq<nat>, start: int, target: int)
    ensures After(sizes, start, target, 0) == start
  {
  }

  method CountRows(groups: seq<Group>) returns (total: nat)
    ensures total == |RowsOf(groups)|
  {
    total := 0;
    for n := 0 to |groups|
      invariant total == |RowsOf(groups[..n])|
    {
      TakeSnoc(groups, n);
      RowsSnoc(groups[..n], groups[n]);
      total := total + |groups[n].members|;
    }
    assert groups[..|groups|] == groups;
  }

  lemma FreeUnplaced(groups: seq<Group>, free: seq<Group>, before: Sides, sides: Sides)
    requires DistinctIds(groups) && (forall g :: g in groups ==> g.id !in before)
    requires Extends(before, sides, LockedOf(groups)) && forall g :: g in free ==> g in FreeOf(groups)
    ensures forall g :: g in free ==> g.id !in sides
  {
    forall g | g in free ensures g.id !in sides {
      assert g in groups && g.id !in before;
      if g.id in IdSet(LockedOf(groups)) {
        var h :| h in LockedOf(groups) && h.id == g.id;
        OneId(groups, g, h);
      }
    }
  }
}
