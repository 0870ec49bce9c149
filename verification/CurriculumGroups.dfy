/** Reviewed labels, the families they form, and the verdict on each family. */
module CurriculumGroups {
  import opened Common
  import opened Sorting

  datatype Difficulty = Easy | Medium | Hard
  datatype Side = Train | Validation
  datatype Bucket = Foundation | Constraints | Strategy

  /** A historical split: one of the two known ones, or any other text. */
  datatype Lock = Known(side: Side) | Unknown

  /** Names are numbered in their sorted order. Fields that fail their type or value check are None or false. */
  datatype Label = Label(source: nat, group: Option<nat>, groupReviewed: bool, lock: Option<Lock>, reviewed: bool,
                         difficulty: Option<Difficulty>, basedOnConstraints: bool,
                         replanning: Option<bool>, subgoals: Option<bool>)

  function AssignBucket(l: Label): Option<Bucket> {
    if !l.reviewed || l.difficulty.None? then None
    else if !l.basedOnConstraints then None
    else if l.replanning.None? || l.subgoals.None? then None
    else if l.difficulty.value == Hard || l.replanning.value || l.subgoals.value then Some(Strategy)
    else Some(if l.difficulty.value == Easy then Foundation else Constraints)
  }

  function Level(b: Bucket): nat {
    match b
    case Foundation => 0
    case Constraints => 1
    case Strategy => 2
  }

  // ---- groups ----

  /** A family of labels that must stay together. */
  datatype Group = Group(id: nat, members: seq<Label>)

  predicate Grouped(l: Label) {
    l.group.Some? && l.groupReviewed
  }

  /** The labels of a group, in order. */
  function MembersOf(labels: seq<Label>, id: nat): (m: seq<Label>)
    ensures forall l :: l in m <==> l in labels && Grouped(l) && l.group.value == id
  {
    if labels == [] then []
    else
      var l := labels[|labels| - 1];
      MembersOf(labels[..|labels| - 1], id) + if Grouped(l) && l.group.value == id then [l] else []
  }

  function Sources(labels: seq<Label>): seq<nat> {
    seq(|labels|, i requires 0 <= i < |labels| => labels[i].source)
  }

  function Rows(g: Group): multiset<nat> {
    multiset(Sources(g.members))
  }

  /** Every row of the listed groups, once per occurrence. */
  function RowsOf(groups: seq<Group>): multiset<nat> {
    if groups == [] then multiset{} else RowsOf(groups[..|groups| - 1]) + Rows(groups[|groups| - 1])
  }

  ghost predicate Families(groups: seq<Group>, labels: seq<Label>) {
    && (forall i, j :: 0 <= i < j < |groups| ==> groups[i].id != groups[j].id)
    && (forall i :: 0 <= i < |groups| ==> groups[i].members == MembersOf(labels, groups[i].id) != [])
    && (forall l :: l in labels && Grouped(l) ==> exists i :: 0 <= i < |groups| && groups[i].id == l.group.value)
  }

  lemma SourcesAppend(a: seq<Label>, b: seq<Label>)
    ensures Sources(a + b) == Sources(a) + Sources(b)
  {
  }

  lemma {:induction false} RowsUpdate(groups: seq<Group>, i: nat, l: Label)
    requires i < |groups|
    ensures RowsOf(groups[i := groups[i].(members := groups[i].members + [l])]) == RowsOf(groups) + multiset{l.source}
  {
    var n := |groups| - 1;
    var more := groups[i := groups[i].(members := groups[i].members + [l])];
    if i == n {
      assert more[..n] == groups[..n];
      SourcesAppend(groups[n].members, [l]);
      assert Sources([l]) == [l.source];
    } else {
      RowsUpdate(groups[..n], i, l);
      assert more[..n] == groups[..n][i := groups[i].(members := groups[i].members + [l])];
    }
  }

  lemma RowsSnoc(groups: seq<Group>, g: Group)
    ensures RowsOf(groups + [g]) == RowsOf(groups) + Rows(g)
  {
    hide Rows;
    assert (groups + [g])[..|groups|] == groups;
  }

  /** The dictionary `groups[group].append(label)`. */
  method AddToGroup(groups: seq<Group>, labels: seq<Label>, l: Label) returns (more: seq<Group>)
    requires Families(groups, labels) && Grouped(l)
    ensures Families(more, labels + [l]) && RowsOf(more) == RowsOf(groups) + multiset{l.source}
  {
    hide Families, RowsOf;
    var i := 0;
    while i < |groups| && groups[i].id != l.group.value
      invariant 0 <= i <= |groups| && forall j :: 0 <= j < i ==> groups[j].id != l.group.value
    {
      i := i + 1;
    }
    if i < |groups| {
      RowsUpdate(groups, i, l);
      more := groups[i := groups[i].(members := groups[i].members + [l])];
      KnownFamily(groups, labels, l, i);
    } else {
      var g := Group(l.group.value, [l]);
      more := groups + [g];
      RowsSnoc(groups, g);
      assert Sources([l]) == [l.source];
      NewFamily(groups, labels, l);
    }
  }

  lemma MembersSnoc(labels: seq<Label>, l: Label, id: nat)
    ensures MembersOf(labels + [l], id) == MembersOf(labels, id) + if Grouped(l) && l.group.value == id then [l] else []
  {
    assert (labels + [l])[..|labels|] == labels;
  }

  lemma KnownFamily(groups: seq<Group>, labels: seq<Label>, l: Label, i: nat)
    requires Families(groups, labels) && Grouped(l) && i < |groups| && groups[i].id == l.group.value
    ensures Families(groups[i := groups[i].(members := groups[i].members + [l])], labels + [l])
  {
    hide MembersOf;
    var more := groups[i := groups[i].(members := groups[i].members + [l])];
    forall j | 0 <= j < |more| ensures more[j].members == MembersOf(labels + [l], more[j].id) != [] {
      MembersSnoc(labels, l, more[j].id);
    }
    forall x | x in labels + [l] && Grouped(x) ensures exists j :: 0 <= j < |more| && more[j].id == x.group.value {
      if x in labels {
        var j :| 0 <= j < |groups| && groups[j].id == x.group.value;
        assert more[j].id == x.group.value;
      } else {
        assert more[i].id == x.group.value;
      }
    }
  }

  lemma NewFamily(groups: seq<Group>, labels: seq<Label>, l: Label)
    requires Families(groups, labels) && Grouped(l) && forall j :: 0 <= j < |groups| ==> groups[j].id != l.group.value
    ensures Families(groups + [Group(l.group.value, [l])], labels + [l])
  {
    var more := groups + [Group(l.group.value, [l])];
    assert (labels + [l])[..|labels|] == labels;
    EmptyIffNone(MembersOf(labels, l.group.value));
    forall x | x in labels + [l] && Grouped(x) ensures exists j :: 0 <= j < |more| && more[j].id == x.group.value {
      if x in labels {
        var j :| 0 <= j < |groups| && groups[j].id == x.group.value;
        assert more[j].id == x.group.value;
      } else {
        assert more[|groups|].id == x.group.value;
      }
    }
  }

  datatype Reason = UnreviewedGroup | ProtectedGroup | UnreviewedDifficulty
  datatype HeldRow = HeldRow(source: nat, reason: Reason)

  function HeldSources(held: seq<HeldRow>): seq<nat> {
    seq(|held|, i requires 0 <= i < |held| => held[i].source)
  }

  function Hold(labels: seq<Label>, reason: Reason): seq<HeldRow> {
    seq(|labels|, i requires 0 <= i < |labels| => HeldRow(labels[i].source, reason))
  }

  /** `n` labels are dealt with: grouped, or held as ungrouped. */
  ghost predicate Dealt(labels: seq<Label>, n: nat, groups: seq<Group>, held: seq<HeldRow>)
    requires n <= |labels|
  {
    && Families(groups, labels[..n])
    && RowsOf(groups) + multiset(HeldSources(held)) == multiset(Sources(labels[..n]))
    && forall l :: l in labels[..n] && !Grouped(l) ==> HeldRow(l.source, UnreviewedGroup) in held
  }

  lemma SourcesSnoc(labels: seq<Label>, n: nat)
    requires n < |labels|
    ensures Sources(labels[..n + 1]) == Sources(labels[..n]) + [labels[n].source]
  {
  }

  lemma DealtHeld(labels: seq<Label>, n: nat, groups: seq<Group>, held: seq<HeldRow>)
    requires n < |labels| && Dealt(labels, n, groups, held) && !Grouped(labels[n])
    ensures Dealt(labels, n + 1, groups, held + [HeldRow(labels[n].source, UnreviewedGroup)])
  {
    var l := labels[n];
    TakeSnoc(labels, n);
    SourcesSnoc(labels, n);
    StillFamilies(groups, labels[..n], l);
    hide Families, RowsOf, Sources;
    assert HeldSources(held + [HeldRow(l.source, UnreviewedGroup)]) == HeldSources(held) + [l.source];
  }

  lemma DealtGrouped(labels: seq<Label>, n: nat, groups: seq<Group>, held: seq<HeldRow>, more: seq<Group>)
    requires n < |labels| && Dealt(labels, n, groups, held) && Grouped(labels[n])
    requires Families(more, labels[..n] + [labels[n]]) && RowsOf(more) == RowsOf(groups) + multiset{labels[n].source}
    ensures Dealt(labels, n + 1, more, held)
  {
    TakeSnoc(labels, n);
    SourcesSnoc(labels, n);
    hide Families, RowsOf, Sources;
  }

  method GroupLabels(labels: seq<Label>) returns (groups: seq<Group>, held: seq<HeldRow>)
    ensures Dealt(labels, |labels|, groups, held)
  {
    groups, held := [], [];
    assert Dealt(labels, 0, groups, held);
    hide Families, RowsOf, Sources;
    for n := 0 to |labels|
      invariant Dealt(labels, n, groups, held)
    {
      if Grouped(labels[n]) {
        var more := AddToGroup(groups, labels[..n], labels[n]);
        DealtGrouped(labels, n, groups, held, more);
        groups := more;
      } else {
        DealtHeld(labels, n, groups, held);
        held := held + [HeldRow(labels[n].source, UnreviewedGroup)];
      }
    }
  }

  lemma StillFamilies(groups: seq<Group>, labels: seq<Label>, l: Label)
    requires Families(groups, labels) && !Grouped(l)
    ensures Families(groups, labels + [l])
  {
    assert (labels + [l])[..|labels|] == labels;
  }

  // ---- the verdict on a group ----

  predicate Locked(members: seq<Label>, lock: Lock) {
    exists i :: 0 <= i < |members| && members[i].lock == Some(lock)
  }

  /** A group with an unknown historical split, or with rows on both sides, stops the whole build. */
  predicate LocksClash(members: seq<Label>) {
    Locked(members, Unknown) || (Locked(members, Known(Train)) && Locked(members, Known(Validation)))
  }

  function LockOf(members: seq<Label>): Option<Side> {
    if Locked(members, Known(Train)) then Some(Train)
    else if Locked(members, Known(Validation)) then Some(Validation)
    else None
  }

  /** The hardest bucket of a group, unless some member has none. */
  function GroupBucket(members: seq<Label>): Option<Bucket> {
    if members == [] then Some(Foundation)
    else
      var before, last := GroupBucket(members[..|members| - 1]), AssignBucket(members[|members| - 1]);
      if before.None? || last.None? then None
      else if Level(before.value) < Level(last.value) then last else before
  }

  datatype Verdict = Held(reason: Reason) | Placed(bucket: Bucket, lock: Option<Side>)

  function VerdictOf(g: Group, protected: set<nat>): Verdict {
    if g.id in protected then Held(ProtectedGroup)
    else if GroupBucket(g.members).None? then Held(UnreviewedDifficulty)
    else Placed(GroupBucket(g.members).value, LockOf(g.members))
  }

  /** A group sits in the bucket of its hardest member, and only if every member has one. */
  lemma {:induction false} HardestMember(members: seq<Label>)
    requires members != []
    ensures GroupBucket(members).Some? <==> forall l :: l in members ==> AssignBucket(l).Some?
    ensures GroupBucket(members).Some? ==>
      && (exists l :: l in members && AssignBucket(l) == GroupBucket(members))
      && forall l :: l in members && AssignBucket(l).Some? ==> Level(AssignBucket(l).value) <= Level(GroupBucket(members).value)
  {
    var n := |members| - 1;
    var init, last := members[..n], members[n];
    assert members == init + [last];
    if n > 0 {
      HardestMember(init);
      if GroupBucket(members).Some? {
        if GroupBucket(members) == AssignBucket(last) {
          assert last in members;
        } else {
          var l :| l in init && AssignBucket(l) == GroupBucket(init);
          assert l in members;
        }
      }
    } else {
      assert last in members;
    }
  }
}
