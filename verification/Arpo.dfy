/** Packing complete rollout groups onto workers. */
module Arpo {
  import opened Common
  import opened GroupStats

  // ---- complete groups ----

  /** The groups in first-seen order, each whole. */
  ghost predicate Grouped(groups: seq<seq<nat>>, order: seq<string>, uids: seq<string>, size: int) {
    && |groups| == |order| && Distinct(order) && (forall uid :: uid in order <==> uid in uids)
    && forall k :: 0 <= k < |groups| ==> groups[k] == Members(uids, order[k]) && |groups[k]| == size
  }

  ghost predicate CompleteGroups(uids: seq<string>, size: int) {
    uids != [] && forall uid :: uid in uids ==> |Members(uids, uid)| == size
  }

  method GroupRows(uids: seq<string>, size: int) returns (r: Result<seq<seq<nat>>>, ghost order: seq<string>)
    ensures r.Ok? <==> CompleteGroups(uids, size)
    ensures r.Ok? ==> r.value != [] && Grouped(r.value, order, uids, size)
  {
    var keys, files := GroupPositions(uids);
    order := keys;
    EmptyIffNone(keys);
    EmptyIffNone(uids);
    if keys == [] {
      return Rejected, order;
    }
    var groups := [];
    for k := 0 to |keys|
      invariant |groups| == k && forall j :: 0 <= j < k ==> groups[j] == Members(uids, keys[j]) && |groups[j]| == size
    {
      assert keys[k] in uids;
      if |files[keys[k]]| != size {
        assert |Members(uids, keys[k])| != size;
        return Rejected, order;
      }
      groups := groups + [files[keys[k]]];
    }
    forall uid | uid in uids ensures |Members(uids, uid)| == size {
      var k :| 0 <= k < |keys| && keys[k] == uid;
    }
    r := Ok(groups);
  }

  // ---- bins ----

  /** What bin `b` of `n` holds after the first `m` groups were dealt out in turn. */
  function Bin(groups: seq<seq<nat>>, n: nat, b: nat, m: nat): seq<nat>
    requires n > 0 && m <= |groups|
  {
    if m == 0 then []
    else Bin(groups, n, b, m - 1) + if (m - 1) % n == b then groups[m - 1] else []
  }

  method WorkerRows(uids: seq<string>, size: int, workers: int) returns (r: Result<seq<seq<nat>>>, ghost groups: seq<seq<nat>>,
                    ghost order: seq<string>)
    ensures r.Ok? <==> CompleteGroups(uids, size) && workers > 0
    ensures r.Ok? ==> Grouped(groups, order, uids, size) && 0 < |r.value| <= |groups|
    ensures r.Ok? ==> |r.value| == if workers < |groups| then workers else |groups|
    ensures r.Ok? ==> forall b: nat :: b < |r.value| ==> r.value[b] == Bin(groups, |r.value|, b, |groups|)
  {
    var found;
    found, order := GroupRows(uids, size);
    groups := [];
    if found.Rejected? {
      return Rejected, groups, order;
    }
    groups := found.value;
    var n := if workers < |found.value| then workers else |found.value|;
    if n <= 0 {
      return Rejected, groups, order;
    }
    var bins: seq<seq<nat>> := seq(n, _ => []);
    for i := 0 to |found.value|
      invariant |bins| == n && forall b: nat :: b < n ==> bins[b] == Bin(groups, n, b, i)
    {
      var b := i % n;
      assert forall c: nat :: c < n && c != b ==> Bin(groups, n, c, i + 1) == Bin(groups, n, c, i);
      bins := bins[b := bins[b] + found.value[i]];
    }
    r := Ok(bins);
  }

  // ---- every row once, every group whole ----

  lemma {:induction false} BinRows(groups: seq<seq<nat>>, n: nat, b: nat, m: nat, row: nat)
    requires n > 0 && m <= |groups|
    ensures row in Bin(groups, n, b, m) <==> exists k :: 0 <= k < m && k % n == b && row in groups[k]
  {
    if m > 0 {
      BinRows(groups, n, b, m - 1, row);
    }
  }

  /** Each row is in exactly one bin: the one its group was dealt to. */
  lemma RowsPartitioned(groups: seq<seq<nat>>, order: seq<string>, uids: seq<string>, size: int, n: nat, row: nat)
    requires Grouped(groups, order, uids, size) && 0 < n && row < |uids|
    ensures exists b: nat :: b < n && row in Bin(groups, n, b, |groups|)
    ensures forall b: nat, c: nat :: row in Bin(groups, n, b, |groups|) && row in Bin(groups, n, c, |groups|) ==> b == c
  {
    assert uids[row] in uids;
    var k :| 0 <= k < |order| && order[k] == uids[row];
    MembersComplete(uids, row);
    BinRows(groups, n, k % n, |groups|, row);
    forall b: nat | row in Bin(groups, n, b, |groups|) ensures b == k % n {
      BinRows(groups, n, b, |groups|, row);
      var j :| 0 <= j < |groups| && j % n == b && row in groups[j];
      MembersSound(uids, order[j]);
      assert order[j] == uids[row];
    }
  }

  ghost predicate Within(rows: seq<nat>, group: seq<nat>) {
    exists before, after :: rows == before + group + after
  }

  /** Each group sits whole and contiguous in its bin. */
  lemma {:induction false} GroupWhole(groups: seq<seq<nat>>, n: nat, k: nat, m: nat)
    requires n > 0 && k < m <= |groups|
    ensures Within(Bin(groups, n, k % n, m), groups[k])
  {
    var before := Bin(groups, n, k % n, m - 1);
    if k == m - 1 {
      assert before + groups[k] == before + groups[k] + [];
    } else {
      GroupWhole(groups, n, k, m - 1);
      var a, b :| before == a + groups[k] + b;
      var next := if (m - 1) % n == k % n then groups[m - 1] else [];
      assert Bin(groups, n, k % n, m) == a + groups[k] + (b + next);
    }
  }

  /** No bin holds a row twice. */
  lemma {:induction false} BinDistinct(groups: seq<seq<nat>>, order: seq<string>, uids: seq<string>, size: int, n: nat, b: nat, m: nat)
    requires Grouped(groups, order, uids, size) && n > 0 && m <= |groups|
    ensures Distinct(Bin(groups, n, b, m))
  {
    if m > 0 {
      BinDistinct(groups, order, uids, size, n, b, m - 1);
      var before, group := Bin(groups, n, b, m - 1), groups[m - 1];
      MembersSound(uids, order[m - 1]);
      forall row | row in before ensures row !in group {
        BinRows(groups, n, b, m - 1, row);
        var k :| 0 <= k < m - 1 && k % n == b && row in groups[k];
        MembersSound(uids, order[k]);
        assert order[k] != order[m - 1];
      }
      DistinctConcat(before, group);
      assert before + [] == before;
    }
  }

  lemma DistinctConcat(xs: seq<nat>, ys: seq<nat>)
    requires Distinct(xs) && Distinct(ys) && forall x :: x in xs ==> x !in ys
    ensures Distinct(xs + ys)
  {
    forall i, j | 0 <= i < j < |xs| + |ys| ensures (xs + ys)[i] != (xs + ys)[j] {
      if i < |xs| <= j {
        assert xs[i] in xs && ys[j - |xs|] in ys;
      }
    }
  }

  // ---- balance ----

  lemma DivideNext(m: nat, n: nat)
    requires n > 0
    ensures if m % n == n - 1 then (m + 1) / n == m / n + 1 && (m + 1) % n == 0 else (m + 1) / n == m / n && (m + 1) % n == m % n + 1
  {
    var q, r := m / n, m % n;
    assert m == q * n + r;
    if r == n - 1 {
      assert m + 1 == (q + 1) * n;
      DivideUnique(m + 1, q + 1, 0, n);
    } else {
      DivideUnique(m + 1, q, r + 1, n);
    }
  }

  lemma DivideUnique(x: int, q: int, r: int, n: int)
    requires 0 <= r < n && x == q * n + r
    ensures x / n == q && x % n == r
  {
    var p := x / n;
    DivisionBounds(x, n);
    if p < q {
      MultiplyOrder(p + 1, q, n);
    } else if q < p {
      MultiplyOrder(q + 1, p, n);
    }
  }

  lemma DivisionBounds(x: int, n: int)
    requires n > 0
    ensures (x / n) * n <= x < (x / n + 1) * n && x % n == x - (x / n) * n
  {
  }

  lemma MultiplyOrder(a: int, b: int, n: int)
    requires a <= b && n > 0
    ensures a * n <= b * n
  {
  }

  /** How many of the first `m` groups bin `b` of `n` gets: `m / n`, and one more for the first `m % n` bins. */
  function Share(n: nat, b: nat, m: nat): nat
    requires n > 0
  {
    m / n + if b < m % n then 1 else 0
  }

  lemma ShareNext(n: nat, b: nat, m: nat)
    requires n > 0 && b < n
    ensures Share(n, b, m + 1) == Share(n, b, m) + if m % n == b then 1 else 0
  {
    DivideNext(m, n);
  }

  lemma TimesNext(size: nat, c: nat)
    ensures size * (c + 1) == size * c + size
  {
  }

  lemma {:induction false} BinSize(groups: seq<seq<nat>>, size: nat, n: nat, b: nat, m: nat)
    requires n > 0 && b < n && m <= |groups| && forall k :: 0 <= k < |groups| ==> |groups[k]| == size
    ensures |Bin(groups, n, b, m)| == size * Share(n, b, m)
  {
    if m > 0 {
      BinSize(groups, size, n, b, m - 1);
      ShareNext(n, b, m - 1);
      TimesNext(size, Share(n, b, m - 1));
    } else {
      DivideUnique(0, 0, 0, n);
    }
    hide Share;
  }

  /** Two bins differ by at most one group. */
  lemma BinsBalanced(groups: seq<seq<nat>>, size: nat, n: nat, b: nat, c: nat)
    requires n > 0 && b < n && c < n && forall k :: 0 <= k < |groups| ==> |groups[k]| == size
    ensures |Bin(groups, n, b, |groups|)| <= |Bin(groups, n, c, |groups|)| + size
    ensures |groups| % n == 0 ==> |Bin(groups, n, b, |groups|)| == |Bin(groups, n, c, |groups|)|
  {
    BinSize(groups, size, n, b, |groups|);
    BinSize(groups, size, n, c, |groups|);
    var x, y := Share(n, b, |groups|), Share(n, c, |groups|);
    assert x <= y + 1 && (|groups| % n == 0 ==> x == y);
    hide Share, Bin;
    MultiplyOrder(x, y + 1, if size > 0 then size else 1);
    TimesNext(size, y);
  }
}
