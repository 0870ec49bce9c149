/** Half-open token intervals: coverage, order, and how many positions they hold. */
module Spans {
  /** A half-open token interval. */
  type Span = (int, int)

  predicate Covers(span: Span, p: int) {
    span.0 <= p < span.1
  }

  ghost predicate Covered(spans: seq<Span>, p: int) {
    exists j :: 0 <= j < |spans| && Covers(spans[j], p)
  }

  /** Non-empty intervals inside [0, length), in order and pairwise disjoint. */
  ghost predicate Ordered(spans: seq<Span>, length: nat) {
    && (forall j :: 0 <= j < |spans| ==> 0 <= spans[j].0 < spans[j].1 <= length)
    && (forall i, j :: 0 <= i < j < |spans| ==> spans[i].1 <= spans[j].0)
  }

  lemma CoveredSnoc(spans: seq<Span>, j: nat, p: int)
    requires j < |spans|
    ensures Covered(spans[..j + 1], p) <==> Covered(spans[..j], p) || Covers(spans[j], p)
  {
    if Covered(spans[..j + 1], p) {
      var q :| 0 <= q < j + 1 && Covers(spans[..j + 1][q], p);
      assert q < j ==> spans[..j][q] == spans[q];
    }
    if Covered(spans[..j], p) {
      var q :| 0 <= q < j && Covers(spans[..j][q], p);
      assert spans[..j + 1][q] == spans[q];
    }
    if Covers(spans[j], p) {
      assert spans[..j + 1][j] == spans[j];
    }
  }

  lemma BeyondIsUncovered(spans: seq<Span>, end: int, p: int)
    requires forall q :: 0 <= q < |spans| ==> spans[q].1 <= end
    ensures end <= p ==> !Covered(spans, p)
  {
  }

  lemma OrderedPrefix(spans: seq<Span>, n: nat, length: nat)
    requires Ordered(spans, length) && n <= |spans|
    ensures Ordered(spans[..n], length)
  {
  }

  function TotalLength(spans: seq<Span>): int {
    if spans == [] then 0 else TotalLength(spans[..|spans| - 1]) + spans[|spans| - 1].1 - spans[|spans| - 1].0
  }

  /** The number of covered positions below `n`. */
  ghost function CountCovered(spans: seq<Span>, n: nat): nat {
    if n == 0 then 0 else CountCovered(spans, n - 1) + if Covered(spans, n - 1) then 1 else 0
  }

  lemma {:induction false} CountBeyond(spans: seq<Span>, lo: nat, hi: nat)
    requires lo <= hi && forall p :: lo <= p < hi ==> !Covered(spans, p)
    ensures CountCovered(spans, hi) == CountCovered(spans, lo)
  {
    if lo < hi {
      CountBeyond(spans, lo, hi - 1);
    }
  }

  lemma {:induction false} CountSnoc(spans: seq<Span>, last: Span, n: nat)
    requires 0 <= last.0 < last.1 && forall p :: Covers(last, p) ==> !Covered(spans, p)
    ensures CountCovered(spans + [last], n)
         == CountCovered(spans, n) + if n <= last.0 then 0 else if n <= last.1 then n - last.0 else last.1 - last.0
  {
    if n > 0 {
      CountSnoc(spans, last, n - 1);
      var more := spans + [last];
      assert more[..|spans|] == spans && more[..|spans| + 1] == more;
      CoveredSnoc(more, |spans|, n - 1);
    }
  }

  /** Disjoint spans cover as many tokens as their lengths add up to. */
  lemma {:induction false} CoveredCount(spans: seq<Span>, length: nat)
    requires Ordered(spans, length)
    ensures CountCovered(spans, length) == TotalLength(spans)
  {
    if spans == [] {
      CountBeyond(spans, 0, length);
    } else {
      var n := |spans| - 1;
      var last := spans[n];
      OrderedPrefix(spans, n, length);
      CoveredCount(spans[..n], length);
      BeyondIsUncovered(spans[..n], last.0, last.0);
      assert forall p :: Covers(last, p) ==> !Covered(spans[..n], p) by {
        forall p | Covers(last, p) ensures !Covered(spans[..n], p) {
          BeyondIsUncovered(spans[..n], last.0, p);
        }
      }
      CountSnoc(spans[..n], last, length);
      assert spans == spans[..n] + [last];
    }
  }
}
