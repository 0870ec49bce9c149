/** Publishing an attribution record against the retained (possibly clipped) response. */
module CallRetention {
  import opened Common
  import opened Spans
  import opened CallAttribution

  /** What is left of a span, and how many of its tokens are gone. */
  datatype Clip = Clip(span: Span, discarded: int)

  datatype Retained = Retained(record: Record, turn: Clip, blocks: seq<Clip>, others: seq<Span>,
                               retainedOthers: seq<Span>, callEligible: seq<bool>, eligible: bool)

  function Min(x: int, y: int): int {
    if x < y then x else y
  }

  function Clipped(s: Span, limit: nat): Span {
    (Min(s.0, limit), Min(s.1, limit))
  }

  function Length(s: Span): int {
    s.1 - s.0
  }

  function ClipOf(s: Span, limit: nat): Clip {
    Clip(Clipped(s, limit), Length(s) - Length(Clipped(s, limit)))
  }

  function SpansOf(blocks: seq<Block>): seq<Span> {
    seq(|blocks|, i requires 0 <= i < |blocks| => blocks[i].span)
  }

  /** Where block `n` may begin: the end of the block before it, or the start of the turn. */
  function Cursor(blocks: seq<Block>, start: int, n: nat): int
    requires n <= |blocks|
  {
    if n == 0 then start else blocks[n - 1].span.1
  }

  /** The generated tokens outside the first `n` blocks, up to where block `n` may begin. */
  function Gaps(blocks: seq<Block>, start: int, n: nat): seq<Span>
    requires n <= |blocks|
  {
    if n == 0 then []
    else
      var (a, b) := (Cursor(blocks, start, n - 1), blocks[n - 1].span.0);
      Gaps(blocks, start, n - 1) + if a < b then [(a, b)] else []
  }

  function OtherSpans(r: Record): seq<Span> {
    var last := Cursor(r.blocks, r.span.0, |r.blocks|);
    Gaps(r.blocks, r.span.0, |r.blocks|) + if last < r.span.1 then [(last, r.span.1)] else []
  }

  function KeptSpans(spans: seq<Span>, limit: nat): seq<Span> {
    if spans == [] then []
    else
      var c := Clipped(spans[|spans| - 1], limit);
      KeptSpans(spans[..|spans| - 1], limit) + if c.0 < c.1 then [c] else []
  }

  predicate CallEligible(r: Record, limit: nat, c: Call)
    requires c.block.Some? ==> c.block.value < |r.blocks|
  {
    && c.alignment == AlignmentExact && c.block.Some?
    && ClipOf(r.blocks[c.block.value].span, limit).discarded == 0
    && c.execution == Executed && c.id.Some?
  }

  predicate TurnEligible(r: Record, limit: nat)
    requires KnownBlocks(r)
  {
    && r.calls != [] && |r.blocks| == |r.calls|
    && forall i :: 0 <= i < |r.calls| ==> CallEligible(r, limit, r.calls[i])
  }

  /** The response is a token sequence with a binary mask, and the record's turn is in it, generated. */
  ghost predicate Agrees(r: Record, ids: seq<int>, mask: seq<int>) {
    && |ids| == |mask| && (forall p :: 0 <= p < |mask| ==> mask[p] == 0 || mask[p] == 1)
    && 0 <= r.span.0 && Length(r.span) == |r.ids|
    && var (a, b) := Clipped(r.span, |ids|);
       ids[a..b] == r.ids[..b - a] && forall p :: a <= p < b ==> mask[p] == 1
  }

  lemma FitNone(blocks: seq<Block>, lo: int, hi: int)
    ensures BlocksFit(blocks[..0], lo, hi)
  {
  }

  lemma FitSnoc(blocks: seq<Block>, n: nat, lo: int, hi: int)
    requires n < |blocks|
    ensures BlocksFit(blocks[..n + 1], lo, hi) <==>
      && BlocksFit(blocks[..n], lo, hi)
      && blocks[n].index == n && Cursor(blocks, lo, n) <= blocks[n].span.0 < blocks[n].span.1 <= hi
    ensures BlocksFit(blocks, lo, hi) ==> BlocksFit(blocks[..n + 1], lo, hi)
  {
    var less, more := blocks[..n], blocks[..n + 1];
    assert forall i :: 0 <= i < n ==> less[i] == more[i];
    if BlocksFit(less, lo, hi) && blocks[n].index == n && Cursor(blocks, lo, n) <= blocks[n].span.0 < blocks[n].span.1 <= hi {
      forall i | 0 <= i < n ensures more[i].span.1 <= more[n].span.0 {
        assert less[i].span.1 <= less[n - 1].span.1 || i == n - 1;
      }
    }
    if BlocksFit(more, lo, hi) {
      assert more[n] == blocks[n] && (n > 0 ==> more[n - 1].span.1 <= more[n].span.0);
    }
  }

  lemma InsideBound(blocks: seq<Block>, lo: int, hi: int, n: nat, p: int)
    requires BlocksFit(blocks, lo, hi) && n <= |blocks| && Inside(blocks, n, p)
    ensures lo <= p < Cursor(blocks, lo, n)
  {
    var i :| 0 <= i < n && Covers(blocks[i].span, p);
    assert i < n - 1 ==> blocks[i].span.1 <= blocks[n - 1].span.0 < blocks[n - 1].span.1;
  }

  method CheckBlocks(r: Record, limit: nat) returns (ok: bool, clips: seq<Clip>, others: seq<Span>)
    ensures ok <==> BlocksFit(r.blocks, r.span.0, r.span.1)
    ensures ok ==> others == OtherSpans(r)
    ensures ok ==> |clips| == |r.blocks| && forall i :: 0 <= i < |clips| ==> clips[i] == ClipOf(r.blocks[i].span, limit)
  {
    hide BlocksFit, Min;
    FitNone(r.blocks, r.span.0, r.span.1);
    var cursor := r.span.0;
    clips, others := [], [];
    for index := 0 to |r.blocks|
      invariant cursor == Cursor(r.blocks, r.span.0, index)
      invariant BlocksFit(r.blocks[..index], r.span.0, r.span.1)
      invariant others == Gaps(r.blocks, r.span.0, index)
      invariant |clips| == index && forall i :: 0 <= i < index ==> clips[i] == ClipOf(r.blocks[i].span, limit)
    {
      FitSnoc(r.blocks, index, r.span.0, r.span.1);
      var block := r.blocks[index];
      var (x, y) := block.span;
      if block.index != index || !(cursor <= x < y <= r.span.1) {
        ok := false;
        return;
      }
      if cursor < x {
        others := others + [(cursor, x)];
      }
      clips := clips + [Clip((Min(x, limit), Min(y, limit)), y - x - (Min(y, limit) - Min(x, limit)))];
      cursor := y;
    }
    assert r.blocks[..|r.blocks|] == r.blocks;
    if cursor < r.span.1 {
      others := others + [(cursor, r.span.1)];
    }
    ok := true;
  }

  method KeepSpans(spans: seq<Span>, limit: nat) returns (kept: seq<Span>)
    ensures kept == KeptSpans(spans, limit)
  {
    kept := [];
    for i := 0 to |spans|
      invariant kept == KeptSpans(spans[..i], limit)
    {
      TakeSnoc(spans, i);
      assert (spans[..i] + [spans[i]])[..i] == spans[..i];
      var (x, y) := spans[i];
      if Min(x, limit) < Min(y, limit) {
        kept := kept + [(Min(x, limit), Min(y, limit))];
      }
    }
    assert spans[..|spans|] == spans;
  }

  method JudgeCalls(r: Record, limit: nat, clips: seq<Clip>) returns (ok: bool, flags: seq<bool>, all: bool)
    requires |clips| == |r.blocks| && forall i :: 0 <= i < |clips| ==> clips[i] == ClipOf(r.blocks[i].span, limit)
    ensures ok <==> KnownBlocks(r)
    ensures ok ==> |flags| == |r.calls| && forall i :: 0 <= i < |flags| ==> flags[i] == CallEligible(r, limit, r.calls[i])
    ensures ok ==> (all <==> forall i :: 0 <= i < |r.calls| ==> CallEligible(r, limit, r.calls[i]))
  {
    flags, all := [], true;
    for i := 0 to |r.calls|
      invariant forall q :: 0 <= q < i && r.calls[q].block.Some? ==> r.calls[q].block.value < |r.blocks|
      invariant |flags| == i && forall q :: 0 <= q < i ==> flags[q] == CallEligible(r, limit, r.calls[q])
      invariant all <==> forall q :: 0 <= q < i ==> CallEligible(r, limit, r.calls[q])
    {
      var call := r.calls[i];
      if call.block.Some? && call.block.value >= |r.blocks| {
        ok := false;
        return;
      }
      var flag := call.alignment == AlignmentExact && call.block.Some? && clips[call.block.value].discarded == 0
        && call.execution == Executed && call.id.Some?;
      flags := flags + [flag];
      all := all && flag;
    }
    ok := true;
  }

  method CheckTokens(r: Record, ids: seq<int>, mask: seq<int>) returns (ok: bool)
    ensures ok <==> Agrees(r, ids, mask)
  {
    if |ids| != |mask| || exists p :: 0 <= p < |mask| && mask[p] != 0 && mask[p] != 1 {
      return false;
    }
    if r.span.0 < 0 || r.span.1 - r.span.0 != |r.ids| {
      return false;
    }
    var a, b := Min(r.span.0, |ids|), Min(r.span.1, |ids|);
    if ids[a..b] != r.ids[..b - a] {
      return false;
    }
    ok := !exists p :: a <= p < b && mask[p] == 0;
  }

  method Retain(r: Record, ids: seq<int>, mask: seq<int>) returns (out: Result<Retained>)
    ensures out.Ok? <==> Agrees(r, ids, mask) && BlocksFit(r.blocks, r.span.0, r.span.1) && KnownBlocks(r)
    ensures out.Ok? ==>
      && |out.value.blocks| == |r.blocks|
      && (forall i :: 0 <= i < |r.blocks| ==> out.value.blocks[i] == ClipOf(r.blocks[i].span, |ids|))
      && |out.value.callEligible| == |r.calls|
      && (forall i :: 0 <= i < |r.calls| ==> out.value.callEligible[i] == CallEligible(r, |ids|, r.calls[i]))
      && out.value.record == r && out.value.turn == ClipOf(r.span, |ids|)
      && out.value.others == OtherSpans(r) && out.value.retainedOthers == KeptSpans(OtherSpans(r), |ids|)
      && out.value.eligible == TurnEligible(r, |ids|)
  {
    var agrees := CheckTokens(r, ids, mask);
    if !agrees {
      return Rejected;
    }
    var fits, clips, others := CheckBlocks(r, |ids|);
    if !fits {
      return Rejected;
    }
    var kept := KeepSpans(others, |ids|);
    var known, flags, all := JudgeCalls(r, |ids|, clips);
    if !known {
      return Rejected;
    }
    out := Ok(Retained(r, ClipOf(r.span, |ids|), clips, others, kept, flags,
                       r.calls != [] && |r.blocks| == |r.calls| && all));
  }

  // ---- what the published record promises ----

  /** A record the runtime built is refused only when the retained tokens or mask differ from what it saw. */
  method RetainBuilt(r: Record, ids: seq<int>, mask: seq<int>) returns (out: Result<Retained>)
    requires Built(r)
    ensures out.Ok? <==> Agrees(r, ids, mask)
  {
    out := Retain(r, ids, mask);
  }

  /** Separated: in order, non-empty, and never touching. */
  ghost predicate Separated(spans: seq<Span>, lo: int, hi: int) {
    && (forall i :: 0 <= i < |spans| ==> lo <= spans[i].0 < spans[i].1 <= hi)
    && (forall i, j :: 0 <= i < j < |spans| ==> spans[i].1 < spans[j].0)
  }

  ghost predicate Inside(blocks: seq<Block>, n: nat, p: int)
    requires n <= |blocks|
  {
    exists i :: 0 <= i < n && Covers(blocks[i].span, p)
  }

  lemma {:induction false} GapsSeparated(blocks: seq<Block>, lo: int, hi: int, n: nat)
    requires BlocksFit(blocks, lo, hi) && n <= |blocks|
    ensures Separated(Gaps(blocks, lo, n), lo, if n == 0 then lo else blocks[n - 1].span.0)
  {
    if n > 0 {
      GapsSeparated(blocks, lo, hi, n - 1);
    }
  }

  lemma {:induction false} GapsCover(blocks: seq<Block>, lo: int, hi: int, n: nat, p: int)
    requires BlocksFit(blocks, lo, hi) && n <= |blocks|
    ensures Covered(Gaps(blocks, lo, n), p) <==> lo <= p < Cursor(blocks, lo, n) && !Inside(blocks, n, p)
  {
    if n > 0 {
      var a, b := Cursor(blocks, lo, n - 1), blocks[n - 1].span.0;
      assert a <= b < Cursor(blocks, lo, n);
      GapsCover(blocks, lo, hi, n - 1, p);
      InsideSnoc(blocks, n - 1, p);
      if Inside(blocks, n - 1, p) {
        InsideBound(blocks, lo, hi, n - 1, p);
      }
      hide BlocksFit, Inside;
      AppendCovers(Gaps(blocks, lo, n - 1), (a, b), p);
    }
  }

  lemma AppendCovers(spans: seq<Span>, s: Span, p: int)
    ensures Covered(spans + if s.0 < s.1 then [s] else [], p) <==> Covered(spans, p) || Covers(s, p)
  {
    if s.0 < s.1 {
      assert (spans + [s])[..|spans|] == spans && (spans + [s])[..|spans| + 1] == spans + [s];
      CoveredSnoc(spans + [s], |spans|, p);
    } else {
      assert spans + [] == spans;
    }
  }

  lemma InsideSnoc(blocks: seq<Block>, n: nat, p: int)
    requires n < |blocks|
    ensures Inside(blocks, n + 1, p) <==> Inside(blocks, n, p) || Covers(blocks[n].span, p)
  {
  }

  lemma OthersCover(r: Record, p: int)
    requires BlocksFit(r.blocks, r.span.0, r.span.1) && r.span.0 <= r.span.1
    ensures Covered(OtherSpans(r), p) <==> Covers(r.span, p) && !Inside(r.blocks, |r.blocks|, p)
  {
    var n := |r.blocks|;
    var last := Cursor(r.blocks, r.span.0, n);
    assert last <= r.span.1;
    hide BlocksFit, Inside, Covered, Gaps, Cursor;
    GapsCover(r.blocks, r.span.0, r.span.1, n, p);
    AppendCovers(Gaps(r.blocks, r.span.0, n), (last, r.span.1), p);
    if Inside(r.blocks, n, p) {
      InsideBound(r.blocks, r.span.0, r.span.1, n, p);
    }
  }

  lemma OthersSeparated(r: Record)
    requires BlocksFit(r.blocks, r.span.0, r.span.1) && r.span.0 <= r.span.1
    ensures Separated(OtherSpans(r), r.span.0, r.span.1)
  {
    GapsSeparated(r.blocks, r.span.0, r.span.1, |r.blocks|);
    hide Gaps;
  }

  /** The blocks and the other spans split the emitted turn: every token is in exactly one of the two. */
  lemma OthersPartition(r: Record)
    requires BlocksFit(r.blocks, r.span.0, r.span.1) && r.span.0 <= r.span.1
    ensures Separated(OtherSpans(r), r.span.0, r.span.1)
    ensures forall p :: Covered(OtherSpans(r), p) <==> Covers(r.span, p) && !Inside(r.blocks, |r.blocks|, p)
  {
    hide *;
    OthersSeparated(r);
    forall p ensures Covered(OtherSpans(r), p) <==> Covers(r.span, p) && !Inside(r.blocks, |r.blocks|, p) {
      OthersCover(r, p);
    }
  }

  /** What is kept of some spans is their tokens below the limit. */
  lemma {:induction false} KeptCovers(spans: seq<Span>, limit: nat, p: int)
    ensures Covered(KeptSpans(spans, limit), p) <==> Covered(spans, p) && p < limit
  {
    if spans != [] {
      var n := |spans| - 1;
      KeptCovers(spans[..n], limit, p);
      AppendCovers(KeptSpans(spans[..n], limit), Clipped(spans[n], limit), p);
      assert spans == spans[..n] + [spans[n]];
      AppendCovers(spans[..n], spans[n], p);
      hide Covered;
      assert Covers(Clipped(spans[n], limit), p) <==> Covers(spans[n], p) && p < limit;
      if spans[n].0 >= spans[n].1 {
        EmptyCovers(spans[..n], spans[n], p);
      }
    }
  }

  lemma EmptyCovers(spans: seq<Span>, s: Span, p: int)
    requires s.0 >= s.1
    ensures Covered(spans + [s], p) <==> Covered(spans, p)
  {
    assert (spans + [s])[..|spans|] == spans && (spans + [s])[..|spans| + 1] == spans + [s];
    CoveredSnoc(spans + [s], |spans|, p);
  }

  /** Separated, and over before `last`. */
  ghost predicate SeparatedBelow(spans: seq<Span>, lo: int, hi: int, last: int) {
    Separated(spans, lo, hi) && forall j :: 0 <= j < |spans| ==> spans[j].1 <= last
  }

  lemma SeparatedSnoc(spans: seq<Span>, s: Span, lo: int, hi: int, last: int)
    requires SeparatedBelow(spans, lo, hi, last) && last < s.0 && lo <= s.0 && s.1 <= hi
    ensures SeparatedBelow(spans + if s.0 < s.1 then [s] else [], lo, hi, if s.0 < s.1 then s.1 else last)
  {
  }

  lemma {:induction false} KeptSeparated(spans: seq<Span>, lo: int, hi: int, limit: nat)
    requires Separated(spans, lo, hi)
    ensures SeparatedBelow(KeptSpans(spans, limit), lo, Min(hi, limit), if spans == [] then lo else spans[|spans| - 1].1)
  {
    if spans != [] {
      var n := |spans| - 1;
      KeptSeparated(spans[..n], lo, hi, limit);
      var c := Clipped(spans[n], limit);
      if c.0 < c.1 {
        SeparatedSnoc(KeptSpans(spans[..n], limit), c, lo, Min(hi, limit), if n == 0 then c.0 - 1 else spans[n - 1].1);
      }
      hide Separated;
    }
  }

  /** The retained other spans are separated and hold exactly the retained tokens of the turn that are in no block. */
  lemma RetainedOthers(r: Record, limit: nat)
    requires BlocksFit(r.blocks, r.span.0, r.span.1) && r.span.0 <= r.span.1
    ensures Separated(KeptSpans(OtherSpans(r), limit), r.span.0, Min(r.span.1, limit))
    ensures forall p :: Covered(KeptSpans(OtherSpans(r), limit), p) <==>
      Covers(r.span, p) && p < limit && !Inside(r.blocks, |r.blocks|, p)
  {
    OthersPartition(r);
    KeptSeparated(OtherSpans(r), r.span.0, r.span.1, limit);
    forall p ensures Covered(KeptSpans(OtherSpans(r), limit), p) <==> Covered(OtherSpans(r), p) && p < limit {
      KeptCovers(OtherSpans(r), limit, p);
    }
    hide Covered, KeptSpans, OtherSpans, Inside;
  }

  function ClippedLengths(spans: seq<Span>, limit: nat): int {
    if spans == [] then 0
    else ClippedLengths(spans[..|spans| - 1], limit) + Length(Clipped(spans[|spans| - 1], limit))
  }

  lemma ClippedSnoc(spans: seq<Span>, s: Span, limit: nat)
    ensures ClippedLengths(spans + [s], limit) == ClippedLengths(spans, limit) + Length(Clipped(s, limit))
  {
    assert (spans + [s])[..|spans|] == spans;
  }

  lemma BlockStep(blocks: seq<Block>, n: nat, limit: nat)
    requires n < |blocks|
    ensures ClippedLengths(SpansOf(blocks[..n + 1]), limit)
         == ClippedLengths(SpansOf(blocks[..n]), limit) + Length(Clipped(blocks[n].span, limit))
  {
    assert SpansOf(blocks[..n + 1]) == SpansOf(blocks[..n]) + [blocks[n].span];
    ClippedSnoc(SpansOf(blocks[..n]), blocks[n].span, limit);
  }

  lemma GapStep(blocks: seq<Block>, lo: int, n: nat, limit: nat)
    requires n < |blocks| && Cursor(blocks, lo, n) <= blocks[n].span.0
    ensures ClippedLengths(Gaps(blocks, lo, n + 1), limit)
         == ClippedLengths(Gaps(blocks, lo, n), limit) + Length(Clipped((Cursor(blocks, lo, n), blocks[n].span.0), limit))
  {
    hide Cursor;
    assert Gaps(blocks, lo, n) + [] == Gaps(blocks, lo, n);
    ClippedSnoc(Gaps(blocks, lo, n), (Cursor(blocks, lo, n), blocks[n].span.0), limit);
  }

  /** The first `n` blocks and the gaps before them fill the turn up to the cursor. */
  ghost predicate Telescoped(blocks: seq<Block>, lo: int, n: nat, limit: nat)
    requires n <= |blocks|
  {
    ClippedLengths(SpansOf(blocks[..n]), limit) + ClippedLengths(Gaps(blocks, lo, n), limit)
      == Min(Cursor(blocks, lo, n), limit) - Min(lo, limit)
  }

  lemma TelescopeStep(blocks: seq<Block>, lo: int, n: nat, limit: nat)
    requires n < |blocks| && Telescoped(blocks, lo, n, limit) && Cursor(blocks, lo, n) <= blocks[n].span.0
    ensures Telescoped(blocks, lo, n + 1, limit)
  {
    hide Min, ClippedLengths, Gaps, SpansOf;
    BlockStep(blocks, n, limit);
    GapStep(blocks, lo, n, limit);
  }

  lemma {:induction false} GapsTelescope(blocks: seq<Block>, lo: int, hi: int, n: nat, limit: nat)
    requires BlocksFit(blocks, lo, hi) && n <= |blocks|
    ensures Telescoped(blocks, lo, n, limit)
  {
    if n > 0 {
      hide Telescoped;
      GapsTelescope(blocks, lo, hi, n - 1, limit);
      TelescopeStep(blocks, lo, n - 1, limit);
    }
  }

  lemma {:induction false} KeptLength(spans: seq<Span>, limit: nat)
    requires forall i :: 0 <= i < |spans| ==> spans[i].0 <= spans[i].1
    ensures TotalLength(KeptSpans(spans, limit)) == ClippedLengths(spans, limit)
  {
    if spans != [] {
      var init, c := spans[..|spans| - 1], Clipped(spans[|spans| - 1], limit);
      KeptLength(init, limit);
      assert KeptSpans(init, limit) + [] == KeptSpans(init, limit);
      assert (KeptSpans(init, limit) + [c])[..|KeptSpans(init, limit)|] == KeptSpans(init, limit);
    }
  }

  /** At every limit, retained block tokens and retained other tokens add up to the retained turn. */
  lemma RetainedTokensConserved(r: Record, limit: nat)
    requires BlocksFit(r.blocks, r.span.0, r.span.1) && r.span.0 <= r.span.1
    ensures ClippedLengths(SpansOf(r.blocks), limit) + TotalLength(KeptSpans(OtherSpans(r), limit))
         == Length(Clipped(r.span, limit))
  {
    var n := |r.blocks|;
    GapsTelescope(r.blocks, r.span.0, r.span.1, n, limit);
    assert r.blocks[..n] == r.blocks;
    OthersPartition(r);
    KeptLength(OtherSpans(r), limit);
    assert Gaps(r.blocks, r.span.0, n) + [] == Gaps(r.blocks, r.span.0, n);
    ClippedSnoc(Gaps(r.blocks, r.span.0, n), (Cursor(r.blocks, r.span.0, n), r.span.1), limit);
  }

  /** Retained and discarded tokens make up the span, and the retained ones are those before the limit. */
  lemma ClipSplits(s: Span, limit: nat)
    requires 0 <= s.0 <= s.1
    ensures Length(ClipOf(s, limit).span) + ClipOf(s, limit).discarded == Length(s) && ClipOf(s, limit).discarded >= 0
    ensures forall p :: Covers(ClipOf(s, limit).span, p) <==> Covers(s, p) && p < limit
    ensures ClipOf(s, limit).discarded == 0 <==> s.1 <= limit || s.0 == s.1
  {
  }

  /** An eligible turn: exactly scanned and parsed, every block closed and whole, and each the block of exactly one call. */
  ghost predicate FullyAttributed(r: Record, limit: nat) {
    && r.scan == Exact && r.parse == "parsed" && |r.calls| == |r.blocks|
    && (forall b :: 0 <= b < |r.blocks| ==> r.blocks[b].closure == Closed && r.blocks[b].span.1 <= limit)
    && (forall i :: 0 <= i < |r.calls| ==> r.calls[i].execution == Executed && r.calls[i].id.Some? && r.calls[i].block.Some?)
    && (forall i, j :: 0 <= i < j < |r.calls| ==> r.calls[i].block != r.calls[j].block)
    && (forall b: nat :: b < |r.blocks| ==> exists i :: 0 <= i < |r.calls| && r.calls[i].block == Some(b))
  }

  function BlockNumbers(r: Record): seq<nat>
    requires forall i :: 0 <= i < |r.calls| ==> r.calls[i].block.Some?
  {
    seq(|r.calls|, i requires 0 <= i < |r.calls| => r.calls[i].block.value)
  }

  lemma EligibleTurns(r: Record, limit: nat)
    requires Built(r)
    ensures TurnEligible(r, limit) <==>
      && r.calls != [] && FullyAttributed(r, limit)
      && forall i :: 0 <= i < |r.calls| ==> r.calls[i].alignment == AlignmentExact
  {
    if TurnEligible(r, limit) {
      assert forall i :: 0 <= i < |r.calls| ==> CallEligible(r, limit, r.calls[i]);
      assert r.calls[0].alignment == AlignmentExact;
      var numbers := BlockNumbers(r);
      assert Distinct(numbers) by {
        forall i, j | 0 <= i < j < |numbers| ensures numbers[i] != numbers[j] {
          assert r.calls[i].block != r.calls[j].block;
        }
      }
      Pigeonhole(numbers, |r.blocks|);
      forall b: nat | b < |r.blocks|
        ensures exists i :: 0 <= i < |r.calls| && r.calls[i].block == Some(b)
        ensures r.blocks[b].closure == Closed && r.blocks[b].span.1 <= limit
      {
        assert b in numbers;
        var i :| 0 <= i < |numbers| && numbers[i] == b;
        assert r.calls[i].block == Some(b);
        ClipSplits(r.blocks[b].span, limit);
      }
    } else if r.calls != [] && FullyAttributed(r, limit) && forall i :: 0 <= i < |r.calls| ==> r.calls[i].alignment == AlignmentExact {
      forall i | 0 <= i < |r.calls| ensures CallEligible(r, limit, r.calls[i]) {
        ClipSplits(r.blocks[r.calls[i].block.value].span, limit);
      }
    }
  }
}
