/** Ownership of generated tokens by tool calls: marker scanner, parser sources, execution receipts, clipping. */
module CallAttribution {
  import opened Common
  import opened Spans

  // ---- the marker scanner ----

  datatype Closure = Closed | Incomplete
  datatype Block = Block(index: nat, span: Span, closure: Closure)
  datatype ScanStatus = Unavailable | Exact | Ambiguous

  /** Nesting depth before token `n`; an end marker at depth zero is ignored. */
  function Depth(ids: seq<int>, start: int, end: int, n: nat): nat
    requires n <= |ids|
  {
    if n == 0 then 0
    else
      var d := Depth(ids, start, end, n - 1);
      if ids[n - 1] == start then d + 1 else if ids[n - 1] == end && d > 0 then d - 1 else d
  }

  ghost predicate Deep(ids: seq<int>, start: int, end: int, b: nat) {
    b <= |ids| && Depth(ids, start, end, b) > 0
  }

  /** A maximal stretch whose inner boundaries all have positive depth. */
  ghost predicate IsRun(ids: seq<int>, start: int, end: int, x: nat, y: nat) {
    && x < y <= |ids|
    && !Deep(ids, start, end, x) && Deep(ids, start, end, x + 1)
    && (forall b :: x < b < y ==> Deep(ids, start, end, b))
    && (y < |ids| ==> !Deep(ids, start, end, y))
  }

  ghost predicate Listed(blocks: seq<Block>, offset: int, x: int, y: int) {
    exists i :: 0 <= i < |blocks| && blocks[i].span == (offset + x, offset + y)
  }

  /** Numbered, non-empty, ordered and disjoint blocks inside [lo, hi). */
  ghost predicate BlocksFit(blocks: seq<Block>, lo: int, hi: int) {
    && (forall i :: 0 <= i < |blocks| ==> blocks[i].index == i && lo <= blocks[i].span.0 < blocks[i].span.1 <= hi)
    && (forall i, j :: 0 <= i < j < |blocks| ==> blocks[i].span.1 <= blocks[j].span.0)
  }

  /** The blocks are exactly the runs; a block is closed if the depth is back at zero, and only the last may not be. */
  ghost predicate IsScan(ids: seq<int>, offset: int, start: int, end: int, blocks: seq<Block>) {
    && BlocksFit(blocks, offset, offset + |ids|)
    && (forall x: nat, y: nat :: IsRun(ids, start, end, x, y) <==> Listed(blocks, offset, x, y))
    && (forall i :: 0 <= i < |blocks| ==>
        (blocks[i].closure == Closed <==> !Deep(ids, start, end, blocks[i].span.1 - offset)))
    && (forall i :: 0 <= i < |blocks| - 1 ==> blocks[i].closure == Closed)
  }

  /** Token `n` is a marker that does not fit: a start inside a block, or an end outside. */
  ghost predicate Misplaced(ids: seq<int>, start: int, end: int, n: nat)
    requires n < |ids|
  {
    var d := Depth(ids, start, end, n);
    (ids[n] == start && d > 0) || (ids[n] != start && ids[n] == end && d == 0)
  }

  ghost predicate ClosedRun(ids: seq<int>, start: int, end: int, x: nat, y: nat) {
    IsRun(ids, start, end, x, y) && !Deep(ids, start, end, y)
  }

  /** `opening` is where the current positive-depth stretch began. */
  ghost predicate OpenSince(ids: seq<int>, start: int, end: int, opening: nat, n: nat) {
    && opening < n <= |ids| && !Deep(ids, start, end, opening)
    && forall b :: opening < b <= n ==> Deep(ids, start, end, b)
  }

  ghost predicate MisplacedBefore(ids: seq<int>, start: int, end: int, n: nat)
    requires n <= |ids|
  {
    exists m :: 0 <= m < n && Misplaced(ids, start, end, m)
  }

  lemma MisplacedStep(ids: seq<int>, start: int, end: int, n: nat)
    requires n < |ids|
    ensures MisplacedBefore(ids, start, end, n + 1) <==> MisplacedBefore(ids, start, end, n) || Misplaced(ids, start, end, n)
  {
  }

  /** The listed blocks are the closed runs that end at or before `n`. */
  ghost predicate ClosedListed(ids: seq<int>, offset: int, start: int, end: int, blocks: seq<Block>, n: nat) {
    forall x: nat, y: nat :: ClosedRun(ids, start, end, x, y) && y <= n <==> Listed(blocks, offset, x, y)
  }

  lemma ListedSnoc(blocks: seq<Block>, offset: int, b: Block)
    ensures forall x: int, y: int :: Listed(blocks + [b], offset, x, y) <==> Listed(blocks, offset, x, y) || b.span == (offset + x, offset + y)
  {
    forall x: int, y: int ensures Listed(blocks + [b], offset, x, y) <==> Listed(blocks, offset, x, y) || b.span == (offset + x, offset + y) {
      if Listed(blocks, offset, x, y) {
        var i :| 0 <= i < |blocks| && blocks[i].span == (offset + x, offset + y);
        assert (blocks + [b])[i].span == (offset + x, offset + y);
      }
      if b.span == (offset + x, offset + y) {
        assert (blocks + [b])[|blocks|].span == (offset + x, offset + y);
      }
    }
  }

  /** No run closes after token `n` unless the depth drops to zero there. */
  lemma NoClose(ids: seq<int>, offset: int, start: int, end: int, blocks: seq<Block>, n: nat)
    requires n < |ids| && ClosedListed(ids, offset, start, end, blocks, n)
    requires Deep(ids, start, end, n) ==> Deep(ids, start, end, n + 1)
    ensures ClosedListed(ids, offset, start, end, blocks, n + 1)
  {
    forall x: nat, y: nat | y == n + 1 ensures !ClosedRun(ids, start, end, x, y) {
      assert IsRun(ids, start, end, x, y) && x < n ==> Deep(ids, start, end, n);
    }
  }

  /** The run that closes after token `n` is the one open since `opening`. */
  lemma Close(ids: seq<int>, offset: int, start: int, end: int, blocks: seq<Block>, opening: nat, n: nat, b: Block)
    requires n < |ids| && ClosedListed(ids, offset, start, end, blocks, n)
    requires OpenSince(ids, start, end, opening, n) && !Deep(ids, start, end, n + 1)
    requires b.span == (offset + opening, offset + n + 1)
    ensures ClosedListed(ids, offset, start, end, blocks + [b], n + 1)
  {
    ListedSnoc(blocks, offset, b);
    forall x: nat, y: nat | y == n + 1 ensures ClosedRun(ids, start, end, x, y) <==> x == opening {
      UniqueOpening(ids, start, end, opening, n, x);
      if x == opening {
        assert Deep(ids, start, end, opening + 1);
      }
    }
  }

  lemma UniqueOpening(ids: seq<int>, start: int, end: int, opening: nat, n: nat, x: nat)
    requires OpenSince(ids, start, end, opening, n)
    ensures x <= n && !Deep(ids, start, end, x) && (forall b :: x < b <= n ==> Deep(ids, start, end, b)) ==> x == opening
  {
  }

  method ScanBlocks(ids: seq<int>, offset: nat, start: int, end: int) returns (blocks: seq<Block>, status: ScanStatus)
    requires start != end
    ensures IsScan(ids, offset, start, end, blocks)
    ensures status == if MisplacedBefore(ids, start, end, |ids|) then Ambiguous else Exact
  {
    blocks := [];
    var depth, opening, ambiguous := 0, 0, false;
    for index := 0 to |ids|
      invariant depth == Depth(ids, start, end, index)
      invariant ambiguous <==> MisplacedBefore(ids, start, end, index)
      invariant depth > 0 ==> OpenSince(ids, start, end, opening, index)
      invariant BlocksFit(blocks, offset, offset + if depth > 0 then opening else index)
      invariant forall i :: 0 <= i < |blocks| ==> blocks[i].closure == Closed
      invariant ClosedListed(ids, offset, start, end, blocks, index)
    {
      var token := ids[index];
      MisplacedStep(ids, start, end, index);
      if token == start {
        NoClose(ids, offset, start, end, blocks, index);
        if depth > 0 {
          ambiguous := true;
        } else {
          opening := index;
        }
        depth := depth + 1;
      } else if token == end {
        if depth == 0 {
          NoClose(ids, offset, start, end, blocks, index);
          ambiguous := true;
        } else {
          depth := depth - 1;
          if depth == 0 {
            var block := Block(|blocks|, (offset + opening, offset + index + 1), Closed);
            Close(ids, offset, start, end, blocks, opening, index, block);
            blocks := blocks + [block];
          } else {
            NoClose(ids, offset, start, end, blocks, index);
          }
        }
      } else {
        NoClose(ids, offset, start, end, blocks, index);
      }
    }
    status := if ambiguous then Ambiguous else Exact;
    ghost var closed := blocks;
    if depth > 0 {
      var block := Block(|blocks|, (offset + opening, offset + |ids|), Incomplete);
      blocks := blocks + [block];
    }
    FinishScan(ids, offset, start, end, closed, opening, blocks);
  }

  lemma FinishScan(ids: seq<int>, offset: nat, start: int, end: int, closed: seq<Block>, opening: nat, blocks: seq<Block>)
    requires ClosedListed(ids, offset, start, end, closed, |ids|)
    requires forall i :: 0 <= i < |closed| ==> closed[i].closure == Closed
    requires if Deep(ids, start, end, |ids|)
      then OpenSince(ids, start, end, opening, |ids|) && BlocksFit(closed, offset, offset + opening)
        && blocks == closed + [Block(|closed|, (offset + opening, offset + |ids|), Incomplete)]
      else BlocksFit(closed, offset, offset + |ids|) && blocks == closed
    ensures IsScan(ids, offset, start, end, blocks)
  {
    hide Depth;
    var n := |ids|;
    forall i | 0 <= i < |closed| ensures !Deep(ids, start, end, closed[i].span.1 - offset) {
      var x, y := closed[i].span.0 - offset, closed[i].span.1 - offset;
      assert Listed(closed, offset, x, y);
      assert ClosedRun(ids, start, end, x, y);
    }
    if Deep(ids, start, end, n) {
      ListedSnoc(closed, offset, blocks[|closed|]);
      forall x: nat, y: nat ensures IsRun(ids, start, end, x, y) <==> ClosedRun(ids, start, end, x, y) || (x == opening && y == n) {
        UniqueOpening(ids, start, end, opening, n, x);
        assert Deep(ids, start, end, opening + 1);
      }
    } else {
      assert forall x: nat, y: nat :: IsRun(ids, start, end, x, y) <==> ClosedRun(ids, start, end, x, y);
    }
  }

  // ---- what an exact scan means ----

  /** The markers among the first `n` tokens; true stands for a start marker. */
  function Markers(ids: seq<int>, start: int, end: int, n: nat): seq<bool>
    requires n <= |ids|
  {
    if n == 0 then []
    else Markers(ids, start, end, n - 1) + if ids[n - 1] == start then [true] else if ids[n - 1] == end then [false] else []
  }

  ghost predicate Alternates(ms: seq<bool>) {
    forall j :: 0 <= j < |ms| ==> (ms[j] <==> j % 2 == 0)
  }

  /** A scan is exact if and only if the markers alternate, beginning with a start marker. */
  lemma {:induction false} ExactIffAlternating(ids: seq<int>, start: int, end: int, n: nat)
    requires n <= |ids| && start != end
    ensures !MisplacedBefore(ids, start, end, n) <==> Alternates(Markers(ids, start, end, n))
    ensures Alternates(Markers(ids, start, end, n)) ==> Depth(ids, start, end, n) == |Markers(ids, start, end, n)| % 2
  {
    if n > 0 {
      var before := Markers(ids, start, end, n - 1);
      ExactIffAlternating(ids, start, end, n - 1);
      MisplacedStep(ids, start, end, n - 1);
      AlternatesSnoc(before, true);
      AlternatesSnoc(before, false);
      assert before + [] == before;
      assert (|before| + 1) % 2 == 1 - |before| % 2;
    }
  }

  lemma AlternatesSnoc(ms: seq<bool>, m: bool)
    ensures Alternates(ms + [m]) <==> Alternates(ms) && (m <==> |ms| % 2 == 0)
  {
    assert (ms + [m])[|ms|] == m;
    if Alternates(ms + [m]) {
      assert forall j :: 0 <= j < |ms| ==> (ms + [m])[j] == ms[j];
    }
  }

  /** In an exact scan every closed block holds one start marker, first, and one end marker, last. */
  lemma ExactBlockShape(ids: seq<int>, offset: int, start: int, end: int, blocks: seq<Block>, i: nat)
    requires start != end && IsScan(ids, offset, start, end, blocks) && !MisplacedBefore(ids, start, end, |ids|)
    requires i < |blocks| && blocks[i].closure == Closed
    ensures var x, y := blocks[i].span.0 - offset, blocks[i].span.1 - offset;
      && 0 <= x < y - 1 && y <= |ids| && ids[x] == start && ids[y - 1] == end
      && forall b :: x < b < y - 1 ==> ids[b] != start && ids[b] != end
  {
    var x, y := blocks[i].span.0 - offset, blocks[i].span.1 - offset;
    assert Listed(blocks, offset, x, y);
    assert IsRun(ids, start, end, x, y);
    assert x + 1 < y;
    assert Deep(ids, start, end, y - 1);
    forall b | x < b < y - 1 ensures ids[b] != start && ids[b] != end {
      assert Deep(ids, start, end, b) && Deep(ids, start, end, b + 1);
      assert !Misplaced(ids, start, end, b);
      ExactDepth(ids, start, end, b);
    }
  }

  lemma ExactDepth(ids: seq<int>, start: int, end: int, n: nat)
    requires start != end && n <= |ids| && !MisplacedBefore(ids, start, end, |ids|)
    ensures Depth(ids, start, end, n) <= 1
  {
    assert !MisplacedBefore(ids, start, end, n);
    ExactIffAlternating(ids, start, end, n);
  }

  // ---- the attribution record ----

  datatype Alignment = AlignmentUnavailable | AlignmentAmbiguous | AlignmentExact | AlignmentIncomplete
  datatype Execution = NotExecuted | Started | Executed

  datatype Call = Call(index: nat, id: Option<string>, name: string, arguments: string, block: Option<nat>,
                       alignment: Alignment, execution: Execution, error: bool, dbHash: Option<string>)

  datatype Record = Record(span: Span, ids: seq<int>, scan: ScanStatus, parse: string, blocks: seq<Block>, calls: seq<Call>)

  const START := "<tool_call>"
  const END := "</tool_call>"

  datatype Tokenizer = Tokenizer(vocab: map<string, int>, decode: seq<int> -> string)

  /** The two marker tokens, if they are distinct atomic tokens that decode to themselves. */
  ghost function MarkerIds(tok: Tokenizer): Option<(int, int)> {
    if START in tok.vocab && END in tok.vocab && tok.vocab[START] != tok.vocab[END]
       && tok.decode([tok.vocab[START]]) == START && tok.decode([tok.vocab[END]]) == END
    then Some((tok.vocab[START], tok.vocab[END])) else None
  }

  /** What the parser reported: a status, the block each call came from, and the text of each block. */
  datatype Provenance = Provenance(status: string, sources: seq<nat>, texts: seq<string>)

  datatype ParsedCall = ParsedCall(name: string, arguments: string)

  ghost predicate Valid(r: Record) {
    0 <= r.span.0 && |r.ids| == r.span.1 - r.span.0 && BlocksFit(r.blocks, r.span.0, r.span.1)
  }

  /** The parser saw the very blocks the scanner found. */
  ghost predicate SourcesMatch(r: Record, prov: Provenance, calls: seq<ParsedCall>, decode: seq<int> -> string)
    requires Valid(r)
  {
    && r.scan == Exact && |r.blocks| == |prov.texts| && |prov.sources| == |calls| && prov.status == "parsed"
    && forall b :: 0 <= b < |r.blocks| ==>
      decode(r.ids[r.blocks[b].span.0 - r.span.0..r.blocks[b].span.1 - r.span.0]) == prov.texts[b]
  }

  function AlignmentOf(r: Record, sources: seq<nat>, b: nat): Alignment
    requires b < |r.blocks|
  {
    if multiset(sources)[b] != 1 then AlignmentAmbiguous
    else if r.blocks[b].closure == Closed then AlignmentExact
    else AlignmentIncomplete
  }

  function NewCall(r: Record, prov: Provenance, matched: bool, calls: seq<ParsedCall>, i: nat): Call
    requires i < |calls| && (matched ==> |prov.sources| == |calls| && prov.sources[i] < |r.blocks|)
  {
    Call(i, None, calls[i].name, calls[i].arguments,
         if matched then Some(prov.sources[i]) else None,
         if matched then AlignmentOf(r, prov.sources, prov.sources[i]) else AlignmentUnavailable,
         NotExecuted, false, None)
  }

  predicate KnownBlocks(r: Record) {
    forall i :: 0 <= i < |r.calls| && r.calls[i].block.Some? ==> r.calls[i].block.value < |r.blocks|
  }

  /** A call marked exact is the only call of one closed block of an exactly scanned, parsed turn. */
  ghost predicate Built(r: Record) {
    && Valid(r) && KnownBlocks(r)
    && forall i :: 0 <= i < |r.calls| && r.calls[i].alignment == AlignmentExact ==>
      && r.scan == Exact && r.parse == "parsed"
      && r.calls[i].block.Some? && r.blocks[r.calls[i].block.value].closure == Closed
      && forall j :: 0 <= j < |r.calls| && j != i ==> r.calls[j].block != r.calls[i].block
  }

  ghost predicate Attached(r: Record, prov: Provenance, matched: bool, parsed: seq<ParsedCall>, made: seq<Call>) {
    && (matched ==> |prov.sources| == |parsed| && forall i :: 0 <= i < |parsed| ==> prov.sources[i] < |r.blocks|)
    && |made| == |parsed|
    && forall i :: 0 <= i < |made| ==> made[i] == NewCall(r, prov, matched, parsed, i)
  }

  method MatchSources(r: Record, prov: Provenance, parsed: seq<ParsedCall>, decode: seq<int> -> string) returns (matched: bool)
    requires Valid(r)
    ensures matched <==> SourcesMatch(r, prov, parsed, decode)
  {
    matched := r.scan == Exact && |r.blocks| == |prov.texts| && |prov.sources| == |parsed| && prov.status == "parsed";
    if matched {
      for b := 0 to |r.blocks|
        invariant forall q :: 0 <= q < b ==>
          decode(r.ids[r.blocks[q].span.0 - r.span.0..r.blocks[q].span.1 - r.span.0]) == prov.texts[q]
      {
        if decode(r.ids[r.blocks[b].span.0 - r.span.0..r.blocks[b].span.1 - r.span.0]) != prov.texts[b] {
          return false;
        }
      }
    }
  }

  method ParsedCalls(r: Record, prov: Provenance, matched: bool, parsed: seq<ParsedCall>) returns (ok: bool, made: seq<Call>)
    requires matched ==> |prov.sources| == |parsed|
    ensures ok <==> (matched ==> forall i :: 0 <= i < |parsed| ==> prov.sources[i] < |r.blocks|)
    ensures ok ==> Attached(r, prov, matched, parsed, made)
  {
    var counts := CountSources(prov.sources);
    made := [];
    for i := 0 to |parsed|
      invariant matched ==> forall q :: 0 <= q < i ==> prov.sources[q] < |r.blocks|
      invariant |made| == i && forall q :: 0 <= q < i ==> made[q] == NewCall(r, prov, matched, parsed, q)
    {
      var block: Option<nat>, alignment := None, AlignmentUnavailable;
      if matched {
        var b := prov.sources[i];
        if b >= |r.blocks| {
          return false, made;
        }
        alignment := if counts[b] != 1 then AlignmentAmbiguous
          else if r.blocks[b].closure == Closed then AlignmentExact else AlignmentIncomplete;
        block := Some(b);
      }
      made := made + [Call(i, None, parsed[i].name, parsed[i].arguments, block, alignment, NotExecuted, false, None)];
    }
    ok := true;
  }

  /** The marker identities, unless the vocabulary lacks one, they coincide, or one does not decode to its marker. */
  method FindMarkers(tok: Tokenizer) returns (markers: Option<(int, int)>)
    ensures markers == MarkerIds(tok)
  {
    if START !in tok.vocab || END !in tok.vocab {
      return None;
    }
    var start, end := tok.vocab[START], tok.vocab[END];
    if start == end || tok.decode([start]) != START || tok.decode([end]) != END {
      return None;
    }
    markers := Some((start, end));
  }

  class Attribution {
    var span: Span
    var ids: seq<int>
    var scan: ScanStatus
    var parse: string
    var blocks: seq<Block>
    var calls: seq<Call>

    function View(): Record
      reads this
    {
      Record(span, ids, scan, parse, blocks, calls)
    }

    constructor Begin(tokenIds: seq<int>, offset: nat, tok: Tokenizer)
      ensures Built(View())
      ensures span == (offset, offset + |tokenIds|) && ids == tokenIds && parse == "not_run" && calls == []
      ensures MarkerIds(tok).None? ==> scan == Unavailable && blocks == []
      ensures MarkerIds(tok).Some? ==> var (start, end) := MarkerIds(tok).value;
        && IsScan(tokenIds, offset, start, end, blocks)
        && scan == if MisplacedBefore(tokenIds, start, end, |tokenIds|) then Ambiguous else Exact
    {
      span, ids, parse, calls := (offset, offset + |tokenIds|), tokenIds, "not_run", [];
      var markers := FindMarkers(tok);
      if markers.Some? {
        var found, status := ScanBlocks(tokenIds, offset, markers.value.0, markers.value.1);
        scan, blocks := status, found;
      } else {
        scan, blocks := Unavailable, [];
      }
    }

    /** Appends the parsed calls; a block number beyond the scanned blocks raises part-way. */
    method AttachSources(prov: Provenance, parsed: seq<ParsedCall>, decode: seq<int> -> string) returns (ok: bool)
      requires Valid(View())
      modifies this
      ensures span == old(span) && ids == old(ids) && scan == old(scan) && blocks == old(blocks) && parse == prov.status
      ensures ok <==> (SourcesMatch(old(View()), prov, parsed, decode) ==>
        forall i :: 0 <= i < |prov.sources| ==> prov.sources[i] < |blocks|)
      ensures ok ==>
        && |old(calls)| <= |calls| && calls == old(calls) + calls[|old(calls)|..]
        && Attached(old(View()), prov, SourcesMatch(old(View()), prov, parsed, decode), parsed, calls[|old(calls)|..])
      ensures ok && old(calls) == [] ==> Built(View())
    {
      var before := View();
      parse := prov.status;
      var matched := MatchSources(before, prov, parsed, decode);
      var made;
      ok, made := ParsedCalls(before, prov, matched, parsed);
      calls := calls + made;
      assert calls[|old(calls)|..] == made;
      if ok && old(calls) == [] {
        AttachBuilds(before, prov, matched, parsed, View());
      }
    }

    /** Copies the runtime identities onto the calls, as far as both lists go. */
    method BindIds(recorded: seq<Option<string>>)
      modifies `calls
      ensures |calls| == |old(calls)|
      ensures forall i :: 0 <= i < |calls| ==>
        calls[i] == if i < |recorded| then old(calls)[i].(id := recorded[i]) else old(calls)[i]
      ensures old(Built(View())) ==> Built(View())
    {
      var i := 0;
      while i < |calls| && i < |recorded|
        invariant 0 <= i <= |calls| == |old(calls)| && i <= |recorded|
        invariant forall q :: 0 <= q < |calls| ==> calls[q] == if q < i then old(calls)[q].(id := recorded[q]) else old(calls)[q]
      {
        calls := calls[i := calls[i].(id := recorded[i])];
        i := i + 1;
      }
    }

    method RecordStart(index: nat)
      requires index < |calls|
      modifies `calls
      ensures calls == old(calls)[index := old(calls)[index].(execution := Started)]
      ensures old(Built(View())) ==> Built(View())
    {
      calls := calls[index := calls[index].(execution := Started)];
    }

    method RecordResult(index: nat, error: bool, dbHash: Option<string>)
      requires index < |calls|
      modifies `calls
      ensures calls == old(calls)[index := old(calls)[index].(execution := Executed, error := error, dbHash := dbHash)]
      ensures old(Built(View())) ==> Built(View())
    {
      calls := calls[index := calls[index].(execution := Executed, error := error, dbHash := dbHash)];
    }
  }

  method CountSources(sources: seq<nat>) returns (counts: map<nat, nat>)
    ensures forall b :: b in counts <==> b in sources
    ensures forall b :: b in counts ==> counts[b] == multiset(sources)[b]
  {
    counts := map[];
    for i := 0 to |sources|
      invariant forall b :: b in counts <==> b in sources[..i]
      invariant forall b :: b in counts ==> counts[b] == multiset(sources[..i])[b]
    {
      var b := sources[i];
      TakeSnoc(sources, i);
      counts := counts[b := (if b in counts then counts[b] else 0) + 1];
    }
    assert sources[..|sources|] == sources;
  }

  lemma OnceInSequence(xs: seq<nat>, i: nat, j: nat)
    requires i < j < |xs| && xs[i] == xs[j]
    ensures multiset(xs)[xs[i]] >= 2
  {
    assert xs == xs[..i] + [xs[i]] + xs[i + 1..j] + [xs[j]] + xs[j + 1..];
  }

  lemma AttachBuilds(before: Record, prov: Provenance, matched: bool, parsed: seq<ParsedCall>, after: Record)
    requires Valid(before) && (matched ==> before.scan == Exact && prov.status == "parsed")
    requires Attached(before, prov, matched, parsed, after.calls)
    requires after == before.(parse := prov.status, calls := after.calls)
    ensures Built(after)
  {
    forall i, j | 0 <= i < |parsed| && 0 <= j < |parsed| && i != j && after.calls[i].alignment == AlignmentExact
      ensures after.calls[j].block != after.calls[i].block
    {
      if prov.sources[i] == prov.sources[j] {
        if i < j { OnceInSequence(prov.sources, i, j); } else { OnceInSequence(prov.sources, j, i); }
      }
    }
  }
}
