/** Joining paid call rewards to generated call spans by runtime identity. */
module CallJoin {
  import opened Common
  import opened Spans
  import opened GroupStats
  import opened CallAttribution
  import opened CallRetention
  import CallCredit

  datatype Event = Event(id: Option<string>, name: string, arguments: string, error: bool, dbHash: Option<string>)
  datatype Paid = Paid(event: Event, reward: real)
  datatype PaidTurn = PaidTurn(index: int, span: Span, reward: real, calls: seq<Paid>)
  datatype Process = Process(trajectory: string, turns: seq<PaidTurn>, spans: seq<Span>, rewards: seq<real>,
                             paper: bool, aggregation: string)

  /** The attribution a worker published: its record, the clipped turn and the eligibility flag. */
  datatype Published = Published(record: Record, retained: Span, eligible: bool)
  datatype Fact = Fact(index: int, span: Span, attribution: Option<Published>, events: seq<Event>)
  datatype Facts = Facts(trajectory: string, uid: string, ids: seq<int>, mask: seq<int>, turns: seq<Fact>)

  datatype Credit = Credit(q: seq<real>, spans: Option<seq<Span>>, eligible: bool)

  // ---- execution facts and paid calls of one turn ----

  /** Every execution event is named by an identity not used before in the row. */
  ghost predicate IdsFresh(events: seq<Event>, rowIds: set<string>) {
    && (forall i :: 0 <= i < |events| ==> events[i].id.Some? && events[i].id.value != "" && events[i].id.value !in rowIds)
    && (forall i, j :: 0 <= i < j < |events| ==> events[i].id != events[j].id)
  }

  function EventIds(events: seq<Event>): set<string> {
    set e | e in events && e.id.Some? :: e.id.value
  }

  function EventsOf(paid: seq<Paid>): seq<Event> {
    seq(|paid|, i requires 0 <= i < |paid| => paid[i].event)
  }

  ghost predicate Indexed(byId: map<string, Event>, events: seq<Event>) {
    && byId.Keys == EventIds(events)
    && (forall e :: e in events && e.id.Some? ==> e.id.value in byId && byId[e.id.value] == e)
    && (forall key :: key in byId ==> byId[key] in events && byId[key].id == Some(key))
  }

  method ReadEvents(events: seq<Event>, rowIds: set<string>) returns (ok: bool, byId: map<string, Event>, seen: set<string>)
    ensures ok <==> IdsFresh(events, rowIds)
    ensures ok ==> Indexed(byId, events) && seen == rowIds + EventIds(events)
  {
    byId, seen := map[], rowIds;
    for n := 0 to |events|
      invariant IdsFresh(events[..n], rowIds)
      invariant Indexed(byId, events[..n]) && seen == rowIds + EventIds(events[..n])
    {
      var event := events[n];
      assert events[..n + 1] == events[..n] + [event];
      if event.id.None? || event.id.value == "" || event.id.value in seen {
        ok := false;
        return;
      }
      seen := seen + {event.id.value};
      byId := byId[event.id.value := event];
    }
    assert events[..|events|] == events;
    ok := true;
  }

  lemma FreshCount(events: seq<Event>, rowIds: set<string>, e: Event)
    requires IdsFresh(events, rowIds)
    ensures multiset(events)[e] == if e in events then 1 else 0
  {
    if e in events {
      var i :| 0 <= i < |events| && events[i] == e;
      assert events == events[..i] + [e] + events[i + 1..];
      assert e !in events[..i] && e !in events[i + 1..];
    }
  }

  /** Distinct paid calls, each one of the execution events. */
  ghost predicate PaidSome(paid: seq<Paid>, events: seq<Event>) {
    && (forall i :: 0 <= i < |paid| ==> paid[i].event in events)
    && (forall i, j :: 0 <= i < j < |paid| ==> paid[i].event.id != paid[j].event.id)
  }

  function PaidIds(paid: seq<Paid>): set<string> {
    EventIds(EventsOf(paid))
  }

  lemma PaidOrigin(paid: seq<Paid>, key: string)
    requires key in PaidIds(paid)
    ensures exists i :: 0 <= i < |paid| && paid[i].event.id == Some(key)
  {
    var e :| e in EventsOf(paid) && e.id == Some(key);
    var i :| 0 <= i < |paid| && EventsOf(paid)[i] == e;
    assert paid[i].event.id == Some(key);
  }

  lemma RepeatedPaid(paid: seq<Paid>, events: seq<Event>, n: nat)
    requires n < |paid| && PaidSome(paid, events) && paid[n].event.id.Some?
    ensures paid[n].event.id.value !in PaidIds(paid[..n])
  {
    forall key | key in PaidIds(paid[..n]) ensures exists i :: 0 <= i < n && paid[i].event.id == Some(key) {
      PaidOrigin(paid[..n], key);
    }
  }

  lemma PaidNone(paid: seq<Paid>)
    ensures PaidIds(paid[..0]) == {}
  {
  }

  lemma PaidIdsSnoc(paid: seq<Paid>, n: nat)
    requires n < |paid| && paid[n].event.id.Some?
    ensures PaidIds(paid[..n + 1]) == PaidIds(paid[..n]) + {paid[n].event.id.value}
  {
    assert EventsOf(paid[..n + 1]) == EventsOf(paid[..n]) + [paid[n].event];
  }

  ghost predicate PaidListed(paidBy: map<string, Paid>, paid: seq<Paid>) {
    && paidBy.Keys == PaidIds(paid)
    && forall p :: p in paid ==> p.event.id.Some? && p.event.id.value in paidBy && paidBy[p.event.id.value] == p
  }

  method ReadPaid(paid: seq<Paid>, events: seq<Event>, byId: map<string, Event>)
    returns (ok: bool, paidBy: map<string, Paid>)
    requires Indexed(byId, events) && forall e :: e in events ==> e.id.Some?
    ensures ok <==> PaidSome(paid, events)
    ensures ok ==> PaidListed(paidBy, paid)
  {
    hide EventIds, PaidIds;
    paidBy := map[];
    PaidNone(paid);
    for n := 0 to |paid|
      invariant PaidSome(paid[..n], events) && PaidListed(paidBy, paid[..n])
    {
      var call := paid[n];
      TakeSnoc(paid, n);
      if call.event.id.None? || call.event.id.value in paidBy || call.event.id.value !in byId {
        if PaidSome(paid, events) {
          assert paid[n].event in events;
          RepeatedPaid(paid, events, n);
        }
        ok := false;
        return;
      }
      if call.event != byId[call.event.id.value] {
        assert paid[n].event !in events;
        ok := false;
        return;
      }
      PaidIdsSnoc(paid, n);
      paidBy := paidBy[call.event.id.value := call];
    }
    assert paid[..|paid|] == paid;
    ok := true;
  }

  method CoverEvents(paid: seq<Paid>, events: seq<Event>, byId: map<string, Event>, ghost rowIds: set<string>)
    returns (ok: bool, paidBy: map<string, Paid>)
    requires IdsFresh(events, rowIds) && Indexed(byId, events)
    ensures ok <==> multiset(EventsOf(paid)) == multiset(events)
    ensures ok ==> PaidListed(paidBy, paid) && PaidSome(paid, events)
  {
    ok, paidBy := ReadPaid(paid, events, byId);
    ok := ok && paidBy.Keys == byId.Keys;
    PaidPermutation(paid, events, rowIds);
  }

  lemma SameElements<T>(xs: seq<T>, ys: seq<T>)
    requires multiset(xs) == multiset(ys)
    ensures forall x :: x in xs <==> x in ys
  {
    forall x ensures x in xs <==> x in ys {
      assert x in xs <==> x in multiset(xs);
      assert x in ys <==> x in multiset(ys);
    }
  }

  lemma TwiceCounted<T>(xs: seq<T>, i: nat, j: nat)
    requires i < j < |xs| && xs[i] == xs[j]
    ensures multiset(xs)[xs[i]] >= 2
  {
    assert xs == xs[..i] + [xs[i]] + xs[i + 1..j] + [xs[j]] + xs[j + 1..];
  }

  lemma PermutationCovers(paid: seq<Paid>, events: seq<Event>, rowIds: set<string>)
    requires IdsFresh(events, rowIds) && multiset(EventsOf(paid)) == multiset(events)
    ensures PaidSome(paid, events) && PaidIds(paid) == EventIds(events)
  {
    var es := EventsOf(paid);
    SameElements(es, events);
    forall i | 0 <= i < |paid| ensures paid[i].event in events {
      assert es[i] in es;
    }
    forall i, j | 0 <= i < j < |paid| ensures paid[i].event.id != paid[j].event.id {
      FreshCount(events, rowIds, es[i]);
      if es[i] == es[j] {
        TwiceCounted(es, i, j);
      }
      assert es[i] in events && es[j] in events;
    }
  }

  /** Paid calls cover the execution events exactly when they are a permutation of them. */
  lemma PaidPermutation(paid: seq<Paid>, events: seq<Event>, rowIds: set<string>)
    requires IdsFresh(events, rowIds)
    ensures multiset(EventsOf(paid)) == multiset(events) <==> PaidSome(paid, events) && PaidIds(paid) == EventIds(events)
  {
    var es := EventsOf(paid);
    if multiset(es) == multiset(events) {
      PermutationCovers(paid, events, rowIds);
    }
    if PaidSome(paid, events) && PaidIds(paid) == EventIds(events) {
      assert IdsFresh(es, rowIds);
      forall e ensures multiset(es)[e] == multiset(events)[e] {
        FreshCount(events, rowIds, e);
        FreshCount(es, rowIds, e);
        if e in events {
          assert e.id.value in PaidIds(paid);
          var x :| x in es && x.id == e.id;
          assert x in events && x == e;
        }
      }
      assert multiset(es) == multiset(events);
    }
  }

  // ---- receipts and rewards ----

  function ExecutedCalls(calls: seq<Call>): (e: seq<Call>)
    ensures forall c :: c in e ==> c in calls && c.execution == Executed
  {
    if calls == [] then []
    else
      var last := calls[|calls| - 1];
      ExecutedCalls(calls[..|calls| - 1]) + if last.execution == Executed then [last] else []
  }

  function KnownIds(calls: seq<Call>): seq<string> {
    if calls == [] then []
    else
      var last := calls[|calls| - 1];
      KnownIds(calls[..|calls| - 1]) + if last.id.Some? then [last.id.value] else []
  }

  function CallIds(calls: seq<Call>): set<Option<string>> {
    set c | c in calls :: c.id
  }

  ghost predicate SameReceipt(c: Call, e: Event) {
    c.name == e.name && c.error == e.error && c.dbHash == e.dbHash
  }

  /** Executed calls and paid calls carry the same identities, one for one, with the same receipts. */
  ghost predicate Receipts(calls: seq<Call>, paid: seq<Paid>) {
    && Distinct(KnownIds(calls))
    && CallIds(ExecutedCalls(calls)) == (set id | id in PaidIds(paid) :: Some(id))
    && |ExecutedCalls(calls)| == |paid|
    && forall c, p :: c in ExecutedCalls(calls) && p in paid && c.id == p.event.id ==> SameReceipt(c, p.event)
  }

  /** `q` lists, in execution order, the reward paid for each executed call. */
  ghost predicate Paying(q: seq<real>, executed: seq<Call>, paid: seq<Paid>) {
    && |q| == |executed|
    && forall j :: 0 <= j < |q| ==> exists m :: 0 <= m < |paid| && paid[m].event.id == executed[j].id && paid[m].reward == q[j]
  }

  method SplitCalls(calls: seq<Call>) returns (known: seq<string>, executed: seq<Call>)
    ensures known == KnownIds(calls) && executed == ExecutedCalls(calls)
  {
    known, executed := [], [];
    for n := 0 to |calls|
      invariant known == KnownIds(calls[..n]) && executed == ExecutedCalls(calls[..n])
    {
      TakeSnoc(calls, n);
      assert (calls[..n] + [calls[n]])[..n] == calls[..n];
      known := known + if calls[n].id.Some? then [calls[n].id.value] else [];
      executed := executed + if calls[n].execution == Executed then [calls[n]] else [];
    }
    assert calls[..|calls|] == calls;
  }

  lemma PaidKey(paidBy: map<string, Paid>, paid: seq<Paid>, key: string)
    requires PaidListed(paidBy, paid) && key in paidBy
    ensures exists m :: 0 <= m < |paid| && paid[m].event.id == Some(key) && paidBy[key] == paid[m]
  {
    var e :| e in EventsOf(paid) && e.id == Some(key);
    var m :| 0 <= m < |paid| && EventsOf(paid)[m] == e;
    assert paid[m] in paid;
  }

  function IdValues(paid: seq<Paid>): seq<string>
    requires forall i :: 0 <= i < |paid| ==> paid[i].event.id.Some?
  {
    seq(|paid|, i requires 0 <= i < |paid| => paid[i].event.id.value)
  }

  lemma PaidCount(paid: seq<Paid>)
    requires forall i :: 0 <= i < |paid| ==> paid[i].event.id.Some?
    requires forall i, j :: 0 <= i < j < |paid| ==> paid[i].event.id != paid[j].event.id
    ensures |PaidIds(paid)| == |paid|
  {
    var ids := IdValues(paid);
    DistinctSize(ids);
    assert Elements(ids) == PaidIds(paid) by {
      forall key | key in Elements(ids) ensures key in PaidIds(paid) {
        var m :| 0 <= m < |ids| && ids[m] == key;
        assert EventsOf(paid)[m] in EventsOf(paid);
      }
      forall key | key in PaidIds(paid) ensures key in Elements(ids) {
        var e :| e in EventsOf(paid) && e.id == Some(key);
        var m :| 0 <= m < |paid| && EventsOf(paid)[m] == e;
        assert ids[m] == key;
      }
    }
  }

  method PayCalls(executed: seq<Call>, paid: seq<Paid>, paidBy: map<string, Paid>) returns (ok: bool, q: seq<real>)
    requires PaidListed(paidBy, paid)
    requires forall c :: c in executed ==> c.id.Some? && c.id.value in paidBy
    ensures ok <==> forall c, p :: c in executed && p in paid && c.id == p.event.id ==> SameReceipt(c, p.event)
    ensures ok ==> Paying(q, executed, paid)
  {
    q := [];
    for j := 0 to |executed|
      invariant Paying(q, executed[..j], paid)
      invariant forall c, p :: c in executed[..j] && p in paid && c.id == p.event.id ==> SameReceipt(c, p.event)
    {
      var call := executed[j];
      var key := call.id.value;
      PaidKey(paidBy, paid, key);
      var event := paidBy[key].event;
      if call.name != event.name || call.error != event.error || call.dbHash != event.dbHash {
        ok := false;
        return;
      }
      TakeSnoc(executed, j);
      q := q + [paidBy[key].reward];
    }
    assert executed[..|executed|] == executed;
    ok := true;
  }

  method MatchReceipts(calls: seq<Call>, paid: seq<Paid>, paidBy: map<string, Paid>) returns (ok: bool, q: seq<real>)
    requires PaidListed(paidBy, paid) && |PaidIds(paid)| == |paid|
    ensures ok <==> Receipts(calls, paid)
    ensures ok ==> Paying(q, ExecutedCalls(calls), paid)
  {
    var known, executed := SplitCalls(calls);
    DistinctSize(known);
    q := [];
    if |Elements(known)| != |known| || (set c | c in executed :: c.id) != (set key | key in paidBy.Keys :: Some(key))
       || |executed| != |paidBy| {
      ok := false;
      return;
    }
    forall c | c in executed ensures c.id.Some? && c.id.value in paidBy {
      assert c.id in CallIds(executed);
    }
    ok, q := PayCalls(executed, paid, paidBy);
  }

  // ---- one turn ----

  ghost predicate TurnIdentity(p: Process, k: nat, f: Fact) {
    && k < |p.turns| && k < |p.spans| && k < |p.rewards|
    && p.turns[k].index == k && f.index == k
    && p.turns[k].span == f.span == p.spans[k] && p.turns[k].reward == p.rewards[k]
  }

  /** The published attribution is the one the record yields against the retained tokens. */
  ghost predicate AttributionMatches(f: Fact, ids: seq<int>, mask: seq<int>) {
    && f.attribution.Some?
    && var a := f.attribution.value;
       && a.record.span == f.span
       && Agrees(a.record, ids, mask) && BlocksFit(a.record.blocks, a.record.span.0, a.record.span.1) && KnownBlocks(a.record)
       && a.retained == Clipped(a.record.span, |ids|) && a.eligible == TurnEligible(a.record, |ids|)
       && (a.eligible ==> a.record.scan == Exact && a.record.parse == "parsed")
  }

  ghost predicate TurnJoins(p: Process, k: nat, f: Fact, ids: seq<int>, mask: seq<int>, rowIds: set<string>) {
    && TurnIdentity(p, k, f) && AttributionMatches(f, ids, mask)
    && IdsFresh(f.events, rowIds)
    && multiset(EventsOf(p.turns[k].calls)) == multiset(f.events)
    && Receipts(f.attribution.value.record.calls, p.turns[k].calls)
  }

  /** The retained spans of the executed calls' blocks, in execution order. */
  ghost predicate Locates(spans: seq<Span>, r: Record, limit: nat) {
    && |spans| == |ExecutedCalls(r.calls)|
    && forall j :: 0 <= j < |spans| ==>
      var b := ExecutedCalls(r.calls)[j].block;
      b.Some? && b.value < |r.blocks| && spans[j] == Clipped(r.blocks[b.value].span, limit)
  }

  ghost predicate TurnCredit(c: Credit, turn: PaidTurn, f: Fact, limit: nat) {
    && f.attribution.Some?
    && var r := f.attribution.value.record;
       && Paying(c.q, ExecutedCalls(r.calls), turn.calls)
       && c.eligible == f.attribution.value.eligible
       && (if c.eligible then c.spans.Some? && Locates(c.spans.value, r, limit) else c.spans.None?)
  }

  method LocateCalls(v: Retained) returns (spans: seq<Span>)
    requires |v.blocks| == |v.record.blocks|
    requires forall c :: c in v.record.calls ==> c.block.Some? && c.block.value < |v.blocks|
    ensures |spans| == |ExecutedCalls(v.record.calls)|
    ensures forall j :: 0 <= j < |spans| ==>
      && ExecutedCalls(v.record.calls)[j].block.Some?
      && ExecutedCalls(v.record.calls)[j].block.value < |v.blocks|
      && spans[j] == v.blocks[ExecutedCalls(v.record.calls)[j].block.value].span
  {
    var known, executed := SplitCalls(v.record.calls);
    spans := [];
    for j := 0 to |executed|
      invariant |spans| == j
      invariant forall q :: 0 <= q < j ==>
        && executed[q].block.Some?
        && executed[q].block.value < |v.blocks| && spans[q] == v.blocks[executed[q].block.value].span
    {
      assert executed[j] in v.record.calls;
      spans := spans + [v.blocks[executed[j].block.value].span];
    }
  }

  method CheckAttribution(f: Fact, ids: seq<int>, mask: seq<int>) returns (ok: bool, spans: Option<seq<Span>>)
    ensures ok <==> AttributionMatches(f, ids, mask)
    ensures ok ==> if f.attribution.value.eligible
      then spans.Some? && Locates(spans.value, f.attribution.value.record, |ids|) else spans.None?
  {
    spans := None;
    if f.attribution.None? || f.attribution.value.record.span != f.span {
      return false, None;
    }
    var a := f.attribution.value;
    var checked := Retain(a.record, ids, mask);
    if checked.Rejected? || checked.value.turn.span != a.retained || checked.value.eligible != a.eligible {
      return false, None;
    }
    ok := true;
    if a.eligible {
      if a.record.scan != Exact || a.record.parse != "parsed" {
        return false, None;
      }
      forall c | c in a.record.calls ensures c.block.Some? && c.block.value < |a.record.blocks| {
        var i :| 0 <= i < |a.record.calls| && a.record.calls[i] == c;
        assert CallEligible(a.record, |ids|, a.record.calls[i]);
      }
      var found := LocateCalls(checked.value);
      spans := Some(found);
    }
  }

  method JoinTurn(p: Process, k: nat, f: Fact, ids: seq<int>, mask: seq<int>, rowIds: set<string>)
    returns (out: Result<Credit>, seen: set<string>)
    ensures out.Ok? <==> TurnJoins(p, k, f, ids, mask, rowIds)
    ensures out.Ok? ==> TurnCredit(out.value, p.turns[k], f, |ids|) && seen == rowIds + EventIds(f.events)
  {
    hide AttributionMatches, Receipts, Paying, Locates, IdsFresh, Indexed, PaidListed;
    seen := rowIds;
    if !(k < |p.turns| && k < |p.spans| && k < |p.rewards| && p.turns[k].index == k && f.index == k
         && p.turns[k].span == f.span == p.spans[k] && p.turns[k].reward == p.rewards[k]) {
      return Rejected, seen;
    }
    var matches, spans := CheckAttribution(f, ids, mask);
    if !matches {
      return Rejected, seen;
    }
    AttributionPresent(f, ids, mask);
    var r := f.attribution.value.record;
    var unused, byId;
    unused, byId, seen := ReadEvents(f.events, rowIds);
    if !unused {
      return Rejected, seen;
    }
    var covered, paidBy := CoverEvents(p.turns[k].calls, f.events, byId, rowIds);
    if !covered {
      return Rejected, seen;
    }
    PaidAreNamed(p.turns[k].calls, f.events, rowIds);
    var receipts, q := MatchReceipts(r.calls, p.turns[k].calls, paidBy);
    if !receipts {
      return Rejected, seen;
    }
    out := Ok(Credit(q, spans, f.attribution.value.eligible));
  }

  lemma AttributionPresent(f: Fact, ids: seq<int>, mask: seq<int>)
    requires AttributionMatches(f, ids, mask)
    ensures f.attribution.Some?
  {
  }

  lemma PaidAreNamed(paid: seq<Paid>, events: seq<Event>, rowIds: set<string>)
    requires IdsFresh(events, rowIds) && PaidSome(paid, events)
    ensures forall i :: 0 <= i < |paid| ==> paid[i].event.id.Some?
    ensures |PaidIds(paid)| == |paid|
  {
    PaidCount(paid);
  }

  // ---- rewards are conserved ----

  function RewardsOf(paid: seq<Paid>): seq<real> {
    seq(|paid|, i requires 0 <= i < |paid| => paid[i].reward)
  }

  lemma {:induction false} ExecutedDistinct(calls: seq<Call>)
    requires Distinct(KnownIds(calls))
    ensures forall i, j :: 0 <= i < j < |ExecutedCalls(calls)| && ExecutedCalls(calls)[i].id.Some? ==>
      ExecutedCalls(calls)[i].id != ExecutedCalls(calls)[j].id
    ensures forall c :: c in calls && c.id.Some? ==> c.id.value in KnownIds(calls)
  {
    if calls != [] {
      var n := |calls| - 1;
      var before, known := KnownIds(calls[..n]), KnownIds(calls);
      assert forall i :: 0 <= i < |before| ==> known[i] == before[i];
      assert known[..|before|] == before;
      ExecutedDistinct(calls[..n]);
      if calls[n].id.Some? {
        assert known[|before|] == calls[n].id.value;
        assert calls[n].id.value !in before;
      }
      assert calls == calls[..n] + [calls[n]];
    }
  }

  function Drop<T>(xs: seq<T>, m: nat): seq<T>
    requires m < |xs|
  {
    xs[..m] + xs[m + 1..]
  }

  lemma DropOne<T>(xs: seq<T>, m: nat)
    requires m < |xs|
    ensures multiset(xs) == multiset(Drop(xs, m)) + multiset{xs[m]}
    ensures Distinct(xs) ==> Distinct(Drop(xs, m))
  {
    assert xs == xs[..m] + [xs[m]] + xs[m + 1..];
    if Distinct(xs) {
      forall i, j | 0 <= i < j < |xs| - 1 ensures Drop(xs, m)[i] != Drop(xs, m)[j] {
        assert xs[if i < m then i else i + 1] != xs[if j < m then j else j + 1];
      }
    }
  }

  ghost predicate Has<T>(names: seq<T>, rewards: seq<real>, name: T, x: real) {
    exists m :: 0 <= m < |names| && m < |rewards| && names[m] == name && rewards[m] == x
  }

  lemma DropOther<T>(names: seq<T>, rewards: seq<real>, name: T, x: real, m: nat)
    requires |names| == |rewards| && m < |names| && Has(names, rewards, name, x) && names[m] != name
    ensures Has(Drop(names, m), Drop(rewards, m), name, x)
  {
    var y :| 0 <= y < |names| && names[y] == name && rewards[y] == x;
    var z := if y < m then y else y - 1;
    assert Drop(names, m)[z] == name && Drop(rewards, m)[z] == x;
  }

  /** Distinct names matched one for one: the rewards are a permutation. */
  lemma {:induction false} MatchPermutes<T>(q: seq<real>, ids: seq<T>, names: seq<T>, rewards: seq<real>)
    requires |q| == |ids| == |names| == |rewards| && Distinct(ids) && Distinct(names)
    requires forall j :: 0 <= j < |q| ==> Has(names, rewards, ids[j], q[j])
    ensures multiset(q) == multiset(rewards)
  {
    if q != [] {
      var n := |q| - 1;
      assert Has(names, rewards, ids[n], q[n]);
      var m :| 0 <= m < |names| && names[m] == ids[n] && rewards[m] == q[n];
      forall j | 0 <= j < n ensures Has(Drop(names, m), Drop(rewards, m), ids[..n][j], q[..n][j]) {
        DropOther(names, rewards, ids[j], q[j], m);
      }
      DropOne(names, m);
      DropOne(rewards, m);
      MatchPermutes(q[..n], ids[..n], Drop(names, m), Drop(rewards, m));
      assert q == q[..n] + [q[n]];
    }
  }

  lemma SumOne(x: real)
    ensures Sum([x]) == x
  {
  }

  lemma SumDrop(ys: seq<real>, m: nat)
    requires m < |ys|
    ensures Sum(ys) == Sum(Drop(ys, m)) + ys[m]
  {
    hide Sum;
    assert ys == ys[..m] + ([ys[m]] + ys[m + 1..]);
    SumAppend(ys[..m], [ys[m]] + ys[m + 1..]);
    SumAppend([ys[m]], ys[m + 1..]);
    SumAppend(ys[..m], ys[m + 1..]);
    SumOne(ys[m]);
  }

  lemma {:induction false} SumPermutes(xs: seq<real>, ys: seq<real>)
    requires multiset(xs) == multiset(ys)
    ensures Sum(xs) == Sum(ys)
  {
    if xs == [] {
      assert |multiset(xs)| == |multiset(ys)|;
    } else {
      var n := |xs| - 1;
      assert xs[n] in multiset(ys);
      var m :| 0 <= m < |ys| && ys[m] == xs[n];
      assert xs == xs[..n] + [xs[n]];
      DropOne(ys, m);
      assert multiset(xs[..n]) == multiset(xs) - multiset{xs[n]};
      assert multiset(Drop(ys, m)) == multiset(ys) - multiset{ys[m]};
      SumPermutes(xs[..n], Drop(ys, m));
      SumDrop(ys, m);
    }
  }

  /** Whatever the execution order, each paid call is credited once and the turn's pay is kept. */
  lemma RewardsConserved(p: Process, k: nat, f: Fact, ids: seq<int>, mask: seq<int>, rowIds: set<string>, c: Credit)
    requires TurnJoins(p, k, f, ids, mask, rowIds) && TurnCredit(c, p.turns[k], f, |ids|)
    ensures multiset(c.q) == multiset(RewardsOf(p.turns[k].calls))
    ensures Sum(c.q) == Sum(RewardsOf(p.turns[k].calls))
  {
    var calls, paid := f.attribution.value.record.calls, p.turns[k].calls;
    PermutationCovers(paid, f.events, rowIds);
    ExecutedDistinct(calls);
    var executed := ExecutedCalls(calls);
    forall i | 0 <= i < |executed| ensures executed[i].id.Some? {
      assert executed[i].id in CallIds(executed);
    }
    var ids := seq(|executed|, j requires 0 <= j < |executed| => executed[j].id);
    var names := seq(|paid|, m requires 0 <= m < |paid| => paid[m].event.id);
    forall j | 0 <= j < |c.q| ensures Has(names, RewardsOf(paid), ids[j], c.q[j]) {
      var m :| 0 <= m < |paid| && paid[m].event.id == executed[j].id && paid[m].reward == c.q[j];
      assert names[m] == ids[j] && RewardsOf(paid)[m] == c.q[j];
    }
    MatchPermutes(c.q, ids, names, RewardsOf(paid));
    SumPermutes(c.q, RewardsOf(paid));
  }

  // ---- spans ----

  lemma {:induction false} AllExecuted(calls: seq<Call>)
    requires forall i :: 0 <= i < |calls| ==> calls[i].execution == Executed
    ensures ExecutedCalls(calls) == calls
  {
    if calls != [] {
      var init, last := calls[..|calls| - 1], calls[|calls| - 1];
      assert last.execution == Executed;
      forall i | 0 <= i < |init| ensures init[i].execution == Executed {
        assert init[i] == calls[i];
      }
      AllExecuted(init);
      assert calls == init + [last];
    }
  }

  lemma EligibleCall(r: Record, limit: nat, i: nat)
    requires Built(r) && TurnEligible(r, limit) && i < |r.calls|
    ensures r.calls[i].execution == Executed && r.calls[i].block.Some? && r.calls[i].block.value < |r.blocks|
    ensures var span := r.blocks[r.calls[i].block.value].span;
      Clipped(span, limit) == span && span.1 <= limit
    ensures forall j :: 0 <= j < |r.calls| && j != i ==> r.calls[j].block != r.calls[i].block
  {
    assert CallEligible(r, limit, r.calls[i]);
    ClipSplits(r.blocks[r.calls[i].block.value].span, limit);
  }

  /** The calls of an eligible turn sit in whole blocks, all different. */
  lemma EligibleSpans(r: Record, limit: nat, spans: seq<Span>)
    requires Built(r) && TurnEligible(r, limit) && Locates(spans, r, limit)
    ensures |spans| == |r.calls| > 0 && forall i :: 0 <= i < |r.calls| ==> r.calls[i].block.Some?
    ensures forall i :: 0 <= i < |spans| ==> spans[i] == r.blocks[BlockNumbers(r)[i]].span && spans[i].1 <= limit
    ensures Distinct(BlockNumbers(r))
  {
    assert r.calls != [];
    hide Built, TurnEligible, Clipped;
    forall i | 0 <= i < |r.calls|
      ensures r.calls[i].execution == Executed && r.calls[i].block.Some? && r.calls[i].block.value < |r.blocks|
      ensures var span := r.blocks[r.calls[i].block.value].span; Clipped(span, limit) == span && span.1 <= limit
      ensures forall j :: 0 <= j < |r.calls| && j != i ==> r.calls[j].block != r.calls[i].block
    {
      EligibleCall(r, limit, i);
    }
    AllExecuted(r.calls);
    hide ExecutedCalls;
  }

  /** Distinct blocks of a turn, taken in some order, fit the turn exactly when that order is increasing. */
  lemma WithinIffIncreasing(blocks: seq<Block>, turn: Span, numbers: seq<nat>, spans: seq<Span>)
    requires BlocksFit(blocks, turn.0, turn.1) && |numbers| == |spans| && Distinct(numbers)
    requires forall i :: 0 <= i < |spans| ==> numbers[i] < |blocks| && spans[i] == blocks[numbers[i]].span
    ensures CallCredit.Within(spans, turn) <==> Increasing(numbers)
  {
    forall i, j | 0 <= i < j < |spans| ensures spans[i].1 <= spans[j].0 <==> numbers[i] < numbers[j] {
      assert numbers[i] != numbers[j];
    }
  }

  /** Spans of an eligible turn pass the estimator's checks exactly when the calls came in block order. */
  lemma SpansPassIffInOrder(r: Record, ids: seq<int>, mask: seq<int>, spans: seq<Span>, row: seq<int>)
    requires Built(r) && Agrees(r, ids, mask) && TurnEligible(r, |ids|) && Locates(spans, r, |ids|)
    requires |mask| <= |row| && row[..|mask|] == mask
    ensures forall i :: 0 <= i < |r.calls| ==> r.calls[i].block.Some?
    ensures |spans| == |r.calls| > 0
    ensures CallCredit.CallSpansOk(spans, r.span, row) <==> Increasing(BlockNumbers(r))
  {
    hide TurnEligible, Locates;
    EligibleSpans(r, |ids|, spans);
    WithinIffIncreasing(r.blocks, r.span, BlockNumbers(r), spans);
    forall p | 0 <= p < |row| && Covered(spans, p) ensures row[p] != 0 {
      var i :| 0 <= i < |spans| && Covers(spans[i], p);
      assert row[p] == row[..|mask|][p];
    }
  }

  /** Two calls the parser reports against swapped blocks. */
  function Swapped(): Record {
    Record((0, 4), [7, 8, 7, 8], Exact, "parsed", [Block(0, (0, 2), Closed), Block(1, (2, 4), Closed)],
           [Call(0, Some("a"), "find", "", Some(1), AlignmentExact, Executed, false, None),
            Call(1, Some("b"), "book", "", Some(0), AlignmentExact, Executed, false, None)])
  }

  lemma SwappedLocates()
    ensures Locates([(2, 4), (0, 2)], Swapped(), 4)
  {
    SwappedAll();
    hide ExecutedCalls;
    var spans: seq<Span> := [(2, 4), (0, 2)];
    assert spans[0] == (2, 4) && spans[1] == (0, 2);
  }

  lemma SwappedAll()
    ensures ExecutedCalls(Swapped().calls) == Swapped().calls
  {
    AllExecuted(Swapped().calls);
  }

  /** The order matters: such a turn is eligible, and the estimator refuses it. */
  lemma SwappedSourcesRefused()
    ensures Built(Swapped()) && Agrees(Swapped(), [7, 8, 7, 8], [1, 1, 1, 1]) && TurnEligible(Swapped(), 4)
    ensures Locates([(2, 4), (0, 2)], Swapped(), 4)
    ensures !CallCredit.CallSpansOk([(2, 4), (0, 2)], Swapped().span, [1, 1, 1, 1])
  {
    SwappedLocates();
    hide Locates, ExecutedCalls;
    assert !CallCredit.Within([(2, 4), (0, 2)], (0, 4)) by {
      var spans: seq<Span> := [(2, 4), (0, 2)];
      assert spans[0].1 > spans[1].0;
    }
  }

  // ---- the same turn, from the scanner to the join ----

  /** The response: two blocks, each one start marker and one end marker. */
  function SwappedTokens(): seq<int> {
    [7, 8, 7, 8]
  }

  lemma SwappedDepth(b: nat)
    ensures Deep(SwappedTokens(), 7, 8, b) <==> b == 1 || b == 3
  {
    var ids := SwappedTokens();
    assert Depth(ids, 7, 8, 1) == 1;
    assert Depth(ids, 7, 8, 2) == 0;
    assert Depth(ids, 7, 8, 3) == 1;
    assert Depth(ids, 7, 8, 4) == 0;
  }

  lemma SwappedRuns(x: nat, y: nat)
    ensures IsRun(SwappedTokens(), 7, 8, x, y) <==> (x, y) == (0, 2) || (x, y) == (2, 4)
  {
    forall b: nat ensures Deep(SwappedTokens(), 7, 8, b) <==> b == 1 || b == 3 {
      SwappedDepth(b);
    }
    hide Deep;
    assert IsRun(SwappedTokens(), 7, 8, x, y) && x + 2 < y ==> Deep(SwappedTokens(), 7, 8, x + 2);
  }

  /** The scanner finds both blocks, closed, and nothing ambiguous. */
  lemma SwappedScan(blocks: seq<Block>)
    requires IsScan(SwappedTokens(), 0, 7, 8, blocks)
    ensures blocks == Swapped().blocks && !MisplacedBefore(SwappedTokens(), 7, 8, 4)
  {
    var ids := SwappedTokens();
    forall x: nat, y: nat ensures Listed(blocks, 0, x, y) <==> (x, y) == (0, 2) || (x, y) == (2, 4) {
      SwappedRuns(x, y);
    }
    forall b: nat ensures Deep(ids, 7, 8, b) <==> b == 1 || b == 3 {
      SwappedDepth(b);
    }
    ExactIffAlternating(ids, 7, 8, 4);
    assert Markers(ids, 7, 8, 4) == [true, false, true, false];
    assert Listed(blocks, 0, 0, 2) && Listed(blocks, 0, 2, 4);
    hide IsRun, Deep, MisplacedBefore;
    forall i | 0 <= i < |blocks| ensures blocks[i].span == (0, 2) || blocks[i].span == (2, 4) {
      assert Listed(blocks, 0, blocks[i].span.0, blocks[i].span.1);
    }
    TwoBlocks(blocks);
  }

  lemma {:induction false} BlockStarts(blocks: seq<Block>, k: nat)
    requires BlocksFit(blocks, 0, 4) && k < |blocks|
    requires forall i :: 0 <= i < |blocks| ==> blocks[i].span == (0, 2) || blocks[i].span == (2, 4)
    ensures blocks[k].span.0 >= 2 * k
  {
    if k > 0 {
      BlockStarts(blocks, k - 1);
    }
  }

  lemma TwoBlocks(blocks: seq<Block>)
    requires BlocksFit(blocks, 0, 4) && Listed(blocks, 0, 0, 2) && Listed(blocks, 0, 2, 4)
    requires forall i :: 0 <= i < |blocks| ==> blocks[i].span == (0, 2) || blocks[i].span == (2, 4)
    ensures |blocks| == 2 && blocks[0].span == (0, 2) && blocks[1].span == (2, 4)
  {
    var i: nat :| i < |blocks| && blocks[i].span == (0, 2);
    var j: nat :| j < |blocks| && blocks[j].span == (2, 4);
    BlockStarts(blocks, |blocks| - 1);
    BlockStarts(blocks, i);
    BlockStarts(blocks, j);
    BlockStarts(blocks, 1);
  }

  /** The record after scanning, and the calls a parser attaches that reports the blocks in swapped order. */
  function SwappedBefore(): Record {
    Swapped().(parse := "not_run", calls := [])
  }

  function AttachedCall(i: nat, name: string, block: nat): Call {
    Call(i, None, name, "", Some(block), AlignmentExact, NotExecuted, false, None)
  }

  lemma SwappedValid()
    ensures Valid(SwappedBefore())
  {
  }

  function BlockTokens(r: Record, b: nat): seq<int>
    requires Valid(r) && b < |r.blocks|
  {
    r.ids[r.blocks[b].span.0 - r.span.0..r.blocks[b].span.1 - r.span.0]
  }

  /** Both blocks hold the same two tokens. */
  lemma SwappedSlices(b: nat)
    requires b < 2 && Valid(SwappedBefore())
    ensures BlockTokens(SwappedBefore(), b) == [7, 8]
  {
    var ids := Swapped().ids;
    assert ids[0..2] == [7, 8] && ids[2..4] == [7, 8];
    assert b == 0 || b == 1;
  }

  lemma SameText(r: Record, prov: Provenance, parsed: seq<ParsedCall>, decode: seq<int> -> string, tokens: seq<int>)
    requires Valid(r) && r.scan == Exact && |r.blocks| == |prov.texts| && |prov.sources| == |parsed| && prov.status == "parsed"
    requires forall b: nat :: b < |r.blocks| ==> BlockTokens(r, b) == tokens && prov.texts[b] == decode(tokens)
    ensures SourcesMatch(r, prov, parsed, decode)
  {
    forall b: nat | b < |r.blocks| ensures decode(BlockTokens(r, b)) == prov.texts[b] {
    }
  }

  lemma SwappedMatches(prov: Provenance, parsed: seq<ParsedCall>, decode: seq<int> -> string)
    requires prov.status == "parsed" && |prov.sources| == |parsed| && prov.texts == [decode([7, 8]), decode([7, 8])]
    ensures Valid(SwappedBefore()) && SourcesMatch(SwappedBefore(), prov, parsed, decode)
  {
    SwappedValid();
    hide Valid, BlockTokens;
    forall b: nat | b < 2 ensures BlockTokens(SwappedBefore(), b) == [7, 8] && prov.texts[b] == decode([7, 8]) {
      SwappedSlices(b);
    }
    SameText(SwappedBefore(), prov, parsed, decode, [7, 8]);
  }

  lemma SwappedAttached(prov: Provenance, parsed: seq<ParsedCall>, made: seq<Call>)
    requires prov.sources == [1, 0] && parsed == [ParsedCall("find", ""), ParsedCall("book", "")]
    requires Attached(SwappedBefore(), prov, true, parsed, made)
    ensures made == [AttachedCall(0, "find", 1), AttachedCall(1, "book", 0)]
  {
    assert multiset([1, 0]) == multiset{0, 1};
    assert made[0] == NewCall(SwappedBefore(), prov, true, parsed, 0);
    assert made[1] == NewCall(SwappedBefore(), prov, true, parsed, 1);
  }

  /** A parser that reports the blocks in swapped order: attached, bound, executed, joined, and refused by call credit. */
  method SwappedPath(tok: Tokenizer) returns (c: Credit)
    requires MarkerIds(tok) == Some((7, 8))
    ensures c.eligible && c.spans == Some([(2, 4), (0, 2)])
    ensures !CallCredit.CallSpansOk([(2, 4), (0, 2)], (0, 4), [1, 1, 1, 1])
  {
    hide Valid, Built, IsScan, MisplacedBefore, SourcesMatch, Attached;
    var attribution := new Attribution.Begin(SwappedTokens(), 0, tok);
    SwappedScan(attribution.blocks);
    assert attribution.View() == SwappedBefore();
    var text := tok.decode([7, 8]);
    var prov, parsed := Provenance("parsed", [1, 0], [text, text]), [ParsedCall("find", ""), ParsedCall("book", "")];
    SwappedMatches(prov, parsed, tok.decode);
    var ok := attribution.AttachSources(prov, parsed, tok.decode);
    SwappedAttached(prov, parsed, attribution.calls);
    attribution.BindIds([Some("a"), Some("b")]);
    attribution.RecordResult(0, false, None);
    attribution.RecordResult(1, false, None);
    assert attribution.calls == Swapped().calls;
    c := JoinSwapped(attribution.View());
  }

  lemma SwappedReceipts(find: Paid, book: Paid)
    requires find.event == Event(Some("a"), "find", "", false, None) && book.event == Event(Some("b"), "book", "", false, None)
    ensures Receipts(Swapped().calls, [find, book])
  {
    var calls, paid := Swapped().calls, [find, book];
    assert calls == [calls[0], calls[1]] && calls[..1] == [calls[0]];
    AllExecuted(calls);
    assert KnownIds(calls) == ["a", "b"];
    assert paid[0] == find && paid[1] == book && EventsOf(paid) == [find.event, book.event];
    assert PaidIds(paid) == {"a", "b"};
    assert CallIds(calls) == {Some("a"), Some("b")};
  }

  lemma SwappedJoins(p: Process, f: Fact, find: Paid, book: Paid)
    requires find.event == Event(Some("a"), "find", "", false, None) && book.event == Event(Some("b"), "book", "", false, None)
    requires p.turns == [PaidTurn(0, (0, 4), 3.0, [find, book])] && p.spans == [(0, 4)] && p.rewards == [3.0]
    requires f == Fact(0, (0, 4), Some(Published(Swapped(), (0, 4), true)), [find.event, book.event])
    ensures TurnJoins(p, 0, f, SwappedTokens(), [1, 1, 1, 1], {})
  {
    SwappedFact(f);
    SwappedReceipts(find, book);
    hide Receipts, AttributionMatches, Swapped;
    assert EventsOf([find, book]) == f.events;
  }

  lemma SwappedFact(f: Fact)
    requires f.span == (0, 4) && f.attribution == Some(Published(Swapped(), (0, 4), true))
    ensures AttributionMatches(f, SwappedTokens(), [1, 1, 1, 1])
  {
    SwappedSourcesRefused();
    hide Locates, CallCredit.CallSpansOk, ExecutedCalls;
  }

  method JoinSwapped(r: Record) returns (c: Credit)
    requires r == Swapped()
    ensures c.eligible && c.spans == Some([(2, 4), (0, 2)])
    ensures !CallCredit.CallSpansOk([(2, 4), (0, 2)], (0, 4), [1, 1, 1, 1])
  {
    var find, book := Event(Some("a"), "find", "", false, None), Event(Some("b"), "book", "", false, None);
    var calls := [Paid(find, 1.0), Paid(book, 2.0)];
    var p := Process("t", [PaidTurn(0, (0, 4), 3.0, calls)], [(0, 4)], [3.0], true, "sum");
    var f := Fact(0, (0, 4), Some(Published(r, (0, 4), true)), [find, book]);
    SwappedJoins(p, f, calls[0], calls[1]);
    SwappedSourcesRefused();
    hide TurnJoins, Built, TurnEligible, CallCredit.CallSpansOk;
    var joined, seen := JoinTurn(p, 0, f, SwappedTokens(), [1, 1, 1, 1], {});
    c := joined.value;
    SwappedPlaces(c.spans.value);
  }

  lemma SwappedPlaces(spans: seq<Span>)
    requires Locates(spans, Swapped(), 4)
    ensures spans == [(2, 4), (0, 2)]
  {
    SwappedAll();
    hide ExecutedCalls;
  }
}
