/** Pairing recorded calls with responses turn by turn, and its agreement with the replay. */
module TurnPairing {
  import opened Common
  import opened Replay

  datatype Outcome = Outcome(id: string, error: bool)

  /** `errors` is what the tool responses stored on the call events, looked up by identity. */
  datatype Pairing = Pairing(turns: seq<seq<string>>, pending: seq<string>, seen: set<string>, errors: map<string, bool>, failed: bool)

  /** Opens a turn: every call needs a fresh identity, the right requestor and structured arguments. */
  function Collect(p: Pairing, calls: seq<Call>): Pairing
    requires p.turns != []
    ensures |Collect(p, calls).turns| == |p.turns|
  {
    if calls == [] then p
    else
      var before, call := Collect(p, calls[..|calls| - 1]), calls[|calls| - 1];
      var n := |before.turns| - 1;
      if before.failed then before
      else if call.id.None? || call.id.value == "" || call.id.value in before.seen || !call.fromAssistant || !call.structured then
        before.(failed := true)
      else
        before.(turns := before.turns[n := before.turns[n] + [call.id.value]], pending := before.pending + [call.id.value],
                seen := before.seen + {call.id.value})
  }

  function PairStep(p: Pairing, raw: Message): Pairing {
    match raw
    case Assistant(calls) =>
      if p.pending != [] then p.(failed := true) else Collect(p.(turns := p.turns + [[]]), calls)
    case Tool(id, _, fromAssistant, error, content) =>
      if !fromAssistant || id.None? || p.pending == [] || id.value != p.pending[0] || error.None? || content.None? then
        p.(failed := true)
      else p.(pending := p.pending[1..], errors := p.errors[id.value := error.value])
    case User(_) => p.(failed := p.pending != [])
    case System => p.(failed := true)
    case Other => p.(failed := true)
  }

  const NOTHING := Pairing([], [], {}, map[], false)

  function PairRun(messages: seq<Message>, n: nat): Pairing
    requires n <= |messages|
  {
    if n == 0 then NOTHING
    else
      var p := PairRun(messages, n - 1);
      if p.failed then p else PairStep(p, messages[n - 1])
  }

  function Outcomes(ids: seq<string>, errors: map<string, bool>): seq<Outcome> {
    seq(|ids|, i requires 0 <= i < |ids| => Outcome(ids[i], ids[i] in errors && errors[ids[i]]))
  }

  function OutcomeRows(turns: seq<seq<string>>, errors: map<string, bool>): seq<seq<Outcome>> {
    seq(|turns|, k requires 0 <= k < |turns| => Outcomes(turns[k], errors))
  }

  function TurnsOf(p: Pairing): seq<seq<Outcome>> {
    OutcomeRows(p.turns, p.errors)
  }

  lemma {:induction false} PairFailedStays(messages: seq<Message>, k: nat, n: nat)
    requires k <= n <= |messages| && PairRun(messages, k).failed
    ensures PairRun(messages, n).failed
  {
    if k < n {
      PairFailedStays(messages, k, n - 1);
    }
  }

  // ---- which transcripts are accepted ----

  /** A complete response to one call. */
  predicate Answers(raw: Message, call: Call) {
    raw.Tool? && raw.fromAssistant && raw.id.Some? && raw.id == call.id && raw.error.Some? && raw.content.Some?
  }

  function CallIds(calls: seq<Call>): seq<string> {
    seq(|calls|, j requires 0 <= j < |calls| => if calls[j].id.Some? then calls[j].id.value else "")
  }

  /** The identities of all calls in the first `n` messages. */
  function IdsBefore(messages: seq<Message>, n: nat): set<string>
    requires n <= |messages|
  {
    if n == 0 then {}
    else IdsBefore(messages, n - 1) + if messages[n - 1].Assistant? then Elements(CallIds(messages[n - 1].calls)) else {}
  }

  /** Structured calls of the assistant whose identities are present, different and not in `used`. */
  ghost predicate FreshCalls(calls: seq<Call>, used: set<string>) {
    && (forall j :: 0 <= j < |calls| ==>
        calls[j].id.Some? && calls[j].id.value != "" && calls[j].id.value !in used && calls[j].fromAssistant && calls[j].structured)
    && forall i, j :: 0 <= i < j < |calls| ==> calls[i].id != calls[j].id
  }

  /** Message `i` is the place of a response to one of the calls of message `a`. */
  predicate SlotOf(messages: seq<Message>, a: nat, i: nat) {
    a < i && a < |messages| && messages[a].Assistant? && i <= a + |messages[a].calls|
  }

  /** Message `i` is as it should be, judged by the first `n` messages. */
  ghost predicate Fits(messages: seq<Message>, i: nat, n: nat)
    requires i < n <= |messages|
  {
    match messages[i]
    case Assistant(calls) =>
      && FreshCalls(calls, IdsBefore(messages, i))
      && forall j :: 0 <= j < |calls| && i + 1 + j < n ==> Answers(messages[i + 1 + j], calls[j])
    case Tool(_, _, _, _, _) => exists a: nat :: SlotOf(messages, a, i)
    case User(_) => true
    case System => false
    case Other => false
  }

  ghost predicate AllFit(messages: seq<Message>, n: nat)
    requires n <= |messages|
  {
    forall i: nat :: i < n ==> Fits(messages, i, n)
  }

  /**
   * Some assistant message; k fresh calls are followed at once by exactly their k responses, in order; no other
   * tool message, and no message of another kind, occurs.
   */
  ghost predicate Complete(messages: seq<Message>) {
    && AllFit(messages, |messages|)
    && (exists i :: 0 <= i < |messages| && messages[i].Assistant?)
    && forall i :: 0 <= i < |messages| && messages[i].Assistant? ==> i + |messages[i].calls| < |messages|
  }

  function LastAssistant(messages: seq<Message>, n: nat): (a: int)
    requires n <= |messages|
    ensures -1 <= a < n
    ensures a >= 0 ==> messages[a].Assistant?
    ensures forall i :: a < i < n ==> !messages[i].Assistant?
  {
    if n == 0 then -1 else if messages[n - 1].Assistant? then n - 1 else LastAssistant(messages, n - 1)
  }

  /** The identities still to be answered after `n` messages. */
  function Due(messages: seq<Message>, n: nat): seq<string>
    requires n <= |messages|
  {
    var a := LastAssistant(messages, n);
    if a < 0 || |messages[a].calls| < n - a - 1 then [] else CallIds(messages[a].calls)[n - a - 1..]
  }

  lemma CollectNext(p: Pairing, calls: seq<Call>, call: Call)
    requires p.turns != []
    ensures var before, after := Collect(p, calls), Collect(p, calls + [call]);
      && |before.turns| == |after.turns| == |p.turns|
      && (after.failed <==> before.failed || call.id.None? || call.id.value == "" || call.id.value in before.seen
                            || !call.fromAssistant || !call.structured)
      && (!after.failed ==> after.pending == before.pending + [call.id.value] && after.seen == before.seen + {call.id.value})
  {
    assert (calls + [call])[..|calls|] == calls;
  }

  lemma CallIdsNext(calls: seq<Call>, call: Call)
    ensures call.id.Some? ==> CallIds(calls + [call]) == CallIds(calls) + [call.id.value]
    ensures call.id.Some? ==> Elements(CallIds(calls + [call])) == Elements(CallIds(calls)) + {call.id.value}
  {
    if call.id.Some? {
      assert CallIds(calls + [call]) == CallIds(calls) + [call.id.value];
    }
  }

  lemma NoCalls(p: Pairing)
    requires p.turns != []
    ensures Collect(p, []) == p && CallIds([]) == [] && Elements(CallIds([])) == {} && FreshCalls([], p.seen)
  {
  }

  /** What opening a turn with these calls does. */
  ghost predicate Opens(p: Pairing, calls: seq<Call>, q: Pairing) {
    && (!q.failed <==> FreshCalls(calls, p.seen))
    && (!q.failed ==> q.pending == p.pending + CallIds(calls) && q.seen == p.seen + Elements(CallIds(calls)))
  }

  lemma {:induction false} CollectIff(p: Pairing, calls: seq<Call>)
    requires p.turns != [] && !p.failed
    ensures Opens(p, calls, Collect(p, calls))
  {
    hide Collect, CallIds, Elements, FreshCalls;
    NoCalls(p);
    if calls != [] {
      var init, call := calls[..|calls| - 1], calls[|calls| - 1];
      assert calls == init + [call];
      CollectIff(p, init);
      CollectNext(p, init, call);
      CallIdsNext(init, call);
      FreshNext(init, call, p.seen);
      AppendSnoc(p.pending, CallIds(init), if call.id.Some? then call.id.value else "");
    }
  }

  lemma FreshNext(calls: seq<Call>, call: Call, used: set<string>)
    ensures FreshCalls(calls + [call], used)
       <==> (FreshCalls(calls, used) && call.id.Some? && call.id.value != "" && call.fromAssistant && call.structured
             && call.id.value !in used + Elements(CallIds(calls)))
  {
    var all, ids := calls + [call], CallIds(calls);
    assert all[|calls|] == call && forall j :: 0 <= j < |calls| ==> all[j] == calls[j];
    if FreshCalls(all, used) {
      forall i, j | 0 <= i < j < |calls| ensures calls[i].id != calls[j].id {
        assert all[i].id != all[j].id;
      }
      forall j | 0 <= j < |calls| ensures ids[j] != call.id.value {
        assert all[j].id != all[|calls|].id;
      }
    } else if FreshCalls(calls, used) && call.id.Some? && call.id.value !in used + Elements(ids) {
      forall j | 0 <= j < |calls| ensures calls[j].id != call.id {
        assert ids[j] in Elements(ids);
      }
    }
  }

  /** Batches are over before the next assistant message. */
  lemma BatchOver(messages: seq<Message>, n: nat, i: nat)
    requires n <= |messages| && AllFit(messages, n) && i < n && messages[i].Assistant? && i < LastAssistant(messages, n)
    ensures i + |messages[i].calls| < LastAssistant(messages, n)
  {
    var a, calls := LastAssistant(messages, n), messages[i].calls;
    assert Fits(messages, i, n);
    hide AllFit, FreshCalls, IdsBefore;
    assert a - i - 1 < |calls| ==> Answers(messages[i + 1 + (a - i - 1)], calls[a - i - 1]);
  }

  /** Only the last assistant message can still wait for responses, and the next one due is in the next place. */
  lemma DueSlot(messages: seq<Message>, n: nat)
    requires n < |messages| && AllFit(messages, n)
    ensures var a := LastAssistant(messages, n);
      && (forall i: nat :: SlotOf(messages, i, n) ==> i == a)
      && (Due(messages, n) != [] <==> a >= 0 && SlotOf(messages, a, n))
      && (Due(messages, n) != [] ==> messages[a].calls[n - a - 1].id == Some(Due(messages, n)[0]))
  {
    var a := LastAssistant(messages, n);
    forall i: nat | SlotOf(messages, i, n) ensures i == a {
      if i < a {
        BatchOver(messages, n, i);
      }
    }
    if a >= 0 {
      assert Fits(messages, a, n);
    }
  }

  /** One more message. */
  lemma FitNext(messages: seq<Message>, n: nat)
    requires n < |messages|
    ensures AllFit(messages, n + 1)
      <==> (AllFit(messages, n) && Fits(messages, n, n + 1)
            && forall a: nat :: SlotOf(messages, a, n) ==> Answers(messages[n], messages[a].calls[n - a - 1]))
  {
    hide FreshCalls, IdsBefore, Answers;
    if AllFit(messages, n + 1) {
      forall i: nat | i < n ensures Fits(messages, i, n) {
        assert Fits(messages, i, n + 1);
      }
      forall a: nat | SlotOf(messages, a, n) ensures Answers(messages[n], messages[a].calls[n - a - 1]) {
        assert Fits(messages, a, n + 1);
        assert a + 1 + (n - a - 1) == n;
      }
    } else if AllFit(messages, n) && Fits(messages, n, n + 1) {
      var i: nat :| i <= n && !Fits(messages, i, n + 1);
      assert Fits(messages, i, n);
      var j :| 0 <= j < |messages[i].calls| && i + 1 + j < n + 1 && !Answers(messages[i + 1 + j], messages[i].calls[j]);
      assert SlotOf(messages, i, n);
    }
  }

  /** What the pairing knows after `n` messages, if they fit. */
  ghost predicate Tracks(messages: seq<Message>, n: nat, p: Pairing)
    requires n <= |messages|
  {
    && (!p.failed <==> AllFit(messages, n))
    && (!p.failed ==> p.pending == Due(messages, n) && p.seen == IdsBefore(messages, n)
                      && (p.turns != [] <==> LastAssistant(messages, n) >= 0))
  }

  ghost predicate Ready(messages: seq<Message>, n: nat, p: Pairing)
    requires n < |messages|
  {
    var a := LastAssistant(messages, n);
    && !p.failed && Tracks(messages, n, p)
    && (AllFit(messages, n + 1)
        <==> (Fits(messages, n, n + 1)
              && forall a: nat :: SlotOf(messages, a, n) ==> Answers(messages[n], messages[a].calls[n - a - 1])))
    && (forall i: nat :: SlotOf(messages, i, n) ==> i == a)
    && (Due(messages, n) != [] <==> a >= 0 && SlotOf(messages, a, n))
    && (Due(messages, n) != [] ==> messages[a].calls[n - a - 1].id == Some(Due(messages, n)[0]))
  }

  /** One more message keeps a failed pairing failed for a reason, and readies a running one. */
  lemma NextReady(messages: seq<Message>, n: nat, p: Pairing)
    requires n < |messages| && Tracks(messages, n, p)
    ensures if p.failed then Tracks(messages, n + 1, p) else Ready(messages, n, p)
  {
    hide AllFit, Fits, Answers, Due, IdsBefore, SlotOf, LastAssistant;
    FitNext(messages, n);
    if !p.failed {
      DueSlot(messages, n);
    }
  }

  lemma TracksStart(messages: seq<Message>)
    ensures Tracks(messages, 0, PairRun(messages, 0))
  {
  }

  lemma TracksNext(messages: seq<Message>, n: nat, p: Pairing)
    requires n < |messages| && Tracks(messages, n, p)
    ensures Tracks(messages, n + 1, if p.failed then p else PairStep(p, messages[n]))
  {
    hide Tracks, Ready, PairStep;
    NextReady(messages, n, p);
    if !p.failed {
      match messages[n]
      case Assistant(calls) => OpenTracks(messages, n, p);
      case Tool(_, _, _, _, _) => AnswerTracks(messages, n, p);
      case _ => OtherTracks(messages, n, p);
    }
  }

  /** The pairing goes on exactly as long as the messages fit. */
  lemma {:induction false} PairRunTracks(messages: seq<Message>, n: nat)
    requires n <= |messages|
    ensures Tracks(messages, n, PairRun(messages, n))
  {
    hide Tracks, PairStep;
    if n == 0 {
      TracksStart(messages);
    } else {
      PairRunTracks(messages, n - 1);
      TracksNext(messages, n - 1, PairRun(messages, n - 1));
    }
  }

  lemma OpenTracks(messages: seq<Message>, n: nat, p: Pairing)
    requires n < |messages| && Ready(messages, n, p) && messages[n].Assistant?
    ensures Tracks(messages, n + 1, PairStep(p, messages[n]))
  {
    var calls := messages[n].calls;
    var turned := p.(turns := p.turns + [[]]);
    CollectIff(turned, calls);
    hide AllFit, Collect, FreshCalls, CallIds, Elements;
    assert p.pending + CallIds(calls) == (if p.pending == [] then CallIds(calls) else p.pending + CallIds(calls));
    assert CallIds(calls)[0..] == CallIds(calls);
    if Due(messages, n) != [] {
      assert SlotOf(messages, LastAssistant(messages, n), n);
    }
  }

  lemma SameIds(messages: seq<Message>, n: nat)
    requires n < |messages| && !messages[n].Assistant?
    ensures IdsBefore(messages, n + 1) == IdsBefore(messages, n) && LastAssistant(messages, n + 1) == LastAssistant(messages, n)
  {
    hide CallIds, Elements;
  }

  /** A response takes one identity off the list; without one due nothing changes. */
  lemma DueNext(messages: seq<Message>, n: nat)
    requires n < |messages| && !messages[n].Assistant?
    ensures Due(messages, n + 1) == if Due(messages, n) == [] then [] else Due(messages, n)[1..]
  {
    SameIds(messages, n);
    var a := LastAssistant(messages, n);
    hide IdsBefore, LastAssistant;
    if a >= 0 {
      var ids := CallIds(messages[a].calls);
      assert |ids| == |messages[a].calls|;
      hide CallIds;
      if n - a - 1 < |ids| {
        assert ids[n - a - 1..][1..] == ids[n - a..];
      }
    }
  }

  lemma AnswerTracks(messages: seq<Message>, n: nat, p: Pairing)
    requires n < |messages| && Ready(messages, n, p) && messages[n].Tool?
    ensures Tracks(messages, n + 1, PairStep(p, messages[n]))
  {
    hide AllFit, IdsBefore, Due, LastAssistant, FreshCalls, Collect;
    DueNext(messages, n);
    SameIds(messages, n);
    var a := LastAssistant(messages, n);
    assert Fits(messages, n, n + 1) <==> exists i: nat :: SlotOf(messages, i, n);
    hide Fits;
    if p.pending != [] {
      assert SlotOf(messages, a, n);
      assert AllFit(messages, n + 1) <==> Answers(messages[n], messages[a].calls[n - a - 1]);
    } else {
      assert !AllFit(messages, n + 1);
    }
  }

  lemma OtherTracks(messages: seq<Message>, n: nat, p: Pairing)
    requires n < |messages| && Ready(messages, n, p) && !messages[n].Tool? && !messages[n].Assistant?
    ensures Tracks(messages, n + 1, PairStep(p, messages[n]))
  {
    hide AllFit, IdsBefore, Due, LastAssistant, FreshCalls, Collect;
    DueNext(messages, n);
    SameIds(messages, n);
    assert Fits(messages, n, n + 1) <==> messages[n].User?;
    hide Fits;
    if p.pending != [] {
      assert SlotOf(messages, LastAssistant(messages, n), n);
      assert !AllFit(messages, n + 1);
    }
  }

  /** Every batch is over exactly if the last one is. */
  lemma BatchesEnd(messages: seq<Message>)
    requires AllFit(messages, |messages|)
    ensures Complete(messages)
      <==> (LastAssistant(messages, |messages|) >= 0
            && var a := LastAssistant(messages, |messages|); a + |messages[a].calls| < |messages|)
  {
    hide AllFit;
    var a := LastAssistant(messages, |messages|);
    forall i: nat | i < a && messages[i].Assistant? ensures i + |messages[i].calls| < a {
      BatchOver(messages, |messages|, i);
    }
    hide LastAssistant;
  }

  /** Accepted are exactly the complete transcripts. */
  lemma AcceptedIffComplete(messages: seq<Message>)
    ensures var p := PairRun(messages, |messages|);
      !p.failed && p.pending == [] && p.turns != [] <==> Complete(messages)
  {
    assert Complete(messages) ==> AllFit(messages, |messages|);
    hide *;
    PairRunTracks(messages, |messages|);
    if AllFit(messages, |messages|) {
      BatchesEnd(messages);
    }
    LastDue(messages);
    TracksMeans(messages, PairRun(messages, |messages|));
  }

  lemma LastDue(messages: seq<Message>)
    ensures var n := |messages|;
      var a := LastAssistant(messages, n);
      a >= 0 ==> (Due(messages, n) == [] <==> a + |messages[a].calls| < n)
  {
    hide LastAssistant;
  }

  lemma TracksMeans(messages: seq<Message>, p: Pairing)
    requires Tracks(messages, |messages|, p)
    ensures !p.failed && p.pending == [] && p.turns != []
      <==> (AllFit(messages, |messages|) && Due(messages, |messages|) == [] && LastAssistant(messages, |messages|) >= 0)
  {
    hide AllFit, Due, LastAssistant, IdsBefore;
  }

  method SimulationTurns(messages: seq<Message>) returns (r: Result<seq<seq<Outcome>>>)
    ensures var p := PairRun(messages, |messages|);
      && (r.Ok? <==> !p.failed && p.pending == [] && p.turns != [])
      && (r.Ok? ==> r.value == TurnsOf(p))
    ensures r.Ok? <==> Complete(messages)
  {
    AcceptedIffComplete(messages);
    hide Complete;
    var p := NOTHING;
    for n := 0 to |messages|
      invariant p == PairRun(messages, n) && !p.failed
    {
      match messages[n] {
        case Assistant(calls) =>
          if p.pending != [] {
            PairFailedStays(messages, n + 1, |messages|);
            return Rejected;
          }
          p := CollectCalls(p.(turns := p.turns + [[]]), calls);
        case _ =>
          p := PairStep(p, messages[n]);
      }
      if p.failed {
        PairFailedStays(messages, n + 1, |messages|);
        return Rejected;
      }
    }
    r := if p.pending != [] || p.turns == [] then Rejected else Ok(TurnsOf(p));
  }

  method CollectCalls(before: Pairing, calls: seq<Call>) returns (p: Pairing)
    requires before.turns != [] && !before.failed
    ensures p == Collect(before, calls)
  {
    p := before;
    for i := 0 to |calls|
      invariant p == Collect(before, calls[..i]) && !p.failed
    {
      var call, n := calls[i], |p.turns| - 1;
      assert calls[..i + 1][..i] == calls[..i];
      if call.id.None? || call.id.value == "" || call.id.value in p.seen || !call.fromAssistant || !call.structured {
        p := p.(failed := true);
        CollectFailed(before, calls, i + 1);
        return;
      }
      p := p.(turns := p.turns[n := p.turns[n] + [call.id.value]], pending := p.pending + [call.id.value],
              seen := p.seen + {call.id.value});
    }
    assert calls[..|calls|] == calls;
  }

  lemma {:induction false} CollectFailed(p: Pairing, calls: seq<Call>, n: nat)
    requires p.turns != [] && n <= |calls| && Collect(p, calls[..n]).failed
    ensures Collect(p, calls) == Collect(p, calls[..n])
    decreases |calls|
  {
    if n == |calls| {
      assert calls[..n] == calls;
    } else {
      var last := |calls| - 1;
      assert calls[..last][..n] == calls[..n];
      CollectFailed(p, calls[..last], n);
    }
  }

  // ---- agreement with the replay ----

  function Flatten<T>(rows: seq<seq<T>>): seq<T> {
    if rows == [] then [] else Flatten(rows[..|rows| - 1]) + rows[|rows| - 1]
  }

  /** The identities of all turns are the answered ones, then the pending ones, all different. */
  ghost predicate Paired(p: Pairing, answered: seq<Outcome>) {
    && Flatten(p.turns) == IdsOf(answered) + p.pending
    && Distinct(IdsOf(answered) + p.pending)
    && (forall x :: x in IdsOf(answered) + p.pending ==> x in p.seen && x != "")
    && (forall k :: 0 <= k < |answered| ==> answered[k].id in p.errors && p.errors[answered[k].id] == answered[k].error)
  }

  function IdsOf(answered: seq<Outcome>): seq<string> {
    seq(|answered|, i requires 0 <= i < |answered| => answered[i].id)
  }

  /** The replay's events, as identity and error flag. */
  function OutcomesOf(events: seq<Event>): seq<Outcome> {
    seq(|events|, i requires 0 <= i < |events| => Outcome(events[i].id, events[i].error))
  }

  lemma FlattenExtend<T>(rows: seq<seq<T>>, x: T)
    requires rows != []
    ensures Flatten(rows[|rows| - 1 := rows[|rows| - 1] + [x]]) == Flatten(rows) + [x]
  {
    var n := |rows| - 1;
    assert rows[n := rows[n] + [x]][..n] == rows[..n];
  }

  lemma DistinctSnoc<T>(xs: seq<T>, x: T)
    requires Distinct(xs) && x !in xs
    ensures Distinct(xs + [x])
  {
    forall i, j | 0 <= i < j < |xs| + 1 ensures (xs + [x])[i] != (xs + [x])[j] {
      assert xs[i] in xs;
    }
  }

  lemma {:induction false} CollectPaired(p: Pairing, calls: seq<Call>, answered: seq<Outcome>)
    requires p.turns != [] && Paired(p, answered)
    ensures !Collect(p, calls).failed ==> Paired(Collect(p, calls), answered)
  {
    if calls != [] {
      var init := calls[..|calls| - 1];
      CollectPaired(p, init, answered);
      var before, after := Collect(p, init), Collect(p, calls);
      if !after.failed {
        var x := calls[|calls| - 1].id.value;
        FlattenExtend(before.turns, x);
        DistinctSnoc(IdsOf(answered) + before.pending, x);
        assert IdsOf(answered) + (before.pending + [x]) == (IdsOf(answered) + before.pending) + [x];
      }
    }
  }

  lemma ToolPaired(p: Pairing, raw: Message, answered: seq<Outcome>)
    requires raw.Tool? && Paired(p, answered) && !PairStep(p, raw).failed
    ensures raw.id.Some? && raw.id.value != "" && raw.error.Some?
    ensures Paired(PairStep(p, raw), answered + [Outcome(raw.id.value, raw.error.value)])
  {
    var x, ids := Outcome(raw.id.value, raw.error.value), IdsOf(answered);
    var rest := p.pending[1..];
    assert p.pending == [x.id] + rest && IdsOf(answered + [x]) == ids + [x.id];
    assert ids + p.pending == IdsOf(answered + [x]) + rest;
    assert (ids + p.pending)[|answered|] == x.id && x.id in ids + p.pending;
    forall k | 0 <= k < |answered| ensures answered[k].id != x.id {
      assert (ids + p.pending)[k] == answered[k].id;
    }
  }

  /** While both machines accept, the replay's events are what the pairing has recorded. */
  lemma {:induction false} MachinesAgree<S>(env: Env<S>, db: S, messages: seq<Message>, n: nat)
    requires n <= |messages| && !Run(env, db, messages, n).failed && !PairRun(messages, n).failed
    ensures Paired(PairRun(messages, n), OutcomesOf(Run(env, db, messages, n).events))
  {
    hide *;
    if n == 0 {
      NothingPaired(env, db, messages);
    } else {
      RunNext(env, db, messages, n);
      MachinesAgree(env, db, messages, n - 1);
      StepsAgree(env, Run(env, db, messages, n - 1), PairRun(messages, n - 1), n - 1, messages[n - 1]);
    }
  }

  lemma NothingPaired<S>(env: Env<S>, db: S, messages: seq<Message>)
    ensures Paired(PairRun(messages, 0), OutcomesOf(Run(env, db, messages, 0).events))
  {
  }

  lemma RunNext<S>(env: Env<S>, db: S, messages: seq<Message>, n: nat)
    requires 0 < n <= |messages| && !Run(env, db, messages, n).failed && !PairRun(messages, n).failed
    ensures !Run(env, db, messages, n - 1).failed && !PairRun(messages, n - 1).failed
    ensures Run(env, db, messages, n) == Step(env, Run(env, db, messages, n - 1), n - 1, messages[n - 1])
    ensures PairRun(messages, n) == PairStep(PairRun(messages, n - 1), messages[n - 1])
  {
    hide Step, PairStep;
  }

  lemma StepsAgree<S>(env: Env<S>, m: Machine<S>, p: Pairing, index: nat, raw: Message)
    requires Paired(p, OutcomesOf(m.events)) && !p.failed && !m.failed
    requires !Step(env, m, index, raw).failed && !PairStep(p, raw).failed
    ensures Paired(PairStep(p, raw), OutcomesOf(Step(env, m, index, raw).events))
  {
    var before := OutcomesOf(m.events);
    hide Paired, Collect;
    if raw.Tool? {
      ToolPaired(p, raw, before);
      ToolEffect(env, m, index, raw);
      assert OutcomesOf(Step(env, m, index, raw).events) == before + [Outcome(raw.id.value, raw.error.value)];
    } else if raw.Assistant? {
      AssistantEffect(env, m, index, raw);
      hide Step;
      OpenPaired(p, before);
      CollectPaired(p.(turns := p.turns + [[]]), raw.calls, before);
    }
  }

  lemma OpenPaired(p: Pairing, answered: seq<Outcome>)
    requires Paired(p, answered)
    ensures Paired(p.(turns := p.turns + [[]]), answered)
  {
    assert (p.turns + [[]])[..|p.turns|] == p.turns;
    assert Flatten(p.turns) + [] == Flatten(p.turns);
  }

  lemma {:induction false} FlattenOutcomes(turns: seq<seq<string>>, errors: map<string, bool>)
    ensures Flatten(OutcomeRows(turns, errors)) == Outcomes(Flatten(turns), errors)
  {
    if turns != [] {
      var init := turns[..|turns| - 1];
      FlattenOutcomes(init, errors);
      assert OutcomeRows(turns, errors)[..|turns| - 1] == OutcomeRows(init, errors);
    }
  }

  lemma AllAnswered(p: Pairing, answered: seq<Outcome>)
    requires Paired(p, answered) && p.pending == []
    ensures Outcomes(Flatten(p.turns), p.errors) == answered
  {
    assert Flatten(p.turns) == IdsOf(answered);
  }

  /** On a transcript both accept, the turns flatten to the replay's events: the same identities and error flags, in order. */
  lemma SameOutcomes<S>(env: Env<S>, db: S, messages: seq<Message>)
    requires ReportOf(Run(env, db, messages, |messages|)).status == Verified
    requires !PairRun(messages, |messages|).failed && PairRun(messages, |messages|).pending == []
    ensures Flatten(TurnsOf(PairRun(messages, |messages|))) == OutcomesOf(Run(env, db, messages, |messages|).events)
  {
    var p, answered := PairRun(messages, |messages|), OutcomesOf(Run(env, db, messages, |messages|).events);
    MachinesAgree(env, db, messages, |messages|);
    hide Paired, PairRun, Run;
    FlattenOutcomes(p.turns, p.errors);
    AllAnswered(p, answered);
  }
}
