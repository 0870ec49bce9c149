/** Exactly which recorded message lists replay, told from the messages and the environment alone. */
module ReplayOutcomes {
  import opened Common
  import opened Replay

  /** How many tool responses the messages hold. */
  function ToolCount(messages: seq<Message>): nat {
    if messages == [] then 0
    else ToolCount(messages[..|messages| - 1]) + if messages[|messages| - 1].Tool? then 1 else 0
  }

  /** Named, non-empty, issued by the assistant, and different from each other and from all earlier calls. */
  ghost predicate NewCalls(calls: seq<Call>, earlier: seq<Call>) {
    && (forall j :: 0 <= j < |calls| ==> calls[j].id.Some? && calls[j].id != Some("") && calls[j].fromAssistant)
    && (forall i, j :: 0 <= i < |earlier| && 0 <= j < |calls| ==> earlier[i].id != calls[j].id)
    && (forall i, j :: 0 <= i < j < |calls| ==> calls[i].id != calls[j].id)
  }

  /** The response names the call by `id`, or by `tool_call_id` where it has no `id`. */
  ghost predicate Names(id: Option<string>, toolCallId: Option<string>, call: Call) {
    call.id == if id == None || id == Some("") then toolCallId else id
  }

  /** The environment gives the recorded answer to the call. */
  ghost predicate Confirms<S>(env: Env<S>, now: S, call: Call, error: Option<bool>, content: Option<string>) {
    match env.respond(now, call)
    case Raises => false
    case Answer(_, answered, wrong, said) =>
      answered == call.id && (wrong <==> error == Some(true)) && env.normalize(said) == env.normalize(content)
  }

  /** Message `i` fits what was issued, answered and executed before it. */
  ghost predicate Plays<S>(env: Env<S>, db: S, messages: seq<Message>, i: nat)
    requires i < |messages|
  {
    var issued, done := CallsIn(messages[..i]), ToolCount(messages[..i]);
    && done <= |issued| && Execute(env, db, issued[..done]).Some?
    && var now := Execute(env, db, issued[..done]).value;
       match messages[i]
       case Assistant(calls) => done == |issued| && env.hash(now).Some? && NewCalls(calls, issued)
       case Tool(id, toolCallId, fromAssistant, error, content) =>
         && done < |issued| && issued[done].id.Some? && fromAssistant
         && Names(id, toolCallId, issued[done]) && Confirms(env, now, issued[done], error, content)
       case User(hasCalls) => done == |issued| && !hasCalls
       case System => done == |issued|
       case Other => false
  }

  // ---- queueing ----

  ghost predicate UsedAre(used: set<string>, calls: seq<Call>) {
    forall x :: x in used <==> exists i :: 0 <= i < |calls| && calls[i].id == Some(x)
  }

  /** Call `n` is new after the earlier calls and the first `n` of its batch. */
  ghost predicate NextNew(calls: seq<Call>, earlier: seq<Call>, n: nat)
    requires n < |calls|
  {
    && calls[n].id.Some? && calls[n].id != Some("") && calls[n].fromAssistant
    && (forall i :: 0 <= i < |earlier| ==> earlier[i].id != calls[n].id)
    && (forall i :: 0 <= i < n ==> calls[i].id != calls[n].id)
  }

  lemma NewCallsSnoc(calls: seq<Call>, earlier: seq<Call>, n: nat)
    requires n < |calls|
    ensures NewCalls(calls[..n + 1], earlier) <==> NewCalls(calls[..n], earlier) && NextNew(calls, earlier, n)
  {
    assert forall i :: 0 <= i < n ==> calls[..n + 1][i] == calls[i] == calls[..n][i];
    assert calls[..n + 1][n] == calls[n];
  }

  lemma UsedSnoc(used: set<string>, calls: seq<Call>, call: Call)
    requires UsedAre(used, calls) && call.id.Some?
    ensures UsedAre(used + {call.id.value}, calls + [call])
  {
    forall x ensures x in used + {call.id.value} <==> exists i :: 0 <= i < |calls + [call]| && (calls + [call])[i].id == Some(x) {
      if x in used {
        var i :| 0 <= i < |calls| && calls[i].id == Some(x);
        assert (calls + [call])[i].id == Some(x);
      }
      if x == call.id.value {
        assert (calls + [call])[|calls|].id == Some(x);
      }
    }
  }

  lemma EnqueueSnoc<S>(m: Machine<S>, calls: seq<Call>, n: nat)
    requires n < |calls|
    ensures var before, call, after := Enqueue(m, calls[..n]), calls[n], Enqueue(m, calls[..n + 1]);
      && (!after.failed <==> !before.failed && call.id.Some? && call.id != Some("") && call.id.value !in before.used && call.fromAssistant)
      && (!after.failed ==> after.used == before.used + {call.id.value})
  {
    assert calls[..n + 1][..n] == calls[..n];
  }

  lemma EnqueueNone<S>(m: Machine<S>, calls: seq<Call>, earlier: seq<Call>)
    requires !m.failed && UsedAre(m.used, earlier)
    ensures !Enqueue(m, calls[..0]).failed && NewCalls(calls[..0], earlier) && UsedAre(Enqueue(m, calls[..0]).used, earlier + calls[..0])
  {
    assert earlier + calls[..0] == earlier;
  }

  /** A batch is queued exactly if all its calls are new. */
  lemma {:induction false} EnqueueIff<S>(m: Machine<S>, calls: seq<Call>, n: nat, earlier: seq<Call>)
    requires n <= |calls| && !m.failed && UsedAre(m.used, earlier)
    ensures !Enqueue(m, calls[..n]).failed <==> NewCalls(calls[..n], earlier)
    ensures !Enqueue(m, calls[..n]).failed ==> UsedAre(Enqueue(m, calls[..n]).used, earlier + calls[..n])
  {
    hide *;
    if n == 0 {
      EnqueueNone(m, calls, earlier);
    } else {
      EnqueueIff(m, calls, n - 1, earlier);
      EnqueueSnoc(m, calls, n - 1);
      NewCallsSnoc(calls, earlier, n - 1);
      if !Enqueue(m, calls[..n - 1]).failed {
        UsedNew(Enqueue(m, calls[..n - 1]).used, earlier, calls, n - 1);
      }
    }
  }

  /** Against the identities used so far a call is new exactly if its name is one that may be queued. */
  lemma UsedNew(used: set<string>, earlier: seq<Call>, calls: seq<Call>, n: nat)
    requires n < |calls| && UsedAre(used, earlier + calls[..n])
    ensures var call := calls[n];
      && (NextNew(calls, earlier, n) <==> call.id.Some? && call.id != Some("") && call.id.value !in used && call.fromAssistant)
      && (call.id.Some? ==> UsedAre(used + {call.id.value}, earlier + calls[..n + 1]))
  {
    var all, call := earlier + calls[..n], calls[n];
    assert forall i :: 0 <= i < |earlier| ==> all[i] == earlier[i];
    assert forall i :: 0 <= i < n ==> all[|earlier| + i] == calls[i];
    if call.id.Some? {
      if call.id.value in used {
        var i :| 0 <= i < |all| && all[i].id == Some(call.id.value);
        assert i < |earlier| || all[i] == calls[i - |earlier|];
      }
      UsedSnoc(used, all, call);
      assert earlier + calls[..n + 1] == all + [call];
    }
  }

  // ---- one step ----

  ghost predicate Named(calls: seq<Call>) {
    forall j :: 0 <= j < |calls| ==> calls[j].id.Some?
  }

  /** What a machine that has not failed keeps count of. */
  ghost predicate Counts<S>(messages: seq<Message>, n: nat, m: Machine<S>)
    requires n <= |messages|
  {
    && |m.events| == ToolCount(messages[..n]) && UsedAre(m.used, CallsIn(messages[..n])) && Named(CallsIn(messages[..n]))
    && (forall k :: 0 <= k < |m.snapshots| ==> m.snapshots[k].step == k)
    && (forall k :: 0 <= k < |m.events| ==> EventOf(messages, m.events[k], k, n))
  }

  /** The event is that of the `k`-th tool response. */
  ghost predicate EventOf(messages: seq<Message>, e: Event, k: nat, n: nat)
    requires n <= |messages|
  {
    && e.index < n && messages[e.index].Tool? && ToolCount(messages[..e.index]) == k
    && (e.error <==> messages[e.index].error == Some(true))
  }

  lemma ToolCountStep(messages: seq<Message>, n: nat)
    requires n < |messages|
    ensures ToolCount(messages[..n + 1]) == ToolCount(messages[..n]) + if messages[n].Tool? then 1 else 0
  {
    assert messages[..n + 1][..n] == messages[..n];
  }

  /** A response gets through exactly if it names and confirms the oldest pending call. */
  lemma ToolIff<S>(env: Env<S>, m: Machine<S>, n: nat, raw: Message)
    requires raw.Tool? && !m.failed && (m.pending != [] ==> m.pending[0].id.Some?)
    ensures !Step(env, m, n, raw).failed <==>
      && m.pending != [] && raw.fromAssistant && Names(raw.id, raw.toolCallId, m.pending[0])
      && Confirms(env, m.db, m.pending[0], raw.error, raw.content)
    ensures Step(env, m, n, raw).used == m.used && Step(env, m, n, raw).snapshots == m.snapshots
  {
  }

  lemma ToolPlays<S>(env: Env<S>, db: S, messages: seq<Message>, n: nat, m: Machine<S>)
    requires n < |messages| && messages[n].Tool? && InStep(env, db, messages, n, m) && !m.failed && Counts(messages, n, m)
    ensures !Step(env, m, n, messages[n]).failed <==> Plays(env, db, messages, n)
    ensures !Step(env, m, n, messages[n]).failed ==> Counts(messages, n + 1, Step(env, m, n, messages[n]))
  {
    hide CallsIn, Execute, UsedAre, ToolCount, Step, ResponseId, Names, Confirms;
    ToolCountStep(messages, n);
    CallsStep(messages, n);
    var issued, done := CallsIn(messages[..n]), ToolCount(messages[..n]);
    if m.pending != [] {
      assert m.pending[0] == issued[done];
    }
    ToolIff(env, m, n, messages[n]);
    ToolEffect(env, m, n, messages[n]);
    if !Step(env, m, n, messages[n]).failed {
      EventsLater(messages, n, m.events);
    }
  }

  lemma AssistantPlays<S>(env: Env<S>, db: S, messages: seq<Message>, n: nat, m: Machine<S>)
    requires n < |messages| && messages[n].Assistant? && InStep(env, db, messages, n, m) && !m.failed && Counts(messages, n, m)
    ensures !Step(env, m, n, messages[n]).failed <==> Plays(env, db, messages, n)
    ensures !Step(env, m, n, messages[n]).failed ==> Counts(messages, n + 1, Step(env, m, n, messages[n]))
  {
    hide CallsIn, Execute, UsedAre, ToolCount, NewCalls, EventOf;
    ToolCountStep(messages, n);
    CallsStep(messages, n);
    var issued, done := CallsIn(messages[..n]), ToolCount(messages[..n]);
    var calls := messages[n].calls;
    if m.pending == [] && env.hash(m.db).Some? {
      var snapshot := Snapshot(n, |m.snapshots|, env.hash(m.db).value, m.prefix, |m.events|);
      var begun := m.(snapshots := m.snapshots + [snapshot]);
      assert calls[..|calls|] == calls;
      EnqueueIff(begun, calls, |calls|, issued);
      EnqueueKeeps(begun, calls);
      NamedAppend(issued, calls);
      hide Enqueue;
    }
    hide Enqueue;
    EventsLater(messages, n, m.events);
  }

  lemma NamedAppend(issued: seq<Call>, calls: seq<Call>)
    requires Named(issued)
    ensures NewCalls(calls, issued) ==> Named(issued + calls)
  {
  }

  lemma EventsLater(messages: seq<Message>, n: nat, events: seq<Event>)
    requires n < |messages| && forall k :: 0 <= k < |events| ==> EventOf(messages, events[k], k, n)
    ensures forall k :: 0 <= k < |events| ==> EventOf(messages, events[k], k, n + 1)
  {
  }

  lemma OtherPlays<S>(env: Env<S>, db: S, messages: seq<Message>, n: nat, m: Machine<S>)
    requires n < |messages| && !messages[n].Assistant? && !messages[n].Tool?
    requires InStep(env, db, messages, n, m) && !m.failed && Counts(messages, n, m)
    ensures !Step(env, m, n, messages[n]).failed <==> Plays(env, db, messages, n)
    ensures !Step(env, m, n, messages[n]).failed ==> Counts(messages, n + 1, Step(env, m, n, messages[n]))
  {
    hide CallsIn, Execute, UsedAre, ToolCount, EventOf;
    ToolCountStep(messages, n);
    CallsStep(messages, n);
    EventsLater(messages, n, m.events);
  }

  // ---- the whole list ----

  ghost predicate AllPlay<S>(env: Env<S>, db: S, messages: seq<Message>, n: nat)
    requires n <= |messages|
  {
    forall i: nat :: i < n ==> Plays(env, db, messages, i)
  }

  lemma StepPlays<S>(env: Env<S>, db: S, messages: seq<Message>, n: nat, m: Machine<S>)
    requires n < |messages| && InStep(env, db, messages, n, m) && !m.failed && Counts(messages, n, m)
    ensures !Step(env, m, n, messages[n]).failed <==> Plays(env, db, messages, n)
    ensures !Step(env, m, n, messages[n]).failed ==> Counts(messages, n + 1, Step(env, m, n, messages[n]))
  {
    hide Step, InStep, Counts, Plays;
    if messages[n].Tool? {
      ToolPlays(env, db, messages, n, m);
    } else if messages[n].Assistant? {
      AssistantPlays(env, db, messages, n, m);
    } else {
      OtherPlays(env, db, messages, n, m);
    }
  }

  lemma RunStep<S>(env: Env<S>, db: S, messages: seq<Message>, n: nat)
    requires 0 < n <= |messages|
    ensures var m := Run(env, db, messages, n - 1);
      Run(env, db, messages, n) == if m.failed then m else Step(env, m, n - 1, messages[n - 1])
  {
    hide Step;
  }

  lemma AllPlaySnoc<S>(env: Env<S>, db: S, messages: seq<Message>, n: nat)
    requires n < |messages|
    ensures AllPlay(env, db, messages, n + 1) <==> AllPlay(env, db, messages, n) && Plays(env, db, messages, n)
  {
    hide Plays;
  }

  lemma RunsNone<S>(env: Env<S>, db: S, messages: seq<Message>)
    ensures !Run(env, db, messages, 0).failed && AllPlay(env, db, messages, 0) && Counts(messages, 0, Run(env, db, messages, 0))
  {
  }

  /** The replay gets past the first `n` messages exactly if each of them fits. */
  lemma {:induction false} RunsIff<S>(env: Env<S>, db: S, messages: seq<Message>, n: nat)
    requires n <= |messages|
    ensures !Run(env, db, messages, n).failed <==> AllPlay(env, db, messages, n)
    ensures !Run(env, db, messages, n).failed ==> Counts(messages, n, Run(env, db, messages, n))
  {
    hide *;
    if n == 0 {
      RunsNone(env, db, messages);
    } else {
      RunsIff(env, db, messages, n - 1);
      RunStep(env, db, messages, n);
      RunInStep(env, db, messages, n - 1);
      AllPlaySnoc(env, db, messages, n - 1);
      var m := Run(env, db, messages, n - 1);
      if !m.failed {
        StepPlays(env, db, messages, n - 1, m);
      }
    }
  }

  /** The message is an assistant's that comes with nothing pending and in a state that can be hashed. */
  ghost predicate Snaps<S>(env: Env<S>, db: S, messages: seq<Message>, i: nat)
    requires i < |messages|
  {
    var issued, done := CallsIn(messages[..i]), ToolCount(messages[..i]);
    && messages[i].Assistant? && AllPlay(env, db, messages, i) && done == |issued|
    && Execute(env, db, issued).Some? && env.hash(Execute(env, db, issued).value).Some?
  }

  lemma SnapStep<S>(env: Env<S>, db: S, messages: seq<Message>, n: nat, m: Machine<S>)
    requires n < |messages| && InStep(env, db, messages, n, m) && !m.failed && Counts(messages, n, m) && AllPlay(env, db, messages, n)
    ensures Step(env, m, n, messages[n]).snapshots != [] <==> m.snapshots != [] || Snaps(env, db, messages, n)
  {
    hide CallsIn, Execute, UsedAre, ToolCount, EventOf, AllPlay;
    var issued := CallsIn(messages[..n]);
    assert issued[..|issued|] == issued;
    if messages[n].Assistant? && m.pending == [] && env.hash(m.db).Some? {
      var snapshot := Snapshot(n, |m.snapshots|, env.hash(m.db).value, m.prefix, |m.events|);
      EnqueueKeeps(m.(snapshots := m.snapshots + [snapshot]), messages[n].calls);
    }
    hide Enqueue;
  }

  ghost predicate AnySnap<S>(env: Env<S>, db: S, messages: seq<Message>, n: nat)
    requires n <= |messages|
  {
    exists i: nat :: i < n && Snaps(env, db, messages, i)
  }

  lemma AnySnapSnoc<S>(env: Env<S>, db: S, messages: seq<Message>, n: nat)
    requires n < |messages|
    ensures AnySnap(env, db, messages, n + 1) <==> AnySnap(env, db, messages, n) || Snaps(env, db, messages, n)
    ensures Snaps(env, db, messages, n) ==> AllPlay(env, db, messages, n)
  {
    hide AllPlay;
  }

  lemma SnapshotsNone<S>(env: Env<S>, db: S, messages: seq<Message>)
    ensures Run(env, db, messages, 0).snapshots == [] && !AnySnap(env, db, messages, 0)
  {
  }

  lemma {:induction false} SnapshotsIff<S>(env: Env<S>, db: S, messages: seq<Message>, n: nat)
    requires n <= |messages|
    ensures Run(env, db, messages, n).snapshots != [] <==> AnySnap(env, db, messages, n)
  {
    hide *;
    if n == 0 {
      SnapshotsNone(env, db, messages);
    } else {
      RunsIff(env, db, messages, n - 1);
      RunInStep(env, db, messages, n - 1);
      RunStep(env, db, messages, n);
      SnapshotsIff(env, db, messages, n - 1);
      AnySnapSnoc(env, db, messages, n - 1);
      var m := Run(env, db, messages, n - 1);
      if !m.failed {
        SnapStep(env, db, messages, n - 1, m);
      }
    }
  }

  /**
   * A replay is verified exactly if every message fits and every issued call is answered; otherwise it is partial exactly
   * if some snapshot was taken on the way.
   */
  lemma StatusIff<S>(env: Env<S>, db: S, messages: seq<Message>)
    ensures var r := ReportOf(Run(env, db, messages, |messages|));
      var verified := AllPlay(env, db, messages, |messages|) && ToolCount(messages) == |CallsIn(messages)|;
      && (r.status == Verified <==> verified)
      && (r.status == Partial <==> !verified && AnySnap(env, db, messages, |messages|))
  {
    var n := |messages|;
    assert messages[..n] == messages;
    RunsIff(env, db, messages, n);
    RunInStep(env, db, messages, n);
    SnapshotsIff(env, db, messages, n);
    hide CallsIn, Execute, ToolCount, Run, AllPlay, AnySnap;
  }

  /** Events of a replay that goes through name the tool responses in order; its snapshots are numbered from zero. */
  lemma ReportNumbered<S>(env: Env<S>, db: S, messages: seq<Message>, k: nat)
    requires AllPlay(env, db, messages, |messages|)
    ensures var r := ReportOf(Run(env, db, messages, |messages|));
      && |r.events| == ToolCount(messages) && (k < |r.snapshots| ==> r.snapshots[k].step == k)
      && (k < |r.events| ==> EventOf(messages, r.events[k], k, |messages|))
  {
    RunsIff(env, db, messages, |messages|);
    assert messages[..|messages|] == messages;
    hide Run, AllPlay, ToolCount, EventOf;
  }
}
