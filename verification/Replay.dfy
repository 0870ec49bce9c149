/** Replaying recorded decisions into a deterministic environment, and pairing recorded calls with responses. */
module Replay {
  import opened Common

  datatype Call = Call(id: Option<string>, fromAssistant: bool, structured: bool, body: string)

  datatype Message =
    | Assistant(calls: seq<Call>)
    | Tool(id: Option<string>, toolCallId: Option<string>, fromAssistant: bool, error: Option<bool>, content: Option<string>)
    | User(hasCalls: bool)
    | System
    | Other

  /** One answer of the environment, with its new database state; or an exception. */
  datatype Response<S> = Answer(db: S, id: Option<string>, error: bool, content: Option<string>) | Raises

  datatype Env<!S> = Env(respond: (S, Call) -> Response<S>, hash: S -> Option<string>, normalize: Option<string> -> string)

  datatype Snapshot = Snapshot(index: nat, step: nat, dbHash: string, prefix: seq<Message>, verified: nat)
  datatype Event = Event(index: nat, id: string, error: bool)

  datatype Machine<S> = Machine(db: S, prefix: seq<Message>, pending: seq<Call>, snapshots: seq<Snapshot>, events: seq<Event>,
                                used: set<string>, failed: bool)

  // ---- one message ----

  /** Queues the calls of one batch until one has no fresh identity or comes from elsewhere. */
  function Enqueue<S>(m: Machine<S>, calls: seq<Call>): Machine<S> {
    if calls == [] then m
    else
      var before, call := Enqueue(m, calls[..|calls| - 1]), calls[|calls| - 1];
      if before.failed then before
      else if call.id.None? || call.id.value == "" || call.id.value in before.used || !call.fromAssistant then before.(failed := true)
      else before.(used := before.used + {call.id.value}, pending := before.pending + [call])
  }

  /** `raw.get('id') or raw.get('tool_call_id')`. */
  function ResponseId(id: Option<string>, toolCallId: Option<string>): Option<string> {
    if id.Some? && id.value != "" then id else toolCallId
  }

  function OnAssistant<S>(env: Env<S>, m: Machine<S>, index: nat, calls: seq<Call>): Machine<S> {
    if env.hash(m.db).None? then m.(failed := true)
    else
      var snapshot := Snapshot(index, |m.snapshots|, env.hash(m.db).value, m.prefix, |m.events|);
      Enqueue(m.(snapshots := m.snapshots + [snapshot]), calls)
  }

  function OnTool<S>(env: Env<S>, m: Machine<S>, index: nat, raw: Message): Machine<S>
    requires raw.Tool?
  {
    var id := ResponseId(raw.id, raw.toolCallId);
    if m.pending == [] || m.pending[0].id != id then m.(failed := true)
    else
      var call, n := m.pending[0], m.(pending := m.pending[1..]);
      if !raw.fromAssistant then n.(failed := true)
      else
        match env.respond(m.db, call)
        case Raises => n.(failed := true)
        case Answer(db, answered, error, content) =>
          var recorded := raw.error.Some? && raw.error.value;
          if answered != id || answered.None? || error != recorded || env.normalize(content) != env.normalize(raw.content) then
            n.(db := db, failed := true)
          else n.(db := db, events := m.events + [Event(index, answered.value, error)])
  }

  function Step<S>(env: Env<S>, m: Machine<S>, index: nat, raw: Message): Machine<S> {
    var next :=
      if m.pending != [] && !raw.Tool? then m.(failed := true)
      else match raw
        case Assistant(calls) => OnAssistant(env, m, index, calls)
        case Tool(_, _, _, _, _) => OnTool(env, m, index, raw)
        case User(hasCalls) => m.(failed := hasCalls)
        case System => m
        case Other => m.(failed := true);
    if next.failed then next else next.(prefix := next.prefix + [raw])
  }

  function Start<S>(db: S): Machine<S> {
    Machine(db, [], [], [], [], {}, false)
  }

  /** The machine after the first `n` messages; a failure stops it for good. */
  function Run<S>(env: Env<S>, db: S, messages: seq<Message>, n: nat): Machine<S>
    requires n <= |messages|
  {
    if n == 0 then Start(db)
    else
      var m := Run(env, db, messages, n - 1);
      if m.failed then m else Step(env, m, n - 1, messages[n - 1])
  }

  datatype Status = Verified | Partial | Unverified
  datatype Report = Report(status: Status, snapshots: seq<Snapshot>, events: seq<Event>)

  function ReportOf<S>(m: Machine<S>): Report {
    Report(if !m.failed && m.pending == [] then Verified else if m.snapshots != [] then Partial else Unverified, m.snapshots, m.events)
  }

  lemma FailedStays<S>(env: Env<S>, db: S, messages: seq<Message>, k: nat, n: nat)
    requires k <= n <= |messages| && Run(env, db, messages, k).failed
    ensures Run(env, db, messages, n) == Run(env, db, messages, k)
  {
    if k < n {
      FailedStays(env, db, messages, k, n - 1);
    }
  }

  method ReplayMessages<S>(env: Env<S>, db: S, messages: seq<Message>) returns (r: Report)
    ensures r == ReportOf(Run(env, db, messages, |messages|))
  {
    hide Step;
    var m := Start(db);
    var index := 0;
    while index < |messages| && !m.failed
      invariant index <= |messages| && m == Run(env, db, messages, index)
    {
      m := TakeMessage(env, m, index, messages[index]);
      index := index + 1;
    }
    if m.failed {
      FailedStays(env, db, messages, index, |messages|);
    }
    r := ReportOf(m);
  }

  /** One pass of the loop over the messages. */
  method TakeMessage<S>(env: Env<S>, before: Machine<S>, index: nat, raw: Message) returns (m: Machine<S>)
    requires !before.failed
    ensures m == Step(env, before, index, raw)
  {
    m := before;
    if m.pending != [] && !raw.Tool? {
      m := m.(failed := true);
    } else {
      match raw
      case Assistant(calls) =>
        m := TakeAssistant(env, m, index, calls);
      case Tool(_, _, _, _, _) =>
        m := OnTool(env, m, index, raw);
      case User(hasCalls) =>
        m := m.(failed := hasCalls);
      case System =>
      case Other =>
        m := m.(failed := true);
    }
    if !m.failed {
      m := m.(prefix := m.prefix + [raw]);
    }
  }

  method TakeAssistant<S>(env: Env<S>, before: Machine<S>, index: nat, calls: seq<Call>) returns (m: Machine<S>)
    requires !before.failed
    ensures m == OnAssistant(env, before, index, calls)
  {
    m := before;
    var hash := env.hash(m.db);
    if hash.None? {
      m := m.(failed := true);
      return;
    }
    m := m.(snapshots := m.snapshots + [Snapshot(index, |m.snapshots|, hash.value, m.prefix, |m.events|)]);
    ghost var begun := m;
    for i := 0 to |calls|
      invariant m == Enqueue(begun, calls[..i]) && !m.failed
    {
      var call := calls[i];
      assert calls[..i + 1][..i] == calls[..i];
      if call.id.None? || call.id.value == "" || call.id.value in m.used || !call.fromAssistant {
        m := m.(failed := true);
        EnqueueFailed(begun, calls, i + 1);
        return;
      }
      m := m.(used := m.used + {call.id.value}, pending := m.pending + [call]);
    }
    assert calls[..|calls|] == calls;
  }

  lemma {:induction false} EnqueueFailed<S>(m: Machine<S>, calls: seq<Call>, n: nat)
    requires n <= |calls| && Enqueue(m, calls[..n]).failed
    ensures Enqueue(m, calls) == Enqueue(m, calls[..n])
    decreases |calls|
  {
    if n == |calls| {
      assert calls[..n] == calls;
    } else {
      var last := |calls| - 1;
      assert calls[..last][..n] == calls[..n];
      EnqueueFailed(m, calls[..last], n);
    }
  }

  // ---- what a snapshot certifies ----

  /** All calls issued by the messages, in order. */
  function CallsIn(messages: seq<Message>): seq<Call> {
    if messages == [] then []
    else
      var last := messages[|messages| - 1];
      CallsIn(messages[..|messages| - 1]) + if last.Assistant? then last.calls else []
  }

  /** The database after executing the calls one by one. */
  function Execute<S>(env: Env<S>, db: S, calls: seq<Call>): Option<S> {
    if calls == [] then Some(db)
    else
      var before := Execute(env, db, calls[..|calls| - 1]);
      if before.None? then None
      else match env.respond(before.value, calls[|calls| - 1]) case Raises => None case Answer(next, _, _, _) => Some(next)
  }

  /** While nothing has failed: answered calls are executed in order, the others are queued in order. */
  ghost predicate InStep<S>(env: Env<S>, db: S, messages: seq<Message>, n: nat, m: Machine<S>)
    requires n <= |messages|
  {
    var calls, done := CallsIn(messages[..n]), |m.events|;
    && m.prefix == messages[..n] && done <= |calls| && m.pending == calls[done..]
    && Execute(env, db, calls[..done]) == Some(m.db)
    && forall k :: 0 <= k < done ==> calls[k].id == Some(m.events[k].id)
  }

  /** A snapshot was taken with every earlier call executed, in order, and verified. */
  ghost predicate Certified<S>(env: Env<S>, db: S, messages: seq<Message>, s: Snapshot) {
    && s.index < |messages| && messages[s.index].Assistant? && s.prefix == messages[..s.index]
    && var calls := CallsIn(messages[..s.index]);
       && s.verified == |calls|
       && Execute(env, db, calls).Some? && env.hash(Execute(env, db, calls).value) == Some(s.dbHash)
  }

  lemma {:induction false} EnqueueKeeps<S>(m: Machine<S>, calls: seq<Call>)
    ensures var q := Enqueue(m, calls);
      && q.db == m.db && q.events == m.events && q.snapshots == m.snapshots && q.prefix == m.prefix
      && (!q.failed ==> q.pending == m.pending + calls && !m.failed)
  {
    if calls != [] {
      EnqueueKeeps(m, calls[..|calls| - 1]);
    }
  }

  lemma CallsStep(messages: seq<Message>, n: nat)
    requires n < |messages|
    ensures messages[..n + 1] == messages[..n] + [messages[n]]
    ensures CallsIn(messages[..n + 1]) == if messages[n].Assistant? then CallsIn(messages[..n]) + messages[n].calls else CallsIn(messages[..n])
  {
    assert messages[..n + 1][..n] == messages[..n];
    assert CallsIn(messages[..n]) + [] == CallsIn(messages[..n]);
  }

  /** A response that is accepted executes the oldest pending call and records its identity and error flag. */
  lemma ToolEffect<S>(env: Env<S>, m: Machine<S>, n: nat, raw: Message)
    requires raw.Tool?
    ensures var t := Step(env, m, n, raw);
      !t.failed ==>
        && m.pending != [] && env.respond(m.db, m.pending[0]).Answer? && env.respond(m.db, m.pending[0]).db == t.db
        && t.pending == m.pending[1..] && t.prefix == m.prefix + [raw]
        && m.pending[0].id.Some? && m.pending[0].id == ResponseId(raw.id, raw.toolCallId)
        && t.events == m.events + [Event(n, m.pending[0].id.value, raw.error.Some? && raw.error.value)]
  {
  }

  lemma AssistantEffect<S>(env: Env<S>, m: Machine<S>, n: nat, raw: Message)
    requires raw.Assistant?
    ensures var t := Step(env, m, n, raw);
      !t.failed ==>
        m.pending == [] && t.pending == raw.calls && t.db == m.db && t.events == m.events && t.prefix == m.prefix + [raw]
  {
    if m.pending == [] && env.hash(m.db).Some? {
      var snapshot := Snapshot(n, |m.snapshots|, env.hash(m.db).value, m.prefix, |m.events|);
      EnqueueKeeps(m.(snapshots := m.snapshots + [snapshot]), raw.calls);
      hide Enqueue;
    }
  }

  lemma ExecuteNext<S>(env: Env<S>, db: S, calls: seq<Call>, n: nat)
    requires n < |calls| && Execute(env, db, calls[..n]).Some?
    requires env.respond(Execute(env, db, calls[..n]).value, calls[n]).Answer?
    ensures Execute(env, db, calls[..n + 1]) == Some(env.respond(Execute(env, db, calls[..n]).value, calls[n]).db)
  {
    assert calls[..n + 1][..n] == calls[..n];
  }

  lemma ToolStep<S>(env: Env<S>, db: S, messages: seq<Message>, n: nat, m: Machine<S>)
    requires n < |messages| && messages[n].Tool? && InStep(env, db, messages, n, m) && !m.failed
    ensures !Step(env, m, n, messages[n]).failed ==> InStep(env, db, messages, n + 1, Step(env, m, n, messages[n]))
  {
    CallsStep(messages, n);
    ToolEffect(env, m, n, messages[n]);
    hide CallsIn, Step, Execute, ResponseId;
    var calls, done := CallsIn(messages[..n]), |m.events|;
    if !Step(env, m, n, messages[n]).failed {
      assert m.pending[0] == calls[done] && m.pending[1..] == calls[done + 1..];
      ExecuteNext(env, db, calls, done);
    }
  }

  lemma AssistantStep<S>(env: Env<S>, db: S, messages: seq<Message>, n: nat, m: Machine<S>)
    requires n < |messages| && messages[n].Assistant? && InStep(env, db, messages, n, m) && !m.failed
    ensures !Step(env, m, n, messages[n]).failed ==> InStep(env, db, messages, n + 1, Step(env, m, n, messages[n]))
  {
    CallsStep(messages, n);
    AssistantEffect(env, m, n, messages[n]);
    hide CallsIn, Step, Execute;
    if !Step(env, m, n, messages[n]).failed {
      var calls, more := CallsIn(messages[..n]), messages[n].calls;
      assert |m.events| == |calls|;
      assert (calls + more)[|calls|..] == more && (calls + more)[..|calls|] == calls[..|calls|];
    }
  }

  lemma OtherStep<S>(env: Env<S>, db: S, messages: seq<Message>, n: nat, m: Machine<S>)
    requires n < |messages| && !messages[n].Tool? && !messages[n].Assistant? && InStep(env, db, messages, n, m) && !m.failed
    ensures !Step(env, m, n, messages[n]).failed ==> InStep(env, db, messages, n + 1, Step(env, m, n, messages[n]))
  {
    CallsStep(messages, n);
    hide CallsIn, Execute;
  }

  lemma {:induction false} RunInStep<S>(env: Env<S>, db: S, messages: seq<Message>, n: nat)
    requires n <= |messages|
    ensures !Run(env, db, messages, n).failed ==> InStep(env, db, messages, n, Run(env, db, messages, n))
  {
    if n > 0 && !Run(env, db, messages, n - 1).failed {
      RunInStep(env, db, messages, n - 1);
      var m := Run(env, db, messages, n - 1);
      hide InStep, Step;
      if messages[n - 1].Tool? {
        ToolStep(env, db, messages, n - 1, m);
      } else if messages[n - 1].Assistant? {
        AssistantStep(env, db, messages, n - 1, m);
      } else {
        OtherStep(env, db, messages, n - 1, m);
      }
    }
  }

  /** A step adds at most one snapshot, at an assistant message, with nothing pending. */
  lemma NewSnapshot<S>(env: Env<S>, m: Machine<S>, n: nat, raw: Message)
    ensures var t := Step(env, m, n, raw);
      t.snapshots == m.snapshots || (raw.Assistant? && m.pending == [] && env.hash(m.db).Some?
        && t.snapshots == m.snapshots + [Snapshot(n, |m.snapshots|, env.hash(m.db).value, m.prefix, |m.events|)])
  {
    if raw.Assistant? && m.pending == [] && env.hash(m.db).Some? {
      EnqueueKeeps(m.(snapshots := m.snapshots + [Snapshot(n, |m.snapshots|, env.hash(m.db).value, m.prefix, |m.events|)]), raw.calls);
    }
  }

  /** Every snapshot of every run, even of one that fails later, certifies its prefix. */
  lemma {:induction false} SnapshotsCertified<S>(env: Env<S>, db: S, messages: seq<Message>, n: nat)
    requires n <= |messages|
    ensures forall s :: s in Run(env, db, messages, n).snapshots ==> Certified(env, db, messages, s)
    ensures forall k :: 0 <= k < |Run(env, db, messages, n).snapshots| ==> Run(env, db, messages, n).snapshots[k].step == k
  {
    if n > 0 {
      SnapshotsCertified(env, db, messages, n - 1);
      var m := Run(env, db, messages, n - 1);
      if !m.failed {
        RunInStep(env, db, messages, n - 1);
        NewSnapshot(env, m, n - 1, messages[n - 1]);
        var calls := CallsIn(messages[..n - 1]);
        assert m.pending == [] ==> |m.events| == |calls| && calls[..|calls|] == calls;
      }
    }
  }

  lemma {:induction false} RunOfPrefix<S>(env: Env<S>, db: S, messages: seq<Message>, k: nat, n: nat)
    requires n <= k <= |messages|
    ensures Run(env, db, messages[..k], n) == Run(env, db, messages, n)
  {
    if n > 0 {
      RunOfPrefix(env, db, messages, k, n - 1);
    }
  }

  lemma {:induction false} SnapshotsGrow<S>(env: Env<S>, db: S, messages: seq<Message>, k: nat, n: nat)
    requires k <= n <= |messages|
    ensures Run(env, db, messages, k).snapshots <= Run(env, db, messages, n).snapshots
  {
    hide Step;
    if k < n {
      SnapshotsGrow(env, db, messages, k, n - 1);
      NewSnapshot(env, Run(env, db, messages, n - 1), n - 1, messages[n - 1]);
    }
  }

  /** Cutting the transcript short only drops later snapshots. */
  lemma PrefixSnapshots<S>(env: Env<S>, db: S, messages: seq<Message>, k: nat)
    requires k <= |messages|
    ensures ReportOf(Run(env, db, messages[..k], k)).snapshots <= ReportOf(Run(env, db, messages, |messages|)).snapshots
  {
    RunOfPrefix(env, db, messages, k, k);
    SnapshotsGrow(env, db, messages, k, |messages|);
  }
}
