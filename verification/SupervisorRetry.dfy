/** A failed attempt leads on to the next one: from any state in which nothing stands against it, and in a run from nothing. */
module SupervisorRetry {
  import opened Common
  import opened Supervisor
  import opened SupervisorProtocol
  import opened SupervisorSafety
  import opened SupervisorRaces
  import opened SupervisorOutcomes

  lemma ReachableInv(plan: Plan, init: Origin, s: State)
    requires Reachable(plan, init, s)
    ensures Inv(plan, init, s)
  {
    var run :| IsRun(plan, init, run) && run[|run| - 1] == s;
    hide Inv;
    RunKeepsInv(plan, init, run, |run| - 1);
  }

  /** Nothing stands against another attempt of candidate `c`. */
  ghost predicate Free(plan: Plan, s: State, c: nat) {
    && c < |plan.hashes| == |s.pcs| == |s.disk| && |s.disk[c]| == MAX_ATTEMPTS
    && !s.stop && c !in s.leftover && !Taken(plan, s.disk, plan.hashes[c]) && HasTurn(s, c)
  }

  /** Between the reading of a ledger with a retryable last attempt and the next dispatch. */
  ghost predicate Ready(plan: Plan, s: State, c: nat, prior: seq<Slot>) {
    && Free(plan, s, c) && |Holders(s)| < plan.concurrency
    && Recalls(s.disk[c], plan.hashes[c], prior) && 1 <= |prior| < 3 && !Ends(prior, true) && !Ends(prior, false)
  }

  lemma GotoReady(plan: Plan, s: State, c: nat, prior: seq<Slot>, pc: Pc)
    requires Ready(plan, s, c, prior) && (pc.Backoff? || pc.Waiting? || pc.Done? || pc.LoopTop?)
    ensures Ready(plan, Goto(s, c, pc), c, prior)
  {
    var t := Goto(s, c, pc);
    assert Holders(t) <= Holders(s);
    SubsetSize(Holders(t), Holders(s));
    hide Taken, Recalls, Ends;
  }

  lemma StepTop(plan: Plan, init: Origin, s: State, c: nat, prior: seq<Slot>)
    requires Reachable(plan, init, s) && Ready(plan, s, c, prior) && s.pcs[c] == LoopTop(prior)
    ensures Reachable(plan, init, Goto(s, c, Backoff(prior)))
  {
    hide Reachable, Taken, Recalls, HasTurn, Ends;
    var t := Apply(plan, s, c, Top);
    TopOutcome(plan, s, c, t);
    ReachStep(plan, init, s, c, Top, t);
    hide Apply;
    assert t == Goto(s, c, Backoff(prior));
  }

  lemma StepWake(plan: Plan, init: Origin, s: State, c: nat, prior: seq<Slot>)
    requires Reachable(plan, init, s) && Ready(plan, s, c, prior) && s.pcs[c] == Backoff(prior)
    ensures Reachable(plan, init, Goto(s, c, Waiting(prior)))
  {
    hide Reachable, Taken, Recalls, HasTurn, Ends;
    ReachStep(plan, init, s, c, Wake, Goto(s, c, Waiting(prior)));
  }

  lemma StepAcquire(plan: Plan, init: Origin, s: State, c: nat, prior: seq<Slot>)
    requires Reachable(plan, init, s) && Ready(plan, s, c, prior) && s.pcs[c] == Waiting(prior)
    ensures Reachable(plan, init, Goto(s, c, Checking(prior)))
  {
    hide Reachable, Taken, Recalls, HasTurn, Ends;
    var t := Apply(plan, s, c, Acquire);
    AcquireOutcome(plan, s, c, t);
    ReachStep(plan, init, s, c, Acquire, t);
    hide Apply;
    assert t == Goto(s, c, Checking(prior));
  }

  lemma StepCheck(plan: Plan, init: Origin, s: State, c: nat, prior: seq<Slot>) returns (t: State)
    requires Reachable(plan, init, s) && Free(plan, s, c) && s.pcs[c] == Checking(prior)
    requires Recalls(s.disk[c], plan.hashes[c], prior)
    ensures Reachable(plan, init, t) && NoError(s, t) && t.failed == s.failed && t.completed == s.completed
    ensures t.dispatches == s.dispatches + [(c, |prior| + 1)] && t.pcs == s.pcs[c := Spawning(|prior| + 1)]
    ensures SameProcesses(s, t)
  {
    ReachableInv(plan, init, s);
    CheckEnabled(plan, s, c, prior);
    hide Reachable, Inv, Taken, HasTurn, Apply, Enabled, Recalls, ValidLedger;
    var e := Check(prior, true, false);
    t := Apply(plan, s, c, e);
    CheckOutcome(plan, init, s, c, e, t);
    ReachStep(plan, init, s, c, e, t);
  }

  lemma CheckEnabled(plan: Plan, s: State, c: nat, prior: seq<Slot>)
    requires Free(plan, s, c) && s.pcs[c] == Checking(prior) && Recalls(s.disk[c], plan.hashes[c], prior)
    ensures Enabled(plan, s, c, Check(prior, true, false))
  {
    hide Taken, HasTurn;
    assert Reads(plan, s, c, prior, true);
  }

  lemma GotoTwice(s: State, c: nat, x: Pc, y: Pc)
    requires c < |s.pcs|
    ensures c < |Goto(s, c, x).pcs| && Goto(Goto(s, c, x), c, y) == Goto(s, c, y)
  {
    assert s.pcs[c := x][c := y] == s.pcs[c := y];
  }

  /** From the head of the loop an open candidate with a retryable last attempt can go on to the dispatch of the next. */
  lemma NextIsDispatched(plan: Plan, init: Origin, s: State, c: nat, prior: seq<Slot>) returns (t: State)
    requires Reachable(plan, init, s) && Ready(plan, s, c, prior) && s.pcs[c] == LoopTop(prior)
    ensures Reachable(plan, init, t) && NoError(s, t) && t.failed == s.failed && t.completed == s.completed
    ensures t.dispatches == s.dispatches + [(c, |prior| + 1)]
  {
    StepTop(plan, init, s, c, prior);
    GotoReady(plan, s, c, prior, Backoff(prior));
    StepWake(plan, init, Goto(s, c, Backoff(prior)), c, prior);
    GotoTwice(s, c, Backoff(prior), Waiting(prior));
    GotoReady(plan, s, c, prior, Waiting(prior));
    StepAcquire(plan, init, Goto(s, c, Waiting(prior)), c, prior);
    GotoTwice(s, c, Waiting(prior), Checking(prior));
    hide Reachable, Taken, Recalls, Ends, Holders;
    t := StepCheck(plan, init, Goto(s, c, Checking(prior)), c, prior);
  }

  lemma HoldersBounded(plan: Plan, init: Origin, s: State)
    requires Inv(plan, init, s)
    ensures |Holders(s)| <= plan.concurrency
  {
    forall c | c in Holders(s) ensures c in Occupied(s) {
      assert PcKnows(plan, init, s, c);
    }
    hide Knowing, ShapeKept, Clean, CompletedOk, DispatchOk, ErrorsOk, Holders, Occupied;
    SubsetSize(Holders(s), Occupied(s));
  }

  lemma HolderLeaves(s: State, t: State, c: nat, pc: Pc)
    requires c < |s.pcs| && s.pcs[c].Running? && t.pcs == s.pcs[c := pc] && pc.LoopTop?
    ensures |Holders(t)| < |Holders(s)| && (HasTurn(s, c) ==> HasTurn(t, c))
  {
    assert Holders(t) == Holders(s) - {c} && c in Holders(s);
  }

  lemma RetryableEnds(slots: seq<Slot>, n: nat)
    requires 1 <= n <= |slots| && slots[n - 1].Written? && Retryable(slots[n - 1].status)
    ensures |slots[..n]| == n && !Ends(slots[..n], true) && !Ends(slots[..n], false)
  {
  }

  /** The subprocess of attempt `n` has exited and left a retryable status, and nothing stands against another attempt. */
  ghost predicate FailedFree(plan: Plan, s: State, c: nat, n: nat) {
    && Free(plan, s, c) && NoDuplicate(plan, s.disk) && s.pcs[c] == Running(n) && 1 <= n < 3
    && c in s.procs && s.procs[c].exit.Some? && s.disk[c][n - 1].Written? && Retryable(s.disk[c][n - 1].status)
  }

  /** The collected attempt is recorded as failed, without an error, and its candidate is back at the head of the loop. */
  lemma CollectFailed(plan: Plan, init: Origin, s: State, c: nat, n: nat) returns (t: State)
    requires Reachable(plan, init, s) && FailedFree(plan, s, c, n)
    ensures Reachable(plan, init, t) && NoError(s, t) && t.failed == s.failed + [(c, n)]
    ensures t.completed == s.completed && t.dispatches == s.dispatches
    ensures t.pcs == s.pcs[c := LoopTop(s.disk[c][..n])] && t.disk == s.disk && t.leftover == s.leftover
    ensures LedgerOk(s.disk[c], plan.hashes[c], n) && |Holders(s)| <= plan.concurrency
  {
    ReachableInv(plan, init, s);
    HoldersBounded(plan, init, s);
    CollectEnabled(plan, init, s, c, n);
    hide Reachable, Inv, Taken, HasTurn, NoDuplicate, Holders, LedgerOk, Apply, Enabled, ListsEntry, Halts;
    var e := Collect(s.disk[c][..n], true, false);
    t := Apply(plan, s, c, e);
    ReachStep(plan, init, s, c, e, t);
    CollectOutcome(plan, init, s, c, e, t);
  }

  lemma CollectEnabled(plan: Plan, init: Origin, s: State, c: nat, n: nat)
    requires Inv(plan, init, s) && FailedFree(plan, s, c, n)
    ensures Enabled(plan, s, c, Collect(s.disk[c][..n], true, false)) && LedgerOk(s.disk[c], plan.hashes[c], n)
  {
    RunningKnows(plan, init, s, c);
    LiveReading(s.disk[c], plan.hashes[c], n);
    hide Inv, Taken, HasTurn, LedgerLive, NoDuplicate, LedgerOk;
    assert Reads(plan, s, c, s.disk[c][..n], true);
  }

  /** A failed attempt below the third is recorded and can be followed by the next one, without an error in between. */
  lemma FailedIsRetried(plan: Plan, init: Origin, s: State, c: nat, n: nat) returns (t: State)
    requires Reachable(plan, init, s) && FailedFree(plan, s, c, n)
    ensures Reachable(plan, init, t) && NoError(s, t) && t.completed == s.completed
    ensures t.failed == s.failed + [(c, n)] && t.dispatches == s.dispatches + [(c, n + 1)]
  {
    var u := CollectFailed(plan, init, s, c, n);
    var prior := s.disk[c][..n];
    RetryableEnds(s.disk[c], n);
    HolderLeaves(s, u, c, LoopTop(prior));
    hide Reachable, Taken, LedgerOk, Holders, HasTurn, NoDuplicate, Ends;
    t := NextIsDispatched(plan, init, u, c, prior);
  }

  /** Once the flag is up, any coroutine that holds no check can be cancelled, and nothing else changes. */
  lemma StoppedIsCancelled(plan: Plan, init: Origin, s: State, c: nat)
    requires Reachable(plan, init, s) && c < |s.pcs| && s.stop && s.pcs[c] != Done && (forall d :: 0 <= d < |s.pcs| ==> !s.pcs[d].Checking?)
    ensures Reachable(plan, init, s.(pcs := s.pcs[c := Done]))
  {
    ReachableInv(plan, init, s);
    assert Sized(plan, init, s);
    hide Reachable, Inv;
    ReachStep(plan, init, s, c, Cancel, s.(pcs := s.pcs[c := Done]));
  }

  lemma SomeReading(plan: Plan, s: State, c: nat) returns (found: seq<Slot>, ok: bool)
    requires c < |plan.hashes| == |s.disk|
    ensures Reads(plan, s, c, found, ok)
  {
    ok := ValidLedger(plan, s, c);
    found := [];
    if ok {
      var n: nat :| LedgerOk(s.disk[c], plan.hashes[c], n);
      found := s.disk[c][..n];
    }
    hide LedgerOk;
  }

  /** Whatever else could go wrong may: starting a subprocess, checking for one and waiting for one can each stop the run. */
  lemma FaultStops(plan: Plan, init: Origin, s: State, c: nat)
    requires Reachable(plan, init, s) && c < |s.pcs| && HasTurn(s, c)
    requires s.pcs[c].Checking? || s.pcs[c].Spawning? || s.pcs[c].Running?
    ensures Reachable(plan, init, Fail(s, c, Fault))
  {
    ReachableInv(plan, init, s);
    assert Sized(plan, init, s);
    hide Reachable, Inv;
    var found, ok := SomeReading(plan, s, c);
    var e := if s.pcs[c].Checking? then Check(found, ok, true) else if s.pcs[c].Spawning? then Spawned(true) else Collect(found, ok, true);
    FaultApplies(plan, s, c, e);
    hide Enabled, Apply;
    ReachStep(plan, init, s, c, e, Fail(s, c, Fault));
  }

  lemma FaultApplies(plan: Plan, s: State, c: nat, e: Event)
    requires c < |plan.hashes| == |s.pcs| == |s.disk| && |s.disk[c]| == MAX_ATTEMPTS && HasTurn(s, c)
    requires match e
      case Check(found, ok, fault) => fault && s.pcs[c].Checking? && Reads(plan, s, c, found, ok)
      case Spawned(fault) => fault && s.pcs[c].Spawning?
      case Collect(found, ok, fault) => fault && s.pcs[c].Running? && Reads(plan, s, c, found, ok)
      case _ => false
    ensures Enabled(plan, s, c, e) && Apply(plan, s, c, e) == Fail(s, c, Fault)
  {
    hide HasTurn, Reads;
  }

  // ---- one run from nothing ----

  /** A state of the one-candidate plan; `tries` lists the attempts dispatched so far. */
  function Lone(slots: seq<Slot>, pc: Pc, active: map<nat, nat>, procs: map<nat, Proc>, tries: seq<(nat, nat)>): State {
    State([slots], [pc], active, procs, map[], [], [], [], false, tries)
  }

  function Nothing(): Origin {
    Origin([Slots(Missing, Missing, Missing)], map[])
  }

  lemma OneTurn(slots: seq<Slot>, pc: Pc, active: map<nat, nat>, procs: map<nat, Proc>, tries: seq<(nat, nat)>, next: Pc)
    ensures var s := Lone(slots, pc, active, procs, tries);
      && |s.pcs| == 1 && HasTurn(s, 0) && Goto(s, 0, next) == Lone(slots, next, active, procs, tries)
      && (!pc.Checking? && !pc.Spawning? && !pc.Running? ==> Holders(s) == {})
  {
    assert [pc][0 := next] == [next];
  }

  lemma NoneAccepted(slots: seq<Slot>)
    requires forall k :: 0 <= k < |slots| ==> slots[k].Written? ==> slots[k].status != Complete(true)
    ensures !Taken(OnePlan(), [slots], "h") && NoDuplicate(OnePlan(), [slots])
  {
    forall c: nat, k: nat ensures !AcceptedAt([slots], c, k) {
      assert c < 1 ==> [slots][c] == slots;
    }
  }

  lemma LoneStart()
    ensures Reachable(OnePlan(), Nothing(), Lone(Slots(Missing, Missing, Missing), LoopTop([]), map[], map[], []))
  {
    var empty := Slots(Missing, Missing, Missing);
    var s := Lone(empty, Begin, map[], map[], []);
    OneTurn(empty, Begin, map[], map[], [], LoopTop([]));
    ReachStart(OnePlan(), Nothing());
    assert Initial(Nothing()) == s;
    assert LedgerOk(empty, "h", 0);
    hide Reachable, HasTurn;
    ReachStep(OnePlan(), Nothing(), s, 0, Start([], true), Lone(empty, LoopTop([]), map[], map[], []));
  }

  lemma LoneAcquires()
    ensures Reachable(OnePlan(), Nothing(), Lone(Slots(Missing, Missing, Missing), Checking([]), map[], map[], []))
  {
    var empty := Slots(Missing, Missing, Missing);
    NoneAccepted(empty);
    LoneStart();
    hide Reachable, HasTurn, Taken, NoDuplicate, Holders;
    OneTurn(empty, LoopTop([]), map[], map[], [], Waiting([]));
    var s := Lone(empty, Waiting([]), map[], map[], []);
    ReachStep(OnePlan(), Nothing(), Lone(empty, LoopTop([]), map[], map[], []), 0, Top, s);
    OneTurn(empty, Waiting([]), map[], map[], [], Checking([]));
    ReachStep(OnePlan(), Nothing(), s, 0, Acquire, Lone(empty, Checking([]), map[], map[], []));
  }

  lemma LoneDispatches()
    ensures Reachable(OnePlan(), Nothing(), Lone(Slots(Missing, Missing, Missing), Spawning(1), map[], map[], [(0, 1)]))
  {
    var empty := Slots(Missing, Missing, Missing);
    var s := Lone(empty, Checking([]), map[], map[], []);
    LoneAcquires();
    OneTurn(empty, Checking([]), map[], map[], [], Spawning(1));
    assert LedgerOk(empty, "h", 0);
    hide Reachable, HasTurn;
    assert [] + [(0, 1)] == [(0, 1)];
    ReachStep(OnePlan(), Nothing(), s, 0, Check([], true, false), Lone(empty, Spawning(1), map[], map[], [(0, 1)]));
  }

  lemma LoneLaunches()
    ensures Reachable(OnePlan(), Nothing(),
                      Lone(Slots(Missing, Missing, Missing), Running(1), map[0 := 1], map[0 := Proc(1, None)], [(0, 1)]))
  {
    var empty := Slots(Missing, Missing, Missing);
    var tries := [(0, 1)];
    LoneDispatches();
    NoneAccepted(empty);
    hide Reachable, HasTurn, NoDuplicate, Taken;
    var s := Lone(empty, Spawning(1), map[], map[0 := Proc(1, None)], tries);
    ReachStep(OnePlan(), Nothing(), Lone(empty, Spawning(1), map[], map[], tries), 0, Fork, s);
    OneTurn(empty, Spawning(1), map[], map[0 := Proc(1, None)], tries, Running(1));
    ReachStep(OnePlan(), Nothing(), s, 0, Spawned(false), Lone(empty, Running(1), map[0 := 1], map[0 := Proc(1, None)], tries));
  }

  lemma LoneWrite(before: seq<Slot>, slot: Slot, after: seq<Slot>)
    requires |before| == MAX_ATTEMPTS && Advances(before[0], slot, "h") && after == before[0 := slot]
    requires Reachable(OnePlan(), Nothing(), Lone(before, Running(1), map[0 := 1], map[0 := Proc(1, None)], [(0, 1)]))
    ensures Reachable(OnePlan(), Nothing(), Lone(after, Running(1), map[0 := 1], map[0 := Proc(1, None)], [(0, 1)]))
  {
    hide Reachable, Advances;
    var s := Lone(before, Running(1), map[0 := 1], map[0 := Proc(1, None)], [(0, 1)]);
    assert [before][0 := after] == [after];
    ReachStep(OnePlan(), Nothing(), s, 0, Write(slot), Lone(after, Running(1), map[0 := 1], map[0 := Proc(1, None)], [(0, 1)]));
  }

  lemma LoneExit(slots: seq<Slot>)
    requires |slots| == MAX_ATTEMPTS
    requires Reachable(OnePlan(), Nothing(), Lone(slots, Running(1), map[0 := 1], map[0 := Proc(1, None)], [(0, 1)]))
    ensures Reachable(OnePlan(), Nothing(), Lone(slots, Running(1), map[0 := 1], map[0 := Proc(1, Some(false))], [(0, 1)]))
  {
    hide Reachable;
    var s := Lone(slots, Running(1), map[0 := 1], map[0 := Proc(1, None)], [(0, 1)]);
    ReachStep(OnePlan(), Nothing(), s, 0, Exit(false), Lone(slots, Running(1), map[0 := 1], map[0 := Proc(1, Some(false))], [(0, 1)]));
  }

  const FAILED := Written(true, "h", FailedNoRetry)

  lemma LoneFails()
    ensures Reachable(OnePlan(), Nothing(),
                      Lone(Slots(FAILED, Missing, Missing), Running(1), map[0 := 1], map[0 := Proc(1, Some(false))], [(0, 1)]))
  {
    hide Reachable;
    LoneLaunches();
    LoneWrite(Slots(Missing, Missing, Missing), Bare, Slots(Bare, Missing, Missing));
    LoneWrite(Slots(Bare, Missing, Missing), STARTED, Slots(STARTED, Missing, Missing));
    LoneWrite(Slots(STARTED, Missing, Missing), FAILED, Slots(FAILED, Missing, Missing));
    LoneExit(Slots(FAILED, Missing, Missing));
  }

  /** From nothing: attempt 1 fails, is recorded, and attempt 2 is dispatched without an error. */
  lemma SecondAttempt() returns (t: State)
    ensures Reachable(OnePlan(), Nothing(), t)
    ensures t.errors == [] && !t.stop && t.failed == [(0, 1)] && t.dispatches == [(0, 1), (0, 2)]
  {
    var slots := Slots(FAILED, Missing, Missing);
    var s := Lone(slots, Running(1), map[0 := 1], map[0 := Proc(1, Some(false))], [(0, 1)]);
    LoneFails();
    NoneAccepted(slots);
    OneTurn(slots, Running(1), map[0 := 1], map[0 := Proc(1, Some(false))], [(0, 1)], Done);
    assert FailedFree(OnePlan(), s, 0, 1) by {
      hide NoDuplicate, Taken, HasTurn;
    }
    hide Reachable, FailedFree;
    t := FailedIsRetried(OnePlan(), Nothing(), s, 0, 1);
  }
}
