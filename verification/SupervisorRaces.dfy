/** What a worker of an earlier supervisor, still alive when a run begins, can and cannot do to that run. */
module SupervisorRaces {
  import opened Common
  import opened Supervisor
  import opened SupervisorProtocol
  import opened SupervisorSafety

  /** A counter between the reading of the ledger and the check inside the semaphore. */
  predicate Holding(pc: Pc) {
    pc.LoopTop? || pc.Backoff? || pc.Waiting? || pc.Checking?
  }

  /** Step `a` read the ledger of `c`; since then `c` has only moved on towards its second reading. */
  ghost predicate ReadAt(run: seq<State>, a: nat, i: nat, c: nat) {
    && a < i < |run| && c < |run[a].pcs| && !Holding(run[a].pcs[c])
    && forall k: nat :: a < k <= i ==> c < |run[k].pcs| && Holding(run[k].pcs[c])
  }

  /** In step `w` the worker left over writes the ledger of `c`. */
  ghost predicate WorkerWrites(run: seq<State>, w: nat, c: nat) {
    && w + 1 < |run| && c in run[w].leftover && c < |run[w].disk| && c < |run[w + 1].disk|
    && run[w + 1].disk[c] != run[w].disk[c]
  }

  ghost predicate WroteBetween(run: seq<State>, a: nat, i: nat, c: nat) {
    exists w: nat :: a < w < i && WorkerWrites(run, w, c)
  }

  /** What one step means for the ledger that candidate `d` remembers. */
  ghost predicate Memory(plan: Plan, s: State, t: State, d: nat)
    requires d < |plan.hashes| && d < |s.pcs| == |t.pcs| && d < |s.disk| == |t.disk|
  {
    && (!Holding(s.pcs[d]) && Holding(t.pcs[d]) ==>
        Recalls(s.disk[d], plan.hashes[d], t.pcs[d].prior) && t.disk[d] == s.disk[d])
    && (Holding(s.pcs[d]) && Holding(t.pcs[d]) ==>
        t.pcs[d].prior == s.pcs[d].prior && (t.disk[d] == s.disk[d] || d in s.leftover))
    && Grown(s.disk[d], t.disk[d])
  }

  lemma DispatchForgets(plan: Plan, s: State, c: nat, prior: seq<Slot>, found: seq<Slot>, ok: bool, fault: bool, n: nat)
    requires c < |s.pcs| && c < |s.disk|
    ensures var t := Recheck(s, c, prior, found, ok, fault); |t.pcs| == |s.pcs| && !Holding(t.pcs[c])
    ensures var t := Launch(plan, s, c, n); |t.pcs| == |s.pcs| && !Holding(t.pcs[c])
  {
    hide NoDuplicate;
  }

  lemma OwnMemory(plan: Plan, init: Origin, s: State, c: nat, e: Event)
    requires Inv(plan, init, s) && Enabled(plan, s, c, e)
    ensures |Apply(plan, s, c, e).pcs| == |s.pcs| == |Apply(plan, s, c, e).disk| == |s.disk|
    ensures Memory(plan, s, Apply(plan, s, c, e), c)
  {
    assert PcKnows(plan, init, s, c) && Grown(s.disk[c], s.disk[c]) && Sized(plan, init, s);
    hide Inv, NoDuplicate, Taken, LedgerOk, LedgerLive, Sized, Knowing, Grown, HasTurn, Advances, AtTop, InSemaphore, Judge, Moved,
      Remembers, Recheck, Launch, DispatchOk, Recalls;
    StepKeepsSizes(plan, init, s, c, e);
    GrownStep(plan, s, c, e, s.disk[c]);
    DiskOnlyWritten(plan, s, c, e);
    match e
    case Top => TopGoes(plan, s, c, s.pcs[c].prior);
    case Acquire => AcquireGoes(plan, s, c, s.pcs[c].prior);
    case Start(found, ok) => ReadsRecall(plan, s, c, found, ok);
    case Check(found, ok, fault) => DispatchForgets(plan, s, c, s.pcs[c].prior, found, ok, fault, 0);
    case Spawned(fault) => DispatchForgets(plan, s, c, [], [], false, false, s.pcs[c].attempt);
    case Collect(found, ok, fault) =>
      ReadsRecall(plan, s, c, found, ok);
      if !fault {
        JudgeGoes(plan, s, c, s.pcs[c].attempt, found, ok);
      }
    case _ =>
  }

  lemma ReadsRecall(plan: Plan, s: State, c: nat, found: seq<Slot>, ok: bool)
    requires c < |plan.hashes| == |s.disk| && Reads(plan, s, c, found, ok)
    ensures ok ==> Recalls(s.disk[c], plan.hashes[c], found)
  {
  }

  lemma StepMemory(plan: Plan, init: Origin, s: State, t: State, d: nat)
    requires Inv(plan, init, s) && Next(plan, s, t) && d < |s.pcs|
    ensures |t.pcs| == |s.pcs| == |t.disk| == |s.disk| == |plan.hashes| && Memory(plan, s, t, d)
  {
    var c, e :| Enabled(plan, s, c, e) && t == Apply(plan, s, c, e);
    StepKeepsSizes(plan, init, s, c, e);
    if d == c {
      OwnMemory(plan, init, s, c, e);
    } else {
      StepIsLocal(plan, s, c, e, d);
    }
    hide Apply, Enabled, Inv;
  }

  /** Every candidate has a counter and a ledger in every state of a run. */
  lemma RunSizes(plan: Plan, init: Origin, run: seq<State>, i: nat)
    requires IsRun(plan, init, run) && i < |run|
    ensures |run[i].pcs| == |run[i].disk| == |plan.hashes|
  {
    RunKeepsInv(plan, init, run, i);
  }

  lemma RunStep(plan: Plan, init: Origin, run: seq<State>, i: nat, d: nat)
    requires IsRun(plan, init, run) && i + 1 < |run| && d < |plan.hashes|
    ensures |run[i].pcs| == |run[i].disk| == |run[i + 1].pcs| == |run[i + 1].disk| == |plan.hashes|
    ensures Memory(plan, run[i], run[i + 1], d)
  {
    assert Next(plan, run[i], run[i + 1]) by {
      var j := i + 1;
      assert Next(plan, run[i], run[j]);
    }
    RunSizes(plan, init, run, i);
    RunKeepsInv(plan, init, run, i);
    hide *;
    StepMemory(plan, init, run[i], run[i + 1], d);
  }

  lemma GrownOnwards(x: seq<Slot>, y: seq<Slot>, z: seq<Slot>)
    requires Grown(x, y) && Grown(y, z)
    ensures Grown(x, z) && (x == z ==> x == y == z)
  {
    if x == z {
      forall k | 0 <= k < |x| ensures x[k] == y[k] {
      }
    }
  }

  lemma {:induction false} RunGrows(plan: Plan, init: Origin, run: seq<State>, i: nat, j: nat, c: nat)
    requires IsRun(plan, init, run) && i <= j < |run| && c < |plan.hashes|
    ensures c < |run[i].disk| && c < |run[j].disk| && Grown(run[i].disk[c], run[j].disk[c])
  {
    hide IsRun;
    RunSizes(plan, init, run, i);
    if i < j {
      RunStep(plan, init, run, j - 1, c);
      RunGrows(plan, init, run, i, j - 1, c);
      GrownOnwards(run[i].disk[c], run[j - 1].disk[c], run[j].disk[c]);
    }
  }

  /** The remembered attempts are the ledger at the reading, and only a worker left over can have changed it since. */
  lemma {:induction false} Remembered(plan: Plan, init: Origin, run: seq<State>, a: nat, i: nat, c: nat)
    requires IsRun(plan, init, run) && ReadAt(run, a, i, c)
    ensures c < |plan.hashes| && c < |run[a].disk| && c < |run[i].disk|
    ensures Recalls(run[a].disk[c], plan.hashes[c], run[i].pcs[c].prior)
    ensures run[a].disk[c] != run[i].disk[c] ==> WroteBetween(run, a, i, c)
  {
    hide IsRun, Recalls, Grown;
    RunSizes(plan, init, run, a);
    RunStep(plan, init, run, i - 1, c);
    if a < i - 1 {
      Remembered(plan, init, run, a, i - 1, c);
      if WroteBetween(run, a, i - 1, c) {
        var w: nat :| a < w < i - 1 && WorkerWrites(run, w, c);
        assert a < w < i;
      } else if run[i - 1].disk[c] != run[i].disk[c] {
        assert WorkerWrites(run, i - 1, c);
      }
    }
  }

  /** What a worker wrote is still to be seen. */
  lemma WrittenShows(plan: Plan, init: Origin, run: seq<State>, a: nat, i: nat, c: nat)
    requires IsRun(plan, init, run) && ReadAt(run, a, i, c) && WroteBetween(run, a, i, c)
    ensures c < |run[a].disk| && c < |run[i].disk| && run[a].disk[c] != run[i].disk[c]
  {
    hide IsRun, Grown;
    RunSizes(plan, init, run, a);
    var w: nat :| a < w < i && WorkerWrites(run, w, c);
    RunGrows(plan, init, run, a, w, c);
    RunGrows(plan, init, run, w, w + 1, c);
    RunGrows(plan, init, run, w + 1, i, c);
    GrownOnwards(run[a].disk[c], run[w].disk[c], run[w + 1].disk[c]);
    GrownOnwards(run[a].disk[c], run[w + 1].disk[c], run[i].disk[c]);
  }

  ghost predicate Raises(s: State, t: State, c: nat, reason: Reason) {
    |t.errors| == |s.errors| + 1 && t.errors[..|s.errors|] == s.errors && t.errors[|s.errors|] == (c, reason)
  }

  /**
   * The check inside the semaphore finds a changed ledger if and only if the candidate had a worker left over that
   * wrote between the two readings, has ended, and left a valid ledger; with no such write the attempt is dispatched.
   */
  lemma ChangedIffWorkerWrote(plan: Plan, init: Origin, run: seq<State>, a: nat, i: nat, c: nat, e: Event)
    requires IsRun(plan, init, run) && ReadAt(run, a, i, c)
    requires run[i].pcs[c].Checking? && e.Check? && Enabled(plan, run[i], c, e)
    ensures var s, t := run[i], Apply(plan, run[i], c, e);
      && (Raises(s, t, c, LedgerChanged)
          <==> !e.fault && c !in s.leftover && e.ok && WroteBetween(run, a, i, c))
      && (!e.fault && c !in s.leftover && !WroteBetween(run, a, i, c) ==>
          t.errors == s.errors && t.dispatches == s.dispatches + [(c, |s.pcs[c].prior| + 1)])
  {
    hide IsRun, Recalls, Reads, Next, NoDuplicate, Taken, HasTurn, Grown, WroteBetween;
    var s := run[i];
    RunKeepsInv(plan, init, run, i);
    Remembered(plan, init, run, a, i, c);
    RunGrows(plan, init, run, a, i, c);
    if WroteBetween(run, a, i, c) {
      WrittenShows(plan, init, run, a, i, c);
    }
    SecondReading(plan, init, s, c, run[a].disk[c], e);
  }

  /** The second reading finds the remembered attempts exactly if the ledger is as it was then. */
  lemma SecondReading(plan: Plan, init: Origin, s: State, c: nat, before: seq<Slot>, e: Event)
    requires Inv(plan, init, s) && e.Check? && Enabled(plan, s, c, e)
    requires Recalls(before, plan.hashes[c], s.pcs[c].prior) && Grown(before, s.disk[c])
    ensures e.ok && e.found == s.pcs[c].prior <==> before == s.disk[c]
    ensures e.ok && e.found == s.pcs[c].prior ==> |e.found| < MAX_ATTEMPTS && s.disk[c][|e.found|] == Missing
  {
    var prior, slots, hash := s.pcs[c].prior, s.disk[c], plan.hashes[c];
    assert PcKnows(plan, init, s, c);
    CheckCounter(plan, init, s, c, e.found, e.ok, e.fault);
    hide Inv, PcKnows, NoDuplicate, Taken, HasTurn;
    if e.ok && e.found == prior {
      SameLedger(before, slots, hash, |prior|);
    }
    if e.ok && before == slots {
      LedgerLength(slots, hash, |prior|, |e.found|);
    }
  }

  /** A valid ledger is determined by its attempts. */
  lemma SameLedger(x: seq<Slot>, y: seq<Slot>, hash: string, n: nat)
    requires |x| == |y| && LedgerOk(x, hash, n) && LedgerOk(y, hash, n) && x[..n] == y[..n]
    ensures x == y
  {
    forall k | 0 <= k < |x| ensures x[k] == y[k] {
      if k < n {
        assert x[..n][k] == y[..n][k];
      }
    }
  }

  // ---- concrete runs ----

  /** Some run ends in `s`. */
  ghost predicate Reachable(plan: Plan, init: Origin, s: State) {
    exists run :: IsRun(plan, init, run) && run[|run| - 1] == s
  }

  lemma ReachStart(plan: Plan, init: Origin)
    requires Origins(plan, init)
    ensures Reachable(plan, init, Initial(init))
  {
    assert IsRun(plan, init, [Initial(init)]);
  }

  lemma Extend(plan: Plan, init: Origin, run: seq<State>, t: State)
    requires IsRun(plan, init, run) && Next(plan, run[|run| - 1], t)
    ensures IsRun(plan, init, run + [t])
  {
    hide Next, Origins;
    var longer := run + [t];
    forall i, j | 0 <= i && j == i + 1 < |longer| ensures Next(plan, longer[i], longer[j]) {
      if j < |run| {
        assert Next(plan, run[i], run[j]);
      }
    }
  }

  lemma ReachStep(plan: Plan, init: Origin, s: State, c: nat, e: Event, t: State)
    requires Reachable(plan, init, s) && Enabled(plan, s, c, e) && t == Apply(plan, s, c, e)
    ensures Reachable(plan, init, t)
  {
    assert Next(plan, s, t);
    hide Apply, Enabled, Next, IsRun;
    var run :| IsRun(plan, init, run) && run[|run| - 1] == s;
    Extend(plan, init, run, t);
    assert (run + [t])[|run + [t]| - 1] == t;
  }

  function Slots(a: Slot, b: Slot, c: Slot): seq<Slot> {
    [a, b, c]
  }

  function OnePlan(): Plan {
    Plan(["h"], {}, [], 1)
  }

  /** One candidate whose attempt `n`, the last, an earlier supervisor's worker is still making. */
  function OneLeftover(slots: seq<Slot>, n: nat): Origin {
    Origin([slots], map[0 := n])
  }

  /** A state of the one-candidate plan before anything was dispatched. */
  function OneState(slots: seq<Slot>, pc: Pc, leftover: map<nat, nat>, completed: seq<Entry>): State {
    State([slots], [pc], map[], map[], leftover, completed, [], [], false, [])
  }

  lemma OneStart(plan: Plan, slots: seq<Slot>, k: nat, n: nat)
    requires plan.hashes == ["h"] && |slots| == MAX_ATTEMPTS && LedgerOk(slots, "h", k) && LedgerLive(slots, "h", n)
    ensures Reachable(plan, OneLeftover(slots, n), OneState(slots, LoopTop(slots[..k]), map[0 := n], []))
  {
    var init, e := OneLeftover(slots, n), Start(slots[..k], true);
    ReachStart(plan, init);
    assert Initial(init) == OneState(slots, Begin, map[0 := n], []);
    assert [Begin][0 := LoopTop(slots[..k])] == [LoopTop(slots[..k])];
    ReachStep(plan, init, Initial(init), 0, e, OneState(slots, LoopTop(slots[..k]), map[0 := n], []));
  }

  const STARTED := Written(true, "h", RequestStarted)
  const DECLINED := Written(true, "h", Complete(false))

  lemma OneClean(slots: seq<Slot>, n: nat)
    requires forall k :: 0 <= k < |slots| ==> slots[k] == STARTED || slots[k] == Missing
    ensures Clean(OnePlan(), [slots], map[0 := n])
  {
    forall c: nat, k: nat ensures !AcceptedAt([slots], c, k) {
      assert c < 1 ==> [slots][c] == slots;
    }
  }

  lemma OneTop(init: Origin, slots: seq<Slot>, prior: seq<Slot>, n: nat)
    requires slots == Slots(STARTED, Missing, Missing) && prior == [STARTED]
    requires Reachable(OnePlan(), init, OneState(slots, LoopTop(prior), map[0 := n], []))
    ensures Reachable(OnePlan(), init, OneState(slots, Backoff(prior), map[0 := n], []))
  {
    hide NoDuplicate, Reachable;
    assert [LoopTop(prior)][0 := Backoff(prior)] == [Backoff(prior)];
    var s, t := OneState(slots, LoopTop(prior), map[0 := n], []), OneState(slots, Backoff(prior), map[0 := n], []);
    ReachStep(OnePlan(), init, s, 0, Top, t);
  }

  lemma OneExhausted(init: Origin, slots: seq<Slot>, n: nat)
    requires slots == Slots(STARTED, STARTED, STARTED)
    requires Reachable(OnePlan(), init, OneState(slots, LoopTop(slots), map[0 := n], []))
    ensures Reachable(OnePlan(), init, OneState(slots, Done, map[0 := n], [Entry(0, Exhausted, 3)]))
  {
    hide Reachable;
    assert [LoopTop(slots)][0 := Done] == [Done];
    var s, t := OneState(slots, LoopTop(slots), map[0 := n], []), OneState(slots, Done, map[0 := n], [Entry(0, Exhausted, 3)]);
    ReachStep(OnePlan(), init, s, 0, Top, t);
  }

  lemma OneWake(init: Origin, slots: seq<Slot>, prior: seq<Slot>, n: nat)
    requires |slots| == MAX_ATTEMPTS && Reachable(OnePlan(), init, OneState(slots, Backoff(prior), map[0 := n], []))
    ensures Reachable(OnePlan(), init, OneState(slots, Waiting(prior), map[0 := n], []))
  {
    hide Reachable;
    assert [Backoff(prior)][0 := Waiting(prior)] == [Waiting(prior)];
    var s, t := OneState(slots, Backoff(prior), map[0 := n], []), OneState(slots, Waiting(prior), map[0 := n], []);
    ReachStep(OnePlan(), init, s, 0, Wake, t);
  }

  lemma OneWrite(plan: Plan, init: Origin, slots: seq<Slot>, pc: Pc, n: nat, completed: seq<Entry>, slot: Slot)
    requires plan.hashes == ["h"] && |slots| == MAX_ATTEMPTS && 1 <= n <= MAX_ATTEMPTS && Advances(slots[n - 1], slot, "h")
    requires Reachable(plan, init, OneState(slots, pc, map[0 := n], completed))
    ensures Reachable(plan, init, OneState(slots[n - 1 := slot], pc, map[0 := n], completed))
  {
    hide Advances, Reachable;
    var after := slots[n - 1 := slot];
    assert [slots][0 := after] == [after];
    var s, t := OneState(slots, pc, map[0 := n], completed), OneState(after, pc, map[0 := n], completed);
    ReachStep(plan, init, s, 0, LeftWrite(slot), t);
  }

  lemma OneEnd(init: Origin, slots: seq<Slot>, pc: Pc, n: nat)
    requires |slots| == MAX_ATTEMPTS && Reachable(OnePlan(), init, OneState(slots, pc, map[0 := n], []))
    ensures Reachable(OnePlan(), init, OneState(slots, pc, map[], []))
  {
    hide Reachable;
    ReachStep(OnePlan(), init, OneState(slots, pc, map[0 := n], []), 0, LeftExit, OneState(slots, pc, map[], []));
  }

  lemma OneAcquire(init: Origin, slots: seq<Slot>, prior: seq<Slot>)
    requires slots == Slots(DECLINED, Missing, Missing)
    requires Reachable(OnePlan(), init, OneState(slots, Waiting(prior), map[], []))
    ensures Reachable(OnePlan(), init, OneState(slots, Checking(prior), map[], []))
  {
    hide NoDuplicate, Reachable;
    assert Holders(OneState(slots, Waiting(prior), map[], [])) == {};
    assert [Waiting(prior)][0 := Checking(prior)] == [Checking(prior)];
    var s, t := OneState(slots, Waiting(prior), map[], []), OneState(slots, Checking(prior), map[], []);
    ReachStep(OnePlan(), init, s, 0, Acquire, t);
  }

  lemma OneCheck(init: Origin, slots: seq<Slot>, prior: seq<Slot>) returns (t: State)
    requires slots == Slots(DECLINED, Missing, Missing) && prior == [STARTED]
    requires Reachable(OnePlan(), init, OneState(slots, Checking(prior), map[], []))
    ensures Reachable(OnePlan(), init, t) && (0, LedgerChanged) in t.errors
  {
    hide Reachable, NoDuplicate;
    var s, e := OneState(slots, Checking(prior), map[], []), Check(slots[..1], true, false);
    assert LedgerOk(slots, "h", 1) && slots[..1][0] != prior[0];
    t := Apply(OnePlan(), s, 0, e);
    ReachStep(OnePlan(), init, s, 0, e, t);
  }

  /** The worker of attempt 1 finishes while its candidate sleeps, so the run stops on a changed ledger. */
  lemma FinishedWorkerStopsRun() returns (init: Origin, s: State)
    ensures init == OneLeftover(Slots(STARTED, Missing, Missing), 1) && Clean(OnePlan(), init.disk, init.leftover)
    ensures Reachable(OnePlan(), init, s) && (0, LedgerChanged) in s.errors
  {
    var before, after := Slots(STARTED, Missing, Missing), Slots(DECLINED, Missing, Missing);
    init := OneLeftover(before, 1);
    var prior := [STARTED];
    OneStart(OnePlan(), before, 1, 1);
    OneClean(before, 1);
    assert before[..1] == prior && before[0 := DECLINED] == after;
    hide *;
    OneTop(init, before, prior, 1);
    OneWake(init, before, prior, 1);
    OneWrite(OnePlan(), init, before, Waiting(prior), 1, [], DECLINED);
    OneEnd(init, after, Waiting(prior), 1);
    OneAcquire(init, after, prior);
    s := OneCheck(init, after, prior);
  }

  const ACCEPTED := Written(true, "h", Complete(true))

  lemma LateEntryFalse(after: seq<Slot>)
    requires after == Slots(STARTED, STARTED, ACCEPTED)
    ensures !EntryTrue(OnePlan(), [after], Entry(0, Exhausted, 3))
  {
    hide Taken, LedgerOk;
    assert [after][0] == after && after[2].status == Complete(true);
  }

  /** The worker of attempt 3 completes its review after its candidate was listed as exhausted. */
  lemma LateReviewBeliesEntry() returns (init: Origin, s: State)
    ensures init == OneLeftover(Slots(STARTED, STARTED, STARTED), 3) && Clean(OnePlan(), init.disk, init.leftover)
    ensures Reachable(OnePlan(), init, s)
    ensures s.completed == [Entry(0, Exhausted, 3)] && !EntryTrue(OnePlan(), s.disk, Entry(0, Exhausted, 3))
  {
    var slots, after := Slots(STARTED, STARTED, STARTED), Slots(STARTED, STARTED, ACCEPTED);
    init := OneLeftover(slots, 3);
    s := OneState(after, Done, map[0 := 3], [Entry(0, Exhausted, 3)]);
    assert slots[..3] == slots && slots[2 := ACCEPTED] == after;
    hide Reachable, EntryTrue, Clean, Origins, NoDuplicate, Reserved, Apply, Enabled, Taken;
    OneStart(OnePlan(), slots, 3, 3);
    OneClean(slots, 3);
    LateEntryFalse(after);
    hide *;
    OneExhausted(init, slots, 3);
    OneWrite(OnePlan(), init, slots, Done, 3, [Entry(0, Exhausted, 3)], ACCEPTED);
  }

  lemma OneAcquireTaken(init: Origin, slots: seq<Slot>)
    requires slots == Slots(ACCEPTED, Missing, Missing)
    requires Reachable(OnePlan(), init, OneState(slots, Waiting([STARTED]), map[0 := 1], []))
    ensures Reachable(OnePlan(), init, OneState(slots, Done, map[0 := 1], [Entry(0, AcceptedElsewhere, 1)]))
  {
    hide Reachable;
    assert AcceptedAt([slots], 0, 0);
    assert Holders(OneState(slots, Waiting([STARTED]), map[0 := 1], [])) == {};
    assert [Waiting([STARTED])][0 := Done] == [Done];
    var s := OneState(slots, Waiting([STARTED]), map[0 := 1], []);
    ReachStep(OnePlan(), init, s, 0, Acquire, OneState(slots, Done, map[0 := 1], [Entry(0, AcceptedElsewhere, 1)]));
  }

  lemma OwnEntryFalse(after: seq<Slot>)
    requires after == Slots(ACCEPTED, Missing, Missing)
    ensures !EntryTrue(OnePlan(), [after], Entry(0, AcceptedElsewhere, 1))
  {
    hide TakenElsewhere, LedgerOk;
    assert [after][0] == after && after[0].status == Complete(true);
  }

  /** The worker of attempt 1 accepts the task while its candidate sleeps; the candidate is listed as accepted elsewhere. */
  lemma OwnReviewListedElsewhere() returns (init: Origin, s: State)
    ensures init == OneLeftover(Slots(STARTED, Missing, Missing), 1) && Clean(OnePlan(), init.disk, init.leftover)
    ensures Reachable(OnePlan(), init, s) && s.errors == []
    ensures s.completed == [Entry(0, AcceptedElsewhere, 1)] && !EntryTrue(OnePlan(), s.disk, Entry(0, AcceptedElsewhere, 1))
  {
    var before, after := Slots(STARTED, Missing, Missing), Slots(ACCEPTED, Missing, Missing);
    init := OneLeftover(before, 1);
    s := OneState(after, Done, map[0 := 1], [Entry(0, AcceptedElsewhere, 1)]);
    var prior := [STARTED];
    assert before[..1] == prior && before[0 := ACCEPTED] == after;
    hide Reachable, EntryTrue, Clean, Origins, NoDuplicate, Reserved, Apply, Enabled, Taken;
    OneStart(OnePlan(), before, 1, 1);
    OneClean(before, 1);
    OwnEntryFalse(after);
    hide *;
    OneTop(init, before, prior, 1);
    OneWake(init, before, prior, 1);
    OneWrite(OnePlan(), init, before, Waiting(prior), 1, [], ACCEPTED);
    OneAcquireTaken(init, after);
  }

  function FrozenPlan(): Plan {
    Plan(["h"], {"h"}, [], 1)
  }

  lemma OneFrozen(init: Origin, slots: seq<Slot>)
    requires slots == Slots(Missing, Missing, Missing)
    requires Reachable(FrozenPlan(), init, OneState(slots, LoopTop([]), map[0 := 1], []))
    ensures Reachable(FrozenPlan(), init, OneState(slots, Done, map[0 := 1], [Entry(0, AcceptedElsewhere, 0)]))
  {
    hide Reachable;
    assert [LoopTop([])][0 := Done] == [Done];
    var s := OneState(slots, LoopTop([]), map[0 := 1], []);
    ReachStep(FrozenPlan(), init, s, 0, Top, OneState(slots, Done, map[0 := 1], [Entry(0, AcceptedElsewhere, 0)]));
  }

  /** A worker creates its attempt directory after its candidate was listed, with no attempts, as accepted elsewhere. */
  lemma LateAttemptBeliesEntry() returns (init: Origin, s: State)
    ensures init == OneLeftover(Slots(Missing, Missing, Missing), 1)
    ensures Reachable(FrozenPlan(), init, s) && s.errors == []
    ensures s.completed == [Entry(0, AcceptedElsewhere, 0)] && !EntryTrue(FrozenPlan(), s.disk, Entry(0, AcceptedElsewhere, 0))
  {
    var before, after := Slots(Missing, Missing, Missing), Slots(Bare, Missing, Missing);
    init := OneLeftover(before, 1);
    s := OneState(after, Done, map[0 := 1], [Entry(0, AcceptedElsewhere, 0)]);
    assert before[..0] == [] && before[0 := Bare] == after && [after][0] == after && after[0] != Missing;
    assert !EntryTrue(FrozenPlan(), [after], Entry(0, AcceptedElsewhere, 0));
    hide Reachable, EntryTrue, Clean, Origins, NoDuplicate, Reserved, Apply, Enabled, Taken;
    OneStart(FrozenPlan(), before, 0, 1);
    hide *;
    OneFrozen(init, before);
    OneWrite(FrozenPlan(), init, before, Done, 1, [Entry(0, AcceptedElsewhere, 0)], Bare);
  }

  // ---- exactly when a task can be accepted twice ----

  /** A worker that has not settled its attempt may accept its task next. */
  lemma {:induction false} WorkerCanAccept(plan: Plan, init: Origin, s: State, c: nat) returns (t: State)
    requires Reachable(plan, init, s) && c in s.leftover && c < |plan.hashes| == |s.pcs| == |s.disk|
    requires |s.disk[c]| == MAX_ATTEMPTS && Unsettled(s.disk, c, s.leftover[c])
    ensures Reachable(plan, init, t)
    ensures t.disk == s.disk[c := s.disk[c][s.leftover[c] - 1 := Written(true, plan.hashes[c], Complete(true))]]
    decreases 3 - Rank(s.disk[c][s.leftover[c] - 1])
  {
    hide Reachable, NoDuplicate, Taken, HasTurn;
    var k, hash := s.leftover[c] - 1, plan.hashes[c];
    var slot := match s.disk[c][k]
      case Missing => Bare
      case Bare => Written(true, hash, RequestStarted)
      case Written(_, _, _) => Written(true, hash, Complete(true));
    var next := s.(disk := s.disk[c := s.disk[c][k := slot]]);
    ReachStep(plan, init, s, c, LeftWrite(slot), next);
    if s.disk[c][k].Written? {
      t := next;
    } else {
      t := WorkerCanAccept(plan, init, next, c);
      assert next.disk[c][k := Written(true, hash, Complete(true))] == s.disk[c][k := Written(true, hash, Complete(true))];
    }
  }

  lemma AcceptedTwice(plan: Plan, disk: Disk, c: nat, n: nat)
    requires c < |plan.hashes| && c < |disk| && 1 <= n <= |disk[c]| && !Reserved(plan, disk, c, n)
    ensures !NoDuplicate(plan, disk[c := disk[c][n - 1 := Written(true, plan.hashes[c], Complete(true))]])
  {
    var k, hash := n - 1, plan.hashes[c];
    var after := disk[c := disk[c][k := Written(true, hash, Complete(true))]];
    assert AcceptedAt(after, c, k) && after[c][k].hash == hash;
    if hash !in plan.foreign {
      var d: nat, m: nat :| AcceptedAt(disk, d, m) && disk[d][m].hash == hash && !(d == c && m + 1 == n);
      assert AcceptedAt(after, d, m) && after[d][m].hash == hash && (d, m) != (c, k);
    }
  }

  /** No run accepts a task twice if and only if the start is clean. */
  lemma NeverTwiceIffClean(plan: Plan, init: Origin)
    requires Origins(plan, init)
    ensures Clean(plan, init.disk, init.leftover) <==> forall s :: Reachable(plan, init, s) ==> NoDuplicate(plan, s.disk)
  {
    if Clean(plan, init.disk, init.leftover) {
      forall s | Reachable(plan, init, s) ensures NoDuplicate(plan, s.disk) {
        CleanReach(plan, init, s);
      }
    } else {
      ReachStart(plan, init);
      var s := Initial(init);
      if NoDuplicate(plan, init.disk) {
        var c: nat :| c in init.leftover && c < |plan.hashes| && Unsettled(init.disk, c, init.leftover[c])
          && !Reserved(plan, init.disk, c, init.leftover[c]);
        hide Reachable, NoDuplicate, Reserved, Clean;
        s := WorkerCanAccept(plan, init, s, c);
        AcceptedTwice(plan, init.disk, c, init.leftover[c]);
      }
      assert Reachable(plan, init, s) && !NoDuplicate(plan, s.disk);
    }
  }

  lemma CleanReach(plan: Plan, init: Origin, s: State)
    requires Reachable(plan, init, s) && Clean(plan, init.disk, init.leftover)
    ensures NoDuplicate(plan, s.disk)
  {
    var run :| IsRun(plan, init, run) && run[|run| - 1] == s;
    DuplicateUnreachable(plan, init, run, |run| - 1);
  }

  function ForeignPlan(): Plan {
    Plan(["h"], {}, ["h"], 1)
  }

  lemma OneForeign(init: Origin, slots: seq<Slot>) returns (t: State)
    requires slots == Slots(ACCEPTED, Missing, Missing)
    requires Reachable(ForeignPlan(), init, OneState(slots, LoopTop([STARTED]), map[0 := 1], []))
    ensures Reachable(ForeignPlan(), init, t) && (0, DuplicateAccepted) in t.errors
  {
    hide Reachable;
    var s := OneState(slots, LoopTop([STARTED]), map[0 := 1], []);
    assert AcceptedAt([slots], 0, 0) && [slots][0][0].hash in ForeignPlan().foreign;
    t := Apply(ForeignPlan(), s, 0, Top);
    ReachStep(ForeignPlan(), init, s, 0, Top, t);
  }

  /** Nothing is accepted twice at the start, but the worker of attempt 1 accepts a task accepted outside the plan. */
  lemma UnreservedWorkerDuplicates() returns (init: Origin, s: State)
    ensures init == OneLeftover(Slots(STARTED, Missing, Missing), 1) && NoDuplicate(ForeignPlan(), init.disk)
    ensures Reachable(ForeignPlan(), init, s) && (0, DuplicateAccepted) in s.errors
  {
    var before, after := Slots(STARTED, Missing, Missing), Slots(ACCEPTED, Missing, Missing);
    init := OneLeftover(before, 1);
    assert before[..1] == [STARTED] && before[0 := ACCEPTED] == after;
    OneNoDuplicate(before);
    hide Reachable, Clean, Origins, NoDuplicate, Reserved, Apply, Enabled, Taken;
    OneStart(ForeignPlan(), before, 1, 1);
    hide *;
    OneWrite(ForeignPlan(), init, before, LoopTop([STARTED]), 1, [], ACCEPTED);
    s := OneForeign(init, after);
  }

  lemma OneNoDuplicate(slots: seq<Slot>)
    requires slots == Slots(STARTED, Missing, Missing)
    ensures NoDuplicate(ForeignPlan(), [slots])
  {
    forall c: nat, k: nat ensures !AcceptedAt([slots], c, k) {
      assert c < 1 ==> [slots][c] == slots;
    }
  }
}
