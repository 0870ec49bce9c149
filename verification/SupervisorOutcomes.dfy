/** What each section of a candidate does with what it meets, which errors have which causes, and which attempts are retried. */
module SupervisorOutcomes {
  import opened Common
  import opened Supervisor
  import opened SupervisorProtocol
  import opened SupervisorSafety
  import opened SupervisorRaces

  // ---- the ways a section can end ----

  ghost predicate NoError(s: State, t: State) {
    t.errors == s.errors && t.stop == s.stop
  }

  /** The error is kept, the stop flag goes up and the candidate is over. */
  ghost predicate Halts(s: State, t: State, c: nat, reason: Reason)
    requires c < |s.pcs|
  {
    t.errors == s.errors + [(c, reason)] && t.stop && t.pcs == s.pcs[c := Done]
  }

  /** With two accepted reviews of one task the section ends in that error, otherwise at `pc`. */
  ghost predicate Snapped(plan: Plan, s: State, t: State, c: nat, pc: Pc)
    requires c < |s.pcs|
  {
    if NoDuplicate(plan, s.disk) then NoError(s, t) && t.pcs == s.pcs[c := pc] else Halts(s, t, c, DuplicateAccepted)
  }

  ghost predicate SameProcesses(s: State, t: State) {
    t.disk == s.disk && t.active == s.active && t.procs == s.procs && t.leftover == s.leftover
  }

  ghost predicate SameLists(s: State, t: State) {
    t.completed == s.completed && t.failed == s.failed && t.dispatches == s.dispatches
  }

  ghost predicate ListsEntry(s: State, t: State, c: nat, verdict: Verdict, attempts: nat) {
    t.completed == s.completed + [Entry(c, verdict, attempts)] && t.failed == s.failed && t.dispatches == s.dispatches
  }

  /** The last of the attempts is a completed review with this verdict. */
  predicate Ends(prior: seq<Slot>, accepted: bool) {
    LastIs(prior, |prior|, Complete(accepted))
  }

  // ---- what each section does ----

  lemma FinishOutcome(plan: Plan, s: State, c: nat, verdict: Verdict, attempts: nat, t: State)
    requires c < |s.pcs| && t == Finish(plan, s, c, verdict, attempts)
    ensures SameProcesses(s, t) && ListsEntry(s, t, c, verdict, attempts) && Snapped(plan, s, t, c, Done)
  {
    hide NoDuplicate;
  }

  lemma FailOutcome(s: State, c: nat, reason: Reason, t: State)
    requires c < |s.pcs| && t == Fail(s, c, reason)
    ensures SameProcesses(s, t) && SameLists(s, t) && Halts(s, t, c, reason)
  {
  }

  /** The head of the loop, case by case; the cases exclude each other. */
  lemma TopOutcome(plan: Plan, s: State, c: nat, t: State)
    requires Enabled(plan, s, c, Top) && t == Apply(plan, s, c, Top)
    ensures SameProcesses(s, t)
    ensures s.stop ==> NoError(s, t) && SameLists(s, t) && t.pcs == s.pcs[c := Done]
    ensures var prior, taken := s.pcs[c].prior, Taken(plan, s.disk, plan.hashes[c]);
      && (!s.stop && Ends(prior, true) ==> ListsEntry(s, t, c, Reviewed(true), |prior|) && Snapped(plan, s, t, c, Done))
      && (!s.stop && Ends(prior, false) && !taken ==> ListsEntry(s, t, c, Reviewed(false), |prior|) && Snapped(plan, s, t, c, Done))
      && (!s.stop && taken && !Ends(prior, true) ==> ListsEntry(s, t, c, AcceptedElsewhere, |prior|) && Snapped(plan, s, t, c, Done))
      && (!s.stop && !taken && !Ends(prior, true) && !Ends(prior, false) ==>
          if |prior| < 3 then NoError(s, t) && SameLists(s, t) && t.pcs == s.pcs[c := if prior == [] then Waiting([]) else Backoff(prior)]
          else ListsEntry(s, t, c, Exhausted, |prior|) && Snapped(plan, s, t, c, Done))
  {
    var prior := s.pcs[c].prior;
    EndsIsLast(prior);
    forall verdict: Verdict {:trigger Finish(plan, s, c, verdict, |prior|)}
      ensures var u := Finish(plan, s, c, verdict, |prior|);
        SameProcesses(s, u) && ListsEntry(s, u, c, verdict, |prior|) && Snapped(plan, s, u, c, Done)
    {
      FinishOutcome(plan, s, c, verdict, |prior|, Finish(plan, s, c, verdict, |prior|));
    }
    hide NoDuplicate, Taken, HasTurn, Last, Ends, Finish, Snapped, ListsEntry;
  }

  lemma EndsIsLast(prior: seq<Slot>)
    ensures forall accepted :: Ends(prior, accepted) <==> Last(prior) == Some(Complete(accepted))
    ensures Last(prior).Some? && Last(prior).value.Complete? <==> Ends(prior, true) || Ends(prior, false)
    ensures Ends(prior, true) || Ends(prior, false) ==> !(Ends(prior, true) && Ends(prior, false))
  {
  }

  /** Inside the semaphore, before the process table and the ledger are looked at. */
  lemma AcquireOutcome(plan: Plan, s: State, c: nat, t: State)
    requires Enabled(plan, s, c, Acquire) && t == Apply(plan, s, c, Acquire)
    ensures SameProcesses(s, t)
    ensures s.stop ==> NoError(s, t) && SameLists(s, t) && t.pcs == s.pcs[c := Done]
    ensures var prior, taken := s.pcs[c].prior, Taken(plan, s.disk, plan.hashes[c]);
      && (!s.stop && taken ==> ListsEntry(s, t, c, AcceptedElsewhere, |prior|) && Snapped(plan, s, t, c, Done))
      && (!s.stop && !taken ==> NoError(s, t) && SameLists(s, t) && t.pcs == s.pcs[c := Checking(prior)])
  {
    hide NoDuplicate, Taken, HasTurn;
  }

  /** The ledger on disk is a valid one. */
  ghost predicate ValidLedger(plan: Plan, s: State, c: nat)
    requires c < |plan.hashes| && c < |s.disk|
  {
    exists n: nat :: LedgerOk(s.disk[c], plan.hashes[c], n)
  }

  /** The first reading of the ledger. */
  lemma StartOutcome(plan: Plan, s: State, c: nat, e: Event, t: State, n: nat)
    requires e.Start? && Enabled(plan, s, c, e) && t == Apply(plan, s, c, e)
    ensures SameProcesses(s, t) && SameLists(s, t)
    ensures !ValidLedger(plan, s, c) ==> Halts(s, t, c, LedgerInvalid)
    ensures LedgerOk(s.disk[c], plan.hashes[c], n) ==> NoError(s, t) && t.pcs == s.pcs[c := LoopTop(s.disk[c][..n])]
  {
    hide HasTurn;
    if e.ok && LedgerOk(s.disk[c], plan.hashes[c], n) {
      LedgerLength(s.disk[c], plan.hashes[c], n, |e.found|);
    }
    hide LedgerOk;
  }

  /** The checks before the subprocess: the process table, the ledger, then the dispatch of the next attempt. */
  lemma CheckOutcome(plan: Plan, init: Origin, s: State, c: nat, e: Event, t: State)
    requires Inv(plan, init, s) && e.Check? && Enabled(plan, s, c, e) && t == Apply(plan, s, c, e)
    ensures SameProcesses(s, t) && t.completed == s.completed && t.failed == s.failed
    ensures var prior := s.pcs[c].prior;
      var same := Recalls(s.disk[c], plan.hashes[c], prior);
      && (e.fault ==> Halts(s, t, c, Fault) && SameLists(s, t))
      && (!e.fault && c in s.leftover ==> Halts(s, t, c, WorkerAlive) && SameLists(s, t))
      && (!e.fault && c !in s.leftover && !ValidLedger(plan, s, c) ==> Halts(s, t, c, LedgerInvalid) && SameLists(s, t))
      && (!e.fault && c !in s.leftover && ValidLedger(plan, s, c) && !same ==> Halts(s, t, c, LedgerChanged) && SameLists(s, t))
      && (!e.fault && c !in s.leftover && same ==>
          NoError(s, t) && t.dispatches == s.dispatches + [(c, |prior| + 1)] && t.pcs == s.pcs[c := Spawning(|prior| + 1)])
  {
    assert PcKnows(plan, init, s, c);
    CheckCounter(plan, init, s, c, e.found, e.ok, e.fault);
    hide Inv, PcKnows, HasTurn, NoDuplicate, Taken;
    var prior, slots, hash := s.pcs[c].prior, s.disk[c], plan.hashes[c];
    if e.ok && Recalls(slots, hash, prior) {
      LedgerLength(slots, hash, |prior|, |e.found|);
    }
    hide LedgerOk;
  }

  /** The subprocess runs, or could not be started. */
  lemma SpawnedOutcome(plan: Plan, s: State, c: nat, e: Event, t: State)
    requires e.Spawned? && Enabled(plan, s, c, e) && t == Apply(plan, s, c, e)
    ensures SameLists(s, t) && t.disk == s.disk && t.procs == s.procs && t.leftover == s.leftover
    ensures e.fault ==> Halts(s, t, c, Fault) && t.active == s.active
    ensures !e.fault ==> Snapped(plan, s, t, c, Running(s.pcs[c].attempt)) && t.active == s.active[c := s.pcs[c].attempt]
  {
    hide NoDuplicate, HasTurn;
  }

  /** The attempt directory that a running candidate's subprocess was to fill. */
  function OwnSlot(s: State, c: nat): Slot
    requires c < |s.pcs| == |s.disk| && s.pcs[c].Running? && 1 <= s.pcs[c].attempt <= |s.disk[c]|
  {
    s.disk[c][s.pcs[c].attempt - 1]
  }

  lemma RunningKnows(plan: Plan, init: Origin, s: State, c: nat)
    requires Inv(plan, init, s) && c < |s.pcs| && s.pcs[c].Running?
    ensures |s.pcs| == |s.disk| == |plan.hashes| && c in s.procs && c in s.active && c !in s.leftover
    ensures LedgerLive(s.disk[c], plan.hashes[c], s.pcs[c].attempt)
    ensures s.procs[c].attempt == s.pcs[c].attempt && |s.disk[c]| == 3
  {
    assert PcKnows(plan, init, s, c) && ProcKnows(plan, init, s, c);
    hide LedgerLive, Reserved, Grown, ShapeKept, Clean, Bounded, CompletedOk, DispatchOk, ErrorsOk;
  }

  /** The reading after the subprocess, by what the subprocess left in its own directory. */
  lemma LiveReading(slots: seq<Slot>, hash: string, n: nat)
    requires LedgerLive(slots, hash, n)
    ensures slots[n - 1] == Missing ==> LedgerOk(slots, hash, n - 1)
    ensures slots[n - 1] == Bare ==> forall m: nat :: !LedgerOk(slots, hash, m)
    ensures slots[n - 1].Written? ==> LedgerOk(slots, hash, n)
  {
    if slots[n - 1] == Bare {
      forall m: nat ensures !LedgerOk(slots, hash, m) {
      }
    }
  }

  lemma CollectedReading(plan: Plan, s: State, c: nat, n: nat, found: seq<Slot>, ok: bool)
    requires c < |plan.hashes| == |s.disk| && Reads(plan, s, c, found, ok) && LedgerLive(s.disk[c], plan.hashes[c], n)
    ensures var slot := s.disk[c][n - 1];
      && (slot == Missing ==> ok && |found| == n - 1)
      && (slot == Bare ==> !ok)
      && (slot.Written? ==> ok && found == s.disk[c][..n] && Last(found) == Some(slot.status))
  {
    var slots, hash := s.disk[c], plan.hashes[c];
    LiveReading(slots, hash, n);
    if ok && slots[n - 1] != Bare {
      LedgerLength(slots, hash, if slots[n - 1] == Missing then n - 1 else n, |found|);
    }
    hide LedgerLive;
  }

  /** A retryable attempt is recorded and the candidate goes round again. */
  ghost predicate Retries(plan: Plan, s: State, t: State, c: nat, n: nat, found: seq<Slot>)
    requires c < |s.pcs|
  {
    && t.failed == s.failed + [(c, n)] && t.completed == s.completed && t.dispatches == s.dispatches
    && Snapped(plan, s, t, c, LoopTop(found))
  }

  lemma JudgeOutcome(plan: Plan, s: State, c: nat, n: nat, found: seq<Slot>, ok: bool, t: State)
    requires c < |s.pcs| && c in s.procs && s.procs[c].exit.Some? && t == Judge(plan, s, c, n, found, ok)
    ensures t.disk == s.disk && t.leftover == s.leftover && t.active == s.active - {c} && t.procs == s.procs - {c}
    ensures !ok ==> Halts(s, t, c, LedgerInvalid) && SameLists(s, t)
    ensures ok && |found| != n ==> Halts(s, t, c, Omitted) && SameLists(s, t)
    ensures ok && |found| == n && Last(found).Some? ==>
      var status := Last(found).value;
      if !status.Complete? then Retries(plan, s, t, c, n, found)
      else if s.procs[c].exit.value then Halts(s, t, c, NonzeroComplete) && SameLists(s, t)
      else ListsEntry(s, t, c, Reviewed(status.accepted), n) && Snapped(plan, s, t, c, Done)
  {
    hide NoDuplicate, Last, Snapped, Halts;
    var u := s.(active := s.active - {c}, procs := s.procs - {c});
    FailOutcome(u, c, LedgerInvalid, Fail(u, c, LedgerInvalid));
    FailOutcome(u, c, Omitted, Fail(u, c, Omitted));
    FailOutcome(u, c, NonzeroComplete, Fail(u, c, NonzeroComplete));
    ReapedOutcome(plan, s, u, c, t);
    if ok && |found| == n && Last(found).Some? {
      if Last(found).value.Complete? {
        var verdict := Reviewed(Last(found).value.accepted);
        FinishOutcome(plan, u, c, verdict, n, Finish(plan, u, c, verdict, n));
      } else {
        RetryOutcome(plan, u, c, n, found, Snapshot(plan, Goto(u, c, LoopTop(found)).(failed := u.failed + [(c, n)]), c));
      }
    }
    hide Fail, Finish, Snapshot;
  }

  /** What the section does is the same told from the state with the subprocess still listed. */
  lemma ReapedOutcome(plan: Plan, s: State, u: State, c: nat, t: State)
    requires c < |s.pcs| && u == s.(active := u.active, procs := u.procs)
    ensures forall reason :: Halts(u, t, c, reason) <==> Halts(s, t, c, reason)
    ensures forall pc :: Snapped(plan, u, t, c, pc) <==> Snapped(plan, s, t, c, pc)
  {
    hide NoDuplicate;
  }

  lemma RetryOutcome(plan: Plan, s: State, c: nat, n: nat, found: seq<Slot>, t: State)
    requires c < |s.pcs| && t == Snapshot(plan, Goto(s, c, LoopTop(found)).(failed := s.failed + [(c, n)]), c)
    ensures SameProcesses(s, t) && Retries(plan, s, t, c, n, found)
  {
    hide NoDuplicate;
  }

  /** After the subprocess, case by case: what it left in its own directory decides. */
  lemma CollectOutcome(plan: Plan, init: Origin, s: State, c: nat, e: Event, t: State)
    requires Inv(plan, init, s) && e.Collect? && Enabled(plan, s, c, e) && t == Apply(plan, s, c, e)
    ensures c < |s.pcs| && s.pcs[c].Running? && c in s.procs && |s.pcs| == |s.disk| == |plan.hashes|
    ensures 1 <= s.pcs[c].attempt <= |s.disk[c]|
    ensures e.fault ==> Halts(s, t, c, Fault) && SameLists(s, t) && SameProcesses(s, t)
    ensures !e.fault ==>
      s.procs[c].exit.Some? && t.disk == s.disk && t.leftover == s.leftover && t.active == s.active - {c} && t.procs == s.procs - {c}
    ensures !e.fault && OwnSlot(s, c) == Missing ==> Halts(s, t, c, Omitted) && SameLists(s, t)
    ensures !e.fault && OwnSlot(s, c) == Bare ==> Halts(s, t, c, LedgerInvalid) && SameLists(s, t)
    ensures !e.fault && OwnSlot(s, c).Written? ==>
      var n, status := s.pcs[c].attempt, OwnSlot(s, c).status;
      if !status.Complete? then Retries(plan, s, t, c, n, s.disk[c][..n])
      else if s.procs[c].exit.value then Halts(s, t, c, NonzeroComplete) && SameLists(s, t)
      else ListsEntry(s, t, c, Reviewed(status.accepted), n) && Snapped(plan, s, t, c, Done)
  {
    RunningKnows(plan, init, s, c);
    CollectedReading(plan, s, c, s.pcs[c].attempt, e.found, e.ok);
    if !e.fault {
      JudgeOutcome(plan, s, c, s.pcs[c].attempt, e.found, e.ok, t);
    }
    hide Inv, NoDuplicate, HasTurn, LedgerLive, Last, Reads, Judge, Retries, ListsEntry, Snapped;
  }

  // ---- each error has its own cause ----

  /** A candidate with a counter, a ledger and, while its subprocess runs, an attempt directory of its own. */
  ghost predicate Placed(plan: Plan, s: State, c: nat) {
    && c < |s.pcs| == |s.disk| == |plan.hashes|
    && (s.pcs[c].Running? ==> c in s.procs && 1 <= s.pcs[c].attempt <= |s.disk[c]|)
  }

  /** The section would write a snapshot: it lists its candidate, starts its subprocess or records a retryable attempt. */
  ghost predicate TakesSnapshot(plan: Plan, s: State, c: nat, e: Event)
    requires Enabled(plan, s, c, e) && Placed(plan, s, c)
  {
    match e
    case Top =>
      && !s.stop
      && var prior := s.pcs[c].prior;
         Ends(prior, true) || Ends(prior, false) || Taken(plan, s.disk, plan.hashes[c]) || |prior| >= 3
    case Acquire => !s.stop && Taken(plan, s.disk, plan.hashes[c])
    case Spawned(fault) => !fault
    case Collect(_, _, fault) =>
      && !fault && OwnSlot(s, c).Written? && (OwnSlot(s, c).status.Complete? ==> s.procs[c].exit == Some(false))
    case _ => false
  }

  /** What must be the case for a section to give this reason. */
  ghost predicate Cause(plan: Plan, s: State, c: nat, e: Event, reason: Reason)
    requires Enabled(plan, s, c, e) && Placed(plan, s, c)
  {
    match reason
    case Fault => (e.Check? || e.Spawned? || e.Collect?) && e.fault
    case WorkerAlive => e.Check? && !e.fault && c in s.leftover
    case LedgerInvalid =>
      || (e.Start? && !ValidLedger(plan, s, c))
      || (e.Check? && !e.fault && c !in s.leftover && !ValidLedger(plan, s, c))
      || (e.Collect? && !e.fault && OwnSlot(s, c) == Bare)
    case LedgerChanged =>
      e.Check? && !e.fault && c !in s.leftover && ValidLedger(plan, s, c) && !Recalls(s.disk[c], plan.hashes[c], s.pcs[c].prior)
    case OutputExists => false
    case Omitted => e.Collect? && !e.fault && OwnSlot(s, c) == Missing
    case NonzeroComplete =>
      e.Collect? && !e.fault && OwnSlot(s, c).Written? && OwnSlot(s, c).status.Complete? && s.procs[c].exit == Some(true)
    case DuplicateAccepted => !NoDuplicate(plan, s.disk) && TakesSnapshot(plan, s, c, e)
  }

  lemma HaltRaises(s: State, t: State, c: nat, reason: Reason)
    requires c < |s.pcs|
    ensures NoError(s, t) ==> forall r :: !Raises(s, t, c, r)
    ensures Halts(s, t, c, reason) ==> forall r :: Raises(s, t, c, r) <==> r == reason
  {
  }

  lemma SnappedRaises(plan: Plan, s: State, t: State, c: nat, pc: Pc)
    requires c < |s.pcs| && Snapped(plan, s, t, c, pc)
    ensures forall r :: Raises(s, t, c, r) <==> r == DuplicateAccepted && !NoDuplicate(plan, s.disk)
  {
    HaltRaises(s, t, c, DuplicateAccepted);
    hide NoDuplicate, Raises;
  }

  lemma InvPlaced(plan: Plan, init: Origin, s: State, c: nat)
    requires Inv(plan, init, s) && c < |s.pcs|
    ensures Placed(plan, s, c)
  {
    if s.pcs[c].Running? {
      RunningKnows(plan, init, s, c);
    }
    hide Knowing, ShapeKept, Clean, Bounded, CompletedOk, DispatchOk, ErrorsOk;
  }

  lemma TopRaises(plan: Plan, s: State, c: nat, reason: Reason)
    requires Enabled(plan, s, c, Top) && Placed(plan, s, c)
    ensures Raises(s, Apply(plan, s, c, Top), c, reason) <==> Cause(plan, s, c, Top, reason)
  {
    var t := Apply(plan, s, c, Top);
    hide Enabled, Apply, Raises, NoDuplicate, Taken, Ends, Halts, NoError, Snapped;
    TopOutcome(plan, s, c, t);
    HaltRaises(s, t, c, DuplicateAccepted);
    if Snapped(plan, s, t, c, Done) {
      SnappedRaises(plan, s, t, c, Done);
    }
  }

  lemma AcquireRaises(plan: Plan, s: State, c: nat, reason: Reason)
    requires Enabled(plan, s, c, Acquire) && Placed(plan, s, c)
    ensures Raises(s, Apply(plan, s, c, Acquire), c, reason) <==> Cause(plan, s, c, Acquire, reason)
  {
    var t := Apply(plan, s, c, Acquire);
    hide Enabled, Apply, Raises, NoDuplicate, Taken, Halts, NoError, Snapped;
    AcquireOutcome(plan, s, c, t);
    HaltRaises(s, t, c, DuplicateAccepted);
    if Snapped(plan, s, t, c, Done) {
      SnappedRaises(plan, s, t, c, Done);
    }
  }

  lemma StartRaises(plan: Plan, s: State, c: nat, e: Event, reason: Reason)
    requires e.Start? && Enabled(plan, s, c, e) && Placed(plan, s, c)
    ensures Raises(s, Apply(plan, s, c, e), c, reason) <==> Cause(plan, s, c, e, reason)
  {
    var t := Apply(plan, s, c, e);
    hide Enabled, Apply, Raises, NoDuplicate, Taken, Halts, NoError, LedgerOk;
    StartOutcome(plan, s, c, e, t, |e.found|);
    HaltRaises(s, t, c, LedgerInvalid);
    if ValidLedger(plan, s, c) {
      var n: nat :| LedgerOk(s.disk[c], plan.hashes[c], n);
      StartOutcome(plan, s, c, e, t, n);
    }
  }

  lemma CheckRaises(plan: Plan, init: Origin, s: State, c: nat, e: Event, reason: Reason)
    requires Inv(plan, init, s) && e.Check? && Enabled(plan, s, c, e) && Placed(plan, s, c)
    ensures Raises(s, Apply(plan, s, c, e), c, reason) <==> Cause(plan, s, c, e, reason)
  {
    var t := Apply(plan, s, c, e);
    assert Recalls(s.disk[c], plan.hashes[c], s.pcs[c].prior) ==> ValidLedger(plan, s, c);
    hide Inv, Raises, NoDuplicate, Taken, Halts, NoError, LedgerOk, Recalls, ValidLedger, SameLists, SameProcesses, HasTurn, Reads, Apply;
    CheckOutcome(plan, init, s, c, e, t);
    if e.fault {
      HaltRaises(s, t, c, Fault);
    } else if c in s.leftover {
      HaltRaises(s, t, c, WorkerAlive);
    } else if !ValidLedger(plan, s, c) {
      HaltRaises(s, t, c, LedgerInvalid);
    } else {
      HaltRaises(s, t, c, LedgerChanged);
    }
  }

  lemma SpawnedRaises(plan: Plan, s: State, c: nat, e: Event, reason: Reason)
    requires e.Spawned? && Enabled(plan, s, c, e) && Placed(plan, s, c)
    ensures Raises(s, Apply(plan, s, c, e), c, reason) <==> Cause(plan, s, c, e, reason)
  {
    var t := Apply(plan, s, c, e);
    SpawnedOutcome(plan, s, c, e, t);
    hide Enabled, Apply, Raises, NoDuplicate, Taken, Halts, NoError, Snapped;
    HaltRaises(s, t, c, Fault);
    if !e.fault {
      SnappedRaises(plan, s, t, c, Running(s.pcs[c].attempt));
    }
  }

  lemma CollectRaises(plan: Plan, init: Origin, s: State, c: nat, e: Event, reason: Reason)
    requires Inv(plan, init, s) && e.Collect? && Enabled(plan, s, c, e) && Placed(plan, s, c)
    ensures Raises(s, Apply(plan, s, c, e), c, reason) <==> Cause(plan, s, c, e, reason)
  {
    var t := Apply(plan, s, c, e);
    hide Inv, Enabled, Apply, Raises, NoDuplicate, Taken, Halts, NoError, Snapped, ListsEntry, SameLists, SameProcesses, Recalls, ValidLedger;
    CollectOutcome(plan, init, s, c, e, t);
    if e.fault {
      HaltRaises(s, t, c, Fault);
    } else if OwnSlot(s, c) == Missing {
      HaltRaises(s, t, c, Omitted);
    } else if OwnSlot(s, c) == Bare {
      HaltRaises(s, t, c, LedgerInvalid);
    } else {
      CollectedRaises(plan, s, c, t);
    }
  }

  /** What is raised over an attempt directory with a status. */
  lemma CollectedRaises(plan: Plan, s: State, c: nat, t: State)
    requires Placed(plan, s, c) && s.pcs[c].Running? && s.procs[c].exit.Some? && OwnSlot(s, c).Written?
    requires var n, status := s.pcs[c].attempt, OwnSlot(s, c).status;
      if !status.Complete? then Retries(plan, s, t, c, n, s.disk[c][..n])
      else if s.procs[c].exit.value then Halts(s, t, c, NonzeroComplete) && SameLists(s, t)
      else ListsEntry(s, t, c, Reviewed(status.accepted), n) && Snapped(plan, s, t, c, Done)
    ensures var nonzero := OwnSlot(s, c).status.Complete? && s.procs[c].exit == Some(true);
      forall r :: Raises(s, t, c, r) <==> if nonzero then r == NonzeroComplete else r == DuplicateAccepted && !NoDuplicate(plan, s.disk)
  {
    hide Raises, NoDuplicate, Halts, NoError, Snapped, ListsEntry, SameLists;
    if !OwnSlot(s, c).status.Complete? {
      SnappedRaises(plan, s, t, c, LoopTop(s.disk[c][..s.pcs[c].attempt]));
    } else if s.procs[c].exit.value {
      HaltRaises(s, t, c, NonzeroComplete);
    } else {
      SnappedRaises(plan, s, t, c, Done);
    }
  }

  lemma OthersRaise(plan: Plan, s: State, c: nat, e: Event, reason: Reason)
    requires Enabled(plan, s, c, e) && Placed(plan, s, c)
    requires e.Wake? || e.Cancel? || OfProcess(e)
    ensures !Raises(s, Apply(plan, s, c, e), c, reason) && !Cause(plan, s, c, e, reason)
  {
    hide HasTurn, Advances, NoDuplicate;
  }

  /** Every section gives a reason exactly if that reason's cause is there. */
  lemma RaisesIffCause(plan: Plan, init: Origin, s: State, c: nat, e: Event, reason: Reason)
    requires Inv(plan, init, s) && Enabled(plan, s, c, e)
    ensures Placed(plan, s, c)
    ensures Raises(s, Apply(plan, s, c, e), c, reason) <==> Cause(plan, s, c, e, reason)
  {
    InvPlaced(plan, init, s, c);
    hide Inv, Apply, Raises, Cause, Enabled, Placed;
    match e
    case Start(_, _) => StartRaises(plan, s, c, e, reason);
    case Top => TopRaises(plan, s, c, reason);
    case Acquire => AcquireRaises(plan, s, c, reason);
    case Check(_, _, _) => CheckRaises(plan, init, s, c, e, reason);
    case Spawned(_) => SpawnedRaises(plan, s, c, e, reason);
    case Collect(_, _, _) => CollectRaises(plan, init, s, c, e, reason);
    case _ => OthersRaise(plan, s, c, e, reason);
  }

  // ---- over whole runs ----

  /** Every error of a run was raised, for its own cause, by a section of its own candidate. */
  lemma {:induction false} ErrorsHaveCauses(plan: Plan, init: Origin, run: seq<State>, i: nat, x: nat) returns (j: nat, e: Event)
    requires IsRun(plan, init, run) && i < |run| && x < |run[i].errors|
    ensures var (c, reason) := run[i].errors[x];
      && j < i && Enabled(plan, run[j], c, e) && Placed(plan, run[j], c) && run[j + 1] == Apply(plan, run[j], c, e)
      && Cause(plan, run[j], c, e, reason)
  {
    hide Next, Inv, Enabled, Apply, Cause, Placed, Origins, OneError, Reasoned;
    if i == 0 {
      assert false;
    } else {
      assert Next(plan, run[i - 1], run[i]);
      RunKeepsInv(plan, init, run, i - 1);
      var c, f := ActorOf(plan, run[i - 1], run[i]);
      ErrorAdded(plan, init, run[i - 1], c, f, run[i]);
      if x < |run[i - 1].errors| {
        assert run[i].errors[x] == run[i - 1].errors[x];
        j, e := ErrorsHaveCauses(plan, init, run, i - 1, x);
      } else {
        RaisesIffCause(plan, init, run[i - 1], c, f, run[i].errors[x].1);
        j, e := i - 1, f;
      }
    }
  }

  lemma ActorOf(plan: Plan, s: State, t: State) returns (c: nat, e: Event)
    requires Next(plan, s, t)
    ensures Enabled(plan, s, c, e) && t == Apply(plan, s, c, e)
  {
    hide Enabled, Apply;
    c, e :| Enabled(plan, s, c, e) && t == Apply(plan, s, c, e);
  }

  lemma ErrorAdded(plan: Plan, init: Origin, s: State, c: nat, e: Event, t: State)
    requires Inv(plan, init, s) && Enabled(plan, s, c, e) && t == Apply(plan, s, c, e)
    ensures |t.errors| <= |s.errors| + 1 && s.errors <= t.errors
    ensures |t.errors| == |s.errors| + 1 ==> t.errors[|s.errors|].0 == c && Raises(s, t, c, t.errors[|s.errors|].1)
  {
    StepErrs(plan, init, s, c, e);
    hide Inv, Enabled, Apply, Reasoned;
  }

  /** The step collects the subprocess of attempt `n`, which left a retryable status. */
  ghost predicate Collected(s: State, t: State, c: nat, n: nat) {
    && c < |s.pcs| == |s.disk| && s.pcs[c] == Running(n) && c in s.procs && c !in t.procs && 1 <= n <= |s.disk[c]|
    && s.disk[c][n - 1].Written? && Retryable(s.disk[c][n - 1].status)
  }

  lemma OnlyCollectReaps(plan: Plan, init: Origin, s: State, c: nat, e: Event)
    requires Inv(plan, init, s) && Enabled(plan, s, c, e) && !(e.Collect? && !e.fault)
    ensures Apply(plan, s, c, e).failed == s.failed && (c in s.procs ==> c in Apply(plan, s, c, e).procs)
  {
    hide Inv, HasTurn, Advances, NoDuplicate, Reads, Taken, Last;
  }

  lemma RetryableIffOpen(slots: seq<Slot>, hash: string, n: nat)
    requires LedgerLive(slots, hash, n) && slots[n - 1].Written?
    ensures Retryable(slots[n - 1].status) <==> !slots[n - 1].status.Complete?
  {
  }

  lemma CollectFails(plan: Plan, init: Origin, s: State, c: nat, e: Event, t: State)
    requires Inv(plan, init, s) && e.Collect? && !e.fault && Enabled(plan, s, c, e) && t == Apply(plan, s, c, e)
    ensures s.pcs[c].Running?
    ensures if Collected(s, t, c, s.pcs[c].attempt) then t.failed == s.failed + [(c, s.pcs[c].attempt)] else t.failed == s.failed
  {
    hide Inv, Enabled, Apply, LedgerLive, Halts, Snapped;
    CollectOutcome(plan, init, s, c, e, t);
    RunningKnows(plan, init, s, c);
    var m := s.pcs[c].attempt;
    assert OwnSlot(s, c) == s.disk[c][m - 1];
    if s.disk[c][m - 1].Written? {
      RetryableIffOpen(s.disk[c], plan.hashes[c], m);
    }
  }

  lemma SnocIs<T>(xs: seq<T>, x: T, y: T)
    ensures xs + [x] != xs && (xs + [x] == xs + [y] ==> x == y)
  {
    assert (xs + [x])[|xs|] == x && (xs + [y])[|xs|] == y;
  }

  /** The list of failed attempts grows exactly with a collected retryable attempt. */
  lemma FailedStep(plan: Plan, init: Origin, s: State, c: nat, e: Event, t: State, d: nat, n: nat)
    requires Inv(plan, init, s) && Enabled(plan, s, c, e) && t == Apply(plan, s, c, e)
    ensures Collected(s, t, d, n) <==> t.failed == s.failed + [(d, n)]
    ensures t.failed == s.failed || (s.pcs[c].Running? && t.failed == s.failed + [(c, s.pcs[c].attempt)])
  {
    if d != c && d < |s.pcs| {
      StepIsLocal(plan, s, c, e, d);
    }
    SnocIs(s.failed, (d, n), (c, if s.pcs[c].Running? then s.pcs[c].attempt else 0));
    if e.Collect? && !e.fault {
      CollectFails(plan, init, s, c, e, t);
    } else {
      OnlyCollectReaps(plan, init, s, c, e);
    }
    hide Inv, Enabled, Apply;
  }

  ghost predicate CollectedBefore(run: seq<State>, i: nat, c: nat, n: nat) {
    exists j: nat :: j < i < |run| && Collected(run[j], run[j + 1], c, n)
  }

  /** The failed attempts are exactly the collected ones whose final status is retryable. */
  lemma {:induction false} FailedExactly(plan: Plan, init: Origin, run: seq<State>, i: nat, c: nat, n: nat)
    requires IsRun(plan, init, run) && i < |run|
    ensures (c, n) in run[i].failed <==> CollectedBefore(run, i, c, n)
  {
    hide Next, Inv, Enabled, Apply, Origins, Collected;
    if i > 0 {
      assert Next(plan, run[i - 1], run[i]);
      RunKeepsInv(plan, init, run, i - 1);
      var d, e := ActorOf(plan, run[i - 1], run[i]);
      FailedExactly(plan, init, run, i - 1, c, n);
      FailedStep(plan, init, run[i - 1], d, e, run[i], c, n);
      var s, t := run[i - 1], run[i];
      assert CollectedBefore(run, i, c, n) <==> CollectedBefore(run, i - 1, c, n) || Collected(s, t, c, n) by {
        if CollectedBefore(run, i, c, n) {
          var j: nat :| j < i && Collected(run[j], run[j + 1], c, n);
          assert j < i - 1 || j == i - 1;
        }
        if CollectedBefore(run, i - 1, c, n) {
          var j: nat :| j < i - 1 && Collected(run[j], run[j + 1], c, n);
        }
      }
    }
  }

  /** The highest attempt of a candidate at this point that can be over. */
  function Past(pc: Pc): int {
    match pc
    case Begin => 0
    case LoopTop(prior) => |prior|
    case Backoff(prior) => |prior|
    case Waiting(prior) => |prior|
    case Checking(prior) => |prior|
    case Spawning(n) => n - 1
    case Running(n) => n - 1
    case Done => MAX_ATTEMPTS
  }

  /** Failed attempts are listed once, each a past attempt of its candidate. */
  ghost predicate FailedOk(s: State) {
    && Distinct(s.failed)
    && forall x :: 0 <= x < |s.failed| ==> s.failed[x].0 < |s.pcs| && s.failed[x].1 <= Past(s.pcs[s.failed[x].0])
  }

  lemma PastStep(plan: Plan, init: Origin, s: State, c: nat, e: Event)
    requires Inv(plan, init, s) && Enabled(plan, s, c, e)
    ensures |Apply(plan, s, c, e).pcs| == |s.pcs| && Past(s.pcs[c]) <= Past(Apply(plan, s, c, e).pcs[c])
    ensures e.Collect? && !e.fault ==> s.pcs[c].attempt <= Past(Apply(plan, s, c, e).pcs[c])
  {
    StepKeepsSizes(plan, init, s, c, e);
    ReachedStep(plan, init, s, c, e);
    PastBound(plan, init, s, c);
    hide Inv, AtTop, InSemaphore, Judge, Launch, Recheck, NoDuplicate, Taken, Last, HasTurn, Reads, Advances, Sized, Climbs;
    match e
    case Collect(found, ok, fault) =>
      if !fault {
        JudgeGoes(plan, s, c, s.pcs[c].attempt, found, ok);
      }
    case Top => TopGoes(plan, s, c, s.pcs[c].prior);
    case Acquire => AcquireGoes(plan, s, c, s.pcs[c].prior);
    case Spawned(fault) => LaunchGoes(plan, s, c, s.pcs[c].attempt);
    case Check(found, ok, fault) => RecheckGoes(s, c, s.pcs[c].prior, found, ok, fault);
    case _ =>
  }

  lemma PastBound(plan: Plan, init: Origin, s: State, c: nat)
    requires Inv(plan, init, s) && c < |s.pcs|
    ensures 0 <= Past(s.pcs[c]) <= MAX_ATTEMPTS && (s.pcs[c].Running? ==> s.pcs[c].attempt <= MAX_ATTEMPTS)
  {
    assert PcKnows(plan, init, s, c) && ProcKnows(plan, init, s, c);
    hide Near, Recalls, Moved, Reserved, Unclaimed, Grown, ShapeKept, Clean, Bounded, CompletedOk, DispatchOk, ErrorsOk;
  }

  lemma LaunchGoes(plan: Plan, s: State, c: nat, n: nat)
    requires c < |s.pcs|
    ensures Launch(plan, s, c, n).pcs == s.pcs[c := Running(n)] || Launch(plan, s, c, n).pcs == s.pcs[c := Done]
  {
    hide NoDuplicate;
  }

  lemma RecheckGoes(s: State, c: nat, prior: seq<Slot>, found: seq<Slot>, ok: bool, fault: bool)
    requires c < |s.pcs| && c < |s.disk|
    ensures var t := Recheck(s, c, prior, found, ok, fault);
      t.pcs == s.pcs[c := Done] || t.pcs == s.pcs[c := Spawning(|prior| + 1)]
  {
  }

  lemma FailedOkStep(plan: Plan, init: Origin, s: State, c: nat, e: Event, t: State)
    requires Inv(plan, init, s) && Enabled(plan, s, c, e) && t == Apply(plan, s, c, e) && FailedOk(s)
    ensures FailedOk(t)
  {
    PastStep(plan, init, s, c, e);
    forall d: nat | d < |s.pcs| && d != c ensures t.pcs[d] == s.pcs[d] {
      StepIsLocal(plan, s, c, e, d);
    }
    if e.Collect? && !e.fault {
      CollectFails(plan, init, s, c, e, t);
    } else {
      OnlyCollectReaps(plan, init, s, c, e);
    }
    hide Inv, Enabled, Apply, Collected;
    forall x | 0 <= x < |t.failed| ensures t.failed[x].0 < |t.pcs| && t.failed[x].1 <= Past(t.pcs[t.failed[x].0]) {
      if x < |s.failed| {
        assert t.failed[x] == s.failed[x];
      }
    }
  }

  /** No failed attempt is listed twice. */
  lemma {:induction false} FailedOnce(plan: Plan, init: Origin, run: seq<State>, i: nat)
    requires IsRun(plan, init, run) && i < |run|
    ensures FailedOk(run[i])
  {
    hide Next, Inv, Enabled, Apply, Origins;
    if i > 0 {
      hide FailedOk;
      FailedOnce(plan, init, run, i - 1);
      assert Next(plan, run[i - 1], run[i]);
      RunKeepsInv(plan, init, run, i - 1);
      var c, e := ActorOf(plan, run[i - 1], run[i]);
      FailedOkStep(plan, init, run[i - 1], c, e, run[i]);
    }
  }

  // ---- what is dispatched ----

  /** The task may be reviewed: not frozen, not accepted outside the plan, and accepted in no ledger. */
  ghost predicate Open(plan: Plan, s: State, c: nat)
    requires c < |plan.hashes|
  {
    && plan.hashes[c] !in plan.frozen && plan.hashes[c] !in plan.foreign
    && forall d: nat, k: nat :: AcceptedAt(s.disk, d, k) ==> s.disk[d][k].hash != plan.hashes[c]
  }

  /** A candidate between its two checks inside the semaphore is no frozen one. */
  ghost predicate CheckingUnfrozen(plan: Plan, s: State) {
    forall c: nat :: c < |s.pcs| && c < |plan.hashes| && s.pcs[c].Checking? ==> plan.hashes[c] !in plan.frozen
  }

  lemma UnfrozenStep(plan: Plan, init: Origin, s: State, c: nat, e: Event, t: State)
    requires Inv(plan, init, s) && Enabled(plan, s, c, e) && t == Apply(plan, s, c, e) && CheckingUnfrozen(plan, s)
    ensures CheckingUnfrozen(plan, t)
  {
    forall d: nat | d < |t.pcs| && d < |plan.hashes| && t.pcs[d].Checking? ensures plan.hashes[d] !in plan.frozen {
      StepKeepsSizes(plan, init, s, c, e);
      if d != c {
        StepIsLocal(plan, s, c, e, d);
      } else {
        OwnUnfrozen(plan, s, c, e, t);
      }
    }
    hide Inv, Enabled, Apply;
  }

  lemma OwnUnfrozen(plan: Plan, s: State, c: nat, e: Event, t: State)
    requires Enabled(plan, s, c, e) && t == Apply(plan, s, c, e) && c < |t.pcs| && t.pcs[c].Checking?
    requires s.pcs[c].Checking? ==> plan.hashes[c] !in plan.frozen
    ensures plan.hashes[c] !in plan.frozen
  {
    hide HasTurn, NoDuplicate, Reads, Advances, HashAccepted, Last, AtTop, InSemaphore, Judge, Launch, Recheck;
    match e
    case Top => TopGoes(plan, s, c, s.pcs[c].prior);
    case Acquire => AcquireGoes(plan, s, c, s.pcs[c].prior);
    case Spawned(fault) => LaunchGoes(plan, s, c, s.pcs[c].attempt);
    case Check(found, ok, fault) => RecheckGoes(s, c, s.pcs[c].prior, found, ok, fault);
    case Collect(found, ok, fault) =>
      if !fault {
        JudgeGoes(plan, s, c, s.pcs[c].attempt, found, ok);
      }
    case _ =>
  }

  lemma {:induction false} RunUnfrozen(plan: Plan, init: Origin, run: seq<State>, i: nat)
    requires IsRun(plan, init, run) && i < |run|
    ensures CheckingUnfrozen(plan, run[i])
  {
    hide Next, Inv, Enabled, Apply, Origins;
    if i > 0 {
      hide CheckingUnfrozen;
      RunUnfrozen(plan, init, run, i - 1);
      assert Next(plan, run[i - 1], run[i]);
      RunKeepsInv(plan, init, run, i - 1);
      var c, e := ActorOf(plan, run[i - 1], run[i]);
      UnfrozenStep(plan, init, run[i - 1], c, e, run[i]);
    }
  }

  /** A ledger read in full and not finished holds no accepted review. */
  lemma UnfinishedAccepts(disk: Disk, c: nat, hash: string, prior: seq<Slot>)
    requires c < |disk| && Recalls(disk[c], hash, prior) && Unfinished(prior)
    ensures forall k: nat :: !AcceptedAt(disk, c, k)
  {
    forall k: nat ensures !AcceptedAt(disk, c, k) {
      if k < |prior| {
        assert prior[k] == disk[c][k];
      }
    }
  }

  /** An attempt is only dispatched while its task is open, the flag is down and no earlier worker of it is left. */
  ghost predicate DispatchedOpen(plan: Plan, s: State, t: State, c: nat, n: nat) {
    && c < |plan.hashes| && t.dispatches == s.dispatches + [(c, n)] && Open(plan, s, c) && !s.stop && c !in s.leftover
  }

  lemma CheckDispatches(plan: Plan, init: Origin, s: State, c: nat, e: Event, t: State)
    requires Inv(plan, init, s) && CheckingUnfrozen(plan, s) && e.Check? && Enabled(plan, s, c, e) && t == Apply(plan, s, c, e)
    ensures t.dispatches == s.dispatches || DispatchedOpen(plan, s, t, c, |s.pcs[c].prior| + 1)
  {
    CheckOutcome(plan, init, s, c, e, t);
    assert PcKnows(plan, init, s, c) && ProcKnows(plan, init, s, c);
    hide Inv, Enabled, Apply, NoDuplicate, Halts, Near, Grown, Reserved, LedgerLive, ValidLedger, Recalls, AcceptedAt, LedgerOk;
    if Recalls(s.disk[c], plan.hashes[c], s.pcs[c].prior) {
      UnfinishedAccepts(s.disk, c, plan.hashes[c], s.pcs[c].prior);
    }
  }

  lemma OnlyCheckDispatches(plan: Plan, s: State, c: nat, e: Event)
    requires Enabled(plan, s, c, e) && !e.Check?
    ensures Apply(plan, s, c, e).dispatches == s.dispatches
  {
    hide HasTurn, NoDuplicate, Reads, Advances, Taken, Last;
  }

  /** Every dispatch of a run was made while its task was open. */
  lemma {:induction false} DispatchesOpen(plan: Plan, init: Origin, run: seq<State>, i: nat, x: nat) returns (j: nat)
    requires IsRun(plan, init, run) && i < |run| && x < |run[i].dispatches|
    ensures j < i && DispatchedOpen(plan, run[j], run[j + 1], run[i].dispatches[x].0, run[i].dispatches[x].1)
  {
    hide Next, Inv, Enabled, Apply, Origins, CheckingUnfrozen;
    if i == 0 {
      assert false;
    } else {
      assert Next(plan, run[i - 1], run[i]);
      RunKeepsInv(plan, init, run, i - 1);
      RunUnfrozen(plan, init, run, i - 1);
      var c, e := ActorOf(plan, run[i - 1], run[i]);
      if e.Check? {
        CheckDispatches(plan, init, run[i - 1], c, e, run[i]);
      } else {
        OnlyCheckDispatches(plan, run[i - 1], c, e);
      }
      hide Open;
      if x < |run[i - 1].dispatches| {
        assert run[i].dispatches[x] == run[i - 1].dispatches[x];
        j := DispatchesOpen(plan, init, run, i - 1, x);
      } else {
        j := i - 1;
      }
    }
  }
}
