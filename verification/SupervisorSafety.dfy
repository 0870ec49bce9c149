/** What every run of the supervisor keeps: ledgers, the concurrency bound, the stop flag, completion, dispatches. */
module SupervisorSafety {
  import opened Common
  import opened Supervisor
  import opened SupervisorProtocol

  // ---- no task is accepted twice ----

  lemma NoDuplicateStep(plan: Plan, init: Origin, s: State, c: nat, e: Event)
    requires Sized(plan, init, s) && Knowing(plan, init, s) && Enabled(plan, s, c, e) && Clean(plan, s.disk, s.leftover)
    ensures NoDuplicate(plan, Apply(plan, s, c, e).disk)
  {
    DiskOnlyWritten(plan, s, c, e);
    if e.Write? || e.LeftWrite? {
      assert ProcKnows(plan, init, s, c);
      assert e.LeftWrite? ==> Unsettled(s.disk, c, s.leftover[c]);
      hide HasTurn, LedgerLive, Grown;
      var disk, slot := Apply(plan, s, c, e).disk, Writes(s, c, e) - 1;
      forall d: nat, k: nat | AcceptedAt(disk, d, k)
        ensures if (d, k) == (c, slot) then disk[d][k].hash == plan.hashes[c]
                else AcceptedAt(s.disk, d, k) && disk[d][k] == s.disk[d][k] && disk[d][k].hash != plan.hashes[c]
      {
      }
    }
  }

  /** No interleaving accepts a task twice, or lets two processes review one task. */
  lemma CleanStep(plan: Plan, init: Origin, s: State, c: nat, e: Event)
    requires Sized(plan, init, s) && Knowing(plan, init, s) && Enabled(plan, s, c, e) && Clean(plan, s.disk, s.leftover)
    ensures Clean(plan, Apply(plan, s, c, e).disk, Apply(plan, s, c, e).leftover)
  {
    NoDuplicateStep(plan, init, s, c, e);
    var t := Apply(plan, s, c, e);
    hide Apply, Enabled, NoDuplicate, Reserved, Knowing, Sized, Unsettled;
    forall d | d in t.leftover && d < |plan.hashes| && Unsettled(t.disk, d, t.leftover[d])
      ensures Reserved(plan, t.disk, d, t.leftover[d])
    {
      SameLeftover(plan, init, s, c, e, d);
      UnsettledBefore(plan, init, s, c, e, d);
      WritesOwn(plan, init, s, c, e);
      ReservedStep(plan, s, c, e, d, s.leftover[d]);
    }
  }

  /** Only the candidate's one live process writes its ledger. */
  lemma WritesOwn(plan: Plan, init: Origin, s: State, c: nat, e: Event)
    requires Sized(plan, init, s) && Knowing(plan, init, s) && Enabled(plan, s, c, e)
    ensures c in s.leftover && (e.Write? || e.LeftWrite?) ==> e.LeftWrite? && Writes(s, c, e) == s.leftover[c]
  {
    assert ProcKnows(plan, init, s, c);
    hide HasTurn, Knowing, LedgerLive, Grown, Reserved, Unclaimed, Advances;
  }

  lemma UnsettledBefore(plan: Plan, init: Origin, s: State, c: nat, e: Event, d: nat)
    requires Sized(plan, init, s) && Knowing(plan, init, s) && Enabled(plan, s, c, e) && d < |s.pcs|
    requires d in s.leftover && Unsettled(Apply(plan, s, c, e).disk, d, s.leftover[d])
    ensures Unsettled(s.disk, d, s.leftover[d])
  {
    if d == c {
      assert Grown(s.disk[c], s.disk[c]);
      GrownStep(plan, s, c, e, s.disk[c]);
    } else {
      StepIsLocal(plan, s, c, e, d);
    }
    hide Apply, Enabled, Knowing;
  }

  lemma SameLeftover(plan: Plan, init: Origin, s: State, c: nat, e: Event, d: nat)
    requires Sized(plan, init, s) && Knowing(plan, init, s) && Enabled(plan, s, c, e) && d in Apply(plan, s, c, e).leftover
    ensures d in s.leftover && Apply(plan, s, c, e).leftover[d] == s.leftover[d]
  {
    hide NoDuplicate, Taken, Reads, Advances, Last, HasTurn, Knowing;
  }

  // ---- the semaphore ----

  ghost function Occupied(s: State): set<nat> {
    set c: nat | c < |s.pcs| && (c in s.active || c in s.procs || s.pcs[c].Spawning? || s.pcs[c].Checking?)
  }

  /** While no error has stopped the run, active candidates and live subprocesses belong to semaphore holders. */
  ghost predicate ActiveAreRunning(s: State, c: nat) {
    c < |s.pcs| && (!s.stop && (c in s.active || c in s.procs) ==> s.pcs[c].Running? || s.pcs[c].Spawning?)
  }

  /** At most `concurrency` candidates are being dispatched, have a live subprocess or are listed as active. */
  ghost predicate Bounded(plan: Plan, s: State) {
    && |Occupied(s)| <= plan.concurrency
    && forall c: nat :: c < |s.pcs| ==> ActiveAreRunning(s, c)
  }

  lemma NewHolder(plan: Plan, init: Origin, s: State, c: nat, e: Event)
    requires Sized(plan, init, s) && Knowing(plan, init, s) && Enabled(plan, s, c, e)
    ensures var t := Apply(plan, s, c, e);
      && |t.pcs| == |s.pcs|
      && (c in Occupied(t) ==> c in Occupied(s) || (!s.stop && |Holders(s)| < plan.concurrency))
  {
    assert PcKnows(plan, init, s, c);
    hide NoDuplicate, Taken, Reads, LedgerLive, LedgerOk, Last, Holders, HasTurn, AtTop, InSemaphore, Judge, Recalls, Moved;
    match e
    case Top => TopGoes(plan, s, c, s.pcs[c].prior);
    case Acquire => AcquireGoes(plan, s, c, s.pcs[c].prior);
    case Collect(found, ok, fault) =>
      if !fault {
        JudgeGoes(plan, s, c, s.pcs[c].attempt, found, ok);
      }
    case _ =>
  }

  lemma CollectDeactivates(plan: Plan, s: State, c: nat, n: nat, found: seq<Slot>, ok: bool)
    requires c < |s.pcs| && c in s.procs && s.procs[c].exit.Some?
    ensures ActiveAreRunning(Judge(plan, s, c, n, found, ok), c) && (s.stop ==> Judge(plan, s, c, n, found, ok).stop)
  {
    hide NoDuplicate, Last;
  }

  lemma TopStops(plan: Plan, s: State, c: nat, prior: seq<Slot>)
    requires c < |s.pcs| && c < |plan.hashes|
    ensures var t := AtTop(plan, s, c, prior); CounterOnly(s, t, c) && (s.stop ==> t.stop)
    ensures var t := InSemaphore(plan, s, c, prior); CounterOnly(s, t, c) && (s.stop ==> t.stop)
  {
    hide NoDuplicate, Taken, Last;
  }

  lemma ActiveRuns(plan: Plan, init: Origin, s: State, c: nat, e: Event)
    requires Sized(plan, init, s) && Knowing(plan, init, s) && Enabled(plan, s, c, e) && ActiveAreRunning(s, c)
    ensures ActiveAreRunning(Apply(plan, s, c, e), c) && (s.stop ==> Apply(plan, s, c, e).stop)
  {
    assert PcKnows(plan, init, s, c);
    hide NoDuplicate, Taken, Reads, LedgerLive, LedgerOk, Last, Holders, Judge, HasTurn, Recalls, Moved, AtTop, InSemaphore;
    match e
    case Top => TopStops(plan, s, c, s.pcs[c].prior);
    case Acquire => TopStops(plan, s, c, s.pcs[c].prior);
    case Collect(found, ok, fault) =>
      if !fault {
        CollectDeactivates(plan, s, c, s.pcs[c].attempt, found, ok);
      }
    case _ =>
  }

  lemma OccupancyCount(s: State, t: State, c: nat, limit: nat)
    requires |s.pcs| == |t.pcs| == |s.disk| == |t.disk| && c < |s.pcs|
    requires forall d: nat :: d < |s.pcs| && d != c ==> SameFor(s, t, d)
    requires |Occupied(s)| <= limit
    requires c in Occupied(t) ==> c in Occupied(s) || (Occupied(s) <= Holders(s) && |Holders(s)| < limit)
    ensures |Occupied(t)| <= limit
  {
    forall d: nat | d in Occupied(t) && d != c ensures d in Occupied(s) {
      assert SameFor(s, t, d);
    }
    if c in Occupied(t) && c !in Occupied(s) {
      SubsetSize(Occupied(s), Holders(s));
      SubsetSize(Occupied(t), Occupied(s) + {c});
    } else {
      SubsetSize(Occupied(t), Occupied(s));
    }
  }

  lemma BoundedStep(plan: Plan, init: Origin, s: State, c: nat, e: Event)
    requires Sized(plan, init, s) && Knowing(plan, init, s) && Enabled(plan, s, c, e) && Bounded(plan, s)
    ensures Bounded(plan, Apply(plan, s, c, e))
  {
    StepKeepsSizes(plan, init, s, c, e);
    NewHolder(plan, init, s, c, e);
    ActiveRuns(plan, init, s, c, e);
    var t := Apply(plan, s, c, e);
    forall d: nat | d < |s.pcs| && d != c ensures SameFor(s, t, d) {
      StepIsLocal(plan, s, c, e, d);
    }
    hide Apply, Enabled, Knowing;
    assert !s.stop ==> Occupied(s) <= Holders(s) by {
      forall d | !s.stop && d in Occupied(s) ensures d in Holders(s) {
        assert ActiveAreRunning(s, d);
      }
    }
    OccupancyCount(s, t, c, plan.concurrency);
    forall d: nat | d < |t.pcs| ensures ActiveAreRunning(t, d) {
      assert ActiveAreRunning(s, d);
      assert d != c ==> SameFor(s, t, d);
    }
  }

  /** Once the stop flag is up it stays up, and nothing more is dispatched. */
  lemma StopStep(plan: Plan, init: Origin, s: State, c: nat, e: Event)
    requires Sized(plan, init, s) && Knowing(plan, init, s) && Enabled(plan, s, c, e) && s.stop
    ensures Apply(plan, s, c, e).stop && Apply(plan, s, c, e).dispatches == s.dispatches
  {
    assert ProcKnows(plan, init, s, c);
    hide NoDuplicate, Taken, Reads, Last, Knowing, Sized, LedgerLive, Reserved, Unclaimed, Grown, HasTurn;
  }

  // ---- completed candidates ----

  /** The task is frozen, accepted outside the plan, or accepted in another candidate's ledger. */
  ghost predicate TakenElsewhere(plan: Plan, disk: Disk, c: nat)
    requires c < |plan.hashes|
  {
    || plan.hashes[c] in plan.frozen || plan.hashes[c] in plan.foreign
    || exists d: nat, k: nat :: AcceptedAt(disk, d, k) && disk[d][k].hash == plan.hashes[c] && d != c
  }

  /** What a completed entry says about its candidate's ledger. */
  ghost predicate EntryTrue(plan: Plan, disk: Disk, e: Entry) {
    && e.candidate < |plan.hashes| == |disk|
    && var slots := disk[e.candidate];
       && LedgerOk(slots, plan.hashes[e.candidate], e.attempts)
       && match e.verdict
          case Reviewed(accepted) => e.attempts > 0 && slots[e.attempts - 1].status == Complete(accepted)
          case Exhausted => e.attempts == MAX_ATTEMPTS && Retryable(slots[MAX_ATTEMPTS - 1].status)
          case AcceptedElsewhere =>
            TakenElsewhere(plan, disk, e.candidate) && (e.attempts > 0 ==> slots[e.attempts - 1].status != Complete(true))
  }

  /** The last attempt the entry counts is no completed review of this verdict. */
  predicate LastIs(slots: seq<Slot>, n: nat, status: Status) {
    0 < n <= |slots| && slots[n - 1].Written? && slots[n - 1].status == status
  }

  /**
   * What is left to check once an entry is listed: an exhausted candidate's third attempt was not completed after all;
   * a candidate accepted elsewhere was not accepted itself, nor did its next attempt directory appear.
   */
  predicate Stands(disk: Disk, e: Entry) {
    && e.candidate < |disk|
    && var slots, n := disk[e.candidate], e.attempts;
       match e.verdict
       case Reviewed(_) => true
       case Exhausted => !LastIs(slots, n, Complete(true)) && !LastIs(slots, n, Complete(false))
       case AcceptedElsewhere => !LastIs(slots, n, Complete(true)) && (n < |slots| ==> slots[n] == Missing)
  }

  /** What stays true of a listed entry, whatever a worker left over still does. */
  ghost predicate EntryNear(plan: Plan, s: State, e: Entry) {
    && e.candidate < |plan.hashes| == |s.disk| && |s.disk[e.candidate]| == MAX_ATTEMPTS
    && Near(s, e.candidate, plan.hashes[e.candidate], e.attempts)
    && match e.verdict
       case Reviewed(accepted) =>
         LastIs(s.disk[e.candidate], e.attempts, Complete(accepted)) && LedgerOk(s.disk[e.candidate], plan.hashes[e.candidate], e.attempts)
       case Exhausted => e.attempts == MAX_ATTEMPTS
       case AcceptedElsewhere => Taken(plan, s.disk, plan.hashes[e.candidate])
  }

  lemma AlmostOk(slots: seq<Slot>, hash: string, n: nat)
    requires Almost(slots, hash, n)
    ensures LedgerOk(slots, hash, n) <==> (n < |slots| ==> slots[n] == Missing)
  {
  }

  /** Who has not accepted a taken task has lost it to another. */
  lemma TakenByAnother(plan: Plan, disk: Disk, c: nat, n: nat)
    requires c < |plan.hashes| && c < |disk| && LedgerOk(disk[c], plan.hashes[c], n)
    requires Taken(plan, disk, plan.hashes[c]) && !LastIs(disk[c], n, Complete(true))
    ensures TakenElsewhere(plan, disk, c)
  {
    if plan.hashes[c] !in plan.frozen && plan.hashes[c] !in plan.foreign {
      var d: nat, k: nat :| AcceptedAt(disk, d, k) && disk[d][k].hash == plan.hashes[c];
      assert d == c && k < n ==> k == n - 1;
    }
  }

  /** A listed entry is true exactly if it stands. */
  lemma NearDecides(plan: Plan, s: State, e: Entry)
    requires EntryNear(plan, s, e)
    ensures EntryTrue(plan, s.disk, e) <==> Stands(s.disk, e)
  {
    var slots, hash, n := s.disk[e.candidate], plan.hashes[e.candidate], e.attempts;
    AlmostOk(slots, hash, n);
    if e.verdict == AcceptedElsewhere && LedgerOk(slots, hash, n) && !LastIs(slots, n, Complete(true)) {
      TakenByAnother(plan, s.disk, e.candidate, n);
    }
    hide Taken, TakenElsewhere;
  }

  ghost predicate Listed(s: State, c: nat) {
    exists i :: 0 <= i < |s.completed| && s.completed[i].candidate == c
  }

  /** An entry can only be wrong about a ledger that an earlier supervisor's worker moved on during the run. */
  ghost predicate EntryOk(plan: Plan, init: Origin, s: State, e: Entry) {
    EntryNear(plan, s, e) && (EntryTrue(plan, s.disk, e) || Moved(init, s, e.candidate))
  }

  ghost predicate CompletedOk(plan: Plan, init: Origin, s: State) {
    && (forall i, j :: 0 <= i < j < |s.completed| ==> s.completed[i].candidate != s.completed[j].candidate)
    && (forall i :: 0 <= i < |s.completed| ==>
        && EntryOk(plan, init, s, s.completed[i]) && s.completed[i].candidate < |s.pcs|
        && s.pcs[s.completed[i].candidate] == Done && Idle(s, s.completed[i].candidate))
    && (!s.stop ==> forall c: nat :: c < |s.pcs| && s.pcs[c] == Done ==> Listed(s, c))
  }

  ghost predicate OneMore(plan: Plan, init: Origin, s: State, t: State, c: nat) {
    && |t.completed| == |s.completed| + 1 && t.completed[..|s.completed|] == s.completed
    && t.completed[|s.completed|].candidate == c && EntryOk(plan, init, s, t.completed[|s.completed|])
    && c < |s.pcs| == |t.pcs| && t.pcs[c] == Done && s.pcs[c] != Done && Idle(t, c)
  }

  lemma FinishAddsOne(plan: Plan, init: Origin, s: State, c: nat, verdict: Verdict, attempts: nat)
    requires c < |s.pcs| && s.pcs[c] != Done && Idle(s, c) && EntryOk(plan, init, s, Entry(c, verdict, attempts))
    ensures OneMore(plan, init, s, Finish(plan, s, c, verdict, attempts), c)
  {
    hide NoDuplicate, EntryOk;
  }

  /** A section either leaves the list alone, or ends its own candidate with one entry. */
  ghost predicate EndsOrKeeps(plan: Plan, init: Origin, s: State, t: State, c: nat) {
    if t.completed == s.completed then c < |s.pcs| == |t.pcs| && (t.stop || (t.pcs[c] == Done ==> s.pcs[c] == Done))
    else OneMore(plan, init, s, t, c)
  }

  lemma TakenEntry(plan: Plan, init: Origin, s: State, c: nat, prior: seq<Slot>)
    requires Sized(plan, init, s) && c < |s.pcs| && Remembers(plan, init, s, c, prior)
    requires Taken(plan, s.disk, plan.hashes[c]) && Last(prior) != Some(Complete(true))
    ensures EntryOk(plan, init, s, Entry(c, AcceptedElsewhere, |prior|))
  {
    if Recalls(s.disk[c], plan.hashes[c], prior) {
      TakenByAnother(plan, s.disk, c, |prior|);
    }
    hide Taken, TakenElsewhere, Near, Moved, LedgerOk;
  }

  lemma ReviewedEntry(plan: Plan, init: Origin, s: State, c: nat, prior: seq<Slot>)
    requires Sized(plan, init, s) && c < |s.pcs| && Remembers(plan, init, s, c, prior)
    requires Last(prior).Some? && Last(prior).value.Complete?
    ensures EntryOk(plan, init, s, Entry(c, Reviewed(Last(prior).value.accepted), |prior|))
  {
    hide Near, Moved;
    assert prior[|prior| - 1] == s.disk[c][|prior| - 1];
  }

  lemma ExhaustedEntry(plan: Plan, init: Origin, s: State, c: nat, prior: seq<Slot>)
    requires Sized(plan, init, s) && c < |s.pcs| && Remembers(plan, init, s, c, prior)
    requires |prior| == MAX_ATTEMPTS && Unfinished(prior)
    ensures EntryOk(plan, init, s, Entry(c, Exhausted, |prior|))
  {
    hide Near, Moved;
  }

  lemma TopEnds(plan: Plan, init: Origin, s: State, c: nat)
    requires Sized(plan, init, s) && c < |s.pcs| && s.pcs[c].LoopTop? && PcKnows(plan, init, s, c)
    ensures EndsOrKeeps(plan, init, s, AtTop(plan, s, c, s.pcs[c].prior), c)
  {
    var prior := s.pcs[c].prior;
    hide Finish, EntryOk, LedgerOk, Taken, Moved, Near, Recalls;
    if Taken(plan, s.disk, plan.hashes[c]) && Last(prior) != Some(Complete(true)) {
      TakenEntry(plan, init, s, c, prior);
      FinishAddsOne(plan, init, s, c, AcceptedElsewhere, |prior|);
    } else if Last(prior).Some? && Last(prior).value.Complete? {
      ReviewedEntry(plan, init, s, c, prior);
      FinishAddsOne(plan, init, s, c, Reviewed(Last(prior).value.accepted), |prior|);
    } else if |prior| >= MAX_ATTEMPTS {
      ExhaustedEntry(plan, init, s, c, prior);
      FinishAddsOne(plan, init, s, c, Exhausted, |prior|);
    }
  }

  lemma AcquireEnds(plan: Plan, init: Origin, s: State, c: nat)
    requires Sized(plan, init, s) && c < |s.pcs| && s.pcs[c].Waiting? && PcKnows(plan, init, s, c)
    ensures EndsOrKeeps(plan, init, s, InSemaphore(plan, s, c, s.pcs[c].prior), c)
  {
    var prior := s.pcs[c].prior;
    hide Finish, EntryOk, LedgerOk, LedgerLive, Taken, Moved, Near, Recalls;
    if Taken(plan, s.disk, plan.hashes[c]) {
      TakenEntry(plan, init, s, c, prior);
      FinishAddsOne(plan, init, s, c, AcceptedElsewhere, |prior|);
    }
  }

  lemma RecalledEntry(plan: Plan, init: Origin, s: State, c: nat, found: seq<Slot>)
    requires Sized(plan, init, s) && c < |s.pcs| && Recalls(s.disk[c], plan.hashes[c], found)
    requires Near(s, c, plan.hashes[c], |found|) && Last(found).Some? && Last(found).value.Complete?
    ensures EntryOk(plan, init, s, Entry(c, Reviewed(Last(found).value.accepted), |found|))
  {
    hide Near;
    assert found[|found| - 1] == s.disk[c][|found| - 1];
  }

  /** Entries speak of the ledgers and the workers left over only. */
  lemma EntrySame(plan: Plan, init: Origin, s: State, t: State, e: Entry)
    requires t.disk == s.disk && t.leftover == s.leftover
    ensures EntryOk(plan, init, t, e) <==> EntryOk(plan, init, s, e)
  {
    hide EntryTrue, Almost, LedgerOk, Taken;
  }

  lemma CollectEnds(plan: Plan, init: Origin, s: State, c: nat, found: seq<Slot>, ok: bool)
    requires Sized(plan, init, s) && c < |s.pcs| && s.pcs[c].Running? && PcKnows(plan, init, s, c) && Reads(plan, s, c, found, ok)
    requires s.procs[c].exit.Some? && ProcKnows(plan, init, s, c)
    ensures EndsOrKeeps(plan, init, s, Judge(plan, s, c, s.pcs[c].attempt, found, ok), c)
  {
    var n := s.pcs[c].attempt;
    var t := s.(active := s.active - {c}, procs := s.procs - {c});
    hide Finish, EntryOk, LedgerOk, LedgerLive, NoDuplicate, Near, Grown, Reserved, Unclaimed;
    if ok && |found| == n && Last(found).Some? && Last(found).value.Complete? && !s.procs[c].exit.value {
      RecallsNear(s, c, plan.hashes[c], found);
      RecalledEntry(plan, init, s, c, found);
      EntrySame(plan, init, s, t, Entry(c, Reviewed(Last(found).value.accepted), n));
      FinishAddsOne(plan, init, t, c, Reviewed(Last(found).value.accepted), n);
    }
  }

  lemma StepEnds(plan: Plan, init: Origin, s: State, c: nat, e: Event)
    requires Sized(plan, init, s) && Knowing(plan, init, s) && Enabled(plan, s, c, e)
    ensures EndsOrKeeps(plan, init, s, Apply(plan, s, c, e), c)
  {
    assert PcKnows(plan, init, s, c) && ProcKnows(plan, init, s, c);
    hide OneMore, AtTop, InSemaphore, Judge, NoDuplicate, HasTurn, Moved, Recalls, Reads, Advances, Near, Grown, Reserved, Unclaimed,
      LedgerLive;
    match e
    case Top => TopEnds(plan, init, s, c);
    case Acquire => AcquireEnds(plan, init, s, c);
    case Collect(found, ok, fault) =>
      if !fault {
        CollectEnds(plan, init, s, c, found, ok);
      }
    case _ =>
  }

  lemma TakenStep(plan: Plan, s: State, c: nat, e: Event, hash: string)
    requires Enabled(plan, s, c, e) && Taken(plan, s.disk, hash)
    ensures Taken(plan, Apply(plan, s, c, e).disk, hash)
  {
    DiskOnlyWritten(plan, s, c, e);
    if (e.Write? || e.LeftWrite?) && HashAccepted(s.disk, hash) {
      hide HasTurn, NoDuplicate;
      var d: nat, k: nat :| AcceptedAt(s.disk, d, k) && s.disk[d][k].hash == hash;
      assert AcceptedAt(Apply(plan, s, c, e).disk, d, k);
    }
  }

  /** What a worker left over has changed stays changed. */
  lemma MovedStays(plan: Plan, init: Origin, s: State, c: nat, e: Event, d: nat)
    requires Sized(plan, init, s) && Knowing(plan, init, s) && Enabled(plan, s, c, e) && Moved(init, s, d)
    ensures Moved(init, Apply(plan, s, c, e), d)
  {
    assert ProcKnows(plan, init, s, d);
    if d == c {
      GrownStep(plan, s, c, e, s.disk[c]);
    } else {
      StepIsLocal(plan, s, c, e, d);
    }
    StepKeepsSizes(plan, init, s, c, e);
    hide Apply, Enabled, LedgerLive, Reserved, Unclaimed;
  }

  lemma EntryStays(plan: Plan, init: Origin, s: State, c: nat, e: Event, entry: Entry)
    requires Sized(plan, init, s) && Knowing(plan, init, s) && Enabled(plan, s, c, e) && EntryTrue(plan, s.disk, entry)
    requires s.pcs[entry.candidate] == Done && Idle(s, entry.candidate)
    ensures EntryTrue(plan, Apply(plan, s, c, e).disk, entry) || (c == entry.candidate && e.LeftWrite?)
  {
    var d := entry.candidate;
    if d == c {
      DiskOnlyWritten(plan, s, c, e);
    } else {
      StepIsLocal(plan, s, c, e, d);
    }
    StepKeepsSizes(plan, init, s, c, e);
    if entry.verdict == AcceptedElsewhere {
      TakenStep(plan, s, c, e, plan.hashes[d]);
    }
    assert e.Write? ==> c in s.procs;
    hide Apply, Enabled, LedgerOk, Taken;
  }

  /** The nearness of a listed entry outlasts every step. */
  lemma EntryNearStays(plan: Plan, init: Origin, s: State, c: nat, e: Event, entry: Entry)
    requires Sized(plan, init, s) && Knowing(plan, init, s) && Enabled(plan, s, c, e) && EntryNear(plan, s, entry)
    requires Idle(s, entry.candidate)
    ensures EntryNear(plan, Apply(plan, s, c, e), entry)
  {
    var d, t := entry.candidate, Apply(plan, s, c, e);
    StepKeepsSizes(plan, init, s, c, e);
    TakenIfStays(plan, s, c, e, plan.hashes[d]);
    if d != c {
      StepIsLocal(plan, s, c, e, d);
      hide Apply, Enabled, Taken, Almost, LedgerOk, Knowing;
    } else if e.LeftWrite? {
      assert ProcKnows(plan, init, s, c);
      LeftWriteNear(plan, s, c, e.slot, entry.attempts);
      ReviewedIsFinal(plan, s, c, e.slot, entry);
      hide Apply, Enabled, Taken, Near, LedgerOk, Knowing;
    } else {
      NotWritten(plan, s, c, e);
      hide Apply, Enabled, Taken, Almost, LedgerOk, Knowing;
    }
  }

  lemma ReviewedIsFinal(plan: Plan, s: State, c: nat, slot: Slot, entry: Entry)
    requires Enabled(plan, s, c, LeftWrite(slot)) && LedgerLive(s.disk[c], plan.hashes[c], s.leftover[c])
    requires EntryNear(plan, s, entry) && entry.candidate == c
    ensures !entry.verdict.Reviewed?
  {
    WriterFindsOpen(s.disk[c], plan.hashes[c], entry.attempts, s.leftover[c], slot);
  }

  lemma NotWritten(plan: Plan, s: State, c: nat, e: Event)
    requires Enabled(plan, s, c, e) && Idle(s, c) && !e.LeftWrite?
    ensures Apply(plan, s, c, e).disk == s.disk
    ensures var t := Apply(plan, s, c, e);
      c in t.leftover ==> c in s.leftover && t.leftover[c] == s.leftover[c]
  {
    DiskOnlyWritten(plan, s, c, e);
    hide NoDuplicate, Taken, Reads, Advances, Last, HasTurn;
  }

  lemma TakenIfStays(plan: Plan, s: State, c: nat, e: Event, hash: string)
    requires Enabled(plan, s, c, e)
    ensures Taken(plan, s.disk, hash) ==> Taken(plan, Apply(plan, s, c, e).disk, hash)
  {
    if Taken(plan, s.disk, hash) {
      TakenStep(plan, s, c, e, hash);
    }
  }

  lemma EntryOkStays(plan: Plan, init: Origin, s: State, c: nat, e: Event, entry: Entry)
    requires Sized(plan, init, s) && Knowing(plan, init, s) && Enabled(plan, s, c, e) && EntryOk(plan, init, s, entry)
    requires entry.candidate < |s.pcs| && s.pcs[entry.candidate] == Done && Idle(s, entry.candidate)
    ensures EntryOk(plan, init, Apply(plan, s, c, e), entry)
  {
    hide Apply, Enabled, EntryTrue, EntryNear, Moved;
    EntryNearStays(plan, init, s, c, e, entry);
    if EntryTrue(plan, s.disk, entry) {
      EntryStays(plan, init, s, c, e, entry);
      if c == entry.candidate && e.LeftWrite? {
        assert ProcKnows(plan, init, s, c);
        MovedByWrite(plan, init, s, c, e.slot);
      }
    } else {
      MovedStays(plan, init, s, c, e, entry.candidate);
    }
  }

  /** A finished, inactive candidate stays that way. */
  lemma DoneStays(plan: Plan, init: Origin, s: State, c: nat, e: Event, d: nat)
    requires Sized(plan, init, s) && Knowing(plan, init, s) && Enabled(plan, s, c, e)
    requires d < |s.pcs| && s.pcs[d] == Done && Idle(s, d)
    ensures var t := Apply(plan, s, c, e); d < |t.pcs| && t.pcs[d] == Done && Idle(t, d)
  {
    hide NoDuplicate, Taken, Reads, Advances, HasTurn, Knowing, Sized;
    if d != c {
      StepIsLocal(plan, s, c, e, d);
    }
  }

  lemma CompletedStep(plan: Plan, init: Origin, s: State, c: nat, e: Event)
    requires Sized(plan, init, s) && Knowing(plan, init, s) && Enabled(plan, s, c, e) && CompletedOk(plan, init, s)
    ensures CompletedOk(plan, init, Apply(plan, s, c, e))
  {
    var t := Apply(plan, s, c, e);
    StepKeepsSizes(plan, init, s, c, e);
    StepEnds(plan, init, s, c, e);
    hide EntryOk;
    forall i | 0 <= i < |s.completed|
      ensures EntryOk(plan, init, t, s.completed[i])
      ensures t.pcs[s.completed[i].candidate] == Done && Idle(t, s.completed[i].candidate)
    {
      EntryOkStays(plan, init, s, c, e, s.completed[i]);
      DoneStays(plan, init, s, c, e, s.completed[i].candidate);
    }
    forall d: nat | d < |s.pcs| && d != c ensures t.pcs[d] == s.pcs[d] {
      StepIsLocal(plan, s, c, e, d);
    }
    if s.stop {
      StopStep(plan, init, s, c, e);
    }
    if t.completed != s.completed {
      OnlySectionsList(plan, s, c, e);
    }
    hide Apply, Enabled, Knowing;
    CompletedAfter(plan, init, s, t, c);
  }

  lemma OnlySectionsList(plan: Plan, s: State, c: nat, e: Event)
    requires Enabled(plan, s, c, e)
    ensures OfProcess(e) ==> Apply(plan, s, c, e).completed == s.completed
    ensures !OfProcess(e) ==> Apply(plan, s, c, e).disk == s.disk && Apply(plan, s, c, e).leftover == s.leftover
  {
    hide NoDuplicate, Taken, Reads, Advances, HasTurn;
  }

  lemma CompletedAfter(plan: Plan, init: Origin, s: State, t: State, c: nat)
    requires CompletedOk(plan, init, s) && EndsOrKeeps(plan, init, s, t, c) && |s.pcs| == |t.pcs| && (s.stop ==> t.stop)
    requires forall d: nat :: d < |s.pcs| && d != c ==> t.pcs[d] == s.pcs[d]
    requires forall i :: 0 <= i < |s.completed| ==>
      && EntryOk(plan, init, t, s.completed[i]) && s.completed[i].candidate < |t.pcs|
      && t.pcs[s.completed[i].candidate] == Done && Idle(t, s.completed[i].candidate)
    requires t.completed != s.completed ==> t.disk == s.disk && t.leftover == s.leftover
    ensures CompletedOk(plan, init, t)
  {
    hide EntryTrue, EntryOk;
    var n := |s.completed|;
    if t.completed != s.completed {
      assert forall i :: 0 <= i < n ==> t.completed[i] == t.completed[..n][i];
      EntrySame(plan, init, s, t, t.completed[n]);
    }
    if !t.stop {
      forall d: nat | d < |t.pcs| && t.pcs[d] == Done ensures Listed(t, d) {
        if d == c && t.completed != s.completed {
          assert t.completed[n].candidate == c;
        } else {
          var i :| 0 <= i < n && s.completed[i].candidate == d;
          assert t.completed[i].candidate == d;
        }
      }
    }
  }

  // ---- dispatches ----

  /** The highest attempt a candidate at this point may already have dispatched. */
  function Reached(pc: Pc): nat {
    match pc
    case Begin => 0
    case LoopTop(prior) => |prior|
    case Backoff(prior) => |prior|
    case Waiting(prior) => |prior|
    case Checking(prior) => |prior|
    case Spawning(n) => n
    case Running(n) => n
    case Done => MAX_ATTEMPTS
  }

  /** No attempt is dispatched twice, and only attempts 1 to 3 are dispatched. */
  ghost predicate DispatchOk(s: State) {
    && Distinct(s.dispatches)
    && forall i :: 0 <= i < |s.dispatches| ==>
      s.dispatches[i].0 < |s.pcs| && 1 <= s.dispatches[i].1 <= Reached(s.pcs[s.dispatches[i].0])
  }

  /** A section moves its candidate forward, and dispatches at most the next attempt. */
  ghost predicate Climbs(s: State, t: State, c: nat) {
    && c < |s.pcs| == |t.pcs| && Reached(s.pcs[c]) <= Reached(t.pcs[c])
    && var next := Reached(s.pcs[c]) + 1;
       t.dispatches == s.dispatches || (t.dispatches == s.dispatches + [(c, next)] && t.pcs[c] == Spawning(next))
  }

  lemma TopClimbs(plan: Plan, init: Origin, s: State, c: nat)
    requires Sized(plan, init, s) && c < |s.pcs| && s.pcs[c].LoopTop? && PcKnows(plan, init, s, c)
    ensures Climbs(s, AtTop(plan, s, c, s.pcs[c].prior), c)
  {
    hide NoDuplicate, Taken, Last;
  }

  lemma AcquireClimbs(plan: Plan, init: Origin, s: State, c: nat)
    requires Sized(plan, init, s) && c < |s.pcs| && s.pcs[c].Waiting? && PcKnows(plan, init, s, c)
    ensures Climbs(s, InSemaphore(plan, s, c, s.pcs[c].prior), c)
  {
    hide NoDuplicate, Taken, Last, LedgerLive;
  }

  lemma CollectClimbs(plan: Plan, init: Origin, s: State, c: nat, found: seq<Slot>, ok: bool)
    requires Sized(plan, init, s) && c < |s.pcs| && s.pcs[c].Running? && PcKnows(plan, init, s, c) && ProcKnows(plan, init, s, c)
    requires s.procs[c].exit.Some?
    ensures Climbs(s, Judge(plan, s, c, s.pcs[c].attempt, found, ok), c)
  {
    hide NoDuplicate, Last, Reserved;
  }

  lemma ReachedBound(plan: Plan, init: Origin, s: State, c: nat)
    requires Sized(plan, init, s) && c < |s.pcs| && PcKnows(plan, init, s, c) && ProcKnows(plan, init, s, c)
    ensures Reached(s.pcs[c]) <= MAX_ATTEMPTS
  {
    hide Near, Recalls, Moved, Reserved, Unclaimed, Grown;
  }

  lemma LaunchClimbs(plan: Plan, s: State, c: nat, n: nat)
    requires c < |s.pcs| && s.pcs[c] == Spawning(n)
    ensures Climbs(s, Launch(plan, s, c, n), c) || Launch(plan, s, c, n).pcs[c] == Done
    ensures Launch(plan, s, c, n).dispatches == s.dispatches && |Launch(plan, s, c, n).pcs| == |s.pcs|
  {
    hide NoDuplicate;
  }

  lemma CheckClimbs(s: State, c: nat, prior: seq<Slot>, found: seq<Slot>, ok: bool, fault: bool)
    requires c < |s.pcs| && c < |s.disk| && s.pcs[c] == Checking(prior) && |prior| <= MAX_ATTEMPTS
    ensures Climbs(s, Recheck(s, c, prior, found, ok, fault), c)
  {
  }

  lemma ReachedStep(plan: Plan, init: Origin, s: State, c: nat, e: Event)
    requires Sized(plan, init, s) && Knowing(plan, init, s) && Enabled(plan, s, c, e)
    ensures Climbs(s, Apply(plan, s, c, e), c)
  {
    assert PcKnows(plan, init, s, c) && ProcKnows(plan, init, s, c);
    ReachedBound(plan, init, s, c);
    hide AtTop, InSemaphore, Judge, Launch, Recheck, NoDuplicate, Taken, Last, HasTurn, Reads, Advances, PcKnows, ProcKnows, Knowing,
      Sized;
    match e
    case Spawned(fault) =>
      if !fault {
        LaunchClimbs(plan, s, c, s.pcs[c].attempt);
      }
    case Check(found, ok, fault) => CheckClimbs(s, c, s.pcs[c].prior, found, ok, fault);
    case Top => TopClimbs(plan, init, s, c);
    case Acquire => AcquireClimbs(plan, init, s, c);
    case Collect(found, ok, fault) =>
      if !fault {
        CollectClimbs(plan, init, s, c, found, ok);
      }
    case _ =>
  }

  lemma DispatchStep(plan: Plan, init: Origin, s: State, c: nat, e: Event)
    requires Sized(plan, init, s) && Knowing(plan, init, s) && Enabled(plan, s, c, e) && DispatchOk(s)
    ensures DispatchOk(Apply(plan, s, c, e))
  {
    ReachedStep(plan, init, s, c, e);
    var t := Apply(plan, s, c, e);
    forall d: nat | d < |s.pcs| && d != c ensures t.pcs[d] == s.pcs[d] {
      StepIsLocal(plan, s, c, e, d);
    }
    hide Apply, Enabled, Knowing, Sized;
  }

  // ---- errors ----

  /** The only ways to the errors that speak of a race or a duplicate. */
  ghost predicate ErrorOk(plan: Plan, init: Origin, s: State, error: (nat, Reason)) {
    match error.1
    case OutputExists => false
    case LedgerChanged => Moved(init, s, error.0) && error.0 !in s.leftover
    case WorkerAlive => error.0 in init.leftover
    case DuplicateAccepted => !Clean(plan, init.disk, init.leftover)
    case _ => true
  }

  /** Errors raise the stop flag, and only for the reasons above. */
  ghost predicate ErrorsOk(plan: Plan, init: Origin, s: State) {
    && (s.stop <==> s.errors != [])
    && forall i :: 0 <= i < |s.errors| ==> ErrorOk(plan, init, s, s.errors[i])
  }

  /** A section adds at most one error of its own candidate, raising the stop flag. */
  ghost predicate OneError(s: State, t: State, c: nat) {
    || (t.errors == s.errors && t.stop == s.stop)
    || (t.stop && |t.errors| == |s.errors| + 1 && t.errors[..|s.errors|] == s.errors && t.errors[|s.errors|].0 == c)
  }

  /** The reason a section may give. */
  ghost predicate Reasoned(plan: Plan, init: Origin, s: State, t: State, c: nat) {
    |t.errors| == |s.errors| + 1 ==>
      var reason := t.errors[|s.errors|].1;
      && reason != OutputExists
      && (reason == LedgerChanged ==> Moved(init, s, c) && c !in s.leftover)
      && (reason == WorkerAlive ==> c in s.leftover)
      && (reason == DuplicateAccepted ==> !NoDuplicate(plan, s.disk))
  }

  lemma TopErrs(plan: Plan, init: Origin, s: State, c: nat, prior: seq<Slot>)
    requires c < |s.pcs| && c < |plan.hashes|
    ensures OneError(s, AtTop(plan, s, c, prior), c) && Reasoned(plan, init, s, AtTop(plan, s, c, prior), c)
    ensures OneError(s, InSemaphore(plan, s, c, prior), c) && Reasoned(plan, init, s, InSemaphore(plan, s, c, prior), c)
  {
    hide NoDuplicate, Taken, Last, Moved;
  }

  lemma CheckErrs(plan: Plan, init: Origin, s: State, c: nat, found: seq<Slot>, ok: bool, fault: bool)
    requires Sized(plan, init, s) && c < |s.pcs| && s.pcs[c].Checking? && PcKnows(plan, init, s, c) && Reads(plan, s, c, found, ok)
    ensures OneError(s, Recheck(s, c, s.pcs[c].prior, found, ok, fault), c)
    ensures Reasoned(plan, init, s, Recheck(s, c, s.pcs[c].prior, found, ok, fault), c)
  {
    CheckCounter(plan, init, s, c, found, ok, fault);
    RereadAgrees(plan, init, s, c, found, ok);
    hide NoDuplicate, Moved, PcKnows, Reads;
  }

  lemma CollectErrs(plan: Plan, init: Origin, s: State, c: nat, n: nat, found: seq<Slot>, ok: bool)
    requires c < |s.pcs| && c in s.procs && s.procs[c].exit.Some?
    ensures OneError(s, Judge(plan, s, c, n, found, ok), c) && Reasoned(plan, init, s, Judge(plan, s, c, n, found, ok), c)
  {
    hide NoDuplicate, Last, Moved;
  }

  lemma StepErrs(plan: Plan, init: Origin, s: State, c: nat, e: Event)
    requires Sized(plan, init, s) && Knowing(plan, init, s) && Enabled(plan, s, c, e)
    ensures OneError(s, Apply(plan, s, c, e), c) && Reasoned(plan, init, s, Apply(plan, s, c, e), c)
  {
    assert PcKnows(plan, init, s, c);
    hide AtTop, InSemaphore, Recheck, Judge, NoDuplicate, Taken, Last, LedgerLive, LedgerOk, Moved, Recalls, HasTurn, Reads, Advances;
    match e
    case Top => TopErrs(plan, init, s, c, s.pcs[c].prior);
    case Acquire => TopErrs(plan, init, s, c, s.pcs[c].prior);
    case Check(found, ok, fault) => CheckErrs(plan, init, s, c, found, ok, fault);
    case Collect(found, ok, fault) =>
      if !fault {
        CollectErrs(plan, init, s, c, s.pcs[c].attempt, found, ok);
      }
    case _ =>
  }

  lemma ErrorStays(plan: Plan, init: Origin, s: State, c: nat, e: Event, error: (nat, Reason))
    requires Sized(plan, init, s) && Knowing(plan, init, s) && Enabled(plan, s, c, e) && ErrorOk(plan, init, s, error)
    ensures ErrorOk(plan, init, Apply(plan, s, c, e), error)
  {
    TablesKept(plan, s, c, e);
    if Moved(init, s, error.0) {
      MovedStays(plan, init, s, c, e, error.0);
    }
    hide Apply, Enabled, Knowing, Sized, Clean, Moved;
  }

  /** What the new error says holds of the state it is raised in. */
  lemma NewErrorOk(plan: Plan, init: Origin, s: State, t: State, c: nat)
    requires OneError(s, t, c) && Reasoned(plan, init, s, t, c) && t.errors != s.errors
    requires Clean(plan, init.disk, init.leftover) ==> Clean(plan, s.disk, s.leftover)
    requires c in s.leftover ==> c in init.leftover
    ensures ErrorOk(plan, init, s, t.errors[|s.errors|])
  {
    hide NoDuplicate, Moved, Reserved;
  }

  lemma ErrorsStep(plan: Plan, init: Origin, s: State, c: nat, e: Event)
    requires Sized(plan, init, s) && Knowing(plan, init, s) && Enabled(plan, s, c, e) && ErrorsOk(plan, init, s)
    requires Clean(plan, init.disk, init.leftover) ==> Clean(plan, s.disk, s.leftover)
    ensures ErrorsOk(plan, init, Apply(plan, s, c, e))
  {
    StepErrs(plan, init, s, c, e);
    assert ProcKnows(plan, init, s, c);
    assert c in s.leftover ==> c in init.leftover;
    var t := Apply(plan, s, c, e);
    hide Apply, Enabled, Knowing, Sized, ErrorOk, Reasoned, Clean, OneError, ProcKnows;
    if t.errors != s.errors {
      NewErrorOk(plan, init, s, t, c);
    }
    forall error | ErrorOk(plan, init, s, error) ensures ErrorOk(plan, init, t, error) {
      ErrorStays(plan, init, s, c, e, error);
    }
    ErrorsAfter(plan, init, s, t, c);
  }

  lemma ErrorsAfter(plan: Plan, init: Origin, s: State, t: State, c: nat)
    requires ErrorsOk(plan, init, s) && OneError(s, t, c)
    requires t.errors != s.errors ==> ErrorOk(plan, init, s, t.errors[|s.errors|])
    requires forall error :: ErrorOk(plan, init, s, error) ==> ErrorOk(plan, init, t, error)
    ensures ErrorsOk(plan, init, t)
  {
    hide ErrorOk;
    var n := |s.errors|;
    assert t.errors != s.errors ==> forall i :: 0 <= i < n ==> t.errors[i] == t.errors[..n][i];
  }

  // ---- over whole runs ----

  ghost predicate Inv(plan: Plan, init: Origin, s: State) {
    && Sized(plan, init, s) && Knowing(plan, init, s) && ShapeKept(init.disk, s.disk)
    && (Clean(plan, init.disk, init.leftover) ==> Clean(plan, s.disk, s.leftover))
    && Bounded(plan, s) && CompletedOk(plan, init, s) && DispatchOk(s) && ErrorsOk(plan, init, s)
  }

  lemma InvStart(plan: Plan, init: Origin)
    requires Origins(plan, init)
    ensures Inv(plan, init, Initial(init))
  {
    assert Occupied(Initial(init)) == {};
  }

  lemma InvStep(plan: Plan, init: Origin, s: State, t: State)
    requires Inv(plan, init, s) && Next(plan, s, t)
    ensures Inv(plan, init, t)
  {
    var c, e :| Enabled(plan, s, c, e) && t == Apply(plan, s, c, e);
    hide Sized, Knowing, ShapeKept, Clean, Bounded, CompletedOk, DispatchOk, ErrorsOk, Apply, Enabled;
    KnowingStep(plan, init, s, c, e);
    ShapeStep(plan, init, s, c, e);
    if Clean(plan, init.disk, init.leftover) {
      CleanStep(plan, init, s, c, e);
    }
    BoundedStep(plan, init, s, c, e);
    CompletedStep(plan, init, s, c, e);
    DispatchStep(plan, init, s, c, e);
    ErrorsStep(plan, init, s, c, e);
  }

  lemma {:induction false} RunKeepsInv(plan: Plan, init: Origin, run: seq<State>, i: nat)
    requires IsRun(plan, init, run) && i < |run|
    ensures Inv(plan, init, run[i])
  {
    hide Inv, Next;
    if i == 0 {
      InvStart(plan, init);
    } else {
      RunKeepsInv(plan, init, run, i - 1);
      InvStep(plan, init, run[i - 1], run[i]);
    }
  }

  /** Ledgers stay gap-free, at most three attempts long, with none after a completed review; broken ones are not touched. */
  lemma LedgersStayImmutable(plan: Plan, init: Origin, run: seq<State>, i: nat, c: nat)
    requires IsRun(plan, init, run) && i < |run| && c < |plan.hashes|
    ensures c < |run[i].disk| && |run[i].disk[c]| == MAX_ATTEMPTS
    ensures if LedgerShape(init.disk[c]) then LedgerShape(run[i].disk[c]) else run[i].disk[c] == init.disk[c]
  {
    RunKeepsInv(plan, init, run, i);
  }

  /** Dispatching and active candidates and live subprocesses never exceed the semaphore, whatever an error left behind. */
  lemma ConcurrencyBounded(plan: Plan, init: Origin, run: seq<State>, i: nat)
    requires IsRun(plan, init, run) && i < |run|
    ensures run[i].active.Keys + run[i].procs.Keys <= Occupied(run[i]) && Holders(run[i]) <= Occupied(run[i])
    ensures |run[i].active.Keys + run[i].procs.Keys| <= |Occupied(run[i])| <= plan.concurrency
  {
    RunKeepsInv(plan, init, run, i);
    forall c | c in Holders(run[i]) ensures c in Occupied(run[i]) {
      assert PcKnows(plan, init, run[i], c);
    }
    hide Knowing, ShapeKept, Clean, CompletedOk, DispatchOk, ErrorsOk;
    SubsetSize(run[i].active.Keys + run[i].procs.Keys, Occupied(run[i]));
  }

  /** Once the flag is up, no candidate gets past the check inside the semaphore. */
  lemma {:induction false} NoDispatchAfterStop(plan: Plan, init: Origin, run: seq<State>, i: nat, j: nat)
    requires IsRun(plan, init, run) && i <= j < |run| && run[i].stop
    ensures run[j].stop && run[j].dispatches == run[i].dispatches
  {
    hide Apply, Enabled;
    if i < j {
      NoDispatchAfterStop(plan, init, run, i, j - 1);
      assert Next(plan, run[j - 1], run[j]);
      var c, e :| Enabled(plan, run[j - 1], c, e) && run[j] == Apply(plan, run[j - 1], c, e);
      RunKeepsInv(plan, init, run, j - 1);
      StopStep(plan, init, run[j - 1], c, e);
    }
  }

  function Candidates(entries: seq<Entry>): seq<nat> {
    seq(|entries|, i requires 0 <= i < |entries| => entries[i].candidate)
  }

  /** Completed candidates are listed once, none of them is active, and entries are true of ledgers no worker moved on. */
  lemma CompletedOnce(plan: Plan, init: Origin, run: seq<State>, i: nat)
    requires IsRun(plan, init, run) && i < |run|
    ensures Distinct(Candidates(run[i].completed)) && Elements(Candidates(run[i].completed)) !! run[i].active.Keys
    ensures forall e :: e in run[i].completed ==> (EntryTrue(plan, run[i].disk, e) <==> Stands(run[i].disk, e))
    ensures forall e :: e in run[i].completed ==> EntryTrue(plan, run[i].disk, e) || Moved(init, run[i], e.candidate)
    ensures |run[i].completed| + |run[i].active| <= |plan.hashes|
  {
    var s := run[i];
    RunKeepsInv(plan, init, run, i);
    forall e | e in s.completed
      ensures EntryTrue(plan, s.disk, e) <==> Stands(s.disk, e)
      ensures EntryTrue(plan, s.disk, e) || Moved(init, s, e.candidate)
    {
      assert EntryOk(plan, init, s, e);
      NearDecides(plan, s, e);
    }
    hide EntryTrue, Stands, EntryOk, Knowing, ShapeKept, Clean, Bounded, DispatchOk, ErrorsOk;
    var listed := Elements(Candidates(s.completed));
    DistinctSize(Candidates(s.completed));
    forall c | c in listed ensures c < |plan.hashes| && c !in s.active {
      var q :| 0 <= q < |Candidates(s.completed)| && Candidates(s.completed)[q] == c;
      assert s.completed[q].candidate == c;
    }
    SubsetSize(listed + s.active.Keys, Below(|plan.hashes|));
    assert |listed + s.active.Keys| == |listed| + |s.active.Keys|;
  }

  function Attempts(dispatches: seq<(nat, nat)>, c: nat): (a: seq<nat>)
    ensures forall k :: k in a <==> (c, k) in dispatches
  {
    if dispatches == [] then []
    else
      var last := dispatches[|dispatches| - 1];
      Attempts(dispatches[..|dispatches| - 1], c) + if last.0 == c then [last.1] else []
  }

  lemma {:induction false} AttemptsDistinct(dispatches: seq<(nat, nat)>, c: nat)
    requires Distinct(dispatches)
    ensures Distinct(Attempts(dispatches, c))
  {
    if dispatches != [] {
      var n := |dispatches| - 1;
      AttemptsDistinct(dispatches[..n], c);
      assert dispatches[n] !in dispatches[..n];
    }
  }

  /** No candidate is dispatched more than three times. */
  lemma AtMostThreeDispatches(plan: Plan, init: Origin, run: seq<State>, i: nat, c: nat)
    requires IsRun(plan, init, run) && i < |run|
    ensures |Attempts(run[i].dispatches, c)| <= MAX_ATTEMPTS
  {
    RunKeepsInv(plan, init, run, i);
    var attempts := Attempts(run[i].dispatches, c);
    AttemptsDistinct(run[i].dispatches, c);
    DistinctSize(attempts);
    forall k | k in attempts ensures 1 <= k <= MAX_ATTEMPTS {
      var q :| 0 <= q < |run[i].dispatches| && run[i].dispatches[q] == (c, k);
      assert PcKnows(plan, init, run[i], c) && ProcKnows(plan, init, run[i], c);
    }
    SubsetSize(Elements(attempts), {1, 2, 3});
  }

  /** From a clean start no run accepts a task twice, so that error never occurs. */
  lemma DuplicateUnreachable(plan: Plan, init: Origin, run: seq<State>, i: nat)
    requires IsRun(plan, init, run) && i < |run| && Clean(plan, init.disk, init.leftover)
    ensures NoDuplicate(plan, run[i].disk)
    ensures forall e :: e in run[i].errors ==> e.1 != DuplicateAccepted
  {
    RunKeepsInv(plan, init, run, i);
  }

  /** An existing output directory is never met, and a changed ledger or a live worker only where one was left over. */
  lemma RacesNeedLeftovers(plan: Plan, init: Origin, run: seq<State>, i: nat)
    requires IsRun(plan, init, run) && i < |run|
    ensures forall e :: e in run[i].errors ==> e.1 != OutputExists
    ensures forall e :: e in run[i].errors && e.1 == WorkerAlive ==> e.0 in init.leftover
    ensures forall e :: e in run[i].errors && e.1 == LedgerChanged ==> Moved(init, run[i], e.0) && e.0 !in run[i].leftover
  {
    RunKeepsInv(plan, init, run, i);
  }

  /** A run that ends without an error has listed every candidate of the plan. */
  lemma CleanRunCompletes(plan: Plan, init: Origin, run: seq<State>, i: nat)
    requires IsRun(plan, init, run) && i < |run|
    requires run[i].errors == [] && forall c :: 0 <= c < |run[i].pcs| ==> run[i].pcs[c] == Done
    ensures forall c: nat :: c < |plan.hashes| ==> Listed(run[i], c)
    ensures |run[i].completed| == |plan.hashes| && run[i].active == map[]
  {
    RunKeepsInv(plan, init, run, i);
    var s := run[i];
    CompletedOnce(plan, init, run, i);
    DistinctSize(Candidates(s.completed));
    forall c: nat | c < |plan.hashes| ensures c in Elements(Candidates(s.completed)) {
      assert Listed(s, c);
      var q :| 0 <= q < |s.completed| && s.completed[q].candidate == c;
      assert Candidates(s.completed)[q] == c;
    }
    SubsetSize(Below(|plan.hashes|), Elements(Candidates(s.completed)));
    assert |s.active| == 0;
  }
}
