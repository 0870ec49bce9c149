/** The supervisor's coroutines as interleaved steps, one atomic section between two awaits at a time. */
module SupervisorProtocol {
  import opened Common
  import opened Supervisor

  /** The run's constants: plan task hashes, hashes frozen earlier, and accepted reviews outside the plan. */
  datatype Plan = Plan(hashes: seq<string>, frozen: set<string>, foreign: seq<string>, concurrency: nat)

  type Disk = seq<seq<Slot>>

  datatype Pc =
    | Begin
    | LoopTop(prior: seq<Slot>)
    | Backoff(prior: seq<Slot>)
    | Waiting(prior: seq<Slot>)
    | Checking(prior: seq<Slot>)
    | Spawning(attempt: nat)
    | Running(attempt: nat)
    | Done

  /** A review subprocess; `exit` tells whether it has exited, and whether nonzero. */
  datatype Proc = Proc(attempt: nat, exit: Option<bool>)

  datatype Verdict = AcceptedElsewhere | Reviewed(accepted: bool) | Exhausted
  datatype Entry = Entry(candidate: nat, verdict: Verdict, attempts: nat)

  datatype Reason = LedgerInvalid | LedgerChanged | WorkerAlive | OutputExists | DuplicateAccepted | Omitted | NonzeroComplete | Fault

  /** What a supervisor finds: the ledgers, and per candidate the attempt an earlier supervisor's worker is still making. */
  datatype Origin = Origin(disk: Disk, leftover: map<nat, nat>)

  /** `procs` are this run's subprocesses; `leftover` are the earlier supervisor's workers still alive. */
  datatype State = State(disk: Disk, pcs: seq<Pc>, active: map<nat, nat>, procs: map<nat, Proc>, leftover: map<nat, nat>,
                         completed: seq<Entry>, failed: seq<(nat, nat)>, errors: seq<(nat, Reason)>, stop: bool,
                         dispatches: seq<(nat, nat)>)

  // ---- what the supervisor reads off the disk ----

  predicate AcceptedAt(disk: Disk, c: nat, k: nat) {
    c < |disk| && k < |disk[c]| && disk[c][k].Written? && disk[c][k].status == Complete(true)
  }

  ghost predicate HashAccepted(disk: Disk, hash: string) {
    exists c: nat, k: nat :: AcceptedAt(disk, c, k) && disk[c][k].hash == hash
  }

  ghost predicate Taken(plan: Plan, disk: Disk, hash: string) {
    hash in plan.frozen || hash in plan.foreign || HashAccepted(disk, hash)
  }

  /** What `snapshot` insists on: no two accepted reviews share a task hash. */
  ghost predicate NoDuplicate(plan: Plan, disk: Disk) {
    && Distinct(plan.foreign)
    && (forall c: nat, k: nat :: AcceptedAt(disk, c, k) ==> disk[c][k].hash !in plan.foreign)
    && (forall c: nat, k: nat, d: nat, m: nat :: AcceptedAt(disk, c, k) && AcceptedAt(disk, d, m) && (c, k) != (d, m) ==>
        disk[c][k].hash != disk[d][m].hash)
  }

  function Last(prior: seq<Slot>): Option<Status> {
    if prior != [] && prior[|prior| - 1].Written? then Some(prior[|prior| - 1].status) else None
  }

  // ---- atomic sections ----

  /** `except Exception`: set the stop flag, keep the error, return. */
  function Fail(s: State, c: nat, reason: Reason): State
    requires c < |s.pcs|
  {
    s.(stop := true, errors := s.errors + [(c, reason)], pcs := s.pcs[c := Done])
  }

  /** Runs `snapshot`, which raises when two accepted reviews share a hash. */
  ghost function Snapshot(plan: Plan, s: State, c: nat): State
    requires c < |s.pcs|
  {
    if NoDuplicate(plan, s.disk) then s else Fail(s, c, DuplicateAccepted)
  }

  ghost function Finish(plan: Plan, s: State, c: nat, verdict: Verdict, attempts: nat): State
    requires c < |s.pcs|
  {
    Snapshot(plan, s.(completed := s.completed + [Entry(c, verdict, attempts)], pcs := s.pcs[c := Done]), c)
  }

  function Goto(s: State, c: nat, pc: Pc): State
    requires c < |s.pcs|
  {
    s.(pcs := s.pcs[c := pc])
  }

  /** Who holds the semaphore. */
  ghost function Holders(s: State): set<nat> {
    set c: nat | c < |s.pcs| && (s.pcs[c].Checking? || s.pcs[c].Spawning? || s.pcs[c].Running?)
  }

  /** No other coroutine is between the two checks inside the semaphore, which no await separates. */
  ghost predicate HasTurn(s: State, c: nat) {
    forall d: nat :: d < |s.pcs| && d != c ==> !s.pcs[d].Checking?
  }

  datatype Event =
    | Start(found: seq<Slot>, ok: bool)
    | Top
    | Wake
    | Acquire
    | Check(found: seq<Slot>, ok: bool, fault: bool)
    | Fork
    | Spawned(fault: bool)
    | Write(slot: Slot)
    | Exit(nonzero: bool)
    | Collect(found: seq<Slot>, ok: bool, fault: bool)
    | Cancel
    | LeftWrite(slot: Slot)
    | LeftExit

  /** Steps of a process, which runs beside the coroutines. */
  predicate OfProcess(e: Event) {
    e.Fork? || e.Write? || e.Exit? || e.LeftWrite? || e.LeftExit?
  }

  /** The outcome of `attempts_for` on candidate `c`. */
  ghost predicate Reads(plan: Plan, s: State, c: nat, found: seq<Slot>, ok: bool)
    requires c < |plan.hashes| == |s.disk|
  {
    if ok then LedgerOk(s.disk[c], plan.hashes[c], |found|) && found == s.disk[c][..|found|]
    else forall n: nat :: !LedgerOk(s.disk[c], plan.hashes[c], n)
  }

  /** How far a subprocess may take its own attempt directory: created, request started, one final status. */
  predicate Advances(old_: Slot, new_: Slot, hash: string) {
    match old_
    case Missing => new_ == Bare
    case Bare => new_ == Written(true, hash, RequestStarted)
    case Written(_, _, status) =>
      status == RequestStarted && (new_ == Written(true, hash, FailedNoRetry) || new_ == Written(true, hash, Complete(true))
                                   || new_ == Written(true, hash, Complete(false)))
  }

  ghost predicate Enabled(plan: Plan, s: State, c: nat, e: Event) {
    && c < |plan.hashes| == |s.pcs| == |s.disk| && |s.disk[c]| == MAX_ATTEMPTS && (OfProcess(e) || HasTurn(s, c))
    && match e
       case Start(found, ok) => s.pcs[c].Begin? && Reads(plan, s, c, found, ok)
       case Top => s.pcs[c].LoopTop?
       case Wake => s.pcs[c].Backoff?
       case Acquire => s.pcs[c].Waiting? && |Holders(s)| < plan.concurrency
       case Check(found, ok, _) => s.pcs[c].Checking? && Reads(plan, s, c, found, ok)
       case Fork => s.pcs[c].Spawning? && c !in s.procs
       case Spawned(fault) => s.pcs[c].Spawning? && (fault || c in s.procs)
       case Write(slot) =>
         && c in s.procs && s.procs[c].exit.None? && 1 <= s.procs[c].attempt <= MAX_ATTEMPTS
         && Advances(s.disk[c][s.procs[c].attempt - 1], slot, plan.hashes[c])
       case Exit(_) => c in s.procs && s.procs[c].exit.None?
       case Collect(found, ok, fault) =>
         && s.pcs[c].Running? && Reads(plan, s, c, found, ok)
         && (fault || (c in s.procs && s.procs[c].exit.Some?))
       case Cancel => s.stop && !s.pcs[c].Done? && !s.pcs[c].Checking?
       case LeftWrite(slot) =>
         && c in s.leftover && 1 <= s.leftover[c] <= MAX_ATTEMPTS
         && Advances(s.disk[c][s.leftover[c] - 1], slot, plan.hashes[c])
       case LeftExit => c in s.leftover
  }

  /** The head of the loop: stop, finish, or go and ask for the semaphore. */
  ghost function AtTop(plan: Plan, s: State, c: nat, prior: seq<Slot>): State
    requires c < |s.pcs| && c < |plan.hashes|
  {
    if s.stop then Goto(s, c, Done)
    else if Taken(plan, s.disk, plan.hashes[c]) && Last(prior) != Some(Complete(true)) then
      Finish(plan, s, c, AcceptedElsewhere, |prior|)
    else if Last(prior).Some? && Last(prior).value.Complete? then
      Finish(plan, s, c, Reviewed(Last(prior).value.accepted), |prior|)
    else if |prior| >= MAX_ATTEMPTS then Finish(plan, s, c, Exhausted, |prior|)
    else Goto(s, c, if prior == [] then Waiting(prior) else Backoff(prior))
  }

  /** Inside the semaphore: the stop flag and the accepted tasks again. */
  ghost function InSemaphore(plan: Plan, s: State, c: nat, prior: seq<Slot>): State
    requires c < |s.pcs| && c < |plan.hashes|
  {
    if s.stop then Goto(s, c, Done)
    else if Taken(plan, s.disk, plan.hashes[c]) then Finish(plan, s, c, AcceptedElsewhere, |prior|)
    else Goto(s, c, Checking(prior))
  }

  /** Then the process table, the ledger again and the output directory, up to the start of the subprocess. */
  function Recheck(s: State, c: nat, prior: seq<Slot>, found: seq<Slot>, ok: bool, fault: bool): State
    requires c < |s.pcs| && c < |s.disk|
  {
    if fault then Fail(s, c, Fault)
    else if c in s.leftover then Fail(s, c, WorkerAlive)
    else if !ok then Fail(s, c, LedgerInvalid)
    else if found != prior then Fail(s, c, LedgerChanged)
    else if |prior| >= |s.disk[c]| || s.disk[c][|prior|] != Missing then Fail(s, c, OutputExists)
    else Goto(s, c, Spawning(|prior| + 1)).(dispatches := s.dispatches + [(c, |prior| + 1)])
  }

  ghost function Launch(plan: Plan, s: State, c: nat, n: nat): State
    requires c < |s.pcs|
  {
    Snapshot(plan, Goto(s, c, Running(n)).(active := s.active[c := n]), c)
  }

  /** After the subprocess exited: re-read the ledger and judge the new attempt. */
  ghost function Judge(plan: Plan, s: State, c: nat, n: nat, found: seq<Slot>, ok: bool): State
    requires c < |s.pcs| && c in s.procs && s.procs[c].exit.Some?
  {
    var nonzero := s.procs[c].exit.value;
    var t := s.(active := s.active - {c}, procs := s.procs - {c});
    if !ok then Fail(t, c, LedgerInvalid)
    else if |found| != n || Last(found).None? then Fail(t, c, Omitted)
    else if Last(found).value.Complete? then
      if nonzero then Fail(t, c, NonzeroComplete) else Finish(plan, t, c, Reviewed(Last(found).value.accepted), n)
    else Snapshot(plan, Goto(t, c, LoopTop(found)).(failed := t.failed + [(c, n)]), c)
  }

  ghost function Apply(plan: Plan, s: State, c: nat, e: Event): State
    requires Enabled(plan, s, c, e)
  {
    match e
    case Start(found, ok) => if ok then Goto(s, c, LoopTop(found)) else Fail(s, c, LedgerInvalid)
    case Top => AtTop(plan, s, c, s.pcs[c].prior)
    case Wake => Goto(s, c, Waiting(s.pcs[c].prior))
    case Acquire => InSemaphore(plan, s, c, s.pcs[c].prior)
    case Check(found, ok, fault) => Recheck(s, c, s.pcs[c].prior, found, ok, fault)
    case Fork => s.(procs := s.procs[c := Proc(s.pcs[c].attempt, None)])
    case Spawned(fault) => if fault then Fail(s, c, Fault) else Launch(plan, s, c, s.pcs[c].attempt)
    case Write(slot) => s.(disk := s.disk[c := s.disk[c][s.procs[c].attempt - 1 := slot]])
    case Exit(nonzero) => s.(procs := s.procs[c := s.procs[c].(exit := Some(nonzero))])
    case Collect(found, ok, fault) =>
      if fault then Fail(s, c, Fault) else Judge(plan, s, c, s.pcs[c].attempt, found, ok)
    case Cancel => Goto(s, c, Done)
    case LeftWrite(slot) => s.(disk := s.disk[c := s.disk[c][s.leftover[c] - 1 := slot]])
    case LeftExit => s.(leftover := s.leftover - {c})
  }

  function Initial(init: Origin): State {
    State(init.disk, seq(|init.disk|, _ => Begin), map[], map[], init.leftover, [], [], [], false, [])
  }

  ghost predicate WellFormed(plan: Plan, disk: Disk) {
    |disk| == |plan.hashes| && Distinct(plan.hashes) && forall c :: 0 <= c < |disk| ==> |disk[c]| == MAX_ATTEMPTS
  }

  ghost predicate Next(plan: Plan, s: State, t: State) {
    exists c, e :: Enabled(plan, s, c, e) && t == Apply(plan, s, c, e)
  }

  /** Each worker that is still alive is making the last attempt of its candidate's ledger. */
  ghost predicate Origins(plan: Plan, init: Origin) {
    && WellFormed(plan, init.disk)
    && forall c :: c in init.leftover ==> c < |init.disk| && LedgerLive(init.disk[c], plan.hashes[c], init.leftover[c])
  }

  /** A run from the given disk and live workers, in any interleaving. */
  ghost predicate IsRun(plan: Plan, init: Origin, run: seq<State>) {
    && Origins(plan, init) && run != [] && run[0] == Initial(init)
    && forall i, j :: 0 <= i && j == i + 1 < |run| ==> Next(plan, run[i], run[j])
  }

  // ---- the invariant ----

  /** Attempts without a gap, and none after a completed review. */
  ghost predicate LedgerShape(slots: seq<Slot>) {
    forall j, k :: 0 <= j < k < |slots| && slots[k] != Missing ==>
      slots[j].Written? && !slots[j].status.Complete?
  }

  /** The ledger while attempt `n` is being made: earlier attempts retryable, later ones absent. */
  ghost predicate LedgerLive(slots: seq<Slot>, hash: string, n: nat) {
    && 1 <= n <= |slots|
    && (forall k :: 0 <= k < n - 1 ==> Mine(slots[k], hash) && Retryable(slots[k].status))
    && (forall k :: n <= k < |slots| ==> slots[k] == Missing)
    && (slots[n - 1].Written? ==> Mine(slots[n - 1], hash) && slots[n - 1].status != Unknown)
  }

  /** Only attempt `n` of candidate `c` may hold an accepted review of its task. */
  ghost predicate Reserved(plan: Plan, disk: Disk, c: nat, n: nat)
    requires c < |plan.hashes|
  {
    && plan.hashes[c] !in plan.foreign
    && forall d: nat, k: nat :: AcceptedAt(disk, d, k) && disk[d][k].hash == plan.hashes[c] ==> d == c && k + 1 == n
  }

  ghost predicate Idle(s: State, c: nat) {
    c !in s.active && c !in s.procs
  }

  /** `prior` is the whole ledger, and a valid one. */
  ghost predicate Recalls(slots: seq<Slot>, hash: string, prior: seq<Slot>) {
    LedgerOk(slots, hash, |prior|) && prior == slots[..|prior|]
  }

  /** The earlier supervisor's worker has taken its attempt further since the run began. */
  ghost predicate Moved(init: Origin, s: State, c: nat) {
    && c in init.leftover && c < |init.disk| && c < |s.disk| && 1 <= init.leftover[c] <= |init.disk[c]| <= |s.disk[c]|
    && s.disk[c][init.leftover[c] - 1] != init.disk[c][init.leftover[c] - 1]
  }

  /** The last remembered attempt is no completed review. */
  predicate Unfinished(prior: seq<Slot>) {
    Last(prior).Some? ==> !Last(prior).value.Complete?
  }

  /** A valid ledger of `n` attempts, but for what may have happened in the next attempt directory. */
  ghost predicate Almost(slots: seq<Slot>, hash: string, n: nat) {
    && n <= |slots|
    && (forall k :: 0 <= k < n ==> Mine(slots[k], hash))
    && (forall k :: n < k < |slots| ==> slots[k] == Missing)
    && (forall k :: 0 <= k < n - 1 ==> !slots[k].status.Complete?)
    && ((n > 0 && slots[n - 1].status.Complete?) || forall k :: 0 <= k < n ==> Retryable(slots[k].status))
  }

  /** Since `n` attempts were read, only the last of them or the next can have moved. */
  ghost predicate Near(s: State, c: nat, hash: string, n: nat) {
    c < |s.disk| && Almost(s.disk[c], hash, n) && (c in s.leftover ==> s.leftover[c] <= n + 1)
  }

  ghost predicate Remembers(plan: Plan, init: Origin, s: State, c: nat, prior: seq<Slot>)
    requires c < |plan.hashes| && c < |s.disk|
  {
    && Idle(s, c) && Near(s, c, plan.hashes[c], |prior|)
    && (Recalls(s.disk[c], plan.hashes[c], prior) || (Moved(init, s, c) && Unfinished(prior)))
  }

  /** What each program counter knows about its candidate's ledger. */
  ghost predicate PcKnows(plan: Plan, init: Origin, s: State, c: nat)
    requires c < |plan.hashes| == |s.pcs| == |s.disk|
  {
    match s.pcs[c]
    case Begin => Idle(s, c)
    case LoopTop(prior) => |prior| <= MAX_ATTEMPTS && Remembers(plan, init, s, c, prior)
    case Backoff(prior) => |prior| < MAX_ATTEMPTS && Unfinished(prior) && Remembers(plan, init, s, c, prior)
    case Waiting(prior) => |prior| < MAX_ATTEMPTS && Unfinished(prior) && Remembers(plan, init, s, c, prior)
    case Checking(prior) => |prior| < MAX_ATTEMPTS && Unfinished(prior) && Remembers(plan, init, s, c, prior)
    case Spawning(n) => c !in s.active && c !in s.leftover && LedgerLive(s.disk[c], plan.hashes[c], n)
      && if c in s.procs then s.procs[c].attempt == n else s.disk[c][n - 1] == Missing
    case Running(n) => c in s.active && s.active[c] == n && c in s.procs && s.procs[c].attempt == n
    case Done => c in s.active ==> c in s.procs
  }

  /** Nothing but an attempt of candidate `c` can have been accepted for its task. */
  ghost predicate Unclaimed(plan: Plan, disk: Disk, c: nat)
    requires c < |plan.hashes|
  {
    && plan.hashes[c] !in plan.foreign
    && forall d: nat, k: nat :: AcceptedAt(disk, d, k) && disk[d][k].hash == plan.hashes[c] ==> d == c
  }

  function Rank(slot: Slot): nat {
    match slot
    case Missing => 0
    case Bare => 1
    case Written(_, _, status) => if status == RequestStarted then 2 else 3
  }

  /** The attempt of `c` that a worker left over is making has no final status yet. */
  predicate Unsettled(disk: Disk, c: nat, n: nat) {
    c < |disk| && 1 <= n <= |disk[c]| && Rank(disk[c][n - 1]) < 3
  }

  /** No task is accepted twice, and none is accepted while an earlier supervisor's worker can still accept it. */
  ghost predicate Clean(plan: Plan, disk: Disk, leftover: map<nat, nat>) {
    && NoDuplicate(plan, disk)
    && forall c :: c in leftover && c < |plan.hashes| && Unsettled(disk, c, leftover[c]) ==> Reserved(plan, disk, c, leftover[c])
  }

  /** Attempt directories only move forward. */
  ghost predicate Grown(before: seq<Slot>, after: seq<Slot>) {
    && |before| == |after|
    && forall k :: 0 <= k < |after| ==> after[k] == before[k] || Rank(before[k]) < Rank(after[k])
  }

  /** A subprocess writes only its own attempt, which alone may accept its task; so does a worker left over. */
  ghost predicate ProcKnows(plan: Plan, init: Origin, s: State, c: nat)
    requires c < |plan.hashes| == |s.pcs| == |s.disk| == |init.disk|
  {
    var slots, hash := s.disk[c], plan.hashes[c];
    && (c in s.procs ==>
        c !in s.leftover && LedgerLive(slots, hash, s.procs[c].attempt) && Reserved(plan, s.disk, c, s.procs[c].attempt))
    && (s.pcs[c].Spawning? ==> Reserved(plan, s.disk, c, s.pcs[c].attempt))
    && (s.pcs[c].Checking? ==> !s.stop && Unclaimed(plan, s.disk, c))
    && (c in s.leftover ==>
        c in init.leftover && s.leftover[c] == init.leftover[c] && LedgerLive(slots, hash, s.leftover[c]))
    && Grown(init.disk[c], slots)
  }

  ghost predicate Sized(plan: Plan, init: Origin, s: State) {
    && Origins(plan, init) && WellFormed(plan, s.disk) && |s.pcs| == |plan.hashes|
    && (forall c :: c in s.active ==> c < |s.pcs|) && (forall c :: c in s.procs ==> c < |s.pcs|)
    && (forall c :: c in s.leftover ==> c < |s.pcs|)
  }

  ghost predicate Knowing(plan: Plan, init: Origin, s: State)
    requires Sized(plan, init, s)
  {
    forall c: nat :: c < |s.pcs| ==> PcKnows(plan, init, s, c) && ProcKnows(plan, init, s, c)
  }

  /** The tables a section of `c` can touch, beside the ledger of `c`. */
  ghost predicate KeepsTables(s: State, t: State, c: nat) {
    && |t.pcs| == |s.pcs| && t.active.Keys <= s.active.Keys + {c} && t.procs.Keys <= s.procs.Keys + {c}
    && t.leftover.Keys <= s.leftover.Keys
  }

  lemma SnapshotKeepsTables(plan: Plan, s: State, t: State, c: nat)
    requires c < |t.pcs| && KeepsTables(s, t, c)
    ensures KeepsTables(s, Snapshot(plan, t, c), c)
  {
    hide NoDuplicate;
  }

  lemma TopKeepsTables(plan: Plan, s: State, c: nat, prior: seq<Slot>)
    requires c < |s.pcs| && c < |plan.hashes|
    ensures KeepsTables(s, AtTop(plan, s, c, prior), c) && KeepsTables(s, InSemaphore(plan, s, c, prior), c)
  {
    hide NoDuplicate, Taken, Last;
  }

  lemma JudgeKeepsTables(plan: Plan, s: State, c: nat, n: nat, found: seq<Slot>, ok: bool)
    requires c < |s.pcs| && c in s.procs && s.procs[c].exit.Some?
    ensures KeepsTables(s, Judge(plan, s, c, n, found, ok), c)
  {
    var t := s.(active := s.active - {c}, procs := s.procs - {c});
    if ok && |found| == n && Last(found).Some? && !Last(found).value.Complete? {
      SnapshotKeepsTables(plan, s, Goto(t, c, LoopTop(found)).(failed := t.failed + [(c, n)]), c);
    } else if ok && |found| == n && Last(found).Some? {
      var verdict := Reviewed(Last(found).value.accepted);
      SnapshotKeepsTables(plan, s, t.(completed := t.completed + [Entry(c, verdict, n)], pcs := t.pcs[c := Done]), c);
    }
    hide Snapshot, Last;
  }

  lemma TablesKept(plan: Plan, s: State, c: nat, e: Event)
    requires Enabled(plan, s, c, e)
    ensures KeepsTables(s, Apply(plan, s, c, e), c)
  {
    hide NoDuplicate, Taken, Reads, Advances, Last, HasTurn, Judge, AtTop, InSemaphore, Snapshot;
    match e
    case Top => TopKeepsTables(plan, s, c, s.pcs[c].prior);
    case Acquire => TopKeepsTables(plan, s, c, s.pcs[c].prior);
    case Spawned(_) => SnapshotKeepsTables(plan, s, Goto(s, c, Running(s.pcs[c].attempt)).(active := s.active[c := s.pcs[c].attempt]), c);
    case Collect(found, ok, fault) =>
      if !fault {
        JudgeKeepsTables(plan, s, c, s.pcs[c].attempt, found, ok);
      }
    case _ =>
  }

  lemma DiskOnlyWritten(plan: Plan, s: State, c: nat, e: Event)
    requires Enabled(plan, s, c, e)
    ensures !e.Write? && !e.LeftWrite? ==> Apply(plan, s, c, e).disk == s.disk
  {
    hide NoDuplicate, Taken, Reads, Advances, Last, HasTurn;
  }

  lemma StepKeepsSizes(plan: Plan, init: Origin, s: State, c: nat, e: Event)
    requires Sized(plan, init, s) && Enabled(plan, s, c, e)
    ensures Sized(plan, init, Apply(plan, s, c, e))
  {
    TablesKept(plan, s, c, e);
    DiskOnlyWritten(plan, s, c, e);
    var t := Apply(plan, s, c, e);
    assert |t.disk| == |s.disk| && forall d :: 0 <= d < |t.disk| ==> |t.disk[d]| == |s.disk[d]| by {
      hide NoDuplicate, Taken, Reads, Advances, Last, HasTurn, Origins, KeepsTables;
      if e.Write? || e.LeftWrite? {
      }
    }
    hide Apply, Enabled, Origins;
  }

  ghost predicate SameFor(s: State, t: State, d: nat) {
    && d < |s.pcs| == |t.pcs| && d < |s.disk| == |t.disk| && t.pcs[d] == s.pcs[d] && t.disk[d] == s.disk[d]
    && (d in t.active <==> d in s.active) && (d in s.active ==> t.active[d] == s.active[d])
    && (d in t.procs <==> d in s.procs) && (d in s.procs ==> t.procs[d] == s.procs[d])
    && (d in t.leftover <==> d in s.leftover) && (d in s.leftover ==> t.leftover[d] == s.leftover[d])
  }

  /** Same ledgers and processes; only the counter of `c` has moved. */
  ghost predicate CounterOnly(s: State, t: State, c: nat) {
    c < |s.pcs| == |t.pcs| && t.disk == s.disk && t.active == s.active && t.procs == s.procs && t.leftover == s.leftover
    && t.pcs == s.pcs[c := t.pcs[c]]
  }

  lemma TopGoes(plan: Plan, s: State, c: nat, prior: seq<Slot>)
    requires c < |s.pcs| && c < |plan.hashes|
    ensures var t := AtTop(plan, s, c, prior);
      && CounterOnly(s, t, c)
      && (t.pcs[c] == Done || ((t.pcs[c] == Waiting(prior) || t.pcs[c] == Backoff(prior)) && |prior| < MAX_ATTEMPTS && Unfinished(prior)))
  {
    hide NoDuplicate, Taken, Last;
  }

  lemma AcquireGoes(plan: Plan, s: State, c: nat, prior: seq<Slot>)
    requires c < |s.pcs| && c < |plan.hashes|
    ensures var t := InSemaphore(plan, s, c, prior);
      && CounterOnly(s, t, c)
      && (t.pcs[c] == Done || (t.pcs[c] == Checking(prior) && !t.stop && !s.stop && !Taken(plan, s.disk, plan.hashes[c])))
  {
    hide NoDuplicate, Taken;
  }

  lemma CollectIsLocal(plan: Plan, s: State, c: nat, n: nat, found: seq<Slot>, ok: bool, d: nat)
    requires c < |s.pcs| && c in s.procs && s.procs[c].exit.Some? && d < |s.pcs| == |s.disk| && d != c
    ensures SameFor(s, Judge(plan, s, c, n, found, ok), d)
  {
    hide NoDuplicate, Last;
  }

  lemma LaunchIsLocal(plan: Plan, s: State, c: nat, n: nat, d: nat)
    requires c < |s.pcs| && d < |s.pcs| == |s.disk| && d != c
    ensures SameFor(s, Launch(plan, s, c, n), d)
  {
    hide NoDuplicate;
  }

  /** A step of `c` leaves every other candidate's counter, ledger and processes alone. */
  lemma StepIsLocal(plan: Plan, s: State, c: nat, e: Event, d: nat)
    requires Enabled(plan, s, c, e) && d < |s.pcs| && d != c
    ensures SameFor(s, Apply(plan, s, c, e), d)
  {
    hide NoDuplicate, Taken, Reads, Advances, Last, Judge, Launch, HasTurn, AtTop, InSemaphore;
    match e
    case Top => TopGoes(plan, s, c, s.pcs[c].prior);
    case Acquire => AcquireGoes(plan, s, c, s.pcs[c].prior);
    case Spawned(_) => LaunchIsLocal(plan, s, c, s.pcs[c].attempt, d);
    case Collect(found, ok, fault) =>
      if !fault {
        CollectIsLocal(plan, s, c, s.pcs[c].attempt, found, ok, d);
      }
    case _ =>
  }

  lemma OkIsLive(slots: seq<Slot>, hash: string, n: nat)
    requires LedgerOk(slots, hash, n) && n < |slots|
    requires n > 0 ==> !slots[n - 1].status.Complete?
    ensures LedgerLive(slots, hash, n + 1) && slots[n] == Missing
  {
  }

  lemma JudgeGoes(plan: Plan, s: State, c: nat, n: nat, found: seq<Slot>, ok: bool)
    requires c < |s.pcs| && c in s.procs && s.procs[c].exit.Some?
    ensures var t := Judge(plan, s, c, n, found, ok);
      && |t.pcs| == |s.pcs| && t.disk == s.disk && t.leftover == s.leftover && Idle(t, c)
      && (t.pcs[c] == Done || (t.pcs[c] == LoopTop(found) && ok && |found| == n))
  {
    hide NoDuplicate, Last;
  }

  /** A fresh reading is near, whatever a live worker may still do. */
  lemma RecallsNear(s: State, c: nat, hash: string, prior: seq<Slot>)
    requires c < |s.disk| && Recalls(s.disk[c], hash, prior)
    requires c in s.leftover ==> LedgerLive(s.disk[c], hash, s.leftover[c])
    ensures Near(s, c, hash, |prior|)
  {
    if c in s.leftover {
      AttemptsReach(s.disk[c], hash, |prior|, s.leftover[c] - 1);
    }
  }

  /** Attempts made lie before the first missing one. */
  lemma AttemptsReach(slots: seq<Slot>, hash: string, n: nat, m: nat)
    requires m <= |slots| && (forall k :: 0 <= k < m ==> Mine(slots[k], hash)) && (forall k :: n <= k < |slots| ==> slots[k] == Missing)
    ensures m <= n
  {
    if m > 0 {
      assert Mine(slots[m - 1], hash);
    }
  }

  lemma WriteAlmost(slots: seq<Slot>, hash: string, n: nat, m: nat, slot: Slot)
    requires Almost(slots, hash, n) && LedgerLive(slots, hash, m) && m <= n + 1 && Advances(slots[m - 1], slot, hash)
    ensures Almost(slots[m - 1 := slot], hash, n)
    ensures n > 0 && slots[n - 1].status.Complete? ==> m == n + 1
  {
    AttemptsReach(slots, hash, m, n);
  }

  /** Whoever can write finds no completed review. */
  lemma WriterFindsOpen(slots: seq<Slot>, hash: string, n: nat, m: nat, slot: Slot)
    requires LedgerLive(slots, hash, m) && Advances(slots[m - 1], slot, hash)
    ensures LedgerOk(slots, hash, n) && n > 0 ==> !slots[n - 1].status.Complete?
  {
  }

  lemma LeftWriteNear(plan: Plan, s: State, c: nat, slot: Slot, n: nat)
    requires Enabled(plan, s, c, LeftWrite(slot)) && Near(s, c, plan.hashes[c], n)
    requires LedgerLive(s.disk[c], plan.hashes[c], s.leftover[c])
    ensures Near(Apply(plan, s, c, LeftWrite(slot)), c, plan.hashes[c], n)
  {
    WriteAlmost(s.disk[c], plan.hashes[c], n, s.leftover[c], slot);
    hide Almost, LedgerLive, NoDuplicate, Taken, HasTurn, Advances;
  }

  /** What a write of the earlier supervisor's worker leaves of the memory of its candidate. */
  lemma LeftWriteRemembers(plan: Plan, init: Origin, s: State, c: nat, slot: Slot, prior: seq<Slot>)
    requires Sized(plan, init, s) && Enabled(plan, s, c, LeftWrite(slot)) && ProcKnows(plan, init, s, c)
    requires Remembers(plan, init, s, c, prior)
    ensures Remembers(plan, init, Apply(plan, s, c, LeftWrite(slot)), c, prior)
  {
    MovedByWrite(plan, init, s, c, slot);
    LeftWriteNear(plan, s, c, slot, |prior|);
    WriterFindsOpen(s.disk[c], plan.hashes[c], |prior|, s.leftover[c], slot);
    assert Recalls(s.disk[c], plan.hashes[c], prior) ==> Unfinished(prior);
    hide Near, Recalls, Moved, LedgerLive, NoDuplicate, Taken, HasTurn, Advances, Unfinished, Grown, Reserved, Unclaimed;
  }

  lemma OwnCounter(plan: Plan, init: Origin, s: State, c: nat, e: Event)
    requires Sized(plan, init, s) && Knowing(plan, init, s) && Enabled(plan, s, c, e)
    ensures Sized(plan, init, Apply(plan, s, c, e)) && PcKnows(plan, init, Apply(plan, s, c, e), c)
  {
    StepKeepsSizes(plan, init, s, c, e);
    assert PcKnows(plan, init, s, c) && ProcKnows(plan, init, s, c);
    hide NoDuplicate, Taken, LedgerOk, LedgerLive, Sized, Reserved, Unclaimed, Grown, HasTurn, Advances, AtTop, InSemaphore, Judge,
      Recheck, Almost;
    match e
    case Start(found, ok) =>
      if ok {
        RecallsNear(s, c, plan.hashes[c], found);
      }
    case Top => TopGoes(plan, s, c, s.pcs[c].prior);
    case Acquire => AcquireGoes(plan, s, c, s.pcs[c].prior);
    case Check(found, ok, fault) => CheckCounter(plan, init, s, c, found, ok, fault);
    case Write(slot) => WriteLive(s.disk[c], plan.hashes[c], s.procs[c].attempt, slot);
    case Collect(found, ok, fault) =>
      if !fault {
        JudgeGoes(plan, s, c, s.pcs[c].attempt, found, ok);
        if ok {
          RecallsNear(s, c, plan.hashes[c], found);
        }
      }
    case LeftWrite(slot) =>
      if s.pcs[c].LoopTop? || s.pcs[c].Backoff? || s.pcs[c].Waiting? || s.pcs[c].Checking? {
        LeftWriteRemembers(plan, init, s, c, slot, s.pcs[c].prior);
      }
    case _ =>
  }

  /** A write of the earlier supervisor's worker shows in its attempt for good. */
  lemma MovedByWrite(plan: Plan, init: Origin, s: State, c: nat, slot: Slot)
    requires Sized(plan, init, s) && Enabled(plan, s, c, LeftWrite(slot)) && ProcKnows(plan, init, s, c)
    ensures Moved(init, Apply(plan, s, c, LeftWrite(slot)), c)
  {
    hide NoDuplicate, Taken, HasTurn;
  }

  lemma CheckCounter(plan: Plan, init: Origin, s: State, c: nat, found: seq<Slot>, ok: bool, fault: bool)
    requires Sized(plan, init, s) && c < |s.pcs| && s.pcs[c].Checking? && PcKnows(plan, init, s, c) && Reads(plan, s, c, found, ok)
    ensures PcKnows(plan, init, Recheck(s, c, s.pcs[c].prior, found, ok, fault), c)
    ensures ok && found == s.pcs[c].prior ==> |found| < MAX_ATTEMPTS && s.disk[c][|found|] == Missing
  {
    hide NoDuplicate, Taken;
    if ok && found == s.pcs[c].prior {
      OkIsLive(s.disk[c], plan.hashes[c], |found|);
    }
  }

  /** Without a worker left over, the ledger read inside the semaphore is the remembered one. */
  lemma RereadAgrees(plan: Plan, init: Origin, s: State, c: nat, found: seq<Slot>, ok: bool)
    requires Sized(plan, init, s) && c < |s.pcs| && s.pcs[c].Checking? && PcKnows(plan, init, s, c) && Reads(plan, s, c, found, ok)
    ensures !Moved(init, s, c) ==> ok && found == s.pcs[c].prior
  {
    var prior := s.pcs[c].prior;
    if ok && !Moved(init, s, c) {
      LedgerLength(s.disk[c], plan.hashes[c], |prior|, |found|);
    }
  }

  // ---- ledgers and reservations ----

  lemma WriteLive(slots: seq<Slot>, hash: string, n: nat, slot: Slot)
    requires LedgerLive(slots, hash, n) && Advances(slots[n - 1], slot, hash)
    ensures LedgerLive(slots[n - 1 := slot], hash, n)
  {
  }

  /** The attempt that the writing process of `c` is making. */
  function Writes(s: State, c: nat, e: Event): nat
    requires (e.Write? && c in s.procs) || (e.LeftWrite? && c in s.leftover)
  {
    if e.Write? then s.procs[c].attempt else s.leftover[c]
  }

  /** A process can only accept its own candidate's task, so other reservations stand. */
  lemma ReservedStep(plan: Plan, s: State, c: nat, e: Event, d: nat, n: nat)
    requires Enabled(plan, s, c, e) && Distinct(plan.hashes) && d < |plan.hashes| && Reserved(plan, s.disk, d, n)
    requires d == c && (e.Write? || e.LeftWrite?) ==> Writes(s, c, e) == n
    ensures Reserved(plan, Apply(plan, s, c, e).disk, d, n)
  {
    DiskOnlyWritten(plan, s, c, e);
    if e.Write? || e.LeftWrite? {
      hide NoDuplicate, Taken, HasTurn;
      var disk, slot := Apply(plan, s, c, e).disk, Writes(s, c, e) - 1;
      forall x: nat, k: nat | AcceptedAt(disk, x, k) && disk[x][k].hash == plan.hashes[d] ensures x == d && k + 1 == n {
        if (x, k) == (c, slot) {
          assert plan.hashes[c] == plan.hashes[d];
        } else {
          assert AcceptedAt(s.disk, x, k);
        }
      }
    }
  }

  lemma UnclaimedStep(plan: Plan, s: State, c: nat, e: Event, d: nat)
    requires Enabled(plan, s, c, e) && Distinct(plan.hashes) && d < |plan.hashes| && Unclaimed(plan, s.disk, d)
    ensures Unclaimed(plan, Apply(plan, s, c, e).disk, d)
  {
    DiskOnlyWritten(plan, s, c, e);
    if e.Write? || e.LeftWrite? {
      hide NoDuplicate, Taken, HasTurn;
      var disk, slot := Apply(plan, s, c, e).disk, Writes(s, c, e) - 1;
      forall x: nat, k: nat | AcceptedAt(disk, x, k) && disk[x][k].hash == plan.hashes[d] ensures x == d {
        if (x, k) == (c, slot) {
          assert plan.hashes[c] == plan.hashes[d];
        } else {
          assert AcceptedAt(s.disk, x, k);
        }
      }
    }
  }

  lemma GrownStep(plan: Plan, s: State, c: nat, e: Event, before: seq<Slot>)
    requires Enabled(plan, s, c, e) && Grown(before, s.disk[c])
    ensures |Apply(plan, s, c, e).disk| == |s.disk| && Grown(before, Apply(plan, s, c, e).disk[c])
  {
    DiskOnlyWritten(plan, s, c, e);
    hide NoDuplicate, Taken, HasTurn, Reads;
  }

  lemma NotTakenUnclaimed(plan: Plan, disk: Disk, c: nat)
    requires c < |plan.hashes| && !Taken(plan, disk, plan.hashes[c])
    ensures Unclaimed(plan, disk, c)
  {
  }

  /** With no completed review of its own, an unclaimed task can only be accepted by the next attempt. */
  lemma FreshReservation(plan: Plan, disk: Disk, c: nat, n: nat)
    requires c < |plan.hashes| && c < |disk| && Unclaimed(plan, disk, c) && LedgerLive(disk[c], plan.hashes[c], n)
    requires disk[c][n - 1] == Missing
    ensures Reserved(plan, disk, c, n)
  {
  }

  lemma OwnProc(plan: Plan, init: Origin, s: State, c: nat, e: Event)
    requires Sized(plan, init, s) && Knowing(plan, init, s) && Enabled(plan, s, c, e)
    ensures |Apply(plan, s, c, e).pcs| == |Apply(plan, s, c, e).disk| == |s.pcs|
    ensures ProcKnows(plan, init, Apply(plan, s, c, e), c)
  {
    StepKeepsSizes(plan, init, s, c, e);
    DiskOnlyWritten(plan, s, c, e);
    assert PcKnows(plan, init, s, c) && ProcKnows(plan, init, s, c);
    hide NoDuplicate, LedgerLive, LedgerOk, Reserved, Taken, Unclaimed, Grown, HasTurn, Sized, Recalls, Moved, Last, Advances,
      Reads, AtTop, InSemaphore, Judge;
    match e
    case Write(slot) => WriteProc(plan, init, s, c, e);
    case LeftWrite(slot) => WriteProc(plan, init, s, c, e);
    case Top => TopGoes(plan, s, c, s.pcs[c].prior);
    case Acquire =>
      AcquireGoes(plan, s, c, s.pcs[c].prior);
      if !Taken(plan, s.disk, plan.hashes[c]) {
        NotTakenUnclaimed(plan, s.disk, c);
      }
    case Check(found, ok, fault) =>
      CheckCounter(plan, init, s, c, found, ok, fault);
      if Recheck(s, c, s.pcs[c].prior, found, ok, fault).pcs[c].Spawning? {
        FreshReservation(plan, s.disk, c, |found| + 1);
      }
    case Collect(found, ok, fault) =>
      if !fault {
        JudgeGoes(plan, s, c, s.pcs[c].attempt, found, ok);
      }
    case _ =>
  }

  lemma WriteProc(plan: Plan, init: Origin, s: State, c: nat, e: Event)
    requires Sized(plan, init, s) && Knowing(plan, init, s) && Enabled(plan, s, c, e) && (e.Write? || e.LeftWrite?)
    ensures Sized(plan, init, Apply(plan, s, c, e)) && ProcKnows(plan, init, Apply(plan, s, c, e), c)
  {
    StepKeepsSizes(plan, init, s, c, e);
    assert PcKnows(plan, init, s, c) && ProcKnows(plan, init, s, c);
    GrownStep(plan, s, c, e, init.disk[c]);
    WriteLive(s.disk[c], plan.hashes[c], Writes(s, c, e), e.slot);
    if e.Write? {
      ReservedStep(plan, s, c, e, c, Writes(s, c, e));
    } else if s.pcs[c].Checking? {
      UnclaimedStep(plan, s, c, e, c);
    }
    hide NoDuplicate, LedgerLive, LedgerOk, Reserved, Taken, Unclaimed, Grown, HasTurn, Sized, Recalls, Moved, Last, Advances;
  }

  /** Only a coroutine's step can raise the stop flag, and none runs while another one is between its checks. */
  lemma TurnKeepsFlag(plan: Plan, s: State, c: nat, e: Event, d: nat)
    requires Enabled(plan, s, c, e) && d < |s.pcs| && d != c && s.pcs[d].Checking?
    ensures Apply(plan, s, c, e).stop == s.stop
  {
    hide NoDuplicate, Taken, Reads, Advances, Last;
  }

  lemma KnowingStep(plan: Plan, init: Origin, s: State, c: nat, e: Event)
    requires Sized(plan, init, s) && Knowing(plan, init, s) && Enabled(plan, s, c, e)
    ensures Sized(plan, init, Apply(plan, s, c, e)) && Knowing(plan, init, Apply(plan, s, c, e))
  {
    StepKeepsSizes(plan, init, s, c, e);
    OwnCounter(plan, init, s, c, e);
    OwnProc(plan, init, s, c, e);
    var t := Apply(plan, s, c, e);
    hide Apply, Enabled, LedgerLive, LedgerOk, Reserved, Unclaimed, Grown;
    forall d: nat | d < |s.pcs| && d != c ensures PcKnows(plan, init, t, d) && ProcKnows(plan, init, t, d) {
      assert PcKnows(plan, init, s, d) && ProcKnows(plan, init, s, d);
      StepIsLocal(plan, s, c, e, d);
      if d in s.procs { ReservedStep(plan, s, c, e, d, s.procs[d].attempt); }
      if s.pcs[d].Spawning? { ReservedStep(plan, s, c, e, d, s.pcs[d].attempt); }
      if s.pcs[d].Checking? {
        UnclaimedStep(plan, s, c, e, d);
        TurnKeepsFlag(plan, s, c, e, d);
      }
    }
  }

  /** A ledger that was gap-free stays so, and one that was not is never touched. */
  ghost predicate ShapeKept(init: Disk, disk: Disk) {
    && |init| == |disk|
    && forall c :: 0 <= c < |init| ==> if LedgerShape(init[c]) then LedgerShape(disk[c]) else disk[c] == init[c]
  }

  lemma LiveShape(slots: seq<Slot>, hash: string, n: nat)
    requires LedgerLive(slots, hash, n)
    ensures LedgerShape(slots)
  {
  }

  lemma ShapeStep(plan: Plan, init: Origin, s: State, c: nat, e: Event)
    requires Sized(plan, init, s) && Knowing(plan, init, s) && Enabled(plan, s, c, e) && ShapeKept(init.disk, s.disk)
    ensures ShapeKept(init.disk, Apply(plan, s, c, e).disk)
  {
    DiskOnlyWritten(plan, s, c, e);
    if e.Write? || e.LeftWrite? {
      assert ProcKnows(plan, init, s, c);
      var slots, n := s.disk[c], Writes(s, c, e);
      LiveShape(slots, plan.hashes[c], n);
      WriteLive(slots, plan.hashes[c], n, e.slot);
      LiveShape(slots[n - 1 := e.slot], plan.hashes[c], n);
      hide LedgerShape, LedgerLive, HasTurn;
    }
  }
}
