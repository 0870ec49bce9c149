/** The bounded review supervisor: interleaved candidates, an attempt ledger, a semaphore and a stop flag. */
module Supervisor {
  import opened Common

  const MAX_ATTEMPTS := 3

  // ---- the immutable attempt ledger of one candidate ----

  datatype Status = Complete(accepted: bool) | FailedNoRetry | RequestStarted | Unknown

  /** An attempt directory: absent, present without a state file, or holding a state. */
  datatype Slot = Missing | Bare | Written(identity: bool, hash: string, status: Status)

  ghost predicate Mine(slot: Slot, hash: string) {
    slot.Written? && slot.identity && slot.hash == hash
  }

  ghost predicate Retryable(status: Status) {
    status == FailedNoRetry || status == RequestStarted
  }

  /** `n` attempts without a gap, all this candidate's; only the last may be a completed review. */
  ghost predicate LedgerOk(slots: seq<Slot>, hash: string, n: nat) {
    && n <= |slots|
    && (forall k :: 0 <= k < n ==> Mine(slots[k], hash))
    && (forall k :: n <= k < |slots| ==> slots[k] == Missing)
    && (forall k :: 0 <= k < n - 1 ==> !slots[k].status.Complete?)
    && ((n > 0 && slots[n - 1].status.Complete?) || forall k :: 0 <= k < n ==> Retryable(slots[k].status))
  }

  /** A ledger is as long as its run of attempts from the start. */
  lemma LedgerLength(slots: seq<Slot>, hash: string, n: nat, m: nat)
    requires n <= |slots| && (forall k :: 0 <= k < n ==> Mine(slots[k], hash)) && (n < |slots| ==> slots[n] == Missing)
    requires LedgerOk(slots, hash, m)
    ensures m == n
  {
    assert m < n ==> Mine(slots[m], hash);
    assert n < m ==> Mine(slots[n], hash);
  }

  method AttemptsFor(slots: seq<Slot>, hash: string) returns (r: Result<seq<Slot>>)
    ensures r.Ok? ==> LedgerOk(slots, hash, |r.value|) && r.value == slots[..|r.value|]
    ensures r.Ok? <==> exists n: nat :: LedgerOk(slots, hash, n)
  {
    var found := [];
    var completed := 0;
    for k := 0 to |slots|
      invariant found == slots[..k] && forall j :: 0 <= j < k ==> Mine(slots[j], hash)
      invariant completed == 0 <==> forall j :: 0 <= j < k ==> !slots[j].status.Complete?
      invariant 0 <= completed <= k
      invariant completed > 0 && !slots[k - 1].status.Complete? ==> exists j :: 0 <= j < k - 1 && slots[j].status.Complete?
      invariant completed > 1 ==> exists j :: 0 <= j < k - 1 && slots[j].status.Complete?
      invariant completed == 1 && slots[k - 1].status.Complete? ==> forall j :: 0 <= j < k - 1 ==> !slots[j].status.Complete?
    {
      if slots[k] == Missing {
        if exists j :: k < j < |slots| && slots[j] != Missing {
          forall n: nat ensures !LedgerOk(slots, hash, n) {
          }
          return Rejected;
        }
        break;
      }
      if !slots[k].Written? || !slots[k].identity || slots[k].hash != hash {
        return Rejected;
      }
      found := found + [slots[k]];
      completed := completed + if slots[k].status.Complete? then 1 else 0;
    }
    var n := |found|;
    forall m: nat | LedgerOk(slots, hash, m) ensures m == n {
      LedgerLength(slots, hash, n, m);
    }
    if completed > 1 || (completed > 0 && !found[n - 1].status.Complete?) {
      return Rejected;
    }
    if completed == 0 && exists k :: 0 <= k < n && found[k].status != FailedNoRetry && found[k].status != RequestStarted {
      return Rejected;
    }
    assert LedgerOk(slots, hash, n);
    r := Ok(found);
  }

  // ---- the plan ----

  datatype Row = Row(id: string, hash: string, sourcesIntact: bool, candidateIntact: bool)

  function Ids(rows: seq<Row>): seq<string> {
    seq(|rows|, i requires 0 <= i < |rows| => rows[i].id)
  }

  function Hashes(rows: seq<Row>): seq<string> {
    seq(|rows|, i requires 0 <= i < |rows| => rows[i].hash)
  }

  ghost predicate PlanOk(rows: seq<Row>, frozen: set<string>) {
    && 1 <= |rows| <= 100 && Distinct(Ids(rows)) && Distinct(Hashes(rows))
    && (forall i :: 0 <= i < |rows| ==> rows[i].id !in frozen && rows[i].sourcesIntact && rows[i].candidateIntact)
  }

  method ValidateSources(rows: seq<Row>, frozen: set<string>) returns (ok: bool)
    ensures ok <==> PlanOk(rows, frozen)
  {
    var ids, hashes := Ids(rows), Hashes(rows);
    DistinctSize(ids);
    DistinctSize(hashes);
    if !(1 <= |rows| <= 100) || |Elements(ids)| != |rows| || |Elements(hashes)| != |rows| {
      return false;
    }
    if Elements(ids) * frozen != {} {
      var id :| id in Elements(ids) * frozen;
      var i :| 0 <= i < |ids| && ids[i] == id;
      assert rows[i].id in frozen;
      return false;
    }
    forall i | 0 <= i < |rows| ensures rows[i].id !in frozen {
      assert ids[i] in Elements(ids) && ids[i] !in Elements(ids) * frozen;
    }
    for i := 0 to |rows|
      invariant forall j :: 0 <= j < i ==> rows[j].sourcesIntact && rows[j].candidateIntact
    {
      if !rows[i].sourcesIntact || !rows[i].candidateIntact {
        return false;
      }
    }
    return true;
  }
}
