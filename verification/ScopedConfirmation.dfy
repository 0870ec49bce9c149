/** A confirmation protocol candidate: a reply authorises the pending action, and only that one. */
module ScopedConfirmation {
  import opened Common

  /** Actions are told apart by their signature; some lack a field a proposal needs. */
  datatype Action = Action(signature: string, scoped: bool)

  /** What a reply text amounts to; refusals are looked for first. */
  datatype Kind = Refusal | Affirmation | Neither

  datatype Status = Unknown | Denied | Confirmed

  // ---- traces ----

  datatype Event = Propose(signature: string) | Reply(kind: Kind)

  datatype State = State(pending: Option<string>, confirmed: Option<string>, status: Status)

  const INITIAL := State(None, None, Unknown)

  function Step(s: State, e: Event): State {
    match e
    case Propose(signature) =>
      if s.pending != Some(signature) then State(Some(signature), None, Unknown) else s
    case Reply(kind) =>
      match kind
      case Refusal => s.(confirmed := None, status := Denied)
      case Affirmation => if s.pending.Some? then s.(confirmed := s.pending, status := Confirmed) else s.(confirmed := None, status := Unknown)
      case Neither => s.(confirmed := None, status := Unknown)
  }

  function Run(trace: seq<Event>): State {
    if trace == [] then INITIAL else Step(Run(trace[..|trace| - 1]), trace[|trace| - 1])
  }

  predicate Authorized(s: State, signature: string) {
    s.status == Confirmed && s.confirmed == Some(signature)
  }

  /** The latest proposal of the trace. */
  ghost predicate Latest(trace: seq<Event>, signature: string) {
    exists p :: 0 <= p < |trace| && trace[p] == Propose(signature) && forall k :: p < k < |trace| ==> trace[k].Reply?
  }

  /** The last reply affirms, the latest proposal before it is this one, and so is every proposal after it. */
  ghost predicate Affirmed(trace: seq<Event>, signature: string) {
    exists r :: 0 <= r < |trace| && trace[r] == Reply(Affirmation) && Latest(trace[..r], signature)
      && forall k :: r < k < |trace| ==> trace[k] == Propose(signature)
  }

  lemma LatestSnoc(trace: seq<Event>, e: Event, signature: string)
    ensures Latest(trace + [e], signature) <==> if e.Propose? then e.signature == signature else Latest(trace, signature)
  {
    var more := trace + [e];
    if Latest(more, signature) {
      var p :| 0 <= p < |more| && more[p] == Propose(signature) && forall k :: p < k < |more| ==> more[k].Reply?;
      assert p < |trace| ==> more[|trace|].Reply?;
      assert forall k :: 0 <= k < |trace| ==> trace[k] == more[k];
    }
    if e.Reply? && Latest(trace, signature) {
      var p :| 0 <= p < |trace| && trace[p] == Propose(signature) && forall k :: p < k < |trace| ==> trace[k].Reply?;
      assert more[p] == Propose(signature);
    }
    if e == Propose(signature) {
      assert more[|trace|] == e;
    }
  }

  lemma AffirmedSnoc(trace: seq<Event>, e: Event, signature: string)
    ensures Affirmed(trace + [e], signature) <==>
      if e.Propose? then e.signature == signature && Affirmed(trace, signature) else e.kind == Affirmation && Latest(trace, signature)
  {
    var more, n := trace + [e], |trace|;
    assert more[..n] == trace;
    if Affirmed(more, signature) {
      var r :| 0 <= r < |more| && more[r] == Reply(Affirmation) && Latest(more[..r], signature)
        && forall k :: r < k < |more| ==> more[k] == Propose(signature);
      if r < n {
        assert more[n] == Propose(signature) && more[..r] == trace[..r];
        assert trace[r] == more[r] && forall k :: r < k < n ==> trace[k] == more[k];
      }
    }
    if e == Propose(signature) && Affirmed(trace, signature) {
      var r :| 0 <= r < n && trace[r] == Reply(Affirmation) && Latest(trace[..r], signature)
        && forall k :: r < k < n ==> trace[k] == Propose(signature);
      assert more[..r] == trace[..r] && more[r] == trace[r];
    }
    if e == Reply(Affirmation) && Latest(trace, signature) {
      assert more[n] == e;
    }
  }

  /** Over every trace: the state authorises an action exactly when the trace affirmed it. */
  lemma {:induction false} AuthorizedIffAffirmed(trace: seq<Event>, signature: string)
    ensures Authorized(Run(trace), signature) <==> Affirmed(trace, signature)
    ensures Run(trace).pending == Some(signature) <==> Latest(trace, signature)
    ensures Authorized(Run(trace), signature) ==> Run(trace).pending == Some(signature)
  {
    if trace != [] {
      var init, e := trace[..|trace| - 1], trace[|trace| - 1];
      AuthorizedIffAffirmed(init, signature);
      assert trace == init + [e];
      LatestSnoc(init, e, signature);
      AffirmedSnoc(init, e, signature);
    }
  }

  /** At most one action is authorised at a time. */
  lemma OneAuthorized(trace: seq<Event>, a: string, b: string)
    requires Affirmed(trace, a) && Affirmed(trace, b)
    ensures a == b
  {
    AuthorizedIffAffirmed(trace, a);
    AuthorizedIffAffirmed(trace, b);
  }

  // ---- the object ----

  class ScopedConfirmation {
    var pending: Option<string>
    var confirmed: Option<string>
    var status: Status
    ghost var trace: seq<Event>

    ghost predicate Valid()
      reads this
    {
      State(pending, confirmed, status) == Run(trace)
    }

    constructor ()
      ensures Valid() && trace == []
    {
      pending, confirmed, status, trace := None, None, Unknown, [];
    }

    /** A proposal without its full scope raises and changes nothing. */
    method Propose(action: Action) returns (ok: bool)
      requires Valid()
      modifies this
      ensures Valid() && ok == action.scoped
      ensures trace == if ok then old(trace) + [Event.Propose(action.signature)] else old(trace)
    {
      if !action.scoped {
        return false;
      }
      if pending != Some(action.signature) {
        confirmed := None;
        status := Unknown;
      }
      pending := Some(action.signature);
      trace := trace + [Event.Propose(action.signature)];
      ok := true;
    }

    method Reply(kind: Kind) returns (result: Status)
      requires Valid()
      modifies this
      ensures Valid() && trace == old(trace) + [Event.Reply(kind)] && result == status
    {
      confirmed := None;
      if kind == Refusal {
        status := Denied;
      } else if pending.Some? && kind == Affirmation {
        status := Confirmed;
        confirmed := pending;
      } else {
        status := Unknown;
      }
      trace := trace + [Event.Reply(kind)];
      result := status;
    }

    method Authorizes(action: Action) returns (yes: bool)
      requires Valid()
      ensures yes <==> Affirmed(trace, action.signature)
    {
      AuthorizedIffAffirmed(trace, action.signature);
      yes := status == Confirmed && confirmed == Some(action.signature);
    }
  }
}
