// The acceptor of one slot (src/acceptor.rs).
module Acceptors {
  import opened Ballots
  import opened Quorums

  /** `Q` is the quorum set: its entries in the value model, an object in the class. */
  datatype AcceptorState<Q> =
    | AwaitValue(promised: Option<Ballot>, size: nat)
    | AwaitQuorum(pledged: Ballot, bal: Ballot, val: Bytes, quorum: Q)
    | Resolved(accepted: Ballot, value: Bytes)

  type Acc = AcceptorState<Entries>

  datatype Pair = Pair(bal: Ballot, val: Bytes)

  datatype PrepareResponse =
    | Promised(proposed: Ballot, report: Option<Pair>)
    | PrepareRefused(proposed: Ballot, preempted: Ballot)
    | PrepareResolved

  datatype AcceptResponse =
    | Accepted(proposed: Ballot, previous: Option<Pair>)
    | AcceptRefused(proposed: Ballot, preempted: Ballot)
    | AcceptResolved

  function Promise<Q>(a: AcceptorState<Q>): Option<Ballot> {
    match a
    case AwaitValue(p, _) => p
    case AwaitQuorum(p, _, _, _) => Some(p)
    case Resolved(b, _) => Some(b)
  }

  function HighestValue<Q>(a: AcceptorState<Q>): Option<Pair> {
    match a
    case AwaitValue(_, _) => None
    case AwaitQuorum(_, b, v, _) => Some(Pair(b, v))
    case Resolved(b, v) => Some(Pair(b, v))
  }

  function Resolve(a: Acc, bal: Ballot, val: Bytes): Acc {
    if a.Resolved? then a else Resolved(bal, val)
  }

  function NoticeValue(a: Acc, bal: Ballot, val: Bytes): Acc {
    match a
    case AwaitValue(p, size) =>
      AwaitQuorum(Max(Some(bal), p).value, bal, val, Vacant(if size > 0 then size - 1 else 0))
    case AwaitQuorum(p, b, v, q) =>
      if b.Less(bal) then AwaitQuorum(Max(Some(p), Some(bal)).value, bal, val, Vacant(|q|)) else a
    case Resolved(_, _) => a
  }

  /** The pair that `NoticeValue` displaces. */
  function Displaced(a: Acc, bal: Ballot): Option<Pair> {
    if a.AwaitQuorum? && a.bal.Less(bal) then Some(Pair(a.bal, a.val)) else None
  }

  function Pledge(a: Acc, bal: Ballot): Acc {
    match a
    case AwaitValue(_, size) => AwaitValue(Some(bal), size)
    case AwaitQuorum(_, b, v, q) => AwaitQuorum(bal, b, v, q)
    case Resolved(_, _) => a
  }

  /** An unresolved acceptor refuses a ballot below the one it promised. */
  predicate Refuses(a: Acc, bal: Ballot) {
    !a.Resolved? && !Precedes(Promise(a), Some(bal))
  }

  function ReceivePrepare(a: Acc, bal: Ballot): (Acc, PrepareResponse) {
    if a.Resolved? then (a, PrepareResolved)
    else if Refuses(a, bal) then (a, PrepareRefused(bal, Promise(a).value))
    else (Pledge(a, bal), Promised(bal, HighestValue(a)))
  }

  function ReceiveAccept(a: Acc, bal: Ballot, val: Bytes): (Acc, AcceptResponse) {
    if a.Resolved? then (a, AcceptResolved)
    else if Refuses(a, bal) then (a, AcceptRefused(bal, Promise(a).value))
    else (NoticeValue(Pledge(a, bal), bal, val), Accepted(bal, Displaced(a, bal)))
  }

  function ReceiveAccepted(a: Acc, peer: NodeId, bal: Ballot): Acc {
    if a.AwaitQuorum? && a.bal == bal then
      var q := Insert(a.quorum, peer);
      if HasQuorum(q) then Resolved(a.bal, a.val) else a.(quorum := q)
    else a
  }

  /** What every acceptor of a window with the given quorum size satisfies: an
      accepted ballot is promised, and the peers counted for it are distinct and
      short of `size - 1`, the leader being counted implicitly. */
  ghost predicate AccOk(a: Acc, size: nat) {
    match a
    case AwaitValue(_, s) => s == size && size > 1
    case AwaitQuorum(p, b, _, q) =>
      size > 1 && b.AtMost(p) && |q| == size - 1 && Packed(q) && !HasQuorum(q)
    case Resolved(_, _) => true
  }

  /** How an acceptor may change: a resolution is final, an accepted pair gives way
      only to a pair of a higher ballot or to a resolution, the peers counted for a pair stay
      counted, and the promise of an unresolved acceptor never falls. */
  ghost predicate AccGrows(a: Acc, a': Acc) {
    match a
    case AwaitValue(p, _) => a'.Resolved? || Precedes(p, Promise(a'))
    case AwaitQuorum(p, b, v, q) =>
      || a'.Resolved?
      || (a'.AwaitQuorum? && p.AtMost(a'.pledged) && b.AtMost(a'.bal)
          && (b == a'.bal ==> v == a'.val && Members(q) <= Members(a'.quorum)))
    case Resolved(_, _) => a' == a
  }

  /** The acceptor remembers at least ballot `b`. */
  ghost predicate Remembers(a: Acc, b: Ballot) {
    a.Resolved? || (a.AwaitQuorum? && b.AtMost(a.bal))
  }

  lemma {:induction false} AccGrowsTransitive(a: Acc, b: Acc, c: Acc)
    requires AccGrows(a, b) && AccGrows(b, c)
    ensures AccGrows(a, c)
  {
  }

  /** Every operation of an acceptor lets it grow and keeps it well formed. */
  lemma {:induction false} OperationsGrow(a: Acc, size: nat, bal: Ballot, val: Bytes, peer: NodeId)
    requires AccOk(a, size)
    ensures AccOk(NoticeValue(a, bal, val), size) && AccGrows(a, NoticeValue(a, bal, val))
    ensures AccOk(Resolve(a, bal, val), size) && AccGrows(a, Resolve(a, bal, val))
    ensures AccOk(ReceivePrepare(a, bal).0, size) && AccGrows(a, ReceivePrepare(a, bal).0)
    ensures AccOk(ReceiveAccept(a, bal, val).0, size) && AccGrows(a, ReceiveAccept(a, bal, val).0)
    ensures AccOk(ReceiveAccepted(a, peer, bal), size) && AccGrows(a, ReceiveAccepted(a, peer, bal))
  {
    if a.AwaitQuorum? {
      InsertMeaning(a.quorum, peer);
    }
  }

  // ---------------------------------------------------------------------------
  // What each operation does, told by promises, pairs and members
  // ---------------------------------------------------------------------------

  lemma {:induction false} VacantMembers(size: nat)
    ensures |Vacant(size)| == size && Members(Vacant(size)) == {}
  {
  }

  /** `a'` is `a` after it took over the pair: the ballot is the accepted one, no peer is
      counted for it yet, and the promise is the higher of the old one and the ballot. */
  ghost predicate TakesOver(a: Acc, size: nat, bal: Ballot, val: Bytes, a': Acc) {
    && a'.AwaitQuorum? && a'.bal == bal && a'.val == val && |a'.quorum| == size - 1 && Members(a'.quorum) == {}
    && Precedes(Promise(a), Some(a'.pledged)) && bal.AtMost(a'.pledged)
    && (Some(a'.pledged) == Promise(a) || a'.pledged == bal)
  }

  /** Noticing a pair: an unresolved acceptor takes it over exactly if it holds none of that
      ballot or above; else nothing changes. */
  lemma {:induction false} NoticeMeaning(a: Acc, size: nat, bal: Ballot, val: Bytes)
    requires AccOk(a, size)
    ensures var a' := NoticeValue(a, bal, val);
            if a.Resolved? || (a.AwaitQuorum? && bal.AtMost(a.bal)) then a' == a else TakesOver(a, size, bal, val, a')
    ensures Displaced(a, bal) == if a.AwaitQuorum? && !bal.AtMost(a.bal) then Some(Pair(a.bal, a.val)) else None
  {
    if !a.Resolved? { VacantMembers(size - 1); }
  }

  /** `a'` is `a` with its promise set to `bal`, and nothing else changed. */
  ghost predicate PledgedTo(a: Acc, bal: Ballot, a': Acc) {
    match a
    case AwaitValue(_, size) => a' == AwaitValue(Some(bal), size)
    case AwaitQuorum(_, b, v, q) => a' == AwaitQuorum(bal, b, v, q)
    case Resolved(_, _) => a' == a
  }

  /** Receiving a PREPARE: a resolved acceptor says so; one that promised a higher ballot
      refuses with that promise; any other promises and reports the pair it holds. */
  lemma {:induction false} PledgeMeaning(a: Acc, bal: Ballot)
    ensures var (a', r) := ReceivePrepare(a, bal);
            if a.Resolved? then a' == a && r == PrepareResolved
            else if Promise(a).Some? && bal.Less(Promise(a).value) then a' == a && r == PrepareRefused(bal, Promise(a).value)
            else PledgedTo(a, bal, a') && r == Promised(bal, if a.AwaitQuorum? then Some(Pair(a.bal, a.val)) else None)
  {
  }

  /** Receiving an ACCEPT: it is accepted exactly when the slot is unresolved and
      nothing above the ballot was promised; the acceptor then holds the ballot as
      both its promise and its accepted ballot, with the value and the counted peers it
      had at that ballot already, else with the new value and nobody counted. */
  lemma {:induction false} AcceptMeaning(a: Acc, size: nat, bal: Ballot, val: Bytes)
    requires AccOk(a, size)
    ensures var (a', r) := ReceiveAccept(a, bal, val);
            if a.Resolved? then a' == a && r == AcceptResolved
            else if Promise(a).Some? && bal.Less(Promise(a).value) then a' == a && r == AcceptRefused(bal, Promise(a).value)
            else
              && r == Accepted(bal, if a.AwaitQuorum? && a.bal != bal then Some(Pair(a.bal, a.val)) else None)
              && a'.AwaitQuorum? && a'.pledged == bal
              && if a.AwaitQuorum? && a.bal == bal then a' == a.(pledged := bal) else TakesOver(a, size, bal, val, a')
  {
    if !a.Resolved? { VacantMembers(size - 1); }
  }

  /** An ACCEPTED of `peer` for `bal` completes the quorum of the acceptor: with that peer at
      least `size - 1` peers accepted its pair. */
  ghost predicate Completes(a: Acc, size: nat, peer: NodeId, bal: Ballot) {
    a.AwaitQuorum? && a.bal == bal && |Members(a.quorum) + {peer}| >= size - 1
  }

  /** What an ACCEPTED makes of an acceptor, whatever it promised since: it counts only for
      the accepted ballot, and resolves the acceptor exactly if it completes the quorum. */
  ghost predicate CountedFor(a: Acc, size: nat, peer: NodeId, bal: Ballot, a': Acc) {
    if a.AwaitQuorum? && a.bal == bal then
      if Completes(a, size, peer, bal) then a' == Resolved(a.bal, a.val)
      else
        && a'.AwaitQuorum? && a'.pledged == a.pledged && a'.bal == a.bal && a'.val == a.val
        && Members(a'.quorum) == Members(a.quorum) + {peer}
    else a' == a
  }

  lemma {:induction false} CountMeaning(a: Acc, size: nat, peer: NodeId, bal: Ballot)
    requires AccOk(a, size)
    ensures CountedFor(a, size, peer, bal, ReceiveAccepted(a, peer, bal))
  {
    if a.AwaitQuorum? && a.bal == bal {
      InsertMeaning(a.quorum, peer);
      PackedCount(Insert(a.quorum, peer));
    }
  }

  // ---------------------------------------------------------------------------
  // The acceptor as an object
  // ---------------------------------------------------------------------------

  class Acceptor {
    var state: AcceptorState<QuorumSet>

    ghost function Repr(): set<object>
      reads this
    {
      {this} + if state.AwaitQuorum? then {state.quorum.values} else {}
    }

    ghost predicate Valid()
      reads this
    {
      match state
      case AwaitValue(_, size) => size > 1
      case AwaitQuorum(p, b, _, q) => q.values.Length > 0
      case Resolved(_, _) => true
    }

    ghost function Model(): Acc
      reads this, if state.AwaitQuorum? then {state.quorum.values} else {}
    {
      match state
      case AwaitValue(p, size) => AwaitValue(p, size)
      case AwaitQuorum(p, b, v, q) => AwaitQuorum(p, b, v, q.values[..])
      case Resolved(b, v) => Resolved(b, v)
    }

    constructor (promised: Option<Ballot>, quorum: nat)
      requires quorum > 1
      ensures Valid() && Model() == AwaitValue(promised, quorum) && fresh(Repr())
    {
      state := AwaitValue(promised, quorum);
    }

    function GetPromised(): (r: Option<Ballot>)
      reads this
      ensures r == Promise(Model())
    {
      match state
      case AwaitValue(p, _) => p
      case AwaitQuorum(p, _, _, _) => Some(p)
      case Resolved(b, _) => Some(b)
    }

    function GetHighestValue(): (r: Option<Pair>)
      reads this
      ensures r == HighestValue(Model())
    {
      match state
      case AwaitValue(_, _) => None
      case AwaitQuorum(_, b, v, _) => Some(Pair(b, v))
      case Resolved(b, v) => Some(Pair(b, v))
    }

    function GetResolution(): (r: Option<Pair>)
      reads this
      ensures r == if Model().Resolved? then Some(Pair(Model().accepted, Model().value)) else None
    {
      match state
      case Resolved(b, v) => Some(Pair(b, v))
      case _ => None
    }

    method ResolveTo(bal: Ballot, val: Bytes)
      requires Valid()
      modifies this
      ensures Valid() && Model() == Resolve(old(Model()), bal, val)
      ensures Repr() <= old(Repr())
    {
      if !state.Resolved? {
        state := Resolved(bal, val);
      }
    }

    method Notice(bal: Ballot, val: Bytes) returns (previous: Option<Pair>)
      requires Valid()
      modifies this
      ensures Valid() && Model() == NoticeValue(old(Model()), bal, val)
      ensures previous == Displaced(old(Model()), bal)
      ensures fresh(Repr() - old(Repr()))
    {
      previous := None;
      if state.AwaitValue? {
        var q := new QuorumSet.WithSize(state.size - 1);
        state := AwaitQuorum(Max(Some(bal), state.promised).value, bal, val, q);
      } else if state.AwaitQuorum? && state.bal.Less(bal) {
        var q := new QuorumSet.WithSize(state.quorum.values.Length);
        previous := Some(Pair(state.bal, state.val));
        state := AwaitQuorum(Max(Some(state.pledged), Some(bal)).value, bal, val, q);
      }
    }

    method Prepare(bal: Ballot) returns (r: PrepareResponse)
      requires Valid()
      modifies this
      ensures Valid() && (Model(), r) == ReceivePrepare(old(Model()), bal)
      ensures Repr() == old(Repr())
    {
      match state {
        case AwaitValue(promised, size) =>
          if promised.Some? && bal.Less(promised.value) {
            r := PrepareRefused(bal, promised.value);
          } else {
            state := AwaitValue(Some(bal), size);
            r := Promised(bal, None);
          }
        case AwaitQuorum(pledged, b, v, q) =>
          if bal.Less(pledged) {
            r := PrepareRefused(bal, pledged);
          } else {
            state := AwaitQuorum(bal, b, v, q);
            r := Promised(bal, Some(Pair(b, v)));
          }
        case Resolved(_, _) =>
          r := PrepareResolved;
      }
    }

    method Accept(bal: Ballot, val: Bytes) returns (r: AcceptResponse)
      requires Valid()
      modifies this
      ensures Valid() && (Model(), r) == ReceiveAccept(old(Model()), bal, val)
      ensures fresh(Repr() - old(Repr()))
    {
      match state {
        case AwaitValue(promised, size) =>
          if promised.Some? && bal.Less(promised.value) {
            return AcceptRefused(bal, promised.value);
          }
          state := AwaitValue(Some(bal), size);
        case AwaitQuorum(pledged, b, v, q) =>
          if bal.Less(pledged) {
            return AcceptRefused(bal, pledged);
          }
          state := AwaitQuorum(bal, b, v, q);
        case Resolved(_, _) =>
          return AcceptResolved;
      }
      var previous := Notice(bal, val);
      r := Accepted(bal, previous);
    }

    method CountAccepted(peer: NodeId, bal: Ballot)
      requires Valid()
      modifies Repr()
      ensures Valid() && Model() == ReceiveAccepted(old(Model()), peer, bal)
      ensures Repr() <= old(Repr())
    {
      match state {
        case AwaitQuorum(_, b, v, q) =>
          if b == bal {
            q.InsertNode(peer);
            var reached := q.ReachedQuorum();
            if reached {
              state := Resolved(b, v);
            }
          }
        case _ =>
      }
    }
  }
}
