// The proposer of a node (src/proposer.rs).
module Proposers {
  import opened Ballots
  import opened Quorums

  /** `Q` is the quorum set: its entries in the value model, an object in the class. */
  datatype ProposerState<Q> =
    | Follower
    | Candidate(proposal: Ballot, promises: Q)
    | Leader(proposal: Ballot)

  datatype Prop = Prop(
    state: ProposerState<Entries>,
    highest: Option<Ballot>,
    current: NodeId,
    quorum: nat,
    queue: seq<Bytes>)

  function NewProposer(node: NodeId, quorum: nat): Prop {
    Prop(Follower, None, node, quorum, [])
  }

  function ObserveBallot(p: Prop, bal: Ballot): Prop {
    var highest := Max(Some(bal), p.highest);
    p.(highest := highest,
       state := if !p.state.Follower? && highest.value.node != p.current then Follower else p.state)
  }

  function NextBallot(p: Prop): Ballot {
    if p.highest.Some? then p.highest.value.HigherFor(p.current) else Ballot(0, p.current)
  }

  function StartPrepare(p: Prop): Prop {
    p.(highest := Some(NextBallot(p)),
       state := Candidate(NextBallot(p), Insert(Vacant(p.quorum), p.current)))
  }

  function ReceiveReject(p: Prop, proposed: Ballot, promised: Ballot): Prop {
    if promised.AtMost(proposed) then p else ObserveBallot(p, promised)
  }

  /** The promise of a new peer for the candidate's own ballot is counted. */
  predicate Counts(p: Prop, peer: NodeId, bal: Ballot) {
    p.state.Candidate? && p.state.proposal == bal && !Contains(p.state.promises, peer)
  }

  function ReceivePromise(p: Prop, peer: NodeId, bal: Ballot): Prop {
    if !Counts(p, peer, bal) then p else
    var promises := Insert(p.state.promises, peer);
    p.(state := if HasQuorum(promises) then Leader(bal) else Candidate(bal, promises))
  }

  // ---------------------------------------------------------------------------
  // What each operation does, told by ballots and members
  // ---------------------------------------------------------------------------

  /** What holds of a proposer whatever it is told: a candidate or leader owns its ballot and
      the highest it observed; a candidate counts distinct nodes, itself included, and is short
      of its quorum; and values are queued only once some ballot was observed. */
  ghost predicate RoleHolds(p: Prop) {
    && p.quorum > 1
    && (!p.state.Follower? ==> p.state.proposal.node == p.current && p.highest.Some? && p.highest.value.node == p.current)
    && (p.state.Candidate? ==>
          && |p.state.promises| == p.quorum && Packed(p.state.promises) && !HasQuorum(p.state.promises)
          && p.current in Members(p.state.promises))
    && (p.queue != [] ==> p.highest.Some?)
  }

  /** The proposer knows the higher of what it knew and `bal`. It keeps its role if it was a
      follower or owns that ballot, and is a follower otherwise; nothing else changes. */
  ghost predicate Observes(p: Prop, bal: Ballot, p': Prop) {
    && p'.highest.Some? && bal.AtMost(p'.highest.value) && Precedes(p.highest, p'.highest)
    && (p'.highest == Some(bal) || p'.highest == p.highest)
    && p'.state == (if p.state.Follower? || p'.highest.value.node == p.current then p.state else Follower)
    && p'.queue == p.queue && p'.current == p.current && p'.quorum == p.quorum
  }

  lemma {:induction false} ObserveMeaning(p: Prop, bal: Ballot)
    ensures Observes(p, bal, ObserveBallot(p, bal))
    ensures RoleHolds(p) ==> RoleHolds(ObserveBallot(p, bal))
  {
  }

  /** A promise of `peer` for the candidate's own ballot counts exactly if that peer did not
      promise before. With it the candidate leads exactly if as many nodes as make a quorum
      promised, and else stays candidate with the members it has now. Any other promise leaves
      the proposer alone. */
  ghost predicate CountsPromiseOf(p: Prop, peer: NodeId, bal: Ballot, p': Prop) {
    if p.state.Candidate? && p.state.proposal == bal && peer !in Members(p.state.promises) then
      && p' == p.(state := p'.state)
      && if |Members(p.state.promises) + {peer}| >= p.quorum then p'.state == Leader(bal)
         else p'.state.Candidate? && p'.state.proposal == bal && Members(p'.state.promises) == Members(p.state.promises) + {peer}
    else p' == p
  }

  lemma {:induction false} PromiseMeaning(p: Prop, peer: NodeId, bal: Ballot)
    requires RoleHolds(p)
    ensures CountsPromiseOf(p, peer, bal, ReceivePromise(p, peer, bal)) && RoleHolds(ReceivePromise(p, peer, bal))
    ensures Counts(p, peer, bal) <==> p.state.Candidate? && p.state.proposal == bal && peer !in Members(p.state.promises)
  {
    if p.state.Candidate? {
      InsertMeaning(p.state.promises, peer);
      PackedCount(Insert(p.state.promises, peer));
    }
  }

  /** With the promise of `peer` as many nodes promised the candidate's ballot as make a quorum. */
  ghost predicate Wins(p: Prop, peer: NodeId, bal: Ballot) {
    && p.state.Candidate? && p.state.proposal == bal && peer !in Members(p.state.promises)
    && |Members(p.state.promises) + {peer}| >= p.quorum
  }

  /** `b` is the least ballot of node `n` above the given one. */
  ghost predicate LeastAbove(highest: Option<Ballot>, n: NodeId, b: Ballot) {
    && b.node == n && (highest.Some? ==> highest.value.Less(b))
    && forall d: Ballot :: d.node == n && (highest.Some? ==> highest.value.Less(d)) ==> b.AtMost(d)
  }

  /** The proposer campaigns with the least ballot of its own above all it observed, and has
      counted itself only. */
  ghost predicate Campaigned(p: Prop, p': Prop) {
    && p'.highest.Some? && LeastAbove(p.highest, p.current, p'.highest.value)
    && p' == p.(state := p'.state, highest := p'.highest)
    && p'.state.Candidate? && p'.state.proposal == p'.highest.value && Members(p'.state.promises) == {p.current}
  }

  lemma {:induction false} CandidacyMeaning(p: Prop)
    requires p.quorum > 1
    ensures Campaigned(p, StartPrepare(p)) && RoleHolds(StartPrepare(p))
  {
    InsertMeaning(Vacant(p.quorum), p.current);
    assert Members(Vacant(p.quorum)) == {};
    PackedCount(Insert(Vacant(p.quorum), p.current));
  }

  // ---------------------------------------------------------------------------
  // The proposer as an object
  // ---------------------------------------------------------------------------

  class Proposer {
    var state: ProposerState<QuorumSet>
    var highest: Option<Ballot>
    var queue: seq<Bytes>
    const current: NodeId
    const quorum: nat

    ghost function Repr(): set<object>
      reads this
    {
      {this} + if state.Candidate? then {state.promises.values} else {}
    }

    ghost predicate Valid()
      reads this
    {
      quorum > 0 && (state.Candidate? ==> state.promises.values.Length > 0)
    }

    ghost function Model(): Prop
      reads this, if state.Candidate? then {state.promises.values} else {}
    {
      Prop(match state
           case Follower => Follower
           case Candidate(p, q) => Candidate(p, q.values[..])
           case Leader(p) => Leader(p),
           highest, current, quorum, queue)
    }

    constructor (node: NodeId, quorum: nat)
      requires quorum > 0
      ensures Valid() && Model() == NewProposer(node, quorum) && fresh(Repr())
    {
      state, highest, queue := Follower, None, [];
      current, this.quorum := node, quorum;
    }

    method Observe(bal: Ballot)
      requires Valid()
      modifies this
      ensures Valid() && Model() == ObserveBallot(old(Model()), bal)
      ensures Repr() <= old(Repr())
    {
      highest := Max(Some(bal), highest);
      var ballotLeader := highest.value.node == current;
      var lostLeadership := !state.Follower? && !ballotLeader;
      if lostLeadership {
        state := Follower;
      }
    }

    method StartCandidacy() returns (bal: Ballot)
      requires Valid()
      modifies this
      ensures Valid() && Model() == StartPrepare(old(Model())) && bal == NextBallot(old(Model()))
      ensures fresh(Repr() - old(Repr()))
    {
      bal := if highest.Some? then highest.value.HigherFor(current) else Ballot(0, current);
      highest := Some(bal);
      var promises := new QuorumSet.WithSize(quorum);
      promises.InsertNode(current);
      state := Candidate(bal, promises);
    }

    method Rejected(proposed: Ballot, promised: Ballot)
      requires Valid()
      modifies this
      ensures Valid() && Model() == ReceiveReject(old(Model()), proposed, promised)
      ensures Repr() <= old(Repr())
    {
      if promised.AtMost(proposed) {
        return;
      }
      Observe(promised);
    }

    method Promised(peer: NodeId, proposed: Ballot)
      requires Valid()
      modifies Repr()
      ensures Valid() && Model() == ReceivePromise(old(Model()), peer, proposed)
      ensures Repr() <= old(Repr())
    {
      if !state.Candidate? || state.proposal != proposed {
        return;
      }
      var known := state.promises.ContainsNode(peer);
      if known {
        return;
      }
      state.promises.InsertNode(peer);
      var reached := state.promises.ReachedQuorum();
      if reached {
        state := Leader(proposed);
      }
    }

    method Push(val: Bytes)
      requires Valid()
      modifies this`queue
      ensures Valid() && Model() == old(Model()).(queue := old(queue) + [val])
      ensures Repr() == old(Repr())
    {
      queue := queue + [val];
    }

    method Take() returns (vals: seq<Bytes>)
      requires Valid()
      modifies this`queue
      ensures Valid() && vals == old(queue) && Model() == old(Model()).(queue := [])
      ensures Repr() == old(Repr())
    {
      vals := queue;
      queue := [];
    }
  }
}
