// Changes of one node's proposer, and what they keep of the invariant.
module ProposerSteps {
  import opened Ballots
  import opened Quorums
  import opened Acceptors
  import opened Proposers
  import opened NodeSteps
  import opened Clusters
  import opened Invariants
  import opened Growth
  import opened SlotSteps

  function WithProp(c: Cluster, n: NodeId, p: Prop): Cluster
    requires n in c.nodes
  {
    c.(nodes := c.nodes[n := c.nodes[n].(prop := p)])
  }

  /** The proposer of `n` becomes `p`, and promises and elections are recorded. */
  function Reprop(c: Cluster, n: NodeId, p: Prop, counted: set<Packet>, elected: map<Ballot, Slot>): Cluster
    requires n in c.nodes
  {
    WithProp(c, n, p).(counted := counted, elected := elected)
  }

  lemma {:induction false} SameViewGrows(x: NodeState, p: Prop)
    requires Precedes(x.prop.highest, p.highest)
    ensures NodeGrows(x, x.(prop := p))
  {
  }

  lemma {:induction false} RepropGrows(c: Cluster, n: NodeId, p: Prop, counted: set<Packet>, elected: map<Ballot, Slot>)
    requires n in c.nodes && Precedes(c.nodes[n].prop.highest, p.highest)
    requires c.counted <= counted && forall b :: b in c.elected ==> b in elected && elected[b] == c.elected[b]
    ensures Grows(c, Reprop(c, n, p, counted, elected))
  {
    SameViewGrows(c.nodes[n], p);
  }

  /** Nobody but `n` is a candidate whose counted promises or election would change. */
  ghost predicate OthersUntouched(c: Cluster, n: NodeId, d: Cluster) {
    forall m :: m in c.nodes && m in d.nodes && m != n && c.nodes[m].prop.state.Candidate? ==>
      var p := c.nodes[m].prop.state.proposal;
      Promisers(d, p) == Promisers(c, p) && p !in d.elected
  }

  lemma {:induction false} RepropNodes(c: Cluster, n: NodeId, d: Cluster)
    requires NodesOk(c) && Grows(c, d) && n in c.nodes && NodeOk(d, n, d.nodes[n]) && OthersUntouched(c, n, d)
    requires forall m :: m in c.nodes && m != n ==> d.nodes[m] == c.nodes[m]
    ensures NodesOk(d)
  {
    assert |c.nodes.Keys| == |d.nodes.Keys|;
    forall m | m in d.nodes
      ensures NodeOk(d, m, d.nodes[m])
    {
      if m != n { OtherNodeStays(c, d, m); }
    }
  }

  lemma {:induction false} RepropSlots(c: Cluster, d: Cluster)
    requires SlotsOk(c) && Grows(c, d)
    requires forall m :: m in c.nodes ==> d.nodes[m].window == c.nodes[m].window
    ensures SlotsOk(d)
  {
    forall m, t: Slot | m in d.nodes
      ensures SlotOk(d, m, t, At(d.nodes[m], t))
    {
      SlotOkStays(c, d, m, t, At(c.nodes[m], t));
    }
  }

  lemma {:induction false} RepropHistory(c: Cluster, d: Cluster)
    requires HistoryOk(c) && NetworkOk(c) && Grows(c, d)
    requires d.votes == c.votes && d.picks == c.picks
    requires forall p :: p in d.counted && p !in c.counted ==> CountedOk(d, p) && p.cmd.node in d.nodes
    requires forall b :: b in d.elected && b !in c.elected ==> ElectedOk(d, b)
    ensures HistoryOk(d)
  {
    forall vt | vt in d.votes ensures VoteOk(d, vt) { VoteOkStays(c, d, vt); }
    forall k | k in d.picks ensures PickOk(d, k) { PickOkStays(c, d, k); }
    forall p | p in d.counted
      ensures CountedOk(d, p) && p.cmd.node in d.nodes
    {
      if p in c.counted {
        CountedOkStays(c, d, p);
        assert CommandOk(c, p.dst, p.cmd, p.log);
      }
    }
    forall b | b in d.elected
      ensures ElectedOk(d, b)
    {
      if b in c.elected { ElectedOkStays(c, d, b); }
    }
  }

  /** A change of one proposer keeps the invariant if the proposer is in order and what
      is newly counted or elected is too. */
  lemma {:induction false} ChangeKeeps(c: Cluster, n: NodeId, d: Cluster)
    requires Inv(c) && Grows(c, d) && n in c.nodes
    requires d.votes == c.votes && d.picks == c.picks && d.network == c.network
    requires forall m :: m in c.nodes ==> d.nodes[m].window == c.nodes[m].window && (m != n ==> d.nodes[m] == c.nodes[m])
    requires NodeOk(d, n, d.nodes[n]) && OthersUntouched(c, n, d)
    requires forall k :: k in d.counted && k !in c.counted ==> CountedOk(d, k) && k.cmd.node in d.nodes
    requires forall b :: b in d.elected && b !in c.elected ==> ElectedOk(d, b)
    ensures Inv(d)
  {
    RepropNodes(c, n, d);
    RepropSlots(c, d);
    RepropHistory(c, d);
    NetworkStays(c, d);
    SafetyStays(c, d);
  }

  // ---------------------------------------------------------------------------
  // The single changes
  // ---------------------------------------------------------------------------

  lemma {:induction false} OthersStay(c: Cluster, n: NodeId, d: Cluster)
    requires NodesOk(c) && d.counted == c.counted && d.elected == c.elected
    ensures OthersUntouched(c, n, d)
  {
    forall m | m in c.nodes && m in d.nodes && m != n && c.nodes[m].prop.state.Candidate?
      ensures Promisers(d, c.nodes[m].prop.state.proposal) == Promisers(c, c.nodes[m].prop.state.proposal)
           && c.nodes[m].prop.state.proposal !in d.elected
    {
      assert NodeOk(c, m, c.nodes[m]);
    }
  }

  /** Everything about a well-formed node but its proposer survives growth. */
  lemma {:induction false} NodeRestStays(c: Cluster, d: Cluster, n: NodeId)
    requires n in c.nodes && Grows(c, d) && NodeOk(c, n, c.nodes[n]) && d.nodes[n].window == c.nodes[n].window
    requires d.nodes[n].prop.current == n && d.nodes[n].prop.quorum == c.nodes[n].prop.quorum
    requires ProposerOk(d, n, d.nodes[n]) && IssuedIfAny(d, d.nodes[n].prop.highest)
    requires forall v :: v in d.nodes[n].prop.queue ==> v in d.submitted
    ensures NodeOk(d, n, d.nodes[n])
  {
    var x := c.nodes[n];
    assert |c.nodes.Keys| == |d.nodes.Keys|;
    assert NodeGrows(x, d.nodes[n]);
    forall t: Slot
      ensures IssuedIfAny(d, Promise(At(d.nodes[n], t)))
    {
      assert IssuedIfAny(c, Promise(At(x, t)));
      if Promise(At(x, t)).Some? { IssuedStays(c, d, Promise(At(x, t)).value); }
    }
  }

  lemma {:induction false} ObserveNode(c: Cluster, n: NodeId, b: Ballot, d: Cluster)
    requires n in c.nodes && NodeOk(c, n, c.nodes[n]) && Issued(c, b) && Grows(c, d)
    requires d == WithProp(c, n, ObserveBallot(c.nodes[n].prop, b))
    ensures NodeOk(d, n, d.nodes[n])
  {
    var x := c.nodes[n];
    IssuedStays(c, d, b);
    if x.prop.highest.Some? { IssuedStays(c, d, x.prop.highest.value); }
    assert forall q :: Promisers(d, q) == Promisers(c, q);
    assert ProposerOk(d, n, d.nodes[n]);
    NodeRestStays(c, d, n);
  }

  lemma {:induction false} RepropSame(c: Cluster, n: NodeId, p: Prop)
    requires n in c.nodes
    ensures Reprop(c, n, p, c.counted, c.elected) == WithProp(c, n, p)
  {
  }

  /** Observing a ballot in circulation: a candidate or leader that is overtaken turns
      follower, and a follower never gets to see a ballot of its own. */
  lemma {:induction false} ObserveKeeps(c: Cluster, n: NodeId, b: Ballot)
    requires Inv(c) && n in c.nodes && Issued(c, b)
    ensures var d := WithProp(c, n, ObserveBallot(c.nodes[n].prop, b)); Inv(d) && Grows(c, d)
    ensures Precedes(Some(b), ObserveBallot(c.nodes[n].prop, b).highest)
  {
    hide NodeOk, Grows, OthersUntouched, Issued, NodesOk;
    var p := ObserveBallot(c.nodes[n].prop, b);
    var d := WithProp(c, n, p);
    RepropSame(c, n, p);
    InvNode(c, n);
    RepropGrows(c, n, p, c.counted, c.elected);
    ObserveNode(c, n, b, d);
    OthersStay(c, n, d);
    ChangeKeeps(c, n, d);
  }

  lemma {:induction false} QueueNode(c: Cluster, n: NodeId, queue: seq<Bytes>, d: Cluster)
    requires n in c.nodes && NodeOk(c, n, c.nodes[n]) && Grows(c, d)
    requires d == WithProp(c, n, c.nodes[n].prop.(queue := queue)) && forall v :: v in queue ==> v in c.submitted
    ensures NodeOk(d, n, d.nodes[n])
  {
    var x := c.nodes[n];
    if x.prop.highest.Some? { IssuedStays(c, d, x.prop.highest.value); }
    assert forall q :: Promisers(d, q) == Promisers(c, q);
    NodeRestStays(c, d, n);
  }

  lemma {:induction false} QueueKeeps(c: Cluster, n: NodeId, queue: seq<Bytes>)
    requires Inv(c) && n in c.nodes && forall v :: v in queue ==> v in c.submitted
    ensures var d := WithProp(c, n, c.nodes[n].prop.(queue := queue)); Inv(d) && Grows(c, d)
  {
    hide NodeOk, Grows, OthersUntouched, NodesOk;
    var p := c.nodes[n].prop.(queue := queue);
    var d := WithProp(c, n, p);
    RepropSame(c, n, p);
    InvNode(c, n);
    RepropGrows(c, n, p, c.counted, c.elected);
    QueueNode(c, n, queue, d);
    OthersStay(c, n, d);
    ChangeKeeps(c, n, d);
  }

  /** A ballot that its owner never reached has no history. */
  lemma {:induction false} FreshBallot(c: Cluster, b: Ballot)
    requires Inv(c) && !Issued(c, b)
    ensures b !in c.elected && Promisers(c, b) == {b.node}
  {
    assert forall e :: e in c.elected ==> ElectedOk(c, e);
    forall p | p in c.counted
      ensures p.cmd.Promise? && Issued(c, p.cmd.bal)
    {
      assert CountedOk(c, p);
      assert CommandOk(c, p.dst, p.cmd, p.log);
    }
  }

  lemma {:induction false} NextBallotRises(p: Prop)
    ensures NextBallot(p).node == p.current && Precedes(p.highest, Some(NextBallot(p)))
    ensures p.highest != Some(NextBallot(p))
  {
  }

  lemma {:induction false} FirstPromise(size: nat, n: NodeId)
    requires size > 1
    ensures var es := Insert(Vacant(size), n);
            |es| == size && Packed(es) && !HasQuorum(es) && Members(es) == {n}
  {
    InsertMeaning(Vacant(size), n);
    assert Members(Vacant(size)) == {};
    PackedCount(Insert(Vacant(size), n));
  }

  lemma {:induction false} CandidacyNode(c: Cluster, n: NodeId, d: Cluster)
    requires n in c.nodes && NodeOk(c, n, c.nodes[n])
    requires d == Reprop(c, n, StartPrepare(c.nodes[n].prop), c.counted, c.elected) && Grows(c, d)
    requires var b := NextBallot(c.nodes[n].prop); b !in c.elected && Promisers(c, b) == {n}
    ensures NodeOk(d, n, d.nodes[n])
  {
    var x := c.nodes[n];
    var b := NextBallot(x.prop);
    FirstPromise(x.prop.quorum, n);
    assert Promisers(d, b) == Promisers(c, b);
    NodeRestStays(c, d, n);
  }

  lemma {:induction false} NextBallotIsFresh(c: Cluster, n: NodeId)
    requires Inv(c) && n in c.nodes
    ensures var x := c.nodes[n]; var b := NextBallot(x.prop);
            && NodeOk(c, n, x) && b.node == n && Precedes(x.prop.highest, Some(b))
            && b !in c.elected && Promisers(c, b) == {n}
  {
    assert NodeOk(c, n, c.nodes[n]);
    NextBallotRises(c.nodes[n].prop);
    FreshBallot(c, NextBallot(c.nodes[n].prop));
  }

  /** Starting a candidacy issues a ballot above every ballot of the node in circulation. */
  lemma {:induction false} CandidacyKeeps(c: Cluster, n: NodeId)
    requires Inv(c) && n in c.nodes
    ensures var d := WithProp(c, n, StartPrepare(c.nodes[n].prop));
            Inv(d) && Grows(c, d) && Issued(d, NextBallot(c.nodes[n].prop)) && NextBallot(c.nodes[n].prop).node == n
  {
    hide NodeOk, Grows, OthersUntouched, NodesOk;
    var p := StartPrepare(c.nodes[n].prop);
    var d := WithProp(c, n, p);
    RepropSame(c, n, p);
    NextBallotIsFresh(c, n);
    RepropGrows(c, n, p, c.counted, c.elected);
    CandidacyNode(c, n, d);
    OthersStay(c, n, d);
    ChangeKeeps(c, n, d);
  }
}
