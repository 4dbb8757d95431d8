// Each handler keeps the invariant, and what it sends is in order.
module HandlerSteps {
  import opened Ballots
  import opened Acceptors
  import opened Windows
  import opened Proposers
  import opened NodeSteps
  import opened Clusters
  import opened Invariants
  import opened Growth
  import opened ProposerSteps
  import opened LeadSteps
  import C = Commands

  /** The cluster after node `n` stepped to outcome `o`, before its messages leave. */
  function Settle(c: Cluster, n: NodeId, o: Outcome): Cluster {
    c.(nodes := c.nodes[n := o.node], picks := c.picks + o.picks, votes := c.votes + o.votes)
  }

  ghost predicate OutputOk(d: Cluster, n: NodeId, o: C.Output, log: seq<Pair>) {
    forall dst :: dst in d.nodes && dst != n && (o.Send? ==> dst == o.to) ==> CommandOk(d, dst, o.cmd, log)
  }

  /** The step of `n` is in order: the invariant holds after it, everything only grew,
      and every message it sends may be sent. */
  ghost predicate StepOk(c: Cluster, n: NodeId, d: Cluster, o: Outcome) {
    && Inv(d) && Grows(c, d) && n in c.nodes && n in d.nodes && d.nodes[n] == o.node
    && d.network == c.network && d.submitted == c.submitted
    && (forall x :: x in o.outs ==> OutputOk(d, n, x, o.node.window.decided))
  }

  lemma {:induction false} OnlySettles(c: Cluster, n: NodeId, x: NodeState, outs: seq<C.Output>)
    requires n in c.nodes
    ensures Settle(c, n, Only(x, outs)) == c.(nodes := c.nodes[n := x])
  {
    assert c.picks + {} == c.picks && c.votes + {} == c.votes;
  }

  lemma {:induction false} NodeFacts(c: Cluster, n: NodeId)
    requires Inv(c) && n in c.nodes
    ensures var x := c.nodes[n];
            && x.id == n && x.peers == c.nodes.Keys - {n} && WindowOk(x.window)
            && IssuedIfAny(c, x.prop.highest) && ProposerOk(c, n, x)
            && (forall v :: v in x.prop.queue ==> v in c.submitted)
  {
    InvNode(c, n);
  }

  lemma {:induction false} Unchanged(c: Cluster, n: NodeId)
    requires Inv(c) && n in c.nodes
    ensures StepOk(c, n, Settle(c, n, Only(c.nodes[n], [])), Only(c.nodes[n], []))
  {
    hide Inv;
    OnlySettles(c, n, c.nodes[n], []);
    assert c.(nodes := c.nodes[n := c.nodes[n]]) == c;
    GrowsReflexive(c);
  }

  // ---------------------------------------------------------------------------
  // propose_leadership and PROPOSAL
  // ---------------------------------------------------------------------------

  lemma {:induction false} ElectKeeps(c: Cluster, n: NodeId)
    requires Inv(c) && n in c.nodes
    ensures var o := ProposeLeadership(c.nodes[n]); StepOk(c, n, Settle(c, n, o), o)
  {
    hide Inv, Grows, WindowOk, Issued;
    var x := c.nodes[n];
    var o := ProposeLeadership(x);
    NodeFacts(c, n);
    OnlySettles(c, n, o.node, o.outs);
    if x.prop.state.Follower? {
      CandidacyKeeps(c, n);
    } else {
      assert c.(nodes := c.nodes[n := x]) == c;
      GrowsReflexive(c);
    }
  }

  lemma {:induction false} StepOkAfter(b: Cluster, c: Cluster, n: NodeId, d: Cluster, o: Outcome)
    requires Grows(b, c) && StepOk(c, n, d, o) && n in b.nodes && b.network == c.network && b.submitted == c.submitted
    ensures StepOk(b, n, d, o)
  {
    hide Inv, Grows, OutputOk;
    GrowsTransitive(b, c, d);
  }

  lemma {:induction false} EnqueueKeeps(c: Cluster, n: NodeId, v: Bytes)
    requires Inv(c) && n in c.nodes && v in c.submitted
    ensures var d := c.(nodes := c.nodes[n := Enqueue(c.nodes[n], v)]); Inv(d) && Grows(c, d)
  {
    hide Inv, Grows, WindowOk, Issued, ProposerOk;
    NodeFacts(c, n);
    QueueKeeps(c, n, c.nodes[n].prop.queue + [v]);
  }

  /** A leader that places one value. */
  lemma {:induction false} PlaceStep(c: Cluster, n: NodeId, b: Ballot, v: Bytes)
    requires Inv(c) && n in c.nodes && c.nodes[n].prop.state == Leader(b) && v in c.submitted
    ensures var o := OnProposal(c.nodes[n], v); StepOk(c, n, Settle(c, n, o), o)
  {
    hide Inv, Grows, WindowOk, Issued, Owned, NextSlot, Put, View, ProposerOk;
    var x := c.nodes[n];
    var o := OnProposal(x, v);
    LeaderFacts(c, n, b);
    NodeFacts(c, n);
    var e := PlaceKeeps(c, n, b, [v]);
    var r := Place(x.window, b, [v]);
    assert r.placed == [Pick(b, NextSlot(x.window), v)];
    LedVotes(c, n, b, PlacedPicks(r.placed), e);
    assert e == Settle(c, n, o);
    IssuedStays(c, e, b);
  }

  lemma {:induction false} ProposalKeeps(c: Cluster, n: NodeId, v: Bytes)
    requires Inv(c) && n in c.nodes && v in c.submitted
    ensures var o := OnProposal(c.nodes[n], v); StepOk(c, n, Settle(c, n, o), o)
  {
    hide Inv, Grows, WindowOk, Issued, ProposerOk;
    var x := c.nodes[n];
    var o := OnProposal(x, v);
    match x.prop.state {
      case Follower =>
        OnlySettles(c, n, o.node, o.outs);
        if x.prop.highest.None? {
          var d := c.(nodes := c.nodes[n := Enqueue(x, v)]);
          EnqueueKeeps(c, n, v);
          ElectKeeps(d, n);
          OnlySettles(d, n, o.node, o.outs);
          StepOkAfter(c, d, n, Settle(d, n, o), o);
          assert Settle(d, n, o) == Settle(c, n, o);
        } else {
          assert c.(nodes := c.nodes[n := x]) == c;
          GrowsReflexive(c);
        }
      case Candidate(_, _) =>
        OnlySettles(c, n, o.node, o.outs);
        EnqueueKeeps(c, n, v);
      case Leader(b) =>
        PlaceStep(c, n, b, v);
    }
  }

  // ---------------------------------------------------------------------------
  // REJECT
  // ---------------------------------------------------------------------------

  lemma {:induction false} ForwardKeeps(c: Cluster, n: NodeId)
    requires Inv(c) && n in c.nodes
    ensures var o := Forward(c.nodes[n]); StepOk(c, n, Settle(c, n, o), o)
  {
    hide Inv, Grows, WindowOk, Issued, ProposerOk;
    var x := c.nodes[n];
    var o := Forward(x);
    NodeFacts(c, n);
    OnlySettles(c, n, o.node, o.outs);
    if x.prop.state.Follower? && x.prop.queue != [] {
      QueueKeeps(c, n, []);
      var d := Settle(c, n, o);
      forall y | y in o.outs
        ensures OutputOk(d, n, y, o.node.window.decided)
      {
      }
    } else {
      assert c.(nodes := c.nodes[n := x]) == c;
      GrowsReflexive(c);
    }
  }

  lemma {:induction false} RejectKeeps(c: Cluster, n: NodeId, proposed: Ballot, promised: Ballot)
    requires Inv(c) && n in c.nodes && Issued(c, promised)
    ensures var o := OnReject(c.nodes[n], proposed, promised); StepOk(c, n, Settle(c, n, o), o)
  {
    hide Inv, Grows, Issued, Forward, StepOk;
    var x := c.nodes[n];
    var o := OnReject(x, proposed, promised);
    if promised.AtMost(proposed) {
      assert x.(prop := x.prop) == x;
      ForwardKeeps(c, n);
    } else {
      ObserveKeeps(c, n, promised);
      var d := WithProp(c, n, ObserveBallot(x.prop, promised));
      ForwardKeeps(d, n);
      StepOkAfter(c, d, n, Settle(d, n, o), o);
      assert Settle(d, n, o) == Settle(c, n, o);
    }
  }
}
