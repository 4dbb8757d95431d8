// The invariant holds in every cluster of every run.
module Runs {
  import opened Ballots
  import opened Quorums
  import opened Acceptors
  import opened Windows
  import opened Proposers
  import opened NodeSteps
  import opened Execution
  import opened Clusters
  import opened Invariants
  import opened Growth
  import opened ProposerSteps
  import opened HandlerSteps
  import opened MessageSteps
  import opened ElectionSteps
  import C = Commands

  // ---------------------------------------------------------------------------
  // The start
  // ---------------------------------------------------------------------------

  /** What a fresh node with at least two peers looks like. */
  lemma {:induction false} FreshNode(n: NodeId, peers: set<NodeId>)
    requires |peers| >= 2
    ensures var x := NewNode(n, peers);
            && x.id == n && x.peers == peers && x.prop.current == n && x.prop.highest == None && x.prop.queue == []
            && x.prop.state == Follower && x.prop.quorum == x.window.quorum == QuorumSize(|peers|)
            && WindowOk(x.window)
            && forall s: Slot :: At(x, s) == AwaitValue(None, x.window.quorum)
  {
    NewWindowOk(QuorumSize(|peers|));
  }

  lemma {:induction false} InitFresh(c: Cluster, n: NodeId)
    requires Init(c) && n in c.nodes
    ensures c.nodes[n] == NewNode(n, c.nodes.Keys - {n}) && |c.nodes.Keys - {n}| == |c.nodes| - 1 >= 2
  {
    hide NewNode;
    assert IsFresh(c, n);
    assert |c.nodes.Keys| == |c.nodes|;
  }

  lemma {:induction false} InitNode(c: Cluster, n: NodeId)
    requires Init(c) && n in c.nodes
    ensures NodeOk(c, n, c.nodes[n])
    ensures forall s: Slot :: SlotOk(c, n, s, At(c.nodes[n], s))
  {
    hide Init, NewNode, WindowOk, View;
    InitFresh(c, n);
    FreshNode(n, c.nodes.Keys - {n});
  }

  lemma {:induction false} InitKeeps(c: Cluster)
    requires Init(c)
    ensures Inv(c)
  {
    hide NewNode, NodeOk, SlotOk, View;
    forall n | n in c.nodes
      ensures NodeOk(c, n, c.nodes[n]) && forall s: Slot :: SlotOk(c, n, s, At(c.nodes[n], s))
    {
      InitNode(c, n);
    }
  }

  // ---------------------------------------------------------------------------
  // One step
  // ---------------------------------------------------------------------------

  /** The cluster after the handler ran, before its messages leave. */
  function Handled(c: Cluster, step: Step): Cluster
    requires Enabled(c, step)
  {
    Next(c, step).(network := c.network, apps := c.apps)
  }

  lemma {:induction false} DeliverKeeps(c: Cluster, p: Packet)
    requires Inv(c) && Enabled(c, Deliver(p))
    ensures var o := Handle(c.nodes[p.dst], Receive(p.cmd)); StepOk(c, p.dst, Handled(c, Deliver(p)), o)
  {
    var n := p.dst;
    var x := c.nodes[n];
    var o := Handle(x, Receive(p.cmd));
    var d := Handled(c, Deliver(p));
    InvPacket(c, p);
    hide Inv, Grows, StepOk, PromiseOk, Chosen, Issued, VotedSome;
    hide OnPromise, OnPrepare, OnAccept, OnAccepted, OnResolution, OnCatchup, OnReject, OnProposal;
    if p.cmd.Promise? {
      PromiseMessage(c, n, p);
      assert d == AfterPromise(c, n, p, o);
    } else {
      match p.cmd {
        case Proposal(v) => ProposalKeeps(c, n, v);
        case Prepare(b) => PrepareMessage(c, n, b);
        case Accept(b, es) => AcceptMessage(c, n, b, es);
        case Reject(_, proposed, promised) => RejectKeeps(c, n, proposed, promised);
        case Accepted(q, b, slots) => AcceptedMessage(c, n, q, b, slots);
        case Resolution(b, es) => ResolutionMessage(c, n, b, es);
        case Catchup(q, slots) => CatchupMessage(c, n, q, slots);
      }
      NoElection(x, p.cmd);
      assert d == Settle(c, n, o);
    }
  }

  /** Only a promise can win an election. */
  lemma {:induction false} NoElection(x: NodeState, cmd: C.Command)
    requires !cmd.Promise?
    ensures !WinsElection(x, Handle(x, Receive(cmd)).node)
  {
  }

  lemma {:induction false} NoElectionAlone(x: NodeState)
    ensures !WinsElection(x, ProposeLeadership(x).node)
  {
  }

  lemma {:induction false} ElectHandled(c: Cluster, n: NodeId)
    requires Inv(c) && Enabled(c, Elect(n))
    ensures var o := Handle(c.nodes[n], TakeLead); StepOk(c, n, Handled(c, Elect(n)), o)
  {
    hide Inv, Grows, StepOk, ProposeLeadership;
    ElectKeeps(c, n);
    NoElectionAlone(c.nodes[n]);
    assert Handled(c, Elect(n)) == Settle(c, n, Handle(c.nodes[n], TakeLead));
  }

  lemma {:induction false} SubmittedKeeps(c: Cluster, v: Bytes)
    requires Inv(c)
    ensures var d := c.(submitted := c.submitted + {v}); Inv(d) && Grows(c, d)
  {
    hide Inv, Grows;
    var d := c.(submitted := c.submitted + {v});
    SubmittedGrows(c, v);
    SubmittedInv(c, v);
  }

  lemma {:induction false} SubmittedGrows(c: Cluster, v: Bytes)
    ensures Grows(c, c.(submitted := c.submitted + {v}))
  {
  }

  lemma {:induction false} SubmittedInv(c: Cluster, v: Bytes)
    requires Inv(c)
    ensures Inv(c.(submitted := c.submitted + {v}))
  {
    hide Inv;
    var d := c.(submitted := c.submitted + {v});
    SubmittedGrows(c, v);
    SubmittedParts(c, d);
  }

  lemma {:induction false} SubmittedParts(c: Cluster, d: Cluster)
    requires Inv(c) && Grows(c, d) && d == c.(submitted := d.submitted)
    ensures Inv(d)
  {
    hide SlotOk, NodeOk, VoteOk, PickOk, CountedOk, CommandOk, Grows, SafetyOk, Chosen, ElectedOk;
    forall n | n in d.nodes ensures NodeOk(d, n, d.nodes[n]) { SubmittedNode(c, d, n); }
    forall n, s: Slot | n in d.nodes
      ensures SlotOk(d, n, s, At(d.nodes[n], s))
    {
      SlotOkStays(c, d, n, s, At(c.nodes[n], s));
    }
    forall vt | vt in d.votes ensures VoteOk(d, vt) { VoteOkStays(c, d, vt); }
    forall k | k in d.picks ensures PickOk(d, k) { PickOkStays(c, d, k); }
    forall p | p in d.counted ensures CountedOk(d, p) { SubmittedCount(c, d, p); }
    forall b | b in d.elected ensures ElectedOk(d, b) { ElectionStays(c, d, b); }
    NetworkStays(c, d);
    SafetyStays(c, d);
  }

  lemma {:induction false} SubmittedNode(c: Cluster, d: Cluster, n: NodeId)
    requires n in c.nodes && Grows(c, d) && d == c.(submitted := d.submitted) && NodeOk(c, n, c.nodes[n])
    ensures NodeOk(d, n, d.nodes[n])
  {
    hide WindowOk;
    var x := c.nodes[n];
    if x.prop.highest.Some? { IssuedStays(c, d, x.prop.highest.value); }
    assert forall q :: Promisers(d, q) == Promisers(c, q);
    NodeRestStays(c, d, n);
  }

  lemma {:induction false} SubmittedCount(c: Cluster, d: Cluster, p: Packet)
    requires Inv(c) && Grows(c, d) && p in c.counted
    ensures CountedOk(d, p)
  {
    hide Grows, SafetyOk, NodeOk, SlotOk;
    assert CountedOk(c, p);
    InvPacket(c, p);
    CountedOkStays(c, d, p);
  }

  lemma {:induction false} ElectionStays(c: Cluster, d: Cluster, b: Ballot)
    requires Grows(c, d) && d.counted == c.counted && ElectedOk(c, b)
    ensures ElectedOk(d, b)
  {
    hide Grows, Issued;
    IssuedStays(c, d, b);
    SameNodes(c, d);
    assert Promisers(d, b) == Promisers(c, b);
  }

  lemma {:induction false} SameNodes(c: Cluster, d: Cluster)
    requires Grows(c, d)
    ensures c.nodes.Keys == d.nodes.Keys
  {
  }

  lemma {:induction false} SubmitHandled(c: Cluster, n: NodeId, v: Bytes)
    requires Inv(c) && Enabled(c, Submit(n, v))
    ensures var d := Handled(c, Submit(n, v)); var o := Handle(c.nodes[n], Receive(C.Proposal(v)));
            && Inv(d) && Grows(c, d) && d.nodes[n] == o.node && d.network == c.network
            && (forall x :: x in o.outs ==> OutputOk(d, n, x, o.node.window.decided))
  {
    hide Inv, Grows, OnProposal, OutputOk;
    var c' := c.(submitted := c.submitted + {v});
    SubmittedKeeps(c, v);
    ProposalKeeps(c', n, v);
    NoElection(c.nodes[n], C.Proposal(v));
    var o := OnProposal(c.nodes[n], v);
    assert Handled(c, Submit(n, v)) == Settle(c', n, o);
    GrowsTransitive(c, c', Settle(c', n, o));
  }

  lemma {:induction false} HandledKeeps(c: Cluster, step: Step)
    requires Inv(c) && Enabled(c, step)
    ensures var d := Handled(c, step); var n := Actor(step); var o := Handle(c.nodes[n], InputOf(step));
            && Inv(d) && Grows(c, d) && d.nodes[n] == o.node && d.network == c.network
            && (forall x :: x in o.outs ==> OutputOk(d, n, x, o.node.window.decided))
  {
    hide Inv, Grows, OutputOk, Handled, Handle;
    match step
    case Deliver(p) => DeliverKeeps(c, p);
    case Submit(n, v) => SubmitInput(c, n, v);
    case Elect(n) => ElectHandled(c, n);
  }

  lemma {:induction false} SubmitInput(c: Cluster, n: NodeId, v: Bytes)
    requires Inv(c) && Enabled(c, Submit(n, v))
    ensures var d := Handled(c, Submit(n, v)); var o := Handle(c.nodes[n], InputOf(Submit(n, v)));
            && Inv(d) && Grows(c, d) && d.nodes[n] == o.node && d.network == c.network
            && (forall x :: x in o.outs ==> OutputOk(d, n, x, o.node.window.decided))
  {
    hide Inv, Grows, OutputOk, Handled, OnProposal;
    SubmitHandled(c, n, v);
  }

  // ---------------------------------------------------------------------------
  // Sending
  // ---------------------------------------------------------------------------

  lemma {:induction false} SendGrows(c: Cluster, packets: set<Packet>, apps: map<NodeId, App>)
    ensures Grows(c, c.(network := c.network + packets, apps := apps))
  {
  }

  lemma {:induction false} SendKeeps(c: Cluster, packets: set<Packet>, apps: map<NodeId, App>)
    requires Inv(c)
    requires forall p :: p in packets ==> p.dst in c.nodes && CommandOk(c, p.dst, p.cmd, p.log)
    ensures Inv(c.(network := c.network + packets, apps := apps))
  {
    hide SlotOk, NodeOk, VoteOk, PickOk, CommandOk, Grows, SafetyOk, Chosen, ElectedOk, CountedOk;
    var d := c.(network := c.network + packets, apps := apps);
    SendGrows(c, packets, apps);
    forall n | n in d.nodes ensures NodeOk(d, n, d.nodes[n]) { SentNode(c, d, n); }
    forall n, s: Slot | n in d.nodes
      ensures SlotOk(d, n, s, At(d.nodes[n], s))
    {
      SlotOkStays(c, d, n, s, At(c.nodes[n], s));
    }
    forall vt | vt in d.votes ensures VoteOk(d, vt) { VoteOkStays(c, d, vt); }
    forall k | k in d.picks ensures PickOk(d, k) { PickOkStays(c, d, k); }
    forall p | p in d.counted ensures CountedOk(d, p) { SubmittedCount(c, d, p); }
    forall b | b in d.elected ensures ElectedOk(d, b) { ElectionStays(c, d, b); }
    forall p | p in d.network
      ensures p.dst in d.nodes && CommandOk(d, p.dst, p.cmd, p.log)
    {
      CommandOkStays(c, d, p.dst, p.cmd, p.log);
    }
    SafetyStays(c, d);
  }

  lemma {:induction false} SentNode(c: Cluster, d: Cluster, n: NodeId)
    requires n in c.nodes && Grows(c, d) && d == c.(network := d.network, apps := d.apps) && NodeOk(c, n, c.nodes[n])
    ensures NodeOk(d, n, d.nodes[n])
  {
    hide WindowOk;
    var x := c.nodes[n];
    if x.prop.highest.Some? { IssuedStays(c, d, x.prop.highest.value); }
    assert forall q :: Promisers(d, q) == Promisers(c, q);
    NodeRestStays(c, d, n);
  }

  lemma {:induction false} PacketsOk(d: Cluster, n: NodeId, peers: set<NodeId>, outs: seq<C.Output>, log: seq<Pair>)
    requires peers == d.nodes.Keys - {n}
    requires forall x :: x in outs ==> OutputOk(d, n, x, log)
    ensures forall p :: p in Packets(peers, C.Transmitted(peers, outs), log) ==>
              p.dst in d.nodes && CommandOk(d, p.dst, p.cmd, p.log)
  {
    hide CommandOk;
    C.TransmittedAll(peers, outs);
    forall p | p in Packets(peers, C.Transmitted(peers, outs), log)
      ensures p.dst in d.nodes && CommandOk(d, p.dst, p.cmd, p.log)
    {
      var o, t :| o in C.Transmitted(peers, outs) && t in Recipients(peers, o) && p == Packet(t, o.cmd, log);
      assert C.Sendable(peers, o);
      assert OutputOk(d, n, o, log);
    }
  }

  /** Every step of a cluster keeps the invariant, and everything only grows. */
  lemma {:induction false} StepKeeps(c: Cluster, step: Step)
    requires Inv(c) && Enabled(c, step)
    ensures Inv(Next(c, step)) && Grows(c, Next(c, step))
  {
    hide Inv, Grows, OutputOk, Handle, CommandOk;
    var n := Actor(step);
    var o := Handle(c.nodes[n], InputOf(step));
    var d := Handled(c, step);
    var peers := c.nodes[n].peers;
    var packets := Packets(peers, C.Transmitted(peers, o.outs), o.node.window.decided);
    HandledKeeps(c, step);
    ActorPeers(c, d, n);
    PacketsOk(d, n, peers, o.outs, o.node.window.decided);
    SendKeeps(d, packets, Next(c, step).apps);
    SendGrows(d, packets, Next(c, step).apps);
    assert Next(c, step) == d.(network := d.network + packets, apps := Next(c, step).apps);
    GrowsTransitive(c, d, Next(c, step));
  }

  lemma {:induction false} ActorPeers(c: Cluster, d: Cluster, n: NodeId)
    requires Inv(c) && n in c.nodes && Grows(c, d)
    ensures c.nodes[n].peers == d.nodes.Keys - {n}
  {
    InvNode(c, n);
  }

  // ---------------------------------------------------------------------------
  // Runs
  // ---------------------------------------------------------------------------

  lemma {:induction false} RunStep(run: seq<Cluster>, steps: seq<Step>, i: nat)
    requires IsRun(run, steps) && i < |steps|
    ensures Enabled(run[i], steps[i]) && run[i + 1] == Next(run[i], steps[i])
  {
    hide Init, Enabled, Next;
    assert Steps(run, steps, i);
  }

  lemma {:induction false} RunStarts(run: seq<Cluster>, steps: seq<Step>)
    requires IsRun(run, steps)
    ensures |run| == |steps| + 1 && Init(run[0])
  {
    hide Init, Enabled, Next;
  }

  /** The invariant holds in every cluster of a run. */
  lemma {:induction false} RunKeeps(run: seq<Cluster>, steps: seq<Step>, i: nat)
    requires IsRun(run, steps) && i < |run|
    ensures Inv(run[i])
  {
    hide Inv, Next, Enabled, Init, IsRun, Grows;
    RunStarts(run, steps);
    if i == 0 {
      InitKeeps(run[0]);
    } else {
      RunKeeps(run, steps, i - 1);
      RunStep(run, steps, i - 1);
      StepKeeps(run[i - 1], steps[i - 1]);
    }
  }

  /** A later cluster of a run has grown from an earlier one. */
  lemma {:induction false} RunGrows(run: seq<Cluster>, steps: seq<Step>, i: nat, j: nat)
    requires IsRun(run, steps) && i <= j < |run|
    ensures Grows(run[i], run[j])
    decreases j - i
  {
    hide Inv, Next, Enabled, Init, IsRun, Grows;
    RunStarts(run, steps);
    if i == j {
      GrowsReflexive(run[i]);
    } else {
      RunGrows(run, steps, i, j - 1);
      RunKeeps(run, steps, j - 1);
      RunStep(run, steps, j - 1);
      StepKeeps(run[j - 1], steps[j - 1]);
      GrowsTransitive(run[i], run[j - 1], run[j]);
    }
  }
}
