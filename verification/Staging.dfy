// Building concrete runs step by step, and what a node does in its first election and its
// first decision in a cluster of three or four, where two nodes make a quorum.
module Staging {
  import opened Ballots
  import opened Quorums
  import opened Acceptors
  import opened Windows
  import opened Proposers
  import opened NodeSteps
  import opened Execution
  import opened Clusters
  import C = Commands

  // ---------------------------------------------------------------------------
  // Building runs
  // ---------------------------------------------------------------------------

  lemma {:induction false} RunExtends(run: seq<Cluster>, steps: seq<Step>, step: Step)
    requires IsRun(run, steps) && Enabled(run[|steps|], step)
    ensures IsRun(run + [Next(run[|steps|], step)], steps + [step])
  {
    hide Init, Enabled, Next;
    var run', steps' := run + [Next(run[|steps|], step)], steps + [step];
    forall i: nat | i < |steps'| ensures Steps(run', steps', i) {
      if i < |steps| { assert Steps(run, steps, i); }
    }
  }

  /** A run and what is known of the cluster it leads to. */
  datatype Stage = Stage(
    run: seq<Cluster>,
    steps: seq<Step>,
    nodes: map<NodeId, NodeState>,
    sent: set<Packet>,
    picks: set<Pick>,
    votes: set<Vote>,
    counted: set<Packet>)

  /** The run leads to the given nodes, none of which panicked, and to the given history,
      with at least the given packets sent. */
  ghost predicate Reached(g: Stage) {
    && IsRun(g.run, g.steps)
    && var c := g.run[|g.steps|];
       && c.nodes == g.nodes && g.sent <= c.network && c.apps.Keys == g.nodes.Keys
       && (forall n :: n in c.apps ==> !c.apps[n].halted)
       && c.picks == g.picks && c.votes == g.votes && c.counted == g.counted
  }

  lemma {:induction false} Ready(g: Stage, step: Step)
    requires Reached(g) && Actor(step) in g.nodes && (step.Deliver? ==> step.packet in g.sent)
    ensures |g.run| == |g.steps| + 1 && Enabled(g.run[|g.steps|], step) && g.run[|g.steps|].nodes == g.nodes
  {
    hide Init, Next;
  }

  lemma {:induction false} ReachedRun(g: Stage)
    requires Reached(g)
    ensures IsRun(g.run, g.steps) && |g.run| == |g.steps| + 1 && g.run[|g.steps|].nodes == g.nodes
    ensures var c := g.run[|g.steps|]; c.picks == g.picks && c.votes == g.votes && c.counted == g.counted
  {
    hide Init, Next, Steps;
  }

  /** One more step, whose handler sends `out` and leaves `y`. */
  lemma {:induction false} Advance(g: Stage, step: Step, y: NodeState, out: C.Output) returns (h: Stage)
    requires Reached(g) && Actor(step) in g.nodes && (step.Deliver? ==> step.packet in g.sent)
    requires var x := g.nodes[Actor(step)]; var o := Handle(x, InputOf(step));
             o.node == y && o.outs == [out] && C.Sendable(x.peers, out)
    ensures Reached(h) && h.nodes == g.nodes[Actor(step) := y] && g.sent <= h.sent
    ensures forall to :: to in Recipients(g.nodes[Actor(step)].peers, out) ==> Packet(to, out.cmd, y.window.decided) in h.sent
    ensures var o := Handle(g.nodes[Actor(step)], InputOf(step)); h.picks == g.picks + o.picks && h.votes == g.votes + o.votes
    ensures h.counted == if CountsPromise(g.nodes[Actor(step)], step) then g.counted + {step.packet} else g.counted
  {
    hide Init, Handle, IsRun, Packets;
    Ready(g, step);
    var c := g.run[|g.steps|];
    var d := Next(c, step);
    var x := g.nodes[Actor(step)];
    RunExtends(g.run, g.steps, step);
    assert C.Transmitted(x.peers, [out]) == [out];
    var more := Packets(x.peers, [out], y.window.decided);
    h := Stage(g.run + [d], g.steps + [step], d.nodes, g.sent + more, d.picks, d.votes, d.counted);
    assert h.run[|h.steps|] == d;
    forall to | to in Recipients(x.peers, out) ensures Packet(to, out.cmd, y.window.decided) in more {
      Sent(x.peers, out, y.window.decided, to);
    }
  }

  /** One more step, whose handler sends nothing. */
  lemma {:induction false} AdvanceSilently(g: Stage, step: Step, y: NodeState) returns (h: Stage)
    requires Reached(g) && Actor(step) in g.nodes && (step.Deliver? ==> step.packet in g.sent)
    requires var o := Handle(g.nodes[Actor(step)], InputOf(step)); o.node == y && o.outs == []
    ensures Reached(h) && h.nodes == g.nodes[Actor(step) := y] && g.sent <= h.sent
    ensures var o := Handle(g.nodes[Actor(step)], InputOf(step)); h.picks == g.picks + o.picks && h.votes == g.votes + o.votes
    ensures h.counted == if CountsPromise(g.nodes[Actor(step)], step) then g.counted + {step.packet} else g.counted
  {
    hide Init, Handle, IsRun, Packets;
    Ready(g, step);
    var d := Next(g.run[|g.steps|], step);
    RunExtends(g.run, g.steps, step);
    h := Stage(g.run + [d], g.steps + [step], d.nodes, g.sent, d.picks, d.votes, d.counted);
    assert h.run[|h.steps|] == d;
  }

  lemma {:induction false} Sent(peers: set<NodeId>, out: C.Output, log: seq<Pair>, to: NodeId)
    requires to in Recipients(peers, out)
    ensures Packet(to, out.cmd, log) in Packets(peers, [out], log)
  {
    assert out in [out];
  }

  /** The run of no steps. */
  lemma {:induction false} Starts(nodes: map<NodeId, NodeState>) returns (g: Stage)
    requires |nodes| >= 3 && forall n :: n in nodes ==> nodes[n] == NewNode(n, nodes.Keys - {n})
    ensures Reached(g) && g.nodes == nodes && g.picks == {} && g.votes == {} && g.counted == {}
  {
    hide NewNode;
    var c := Cluster(nodes, map n | n in nodes :: INITIAL_APP, {}, {}, {}, {}, {}, map[]);
    forall n | n in c.nodes ensures IsFresh(c, n) {}
    assert Init(c);
    g := Stage([c], [], nodes, {}, {}, {}, {});
  }

  // ---------------------------------------------------------------------------
  // Nodes
  // ---------------------------------------------------------------------------

  function Holding(b: Ballot, v: Bytes): Acc {
    AwaitQuorum(b, b, v, [None])
  }

  /** A fresh node that was asked to propose `v`. */
  function Campaigning(n: NodeId, peers: set<NodeId>, v: Bytes): NodeState {
    NodeState(n, peers, Prop(Candidate(Ballot(0, n), [Some(n), None]), Some(Ballot(0, n)), n, 2, [v]), NewWindow(2))
  }

  function Elected(n: NodeId, peers: set<NodeId>, v: Bytes): NodeState {
    NodeState(n, peers, Prop(Leader(Ballot(0, n)), Some(Ballot(0, n)), n, 2, []),
              Window([Holding(Ballot(0, n), v)], 0, Some(Ballot(0, n)), [], 2))
  }

  /** The leader once its first slot is decided. */
  function Done(n: NodeId, peers: set<NodeId>, v: Bytes): NodeState {
    Elected(n, peers, v).(window := Window([AwaitValue(Some(Ballot(0, n)), 2)], 1, Some(Ballot(0, n)), [Pair(Ballot(0, n), v)], 2))
  }

  /** A follower of `b` with the given acceptors. */
  function Following(n: NodeId, peers: set<NodeId>, b: Ballot, open: seq<Acc>): NodeState {
    NodeState(n, peers, Prop(Follower, Some(b), n, 2, []), Window(open, 0, Some(b), [], 2))
  }

  lemma {:induction false} Campaigns(n: NodeId, peers: set<NodeId>, v: Bytes)
    requires QuorumSize(|peers|) == 2
    ensures var o := Handle(NewNode(n, peers), Receive(C.Proposal(v)));
            o.node == Campaigning(n, peers, v) && o.outs == [C.Broadcast(C.Prepare(Ballot(0, n)))]
  {
    assert Insert(Vacant(2), n) == [Some(n), None];
  }

  lemma {:induction false} Promises(n: NodeId, peers: set<NodeId>, b: Ballot)
    requires QuorumSize(|peers|) == 2
    ensures var o := Handle(NewNode(n, peers), Receive(C.Prepare(b)));
            o.node == Following(n, peers, b, [AwaitValue(Some(b), 2)]) && o.outs == [C.Send(b.node, C.Promise(n, b, []))]
  {
    var w := NewWindow(2);
    var w' := Window([AwaitValue(Some(b), 2)], 0, Some(b), [], 2);
    assert Put(w, 0, AwaitValue(Some(b), 2)) == w';
    assert PrepareSweep(w', b, 1, 1) == PrepareResult(w', None, []);
    assert PrepareSweep(w, b, 0, 1) == PrepareResult(w', None, []);
  }

  lemma {:induction false} IsElected(n: NodeId, peers: set<NodeId>, v: Bytes, q: NodeId)
    requires q != n
    ensures var b := Ballot(0, n); var o := Handle(Campaigning(n, peers, v), Receive(C.Promise(q, b, [])));
            o.node == Elected(n, peers, v) && o.outs == [C.Broadcast(C.Accept(b, [C.Entry(0, v)]))]
  {
    var b := Ballot(0, n);
    var w := NewWindow(2);
    var w' := Elected(n, peers, v).window;
    var promises := [Some(n), None];
    assert SearchFrom(promises, q, 1) == Missing(1) && SearchFrom(promises, q, 0) == Missing(1);
    assert Insert(promises, q) == [Some(n), Some(q)];
    assert ReceivePromise(Campaigning(n, peers, v).prop, q, b) == Prop(Leader(b), Some(b), n, 2, [v]);
    assert Vacant(1) == [None];
    assert NoticeValue(AwaitValue(None, 2), b, v) == Holding(b, v);
    assert Put(w, 0, Holding(b, v)) == w';
    assert [v][1..] == [] && Place(w', b, []) == PlaceResult(w', []);
    assert Place(w, b, [v]).window == w';
    assert Put(w', 0, Holding(b, v)) == w';
    assert Sweep(w', b, 1, 1) == SweepResult(w', []);
    assert Sweep(w', b, 0, 1) == SweepResult(w', [C.Entry(0, v)]);
  }

  /** A follower accepts the leader's value in its first slot, in place of an older one. */
  lemma {:induction false} Votes(n: NodeId, peers: set<NodeId>, d: Ballot, a: Acc, b: Ballot, v: Bytes)
    requires a == AwaitValue(Some(d), 2) || (exists w :: a == Holding(d, w))
    requires (d == b && a.AwaitValue?) || d.Less(b)
    ensures var o := Handle(Following(n, peers, d, [a]), Receive(C.Accept(b, [C.Entry(0, v)])));
            o.node == Following(n, peers, b, [Holding(b, v)]) && o.outs == [C.Send(b.node, C.Accepted(n, b, [0]))]
  {
    var w := Following(n, peers, d, [a]).window;
    var w' := Following(n, peers, b, [Holding(b, v)]).window;
    assert Vacant(1) == [None];
    assert ReceiveAccept(a, b, v).0 == Holding(b, v) && ReceiveAccept(a, b, v).1.Accepted?;
    assert Put(w, 0, Holding(b, v)) == w';
    assert [C.Entry(0, v)][1..] == [];
    assert AcceptLoop(w', n, b, []) == AcceptResult(w', Finished, [], {});
    var r := AcceptLoop(w, n, b, [C.Entry(0, v)]);
    assert r.window == w' && r.end == Finished && r.slots == [0];
  }

  lemma {:induction false} Decides(n: NodeId, peers: set<NodeId>, v: Bytes, q: NodeId)
    ensures var b := Ballot(0, n); var o := Handle(Elected(n, peers, v), Receive(C.Accepted(q, b, [0])));
            o.node == Done(n, peers, v) && o.outs == [C.Broadcast(C.Resolution(b, [C.Entry(0, v)]))]
  {
    var b := Ballot(0, n);
    var w := Elected(n, peers, v).window;
    var w' := Done(n, peers, v).window;
    var a := AcceptorState.Resolved(b, v);
    assert Insert([None], q) == [Some(q)];
    assert ReceiveAccepted(Holding(b, v), q, b) == a;
    ResolvesFirst(w, w', b, v);
    assert [0 as Slot][1..] == [];
    assert AcceptedLoop(w', q, b, []) == AcceptedResult(w', false, []);
    assert AcceptedLoop(w, q, b, [0]) == AcceptedResult(w', false, [C.Entry(0, v)]);
  }

  lemma {:induction false} ResolvesFirst(w: Window, w': Window, b: Ballot, v: Bytes)
    requires w == Window([Holding(b, v)], 0, Some(b), [], 2)
    requires w' == Window([AwaitValue(Some(b), 2)], 1, Some(b), [Pair(b, v)], 2)
    ensures Put(w, 0, AcceptorState.Resolved(b, v)) == w'
  {
    var open := [AcceptorState.Resolved(b, v)];
    assert open[1..] == [];
    assert ResolvedPrefix(open[1..]) == 0 && ResolvedPrefix(open) == 1;
    assert Decisions(open[1..]) == [] && Decisions(open) == [Pair(b, v)];
  }

  // ---------------------------------------------------------------------------
  // An election and a decision
  // ---------------------------------------------------------------------------

  lemma {:induction false} NodesAre()
    ensures forall n, peers :: NewNode(n, peers).peers == peers && NewNode(n, peers).window.decided == []
    ensures forall n, peers, v :: Campaigning(n, peers, v).peers == peers && Campaigning(n, peers, v).window.decided == []
    ensures forall n, peers, v :: Elected(n, peers, v).peers == peers && Elected(n, peers, v).window.decided == []
    ensures forall n, peers, b, open ::
              Following(n, peers, b, open).peers == peers && Following(n, peers, b, open).window.decided == []
  {
  }

  /** Two fresh nodes: `n` is asked to propose `v` and wins with the promise of `q`. */
  lemma {:induction false} Wins(g: Stage, n: NodeId, q: NodeId, ps: set<NodeId>, qs: set<NodeId>, v: Bytes)
    returns (h: Stage)
    requires Reached(g) && n != q && n in g.nodes && q in g.nodes && q in ps && n in qs
    requires QuorumSize(|ps|) == QuorumSize(|qs|) == 2 && g.nodes[n] == NewNode(n, ps) && g.nodes[q] == NewNode(q, qs)
    ensures var b := Ballot(0, n);
            && Reached(h) && Packet(q, C.Accept(b, [C.Entry(0, v)]), []) in h.sent
            && h.nodes == g.nodes[n := Elected(n, ps, v)][q := Following(q, qs, b, [AwaitValue(Some(b), 2)])]
    ensures forall p :: p in h.counted ==> p in g.counted || p.log == []
  {
    hide Reached, Handle, NewNode, Elected, Following, Campaigning, CountsPromise;
    var b := Ballot(0, n);
    NodesAre();
    Campaigns(n, ps, v);
    h := Advance(g, Submit(n, v), Campaigning(n, ps, v), C.Broadcast(C.Prepare(b)));
    NoPromise(g, Submit(n, v));
    Promises(q, qs, b);
    var k := h;
    h := Advance(k, Deliver(Packet(q, C.Prepare(b), [])), Following(q, qs, b, [AwaitValue(Some(b), 2)]),
               C.Send(n, C.Promise(q, b, [])));
    NoPromise(k, Deliver(Packet(q, C.Prepare(b), [])));
    IsElected(n, ps, v, q);
    h := Advance(h, Deliver(Packet(n, C.Promise(q, b, []), [])), Elected(n, ps, v), C.Broadcast(C.Accept(b, [C.Entry(0, v)])));
  }

  lemma {:induction false} NoPromise(g: Stage, step: Step)
    requires Actor(step) in g.nodes && (step.Deliver? ==> !step.packet.cmd.Promise?)
    ensures !CountsPromise(g.nodes[Actor(step)], step)
  {
  }

  /** Leader `n` decides its first slot with the vote of follower `q`. */
  lemma {:induction false} Resolves(g: Stage, n: NodeId, q: NodeId, ps: set<NodeId>, qs: set<NodeId>, v: Bytes,
                                    d: Ballot, a: Acc)
    returns (h: Stage)
    requires Reached(g) && n != q && n in g.nodes && q in g.nodes && q in ps && n in qs
    requires g.nodes[n] == Elected(n, ps, v) && g.nodes[q] == Following(q, qs, d, [a])
    requires a == AwaitValue(Some(d), 2) || (exists w :: a == Holding(d, w))
    requires (d == Ballot(0, n) && a.AwaitValue?) || d.Less(Ballot(0, n))
    requires Packet(q, C.Accept(Ballot(0, n), [C.Entry(0, v)]), []) in g.sent
    ensures Reached(h) && h.counted == g.counted && g.sent <= h.sent
    ensures h.nodes == g.nodes[q := Following(q, qs, Ballot(0, n), [Holding(Ballot(0, n), v)])][n := Done(n, ps, v)]
  {
    hide Reached, Handle, NewNode, Elected, Following, Campaigning, Done, CountsPromise;
    var b := Ballot(0, n);
    NodesAre();
    Votes(q, qs, d, a, b, v);
    var accept := Deliver(Packet(q, C.Accept(b, [C.Entry(0, v)]), []));
    NoPromise(g, accept);
    h := Advance(g, accept, Following(q, qs, b, [Holding(b, v)]), C.Send(n, C.Accepted(q, b, [0])));
    Decides(n, ps, v, q);
    var accepted := Deliver(Packet(n, C.Accepted(q, b, [0]), []));
    NoPromise(h, accepted);
    h := Advance(h, accepted, Done(n, ps, v), C.Broadcast(C.Resolution(b, [C.Entry(0, v)])));
  }
}
