// Concrete runs: replicas of three nodes that disagree because a promise left out a decided
// slot, replicas of four nodes that disagree because two quorums do not meet, and a replica
// that panics while catching up.
module Scenarios {
  import opened Ballots
  import opened Quorums
  import opened Acceptors
  import opened Windows
  import opened NodeSteps
  import opened Clusters
  import opened Staging
  import opened Theorems
  import C = Commands

  const X: Bytes := [1]
  const Y: Bytes := [2]
  const B0 := Ballot(0, 0)
  const B2 := Ballot(0, 2)

  /** Three fresh nodes. */
  function Trio(): map<NodeId, NodeState> {
    map[0 := NewNode(0, {1, 2}), 1 := NewNode(1, {0, 2}), 2 := NewNode(2, {0, 1})]
  }

  lemma {:induction false} TrioStarts() returns (g: Stage)
    ensures Reached(g) && g.nodes == Trio() && g.picks == {} && g.votes == {} && g.counted == {}
    ensures QuorumSize(|{1 as NodeId, 2}|) == QuorumSize(|{0 as NodeId, 2}|) == QuorumSize(|{0 as NodeId, 1}|) == 2
  {
    hide NewNode, Reached;
    assert Trio().Keys == {0, 1, 2} && |Trio().Keys| == |Trio()|;
    assert {0, 1, 2} - {0} == {1, 2} && {0, 1, 2} - {1} == {0, 2} && {0, 1, 2} - {2} == {0, 1};
    g := Starts(Trio());
  }

  // ---------------------------------------------------------------------------
  // Disagreement without promise coverage
  // ---------------------------------------------------------------------------

  /** The former leader promises a higher ballot; its log is left out of the report. */
  lemma {:induction false} PromisesOpenOnly(n: NodeId, peers: set<NodeId>, v: Bytes, b: Ballot)
    requires Ballot(0, n).Less(b) && b.node != n
    ensures var o := Handle(Done(n, peers, v), Receive(C.Prepare(b)));
            && o.node.window.decided == [Pair(Ballot(0, n), v)] && o.node.id == n && o.node.peers == peers
            && o.outs == [C.Send(b.node, C.Promise(n, b, []))]
  {
    var w := Done(n, peers, v).window;
    var w' := Window([AwaitValue(Some(b), 2)], 1, Some(b), [Pair(Ballot(0, n), v)], 2);
    assert Put(w, 1, AwaitValue(Some(b), 2)) == w';
    assert PrepareSweep(w', b, 2, 2) == PrepareResult(w', None, []);
    assert PrepareSweep(w, b, 1, 2) == PrepareResult(w', None, []);
  }

  /** Node 0 decides X with node 1; then node 2 is elected by node 0, whose promise leaves
      the decided slot out. */
  lemma {:induction false} SecondElection() returns (g: Stage, n0: NodeState)
    ensures Reached(g) && n0.window.decided == [Pair(B0, X)] && Packet(1, C.Accept(B2, [C.Entry(0, Y)]), []) in g.sent
    ensures g.nodes == map[0 := n0, 1 := Following(1, {0, 2}, B0, [Holding(B0, X)]), 2 := Elected(2, {0, 1}, Y)]
  {
    hide Reached, Handle, NewNode, Elected, Following, Campaigning, CountsPromise;
    NodesAre();
    g := TrioStarts();
    g := Wins(g, 0, 1, {1, 2}, {0, 2}, X);
    g := Resolves(g, 0, 1, {1, 2}, {0, 2}, X, B0, AwaitValue(Some(B0), 2));
    Campaigns(2, {0, 1}, Y);
    g := Advance(g, Submit(2, Y), Campaigning(2, {0, 1}, Y), C.Broadcast(C.Prepare(B2)));
    PromisesOpenOnly(0, {1, 2}, X, B2);
    n0 := Handle(Done(0, {1, 2}, X), Receive(C.Prepare(B2))).node;
    g := Advance(g, Deliver(Packet(0, C.Prepare(B2), [])), n0, C.Send(2, C.Promise(0, B2, [])));
    IsElected(2, {0, 1}, Y, 0);
    g := Advance(g, Deliver(Packet(2, C.Promise(0, B2, []), [Pair(B0, X)])), Elected(2, {0, 1}, Y),
                 C.Broadcast(C.Accept(B2, [C.Entry(0, Y)])));
  }

  /** Agreement needs its condition: there is a run of three nodes, with a message merely
      delayed, at whose end two nodes hold different values for slot 0. The run neither
      covers its promises nor is reconciled. */
  lemma {:induction false} DisagreementIsReachable() returns (run: seq<Cluster>, steps: seq<Step>)
    ensures IsRun(run, steps) && |run| == |steps| + 1
    ensures var c := run[|steps|]; OddSize(c) && !Agreement(c) && !Covered(c) && !Reconciled(c)
  {
    hide Reached, Elected, Following, Done, Covered, Reconciled, IsRun, Agreement;
    var g, n0 := SecondElection();
    g := Resolves(g, 2, 1, {0, 1}, {0, 2}, Y, B0, Holding(B0, X));
    run, steps := g.run, g.steps;
    ReachedRun(g);
    var c := run[|steps|];
    assert c.nodes.Keys == {0, 1, 2} && |c.nodes.Keys| == |c.nodes|;
    DifferentValues(c, n0.window, 2, {0, 1});
    if Covered(c) || Reconciled(c) { NodesAgree(run, steps, |steps|); }
  }

  /** Node 0 logged X for slot 0, and node `n` decided Y there. */
  lemma {:induction false} DifferentValues(c: Cluster, w: Window, n: NodeId, ps: set<NodeId>)
    requires 0 in c.nodes && n in c.nodes && c.nodes[0].window == w && c.nodes[n] == Done(n, ps, Y)
    requires w.decided == [Pair(B0, X)]
    ensures !Agreement(c)
  {
    assert At(c.nodes[0], 0) == AcceptorState.Resolved(B0, X) && At(c.nodes[n], 0) == AcceptorState.Resolved(Ballot(0, n), Y);
    assert X[0] != Y[0];
  }

  // ---------------------------------------------------------------------------
  // Disagreement in an even cluster
  // ---------------------------------------------------------------------------

  /** Four fresh nodes. */
  function Quartet(): map<NodeId, NodeState> {
    map[0 := NewNode(0, {1, 2, 3}), 1 := NewNode(1, {0, 2, 3}), 2 := NewNode(2, {0, 1, 3}), 3 := NewNode(3, {0, 1, 2})]
  }

  lemma {:induction false} QuartetStarts() returns (g: Stage)
    ensures Reached(g) && g.nodes == Quartet() && g.counted == {}
    ensures QuorumSize(|{1 as NodeId, 2, 3}|) == QuorumSize(|{0 as NodeId, 2, 3}|) == 2
    ensures QuorumSize(|{0 as NodeId, 1, 3}|) == QuorumSize(|{0 as NodeId, 1, 2}|) == 2
  {
    hide NewNode, Reached;
    var all: set<NodeId> := {0, 1, 2, 3};
    assert Quartet().Keys == all && |Quartet().Keys| == |Quartet()|;
    assert all - {0} == {1, 2, 3} && all - {1} == {0, 2, 3} && all - {2} == {0, 1, 3} && all - {3} == {0, 1, 2};
    g := Starts(Quartet());
  }

  /** Agreement needs an odd cluster: there is a run of four nodes at whose end two nodes hold
      different values for slot 0 although every promise covers its slots. */
  lemma {:induction false} EvenDisagreementIsReachable() returns (run: seq<Cluster>, steps: seq<Step>)
    ensures IsRun(run, steps) && |run| == |steps| + 1
    ensures var c := run[|steps|]; |c.nodes| == 4 && Covered(c) && Reconciled(c) && !Agreement(c)
  {
    hide Reached, NewNode, Elected, Following, Done, IsRun, Agreement;
    var g := QuartetStarts();
    g := Wins(g, 0, 1, {1, 2, 3}, {0, 2, 3}, X);
    g := Resolves(g, 0, 1, {1, 2, 3}, {0, 2, 3}, X, B0, AwaitValue(Some(B0), 2));
    g := Wins(g, 2, 3, {0, 1, 3}, {0, 1, 2}, Y);
    g := Resolves(g, 2, 3, {0, 1, 3}, {0, 1, 2}, Y, B2, AwaitValue(Some(B2), 2));
    run, steps := g.run, g.steps;
    ReachedRun(g);
    var c := run[|steps|];
    assert c.nodes.Keys == {0, 1, 2, 3} && |c.nodes.Keys| == |c.nodes|;
    assert forall p :: p in c.counted ==> p.log == [];
    DoneLog(0, {1, 2, 3}, X);
    DifferentValues(c, Done(0, {1, 2, 3}, X).window, 2, {0, 1, 3});
  }

  lemma {:induction false} DoneLog(n: NodeId, ps: set<NodeId>, v: Bytes)
    ensures Done(n, ps, v).window.decided == [Pair(Ballot(0, n), v)]
  {
  }

  // ---------------------------------------------------------------------------
  // A panic
  // ---------------------------------------------------------------------------

  /** The window of a node that decided slot 1 before slot 0. */
  function OutOfOrder(first: Acc, b: Ballot, v: Bytes): Window {
    Window([first, AcceptorState.Resolved(b, v)], 0, Some(b), [], 2)
  }

  const LEADER := Elected(0, {1, 2}, X)

  /** The leader places a second value behind its first. */
  lemma {:induction false} SecondProposal()
    ensures var o := Handle(LEADER, Receive(C.Proposal(Y)));
            && o.node == LEADER.(window := LEADER.window.(open := [Holding(B0, X), Holding(B0, Y)]))
            && o.outs == [C.Broadcast(C.Accept(B0, [C.Entry(1, Y)]))]
  {
    var w := LEADER.window;
    var w' := w.(open := [Holding(B0, X), Holding(B0, Y)]);
    assert NextSlot(w) == 1;
    assert Vacant(1) == [None];
    assert NoticeValue(View(w, 1), B0, Y) == Holding(B0, Y);
    assert FillOpenSlots(w, 1).open == [Holding(B0, X), AwaitValue(Some(B0), 2)];
    assert Put(w, 1, Holding(B0, Y)) == w';
    assert [Y][1..] == [] && Place(w', B0, []) == PlaceResult(w', []);
    assert Place(w, B0, [Y]).window == w';
  }

  lemma {:induction false} SecondVote()
    ensures var o := Handle(Following(1, {0, 2}, B0, [AwaitValue(Some(B0), 2)]), Receive(C.Accept(B0, [C.Entry(1, Y)])));
            && o.node == Following(1, {0, 2}, B0, [AwaitValue(Some(B0), 2), Holding(B0, Y)])
            && o.outs == [C.Send(0, C.Accepted(1, B0, [1]))]
  {
    var w := Following(1, {0, 2}, B0, [AwaitValue(Some(B0), 2)]).window;
    var w' := Following(1, {0, 2}, B0, [AwaitValue(Some(B0), 2), Holding(B0, Y)]).window;
    assert Vacant(1) == [None];
    assert FillOpenSlots(w, 1).open == [AwaitValue(Some(B0), 2), AwaitValue(Some(B0), 2)];
    assert Put(w, 1, Holding(B0, Y)) == w';
    assert [C.Entry(1, Y)][1..] == [];
    assert AcceptLoop(w', 1, B0, []) == AcceptResult(w', Finished, [], {});
    var r := AcceptLoop(w, 1, B0, [C.Entry(1, Y)]);
    assert r.window == w' && r.end == Finished && r.slots == [1];
  }

  lemma {:induction false} SecondDecision()
    ensures var x := LEADER.(window := LEADER.window.(open := [Holding(B0, X), Holding(B0, Y)]));
            var o := Handle(x, Receive(C.Accepted(1, B0, [1])));
            && o.node == LEADER.(window := OutOfOrder(Holding(B0, X), B0, Y))
            && o.outs == [C.Broadcast(C.Resolution(B0, [C.Entry(1, Y)]))]
  {
    var w := LEADER.window.(open := [Holding(B0, X), Holding(B0, Y)]);
    var w' := OutOfOrder(Holding(B0, X), B0, Y);
    assert Insert([None], 1) == [Some(1)];
    assert ReceiveAccepted(Holding(B0, Y), 1, B0) == AcceptorState.Resolved(B0, Y);
    assert Put(w, 1, AcceptorState.Resolved(B0, Y)) == w';
    assert [1 as Slot][1..] == [];
    assert AcceptedLoop(w', 1, B0, []) == AcceptedResult(w', false, []);
    assert AcceptedLoop(w, 1, B0, [1]) == AcceptedResult(w', false, [C.Entry(1, Y)]);
  }

  lemma {:induction false} LeadsAlone()
    ensures var o := Handle(NewNode(2, {0, 1}), TakeLead);
            && o.node == Campaigning(2, {0, 1}, Y).(prop := Campaigning(2, {0, 1}, Y).prop.(queue := []))
            && o.outs == [C.Broadcast(C.Prepare(B2))]
  {
    NodesAre();
    assert Insert(Vacant(2), 2) == [Some(2), None];
  }

  lemma {:induction false} LearnsSecondSlot()
    ensures ResolveAll(NewWindow(2), B0, [C.Entry(1, Y)]) == OutOfOrder(AwaitValue(None, 2), B0, Y)
  {
    var w := NewWindow(2);
    var w' := OutOfOrder(AwaitValue(None, 2), B0, Y);
    assert FillOpenSlots(w, 1).open == [AwaitValue(None, 2), AwaitValue(None, 2)];
    assert Put(w, 1, AcceptorState.Resolved(B0, Y)) == w';
    assert [C.Entry(1, Y)][1..] == [];
    assert ResolveAll(w', B0, []) == w';
  }

  lemma {:induction false} MissesFirstSlot()
    ensures Unresolved(OutOfOrder(AwaitValue(None, 2), B0, Y), 0, 2) == [0]
  {
    var w := OutOfOrder(AwaitValue(None, 2), B0, Y);
    assert Unresolved(w, 2, 2) == [] && Unresolved(w, 1, 2) == [];
  }

  /** The candidate learns slot 1 without slot 0, and looks itself up. */
  lemma {:induction false} LooksItselfUp()
    ensures var x := Campaigning(2, {0, 1}, Y); var y := x.(prop := x.prop.(queue := []));
            var o := Handle(y, Receive(C.Resolution(B0, [C.Entry(1, Y)])));
            o.outs == [C.Send(2, C.Catchup(2, [0]))] && C.Panics({0, 1}, o.outs)
  {
    hide ResolveAll, Unresolved;
    LearnsSecondSlot();
    MissesFirstSlot();
    assert !C.Sendable({0, 1}, [C.Send(2, C.Catchup(2, [0]))][0]);
  }

  /** Node 0 decides slot 1 before slot 0 while node 2 becomes a candidate. */
  lemma {:induction false} DecidedOutOfOrder() returns (g: Stage)
    ensures Reached(g) && 2 in g.nodes && Packet(2, C.Resolution(B0, [C.Entry(1, Y)]), []) in g.sent
    ensures var x := Campaigning(2, {0, 1}, Y); g.nodes[2] == x.(prop := x.prop.(queue := []))
  {
    hide Reached, Handle, NewNode, Elected, Following, Campaigning, CountsPromise;
    NodesAre();
    g := TrioStarts();
    g := Wins(g, 0, 1, {1, 2}, {0, 2}, X);
    SecondProposal();
    g := Advance(g, Submit(0, Y), LEADER.(window := LEADER.window.(open := [Holding(B0, X), Holding(B0, Y)])),
                 C.Broadcast(C.Accept(B0, [C.Entry(1, Y)])));
    SecondVote();
    g := Advance(g, Deliver(Packet(1, C.Accept(B0, [C.Entry(1, Y)]), [])),
                 Following(1, {0, 2}, B0, [AwaitValue(Some(B0), 2), Holding(B0, Y)]), C.Send(0, C.Accepted(1, B0, [1])));
    SecondDecision();
    g := Advance(g, Deliver(Packet(0, C.Accepted(1, B0, [1]), [])), LEADER.(window := OutOfOrder(Holding(B0, X), B0, Y)),
                 C.Broadcast(C.Resolution(B0, [C.Entry(1, Y)])));
    LeadsAlone();
    g := Advance(g, Elect(2), Campaigning(2, {0, 1}, Y).(prop := Campaigning(2, {0, 1}, Y).prop.(queue := [])),
                 C.Broadcast(C.Prepare(B2)));
  }

  /** The panic of a catch-up is reachable: there is a run at whose end node 2 panicked
      when a RESOLUTION of an earlier leader reached it as a candidate. */
  lemma {:induction false} PanicIsReachable() returns (run: seq<Cluster>, steps: seq<Step>)
    ensures IsRun(run, steps) && |run| == |steps| + 1 && 2 in run[|steps|].apps && run[|steps|].apps[2].halted
  {
    hide Reached, Handle, Packets, IsRun;
    var g := DecidedOutOfOrder();
    var step := Deliver(Packet(2, C.Resolution(B0, [C.Entry(1, Y)]), []));
    run, steps := g.run, g.steps;
    ReachedRun(g);
    Ready(g, step);
    LooksItselfUp();
    RunExtends(run, steps, step);
    var d := Next(run[|steps|], step);
    assert (run + [d])[|steps| + 1] == d;
    run, steps := run + [d], steps + [step];
  }
}
