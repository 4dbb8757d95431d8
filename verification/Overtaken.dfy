// A run of five nodes whose picks are all safe although it is not reconciled: the promiser
// whose log the new leader did not know had logged its slot at a ballot above the leader's.
module Overtaken {
  import opened Ballots
  import opened Quorums
  import opened Acceptors
  import opened Windows
  import opened Proposers
  import opened NodeSteps
  import opened Leading
  import opened Clusters
  import opened Staging
  import C = Commands

  const U: Bytes := [1]
  const V: Bytes := [2]
  const W: Bytes := [3]
  const Y: Bytes := [4]

  /** The ballots of the three leaders. */
  const LOW := Ballot(0, 0)
  const MID := Ballot(0, 1)
  const TOP := Ballot(0, 2)

  function Others(n: NodeId): set<NodeId> {
    {0, 1, 2, 3, 4} - {n}
  }

  lemma {:induction false} OthersSize(n: NodeId)
    requires n < 5
    ensures QuorumSize(|Others(n)|) == 3
  {
    var all: set<NodeId> := {0, 1, 2, 3, 4};
    assert all == {n} + Others(n) && |all| == 5;
  }

  // ---------------------------------------------------------------------------
  // Nodes of a cluster of five, where three nodes make a quorum
  // ---------------------------------------------------------------------------

  function Holds3(b: Ballot, v: Bytes, es: Entries): Acc {
    AwaitQuorum(b, b, v, es)
  }

  function Window1(a: Acc, promised: Option<Ballot>): Window {
    Window([a], 0, promised, [], 3)
  }

  /** A follower that holds no value. */
  function Waiting(n: NodeId, promised: Option<Ballot>): NodeState {
    NodeState(n, Others(n), Prop(Follower, promised, n, 3, []), Window1(AwaitValue(promised, 3), promised))
  }

  /** A follower that voted in slot 0. */
  function Voted(n: NodeId, b: Ballot, v: Bytes): NodeState {
    NodeState(n, Others(n), Prop(Follower, Some(b), n, 3, []), Window1(Holds3(b, v, [None, None]), Some(b)))
  }

  function Running(n: NodeId, es: Entries, v: Bytes): NodeState {
    NodeState(n, Others(n), Prop(Candidate(Ballot(0, n), es), Some(Ballot(0, n)), n, 3, [v]), NewWindow(3))
  }

  function Ruling(n: NodeId, w: Window): NodeState {
    NodeState(n, Others(n), Prop(Leader(Ballot(0, n)), Some(Ballot(0, n)), n, 3, []), w)
  }

  lemma {:induction false} FreshWaits(n: NodeId)
    requires n < 5
    ensures NewNode(n, Others(n)) == Waiting(n, None)
  {
    OthersSize(n);
  }

  lemma {:induction false} Runs3(n: NodeId, v: Bytes)
    ensures var o := Handle(Waiting(n, None), Receive(C.Proposal(v)));
            && o.node == Running(n, [Some(n), None, None], v) && o.outs == [C.Broadcast(C.Prepare(Ballot(0, n)))]
            && o.picks == {} && o.votes == {}
  {
    assert Insert(Vacant(3), n) == [Some(n), None, None];
  }

  lemma {:induction false} Promises3(n: NodeId, p: Option<Ballot>, b: Ballot)
    requires Precedes(p, Some(b))
    ensures var o := Handle(Waiting(n, p), Receive(C.Prepare(b)));
            && o.node == Waiting(n, Some(b)) && o.outs == [C.Send(b.node, C.Promise(n, b, []))]
            && o.picks == {} && o.votes == {}
  {
    var w, w' := Waiting(n, p).window, Waiting(n, Some(b)).window;
    assert Max(Some(b), p) == Some(b);
    assert Put(w, 0, AwaitValue(Some(b), 3)) == w';
    assert PrepareSweep(w', b, 1, 1) == PrepareResult(w', None, []);
    assert PrepareSweep(w, b, 0, 1) == PrepareResult(w', None, []);
  }

  lemma {:induction false} Counts3(n: NodeId, v: Bytes, q: NodeId)
    requires q != n
    ensures var o := Handle(Running(n, [Some(n), None, None], v), Receive(C.Promise(q, Ballot(0, n), [])));
            o.node == Running(n, [Some(n), Some(q), None], v) && o.outs == [] && o.picks == {} && o.votes == {}
  {
    var es: Entries := [Some(n), None, None];
    assert SearchFrom(es, q, 1) == Missing(1) && SearchFrom(es, q, 0) == Missing(1);
    assert Insert(es, q) == [Some(n), Some(q), None];
  }

  lemma {:induction false} Reaches3(n: NodeId, v: Bytes, q: NodeId, r: NodeId)
    requires q != n && r != n && r != q
    ensures var p := Running(n, [Some(n), Some(q), None], v).prop; var b := Ballot(0, n);
            && Counts(p, r, b) && HasQuorum(Insert(p.state.promises, r))
            && ReceivePromise(p, r, b) == Prop(Leader(b), Some(b), n, 3, [v])
  {
    var es: Entries := [Some(n), Some(q), None];
    assert SearchFrom(es, r, 2) == Missing(2) && SearchFrom(es, r, 1) == Missing(2) && SearchFrom(es, r, 0) == Missing(2);
    assert Insert(es, r) == [Some(n), Some(q), Some(r)];
  }

  lemma {:induction false} Rules3(n: NodeId, v: Bytes, q: NodeId, r: NodeId)
    requires q != n && r != n && r != q
    ensures var b := Ballot(0, n); var o := Handle(Running(n, [Some(n), Some(q), None], v), Receive(C.Promise(r, b, [])));
            && o.node == Ruling(n, Window1(Holds3(b, v, [None, None]), Some(b)))
            && o.outs == [C.Broadcast(C.Accept(b, [C.Entry(0, v)]))]
            && o.picks == {Pick(b, 0, v)} && (forall vt :: vt in o.votes ==> vt.node == n && vt.bal == b)
  {
    var b := Ballot(0, n);
    var w := NewWindow(3);
    var a := Holds3(b, v, [None, None]);
    var w' := Window1(a, Some(b));
    Reaches3(n, v, q, r);
    assert Vacant(2) == [None, None];
    assert NoticeValue(AwaitValue(None, 3), b, v) == a;
    assert Put(w, 0, a) == w' && Put(w', 0, a) == w';
    assert [v][1..] == [] && Place(w', b, []) == PlaceResult(w', []);
    assert Place(w, b, [v]).window == w';
    assert Sweep(w', b, 1, 1) == SweepResult(w', []);
    assert Sweep(w', b, 0, 1) == SweepResult(w', [C.Entry(0, v)]);
    assert PicksOf(b, [C.Entry(0, v)]) == {Pick(b, 0, v)};
  }

  lemma {:induction false} Votes3(n: NodeId, b: Ballot, v: Bytes)
    ensures var o := Handle(Waiting(n, Some(b)), Receive(C.Accept(b, [C.Entry(0, v)])));
            && o.node == Voted(n, b, v) && o.outs == [C.Send(b.node, C.Accepted(n, b, [0]))]
            && o.picks == {} && o.votes == {Vote(n, 0, b, v)}
  {
    var w, w' := Waiting(n, Some(b)).window, Voted(n, b, v).window;
    assert Vacant(2) == [None, None];
    assert ReceiveAccept(AwaitValue(Some(b), 3), b, v).0 == Holds3(b, v, [None, None]);
    assert Put(w, 0, Holds3(b, v, [None, None])) == w';
    assert [C.Entry(0, v)][1..] == [];
    assert AcceptLoop(w', n, b, []) == AcceptResult(w', Finished, [], {});
    var r := AcceptLoop(w, n, b, [C.Entry(0, v)]);
    assert r.window == w' && r.end == Finished && r.slots == [0] && r.votes == {Vote(n, 0, b, v)};
  }

  lemma {:induction false} Tallies3(n: NodeId, v: Bytes, q: NodeId)
    ensures var b := Ballot(0, n);
            var o := Handle(Ruling(n, Window1(Holds3(b, v, [None, None]), Some(b))), Receive(C.Accepted(q, b, [0])));
            && o.node == Ruling(n, Window1(Holds3(b, v, [Some(q), None]), Some(b))) && o.outs == []
            && o.picks == {} && o.votes == {}
  {
    var b := Ballot(0, n);
    var w := Window1(Holds3(b, v, [None, None]), Some(b));
    var w' := Window1(Holds3(b, v, [Some(q), None]), Some(b));
    var es: Entries := [None, None];
    assert SearchFrom(es, q, 0) == Missing(0) && Insert(es, q) == [Some(q), None];
    assert Put(w, 0, Holds3(b, v, [Some(q), None])) == w';
    assert [0 as Slot][1..] == [];
    assert AcceptedLoop(w', q, b, []) == AcceptedResult(w', false, []);
    assert AcceptedLoop(w, q, b, [0]) == AcceptedResult(w', false, []);
  }

  function Decided3(n: NodeId, v: Bytes): NodeState {
    var b := Ballot(0, n);
    Ruling(n, Window([AwaitValue(Some(b), 3)], 1, Some(b), [Pair(b, v)], 3))
  }

  lemma {:induction false} Decides3(n: NodeId, v: Bytes, q: NodeId, r: NodeId)
    requires q != r
    ensures var b := Ballot(0, n);
            var o := Handle(Ruling(n, Window1(Holds3(b, v, [Some(q), None]), Some(b))), Receive(C.Accepted(r, b, [0])));
            && o.node == Decided3(n, v) && o.outs == [C.Broadcast(C.Resolution(b, [C.Entry(0, v)]))]
            && o.picks == {} && o.votes == {}
  {
    var b := Ballot(0, n);
    var w, w' := Window1(Holds3(b, v, [Some(q), None]), Some(b)), Decided3(n, v).window;
    var es: Entries := [Some(q), None];
    assert SearchFrom(es, r, 1) == Missing(1) && SearchFrom(es, r, 0) == Missing(1);
    assert Insert(es, r) == [Some(q), Some(r)];
    assert ReceiveAccepted(w.open[0], r, b) == AcceptorState.Resolved(b, v);
    LogsFirst(w, b, v, [], w');
    assert [0 as Slot][1..] == [];
    assert AcceptedLoop(w', r, b, []) == AcceptedResult(w', false, []);
    assert AcceptedLoop(w, r, b, [0]) == AcceptedResult(w', false, [C.Entry(0, v)]);
  }

  /** Resolving the first slot of a window moves it to the log. */
  lemma {:induction false} LogsFirst(w: Window, b: Ballot, v: Bytes, rest: seq<Acc>, w': Window)
    requires |w.open| > 0 && w.openMin == 0 && w.decided == [] && w.quorum == 3 && Precedes(w.maxPromised, Some(b))
    requires w.open[1..] == rest && (rest != [] ==> !rest[0].Resolved?)
    requires w' == Window(if rest == [] then [AwaitValue(Some(b), 3)] else rest, 1, Some(b), [Pair(b, v)], 3)
    ensures Put(w, 0, AcceptorState.Resolved(b, v)) == w'
  {
    var open := w.open[0 := AcceptorState.Resolved(b, v)];
    assert open[1..] == rest;
    assert ResolvedPrefix(rest) == 0 && ResolvedPrefix(open) == 1;
    assert Decisions(rest) == [] && Decisions(open) == [Pair(b, v)];
    assert Max(w.maxPromised, Some(b)) == Some(b);
  }
  // ---------------------------------------------------------------------------
  // Node 0: a leader of two slots that learns the first one decided at a higher ballot
  // ---------------------------------------------------------------------------

  const FIRST: Acc := Holds3(LOW, U, [None, None])
  const SECOND: Acc := Holds3(LOW, W, [None, None])

  lemma {:induction false} PlacesSecond()
    ensures var o := Handle(Ruling(0, Window1(FIRST, Some(LOW))), Receive(C.Proposal(W)));
            && o.node == Ruling(0, Window([FIRST, SECOND], 0, Some(LOW), [], 3))
            && o.outs == [C.Broadcast(C.Accept(LOW, [C.Entry(1, W)]))]
            && o.picks == {Pick(LOW, 1, W)} && (forall vt :: vt in o.votes ==> vt.node == 0 && vt.bal == LOW)
  {
    var w := Window1(FIRST, Some(LOW));
    var w' := Window([FIRST, SECOND], 0, Some(LOW), [], 3);
    assert NextSlot(w) == 1;
    assert Vacant(2) == [None, None];
    assert FillOpenSlots(w, 1).open == [FIRST, AwaitValue(Some(LOW), 3)];
    assert Put(w, 1, SECOND) == w';
    assert [W][1..] == [] && Place(w', LOW, []) == PlaceResult(w', []);
    assert Place(w, LOW, [W]) == PlaceResult(w', [Pick(LOW, 1, W)]);
  }

  /** Node 0 after it learnt slot 0, and then after it promised `MID`. */
  function Overruled(second: Acc): NodeState {
    NodeState(0, Others(0), Prop(Follower, Some(TOP), 0, 3, []), Window([second], 1, Some(TOP), [Pair(TOP, V)], 3))
  }

  lemma {:induction false} LearnsFirst()
    ensures var o := Handle(Ruling(0, Window([FIRST, SECOND], 0, Some(LOW), [], 3)), Receive(C.Resolution(TOP, [C.Entry(0, V)])));
            o.node == Overruled(SECOND) && o.outs == [] && o.picks == {} && o.votes == {}
  {
    var w := Window([FIRST, SECOND], 0, Some(LOW), [], 3);
    var w' := Overruled(SECOND).window;
    LogsFirst(w, TOP, V, [SECOND], w');
    assert [C.Entry(0, V)][1..] == [];
    assert ResolveAll(w', TOP, []) == w';
    assert ResolveAll(w, TOP, [C.Entry(0, V)]) == w';
  }

  const KEPT: C.Report := C.Report(1, LOW, W)

  lemma {:induction false} PromisesSecond()
    ensures var o := Handle(Overruled(SECOND), Receive(C.Prepare(MID)));
            && o.node == Overruled(AwaitQuorum(MID, LOW, W, [None, None]))
            && o.outs == [C.Send(1, C.Promise(0, MID, [KEPT]))] && o.picks == {} && o.votes == {}
  {
    var w := Overruled(SECOND).window;
    var a := AwaitQuorum(MID, LOW, W, [None, None]);
    var w' := Overruled(a).window;
    assert Put(w, 1, a) == w';
    assert PrepareSweep(w', MID, 2, 2) == PrepareResult(w', None, []);
    assert PrepareSweep(w, MID, 1, 2) == PrepareResult(w', None, [KEPT]);
  }

  /** Node 1 wins with that promise, and fills slot 0, of which it knows nothing. */
  lemma {:induction false} FillsFirst(x: NodeState)
    requires x == Running(1, [Some(1), Some(3), None], Y)
    ensures var o := Handle(x, Receive(C.Promise(0, MID, [KEPT])));
            && |o.outs| == 1 && o.outs[0].Broadcast? && o.node.id == 1
            && Pick(MID, 0, []) in o.picks && (forall k :: k in o.picks ==> k.bal == MID)
            && (forall vt :: vt in o.votes ==> vt.node == 1)
  {
    hide DriveAccept, HasQuorum, Insert, Place, Sweep;
    var w := NewWindow(3);
    var m := x.(window := Absorb(w, [KEPT]));
    Reaches3(1, Y, 3, 0);
    NewWindowOk(3);
    AbsorbMeaning(w, [KEPT], 0);
    AbsorbsSecond();
    assert ToPropose(m, 0) && Planned(m, 0) == [];
    var lead := m.(prop := ReceivePromise(x.prop, 0, MID));
    LedPicks(lead);
    BatchMeaning(lead);
    SamePlan(lead, m, 0);
    assert C.Entry(0, []) in DriveAccept(lead).outs[0].cmd.entries;
  }

  lemma {:induction false} AbsorbsSecond()
    ensures Absorb(NewWindow(3), [KEPT]) == Window([AwaitValue(None, 3), SECOND], 0, Some(LOW), [], 3)
  {
    var w := NewWindow(3);
    var w' := Window([AwaitValue(None, 3), SECOND], 0, Some(LOW), [], 3);
    assert Vacant(2) == [None, None];
    assert FillOpenSlots(w, 1).open == [AwaitValue(None, 3), AwaitValue(None, 3)];
    assert Put(w, 1, SECOND) == w';
    assert [KEPT][1..] == [] && Absorb(w', []) == w';
  }

  lemma {:induction false} LedPicks(n: NodeState)
    requires n.prop.highest == Some(MID)
    ensures forall k :: k in DriveAccept(n).picks ==> k.bal == MID
    ensures forall vt :: vt in DriveAccept(n).votes ==> vt.node == n.id
    ensures DriveAccept(n).node.id == n.id
  {
    hide Place, Sweep, View;
  }

  // ---------------------------------------------------------------------------
  // The run
  // ---------------------------------------------------------------------------

  function Quintet(): map<NodeId, NodeState> {
    map n: NodeId | n < 5 :: NewNode(n, Others(n))
  }

  /** What is known along the run: nodes 2, 3 and 4 vote at `TOP` only, and all picks are at
      one of the three ballots. */
  ghost predicate Orderly(g: Stage) {
    && (forall vt :: vt in g.votes && vt.node in {2, 3, 4} ==> vt.bal == TOP)
    && (forall k :: k in g.picks ==> k.bal in {LOW, MID, TOP})
  }

  lemma {:induction false} StaysOrderly(g: Stage, h: Stage, o: Outcome)
    requires Orderly(g) && h.picks == g.picks + o.picks && h.votes == g.votes + o.votes
    requires forall vt :: vt in o.votes && vt.node in {2, 3, 4} ==> vt.bal == TOP
    requires forall k :: k in o.picks ==> k.bal in {LOW, MID, TOP}
    ensures Orderly(h)
  {
  }

  lemma {:induction false} QuintetStarts() returns (g: Stage)
    ensures Reached(g) && Orderly(g) && g.nodes == map n: NodeId | n < 5 :: Waiting(n, None)
  {
    hide NewNode, Reached, Waiting;
    var all: set<NodeId> := {0, 1, 2, 3, 4};
    assert Quintet().Keys == all && |all| == 5 && |Quintet().Keys| == |Quintet()|;
    forall n: NodeId | n < 5 ensures NewNode(n, Others(n)) == Waiting(n, None) { FreshWaits(n); }
    g := Starts(Quintet());
  }

  /** Node `n` wins with the promises of `q` and `r`, which had promised `p` and `s`. */
  lemma {:induction false} Wins3(g: Stage, n: NodeId, q: NodeId, r: NodeId, p: Option<Ballot>, s: Option<Ballot>, v: Bytes)
    returns (h: Stage)
    requires Reached(g) && Orderly(g) && n < 5 && q < 5 && r < 5 && n != q && n != r && q != r && Ballot(0, n) in {LOW, MID, TOP}
    requires n in g.nodes && q in g.nodes && r in g.nodes && g.nodes[n] == Waiting(n, None)
    requires g.nodes[q] == Waiting(q, p) && g.nodes[r] == Waiting(r, s)
    requires Precedes(p, Some(Ballot(0, n))) && Precedes(s, Some(Ballot(0, n))) && (n in {2, 3, 4} ==> Ballot(0, n) == TOP)
    ensures var b := Ballot(0, n);
            && Reached(h) && Orderly(h) && g.sent <= h.sent && g.counted <= h.counted
            && Packet(q, C.Accept(b, [C.Entry(0, v)]), []) in h.sent && Packet(r, C.Accept(b, [C.Entry(0, v)]), []) in h.sent
            && h.nodes == g.nodes[q := Waiting(q, Some(b))][r := Waiting(r, Some(b))]
                                 [n := Ruling(n, Window1(Holds3(b, v, [None, None]), Some(b)))]
  {
    hide Reached, Handle, Orderly, Waiting, Running, Ruling;
    h := RunsFor(g, n, v);
    h := PromisesTo(h, n, q, p);
    h := PromisesTo(h, n, r, s);
    h := CountsFirst(h, n, q, v);
    h := CountsSecond(h, n, q, r, v);
  }

  lemma {:induction false} RunsFor(g: Stage, n: NodeId, v: Bytes) returns (h: Stage)
    requires Reached(g) && Orderly(g) && n < 5 && n in g.nodes && g.nodes[n] == Waiting(n, None)
    ensures Reached(h) && Orderly(h) && g.sent <= h.sent && g.counted <= h.counted
    ensures h.nodes == g.nodes[n := Running(n, [Some(n), None, None], v)]
    ensures forall q: NodeId :: q < 5 && q != n ==> Packet(q, C.Prepare(Ballot(0, n)), []) in h.sent
  {
    hide Reached, Handle, Orderly, CountsPromise;
    Runs3(n, v);
    h := Advance(g, Submit(n, v), Running(n, [Some(n), None, None], v), C.Broadcast(C.Prepare(Ballot(0, n))));
    StaysOrderly(g, h, Handle(g.nodes[n], Receive(C.Proposal(v))));
  }

  lemma {:induction false} CountsFirst(g: Stage, n: NodeId, q: NodeId, v: Bytes) returns (h: Stage)
    requires Reached(g) && Orderly(g) && n != q && n in g.nodes && g.nodes[n] == Running(n, [Some(n), None, None], v)
    requires Packet(n, C.Promise(q, Ballot(0, n), []), []) in g.sent
    ensures Reached(h) && Orderly(h) && g.sent <= h.sent && g.counted <= h.counted
    ensures h.nodes == g.nodes[n := Running(n, [Some(n), Some(q), None], v)]
  {
    hide Reached, Handle, Orderly, CountsPromise;
    Counts3(n, v, q);
    h := AdvanceSilently(g, Deliver(Packet(n, C.Promise(q, Ballot(0, n), []), [])), Running(n, [Some(n), Some(q), None], v));
    StaysOrderly(g, h, Handle(g.nodes[n], Receive(C.Promise(q, Ballot(0, n), []))));
  }

  lemma {:induction false} CountsSecond(g: Stage, n: NodeId, q: NodeId, r: NodeId, v: Bytes) returns (h: Stage)
    requires Reached(g) && Orderly(g) && n < 5 && n != q && n != r && q != r && n in g.nodes
    requires g.nodes[n] == Running(n, [Some(n), Some(q), None], v) && Packet(n, C.Promise(r, Ballot(0, n), []), []) in g.sent
    requires Ballot(0, n) in {LOW, MID, TOP} && (n in {2, 3, 4} ==> Ballot(0, n) == TOP)
    ensures var b := Ballot(0, n);
            && Reached(h) && Orderly(h) && g.sent <= h.sent && g.counted <= h.counted
            && h.nodes == g.nodes[n := Ruling(n, Window1(Holds3(b, v, [None, None]), Some(b)))]
            && forall m: NodeId :: m < 5 && m != n ==> Packet(m, C.Accept(b, [C.Entry(0, v)]), []) in h.sent
  {
    hide Reached, Handle, Orderly, CountsPromise;
    var b := Ballot(0, n);
    Rules3(n, v, q, r);
    h := Advance(g, Deliver(Packet(n, C.Promise(r, b, []), [])), Ruling(n, Window1(Holds3(b, v, [None, None]), Some(b))),
                 C.Broadcast(C.Accept(b, [C.Entry(0, v)])));
    StaysOrderly(g, h, Handle(g.nodes[n], Receive(C.Promise(r, b, []))));
  }

  lemma {:induction false} PromisesTo(g: Stage, n: NodeId, q: NodeId, p: Option<Ballot>) returns (h: Stage)
    requires Reached(g) && Orderly(g) && n != q && n < 5 && q in g.nodes
    requires g.nodes[q] == Waiting(q, p) && Precedes(p, Some(Ballot(0, n)))
    requires Packet(q, C.Prepare(Ballot(0, n)), []) in g.sent
    ensures Reached(h) && Orderly(h) && g.sent <= h.sent && g.counted <= h.counted
    ensures h.nodes == g.nodes[q := Waiting(q, Some(Ballot(0, n)))]
    ensures Packet(n, C.Promise(q, Ballot(0, n), []), []) in h.sent
  {
    hide Reached, Handle, Orderly, CountsPromise;
    var b := Ballot(0, n);
    Promises3(q, p, b);
    h := Advance(g, Deliver(Packet(q, C.Prepare(b), [])), Waiting(q, Some(b)), C.Send(n, C.Promise(q, b, [])));
    StaysOrderly(g, h, Handle(g.nodes[q], Receive(C.Prepare(b))));
  }

  /** Node 0 wins `LOW` with its first value. */
  lemma {:induction false} LowWins() returns (g: Stage)
    ensures Reached(g) && Orderly(g)
    ensures g.nodes == map[0 := Ruling(0, Window1(FIRST, Some(LOW))), 1 := Waiting(1, None), 2 := Waiting(2, None),
                           3 := Waiting(3, Some(LOW)), 4 := Waiting(4, Some(LOW))]
  {
    hide Reached, Handle, Orderly, Waiting, Ruling, Window1, Holds3;
    g := QuintetStarts();
    g := Wins3(g, 0, 3, 4, None, None, U);
  }

  /** It places a second value. */
  lemma {:induction false} LowRules() returns (g: Stage)
    ensures Reached(g) && Orderly(g)
    ensures g.nodes == map[0 := Ruling(0, Window([FIRST, SECOND], 0, Some(LOW), [], 3)), 1 := Waiting(1, None), 2 := Waiting(2, None),
                           3 := Waiting(3, Some(LOW)), 4 := Waiting(4, Some(LOW))]
  {
    hide Reached, Handle, Orderly, CountsPromise, Waiting, Ruling, Window1, Holds3;
    var h := LowWins();
    PlacesSecond();
    g := Advance(h, Submit(0, W), Ruling(0, Window([FIRST, SECOND], 0, Some(LOW), [], 3)),
                 C.Broadcast(C.Accept(LOW, [C.Entry(1, W)])));
    StaysOrderly(h, g, Handle(h.nodes[0], Receive(C.Proposal(W))));
  }

  /** Node 1 runs for `MID` and counts node 3. */
  lemma {:induction false} MidRuns() returns (g: Stage)
    ensures Reached(g) && Orderly(g) && Packet(0, C.Prepare(MID), []) in g.sent
    ensures g.nodes == map[0 := Ruling(0, Window([FIRST, SECOND], 0, Some(LOW), [], 3)), 1 := Running(1, [Some(1), Some(3), None], Y),
                           2 := Waiting(2, None), 3 := Waiting(3, Some(MID)), 4 := Waiting(4, Some(LOW))]
  {
    hide Reached, Handle, Orderly, Waiting, Running, Ruling;
    g := LowRules();
    g := RunsFor(g, 1, Y);
    g := PromisesTo(g, 1, 3, Some(LOW));
    g := CountsFirst(g, 1, 3, Y);
  }

  /** Follower `q` votes for the value of leader `n` in slot 0. */
  lemma {:induction false} VotesFor(g: Stage, n: NodeId, q: NodeId, v: Bytes) returns (h: Stage)
    requires Reached(g) && Orderly(g) && n != q && n < 5 && q in g.nodes
    requires g.nodes[q] == Waiting(q, Some(Ballot(0, n))) && Ballot(0, n) == TOP
    requires Packet(q, C.Accept(Ballot(0, n), [C.Entry(0, v)]), []) in g.sent
    ensures Reached(h) && Orderly(h) && g.sent <= h.sent && g.counted <= h.counted
    ensures h.nodes == g.nodes[q := Voted(q, Ballot(0, n), v)] && Packet(n, C.Accepted(q, Ballot(0, n), [0]), []) in h.sent
  {
    hide Reached, Handle, Orderly, CountsPromise;
    var b := Ballot(0, n);
    Votes3(q, b, v);
    h := Advance(g, Deliver(Packet(q, C.Accept(b, [C.Entry(0, v)]), [])), Voted(q, b, v), C.Send(n, C.Accepted(q, b, [0])));
    StaysOrderly(g, h, Handle(g.nodes[q], Receive(C.Accept(b, [C.Entry(0, v)]))));
  }

  /** Node 2 wins `TOP`, and nodes 3 and 4 vote for V in slot 0. */
  lemma {:induction false} TopVoted() returns (g: Stage)
    ensures Reached(g) && Orderly(g) && Packet(0, C.Prepare(MID), []) in g.sent
    ensures Packet(2, C.Accepted(3, TOP, [0]), []) in g.sent && Packet(2, C.Accepted(4, TOP, [0]), []) in g.sent
    ensures g.nodes == map[0 := Ruling(0, Window([FIRST, SECOND], 0, Some(LOW), [], 3)), 1 := Running(1, [Some(1), Some(3), None], Y),
                           2 := Ruling(2, Window1(Holds3(TOP, V, [None, None]), Some(TOP))), 3 := Voted(3, TOP, V), 4 := Voted(4, TOP, V)]
  {
    hide Reached, Handle, Orderly, CountsPromise, Running, Voted, Waiting, Ruling, Window1, Holds3;
    g := MidRuns();
    g := Wins3(g, 2, 3, 4, Some(MID), Some(LOW), V);
    g := VotesFor(g, 2, 3, V);
    g := VotesFor(g, 2, 4, V);
  }

  /** Node 2 counts node 3. */
  lemma {:induction false} TopTallied() returns (g: Stage)
    ensures Reached(g) && Orderly(g) && Packet(0, C.Prepare(MID), []) in g.sent && Packet(2, C.Accepted(4, TOP, [0]), []) in g.sent
    ensures g.nodes == map[0 := Ruling(0, Window([FIRST, SECOND], 0, Some(LOW), [], 3)), 1 := Running(1, [Some(1), Some(3), None], Y),
                           2 := Ruling(2, Window1(Holds3(TOP, V, [Some(3), None]), Some(TOP))), 3 := Voted(3, TOP, V), 4 := Voted(4, TOP, V)]
  {
    hide Reached, Handle, Orderly, CountsPromise, Running, Voted;
    var h := TopVoted();
    Tallies3(2, V, 3);
    g := AdvanceSilently(h, Deliver(Packet(2, C.Accepted(3, TOP, [0]), [])),
                         Ruling(2, Window1(Holds3(TOP, V, [Some(3), None]), Some(TOP))));
    StaysOrderly(h, g, Handle(h.nodes[2], Receive(C.Accepted(3, TOP, [0]))));
  }

  /** With node 4 it decides V in slot 0. */
  lemma {:induction false} TopDecides() returns (g: Stage)
    ensures Reached(g) && Orderly(g) && Packet(0, C.Prepare(MID), []) in g.sent
    ensures Packet(0, C.Resolution(TOP, [C.Entry(0, V)]), [Pair(TOP, V)]) in g.sent
    ensures g.nodes == map[0 := Ruling(0, Window([FIRST, SECOND], 0, Some(LOW), [], 3)), 1 := Running(1, [Some(1), Some(3), None], Y),
                           2 := Decided3(2, V), 3 := Voted(3, TOP, V), 4 := Voted(4, TOP, V)]
  {
    hide Reached, Handle, Orderly, CountsPromise, Running, Voted;
    var h := TopTallied();
    Decides3(2, V, 3, 4);
    g := Advance(h, Deliver(Packet(2, C.Accepted(4, TOP, [0]), [])), Decided3(2, V), C.Broadcast(C.Resolution(TOP, [C.Entry(0, V)])));
    StaysOrderly(h, g, Handle(h.nodes[2], Receive(C.Accepted(4, TOP, [0]))));
  }

  /** Node 0 learns slot 0 and then promises `MID`. */
  lemma {:induction false} MidPromised() returns (g: Stage)
    ensures Reached(g) && Orderly(g) && g.nodes.Keys == {0, 1, 2, 3, 4} && g.nodes[1] == Running(1, [Some(1), Some(3), None], Y)
    ensures g.nodes[2] == Decided3(2, V) && g.nodes[3] == Voted(3, TOP, V) && g.nodes[4] == Voted(4, TOP, V)
    ensures Packet(1, C.Promise(0, MID, [KEPT]), [Pair(TOP, V)]) in g.sent
  {
    hide Reached, Handle, Orderly, Running, Voted, Decided3, CountsPromise;
    g := TopDecides();
    LearnsFirst();
    var h := g;
    g := AdvanceSilently(h, Deliver(Packet(0, C.Resolution(TOP, [C.Entry(0, V)]), [Pair(TOP, V)])), Overruled(SECOND));
    StaysOrderly(h, g, Handle(h.nodes[0], Receive(C.Resolution(TOP, [C.Entry(0, V)]))));
    PromisesSecond();
    h := g;
    g := Advance(h, Deliver(Packet(0, C.Prepare(MID), [])),
                 Overruled(AwaitQuorum(MID, LOW, W, [None, None])), C.Send(1, C.Promise(0, MID, [KEPT])));
    StaysOrderly(h, g, Handle(h.nodes[0], Receive(C.Prepare(MID))));
  }

  /** `MID` wins with that promise. */
  lemma {:induction false} MidRules() returns (g: Stage)
    ensures Reached(g) && Orderly(g) && g.nodes.Keys == {0, 1, 2, 3, 4}
    ensures g.nodes[2] == Decided3(2, V) && g.nodes[3] == Voted(3, TOP, V) && g.nodes[4] == Voted(4, TOP, V)
    ensures Packet(1, C.Promise(0, MID, [KEPT]), [Pair(TOP, V)]) in g.counted && Pick(MID, 0, []) in g.picks
  {
    hide Reached, Handle, Orderly, Voted, Decided3, CountsPromise;
    var h := MidPromised();
    var x := Running(1, [Some(1), Some(3), None], Y);
    FillsFirst(x);
    CountsLast(x);
    var o := Handle(x, Receive(C.Promise(0, MID, [KEPT])));
    g := Advance(h, Deliver(Packet(1, C.Promise(0, MID, [KEPT]), [Pair(TOP, V)])), o.node, o.outs[0]);
    StaysOrderly(h, g, o);
  }

  lemma {:induction false} CountsLast(x: NodeState)
    requires x == Running(1, [Some(1), Some(3), None], Y)
    ensures CountsPromise(x, Deliver(Packet(1, C.Promise(0, MID, [KEPT]), [Pair(TOP, V)])))
  {
    Reaches3(1, Y, 3, 0);
  }

  /** Nodes 2, 3 and 4 closed every ballot below `TOP`. */
  lemma {:induction false} ClosedBelow(x: NodeState, s: Slot, d: Ballot)
    requires x == Decided3(2, V) || x == Voted(3, TOP, V) || x == Voted(4, TOP, V)
    requires d.Less(TOP)
    ensures Closed(x, s, d)
  {
  }

  lemma {:induction false} OrderlyIsSafe(g: Stage, c: Cluster)
    requires Orderly(g) && c.nodes == g.nodes && c.picks == g.picks && c.votes == g.votes && g.nodes.Keys == {0, 1, 2, 3, 4}
    requires g.nodes[2] == Decided3(2, V) && g.nodes[3] == Voted(3, TOP, V) && g.nodes[4] == Voted(4, TOP, V)
    ensures AllSafe(c)
  {
    hide Decided3, Voted, Closed;
    var q: set<NodeId> := {2, 3, 4};
    assert |c.nodes.Keys| == 5 && |q| == 3 && q <= c.nodes.Keys;
    forall k | k in c.picks
      ensures SafeAt(c, k.bal, k.slot, k.val)
    {
      forall d: Ballot | d.Less(k.bal)
        ensures OnlyAt(c, k.slot, d, k.val)
      {
        forall n | n in q ensures Settled(c, n, k.slot, d, k.val) { ClosedBelow(c.nodes[n], k.slot, d); }
        assert IsQuorum(c, q) && AllSettled(c, q, k.slot, d, k.val);
      }
    }
  }

  /** Being reconciled is not necessary: there is a run of five nodes in which the leader of
      a ballot picked another value than a promiser it counted had in its log, and all picks
      are safe none the less. The log was ahead of the ballot, and the quorum of the higher
      ballot keeps the pick from ever being chosen. */
  lemma {:induction false} SafeUnreconciledIsReachable() returns (run: seq<Cluster>, steps: seq<Step>)
    ensures IsRun(run, steps) && |run| == |steps| + 1
    ensures var c := run[|steps|]; OddSize(c) && AllSafe(c) && !Reconciled(c)
  {
    hide Reached, Orderly, IsRun, Decided3, Voted, AllSafe;
    var g := MidRules();
    run, steps := g.run, g.steps;
    ReachedRun(g);
    var c := run[|steps|];
    assert |c.nodes.Keys| == |c.nodes| == |{0 as NodeId, 1, 2, 3, 4}| == 5;
    OrderlyIsSafe(g, c);
    var p := Packet(1, C.Promise(0, MID, [KEPT]), [Pair(TOP, V)]);
    assert p in c.counted && Pick(MID, 0, []) in c.picks && p.log[0].val == V != [];
  }
}
