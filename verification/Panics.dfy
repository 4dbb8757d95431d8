// Which steps of a run panic: a handler that hands the transport a message for a node that
// is not one of its peers.
module Panics {
  import opened Ballots
  import opened Windows
  import opened Proposers
  import opened NodeSteps
  import opened WindowChanges
  import opened CatchingUp
  import opened Clusters
  import opened Invariants
  import opened Growth
  import opened Runs
  import C = Commands

  /** The handler of RESOLUTION asks for the slots it still misses. */
  predicate AsksToCatchUp(o: Outcome) {
    End(o.node.window) > o.node.window.openMin + 1
  }

  lemma {:induction false} OneSend(peers: set<NodeId>, to: NodeId, cmd: C.Command)
    ensures C.Panics(peers, [C.Send(to, cmd)]) <==> to !in peers
    ensures !C.Panics(peers, [C.Broadcast(cmd)]) && !C.Panics(peers, [])
  {
    if to !in peers { assert !C.Sendable(peers, [C.Send(to, cmd)][0]); }
  }

  lemma {:induction false} ReplyToOwner(c: Cluster, n: NodeId, b: Ballot)
    requires Inv(c) && n in c.nodes && Issued(c, b) && n != b.node
    ensures b.node in c.nodes[n].peers
  {
    InvNode(c, n);
  }

  lemma {:induction false} FollowersPeer(c: Cluster, n: NodeId)
    requires Inv(c) && n in c.nodes && c.nodes[n].prop.highest.Some?
    ensures c.nodes[n].prop.state.Follower? <==> c.nodes[n].prop.highest.value.node in c.nodes[n].peers
  {
    hide WindowOk, At;
    InvNode(c, n);
  }

  lemma {:induction false} SamePeers(c: Cluster, d: Cluster, n: NodeId)
    requires Grows(c, d) && n in c.nodes
    ensures n in d.nodes && d.nodes[n].peers == c.nodes[n].peers
  {
    assert NodeGrows(c.nodes[n], d.nodes[n]);
  }

  lemma {:induction false} ProposalSends(c: Cluster, n: NodeId, v: Bytes)
    requires Inv(c) && n in c.nodes
    ensures !C.Panics(c.nodes[n].peers, OnProposal(c.nodes[n], v).outs)
  {
    hide Inv, C.Panics, Place, NextSlot, OwnVotes;
    var x := c.nodes[n];
    if x.prop.highest.Some? {
      FollowersPeer(c, n);
      OneSend(x.peers, x.prop.highest.value.node, C.Proposal(v));
    }
    LeadSends(Enqueue(x, v));
    if x.prop.state.Leader? {
      OneSend(x.peers, 0, C.Accept(x.prop.state.proposal, [C.Entry(NextSlot(x.window), v)]));
    } else {
      OneSend(x.peers, 0, C.Proposal(v));
    }
  }

  lemma {:induction false} LeadSends(x: NodeState)
    ensures !C.Panics(x.peers, ProposeLeadership(x).outs)
    ensures !C.Panics(x.peers, DriveAccept(x).outs)
  {
  }

  lemma {:induction false} ResolutionSends(x: NodeState, b: Ballot, entries: seq<C.Entry>)
    ensures var o := OnResolution(x, b, entries);
            && o.node.prop.highest.Some?
            && (C.Panics(x.peers, o.outs) <==> AsksToCatchUp(o) && o.node.prop.highest.value.node !in x.peers)
  {
    hide C.Panics, ResolveAll, Unresolved;
    var o := OnResolution(x, b, entries);
    var w := o.node.window;
    OneSend(x.peers, o.node.prop.highest.value.node, C.Catchup(x.id, Unresolved(w, w.openMin, End(w))));
  }

  lemma {:induction false} CatchupSends(x: NodeState, q: NodeId, slots: seq<Slot>)
    requires q in x.peers
    ensures !C.Panics(x.peers, OnCatchup(x, q, slots).outs)
  {
    hide Batches, Sort;
  }

  /** A step panics exactly if a node handles a RESOLUTION, still misses slots after it, and
      is candidate or leader then: it looks itself up among its peers to ask for them. */
  lemma {:induction false} StepPanics(c: Cluster, step: Step)
    requires Inv(c) && Enabled(c, step)
    ensures var n := Actor(step); var o := Handle(c.nodes[n], InputOf(step));
            C.Panics(c.nodes[n].peers, o.outs) <==>
              step.Deliver? && step.packet.cmd.Resolution? && AsksToCatchUp(o) && !o.node.prop.state.Follower?
  {
    hide Inv, C.Panics, Grows, AsksToCatchUp, OnProposal, ProposeLeadership, DriveAccept;
    hide OnPromise, OnPrepare, OnAccept, OnAccepted, OnResolution, OnCatchup, OnReject, Next;
    match step
    case Submit(n, v) => ProposalSends(c, n, v);
    case Elect(n) => LeadSends(c.nodes[n]);
    case Deliver(p) => DeliverPanics(c, p);
  }

  lemma {:induction false} NodeAfter(c: Cluster, p: Packet)
    requires Inv(c) && Enabled(c, Deliver(p))
    ensures var y := Handle(c.nodes[p.dst], Receive(p.cmd)).node;
            y.peers == c.nodes[p.dst].peers
            && (y.prop.highest.Some? ==> (y.prop.state.Follower? <==> y.prop.highest.value.node in y.peers))
  {
    hide Inv, Grows, Handle;
    StepKeeps(c, Deliver(p));
    SamePeers(c, Next(c, Deliver(p)), p.dst);
    if Next(c, Deliver(p)).nodes[p.dst].prop.highest.Some? { FollowersPeer(Next(c, Deliver(p)), p.dst); }
  }

  lemma {:induction false} DeliverPanics(c: Cluster, p: Packet)
    requires Inv(c) && Enabled(c, Deliver(p))
    ensures var o := Handle(c.nodes[p.dst], Receive(p.cmd));
            C.Panics(c.nodes[p.dst].peers, o.outs) <==> p.cmd.Resolution? && AsksToCatchUp(o) && !o.node.prop.state.Follower?
  {
    hide Inv, C.Panics, Grows, AsksToCatchUp, OnProposal, DriveAccept, PromiseOk, Issued, VotedSome, Chosen;
    hide OnPromise, OnPrepare, OnAccept, OnAccepted, OnResolution, OnCatchup, OnReject, Next;
    var x := c.nodes[p.dst];
    InvPacket(c, p);
    NodeAfter(c, p);
    match p.cmd {
      case Proposal(v) => ProposalSends(c, p.dst, v);
      case Prepare(b) => ReplyToOwner(c, p.dst, b); PrepareSends(x, b);
      case Promise(q, b, rs) => PromiseSends(x, q, b, rs);
      case Accept(b, es) => ReplyToOwner(c, p.dst, b); AcceptSends(x, b, es);
      case Reject(_, b, d) => RejectSends(x, b, d);
      case Accepted(q, b, slots) => AcceptedSends(x, q, b, slots);
      case Resolution(b, es) => ResolutionSends(x, b, es);
      case Catchup(q, slots) => InvNode(c, p.dst); CatchupSends(x, q, slots);
    }
  }

  lemma {:induction false} PrepareSends(x: NodeState, b: Ballot)
    requires b.node in x.peers
    ensures !C.Panics(x.peers, OnPrepare(x, b).outs)
  {
    hide PrepareSweep;
  }

  lemma {:induction false} PromiseSends(x: NodeState, q: NodeId, b: Ballot, rs: seq<C.Report>)
    ensures !C.Panics(x.peers, OnPromise(x, q, b, rs).outs)
  {
    hide DriveAccept, Absorb, C.Panics;
    if x.prop.state.Candidate? {
      LeadSends(x.(prop := ReceivePromise(x.prop, q, b), window := Absorb(x.window, rs)));
    } else {
      OneSend(x.peers, 0, C.Proposal([]));
    }
  }

  lemma {:induction false} AcceptSends(x: NodeState, b: Ballot, es: seq<C.Entry>)
    requires b.node in x.peers
    ensures !C.Panics(x.peers, OnAccept(x, b, es).outs)
  {
    hide AcceptLoop;
  }

  lemma {:induction false} AcceptedSends(x: NodeState, q: NodeId, b: Ballot, slots: seq<Slot>)
    ensures !C.Panics(x.peers, OnAccepted(x, q, b, slots).outs)
  {
    hide AcceptedLoop;
  }

  lemma {:induction false} RejectSends(x: NodeState, b: Ballot, d: Ballot)
    requires var y := OnReject(x, b, d).node;
             y.peers == x.peers && (y.prop.highest.Some? ==> (y.prop.state.Follower? <==> y.prop.highest.value.node in y.peers))
    ensures !C.Panics(x.peers, OnReject(x, b, d).outs)
  {
  }

  // ---------------------------------------------------------------------------
  // The condition before the step
  // ---------------------------------------------------------------------------

  /** Slot `s` is unresolved and not named by `entries`, while a slot `t` above it is open or
      named. */
  ghost predicate IsGap(w: Window, entries: seq<C.Entry>, s: Slot, t: Slot) {
    s < t && !View(w, s).Resolved? && !Names(entries, s) && (t < End(w) || Names(entries, t))
  }

  ghost predicate LeavesGap(w: Window, entries: seq<C.Entry>) {
    exists s: Slot, t: Slot :: IsGap(w, entries, s, t)
  }

  /** The node is candidate or leader and stays so: it knows no ballot below `b`. */
  predicate KeepsRole(x: NodeState, b: Ballot) {
    !x.prop.state.Follower? && x.prop.highest.Some? && b.AtMost(x.prop.highest.value)
  }

  /** Where the window ends after a RESOLUTION: where it ended, behind a named slot, or behind
      the one slot that is kept open. */
  lemma {:induction false} ResolveEnd(w: Window, b: Ballot, entries: seq<C.Entry>)
    requires WindowOk(w)
    ensures var w' := ResolveAll(w, b, entries);
            && w'.openMin >= w.openMin && End(w') >= End(w)
            && (End(w') == End(w) || (End(w') > 0 && Names(entries, End(w') - 1)) || End(w') == w'.openMin + 1)
  {
    hide View, ResolveAll, Learned;
    ResolveMeaning(w, b, entries);
    var w' := ResolveAll(w, b, entries);
    if End(w') - 1 in NewSlots(w, entries) {
      var e :| e in entries && e.slot == End(w') - 1;
      assert Names(entries, End(w') - 1);
    }
  }

  lemma {:induction false} StartOpen(w: Window)
    requires WindowOk(w)
    ensures w.openMin < End(w) && !View(w, w.openMin).Resolved?
    ensures forall s: Slot :: s < w.openMin ==> View(w, s).Resolved?
    ensures forall s: Slot :: View(w, s).Resolved? ==> s < End(w)
  {
    LogIsResolvedPrefix(w);
    forall s: Slot | s >= End(w) ensures !View(w, s).Resolved? { BeyondEnd(w, s); }
  }

  /** More than one slot is open after RESOLUTION exactly if it leaves a gap. */
  lemma {:induction false} AsksExactly(n: NodeState, b: Ballot, entries: seq<C.Entry>)
    requires WindowOk(n.window)
    ensures AsksToCatchUp(OnResolution(n, b, entries)) <==> LeavesGap(n.window, entries)
  {
    hide WindowOk, View, ResolveAll, Names, Unresolved, ObserveBallot, Learned, Changes;
    var w := n.window;
    var w' := ResolveAll(w, b, entries);
    ResolveMeaning(w, b, entries);
    ChangesFacts(w, w', NewSlots(w, entries), NewBallots(w, b, entries));
    ResolveEnd(w, b, entries);
    StartOpen(w');
    if LeavesGap(w, entries) {
      var s: Slot, t: Slot :| IsGap(w, entries, s, t);
      LearnedNamed(w, b, entries, w', s);
      LearnedNamed(w, b, entries, w', t);
    }
    if End(w') > w'.openMin + 1 {
      var s: Slot, t: Slot := w'.openMin, End(w') - 1;
      LearnedNamed(w, b, entries, w', s);
      assert IsGap(w, entries, s, t);
    }
  }

  /** A ballot of a run that its owner has not observed does not exist, so a candidate or
      leader keeps its role exactly if it knows no lower ballot. */
  lemma {:induction false} RoleExactly(c: Cluster, n: NodeId, b: Ballot, entries: seq<C.Entry>)
    requires Inv(c) && n in c.nodes && Issued(c, b)
    ensures !OnResolution(c.nodes[n], b, entries).node.prop.state.Follower? <==> KeepsRole(c.nodes[n], b)
  {
    hide WindowOk, View, ResolveAll, Unresolved;
    InvNode(c, n);
  }

  /** Which step of a run panics, told before it is taken: exactly the delivery of a
      RESOLUTION that leaves a gap to a node that is candidate or leader of a ballot not below
      it, for that node then looks itself up among its peers to ask for the missing slots. */
  lemma {:induction false} OnlyCatchupPanics(run: seq<Cluster>, steps: seq<Step>, i: nat)
    requires IsRun(run, steps) && i < |steps|
    ensures Enabled(run[i], steps[i])
    ensures var x := run[i].nodes[Actor(steps[i])];
            C.Panics(x.peers, Handle(x, InputOf(steps[i])).outs) <==>
              && steps[i].Deliver? && steps[i].packet.cmd.Resolution?
              && KeepsRole(x, steps[i].packet.cmd.bal) && LeavesGap(x.window, steps[i].packet.cmd.entries)
  {
    hide Inv, IsRun, Next, C.Panics, Grows, KeepsRole, LeavesGap, AsksToCatchUp, Issued, Chosen;
    hide OnPromise, OnPrepare, OnAccept, OnAccepted, OnResolution, OnCatchup, OnReject, OnProposal, ProposeLeadership;
    RunStarts(run, steps);
    RunKeeps(run, steps, i);
    RunStep(run, steps, i);
    StepPanics(run[i], steps[i]);
    if steps[i].Deliver? && steps[i].packet.cmd.Resolution? {
      var p := steps[i].packet;
      InvPacket(run[i], p);
      NodeWindow(run[i], p.dst);
      AsksExactly(run[i].nodes[p.dst], p.cmd.bal, p.cmd.entries);
      RoleExactly(run[i], p.dst, p.cmd.bal, p.cmd.entries);
    }
  }

  lemma {:induction false} NodeWindow(c: Cluster, n: NodeId)
    requires Inv(c) && n in c.nodes
    ensures WindowOk(c.nodes[n].window)
  {
    InvNode(c, n);
  }
}
