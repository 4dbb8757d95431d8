// A node over any sequence of inputs, and when a slot it accepted is resolved.
module Traces {
  import opened Ballots
  import opened Quorums
  import opened Acceptors
  import opened Windows
  import opened WindowChanges
  import opened Proposers
  import opened NodeSteps
  import opened LocalSteps
  import opened Conservation
  import opened Leading
  import opened Promising
  import opened Accepting
  import opened Counting
  import opened CatchingUp
  import opened Electing
  import opened Answers
  import C = Commands

  ghost predicate Turn(xs: seq<NodeState>, inputs: seq<Input>, i: nat)
    requires i < |inputs| < |xs|
  {
    xs[i + 1] == Handle(xs[i], inputs[i]).node
  }

  /** The states of a node, whatever it receives. */
  ghost predicate IsTrace(xs: seq<NodeState>, inputs: seq<Input>) {
    && |xs| == |inputs| + 1 && NodeOk(xs[0])
    && forall i: nat :: i < |inputs| ==> Turn(xs, inputs, i)
  }

  lemma {:induction false} TraceTurn(xs: seq<NodeState>, inputs: seq<Input>, i: nat)
    requires IsTrace(xs, inputs) && i < |inputs|
    ensures |xs| == |inputs| + 1 && xs[i + 1] == Handle(xs[i], inputs[i]).node
  {
    hide Handle, NodeOk;
    assert Turn(xs, inputs, i);
  }

  lemma {:induction false} TraceOk(xs: seq<NodeState>, inputs: seq<Input>, i: nat)
    requires IsTrace(xs, inputs) && i < |xs|
    ensures NodeOk(xs[i]) && xs[i].id == xs[0].id && xs[i].window.quorum == xs[0].window.quorum
  {
    hide Handle, NodeOk, WindowGrows;
    if i > 0 {
      TraceOk(xs, inputs, i - 1);
      TraceTurn(xs, inputs, i - 1);
      HandleKept(xs[i - 1], inputs[i - 1]);
      AdvancesOk(xs[i - 1].window, xs[i].window);
    }
  }

  /** A node that has received nothing: a follower that knows no ballot, with an empty log and
      one open slot; no slot holds a value or is bound; both quorums are those of the
      membership, one more than half of the peers. */
  lemma {:induction false} FreshNode(id: NodeId, peers: set<NodeId>)
    requires |peers| >= 2
    ensures var n := NewNode(id, peers);
            && NodeOk(n) && n.id == id && n.peers == peers && n.prop.state == Follower && n.prop.highest == None && n.prop.queue == []
            && n.window.decided == [] && End(n.window) == 1
            && (forall s: Slot :: View(n.window, s) == AwaitValue(None, n.window.quorum))
            && n.prop.quorum == n.window.quorum && 2 * (n.prop.quorum - 1) <= |peers| < 2 * n.prop.quorum
  {
    FreshNodeOk(id, peers);
  }

  /** The quorum of the proposer never changes, nor do the node and its peers. */
  lemma {:induction false} HandleSameQuorum(n: NodeState, input: Input)
    requires NodeOk(n)
    ensures var m := Handle(n, input).node; m.prop.quorum == n.prop.quorum && m.id == n.id && m.peers == n.peers
  {
    hide WindowOk, RoleHolds, Handle, PreparedUpTo, AcceptedTo, CountedTo, Replies, Learned, Changes;
    hide AsksFor, Forwards, TakesOver, Kept;
    HandleMeets(n, input);
    if input.Receive? && input.cmd.Promise? {
      PromiseSameQuorum(n, input.cmd.node, input.cmd.bal, input.cmd.reports);
    }
  }

  lemma {:induction false} PromiseSameQuorum(n: NodeState, peer: NodeId, bal: Ballot, reports: seq<C.Report>)
    requires NodeOk(n)
    ensures var m := Handle(n, Receive(C.Promise(peer, bal, reports))).node;
            m.prop.quorum == n.prop.quorum && m.id == n.id && m.peers == n.peers
  {
    hide WindowOk, RoleHolds, Handle, Absorbs, Changes, BatchAt, IsBatch;
    PromiseAnswer(n, peer, bal, reports);
  }

  /** Whatever a fresh node receives, both its quorums stay those of the membership. */
  lemma {:induction false} QuorumsStay(id: NodeId, peers: set<NodeId>, xs: seq<NodeState>, inputs: seq<Input>, i: nat)
    requires |peers| >= 2 && IsTrace(xs, inputs) && xs[0] == NewNode(id, peers) && i < |xs|
    ensures xs[i].id == id && xs[i].peers == peers
    ensures xs[i].prop.quorum == xs[i].window.quorum && 2 * (xs[i].prop.quorum - 1) <= |peers| < 2 * xs[i].prop.quorum
  {
    hide Handle, NodeOk, IsTrace, NewNode;
    FreshNode(id, peers);
    TraceLength(xs, inputs);
    TraceOk(xs, inputs, i);
    if i > 0 {
      QuorumsStay(id, peers, xs, inputs, i - 1);
      TraceTurn(xs, inputs, i - 1);
      TraceOk(xs, inputs, i - 1);
      HandleSameQuorum(xs[i - 1], inputs[i - 1]);
    }
  }

  // ---------------------------------------------------------------------------
  // A quorum resolves
  // ---------------------------------------------------------------------------

  /** The input is an ACCEPTED of ballot `bal` that names slot `s` before it meets a slot that
      is resolved by then. */
  ghost predicate Backs(n: NodeState, input: Input, bal: Ballot, s: Slot) {
    && input.Receive? && input.cmd.Accepted? && input.cmd.bal == bal
    && exists i: nat :: i < |input.cmd.slots| && input.cmd.slots[i] == s && UnmetUpTo(n.window, input.cmd, i)
  }

  ghost predicate UnmetUpTo(w: Window, cmd: C.Command, i: nat)
    requires cmd.Accepted? && i < |cmd.slots|
  {
    forall j: nat :: j < i ==> !MeetsResolved(w, cmd.node, cmd.bal, cmd.slots, j)
  }

  ghost function Backer(n: NodeState, input: Input, bal: Ballot, s: Slot): set<NodeId> {
    if Backs(n, input, bal, s) then {input.cmd.node} else {}
  }

  /** The peers whose ACCEPTED backed slot `s` within the first `i` inputs. */
  ghost function Backers(xs: seq<NodeState>, inputs: seq<Input>, bal: Ballot, s: Slot, i: nat): set<NodeId>
    requires i <= |inputs| < |xs|
  {
    if i == 0 then {} else Backers(xs, inputs, bal, s, i - 1) + Backer(xs[i - 1], inputs[i - 1], bal, s)
  }

  /** An ACCEPTED backs the unresolved slot exactly if the peer is counted for it. */
  lemma {:induction false} BacksExactly(n: NodeState, cmd: C.Command, s: Slot, k: nat, r: AcceptedResult)
    requires cmd.Accepted? && CountedUpTo(n.window, cmd.node, cmd.bal, cmd.slots, k, r) && !View(n.window, s).Resolved?
    ensures Backs(n, Receive(cmd), cmd.bal, s) <==> s in cmd.slots[..k]
  {
    hide View, Changes, CountedAt, CompletesAt, Completed;
    var slots := cmd.slots;
    if s in slots[..k] {
      var i :| 0 <= i < k && slots[i] == s;
      assert UnmetUpTo(n.window, cmd, i);
    }
    if Backs(n, Receive(cmd), cmd.bal, s) {
      var i: nat :| i < |slots| && slots[i] == s && UnmetUpTo(n.window, cmd, i);
      if i >= k { assert i == k; } else { assert slots[..k][i] == s; }
    }
  }

  /** An ACCEPTED counts its peer for a slot that holds the ballot exactly if it backs it. */
  lemma {:induction false} BackerCounts(n: NodeState, cmd: C.Command, s: Slot, bal: Ballot, v: Bytes)
    requires NodeOk(n) && cmd.Accepted? && Holds(View(n.window, s), bal, v)
    ensures var a, a' := View(n.window, s), View(Handle(n, Receive(cmd)).node.window, s);
            var members := Members(a.quorum) + Backer(n, Receive(cmd), bal, s);
            if |members| >= n.window.quorum - 1 then a' == Resolved(bal, v)
            else Holds(a', bal, v) && Members(a'.quorum) == members
  {
    hide View, Changes, Handle, RoleHolds, MeetsResolved, WindowOk, Backs, Observes;
    var w, w', input := n.window, Handle(n, Receive(cmd)).node.window, Receive(cmd);
    AcceptedReply(n, cmd.node, cmd.bal, cmd.slots);
    var k: nat :| CountedTo(n, cmd.node, cmd.bal, cmd.slots, k, Handle(n, input));
    var r := AcceptedResult(w', k < |cmd.slots|, Completed(w, cmd.node, cmd.bal, cmd.slots[..k]));
    assert CountedUpTo(w, cmd.node, cmd.bal, cmd.slots, k, r);
    assert CountedAt(w, cmd.node, cmd.bal, cmd.slots[..k], w', s);
    BacksExactly(n, cmd, s, k, r);
    HeldIsOpen(w, s);
    NotComplete(w, s);
    if cmd.bal != bal { BacksOwn(n, cmd, bal, s); }
    if s !in cmd.slots[..k] || cmd.bal != bal {
      assert Members(View(w, s).quorum) + Backer(n, input, bal, s) == Members(View(w, s).quorum);
    }
  }

  lemma {:induction false} BacksOwn(n: NodeState, cmd: C.Command, bal: Ballot, s: Slot)
    requires cmd.Accepted? && cmd.bal != bal
    ensures !Backs(n, Receive(cmd), bal, s)
  {
  }

  lemma {:induction false} HeldIsOpen(w: Window, s: Slot)
    requires View(w, s).AwaitQuorum?
    ensures s < End(w)
  {
  }

  /** The peers counted for an unresolved slot are short of its quorum. */
  lemma {:induction false} NotComplete(w: Window, s: Slot)
    requires WindowOk(w) && View(w, s).AwaitQuorum?
    ensures |Members(View(w, s).quorum)| < w.quorum - 1
  {
    hide View;
    ViewOk(w, s);
    PackedCount(View(w, s).quorum);
  }

  /** Inputs that bring no other value to slot `s`. */
  ghost predicate Neutral(input: Input, s: Slot) {
    input.Receive? ==>
      && !input.cmd.Promise?
      && (input.cmd.Accept? || input.cmd.Resolution? ==> !Names(input.cmd.entries, s))
  }

  lemma {:induction false} FirstOfPart(entries: seq<C.Entry>, k: nat, s: Slot)
    requires k <= |entries|
    ensures FirstValue(entries[..k], s).Some? ==> Names(entries, s)
  {
    if FirstValue(entries[..k], s).Some? {
      FirstIsEntry(entries[..k], s);
      var e := C.Entry(s, FirstValue(entries[..k], s).value);
      assert e in entries && e.slot == s;
    }
  }

  /** PREPARE leaves what a slot holds alone. */
  lemma {:induction false} PrepareLeaves(n: NodeState, b: Ballot, s: Slot, bal: Ballot, v: Bytes)
    requires NodeOk(n) && Holds(View(n.window, s), bal, v)
    ensures var a, a' := View(n.window, s), View(Handle(n, Receive(C.Prepare(b))).node.window, s);
            Holds(a', bal, v) && a'.quorum == a.quorum
  {
    hide View, Changes, Handle, RoleHolds, WindowOk, Observes, Pledges, Barred;
    PrepareAnswer(n, b);
    HeldIsOpen(n.window, s);
    var o := Handle(n, Receive(C.Prepare(b)));
    var k: Slot :| PreparedUpTo(n, b, k, o);
    assert PledgedAt(n.window, b, n.window.openMin, k, o.node.window, s);
  }

  lemma {:induction false} AcceptLeaves(n: NodeState, b: Ballot, entries: seq<C.Entry>, s: Slot)
    requires NodeOk(n) && View(n.window, s).AwaitQuorum? && !Names(entries, s)
    ensures View(Handle(n, Receive(C.Accept(b, entries))).node.window, s) == View(n.window, s)
  {
    hide View, Changes, Handle, RoleHolds, WindowOk, Observes, Took, Acceptable, StopsAt, EndAt, VotesFor;
    AcceptReply(n, b, entries);
    HeldIsOpen(n.window, s);
    var o := Handle(n, Receive(C.Accept(b, entries)));
    var k: nat :| AcceptedTo(n, b, entries, k, o);
    assert TookEntries(n.window, b, entries[..k], o.node.window, s);
    FirstOfPart(entries, k, s);
  }

  lemma {:induction false} ResolutionLeaves(n: NodeState, b: Ballot, entries: seq<C.Entry>, s: Slot)
    requires NodeOk(n) && View(n.window, s).AwaitQuorum? && !Names(entries, s)
    ensures View(Handle(n, Receive(C.Resolution(b, entries))).node.window, s) == View(n.window, s)
  {
    hide View, Changes, Handle, RoleHolds, WindowOk, Observes, AsksFor;
    ResolutionReply(n, b, entries);
    HeldIsOpen(n.window, s);
    assert Learned(n.window, b, entries, Handle(n, Receive(C.Resolution(b, entries))).node.window, s);
    FirstIsNamed(entries, s);
  }

  lemma {:induction false} ProposalLeaves(n: NodeState, v: Bytes, s: Slot)
    requires NodeOk(n) && View(n.window, s).AwaitQuorum?
    ensures View(Handle(n, Receive(C.Proposal(v))).node.window, s) == View(n.window, s)
  {
    hide View, Changes, Handle, RoleHolds, WindowOk, FreeSlot, Campaigned, TakesOver;
    ProposalAnswer(n, v);
    HeldIsOpen(n.window, s);
    NextSlotMeaning(n.window);
    var w' := Handle(n, Receive(C.Proposal(v))).node.window;
    if n.prop.state.Leader? { assert Kept(n.window, w', s); }
  }

  /** A neutral input leaves what the slot holds alone, but for the peer it counts and the
      resolution that completes. */
  lemma {:induction false} NeutralStep(n: NodeState, input: Input, s: Slot, bal: Ballot, v: Bytes)
    requires NodeOk(n) && Neutral(input, s) && Holds(View(n.window, s), bal, v)
    ensures var a, a' := View(n.window, s), View(Handle(n, input).node.window, s);
            var members := Members(a.quorum) + Backer(n, input, bal, s);
            if |members| >= n.window.quorum - 1 then a' == Resolved(bal, v)
            else Holds(a', bal, v) && Members(a'.quorum) == members
  {
    hide View, Handle, RoleHolds, WindowOk, Names, Observes, Forwards, Replies, Campaigned;
    var a := View(n.window, s);
    if input.Receive? && input.cmd.Accepted? {
      BackerCounts(n, input.cmd, s, bal, v);
    } else {
      NotComplete(n.window, s);
      assert Members(a.quorum) + Backer(n, input, bal, s) == Members(a.quorum);
      match input
      case TakeLead => LeadAnswer(n);
      case Receive(cmd) =>
        match cmd {
          case Proposal(u) => ProposalLeaves(n, u, s);
          case Prepare(b) => PrepareLeaves(n, b, s, bal, v);
          case Accept(b, es) => AcceptLeaves(n, b, es, s);
          case Reject(peer, b, d) => RejectAnswer(n, peer, b, d);
          case Resolution(b, es) => ResolutionLeaves(n, b, es, s);
          case Catchup(peer, slots) => CatchupAnswer(n, peer, slots);
        }
    }
  }

  /** The slot is resolved with the pair if the peers make the quorum without the leader, and
      holds the pair with exactly these peers counted if not. */
  ghost predicate ResolvedBy(w: Window, s: Slot, bal: Ballot, v: Bytes, peers: set<NodeId>) {
    if |peers| >= w.quorum - 1 then View(w, s) == Resolved(bal, v)
    else Holds(View(w, s), bal, v) && Members(View(w, s).quorum) == peers
  }

  lemma {:induction false} ResolvedStep(n: NodeState, input: Input, s: Slot, bal: Ballot, v: Bytes, peers: set<NodeId>)
    requires NodeOk(n) && Neutral(input, s) && ResolvedBy(n.window, s, bal, v, peers)
    ensures ResolvedBy(Handle(n, input).node.window, s, bal, v, peers + Backer(n, input, bal, s))
  {
    hide View, Handle, NodeOk, Backs, Neutral;
    HandleQuorum(n, input);
    if |peers| >= n.window.quorum - 1 {
      SubsetSize(peers, peers + Backer(n, input, bal, s));
      StaysResolved(n, input, s);
    } else {
      NeutralStep(n, input, s, bal, v);
    }
  }

  lemma {:induction false} HandleQuorum(n: NodeState, input: Input)
    requires NodeOk(n)
    ensures Handle(n, input).node.window.quorum == n.window.quorum
  {
    hide Handle, WindowOk, RoleHolds, WindowGrows;
    HandleKept(n, input);
    AdvancesOk(n.window, Handle(n, input).node.window);
  }

  /** A slot that holds a pair is resolved with it exactly when its quorum backed it: as long
      as nothing else is proposed to the node for the slot, whatever it is asked to promise
      in between, the slot is resolved at a moment if and only if the distinct peers counted
      at the start and those whose ACCEPTED backed it by then are at least the quorum without
      the leader. Till then it holds the pair, with exactly these peers counted. */
  lemma {:induction false} ResolvesExactly(xs: seq<NodeState>, inputs: seq<Input>, s: Slot, bal: Ballot, v: Bytes, i: nat)
    requires IsTrace(xs, inputs) && i <= |inputs| && |xs| == |inputs| + 1 && Holds(View(xs[0].window, s), bal, v)
    requires forall input :: input in inputs ==> Neutral(input, s)
    ensures ResolvedBy(xs[i].window, s, bal, v, Members(View(xs[0].window, s).quorum) + Backers(xs, inputs, bal, s, i))
  {
    hide View, Handle, NodeOk, IsTrace, Backer, Neutral, ResolvedBy, Members;
    var start := Members(View(xs[0].window, s).quorum);
    if i == 0 {
      TraceOk(xs, inputs, 0);
      StartsHeld(xs[0], s, bal, v);
      assert start + Backers(xs, inputs, bal, s, 0) == start;
    } else {
      ResolvesExactly(xs, inputs, s, bal, v, i - 1);
      TraceTurn(xs, inputs, i - 1);
      TraceOk(xs, inputs, i - 1);
      assert inputs[i - 1] in inputs;
      var before := start + Backers(xs, inputs, bal, s, i - 1);
      ResolvedStep(xs[i - 1], inputs[i - 1], s, bal, v, before);
      assert before + Backer(xs[i - 1], inputs[i - 1], bal, s) == start + Backers(xs, inputs, bal, s, i);
    }
  }

  lemma {:induction false} TraceLength(xs: seq<NodeState>, inputs: seq<Input>)
    requires IsTrace(xs, inputs)
    ensures |xs| == |inputs| + 1
  {
    hide NodeOk, Handle;
  }

  lemma {:induction false} StartsShort(n: NodeState, s: Slot)
    requires NodeOk(n) && View(n.window, s).AwaitQuorum?
    ensures |Members(View(n.window, s).quorum)| < n.window.quorum - 1
  {
    hide View, WindowOk, RoleHolds;
    NotComplete(n.window, s);
  }

  lemma {:induction false} StartsHeld(n: NodeState, s: Slot, bal: Ballot, v: Bytes)
    requires NodeOk(n) && Holds(View(n.window, s), bal, v)
    ensures ResolvedBy(n.window, s, bal, v, Members(View(n.window, s).quorum))
  {
    hide View, NodeOk;
    StartsShort(n, s);
  }

  lemma {:induction false} StaysResolved(n: NodeState, input: Input, s: Slot)
    requires NodeOk(n) && View(n.window, s).Resolved?
    ensures View(Handle(n, input).node.window, s) == View(n.window, s)
  {
    hide View, Handle, WindowOk, RoleHolds;
    HandleKept(n, input);
    GrowsHere(n.window, Handle(n, input).node.window, s);
  }

  lemma {:induction false} GrowsHere(w: Window, w': Window, s: Slot)
    requires Advances(w, w')
    ensures AccGrows(View(w, s), View(w', s)) && WindowOk(w')
  {
    hide View, AccGrows, WindowOk;
  }

  /** The slot is resolved, has accepted a higher ballot, or holds the pair and has counted
      the peers. */
  ghost predicate CountedOrPast(a: Acc, bal: Ballot, v: Bytes, peers: set<NodeId>) {
    a.Resolved? || (a.AwaitQuorum? && bal.Less(a.bal)) || (Holds(a, bal, v) && peers <= Members(a.quorum))
  }

  lemma {:induction false} CountedStep(n: NodeState, input: Input, s: Slot, bal: Ballot, v: Bytes, peers: set<NodeId>)
    requires NodeOk(n) && CountedOrPast(View(n.window, s), bal, v, peers)
    ensures CountedOrPast(View(Handle(n, input).node.window, s), bal, v, peers + Backer(n, input, bal, s))
  {
    hide View, Handle, RoleHolds, WindowOk, Backs;
    HandleKept(n, input);
    GrowsHere(n.window, Handle(n, input).node.window, s);
    if Holds(View(n.window, s), bal, v) {
      if input.Receive? && input.cmd.Accepted? { BackerCounts(n, input.cmd, s, bal, v); } else { NoBacker(n, input, bal, s); }
    }
  }

  lemma {:induction false} NoBacker(n: NodeState, input: Input, bal: Ballot, s: Slot)
    requires !(input.Receive? && input.cmd.Accepted?)
    ensures Backer(n, input, bal, s) == {}
  {
  }

  /** A quorum resolves: whatever else a node receives, once ACCEPTED messages of distinct peers
      that make the quorum without the leader backed a pair that a slot holds, the slot is
      resolved, unless it accepted a higher ballot. */
  lemma {:induction false} QuorumResolves(xs: seq<NodeState>, inputs: seq<Input>, s: Slot, bal: Ballot, v: Bytes, i: nat)
    requires IsTrace(xs, inputs) && i <= |inputs| && Holds(View(xs[0].window, s), bal, v)
    ensures |xs| == |inputs| + 1 && CountedOrPast(View(xs[i].window, s), bal, v, Backers(xs, inputs, bal, s, i))
    ensures |Backers(xs, inputs, bal, s, i)| >= xs[0].window.quorum - 1 ==>
              var a := View(xs[i].window, s); a.Resolved? || (a.AwaitQuorum? && bal.Less(a.bal))
  {
    hide View, Handle, NodeOk, IsTrace, Backs;
    TraceLength(xs, inputs);
    TraceOk(xs, inputs, i);
    if i > 0 {
      QuorumResolves(xs, inputs, s, bal, v, i - 1);
      TraceTurn(xs, inputs, i - 1);
      TraceOk(xs, inputs, i - 1);
      CountedStep(xs[i - 1], inputs[i - 1], s, bal, v, Backers(xs, inputs, bal, s, i - 1));
    }
    var a := View(xs[i].window, s);
    if Holds(a, bal, v) && Backers(xs, inputs, bal, s, i) <= Members(a.quorum) {
      StartsShort(xs[i], s);
      SubsetSize(Backers(xs, inputs, bal, s, i), Members(a.quorum));
    }
  }
}
