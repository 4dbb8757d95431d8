// A whole candidacy: whatever a candidate receives until a promise wins its election, its
// batch proposes, in every slot, the value of highest ballot that it held or was told of.
module Candidacies {
  import opened Ballots
  import opened Quorums
  import opened Acceptors
  import opened Windows
  import opened Proposers
  import opened NodeSteps
  import opened Leading
  import opened LocalSteps
  import opened Conservation
  import opened Accepting
  import opened CatchingUp
  import opened Electing
  import opened WindowChanges
  import opened Answers
  import opened Traces
  import C = Commands

  // ---------------------------------------------------------------------------
  // What a candidate learns
  // ---------------------------------------------------------------------------

  /** The input is a PROMISE that reports pair `p` for slot `t`. */
  ghost predicate ReportedIn(input: Input, t: Slot, p: Pair) {
    input.Receive? && input.cmd.Promise? && C.Report(t, p.bal, p.val) in input.cmd.reports
  }

  /** The input is an ACCEPT of pair `p` for slot `t`. */
  ghost predicate AcceptedIn(input: Input, t: Slot, p: Pair) {
    input.Receive? && input.cmd.Accept? && input.cmd.bal == p.bal && C.Entry(t, p.val) in input.cmd.entries
  }

  ghost predicate LearntFrom(inputs: seq<Input>, t: Slot, p: Pair) {
    exists input :: input in inputs && (ReportedIn(input, t, p) || AcceptedIn(input, t, p))
  }

  ghost predicate ReportsAtMost(input: Input, t: Slot, top: Option<Pair>) {
    forall p :: ReportedIn(input, t, p) ==> top.Some? && p.bal.AtMost(top.value.bal)
  }

  /** `top` was held at the start or learnt since; its ballot is not below that of what was
      held, nor below any report; and there is none only if nothing was held or reported. */
  ghost predicate KnownOver(own: Option<Pair>, inputs: seq<Input>, t: Slot, top: Option<Pair>) {
    && (own.Some? ==> top.Some? && own.value.bal.AtMost(top.value.bal))
    && (forall input :: input in inputs ==> ReportsAtMost(input, t, top))
    && (top.Some? ==> top == own || LearntFrom(inputs, t, top.value))
  }

  lemma {:induction false} KnownNow(own: Option<Pair>, t: Slot)
    ensures KnownOver(own, [], t, own)
  {
  }

  lemma {:induction false} KnownLater(own: Option<Pair>, inputs: seq<Input>, t: Slot, mid: Option<Pair>,
                                      input: Input, top: Option<Pair>)
    requires KnownOver(own, inputs, t, mid) && KnownOver(mid, [input], t, top)
    ensures KnownOver(own, inputs + [input], t, top)
  {
    hide ReportedIn, AcceptedIn;
    var all := inputs + [input];
    forall x | x in all
      ensures ReportsAtMost(x, t, top)
    {
      if x in inputs { assert ReportsAtMost(x, t, mid); } else { assert x in [input]; }
    }
    if top.Some? && top != own {
      if top == mid {
        var x :| x in inputs && (ReportedIn(x, t, top.value) || AcceptedIn(x, t, top.value));
        assert x in all;
      } else {
        var x :| x in [input] && (ReportedIn(x, t, top.value) || AcceptedIn(x, t, top.value));
        assert x in all;
      }
    }
  }

  // ---------------------------------------------------------------------------
  // Handlers that learn nothing
  // ---------------------------------------------------------------------------

  /** Slots that are unresolved afterwards hold the pair they held. */
  ghost predicate SameValues(w: Window, w': Window) {
    forall t: Slot :: !View(w', t).Resolved? ==> !View(w, t).Resolved? && HighestValue(View(w', t)) == HighestValue(View(w, t))
  }

  lemma {:induction false} SameTransitive(u: Window, v: Window, w: Window)
    requires SameValues(u, v) && SameValues(v, w)
    ensures SameValues(u, w)
  {
    hide View;
  }

  lemma {:induction false} SameReflexive(w: Window)
    ensures SameValues(w, w)
  {
  }

  lemma {:induction false} AccessSame(w: Window, s: Slot, a: Acc)
    requires WindowOk(w) && !View(w, s).Resolved? && AccOk(a, w.quorum)
    requires a.Resolved? || HighestValue(a) == HighestValue(View(w, s))
    ensures WindowOk(Put(w, s, a)) && SameValues(w, Put(w, s, a))
  {
    PutMeaning(w, s, a);
    forall t: Slot | t >= End(w) ensures View(w, t).AwaitValue? { BeyondEnd(w, t); }
  }

  lemma {:induction false} OperationsSame(w: Window, s: Slot, bal: Ballot, val: Bytes, peer: NodeId)
    requires WindowOk(w) && !View(w, s).Resolved?
    ensures var a := View(w, s); var w1 := Put(w, s, ReceivePrepare(a, bal).0);
            var w2, w3 := Put(w, s, ReceiveAccepted(a, peer, bal)), Put(w, s, Resolve(a, bal, val));
            && WindowOk(w1) && SameValues(w, w1) && WindowOk(w2) && SameValues(w, w2) && WindowOk(w3) && SameValues(w, w3)
  {
    hide WindowOk, View, Put, SameValues;
    var a := View(w, s);
    ViewOk(w, s);
    OperationsGrow(a, w.quorum, bal, val, peer);
    AccessSame(w, s, ReceivePrepare(a, bal).0);
    AccessSame(w, s, ReceiveAccepted(a, peer, bal));
    AccessSame(w, s, Resolve(a, bal, val));
  }

  lemma {:induction false} PrepareSame(w: Window, bal: Ballot, slot: Slot, end: Slot)
    requires WindowOk(w)
    ensures SameValues(w, PrepareSweep(w, bal, slot, end).window)
    decreases end - slot
  {
    hide WindowOk, View, Put, SameValues;
    SameReflexive(w);
    if slot < end {
      if View(w, slot).Resolved? {
        PrepareSame(w, bal, slot + 1, end);
      } else {
        var w' := Put(w, slot, ReceivePrepare(View(w, slot), bal).0);
        OperationsSame(w, slot, bal, [], 0);
        PrepareSame(w', bal, slot + 1, end);
        SameTransitive(w, w', PrepareSweep(w', bal, slot + 1, end).window);
      }
    }
  }

  lemma {:induction false} AcceptedSame(w: Window, peer: NodeId, bal: Ballot, slots: seq<Slot>)
    requires WindowOk(w)
    ensures SameValues(w, AcceptedLoop(w, peer, bal, slots).window)
    decreases |slots|
  {
    hide WindowOk, View, Put, SameValues, ReceiveAccepted;
    SameReflexive(w);
    if slots != [] && !View(w, slots[0]).Resolved? {
      if slots[0] >= End(w) {
        AcceptedSame(w, peer, bal, slots[1..]);
      } else {
        var w' := Put(w, slots[0], ReceiveAccepted(View(w, slots[0]), peer, bal));
        OperationsSame(w, slots[0], bal, [], peer);
        AcceptedSame(w', peer, bal, slots[1..]);
        SameTransitive(w, w', AcceptedLoop(w', peer, bal, slots[1..]).window);
      }
    }
  }

  lemma {:induction false} ResolveSame(w: Window, bal: Ballot, entries: seq<C.Entry>)
    requires WindowOk(w)
    ensures SameValues(w, ResolveAll(w, bal, entries))
    decreases |entries|
  {
    hide WindowOk, View, Put, SameValues, Resolve;
    SameReflexive(w);
    if entries != [] {
      var e := entries[0];
      if View(w, e.slot).Resolved? {
        ResolveSame(w, bal, entries[1..]);
      } else {
        var w' := Put(w, e.slot, Resolve(View(w, e.slot), bal, e.val));
        OperationsSame(w, e.slot, bal, e.val, 0);
        ResolveSame(w', bal, entries[1..]);
        SameTransitive(w, w', ResolveAll(w', bal, entries[1..]));
      }
    }
  }

  // ---------------------------------------------------------------------------
  // One input
  // ---------------------------------------------------------------------------

  /** The window of a candidate once it took in an input, before it drives ACCEPT. */
  function TakeIn(n: NodeState, input: Input): Window {
    if input.Receive? && input.cmd.Promise? then Absorb(n.window, input.cmd.reports) else Handle(n, input).node.window
  }

  lemma {:induction false} PromiseKnown(w: Window, reports: seq<C.Report>, peer: NodeId, bal: Ballot, t: Slot)
    requires WindowOk(w) && !View(Absorb(w, reports), t).Resolved?
    ensures !View(w, t).Resolved?
    ensures KnownOver(HighestValue(View(w, t)), [Receive(C.Promise(peer, bal, reports))], t, HighestValue(View(Absorb(w, reports), t)))
  {
    hide WindowOk, View, Absorb;
    AbsorbMeaning(w, reports, t);
    var own, top := HighestValue(View(w, t)), HighestValue(View(Absorb(w, reports), t));
    var input := Receive(C.Promise(peer, bal, reports));
    forall p | ReportedIn(input, t, p)
      ensures top.Some? && p.bal.AtMost(top.value.bal)
    {
      assert C.Report(t, p.bal, p.val) in reports;
    }
    assert ReportsAtMost(input, t, top);
    if top.Some? && top != own {
      var r :| r in reports && r.slot == t && top.value == Pair(r.bal, r.val);
      assert C.Report(t, r.bal, r.val) == r && ReportedIn(input, t, top.value);
    }
    assert input in [input];
  }

  lemma {:induction false} AcceptKnown(n: NodeState, bal: Ballot, entries: seq<C.Entry>, t: Slot)
    requires WindowOk(n.window) && !View(OnAccept(n, bal, entries).node.window, t).Resolved?
    ensures !View(n.window, t).Resolved?
    ensures KnownOver(HighestValue(View(n.window, t)), [Receive(C.Accept(bal, entries))], t,
                      HighestValue(View(OnAccept(n, bal, entries).node.window, t)))
  {
    hide WindowOk, View, AcceptLoop, ObserveBallot;
    var w, w' := n.window, OnAccept(n, bal, entries).node.window;
    var k := AcceptAnswer(w, n.id, bal, entries);
    assert TookEntries(w, bal, entries[..k], w', t);
    AcceptAdvances(w, n.id, bal, entries);
    GrowsAt(w, w', t);
    var own, top := HighestValue(View(w, t)), HighestValue(View(w', t));
    var v := FirstValue(entries[..k], t);
    if v.Some? {
      FirstIsEntry(entries[..k], t);
      assert C.Entry(t, v.value) in entries;
      if top != own { assert AcceptedIn(Receive(C.Accept(bal, entries)), t, top.value); }
    }
    assert Receive(C.Accept(bal, entries)) in [Receive(C.Accept(bal, entries))];
  }

  lemma {:induction false} GrowsAt(w: Window, w': Window, t: Slot)
    requires Advances(w, w') && !View(w', t).Resolved?
    ensures !View(w, t).Resolved?
    ensures var own, top := HighestValue(View(w, t)), HighestValue(View(w', t));
            own.Some? ==> top.Some? && own.value.bal.AtMost(top.value.bal)
  {
    assert AccGrows(View(w, t), View(w', t));
  }

  lemma {:induction false} SameKnown(w: Window, w': Window, input: Input, t: Slot)
    requires SameValues(w, w') && !View(w', t).Resolved? && !(input.Receive? && input.cmd.Promise?)
    ensures !View(w, t).Resolved? && KnownOver(HighestValue(View(w, t)), [input], t, HighestValue(View(w', t)))
  {
    hide View;
    assert ReportsAtMost(input, t, HighestValue(View(w', t)));
  }

  /** A slot still unresolved after an input was before, and holds the pair of highest ballot
      among what it held and what the input reported. */
  lemma {:induction false} TurnKnown(n: NodeState, input: Input, t: Slot)
    requires WindowOk(n.window) && n.prop.state.Candidate? && !View(TakeIn(n, input), t).Resolved?
    ensures !View(n.window, t).Resolved?
    ensures KnownOver(HighestValue(View(n.window, t)), [input], t, HighestValue(View(TakeIn(n, input), t)))
  {
    hide WindowOk, View, KnownOver, Absorb, SameValues, PrepareSweep, AcceptedLoop, ResolveAll, OnAccept, Forward;
    hide ObserveBallot, ReceiveReject, Batches, Sort, Unresolved;
    SameReflexive(n.window);
    if input.TakeLead? {
      SameKnown(n.window, n.window, input, t);
    } else {
      match input.cmd {
        case Promise(peer, b, reports) => PromiseKnown(n.window, reports, peer, b, t);
        case Accept(b, es) => AcceptKnown(n, b, es, t);
        case Prepare(b) => PrepareSame(n.window, b, n.window.openMin, End(n.window)); SameKnown(n.window, TakeIn(n, input), input, t);
        case Accepted(peer, b, slots) => AcceptedSame(n.window, peer, b, slots); SameKnown(n.window, TakeIn(n, input), input, t);
        case Resolution(b, es) => ResolveSame(n.window, b, es); SameKnown(n.window, TakeIn(n, input), input, t);
        case Reject(_, b, d) => ForwardWindow(n.(prop := ReceiveReject(n.prop, b, d))); SameKnown(n.window, n.window, input, t);
        case Proposal(_) => SameKnown(n.window, n.window, input, t);
        case Catchup(_, _) => SameKnown(n.window, n.window, input, t);
      }
    }
  }

  lemma {:induction false} ForwardWindow(n: NodeState)
    ensures Forward(n).node.window == n.window
  {
  }

  // ---------------------------------------------------------------------------
  // The candidacy
  // ---------------------------------------------------------------------------

  /** The states of a node that is a candidate throughout, whatever it receives. */
  ghost predicate IsCandidacy(xs: seq<NodeState>, inputs: seq<Input>) {
    IsTrace(xs, inputs) && forall x :: x in xs ==> x.prop.state.Candidate?
  }

  lemma {:induction false} CandidateTurn(xs: seq<NodeState>, inputs: seq<Input>, i: nat)
    requires IsCandidacy(xs, inputs) && i < |inputs|
    ensures |xs| == |inputs| + 1 && xs[i + 1] == Handle(xs[i], inputs[i]).node && xs[i + 1].prop.state.Candidate?
  {
    hide Handle, IsTrace;
    TraceTurn(xs, inputs, i);
  }

  lemma {:induction false} CandidateOk(xs: seq<NodeState>, inputs: seq<Input>, i: nat)
    requires IsCandidacy(xs, inputs) && i < |xs|
    ensures NodeOk(xs[i]) && WindowOk(xs[i].window) && RoleHolds(xs[i].prop) && xs[i].prop.state.Candidate? && |xs| == |inputs| + 1
  {
    hide IsTrace, WindowOk, RoleHolds;
    TraceOk(xs, inputs, i);
    TraceLength(xs, inputs);
  }

  /** A candidate that stays one does not drive ACCEPT. */
  lemma {:induction false} StaysCandidate(n: NodeState, input: Input)
    requires n.prop.state.Candidate? && Handle(n, input).node.prop.state.Candidate?
    ensures Handle(n, input).node.window == TakeIn(n, input)
  {
    hide Absorb, ReceivePromise, Place, Sweep, PrepareSweep, AcceptLoop, AcceptedLoop, ResolveAll;
  }

  /** At every moment of a candidacy, an unresolved slot holds the pair of highest ballot among
      what it held at the start and what was reported since. */
  lemma {:induction false} CandidacyKnows(xs: seq<NodeState>, inputs: seq<Input>, i: nat, t: Slot)
    requires IsCandidacy(xs, inputs) && i < |xs| && |xs| == |inputs| + 1
    ensures !View(xs[i].window, t).Resolved? ==>
              !View(xs[0].window, t).Resolved?
              && KnownOver(HighestValue(View(xs[0].window, t)), inputs[..i], t, HighestValue(View(xs[i].window, t)))
  {
    hide IsCandidacy, WindowOk, RoleHolds, NodeOk, View, KnownOver, Handle, TakeIn;
    if i == 0 {
      KnownNow(HighestValue(View(xs[0].window, t)), t);
      assert inputs[..0] == [];
    } else {
      var x, input := xs[i - 1], inputs[i - 1];
      CandidacyKnows(xs, inputs, i - 1, t);
      CandidateTurn(xs, inputs, i - 1);
      CandidateOk(xs, inputs, i - 1);
      StaysCandidate(x, input);
      if !View(xs[i].window, t).Resolved? {
        TurnKnown(x, input, t);
        KnownLater(HighestValue(View(xs[0].window, t)), inputs[..i - 1], t, HighestValue(View(x.window, t)), input,
                   HighestValue(View(xs[i].window, t)));
        assert inputs[..i] == inputs[..i - 1] + [input];
      }
    }
  }

  /** The batch of a new leader, over its whole candidacy: when the promise of `peer` wins the
      election, the leader announces one ACCEPT for exactly the unresolved slots of its window
      extended by its queue; and in each of them it proposes the value of a pair that it held
      when its candidacy began or learnt since, whose ballot is not below that of any pair
      it held then or that any promise it received reported; only if there is no such pair,
      it proposes a queued value or the empty one. */
  lemma {:induction false} CandidacyBatch(xs: seq<NodeState>, inputs: seq<Input>, peer: NodeId, bal: Ballot,
                                          reports: seq<C.Report>)
    requires IsCandidacy(xs, inputs) && |xs| == |inputs| + 1 && Wins(xs[|inputs|].prop, peer, bal)
    ensures var n := xs[|inputs|]; var last := Receive(C.Promise(peer, bal, reports)); var o := Handle(n, last);
            var m := n.(window := Absorb(n.window, reports));
            && o.node.prop.state == Leader(bal)
            && |o.outs| == 1 && o.outs[0].Broadcast? && o.outs[0].cmd.Accept? && Some(o.outs[0].cmd.bal) == n.prop.highest
            && var batch := o.outs[0].cmd.entries;
               && (forall t: Slot :: ToPropose(m, t) ==> C.Entry(t, Planned(m, t)) in batch)
               && forall e :: e in batch ==>
                    var top := HighestValue(View(m.window, e.slot));
                    && ToPropose(m, e.slot)
                    && KnownOver(HighestValue(View(xs[0].window, e.slot)), inputs + [last], e.slot, top)
                    && e.val == if top.Some? then top.value.val else Planned(m, e.slot)
  {
    hide IsCandidacy, WindowOk, RoleHolds, NodeOk, Wins, View, KnownOver, Handle, Absorb, ToPropose, Planned, HighestKnown;
    var n, last := xs[|inputs|], Receive(C.Promise(peer, bal, reports));
    CandidateOk(xs, inputs, |inputs|);
    ElectionBatch(n, peer, bal, reports);
    AbsorbMeaning(n.window, reports, 0);
    var m := n.(window := Absorb(n.window, reports));
    forall e | e in Handle(n, last).outs[0].cmd.entries
      ensures var top := HighestValue(View(m.window, e.slot));
              && KnownOver(HighestValue(View(xs[0].window, e.slot)), inputs + [last], e.slot, top)
              && e.val == if top.Some? then top.value.val else Planned(m, e.slot)
    {
      PlannedKnown(m, e.slot);
      PromiseKnown(n.window, reports, peer, bal, e.slot);
      CandidacyKnows(xs, inputs, |inputs|, e.slot);
      assert inputs[..|inputs|] == inputs;
      KnownLater(HighestValue(View(xs[0].window, e.slot)), inputs, e.slot, HighestValue(View(n.window, e.slot)), last,
                 HighestValue(View(m.window, e.slot)));
    }
  }

  // ---------------------------------------------------------------------------
  // The election
  // ---------------------------------------------------------------------------

  /** The node that promises ballot `bal` with the input, if it is a promise of it. */
  ghost function Promiser(input: Input, bal: Ballot): set<NodeId> {
    if input.Receive? && input.cmd.Promise? && input.cmd.bal == bal then {input.cmd.node} else {}
  }

  ghost function Promisers(inputs: seq<Input>, bal: Ballot): set<NodeId> {
    set input | input in inputs && input.Receive? && input.cmd.Promise? && input.cmd.bal == bal :: input.cmd.node
  }

  lemma {:induction false} PromisersMore(inputs: seq<Input>, input: Input, bal: Ballot)
    ensures Promisers(inputs + [input], bal) == Promisers(inputs, bal) + Promiser(input, bal)
  {
    assert forall x :: x in inputs + [input] <==> x in inputs || x == input;
  }

  /** The proposer is candidate of `bal`, and exactly the given nodes promised it. */
  ghost predicate PromisedBy(p: Prop, bal: Ballot, nodes: set<NodeId>) {
    p.state.Candidate? && p.state.proposal == bal && Members(p.state.promises) == nodes
  }

  /** One input at a candidate: it leads afterwards exactly if the input is a promise of its
      ballot with which as many distinct nodes as make a quorum promised; and if it is still
      candidate, it is for the same ballot, with exactly these nodes. */
  lemma {:induction false} CandidateStep(n: NodeState, input: Input, bal: Ballot, nodes: set<NodeId>)
    requires NodeOk(n) && PromisedBy(n.prop, bal, nodes)
    ensures var p' := Handle(n, input).node.prop; var all := nodes + Promiser(input, bal);
            && |nodes| < n.prop.quorum && p'.quorum == n.prop.quorum
            && (p'.state == Leader(bal) <==> |all| >= n.prop.quorum) && (p'.state.Leader? ==> p'.state == Leader(bal))
            && (p'.state.Candidate? ==> PromisedBy(p', bal, all))
  {
    hide WindowOk, Handle, PreparedUpTo, AcceptedTo, CountedTo, Replies, Learned, Changes, Absorbs;
    hide AsksFor, Forwards, Places;
    ShortOfQuorum(n.prop);
    HandleMeets(n, input);
    if input.Receive? && input.cmd.Promise? {
      PromiseStep(n, input.cmd.node, input.cmd.bal, input.cmd.reports, bal, nodes);
    } else {
      assert nodes + Promiser(input, bal) == nodes;
    }
  }

  lemma {:induction false} ShortOfQuorum(p: Prop)
    requires RoleHolds(p) && p.state.Candidate?
    ensures |Members(p.state.promises)| < p.quorum
  {
    PackedCount(p.state.promises);
  }

  lemma {:induction false} PromiseStep(n: NodeState, peer: NodeId, b: Ballot, reports: seq<C.Report>, bal: Ballot, nodes: set<NodeId>)
    requires NodeOk(n) && PromisedBy(n.prop, bal, nodes)
    ensures var p' := Handle(n, Receive(C.Promise(peer, b, reports))).node.prop;
            var all := nodes + Promiser(Receive(C.Promise(peer, b, reports)), bal);
            && p'.quorum == n.prop.quorum
            && (p'.state == Leader(bal) <==> |all| >= n.prop.quorum) && (p'.state.Leader? ==> p'.state == Leader(bal))
            && (p'.state.Candidate? ==> PromisedBy(p', bal, all))
  {
    hide WindowOk, Handle, Absorbs, CountsVote, RoleHolds, Wins, CountsPromiseOf;
    PromiseAnswer(n, peer, b, reports);
    var o := Handle(n, Receive(C.Promise(peer, b, reports)));
    var m :| Absorbs(n.window, reports, m) && CountsVote(n, peer, b, m, o);
    VoteOutcome(n, peer, b, m, o);
    VoteCounts(n.prop, peer, b, o.node.prop, bal, nodes);
  }

  lemma {:induction false} VoteOutcome(n: NodeState, peer: NodeId, bal: Ballot, m: Window, o: Outcome)
    requires RoleHolds(n.prop) && CountsVote(n, peer, bal, m, o)
    ensures if Wins(n.prop, peer, bal) then o.node.prop.state == Leader(bal) && o.node.prop.quorum == n.prop.quorum
            else CountsPromiseOf(n.prop, peer, bal, o.node.prop)
  {
    hide RoleHolds, Wins, CountsPromiseOf, Changes, BatchAt, IsBatch;
  }

  lemma {:induction false} VoteCounts(p: Prop, peer: NodeId, b: Ballot, p': Prop, bal: Ballot, nodes: set<NodeId>)
    requires RoleHolds(p) && PromisedBy(p, bal, nodes)
    requires if Wins(p, peer, b) then p'.state == Leader(b) && p'.quorum == p.quorum else CountsPromiseOf(p, peer, b, p')
    ensures var all := nodes + if b == bal then {peer} else {};
            && p'.quorum == p.quorum
            && (p'.state == Leader(bal) <==> |all| >= p.quorum) && (p'.state.Leader? ==> p'.state == Leader(bal))
            && (p'.state.Candidate? ==> PromisedBy(p', bal, all))
  {
    ShortOfQuorum(p);
    if b != bal { assert nodes + {} == nodes; } else if peer in nodes { assert nodes + {peer} == nodes; }
  }

  /** Over a whole candidacy, whatever it receives: the nodes that promised are exactly those
      counted at its start and the senders of promises of its ballot, each counted once. The
      node leads after the next input if and only if these make the quorum with it. */
  lemma {:induction false} CandidacyCounts(xs: seq<NodeState>, inputs: seq<Input>, next: Input)
    requires IsCandidacy(xs, inputs) && |xs| == |inputs| + 1 && xs[0].prop.state.Candidate?
    ensures var p := xs[0].prop; var bal := p.state.proposal; var y := Handle(xs[|inputs|], next).node;
            && PromisedBy(xs[|inputs|].prop, bal, Members(p.state.promises) + Promisers(inputs, bal))
            && (y.prop.state.Leader? <==> |Members(p.state.promises) + Promisers(inputs + [next], bal)| >= p.quorum)
            && (y.prop.state.Leader? ==> y.prop.state == Leader(bal))
  {
    hide IsCandidacy, Handle, NodeOk, RoleHolds, Promiser, Promisers;
    var p := xs[0].prop;
    CandidacyPromised(xs, inputs, |inputs|);
    assert inputs[..|inputs|] == inputs;
    CandidateOk(xs, inputs, |inputs|);
    CandidateStep(xs[|inputs|], next, p.state.proposal, Members(p.state.promises) + Promisers(inputs, p.state.proposal));
    PromisersMore(inputs, next, p.state.proposal);
    assert Members(p.state.promises) + Promisers(inputs, p.state.proposal) + Promiser(next, p.state.proposal)
           == Members(p.state.promises) + Promisers(inputs + [next], p.state.proposal);
  }

  lemma {:induction false} CandidacyPromised(xs: seq<NodeState>, inputs: seq<Input>, i: nat)
    requires IsCandidacy(xs, inputs) && i < |xs| && |xs| == |inputs| + 1 && xs[0].prop.state.Candidate?
    ensures var p := xs[0].prop; var bal := p.state.proposal;
            PromisedBy(xs[i].prop, bal, Members(p.state.promises) + Promisers(inputs[..i], bal)) && xs[i].prop.quorum == p.quorum
  {
    hide IsCandidacy, Handle, NodeOk, RoleHolds, Promiser, Promisers;
    var p := xs[0].prop;
    var bal, start := p.state.proposal, Members(p.state.promises);
    if i == 0 {
      assert inputs[..0] == [];
      NoPromisers(bal);
      assert start + {} == start;
    } else {
      CandidacyPromised(xs, inputs, i - 1);
      CandidateOk(xs, inputs, i - 1);
      CandidateTurn(xs, inputs, i - 1);
      CandidateStep(xs[i - 1], inputs[i - 1], bal, start + Promisers(inputs[..i - 1], bal));
      PromisersMore(inputs[..i - 1], inputs[i - 1], bal);
      assert inputs[..i] == inputs[..i - 1] + [inputs[i - 1]];
      assert start + Promisers(inputs[..i - 1], bal) + Promiser(inputs[i - 1], bal) == start + Promisers(inputs[..i], bal);
    }
  }

  lemma {:induction false} NoPromisers(bal: Ballot)
    ensures Promisers([], bal) == {}
  {
  }
}
