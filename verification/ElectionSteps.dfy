// A PROMISE: adopting its report, counting it, winning the election, and announcing the
// batch.
module ElectionSteps {
  import opened Ballots
  import opened Quorums
  import opened Acceptors
  import opened Windows
  import opened Proposers
  import opened NodeSteps
  import opened Clusters
  import opened Invariants
  import opened Growth
  import opened SlotSteps
  import opened ProposerSteps
  import opened LoopSteps
  import opened Safety
  import opened LeadSteps
  import opened HandlerSteps
  import C = Commands

  // ---------------------------------------------------------------------------
  // Counting
  // ---------------------------------------------------------------------------

  /** What the proposer of `n`, the counted promises and the elections become when the
      promise `p` is counted. */
  function Counted(c: Cluster, n: NodeId, p: Packet): Cluster
    requires n in c.nodes && p.cmd.Promise?
  {
    var prop := ReceivePromise(c.nodes[n].prop, p.cmd.node, p.cmd.bal);
    Reprop(c, n, prop, c.counted + {p},
           if prop.state.Leader? then c.elected[p.cmd.bal := c.nodes[n].window.openMin] else c.elected)
  }

  /** The promise `p` arrived at its candidate, which adopted its report and now counts it. */
  ghost predicate Countable(c: Cluster, n: NodeId, p: Packet) {
    && n in c.nodes && p in c.network && p.dst == n && p.cmd.Promise?
    && Counts(c.nodes[n].prop, p.cmd.node, p.cmd.bal)
    && (forall r :: r in p.cmd.reports ==> Remembers(At(c.nodes[n], r.slot), r.bal))
  }

  lemma {:induction false} CountableFacts(c: Cluster, n: NodeId, p: Packet)
    requires Inv(c) && Countable(c, n, p)
    ensures p.cmd.bal.node == n && p.cmd.node != n && PromiseOk(c, p.cmd.node, p.cmd.bal, p.cmd.reports, p.log)
    ensures NodeOk(c, n, c.nodes[n]) && p.cmd.bal !in c.elected
  {
    InvPacket(c, p);
    InvNode(c, n);
  }

  lemma {:induction false} CountGrows(c: Cluster, n: NodeId, p: Packet)
    requires Inv(c) && Countable(c, n, p)
    ensures Grows(c, Counted(c, n, p))
  {
    hide Inv, NodeOk, PromiseOk;
    CountableFacts(c, n, p);
    var d := Counted(c, n, p);
    RepropGrows(c, n, d.nodes[n].prop, d.counted, d.elected);
  }

  lemma {:induction false} CountPromisers(c: Cluster, n: NodeId, p: Packet, b: Ballot)
    requires n in c.nodes && p.cmd.Promise?
    ensures Promisers(Counted(c, n, p), b) == Promisers(c, b) + (if b == p.cmd.bal then {p.cmd.node} else {})
  {
    var d := Counted(c, n, p);
    if b == p.cmd.bal { assert p in d.counted; }
  }

  /** The candidate knows of every vote that the promise accounts for. */
  lemma {:induction false} CountIsOk(c: Cluster, n: NodeId, p: Packet)
    requires Inv(c) && Countable(c, n, p)
    ensures CountedOk(Counted(c, n, p), p)
  {
    hide Inv, NodeOk, Chosen;
    CountableFacts(c, n, p);
    CountGrows(c, n, p);
    var d := Counted(c, n, p);
    assert d.votes == c.votes && d.nodes[n].window == c.nodes[n].window;
    forall vt | vt in d.votes && vt.node == p.cmd.node && vt.bal.Less(p.cmd.bal) && vt.slot >= |p.log|
      ensures Known(d, At(d.nodes[n], vt.slot), vt.slot, vt.bal)
    {
      assert Reported(c, p.cmd.reports, vt.slot, vt.bal);
      var r :| r in p.cmd.reports && r.slot == vt.slot;
      assert r.bal.AtMost(r.bal) && Covers(c, vt.slot, r.bal, vt.bal);
      var a := At(c.nodes[n], vt.slot);
      if !a.Resolved? { CoversStays(c, d, vt.slot, r.bal, a.bal, vt.bal); }
    }
  }

  lemma {:induction false} CountProposer(c: Cluster, n: NodeId, p: Packet)
    requires Inv(c) && Countable(c, n, p)
    ensures var d := Counted(c, n, p); ProposerOk(d, n, d.nodes[n])
    ensures var d := Counted(c, n, p);
            d.nodes[n].prop.state.Leader? ==> |Promisers(d, p.cmd.bal)| >= c.nodes[n].prop.quorum
  {
    hide Inv, WindowOk, PromiseOk;
    CountableFacts(c, n, p);
    var es := c.nodes[n].prop.state.promises;
    InsertMeaning(es, p.cmd.node);
    CountPromisers(c, n, p, p.cmd.bal);
    PackedCount(Insert(es, p.cmd.node));
  }

  lemma {:induction false} PromisersAreNodes(c: Cluster, b: Ballot)
    requires Inv(c) && b.node in c.nodes
    ensures Promisers(c, b) <= c.nodes.Keys
  {
    forall q | q in Promisers(c, b)
      ensures q in c.nodes
    {
      if q != b.node { var p := PromiserPacket(c, b, q); }
    }
  }

  lemma {:induction false} CountElection(c: Cluster, n: NodeId, p: Packet)
    requires Inv(c) && Countable(c, n, p)
    ensures var d := Counted(c, n, p); forall b :: b in d.elected && b !in c.elected ==> ElectedOk(d, b)
  {
    hide Inv, WindowOk, ProposerOk;
    var d := Counted(c, n, p);
    var b := p.cmd.bal;
    if d.nodes[n].prop.state.Leader? {
      CountableFacts(c, n, p);
      CountProposer(c, n, p);
      CountPromisers(c, n, p, b);
      PromisersAreNodes(c, b);
      CountIssued(c, n, p);
      assert |d.nodes.Keys| == |c.nodes.Keys|;
    }
  }

  lemma {:induction false} CountIssued(c: Cluster, n: NodeId, p: Packet)
    requires Inv(c) && Countable(c, n, p)
    ensures Issued(Counted(c, n, p), p.cmd.bal)
  {
    InvPacket(c, p);
  }

  lemma {:induction false} CountOthers(c: Cluster, n: NodeId, p: Packet)
    requires Inv(c) && Countable(c, n, p)
    ensures OthersUntouched(c, n, Counted(c, n, p))
  {
    hide Inv, WindowOk, PromiseOk;
    CountableFacts(c, n, p);
    var d := Counted(c, n, p);
    forall m | m in c.nodes && m in d.nodes && m != n && c.nodes[m].prop.state.Candidate?
      ensures Promisers(d, c.nodes[m].prop.state.proposal) == Promisers(c, c.nodes[m].prop.state.proposal)
           && c.nodes[m].prop.state.proposal !in d.elected
    {
      InvNode(c, m);
      CountPromisers(c, n, p, c.nodes[m].prop.state.proposal);
    }
  }

  /** Counting a promise keeps the invariant, also when it wins the election. */
  lemma {:induction false} CountKeeps(c: Cluster, n: NodeId, p: Packet)
    requires Inv(c) && Countable(c, n, p)
    ensures Inv(Counted(c, n, p)) && Grows(c, Counted(c, n, p))
  {
    hide Inv, Grows, CountedOk, ElectedOk, OthersUntouched, WindowOk, ProposerOk, PromiseOk;
    var d := Counted(c, n, p);
    CountNode(c, n, p);
    CountGrows(c, n, p);
    CountIsOk(c, n, p);
    CountElection(c, n, p);
    CountOthers(c, n, p);
    ChangeKeeps(c, n, d);
  }

  lemma {:induction false} CountNode(c: Cluster, n: NodeId, p: Packet)
    requires Inv(c) && Countable(c, n, p)
    ensures var d := Counted(c, n, p); NodeOk(d, n, d.nodes[n])
    ensures p.cmd.node in c.nodes
  {
    hide Inv, Grows, WindowOk, ProposerOk;
    var d := Counted(c, n, p);
    CountableFacts(c, n, p);
    CountGrows(c, n, p);
    CountProposer(c, n, p);
    if c.nodes[n].prop.highest.Some? { IssuedStays(c, d, c.nodes[n].prop.highest.value); }
    NodeRestStays(c, d, n);
  }

  // ---------------------------------------------------------------------------
  // Driving the accepts
  // ---------------------------------------------------------------------------

  lemma {:induction false} NoPickBeforeElection(c: Cluster, b: Ballot)
    requires Inv(c) && b !in c.elected
    ensures forall k :: k in c.picks ==> k.bal != b
  {
    forall k | k in c.picks
      ensures k.bal != b
    {
      InvPick(c, k);
    }
  }

  lemma {:induction false} LeaderQueue(c: Cluster, n: NodeId)
    requires Inv(c) && n in c.nodes
    ensures forall v :: v in c.nodes[n].prop.queue ==> v in c.submitted
  {
    InvNode(c, n);
  }

  lemma {:induction false} DriveWindow(c: Cluster, n: NodeId, b: Ballot) returns (e: Cluster)
    requires Inv(c) && n in c.nodes && c.nodes[n].prop.state == Leader(b) && Owned(c, n, b, 0)
    ensures var o := DriveAccept(c.nodes[n]);
            && Inv(e) && Grows(c, e) && n in e.nodes && e.nodes[n] == c.nodes[n].(window := o.node.window)
            && e == WithWindow(c, n, o.node.window).(votes := c.votes + o.votes, picks := c.picks + o.picks)
  {
    hide Inv, Grows, Owned, WindowOk, Place, Sweep, OwnVotes;
    var x := c.nodes[n];
    LeaderFacts(c, n, b);
    LeaderQueue(c, n);
    NodeFacts(c, n);
    var p := Place(x.window, b, x.prop.queue);
    var d := PlaceKeeps(c, n, b, x.prop.queue);
    var r := Sweep(p.window, b, p.window.openMin, End(p.window));
    OwnedFrom(d, n, b, p.window.openMin);
    e := SweepKeeps(d, n, b, p.window.openMin, End(p.window));
    GrowsTransitive(c, d, e);
    var picks := PicksOf(b, r.batch);
    LedByJoin(c, d, e, n, b, PlacedPicks(p.placed), picks);
    PlacedInBatch(x);
    assert PlacedPicks(p.placed) + picks == picks;
    LedVotes(c, n, b, picks, e);
  }

  lemma {:induction false} OwnedFrom(c: Cluster, n: NodeId, b: Ballot, from: Slot)
    requires Owned(c, n, b, 0)
    ensures Owned(c, n, b, from)
  {
  }

  /** A node that just won its election announces picks that are in order. */
  lemma {:induction false} DriveKeeps(c: Cluster, n: NodeId, b: Ballot)
    requires Inv(c) && n in c.nodes && c.nodes[n].prop.state == Leader(b) && Owned(c, n, b, 0)
    ensures var o := DriveAccept(c.nodes[n]); StepOk(c, n, Settle(c, n, o), o)
  {
    hide Inv, Grows, Owned, WindowOk, Place, Sweep, OwnVotes, Issued;
    var o := DriveAccept(c.nodes[n]);
    LeaderFacts(c, n, b);
    var e := DriveWindow(c, n, b);
    QueueKeeps(e, n, []);
    var f := WithProp(e, n, e.nodes[n].prop.(queue := []));
    GrowsTransitive(c, e, f);
    assert f == Settle(c, n, o);
    IssuedStays(c, f, b);
    NodeFacts(c, n);
  }

  // ---------------------------------------------------------------------------
  // The whole step
  // ---------------------------------------------------------------------------

  /** The cluster after `n` received the promise `p`, before its messages leave. */
  function AfterPromise(c: Cluster, n: NodeId, p: Packet, o: Outcome): Cluster
    requires n in c.nodes && p.cmd.Promise?
  {
    var x := c.nodes[n];
    Settle(c, n, o).(
      counted := if Counts(x.prop, p.cmd.node, p.cmd.bal) then c.counted + {p} else c.counted,
      elected := if WinsElection(x, o.node) then c.elected[o.node.prop.state.proposal := x.window.openMin] else c.elected)
  }

  lemma {:induction false} AbsorbLog(w: Window, reports: seq<C.Report>)
    requires WindowOk(w)
    ensures WindowOk(Absorb(w, reports)) && Absorb(w, reports).decided == w.decided
    decreases |reports|
  {
    hide WindowOk, Put, View, NoticeValue;
    if reports != [] {
      var r := reports[0];
      var a := View(w, r.slot);
      if a.Resolved? {
        AbsorbLog(w, reports[1..]);
      } else {
        AbsorbOne(w, r);
        AbsorbLog(Put(w, r.slot, NoticeValue(a, r.bal, r.val)), reports[1..]);
      }
    }
  }

  lemma {:induction false} AbsorbOne(w: Window, r: C.Report)
    requires WindowOk(w) && !View(w, r.slot).Resolved?
    ensures var w' := Put(w, r.slot, NoticeValue(View(w, r.slot), r.bal, r.val)); WindowOk(w') && w'.decided == w.decided
  {
    ViewOk(w, r.slot);
    OperationsGrow(View(w, r.slot), w.quorum, r.bal, r.val, 0);
    PutMeaning(w, r.slot, NoticeValue(View(w, r.slot), r.bal, r.val));
  }

  lemma {:induction false} AbsorbStart(w: Window, reports: seq<C.Report>)
    requires WindowOk(w)
    ensures Absorb(w, reports).openMin == w.openMin
  {
    AbsorbLog(w, reports);
  }

  lemma {:induction false} PromiseFacts(c: Cluster, n: NodeId, p: Packet)
    requires Inv(c) && n in c.nodes && p in c.network && p.dst == n && p.cmd.Promise?
    ensures p.cmd.bal.node == n && forall r :: r in p.cmd.reports ==> Pick(r.bal, r.slot, r.val) in c.picks
  {
    InvPacket(c, p);
  }

  lemma {:induction false} CandidateFacts(c: Cluster, n: NodeId)
    requires Inv(c) && n in c.nodes && c.nodes[n].prop.state.Candidate?
    ensures c.nodes[n].prop.highest == Some(c.nodes[n].prop.state.proposal) && c.nodes[n].prop.state.proposal !in c.elected
  {
    InvNode(c, n);
  }

  lemma {:induction false} PromiseMessage(c: Cluster, n: NodeId, p: Packet)
    requires Inv(c) && n in c.nodes && p in c.network && p.dst == n && p.cmd.Promise?
    ensures var o := OnPromise(c.nodes[n], p.cmd.node, p.cmd.bal, p.cmd.reports);
            StepOk(c, n, AfterPromise(c, n, p, o), o)
  {
    hide Inv, Grows, Issued, WindowOk, Absorb, DriveAccept, StepOk;
    var x := c.nodes[n];
    var o := OnPromise(x, p.cmd.node, p.cmd.bal, p.cmd.reports);
    if !x.prop.state.Candidate? {
      Unchanged(c, n);
      assert AfterPromise(c, n, p, o) == Settle(c, n, o);
    } else {
      PromiseFacts(c, n, p);
      AbsorbKeeps(c, n, p.cmd.reports);
      var d := WithWindow(c, n, Absorb(x.window, p.cmd.reports));
      if Counts(x.prop, p.cmd.node, p.cmd.bal) {
        CountedMessage(c, n, p, d);
      } else {
        Unchanged(d, n);
        assert o == Only(d.nodes[n], []) by { NoDrive(d.nodes[n]); }
        StepOkAfter(c, d, n, Settle(d, n, o), o);
        assert AfterPromise(c, n, p, o) == Settle(d, n, o);
      }
    }
  }

  lemma {:induction false} NoDrive(x: NodeState)
    requires !x.prop.state.Leader?
    ensures DriveAccept(x) == Only(x, [])
  {
  }

  lemma {:induction false} CountedMessage(c: Cluster, n: NodeId, p: Packet, d: Cluster)
    requires Inv(c) && n in c.nodes && p in c.network && p.dst == n && p.cmd.Promise?
    requires Counts(c.nodes[n].prop, p.cmd.node, p.cmd.bal)
    requires Inv(d) && Grows(c, d) && d == WithWindow(c, n, Absorb(c.nodes[n].window, p.cmd.reports))
    requires forall r :: r in p.cmd.reports ==> Remembers(At(d.nodes[n], r.slot), r.bal)
    ensures var o := OnPromise(c.nodes[n], p.cmd.node, p.cmd.bal, p.cmd.reports);
            StepOk(c, n, AfterPromise(c, n, p, o), o)
  {
    hide Inv, Grows, Issued, WindowOk, Absorb, DriveAccept, StepOk, View;
    var x := c.nodes[n];
    var o := OnPromise(x, p.cmd.node, p.cmd.bal, p.cmd.reports);
    CountKeeps(d, n, p);
    var e := Counted(d, n, p);
    GrowsTransitive(c, d, e);
    CandidateFacts(d, n);
    NodeFacts(c, n);
    AbsorbStart(x.window, p.cmd.reports);
    if e.nodes[n].prop.state.Leader? {
      NoPickBeforeElection(d, p.cmd.bal);
      assert Owned(e, n, p.cmd.bal, 0);
      DriveKeeps(e, n, p.cmd.bal);
      DriveKeepsState(e.nodes[n]);
      StepOkAfter(c, e, n, Settle(e, n, o), o);
      assert AfterPromise(c, n, p, o) == Settle(e, n, o);
    } else {
      Unchanged(e, n);
      NoDrive(e.nodes[n]);
      StepOkAfter(c, e, n, Settle(e, n, o), o);
      assert AfterPromise(c, n, p, o) == Settle(e, n, o);
    }
  }

  lemma {:induction false} DriveKeepsState(x: NodeState)
    ensures DriveAccept(x).node.prop.state == x.prop.state
  {
  }
}
