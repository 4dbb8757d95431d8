// The handlers of the protocol messages keep the invariant.
module MessageSteps {
  import opened Ballots
  import opened Acceptors
  import opened Windows
  import opened Proposers
  import opened NodeSteps
  import opened Clusters
  import opened Invariants
  import opened Growth
  import opened SlotSteps
  import opened ProposerSteps
  import opened LoopSteps
  import opened LearnSteps
  import opened Safety
  import opened HandlerSteps
  import opened Promising
  import opened WindowChanges
  import C = Commands

  // ---------------------------------------------------------------------------
  // PREPARE
  // ---------------------------------------------------------------------------

  /** A report names a picked pair, and it covers every vote of its sender. */
  lemma {:induction false} ReportIsPicked(c: Cluster, n: NodeId, r: C.Report)
    requires Inv(c) && n in c.nodes
    requires HighestValue(At(c.nodes[n], r.slot)) == Some(Pair(r.bal, r.val))
    ensures Pick(r.bal, r.slot, r.val) in c.picks
    ensures forall v, d: Ballot :: Vote(n, r.slot, d, v) in c.votes ==> ReportedBy(c, r, d)
  {
    hide Inv, Chosen;
    InvSlot(c, n, r.slot);
    var a := At(c.nodes[n], r.slot);
    if a.Resolved? {
      VotesArePicks(c);
      ChosenIsPicked(c, r.bal, r.slot, r.val);
    } else {
      forall v, d: Ballot | Vote(n, r.slot, d, v) in c.votes
        ensures ReportedBy(c, r, d)
      {
        InvVote(c, Vote(n, r.slot, d, v));
      }
    }
  }

  /** Every vote in the window of a node is in its report. */
  lemma {:induction false} VoteIsReported(c: Cluster, n: NodeId, vt: Vote, reports: seq<C.Report>)
    requires Inv(c) && n in c.nodes && vt in c.votes && vt.node == n
    requires var w := c.nodes[n].window; vt.slot >= w.openMin && reports == ReportsOf(w, w.openMin, End(w))
    ensures Reported(c, reports, vt.slot, vt.bal)
  {
    hide Inv, ReportedBy;
    var w := c.nodes[n].window;
    InvVote(c, vt);
    NodeWindowOk(c, n);
    var a := View(w, vt.slot);
    var p := HighestValue(a).value;
    var r := C.Report(vt.slot, p.bal, p.val);
    ReportsMeaning(w, w.openMin, End(w));
    assert r in reports;
    forall r | r in reports && r.slot == vt.slot
      ensures ReportedBy(c, r, vt.bal)
    {
      ReportIsPicked(c, n, r);
      assert Vote(n, r.slot, vt.bal, vt.val) == vt;
    }
  }

  lemma {:induction false} LogIsChosen(c: Cluster, n: NodeId)
    requires Inv(c) && n in c.nodes
    ensures var log := c.nodes[n].window.decided; forall s: Slot :: s < |log| ==> Chosen(c, log[s].bal, s, log[s].val)
  {
    var log := c.nodes[n].window.decided;
    forall s: Slot | s < |log|
      ensures Chosen(c, log[s].bal, s, log[s].val)
    {
      InvSlot(c, n, s);
    }
  }

  lemma {:induction false} PromiseIsOk(c: Cluster, d: Cluster, n: NodeId, b: Ballot)
    requires Inv(c) && Inv(d) && Grows(c, d) && n in c.nodes && n != b.node
    requires d.votes == c.votes && Precedes(Some(b), d.nodes[n].prop.highest)
    requires var w := c.nodes[n].window; var r := PrepareSweep(w, b, w.openMin, End(w));
             r.refused.None? && d.nodes[n].window == r.window
    ensures var w := c.nodes[n].window;
            PromiseOk(d, n, b, PrepareSweep(w, b, w.openMin, End(w)).reports, d.nodes[n].window.decided)
  {
    hide Inv, Grows, Chosen, WindowOk, View, Reported, ReportedBy, Changes;
    var w := c.nodes[n].window;
    var r := PrepareSweep(w, b, w.openMin, End(w));
    NodeWindowOk(c, n);
    GrowsKeys(c, d);
    var k := PrepareMeaning(w, b, w.openMin, End(w));
    ReportsMeaning(w, w.openMin, End(w));
    forall s: Slot ensures Bound(d.nodes[n], s, b) { PromiseBinds(w, b, s); }
    forall q | q in r.reports
      ensures Pick(q.bal, q.slot, q.val) in d.picks
    {
      ReportIsPicked(c, n, q);
      GrowsHistory(c, d);
    }
    LogLength(w);
    forall vt | vt in d.votes && vt.node == n && vt.bal.Less(b) && vt.slot >= |d.nodes[n].window.decided|
      ensures Reported(d, r.reports, vt.slot, vt.bal)
    {
      VoteIsReported(c, n, vt, r.reports);
      ReportedStays(c, d, r.reports, vt.slot, vt.bal);
    }
    LogIsChosen(d, n);
  }

  lemma {:induction false} LogLength(w: Window)
    requires WindowOk(w)
    ensures |w.decided| == w.openMin
  {
  }

  lemma {:induction false} GrowsHistory(c: Cluster, d: Cluster)
    requires Grows(c, d)
    ensures c.picks <= d.picks
  {
  }

  lemma {:induction false} PrepareMessage(c: Cluster, n: NodeId, b: Ballot)
    requires Inv(c) && n in c.nodes && Issued(c, b) && n != b.node
    ensures var o := OnPrepare(c.nodes[n], b); StepOk(c, n, Settle(c, n, o), o)
  {
    hide Inv, Grows, Issued, PromiseOk, WindowOk;
    var x := c.nodes[n];
    var o := OnPrepare(x, b);
    NodeFacts(c, n);
    ObserveKeeps(c, n, b);
    var d := WithProp(c, n, ObserveBallot(x.prop, b));
    IssuedStays(c, d, b);
    PrepareKeeps(d, n, b, x.window.openMin, End(x.window));
    var r := PrepareSweep(x.window, b, x.window.openMin, End(x.window));
    var e := WithWindow(d, n, r.window);
    GrowsTransitive(c, d, e);
    IssuedStays(c, e, b);
    OnlySettles(c, n, o.node, o.outs);
    assert e == Settle(c, n, o);
    if r.refused.None? { PromiseIsOk(d, e, n, b); }
  }

  // ---------------------------------------------------------------------------
  // ACCEPT
  // ---------------------------------------------------------------------------

  lemma {:induction false} AcceptedVotes(w: Window, n: NodeId, b: Ballot, entries: seq<C.Entry>)
    ensures var r := AcceptLoop(w, n, b, entries);
            && (forall vt :: vt in r.votes ==> vt.node == n && vt.bal == b)
            && (forall s :: s in r.slots ==> exists v :: Vote(n, s, b, v) in r.votes)
    decreases |entries|
  {
    hide Put, View, ReceiveAccept;
    if entries != [] {
      var e := entries[0];
      var a := View(w, e.slot);
      if !a.Resolved? {
        var (a', resp) := ReceiveAccept(a, b, e.val);
        if !resp.AcceptRefused? {
          var rest := AcceptLoop(Put(w, e.slot, a'), n, b, entries[1..]);
          AcceptedVotes(Put(w, e.slot, a'), n, b, entries[1..]);
          if resp.Accepted? {
            var r := AcceptLoop(w, n, b, entries);
            var vote := Vote(n, e.slot, b, if a'.AwaitQuorum? then a'.val else e.val);
            assert r.votes == {vote} + rest.votes && r.slots == [e.slot] + rest.slots;
            forall s | s in r.slots
              ensures exists v :: Vote(n, s, b, v) in r.votes
            {
              if s == e.slot {
                assert vote in r.votes;
              } else {
                var v :| Vote(n, s, b, v) in rest.votes;
                assert Vote(n, s, b, v) in r.votes;
              }
            }
          }
        }
      }
    }
  }

  lemma {:induction false} AcceptedIsOk(d: Cluster, w: Window, n: NodeId, b: Ballot, entries: seq<C.Entry>)
    requires AcceptLoop(w, n, b, entries).votes <= d.votes
    ensures forall s :: s in AcceptLoop(w, n, b, entries).slots ==> VotedSome(d, n, s, b)
  {
    var r := AcceptLoop(w, n, b, entries);
    AcceptedVotes(w, n, b, entries);
    forall s | s in r.slots
      ensures VotedSome(d, n, s, b)
    {
      var v :| Vote(n, s, b, v) in r.votes;
      assert Vote(n, s, b, v) in d.votes;
    }
  }

  lemma {:induction false} AcceptMessage(c: Cluster, n: NodeId, b: Ballot, entries: seq<C.Entry>)
    requires Inv(c) && n in c.nodes && Issued(c, b) && n != b.node
    requires forall e :: e in entries ==> Pick(b, e.slot, e.val) in c.picks
    ensures var o := OnAccept(c.nodes[n], b, entries); StepOk(c, n, Settle(c, n, o), o)
  {
    hide Inv, Grows, Issued, WindowOk, AcceptLoop, VotedSome;
    var x := c.nodes[n];
    var o := OnAccept(x, b, entries);
    NodeFacts(c, n);
    ObserveKeeps(c, n, b);
    var d := WithProp(c, n, ObserveBallot(x.prop, b));
    IssuedStays(c, d, b);
    AcceptKeeps(d, n, b, entries);
    var r := AcceptLoop(x.window, n, b, entries);
    var e := AfterAccept(d, n, r);
    GrowsTransitive(c, d, e);
    IssuedStays(c, e, b);
    assert e == Settle(c, n, o) by { assert c.picks + {} == c.picks; }
    AcceptedIsOk(e, x.window, n, b, entries);
  }

  // ---------------------------------------------------------------------------
  // ACCEPTED, RESOLUTION and CATCHUP
  // ---------------------------------------------------------------------------

  lemma {:induction false} AcceptedMessage(c: Cluster, n: NodeId, peer: NodeId, b: Ballot, slots: seq<Slot>)
    requires Inv(c) && n in c.nodes && Issued(c, b) && n == b.node && peer != n
    requires forall s :: s in slots ==> VotedSome(c, peer, s, b)
    ensures var o := OnAccepted(c.nodes[n], peer, b, slots); StepOk(c, n, Settle(c, n, o), o)
  {
    hide Inv, Grows, Issued, WindowOk, AcceptedLoop, VotedSome, Chosen;
    var x := c.nodes[n];
    var o := OnAccepted(x, peer, b, slots);
    NodeFacts(c, n);
    ObserveKeeps(c, n, b);
    var d := WithProp(c, n, ObserveBallot(x.prop, b));
    IssuedStays(c, d, b);
    forall s | s in slots ensures VotedSome(d, peer, s, b) { VotedSomeStays(c, d, peer, s, b); }
    AcceptedKeeps(d, n, peer, b, slots);
    var r := AcceptedLoop(x.window, peer, b, slots);
    var e := WithWindow(d, n, r.window);
    GrowsTransitive(c, d, e);
    IssuedStays(c, e, b);
    OnlySettles(c, n, o.node, o.outs);
    assert e == Settle(c, n, o);
  }

  lemma {:induction false} ResolutionMessage(c: Cluster, n: NodeId, b: Ballot, entries: seq<C.Entry>)
    requires Inv(c) && n in c.nodes && Issued(c, b)
    requires forall e :: e in entries ==> Chosen(c, b, e.slot, e.val)
    ensures var o := OnResolution(c.nodes[n], b, entries); StepOk(c, n, Settle(c, n, o), o)
  {
    hide Inv, Grows, Issued, WindowOk, ResolveAll, Unresolved, Chosen;
    var x := c.nodes[n];
    var o := OnResolution(x, b, entries);
    NodeFacts(c, n);
    ObserveKeeps(c, n, b);
    var d := WithProp(c, n, ObserveBallot(x.prop, b));
    IssuedStays(c, d, b);
    forall f | f in entries ensures Chosen(d, b, f.slot, f.val) { ChosenStays(c, d, b, f.slot, f.val); }
    ResolveKeeps(d, n, b, entries);
    var e := WithWindow(d, n, ResolveAll(x.window, b, entries));
    GrowsTransitive(c, d, e);
    OnlySettles(c, n, o.node, o.outs);
    assert e == Settle(c, n, o);
  }

  lemma {:induction false} ResolvedIsChosen(c: Cluster, n: NodeId, s: Slot)
    requires Inv(c) && n in c.nodes && At(c.nodes[n], s).Resolved?
    ensures var a := At(c.nodes[n], s); Chosen(c, a.accepted, s, a.value) && Issued(c, a.accepted)
  {
    hide Inv;
    InvSlot(c, n, s);
    var a := At(c.nodes[n], s);
    VotesArePicks(c);
    ChosenIsPicked(c, a.accepted, s, a.value);
    InvPick(c, Pick(a.accepted, s, a.value));
  }

  /** Every batch that answers a CATCHUP carries chosen values of its ballot. */
  lemma {:induction false} BatchesAreChosen(c: Cluster, n: NodeId, slots: seq<Slot>, run: Option<Ballot>, buf: seq<C.Entry>)
    requires Inv(c) && n in c.nodes
    requires run.Some? ==> Issued(c, run.value) && forall e :: e in buf ==> Chosen(c, run.value, e.slot, e.val)
    requires run.None? ==> buf == []
    ensures forall cmd :: cmd in Batches(c.nodes[n].window, slots, run, buf) ==>
              cmd.Resolution? && Issued(c, cmd.bal) && forall e :: e in cmd.entries ==> Chosen(c, cmd.bal, e.slot, e.val)
    decreases |slots|
  {
    hide Inv, Issued, Chosen, View;
    if slots != [] {
      var a := View(c.nodes[n].window, slots[0]);
      if !a.Resolved? {
        BatchesAreChosen(c, n, slots[1..], run, buf);
      } else {
        ResolvedIsChosen(c, n, slots[0]);
        var e := C.Entry(slots[0], a.value);
        if run.Some? && run.value != a.accepted && buf != [] {
          BatchesAreChosen(c, n, slots[1..], Some(a.accepted), [e]);
        } else {
          BatchesAreChosen(c, n, slots[1..], Some(a.accepted), buf + [e]);
        }
      }
    }
  }

  lemma {:induction false} CatchupMessage(c: Cluster, n: NodeId, peer: NodeId, slots: seq<Slot>)
    requires Inv(c) && n in c.nodes
    ensures var o := OnCatchup(c.nodes[n], peer, slots); StepOk(c, n, Settle(c, n, o), o)
  {
    hide Inv, Grows, Issued, Chosen, Batches, Sort;
    var x := c.nodes[n];
    var o := OnCatchup(x, peer, slots);
    OnlySettles(c, n, o.node, o.outs);
    assert c.(nodes := c.nodes[n := x]) == c;
    GrowsReflexive(c);
    if x.prop.state.Leader? {
      BatchesAreChosen(c, n, Sort(slots), None, []);
      var cmds := Batches(x.window, Sort(slots), None, []);
      forall y | y in o.outs
        ensures OutputOk(c, n, y, o.node.window.decided)
      {
        var i :| 0 <= i < |o.outs| && o.outs[i] == y;
        assert y.cmd == cmds[i] && cmds[i] in cmds;
      }
    }
  }
}
