// The loops of the handlers, as sequences of slot accesses that keep the invariant.
module LoopSteps {
  import opened Ballots
  import opened Quorums
  import opened Acceptors
  import opened Windows
  import opened NodeSteps
  import opened Clusters
  import opened Invariants
  import opened Growth
  import opened SlotSteps
  import C = Commands

  /** An access that neither votes nor picks. */
  lemma {:induction false} SilentTouch(c: Cluster, n: NodeId, s: Slot, a: Acc)
    requires Inv(c) && n in c.nodes && Touchable(c, n, s, a, {}, {}) && SlotOk(c, n, s, a)
    ensures var d := WithWindow(c, n, Put(c.nodes[n].window, s, a)); Inv(d) && Grows(c, d) && At(d.nodes[n], s) == a
  {
    hide Inv, Grows, SlotOk, Touchable, WindowOk, NodeOk;
    NodeWindowOk(c, n);
    TouchGrows(c, n, s, a, {}, {});
    var d := Touch(c, n, s, a, {}, {});
    assert d == WithWindow(c, n, Put(c.nodes[n].window, s, a)) by {
      assert c.picks + {} == c.picks && c.votes + {} == c.votes;
    }
    SlotOkStays(c, d, n, s, a);
    TouchKeeps(c, n, s, a, {}, {});
  }

  lemma {:induction false} NodeWindowOk(c: Cluster, n: NodeId)
    requires Inv(c) && n in c.nodes
    ensures WindowOk(c.nodes[n].window) && c.nodes[n].window.quorum == QuorumSize(|c.nodes| - 1) && c.nodes[n].id == n
  {
    InvNode(c, n);
  }

  lemma {:induction false} SlotAcc(c: Cluster, n: NodeId, s: Slot)
    requires Inv(c) && n in c.nodes
    ensures AccOk(At(c.nodes[n], s), c.nodes[n].window.quorum) && IssuedIfAny(c, Promise(At(c.nodes[n], s)))
    ensures SlotOk(c, n, s, At(c.nodes[n], s))
  {
    assert NodeOk(c, n, c.nodes[n]);
    ViewOk(c.nodes[n].window, s);
  }

  lemma {:induction false} SameWindow(c: Cluster, n: NodeId)
    requires n in c.nodes
    ensures WithWindow(c, n, c.nodes[n].window) == c && Grows(c, c)
  {
    GrowsReflexive(c);
  }

  lemma {:induction false} SetTwice(c: Cluster, n: NodeId, w: Window, w': Window)
    requires n in c.nodes
    ensures WithWindow(WithWindow(c, n, w), n, w') == WithWindow(c, n, w')
  {
  }

  // ---------------------------------------------------------------------------
  // PREPARE
  // ---------------------------------------------------------------------------

  lemma {:induction false} PrepareTouch(c: Cluster, n: NodeId, s: Slot, b: Ballot)
    requires Inv(c) && n in c.nodes && Issued(c, b) && !At(c.nodes[n], s).Resolved?
    ensures var a := ReceivePrepare(At(c.nodes[n], s), b).0; Touchable(c, n, s, a, {}, {}) && SlotOk(c, n, s, a)
  {
    hide Inv, WindowOk;
    SlotAcc(c, n, s);
    OperationsGrow(At(c.nodes[n], s), c.nodes[n].window.quorum, b, [], n);
  }

  lemma {:induction false} PrepareKeeps(c: Cluster, n: NodeId, b: Ballot, slot: Slot, end: Slot)
    requires Inv(c) && n in c.nodes && Issued(c, b)
    ensures var r := PrepareSweep(c.nodes[n].window, b, slot, end); var d := WithWindow(c, n, r.window);
            Inv(d) && Grows(c, d) && IssuedIfAny(d, r.refused)
    decreases end - slot
  {
    hide Inv, Grows, Put, Issued, Touchable, SlotOk;
    var w := c.nodes[n].window;
    if slot >= end {
      SameWindow(c, n);
    } else if View(w, slot).Resolved? {
      PrepareKeeps(c, n, b, slot + 1, end);
    } else {
      var (a, r) := ReceivePrepare(View(w, slot), b);
      PrepareTouch(c, n, slot, b);
      SilentTouch(c, n, slot, a);
      var d := WithWindow(c, n, Put(w, slot, a));
      SlotAcc(c, n, slot);
      if r.PrepareRefused? { IssuedStays(c, d, r.preempted); }
      if !r.PrepareRefused? {
        IssuedStays(c, d, b);
        PrepareKeeps(d, n, b, slot + 1, end);
        SetTwice(c, n, Put(w, slot, a), PrepareSweep(d.nodes[n].window, b, slot + 1, end).window);
        GrowsTransitive(c, d, WithWindow(d, n, PrepareSweep(d.nodes[n].window, b, slot + 1, end).window));
      }
    }
  }

  // ---------------------------------------------------------------------------
  // PROMISE: adopting reported pairs
  // ---------------------------------------------------------------------------

  lemma {:induction false} VacantHasNoMembers(size: nat)
    ensures Members(Vacant(size)) == {}
  {
  }

  lemma {:induction false} NoticeTouch(c: Cluster, n: NodeId, r: C.Report)
    requires Inv(c) && n in c.nodes && !At(c.nodes[n], r.slot).Resolved?
    requires Pick(r.bal, r.slot, r.val) in c.picks
    ensures var a := NoticeValue(At(c.nodes[n], r.slot), r.bal, r.val);
            Touchable(c, n, r.slot, a, {}, {}) && SlotOk(c, n, r.slot, a) && Remembers(a, r.bal)
  {
    hide Inv, WindowOk;
    InvPick(c, Pick(r.bal, r.slot, r.val));
    SlotAcc(c, n, r.slot);
    OperationsGrow(At(c.nodes[n], r.slot), c.nodes[n].window.quorum, r.bal, r.val, n);
    forall size: nat ensures Members(Vacant(size)) == {} { VacantHasNoMembers(size); }
  }

  /** Adopting reports leaves the node with at least every reported ballot. */
  lemma {:induction false} AbsorbKeeps(c: Cluster, n: NodeId, reports: seq<C.Report>)
    requires Inv(c) && n in c.nodes
    requires forall r :: r in reports ==> Pick(r.bal, r.slot, r.val) in c.picks
    ensures var d := WithWindow(c, n, Absorb(c.nodes[n].window, reports));
            Inv(d) && Grows(c, d) && forall r :: r in reports ==> Remembers(At(d.nodes[n], r.slot), r.bal)
    decreases |reports|
  {
    hide Inv, Grows, Put, Touchable, SlotOk, NoticeValue;
    var w := c.nodes[n].window;
    if reports == [] {
      SameWindow(c, n);
    } else {
      var r := reports[0];
      var a := View(w, r.slot);
      var w' := if a.Resolved? then w else Put(w, r.slot, NoticeValue(a, r.bal, r.val));
      var d := WithWindow(c, n, w');
      if a.Resolved? {
        SameWindow(c, n);
      } else {
        NoticeTouch(c, n, r);
        SilentTouch(c, n, r.slot, NoticeValue(a, r.bal, r.val));
      }
      AbsorbKeeps(d, n, reports[1..]);
      var e := WithWindow(d, n, Absorb(w', reports[1..]));
      SetTwice(c, n, w', Absorb(w', reports[1..]));
      GrowsTransitive(c, d, e);
      forall q | q in reports
        ensures Remembers(At(e.nodes[n], q.slot), q.bal)
      {
        if q == r {
          GrowsNode(d, e, n);
          RemembersStays(d.nodes[n], e.nodes[n], r.slot, r.bal);
        } else {
          assert q in reports[1..];
        }
      }
    }
  }

  lemma {:induction false} GrowsNode(c: Cluster, d: Cluster, n: NodeId)
    requires Grows(c, d) && n in c.nodes
    ensures n in d.nodes && NodeGrows(c.nodes[n], d.nodes[n])
  {
  }

  // ---------------------------------------------------------------------------
  // ACCEPT
  // ---------------------------------------------------------------------------

  lemma {:induction false} AcceptTouch(c: Cluster, n: NodeId, b: Ballot, e: C.Entry)
    requires Inv(c) && n in c.nodes && !At(c.nodes[n], e.slot).Resolved?
    requires Pick(b, e.slot, e.val) in c.picks && b.node != n && Issued(c, b)
    ensures var (a, r) := ReceiveAccept(At(c.nodes[n], e.slot), b, e.val);
            && (r.Accepted? ==>
                  && a.AwaitQuorum?
                  && var votes := {Vote(n, e.slot, b, a.val)};
                     Touchable(c, n, e.slot, a, votes, {}) && SlotOk(Touch(c, n, e.slot, a, votes, {}), n, e.slot, a))
            && (!r.Accepted? ==> Touchable(c, n, e.slot, a, {}, {}) && SlotOk(c, n, e.slot, a))
  {
    hide Inv, WindowOk, Put;
    SlotAcc(c, n, e.slot);
    OperationsGrow(At(c.nodes[n], e.slot), c.nodes[n].window.quorum, b, e.val, n);
    AcceptMeaning(At(c.nodes[n], e.slot), c.nodes[n].window.quorum, b, e.val);
    forall size: nat ensures Members(Vacant(size)) == {} { VacantHasNoMembers(size); }
  }

  function AfterAccept(c: Cluster, n: NodeId, r: AcceptResult): Cluster
    requires n in c.nodes
  {
    WithWindow(c, n, r.window).(votes := c.votes + r.votes)
  }

  lemma {:induction false} AcceptKeeps(c: Cluster, n: NodeId, b: Ballot, entries: seq<C.Entry>)
    requires Inv(c) && n in c.nodes && b.node != n && Issued(c, b)
    requires forall e :: e in entries ==> Pick(b, e.slot, e.val) in c.picks
    ensures var r := AcceptLoop(c.nodes[n].window, n, b, entries); var d := AfterAccept(c, n, r);
            Inv(d) && Grows(c, d) && (r.end.RefusedBy? ==> Issued(d, r.end.preempted))
    decreases |entries|
  {
    hide Inv, Grows, Put, Touchable, SlotOk, ReceiveAccept, Issued;
    var w := c.nodes[n].window;
    var r := AcceptLoop(w, n, b, entries);
    if entries == [] || View(w, entries[0].slot).Resolved? {
      SameWindow(c, n);
      assert AfterAccept(c, n, r) == c by { assert c.votes + {} == c.votes; }
    } else {
      var e := entries[0];
      var (a, resp) := ReceiveAccept(View(w, e.slot), b, e.val);
      AcceptTouch(c, n, b, e);
      if resp.Accepted? {
        AcceptedStep(c, n, b, entries, a);
      } else {
        SilentTouch(c, n, e.slot, a);
        var d := WithWindow(c, n, Put(w, e.slot, a));
        if resp.AcceptResolved? {
          IssuedStays(c, d, b);
          AcceptKeeps(d, n, b, entries[1..]);
          SetTwice(c, n, Put(w, e.slot, a), AcceptLoop(d.nodes[n].window, n, b, entries[1..]).window);
          GrowsTransitive(c, d, AfterAccept(d, n, AcceptLoop(d.nodes[n].window, n, b, entries[1..])));
        } else {
          assert AfterAccept(c, n, r) == d by { assert c.votes + {} == c.votes; }
          SlotAcc(c, n, e.slot);
          RefusalIsPromise(View(w, e.slot), b, e.val);
          IssuedStays(c, d, resp.preempted);
        }
      }
    }
  }

  lemma {:induction false} RefusalIsPromise(a: Acc, b: Ballot, v: Bytes)
    ensures var r := ReceiveAccept(a, b, v).1; r.AcceptRefused? ==> Promise(a) == Some(r.preempted)
  {
  }

  lemma {:induction false} AcceptedStep(c: Cluster, n: NodeId, b: Ballot, entries: seq<C.Entry>, a: Acc)
    requires Inv(c) && n in c.nodes && b.node != n && Issued(c, b) && entries != []
    requires forall e :: e in entries ==> Pick(b, e.slot, e.val) in c.picks
    requires var e := entries[0];
             && !At(c.nodes[n], e.slot).Resolved? && ReceiveAccept(At(c.nodes[n], e.slot), b, e.val).1.Accepted?
             && a == ReceiveAccept(At(c.nodes[n], e.slot), b, e.val).0 && a.AwaitQuorum?
             && var votes := {Vote(n, e.slot, b, a.val)};
                Touchable(c, n, e.slot, a, votes, {}) && SlotOk(Touch(c, n, e.slot, a, votes, {}), n, e.slot, a)
    ensures var r := AcceptLoop(c.nodes[n].window, n, b, entries); var d := AfterAccept(c, n, r);
            Inv(d) && Grows(c, d) && (r.end.RefusedBy? ==> Issued(d, r.end.preempted))
    decreases |entries|, 0
  {
    hide Inv, Grows, Put, Touchable, SlotOk, ReceiveAccept, Issued, View, Closed, Remembers;
    var e := entries[0];
    var votes := {Vote(n, e.slot, b, a.val)};
    TouchKeeps(c, n, e.slot, a, votes, {});
    var d := Touch(c, n, e.slot, a, votes, {});
    assert d.picks == c.picks;
    IssuedStays(c, d, b);
    AcceptKeeps(d, n, b, entries[1..]);
    var rest := AcceptLoop(d.nodes[n].window, n, b, entries[1..]);
    var f := AfterAccept(d, n, rest);
    GrowsTransitive(c, d, f);
    assert f == AfterAccept(c, n, AcceptLoop(c.nodes[n].window, n, b, entries)) by {
      assert (c.votes + votes) + rest.votes == c.votes + (votes + rest.votes);
    }
  }
}
