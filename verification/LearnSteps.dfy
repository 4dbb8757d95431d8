// The loops of the learner: counting ACCEPTED and resolving. They resolve only chosen
// values.
module LearnSteps {
  import opened Ballots
  import opened Quorums
  import opened Acceptors
  import opened Windows
  import opened NodeSteps
  import opened Clusters
  import opened Invariants
  import opened Growth
  import opened SlotSteps
  import opened LoopSteps
  import C = Commands

  /** All votes of one ballot in one slot are for one value. */
  lemma {:induction false} VotesAgree(c: Cluster, q: NodeId, s: Slot, b: Ballot, v: Bytes)
    requires Inv(c) && VotedSome(c, q, s, b) && Pick(b, s, v) in c.picks
    ensures Vote(q, s, b, v) in c.votes && q in c.nodes
  {
    var w :| Vote(q, s, b, w) in c.votes;
    assert VoteOk(c, Vote(q, s, b, w));
    assert Pick(b, s, w) in c.picks;
  }

  /** The leader and `quorum - 1` distinct peers make a quorum. */
  lemma {:induction false} CountedQuorum(c: Cluster, n: NodeId, s: Slot, b: Ballot, v: Bytes, es: Entries)
    requires n in c.nodes && Packed(es) && HasQuorum(es) && |es| == QuorumSize(|c.nodes| - 1) - 1
    requires b.node == n && Vote(n, s, b, v) in c.votes
    requires forall q :: q in Members(es) ==> q != n && q in c.nodes && Vote(q, s, b, v) in c.votes
    ensures Chosen(c, b, s, v)
  {
    PackedCount(es);
    var q := Members(es) + {n};
    assert |q| == |Members(es)| + 1;
    assert IsQuorum(c, q) && AllVoted(c, q, b, s, v);
  }

  lemma {:induction false} CountTouch(c: Cluster, n: NodeId, peer: NodeId, b: Ballot, s: Slot)
    requires Inv(c) && n in c.nodes && b.node == n && peer != n && !At(c.nodes[n], s).Resolved?
    requires VotedSome(c, peer, s, b) && Issued(c, b)
    ensures var a := ReceiveAccepted(At(c.nodes[n], s), peer, b);
            Touchable(c, n, s, a, {}, {}) && SlotOk(c, n, s, a)
  {
    hide Inv, WindowOk;
    var a := At(c.nodes[n], s);
    SlotAcc(c, n, s);
    NodeWindowOk(c, n);
    OperationsGrow(a, c.nodes[n].window.quorum, b, [], peer);
    if a.AwaitQuorum? && a.bal == b {
      var es := Insert(a.quorum, peer);
      InsertMeaning(a.quorum, peer);
      VotesAgree(c, peer, s, b, a.val);
      forall q | q in Members(es)
        ensures q != n && q in c.nodes && Vote(q, s, b, a.val) in c.votes
      {
        if q != peer { InvVote(c, Vote(q, s, b, a.val)); }
      }
      if HasQuorum(es) { CountedQuorum(c, n, s, b, a.val, es); }
    }
  }

  lemma {:induction false} VotedSomeStays(c: Cluster, d: Cluster, q: NodeId, s: Slot, b: Ballot)
    requires Grows(c, d) && VotedSome(c, q, s, b)
    ensures VotedSome(d, q, s, b)
  {
    var v :| Vote(q, s, b, v) in c.votes;
    assert Vote(q, s, b, v) in d.votes;
  }

  /** Counting ACCEPTED messages keeps the invariant; every announced resolution is
      chosen at the announced ballot. */
  lemma {:induction false} AcceptedKeeps(c: Cluster, n: NodeId, peer: NodeId, b: Ballot, slots: seq<Slot>)
    requires Inv(c) && n in c.nodes && b.node == n && peer != n && Issued(c, b)
    requires forall s :: s in slots ==> VotedSome(c, peer, s, b)
    ensures var r := AcceptedLoop(c.nodes[n].window, peer, b, slots); var d := WithWindow(c, n, r.window);
            Inv(d) && Grows(c, d) && forall e :: e in r.resolutions ==> Chosen(d, b, e.slot, e.val)
    decreases |slots|
  {
    hide Inv, Grows, Put, Touchable, ReceiveAccepted, Issued, VotedSome, Chosen;
    var w := c.nodes[n].window;
    if slots == [] || View(w, slots[0]).Resolved? {
      SameWindow(c, n);
    } else if slots[0] >= End(w) {
      AcceptedKeeps(c, n, peer, b, slots[1..]);
    } else {
      var s := slots[0];
      var a := ReceiveAccepted(View(w, s), peer, b);
      CountTouch(c, n, peer, b, s);
      SilentTouch(c, n, s, a);
      var d := WithWindow(c, n, Put(w, s, a));
      IssuedStays(c, d, b);
      forall t | t in slots[1..] ensures VotedSome(d, peer, t, b) { VotedSomeStays(c, d, peer, t, b); }
      AcceptedKeeps(d, n, peer, b, slots[1..]);
      var r := AcceptedLoop(d.nodes[n].window, peer, b, slots[1..]);
      var e := WithWindow(d, n, r.window);
      SetTwice(c, n, Put(w, s, a), r.window);
      GrowsTransitive(c, d, e);
      if a.Resolved? {
        CountedBallot(View(w, s), peer, b);
        ChosenStays(c, e, b, s, a.value);
      }
    }
  }

  lemma {:induction false} CountedBallot(a: Acc, peer: NodeId, b: Ballot)
    requires !a.Resolved? && ReceiveAccepted(a, peer, b).Resolved?
    ensures ReceiveAccepted(a, peer, b).accepted == b
  {
  }

  /** Resolving chosen values keeps the invariant. */
  lemma {:induction false} ResolveKeeps(c: Cluster, n: NodeId, b: Ballot, entries: seq<C.Entry>)
    requires Inv(c) && n in c.nodes && Issued(c, b)
    requires forall e :: e in entries ==> Chosen(c, b, e.slot, e.val)
    ensures var d := WithWindow(c, n, ResolveAll(c.nodes[n].window, b, entries)); Inv(d) && Grows(c, d)
    decreases |entries|
  {
    hide Inv, Grows, Put, Touchable, Issued, Chosen;
    var w := c.nodes[n].window;
    if entries == [] {
      SameWindow(c, n);
    } else {
      var e := entries[0];
      var a := View(w, e.slot);
      var w' := if a.Resolved? then w else Put(w, e.slot, Resolve(a, b, e.val));
      var d := WithWindow(c, n, w');
      if a.Resolved? {
        SameWindow(c, n);
      } else {
        ResolveTouch(c, n, b, e);
        SilentTouch(c, n, e.slot, Resolve(a, b, e.val));
      }
      IssuedStays(c, d, b);
      forall f | f in entries[1..] ensures Chosen(d, b, f.slot, f.val) { ChosenStays(c, d, b, f.slot, f.val); }
      ResolveKeeps(d, n, b, entries[1..]);
      SetTwice(c, n, w', ResolveAll(w', b, entries[1..]));
      GrowsTransitive(c, d, WithWindow(d, n, ResolveAll(w', b, entries[1..])));
    }
  }

  lemma {:induction false} ResolveTouch(c: Cluster, n: NodeId, b: Ballot, e: C.Entry)
    requires Inv(c) && n in c.nodes && !At(c.nodes[n], e.slot).Resolved? && Issued(c, b)
    requires Chosen(c, b, e.slot, e.val)
    ensures var a := Resolve(At(c.nodes[n], e.slot), b, e.val); Touchable(c, n, e.slot, a, {}, {}) && SlotOk(c, n, e.slot, a)
  {
    hide Inv, WindowOk;
    SlotAcc(c, n, e.slot);
    OperationsGrow(At(c.nodes[n], e.slot), c.nodes[n].window.quorum, b, e.val, n);
  }
}
