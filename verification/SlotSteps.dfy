// One access to one slot of one node, with the votes and picks it stands for. Every
// handler is a sequence of such accesses, so the invariant is proved for this step once.
module SlotSteps {
  import opened Ballots
  import opened Acceptors
  import opened Windows
  import opened Proposers
  import opened NodeSteps
  import opened Clusters
  import opened Invariants
  import opened Growth

  function WithWindow(c: Cluster, n: NodeId, w: Window): Cluster
    requires n in c.nodes
  {
    c.(nodes := c.nodes[n := c.nodes[n].(window := w)])
  }

  function Touch(c: Cluster, n: NodeId, s: Slot, a: Acc, votes: set<Vote>, picks: set<Pick>): Cluster
    requires n in c.nodes
  {
    WithWindow(c, n, Put(c.nodes[n].window, s, a)).(votes := c.votes + votes, picks := c.picks + picks)
  }

  /** The side conditions of an access that leaves the acceptor `a` in slot `s`. */
  ghost predicate Touchable(c: Cluster, n: NodeId, s: Slot, a: Acc, votes: set<Vote>, picks: set<Pick>)
    requires n in c.nodes
  {
    var x := c.nodes[n];
    && !At(x, s).Resolved? && AccOk(a, x.window.quorum) && AccGrows(At(x, s), a)
    && IssuedIfAny(c, Promise(a))
    && (forall vt :: vt in votes ==>
          vt.node == n && vt.slot == s && Remembers(a, vt.bal) && !Closed(x, s, vt.bal)
          && Pick(vt.bal, s, vt.val) in c.picks + picks)
    && (forall k :: k in picks ==>
          k.slot == s && x.prop.state == Leader(k.bal) && Remembers(a, k.bal) && (k.val == [] || k.val in c.submitted)
          && forall m :: m in c.picks + picks && m.bal == k.bal && m.slot == s ==> m.val == k.val)
  }

  lemma {:induction false} TouchGrows(c: Cluster, n: NodeId, s: Slot, a: Acc, votes: set<Vote>, picks: set<Pick>)
    requires n in c.nodes && WindowOk(c.nodes[n].window) && Touchable(c, n, s, a, votes, picks)
    ensures Grows(c, Touch(c, n, s, a, votes, picks))
    ensures WindowOk(Put(c.nodes[n].window, s, a))
    ensures PutSpec(c.nodes[n].window, s, a, Put(c.nodes[n].window, s, a))
  {
    hide WindowGrows, WindowOk, PutSpec, Put, View, AccGrows, AccOk, Closed, Remembers;
    PutGrows(c.nodes[n].window, s, a);
    PutMeaning(c.nodes[n].window, s, a);
    forall m | m in c.nodes ensures WindowGrows(c.nodes[m].window, c.nodes[m].window) { WindowGrowsReflexive(c.nodes[m].window); }
  }

  /** A node that does not act stays well formed. */
  lemma {:induction false} OtherNodeStays(c: Cluster, d: Cluster, m: NodeId)
    requires Grows(c, d) && m in c.nodes && NodeOk(c, m, c.nodes[m]) && d.nodes[m] == c.nodes[m]
    requires var st := c.nodes[m].prop.state;
             st.Candidate? ==> Promisers(d, st.proposal) == Promisers(c, st.proposal) && st.proposal !in d.elected
    ensures NodeOk(d, m, d.nodes[m])
  {
    var x := c.nodes[m];
    assert |c.nodes.Keys| == |d.nodes.Keys|;
    if x.prop.highest.Some? { IssuedStays(c, d, x.prop.highest.value); }
    forall t: Slot
      ensures IssuedIfAny(d, Promise(At(x, t)))
    {
      assert IssuedIfAny(c, Promise(At(x, t)));
      if Promise(At(x, t)).Some? { IssuedStays(c, d, Promise(At(x, t)).value); }
    }
  }

  lemma {:induction false} PutIssued(c: Cluster, x: NodeState, s: Slot, a: Acc, w: Window, t: Slot)
    requires forall t: Slot :: IssuedIfAny(c, Promise(At(x, t)))
    requires IssuedIfAny(c, Promise(a)) && WindowOk(x.window) && PutSpec(x.window, s, a, w)
    ensures IssuedIfAny(c, Promise(View(w, t)))
  {
    assert IssuedIfAny(c, Promise(At(x, t)));
    assert IssuedIfAny(c, Promise(At(x, End(x.window))));
  }

  lemma {:induction false} TouchNode(c: Cluster, n: NodeId, s: Slot, a: Acc, votes: set<Vote>, picks: set<Pick>)
    requires n in c.nodes && NodeOk(c, n, c.nodes[n]) && Touchable(c, n, s, a, votes, picks)
    ensures NodeOk(Touch(c, n, s, a, votes, picks), n, Touch(c, n, s, a, votes, picks).nodes[n])
  {
    var d := Touch(c, n, s, a, votes, picks);
    TouchGrows(c, n, s, a, votes, picks);
    var x, y := c.nodes[n], d.nodes[n];
    assert |c.nodes.Keys| == |d.nodes.Keys|;
    if x.prop.highest.Some? { IssuedStays(c, d, x.prop.highest.value); }
    forall t: Slot
      ensures IssuedIfAny(d, Promise(At(y, t)))
    {
      PutIssued(c, x, s, a, y.window, t);
      if Promise(At(y, t)).Some? { IssuedStays(c, d, Promise(At(y, t)).value); }
    }
    assert forall b :: Promisers(d, b) == Promisers(c, b);
    assert ProposerOk(d, n, y);
  }

  lemma {:induction false} NodeWindow(c: Cluster, n: NodeId)
    requires NodesOk(c) && n in c.nodes
    ensures WindowOk(c.nodes[n].window)
  {
    assert NodeOk(c, n, c.nodes[n]);
  }

  lemma {:induction false} CandidateNotElected(c: Cluster, m: NodeId)
    requires m in c.nodes && NodeOk(c, m, c.nodes[m]) && c.nodes[m].prop.state.Candidate?
    ensures c.nodes[m].prop.state.proposal !in c.elected
  {
  }

  lemma {:induction false} TouchNodes(c: Cluster, n: NodeId, s: Slot, a: Acc, votes: set<Vote>, picks: set<Pick>)
    requires NodesOk(c) && n in c.nodes && Touchable(c, n, s, a, votes, picks)
    ensures NodesOk(Touch(c, n, s, a, votes, picks))
  {
    hide NodeOk, Grows, Touchable, PutSpec;
    NodeWindow(c, n);
    var d := Touch(c, n, s, a, votes, picks);
    TouchNode(c, n, s, a, votes, picks);
    TouchGrows(c, n, s, a, votes, picks);
    assert |c.nodes.Keys| == |d.nodes.Keys|;
    assert forall b :: Promisers(d, b) == Promisers(c, b);
    forall m | m in d.nodes
      ensures NodeOk(d, m, d.nodes[m])
    {
      if m != n {
        if c.nodes[m].prop.state.Candidate? { CandidateNotElected(c, m); }
        OtherNodeStays(c, d, m);
      }
    }
  }

  lemma {:induction false} TouchSlots(c: Cluster, n: NodeId, s: Slot, a: Acc, votes: set<Vote>, picks: set<Pick>)
    requires SlotsOk(c) && n in c.nodes && WindowOk(c.nodes[n].window) && Touchable(c, n, s, a, votes, picks)
    requires SlotOk(Touch(c, n, s, a, votes, picks), n, s, a)
    ensures SlotsOk(Touch(c, n, s, a, votes, picks))
  {
    var d := Touch(c, n, s, a, votes, picks);
    TouchGrows(c, n, s, a, votes, picks);
    forall m, t: Slot | m in d.nodes
      ensures SlotOk(d, m, t, At(d.nodes[m], t))
    {
      assert SlotOk(c, m, t, At(c.nodes[m], t));
      if m != n || (t != s && (t < End(c.nodes[n].window) || t < s)) {
        assert At(d.nodes[m], t) == At(c.nodes[m], t);
        SlotOkStays(c, d, m, t, At(c.nodes[m], t));
      }
    }
  }

  lemma {:induction false} TouchPicks(c: Cluster, n: NodeId, s: Slot, a: Acc, votes: set<Vote>, picks: set<Pick>)
    requires n in c.nodes && NodeOk(c, n, c.nodes[n]) && Touchable(c, n, s, a, votes, picks)
    requires forall k :: k in c.picks ==> PickOk(c, k)
    requires OneValue(c)
    ensures var d := Touch(c, n, s, a, votes, picks); (forall k :: k in d.picks ==> PickOk(d, k)) && OneValue(d)
  {
    var d := Touch(c, n, s, a, votes, picks);
    TouchGrows(c, n, s, a, votes, picks);
    forall k | k in d.picks
      ensures PickOk(d, k)
    {
      if k in c.picks {
        PickOkStays(c, d, k);
      } else {
        ViewOk(c.nodes[n].window, s);
        assert At(d.nodes[n], s) == a;
      }
    }
  }

  lemma {:induction false} TouchVotes(c: Cluster, n: NodeId, s: Slot, a: Acc, votes: set<Vote>, picks: set<Pick>)
    requires n in c.nodes && WindowOk(c.nodes[n].window) && Touchable(c, n, s, a, votes, picks)
    requires forall vt :: vt in c.votes ==> VoteOk(c, vt)
    ensures var d := Touch(c, n, s, a, votes, picks); forall vt :: vt in d.votes ==> VoteOk(d, vt)
  {
    var d := Touch(c, n, s, a, votes, picks);
    TouchGrows(c, n, s, a, votes, picks);
    forall vt | vt in d.votes
      ensures VoteOk(d, vt)
    {
      if vt in c.votes {
        VoteOkStays(c, d, vt);
      } else {
        assert At(d.nodes[n], s) == a;
      }
    }
  }

  /** What was counted and elected stays so, whatever grows, as long as nothing new is
      counted or elected. */
  lemma {:induction false} CountsStay(c: Cluster, d: Cluster)
    requires Grows(c, d) && NetworkOk(c) && d.counted == c.counted && d.elected == c.elected
    requires forall p :: p in c.counted ==> CountedOk(c, p)
    requires forall b :: b in c.elected ==> ElectedOk(c, b)
    ensures forall p :: p in d.counted ==> CountedOk(d, p)
    ensures forall b :: b in d.elected ==> ElectedOk(d, b)
  {
    forall p | p in d.counted
      ensures CountedOk(d, p)
      ensures p.cmd.Promise? && p.cmd.node in d.nodes
    {
      CountedOkStays(c, d, p);
    }
    forall b | b in d.elected
      ensures ElectedOk(d, b)
    {
      ElectedOkStays(c, d, b);
    }
  }

  lemma {:induction false} TouchHistory(c: Cluster, n: NodeId, s: Slot, a: Acc, votes: set<Vote>, picks: set<Pick>)
    requires n in c.nodes && NodeOk(c, n, c.nodes[n]) && Touchable(c, n, s, a, votes, picks)
    requires HistoryOk(c) && NetworkOk(c) && Grows(c, Touch(c, n, s, a, votes, picks))
    ensures HistoryOk(Touch(c, n, s, a, votes, picks))
  {
    TouchPicks(c, n, s, a, votes, picks);
    TouchVotes(c, n, s, a, votes, picks);
    CountsStay(c, Touch(c, n, s, a, votes, picks));
  }

  lemma {:induction false} TouchSafety(c: Cluster, n: NodeId, s: Slot, a: Acc, votes: set<Vote>, picks: set<Pick>)
    requires n in c.nodes && SafetyOk(c) && Grows(c, Touch(c, n, s, a, votes, picks)) && picks <= c.picks
    ensures SafetyOk(Touch(c, n, s, a, votes, picks))
  {
    assert Touch(c, n, s, a, votes, picks).picks == c.picks;
    SafetyStays(c, Touch(c, n, s, a, votes, picks));
  }

  /** An access keeps the invariant if what it leaves in the slot is backed by the
      history, and if its picks are safe. */
  lemma {:induction false} TouchKeeps(c: Cluster, n: NodeId, s: Slot, a: Acc, votes: set<Vote>, picks: set<Pick>)
    requires Inv(c) && n in c.nodes && Touchable(c, n, s, a, votes, picks)
    requires SlotOk(Touch(c, n, s, a, votes, picks), n, s, a)
    requires picks <= c.picks || SafetyOk(Touch(c, n, s, a, votes, picks))
    ensures Inv(Touch(c, n, s, a, votes, picks))
    ensures Grows(c, Touch(c, n, s, a, votes, picks))
  {
    TouchNodes(c, n, s, a, votes, picks);
    TouchGrows(c, n, s, a, votes, picks);
    TouchSlots(c, n, s, a, votes, picks);
    TouchHistory(c, n, s, a, votes, picks);
    NetworkStays(c, Touch(c, n, s, a, votes, picks));
    if picks <= c.picks { TouchSafety(c, n, s, a, votes, picks); }
  }
}
