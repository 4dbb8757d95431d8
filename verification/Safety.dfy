// Why a value that a leader picks is safe: below the leader's ballot, no other value is
// or can become chosen in that slot.
module Safety {
  import opened Ballots
  import opened Quorums
  import opened Proposers
  import opened NodeSteps
  import opened Clusters
  import opened Invariants
  import opened Growth

  /** A chosen value is the only one that can be chosen at its ballot. */
  lemma {:induction false} ChosenExcludes(d: Cluster, b: Ballot, s: Slot, v: Bytes, w: Bytes)
    requires OddSize(d) && OneValue(d) && Chosen(d, b, s, v) && OnlyAt(d, s, b, w)
    requires forall vt :: vt in d.votes ==> Pick(vt.bal, vt.slot, vt.val) in d.picks
    ensures v == w
  {
    var p :| b.node in p && IsQuorum(d, p) && AllVoted(d, p, b, s, v);
    var q :| IsQuorum(d, q) && AllSettled(d, q, s, b, w);
    assert |d.nodes.Keys| == |d.nodes|;
    var n := QuorumsMeet(d.nodes.Keys, p, q);
    assert Vote(n, s, b, v) in d.votes;
    assert Settled(d, n, s, b, w);
  }

  /** A safe pick at or above a ballot where a value was chosen has that value. */
  lemma {:induction false} ChosenFixes(d: Cluster, b: Ballot, s: Slot, v: Bytes, k: Pick)
    requires OddSize(d) && OneValue(d) && Chosen(d, b, s, v)
    requires forall vt :: vt in d.votes ==> Pick(vt.bal, vt.slot, vt.val) in d.picks
    requires k in d.picks && k.slot == s && b.AtMost(k.bal) && SafeAt(d, k.bal, s, k.val)
    ensures k.val == v
  {
    if b == k.bal {
      ChosenIsPicked(d, b, s, v);
    } else {
      assert OnlyAt(d, s, b, k.val);
      ChosenExcludes(d, b, s, v, k.val);
    }
  }

  lemma {:induction false} ChosenIsPicked(d: Cluster, b: Ballot, s: Slot, v: Bytes)
    requires Chosen(d, b, s, v)
    requires forall vt :: vt in d.votes ==> Pick(vt.bal, vt.slot, vt.val) in d.picks
    ensures Pick(b, s, v) in d.picks
  {
    var q :| b.node in q && IsQuorum(d, q) && AllVoted(d, q, b, s, v);
    assert Vote(b.node, s, b, v) in d.votes;
  }

  /** A quorum bound to a higher ballot, whose votes at `bal` are all for `v`, leaves only
      `v` to be chosen there. */
  lemma {:induction false} QuorumSettles(d: Cluster, q: set<NodeId>, b: Ballot, s: Slot, bal: Ballot, v: Bytes)
    requires IsQuorum(d, q) && bal.Less(b)
    requires forall n :: n in q ==> n in d.nodes && Bound(d.nodes[n], s, b)
    requires forall n, w :: n in q && Vote(n, s, bal, w) in d.votes ==> w == v
    ensures OnlyAt(d, s, bal, v)
  {
    forall n | n in q
      ensures Settled(d, n, s, bal, v)
    {
      BoundCloses(d.nodes[n], s, b, bal);
      assert Vote(n, s, bal, v) in d.votes || NoVote(d, n, s, bal);
    }
    assert AllSettled(d, q, s, bal, v);
  }

  /** What the proofs below assume of the cluster after the pick: the older picks are
      safe, votes are for picks, and the quorum `q` of promisers is bound to `b`. */
  ghost predicate Setting(d: Cluster, prior: set<Pick>, q: set<NodeId>, b: Ballot, s: Slot) {
    && OddSize(d) && OneValue(d)
    && (forall vt :: vt in d.votes ==> Pick(vt.bal, vt.slot, vt.val) in d.picks)
    && prior <= d.picks && (forall k :: k in prior ==> SafeAt(d, k.bal, k.slot, k.val))
    && IsQuorum(d, q)
    && (forall n :: n in q ==> n in d.nodes && Bound(d.nodes[n], s, b))
    && (forall n, w, bal: Ballot :: n in q && bal.Less(b) && Vote(n, s, bal, w) in d.votes ==> Pick(bal, s, w) in prior)
  }

  /** A value chosen in the slot is safe at every ballot a quorum is bound to. */
  lemma {:induction false} ChosenIsSafe(d: Cluster, prior: set<Pick>, q: set<NodeId>, b: Ballot, s: Slot, b0: Ballot,
                                        v: Bytes)
    requires Setting(d, prior, q, b, s) && Chosen(d, b0, s, v) && Pick(b0, s, v) in prior
    ensures SafeAt(d, b, s, v)
  {
    forall bal: Ballot | bal.Less(b)
      ensures OnlyAt(d, s, bal, v)
    {
      if bal.Less(b0) {
        assert SafeAt(d, b0, s, v);
      } else {
        forall n, w | n in q && Vote(n, s, bal, w) in d.votes
          ensures w == v
        {
          ChosenFixes(d, b0, s, v, Pick(bal, s, w));
        }
        QuorumSettles(d, q, b, s, bal, v);
      }
    }
  }

  /** The value of the highest pick that accounts for every vote of the promisers is
      safe. */
  lemma {:induction false} HighestIsSafe(d: Cluster, prior: set<Pick>, q: set<NodeId>, b: Ballot, s: Slot,
                                         top: Ballot, v: Bytes)
    requires Setting(d, prior, q, b, s) && Pick(top, s, v) in prior
    requires forall n, w, bal: Ballot :: n in q && bal.Less(b) && Vote(n, s, bal, w) in d.votes ==> Covers(d, s, top, bal)
    ensures SafeAt(d, b, s, v)
  {
    forall bal: Ballot | bal.Less(b)
      ensures OnlyAt(d, s, bal, v)
    {
      assert SafeAt(d, top, s, v);
      if !bal.Less(top) {
        forall n, w | n in q && Vote(n, s, bal, w) in d.votes
          ensures w == v
        {
          CoveredVote(d, prior, q, b, s, top, v, bal, w);
        }
        QuorumSettles(d, q, b, s, bal, v);
      }
    }
  }

  lemma {:induction false} CoveredVote(d: Cluster, prior: set<Pick>, q: set<NodeId>, b: Ballot, s: Slot, top: Ballot,
                                       v: Bytes, bal: Ballot, w: Bytes)
    requires Setting(d, prior, q, b, s) && Pick(top, s, v) in prior && Pick(bal, s, w) in prior
    requires top.AtMost(bal) && Covers(d, s, top, bal)
    ensures w == v
  {
    if !bal.AtMost(top) {
      var b0: Ballot, v0 :| b0.AtMost(top) && Chosen(d, b0, s, v0);
      ChosenFixes(d, b0, s, v0, Pick(top, s, v));
      ChosenFixes(d, b0, s, v0, Pick(bal, s, w));
    }
  }

  /** Where no promiser voted, every value is safe. */
  lemma {:induction false} UnvotedIsSafe(d: Cluster, prior: set<Pick>, q: set<NodeId>, b: Ballot, s: Slot, v: Bytes)
    requires Setting(d, prior, q, b, s)
    requires forall n, w, bal: Ballot :: n in q && bal.Less(b) ==> Vote(n, s, bal, w) !in d.votes
    ensures SafeAt(d, b, s, v)
  {
    forall bal: Ballot | bal.Less(b)
      ensures OnlyAt(d, s, bal, v)
    {
      QuorumSettles(d, q, b, s, bal, v);
    }
  }

  // ---------------------------------------------------------------------------
  // The pick of a leader
  // ---------------------------------------------------------------------------

  /** Leader `n` of ballot `b` picks `v` in the unresolved slot `s`: the value its own
      acceptor holds there, or any value if it holds none. */
  ghost predicate PicksNow(c: Cluster, d: Cluster, n: NodeId, b: Ballot, s: Slot, v: Bytes) {
    && Grows(c, d) && n in c.nodes && c.nodes[n].prop.state == Leader(b)
    && d.picks == c.picks + {Pick(b, s, v)} && d.counted == c.counted
    && !At(c.nodes[n], s).Resolved? && (At(c.nodes[n], s).AwaitQuorum? ==> v == At(c.nodes[n], s).val)
    && Bound(d.nodes[n], s, b)
    && (forall vt :: vt in d.votes && vt !in c.votes ==> vt.bal == b && Pick(vt.bal, vt.slot, vt.val) in d.picks)
  }

  lemma {:induction false} LeaderIsOwner(c: Cluster, n: NodeId, b: Ballot)
    requires Inv(c) && n in c.nodes && c.nodes[n].prop.state == Leader(b)
    ensures b.node == n && IsQuorum(c, Promisers(c, b)) && b in c.elected
  {
    InvNode(c, n);
    assert ElectedOk(c, b);
  }

  /** The packet behind a counted promise. */
  lemma {:induction false} PromiserPacket(c: Cluster, b: Ballot, q: NodeId) returns (p: Packet)
    requires Inv(c) && q in Promisers(c, b) && q != b.node
    ensures p in c.counted && p.cmd.Promise? && p.cmd.bal == b && p.cmd.node == q
    ensures CountedOk(c, p) && PromiseOk(c, q, b, p.cmd.reports, p.log)
  {
    p :| p in c.counted && p.cmd.Promise? && p.cmd.bal == b && p.cmd.node == q;
    assert CountedOk(c, p);
    InvPacket(c, p);
  }

  lemma {:induction false} PromisersBound(c: Cluster, d: Cluster, n: NodeId, b: Ballot, s: Slot, v: Bytes, q: NodeId)
    requires Inv(c) && PicksNow(c, d, n, b, s, v) && q in Promisers(c, b)
    ensures q in d.nodes && Bound(d.nodes[q], s, b)
    ensures forall w, bal: Ballot :: bal.Less(b) && Vote(q, s, bal, w) in d.votes ==> Vote(q, s, bal, w) in c.votes
  {
    LeaderIsOwner(c, n, b);
    if q != n {
      var p := PromiserPacket(c, b, q);
      assert NodeGrows(c.nodes[q], d.nodes[q]);
      BoundStays(c.nodes[q], d.nodes[q], s, b);
    }
  }

  /** An earlier vote of a promiser is one the leader knows of, or it lies in the log
      that came with the promise. */
  lemma {:induction false} PromiserVote(c: Cluster, n: NodeId, b: Ballot, s: Slot, q: NodeId, bal: Ballot, w: Bytes)
    requires Inv(c) && n in c.nodes && c.nodes[n].prop.state == Leader(b) && q in Promisers(c, b)
    requires bal.Less(b) && Vote(q, s, bal, w) in c.votes
    ensures Known(c, At(c.nodes[n], s), s, bal) || LoggedAt(c, b, s)
  {
    LeaderIsOwner(c, n, b);
    if q == n {
      InvVote(c, Vote(q, s, bal, w));
    } else {
      var p := PromiserPacket(c, b, q);
      if s < |p.log| {
        assert p in c.counted;
      } else {
        assert Known(c, At(c.nodes[p.cmd.bal.node], Vote(q, s, bal, w).slot), s, bal);
      }
    }
  }

  /** Some promiser counted for `b` had moved slot `s` to its log. */
  ghost predicate LoggedAt(c: Cluster, b: Ballot, s: Slot) {
    exists p :: p in c.counted && p.cmd.Promise? && p.cmd.bal == b && s < |p.log|
  }

  lemma {:induction false} LoggedIsChosen(c: Cluster, b: Ballot, s: Slot) returns (p: Packet)
    requires Inv(c) && LoggedAt(c, b, s)
    ensures p in c.counted && p.cmd.Promise? && p.cmd.bal == b && s < |p.log|
    ensures Chosen(c, p.log[s].bal, s, p.log[s].val)
  {
    p :| p in c.counted && p.cmd.Promise? && p.cmd.bal == b && s < |p.log|;
    assert CountedOk(c, p);
    InvPacket(c, p);
  }

  lemma {:induction false} VotesArePicks(c: Cluster)
    requires Inv(c)
    ensures forall vt :: vt in c.votes ==> Pick(vt.bal, vt.slot, vt.val) in c.picks
  {
    forall vt | vt in c.votes ensures Pick(vt.bal, vt.slot, vt.val) in c.picks { InvVote(c, vt); }
  }

  lemma {:induction false} PickSetting(c: Cluster, d: Cluster, n: NodeId, b: Ballot, s: Slot, v: Bytes)
    requires Inv(c) && PicksNow(c, d, n, b, s, v) && OddSize(d) && OneValue(d) && AllSafe(c)
    ensures Setting(d, c.picks, Promisers(c, b), b, s)
  {
    hide Inv, Grows;
    var q := Promisers(c, b);
    LeaderIsOwner(c, n, b);
    VotesArePicks(c);
    forall k | k in c.picks
      ensures SafeAt(d, k.bal, k.slot, k.val)
    {
      SafeAtStays(c, d, k.bal, k.slot, k.val);
    }
    GrowsKeys(c, d);
    forall m | m in q
      ensures m in d.nodes && Bound(d.nodes[m], s, b)
      ensures forall w, bal: Ballot :: bal.Less(b) && Vote(m, s, bal, w) in d.votes ==> Pick(bal, s, w) in c.picks
    {
      PromisersBound(c, d, n, b, s, v, m);
      forall w, bal: Ballot | bal.Less(b) && Vote(m, s, bal, w) in d.votes
        ensures Pick(bal, s, w) in c.picks
      {
        assert Vote(m, s, bal, w) in c.votes;
      }
    }
  }

  lemma {:induction false} GrowsKeys(c: Cluster, d: Cluster)
    requires Grows(c, d)
    ensures c.nodes.Keys == d.nodes.Keys && |c.nodes| == |d.nodes| && c.votes <= d.votes
    ensures forall q :: IsQuorum(c, q) <==> IsQuorum(d, q)
  {
    assert |c.nodes.Keys| == |d.nodes.Keys|;
  }

  /** The central step: under an odd cluster whose elections are reconciled, the pick of
      a leader is safe. */
  lemma {:induction false} NewPickIsSafe(c: Cluster, d: Cluster, n: NodeId, b: Ballot, s: Slot, v: Bytes)
    requires Inv(c) && PicksNow(c, d, n, b, s, v) && OddSize(d) && OneValue(d) && AllSafe(c) && Reconciled(d)
    ensures SafeAt(d, b, s, v)
  {
    hide Inv, Grows, Setting, SafeAt, AllSafe;
    var q := Promisers(c, b);
    var a := At(c.nodes[n], s);
    PickSetting(c, d, n, b, s, v);
    VotesArePicks(c);
    if LoggedAt(c, b, s) {
      var p := LoggedIsChosen(c, b, s);
      assert Pick(b, s, v) in d.picks && v == p.log[s].val;
      ChosenStays(c, d, p.log[s].bal, s, v);
      ChosenIsPicked(c, p.log[s].bal, s, v);
      ChosenIsSafe(d, c.picks, q, b, s, p.log[s].bal, v);
    } else {
      forall m, w, bal: Ballot | m in q && bal.Less(b) && Vote(m, s, bal, w) in d.votes
        ensures a.AwaitQuorum? && Covers(d, s, a.bal, bal)
      {
        PromisersBound(c, d, n, b, s, v, m);
        PromiserVote(c, n, b, s, m, bal, w);
        CoversStays(c, d, s, a.bal, a.bal, bal);
      }
      if a.AwaitQuorum? {
        InvSlot(c, n, s);
        HighestIsSafe(d, c.picks, q, b, s, a.bal, v);
      } else {
        UnvotedIsSafe(d, c.picks, q, b, s, v);
      }
    }
  }

  /** A pick of a leader keeps the safety part of the invariant. */
  lemma {:induction false} PickKeepsSafety(c: Cluster, d: Cluster, n: NodeId, b: Ballot, s: Slot, v: Bytes)
    requires Inv(c) && PicksNow(c, d, n, b, s, v) && OneValue(d)
    ensures SafetyOk(d)
  {
    hide Inv, Grows, SafeAt, Reconciled, Chosen, Bound;
    if OddSize(d) && Reconciled(d) {
      GrowsKeys(c, d);
      ReconciledBefore(c, d);
      InvSafe(c);
      NewPickIsSafe(c, d, n, b, s, v);
      forall k | k in d.picks
        ensures SafeAt(d, k.bal, k.slot, k.val)
      {
        if k in c.picks { SafeAtStays(c, d, k.bal, k.slot, k.val); }
      }
    }
  }
}
