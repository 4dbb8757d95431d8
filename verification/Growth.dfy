// How a cluster may change: everything recorded stays recorded, promises only rise,
// and nobody votes where it closed a ballot. What is stable under such a change is
// proved here once, for every step.
module Growth {
  import opened Ballots
  import opened Quorums
  import opened Acceptors
  import opened Windows
  import opened NodeSteps
  import opened Clusters
  import opened Invariants
  import C = Commands

  ghost predicate NodeGrows(x: NodeState, y: NodeState) {
    && x.id == y.id && x.peers == y.peers
    && Precedes(x.prop.highest, y.prop.highest)
    && WindowGrows(x.window, y.window)
  }

  ghost predicate HistoryGrows(c: Cluster, d: Cluster) {
    && c.network <= d.network && c.picks <= d.picks && c.votes <= d.votes
    && c.submitted <= d.submitted && c.counted <= d.counted
    && (forall b :: b in c.elected ==> b in d.elected && d.elected[b] == c.elected[b])
  }

  /** New votes are cast only where the voter had not closed the ballot. */
  ghost predicate VotesLegal(c: Cluster, d: Cluster) {
    forall vt :: vt in d.votes && vt !in c.votes
      ==> vt.node in c.nodes && !Closed(c.nodes[vt.node], vt.slot, vt.bal)
  }

  ghost predicate Grows(c: Cluster, d: Cluster) {
    && c.nodes.Keys == d.nodes.Keys
    && HistoryGrows(c, d)
    && (forall n :: n in c.nodes ==> NodeGrows(c.nodes[n], d.nodes[n]))
    && VotesLegal(c, d)
  }

  lemma {:induction false} BoundStays(x: NodeState, y: NodeState, s: Slot, b: Ballot)
    requires NodeGrows(x, y) && Bound(x, s, b)
    ensures Bound(y, s, b)
  {
    assert AccGrows(At(x, s), At(y, s));
  }

  lemma {:induction false} ClosedStays(x: NodeState, y: NodeState, s: Slot, d: Ballot)
    requires NodeGrows(x, y) && Closed(x, s, d)
    ensures Closed(y, s, d)
  {
    assert AccGrows(At(x, s), At(y, s));
  }

  lemma {:induction false} BoundCloses(x: NodeState, s: Slot, b: Ballot, d: Ballot)
    requires Bound(x, s, b) && d.Less(b)
    ensures Closed(x, s, d)
  {
  }

  lemma {:induction false} RemembersStays(x: NodeState, y: NodeState, s: Slot, b: Ballot)
    requires NodeGrows(x, y) && Remembers(At(x, s), b)
    ensures Remembers(At(y, s), b)
  {
    assert AccGrows(At(x, s), At(y, s));
  }

  lemma {:induction false} GrowsReflexive(c: Cluster)
    ensures Grows(c, c)
  {
  }

  lemma {:induction false} GrowsTransitive(a: Cluster, b: Cluster, c: Cluster)
    requires Grows(a, b) && Grows(b, c)
    ensures Grows(a, c)
  {
    forall n | n in a.nodes
      ensures NodeGrows(a.nodes[n], c.nodes[n])
    {
      assert NodeGrows(a.nodes[n], b.nodes[n]) && NodeGrows(b.nodes[n], c.nodes[n]);
      WindowGrowsTransitive(a.nodes[n].window, b.nodes[n].window, c.nodes[n].window);
    }
    forall vt | vt in c.votes && vt !in a.votes
      ensures vt.node in a.nodes && !Closed(a.nodes[vt.node], vt.slot, vt.bal)
    {
      if vt !in b.votes && Closed(a.nodes[vt.node], vt.slot, vt.bal) {
        ClosedStays(a.nodes[vt.node], b.nodes[vt.node], vt.slot, vt.bal);
      }
    }
  }

  lemma {:induction false} IssuedStays(c: Cluster, d: Cluster, b: Ballot)
    requires Grows(c, d) && Issued(c, b)
    ensures Issued(d, b)
  {
    assert NodeGrows(c.nodes[b.node], d.nodes[b.node]);
  }

  lemma {:induction false} ChosenStays(c: Cluster, d: Cluster, b: Ballot, s: Slot, v: Bytes)
    requires Grows(c, d) && Chosen(c, b, s, v)
    ensures Chosen(d, b, s, v)
  {
    var q :| b.node in q && IsQuorum(c, q) && AllVoted(c, q, b, s, v);
    assert IsQuorum(d, q) && AllVoted(d, q, b, s, v);
  }

  lemma {:induction false} CoversStays(c: Cluster, d: Cluster, s: Slot, top: Ballot, top': Ballot, bal: Ballot)
    requires Grows(c, d) && Covers(c, s, top, bal) && top.AtMost(top')
    ensures Covers(d, s, top', bal)
  {
    if !bal.AtMost(top) {
      var b: Ballot, v :| b.AtMost(top) && Chosen(c, b, s, v);
      ChosenStays(c, d, b, s, v);
      assert b.AtMost(top') && Chosen(d, b, s, v);
    }
  }

  lemma {:induction false} SlotOkStays(c: Cluster, d: Cluster, n: NodeId, s: Slot, a: Acc)
    requires Grows(c, d) && SlotOk(c, n, s, a)
    ensures SlotOk(d, n, s, a)
  {
    if a.Resolved? {
      ChosenStays(c, d, a.accepted, s, a.value);
    }
  }

  lemma {:induction false} VoteOkStays(c: Cluster, d: Cluster, vt: Vote)
    requires Grows(c, d) && VoteOk(c, vt)
    ensures VoteOk(d, vt)
  {
    RemembersStays(c.nodes[vt.node], d.nodes[vt.node], vt.slot, vt.bal);
  }

  lemma {:induction false} PickOkStays(c: Cluster, d: Cluster, k: Pick)
    requires Grows(c, d) && PickOk(c, k)
    ensures PickOk(d, k)
  {
    IssuedStays(c, d, k.bal);
    RemembersStays(c.nodes[k.bal.node], d.nodes[k.bal.node], k.slot, k.bal);
  }

  /** Once a node is bound to `b`, the votes it casts later are not below `b`. */
  lemma {:induction false} BoundVotes(c: Cluster, d: Cluster, vt: Vote, b: Ballot)
    requires Grows(c, d) && vt in d.votes && vt.bal.Less(b)
    requires vt.node in c.nodes && Bound(c.nodes[vt.node], vt.slot, b)
    ensures vt in c.votes
  {
    BoundCloses(c.nodes[vt.node], vt.slot, b, vt.bal);
  }

  lemma {:induction false} KnownStays(c: Cluster, d: Cluster, n: NodeId, s: Slot, bal: Ballot)
    requires Grows(c, d) && n in c.nodes && Known(c, At(c.nodes[n], s), s, bal)
    ensures Known(d, At(d.nodes[n], s), s, bal)
  {
    var a, a' := At(c.nodes[n], s), At(d.nodes[n], s);
    assert NodeGrows(c.nodes[n], d.nodes[n]);
    assert AccGrows(a, a');
    if a'.AwaitQuorum? {
      CoversStays(c, d, s, a.bal, a'.bal, bal);
    }
  }

  lemma {:induction false} CountedOkStays(c: Cluster, d: Cluster, p: Packet)
    requires Grows(c, d) && CountedOk(c, p)
    requires CommandOk(c, p.dst, p.cmd, p.log)
    ensures CountedOk(d, p)
  {
    var L := p.cmd.bal.node;
    forall vt | vt in d.votes && vt.node == p.cmd.node && vt.bal.Less(p.cmd.bal) && vt.slot >= |p.log|
      ensures Known(d, At(d.nodes[L], vt.slot), vt.slot, vt.bal)
    {
      BoundVotes(c, d, vt, p.cmd.bal);
      KnownStays(c, d, L, vt.slot, vt.bal);
    }
  }

  lemma {:induction false} ReportedStays(c: Cluster, d: Cluster, reports: seq<C.Report>, s: Slot, b: Ballot)
    requires Grows(c, d) && Reported(c, reports, s, b)
    ensures Reported(d, reports, s, b)
  {
    hide Grows, Chosen;
    forall r | r in reports && r.slot == s
      ensures ReportedBy(d, r, b)
    {
      if !b.AtMost(r.bal) { ChosenStays(c, d, r.bal, r.slot, r.val); }
    }
  }

  lemma {:induction false} PromiseOkStays(c: Cluster, d: Cluster, q: NodeId, b: Ballot, reports: seq<C.Report>,
                                          log: seq<Pair>)
    requires Grows(c, d) && PromiseOk(c, q, b, reports, log)
    ensures PromiseOk(d, q, b, reports, log)
  {
    forall s: Slot
      ensures Bound(d.nodes[q], s, b)
    {
      BoundStays(c.nodes[q], d.nodes[q], s, b);
    }
    forall vt | vt in d.votes && vt.node == q && vt.bal.Less(b) && vt.slot >= |log|
      ensures Reported(d, reports, vt.slot, vt.bal)
    {
      BoundVotes(c, d, vt, b);
      ReportedStays(c, d, reports, vt.slot, vt.bal);
    }
    forall s: Slot | s < |log|
      ensures Chosen(d, log[s].bal, s, log[s].val)
    {
      ChosenStays(c, d, log[s].bal, s, log[s].val);
    }
  }

  lemma {:induction false} CommandOkStays(c: Cluster, d: Cluster, dst: NodeId, cmd: C.Command, log: seq<Pair>)
    requires Grows(c, d) && CommandOk(c, dst, cmd, log)
    ensures CommandOk(d, dst, cmd, log)
  {
    match cmd
    case Proposal(v) =>
    case Prepare(b) => IssuedStays(c, d, b);
    case Promise(q, b, reports) => IssuedStays(c, d, b); PromiseOkStays(c, d, q, b, reports, log);
    case Accept(b, es) => IssuedStays(c, d, b);
    case Reject(_, p, r) => IssuedStays(c, d, p); IssuedStays(c, d, r);
    case Accepted(q, b, slots) =>
      IssuedStays(c, d, b);
      forall s | s in slots
        ensures VotedSome(d, q, s, b)
      {
        var v :| Vote(q, s, b, v) in c.votes;
        assert Vote(q, s, b, v) in d.votes;
      }
    case Resolution(b, es) =>
      IssuedStays(c, d, b);
      forall e | e in es
        ensures Chosen(d, b, e.slot, e.val)
      {
        ChosenStays(c, d, b, e.slot, e.val);
      }
    case Catchup(q, _) =>
  }

  lemma {:induction false} NetworkStays(c: Cluster, d: Cluster)
    requires Grows(c, d) && NetworkOk(c) && d.network == c.network
    ensures NetworkOk(d)
  {
    forall p | p in d.network
      ensures p.dst in d.nodes && CommandOk(d, p.dst, p.cmd, p.log)
    {
      CommandOkStays(c, d, p.dst, p.cmd, p.log);
    }
  }

  /** New promisers only enlarge the set, so an elected ballot keeps its quorum. */
  lemma {:induction false} ElectedOkStays(c: Cluster, d: Cluster, b: Ballot)
    requires Grows(c, d) && ElectedOk(c, b)
    requires forall p :: p in d.counted && p.cmd.Promise? ==> p.cmd.node in d.nodes
    ensures ElectedOk(d, b)
  {
    IssuedStays(c, d, b);
    assert Promisers(c, b) <= Promisers(d, b);
    SubsetSize(Promisers(c, b), Promisers(d, b));
  }

  lemma {:induction false} SettledStays(c: Cluster, d: Cluster, n: NodeId, s: Slot, bal: Ballot, v: Bytes)
    requires Grows(c, d) && Settled(c, n, s, bal, v)
    ensures Settled(d, n, s, bal, v)
  {
    if Vote(n, s, bal, v) !in c.votes {
      ClosedStays(c.nodes[n], d.nodes[n], s, bal);
      forall w ensures Vote(n, s, bal, w) !in d.votes {
        assert Vote(n, s, bal, w) !in c.votes;
      }
    }
  }

  lemma {:induction false} SafeAtStays(c: Cluster, d: Cluster, b: Ballot, s: Slot, v: Bytes)
    requires Grows(c, d) && SafeAt(c, b, s, v)
    ensures SafeAt(d, b, s, v)
  {
    forall bal: Ballot | bal.Less(b)
      ensures OnlyAt(d, s, bal, v)
    {
      assert OnlyAt(c, s, bal, v);
      var q :| IsQuorum(c, q) && AllSettled(c, q, s, bal, v);
      forall n | n in q
        ensures Settled(d, n, s, bal, v)
      {
        SettledStays(c, d, n, s, bal, v);
      }
      assert IsQuorum(d, q) && AllSettled(d, q, s, bal, v);
    }
  }

  lemma {:induction false} ReconciledBefore(c: Cluster, d: Cluster)
    requires Grows(c, d) && Reconciled(d)
    ensures Reconciled(c)
  {
  }

  /** Without new picks, safety is kept. */
  lemma {:induction false} SafetyStays(c: Cluster, d: Cluster)
    requires Grows(c, d) && SafetyOk(c) && d.picks == c.picks
    ensures SafetyOk(d)
  {
    if OddSize(d) && Reconciled(d) {
      ReconciledBefore(c, d);
      assert |c.nodes.Keys| == |d.nodes.Keys|;
      forall p | p in d.picks
        ensures SafeAt(d, p.bal, p.slot, p.val)
      {
        SafeAtStays(c, d, p.bal, p.slot, p.val);
      }
    }
  }
}
