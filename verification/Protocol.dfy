// What holds in every run of a cluster of at least three nodes, odd or even, with no
// condition on which slots its promises cover.
module Protocol {
  import opened Ballots
  import opened Quorums
  import opened Acceptors
  import opened Windows
  import opened Proposers
  import opened NodeSteps
  import opened Clusters
  import opened Invariants
  import opened Growth
  import opened Safety
  import opened Runs
  import opened Theorems
  import C = Commands

  // ---------------------------------------------------------------------------
  // Values
  // ---------------------------------------------------------------------------

  /** `v` was proposed in slot `s` by the leader of `b`, and a quorum of distinct nodes,
      that leader among them, voted for it at `b`. */
  ghost predicate Backed(c: Cluster, b: Ballot, s: Slot, v: Bytes, q: set<NodeId>) {
    && Pick(b, s, v) in c.picks
    && b.node in q && q <= c.nodes.Keys && |c.nodes| > 0 && |q| >= QuorumSize(|c.nodes| - 1)
    && forall n :: n in q ==> Vote(n, s, b, v) in c.votes
  }

  /** Resolution soundness: however a node came to resolve a slot, the value is backed. */
  lemma {:induction false} ResolutionIsBacked(run: seq<Cluster>, steps: seq<Step>, i: nat, n: NodeId, s: Slot)
    returns (q: set<NodeId>)
    requires IsRun(run, steps) && i < |run| && n in run[i].nodes && At(run[i].nodes[n], s).Resolved?
    ensures var a := At(run[i].nodes[n], s); Backed(run[i], a.accepted, s, a.value, q)
  {
    hide Inv, IsRun, View;
    RunKeeps(run, steps, i);
    ResolvedChosen(run[i], n, s);
    q := ChosenBacked(run[i], At(run[i].nodes[n], s).accepted, s, At(run[i].nodes[n], s).value);
  }

  lemma {:induction false} ChosenBacked(c: Cluster, b: Ballot, s: Slot, v: Bytes) returns (q: set<NodeId>)
    requires Inv(c) && Chosen(c, b, s, v)
    ensures Backed(c, b, s, v, q)
  {
    hide Inv;
    VotesArePicks(c);
    ChosenIsPicked(c, b, s, v);
    q :| b.node in q && IsQuorum(c, q) && AllVoted(c, q, b, s, v);
    assert |c.nodes.Keys| == |c.nodes|;
  }

  /** Validity: a resolved value is the empty filler or was submitted by a client. */
  lemma {:induction false} ResolutionIsValid(run: seq<Cluster>, steps: seq<Step>, i: nat, n: NodeId, s: Slot)
    requires IsRun(run, steps) && i < |run| && n in run[i].nodes && At(run[i].nodes[n], s).Resolved?
    ensures At(run[i].nodes[n], s).value == [] || At(run[i].nodes[n], s).value in run[i].submitted
  {
    hide Inv, IsRun, View, PickOk;
    RunKeeps(run, steps, i);
    var q := ResolutionIsBacked(run, steps, i, n, s);
    var k := Pick(At(run[i].nodes[n], s).accepted, s, At(run[i].nodes[n], s).value);
    InvPick(run[i], k);
    PickValid(run[i], k);
  }

  lemma {:induction false} PickValid(c: Cluster, k: Pick)
    requires PickOk(c, k)
    ensures k.val == [] || k.val in c.submitted
  {
  }

  /** One value per ballot and slot: all ACCEPT messages ever sent for a ballot and a slot
      carry the same value, and so do all votes. */
  lemma {:induction false} AcceptsAgree(run: seq<Cluster>, steps: seq<Step>, i: nat, p: Packet, q: Packet,
                                        d: C.Entry, e: C.Entry)
    requires IsRun(run, steps) && i < |run| && p in run[i].network && q in run[i].network
    requires p.cmd.Accept? && q.cmd.Accept? && p.cmd.bal == q.cmd.bal
    requires d in p.cmd.entries && e in q.cmd.entries && d.slot == e.slot
    ensures d.val == e.val
    ensures forall vt :: vt in run[i].votes && vt.bal == p.cmd.bal && vt.slot == d.slot ==> vt.val == d.val
  {
    hide Inv, IsRun;
    RunKeeps(run, steps, i);
    InvPacket(run[i], p);
    InvPacket(run[i], q);
    InvOneValue(run[i]);
    VotesArePicks(run[i]);
  }

  // ---------------------------------------------------------------------------
  // Promises
  // ---------------------------------------------------------------------------

  lemma {:induction false} PromisePacket(c: Cluster, p: Packet)
    requires Inv(c) && p in c.network && p.cmd.Promise?
    ensures PromiseOk(c, p.cmd.node, p.cmd.bal, p.cmd.reports, p.log)
  {
    InvPacket(c, p);
  }

  /** The acceptor does not accept `v` at ballot `d`, and stays as it is. */
  predicate Rejects(a: Acc, d: Ballot, v: Bytes) {
    ReceiveAccept(a, d, v).0 == a && !ReceiveAccept(a, d, v).1.Accepted?
  }

  /** A bound slot rejects every ACCEPT below the promise. */
  lemma {:induction false} BoundRejects(x: NodeState, s: Slot, b: Ballot, d: Ballot, v: Bytes)
    requires Bound(x, s, b) && d.Less(b)
    ensures Rejects(At(x, s), d, v)
  {
  }

  /** A promise binds every slot for ever: once a node has sent one for ballot `b`, then at
      any later moment `j` every slot, open or not, is resolved or promised to `b` or
      above, refuses every ACCEPT below `b` unchanged, and no vote below `b` was cast after
      the promise. */
  lemma {:induction false} PromiseBindsForever(run: seq<Cluster>, steps: seq<Step>, i: nat, j: nat, p: Packet)
    requires IsRun(run, steps) && i <= j < |run| && p in run[i].network && p.cmd.Promise?
    ensures p.cmd.node in run[j].nodes
    ensures forall s: Slot :: Bound(run[j].nodes[p.cmd.node], s, p.cmd.bal)
    ensures forall s: Slot, d: Ballot, v :: d.Less(p.cmd.bal) ==> Rejects(At(run[j].nodes[p.cmd.node], s), d, v)
    ensures forall vt :: vt in run[j].votes && vt.node == p.cmd.node && vt.bal.Less(p.cmd.bal) ==> vt in run[i].votes
  {
    hide Inv, IsRun, Grows, Bound, Reported, Rejects;
    RunKeeps(run, steps, i);
    RunGrows(run, steps, i, j);
    PromisePacket(run[i], p);
    PromiseOkStays(run[i], run[j], p.cmd.node, p.cmd.bal, p.cmd.reports, p.log);
    forall vt | vt in run[j].votes && vt.node == p.cmd.node && vt.bal.Less(p.cmd.bal)
      ensures vt in run[i].votes
    {
      BoundVotes(run[i], run[j], vt, p.cmd.bal);
    }
    forall s: Slot, d: Ballot, v | d.Less(p.cmd.bal)
      ensures Rejects(At(run[j].nodes[p.cmd.node], s), d, v)
    {
      BoundRejects(run[j].nodes[p.cmd.node], s, p.cmd.bal, d, v);
    }
  }

  /** Reports are faithful: every reported pair was proposed; every vote the sender ever
      casts below the promised ballot, in a slot not yet in its log, is accounted for by the
      pair reported for that slot: its ballot is not below the vote, or it is itself a chosen
      pair; and the log of the sender holds chosen values. */
  lemma {:induction false} PromiseReports(run: seq<Cluster>, steps: seq<Step>, i: nat, p: Packet)
    requires IsRun(run, steps) && i < |run| && p in run[i].network && p.cmd.Promise?
    ensures forall r :: r in p.cmd.reports ==> Pick(r.bal, r.slot, r.val) in run[i].picks
    ensures forall vt :: vt in run[i].votes && vt.node == p.cmd.node && vt.bal.Less(p.cmd.bal) && vt.slot >= |p.log|
              ==> Reported(run[i], p.cmd.reports, vt.slot, vt.bal)
    ensures forall s: Slot :: s < |p.log| ==> Chosen(run[i], p.log[s].bal, s, p.log[s].val)
  {
    hide Inv, IsRun, Bound, Reported, Chosen;
    RunKeeps(run, steps, i);
    PromisePacket(run[i], p);
  }

  // ---------------------------------------------------------------------------
  // Leadership
  // ---------------------------------------------------------------------------

  /** Node `q` promised ballot `b` to its owner. */
  ghost predicate HasPromised(c: Cluster, q: NodeId, b: Ballot) {
    exists p :: p in c.network && p.dst == b.node && p.cmd.Promise? && p.cmd.node == q && p.cmd.bal == b
  }

  /** What the role of a node means. */
  ghost predicate RoleOk(c: Cluster, n: NodeId, x: NodeState) {
    match x.prop.state
    case Follower => x.prop.highest.Some? ==> x.prop.highest.value.node in x.peers
    case Candidate(b, es) =>
      && x.prop.highest == Some(b) && b.node == n
      && |Members(es)| < x.prop.quorum && n in Members(es)
      && forall q :: q in Members(es) && q != n ==> HasPromised(c, q, b)
    case Leader(b) =>
      && x.prop.highest == Some(b) && b.node == n
      && exists q :: n in q && IsQuorum(c, q) && forall m :: m in q && m != n ==> HasPromised(c, m, b)
  }

  lemma {:induction false} PromisersPromised(c: Cluster, b: Ballot, q: NodeId)
    requires Inv(c) && q in Promisers(c, b) && q != b.node
    ensures HasPromised(c, q, b)
  {
    hide Inv, PromiseOk;
    var p := PromiserPacket(c, b, q);
    InvPacket(c, p);
  }

  /** The leadership invariant: in every run a candidate or leader holds its own ballot,
      the highest it has seen; a candidate is short of a quorum; a leader was promised its
      ballot by a quorum of distinct nodes counting itself; and a follower never takes
      itself for the leader, so it redirects and forwards only to peers. */
  lemma {:induction false} RolesHold(run: seq<Cluster>, steps: seq<Step>, i: nat, n: NodeId)
    requires IsRun(run, steps) && i < |run| && n in run[i].nodes
    ensures RoleOk(run[i], n, run[i].nodes[n])
  {
    hide Inv, IsRun, HasPromised, WindowOk, At;
    var c := run[i];
    var x := c.nodes[n];
    RunKeeps(run, steps, i);
    InvNode(c, n);
    if x.prop.state.Candidate? {
      var b := x.prop.state.proposal;
      PackedCount(x.prop.state.promises);
      forall q | q in Members(x.prop.state.promises) && q != n ensures HasPromised(c, q, b) { PromisersPromised(c, b, q); }
    } else if x.prop.state.Leader? {
      var b := x.prop.state.proposal;
      LeaderIsOwner(c, n, b);
      forall q | q in Promisers(c, b) && q != n ensures HasPromised(c, q, b) { PromisersPromised(c, b, q); }
    }
  }

  /** A ballot has at most one leader, ever, and is won at most once: after it was won, no
      node campaigns for it. */
  lemma {:induction false} BallotsAreWonOnce(run: seq<Cluster>, steps: seq<Step>, i: nat, j: nat, m: NodeId,
                                             n: NodeId, b: Ballot)
    requires IsRun(run, steps) && i <= j < |run| && m in run[i].nodes && n in run[j].nodes
    requires run[i].nodes[m].prop.state == Leader(b)
    ensures run[j].nodes[n].prop.state == Leader(b) ==> m == n
    ensures run[j].nodes[n].prop.state.Candidate? ==> run[j].nodes[n].prop.state.proposal != b
  {
    hide Inv, IsRun, WindowOk, At;
    RunKeeps(run, steps, i);
    RunKeeps(run, steps, j);
    RunGrows(run, steps, i, j);
    InvNode(run[i], m);
    InvNode(run[j], n);
    assert b in run[i].elected && b in run[j].elected;
  }
}
