// The inductive invariant of a cluster.
module Invariants {
  import opened Ballots
  import opened Quorums
  import opened Acceptors
  import opened Windows
  import opened NodeSteps
  import opened Clusters
  import C = Commands

  /** Every ballot in circulation was issued by its owner, which never falls below it. */
  ghost predicate Issued(c: Cluster, b: Ballot) {
    b.node in c.nodes && Precedes(Some(b), c.nodes[b.node].prop.highest)
  }

  ghost predicate IssuedIfAny(c: Cluster, b: Option<Ballot>) {
    b.Some? ==> Issued(c, b.value)
  }

  ghost predicate ProposerOk(c: Cluster, n: NodeId, x: NodeState) {
    match x.prop.state
    case Follower => x.prop.highest.Some? ==> x.prop.highest.value.node != n
    case Candidate(p, es) =>
      && x.prop.highest == Some(p) && p.node == n && p !in c.elected
      && |es| == x.prop.quorum && Packed(es) && !HasQuorum(es)
      && Members(es) == Promisers(c, p)
    case Leader(p) =>
      x.prop.highest == Some(p) && p.node == n && p in c.elected && c.elected[p] <= x.window.openMin
  }

  ghost predicate NodeOk(c: Cluster, n: NodeId, x: NodeState) {
    && x.id == n && x.peers == c.nodes.Keys - {n}
    && |c.nodes| > 0 && x.prop.current == n && x.prop.quorum == x.window.quorum == QuorumSize(|c.nodes| - 1)
    && WindowOk(x.window)
    && ProposerOk(c, n, x)
    && IssuedIfAny(c, x.prop.highest)
    && (forall s: Slot :: IssuedIfAny(c, Promise(At(x, s))))
    && (forall v :: v in x.prop.queue ==> v in c.submitted)
  }

  /** An accepted pair was picked by the leader of its ballot, the leader voted for it,
      and counted peers did; a resolved pair is chosen. */
  ghost predicate SlotOk(c: Cluster, n: NodeId, s: Slot, a: Acc) {
    match a
    case AwaitValue(_, _) => true
    case AwaitQuorum(_, b, v, es) =>
      && Pick(b, s, v) in c.picks
      && (b.node == n ==> Vote(n, s, b, v) in c.votes)
      && (forall q :: q in Members(es) ==> q != n && b.node == n && Vote(q, s, b, v) in c.votes)
    case Resolved(b, v) => Chosen(c, b, s, v)
  }

  ghost predicate VoteOk(c: Cluster, vt: Vote) {
    && vt.node in c.nodes
    && Pick(vt.bal, vt.slot, vt.val) in c.picks
    && Remembers(At(c.nodes[vt.node], vt.slot), vt.bal)
  }

  ghost predicate PickOk(c: Cluster, k: Pick) {
    && Issued(c, k.bal)
    && k.bal in c.elected && c.elected[k.bal] <= k.slot
    && Remembers(At(c.nodes[k.bal.node], k.slot), k.bal)
    && (k.val == [] || k.val in c.submitted)
  }

  ghost predicate OneValue(c: Cluster) {
    forall k, m :: k in c.picks && m in c.picks && k.bal == m.bal && k.slot == m.slot ==> k.val == m.val
  }

  /** A vote at `d` is accounted for by a report of ballot `top`: it is not above it, or
      some value was chosen at or below `top`. */
  ghost predicate Covers(c: Cluster, s: Slot, top: Ballot, d: Ballot) {
    d.AtMost(top) || exists b: Ballot, v :: b.AtMost(top) && Chosen(c, b, s, v)
  }

  ghost predicate Known(c: Cluster, a: Acc, s: Slot, d: Ballot) {
    a.Resolved? || (a.AwaitQuorum? && Covers(c, s, a.bal, d))
  }

  /** The candidate knows of every earlier vote of a promiser it counted, as far as the
      promiser still had the slot in its window. */
  ghost predicate CountedOk(c: Cluster, p: Packet) {
    && p in c.network && p.cmd.Promise? && p.cmd.bal.node in c.nodes
    && forall vt :: vt in c.votes && vt.node == p.cmd.node && vt.bal.Less(p.cmd.bal) && vt.slot >= |p.log|
         ==> Known(c, At(c.nodes[p.cmd.bal.node], vt.slot), vt.slot, vt.bal)
  }

  /** The reported pair accounts for a vote at `d`: its ballot is not below the vote, or the
      pair itself was chosen. */
  ghost predicate ReportedBy(c: Cluster, r: C.Report, d: Ballot) {
    d.AtMost(r.bal) || Chosen(c, r.bal, r.slot, r.val)
  }

  /** Slot `s` is reported, and every pair reported for it accounts for a vote at `d`. */
  ghost predicate Reported(c: Cluster, reports: seq<C.Report>, s: Slot, d: Ballot) {
    && (exists r :: r in reports && r.slot == s)
    && (forall r :: r in reports && r.slot == s ==> ReportedBy(c, r, d))
  }

  /** A promise binds every slot of its sender, reports only picked pairs, accounts for
      every earlier vote in the sender's window, and comes with a log of chosen values. */
  ghost predicate PromiseOk(c: Cluster, q: NodeId, b: Ballot, reports: seq<C.Report>, log: seq<Pair>) {
    && q in c.nodes && q != b.node
    && (forall s: Slot :: Bound(c.nodes[q], s, b))
    && (forall r :: r in reports ==> Pick(r.bal, r.slot, r.val) in c.picks)
    && (forall vt :: vt in c.votes && vt.node == q && vt.bal.Less(b) && vt.slot >= |log|
          ==> Reported(c, reports, vt.slot, vt.bal))
    && (forall s: Slot :: s < |log| ==> Chosen(c, log[s].bal, s, log[s].val))
  }

  ghost predicate VotedSome(c: Cluster, q: NodeId, s: Slot, b: Ballot) {
    exists v :: Vote(q, s, b, v) in c.votes
  }

  ghost predicate CommandOk(c: Cluster, dst: NodeId, cmd: C.Command, log: seq<Pair>) {
    match cmd
    case Proposal(v) => v in c.submitted
    case Prepare(b) => Issued(c, b) && dst != b.node
    case Promise(q, b, reports) => Issued(c, b) && dst == b.node && PromiseOk(c, q, b, reports, log)
    case Accept(b, es) => Issued(c, b) && dst != b.node && forall e :: e in es ==> Pick(b, e.slot, e.val) in c.picks
    case Reject(_, p, r) => Issued(c, p) && Issued(c, r)
    case Accepted(q, b, slots) =>
      Issued(c, b) && dst == b.node && q != b.node && forall s :: s in slots ==> VotedSome(c, q, s, b)
    case Resolution(b, es) => Issued(c, b) && forall e :: e in es ==> Chosen(c, b, e.slot, e.val)
    case Catchup(q, _) => q in c.nodes && q != dst
  }

  ghost predicate ElectedOk(c: Cluster, b: Ballot) {
    Issued(c, b) && IsQuorum(c, Promisers(c, b))
  }

  ghost predicate NodesOk(c: Cluster) {
    |c.nodes| >= 3 && forall n :: n in c.nodes ==> NodeOk(c, n, c.nodes[n])
  }

  ghost predicate SlotsOk(c: Cluster) {
    forall n, s: Slot :: n in c.nodes ==> SlotOk(c, n, s, At(c.nodes[n], s))
  }

  ghost predicate HistoryOk(c: Cluster) {
    && (forall vt :: vt in c.votes ==> VoteOk(c, vt))
    && (forall k :: k in c.picks ==> PickOk(c, k))
    && OneValue(c)
    && (forall p :: p in c.counted ==> CountedOk(c, p))
    && (forall b :: b in c.elected ==> ElectedOk(c, b))
  }

  ghost predicate NetworkOk(c: Cluster) {
    forall p :: p in c.network ==> p.dst in c.nodes && CommandOk(c, p.dst, p.cmd, p.log)
  }

  ghost predicate SafetyOk(c: Cluster) {
    OddSize(c) && Reconciled(c) ==> AllSafe(c)
  }

  ghost predicate Inv(c: Cluster) {
    NodesOk(c) && SlotsOk(c) && HistoryOk(c) && NetworkOk(c) && SafetyOk(c)
  }

  lemma {:induction false} InvNode(c: Cluster, n: NodeId)
    requires Inv(c) && n in c.nodes
    ensures NodeOk(c, n, c.nodes[n])
  {
  }

  lemma {:induction false} InvSlot(c: Cluster, n: NodeId, s: Slot)
    requires Inv(c) && n in c.nodes
    ensures SlotOk(c, n, s, At(c.nodes[n], s))
  {
  }

  lemma {:induction false} InvPick(c: Cluster, k: Pick)
    requires Inv(c) && k in c.picks
    ensures PickOk(c, k)
  {
  }

  lemma {:induction false} InvVote(c: Cluster, vt: Vote)
    requires Inv(c) && vt in c.votes
    ensures VoteOk(c, vt)
  {
  }

  lemma {:induction false} InvOneValue(c: Cluster)
    requires Inv(c)
    ensures OneValue(c)
  {
  }

  lemma {:induction false} InvPacket(c: Cluster, p: Packet)
    requires Inv(c) && p in c.network
    ensures p.dst in c.nodes && CommandOk(c, p.dst, p.cmd, p.log)
  {
  }

  lemma {:induction false} InvSafe(c: Cluster)
    requires Inv(c) && OddSize(c) && Reconciled(c)
    ensures AllSafe(c)
  {
  }
}
