// A cluster of replicas over a network that may lose, delay, reorder and duplicate
// messages: packets are only ever added, and any packet may be delivered at any time,
// any number of times, or never.
module Clusters {
  import opened Ballots
  import opened Quorums
  import opened Acceptors
  import opened Windows
  import opened Proposers
  import opened NodeSteps
  import opened Execution
  import C = Commands

  /** `log` is a history variable that no handler reads: the decided log of the sender
      when it sent the packet. */
  datatype Packet = Packet(dst: NodeId, cmd: C.Command, log: seq<Pair>)

  /** Besides the replicas and the network, a cluster carries the history of its run:
      the values picked by leaders, the votes cast, the values submitted by clients, the
      promises counted by candidates, and for each ballot that won an election the start
      of its leader's window at that moment. */
  datatype Cluster = Cluster(
    nodes: map<NodeId, NodeState>,
    apps: map<NodeId, App>,
    network: set<Packet>,
    picks: set<Pick>,
    votes: set<Vote>,
    submitted: set<Bytes>,
    counted: set<Packet>,
    elected: map<Ballot, Slot>)

  function Recipients(peers: set<NodeId>, o: C.Output): set<NodeId> {
    if o.Send? then {o.to} else peers
  }

  function Packets(peers: set<NodeId>, outs: seq<C.Output>, log: seq<Pair>): set<Packet> {
    set o, d | o in outs && d in Recipients(peers, o) :: Packet(d, o.cmd, log)
  }

  // ---------------------------------------------------------------------------
  // Steps
  // ---------------------------------------------------------------------------

  datatype Step =
    | Deliver(packet: Packet)
    | Submit(client: NodeId, val: Bytes)
    | Elect(candidate: NodeId)

  function Actor(step: Step): NodeId {
    match step
    case Deliver(p) => p.dst
    case Submit(n, _) => n
    case Elect(n) => n
  }

  function InputOf(step: Step): Input {
    match step
    case Deliver(p) => Receive(p.cmd)
    case Submit(_, v) => Receive(C.Proposal(v))
    case Elect(_) => TakeLead
  }

  predicate Enabled(c: Cluster, step: Step) {
    && Actor(step) in c.nodes && Actor(step) in c.apps && !c.apps[Actor(step)].halted
    && (step.Deliver? ==> step.packet in c.network)
  }

  predicate CountsPromise(x: NodeState, step: Step) {
    step.Deliver? && step.packet.cmd.Promise? && Counts(x.prop, step.packet.cmd.node, step.packet.cmd.bal)
  }

  predicate WinsElection(x: NodeState, y: NodeState) {
    !x.prop.state.Leader? && y.prop.state.Leader?
  }

  /** The execution side of a step: `receive` executes what became decided, unless the
      handler panicked. */
  function AppStep(app: App, x: NodeState, o: Outcome, input: Input): App {
    if C.Panics(x.peers, o.outs) then app.(halted := true)
    else if input.TakeLead? then app
    else TryExecute(app, o.node.window.decided)
  }

  function Next(c: Cluster, step: Step): Cluster
    requires Enabled(c, step)
  {
    var n := Actor(step);
    var x := c.nodes[n];
    var o := Handle(x, InputOf(step));
    Cluster(
      c.nodes[n := o.node],
      c.apps[n := AppStep(c.apps[n], x, o, InputOf(step))],
      c.network + Packets(x.peers, C.Transmitted(x.peers, o.outs), o.node.window.decided),
      c.picks + o.picks,
      c.votes + o.votes,
      if step.Submit? then c.submitted + {step.val} else c.submitted,
      if CountsPromise(x, step) then c.counted + {step.packet} else c.counted,
      if WinsElection(x, o.node) then c.elected[o.node.prop.state.proposal := x.window.openMin] else c.elected)
  }

  ghost predicate IsFresh(c: Cluster, n: NodeId)
    requires n in c.nodes && n in c.apps
  {
    c.nodes[n] == NewNode(n, c.nodes.Keys - {n}) && c.apps[n] == INITIAL_APP
  }

  /** All nodes are fresh and share one membership, which excludes the node itself from
      its peers. */
  ghost predicate Init(c: Cluster) {
    && |c.nodes| >= 3
    && c.apps.Keys == c.nodes.Keys
    && (forall n {:trigger IsFresh(c, n)} :: n in c.nodes ==> IsFresh(c, n))
    && c.network == {} && c.picks == {} && c.votes == {} && c.submitted == {}
    && c.counted == {} && c.elected == map[]
  }

  ghost predicate Steps(run: seq<Cluster>, steps: seq<Step>, i: nat)
    requires i < |steps| < |run|
  {
    Enabled(run[i], steps[i]) && run[i + 1] == Next(run[i], steps[i])
  }

  /** A run: clusters, each reached from the one before by an enabled step. */
  ghost predicate IsRun(run: seq<Cluster>, steps: seq<Step>) {
    && |run| == |steps| + 1
    && Init(run[0])
    && forall i: nat :: i < |steps| ==> Steps(run, steps, i)
  }

  // ---------------------------------------------------------------------------
  // What the properties are stated with
  // ---------------------------------------------------------------------------

  ghost predicate IsQuorum(c: Cluster, q: set<NodeId>) {
    c.nodes.Keys != {} && QuorumOf(c.nodes.Keys, q)
  }

  ghost predicate AllVoted(c: Cluster, q: set<NodeId>, b: Ballot, s: Slot, v: Bytes) {
    forall n :: n in q ==> Vote(n, s, b, v) in c.votes
  }

  /** A value is chosen at a ballot once a quorum, the owner of the ballot included,
      voted for it there. */
  ghost predicate Chosen(c: Cluster, b: Ballot, s: Slot, v: Bytes) {
    exists q :: b.node in q && IsQuorum(c, q) && AllVoted(c, q, b, s, v)
  }

  /** The acceptor of slot `s` at node `x`. */
  function At(x: NodeState, s: Slot): Acc {
    View(x.window, s)
  }

  /** Node `x` promised `b` in slot `s`: it observed `b`, and the slot is resolved or
      promised to `b` or above. */
  ghost predicate Bound(x: NodeState, s: Slot, b: Ballot) {
    && Precedes(Some(b), x.prop.highest)
    && (At(x, s).Resolved? || Precedes(Some(b), Promise(At(x, s))))
  }

  /** Node `x` will never vote at ballot `d` in slot `s` again. */
  ghost predicate Closed(x: NodeState, s: Slot, d: Ballot) {
    && x.prop.highest.Some? && d.Less(x.prop.highest.value)
    && (At(x, s).Resolved? || (Promise(At(x, s)).Some? && d.Less(Promise(At(x, s)).value)))
  }

  ghost predicate NoVote(c: Cluster, n: NodeId, s: Slot, d: Ballot) {
    forall v :: Vote(n, s, d, v) !in c.votes
  }

  /** Node `n` voted `v` at ballot `d` in slot `s`, or did not vote and never will. */
  ghost predicate Settled(c: Cluster, n: NodeId, s: Slot, d: Ballot, v: Bytes) {
    n in c.nodes && (Vote(n, s, d, v) in c.votes || (NoVote(c, n, s, d) && Closed(c.nodes[n], s, d)))
  }

  ghost predicate AllSettled(c: Cluster, q: set<NodeId>, s: Slot, d: Ballot, v: Bytes) {
    forall n :: n in q ==> Settled(c, n, s, d, v)
  }

  /** No value but `v` can be or become chosen in slot `s` at ballot `d`. */
  ghost predicate OnlyAt(c: Cluster, s: Slot, d: Ballot, v: Bytes) {
    exists q :: IsQuorum(c, q) && AllSettled(c, q, s, d, v)
  }

  /** No value but `v` can be or become chosen in slot `s` at any ballot below `b`. */
  ghost predicate SafeAt(c: Cluster, b: Ballot, s: Slot, v: Bytes) {
    forall d: Ballot :: d.Less(b) ==> OnlyAt(c, s, d, v)
  }

  ghost predicate AllSafe(c: Cluster) {
    forall p :: p in c.picks ==> SafeAt(c, p.bal, p.slot, p.val)
  }

  predicate OddSize(c: Cluster) {
    |c.nodes| % 2 == 1
  }

  /** The nodes whose promises for `b` its candidate counted, itself included. */
  function Promisers(c: Cluster, b: Ballot): set<NodeId> {
    {b.node} + set p | p in c.counted && p.cmd.Promise? && p.cmd.bal == b :: p.cmd.node
  }

  /** Promise coverage: no counted promiser had moved slots to its log that the leader
      still had open when it was elected. */
  ghost predicate Covered(c: Cluster) {
    forall p :: p in c.counted && p.cmd.Promise? && p.cmd.bal in c.elected
      ==> |p.log| <= c.elected[p.cmd.bal]
  }

  /** A weaker condition: where a counted promiser had moved a slot to its log, the
      leader picked the value of that log. */
  ghost predicate Reconciled(c: Cluster) {
    forall p, k :: p in c.counted && p.cmd.Promise? && k in c.picks && k.bal == p.cmd.bal && k.slot < |p.log|
      ==> k.val == p.log[k.slot].val
  }

  ghost predicate Agreement(c: Cluster) {
    forall m, n, s: Slot :: m in c.nodes && n in c.nodes && At(c.nodes[m], s).Resolved? && At(c.nodes[n], s).Resolved?
      ==> At(c.nodes[m], s).value == At(c.nodes[n], s).value
  }
}
