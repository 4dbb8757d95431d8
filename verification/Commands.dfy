// The messages replicas exchange (src/commands.rs).
module Commands {
  import opened Ballots

  /** An accepted pair reported with a promise. */
  datatype Report = Report(slot: Slot, bal: Ballot, val: Bytes)

  datatype Entry = Entry(slot: Slot, val: Bytes)

  datatype Command =
    | Proposal(val: Bytes)
    | Prepare(bal: Ballot)
    | Promise(node: NodeId, bal: Ballot, reports: seq<Report>)
    | Accept(bal: Ballot, entries: seq<Entry>)
    | Reject(node: NodeId, proposed: Ballot, preempted: Ballot)
    | Accepted(node: NodeId, bal: Ballot, slots: seq<Slot>)
    | Resolution(bal: Ballot, entries: seq<Entry>)
    | Catchup(node: NodeId, slots: seq<Slot>)

  /** One use of the transport: to one node, or to every peer in an unspecified order. */
  datatype Output = Send(to: NodeId, cmd: Command) | Broadcast(cmd: Command)

  function SendAll(to: NodeId, cmds: seq<Command>): seq<Output> {
    seq(|cmds|, i requires 0 <= i < |cmds| => Send(to, cmds[i]))
  }

  function Proposals(vals: seq<Bytes>): seq<Command> {
    seq(|vals|, i requires 0 <= i < |vals| => Proposal(vals[i]))
  }

  /** Looking up a node that is not a peer panics. */
  predicate Sendable(peers: set<NodeId>, o: Output) {
    o.Broadcast? || o.to in peers
  }

  /** What leaves a node that hands `outs` to the transport: everything before the
      first output that panics. */
  function Transmitted(peers: set<NodeId>, outs: seq<Output>): seq<Output> {
    if outs == [] || !Sendable(peers, outs[0]) then []
    else [outs[0]] + Transmitted(peers, outs[1..])
  }

  predicate Panics(peers: set<NodeId>, outs: seq<Output>) {
    exists i :: 0 <= i < |outs| && !Sendable(peers, outs[i])
  }

  lemma {:induction false} PanicsFirst(peers: set<NodeId>, outs: seq<Output>)
    requires outs != []
    ensures Panics(peers, outs) <==> !Sendable(peers, outs[0]) || Panics(peers, outs[1..])
  {
    hide Sendable;
    if Panics(peers, outs) {
      var i :| 0 <= i < |outs| && !Sendable(peers, outs[i]);
      if i > 0 { assert outs[1..][i - 1] == outs[i]; }
    }
    if Panics(peers, outs[1..]) {
      var i :| 0 <= i < |outs[1..]| && !Sendable(peers, outs[1..][i]);
      assert outs[i + 1] == outs[1..][i];
    }
  }

  /** What leaves the node is everything before the first output that panics, and everything
      if none does. */
  lemma {:induction false} TransmittedMeaning(peers: set<NodeId>, outs: seq<Output>) returns (k: nat)
    ensures k <= |outs| && Transmitted(peers, outs) == outs[..k]
    ensures forall i :: 0 <= i < k ==> outs[i].Broadcast? || outs[i].to in peers
    ensures k < |outs| ==> outs[k].Send? && outs[k].to !in peers
    ensures Panics(peers, outs) <==> k < |outs|
  {
    k := 0;
    if outs != [] {
      PanicsFirst(peers, outs);
      if Sendable(peers, outs[0]) {
        var j := TransmittedMeaning(peers, outs[1..]);
        k := j + 1;
        assert outs[..k] == [outs[0]] + outs[1..][..j];
        assert forall i :: 0 < i < k ==> outs[i] == outs[1..][i - 1];
      }
    }
  }

  lemma {:induction false} TransmittedAll(peers: set<NodeId>, outs: seq<Output>)
    ensures !Panics(peers, outs) <==> Transmitted(peers, outs) == outs
    ensures forall o :: o in Transmitted(peers, outs) ==> o in outs && Sendable(peers, o)
  {
    if outs != [] {
      PanicsFirst(peers, outs);
      TransmittedAll(peers, outs[1..]);
      assert outs == [outs[0]] + outs[1..];
    }
  }
}
