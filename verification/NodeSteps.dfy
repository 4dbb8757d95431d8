// One step of a node as a function of its state (src/node.rs). Besides the new state
// and the messages, an outcome records what the step did to the history of the
// cluster: the votes it cast, the values it picked for slots at its own ballot, and
// the client values it placed.
module NodeSteps {
  import opened Ballots
  import opened Quorums
  import opened Acceptors
  import opened Windows
  import opened Proposers
  import C = Commands

  datatype NodeState = NodeState(id: NodeId, peers: set<NodeId>, prop: Prop, window: Window)

  /** Node `node` accepted `val` at ballot `bal` in slot `slot`. */
  datatype Vote = Vote(node: NodeId, slot: Slot, bal: Ballot, val: Bytes)

  /** The leader of `bal` proposed `val` for slot `slot`. */
  datatype Pick = Pick(bal: Ballot, slot: Slot, val: Bytes)

  datatype Outcome = Outcome(
    node: NodeState,
    outs: seq<C.Output>,
    votes: set<Vote>,
    picks: set<Pick>,
    placed: seq<Pick>)

  function NewNode(id: NodeId, peers: set<NodeId>): NodeState {
    NodeState(id, peers, NewProposer(id, QuorumSize(|peers|)), NewWindow(QuorumSize(|peers|)))
  }

  function Only(node: NodeState, outs: seq<C.Output>): Outcome {
    Outcome(node, outs, {}, {}, [])
  }

  // ---------------------------------------------------------------------------
  // Leading: placing queued values and announcing the batch
  // ---------------------------------------------------------------------------

  datatype PlaceResult = PlaceResult(window: Window, placed: seq<Pick>)

  /** Puts each value in the next slot at ballot `bal`. */
  function Place(w: Window, bal: Ballot, vals: seq<Bytes>): PlaceResult
    decreases |vals|
  {
    if vals == [] then PlaceResult(w, []) else
    var s := NextSlot(w);
    var rest := Place(Put(w, s, NoticeValue(View(w, s), bal, vals[0])), bal, vals[1..]);
    PlaceResult(rest.window, [Pick(bal, s, vals[0])] + rest.placed)
  }

  /** The value a leader proposes for an unresolved slot. */
  function PickFor(a: Acc): Bytes {
    if HighestValue(a).Some? then HighestValue(a).value.val else []
  }

  datatype SweepResult = SweepResult(window: Window, batch: seq<C.Entry>)

  /** Proposes a value at ballot `bal` for every unresolved slot in `slot..end`. */
  function Sweep(w: Window, bal: Ballot, slot: Slot, end: Slot): SweepResult
    decreases end - slot
  {
    if slot >= end then SweepResult(w, []) else
    var a := View(w, slot);
    if a.Resolved? then Sweep(w, bal, slot + 1, end) else
    var rest := Sweep(Put(w, slot, NoticeValue(a, bal, PickFor(a))), bal, slot + 1, end);
    SweepResult(rest.window, [C.Entry(slot, PickFor(a))] + rest.batch)
  }

  /** A leader votes for its pick wherever its own acceptor took over its ballot. */
  function OwnVotes(id: NodeId, w: Window, bal: Ballot, picks: set<Pick>): set<Vote> {
    set p | p in picks && View(w, p.slot).AwaitQuorum? && View(w, p.slot).bal == bal
      :: Vote(id, p.slot, bal, p.val)
  }

  function PicksOf(bal: Ballot, entries: seq<C.Entry>): set<Pick> {
    set e | e in entries :: Pick(bal, e.slot, e.val)
  }

  function DriveAccept(n: NodeState): Outcome {
    if !n.prop.state.Leader? || n.prop.highest.None? then Only(n, []) else
    var bal := n.prop.highest.value;
    var p := Place(n.window, bal, n.prop.queue);
    var r := Sweep(p.window, bal, p.window.openMin, End(p.window));
    var picks := PicksOf(bal, r.batch);
    Outcome(n.(prop := n.prop.(queue := []), window := r.window),
            if r.batch == [] then [] else [C.Broadcast(C.Accept(bal, r.batch))],
            OwnVotes(n.id, r.window, bal, picks), picks, p.placed)
  }

  // ---------------------------------------------------------------------------
  // Handlers
  // ---------------------------------------------------------------------------

  function ProposeLeadership(n: NodeState): Outcome {
    match n.prop.state
    case Candidate(p, _) => Only(n, [C.Broadcast(C.Prepare(p))])
    case Follower =>
      Only(n.(prop := StartPrepare(n.prop)), [C.Broadcast(C.Prepare(NextBallot(n.prop)))])
    case Leader(p) => Only(n, [C.Broadcast(C.Accept(p, []))])
  }

  function Enqueue(n: NodeState, val: Bytes): NodeState {
    n.(prop := n.prop.(queue := n.prop.queue + [val]))
  }

  function OnProposal(n: NodeState, val: Bytes): Outcome {
    match n.prop.state
    case Follower =>
      if n.prop.highest.None? then ProposeLeadership(Enqueue(n, val))
      else Only(n, [C.Send(n.prop.highest.value.node, C.Proposal(val))])
    case Candidate(_, _) => Only(Enqueue(n, val), [])
    case Leader(bal) =>
      var p := Place(n.window, bal, [val]);
      var picks := set x | x in p.placed;
      Outcome(n.(window := p.window),
              [C.Broadcast(C.Accept(bal, [C.Entry(NextSlot(n.window), val)]))],
              OwnVotes(n.id, p.window, bal, picks), picks, p.placed)
  }

  datatype PrepareResult = PrepareResult(window: Window, refused: Option<Ballot>, reports: seq<C.Report>)

  /** Asks every slot of `slot..end` to promise `bal`, and collects what to report. */
  function PrepareSweep(w: Window, bal: Ballot, slot: Slot, end: Slot): PrepareResult
    decreases end - slot
  {
    if slot >= end then PrepareResult(w, None, []) else
    var a := View(w, slot);
    if a.Resolved? then
      var rest := PrepareSweep(w, bal, slot + 1, end);
      rest.(reports := [C.Report(slot, a.accepted, a.value)] + rest.reports)
    else
      var (a', r) := ReceivePrepare(a, bal);
      var w' := Put(w, slot, a');
      match r
      case PrepareRefused(_, preempted) => PrepareResult(w', Some(preempted), [])
      case Promised(_, Some(pair)) =>
        var rest := PrepareSweep(w', bal, slot + 1, end);
        rest.(reports := [C.Report(slot, pair.bal, pair.val)] + rest.reports)
      case _ => PrepareSweep(w', bal, slot + 1, end)
  }

  function OnPrepare(n: NodeState, bal: Ballot): Outcome {
    var r := PrepareSweep(n.window, bal, n.window.openMin, End(n.window));
    Only(n.(prop := ObserveBallot(n.prop, bal), window := r.window),
         [C.Send(bal.node,
                 if r.refused.Some? then C.Reject(n.id, bal, r.refused.value)
                 else C.Promise(n.id, bal, r.reports))])
  }

  /** Takes over the reported pairs, without voting for them. */
  function Absorb(w: Window, reports: seq<C.Report>): Window
    decreases |reports|
  {
    if reports == [] then w else
    var r := reports[0];
    var a := View(w, r.slot);
    Absorb(if a.Resolved? then w else Put(w, r.slot, NoticeValue(a, r.bal, r.val)), reports[1..])
  }

  function OnPromise(n: NodeState, peer: NodeId, bal: Ballot, reports: seq<C.Report>): Outcome {
    if !n.prop.state.Candidate? then Only(n, [])
    else DriveAccept(n.(prop := ReceivePromise(n.prop, peer, bal), window := Absorb(n.window, reports)))
  }

  datatype AcceptEnd = Finished | Stopped | RefusedBy(preempted: Ballot)
  datatype AcceptResult = AcceptResult(window: Window, end: AcceptEnd, slots: seq<Slot>, votes: set<Vote>)

  function AcceptLoop(w: Window, id: NodeId, bal: Ballot, entries: seq<C.Entry>): AcceptResult
    decreases |entries|
  {
    if entries == [] then AcceptResult(w, Finished, [], {}) else
    var e := entries[0];
    var a := View(w, e.slot);
    if a.Resolved? then AcceptResult(w, Stopped, [], {}) else
    var (a', r) := ReceiveAccept(a, bal, e.val);
    var w' := Put(w, e.slot, a');
    match r
    case AcceptRefused(_, preempted) => AcceptResult(w', RefusedBy(preempted), [], {})
    case Accepted(_, _) =>
      var rest := AcceptLoop(w', id, bal, entries[1..]);
      var vote := Vote(id, e.slot, bal, if a'.AwaitQuorum? then a'.val else e.val);
      rest.(slots := [e.slot] + rest.slots, votes := {vote} + rest.votes)
    case AcceptResolved => AcceptLoop(w', id, bal, entries[1..])
  }

  function OnAccept(n: NodeState, bal: Ballot, entries: seq<C.Entry>): Outcome {
    var r := AcceptLoop(n.window, n.id, bal, entries);
    Outcome(n.(prop := ObserveBallot(n.prop, bal), window := r.window),
            match r.end
            case Finished => [C.Send(bal.node, C.Accepted(n.id, bal, r.slots))]
            case Stopped => []
            case RefusedBy(preempted) => [C.Send(bal.node, C.Reject(n.id, bal, preempted))],
            r.votes, {}, [])
  }

  function Forward(n: NodeState): Outcome {
    if !n.prop.state.Follower? || n.prop.queue == [] then Only(n, []) else
    Only(n.(prop := n.prop.(queue := [])),
         if n.prop.highest.None? then []
         else C.SendAll(n.prop.highest.value.node, C.Proposals(n.prop.queue)))
  }

  function OnReject(n: NodeState, proposed: Ballot, promised: Ballot): Outcome {
    Forward(n.(prop := ReceiveReject(n.prop, proposed, promised)))
  }

  datatype AcceptedResult = AcceptedResult(window: Window, stopped: bool, resolutions: seq<C.Entry>)

  function AcceptedLoop(w: Window, peer: NodeId, bal: Ballot, slots: seq<Slot>): AcceptedResult
    decreases |slots|
  {
    if slots == [] then AcceptedResult(w, false, []) else
    var s := slots[0];
    var a := View(w, s);
    if a.Resolved? then AcceptedResult(w, true, [])
    else if s >= End(w) then AcceptedLoop(w, peer, bal, slots[1..])
    else
      var a' := ReceiveAccepted(a, peer, bal);
      var rest := AcceptedLoop(Put(w, s, a'), peer, bal, slots[1..]);
      if a'.Resolved? then rest.(resolutions := [C.Entry(s, a'.value)] + rest.resolutions) else rest
  }

  function OnAccepted(n: NodeState, peer: NodeId, bal: Ballot, slots: seq<Slot>): Outcome {
    var r := AcceptedLoop(n.window, peer, bal, slots);
    Only(n.(prop := ObserveBallot(n.prop, bal), window := r.window),
         if r.stopped || r.resolutions == [] then [] else [C.Broadcast(C.Resolution(bal, r.resolutions))])
  }

  function ResolveAll(w: Window, bal: Ballot, entries: seq<C.Entry>): Window
    decreases |entries|
  {
    if entries == [] then w else
    var e := entries[0];
    var a := View(w, e.slot);
    ResolveAll(if a.Resolved? then w else Put(w, e.slot, Resolve(a, bal, e.val)), bal, entries[1..])
  }

  /** The unresolved slots of `slot..end`. */
  function Unresolved(w: Window, slot: Slot, end: Slot): seq<Slot>
    decreases end - slot
  {
    if slot >= end then []
    else (if View(w, slot).Resolved? then [] else [slot]) + Unresolved(w, slot + 1, end)
  }

  function OnResolution(n: NodeState, bal: Ballot, entries: seq<C.Entry>): Outcome {
    var prop := ObserveBallot(n.prop, bal);
    var w := ResolveAll(n.window, bal, entries);
    Only(n.(prop := prop, window := w),
         if End(w) > w.openMin + 1 && prop.highest.Some?
         then [C.Send(prop.highest.value.node, C.Catchup(n.id, Unresolved(w, w.openMin, End(w))))]
         else [])
  }

  function SortedInsert(s: Slot, slots: seq<Slot>): seq<Slot> {
    if slots == [] || s <= slots[0] then [s] + slots else [slots[0]] + SortedInsert(s, slots[1..])
  }

  function Sort(slots: seq<Slot>): seq<Slot> {
    if slots == [] then [] else SortedInsert(slots[0], Sort(slots[1..]))
  }

  /** Groups the resolved slots of the request into runs of one ballot. `run` is the
      ballot of the last resolved slot, `buf` the entries not sent yet. */
  function Batches(w: Window, slots: seq<Slot>, run: Option<Ballot>, buf: seq<C.Entry>): seq<C.Command>
    decreases |slots|
  {
    if slots == [] then (if buf != [] && run.Some? then [C.Resolution(run.value, buf)] else [])
    else
      var a := View(w, slots[0]);
      if !a.Resolved? then Batches(w, slots[1..], run, buf)
      else
        var e := C.Entry(slots[0], a.value);
        if run.Some? && run.value != a.accepted && buf != [] then
          [C.Resolution(run.value, buf)] + Batches(w, slots[1..], Some(a.accepted), [e])
        else
          Batches(w, slots[1..], Some(a.accepted), buf + [e])
  }

  function OnCatchup(n: NodeState, peer: NodeId, slots: seq<Slot>): Outcome {
    if !n.prop.state.Leader? then Only(n, []) else
    Only(n, C.SendAll(peer, Batches(n.window, Sort(slots), None, [])))
  }

  datatype Input = Receive(cmd: C.Command) | TakeLead

  function Handle(n: NodeState, input: Input): Outcome {
    match input
    case TakeLead => ProposeLeadership(n)
    case Receive(cmd) =>
      match cmd
      case Proposal(val) => OnProposal(n, val)
      case Prepare(bal) => OnPrepare(n, bal)
      case Promise(peer, bal, reports) => OnPromise(n, peer, bal, reports)
      case Accept(bal, entries) => OnAccept(n, bal, entries)
      case Reject(_, proposed, preempted) => OnReject(n, proposed, preempted)
      case Accepted(peer, bal, slots) => OnAccepted(n, peer, bal, slots)
      case Resolution(bal, entries) => OnResolution(n, bal, entries)
      case Catchup(peer, slots) => OnCatchup(n, peer, slots)
  }
}
