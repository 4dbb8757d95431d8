// Client values at one node, whatever the node receives: every value handed to it as a
// proposal is queued, forwarded, or placed in a slot of its own ballot, exactly once.
module Conservation {
  import opened Ballots
  import opened Quorums
  import opened Acceptors
  import opened Windows
  import opened Proposers
  import opened NodeSteps
  import opened Leading
  import opened LocalSteps
  import C = Commands

  /** A node with the record of what it was asked to propose and what became of it. */
  datatype Ledger = Ledger(
    node: NodeState,
    received: seq<Bytes>,
    forwarded: seq<Bytes>,
    placed: seq<Pick>,
    sent: seq<C.Output>)

  function ReceivedIn(input: Input): seq<Bytes> {
    if input.Receive? && input.cmd.Proposal? then [input.cmd.val] else []
  }

  /** The values sent on in proposals. */
  function ForwardedIn(outs: seq<C.Output>): seq<Bytes> {
    if outs == [] then []
    else (if outs[0].Send? && outs[0].cmd.Proposal? then [outs[0].cmd.val] else []) + ForwardedIn(outs[1..])
  }

  function ValuesOf(placed: seq<Pick>): seq<Bytes> {
    seq(|placed|, i requires 0 <= i < |placed| => placed[i].val)
  }

  function Account(l: Ledger, input: Input): Ledger {
    var o := Handle(l.node, input);
    Ledger(o.node, l.received + ReceivedIn(input), l.forwarded + ForwardedIn(o.outs), l.placed + o.placed, l.sent + o.outs)
  }

  ghost predicate Accounts(ledgers: seq<Ledger>, inputs: seq<Input>, i: nat)
    requires i < |inputs| < |ledgers|
  {
    ledgers[i + 1] == Account(ledgers[i], inputs[i])
  }

  /** The ledgers of a node that starts fresh and receives the inputs. */
  ghost predicate IsHistory(id: NodeId, peers: set<NodeId>, ledgers: seq<Ledger>, inputs: seq<Input>) {
    && |ledgers| == |inputs| + 1
    && ledgers[0] == Ledger(NewNode(id, peers), [], [], [], [])
    && forall i: nat :: i < |inputs| ==> Accounts(ledgers, inputs, i)
  }

  // ---------------------------------------------------------------------------
  // What holds of the ledger
  // ---------------------------------------------------------------------------

  ghost predicate Balanced(received: seq<Bytes>, queue: seq<Bytes>, forwarded: seq<Bytes>, placed: seq<Pick>) {
    multiset(received) == multiset(queue) + multiset(forwarded) + multiset(ValuesOf(placed))
  }

  /** The slot of a placed value holds that very value, unless a higher ballot or a decision
      took it over. */
  ghost predicate Keeps(a: Acc, k: Pick) {
    a.Resolved? || (a.AwaitQuorum? && k.bal.AtMost(a.bal) && (a.bal == k.bal ==> a.val == k.val))
  }

  ghost predicate PlacedOk(id: NodeId, w: Window, placed: seq<Pick>) {
    && (forall k :: k in placed ==> k.bal.node == id && Keeps(View(w, k.slot), k))
    && (forall i, j :: 0 <= i < j < |placed| ==> placed[i].slot != placed[j].slot)
  }

  /** An ACCEPT of the ballot went to all peers with the placed value for its slot. */
  ghost predicate Announced(sent: seq<C.Output>, k: Pick) {
    exists o :: o in sent && o.Broadcast? && o.cmd.Accept? && o.cmd.bal == k.bal && C.Entry(k.slot, k.val) in o.cmd.entries
  }

  ghost predicate AllAnnounced(sent: seq<C.Output>, placed: seq<Pick>) {
    forall k :: k in placed ==> Announced(sent, k)
  }

  ghost predicate LedgerOk(l: Ledger) {
    && WindowOk(l.node.window) && l.node.prop.current == l.node.id && RoleHolds(l.node.prop)
    && Balanced(l.received, l.node.prop.queue, l.forwarded, l.placed)
    && PlacedOk(l.node.id, l.node.window, l.placed)
    && AllAnnounced(l.sent, l.placed)
  }

  // ---------------------------------------------------------------------------
  // What one step does
  // ---------------------------------------------------------------------------

  lemma {:induction false} ValuesJoin(a: seq<Pick>, b: seq<Pick>)
    ensures ValuesOf(a + b) == ValuesOf(a) + ValuesOf(b)
  {
  }

  /** Values that leave the queue of a step, one way or another. */
  ghost predicate Moves(queue: seq<Bytes>, input: Input, queue': seq<Bytes>, outs: seq<C.Output>, placed: seq<Pick>) {
    multiset(queue) + multiset(ReceivedIn(input)) == multiset(queue') + multiset(ForwardedIn(outs)) + multiset(ValuesOf(placed))
  }

  lemma {:induction false} BalancedStep(l: Ledger, input: Input)
    requires Balanced(l.received, l.node.prop.queue, l.forwarded, l.placed)
    requires var o := Handle(l.node, input); Moves(l.node.prop.queue, input, o.node.prop.queue, o.outs, o.placed)
    ensures var m := Account(l, input); Balanced(m.received, m.node.prop.queue, m.forwarded, m.placed)
  {
    hide Handle, Balanced, Moves;
    var o := Handle(l.node, input);
    BalancedSum(l.received, l.node.prop.queue, l.forwarded, l.placed, input, o);
  }

  lemma {:induction false} BalancedSum(received: seq<Bytes>, queue: seq<Bytes>, forwarded: seq<Bytes>,
                                       placed: seq<Pick>, input: Input, o: Outcome)
    requires Balanced(received, queue, forwarded, placed) && Moves(queue, input, o.node.prop.queue, o.outs, o.placed)
    ensures Balanced(received + ReceivedIn(input), o.node.prop.queue, forwarded + ForwardedIn(o.outs), placed + o.placed)
  {
    hide ReceivedIn, ForwardedIn, ValuesOf;
    ValuesJoin(placed, o.placed);
    SumsBalance(multiset(received), multiset(queue), multiset(forwarded), multiset(ValuesOf(placed)),
                multiset(ReceivedIn(input)), multiset(o.node.prop.queue), multiset(ForwardedIn(o.outs)), multiset(ValuesOf(o.placed)));
    assert multiset(received + ReceivedIn(input)) == multiset(received) + multiset(ReceivedIn(input));
    assert multiset(forwarded + ForwardedIn(o.outs)) == multiset(forwarded) + multiset(ForwardedIn(o.outs));
    assert multiset(ValuesOf(placed) + ValuesOf(o.placed)) == multiset(ValuesOf(placed)) + multiset(ValuesOf(o.placed));
  }

  lemma {:induction false} SumsBalance<T(!new)>(received: multiset<T>, queue: multiset<T>, forwarded: multiset<T>,
                                         placed: multiset<T>,
                                          r: multiset<T>, q: multiset<T>, f: multiset<T>, p: multiset<T>)
    requires received == queue + forwarded + placed && queue + r == q + f + p
    ensures received + r == q + (forwarded + f) + (placed + p)
  {
    forall v: T ensures (received + r)[v] == (q + (forwarded + f) + (placed + p))[v] {
      assert (queue + r)[v] == (q + f + p)[v];
    }
  }

  /** Values are placed in slots that held none, which then hold them. */
  lemma {:induction false} PlaceIsNew(id: NodeId, w: Window, bal: Ballot, vals: seq<Bytes>)
    requires WindowOk(w) && bal.node == id
    ensures var r := Place(w, bal, vals);
            && PlacedOk(id, r.window, r.placed) && ValuesOf(r.placed) == vals
            && forall k :: k in r.placed ==> View(w, k.slot).AwaitValue?
  {
    hide WindowOk, NextSlot, FreeSlot, Place, Put, View, Keeps, Holds, PlacedOk;
    PlaceMeaning(w, bal, vals);
    var r, first := Place(w, bal, vals), NextSlot(w);
    forall i | 0 <= i < |r.placed|
      ensures View(w, r.placed[i].slot).AwaitValue? && Keeps(View(r.window, r.placed[i].slot), r.placed[i])
    {
      assert r.placed[i] == Pick(bal, first + i, vals[i]);
      NoValueFrom(w, first + i);
      HoldsKeeps(View(r.window, first + i), r.placed[i]);
    }
    AllPlacedOk(id, r.window, bal, first, r.placed);
    assert ValuesOf(r.placed) == vals;
  }

  lemma {:induction false} HoldsKeeps(a: Acc, k: Pick)
    requires Holds(a, k.bal, k.val)
    ensures Keeps(a, k)
  {
  }

  lemma {:induction false} AllPlacedOk(id: NodeId, w: Window, bal: Ballot, first: Slot, placed: seq<Pick>)
    requires bal.node == id && forall i :: 0 <= i < |placed| ==> placed[i].bal == bal && placed[i].slot == first + i
    requires forall i :: 0 <= i < |placed| ==> Keeps(View(w, placed[i].slot), placed[i])
    ensures PlacedOk(id, w, placed)
  {
    hide View, Keeps;
  }

  /** New placements join the old ones: the slots of the old hold values already. */
  lemma {:induction false} PlacedJoin(id: NodeId, w: Window, w': Window, placed: seq<Pick>, more: seq<Pick>)
    requires PlacedOk(id, w, placed) && Advances(w, w') && PlacedOk(id, w', more)
    requires forall k :: k in more ==> View(w, k.slot).AwaitValue?
    ensures PlacedOk(id, w', placed + more)
  {
    var all := placed + more;
    forall k | k in all
      ensures k.bal.node == id && Keeps(View(w', k.slot), k)
    {
      if k in placed { assert AccGrows(View(w, k.slot), View(w', k.slot)); }
    }
    forall i, j | 0 <= i < j < |all|
      ensures all[i].slot != all[j].slot
    {
      if i < |placed| <= j {
        assert all[i] in placed && all[j] in more;
      }
    }
  }

  lemma {:induction false} NothingPlaced(id: NodeId, w: Window)
    ensures PlacedOk(id, w, [])
  {
  }

  /** What every handler does with the client values, the proposer and the placements. */
  ghost predicate StepSound(n: NodeState, input: Input, o: Outcome) {
    && o.node.id == n.id && o.node.prop.current == n.prop.current && RoleHolds(o.node.prop)
    && Moves(n.prop.queue, input, o.node.prop.queue, o.outs, o.placed)
    && PlacedOk(n.id, o.node.window, o.placed)
    && forall k :: k in o.placed ==> View(n.window, k.slot).AwaitValue?
  }

  lemma {:induction false} QuietStep(n: NodeState, input: Input, o: Outcome)
    requires ReceivedIn(input) == [] && ForwardedIn(o.outs) == [] && o.placed == []
    requires o.node.id == n.id && o.node.prop.current == n.prop.current && RoleHolds(o.node.prop) && o.node.prop.queue == n.prop.queue
    ensures StepSound(n, input, o)
  {
  }

  lemma {:induction false} LeadSound(n: NodeState)
    requires RoleHolds(n.prop)
    ensures var o := ProposeLeadership(n);
            && o.node.id == n.id && o.node.prop.current == n.prop.current && RoleHolds(o.node.prop)
            && o.node.prop.queue == n.prop.queue && ForwardedIn(o.outs) == [] && o.placed == []
  {
    assert forall x: C.Output :: [x][1..] == [];
    if n.prop.state.Follower? { CandidacyMeaning(n.prop); }
  }

  lemma {:induction false} ForwardAll(node: NodeId, vals: seq<Bytes>)
    ensures ForwardedIn(C.SendAll(node, C.Proposals(vals))) == vals
    decreases |vals|
  {
    if vals != [] {
      ForwardAll(node, vals[1..]);
      assert C.SendAll(node, C.Proposals(vals))[1..] == C.SendAll(node, C.Proposals(vals[1..]));
    }
  }

  lemma {:induction false} ForwardSound(n: NodeState, input: Input)
    requires RoleHolds(n.prop) && ReceivedIn(input) == []
    ensures StepSound(n, input, Forward(n))
  {
    hide ForwardedIn, View;
    NothingPlaced(n.id, n.window);
    if n.prop.state.Follower? && n.prop.queue != [] {
      ForwardAll(n.prop.highest.value.node, n.prop.queue);
      ForwardMoves(n.prop.queue, input, Forward(n).outs);
    } else {
      NoProposals([]);
      QuietStep(n, input, Only(n, []));
    }
  }

  lemma {:induction false} ForwardMoves(queue: seq<Bytes>, input: Input, outs: seq<C.Output>)
    requires ReceivedIn(input) == [] && ForwardedIn(outs) == queue
    ensures Moves(queue, input, [], outs, [])
  {
    hide ReceivedIn, ForwardedIn;
    assert ValuesOf([]) == [];
  }

  lemma {:induction false} ProposalSound(n: NodeState, v: Bytes)
    requires WindowOk(n.window) && n.prop.current == n.id && RoleHolds(n.prop)
    ensures StepSound(n, Receive(C.Proposal(v)), OnProposal(n, v))
  {
    hide WindowOk, Place, View, OwnVotes, NextSlot;
    if n.prop.state.Follower? && n.prop.highest.None? {
      EnqueueSound(n, v);
    } else if n.prop.state.Leader? {
      PlaceIsNew(n.id, n.window, n.prop.state.proposal, [v]);
      assert ForwardedIn(OnProposal(n, v).outs) == [];
    } else {
      NothingPlaced(n.id, n.window);
      if n.prop.state.Follower? {
        assert ForwardedIn([C.Send(n.prop.highest.value.node, C.Proposal(v))]) == [v] + ForwardedIn([]);
      }
    }
  }

  lemma {:induction false} EnqueueSound(n: NodeState, v: Bytes)
    requires n.prop.current == n.id && RoleHolds(n.prop) && n.prop.state.Follower? && n.prop.highest.None?
    ensures StepSound(n, Receive(C.Proposal(v)), OnProposal(n, v))
  {
    CandidacyMeaning(n.prop);
    NothingPlaced(n.id, n.window);
    assert ForwardedIn(OnProposal(n, v).outs) == [];
  }

  lemma {:induction false} DriveSound(n: NodeState, input: Input)
    requires WindowOk(n.window) && n.prop.current == n.id && RoleHolds(n.prop) && ReceivedIn(input) == []
    ensures StepSound(n, input, DriveAccept(n))
  {
    hide WindowOk, Place, Sweep, OwnVotes, PicksOf, View, Advances;
    NothingPlaced(n.id, n.window);
    if n.prop.state.Leader? {
      var bal := n.prop.highest.value;
      var p := Place(n.window, bal, n.prop.queue);
      PlaceIsNew(n.id, n.window, bal, n.prop.queue);
      PlaceAdvances(n.window, bal, n.prop.queue);
      AdvancesOk(n.window, p.window);
      var r := Sweep(p.window, bal, p.window.openMin, End(p.window));
      SweepAdvances(p.window, bal, p.window.openMin, End(p.window));
      NothingPlaced(n.id, r.window);
      PlacedStays(n.id, p.window, r.window, p.placed);
      assert ForwardedIn(DriveAccept(n).outs) == [];
    }
  }

  lemma {:induction false} PlacedStays(id: NodeId, w: Window, w': Window, placed: seq<Pick>)
    requires PlacedOk(id, w, placed) && Advances(w, w')
    ensures PlacedOk(id, w', placed)
  {
    forall k | k in placed ensures Keeps(View(w', k.slot), k) { assert AccGrows(View(w, k.slot), View(w', k.slot)); }
  }

  lemma {:induction false} PromiseSound(n: NodeState, peer: NodeId, bal: Ballot, reports: seq<C.Report>)
    requires WindowOk(n.window) && n.prop.current == n.id && RoleHolds(n.prop)
    ensures StepSound(n, Receive(C.Promise(peer, bal, reports)), OnPromise(n, peer, bal, reports))
  {
    hide WindowOk, DriveAccept, Absorb, View, Advances, RoleHolds;
    var input := Receive(C.Promise(peer, bal, reports));
    if n.prop.state.Candidate? {
      var m := n.(prop := ReceivePromise(n.prop, peer, bal), window := Absorb(n.window, reports));
      AbsorbAdvances(n.window, reports);
      AdvancesOk(n.window, m.window);
      PromiseMeaning(n.prop, peer, bal);
      DriveSound(m, input);
      forall k | k in DriveAccept(m).placed ensures View(n.window, k.slot).AwaitValue? { StillEmpty(n.window, m.window, k.slot); }
    } else {
      QuietStep(n, input, Only(n, []));
    }
  }

  lemma {:induction false} StillEmpty(w: Window, w': Window, s: Slot)
    requires Advances(w, w') && View(w', s).AwaitValue?
    ensures View(w, s).AwaitValue?
  {
    assert AccGrows(View(w, s), View(w', s));
  }

  lemma {:induction false} NoProposals(outs: seq<C.Output>)
    requires forall o :: o in outs ==> !(o.Send? && o.cmd.Proposal?)
    ensures ForwardedIn(outs) == []
    decreases |outs|
  {
    if outs != [] {
      assert outs[0] in outs;
      NoProposals(outs[1..]);
    }
  }

  lemma {:induction false} OnlyResolutions(w: Window, slots: seq<Slot>, run: Option<Ballot>, buf: seq<C.Entry>)
    ensures forall cmd :: cmd in Batches(w, slots, run, buf) ==> cmd.Resolution?
    decreases |slots|
  {
    if slots != [] {
      var a := View(w, slots[0]);
      if !a.Resolved? {
        OnlyResolutions(w, slots[1..], run, buf);
      } else {
        var e := C.Entry(slots[0], a.value);
        OnlyResolutions(w, slots[1..], Some(a.accepted), [e]);
        OnlyResolutions(w, slots[1..], Some(a.accepted), buf + [e]);
      }
    }
  }

  lemma {:induction false} CatchupQuiet(n: NodeState, peer: NodeId, slots: seq<Slot>)
    ensures ForwardedIn(OnCatchup(n, peer, slots).outs) == []
  {
    hide Batches, Sort;
    var cmds := Batches(n.window, Sort(slots), None, []);
    OnlyResolutions(n.window, Sort(slots), None, []);
    forall o | o in C.SendAll(peer, cmds) ensures !o.cmd.Proposal? {
      var i :| 0 <= i < |cmds| && o == C.Send(peer, cmds[i]);
      assert cmds[i] in cmds;
    }
    NoProposals(OnCatchup(n, peer, slots).outs);
  }

  lemma {:induction false} HandleSound(n: NodeState, input: Input)
    requires WindowOk(n.window) && n.prop.current == n.id && RoleHolds(n.prop)
    ensures StepSound(n, input, Handle(n, input))
  {
    hide WindowOk, RoleHolds, StepSound, OnPromise, OnProposal, Forward, ProposeLeadership, ObserveBallot;
    hide PrepareSweep, AcceptLoop, AcceptedLoop, ResolveAll, Batches, Sort, Unresolved, ReceiveReject, ForwardedIn;
    match input {
      case TakeLead => LeadSound(n); QuietStep(n, input, ProposeLeadership(n));
      case Receive(cmd) =>
        var o := Handle(n, input);
        match cmd {
          case Proposal(v) => ProposalSound(n, v);
          case Promise(peer, b, reports) => PromiseSound(n, peer, b, reports);
          case Reject(_, b, d) => RejectSound(n, b, d, input);
          case Prepare(b) => ObserveMeaning(n.prop, b); NoProposals(o.outs); QuietStep(n, input, o);
          case Accept(b, es) => ObserveMeaning(n.prop, b); NoProposals(o.outs); QuietStep(n, input, o);
          case Accepted(peer, b, slots) => ObserveMeaning(n.prop, b); NoProposals(o.outs); QuietStep(n, input, o);
          case Resolution(b, es) => ObserveMeaning(n.prop, b); NoProposals(o.outs); QuietStep(n, input, o);
          case Catchup(peer, slots) => CatchupQuiet(n, peer, slots); QuietStep(n, input, o);
        }
    }
  }

  /** What holds of a node whatever it receives. */
  ghost predicate NodeOk(n: NodeState) {
    WindowOk(n.window) && n.prop.current == n.id && RoleHolds(n.prop)
  }

  lemma {:induction false} FreshNodeOk(id: NodeId, peers: set<NodeId>)
    requires |peers| >= 2
    ensures NodeOk(NewNode(id, peers))
  {
    NewWindowOk(QuorumSize(|peers|));
  }

  lemma {:induction false} HandleKept(n: NodeState, input: Input)
    requires NodeOk(n)
    ensures var m := Handle(n, input).node; NodeOk(m) && m.id == n.id && Advances(n.window, m.window)
  {
    hide WindowOk, Handle, RoleHolds, WindowGrows;
    HandleAdvances(n, input);
    HandleSound(n, input);
  }

  lemma {:induction false} RejectSound(n: NodeState, b: Ballot, d: Ballot, input: Input)
    requires WindowOk(n.window) && n.prop.current == n.id && RoleHolds(n.prop) && ReceivedIn(input) == []
    ensures StepSound(n, input, OnReject(n, b, d))
  {
    hide WindowOk, RoleHolds, Forward, ObserveBallot;
    var m := n.(prop := ReceiveReject(n.prop, b, d));
    ObserveMeaning(n.prop, d);
    ForwardSound(m, input);
  }

  lemma {:induction false} AnnouncedJoin(sent: seq<C.Output>, placed: seq<Pick>, outs: seq<C.Output>, more: seq<Pick>)
    requires AllAnnounced(sent, placed) && AllAnnounced(outs, more)
    ensures AllAnnounced(sent + outs, placed + more)
  {
    forall k | k in placed + more
      ensures Announced(sent + outs, k)
    {
      if k in placed {
        var o :| o in sent && o.Broadcast? && o.cmd.Accept? && o.cmd.bal == k.bal && C.Entry(k.slot, k.val) in o.cmd.entries;
        assert o in sent + outs;
      } else {
        var o :| o in outs && o.Broadcast? && o.cmd.Accept? && o.cmd.bal == k.bal && C.Entry(k.slot, k.val) in o.cmd.entries;
        assert o in sent + outs;
      }
    }
  }

  /** What a step places, it announces. */
  lemma {:induction false} DriveAnnounces(n: NodeState)
    requires WindowOk(n.window)
    ensures AllAnnounced(DriveAccept(n).outs, DriveAccept(n).placed)
  {
    hide WindowOk, Place, Sweep, OwnVotes, PicksOf;
    if n.prop.state.Leader? && n.prop.highest.Some? {
      var b := n.prop.highest.value;
      var p := Place(n.window, b, n.prop.queue);
      var batch := Sweep(p.window, b, p.window.openMin, End(p.window)).batch;
      forall k | k in p.placed
        ensures Announced(DriveAccept(n).outs, k)
      {
        PlacedEntry(n.window, b, n.prop.queue, k);
        assert C.Broadcast(C.Accept(b, batch)) in DriveAccept(n).outs;
      }
    }
  }

  lemma {:induction false} ProposalAnnounces(n: NodeState, v: Bytes)
    ensures AllAnnounced(OnProposal(n, v).outs, OnProposal(n, v).placed)
  {
    hide Put, View, NoticeValue, NextSlot, OwnVotes;
    if n.prop.state.Leader? {
      var b := n.prop.state.proposal;
      assert [v][1..] == [];
      assert Place(n.window, b, [v]).placed == [Pick(b, NextSlot(n.window), v)];
      assert C.Broadcast(C.Accept(b, [C.Entry(NextSlot(n.window), v)])) in OnProposal(n, v).outs;
    }
  }

  lemma {:induction false} HandleAnnounces(n: NodeState, input: Input)
    requires WindowOk(n.window)
    ensures AllAnnounced(Handle(n, input).outs, Handle(n, input).placed)
  {
    hide WindowOk, DriveAccept, OnProposal, PrepareSweep, AcceptLoop, AcceptedLoop, ResolveAll, Batches, Sort, Unresolved;
    hide ObserveBallot, ReceiveReject, ReceivePromise, StartPrepare, Absorb, Announced;
    if input.Receive? {
      if input.cmd.Proposal? { ProposalAnnounces(n, input.cmd.val); }
      if input.cmd.Promise? && n.prop.state.Candidate? {
        AbsorbAdvances(n.window, input.cmd.reports);
        AdvancesOk(n.window, Absorb(n.window, input.cmd.reports));
        var prop := ReceivePromise(n.prop, input.cmd.node, input.cmd.bal);
        DriveAnnounces(n.(prop := prop, window := Absorb(n.window, input.cmd.reports)));
      }
    }
  }

  lemma {:induction false} AccountKeeps(l: Ledger, input: Input)
    requires LedgerOk(l)
    ensures LedgerOk(Account(l, input))
  {
    hide Handle, WindowOk, RoleHolds, Balanced, PlacedOk, Advances, View, Moves, AllAnnounced;
    HandleSound(l.node, input);
    HandleAdvances(l.node, input);
    AdvancesOk(l.node.window, Handle(l.node, input).node.window);
    BalancedStep(l, input);
    PlacedJoin(l.node.id, l.node.window, Handle(l.node, input).node.window, l.placed, Handle(l.node, input).placed);
    HandleAnnounces(l.node, input);
    AnnouncedJoin(l.sent, l.placed, Handle(l.node, input).outs, Handle(l.node, input).placed);
  }

  lemma {:induction false} HistoryKeeps(id: NodeId, peers: set<NodeId>, ledgers: seq<Ledger>, inputs: seq<Input>, i: nat)
    requires |peers| >= 2 && IsHistory(id, peers, ledgers, inputs) && i < |ledgers|
    ensures LedgerOk(ledgers[i]) && ledgers[i].node.id == id
  {
    hide Account, LedgerOk, Handle;
    if i == 0 {
      FreshLedger(id, peers);
    } else {
      HistoryKeeps(id, peers, ledgers, inputs, i - 1);
      assert Accounts(ledgers, inputs, i - 1);
      AccountKeeps(ledgers[i - 1], inputs[i - 1]);
      AccountSame(ledgers[i - 1], inputs[i - 1]);
    }
  }

  lemma {:induction false} FreshLedger(id: NodeId, peers: set<NodeId>)
    requires |peers| >= 2
    ensures LedgerOk(Ledger(NewNode(id, peers), [], [], [], []))
  {
    NewWindowOk(QuorumSize(|peers|));
  }

  lemma {:induction false} AccountSame(l: Ledger, input: Input)
    requires LedgerOk(l)
    ensures Account(l, input).node.id == l.node.id
  {
    hide LedgerOk, Handle;
    LedgerNode(l);
    HandleSound(l.node, input);
  }

  /** Conservation of client values: whatever a fresh node receives, at any moment the
      values it was asked to propose are, as a multiset, those it still queues, those it
      forwarded and those it placed. It placed them at ballots of its own, in slots all
      different; each placed value was announced for its slot to all peers in an ACCEPT of
      its ballot, and is what the slot holds unless a higher ballot or a decision took over. */
  lemma {:induction false} ValuesAreConserved(id: NodeId, peers: set<NodeId>, ledgers: seq<Ledger>,
                                              inputs: seq<Input>, i: nat)
    requires |peers| >= 2 && IsHistory(id, peers, ledgers, inputs) && i < |ledgers|
    ensures var l := ledgers[i];
            && Balanced(l.received, l.node.prop.queue, l.forwarded, l.placed)
            && PlacedOk(id, l.node.window, l.placed)
            && AllAnnounced(l.sent, l.placed)
  {
    hide IsHistory, Balanced, PlacedOk, AllAnnounced;
    HistoryKeeps(id, peers, ledgers, inputs, i);
  }

  lemma {:induction false} LedgerNode(l: Ledger)
    requires LedgerOk(l)
    ensures WindowOk(l.node.window) && l.node.prop.current == l.node.id && RoleHolds(l.node.prop)
  {
  }
}
