// What every handler keeps at a single node, whatever messages arrive, in whatever
// order and from whomever: the window stays well formed, and its slots only grow.
module LocalSteps {
  import opened Ballots
  import opened Acceptors
  import opened Windows
  import opened Proposers
  import opened NodeSteps
  import C = Commands

  ghost predicate Advances(w: Window, w': Window) {
    WindowOk(w') && WindowGrows(w, w')
  }

  lemma {:induction false} AdvancesReflexive(w: Window)
    requires WindowOk(w)
    ensures Advances(w, w)
  {
  }

  lemma {:induction false} AdvancesTransitive(u: Window, v: Window, w: Window)
    requires Advances(u, v) && Advances(v, w)
    ensures Advances(u, w)
  {
    WindowGrowsTransitive(u, v, w);
  }

  /** An access that applies an operation of the acceptor. */
  lemma {:induction false} AccessAdvances(w: Window, s: Slot, bal: Ballot, val: Bytes, peer: NodeId)
    requires WindowOk(w) && !View(w, s).Resolved?
    ensures var a := View(w, s);
            && Advances(w, Put(w, s, NoticeValue(a, bal, val)))
            && Advances(w, Put(w, s, Resolve(a, bal, val)))
            && Advances(w, Put(w, s, ReceivePrepare(a, bal).0))
            && Advances(w, Put(w, s, ReceiveAccept(a, bal, val).0))
            && Advances(w, Put(w, s, ReceiveAccepted(a, peer, bal)))
  {
    hide WindowOk, AccOk, AccGrows, NoticeValue, Resolve, ReceivePrepare, ReceiveAccept, ReceiveAccepted, View, Put, WindowGrows;
    var a := View(w, s);
    ViewOk(w, s);
    OperationsGrow(a, w.quorum, bal, val, peer);
    PutGrows(w, s, NoticeValue(a, bal, val));
    PutGrows(w, s, Resolve(a, bal, val));
    PutGrows(w, s, ReceivePrepare(a, bal).0);
    PutGrows(w, s, ReceiveAccept(a, bal, val).0);
    PutGrows(w, s, ReceiveAccepted(a, peer, bal));
  }

  lemma {:induction false} PlaceAdvances(w: Window, bal: Ballot, vals: seq<Bytes>)
    requires WindowOk(w)
    ensures Advances(w, Place(w, bal, vals).window)
    decreases |vals|
  {
    hide WindowOk, WindowGrows, View, Put, NextSlot, Advances;
    AdvancesReflexive(w);
    if vals != [] {
      var s := NextSlot(w);
      var w' := Put(w, s, NoticeValue(View(w, s), bal, vals[0]));
      NextSlotMeaning(w);
      AccessAdvances(w, s, bal, vals[0], 0);
      AdvancesOk(w, w');
      PlaceAdvances(w', bal, vals[1..]);
      AdvancesTransitive(w, w', Place(w', bal, vals[1..]).window);
    }
  }

  lemma {:induction false} AdvancesOk(w: Window, w': Window)
    requires Advances(w, w')
    ensures WindowOk(w') && w'.quorum == w.quorum && w.decided <= w'.decided
  {
  }

  lemma {:induction false} SweepAdvances(w: Window, bal: Ballot, slot: Slot, end: Slot)
    requires WindowOk(w)
    ensures Advances(w, Sweep(w, bal, slot, end).window)
    decreases end - slot
  {
    hide WindowOk, WindowGrows, View, Put, Advances, PickFor;
    AdvancesReflexive(w);
    if slot < end {
      var a := View(w, slot);
      if a.Resolved? {
        SweepAdvances(w, bal, slot + 1, end);
      } else {
        var w' := Put(w, slot, NoticeValue(a, bal, PickFor(a)));
        AccessAdvances(w, slot, bal, PickFor(a), 0);
        AdvancesOk(w, w');
        SweepAdvances(w', bal, slot + 1, end);
        AdvancesTransitive(w, w', Sweep(w', bal, slot + 1, end).window);
      }
    }
  }

  lemma {:induction false} PrepareAdvances(w: Window, bal: Ballot, slot: Slot, end: Slot)
    requires WindowOk(w)
    ensures Advances(w, PrepareSweep(w, bal, slot, end).window)
    decreases end - slot
  {
    hide WindowOk, WindowGrows, View, Put, Advances;
    AdvancesReflexive(w);
    if slot < end {
      var a := View(w, slot);
      if a.Resolved? {
        PrepareAdvances(w, bal, slot + 1, end);
      } else {
        var w' := Put(w, slot, ReceivePrepare(a, bal).0);
        AccessAdvances(w, slot, bal, [], 0);
        AdvancesOk(w, w');
        PrepareAdvances(w', bal, slot + 1, end);
        AdvancesTransitive(w, w', PrepareSweep(w', bal, slot + 1, end).window);
      }
    }
  }

  lemma {:induction false} AbsorbAdvances(w: Window, reports: seq<C.Report>)
    requires WindowOk(w)
    ensures Advances(w, Absorb(w, reports))
    decreases |reports|
  {
    hide WindowOk, WindowGrows, View, Put, Advances, NoticeValue;
    AdvancesReflexive(w);
    if reports != [] {
      var r := reports[0];
      var a := View(w, r.slot);
      if a.Resolved? {
        AbsorbAdvances(w, reports[1..]);
      } else {
        var w' := Put(w, r.slot, NoticeValue(a, r.bal, r.val));
        AccessAdvances(w, r.slot, r.bal, r.val, 0);
        AdvancesOk(w, w');
        AbsorbAdvances(w', reports[1..]);
        AdvancesTransitive(w, w', Absorb(w', reports[1..]));
      }
    }
  }

  lemma {:induction false} AcceptAdvances(w: Window, id: NodeId, bal: Ballot, entries: seq<C.Entry>)
    requires WindowOk(w)
    ensures Advances(w, AcceptLoop(w, id, bal, entries).window)
    decreases |entries|
  {
    hide WindowOk, WindowGrows, View, Put, Advances, NoticeValue;
    AdvancesReflexive(w);
    if entries != [] {
      var e := entries[0];
      var a := View(w, e.slot);
      if !a.Resolved? {
        var w' := Put(w, e.slot, ReceiveAccept(a, bal, e.val).0);
        AccessAdvances(w, e.slot, bal, e.val, 0);
        AdvancesOk(w, w');
        AcceptAdvances(w', id, bal, entries[1..]);
        AdvancesTransitive(w, w', AcceptLoop(w', id, bal, entries[1..]).window);
      }
    }
  }

  lemma {:induction false} AcceptedAdvances(w: Window, peer: NodeId, bal: Ballot, slots: seq<Slot>)
    requires WindowOk(w)
    ensures Advances(w, AcceptedLoop(w, peer, bal, slots).window)
    decreases |slots|
  {
    hide WindowOk, WindowGrows, View, Put, Advances, ReceiveAccepted;
    AdvancesReflexive(w);
    if slots != [] {
      var s := slots[0];
      var a := View(w, s);
      if a.Resolved? {
      } else if s >= End(w) {
        AcceptedAdvances(w, peer, bal, slots[1..]);
      } else {
        var w' := Put(w, s, ReceiveAccepted(a, peer, bal));
        AccessAdvances(w, s, bal, [], peer);
        AdvancesOk(w, w');
        AcceptedAdvances(w', peer, bal, slots[1..]);
        AdvancesTransitive(w, w', AcceptedLoop(w', peer, bal, slots[1..]).window);
      }
    }
  }

  lemma {:induction false} ResolveAdvances(w: Window, bal: Ballot, entries: seq<C.Entry>)
    requires WindowOk(w)
    ensures Advances(w, ResolveAll(w, bal, entries))
    decreases |entries|
  {
    hide WindowOk, WindowGrows, View, Put, Advances, Resolve;
    AdvancesReflexive(w);
    if entries != [] {
      var e := entries[0];
      var a := View(w, e.slot);
      if a.Resolved? {
        ResolveAdvances(w, bal, entries[1..]);
      } else {
        var w' := Put(w, e.slot, Resolve(a, bal, e.val));
        AccessAdvances(w, e.slot, bal, e.val, 0);
        AdvancesOk(w, w');
        ResolveAdvances(w', bal, entries[1..]);
        AdvancesTransitive(w, w', ResolveAll(w', bal, entries[1..]));
      }
    }
  }

  lemma {:induction false} DriveAdvances(n: NodeState)
    requires WindowOk(n.window)
    ensures Advances(n.window, DriveAccept(n).node.window)
  {
    hide WindowOk, WindowGrows, Advances, Place, Sweep, OwnVotes, PicksOf;
    AdvancesReflexive(n.window);
    if n.prop.state.Leader? && n.prop.highest.Some? {
      var bal := n.prop.highest.value;
      var p := Place(n.window, bal, n.prop.queue);
      PlaceAdvances(n.window, bal, n.prop.queue);
      AdvancesOk(n.window, p.window);
      SweepAdvances(p.window, bal, p.window.openMin, End(p.window));
      AdvancesTransitive(n.window, p.window, Sweep(p.window, bal, p.window.openMin, End(p.window)).window);
    }
  }

  lemma {:induction false} PromiseAdvances(n: NodeState, peer: NodeId, bal: Ballot, reports: seq<C.Report>)
    requires WindowOk(n.window)
    ensures Advances(n.window, OnPromise(n, peer, bal, reports).node.window)
  {
    hide WindowOk, WindowGrows, Advances, DriveAccept, Absorb, ReceivePromise;
    AdvancesReflexive(n.window);
    if n.prop.state.Candidate? {
      AbsorbAdvances(n.window, reports);
      AdvancesOk(n.window, Absorb(n.window, reports));
      var m := n.(prop := ReceivePromise(n.prop, peer, bal), window := Absorb(n.window, reports));
      DriveAdvances(m);
      AdvancesTransitive(n.window, m.window, DriveAccept(m).node.window);
    }
  }

  /** The window refines a map of acceptors that only grow: whatever a node receives, its
      window stays well formed, its log of decided values is only extended, and every slot
      changes only as an acceptor may. */
  lemma {:induction false} HandleAdvances(n: NodeState, input: Input)
    requires WindowOk(n.window)
    ensures Advances(n.window, Handle(n, input).node.window)
  {
    hide WindowOk, WindowGrows, Advances, DriveAccept, Place, PrepareSweep, AcceptLoop, AcceptedLoop, ResolveAll;
    hide OwnVotes, ObserveBallot, Unresolved, Batches, OnPromise, Sort;
    AdvancesReflexive(n.window);
    if input.Receive? {
      match input.cmd {
        case Proposal(v) => ProposalAdvances(n, v);
        case Prepare(b) => PrepareAdvances(n.window, b, n.window.openMin, End(n.window));
        case Promise(peer, b, reports) => PromiseAdvances(n, peer, b, reports);
        case Accept(b, es) => AcceptAdvances(n.window, n.id, b, es);
        case Reject(_, _, _) =>
        case Accepted(peer, b, slots) => AcceptedAdvances(n.window, peer, b, slots);
        case Resolution(b, es) => ResolveAdvances(n.window, b, es);
        case Catchup(_, _) =>
      }
    }
  }

  lemma {:induction false} ProposalAdvances(n: NodeState, v: Bytes)
    requires WindowOk(n.window)
    ensures Advances(n.window, OnProposal(n, v).node.window)
  {
    hide WindowOk, WindowGrows, Advances, Place, OwnVotes;
    AdvancesReflexive(n.window);
    if n.prop.state.Leader? {
      PlaceAdvances(n.window, n.prop.state.proposal, [v]);
    }
  }
}
