// A node as an object (src/node.rs). Its handlers loop over slots and messages; each is
// proved to do what the corresponding step function says.
module Nodes {
  import opened Ballots
  import opened Quorums
  import opened Acceptors
  import opened Windows
  import opened Proposers
  import opened NodeSteps
  import opened LocalSteps
  import opened Conservation
  import opened SlotWindows
  import C = Commands

  /** What asking one slot of the window `w` for a promise does. */
  ghost predicate PrepareTurn(w: Window, bal: Ballot, slot: Slot, w': Window, refused: Option<Ballot>, more: seq<C.Report>) {
    var a := View(w, slot);
    if a.Resolved? then w' == w && refused == None && more == [C.Report(slot, a.accepted, a.value)]
    else
      var (a', r) := ReceivePrepare(a, bal);
      && w' == Put(w, slot, a')
      && refused == (if r.PrepareRefused? then Some(r.preempted) else None)
      && more == (if r.Promised? && r.report.Some? then [C.Report(slot, r.report.value.bal, r.report.value.val)] else [])
  }

  /** The sweep ends with a slot that refuses. */
  lemma {:induction false} PrepareStops(w: Window, bal: Ballot, slot: Slot, end: Slot, w': Window,
                                        refused: Option<Ballot>, more: seq<C.Report>)
    requires slot < end && PrepareTurn(w, bal, slot, w', refused, more) && refused.Some?
    ensures PrepareSweep(w, bal, slot, end) == PrepareResult(w', refused, []) && more == []
  {
    hide View, Put;
  }

  lemma {:induction false} PrepareDone(w: Window, bal: Ballot, slot: Slot, end: Slot)
    ensures slot >= end ==> PrepareSweep(w, bal, slot, end) == PrepareResult(w, None, [])
  {
  }

  /** The sweep goes on behind a slot that does not, in a window that is no shorter. */
  lemma {:induction false} PrepareGoesOn(w: Window, bal: Ballot, slot: Slot, end: Slot, w': Window, more: seq<C.Report>)
    requires WindowOk(w) && slot < end && PrepareTurn(w, bal, slot, w', None, more)
    ensures var rest := PrepareSweep(w', bal, slot + 1, end);
            PrepareSweep(w, bal, slot, end) == PrepareResult(rest.window, rest.refused, more + rest.reports)
    ensures End(w') >= End(w)
  {
    hide View, Put, WindowOk;
    PrepareSlotEnd(w, bal, slot);
  }

  lemma {:induction false} PrepareSlotEnd(w: Window, bal: Ballot, slot: Slot)
    requires WindowOk(w)
    ensures !View(w, slot).Resolved? ==> End(Put(w, slot, ReceivePrepare(View(w, slot), bal).0)) >= End(w)
  {
    if !View(w, slot).Resolved? {
      ViewOk(w, slot);
      OperationsGrow(View(w, slot), w.quorum, bal, [], 0);
      PutMeaning(w, slot, ReceivePrepare(View(w, slot), bal).0);
    }
  }

  lemma {:induction false} Regroup<T>(a: seq<T>, b: seq<T>, c: seq<T>)
    ensures a + (b + c) == (a + b) + c
  {
  }

  lemma {:induction false} UnresolvedStep(w: Window, slot: Slot, end: Slot)
    ensures slot >= end ==> Unresolved(w, slot, end) == []
    ensures slot < end ==> Unresolved(w, slot, end) == (if View(w, slot).Resolved? then [] else [slot]) + Unresolved(w, slot + 1, end)
  {
  }

  /** Handing over one more output. */
  lemma {:induction false} HandedMore(peers: set<NodeId>, outs: seq<C.Output>, o: C.Output)
    ensures C.Panics(peers, outs + [o]) <==> C.Panics(peers, outs) || !C.Sendable(peers, o)
    ensures C.Transmitted(peers, outs + [o]) ==
            C.Transmitted(peers, outs) + (if C.Panics(peers, outs) || !C.Sendable(peers, o) then [] else [o])
  {
    hide C.Panics, C.Sendable;
    var all := outs + [o];
    C.PanicsFirst(peers, all);
    if outs == [] {
      assert all[1..] == [];
      C.TransmittedAll(peers, []);
    } else {
      HandedMore(peers, outs[1..], o);
      C.PanicsFirst(peers, outs);
      assert all[1..] == outs[1..] + [o];
    }
  }

  lemma {:induction false} HandedOne(peers: set<NodeId>, o: C.Output)
    ensures C.Panics(peers, [o]) <==> !C.Sendable(peers, o)
    ensures C.Transmitted(peers, [o]) == if C.Sendable(peers, o) then [o] else []
    ensures !C.Panics(peers, []) && C.Transmitted(peers, []) == []
  {
    HandedMore(peers, [], o);
    assert [] + [o] == [o];
  }

  /** Resolving through the reference to an open slot is an access that keeps the window well
      formed. */
  lemma {:induction false} ResolveAccess(w: Window, slot: Slot, bal: Ballot, val: Bytes)
    requires WindowOk(w) && !View(w, slot).Resolved?
    ensures var f := FillOpenSlots(w, slot); var i := slot - w.openMin; var a := Resolve(View(w, slot), bal, val);
            && 0 <= i < |f.open| && f.open[i] == View(w, slot)
            && DropRef(f.(open := f.open[i := a]), i) == Put(w, slot, a) && WindowOk(Put(w, slot, a))
  {
    hide WindowOk, Put, View, FillOpenSlots, DropRef, Resolve, Advances;
    AccessMeaning(w, slot, Resolve(View(w, slot), bal, val));
    AccessAdvances(w, slot, bal, val, 0);
    AdvancesOk(w, Put(w, slot, Resolve(View(w, slot), bal, val)));
  }

  /** Asking an open slot for a promise through its reference is too. */
  lemma {:induction false} PrepareAccess(w: Window, slot: Slot, bal: Ballot)
    requires WindowOk(w) && !View(w, slot).Resolved?
    ensures var f := FillOpenSlots(w, slot); var i := slot - w.openMin; var a := ReceivePrepare(View(w, slot), bal).0;
            && 0 <= i < |f.open| && f.open[i] == View(w, slot)
            && DropRef(f.(open := f.open[i := a]), i) == Put(w, slot, a) && WindowOk(Put(w, slot, a))
  {
    hide WindowOk, Put, View, FillOpenSlots, DropRef, ReceivePrepare, Advances;
    AccessMeaning(w, slot, ReceivePrepare(View(w, slot), bal).0);
    AccessAdvances(w, slot, bal, [], 0);
    AdvancesOk(w, Put(w, slot, ReceivePrepare(View(w, slot), bal).0));
  }

  lemma {:induction false} PlacedSingle(w: Window, bal: Ballot, val: Bytes)
    ensures Place(w, bal, [val]).window == Put(w, NextSlot(w), NoticeValue(View(w, NextSlot(w)), bal, val))
  {
    hide Put, NoticeValue, View, NextSlot;
    assert [val][1..] == [];
  }

  lemma {:induction false} DriveKept(n: NodeState)
    requires WindowOk(n.window) && n.prop.current == n.id && RoleHolds(n.prop)
    ensures WindowOk(DriveAccept(n).node.window) && RoleHolds(DriveAccept(n).node.prop)
  {
    hide WindowOk, DriveAccept, RoleHolds, WindowGrows;
    DriveAdvances(n);
    DriveSound(n, TakeLead);
  }

  class Node {
    const id: NodeId
    const peers: set<NodeId>
    const proposer: Proposer
    const window: SlotWindow
    /** What was handed to the transport. */
    var sent: seq<C.Output>
    var panicked: bool

    ghost function Repr(): set<object>
      reads this, proposer, window
    {
      {this} + proposer.Repr() + window.Repr
    }

    ghost predicate Intact()
      reads this, proposer, window, Repr()
    {
      && this !in proposer.Repr() && this !in window.Repr && proposer.Repr() !! window.Repr
      && proposer.Valid() && proposer.current == id
      && window.Valid() && WindowOk(window.Model())
    }

    ghost predicate Valid()
      reads this, proposer, window, Repr()
    {
      Intact() && RoleHolds(proposer.Model())
    }

    ghost function Model(): NodeState
      requires Intact()
      reads this, proposer, window, Repr()
    {
      NodeState(id, peers, proposer.Model(), window.Model())
    }

    /** The node did what `o` says: its state is the outcome's, and what the outcome sends
        was handed to the transport, up to the first output that panics. */
    ghost predicate Did(o: Outcome, before: seq<C.Output>)
      requires Intact()
      reads this, proposer, window, Repr()
    {
      && Model() == o.node
      && sent == before + C.Transmitted(peers, o.outs)
      && panicked == C.Panics(peers, o.outs)
    }

    constructor (id: NodeId, peers: set<NodeId>)
      requires |peers| >= 2
      ensures Valid() && fresh(Repr()) && Model() == NewNode(id, peers) && sent == [] && !panicked
    {
      this.id, this.peers := id, peers;
      proposer := new Proposer(id, QuorumSize(|peers|));
      window := new SlotWindow(QuorumSize(|peers|));
      sent, panicked := [], false;
      new;
      NewWindowOk(QuorumSize(|peers|));
    }

    /** Hands an output to the transport; looking up a node that is no peer panics, and
        nothing is sent after a panic. */
    method Hand(o: C.Output)
      modifies this
      ensures sent == old(sent) + (if old(panicked) || !C.Sendable(peers, o) then [] else [o])
      ensures panicked == (old(panicked) || !C.Sendable(peers, o))
    {
      if !panicked {
        if o.Send? && o.to !in peers {
          panicked := true;
        } else {
          sent := sent + [o];
        }
      }
    }

    // -------------------------------------------------------------------------
    // Loops over the window
    // -------------------------------------------------------------------------

    /** Puts a value in the next slot. */
    method PlaceNext(bal: Ballot, val: Bytes) returns (slot: Slot)
      requires window.Valid() && WindowOk(window.Model())
      modifies window.Repr
      ensures window.Valid() && fresh(window.Repr - old(window.Repr)) && WindowOk(window.Model())
      ensures var w := old(window.Model());
              && slot == NextSlot(w)
              && window.Model() == Put(w, slot, NoticeValue(View(w, slot), bal, val))
    {
      hide WindowOk, NextSlot, Put, DropRef, FillOpenSlots, NoticeValue, View;
      ghost var w := window.Model();
      NextMeaning(w, NoticeValue(View(w, NextSlot(w)), bal, val));
      AccessAdvances(w, NextSlot(w), bal, val, 0);
      AdvancesOk(w, Put(w, NextSlot(w), NoticeValue(View(w, NextSlot(w)), bal, val)));
      var i := window.NextRef();
      slot := i + window.openMin;
      var previous := window.NoticeAt(i, bal, val);
      window.Drop(i);
    }

    /** Puts each value in the next slot. */
    method PlaceAll(bal: Ballot, vals: seq<Bytes>)
      requires window.Valid() && WindowOk(window.Model())
      modifies window.Repr
      ensures window.Valid() && fresh(window.Repr - old(window.Repr)) && WindowOk(window.Model())
      ensures window.Model() == Place(old(window.Model()), bal, vals).window
    {
      hide WindowOk, NextSlot, Put, NoticeValue, View;
      var k := 0;
      while k < |vals|
        invariant 0 <= k <= |vals|
        invariant window.Valid() && fresh(window.Repr - old(window.Repr)) && WindowOk(window.Model())
        invariant Place(old(window.Model()), bal, vals).window == Place(window.Model(), bal, vals[k..]).window
      {
        assert vals[k..][1..] == vals[k + 1..];
        var slot := PlaceNext(bal, vals[k]);
        k := k + 1;
      }
    }

    /** The reference to an unresolved slot, which is opened if it was not. */
    method OpenRef(slot: Slot) returns (r: Option<nat>)
      requires window.Valid() && WindowOk(window.Model())
      modifies window
      ensures window.Valid() && fresh(window.Repr - old(window.Repr)) && old(window.Repr) <= window.Repr
      ensures var w := old(window.Model());
              && (r.None? <==> View(w, slot).Resolved?)
              && window.Model() == (if r.None? then w else FillOpenSlots(w, slot))
              && (r.Some? ==> r.value == slot - w.openMin && r.value < |window.open| && window.Model().open[r.value] == View(w, slot))
    {
      hide WindowOk, View, FillOpenSlots, Locate;
      ghost var w := window.Model();
      LocateMeaning(w, slot);
      var found := window.SlotMut(slot);
      if found.OpenSlot? {
        AccessMeaning(w, slot, View(w, slot));
        r := Some(found.i);
      } else if found.EmptySlot? {
        AccessMeaning(w, slot, View(w, slot));
        var i := window.Fill(slot);
        r := Some(i);
      } else {
        r := None;
      }
    }

    /** Proposes a value for one slot unless it is resolved. */
    method SweepSlot(bal: Ballot, slot: Slot) returns (more: seq<C.Entry>)
      requires window.Valid() && WindowOk(window.Model())
      modifies window.Repr
      ensures window.Valid() && fresh(window.Repr - old(window.Repr)) && WindowOk(window.Model())
      ensures var w := old(window.Model()); var a := View(w, slot);
              if a.Resolved? then window.Model() == w && more == []
              else window.Model() == Put(w, slot, NoticeValue(a, bal, PickFor(a))) && more == [C.Entry(slot, PickFor(a))]
    {
      hide WindowOk, Put, NoticeValue, View, FillOpenSlots, DropRef, Advances, Promise, Max;
      ghost var w := window.Model();
      more := [];
      var r := OpenRef(slot);
      if r.Some? {
        ghost var a := View(w, slot);
        AccessMeaning(w, slot, NoticeValue(a, bal, PickFor(a)));
        AccessAdvances(w, slot, bal, PickFor(a), 0);
        AdvancesOk(w, Put(w, slot, NoticeValue(a, bal, PickFor(a))));
        var known := window.open[r.value].GetHighestValue();
        var val := if known.Some? then known.value.val else [];
        assert val == PickFor(a);
        var previous := window.NoticeAt(r.value, bal, val);
        window.Drop(r.value);
        more := [C.Entry(slot, val)];
      }
    }

    /** Proposes a value for every unresolved slot of the open range. */
    method SweepOpen(bal: Ballot) returns (batch: seq<C.Entry>)
      requires window.Valid() && WindowOk(window.Model())
      modifies window.Repr
      ensures window.Valid() && fresh(window.Repr - old(window.Repr)) && WindowOk(window.Model())
      ensures var w := old(window.Model()); Sweep(w, bal, w.openMin, End(w)) == SweepResult(window.Model(), batch)
    {
      hide WindowOk, Put, NoticeValue, View, PickFor;
      ghost var w := window.Model();
      var slot, end := window.openMin, window.openMin + |window.open|;
      batch := [];
      while slot < end
        invariant w.openMin <= slot <= end == End(w)
        invariant window.Valid() && fresh(window.Repr - old(window.Repr)) && WindowOk(window.Model())
        invariant var rest := Sweep(window.Model(), bal, slot, end);
                  Sweep(w, bal, w.openMin, end) == SweepResult(rest.window, batch + rest.batch)
      {
        var more := SweepSlot(bal, slot);
        batch := batch + more;
        slot := slot + 1;
      }
    }

    /** Asks one slot for a promise. */
    method PrepareSlot(bal: Ballot, slot: Slot) returns (refused: Option<Ballot>, more: seq<C.Report>)
      requires window.Valid() && WindowOk(window.Model()) && slot < End(window.Model())
      modifies window.Repr
      ensures window.Valid() && fresh(window.Repr - old(window.Repr)) && WindowOk(window.Model())
      ensures PrepareTurn(old(window.Model()), bal, slot, window.Model(), refused, more)
    {
      hide WindowOk, Put, View, FillOpenSlots, DropRef, Locate, ReceivePrepare, Advances, Promise, Max;
      ghost var w := window.Model();
      refused, more := None, [];
      LocateMeaning(w, slot);
      var found := window.SlotMut(slot);
      if found.OpenSlot? {
        PrepareAccess(w, slot, bal);
        var resp := window.PrepareAt(found.i, bal);
        window.Drop(found.i);
        if resp.PrepareRefused? {
          refused := Some(resp.preempted);
        } else if resp.Promised? && resp.report.Some? {
          more := [C.Report(slot, resp.report.value.bal, resp.report.value.val)];
        }
      } else if found.ResolvedSlot? {
        more := [C.Report(slot, found.bal, found.val)];
      }
    }

    /** Asks every slot of the open range for a promise, up to the first that refuses. */
    method PrepareOpen(bal: Ballot) returns (refused: Option<Ballot>, reports: seq<C.Report>)
      requires window.Valid() && WindowOk(window.Model())
      modifies window.Repr
      ensures window.Valid() && fresh(window.Repr - old(window.Repr)) && WindowOk(window.Model())
      ensures var w := old(window.Model());
              PrepareSweep(w, bal, w.openMin, End(w)) == PrepareResult(window.Model(), refused, reports)
    {
      hide WindowOk, PrepareTurn, PrepareSweep;
      ghost var w := window.Model();
      var slot, end := window.openMin, window.openMin + |window.open|;
      refused, reports := None, [];
      while slot < end && refused.None?
        invariant w.openMin <= slot <= end == End(w)
        invariant window.Valid() && fresh(window.Repr - old(window.Repr)) && WindowOk(window.Model())
        invariant refused.None? ==> end <= End(window.Model())
        invariant refused.Some? ==> PrepareSweep(w, bal, w.openMin, end) == PrepareResult(window.Model(), refused, reports)
        invariant var rest := PrepareSweep(window.Model(), bal, slot, end);
                  refused.None? ==>
                    PrepareSweep(w, bal, w.openMin, end) == PrepareResult(rest.window, rest.refused, reports + rest.reports)
      {
        ghost var before := window.Model();
        var more;
        refused, more := PrepareSlot(bal, slot);
        if refused.Some? {
          PrepareStops(before, bal, slot, end, window.Model(), refused, more);
        } else {
          PrepareGoesOn(before, bal, slot, end, window.Model(), more);
          Regroup(reports, more, PrepareSweep(window.Model(), bal, slot + 1, end).reports);
        }
        reports := reports + more;
        slot := slot + 1;
      }
      PrepareDone(window.Model(), bal, slot, end);
      assert reports + [] == reports;
    }

    method NoticeSlot(slot: Slot, bal: Ballot, val: Bytes)
      requires window.Valid() && WindowOk(window.Model())
      modifies window.Repr
      ensures window.Valid() && fresh(window.Repr - old(window.Repr)) && WindowOk(window.Model())
      ensures var w := old(window.Model()); var a := View(w, slot);
              window.Model() == if a.Resolved? then w else Put(w, slot, NoticeValue(a, bal, val))
    {
      hide WindowOk, Put, NoticeValue, View, FillOpenSlots, DropRef, Advances, Promise, Max;
      ghost var w := window.Model();
      var r := OpenRef(slot);
      if r.Some? {
        AccessMeaning(w, slot, NoticeValue(View(w, slot), bal, val));
        AccessAdvances(w, slot, bal, val, 0);
        AdvancesOk(w, Put(w, slot, NoticeValue(View(w, slot), bal, val)));
        var previous := window.NoticeAt(r.value, bal, val);
        window.Drop(r.value);
      }
    }

    /** Takes over what a promise reports. */
    method AbsorbAll(reports: seq<C.Report>)
      requires window.Valid() && WindowOk(window.Model())
      modifies window.Repr
      ensures window.Valid() && fresh(window.Repr - old(window.Repr)) && WindowOk(window.Model())
      ensures window.Model() == Absorb(old(window.Model()), reports)
    {
      hide WindowOk, Put, NoticeValue, View;
      var k := 0;
      while k < |reports|
        invariant 0 <= k <= |reports|
        invariant window.Valid() && fresh(window.Repr - old(window.Repr)) && WindowOk(window.Model())
        invariant Absorb(old(window.Model()), reports) == Absorb(window.Model(), reports[k..])
      {
        assert reports[k..][1..] == reports[k + 1..];
        NoticeSlot(reports[k].slot, reports[k].bal, reports[k].val);
        k := k + 1;
      }
    }

    /** Asks one slot to accept a value, unless it is resolved. */
    method AcceptSlot(slot: Slot, bal: Ballot, val: Bytes) returns (r: Option<AcceptResponse>)
      requires window.Valid() && WindowOk(window.Model())
      modifies window.Repr
      ensures window.Valid() && fresh(window.Repr - old(window.Repr)) && WindowOk(window.Model())
      ensures var w := old(window.Model()); var a := View(w, slot);
              if a.Resolved? then r == None && window.Model() == w
              else r == Some(ReceiveAccept(a, bal, val).1) && window.Model() == Put(w, slot, ReceiveAccept(a, bal, val).0)
    {
      hide WindowOk, Put, ReceiveAccept, View, FillOpenSlots, DropRef, Advances, Promise, Max;
      ghost var w := window.Model();
      r := None;
      var i := OpenRef(slot);
      if i.Some? {
        AccessMeaning(w, slot, ReceiveAccept(View(w, slot), bal, val).0);
        AccessAdvances(w, slot, bal, val, 0);
        AdvancesOk(w, Put(w, slot, ReceiveAccept(View(w, slot), bal, val).0));
        var resp := window.AcceptAt(i.value, bal, val);
        window.Drop(i.value);
        r := Some(resp);
      }
    }

    /** Accepts the entries one by one, up to the first that is resolved or refused. */
    method AcceptAll(bal: Ballot, entries: seq<C.Entry>) returns (end: AcceptEnd, slots: seq<Slot>)
      requires window.Valid() && WindowOk(window.Model())
      modifies window.Repr
      ensures window.Valid() && fresh(window.Repr - old(window.Repr)) && WindowOk(window.Model())
      ensures var r := AcceptLoop(old(window.Model()), id, bal, entries);
              r.window == window.Model() && r.end == end && r.slots == slots
    {
      hide WindowOk, Put, ReceiveAccept, View;
      ghost var w := window.Model();
      end, slots := Finished, [];
      var k := 0;
      while k < |entries|
        invariant 0 <= k <= |entries| && end.Finished?
        invariant window.Valid() && fresh(window.Repr - old(window.Repr)) && WindowOk(window.Model())
        invariant var rest := AcceptLoop(window.Model(), id, bal, entries[k..]); var r := AcceptLoop(w, id, bal, entries);
                  r.window == rest.window && r.end == rest.end && r.slots == slots + rest.slots
      {
        assert entries[k..][1..] == entries[k + 1..];
        var resp := AcceptSlot(entries[k].slot, bal, entries[k].val);
        if resp.None? {
          end := Stopped;
          return;
        } else if resp.value.AcceptRefused? {
          end := RefusedBy(resp.value.preempted);
          return;
        } else if resp.value.Accepted? {
          slots := slots + [entries[k].slot];
        }
        k := k + 1;
      }
    }

    /** Counts one ACCEPTED for an open slot; a slot that was resolved before stops the
        message. */
    method CountSlot(slot: Slot, peer: NodeId, bal: Ballot) returns (stopped: bool, resolution: Option<Pair>)
      requires window.Valid() && WindowOk(window.Model())
      modifies window.Repr
      ensures window.Valid() && fresh(window.Repr - old(window.Repr)) && WindowOk(window.Model())
      ensures var w := old(window.Model()); var a := View(w, slot); var a' := ReceiveAccepted(a, peer, bal);
              && stopped == a.Resolved?
              && window.Model() == (if a.Resolved? || slot >= End(w) then w else Put(w, slot, a'))
              && resolution == (if !a.Resolved? && slot < End(w) && a'.Resolved? then Some(Pair(a'.accepted, a'.value)) else None)
    {
      hide WindowOk, Put, ReceiveAccepted, View, FillOpenSlots, DropRef, Locate, Advances, Promise, Max;
      ghost var w := window.Model();
      stopped, resolution := false, None;
      LocateMeaning(w, slot);
      var found := window.SlotMut(slot);
      if found.OpenSlot? {
        AccessMeaning(w, slot, ReceiveAccepted(View(w, slot), peer, bal));
        AccessAdvances(w, slot, bal, [], peer);
        AdvancesOk(w, Put(w, slot, ReceiveAccepted(View(w, slot), peer, bal)));
        window.CountAt(found.i, peer, bal);
        resolution := window.open[found.i].GetResolution();
        window.Drop(found.i);
      } else if !found.EmptySlot? {
        stopped := true;
      }
    }

    /** Counts an ACCEPTED for each slot, collecting what it resolves. */
    method CountAll(peer: NodeId, bal: Ballot, slots: seq<Slot>) returns (stopped: bool, resolutions: seq<C.Entry>)
      requires window.Valid() && WindowOk(window.Model())
      modifies window.Repr
      ensures window.Valid() && fresh(window.Repr - old(window.Repr)) && WindowOk(window.Model())
      ensures AcceptedLoop(old(window.Model()), peer, bal, slots) == AcceptedResult(window.Model(), stopped, resolutions)
    {
      hide WindowOk, Put, ReceiveAccepted, View;
      ghost var w := window.Model();
      stopped, resolutions := false, [];
      var k := 0;
      while k < |slots|
        invariant 0 <= k <= |slots| && !stopped
        invariant window.Valid() && fresh(window.Repr - old(window.Repr)) && WindowOk(window.Model())
        invariant var rest := AcceptedLoop(window.Model(), peer, bal, slots[k..]);
                  AcceptedLoop(w, peer, bal, slots) == AcceptedResult(rest.window, rest.stopped, resolutions + rest.resolutions)
      {
        assert slots[k..][1..] == slots[k + 1..];
        var resolution;
        stopped, resolution := CountSlot(slots[k], peer, bal);
        if stopped {
          return;
        }
        if resolution.Some? {
          resolutions := resolutions + [C.Entry(slots[k], resolution.value.val)];
        }
        k := k + 1;
      }
    }

    /** Resolves each entry that is not resolved yet. */
    method ResolveEach(bal: Ballot, entries: seq<C.Entry>)
      requires window.Valid() && WindowOk(window.Model())
      modifies window.Repr
      ensures window.Valid() && fresh(window.Repr - old(window.Repr)) && WindowOk(window.Model())
      ensures window.Model() == ResolveAll(old(window.Model()), bal, entries)
    {
      hide WindowOk, Put, Resolve, View;
      var k := 0;
      while k < |entries|
        invariant 0 <= k <= |entries|
        invariant window.Valid() && fresh(window.Repr - old(window.Repr)) && WindowOk(window.Model())
        invariant ResolveAll(old(window.Model()), bal, entries) == ResolveAll(window.Model(), bal, entries[k..])
      {
        assert entries[k..][1..] == entries[k + 1..];
        ResolveSlot(entries[k].slot, bal, entries[k].val);
        k := k + 1;
      }
    }

    method ResolveSlot(slot: Slot, bal: Ballot, val: Bytes)
      requires window.Valid() && WindowOk(window.Model())
      modifies window.Repr
      ensures window.Valid() && fresh(window.Repr - old(window.Repr)) && WindowOk(window.Model())
      ensures var w := old(window.Model()); var a := View(w, slot);
              window.Model() == if a.Resolved? then w else Put(w, slot, Resolve(a, bal, val))
    {
      hide WindowOk, Put, Resolve, View, FillOpenSlots, DropRef, Advances, Promise, Max;
      ghost var w := window.Model();
      var r := OpenRef(slot);
      if r.Some? {
        ResolveAccess(w, slot, bal, val);
        window.ResolveAt(r.value, bal, val);
        window.Drop(r.value);
      }
    }

    /** The slots of the open range that are not resolved. */
    method MissingSlots() returns (slots: seq<Slot>)
      requires window.Valid() && WindowOk(window.Model())
      ensures var w := window.Model(); slots == Unresolved(w, w.openMin, End(w))
    {
      hide WindowOk, View, Locate, Unresolved;
      ghost var w := window.Model();
      slots := [];
      var slot, end := window.openMin, window.openMin + |window.open|;
      while slot < end
        invariant w.openMin <= slot <= end == End(w)
        invariant Unresolved(w, w.openMin, end) == slots + Unresolved(w, slot, end)
      {
        LocateMeaning(w, slot);
        UnresolvedStep(w, slot, end);
        var found := window.SlotMut(slot);
        if !found.ResolvedSlot? {
          slots := slots + [slot];
        }
        slot := slot + 1;
      }
      UnresolvedStep(w, slot, end);
    }

    // -------------------------------------------------------------------------
    // Handlers
    // -------------------------------------------------------------------------

    /** A new leader places its queue and announces a value for every unresolved slot. */
    method DriveAcceptNow()
      requires Valid() && !panicked
      modifies Repr()
      ensures Valid() && fresh(Repr() - old(Repr()))
      ensures Did(DriveAccept(old(Model())), old(sent))
    {
      hide WindowOk, Place, Sweep, OwnVotes, PicksOf, C.Panics, C.Transmitted, C.Sendable;
      DriveKept(Model());
      HandedOne(peers, C.Broadcast(C.Prepare(Ballot(0, id))));
      if !proposer.state.Leader? {
        return;
      }
      var bal := proposer.highest.value;
      assert bal.node == id;
      var vals := proposer.Take();
      PlaceAll(bal, vals);
      var batch := SweepOpen(bal);
      if batch != [] {
        HandedOne(peers, C.Broadcast(C.Accept(bal, batch)));
        Hand(C.Broadcast(C.Accept(bal, batch)));
      }
    }

    /** Only `HandleProposal` calls this with a value queued before any ballot was seen. */
    method Lead()
      requires Intact() && !panicked
      modifies Repr()
      ensures Intact() && fresh(Repr() - old(Repr())) && (old(Valid()) ==> Valid())
      ensures Did(ProposeLeadership(old(Model())), old(sent))
    {
      hide WindowOk;
      if Valid() { LeadSound(Model()); }
      var cmd;
      if proposer.state.Candidate? {
        cmd := C.Prepare(proposer.state.proposal);
      } else if proposer.state.Follower? {
        var bal := proposer.StartCandidacy();
        cmd := C.Prepare(bal);
      } else {
        cmd := C.Accept(proposer.state.proposal, []);
      }
      HandedOne(peers, C.Broadcast(cmd));
      Hand(C.Broadcast(cmd));
    }

    method HandleProposal(val: Bytes)
      requires Valid() && !panicked
      modifies Repr()
      ensures Valid() && fresh(Repr() - old(Repr()))
      ensures Did(OnProposal(old(Model()), val), old(sent))
    {
      hide WindowOk, OwnVotes, NextSlot, Put, View, NoticeValue, C.Panics, C.Transmitted, C.Sendable;
      HandleKept(Model(), Receive(C.Proposal(val)));
      if proposer.state.Follower? && proposer.highest.None? {
        proposer.Push(val);
        Lead();
      } else if proposer.state.Follower? {
        var leader := proposer.highest.value.node;
        HandedOne(peers, C.Send(leader, C.Proposal(val)));
        Hand(C.Send(leader, C.Proposal(val)));
      } else if proposer.state.Candidate? {
        HandedOne(peers, C.Broadcast(C.Proposal(val)));
        proposer.Push(val);
      } else {
        var bal := proposer.state.proposal;
        PlacedSingle(window.Model(), bal, val);
        var slot := PlaceNext(bal, val);
        HandedOne(peers, C.Broadcast(C.Accept(bal, [C.Entry(slot, val)])));
        Hand(C.Broadcast(C.Accept(bal, [C.Entry(slot, val)])));
      }
    }

    method HandlePrepare(bal: Ballot)
      requires Valid() && !panicked
      modifies Repr()
      ensures Valid() && fresh(Repr() - old(Repr()))
      ensures Did(OnPrepare(old(Model()), bal), old(sent))
    {
      hide WindowOk, PrepareSweep, ObserveBallot, RoleHolds, C.Panics, C.Transmitted, C.Sendable;
      HandleKept(Model(), Receive(C.Prepare(bal)));
      proposer.Observe(bal);
      var refused, reports := PrepareOpen(bal);
      var reply := C.Send(bal.node, if refused.Some? then C.Reject(id, bal, refused.value) else C.Promise(id, bal, reports));
      HandedOne(peers, reply);
      Hand(reply);
    }

    method HandlePromise(peer: NodeId, bal: Ballot, reports: seq<C.Report>)
      requires Valid() && !panicked
      modifies Repr()
      ensures Valid() && fresh(Repr() - old(Repr()))
      ensures Did(OnPromise(old(Model()), peer, bal, reports), old(sent))
    {
      hide WindowOk, Absorb, DriveAccept, ReceivePromise, RoleHolds, C.Panics, C.Transmitted, C.Sendable;
      HandedOne(peers, C.Broadcast(C.Prepare(bal)));
      if !proposer.state.Candidate? {
        return;
      }
      CountAndAbsorb(peer, bal, reports);
      DriveAcceptNow();
    }

    /** Counts a promise and takes over what it reports. */
    method CountAndAbsorb(peer: NodeId, bal: Ballot, reports: seq<C.Report>)
      requires Valid()
      modifies Repr()
      ensures Valid() && fresh(Repr() - old(Repr())) && sent == old(sent) && panicked == old(panicked)
      ensures var n := old(Model());
              Model() == n.(prop := ReceivePromise(n.prop, peer, bal), window := Absorb(n.window, reports))
    {
      hide WindowOk, Absorb, ReceivePromise, RoleHolds, CountsPromiseOf, Counts;
      PromiseMeaning(proposer.Model(), peer, bal);
      proposer.Promised(peer, bal);
      AbsorbAll(reports);
    }

    method HandleAccept(bal: Ballot, entries: seq<C.Entry>)
      requires Valid() && !panicked
      modifies Repr()
      ensures Valid() && fresh(Repr() - old(Repr()))
      ensures Did(OnAccept(old(Model()), bal, entries), old(sent))
    {
      hide WindowOk, AcceptLoop, ObserveBallot, RoleHolds, C.Panics, C.Transmitted, C.Sendable;
      HandleKept(Model(), Receive(C.Accept(bal, entries)));
      proposer.Observe(bal);
      var end, slots := AcceptAll(bal, entries);
      HandedOne(peers, C.Broadcast(C.Prepare(bal)));
      if !end.Stopped? {
        var reply := C.Send(bal.node, if end.RefusedBy? then C.Reject(id, bal, end.preempted) else C.Accepted(id, bal, slots));
        HandedOne(peers, reply);
        Hand(reply);
      }
    }

    /** Hands one message after the other to the transport. */
    method SendEach(to: NodeId, cmds: seq<C.Command>)
      requires !panicked
      modifies this
      ensures sent == old(sent) + C.Transmitted(peers, C.SendAll(to, cmds))
      ensures panicked == C.Panics(peers, C.SendAll(to, cmds))
    {
      hide C.Transmitted, C.Panics;
      ghost var outs := C.SendAll(to, cmds);
      HandedOne(peers, C.Broadcast(C.Catchup(0, [])));
      var k := 0;
      while k < |cmds|
        invariant 0 <= k <= |cmds|
        invariant sent == old(sent) + C.Transmitted(peers, outs[..k])
        invariant panicked == C.Panics(peers, outs[..k])
      {
        HandedMore(peers, outs[..k], outs[k]);
        assert outs[..k + 1] == outs[..k] + [outs[k]];
        Hand(C.Send(to, cmds[k]));
        k := k + 1;
      }
      assert outs[..k] == outs;
    }

    /** A follower passes its queue on to the leader it knows. */
    method ForwardQueue()
      requires Valid() && !panicked
      modifies Repr()
      ensures Valid() && fresh(Repr() - old(Repr()))
      ensures Did(Forward(old(Model())), old(sent))
    {
      hide WindowOk, C.Transmitted, C.Panics;
      HandedOne(peers, C.Broadcast(C.Catchup(0, [])));
      if !proposer.state.Follower? || proposer.queue == [] {
        return;
      }
      var vals := proposer.Take();
      if proposer.highest.Some? {
        SendEach(proposer.highest.value.node, C.Proposals(vals));
      }
    }

    method HandleReject(node: NodeId, proposed: Ballot, promised: Ballot)
      requires Valid() && !panicked
      modifies Repr()
      ensures Valid() && fresh(Repr() - old(Repr()))
      ensures Did(OnReject(old(Model()), proposed, promised), old(sent))
    {
      hide WindowOk, Forward, ObserveBallot, RoleHolds;
      ObserveMeaning(proposer.Model(), promised);
      proposer.Rejected(proposed, promised);
      ForwardQueue();
    }

    method HandleAccepted(peer: NodeId, bal: Ballot, slots: seq<Slot>)
      requires Valid() && !panicked
      modifies Repr()
      ensures Valid() && fresh(Repr() - old(Repr()))
      ensures Did(OnAccepted(old(Model()), peer, bal, slots), old(sent))
    {
      hide WindowOk, AcceptedLoop, ObserveBallot, RoleHolds, C.Panics, C.Transmitted, C.Sendable;
      HandleKept(Model(), Receive(C.Accepted(peer, bal, slots)));
      proposer.Observe(bal);
      var stopped, resolutions := CountAll(peer, bal, slots);
      HandedOne(peers, C.Broadcast(C.Resolution(bal, resolutions)));
      if !stopped && resolutions != [] {
        Hand(C.Broadcast(C.Resolution(bal, resolutions)));
      }
    }

    method HandleResolution(bal: Ballot, entries: seq<C.Entry>)
      requires Valid() && !panicked
      modifies Repr()
      ensures Valid() && fresh(Repr() - old(Repr()))
      ensures Did(OnResolution(old(Model()), bal, entries), old(sent))
    {
      hide WindowOk, ResolveAll, ObserveBallot, RoleHolds, Unresolved, C.Panics, C.Transmitted, C.Sendable;
      HandleKept(Model(), Receive(C.Resolution(bal, entries)));
      proposer.Observe(bal);
      ResolveEach(bal, entries);
      HandedOne(peers, C.Broadcast(C.Prepare(bal)));
      if |window.open| > 1 && proposer.highest.Some? {
        var slots := MissingSlots();
        var request := C.Send(proposer.highest.value.node, C.Catchup(id, slots));
        HandedOne(peers, request);
        Hand(request);
      }
    }

    /** Hands over the batch collected so far. */
    method SendBatch(peer: NodeId, bal: Ballot, buf: seq<C.Entry>, ghost before: seq<C.Output>, ghost cmds: seq<C.Command>)
      requires sent == before + C.Transmitted(peers, C.SendAll(peer, cmds)) && panicked == C.Panics(peers, C.SendAll(peer, cmds))
      modifies this
      ensures var all := C.SendAll(peer, cmds + [C.Resolution(bal, buf)]);
              sent == before + C.Transmitted(peers, all) && panicked == C.Panics(peers, all)
    {
      hide C.Transmitted, C.Panics;
      var o := C.Send(peer, C.Resolution(bal, buf));
      HandedMore(peers, C.SendAll(peer, cmds), o);
      assert C.SendAll(peer, cmds + [o.cmd]) == C.SendAll(peer, cmds) + [o];
      Hand(o);
    }

    /** Announces the resolved slots among `slots` in runs of one ballot. */
    method SendBatches(peer: NodeId, slots: seq<Slot>)
      requires !panicked && window.Valid() && WindowOk(window.Model()) && this !in window.Repr
      modifies this
      ensures var outs := C.SendAll(peer, Batches(window.Model(), slots, None, []));
              sent == old(sent) + C.Transmitted(peers, outs) && panicked == C.Panics(peers, outs)
    {
      hide C.Transmitted, C.Panics, WindowOk, View, Locate;
      ghost var w := window.Model();
      ghost var cmds: seq<C.Command> := [];
      var run: Option<Ballot>, buf: seq<C.Entry> := None, [];
      var k := 0;
      HandedOne(peers, C.Broadcast(C.Catchup(0, [])));
      assert C.SendAll(peer, cmds) == [];
      while k < |slots|
        invariant 0 <= k <= |slots|
        invariant window.Valid() && window.Model() == w
        invariant Batches(w, slots, None, []) == cmds + Batches(w, slots[k..], run, buf)
        invariant sent == old(sent) + C.Transmitted(peers, C.SendAll(peer, cmds)) && panicked == C.Panics(peers, C.SendAll(peer, cmds))
      {
        assert slots[k..][1..] == slots[k + 1..];
        LocateMeaning(w, slots[k]);
        var found := window.SlotMut(slots[k]);
        if found.ResolvedSlot? {
          if run.Some? && run.value != found.bal && buf != [] {
            SendBatch(peer, run.value, buf, old(sent), cmds);
            cmds := cmds + [C.Resolution(run.value, buf)];
            buf := [];
            assert [] + [C.Entry(slots[k], found.val)] == [C.Entry(slots[k], found.val)];
          }
          run := Some(found.bal);
          buf := buf + [C.Entry(slots[k], found.val)];
        }
        k := k + 1;
      }
      if buf != [] && run.Some? {
        SendBatch(peer, run.value, buf, old(sent), cmds);
        cmds := cmds + [C.Resolution(run.value, buf)];
      }
      assert cmds == Batches(w, slots, None, []);
    }

    method HandleCatchup(peer: NodeId, slots: seq<Slot>)
      requires Valid() && !panicked
      modifies Repr()
      ensures Valid() && fresh(Repr() - old(Repr()))
      ensures Did(OnCatchup(old(Model()), peer, slots), old(sent))
    {
      hide WindowOk, RoleHolds, Batches, Sort, C.Transmitted, C.Panics;
      HandedOne(peers, C.Broadcast(C.Catchup(0, [])));
      if proposer.state.Leader? {
        SendBatches(peer, Sort(slots));
      }
    }

    /** Dispatches a message to its handler. */
    method Dispatch(cmd: C.Command)
      requires Valid() && !panicked
      modifies Repr()
      ensures Valid() && fresh(Repr() - old(Repr()))
      ensures Did(Handle(old(Model()), Receive(cmd)), old(sent))
    {
      hide Did, WindowOk, RoleHolds, OnProposal, OnPrepare, OnPromise, OnAccept, OnReject, OnAccepted, OnResolution, OnCatchup;
      match cmd {
        case Proposal(val) => HandleProposal(val);
        case Prepare(bal) => HandlePrepare(bal);
        case Promise(peer, bal, reports) => HandlePromise(peer, bal, reports);
        case Accept(bal, entries) => HandleAccept(bal, entries);
        case Reject(node, proposed, promised) => HandleReject(node, proposed, promised);
        case Accepted(peer, bal, slots) => HandleAccepted(peer, bal, slots);
        case Resolution(bal, entries) => HandleResolution(bal, entries);
        case Catchup(peer, slots) => HandleCatchup(peer, slots);
      }
    }
  }
}
