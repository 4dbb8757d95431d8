// The window of open slots as an object (src/window.rs). A reference to an open slot is
// an index; dropping it is an explicit call, because it raises the promise of the window
// and moves decided slots to the log.
module SlotWindows {
  import opened Ballots
  import opened Acceptors
  import opened Windows

  /** What a look at a slot finds. */
  datatype SlotRef = OpenSlot(i: nat) | EmptySlot(slot: Slot) | ResolvedSlot(bal: Ballot, val: Bytes) | Truncated

  /** The case distinction of `slot_mut`. */
  function Locate(w: Window, slot: Slot): SlotRef
    requires w.openMin == |w.decided|
  {
    if slot < w.openMin - |w.decided| then Truncated
    else if slot < w.openMin then ResolvedSlot(w.decided[slot].bal, w.decided[slot].val)
    else if slot < End(w) then
      var a := w.open[slot - w.openMin];
      if a.Resolved? then ResolvedSlot(a.accepted, a.value) else OpenSlot(slot - w.openMin)
    else EmptySlot(slot)
  }

  /** Opening a slot, writing through the reference and dropping it is an access of the
      map. */
  lemma {:induction false} AccessMeaning(w: Window, slot: Slot, a: Acc)
    requires WindowOk(w) && !View(w, slot).Resolved?
    ensures var f := FillOpenSlots(w, slot); var i := slot - w.openMin;
            && 0 <= i < |f.open| && f.open[i] == View(w, slot)
            && DropRef(f.(open := f.open[i := a]), i) == Put(w, slot, a)
  {
    ViewOk(w, slot);
    FillMeaning(w, slot);
  }

  /** A look at a slot tells exactly whether the map holds it resolved, and with what, or
      whether it is open or not opened yet; it never finds it truncated. */
  lemma {:induction false} LocateMeaning(w: Window, slot: Slot)
    requires WindowOk(w)
    ensures var r := Locate(w, slot);
            && !r.Truncated? && (r.ResolvedSlot? <==> View(w, slot).Resolved?)
            && (r.ResolvedSlot? ==> View(w, slot) == Resolved(r.bal, r.val))
            && (r.OpenSlot? ==> r.i == slot - w.openMin && slot < End(w) && FillOpenSlots(w, slot) == w)
            && (r.EmptySlot? ==> slot >= w.openMin && slot >= End(w) && View(w, slot).AwaitValue?)
  {
  }

  /** The next slot is an access of the map too. */
  lemma {:induction false} NextMeaning(w: Window, a: Acc)
    requires WindowOk(w)
    ensures var s := NextSlot(w); var f := FillOpenSlots(w, s); var i := s - w.openMin;
            && i >= 0 && i < |f.open| && f.open[i] == View(w, s) && !View(w, s).Resolved?
            && DropRef(f.(open := f.open[i := a]), i) == Put(w, s, a)
  {
    NextSlotMeaning(w);
    FillMeaning(w, NextSlot(w));
  }

  // ---------------------------------------------------------------------------
  // Ranges of decisions
  // ---------------------------------------------------------------------------

  datatype Bound = Included(slot: Slot) | Excluded(slot: Slot) | Unbounded

  function WalkStart(start: Bound): nat {
    match start
    case Included(s) => s
    case Excluded(s) => s + 1
    case Unbounded => 0
  }

  function WalkEnd(end: Bound, len: nat): nat {
    match end
    case Included(s) => var last := if s > 0 then s - 1 else 0; if last < len then last else len
    case Excluded(s) => if s < len then s else len
    case Unbounded => len
  }

  /** The decisions that the range asks for, of a log of `len`. */
  predicate InRange(len: nat, start: Bound, end: Bound, s: Slot) {
    && s < len
    && (match start
        case Included(b) => b <= s
        case Excluded(b) => b < s
        case Unbounded => true)
    && match end
       case Included(e) => s <= e
       case Excluded(e) => s < e
       case Unbounded => true
  }

  predicate Walked(len: nat, start: Bound, end: Bound, s: Slot) {
    WalkStart(start) <= s < WalkEnd(end, len)
  }

  /** The walk misses decisions of the range if and only if the range ends with an included
      slot that lies in the log, or right behind it, and the range starts in the log and not
      behind that slot. It never yields others. */
  lemma {:induction false} RangeExactly(len: nat, start: Bound, end: Bound)
    ensures forall s: Slot :: Walked(len, start, end, s) ==> InRange(len, start, end, s)
    ensures (forall s: Slot :: InRange(len, start, end, s) ==> Walked(len, start, end, s))
       <==> !(end.Included? && WalkStart(start) <= end.slot <= len && WalkStart(start) < len)
  {
    if end.Included? && WalkStart(start) <= end.slot <= len && WalkStart(start) < len {
      var s := if end.slot < len then end.slot else len - 1;
      assert InRange(len, start, end, s) && !Walked(len, start, end, s);
    }
  }

  // ---------------------------------------------------------------------------
  // The window as an object
  // ---------------------------------------------------------------------------

  class SlotWindow {
    var open: seq<Acceptor>
    var openMin: Slot
    var maxPromised: Option<Ballot>
    var decided: seq<Pair>
    const quorum: nat
    ghost var Repr: set<object>

    /** The window owns the acceptor and its quorum set. */
    ghost predicate Owns(a: Acceptor)
      reads this, a
    {
      a in Repr && a.Valid() && (a.state.AwaitQuorum? ==> a.state.quorum.values in Repr)
    }

    /** No two open slots share anything. */
    ghost predicate Separate()
      reads this, open
    {
      forall i, j :: 0 <= i < j < |open| ==>
        && open[i] != open[j]
        && (open[i].state.AwaitQuorum? && open[j].state.AwaitQuorum? ==> open[i].state.quorum.values != open[j].state.quorum.values)
    }

    ghost predicate Valid()
      reads this, Repr
    {
      && this in Repr && quorum > 1 && openMin == |decided|
      && (forall a :: a in open ==> a in Repr)
      && (forall i :: 0 <= i < |open| ==> Owns(open[i]))
      && Separate()
    }

    ghost function OpenModel(): (r: seq<Acc>)
      requires Valid()
      reads this, Repr
      ensures |r| == |open| && forall i :: 0 <= i < |open| ==> r[i] == open[i].Model()
    {
      seq(|open|, i requires 0 <= i < |open| && open[i] in Repr && Owns(open[i]) reads this, Repr => open[i].Model())
    }

    ghost function Model(): (w: Window)
      requires Valid()
      reads this, Repr
    {
      Window(OpenModel(), openMin, maxPromised, decided, quorum)
    }

    constructor (quorum: nat)
      requires quorum > 1
      ensures Valid() && Model() == NewWindow(quorum) && fresh(Repr)
    {
      var a := new Acceptor(None, quorum);
      open, openMin, maxPromised, decided := [a], 0, None, [];
      this.quorum := quorum;
      Repr := {this, a};
    }

    /** A look at a slot changes nothing. */
    method SlotMut(slot: Slot) returns (r: SlotRef)
      requires Valid()
      ensures r == Locate(Model(), slot)
    {
      var minSlot := openMin - |decided|;
      if slot < minSlot {
        return Truncated;
      } else if slot < openMin {
        return ResolvedSlot(decided[slot].bal, decided[slot].val);
      } else if slot < openMin + |open| {
        var i := slot - openMin;
        var resolution := open[i].GetResolution();
        if resolution.Some? {
          return ResolvedSlot(resolution.value.bal, resolution.value.val);
        }
        return OpenSlot(i);
      } else {
        return EmptySlot(slot);
      }
    }

    method PushAcceptor()
      requires Valid()
      modifies this
      ensures Valid() && fresh(Repr - old(Repr)) && old(Repr) <= Repr
      ensures Model() == old(Model()).(open := old(Model()).open + [AwaitValue(maxPromised, quorum)])
    {
      var a := new Acceptor(maxPromised, quorum);
      open := open + [a];
      Repr := Repr + {a};
    }

    /** Opens every slot up to and including `maxSlot`. */
    method OpenUpTo(maxSlot: Slot)
      requires Valid()
      modifies this
      ensures Valid() && fresh(Repr - old(Repr)) && old(Repr) <= Repr
      ensures Model() == FillOpenSlots(old(Model()), maxSlot)
    {
      if maxSlot < openMin {
        return;
      }
      ghost var w := Model();
      var next := openMin + |open|;
      while next <= maxSlot
        invariant Valid() && fresh(Repr - old(Repr)) && old(Repr) <= Repr
        invariant next == openMin + |open| && |open| >= |w.open|
        invariant next > End(w) ==> next <= maxSlot + 1
        invariant Model() == w.(open := w.open + Fresh(w, |open| - |w.open|))
      {
        PushAcceptor();
        next := next + 1;
      }
    }

    /** The number of resolved slots at the start of the window. */
    method CountResolved() returns (n: nat)
      requires Valid()
      ensures n == ResolvedPrefix(Model().open)
    {
      ghost var accs := OpenModel();
      n := 0;
      while n < |open| && open[n].GetResolution().Some?
        invariant n <= |open|
        invariant ResolvedPrefix(accs) == n + ResolvedPrefix(accs[n..])
      {
        assert accs[n..][1..] == accs[n + 1..];
        n := n + 1;
      }
    }

    /** The decisions of the first `n` slots. */
    method FirstDecisions(n: nat) returns (resolutions: seq<Pair>)
      requires Valid() && n == ResolvedPrefix(Model().open)
      ensures resolutions == Decisions(Model().open)
    {
      ghost var accs := OpenModel();
      DecisionsMeaning(accs);
      hide ResolvedPrefix, Decisions, Separate;
      resolutions := [];
      for i := 0 to n
        invariant |resolutions| == i
        invariant forall j :: 0 <= j < i ==> resolutions[j] == Decisions(accs)[j]
      {
        assert accs[i] == open[i].Model();
        var resolution := open[i].GetResolution();
        resolutions := resolutions + [resolution.value];
      }
    }

    /** Moves the first `n` slots, all resolved, to the log. */
    method Drain(n: nat)
      requires Valid() && n == ResolvedPrefix(Model().open)
      modifies this
      ensures Valid() && Repr == old(Repr)
      ensures var w := old(Model());
              Model() == w.(openMin := w.openMin + n, open := w.open[n..], decided := w.decided + Decisions(w.open))
    {
      hide ResolvedPrefix, Decisions;
      ghost var accs := OpenModel();
      var resolutions := FirstDecisions(n);
      openMin, open, decided := openMin + n, open[n..], decided + resolutions;
      SameModels(old(open)[n..], accs[n..]);
    }

    lemma {:induction false} SameModels(rest: seq<Acceptor>, models: seq<Acc>)
      requires Valid() && open == rest && |models| == |rest|
      requires forall i :: 0 <= i < |rest| ==> rest[i].Model() == models[i]
      ensures OpenModel() == models
    {
    }

    /** Moves the resolved start of the window to the log and keeps one slot open. */
    method MoveDecisions()
      requires Valid()
      modifies this
      ensures Valid() && fresh(Repr - old(Repr)) && old(Repr) <= Repr
      ensures Model() == FillDecisions(old(Model()))
    {
      var n := CountResolved();
      if n > 0 {
        Drain(n);
        OpenUpTo(openMin);
      }
    }

    /** The window promises at least what slot `i` does. */
    method Raise(i: nat)
      requires Valid() && i < |open|
      modifies this`maxPromised
      ensures Valid() && Repr == old(Repr)
      ensures Model() == old(Model()).(maxPromised := Max(old(maxPromised), Promise(old(Model()).open[i])))
    {
      ghost var accs := OpenModel();
      assert accs[i] == open[i].Model();
      var promised := open[i].GetPromised();
      maxPromised := Max(maxPromised, promised);
      SameModels(open, accs);
    }

    /** What dropping the reference to open slot `i` does. */
    method Drop(i: nat)
      requires Valid() && i < |open|
      modifies this
      ensures Valid() && fresh(Repr - old(Repr)) && old(Repr) <= Repr
      ensures Model() == DropRef(old(Model()), i)
    {
      hide FillDecisions, Promise, Max;
      Raise(i);
      MoveDecisions();
    }

    /** Fills an empty slot, which opens all slots before it too. */
    method Fill(slot: Slot) returns (i: nat)
      requires Valid() && slot >= openMin
      modifies this
      ensures Valid() && fresh(Repr - old(Repr)) && old(Repr) <= Repr
      ensures Model() == FillOpenSlots(old(Model()), slot)
      ensures i == slot - openMin && openMin == old(openMin) && i < |open|
    {
      OpenUpTo(slot);
      i := slot - openMin;
    }

    /** The slot for the next value: the last open one while it has no value, else a new
        one. */
    method NextRef() returns (i: nat)
      requires Valid()
      modifies this
      ensures Valid() && fresh(Repr - old(Repr)) && old(Repr) <= Repr
      ensures Model() == FillOpenSlots(old(Model()), NextSlot(old(Model())))
      ensures i == NextSlot(old(Model())) - openMin && openMin == old(openMin) && i < |open|
    {
      if |open| > 0 {
        var known := open[|open| - 1].GetHighestValue();
        if known.None? {
          return |open| - 1;
        }
      }
      i := |open|;
      PushAcceptor();
    }

    // -------------------------------------------------------------------------
    // What is done through the reference to an open slot
    // -------------------------------------------------------------------------

    twostate lemma Through(i: nat)
      requires old(Valid()) && i < |open| && open == old(open)
      requires openMin == old(openMin) && maxPromised == old(maxPromised) && decided == old(decided)
      requires Repr == old(Repr) + open[i].Repr()
      requires open[i].Valid() && fresh(open[i].Repr() - old(open[i].Repr()))
      requires forall j :: 0 <= j < |open| && j != i ==>
                 unchanged(open[j]) && (open[j].state.AwaitQuorum? ==> unchanged(open[j].state.quorum.values))
      ensures Valid() && fresh(Repr - old(Repr))
      ensures Model() == old(Model()).(open := old(Model()).open[i := open[i].Model()])
    {
      SameModels(open, old(Model()).open[i := open[i].Model()]);
    }

    method NoticeAt(i: nat, bal: Ballot, val: Bytes) returns (previous: Option<Pair>)
      requires Valid() && i < |open|
      modifies Repr
      ensures Valid() && fresh(Repr - old(Repr)) && old(Repr) <= Repr && open == old(open)
      ensures var w := old(Model()); Model() == w.(open := w.open[i := NoticeValue(w.open[i], bal, val)])
      ensures previous == Displaced(old(Model()).open[i], bal)
    {
      hide NoticeValue;
      previous := open[i].Notice(bal, val);
      Repr := Repr + open[i].Repr();
      Through(i);
    }

    method PrepareAt(i: nat, bal: Ballot) returns (r: PrepareResponse)
      requires Valid() && i < |open|
      modifies Repr
      ensures Valid() && fresh(Repr - old(Repr)) && old(Repr) <= Repr && open == old(open)
      ensures var w := old(Model()); Model() == w.(open := w.open[i := ReceivePrepare(w.open[i], bal).0])
      ensures r == ReceivePrepare(old(Model()).open[i], bal).1
    {
      hide ReceivePrepare;
      r := open[i].Prepare(bal);
      Repr := Repr + open[i].Repr();
      Through(i);
    }

    method AcceptAt(i: nat, bal: Ballot, val: Bytes) returns (r: AcceptResponse)
      requires Valid() && i < |open|
      modifies Repr
      ensures Valid() && fresh(Repr - old(Repr)) && old(Repr) <= Repr && open == old(open)
      ensures var w := old(Model()); Model() == w.(open := w.open[i := ReceiveAccept(w.open[i], bal, val).0])
      ensures r == ReceiveAccept(old(Model()).open[i], bal, val).1
    {
      hide ReceiveAccept;
      r := open[i].Accept(bal, val);
      Repr := Repr + open[i].Repr();
      Through(i);
    }

    method CountAt(i: nat, peer: NodeId, bal: Ballot)
      requires Valid() && i < |open|
      modifies Repr
      ensures Valid() && fresh(Repr - old(Repr)) && old(Repr) <= Repr && open == old(open)
      ensures var w := old(Model()); Model() == w.(open := w.open[i := ReceiveAccepted(w.open[i], peer, bal)])
    {
      hide ReceiveAccepted;
      open[i].CountAccepted(peer, bal);
      Repr := Repr + open[i].Repr();
      Through(i);
    }

    method ResolveAt(i: nat, bal: Ballot, val: Bytes)
      requires Valid() && i < |open|
      modifies Repr
      ensures Valid() && fresh(Repr - old(Repr)) && old(Repr) <= Repr && open == old(open)
      ensures var w := old(Model()); Model() == w.(open := w.open[i := Resolve(w.open[i], bal, val)])
    {
      hide Resolve;
      open[i].ResolveTo(bal, val);
      Repr := Repr + open[i].Repr();
      Through(i);
    }

    /** A walk over the decisions in a range. */
    method Range(start: Bound, end: Bound) returns (it: DecisionIterator)
      ensures fresh(it) && it.window == this && it.i == WalkStart(start) && it.end == WalkEnd(end, |decided|)
    {
      var i := 0;
      if start.Excluded? {
        i := start.slot + 1;
      } else if start.Included? {
        i := start.slot;
      }
      var len := |decided|;
      var e := len;
      if end.Excluded? && end.slot < len {
        e := end.slot;
      } else if end.Included? && (if end.slot > 0 then end.slot - 1 else 0) < len {
        e := if end.slot > 0 then end.slot - 1 else 0;
      }
      it := new DecisionIterator(this, i, e);
    }
  }

  /** A walk over the log of a window. */
  class DecisionIterator {
    const window: SlotWindow
    const end: nat
    var i: nat

    constructor (window: SlotWindow, i: nat, end: nat)
      ensures this.window == window && this.i == i && this.end == end
    {
      this.window, this.i, this.end := window, i, end;
    }

    method Next() returns (slot: Slot, val: Option<Bytes>)
      requires end <= |window.decided|
      modifies this
      ensures slot == old(i)
      ensures old(i) >= end ==> val == None && i == old(i)
      ensures old(i) < end ==> val == Some(window.decided[old(i)].val) && i == old(i) + 1
    {
      slot := i;
      if i >= end {
        return slot, None;
      }
      val := Some(window.decided[slot].val);
      i := i + 1;
    }
  }
}
