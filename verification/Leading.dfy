// What a leader proposes when it is elected, as functions of its window.
module Leading {
  import opened Ballots
  import opened Acceptors
  import opened Windows
  import opened Proposers
  import opened NodeSteps
  import C = Commands

  /** A slot whose accepted ballot is `bal`. */
  ghost predicate HoldsBallot(a: Acc, bal: Ballot) {
    a.AwaitQuorum? && a.bal == bal
  }

  /** A slot that took over ballot `bal` with value `v`. */
  ghost predicate Holds(a: Acc, bal: Ballot, v: Bytes) {
    HoldsBallot(a, bal) && a.val == v
  }

  /** Placing a value extends or fills the end of the window by exactly one slot. */
  lemma {:induction false} PlaceOne(w: Window, bal: Ballot, v: Bytes)
    requires WindowOk(w)
    ensures var s := NextSlot(w); var w' := Put(w, s, NoticeValue(View(w, s), bal, v));
            && WindowOk(w') && w'.decided == w.decided && w'.quorum == w.quorum
            && End(w') == s + 1 && NextSlot(w') == s + 1
            && Holds(View(w', s), bal, v)
            && (forall t: Slot :: t < s ==> View(w', t) == View(w, t))
  {
    var s := NextSlot(w);
    NextSlotMeaning(w);
    ViewOk(w, s);
    OperationsGrow(View(w, s), w.quorum, bal, v, 0);
    PutMeaning(w, s, NoticeValue(View(w, s), bal, v));
    var w' := Put(w, s, NoticeValue(View(w, s), bal, v));
    assert View(w', s) == w'.open[s - w'.openMin];
  }

  /** Queued values take consecutive slots from the next slot on, in queue order, and
      nothing else changes. */
  lemma {:induction false} PlaceMeaning(w: Window, bal: Ballot, vals: seq<Bytes>)
    requires WindowOk(w)
    ensures var r := Place(w, bal, vals);
            && WindowOk(r.window) && r.window.decided == w.decided && r.window.quorum == w.quorum
            && |r.placed| == |vals|
            && End(r.window) == (if vals == [] then End(w) else NextSlot(w) + |vals|)
            && (forall i :: 0 <= i < |vals| ==> r.placed[i] == Pick(bal, NextSlot(w) + i, vals[i]))
            && (forall i :: 0 <= i < |vals| ==> Holds(View(r.window, NextSlot(w) + i), bal, vals[i]))
            && (forall t: Slot :: t < NextSlot(w) ==> View(r.window, t) == View(w, t))
    decreases |vals|
  {
    hide WindowOk, Put, View, NextSlot;
    if vals != [] {
      var s := NextSlot(w);
      var w' := Put(w, s, NoticeValue(View(w, s), bal, vals[0]));
      PlaceOne(w, bal, vals[0]);
      PlaceMeaning(w', bal, vals[1..]);
      var r := Place(w, bal, vals);
      forall i | 0 <= i < |vals|
        ensures r.placed[i] == Pick(bal, s + i, vals[i]) && Holds(View(r.window, s + i), bal, vals[i])
      {
        if i > 0 { assert vals[i] == vals[1..][i - 1]; }
      }
    }
  }

  /** Proposing for one slot changes that slot only. */
  lemma {:induction false} SweepOne(w: Window, bal: Ballot, s: Slot)
    requires WindowOk(w) && w.openMin <= s < End(w) && !View(w, s).Resolved?
    ensures var a := NoticeValue(View(w, s), bal, PickFor(View(w, s))); var w' := Put(w, s, a);
            && WindowOk(w') && w'.decided == w.decided && w'.quorum == w.quorum && End(w') == End(w) && w'.openMin == w.openMin
            && View(w', s) == a && !a.Resolved?
            && (forall t: Slot :: t != s && t < End(w) ==> View(w', t) == View(w, t))
  {
    var a := NoticeValue(View(w, s), bal, PickFor(View(w, s)));
    ViewOk(w, s);
    OperationsGrow(View(w, s), w.quorum, bal, PickFor(View(w, s)), 0);
    PutMeaning(w, s, a);
  }

  ghost predicate InBatch(w: Window, slot: Slot, end: Slot, e: C.Entry) {
    slot <= e.slot < end && !View(w, e.slot).Resolved? && e.val == PickFor(View(w, e.slot))
  }

  /** The batch lists, in increasing order, exactly the unresolved slots of the range,
      each with the value of its highest known ballot, else the empty value; and each of
      them has noticed that value at ballot `bal`. */
  lemma {:induction false} SweepMeaning(w: Window, bal: Ballot, slot: Slot, end: Slot)
    requires WindowOk(w) && w.openMin <= slot && end <= End(w)
    ensures var r := Sweep(w, bal, slot, end);
            && WindowOk(r.window) && r.window.decided == w.decided && r.window.quorum == w.quorum && End(r.window) == End(w)
            && (forall t: Slot :: slot <= t < end && !View(w, t).Resolved? ==>
                  View(r.window, t) == NoticeValue(View(w, t), bal, PickFor(View(w, t))))
            && (forall t: Slot :: t < End(w) && (t < slot || end <= t || View(w, t).Resolved?) ==> View(r.window, t) == View(w, t))
            && (forall i :: 0 <= i < |r.batch| ==> InBatch(w, slot, end, r.batch[i]))
            && (forall i, j :: 0 <= i < j < |r.batch| ==> r.batch[i].slot < r.batch[j].slot)
            && (forall t: Slot :: slot <= t < end && !View(w, t).Resolved? ==> C.Entry(t, PickFor(View(w, t))) in r.batch)
    decreases end - slot
  {
    hide WindowOk, Put, NoticeValue, PickFor, View;
    if slot < end {
      var a := View(w, slot);
      if a.Resolved? {
        SweepMeaning(w, bal, slot + 1, end);
      } else {
        var w' := Put(w, slot, NoticeValue(a, bal, PickFor(a)));
        SweepOne(w, bal, slot);
        SweepMeaning(w', bal, slot + 1, end);
        SweepJoin(w, bal, slot, end, w', Sweep(w', bal, slot + 1, end));
      }
    }
  }

  lemma {:induction false} SweepJoin(w: Window, bal: Ballot, slot: Slot, end: Slot, w': Window, rest: SweepResult)
    requires slot < end <= End(w) && !View(w, slot).Resolved?
    requires forall t: Slot :: t != slot && t < End(w) ==> View(w', t) == View(w, t)
    requires forall i :: 0 <= i < |rest.batch| ==> InBatch(w', slot + 1, end, rest.batch[i])
    requires forall i, j :: 0 <= i < j < |rest.batch| ==> rest.batch[i].slot < rest.batch[j].slot
    requires forall t: Slot :: slot + 1 <= t < end && !View(w', t).Resolved? ==> C.Entry(t, PickFor(View(w', t))) in rest.batch
    ensures var batch := [C.Entry(slot, PickFor(View(w, slot)))] + rest.batch;
            && (forall i :: 0 <= i < |batch| ==> InBatch(w, slot, end, batch[i]))
            && (forall i, j :: 0 <= i < j < |batch| ==> batch[i].slot < batch[j].slot)
            && (forall t: Slot :: slot <= t < end && !View(w, t).Resolved? ==> C.Entry(t, PickFor(View(w, t))) in batch)
  {
    hide PickFor, View;
    var batch := [C.Entry(slot, PickFor(View(w, slot)))] + rest.batch;
    forall t: Slot | slot <= t < end && !View(w, t).Resolved?
      ensures C.Entry(t, PickFor(View(w, t))) in batch
    {
      if t > slot { assert C.Entry(t, PickFor(View(w', t))) in rest.batch; }
    }
    forall i, j | 0 <= i < j < |batch|
      ensures batch[i].slot < batch[j].slot
    {
      assert InBatch(w', slot + 1, end, rest.batch[j - 1]);
    }
    forall i | 0 <= i < |batch|
      ensures InBatch(w, slot, end, batch[i])
    {
      if i > 0 { assert InBatch(w', slot + 1, end, rest.batch[i - 1]); }
    }
  }

  /** Every placed value is in the batch. */
  lemma {:induction false} PlacedEntry(w: Window, b: Ballot, vals: seq<Bytes>, k: Pick)
    requires WindowOk(w) && k in Place(w, b, vals).placed
    ensures var p := Place(w, b, vals);
            k.bal == b && C.Entry(k.slot, k.val) in Sweep(p.window, b, p.window.openMin, End(p.window)).batch
  {
    hide WindowOk, Put, View, PickFor, NextSlot, NoticeValue, Place, Sweep;
    var p := Place(w, b, vals);
    PlaceMeaning(w, b, vals);
    SameStart(w, p.window);
    SweepMeaning(p.window, b, p.window.openMin, End(p.window));
    NextSlotMeaning(w);
    var i :| 0 <= i < |p.placed| && p.placed[i] == k;
    HeldPick(View(p.window, NextSlot(w) + i), b, vals[i]);
  }

  lemma {:induction false} HeldPick(a: Acc, b: Ballot, v: Bytes)
    requires Holds(a, b, v)
    ensures PickFor(a) == v && !a.Resolved?
  {
  }

  /** The value an acceptor holds, else the empty one. */
  ghost function OwnPick(a: Acc): Bytes {
    if a.AwaitQuorum? then a.val else []
  }

  /** What the leader knows of an unresolved slot `t` once its queue is placed: a queued value
      in the trailing slots, else what its window held. */
  ghost function Planned(n: NodeState, t: Slot): Bytes {
    var first := FreeSlot(n.window);
    if first <= t < first + |n.prop.queue| then n.prop.queue[t - first] else OwnPick(View(n.window, t))
  }

  /** The slots a new leader proposes for: those unresolved up to the end of the window
      once the queue is placed. */
  ghost predicate ToPropose(n: NodeState, t: Slot) {
    && n.window.openMin <= t < (if n.prop.queue == [] then End(n.window) else FreeSlot(n.window) + |n.prop.queue|)
    && !View(n.window, t).Resolved?
  }

  /** The batch of a new leader: it announces one ACCEPT with its ballot, which lists in
      increasing order exactly the unresolved slots of its window extended by its queue;
      each slot gets the value of the highest ballot the leader knows there, else a queued
      value, queued values filling consecutive trailing slots in queue order, else the
      empty value. Its queue is empty afterwards, and its own acceptors hold at least its
      ballot in every slot of the batch. */
  lemma {:induction false} BatchMeaning(n: NodeState)
    requires WindowOk(n.window) && n.prop.state.Leader? && n.prop.highest.Some?
    ensures var o := DriveAccept(n); var b := n.prop.highest.value;
            && o.node.prop.queue == []
            && |o.outs| == 1 && o.outs[0].Broadcast? && o.outs[0].cmd.Accept? && o.outs[0].cmd.bal == b
            && var batch := o.outs[0].cmd.entries;
               && o.picks == PicksOf(b, batch)
               && (forall i, j :: 0 <= i < j < |batch| ==> batch[i].slot < batch[j].slot)
               && (forall e :: e in batch ==> ToPropose(n, e.slot) && e.val == Planned(n, e.slot))
               && (forall t: Slot :: ToPropose(n, t) ==> C.Entry(t, Planned(n, t)) in batch)
               && (forall e :: e in batch ==> Remembers(View(o.node.window, e.slot), b))
  {
    hide WindowOk, Put, NoticeValue, View, PickFor, NextSlot, FreeSlot, Planned, ToPropose;
    NextSlotMeaning(n.window);
    var b := n.prop.highest.value;
    var p := Place(n.window, b, n.prop.queue);
    PlaceMeaning(n.window, b, n.prop.queue);
    SameStart(n.window, p.window);
    var r := Sweep(p.window, b, p.window.openMin, End(p.window));
    SweepMeaning(p.window, b, p.window.openMin, End(p.window));
    forall t: Slot | n.window.openMin <= t < End(p.window)
      ensures ToPropose(n, t) <==> !View(p.window, t).Resolved?
      ensures ToPropose(n, t) ==> PickFor(View(p.window, t)) == Planned(n, t)
    {
      PlannedPick(n, p, t);
    }
    FirstUnresolved(p.window);
    assert C.Entry(p.window.openMin, PickFor(View(p.window, p.window.openMin))) in r.batch;
    forall e | e in r.batch
      ensures ToPropose(n, e.slot) && e.val == Planned(n, e.slot) && Remembers(View(r.window, e.slot), b)
    {
      var i :| 0 <= i < |r.batch| && r.batch[i] == e;
      assert InBatch(p.window, p.window.openMin, End(p.window), r.batch[i]);
      NoticedRemembers(View(p.window, e.slot), b);
    }
    forall t: Slot | ToPropose(n, t)
      ensures C.Entry(t, Planned(n, t)) in r.batch
    {
      ToProposeInRange(n, t);
    }
  }

  lemma {:induction false} ToProposeInRange(n: NodeState, t: Slot)
    requires ToPropose(n, t)
    ensures n.window.openMin <= t < (if n.prop.queue == [] then End(n.window) else FreeSlot(n.window) + |n.prop.queue|)
  {
  }

  lemma {:induction false} NoticedRemembers(a: Acc, b: Ballot)
    requires !a.Resolved?
    ensures Remembers(NoticeValue(a, b, PickFor(a)), b)
  {
  }

  lemma {:induction false} FirstUnresolved(w: Window)
    requires WindowOk(w)
    ensures !View(w, w.openMin).Resolved? && w.openMin < End(w)
  {
    ViewOk(w, w.openMin);
  }

  lemma {:induction false} SameStart(w: Window, w': Window)
    requires WindowOk(w) && WindowOk(w') && w'.decided == w.decided
    ensures w'.openMin == w.openMin
  {
  }

  lemma {:induction false} PlannedPick(n: NodeState, p: PlaceResult, t: Slot)
    requires WindowOk(n.window) && n.prop.highest.Some?
    requires var first := NextSlot(n.window); var vals := n.prop.queue; var b := n.prop.highest.value;
             && End(p.window) == (if vals == [] then End(n.window) else first + |vals|)
             && (forall i :: 0 <= i < |vals| ==> Holds(View(p.window, first + i), b, vals[i]))
             && (forall t: Slot :: t < first ==> View(p.window, t) == View(n.window, t))
             && (vals == [] ==> p.window == n.window)
    requires n.window.openMin <= t < End(p.window)
    ensures ToPropose(n, t) <==> !View(p.window, t).Resolved?
    ensures ToPropose(n, t) ==> PickFor(View(p.window, t)) == Planned(n, t)
  {
    hide WindowOk;
    NextSlotMeaning(n.window);
    var first := NextSlot(n.window);
    if first <= t && n.prop.queue != [] {
      assert Holds(View(p.window, first + (t - first)), n.prop.highest.value, n.prop.queue[t - first]);
      NoValueFrom(n.window, t);
    }
  }

  lemma {:induction false} NoValueFrom(w: Window, t: Slot)
    requires WindowOk(w) && NextSlot(w) <= t
    ensures View(w, t).AwaitValue?
  {
    NextSlotMeaning(w);
    if t > NextSlot(w) { ViewOk(w, t); }
  }

  // ---------------------------------------------------------------------------
  // What the reports contribute
  // ---------------------------------------------------------------------------

  /** `p` is the pair of highest ballot among the acceptor's own and those reported for
      the slot, if there is any. */
  ghost predicate HighestKnown(own: Option<Pair>, reports: seq<C.Report>, s: Slot, p: Option<Pair>) {
    && (p.None? ==> own.None? && forall r :: r in reports ==> r.slot != s)
    && (p.Some? ==>
          && (p == own || exists r :: r in reports && r.slot == s && p.value == Pair(r.bal, r.val))
          && (own.Some? ==> own.value.bal.AtMost(p.value.bal))
          && forall r :: r in reports && r.slot == s ==> r.bal.AtMost(p.value.bal))
  }

  lemma {:induction false} AbsorbOne(w: Window, r: C.Report)
    requires WindowOk(w) && !View(w, r.slot).Resolved?
    ensures var w' := Put(w, r.slot, NoticeValue(View(w, r.slot), r.bal, r.val));
            && WindowOk(w') && View(w', r.slot) == NoticeValue(View(w, r.slot), r.bal, r.val) && !View(w', r.slot).Resolved?
            && forall s: Slot :: s != r.slot ==>
                 HighestValue(View(w', s)) == HighestValue(View(w, s)) && View(w', s).Resolved? == View(w, s).Resolved?
  {
    ViewOk(w, r.slot);
    OperationsGrow(View(w, r.slot), w.quorum, r.bal, r.val, 0);
    PutMeaning(w, r.slot, NoticeValue(View(w, r.slot), r.bal, r.val));
  }

  lemma {:induction false} KnownStep(own: Option<Pair>, own': Option<Pair>, r: C.Report, rest: seq<C.Report>,
                                     s: Slot, p: Option<Pair>)
    requires HighestKnown(own', rest, s, p)
    requires own' == if r.slot != s || (own.Some? && !own.value.bal.Less(r.bal)) then own else Some(Pair(r.bal, r.val))
    ensures HighestKnown(own, [r] + rest, s, p)
  {
    var all := [r] + rest;
    assert all[0] == r && forall x :: x in rest ==> x in all;
  }

  /** After the reports of a promise, every unresolved slot holds the pair of highest
      ballot among its own and the reported ones; resolved slots stay. */
  lemma {:induction false} AbsorbMeaning(w: Window, reports: seq<C.Report>, s: Slot)
    requires WindowOk(w)
    ensures WindowOk(Absorb(w, reports)) && View(Absorb(w, reports), s).Resolved? == View(w, s).Resolved?
    ensures !View(w, s).Resolved? ==> HighestKnown(HighestValue(View(w, s)), reports, s, HighestValue(View(Absorb(w, reports), s)))
    decreases |reports|
  {
    hide WindowOk, View, Put, HighestKnown;
    if reports == [] {
      KnownNothing(HighestValue(View(w, s)), s);
    } else {
      var r := reports[0];
      var a := View(w, r.slot);
      var w' := if a.Resolved? then w else Put(w, r.slot, NoticeValue(a, r.bal, r.val));
      if !a.Resolved? { AbsorbOne(w, r); }
      AbsorbMeaning(w', reports[1..], s);
      if !View(w, s).Resolved? {
        assert reports == [r] + reports[1..];
        KnownStep(HighestValue(View(w, s)), HighestValue(View(w', s)), r, reports[1..], s, HighestValue(View(Absorb(w, reports), s)));
      }
    }
  }

  lemma {:induction false} KnownNothing(own: Option<Pair>, s: Slot)
    ensures HighestKnown(own, [], s, own)
  {
  }

  /** The batch of the promise that wins an election: the leader announces one ACCEPT with
      its ballot, for exactly the unresolved slots of its window once the reports are taken
      over and its queue is placed behind them; where it or a report knows a value, the one
      of highest ballot is proposed. */
  lemma {:induction false} ElectionBatch(n: NodeState, peer: NodeId, bal: Ballot, reports: seq<C.Report>)
    requires WindowOk(n.window) && RoleHolds(n.prop) && Wins(n.prop, peer, bal)
    ensures var o := Handle(n, Receive(C.Promise(peer, bal, reports))); var m := n.(window := Absorb(n.window, reports));
            && o.node.prop.state == Leader(bal) && o.node.prop.queue == []
            && |o.outs| == 1 && o.outs[0].Broadcast? && o.outs[0].cmd.Accept? && Some(o.outs[0].cmd.bal) == n.prop.highest
            && var batch := o.outs[0].cmd.entries;
               && (forall i, j :: 0 <= i < j < |batch| ==> batch[i].slot < batch[j].slot)
               && (forall e :: e in batch ==> ToPropose(m, e.slot) && e.val == Planned(m, e.slot))
               && (forall t: Slot :: ToPropose(m, t) ==> C.Entry(t, Planned(m, t)) in batch)
               && (forall e, p :: e in batch && HighestKnown(HighestValue(View(n.window, e.slot)), reports, e.slot, Some(p)) ==>
                     HighestValue(View(m.window, e.slot)).Some? && HighestValue(View(m.window, e.slot)).value.bal == p.bal
                     && e.val == HighestValue(View(m.window, e.slot)).value.val)
  {
    hide WindowOk, View, DriveAccept, Absorb, ToPropose, Planned, HighestKnown, ReceivePromise, RoleHolds;
    var m := n.(window := Absorb(n.window, reports));
    WinsLeads(n.prop, peer, bal);
    var lead := m.(prop := ReceivePromise(n.prop, peer, bal));
    AbsorbMeaning(n.window, reports, 0);
    BatchMeaning(lead);
    KeepsRole(lead);
    forall t: Slot
      ensures ToPropose(lead, t) <==> ToPropose(m, t)
      ensures Planned(lead, t) == Planned(m, t)
    {
      SamePlan(lead, m, t);
    }
    var o := DriveAccept(lead);
    forall e, p | e in o.outs[0].cmd.entries && HighestKnown(HighestValue(View(n.window, e.slot)), reports, e.slot, Some(p))
      ensures HighestValue(View(m.window, e.slot)).Some? && HighestValue(View(m.window, e.slot)).value.bal == p.bal
              && e.val == HighestValue(View(m.window, e.slot)).value.val
    {
      AbsorbMeaning(n.window, reports, e.slot);
      PlannedKnown(m, e.slot);
      KnownUnique(HighestValue(View(n.window, e.slot)), reports, e.slot, Some(p), HighestValue(View(m.window, e.slot)));
    }
  }

  lemma {:induction false} WinsLeads(p: Prop, peer: NodeId, bal: Ballot)
    requires RoleHolds(p) && Wins(p, peer, bal)
    ensures ReceivePromise(p, peer, bal) == p.(state := Leader(bal)) && p.highest.Some?
  {
    PromiseMeaning(p, peer, bal);
  }

  lemma {:induction false} KeepsRole(n: NodeState)
    ensures DriveAccept(n).node.prop.state == n.prop.state
  {
  }

  lemma {:induction false} SamePlan(x: NodeState, y: NodeState, t: Slot)
    requires x.window == y.window && x.prop.queue == y.prop.queue
    ensures ToPropose(x, t) <==> ToPropose(y, t)
    ensures Planned(x, t) == Planned(y, t)
  {
  }

  lemma {:induction false} PlannedKnown(n: NodeState, t: Slot)
    requires WindowOk(n.window) && ToPropose(n, t)
    ensures !View(n.window, t).Resolved?
    ensures HighestValue(View(n.window, t)).Some? ==> Planned(n, t) == HighestValue(View(n.window, t)).value.val
  {
    if NextSlot(n.window) <= t { NoValueFrom(n.window, t); }
  }

  lemma {:induction false} KnownUnique(own: Option<Pair>, reports: seq<C.Report>, s: Slot, p: Option<Pair>, q: Option<Pair>)
    requires HighestKnown(own, reports, s, p) && HighestKnown(own, reports, s, q) && p.Some?
    ensures q.Some? && q.value.bal == p.value.bal
  {
  }
}
