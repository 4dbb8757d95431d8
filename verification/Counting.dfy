// What an ACCEPTED does to the slots of a window.
module Counting {
  import opened Ballots
  import opened Quorums
  import opened Acceptors
  import opened Windows
  import opened WindowChanges
  import opened NodeSteps
  import C = Commands

  /** The ACCEPTED completes the quorum of slot `s`. */
  ghost predicate CompletesAt(w: Window, peer: NodeId, bal: Ballot, s: Slot) {
    Completes(View(w, s), w.quorum, peer, bal)
  }

  /** The `i`-th slot of the message is resolved by then: it was before, or an earlier entry of
      the message resolved it. */
  ghost predicate MeetsResolved(w: Window, peer: NodeId, bal: Ballot, slots: seq<Slot>, i: nat)
    requires i < |slots|
  {
    View(w, slots[i]).Resolved? || (slots[i] in slots[..i] && CompletesAt(w, peer, bal, slots[i]))
  }

  /** The slots whose quorum the message completes, in its order, with the accepted values. */
  ghost function Completed(w: Window, peer: NodeId, bal: Ballot, slots: seq<Slot>): seq<C.Entry> {
    if slots == [] then []
    else (if CompletesAt(w, peer, bal, slots[0]) then [C.Entry(slots[0], View(w, slots[0]).val)] else [])
         + Completed(w, peer, bal, slots[1..])
  }

  /** What counting the peer for the named slots made of slot `t`. */
  ghost predicate CountedAt(w: Window, peer: NodeId, bal: Ballot, slots: seq<Slot>, w': Window, t: Slot) {
    if t in slots && t < End(w) then CountedFor(View(w, t), w.quorum, peer, bal, View(w', t)) else Kept(w, w', t)
  }

  /** The peer was counted for the first `k` slots of the message, where the handler met a
      resolved slot, if it did; no slot was opened and nothing promised. */
  ghost predicate CountedUpTo(w: Window, peer: NodeId, bal: Ballot, slots: seq<Slot>, k: nat, r: AcceptedResult) {
    && k <= |slots| && (r.stopped <==> k < |slots|)
    && (forall i: nat :: i < k ==> !MeetsResolved(w, peer, bal, slots, i))
    && (k < |slots| ==> MeetsResolved(w, peer, bal, slots, k))
    && r.resolutions == Completed(w, peer, bal, slots[..k])
    && Changes(w, r.window, {}, {})
    && forall t: Slot :: CountedAt(w, peer, bal, slots[..k], r.window, t)
  }

  /** After slot `s` was counted, no other slot completes otherwise than before, and slot `s`
      completes no more: it is resolved exactly if it completed. */
  ghost predicate CountedOne(w: Window, peer: NodeId, bal: Ballot, s: Slot, w1: Window) {
    && (View(w1, s).Resolved? <==> CompletesAt(w, peer, bal, s)) && !CompletesAt(w1, peer, bal, s)
    && forall t: Slot :: t != s ==>
         && (View(w1, t).Resolved? <==> View(w, t).Resolved?)
         && (CompletesAt(w1, peer, bal, t) <==> CompletesAt(w, peer, bal, t))
         && (CompletesAt(w, peer, bal, t) ==> View(w1, t).val == View(w, t).val)
  }

  lemma {:induction false} CountSlot(w: Window, peer: NodeId, bal: Ballot, s: Slot)
    requires WindowOk(w) && s < End(w) && !View(w, s).Resolved?
    ensures var a := ReceiveAccepted(View(w, s), peer, bal); var w1 := Put(w, s, a);
            && Changes(w, w1, {}, {}) && CountedFor(View(w, s), w.quorum, peer, bal, View(w1, s))
            && (a.Resolved? <==> CompletesAt(w, peer, bal, s)) && (a.Resolved? ==> a.value == View(w, s).val)
            && forall t: Slot :: t != s ==> Kept(w, w1, t)
  {
    hide Kept;
    var a := ReceiveAccepted(View(w, s), peer, bal);
    ViewOk(w, s);
    OperationsGrow(View(w, s), w.quorum, bal, [], peer);
    CountMeaning(View(w, s), w.quorum, peer, bal);
    PutChanges(w, s, a, {});
    ChangesLess(w, Put(w, s, a), {s}, {}, {}, {});
  }

  lemma {:induction false} CountedSlot(w: Window, peer: NodeId, bal: Ballot, s: Slot, w1: Window)
    requires WindowOk(w) && w1.quorum == w.quorum && !View(w, s).Resolved?
    requires CountedFor(View(w, s), w.quorum, peer, bal, View(w1, s))
    requires forall t: Slot :: t != s ==> Kept(w, w1, t)
    ensures CountedOne(w, peer, bal, s, w1)
  {
    hide View, WindowOk;
    if View(w, s).AwaitQuorum? && View(w1, s).AwaitQuorum? {
      assert Members(View(w, s).quorum) + {peer} + {peer} == Members(View(w, s).quorum) + {peer};
    }
    forall t: Slot | t != s
      ensures View(w1, t).Resolved? <==> View(w, t).Resolved?
      ensures CompletesAt(w1, peer, bal, t) <==> CompletesAt(w, peer, bal, t)
      ensures CompletesAt(w, peer, bal, t) ==> View(w1, t).val == View(w, t).val
    {
      assert Kept(w, w1, t);
    }
  }

  /** A slot that is not open holds no value and is passed over. */
  lemma {:induction false} PassOver(w: Window, peer: NodeId, bal: Ballot, s: Slot)
    requires WindowOk(w) && s >= End(w)
    ensures CountedOne(w, peer, bal, s, w) && !View(w, s).Resolved?
    ensures forall t: Slot :: Kept(w, w, t)
  {
    BeyondEnd(w, s);
    KeptAll(w);
  }

  /** The rest of the message meets the resolved slots it met before. */
  lemma {:induction false} MeetsLater(w: Window, peer: NodeId, bal: Ballot, slots: seq<Slot>, w1: Window, i: nat)
    requires i + 1 < |slots| && !View(w, slots[0]).Resolved? && CountedOne(w, peer, bal, slots[0], w1)
    ensures MeetsResolved(w, peer, bal, slots, i + 1) <==> MeetsResolved(w1, peer, bal, slots[1..], i)
  {
    hide View, CompletesAt;
    var s, rest := slots[0], slots[1..];
    assert slots[i + 1] == rest[i] && slots[..i + 1] == [s] + rest[..i];
  }

  /** Other slots complete as they did before slot `s` was counted. */
  lemma {:induction false} CompletedLater(w: Window, peer: NodeId, bal: Ballot, s: Slot, slots: seq<Slot>, w1: Window)
    requires CountedOne(w, peer, bal, s, w1) && (s in slots ==> !CompletesAt(w, peer, bal, s))
    ensures Completed(w1, peer, bal, slots) == Completed(w, peer, bal, slots)
    decreases |slots|
  {
    hide View, CompletesAt;
    if slots != [] { CompletedLater(w, peer, bal, s, slots[1..], w1); }
  }

  /** What counting the first slot `s` made of slot `t`. */
  ghost predicate FirstAt(w: Window, peer: NodeId, bal: Ballot, s: Slot, w1: Window, t: Slot) {
    if t == s && s < End(w) then CountedFor(View(w, s), w.quorum, peer, bal, View(w1, s)) else Kept(w, w1, t)
  }

  /** Counting the first slot and then the others is counting them all. */
  lemma {:induction false} CountedMore(w: Window, peer: NodeId, bal: Ballot, s: Slot, rest: seq<Slot>, w1: Window, w': Window, t: Slot)
    requires w1.quorum == w.quorum && End(w) <= End(w1) && Precedes(w1.maxPromised, w'.maxPromised)
    requires CountedAt(w1, peer, bal, rest, w', t) && (s in rest ==> !CompletesAt(w, peer, bal, s))
    requires FirstAt(w, peer, bal, s, w1, t)
    ensures CountedAt(w, peer, bal, [s] + rest, w', t)
  {
    hide View;
    assert t in [s] + rest <==> t == s || t in rest;
    if t == s && s < End(w) && s in rest {
      CountedTwice(View(w, s), w.quorum, peer, bal, View(w1, s), View(w', s));
    } else if Kept(w, w1, t) && Kept(w1, w', t) {
      KeptTransitive(w, w1, w', t);
    }
  }

  lemma {:induction false} CountedTwice(a: Acc, size: nat, peer: NodeId, bal: Ballot, b: Acc, c: Acc)
    requires !Completes(a, size, peer, bal) && CountedFor(a, size, peer, bal, b) && CountedFor(b, size, peer, bal, c)
    ensures CountedFor(a, size, peer, bal, c)
  {
    if a.AwaitQuorum? && a.bal == bal {
      assert Members(a.quorum) + {peer} + {peer} == Members(a.quorum) + {peer};
    }
  }

  lemma {:induction false} NothingCounted(w: Window, peer: NodeId, bal: Ballot)
    requires WindowOk(w)
    ensures Changes(w, w, {}, {}) && Completed(w, peer, bal, []) == [] && forall t: Slot :: CountedAt(w, peer, bal, [], w, t)
  {
    hide Kept, WindowOk;
    KeptAll(w);
  }

  /** The window after the handler dealt with the first slot of the message. */
  function FirstCounted(w: Window, peer: NodeId, bal: Ballot, s: Slot): Window {
    if s < End(w) then Put(w, s, ReceiveAccepted(View(w, s), peer, bal)) else w
  }

  lemma {:induction false} FirstStep(w: Window, peer: NodeId, bal: Ballot, s: Slot)
    requires WindowOk(w) && !View(w, s).Resolved?
    ensures var w1 := FirstCounted(w, peer, bal, s);
            && CountedOne(w, peer, bal, s, w1) && Changes(w, w1, {}, {})
            && forall t: Slot :: FirstAt(w, peer, bal, s, w1, t)
  {
    hide View, WindowOk, Kept, CountedFor, CountedOne, Changes, Put, ReceiveAccepted;
    if s < End(w) {
      CountSlot(w, peer, bal, s);
      ChangesFacts(w, FirstCounted(w, peer, bal, s), {}, {});
      CountedSlot(w, peer, bal, s, FirstCounted(w, peer, bal, s));
    } else {
      PassOver(w, peer, bal, s);
      KeptAll(w);
    }
  }

  lemma {:induction false} LoopStep(w: Window, peer: NodeId, bal: Ballot, slots: seq<Slot>)
    requires WindowOk(w) && slots != [] && !View(w, slots[0]).Resolved?
    ensures var s := slots[0]; var r := AcceptedLoop(w, peer, bal, slots);
            var rest := AcceptedLoop(FirstCounted(w, peer, bal, s), peer, bal, slots[1..]);
            && r.window == rest.window && r.stopped == rest.stopped
            && r.resolutions == (if CompletesAt(w, peer, bal, s) then [C.Entry(s, View(w, s).val)] else []) + rest.resolutions
  {
    hide View, WindowOk, Put, ReceiveAccepted, CompletesAt, Kept, CountedFor, Changes, CountedOne;
    var s := slots[0];
    if s < End(w) { CountSlot(w, peer, bal, s); } else { PassOver(w, peer, bal, s); NotCompleting(w, peer, bal, s); }
  }

  lemma {:induction false} NotCompleting(w: Window, peer: NodeId, bal: Ballot, s: Slot)
    requires WindowOk(w) && s >= End(w)
    ensures !CompletesAt(w, peer, bal, s)
  {
    BeyondEnd(w, s);
  }

  /** An ACCEPTED is counted up to the first slot that is resolved by then. Each open slot
      named before it counts the peer if it holds that ballot, whatever it promised since, and
      is resolved exactly if its quorum is complete with that peer. Exactly these slots are
      collected, in the order of the message and with the values accepted there, and no other
      slot changes. */
  lemma {:induction false} CountAnswer(w: Window, peer: NodeId, bal: Ballot, slots: seq<Slot>) returns (k: nat)
    requires WindowOk(w)
    ensures CountedUpTo(w, peer, bal, slots, k, AcceptedLoop(w, peer, bal, slots))
    decreases |slots|
  {
    hide View, WindowOk, Put, ReceiveAccepted, CompletesAt, Kept, Changes, CountedAt, FirstCounted, FirstAt, CountedOne;
    NothingCounted(w, peer, bal);
    k := 0;
    assert slots[..0] == [];
    if slots != [] && !View(w, slots[0]).Resolved? {
      var s, rest := slots[0], slots[1..];
      var w1 := FirstCounted(w, peer, bal, s);
      FirstStep(w, peer, bal, s);
      ChangesFacts(w, w1, {}, {});
      LoopStep(w, peer, bal, slots);
      var j := CountAnswer(w1, peer, bal, rest);
      k := j + 1;
      CountJoin(w, peer, bal, slots, w1, j, AcceptedLoop(w1, peer, bal, rest), AcceptedLoop(w, peer, bal, slots));
    }
  }

  lemma {:induction false} CountJoin(w: Window, peer: NodeId, bal: Ballot, slots: seq<Slot>, w1: Window, j: nat,
                                     r1: AcceptedResult, r: AcceptedResult)
    requires WindowOk(w) && slots != [] && !View(w, slots[0]).Resolved?
    requires CountedOne(w, peer, bal, slots[0], w1) && Changes(w, w1, {}, {})
    requires forall t: Slot :: FirstAt(w, peer, bal, slots[0], w1, t)
    requires CountedUpTo(w1, peer, bal, slots[1..], j, r1)
    requires r == r1.(resolutions := (if CompletesAt(w, peer, bal, slots[0]) then [C.Entry(slots[0], View(w, slots[0]).val)] else [])
                                     + r1.resolutions)
    ensures CountedUpTo(w, peer, bal, slots, j + 1, r)
  {
    hide View, WindowOk, CompletesAt, Kept, Changes, CountedAt, CountedOne, CountedFor, MeetsResolved, FirstAt;
    var s, rest := slots[0], slots[1..];
    ChangesFacts(w, w1, {}, {});
    ChangesFacts(w1, r.window, {}, {});
    ChangesTransitive(w, w1, r.window, {}, {}, {}, {});
    ChangesLess(w, r.window, {} + {}, {} + {}, {}, {});
    forall i: nat | i < |rest|
      ensures MeetsResolved(w, peer, bal, slots, i + 1) <==> MeetsResolved(w1, peer, bal, rest, i)
    {
      MeetsLater(w, peer, bal, slots, w1, i);
    }
    forall i: nat | i < j + 1
      ensures !MeetsResolved(w, peer, bal, slots, i)
    {
      if i == 0 { MeetsAtFirst(w, peer, bal, slots); } else { assert !MeetsResolved(w1, peer, bal, rest, i - 1); }
    }
    NotRepeated(w, peer, bal, slots, j);
    CompletedLater(w, peer, bal, s, rest[..j], w1);
    var all := slots[..j + 1];
    assert all == [s] + rest[..j] && all[1..] == rest[..j];
    forall t: Slot
      ensures CountedAt(w, peer, bal, all, r.window, t)
    {
      CountedMore(w, peer, bal, s, rest[..j], w1, r.window, t);
    }
  }

  lemma {:induction false} MeetsAtFirst(w: Window, peer: NodeId, bal: Ballot, slots: seq<Slot>)
    requires slots != [] && !View(w, slots[0]).Resolved?
    ensures !MeetsResolved(w, peer, bal, slots, 0)
  {
  }

  /** A first slot that completes is not repeated before a resolved one is met. */
  lemma {:induction false} NotRepeated(w: Window, peer: NodeId, bal: Ballot, slots: seq<Slot>, j: nat)
    requires j < |slots| && forall i: nat :: i < j + 1 ==> !MeetsResolved(w, peer, bal, slots, i)
    ensures slots[0] in slots[1..][..j] ==> !CompletesAt(w, peer, bal, slots[0])
  {
    if slots[0] in slots[1..][..j] {
      var i :| 0 <= i < j && slots[1..][i] == slots[0];
      assert !MeetsResolved(w, peer, bal, slots, i + 1);
      assert slots[i + 1] == slots[0] && slots[..i + 1][0] == slots[0];
    }
  }
}
