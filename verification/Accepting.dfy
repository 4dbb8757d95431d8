// What an ACCEPT does to the slots of a window.
module Accepting {
  import opened Ballots
  import opened Acceptors
  import opened Windows
  import opened WindowChanges
  import opened NodeSteps
  import opened Leading
  import C = Commands

  function SlotsOf(entries: seq<C.Entry>): seq<Slot> {
    seq(|entries|, i requires 0 <= i < |entries| => entries[i].slot)
  }

  function SlotSet(entries: seq<C.Entry>): set<Slot> {
    set e | e in entries :: e.slot
  }

  /** The value that the first entry for slot `t` gives, if any names it. */
  function FirstValue(entries: seq<C.Entry>, t: Slot): Option<Bytes> {
    if entries == [] then None
    else if entries[0].slot == t then Some(entries[0].val)
    else FirstValue(entries[1..], t)
  }

  lemma {:induction false} FirstIsEntry(entries: seq<C.Entry>, t: Slot)
    requires FirstValue(entries, t).Some?
    ensures C.Entry(t, FirstValue(entries, t).value) in entries
  {
    if entries[0].slot == t {
      assert C.Entry(t, entries[0].val) == entries[0];
    } else {
      FirstIsEntry(entries[1..], t);
    }
  }

  /** The slot is unresolved and promised nothing above `bal`. */
  predicate Acceptable(w: Window, bal: Ballot, s: Slot) {
    !View(w, s).Resolved? && Precedes(Promise(View(w, s)), Some(bal))
  }

  /** Acceptor `a` becomes `a'` by accepting ballot `bal`: if it holds that ballot already,
      its value and counted peers stay, else it takes over `v`; either way it promises `bal`. */
  ghost predicate Took(a: Acc, size: nat, bal: Ballot, v: Bytes, a': Acc) {
    if HoldsBallot(a, bal) then a' == a.(pledged := bal) else TakesOver(a, size, bal, v, a') && a'.pledged == bal
  }

  /** What the accepted entries did to slot `t`: a named slot took the ballot with the value
      of its first entry, any other slot is as before. */
  ghost predicate TookEntries(w: Window, bal: Ballot, entries: seq<C.Entry>, w': Window, t: Slot) {
    var v := FirstValue(entries, t);
    if v.Some? then Took(View(w, t), w.quorum, bal, v.value, View(w', t)) else Kept(w, w', t)
  }

  /** The handler stops at an entry whose slot is resolved or promised a higher ballot. */
  ghost predicate StopsAt(a: Acc, bal: Ballot, end: AcceptEnd) {
    match end
    case Finished => false
    case Stopped => a.Resolved?
    case RefusedBy(p) => !a.Resolved? && Promise(a) == Some(p) && bal.Less(p)
  }

  function ValueAt(a: Acc): Bytes {
    if a.AwaitQuorum? then a.val else []
  }

  /** A vote for each named slot, for the value that the slot holds. */
  function VotesFor(id: NodeId, bal: Ballot, entries: seq<C.Entry>, w: Window): set<Vote> {
    set e | e in entries :: Vote(id, e.slot, bal, ValueAt(View(w, e.slot)))
  }

  /** The slots an ACCEPT opens: those it was accepted in, and the one that refused it. */
  function Touched(entries: seq<C.Entry>, k: nat, end: AcceptEnd): set<Slot>
    requires k <= |entries|
  {
    SlotSet(entries[..k]) + if k < |entries| && end.RefusedBy? then {entries[k].slot} else {}
  }

  function Raised(bal: Ballot, k: nat): set<Ballot> {
    if k > 0 then {bal} else {}
  }

  /** The first `k` entries are acceptable and were accepted, each with a vote, and the
      handler stopped at the next one, if there is one. */
  ghost predicate AcceptedUpTo(w: Window, id: NodeId, bal: Ballot, entries: seq<C.Entry>, k: nat, r: AcceptResult) {
    && k <= |entries|
    && (forall i :: 0 <= i < k ==> Acceptable(w, bal, entries[i].slot))
    && r.slots == SlotsOf(entries[..k]) && r.votes == VotesFor(id, bal, entries[..k], r.window)
    && Changes(w, r.window, Touched(entries, k, r.end), Raised(bal, k))
    && (forall t: Slot :: TookEntries(w, bal, entries[..k], r.window, t))
    && (if k < |entries| then StopsAt(View(w, entries[k].slot), bal, r.end) else r.end.Finished?)
  }

  /** Accepting in one slot. */
  lemma {:induction false} AcceptOne(w: Window, bal: Ballot, e: C.Entry)
    requires WindowOk(w) && Acceptable(w, bal, e.slot)
    ensures var (a, r) := ReceiveAccept(View(w, e.slot), bal, e.val); var w1 := Put(w, e.slot, a);
            && r.Accepted? && WindowOk(w1) && w1.quorum == w.quorum
            && Took(View(w, e.slot), w.quorum, bal, e.val, a) && View(w1, e.slot) == a
            && a.AwaitQuorum? && a.pledged == bal && a.bal == bal && e.slot < End(w1)
            && Changes(w, w1, {e.slot}, {bal})
            && (forall t: Slot :: t != e.slot ==> Kept(w, w1, t))
  {
    hide Opens, Kept;
    var a := View(w, e.slot);
    var (a', r) := ReceiveAccept(a, bal, e.val);
    ViewOk(w, e.slot);
    AcceptMeaning(a, w.quorum, bal, e.val);
    OperationsGrow(a, w.quorum, bal, e.val, 0);
    var bals := if Precedes(Some(bal), w.maxPromised) then {} else {bal};
    PutChanges(w, e.slot, a', bals);
    ChangesLess(w, Put(w, e.slot, a'), {e.slot}, bals, {e.slot}, {bal});
  }

  /** After one entry, the others are as acceptable as before, and stop the handler alike. */
  lemma {:induction false} AcceptableAfter(w: Window, w1: Window, bal: Ballot, s: Slot, t: Slot)
    requires Rises(w.maxPromised, {bal}, w1.maxPromised)
    requires t != s ==> Kept(w, w1, t)
    requires t == s ==> Acceptable(w, bal, s) && View(w1, s).AwaitQuorum? && View(w1, s).pledged == bal
    ensures Acceptable(w1, bal, t) <==> Acceptable(w, bal, t)
    ensures forall end :: StopsAt(View(w1, t), bal, end) ==> StopsAt(View(w, t), bal, end)
  {
    hide View;
  }

  lemma {:induction false} RisesOnly(w: Window, w1: Window, touched: set<Slot>, bals: set<Ballot>)
    requires Changes(w, w1, touched, bals)
    ensures Rises(w.maxPromised, bals, w1.maxPromised)
  {
  }

  /** A refusal changes no slot. */
  lemma {:induction false} RefusalKeeps(w: Window, bal: Ballot, e: C.Entry)
    requires WindowOk(w) && !View(w, e.slot).Resolved? && !Acceptable(w, bal, e.slot)
    ensures var (a', r) := ReceiveAccept(View(w, e.slot), bal, e.val); var w1 := Put(w, e.slot, a');
            && r.AcceptRefused? && StopsAt(View(w, e.slot), bal, RefusedBy(r.preempted))
            && Changes(w, w1, {e.slot}, {}) && forall t: Slot :: Kept(w, w1, t)
  {
    var a := View(w, e.slot);
    ViewOk(w, e.slot);
    AcceptMeaning(a, w.quorum, bal, e.val);
    PutChanges(w, e.slot, a, {});
    KeptAll(w);
  }

  lemma {:induction false} NothingTaken(w: Window, bal: Ballot, w': Window)
    requires forall t: Slot :: Kept(w, w', t)
    ensures forall t: Slot :: TookEntries(w, bal, [], w', t)
  {
    hide Kept;
  }

  /** Taking the first entry and then the rest is taking them all. */
  lemma {:induction false} TookMore(w: Window, bal: Ballot, e: C.Entry, rest: seq<C.Entry>, w1: Window, w': Window, t: Slot)
    requires End(w1) >= End(w) && w1.quorum == w.quorum && Precedes(w1.maxPromised, w'.maxPromised)
    requires TookEntries(w1, bal, rest, w', t)
    requires t != e.slot ==> Kept(w, w1, t)
    requires t == e.slot ==>
               && Took(View(w, t), w.quorum, bal, e.val, View(w1, t)) && t < End(w1)
               && View(w1, t).AwaitQuorum? && View(w1, t).pledged == bal && View(w1, t).bal == bal
    ensures TookEntries(w, bal, [e] + rest, w', t)
    ensures t == e.slot ==> ValueAt(View(w', t)) == View(w1, t).val
  {
    hide View, TakesOver;
    assert ([e] + rest)[1..] == rest;
    if t == e.slot {
    } else if FirstValue(rest, t).Some? {
      TookLater(w, w1, bal, FirstValue(rest, t).value, w', t);
    } else {
      KeptTransitive(w, w1, w', t);
    }
  }

  lemma {:induction false} TookLater(w: Window, w1: Window, bal: Ballot, v: Bytes, w': Window, t: Slot)
    requires w1.quorum == w.quorum && Kept(w, w1, t) && Took(View(w1, t), w.quorum, bal, v, View(w', t))
    ensures Took(View(w, t), w.quorum, bal, v, View(w', t))
  {
    hide View;
  }

  lemma {:induction false} NoEntries(w: Window, id: NodeId, bal: Ballot)
    ensures SlotsOf([]) == [] && SlotSet([]) == {} && VotesFor(id, bal, [], w) == {}
  {
  }

  /** An ACCEPT message is accepted up to the first entry whose slot is resolved or promised
      a higher ballot: the slots named before it take the ballot with the value of their
      first entry, unless they hold a value at that very ballot, which stays; no other slot
      changes. So it is accepted as a whole exactly when every named slot is unresolved and
      promised nothing higher. */
  lemma {:induction false} AcceptAnswer(w: Window, id: NodeId, bal: Ballot, entries: seq<C.Entry>) returns (k: nat)
    requires WindowOk(w)
    ensures AcceptedUpTo(w, id, bal, entries, k, AcceptLoop(w, id, bal, entries))
    ensures k == |entries| <==> forall e :: e in entries ==> Acceptable(w, bal, e.slot)
    decreases |entries|
  {
    hide WindowOk, View, Put, Took, TookEntries, Kept, Acceptable, ReceiveAccept, StopsAt, Changes, SlotSet, VotesFor, SlotsOf;
    KeptAll(w);
    if entries == [] {
      k := 0;
      NothingTaken(w, bal, w);
      NoEntries(w, id, bal);
      assert Touched(entries, k, Finished) == {};
    } else {
      var e := entries[0];
      if Acceptable(w, bal, e.slot) {
        k := AcceptTail(w, id, bal, entries);
      } else {
        k := 0;
        assert e in entries;
        var r := AcceptLoop(w, id, bal, entries);
        NoEntries(r.window, id, bal);
        assert entries[..0] == [];
        if View(w, e.slot).Resolved? {
          StopsResolved(View(w, e.slot), bal);
          NothingTaken(w, bal, r.window);
          assert Touched(entries, 0, r.end) == {};
        } else {
          RefusalKeeps(w, bal, e);
          NothingTaken(w, bal, r.window);
          assert Touched(entries, 0, r.end) == {e.slot};
        }
      }
    }
  }

  lemma {:induction false} StopsResolved(a: Acc, bal: Ballot)
    requires a.Resolved?
    ensures StopsAt(a, bal, Stopped)
  {
  }

  lemma {:induction false} AcceptTail(w: Window, id: NodeId, bal: Ballot, entries: seq<C.Entry>) returns (k: nat)
    requires WindowOk(w) && entries != [] && Acceptable(w, bal, entries[0].slot)
    ensures AcceptedUpTo(w, id, bal, entries, k, AcceptLoop(w, id, bal, entries))
    ensures k == |entries| <==> forall e :: e in entries ==> Acceptable(w, bal, e.slot)
    decreases |entries|, 0
  {
    hide WindowOk, View, Put, Took, TookEntries, Kept, Acceptable, ReceiveAccept, StopsAt, Changes;
    hide SlotSet, VotesFor, SlotsOf, ValueAt;
    var e, rest := entries[0], entries[1..];
    var a := ReceiveAccept(View(w, e.slot), bal, e.val).0;
    var w1 := Put(w, e.slot, a);
    AcceptOne(w, bal, e);
    NotResolved(w, bal, e.slot);
    var j := AcceptAnswer(w1, id, bal, rest);
    k := j + 1;
    var r := AcceptLoop(w, id, bal, entries);
    assert entries == [e] + rest && entries[..k] == [e] + rest[..j];
    ChangesFacts(w, w1, {e.slot}, {bal});
    ChangesFacts(w1, r.window, Touched(rest, j, r.end), Raised(bal, j));
    forall t: Slot
      ensures Acceptable(w1, bal, t) <==> Acceptable(w, bal, t)
      ensures forall end :: StopsAt(View(w1, t), bal, end) ==> StopsAt(View(w, t), bal, end)
      ensures TookEntries(w, bal, entries[..k], r.window, t)
      ensures t == e.slot ==> ValueAt(View(r.window, t)) == a.val
    {
      RisesOnly(w, w1, {e.slot}, {bal});
      AcceptableAfter(w, w1, bal, e.slot, t);
      TookMore(w, bal, e, rest[..j], w1, r.window, t);
    }
    TailSlots(w, w1, bal, e, rest, j);
    TailSets(id, bal, e, rest[..j], r.window);
    TailTouched(e, rest, j, r.end);
    ChangesTransitive(w, w1, r.window, {e.slot}, {bal}, Touched(rest, j, r.end), Raised(bal, j));
    assert {bal} + Raised(bal, j) == Raised(bal, k);
  }

  lemma {:induction false} NotResolved(w: Window, bal: Ballot, s: Slot)
    requires Acceptable(w, bal, s)
    ensures !View(w, s).Resolved?
  {
  }

  /** Acceptable entries behind an acceptable one. */
  lemma {:induction false} TailSlots(w: Window, w1: Window, bal: Ballot, e: C.Entry, rest: seq<C.Entry>, j: nat)
    requires j <= |rest| && Acceptable(w, bal, e.slot) && forall t: Slot :: Acceptable(w1, bal, t) <==> Acceptable(w, bal, t)
    ensures var all := [e] + rest;
            && ((forall i :: 0 <= i < j ==> Acceptable(w1, bal, rest[i].slot)) ==>
                  forall i :: 0 <= i < j + 1 ==> Acceptable(w, bal, all[i].slot))
            && ((forall x :: x in all ==> Acceptable(w, bal, x.slot)) <==> forall x :: x in rest ==> Acceptable(w1, bal, x.slot))
  {
    hide Acceptable;
    var all := [e] + rest;
    assert forall i :: 0 < i < |all| ==> all[i] == rest[i - 1];
    assert forall x :: x in all <==> x == e || x in rest;
  }

  lemma {:induction false} TailSets(id: NodeId, bal: Ballot, e: C.Entry, rest: seq<C.Entry>, w: Window)
    ensures SlotsOf([e] + rest) == [e.slot] + SlotsOf(rest)
    ensures VotesFor(id, bal, [e] + rest, w) == {Vote(id, e.slot, bal, ValueAt(View(w, e.slot)))} + VotesFor(id, bal, rest, w)
  {
    hide View, ValueAt;
    assert forall x :: x in [e] + rest <==> x == e || x in rest;
  }

  lemma {:induction false} TailTouched(e: C.Entry, rest: seq<C.Entry>, j: nat, end: AcceptEnd)
    requires j <= |rest|
    ensures Touched([e] + rest, j + 1, end) == {e.slot} + Touched(rest, j, end)
  {
    var all := [e] + rest;
    assert all[..j + 1] == [e] + rest[..j];
    assert forall x :: x in all[..j + 1] <==> x == e || x in rest[..j];
    assert j < |rest| ==> all[j + 1] == rest[j];
  }
}
