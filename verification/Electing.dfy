// What the promises of its candidacy and the election do to the slots of a leader.
module Electing {
  import opened Ballots
  import opened Acceptors
  import opened Windows
  import opened WindowChanges
  import opened NodeSteps
  import opened Leading
  import C = Commands

  /** What slot `t` was when the handler came to it: as it was before, or, if it was not open,
      bound by at least what bound it and at most what the window promises now. */
  ghost predicate Found(w: Window, w': Window, t: Slot, a: Acc) {
    if t < End(w) then a == View(w, t)
    else a.AwaitValue? && a.size == w.quorum && Precedes(w.maxPromised, a.promised) && Precedes(a.promised, w'.maxPromised)
  }

  lemma {:induction false} FoundEarlier(u: Window, v: Window, w: Window, t: Slot, a: Acc)
    requires Kept(u, v, t) && Found(v, w, t, a) && Precedes(v.maxPromised, w.maxPromised) && u.quorum == v.quorum
    requires End(u) <= End(v) && Precedes(u.maxPromised, v.maxPromised)
    ensures Found(u, w, t, a)
  {
    hide View;
  }

  /** Slot `t` took over the pair. */
  ghost predicate TookOver(w: Window, w': Window, t: Slot, bal: Ballot, val: Bytes) {
    exists a :: Found(w, w', t, a) && TakesOver(a, w.quorum, bal, val, View(w', t))
  }

  // ---------------------------------------------------------------------------
  // Taking in reports
  // ---------------------------------------------------------------------------

  /** No report for the slot is above what the acceptor holds. */
  ghost predicate NothingNew(a: Acc, reports: seq<C.Report>, t: Slot) {
    a.Resolved? || forall r :: r in reports && r.slot == t ==> a.AwaitQuorum? && r.bal.AtMost(a.bal)
  }

  /** What the reports made of slot `t`: an unresolved slot takes over the reported pair of
      highest ballot if that is above its own, and is as before otherwise. */
  ghost predicate AbsorbedAt(w: Window, reports: seq<C.Report>, w': Window, t: Slot) {
    if NothingNew(View(w, t), reports, t) then Kept(w, w', t)
    else
      && View(w', t).AwaitQuorum? && TookOver(w, w', t, View(w', t).bal, View(w', t).val)
      && HighestKnown(HighestValue(View(w, t)), reports, t, Some(Pair(View(w', t).bal, View(w', t).val)))
  }

  ghost function ReportedSlots(w: Window, reports: seq<C.Report>): set<Slot> {
    set r | r in reports && !View(w, r.slot).Resolved? :: r.slot
  }

  ghost function ReportedBallots(w: Window, reports: seq<C.Report>): set<Ballot> {
    set r | r in reports && !View(w, r.slot).Resolved? :: r.bal
  }

  /** Taking in one report for an unresolved slot. */
  lemma {:induction false} AbsorbSlot(w: Window, r: C.Report)
    requires WindowOk(w) && !View(w, r.slot).Resolved?
    ensures var a := View(w, r.slot); var w1 := Put(w, r.slot, NoticeValue(a, r.bal, r.val));
            && Changes(w, w1, {r.slot}, {r.bal}) && (forall t: Slot :: t != r.slot ==> Kept(w, w1, t))
            && (if a.AwaitQuorum? && r.bal.AtMost(a.bal) then View(w1, r.slot) == a
                else TakesOver(a, w.quorum, r.bal, r.val, View(w1, r.slot)))
  {
    hide Kept;
    var a := View(w, r.slot);
    var a' := NoticeValue(a, r.bal, r.val);
    ViewOk(w, r.slot);
    OperationsGrow(a, w.quorum, r.bal, r.val, 0);
    NoticeMeaning(a, w.quorum, r.bal, r.val);
    var bals := if Precedes(Promise(a'), w.maxPromised) then {} else {Promise(a').value};
    PutChanges(w, r.slot, a', bals);
    ChangesLess(w, Put(w, r.slot, a'), {r.slot}, bals, {r.slot}, {r.bal});
  }

  lemma {:induction false} FoundNow(w: Window, w': Window, t: Slot)
    requires WindowOk(w) && Precedes(w.maxPromised, w'.maxPromised)
    ensures Found(w, w', t, View(w, t))
  {
    ViewOk(w, t);
  }

  lemma {:induction false} TakesOverTwice(a: Acc, size: nat, bal: Ballot, val: Bytes, b: Acc, bal': Ballot, val': Bytes, c: Acc)
    requires TakesOver(a, size, bal, val, b) && TakesOver(b, size, bal', val', c) && bal.AtMost(bal')
    ensures TakesOver(a, size, bal', val', c)
  {
  }

  /** A report for another slot. */
  lemma {:induction false} AbsorbOther(w: Window, r: C.Report, rest: seq<C.Report>, w1: Window, w': Window, t: Slot)
    requires r.slot != t && Kept(w, w1, t) && AbsorbedAt(w1, rest, w', t)
    requires End(w) <= End(w1) && Precedes(w.maxPromised, w1.maxPromised) && Precedes(w1.maxPromised, w'.maxPromised)
    requires w1.quorum == w.quorum
    ensures AbsorbedAt(w, [r] + rest, w', t)
  {
    hide View, TakesOver;
    var all := [r] + rest;
    assert forall x :: x in all && x.slot == t <==> x in rest && x.slot == t;
    if NothingNew(View(w1, t), rest, t) {
      KeptTransitive(w, w1, w', t);
    } else {
      var a :| Found(w1, w', t, a) && TakesOver(a, w.quorum, View(w', t).bal, View(w', t).val, View(w', t));
      FoundEarlier(w, w1, w', t, a);
    }
  }

  lemma {:induction false} TookFacts(a: Acc, size: nat, r: C.Report, b: Acc)
    requires !a.Resolved? && if a.AwaitQuorum? && r.bal.AtMost(a.bal) then b == a else TakesOver(a, size, r.bal, r.val, b)
    ensures b.AwaitQuorum? && r.bal.AtMost(b.bal)
    ensures !(a.AwaitQuorum? && r.bal.AtMost(a.bal)) ==> b.bal == r.bal && b.val == r.val
  {
  }

  lemma {:induction false} KnownHere(a: Acc, b: Acc, r: C.Report, rest: seq<C.Report>, t: Slot)
    requires r.slot == t && !a.Resolved? && !(a.AwaitQuorum? && r.bal.AtMost(a.bal))
    requires b.AwaitQuorum? && b.bal == r.bal && b.val == r.val && NothingNew(b, rest, t)
    ensures HighestKnown(HighestValue(a), [r] + rest, t, Some(Pair(b.bal, b.val)))
  {
    var all := [r] + rest;
    assert all[0] == r && forall x :: x in all <==> x == r || x in rest;
  }

  lemma {:induction false} OwnAtMost(b: Acc, rest: seq<C.Report>, t: Slot, p: Pair)
    requires b.AwaitQuorum? && HighestKnown(HighestValue(b), rest, t, Some(p))
    ensures b.bal.AtMost(p.bal)
  {
  }

  /** A report for the slot itself, which takes it over or not. */
  lemma {:induction false} AbsorbSame(w: Window, r: C.Report, rest: seq<C.Report>, w1: Window, w': Window)
    requires WindowOk(w) && !View(w, r.slot).Resolved? && AbsorbedAt(w1, rest, w', r.slot)
    requires r.slot < End(w1) && Precedes(w.maxPromised, w'.maxPromised) && w1.quorum == w.quorum
    requires var a := View(w, r.slot);
             if a.AwaitQuorum? && r.bal.AtMost(a.bal) then View(w1, r.slot) == a
             else TakesOver(a, w.quorum, r.bal, r.val, View(w1, r.slot))
    ensures AbsorbedAt(w, [r] + rest, w', r.slot)
  {
    hide View, WindowOk, TakesOver, HighestKnown;
    var t, all := r.slot, [r] + rest;
    var a, b, c := View(w, t), View(w1, t), View(w', t);
    FoundNow(w, w', t);
    TookFacts(a, w.quorum, r, b);
    assert all[0] == r && forall x :: x in all <==> x == r || x in rest;
    if NothingNew(b, rest, t) {
      if !(a.AwaitQuorum? && r.bal.AtMost(a.bal)) { KnownHere(a, b, r, rest, t); }
    } else {
      KnownStep(HighestValue(a), HighestValue(b), r, rest, t, Some(Pair(c.bal, c.val)));
      assert Found(w1, w', t, b);
      if !(a.AwaitQuorum? && r.bal.AtMost(a.bal)) {
        OwnAtMost(b, rest, t, Pair(c.bal, c.val));
        TakesOverTwice(a, w.quorum, r.bal, r.val, b, c.bal, c.val, c);
      }
    }
  }

  lemma {:induction false} AbsorbedNothing(w: Window)
    requires WindowOk(w)
    ensures Changes(w, w, {}, {}) && ReportedSlots(w, []) == {} && ReportedBallots(w, []) == {}
    ensures forall t: Slot :: AbsorbedAt(w, [], w, t)
  {
    hide Kept;
    KeptAll(w);
  }

  lemma {:induction false} ReportedMore(w: Window, r: C.Report, rest: seq<C.Report>, w1: Window)
    requires forall t: Slot :: View(w1, t).Resolved? <==> View(w, t).Resolved?
    ensures View(w, r.slot).Resolved? ==> ReportedSlots(w, [r] + rest) == ReportedSlots(w1, rest)
    ensures View(w, r.slot).Resolved? ==> ReportedBallots(w, [r] + rest) == ReportedBallots(w1, rest)
    ensures !View(w, r.slot).Resolved? ==> ReportedSlots(w, [r] + rest) == {r.slot} + ReportedSlots(w1, rest)
    ensures !View(w, r.slot).Resolved? ==> ReportedBallots(w, [r] + rest) == {r.bal} + ReportedBallots(w1, rest)
  {
    hide View;
    assert forall x :: x in [r] + rest <==> x == r || x in rest;
  }

  lemma {:induction false} AbsorbLastOf(w: Window, r: C.Report, rest: seq<C.Report>, w': Window, t: Slot)
    requires View(w, r.slot).Resolved? && AbsorbedAt(w, rest, w', t)
    ensures AbsorbedAt(w, [r] + rest, w', t)
  {
    hide View;
    var all := [r] + rest;
    assert forall x :: x in all <==> x == r || x in rest;
    if t != r.slot && !NothingNew(View(w, t), rest, t) {
      KnownLastOf(HighestValue(View(w, t)), r, rest, t, Some(Pair(View(w', t).bal, View(w', t).val)));
    }
  }

  lemma {:induction false} KnownLastOf(own: Option<Pair>, r: C.Report, rest: seq<C.Report>, t: Slot, p: Option<Pair>)
    requires r.slot != t && HighestKnown(own, rest, t, p)
    ensures HighestKnown(own, [r] + rest, t, p)
  {
    assert forall x :: x in [r] + rest <==> x == r || x in rest;
  }

  /** Taking in the reports of a promise: each unresolved slot that is reported with a ballot
      above its own takes over the reported pair of highest ballot; no other slot changes, the
      window opens up to the last reported slot, and its promise rises to the ballots reported. */
  lemma {:induction false} AbsorbAnswer(w: Window, reports: seq<C.Report>)
    requires WindowOk(w)
    ensures var w' := Absorb(w, reports);
            && Changes(w, w', ReportedSlots(w, reports), ReportedBallots(w, reports))
            && forall t: Slot :: AbsorbedAt(w, reports, w', t)
    decreases |reports|
  {
    hide WindowOk, View, Put, AbsorbedAt, Kept, Changes, ReportedSlots, ReportedBallots, NoticeValue, TakesOver;
    AbsorbedNothing(w);
    if reports != [] {
      var r, rest := reports[0], reports[1..];
      assert reports == [r] + rest;
      var w' := Absorb(w, reports);
      if View(w, r.slot).Resolved? {
        AbsorbAnswer(w, rest);
        ReportedMore(w, r, rest, w);
        forall t: Slot ensures AbsorbedAt(w, reports, w', t) { AbsorbLastOf(w, r, rest, w', t); }
      } else {
        var w1 := Put(w, r.slot, NoticeValue(View(w, r.slot), r.bal, r.val));
        AbsorbSlot(w, r);
        ChangesFacts(w, w1, {r.slot}, {r.bal});
        AbsorbAnswer(w1, rest);
        AbsorbJoin(w, r, rest, w1, w');
      }
    }
  }

  lemma {:induction false} AbsorbJoin(w: Window, r: C.Report, rest: seq<C.Report>, w1: Window, w': Window)
    requires WindowOk(w) && !View(w, r.slot).Resolved?
    requires Changes(w, w1, {r.slot}, {r.bal}) && forall t: Slot :: t != r.slot ==> Kept(w, w1, t)
    requires var a := View(w, r.slot);
             if a.AwaitQuorum? && r.bal.AtMost(a.bal) then View(w1, r.slot) == a
             else TakesOver(a, w.quorum, r.bal, r.val, View(w1, r.slot))
    requires Changes(w1, w', ReportedSlots(w1, rest), ReportedBallots(w1, rest)) && forall t: Slot :: AbsorbedAt(w1, rest, w', t)
    ensures Changes(w, w', ReportedSlots(w, [r] + rest), ReportedBallots(w, [r] + rest))
    ensures forall t: Slot :: AbsorbedAt(w, [r] + rest, w', t)
  {
    hide WindowOk, View, AbsorbedAt, Changes, ReportedSlots, ReportedBallots, TakesOver;
    ChangesFacts(w, w1, {r.slot}, {r.bal});
    ChangesFacts(w1, w', ReportedSlots(w1, rest), ReportedBallots(w1, rest));
    ChangesTransitive(w, w1, w', {r.slot}, {r.bal}, ReportedSlots(w1, rest), ReportedBallots(w1, rest));
    TookFacts(View(w, r.slot), w.quorum, r, View(w1, r.slot));
    forall t: Slot ensures View(w1, t).Resolved? <==> View(w, t).Resolved? { assert t != r.slot ==> Kept(w, w1, t); }
    ReportedMore(w, r, rest, w1);
    TouchedOpen(w, w1, {r.slot}, {r.bal});
    forall t: Slot
      ensures AbsorbedAt(w, [r] + rest, w', t)
    {
      if t == r.slot { AbsorbSame(w, r, rest, w1, w'); } else { AbsorbOther(w, r, rest, w1, w', t); }
    }
  }

  lemma {:induction false} TouchedOpen(w: Window, w1: Window, touched: set<Slot>, bals: set<Ballot>)
    requires Changes(w, w1, touched, bals)
    ensures forall s :: s in touched ==> s < End(w1)
  {
  }

  // ---------------------------------------------------------------------------
  // Proposing the batch
  // ---------------------------------------------------------------------------

  /** The last slot that a queue is placed in, if it is not empty. */
  ghost function LastOf(first: Slot, vals: seq<Bytes>): set<Slot> {
    if vals == [] then {} else {first + |vals| - 1}
  }

  /** Of the slots touched in a row only the last one matters for the end of the window. */
  lemma {:induction false} LastMatters(w: Window, w': Window, s: Slot, last: set<Slot>, bals: set<Ballot>)
    requires Changes(w, w', {s} + last, bals) && last != {} && forall t :: t in last ==> t >= s
    ensures Changes(w, w', last, bals)
  {
    var t :| t in last;
    assert t in {s} + last;
  }

  ghost function Of(bal: Ballot, some: bool): set<Ballot> {
    if some then {bal} else {}
  }

  /** What placing values from slot `first` on made of slot `t`. */
  ghost predicate PlacedAt(w: Window, bal: Ballot, first: Slot, vals: seq<Bytes>, w': Window, t: Slot) {
    if first <= t < first + |vals| then TookOver(w, w', t, bal, vals[t - first]) else Kept(w, w', t)
  }

  lemma {:induction false} PlaceSlot(w: Window, bal: Ballot, v: Bytes)
    requires WindowOk(w)
    ensures var s := NextSlot(w); var w1 := Put(w, s, NoticeValue(View(w, s), bal, v));
            && Changes(w, w1, {s}, {bal}) && w1.decided == w.decided && End(w1) == s + 1 && NextSlot(w1) == s + 1
            && TakesOver(View(w, s), w.quorum, bal, v, View(w1, s))
            && forall t: Slot :: t != s ==> Kept(w, w1, t)
  {
    hide WindowOk, NextSlot, Put, View, NoticeValue, Kept, Changes;
    NextSlotMeaning(w);
    PlaceOne(w, bal, v);
    AbsorbSlot(w, C.Report(NextSlot(w), bal, v));
  }

  lemma {:induction false} PlacedMore(w: Window, bal: Ballot, s: Slot, vals: seq<Bytes>, w1: Window, w': Window, t: Slot)
    requires WindowOk(w) && vals != [] && s < End(w1) && End(w) <= End(w1) && w1.quorum == w.quorum
    requires Precedes(w.maxPromised, w1.maxPromised) && Precedes(w1.maxPromised, w'.maxPromised)
    requires if t == s then TakesOver(View(w, s), w.quorum, bal, vals[0], View(w1, s)) else Kept(w, w1, t)
    requires PlacedAt(w1, bal, s + 1, vals[1..], w', t)
    ensures PlacedAt(w, bal, s, vals, w', t)
  {
    hide View, TakesOver, WindowOk;
    if t == s {
      FoundNow(w, w', t);
    } else if s < t < s + |vals| {
      var v := vals[1..][t - (s + 1)];
      assert v == vals[t - s];
      var a :| Found(w1, w', t, a) && TakesOver(a, w1.quorum, bal, v, View(w', t));
      FoundEarlier(w, w1, w', t, a);
    } else {
      KeptTransitive(w, w1, w', t);
    }
  }

  /** Placing the queue: the values take over consecutive slots from the next slot on, in
      queue order, and no other slot changes. */
  lemma {:induction false} PlaceAnswer(w: Window, bal: Ballot, vals: seq<Bytes>)
    requires WindowOk(w)
    ensures var w' := Place(w, bal, vals).window;
            && Changes(w, w', LastOf(NextSlot(w), vals), Of(bal, vals != [])) && w'.decided == w.decided
            && forall t: Slot :: PlacedAt(w, bal, NextSlot(w), vals, w', t)
    decreases |vals|
  {
    hide WindowOk, NextSlot, Put, View, NoticeValue, Kept, Changes, TakesOver, PlacedAt;
    KeptAll(w);
    if vals == [] {
      forall t: Slot ensures PlacedAt(w, bal, NextSlot(w), vals, w, t) { PlacedNone(w, bal, NextSlot(w), w, t); }
      assert LastOf(NextSlot(w), vals) == {};
    } else {
      var s := NextSlot(w);
      var w1 := Put(w, s, NoticeValue(View(w, s), bal, vals[0]));
      var w' := Place(w, bal, vals).window;
      PlaceSlot(w, bal, vals[0]);
      ChangesFacts(w, w1, {s}, {bal});
      PlaceAnswer(w1, bal, vals[1..]);
      ChangesFacts(w1, w', LastOf(s + 1, vals[1..]), Of(bal, vals[1..] != []));
      ChangesTransitive(w, w1, w', {s}, {bal}, LastOf(s + 1, vals[1..]), Of(bal, vals[1..] != []));
      assert {bal} + Of(bal, vals[1..] != []) == Of(bal, vals != []);
      if vals[1..] != [] { LastMatters(w, w', s, LastOf(s + 1, vals[1..]), {bal}); }
      assert {s} + {} == LastOf(s, vals[..1]);
      forall t: Slot ensures PlacedAt(w, bal, s, vals, w', t) { PlacedMore(w, bal, s, vals, w1, w', t); }
    }
  }

  lemma {:induction false} PlacedNone(w: Window, bal: Ballot, first: Slot, w': Window, t: Slot)
    requires Kept(w, w', t)
    ensures PlacedAt(w, bal, first, [], w', t)
  {
    hide Kept;
  }

  /** An acceptor that noticed the pair: it took it over unless it holds a ballot not below. */
  ghost predicate Noticed(a: Acc, size: nat, bal: Ballot, val: Bytes, a': Acc) {
    if a.AwaitQuorum? && bal.AtMost(a.bal) then a' == a else TakesOver(a, size, bal, val, a')
  }

  /** What sweeping the slots from `slot` to `end` made of slot `t`. */
  ghost predicate SweptAt(w: Window, bal: Ballot, slot: Slot, end: Slot, w': Window, t: Slot) {
    if slot <= t < end && !View(w, t).Resolved? then Noticed(View(w, t), w.quorum, bal, OwnPick(View(w, t)), View(w', t))
    else Kept(w, w', t)
  }

  ghost predicate SomeOpen(w: Window, slot: Slot, end: Slot) {
    exists t: Slot :: slot <= t < end && !View(w, t).Resolved?
  }

  /** Proposing by itself in one slot. */
  lemma {:induction false} SweepSlot(w: Window, bal: Ballot, s: Slot)
    requires WindowOk(w) && w.openMin <= s < End(w) && !View(w, s).Resolved?
    ensures var w1 := Put(w, s, NoticeValue(View(w, s), bal, PickFor(View(w, s))));
            && Changes(w, w1, {}, {bal}) && w1.decided == w.decided && End(w1) == End(w) && w1.openMin == w.openMin
            && Noticed(View(w, s), w.quorum, bal, OwnPick(View(w, s)), View(w1, s))
            && forall t: Slot :: t != s ==> Kept(w, w1, t)
  {
    hide Put, NoticeValue, Kept, WindowOk;
    AbsorbSlot(w, C.Report(s, bal, PickFor(View(w, s))));
    SweepOne(w, bal, s);
    ChangesLess(w, Put(w, s, NoticeValue(View(w, s), bal, PickFor(View(w, s)))), {s}, {bal}, {}, {bal});
  }

  lemma {:induction false} SweptMore(w: Window, bal: Ballot, slot: Slot, end: Slot, w1: Window, w': Window, t: Slot)
    requires slot < end <= End(w) && End(w) <= End(w1) && w1.quorum == w.quorum && !View(w, slot).Resolved?
    requires Precedes(w.maxPromised, w1.maxPromised) && Precedes(w1.maxPromised, w'.maxPromised)
    requires if t == slot then Noticed(View(w, t), w.quorum, bal, OwnPick(View(w, t)), View(w1, t)) else Kept(w, w1, t)
    requires SweptAt(w1, bal, slot + 1, end, w', t)
    ensures SweptAt(w, bal, slot, end, w', t)
  {
    hide View, Noticed;
    if t != slot && !(slot <= t < end && !View(w, t).Resolved?) { KeptTransitive(w, w1, w', t); }
  }

  /** The sweep of a new leader: every unresolved slot of the range notices the value it holds,
      else the empty one, at the ballot of the leader; no other slot changes. */
  lemma {:induction false} SweepAnswer(w: Window, bal: Ballot, slot: Slot, end: Slot)
    requires WindowOk(w) && w.openMin <= slot && end <= End(w)
    ensures var w' := Sweep(w, bal, slot, end).window;
            && Changes(w, w', {}, Of(bal, SomeOpen(w, slot, end))) && w'.decided == w.decided
            && forall t: Slot :: SweptAt(w, bal, slot, end, w', t)
    decreases end - slot
  {
    hide WindowOk, Put, View, NoticeValue, PickFor, Kept, Changes, Noticed, SweptAt, OwnPick;
    KeptAll(w);
    var w' := Sweep(w, bal, slot, end).window;
    if slot >= end {
      forall t: Slot ensures SweptAt(w, bal, slot, end, w', t) { SweptNone(w, bal, slot, end, w', t); }
    } else if View(w, slot).Resolved? {
      SweepAnswer(w, bal, slot + 1, end);
      forall t: Slot ensures SweptAt(w, bal, slot, end, w', t) { SweptBehind(w, bal, slot, end, w', t); }
      assert SomeOpen(w, slot, end) <==> SomeOpen(w, slot + 1, end);
    } else {
      var w1 := Put(w, slot, NoticeValue(View(w, slot), bal, PickFor(View(w, slot))));
      SweepSlot(w, bal, slot);
      ChangesFacts(w, w1, {}, {bal});
      SweepAnswer(w1, bal, slot + 1, end);
      var bals := Of(bal, SomeOpen(w1, slot + 1, end));
      ChangesFacts(w1, w', {}, bals);
      ChangesTransitive(w, w1, w', {}, {bal}, {}, bals);
      assert {bal} + bals == {bal} && SomeOpen(w, slot, end) by { assert slot <= slot < end && !View(w, slot).Resolved?; }
      ChangesLess(w, w', {} + {}, {bal} + bals, {}, {bal});
      forall t: Slot ensures SweptAt(w, bal, slot, end, w', t) { SweptMore(w, bal, slot, end, w1, w', t); }
    }
  }

  lemma {:induction false} SweptNone(w: Window, bal: Ballot, slot: Slot, end: Slot, w': Window, t: Slot)
    requires Kept(w, w', t) && slot >= end
    ensures SweptAt(w, bal, slot, end, w', t)
  {
    hide Kept;
  }

  lemma {:induction false} SweptBehind(w: Window, bal: Ballot, slot: Slot, end: Slot, w': Window, t: Slot)
    requires View(w, slot).Resolved? && SweptAt(w, bal, slot + 1, end, w', t)
    ensures SweptAt(w, bal, slot, end, w', t)
  {
    hide Kept, View;
  }

  /** What announcing its batch made of slot `t` of the leader: a slot it proposes for took
      over the queued value, or noticed its own at the ballot of the leader. */
  ghost predicate BatchAt(n: NodeState, bal: Ballot, w': Window, t: Slot) {
    var first := FreeSlot(n.window);
    if !ToPropose(n, t) then Kept(n.window, w', t)
    else if first <= t < first + |n.prop.queue| then TookOver(n.window, w', t, bal, n.prop.queue[t - first])
    else Noticed(View(n.window, t), n.window.quorum, bal, OwnPick(View(n.window, t)), View(w', t))
  }

  /** The leader votes for what it announced wherever its own acceptor holds its ballot. */
  ghost function BatchVotes(id: NodeId, bal: Ballot, batch: seq<C.Entry>, w: Window): set<Vote> {
    set e | e in batch && HoldsBallot(View(w, e.slot), bal) :: Vote(id, e.slot, bal, e.val)
  }

  lemma {:induction false} BatchJoin(n: NodeState, bal: Ballot, mid: Window, w': Window, t: Slot)
    requires WindowOk(n.window) && Precedes(mid.maxPromised, w'.maxPromised) && mid.quorum == n.window.quorum
    requires End(n.window) <= End(mid)
    requires End(mid) == (if n.prop.queue == [] then End(n.window) else FreeSlot(n.window) + |n.prop.queue|)
    requires PlacedAt(n.window, bal, FreeSlot(n.window), n.prop.queue, mid, t)
    requires SweptAt(mid, bal, n.window.openMin, End(mid), w', t)
    ensures BatchAt(n, bal, w', t)
  {
    hide View, TakesOver, WindowOk, Noticed, OwnPick;
    var w, first, vals := n.window, FreeSlot(n.window), n.prop.queue;
    if first <= t < first + |vals| {
      var a :| Found(w, mid, t, a) && TakesOver(a, w.quorum, bal, vals[t - first], View(mid, t));
      TookHolds(a, w.quorum, bal, vals[t - first], View(mid, t));
      NextSlotMeaning(w);
      NoValueFrom(w, t);
      FreeOpen(w);
      if t < End(mid) { NoticedHeld(View(mid, t), mid.quorum, bal, View(w', t)); }
      assert Found(w, w', t, a);
    } else if !ToPropose(n, t) {
      KeptTransitive(w, mid, w', t);
    }
  }

  lemma {:induction false} FreeOpen(w: Window)
    requires WindowOk(w)
    ensures FreeSlot(w) >= w.openMin
  {
  }

  lemma {:induction false} TookHolds(a: Acc, size: nat, bal: Ballot, val: Bytes, b: Acc)
    requires TakesOver(a, size, bal, val, b)
    ensures b.AwaitQuorum? && b.bal == bal && b.val == val
  {
  }

  lemma {:induction false} NoticedHeld(a: Acc, size: nat, bal: Ballot, b: Acc)
    requires a.AwaitQuorum? && a.bal == bal && Noticed(a, size, bal, OwnPick(a), b)
    ensures b == a
  {
  }

  /** What driving ACCEPT does to the slots, the history and the state of the leader. */
  lemma {:induction false} DriveAnswer(n: NodeState)
    requires WindowOk(n.window) && n.prop.state.Leader? && n.prop.highest.Some?
    ensures var o := DriveAccept(n); var b := n.prop.highest.value; var w' := o.node.window;
            && o.node == n.(prop := n.prop.(queue := []), window := w')
            && Changes(n.window, w', LastOf(FreeSlot(n.window), n.prop.queue), {b}) && w'.decided == n.window.decided
            && (forall t: Slot :: BatchAt(n, b, w', t))
            && |o.placed| == |n.prop.queue|
            && (forall i :: 0 <= i < |o.placed| ==> o.placed[i] == Pick(b, FreeSlot(n.window) + i, n.prop.queue[i]))
            && |o.outs| == 1 && o.outs[0].cmd.Accept? && o.votes == BatchVotes(n.id, b, o.outs[0].cmd.entries, w')
  {
    hide WindowOk, NextSlot, FreeSlot, View, Changes, PlacedAt, SweptAt, Place, Sweep;
    var w, vals, b := n.window, n.prop.queue, n.prop.highest.value;
    var first, p := FreeSlot(w), Place(w, b, vals);
    NextSlotMeaning(w);
    PlaceAnswer(w, b, vals);
    PlaceMeaning(w, b, vals);
    SameStart(w, p.window);
    var r := Sweep(p.window, b, p.window.openMin, End(p.window));
    SweepAnswer(p.window, b, p.window.openMin, End(p.window));
    SweepMeaning(p.window, b, p.window.openMin, End(p.window));
    var some := Of(b, SomeOpen(p.window, p.window.openMin, End(p.window)));
    FirstUnresolved(p.window);
    ChangesFacts(w, p.window, LastOf(first, vals), Of(b, vals != []));
    ChangesFacts(p.window, r.window, {}, some);
    ChangesTransitive(w, p.window, r.window, LastOf(first, vals), Of(b, vals != []), {}, some);
    ChangesLess(w, r.window, LastOf(first, vals) + {}, Of(b, vals != []) + some, LastOf(first, vals), {b});
    forall t: Slot ensures BatchAt(n, b, r.window, t) { BatchJoin(n, b, p.window, r.window, t); }
    assert C.Entry(p.window.openMin, PickFor(View(p.window, p.window.openMin))) in r.batch;
    VotesOfBatch(n.id, r.window, b, r.batch);
  }

  lemma {:induction false} VotesOfBatch(id: NodeId, w: Window, bal: Ballot, batch: seq<C.Entry>)
    ensures OwnVotes(id, w, bal, PicksOf(bal, batch)) == BatchVotes(id, bal, batch, w)
  {
    hide View;
    forall e | e in batch && HoldsBallot(View(w, e.slot), bal)
      ensures Vote(id, e.slot, bal, e.val) in OwnVotes(id, w, bal, PicksOf(bal, batch))
    {
      assert Pick(bal, e.slot, e.val) in PicksOf(bal, batch);
    }
  }
}
