// What a PREPARE does to a node, and what it reports, as functions of its window.
module Promising {
  import opened Ballots
  import opened Acceptors
  import opened Windows
  import opened WindowChanges
  import opened NodeSteps
  import C = Commands

  function ReportFor(s: Slot, a: Acc): seq<C.Report> {
    match HighestValue(a)
    case None => []
    case Some(p) => [C.Report(s, p.bal, p.val)]
  }

  /** The accepted and resolved pairs of `slot..end`, in slot order. */
  function ReportsOf(w: Window, slot: Slot, end: Slot): seq<C.Report>
    decreases end - slot
  {
    if slot >= end then [] else ReportFor(slot, View(w, slot)) + ReportsOf(w, slot + 1, end)
  }

  /** The acceptor has accepted `val` at `bal`, or resolved it there. */
  ghost predicate HasPair(a: Acc, bal: Ballot, val: Bytes) {
    (a.AwaitQuorum? && a.bal == bal && a.val == val) || (a.Resolved? && a.accepted == bal && a.value == val)
  }

  lemma {:induction false} ReportsSame(w: Window, w': Window, slot: Slot, end: Slot)
    requires forall t: Slot :: slot <= t < end ==> View(w', t) == View(w, t)
    ensures ReportsOf(w', slot, end) == ReportsOf(w, slot, end)
    decreases end - slot
  {
    if slot < end { ReportsSame(w, w', slot + 1, end); }
  }

  lemma {:induction false} ReportsStep(w: Window, slot: Slot, end: Slot)
    requires slot < end
    ensures ReportsOf(w, slot, end) == ReportFor(slot, View(w, slot)) + ReportsOf(w, slot + 1, end)
  {
  }

  /** The report lists, in slot order, exactly the slots of the range that hold a pair. */
  lemma {:induction false} ReportsMeaning(w: Window, slot: Slot, end: Slot)
    ensures var rs := ReportsOf(w, slot, end);
            && (forall r :: r in rs <==> slot <= r.slot < end && HasPair(View(w, r.slot), r.bal, r.val))
            && forall i, j :: 0 <= i < j < |rs| ==> rs[i].slot < rs[j].slot
    decreases end - slot
  {
    hide View, HasPair;
    if slot < end {
      ReportsMeaning(w, slot + 1, end);
      ReportHere(w, slot);
      var here, rs := ReportFor(slot, View(w, slot)), ReportsOf(w, slot + 1, end);
      var all := here + rs;
      forall i, j | 0 <= i < j < |all|
        ensures all[i].slot < all[j].slot
      {
        assert all[j] == rs[j - |here|] && rs[j - |here|] in rs;
        if i < |here| { assert here[i] in here; }
      }
    }
  }

  lemma {:induction false} ReportHere(w: Window, slot: Slot)
    ensures |ReportFor(slot, View(w, slot))| <= 1
    ensures forall r :: r in ReportFor(slot, View(w, slot)) <==> r.slot == slot && HasPair(View(w, slot), r.bal, r.val)
  {
    hide View;
  }

  /** Slot `t` is unresolved and promised a ballot above `bal`. */
  ghost predicate Barred(w: Window, bal: Ballot, t: Slot) {
    !View(w, t).Resolved? && Promise(View(w, t)).Some? && bal.Less(Promise(View(w, t)).value)
  }

  /** What asking the slots from `slot` up to `k` to promise `bal` made of slot `t`. */
  ghost predicate PledgedAt(w: Window, bal: Ballot, slot: Slot, k: Slot, w': Window, t: Slot) {
    if slot <= t < k then PledgedTo(View(w, t), bal, View(w', t)) else Kept(w, w', t)
  }

  /** The ballots that promises of the slots from `slot` up to `k` raise the window to. */
  ghost function Pledges(w: Window, bal: Ballot, slot: Slot, k: Slot): set<Ballot> {
    if exists t: Slot :: slot <= t < k && !View(w, t).Resolved? then {bal} else {}
  }

  /** The slots from `slot` up to `k` promised `bal`, and the handler was refused at `k`, or
      reached the end and reports what the slots held. */
  ghost predicate PledgedUpTo(w: Window, bal: Ballot, slot: Slot, end: Slot, k: Slot, r: PrepareResult) {
    && slot <= k <= end
    && (forall t: Slot :: slot <= t < k ==> !Barred(w, bal, t))
    && Changes(w, r.window, {}, Pledges(w, bal, slot, k)) && r.window.decided == w.decided
    && (forall t: Slot :: PledgedAt(w, bal, slot, k, r.window, t))
    && (if k < end then Barred(w, bal, k) && r.refused == Promise(View(w, k))
        else r.refused.None? && r.reports == ReportsOf(w, slot, end))
  }

  lemma {:induction false} PledgeOne(w: Window, bal: Ballot, s: Slot)
    requires WindowOk(w) && w.openMin <= s < End(w) && !View(w, s).Resolved?
    ensures var a := ReceivePrepare(View(w, s), bal).0; var w' := Put(w, s, a);
            && w'.decided == w.decided && w'.openMin == w.openMin && End(w') == End(w) && (forall t: Slot :: t != s ==> Kept(w, w', t))
            && (Refuses(View(w, s), bal) <==> Barred(w, bal, s))
            && (if Barred(w, bal, s) then Changes(w, w', {}, {}) && View(w', s) == View(w, s)
                else Changes(w, w', {}, {bal}) && PledgedTo(View(w, s), bal, View(w', s)))
  {
    hide Kept;
    var a := ReceivePrepare(View(w, s), bal).0;
    ViewOk(w, s);
    OperationsGrow(View(w, s), w.quorum, bal, [], 0);
    PledgeMeaning(View(w, s), bal);
    PutMeaning(w, s, a);
    var bals := if Precedes(Promise(a), w.maxPromised) then {} else {bal};
    PutChanges(w, s, a, bals);
    ChangesLess(w, Put(w, s, a), {s}, bals, {}, if Barred(w, bal, s) then {} else {bal});
  }

  lemma {:induction false} NothingPledged(w: Window, bal: Ballot, slot: Slot, w': Window)
    requires forall t: Slot :: Kept(w, w', t)
    ensures Pledges(w, bal, slot, slot) == {} && forall t: Slot :: PledgedAt(w, bal, slot, slot, w', t)
  {
    hide Kept;
  }

  /** A resolved slot is passed over. */
  lemma {:induction false} PledgedBehind(w: Window, bal: Ballot, slot: Slot, end: Slot, k: Slot, r: PrepareResult, r': PrepareResult)
    requires slot < end <= End(w) && View(w, slot).Resolved? && PledgedUpTo(w, bal, slot + 1, end, k, r)
    requires r'.window == r.window && r'.refused == r.refused
    requires k == end ==> r'.reports == ReportFor(slot, View(w, slot)) + r.reports
    ensures PledgedUpTo(w, bal, slot, end, k, r')
  {
    hide View, ReportsOf, Changes, PledgedTo, ReportFor;
    ReportsStep(w, slot, end);
    assert Pledges(w, bal, slot, k) == Pledges(w, bal, slot + 1, k);
    forall t: Slot ensures PledgedAt(w, bal, slot, k, r'.window, t) {
      assert PledgedAt(w, bal, slot + 1, k, r'.window, t);
      if t == slot { PledgedResolved(View(w, t), bal); }
    }
  }

  lemma {:induction false} PledgedResolved(a: Acc, bal: Ballot)
    requires a.Resolved?
    ensures PledgedTo(a, bal, a)
  {
  }

  /** An unresolved slot promises, and then the rest is asked. */
  lemma {:induction false} PledgedMore(w: Window, w1: Window, bal: Ballot, slot: Slot, end: Slot, k: Slot,
                                       r: PrepareResult, r': PrepareResult)
    requires WindowOk(w) && slot < end <= End(w) && !View(w, slot).Resolved? && !Barred(w, bal, slot)
    requires Changes(w, w1, {}, {bal}) && w1.decided == w.decided && End(w1) == End(w)
    requires (forall t: Slot :: t != slot ==> Kept(w, w1, t)) && PledgedTo(View(w, slot), bal, View(w1, slot))
    requires PledgedUpTo(w1, bal, slot + 1, end, k, r)
    requires r'.window == r.window && r'.refused == r.refused
    requires k == end ==> r'.reports == ReportFor(slot, View(w, slot)) + r.reports
    ensures PledgedUpTo(w, bal, slot, end, k, r')
  {
    hide View, ReportsOf, Changes, PledgedTo, WindowOk, ReportFor;
    var w' := r.window;
    assert slot <= slot < k && !View(w, slot).Resolved?;
    ReportsStep(w, slot, end);
    var bals := Pledges(w1, bal, slot + 1, k);
    ChangesTransitive(w, w1, w', {}, {bal}, {}, bals);
    ChangesLess(w, w', {} + {}, {bal} + bals, {}, {bal});
    ChangesFacts(w, w1, {}, {bal});
    ChangesFacts(w1, w', {}, bals);
    forall t: Slot
      ensures PledgedAt(w, bal, slot, k, w', t)
      ensures slot < t < end ==> (Barred(w, bal, t) <==> Barred(w1, bal, t)) && View(w1, t) == View(w, t)
    {
      assert PledgedAt(w1, bal, slot + 1, k, w', t);
      if t != slot {
        assert Kept(w, w1, t);
        if !(slot < t < k) { KeptTransitive(w, w1, w', t); }
      }
    }
    ReportsSame(w, w1, slot + 1, end);
  }

  /** A PREPARE is answered slot by slot, up to the first open slot that promised a higher
      ballot. Every slot before it now promises the ballot and is otherwise as it was, also if
      the PREPARE is refused in the end; no other slot changes. It is refused exactly if there
      is such a slot, with the promise of that slot; else the report lists what the slots of
      the open range held. */
  lemma {:induction false} PrepareMeaning(w: Window, bal: Ballot, slot: Slot, end: Slot) returns (k: Slot)
    requires WindowOk(w) && w.openMin <= slot <= end <= End(w)
    ensures PledgedUpTo(w, bal, slot, end, k, PrepareSweep(w, bal, slot, end))
    decreases end - slot
  {
    hide WindowOk, Put, View, Changes, PledgedTo, Kept, Barred, PledgedAt, Pledges;
    k := slot;
    KeptAll(w);
    NothingPledged(w, bal, slot, w);
    if slot < end {
      var r := PrepareSweep(w, bal, slot, end);
      if View(w, slot).Resolved? {
        k := PrepareMeaning(w, bal, slot + 1, end);
        PledgedBehind(w, bal, slot, end, k, PrepareSweep(w, bal, slot + 1, end), r);
      } else {
        var w1 := Put(w, slot, ReceivePrepare(View(w, slot), bal).0);
        PledgeOne(w, bal, slot);
        if Barred(w, bal, slot) {
          BarredAll(w, w1, slot);
          NothingPledged(w, bal, slot, w1);
        } else {
          ChangesFacts(w, w1, {}, {bal});
          k := PrepareMeaning(w1, bal, slot + 1, end);
          PledgedMore(w, w1, bal, slot, end, k, PrepareSweep(w1, bal, slot + 1, end), r);
        }
      }
    }
  }

  lemma {:induction false} BarredAll(w: Window, w1: Window, s: Slot)
    requires s < End(w) && View(w1, s) == View(w, s) && forall t: Slot :: t != s ==> Kept(w, w1, t)
    ensures forall t: Slot :: Kept(w, w1, t)
  {
    hide View;
  }

  /** A promised ballot binds every slot: open, resolved, and not yet open. */
  lemma {:induction false} PromiseBinds(w: Window, bal: Ballot, s: Slot)
    requires WindowOk(w)
    ensures var r := PrepareSweep(w, bal, w.openMin, End(w));
            r.refused.None? ==>
              View(r.window, s).Resolved? || Precedes(Some(bal), Promise(View(r.window, s)))
  {
    hide PrepareSweep;
    var r := PrepareSweep(w, bal, w.openMin, End(w));
    var k := PrepareMeaning(w, bal, w.openMin, End(w));
    ViewOk(w, w.openMin);
    assert PledgedAt(w, bal, w.openMin, k, r.window, s);
    assert r.refused.None? ==> bal in Pledges(w, bal, w.openMin, k);
  }
}
