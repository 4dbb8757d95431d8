// The window of open slots over the log of decided ones (src/window.rs), as values.
module Windows {
  import opened Ballots
  import opened Acceptors

  datatype Window = Window(
    open: seq<Acc>,
    openMin: Slot,
    maxPromised: Option<Ballot>,
    decided: seq<Pair>,
    quorum: nat)

  function NewWindow(quorum: nat): Window {
    Window([AwaitValue(None, quorum)], 0, None, [], quorum)
  }

  function End(w: Window): Slot {
    w.openMin + |w.open|
  }

  function Fresh(w: Window, n: nat): seq<Acc> {
    seq(n, _ => AwaitValue(w.maxPromised, w.quorum))
  }

  /** Opens every slot up to and including `maxSlot`. */
  function FillOpenSlots(w: Window, maxSlot: Slot): Window {
    if maxSlot < End(w) then w else w.(open := w.open + Fresh(w, maxSlot + 1 - End(w)))
  }

  function ResolvedPrefix(open: seq<Acc>): (n: nat)
    ensures n <= |open|
  {
    if open == [] || !open[0].Resolved? then 0 else 1 + ResolvedPrefix(open[1..])
  }

  function Decisions(open: seq<Acc>): (ds: seq<Pair>)
    ensures |ds| == ResolvedPrefix(open)
  {
    if open == [] || !open[0].Resolved? then []
    else [Pair(open[0].accepted, open[0].value)] + Decisions(open[1..])
  }

  /** Moves the resolved prefix to the log and keeps one slot open. */
  function FillDecisions(w: Window): Window {
    var n := ResolvedPrefix(w.open);
    if n == 0 then w else
    var w' := w.(openMin := w.openMin + n, open := w.open[n..], decided := w.decided + Decisions(w.open));
    FillOpenSlots(w', w'.openMin)
  }

  /** What dropping the reference to open slot `i` does to the window. */
  function DropRef(w: Window, i: nat): Window {
    if i >= |w.open| then w else
    FillDecisions(w.(maxPromised := Max(w.maxPromised, Promise(w.open[i]))))
  }

  // ---------------------------------------------------------------------------
  // The window as a total map from slots to acceptors
  // ---------------------------------------------------------------------------

  /** The acceptor of any slot: decided slots are resolved, and a slot that is not
      open yet is bound by everything promised so far. */
  function View(w: Window, s: Slot): Acc {
    if s < |w.decided| then Resolved(w.decided[s].bal, w.decided[s].val)
    else if w.openMin <= s < End(w) then w.open[s - w.openMin]
    else AwaitValue(w.maxPromised, w.quorum)
  }

  /** An access to slot `s` that leaves the acceptor `a` there: the slot is opened if
      need be, written, and the reference to it dropped. */
  function Put(w: Window, s: Slot, a: Acc): Window {
    if s < w.openMin then w else
    var f := FillOpenSlots(w, s);
    if s - w.openMin >= |f.open| then w else
    DropRef(f.(open := f.open[s - w.openMin := a]), s - w.openMin)
  }

  /** The slot that a new value goes to: the last open one while it has no value,
      else the first one that is not open. */
  function NextSlot(w: Window): Slot {
    if |w.open| > 0 && w.open[|w.open| - 1].AwaitValue? then End(w) - 1 else End(w)
  }

  ghost predicate WindowOk(w: Window) {
    && w.quorum > 1
    && |w.decided| == w.openMin
    && |w.open| > 0
    && !w.open[0].Resolved?
    && forall i :: 0 <= i < |w.open| ==> AccOk(w.open[i], w.quorum) && Precedes(Promise(w.open[i]), w.maxPromised)
  }

  lemma {:induction false} NewWindowOk(quorum: nat)
    requires quorum > 1
    ensures WindowOk(NewWindow(quorum))
  {
  }

  lemma {:induction false} ViewOk(w: Window, s: Slot)
    requires WindowOk(w)
    ensures AccOk(View(w, s), w.quorum)
    ensures s >= w.openMin ==> Precedes(Promise(View(w, s)), w.maxPromised)
    ensures !View(w, s).Resolved? ==> s >= w.openMin
    ensures View(w, w.openMin) == w.open[0]
  {
  }

  lemma {:induction false} BeyondEnd(w: Window, t: Slot)
    requires WindowOk(w) && t >= End(w)
    ensures View(w, t).AwaitValue?
  {
    ViewOk(w, t);
  }

  lemma {:induction false} DecisionsMeaning(open: seq<Acc>)
    ensures forall i :: 0 <= i < ResolvedPrefix(open) ==>
              open[i].Resolved? && Decisions(open)[i] == Pair(open[i].accepted, open[i].value)
    ensures ResolvedPrefix(open) < |open| ==> !open[ResolvedPrefix(open)].Resolved?
  {
    if open != [] && open[0].Resolved? {
      DecisionsMeaning(open[1..]);
      forall i | 0 <= i < ResolvedPrefix(open)
        ensures open[i].Resolved? && Decisions(open)[i] == Pair(open[i].accepted, open[i].value)
      {
        if i > 0 { assert open[i] == open[1..][i - 1]; }
      }
    }
  }

  /** All but the unresolved start of the window: what holds between a write and the
      drop of the reference to it. */
  ghost predicate WindowOpenOk(w: Window) {
    && w.quorum > 1
    && |w.decided| == w.openMin
    && |w.open| > 0
    && forall i :: 0 <= i < |w.open| ==> AccOk(w.open[i], w.quorum) && Precedes(Promise(w.open[i]), w.maxPromised)
  }

  lemma {:induction false} FillMeaning(w: Window, m: Slot)
    requires |w.decided| == w.openMin
    ensures var f := FillOpenSlots(w, m);
            && f.openMin == w.openMin && f.decided == w.decided && f.maxPromised == w.maxPromised && f.quorum == w.quorum
            && End(f) == (if m < End(w) then End(w) else m + 1)
            && (forall i :: 0 <= i < |w.open| ==> f.open[i] == w.open[i])
            && (forall i :: |w.open| <= i < |f.open| ==> f.open[i] == AwaitValue(w.maxPromised, w.quorum))
            && (forall t: Slot :: View(f, t) == View(w, t))
  {
  }

  /** Moving the resolved prefix changes no slot; the log is extended by exactly the
      longest resolved prefix. */
  lemma {:induction false} FillDecisionsMeaning(w: Window)
    requires WindowOpenOk(w)
    ensures var f := FillDecisions(w);
            && WindowOk(f)
            && w.decided <= f.decided && f.openMin == w.openMin + ResolvedPrefix(w.open)
            && f.maxPromised == w.maxPromised && f.quorum == w.quorum
            && End(f) == (if End(w) > f.openMin then End(w) else f.openMin + 1)
            && (forall t: Slot :: View(f, t) == View(w, t))
  {
    var n := ResolvedPrefix(w.open);
    DecisionsMeaning(w.open);
    if n > 0 {
      var w' := w.(openMin := w.openMin + n, open := w.open[n..], decided := w.decided + Decisions(w.open));
      forall t: Slot ensures View(w', t) == View(w, t) {
        if w.openMin <= t < w.openMin + n {
          assert w'.decided[t] == Decisions(w.open)[t - w.openMin];
        }
      }
      FillMeaning(w', w'.openMin);
      var f := FillDecisions(w);
      assert f == FillOpenSlots(w', w'.openMin);
      forall i | 0 <= i < |f.open|
        ensures AccOk(f.open[i], f.quorum) && Precedes(Promise(f.open[i]), f.maxPromised)
      {
        if i < |w'.open| { assert f.open[i] == w.open[n + i]; }
      }
    }
  }

  function Top(m: nat, n: nat): nat {
    if m >= n then m else n
  }

  /** What an access changes: the accessed slot holds what was written, other open
      and decided slots are as before, and slots not yet open are now bound by the
      written promise too. The window ends where it did, behind the accessed slot, or behind
      the one slot that stays open, whichever is last. */
  ghost predicate PutSpec(w: Window, s: Slot, a: Acc, w': Window) {
    && WindowOk(w')
    && w'.quorum == w.quorum
    && w'.maxPromised == Max(w.maxPromised, Promise(a))
    && w.decided <= w'.decided
    && End(w') == Top(Top(End(w), s + 1), w'.openMin + 1)
    && (!a.Resolved? ==> w'.decided == w.decided && End(w') == (if s < End(w) then End(w) else s + 1))
    && View(w', s) == a
    && (forall t: Slot :: t != s && t < End(w) ==> View(w', t) == View(w, t))
    && (forall t: Slot :: t != s && t >= End(w) && t < s ==> View(w', t) == View(w, t))
    && (forall t: Slot :: t > s && t >= End(w) ==> View(w', t) == AwaitValue(w'.maxPromised, w.quorum))
  }

  /** The window between the write of an access and the drop of its reference. */
  ghost function Written(w: Window, s: Slot, a: Acc): Window
    requires WindowOk(w) && w.openMin <= s
  {
    var f := FillOpenSlots(w, s);
    f.(open := f.open[s - w.openMin := a], maxPromised := Max(w.maxPromised, Promise(a)))
  }

  lemma {:induction false} WrittenMeaning(w: Window, s: Slot, a: Acc)
    requires WindowOk(w) && w.openMin <= s && AccOk(a, w.quorum)
    ensures var g := Written(w, s, a);
            && WindowOpenOk(g)
            && Put(w, s, a) == FillDecisions(g)
            && End(g) == (if s < End(w) then End(w) else s + 1)
            && (!a.Resolved? && s >= w.openMin ==> !g.open[0].Resolved?)
            && (forall t: Slot :: View(g, t) ==
                  if t == s then a else if t < End(g) then View(w, t) else AwaitValue(g.maxPromised, w.quorum))
  {
    var f := FillOpenSlots(w, s);
    FillMeaning(w, s);
    var g := Written(w, s, a);
    forall j | 0 <= j < |g.open|
      ensures AccOk(g.open[j], g.quorum) && Precedes(Promise(g.open[j]), g.maxPromised)
    {
      if j != s - w.openMin {
        assert g.open[j] == View(w, w.openMin + j);
        ViewOk(w, w.openMin + j);
      }
    }
    forall t: Slot
      ensures View(g, t) ==
        if t == s then a else if t < End(g) then View(w, t) else AwaitValue(g.maxPromised, w.quorum)
    {
      assert View(f, t) == View(w, t);
    }
  }

  lemma {:induction false} PutMeaning(w: Window, s: Slot, a: Acc)
    requires WindowOk(w) && !View(w, s).Resolved? && AccOk(a, w.quorum)
    ensures PutSpec(w, s, a, Put(w, s, a))
  {
    ViewOk(w, s);
    var g := Written(w, s, a);
    WrittenMeaning(w, s, a);
    FillDecisionsMeaning(g);
    var w' := FillDecisions(g);
    forall t: Slot
      ensures View(w', t) ==
        if t == s then a else if t < End(g) then View(w, t) else AwaitValue(g.maxPromised, w.quorum)
    {
      assert View(w', t) == View(g, t);
    }
    if !a.Resolved? {
      assert ResolvedPrefix(g.open) == 0;
    }
  }

  /** The log is exactly the longest resolved prefix of the map. */
  lemma {:induction false} LogIsResolvedPrefix(w: Window)
    requires WindowOk(w)
    ensures forall s: Slot :: s < |w.decided| ==> View(w, s) == Resolved(w.decided[s].bal, w.decided[s].val)
    ensures !View(w, |w.decided|).Resolved?
  {
    ViewOk(w, w.openMin);
  }

  /** The last open slot if it holds no value, else the first one that is not open. */
  ghost function FreeSlot(w: Window): Slot {
    if End(w) > 0 && View(w, End(w) - 1).AwaitValue? then End(w) - 1 else End(w)
  }

  /** The next slot is the last open one if and only if that one holds no value, and the
      first unopened one otherwise; it holds no value itself. */
  lemma {:induction false} NextSlotMeaning(w: Window)
    requires WindowOk(w)
    ensures NextSlot(w) == FreeSlot(w)
    ensures NextSlot(w) == End(w) - 1 <==> View(w, End(w) - 1).AwaitValue?
    ensures NextSlot(w) == End(w) <==> !View(w, End(w) - 1).AwaitValue?
    ensures View(w, NextSlot(w)).AwaitValue? && NextSlot(w) >= w.openMin
  {
    ViewOk(w, NextSlot(w));
  }

  /** Slot `t` holds no value. */
  ghost predicate Empty(w: Window, t: Slot) {
    View(w, t).AwaitValue?
  }

  /** The next slot leaves no new hole: if every slot below the last open one holds a value or
      is resolved, so does every slot below the next one. */
  lemma {:induction false} NextSlotLeavesNoHole(w: Window)
    requires WindowOk(w) && forall t: Slot :: t < End(w) - 1 ==> !Empty(w, t)
    ensures forall t: Slot :: t < NextSlot(w) ==> !Empty(w, t)
  {
    hide View, WindowOk;
    NextSlotMeaning(w);
    forall t: Slot | t < NextSlot(w) ensures !Empty(w, t) {
      if t == End(w) - 1 { assert !View(w, t).AwaitValue?; }
    }
  }

  /** How a window may change: slots grow, and the log only gets longer. */
  ghost predicate WindowGrows(w: Window, w': Window) {
    && w.quorum == w'.quorum
    && w.decided <= w'.decided
    && End(w) <= End(w')
    && Precedes(w.maxPromised, w'.maxPromised)
    && forall s: Slot :: AccGrows(View(w, s), View(w', s))
  }

  lemma {:induction false} WindowGrowsReflexive(w: Window)
    ensures WindowGrows(w, w)
  {
  }

  lemma {:induction false} WindowGrowsTransitive(u: Window, v: Window, w: Window)
    requires WindowGrows(u, v) && WindowGrows(v, w)
    ensures WindowGrows(u, w)
  {
    forall s: Slot
      ensures AccGrows(View(u, s), View(w, s))
    {
      assert AccGrows(View(u, s), View(v, s)) && AccGrows(View(v, s), View(w, s));
      AccGrowsTransitive(View(u, s), View(v, s), View(w, s));
    }
  }

  lemma {:induction false} PutGrows(w: Window, s: Slot, a: Acc)
    requires WindowOk(w) && !View(w, s).Resolved? && AccOk(a, w.quorum) && AccGrows(View(w, s), a)
    ensures WindowOk(Put(w, s, a)) && WindowGrows(w, Put(w, s, a))
  {
    PutMeaning(w, s, a);
    var w' := Put(w, s, a);
    forall t: Slot
      ensures AccGrows(View(w, t), View(w', t))
    {
      if t < End(w) || t <= s {
      } else {
        assert View(w, t) == AwaitValue(w.maxPromised, w.quorum);
      }
    }
  }
}
