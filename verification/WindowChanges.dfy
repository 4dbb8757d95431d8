// How a handler changed a window, told by its slots, its end and its promise alone.
module WindowChanges {
  import opened Ballots
  import opened Acceptors
  import opened Windows

  /** Slot `t` is as before. If it was not open, it still holds no value, and is bound by at
      least what bound it and at most what the window promises now. */
  ghost predicate Kept(w: Window, w': Window, t: Slot) {
    if t < End(w) then View(w', t) == View(w, t)
    else
      && View(w, t) == AwaitValue(w.maxPromised, w.quorum)
      && View(w', t).AwaitValue? && View(w', t).size == w.quorum
      && Precedes(w.maxPromised, View(w', t).promised) && Precedes(View(w', t).promised, w'.maxPromised)
  }

  /** The window ends where it did, behind one of the touched slots, or behind the one slot
      that is kept open, whichever is last. */
  ghost predicate Opens(w: Window, touched: set<Slot>, w': Window) {
    && End(w') >= End(w) && (forall s :: s in touched ==> s < End(w'))
    && (End(w') == End(w) || End(w') - 1 in touched || End(w') == w'.openMin + 1)
  }

  /** The promise of the window is the highest of what it was and the given ballots. */
  ghost predicate Rises(p: Option<Ballot>, bals: set<Ballot>, p': Option<Ballot>) {
    && Precedes(p, p') && (forall b :: b in bals ==> Precedes(Some(b), p'))
    && (p' == p || (p'.Some? && p'.value in bals))
  }

  /** The window changed by accesses to the touched slots that promised the given ballots. */
  ghost predicate Changes(w: Window, w': Window, touched: set<Slot>, bals: set<Ballot>) {
    && WindowOk(w') && w'.quorum == w.quorum && w.decided <= w'.decided
    && Opens(w, touched, w') && Rises(w.maxPromised, bals, w'.maxPromised)
  }

  lemma {:induction false} KeptAll(w: Window)
    requires WindowOk(w)
    ensures Changes(w, w, {}, {}) && forall t: Slot :: Kept(w, w, t)
  {
    forall t: Slot | t >= End(w) ensures View(w, t) == AwaitValue(w.maxPromised, w.quorum) { ViewOk(w, t); }
  }

  /** One access: every other slot is kept. */
  lemma {:induction false} PutChanges(w: Window, s: Slot, a: Acc, bals: set<Ballot>)
    requires WindowOk(w) && !View(w, s).Resolved? && AccOk(a, w.quorum)
    requires Precedes(Promise(a), w.maxPromised) ==> bals == {}
    requires !Precedes(Promise(a), w.maxPromised) ==> bals == {Promise(a).value}
    ensures var w' := Put(w, s, a);
            && View(w', s) == a && Changes(w, w', {s}, bals) && (forall t: Slot :: t != s ==> Kept(w, w', t))
  {
    ViewOk(w, s);
    PutMeaning(w, s, a);
  }

  lemma {:induction false} ChangesFacts(w: Window, w': Window, touched: set<Slot>, bals: set<Ballot>)
    requires Changes(w, w', touched, bals)
    ensures WindowOk(w') && w'.quorum == w.quorum && End(w') >= End(w) && w'.openMin >= |w.decided|
    ensures Precedes(w.maxPromised, w'.maxPromised)
  {
  }

  lemma {:induction false} ChangesTransitive(u: Window, v: Window, w: Window, s: set<Slot>, b: set<Ballot>,
                                             s': set<Slot>, b': set<Ballot>)
    requires WindowOk(u) && Changes(u, v, s, b) && Changes(v, w, s', b')
    ensures Changes(u, w, s + s', b + b')
  {
    assert w.openMin >= v.openMin && w.openMin < End(w);
  }

  lemma {:induction false} KeptTransitive(u: Window, v: Window, w: Window, t: Slot)
    requires End(u) <= End(v) && u.quorum == v.quorum && Precedes(v.maxPromised, w.maxPromised)
    requires Kept(u, v, t) && Kept(v, w, t)
    ensures Kept(u, w, t)
  {
    hide View;
  }

  /** A touched slot that was open already, and a ballot not above what was promised, change
      nothing about the end and the promise. */
  lemma {:induction false} ChangesLess(w: Window, w': Window, s: set<Slot>, b: set<Ballot>, s': set<Slot>, b': set<Ballot>)
    requires Changes(w, w', s, b)
    requires forall t :: t in s && t !in s' ==> t < End(w)
    requires forall t :: t in s' && t !in s ==> t < End(w)
    requires forall x :: x in b && x !in b' ==> Precedes(Some(x), w.maxPromised)
    requires forall x :: x in b' && x !in b ==> Precedes(Some(x), w.maxPromised)
    ensures Changes(w, w', s', b')
  {
    hide WindowOk;
  }
}
