// Catching up: what a leader answers to CATCHUP, and that its answers close the gap of
// the follower that asked.
module CatchingUp {
  import opened Ballots
  import opened Acceptors
  import opened Windows
  import opened Proposers
  import opened NodeSteps
  import opened WindowChanges
  import opened Accepting
  import C = Commands

  // ---------------------------------------------------------------------------
  // The answer
  // ---------------------------------------------------------------------------

  ghost predicate Sorted(slots: seq<Slot>) {
    forall i, j :: 0 <= i < j < |slots| ==> slots[i] <= slots[j]
  }

  lemma {:induction false} InsertSorts(s: Slot, slots: seq<Slot>)
    requires Sorted(slots)
    ensures Sorted(SortedInsert(s, slots))
  {
    if slots == [] || s <= slots[0] {
    } else {
      var r := SortedInsert(s, slots[1..]);
      InsertSorts(s, slots[1..]);
      InsertAdds(s, slots[1..]);
      forall j | 0 <= j < |r|
        ensures slots[0] <= r[j]
      {
        assert r[j] in multiset(r);
      }
    }
  }

  lemma {:induction false} InsertAdds(s: Slot, slots: seq<Slot>)
    ensures multiset(SortedInsert(s, slots)) == multiset(slots) + multiset{s}
    ensures forall x :: x in SortedInsert(s, slots) ==> x == s || x in slots
  {
    if slots == [] || s <= slots[0] {
    } else {
      InsertAdds(s, slots[1..]);
      assert slots == [slots[0]] + slots[1..];
    }
  }

  lemma {:induction false} SortSorts(slots: seq<Slot>)
    ensures Sorted(Sort(slots)) && multiset(Sort(slots)) == multiset(slots)
  {
    if slots != [] {
      SortSorts(slots[1..]);
      InsertSorts(slots[0], Sort(slots[1..]));
      InsertAdds(slots[0], Sort(slots[1..]));
      assert slots == [slots[0]] + slots[1..];
    }
  }

  /** The resolved slots of the list with their values, in the order of the list. */
  function Wanted(w: Window, slots: seq<Slot>): seq<C.Entry> {
    if slots == [] then []
    else (if View(w, slots[0]).Resolved? then [C.Entry(slots[0], View(w, slots[0]).value)] else []) + Wanted(w, slots[1..])
  }

  /** The entries of all resolutions, concatenated. */
  function Flatten(cmds: seq<C.Command>): seq<C.Entry> {
    if cmds == [] then []
    else (if cmds[0].Resolution? then cmds[0].entries else []) + Flatten(cmds[1..])
  }

  /** The window resolved every entry at ballot `bal`. */
  ghost predicate HeldAt(w: Window, bal: Ballot, entries: seq<C.Entry>) {
    forall e :: e in entries ==> View(w, e.slot) == Resolved(bal, e.val)
  }

  /** A non-empty resolution of what the window holds. */
  ghost predicate Truthful(w: Window, cmd: C.Command) {
    cmd.Resolution? && cmd.entries != [] && HeldAt(w, cmd.bal, cmd.entries)
  }

  /** Consecutive messages have different ballots, and the first has ballot `run` if given. */
  ghost predicate Alternates(cmds: seq<C.Command>, run: Option<Ballot>) {
    && (forall i :: 0 <= i < |cmds| - 1 && cmds[i].Resolution? && cmds[i + 1].Resolution? ==> cmds[i].bal != cmds[i + 1].bal)
    && (run.Some? && cmds != [] && cmds[0].Resolution? ==> cmds[0].bal == run.value)
  }

  lemma {:induction false} BatchesMeaning(w: Window, slots: seq<Slot>, run: Option<Ballot>, buf: seq<C.Entry>)
    requires run.Some? <==> buf != []
    requires run.Some? ==> HeldAt(w, run.value, buf)
    ensures var cmds := Batches(w, slots, run, buf);
            && Flatten(cmds) == buf + Wanted(w, slots)
            && (forall cmd :: cmd in cmds ==> Truthful(w, cmd))
            && Alternates(cmds, run)
    decreases |slots|
  {
    hide View;
    if slots == [] {
      if buf != [] { assert Flatten([C.Resolution(run.value, buf)]) == buf + Flatten([]); }
    } else {
      var a := View(w, slots[0]);
      var rest := slots[1..];
      if !a.Resolved? {
        BatchesMeaning(w, rest, run, buf);
      } else {
        var e := C.Entry(slots[0], a.value);
        if run.Some? && run.value != a.accepted {
          BatchesMeaning(w, rest, Some(a.accepted), [e]);
          var tail := Batches(w, rest, Some(a.accepted), [e]);
          var cmds := [C.Resolution(run.value, buf)] + tail;
          assert cmds[1..] == tail;
          assert forall i :: 0 < i < |cmds| ==> cmds[i] == tail[i - 1];
          assert buf + ([e] + Wanted(w, rest)) == buf + Wanted(w, slots);
        } else {
          BatchesMeaning(w, rest, Some(a.accepted), buf + [e]);
          assert (buf + [e]) + Wanted(w, rest) == buf + ([e] + Wanted(w, rest));
        }
      }
    }
  }

  /** Batching loses nothing: a leader answers a CATCHUP with resolutions whose entries,
      concatenated, are the requested slots in increasing order as far as it resolved
      them, with their values; the ballot of each message is the ballot at which all its
      slots were resolved, and consecutive messages have different ballots. Nobody else
      answers, and answering changes nothing. */
  lemma {:induction false} CatchupMeaning(n: NodeState, peer: NodeId, slots: seq<Slot>)
    returns (cmds: seq<C.Command>, sorted: seq<Slot>)
    ensures OnCatchup(n, peer, slots).node == n
    ensures OnCatchup(n, peer, slots).outs == if n.prop.state.Leader? then C.SendAll(peer, cmds) else []
    ensures Sorted(sorted) && multiset(sorted) == multiset(slots)
    ensures Flatten(cmds) == Wanted(n.window, sorted)
    ensures forall cmd :: cmd in cmds ==> Truthful(n.window, cmd)
    ensures Alternates(cmds, None)
  {
    hide View, Batches, Sort, Truthful;
    cmds, sorted := Batches(n.window, Sort(slots), None, []), Sort(slots);
    SortSorts(slots);
    BatchesMeaning(n.window, sorted, None, []);
  }

  // ---------------------------------------------------------------------------
  // Learning
  // ---------------------------------------------------------------------------

  ghost predicate Names(entries: seq<C.Entry>, s: Slot) {
    exists e :: e in entries && e.slot == s
  }

  /** What resolutions do to one slot: a resolved slot stays; an unresolved one becomes
      resolved exactly if it is named, at the given ballot with the value of its first entry. */
  ghost predicate Learned(w: Window, bal: Ballot, entries: seq<C.Entry>, w': Window, s: Slot) {
    if View(w, s).Resolved? then View(w', s) == View(w, s)
    else
      var v := FirstValue(entries, s);
      if v.Some? then View(w', s) == Resolved(bal, v.value) else Kept(w, w', s)
  }

  lemma {:induction false} FirstIsNamed(entries: seq<C.Entry>, s: Slot)
    ensures FirstValue(entries, s).Some? <==> Names(entries, s)
  {
    if entries != [] {
      FirstIsNamed(entries[1..], s);
      NamesMore(entries, s);
    }
  }

  lemma {:induction false} NamesMore(entries: seq<C.Entry>, s: Slot)
    requires entries != []
    ensures Names(entries, s) <==> entries[0].slot == s || Names(entries[1..], s)
  {
    if Names(entries, s) {
      var d :| d in entries && d.slot == s;
      assert d == entries[0] || d in entries[1..];
    }
    if Names(entries[1..], s) {
      var d :| d in entries[1..] && d.slot == s;
      assert d in entries;
    }
    assert entries[0] in entries;
  }

  /** In particular, exactly the named slots become resolved. */
  lemma {:induction false} LearnedNamed(w: Window, bal: Ballot, entries: seq<C.Entry>, w': Window, s: Slot)
    requires Learned(w, bal, entries, w', s)
    ensures View(w, s).Resolved? ==> View(w', s) == View(w, s)
    ensures !View(w, s).Resolved? ==> (View(w', s).Resolved? <==> Names(entries, s))
    ensures !View(w, s).Resolved? && Names(entries, s) ==>
              View(w', s).Resolved? && View(w', s).accepted == bal && C.Entry(s, View(w', s).value) in entries
  {
    hide View;
    FirstIsNamed(entries, s);
    if FirstValue(entries, s).Some? { FirstIsEntry(entries, s); }
  }

  /** The unresolved slots that the message names. */
  ghost function NewSlots(w: Window, entries: seq<C.Entry>): set<Slot> {
    set e | e in entries && !View(w, e.slot).Resolved? :: e.slot
  }

  /** The ballots that resolving the named slots raises the window to. */
  ghost function NewBallots(w: Window, bal: Ballot, entries: seq<C.Entry>): set<Ballot> {
    set e | e in entries && !View(w, e.slot).Resolved? :: bal
  }

  lemma {:induction false} ResolveOne(w: Window, s: Slot, bal: Ballot, v: Bytes)
    requires WindowOk(w) && !View(w, s).Resolved?
    ensures var w' := Put(w, s, Resolve(View(w, s), bal, v));
            && Changes(w, w', {s}, {bal}) && View(w', s) == Resolved(bal, v)
            && forall t: Slot :: t != s ==> Kept(w, w', t)
  {
    hide Kept;
    ViewOk(w, s);
    var bals := if Precedes(Some(bal), w.maxPromised) then {} else {bal};
    PutChanges(w, s, Resolved(bal, v), bals);
    ChangesLess(w, Put(w, s, Resolved(bal, v)), {s}, bals, {s}, {bal});
  }

  /** A RESOLUTION resolves exactly the named slots that were not, each at the ballot of the
      message with the value of its first entry, and changes no other slot. */
  lemma {:induction false} ResolveMeaning(w: Window, bal: Ballot, entries: seq<C.Entry>)
    requires WindowOk(w)
    ensures var w' := ResolveAll(w, bal, entries);
            && Changes(w, w', NewSlots(w, entries), NewBallots(w, bal, entries))
            && forall s: Slot :: Learned(w, bal, entries, w', s)
    decreases |entries|
  {
    hide WindowOk, View, Put, Resolve, Learned, Kept, Changes, NewSlots, NewBallots;
    if entries == [] {
      LearnedNothing(w, bal);
    } else {
      var e, rest := entries[0], entries[1..];
      var w' := ResolveAll(w, bal, entries);
      if View(w, e.slot).Resolved? {
        ResolveMeaning(w, bal, rest);
        forall s: Slot ensures Learned(w, bal, entries, w', s) { LearnedBehind(w, bal, entries, w', s); }
        NewMore(w, bal, entries, w);
      } else {
        var w1 := Put(w, e.slot, Resolve(View(w, e.slot), bal, e.val));
        ResolveOne(w, e.slot, bal, e.val);
        ChangesFacts(w, w1, {e.slot}, {bal});
        ResolveMeaning(w1, bal, rest);
        ResolveJoin(w, w1, bal, entries, w');
      }
    }
  }

  lemma {:induction false} LearnedNothing(w: Window, bal: Ballot)
    requires WindowOk(w)
    ensures Changes(w, w, NewSlots(w, []), NewBallots(w, bal, [])) && forall s: Slot :: Learned(w, bal, [], w, s)
  {
    hide Kept, View;
    KeptAll(w);
    assert NewSlots(w, []) == {} && NewBallots(w, bal, []) == {};
  }

  lemma {:induction false} LearnedBehind(w: Window, bal: Ballot, entries: seq<C.Entry>, w': Window, s: Slot)
    requires entries != [] && View(w, entries[0].slot).Resolved? && Learned(w, bal, entries[1..], w', s)
    ensures Learned(w, bal, entries, w', s)
  {
    hide View;
  }

  lemma {:induction false} NewMore(w: Window, bal: Ballot, entries: seq<C.Entry>, w1: Window)
    requires entries != []
    requires forall t: Slot :: t != entries[0].slot ==> (View(w1, t).Resolved? <==> View(w, t).Resolved?)
    ensures View(w, entries[0].slot).Resolved? && w1 == w ==> NewSlots(w, entries) == NewSlots(w, entries[1..])
    ensures View(w, entries[0].slot).Resolved? && w1 == w ==> NewBallots(w, bal, entries) == NewBallots(w, bal, entries[1..])
    ensures !View(w, entries[0].slot).Resolved? && View(w1, entries[0].slot).Resolved? ==>
              && NewSlots(w, entries) == {entries[0].slot} + NewSlots(w1, entries[1..])
              && NewBallots(w, bal, entries) == {bal} + NewBallots(w1, bal, entries[1..])
  {
    hide View;
    assert forall x :: x in entries <==> x == entries[0] || x in entries[1..];
  }

  lemma {:induction false} ResolveJoin(w: Window, w1: Window, bal: Ballot, entries: seq<C.Entry>, w': Window)
    requires WindowOk(w) && entries != [] && !View(w, entries[0].slot).Resolved?
    requires Changes(w, w1, {entries[0].slot}, {bal}) && View(w1, entries[0].slot) == Resolved(bal, entries[0].val)
    requires forall t: Slot :: t != entries[0].slot ==> Kept(w, w1, t)
    requires Changes(w1, w', NewSlots(w1, entries[1..]), NewBallots(w1, bal, entries[1..]))
    requires forall s: Slot :: Learned(w1, bal, entries[1..], w', s)
    ensures Changes(w, w', NewSlots(w, entries), NewBallots(w, bal, entries))
    ensures forall s: Slot :: Learned(w, bal, entries, w', s)
  {
    hide WindowOk, View, Learned, Changes, NewSlots, NewBallots;
    var e, rest := entries[0], entries[1..];
    ChangesFacts(w, w1, {e.slot}, {bal});
    ChangesFacts(w1, w', NewSlots(w1, rest), NewBallots(w1, bal, rest));
    ChangesTransitive(w, w1, w', {e.slot}, {bal}, NewSlots(w1, rest), NewBallots(w1, bal, rest));
    forall t: Slot
      ensures t != e.slot ==> (View(w1, t).Resolved? <==> View(w, t).Resolved?)
      ensures Learned(w, bal, entries, w', t)
    {
      LearnedStep(w, w1, bal, entries, w', t);
    }
    NewMore(w, bal, entries, w1);
  }

  lemma {:induction false} LearnedStep(w: Window, w1: Window, bal: Ballot, entries: seq<C.Entry>, w': Window, s: Slot)
    requires entries != [] && Learned(w1, bal, entries[1..], w', s) && !View(w, entries[0].slot).Resolved?
    requires End(w) <= End(w1) && w1.quorum == w.quorum && Precedes(w1.maxPromised, w'.maxPromised)
    requires if s == entries[0].slot then View(w1, s) == Resolved(bal, entries[0].val) else Kept(w, w1, s)
    ensures Learned(w, bal, entries, w', s)
    ensures s != entries[0].slot ==> (View(w1, s).Resolved? <==> View(w, s).Resolved?)
  {
    hide View;
    if s != entries[0].slot && !View(w, s).Resolved? && FirstValue(entries, s).None? {
      KeptTransitive(w, w1, w', s);
    }
  }

  /** The follower handles the messages in the given order. */
  function Learn(n: NodeState, cmds: seq<C.Command>): NodeState
    decreases |cmds|
  {
    if cmds == [] then n else Learn(Handle(n, Receive(cmds[0])).node, cmds[1..])
  }

  /** What a slot gained came from the window `l`. */
  ghost predicate GainedFrom(w: Window, w': Window, l: Window) {
    forall s: Slot :: && (View(w, s).Resolved? ==> View(w', s) == View(w, s))
                      && (!View(w, s).Resolved? && View(w', s).Resolved? ==> View(w', s) == View(l, s))
  }

  ghost predicate AllResolved(w: Window, entries: seq<C.Entry>) {
    forall e :: e in entries ==> View(w, e.slot).Resolved?
  }

  lemma {:induction false} LearnOne(n: NodeState, cmd: C.Command, l: Window)
    requires WindowOk(n.window) && Truthful(l, cmd)
    ensures var y := Handle(n, Receive(cmd)).node;
            WindowOk(y.window) && GainedFrom(n.window, y.window, l) && AllResolved(y.window, cmd.entries) && y.id == n.id
  {
    hide WindowOk, View, ResolveAll, Unresolved, ObserveBallot;
    var w' := ResolveAll(n.window, cmd.bal, cmd.entries);
    ResolveMeaning(n.window, cmd.bal, cmd.entries);
    forall s: Slot
      ensures View(n.window, s).Resolved? ==> View(w', s) == View(n.window, s)
      ensures !View(n.window, s).Resolved? && View(w', s).Resolved? ==> View(w', s) == View(l, s)
    {
      LearnedNamed(n.window, cmd.bal, cmd.entries, w', s);
      if !View(n.window, s).Resolved? && View(w', s).Resolved? {
        assert C.Entry(s, View(w', s).value) in cmd.entries;
      }
    }
    forall e | e in cmd.entries
      ensures View(w', e.slot).Resolved?
    {
      LearnedNamed(n.window, cmd.bal, cmd.entries, w', e.slot);
      assert Names(cmd.entries, e.slot);
    }
  }

  lemma {:induction false} GainedTransitive(u: Window, v: Window, w: Window, l: Window)
    requires GainedFrom(u, v, l) && GainedFrom(v, w, l)
    ensures GainedFrom(u, w, l)
  {
    hide View;
  }

  lemma {:induction false} ResolvedKept(v: Window, w: Window, l: Window, entries: seq<C.Entry>)
    requires GainedFrom(v, w, l) && AllResolved(v, entries)
    ensures AllResolved(w, entries)
  {
    hide View;
  }

  lemma {:induction false} LearnMeaning(n: NodeState, cmds: seq<C.Command>, l: Window)
    requires WindowOk(n.window) && forall cmd :: cmd in cmds ==> Truthful(l, cmd)
    ensures var y := Learn(n, cmds);
            && WindowOk(y.window) && GainedFrom(n.window, y.window, l)
            && forall cmd :: cmd in cmds ==> cmd.Resolution? && AllResolved(y.window, cmd.entries)
    decreases |cmds|
  {
    hide WindowOk, View, Handle, AllResolved, GainedFrom, Truthful;
    if cmds == [] {
      GainedNothing(n.window, l);
    } else {
      var m := Handle(n, Receive(cmds[0])).node;
      assert cmds[0] in cmds;
      LearnOne(n, cmds[0], l);
      LearnMeaning(m, cmds[1..], l);
      TruthfulEntries(l, cmds[0]);
      ResolvedKept(m.window, Learn(n, cmds).window, l, cmds[0].entries);
      GainedTransitive(n.window, m.window, Learn(n, cmds).window, l);
    }
  }

  lemma {:induction false} TruthfulEntries(l: Window, cmd: C.Command)
    requires Truthful(l, cmd)
    ensures cmd.Resolution?
  {
  }

  lemma {:induction false} GainedNothing(w: Window, l: Window)
    ensures GainedFrom(w, w, l)
  {
  }

  // ---------------------------------------------------------------------------
  // Closing the gap
  // ---------------------------------------------------------------------------

  /** `slots` lists the unresolved slots from `slot` to `end`, each once, in slot order. */
  ghost predicate ListsMissing(w: Window, slot: Slot, end: Slot, slots: seq<Slot>) {
    && (forall s: Slot :: s in slots <==> slot <= s < end && !View(w, s).Resolved?)
    && forall i, j :: 0 <= i < j < |slots| ==> slots[i] < slots[j]
  }

  lemma {:induction false} UnresolvedMeaning(w: Window, slot: Slot, end: Slot)
    ensures ListsMissing(w, slot, end, Unresolved(w, slot, end))
    decreases end - slot
  {
    hide View;
    if slot < end {
      UnresolvedMeaning(w, slot + 1, end);
      var rest, all := Unresolved(w, slot + 1, end), Unresolved(w, slot, end);
      if !View(w, slot).Resolved? {
        assert all == [slot] + rest;
        forall j | 0 < j < |all| ensures all[j] == rest[j - 1] && slot < all[j] { assert rest[j - 1] in rest; }
      }
    }
  }

  lemma {:induction false} WantedHas(w: Window, slots: seq<Slot>, s: Slot)
    requires s in slots && View(w, s).Resolved?
    ensures C.Entry(s, View(w, s).value) in Wanted(w, slots)
  {
    hide View;
    if s != slots[0] { WantedHas(w, slots[1..], s); }
  }

  lemma {:induction false} FlattenFrom(cmds: seq<C.Command>, e: C.Entry) returns (cmd: C.Command)
    requires e in Flatten(cmds)
    ensures cmd in cmds && cmd.Resolution? && e in cmd.entries
  {
    if cmds[0].Resolution? && e in cmds[0].entries {
      cmd := cmds[0];
    } else {
      cmd := FlattenFrom(cmds[1..], e);
    }
  }

  /** The messages `ms` are the answers of the leader, in any order, each at least once. */
  ghost predicate AnswersOf(leader: NodeState, follower: NodeId, slots: seq<Slot>, ms: seq<C.Command>) {
    && (forall m :: m in ms ==> C.Send(follower, m) in OnCatchup(leader, follower, slots).outs)
    && (forall o :: o in OnCatchup(leader, follower, slots).outs ==> o.cmd in ms)
  }

  lemma {:induction false} AnswersAre(leader: NodeState, follower: NodeId, slots: seq<Slot>, ms: seq<C.Command>,
                                      cmds: seq<C.Command>)
    requires OnCatchup(leader, follower, slots).outs == C.SendAll(follower, cmds) && AnswersOf(leader, follower, slots, ms)
    ensures forall m :: m in ms <==> m in cmds
  {
    hide OnCatchup;
    var outs := OnCatchup(leader, follower, slots).outs;
    forall m | m in ms
      ensures m in cmds
    {
      var i :| 0 <= i < |outs| && outs[i] == C.Send(follower, m);
      assert outs[i] == C.Send(follower, cmds[i]);
    }
    forall m | m in cmds
      ensures m in ms
    {
      var i :| 0 <= i < |cmds| && cmds[i] == m;
      assert outs[i] == C.Send(follower, m);
      assert outs[i] in outs;
    }
  }

  /** Catching up closes the gap. A follower handles a RESOLUTION, still misses slots and
      asks for them; the leader it reaches has resolved all of them. Once the follower
      handled the leader's answers, in any order and possibly repeated, its window starts
      at or past the end of what it had open, and every requested slot holds what the
      leader resolved there. */
  lemma {:induction false} CatchupClosesGap(f: NodeState, b: Ballot, entries: seq<C.Entry>, leader: NodeState,
                                            to: NodeId, slots: seq<Slot>, ms: seq<C.Command>)
    requires WindowOk(f.window) && leader.prop.state.Leader?
    requires OnResolution(f, b, entries).outs == [C.Send(to, C.Catchup(f.id, slots))]
    requires forall s :: s in slots ==> View(leader.window, s).Resolved?
    requires AnswersOf(leader, f.id, slots, ms)
    ensures var x := OnResolution(f, b, entries).node; var y := Learn(x, ms);
            && y.window.openMin >= End(x.window)
            && forall s :: s in slots ==> View(y.window, s) == View(leader.window, s)
  {
    hide WindowOk, View, ResolveAll, Unresolved, ObserveBallot, Learn, Truthful, GainedFrom, AllResolved, OnCatchup, AnswersOf;
    var x := OnResolution(f, b, entries).node;
    assert slots == Unresolved(x.window, x.window.openMin, End(x.window));
    ResolveMeaning(f.window, b, entries);
    UnresolvedMeaning(x.window, x.window.openMin, End(x.window));
    var cmds, sorted := CatchupMeaning(leader, f.id, slots);
    AnswersAre(leader, f.id, slots, ms, cmds);
    LearnMeaning(x, ms, leader.window);
    var y := Learn(x, ms);
    forall s: Slot | s in slots
      ensures View(y.window, s) == View(leader.window, s) && View(y.window, s).Resolved?
    {
      assert s in multiset(sorted);
      WantedHas(leader.window, sorted, s);
      var cmd := FlattenFrom(cmds, C.Entry(s, View(leader.window, s).value));
      Gained(x.window, y.window, leader.window, cmd.entries, C.Entry(s, View(leader.window, s).value));
    }
    forall s: Slot | s < End(x.window)
      ensures View(y.window, s).Resolved?
    {
      if s !in slots { GainedKeeps(x.window, y.window, leader.window, s); }
    }
    ResolvedUpTo(y.window, End(x.window));
  }

  lemma {:induction false} Gained(w: Window, w': Window, l: Window, entries: seq<C.Entry>, e: C.Entry)
    requires GainedFrom(w, w', l) && AllResolved(w', entries) && e in entries && !View(w, e.slot).Resolved?
    ensures View(w', e.slot).Resolved? && View(w', e.slot) == View(l, e.slot)
  {
    hide View;
  }

  /** A slot below the end that is not missing was resolved before. */
  lemma {:induction false} GainedKeeps(w: Window, w': Window, l: Window, s: Slot)
    requires WindowOk(w) && GainedFrom(w, w', l) && s < End(w)
    requires s < w.openMin || View(w, s).Resolved?
    ensures View(w', s).Resolved?
  {
  }

  /** A window whose slots are all resolved up to `end` starts there or later. */
  lemma {:induction false} ResolvedUpTo(w: Window, end: Slot)
    requires WindowOk(w) && forall s: Slot :: s < end ==> View(w, s).Resolved?
    ensures w.openMin >= end
  {
    LogIsResolvedPrefix(w);
  }
}
