// A leader's picks as slot accesses that keep the invariant.
module LeadSteps {
  import opened Ballots
  import opened Quorums
  import opened Acceptors
  import opened Windows
  import opened Proposers
  import opened NodeSteps
  import opened Clusters
  import opened Invariants
  import opened Growth
  import opened SlotSteps
  import opened LoopSteps
  import opened Safety
  import opened Leading
  import C = Commands

  /** The leader votes for its pick if its acceptor took over its ballot. */
  function LeadVotes(n: NodeId, s: Slot, b: Ballot, v: Bytes, a: Acc): set<Vote> {
    if a.AwaitQuorum? && a.bal == b then {Vote(n, s, b, v)} else {}
  }

  function Lead(c: Cluster, n: NodeId, b: Ballot, s: Slot, v: Bytes): Cluster
    requires n in c.nodes
  {
    var a := NoticeValue(At(c.nodes[n], s), b, v);
    Touch(c, n, s, a, LeadVotes(n, s, b, v, a), {Pick(b, s, v)})
  }

  /** The leader of `b` may pick `v` for the unresolved slot `s`. */
  ghost predicate MayPick(c: Cluster, n: NodeId, b: Ballot, s: Slot, v: Bytes) {
    && n in c.nodes && c.nodes[n].prop.state == Leader(b)
    && !At(c.nodes[n], s).Resolved?
    && (At(c.nodes[n], s).AwaitQuorum? ==> v == At(c.nodes[n], s).val)
    && (v == [] || v in c.submitted)
    && (forall k :: k in c.picks && k.bal == b && k.slot == s ==> k.val == v)
  }

  lemma {:induction false} LeaderFacts(c: Cluster, n: NodeId, b: Ballot)
    requires Inv(c) && n in c.nodes && c.nodes[n].prop.state == Leader(b)
    ensures c.nodes[n].prop.highest == Some(b) && b.node == n && Issued(c, b)
  {
    InvNode(c, n);
  }

  lemma {:induction false} LeadTouchable(c: Cluster, n: NodeId, b: Ballot, s: Slot, v: Bytes)
    requires Inv(c) && MayPick(c, n, b, s, v)
    ensures var a := NoticeValue(At(c.nodes[n], s), b, v); var votes := LeadVotes(n, s, b, v, a);
            && Touchable(c, n, s, a, votes, {Pick(b, s, v)})
            && SlotOk(Touch(c, n, s, a, votes, {Pick(b, s, v)}), n, s, a)
            && Precedes(Some(b), Promise(a))
  {
    hide Inv, WindowOk, Put;
    LeaderFacts(c, n, b);
    SlotAcc(c, n, s);
    OperationsGrow(At(c.nodes[n], s), c.nodes[n].window.quorum, b, v, n);
    forall size: nat ensures Members(Vacant(size)) == {} { VacantHasNoMembers(size); }
  }

  lemma {:induction false} OnePick(c: Cluster, b: Ballot, s: Slot, v: Bytes, d: Cluster)
    requires Inv(c) && d.picks == c.picks + {Pick(b, s, v)}
    requires forall k :: k in c.picks && k.bal == b && k.slot == s ==> k.val == v
    ensures OneValue(d)
  {
    assert OneValue(c);
  }

  lemma {:induction false} LeadNow(c: Cluster, n: NodeId, b: Ballot, s: Slot, v: Bytes)
    requires Inv(c) && MayPick(c, n, b, s, v) && Grows(c, Lead(c, n, b, s, v))
    requires Precedes(Some(b), Promise(NoticeValue(At(c.nodes[n], s), b, v)))
    requires At(Lead(c, n, b, s, v).nodes[n], s) == NoticeValue(At(c.nodes[n], s), b, v)
    ensures PicksNow(c, Lead(c, n, b, s, v), n, b, s, v)
  {
    hide Inv, Put, View, NoticeValue, Grows;
    LeaderFacts(c, n, b);
  }

  /** One pick of a leader keeps the invariant. */
  lemma {:induction false} LeadKeeps(c: Cluster, n: NodeId, b: Ballot, s: Slot, v: Bytes)
    requires Inv(c) && MayPick(c, n, b, s, v)
    ensures Inv(Lead(c, n, b, s, v)) && Grows(c, Lead(c, n, b, s, v))
    ensures At(Lead(c, n, b, s, v).nodes[n], s) == NoticeValue(At(c.nodes[n], s), b, v)
    ensures PutSpec(c.nodes[n].window, s, NoticeValue(At(c.nodes[n], s), b, v), Lead(c, n, b, s, v).nodes[n].window)
  {
    hide Inv, Touchable, SlotOk, WindowOk, Grows, PicksNow, NoticeValue;
    var a := NoticeValue(At(c.nodes[n], s), b, v);
    var d := Lead(c, n, b, s, v);
    LeadTouchable(c, n, b, s, v);
    NodeWindowOk(c, n);
    TouchGrows(c, n, s, a, LeadVotes(n, s, b, v, a), {Pick(b, s, v)});
    OnePick(c, b, s, v, d);
    LeadNow(c, n, b, s, v);
    PickKeepsSafety(c, d, n, b, s, v);
    TouchKeeps(c, n, s, a, LeadVotes(n, s, b, v, a), {Pick(b, s, v)});
  }

  // ---------------------------------------------------------------------------
  // Placing client values
  // ---------------------------------------------------------------------------

  /** `d` is `c` with new picks and votes of node `n` at ballot `b`; each vote is in a slot
      that holds the ballot, and no slot stops holding it. */
  ghost predicate LedBy(c: Cluster, n: NodeId, b: Ballot, picks: set<Pick>, d: Cluster) {
    && n in c.nodes && n in d.nodes
    && d == WithWindow(c, n, d.nodes[n].window).(votes := d.votes, picks := c.picks + picks)
    && c.votes <= d.votes
    && (forall vt :: vt in d.votes && vt !in c.votes ==>
          vt.node == n && vt.bal == b && Pick(b, vt.slot, vt.val) in picks && HoldsBallot(At(d.nodes[n], vt.slot), b))
    && (forall s: Slot :: HoldsBallot(At(c.nodes[n], s), b) ==> HoldsBallot(At(d.nodes[n], s), b))
  }

  lemma {:induction false} LedByJoin(c: Cluster, d: Cluster, e: Cluster, n: NodeId, b: Ballot, p: set<Pick>, q: set<Pick>)
    requires LedBy(c, n, b, p, d) && LedBy(d, n, b, q, e)
    ensures LedBy(c, n, b, p + q, e)
  {
    assert e.picks == c.picks + (p + q);
    assert e.nodes == c.nodes[n := c.nodes[n].(window := e.nodes[n].window)];
  }

  lemma {:induction false} LeadIsLed(c: Cluster, n: NodeId, b: Ballot, s: Slot, v: Bytes)
    requires n in c.nodes && !At(c.nodes[n], s).Resolved?
    requires At(Lead(c, n, b, s, v).nodes[n], s) == NoticeValue(At(c.nodes[n], s), b, v)
    requires PutSpec(c.nodes[n].window, s, NoticeValue(At(c.nodes[n], s), b, v), Lead(c, n, b, s, v).nodes[n].window)
    ensures LedBy(c, n, b, {Pick(b, s, v)}, Lead(c, n, b, s, v))
  {
    hide Put, WindowOk;
    var d := Lead(c, n, b, s, v);
    forall t: Slot | HoldsBallot(At(c.nodes[n], t), b)
      ensures HoldsBallot(At(d.nodes[n], t), b)
    {
    }
  }

  lemma {:induction false} FreshSlot(c: Cluster, n: NodeId, b: Ballot, s: Slot)
    requires Inv(c) && n in c.nodes && b.node == n && At(c.nodes[n], s).AwaitValue?
    ensures forall k :: k in c.picks && k.bal == b ==> k.slot != s
  {
    forall k | k in c.picks && k.bal == b
      ensures k.slot != s
    {
      InvPick(c, k);
    }
  }

  function PlacedPicks(ps: seq<Pick>): set<Pick> {
    set p | p in ps
  }

  /** In the slots from `from` on, every pick at ballot `b` is held by its leader. */
  ghost predicate Owned(c: Cluster, n: NodeId, b: Ballot, from: Slot) {
    && n in c.nodes
    && forall k :: k in c.picks && k.bal == b && k.slot >= from ==> HoldsBallot(At(c.nodes[n], k.slot), b)
  }

  lemma {:induction false} PlaceTouch(c: Cluster, n: NodeId, b: Ballot, v: Bytes)
    requires Inv(c) && n in c.nodes && c.nodes[n].prop.state == Leader(b) && v in c.submitted
    ensures var s := NextSlot(c.nodes[n].window); var d := Lead(c, n, b, s, v);
            && Inv(d) && Grows(c, d) && d.nodes[n].prop == c.nodes[n].prop && d.submitted == c.submitted
            && (Owned(c, n, b, 0) ==> Owned(d, n, b, 0)) && LedBy(c, n, b, {Pick(b, s, v)}, d)
  {
    hide Inv, Grows, WindowOk, NoticeValue;
    var w := c.nodes[n].window;
    var s := NextSlot(w);
    LeaderFacts(c, n, b);
    NodeWindowOk(c, n);
    NextSlotMeaning(w);
    FreshSlot(c, n, b, s);
    LeadKeeps(c, n, b, s, v);
    LeadIsLed(c, n, b, s, v);
    var d := Lead(c, n, b, s, v);
    if Owned(c, n, b, 0) {
      NoticedFresh(At(c.nodes[n], s), b, v);
      forall k | k in d.picks && k.bal == b
        ensures HoldsBallot(At(d.nodes[n], k.slot), b)
      {
        if k.slot != s {
          assert HoldsBallot(At(c.nodes[n], k.slot), b);
        }
      }
    }
  }

  lemma {:induction false} NoticedFresh(a: Acc, b: Ballot, v: Bytes)
    requires a.AwaitValue?
    ensures Holds(NoticeValue(a, b, v), b, v)
  {
  }

  lemma {:induction false} PlaceKeeps(c: Cluster, n: NodeId, b: Ballot, vals: seq<Bytes>) returns (e: Cluster)
    requires Inv(c) && n in c.nodes && c.nodes[n].prop.state == Leader(b)
    requires forall v :: v in vals ==> v in c.submitted
    ensures var r := Place(c.nodes[n].window, b, vals);
            Inv(e) && Grows(c, e) && LedBy(c, n, b, PlacedPicks(r.placed), e) && e.nodes[n].window == r.window
    ensures Owned(c, n, b, 0) ==> Owned(e, n, b, 0)
    decreases |vals|
  {
    hide Inv, Grows, Owned, NextSlot, Put, View;
    if vals == [] {
      e := c;
      GrowsReflexive(c);
      assert LedBy(c, n, b, {}, c) by { assert c.picks + {} == c.picks; }
    } else {
      var s := NextSlot(c.nodes[n].window);
      var d := Lead(c, n, b, s, vals[0]);
      PlaceTouch(c, n, b, vals[0]);
      e := PlaceKeeps(d, n, b, vals[1..]);
      GrowsTransitive(c, d, e);
      var rest := Place(d.nodes[n].window, b, vals[1..]);
      LedByJoin(c, d, e, n, b, {Pick(b, s, vals[0])}, PlacedPicks(rest.placed));
      assert PlacedPicks([Pick(b, s, vals[0])] + rest.placed) == {Pick(b, s, vals[0])} + PlacedPicks(rest.placed);
    }
  }

  // ---------------------------------------------------------------------------
  // Sweeping the window
  // ---------------------------------------------------------------------------

  lemma {:induction false} PickForKnown(c: Cluster, n: NodeId, s: Slot)
    requires Inv(c) && n in c.nodes && !At(c.nodes[n], s).Resolved?
    ensures var v := PickFor(At(c.nodes[n], s)); v == [] || v in c.submitted
    ensures At(c.nodes[n], s).AwaitQuorum? ==>
              PickFor(At(c.nodes[n], s)) == At(c.nodes[n], s).val && Pick(At(c.nodes[n], s).bal, s, At(c.nodes[n], s).val) in c.picks
  {
    InvSlot(c, n, s);
    var a := At(c.nodes[n], s);
    if a.AwaitQuorum? {
      InvPick(c, Pick(a.bal, s, a.val));
    }
  }

  lemma {:induction false} SweepTouch(c: Cluster, n: NodeId, b: Ballot, s: Slot)
    requires Inv(c) && n in c.nodes && c.nodes[n].prop.state == Leader(b) && Owned(c, n, b, s)
    requires !At(c.nodes[n], s).Resolved?
    ensures var d := Lead(c, n, b, s, PickFor(At(c.nodes[n], s)));
            Inv(d) && Grows(c, d) && Owned(d, n, b, s + 1)
            && LedBy(c, n, b, {Pick(b, s, PickFor(At(c.nodes[n], s)))}, d)
  {
    hide Inv, Grows, WindowOk, NoticeValue, PickFor;
    var a := At(c.nodes[n], s);
    var v := PickFor(a);
    PickForKnown(c, n, s);
    forall k | k in c.picks && k.bal == b && k.slot == s
      ensures k.val == v
    {
      InvOneValue(c);
    }
    LeadKeeps(c, n, b, s, v);
    LeadIsLed(c, n, b, s, v);
    var d := Lead(c, n, b, s, v);
    forall k | k in d.picks && k.bal == b && k.slot >= s + 1
      ensures HoldsBallot(At(d.nodes[n], k.slot), b)
    {
      assert k in c.picks;
      assert HoldsBallot(At(c.nodes[n], k.slot), b);
    }
  }

  lemma {:induction false} OwnedLater(c: Cluster, n: NodeId, b: Ballot, s: Slot)
    requires Owned(c, n, b, s)
    ensures Owned(c, n, b, s + 1)
  {
  }

  lemma {:induction false} SweepKeeps(c: Cluster, n: NodeId, b: Ballot, slot: Slot, end: Slot) returns (e: Cluster)
    requires Inv(c) && n in c.nodes && c.nodes[n].prop.state == Leader(b) && Owned(c, n, b, slot)
    ensures var r := Sweep(c.nodes[n].window, b, slot, end);
            Inv(e) && Grows(c, e) && LedBy(c, n, b, PicksOf(b, r.batch), e) && e.nodes[n].window == r.window
    decreases end - slot
  {
    hide Inv, Grows, Owned, Put, View, PickFor, NoticeValue;
    var w := c.nodes[n].window;
    if slot >= end {
      e := c;
      GrowsReflexive(c);
      assert LedBy(c, n, b, {}, c) by { assert c.picks + {} == c.picks; }
      assert PicksOf(b, []) == {};
    } else if View(w, slot).Resolved? {
      OwnedLater(c, n, b, slot);
      e := SweepKeeps(c, n, b, slot + 1, end);
    } else {
      var v := PickFor(View(w, slot));
      var d := Lead(c, n, b, slot, v);
      SweepTouch(c, n, b, slot);
      e := SweepKeeps(d, n, b, slot + 1, end);
      GrowsTransitive(c, d, e);
      var rest := Sweep(d.nodes[n].window, b, slot + 1, end);
      LedByJoin(c, d, e, n, b, {Pick(b, slot, v)}, PicksOf(b, rest.batch));
      assert PicksOf(b, [C.Entry(slot, v)] + rest.batch) == {Pick(b, slot, v)} + PicksOf(b, rest.batch) by {
        assert forall x :: x in [C.Entry(slot, v)] + rest.batch <==> x == C.Entry(slot, v) || x in rest.batch;
      }
    }
  }

  // ---------------------------------------------------------------------------
  // The whole batch
  // ---------------------------------------------------------------------------

  /** Everything placed is in the batch. */
  lemma {:induction false} PlacedInBatch(x: NodeState)
    requires WindowOk(x.window) && x.prop.state.Leader? && x.prop.highest.Some?
    ensures PlacedPicks(DriveAccept(x).placed) <= DriveAccept(x).picks
  {
    hide WindowOk, Place, Sweep;
    var b := x.prop.highest.value;
    var p := Place(x.window, b, x.prop.queue);
    forall k | k in p.placed
      ensures k in DriveAccept(x).picks
    {
      PlacedEntry(x.window, b, x.prop.queue, k);
    }
  }

  /** The votes of a leader are exactly those for its picks in slots that hold its ballot. */
  lemma {:induction false} LedVotes(c: Cluster, n: NodeId, b: Ballot, picks: set<Pick>, e: Cluster)
    requires Inv(e) && LedBy(c, n, b, picks, e) && b.node == n && forall k :: k in picks ==> k.bal == b
    ensures e.votes == c.votes + OwnVotes(n, e.nodes[n].window, b, picks)
  {
    hide Inv;
    var w := e.nodes[n].window;
    forall vt | vt in OwnVotes(n, w, b, picks)
      ensures vt in e.votes
    {
      var k :| k in picks && HoldsBallot(View(w, k.slot), b) && vt == Vote(n, k.slot, b, k.val);
      InvSlot(e, n, k.slot);
      PickBallot(e, n, b, k.slot, k);
    }
    forall vt | vt in e.votes && vt !in c.votes
      ensures vt in OwnVotes(n, w, b, picks)
    {
      var k := Pick(b, vt.slot, vt.val);
      assert k in picks && View(w, k.slot).AwaitQuorum? && View(w, k.slot).bal == b;
    }
  }

  lemma {:induction false} PickBallot(e: Cluster, n: NodeId, b: Ballot, s: Slot, k: Pick)
    requires Inv(e) && n in e.nodes && HoldsBallot(At(e.nodes[n], s), b) && k.slot == s
    requires Pick(b, s, At(e.nodes[n], s).val) in e.picks && Pick(b, s, k.val) in e.picks
    ensures At(e.nodes[n], s).val == k.val
  {
    InvOneValue(e);
  }
}
