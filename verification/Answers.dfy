// What a node does with each message it receives, told by the fields of the message, its
// slots, its ballots and the nodes it counted.
module Answers {
  import opened Ballots
  import opened Acceptors
  import opened Windows
  import opened WindowChanges
  import opened Proposers
  import opened NodeSteps
  import opened Leading
  import opened Electing
  import opened Promising
  import opened Accepting
  import opened Counting
  import opened CatchingUp
  import opened Conservation
  import C = Commands

  /** Nothing was voted for, picked or placed. */
  ghost predicate Quiet(o: Outcome) {
    o.votes == {} && o.picks == {} && o.placed == []
  }

  /** A follower that campaigns asks all peers for promises of its new ballot. */
  ghost predicate Campaigns(n: NodeState, o: Outcome) {
    && o.node == n.(prop := o.node.prop) && Campaigned(n.prop, o.node.prop)
    && o.outs == [C.Broadcast(C.Prepare(o.node.prop.highest.value))] && Quiet(o)
  }

  // ---------------------------------------------------------------------------
  // PROPOSAL
  // ---------------------------------------------------------------------------

  /** A leader puts the value in the last open slot if that holds none, else in the first slot
      that is not open. */
  ghost predicate Places(n: NodeState, bal: Ballot, v: Bytes, o: Outcome) {
    var w, w', s := n.window, o.node.window, FreeSlot(n.window);
    && o.node == n.(window := w') && o.outs == [C.Broadcast(C.Accept(bal, [C.Entry(s, v)]))]
    && TakesOver(View(w, s), w.quorum, bal, v, View(w', s)) && (forall t: Slot :: t != s ==> Kept(w, w', t))
    && Changes(w, w', {s}, {bal}) && w'.decided == w.decided
    && o.votes == {Vote(n.id, s, bal, v)} && o.picks == {Pick(bal, s, v)} && o.placed == [Pick(bal, s, v)]
  }

  ghost predicate MeetsProposal(n: NodeState, v: Bytes, o: Outcome) {
    var m := n.(prop := n.prop.(queue := n.prop.queue + [v]));
    match n.prop.state
    case Leader(b) => Places(n, b, v, o)
    case Candidate(_, _) => o.node == m && o.outs == [] && Quiet(o)
    case Follower =>
      if n.prop.highest.None? then Campaigns(m, o)
      else o.node == n && o.outs == [C.Send(n.prop.highest.value.node, C.Proposal(v))] && Quiet(o)
  }

  /** PROPOSAL: a leader puts the value in the next slot, which takes it over at the leader's
      ballot, announces exactly that, and votes for it; a candidate queues it; a follower sends
      it to the owner of the highest ballot it knows, or, knowing none, queues it and
      campaigns. */
  lemma {:induction false} ProposalAnswer(n: NodeState, v: Bytes)
    requires NodeOk(n)
    ensures MeetsProposal(n, v, Handle(n, Receive(C.Proposal(v))))
  {
    hide WindowOk, View, Put, NoticeValue, NextSlot, FreeSlot, Changes, Kept;
    if n.prop.state.Leader? {
      var w, b, s := n.window, n.prop.state.proposal, NextSlot(n.window);
      PlaceSlot(w, b, v);
      NextSlotMeaning(w);
      var w' := Put(w, s, NoticeValue(View(w, s), b, v));
      assert [v][1..] == [];
      assert Place(w, b, [v]) == PlaceResult(w', [Pick(b, s, v)]);
      assert OnProposal(n, v).picks == {Pick(b, s, v)};
    } else if n.prop.state.Follower? && n.prop.highest.None? {
      CandidacyMeaning(Enqueue(n, v).prop);
    }
  }

  /** A leader leaves no hole behind: if every slot below its last open one holds a value or is
      resolved, so does every slot up to the one it announces. */
  lemma {:induction false} ProposalLeavesNoHole(n: NodeState, v: Bytes)
    requires NodeOk(n) && n.prop.state.Leader? && forall t: Slot :: t < End(n.window) - 1 ==> !Empty(n.window, t)
    ensures var o := Handle(n, Receive(C.Proposal(v)));
            && |o.outs| == 1 && o.outs[0].cmd.Accept? && |o.outs[0].cmd.entries| == 1
            && forall t: Slot :: t <= o.outs[0].cmd.entries[0].slot ==> !Empty(o.node.window, t)
  {
    hide WindowOk, View, NextSlot, Handle, FreeSlot, Changes;
    ProposalAnswer(n, v);
    NextSlotLeavesNoHole(n.window);
    NextSlotMeaning(n.window);
    FreeAtEnd(n.window);
    var w' := Handle(n, Receive(C.Proposal(v))).node.window;
    forall t: Slot | t <= FreeSlot(n.window)
      ensures !Empty(w', t)
    {
      if t < FreeSlot(n.window) {
        assert !Empty(n.window, t);
        assert Kept(n.window, w', t);
      }
    }
  }

  lemma {:induction false} FreeAtEnd(w: Window)
    ensures FreeSlot(w) <= End(w)
  {
  }

  // ---------------------------------------------------------------------------
  // PREPARE
  // ---------------------------------------------------------------------------

  /** The reply to a PREPARE that was asked up to slot `k`. */
  ghost predicate PreparedUpTo(n: NodeState, bal: Ballot, k: Slot, o: Outcome) {
    var w, w' := n.window, o.node.window;
    && w.openMin <= k <= End(w) && |o.outs| == 1 && o.outs[0].Send? && o.outs[0].to == bal.node
    && var reply := o.outs[0].cmd;
       if k < End(w) then
         && PledgedUpTo(w, bal, w.openMin, End(w), k, PrepareResult(w', Promise(View(w, k)), []))
         && Promise(View(w, k)).Some? && reply == C.Reject(n.id, bal, Promise(View(w, k)).value)
       else
         && reply.Promise? && reply == C.Promise(n.id, bal, reply.reports)
         && PledgedUpTo(w, bal, w.openMin, End(w), k, PrepareResult(w', None, reply.reports))
         && (forall r :: r in reply.reports <==> w.openMin <= r.slot < End(w) && HasPair(View(w, r.slot), r.bal, r.val))
         && forall i, j :: 0 <= i < j < |reply.reports| ==> reply.reports[i].slot < reply.reports[j].slot
  }

  ghost predicate MeetsPrepare(n: NodeState, bal: Ballot, o: Outcome) {
    && o.node == n.(prop := o.node.prop, window := o.node.window) && Observes(n.prop, bal, o.node.prop) && Quiet(o)
    && exists k: Slot :: PreparedUpTo(n, bal, k, o)
  }

  /** PREPARE: the ballot is observed. The open slots promise it in order, up to the first one
      that promised a higher ballot; the owner of the ballot is sent a refusal with that
      promise, or, if there is none, a promise that reports exactly the pairs held in the open
      slots, in slot order. Promises already taken stay, and nothing else changes. */
  lemma {:induction false} PrepareAnswer(n: NodeState, bal: Ballot)
    requires NodeOk(n)
    ensures MeetsPrepare(n, bal, Handle(n, Receive(C.Prepare(bal))))
  {
    hide WindowOk, View, PrepareSweep, Changes, PledgedAt, Pledges, ObserveBallot, RoleHolds, ReportsOf, Observes;
    var w := n.window;
    ObserveMeaning(n.prop, bal);
    var k := PrepareMeaning(w, bal, w.openMin, End(w));
    ReportsMeaning(w, w.openMin, End(w));
    ReportsIrrelevant(w, bal, w.openMin, End(w), k, PrepareSweep(w, bal, w.openMin, End(w)));
    assert PreparedUpTo(n, bal, k, Handle(n, Receive(C.Prepare(bal))));
  }

  lemma {:induction false} ReportsIrrelevant(w: Window, bal: Ballot, slot: Slot, end: Slot, k: Slot, r: PrepareResult)
    requires PledgedUpTo(w, bal, slot, end, k, r)
    ensures k < end ==> PledgedUpTo(w, bal, slot, end, k, PrepareResult(r.window, r.refused, []))
    ensures k < end ==> r.refused.Some? && Promise(View(w, k)) == r.refused
    ensures k == end ==> r.refused.None? && r.reports == ReportsOf(w, slot, end)
  {
    hide View, Changes, PledgedAt, Pledges, ReportsOf;
  }

  // ---------------------------------------------------------------------------
  // PROMISE
  // ---------------------------------------------------------------------------

  /** The window took in the reports of a promise. */
  ghost predicate Absorbs(w: Window, reports: seq<C.Report>, w': Window) {
    && Changes(w, w', ReportedSlots(w, reports), ReportedBallots(w, reports))
    && forall t: Slot :: AbsorbedAt(w, reports, w', t)
  }

  /** The batch lists in slot order exactly the slots that `n` proposes for, with its values. */
  ghost predicate IsBatch(n: NodeState, batch: seq<C.Entry>) {
    && (forall i, j :: 0 <= i < j < |batch| ==> batch[i].slot < batch[j].slot)
    && (forall e :: e in batch ==> ToPropose(n, e.slot) && e.val == Planned(n, e.slot))
    && (forall t: Slot :: ToPropose(n, t) ==> C.Entry(t, Planned(n, t)) in batch)
  }

  /** A leader announces its batch to all peers, places its queue in it, and votes for it. */
  ghost predicate Announces(n: NodeState, bal: Ballot, o: Outcome) {
    var w' := o.node.window;
    && o.node == n.(prop := n.prop.(queue := []), window := w')
    && |o.outs| == 1 && o.outs[0].Broadcast? && o.outs[0].cmd.Accept? && o.outs[0].cmd.bal == bal
    && var batch := o.outs[0].cmd.entries;
       && IsBatch(n, batch)
       && Changes(n.window, w', LastOf(FreeSlot(n.window), n.prop.queue), {bal}) && w'.decided == n.window.decided
       && (forall t: Slot :: BatchAt(n, bal, w', t))
       && o.votes == BatchVotes(n.id, bal, batch, w') && o.picks == PicksOf(bal, batch)
       && |o.placed| == |n.prop.queue|
       && forall i :: 0 <= i < |o.placed| ==> o.placed[i] == Pick(bal, FreeSlot(n.window) + i, n.prop.queue[i])
  }

  /** A candidate that took in the reports as window `m`: it leads and announces its batch, or
      it goes on. */
  ghost predicate CountsVote(n: NodeState, peer: NodeId, bal: Ballot, m: Window, o: Outcome)
    requires RoleHolds(n.prop)
  {
    if Wins(n.prop, peer, bal) then
      Announces(n.(prop := n.prop.(state := Leader(bal)), window := m), n.prop.highest.value, o)
    else
      && o.node == n.(prop := o.node.prop, window := m) && CountsPromiseOf(n.prop, peer, bal, o.node.prop)
      && o.outs == [] && Quiet(o)
  }

  ghost predicate MeetsPromise(n: NodeState, peer: NodeId, bal: Ballot, reports: seq<C.Report>, o: Outcome)
    requires RoleHolds(n.prop)
  {
    if n.prop.state.Candidate? then exists m :: Absorbs(n.window, reports, m) && CountsVote(n, peer, bal, m, o)
    else o.node == n && o.outs == [] && Quiet(o)
  }

  lemma {:induction false} AnnounceAnswer(n: NodeState)
    requires WindowOk(n.window) && n.prop.state.Leader? && n.prop.highest.Some?
    ensures Announces(n, n.prop.highest.value, DriveAccept(n))
  {
    hide WindowOk, View, DriveAccept, Changes, BatchAt, FreeSlot, ToPropose, Planned, BatchVotes, PicksOf, LastOf;
    BatchMeaning(n);
    DriveAnswer(n);
  }

  /** PROMISE: only a candidate listens. It takes in the reports, and counts the peer if it
      promised the candidate's own ballot and did not before. If as many distinct nodes as make
      a quorum promised then, it leads, and announces to all peers one ACCEPT for exactly the
      unresolved slots of its window extended by its queue, in slot order, each with the value
      it holds, else the queued, else the empty one. Otherwise it stays candidate and sends
      nothing. */
  lemma {:induction false} PromiseAnswer(n: NodeState, peer: NodeId, bal: Ballot, reports: seq<C.Report>)
    requires NodeOk(n)
    ensures MeetsPromise(n, peer, bal, reports, Handle(n, Receive(C.Promise(peer, bal, reports))))
  {
    hide WindowOk, View, DriveAccept, Absorb, Changes, AbsorbedAt, Announces, ReceivePromise, RoleHolds, CountsPromiseOf, Wins;
    if n.prop.state.Candidate? {
      var m := Absorb(n.window, reports);
      AbsorbAnswer(n.window, reports);
      ChangesFacts(n.window, m, ReportedSlots(n.window, reports), ReportedBallots(n.window, reports));
      PromiseMeaning(n.prop, peer, bal);
      var p := ReceivePromise(n.prop, peer, bal);
      PromiseCases(n.prop, peer, bal, p);
      var l := n.(prop := p, window := m);
      if Wins(n.prop, peer, bal) { AnnounceAnswer(l); } else { NotLeading(l); }
      assert Absorbs(n.window, reports, m);
      assert CountsVote(n, peer, bal, m, Handle(n, Receive(C.Promise(peer, bal, reports))));
    }
  }

  lemma {:induction false} PromiseCases(p: Prop, peer: NodeId, bal: Ballot, p': Prop)
    requires RoleHolds(p) && p.state.Candidate? && CountsPromiseOf(p, peer, bal, p')
    ensures if Wins(p, peer, bal) then p' == p.(state := Leader(bal)) && p.highest.Some? else p'.state.Candidate?
  {
  }

  lemma {:induction false} NotLeading(n: NodeState)
    requires !n.prop.state.Leader?
    ensures DriveAccept(n) == Only(n, [])
  {
  }

  // ---------------------------------------------------------------------------
  // ACCEPT
  // ---------------------------------------------------------------------------

  /** How the handler ends if it accepted the first `k` entries. */
  ghost function EndAt(w: Window, entries: seq<C.Entry>, k: nat): AcceptEnd
    requires k <= |entries|
  {
    if k == |entries| then Finished
    else
      var a := View(w, entries[k].slot);
      if a.Resolved? || Promise(a).None? then Stopped else RefusedBy(Promise(a).value)
  }

  /** The reply to an ACCEPT whose first `k` entries were accepted. */
  ghost predicate AcceptedTo(n: NodeState, bal: Ballot, entries: seq<C.Entry>, k: nat, o: Outcome) {
    && k <= |entries|
    && var end := EndAt(n.window, entries, k); var slots := SlotsOf(entries[..k]);
       && AcceptedUpTo(n.window, n.id, bal, entries, k, AcceptResult(o.node.window, end, slots, o.votes))
       && o.outs == match end
                    case Finished => [C.Send(bal.node, C.Accepted(n.id, bal, slots))]
                    case Stopped => []
                    case RefusedBy(p) => [C.Send(bal.node, C.Reject(n.id, bal, p))]
  }

  ghost predicate MeetsAccept(n: NodeState, bal: Ballot, entries: seq<C.Entry>, o: Outcome) {
    && o.node == n.(prop := o.node.prop, window := o.node.window) && Observes(n.prop, bal, o.node.prop)
    && o.picks == {} && o.placed == []
    && exists k: nat :: AcceptedTo(n, bal, entries, k, o)
  }

  /** ACCEPT: the ballot is observed, also if there are no entries. The entries are accepted
      and voted for in order, up to the first one whose slot is resolved or promised a higher
      ballot. The owner of the ballot is sent all named slots, exactly if all were accepted;
      nothing, if the handler met a resolved slot; else a refusal with the higher promise. */
  lemma {:induction false} AcceptReply(n: NodeState, bal: Ballot, entries: seq<C.Entry>)
    requires NodeOk(n)
    ensures MeetsAccept(n, bal, entries, Handle(n, Receive(C.Accept(bal, entries))))
  {
    hide WindowOk, View, AcceptLoop, ObserveBallot, RoleHolds, Observes, AcceptedUpTo;
    ObserveMeaning(n.prop, bal);
    var k := AcceptAnswer(n.window, n.id, bal, entries);
    EndsAt(n.window, n.id, bal, entries, k, AcceptLoop(n.window, n.id, bal, entries));
    assert AcceptedTo(n, bal, entries, k, Handle(n, Receive(C.Accept(bal, entries))));
  }

  lemma {:induction false} EndsAt(w: Window, id: NodeId, bal: Ballot, entries: seq<C.Entry>, k: nat, r: AcceptResult)
    requires AcceptedUpTo(w, id, bal, entries, k, r)
    ensures k <= |entries| && r == AcceptResult(r.window, EndAt(w, entries, k), SlotsOf(entries[..k]), r.votes)
  {
    hide View, Changes, TookEntries, VotesFor;
  }

  // ---------------------------------------------------------------------------
  // REJECT
  // ---------------------------------------------------------------------------

  /** The whole queue goes to the node that owns the ballot, in order; if no ballot is known,
      it goes nowhere. */
  ghost predicate Forwards(queue: seq<Bytes>, highest: Option<Ballot>, outs: seq<C.Output>) {
    if highest.None? then outs == []
    else |outs| == |queue| && forall i :: 0 <= i < |queue| ==> outs[i] == C.Send(highest.value.node, C.Proposal(queue[i]))
  }

  ghost predicate MeetsReject(n: NodeState, proposed: Ballot, preempted: Ballot, o: Outcome) {
    exists p: Prop ::
      && (if proposed.Less(preempted) then Observes(n.prop, preempted, p) else p == n.prop)
      && o.node == (if p.state.Follower? then n.(prop := p.(queue := [])) else n.(prop := p))
      && (if p.state.Follower? then Forwards(p.queue, p.highest, o.outs) else o.outs == []) && Quiet(o)
  }

  /** REJECT: the promised ballot is observed if it is above the rejected one. A node that is
      follower then passes its whole queue on to the owner of the highest ballot it knows, in
      order; a candidate or leader carries on. The window is not touched. */
  lemma {:induction false} RejectAnswer(n: NodeState, peer: NodeId, proposed: Ballot, preempted: Ballot)
    requires NodeOk(n)
    ensures MeetsReject(n, proposed, preempted, Handle(n, Receive(C.Reject(peer, proposed, preempted))))
  {
    hide WindowOk, ObserveBallot, Observes;
    ObserveMeaning(n.prop, preempted);
    var p := if proposed.Less(preempted) then ObserveBallot(n.prop, preempted) else n.prop;
    assert p == ReceiveReject(n.prop, proposed, preempted);
  }

  /** A node told of a ballot above the rejected one and above all it knew, owned by another
      node, follows that node and has sent it its queue. */
  lemma {:induction false} RejectStepsDown(n: NodeState, peer: NodeId, proposed: Ballot, preempted: Ballot)
    requires NodeOk(n) && proposed.Less(preempted) && preempted.node != n.id
    requires n.prop.highest.Some? ==> n.prop.highest.value.Less(preempted)
    ensures var o := Handle(n, Receive(C.Reject(peer, proposed, preempted)));
            && o.node.prop == n.prop.(state := Follower, highest := Some(preempted), queue := []) && o.node.window == n.window
            && |o.outs| == |n.prop.queue|
            && forall i :: 0 <= i < |o.outs| ==> o.outs[i] == C.Send(preempted.node, C.Proposal(n.prop.queue[i]))
  {
    hide Handle, WindowOk;
    RejectAnswer(n, peer, proposed, preempted);
  }

  // ---------------------------------------------------------------------------
  // ACCEPTED
  // ---------------------------------------------------------------------------

  /** The peer was counted for the first `k` slots; what completed is announced, unless the
      handler stopped. */
  ghost predicate CountedTo(n: NodeState, peer: NodeId, bal: Ballot, slots: seq<Slot>, k: nat, o: Outcome) {
    && k <= |slots|
    && var completed := Completed(n.window, peer, bal, slots[..k]);
       && CountedUpTo(n.window, peer, bal, slots, k, AcceptedResult(o.node.window, k < |slots|, completed))
       && o.outs == if k < |slots| || completed == [] then [] else [C.Broadcast(C.Resolution(bal, completed))]
  }

  ghost predicate MeetsAccepted(n: NodeState, peer: NodeId, bal: Ballot, slots: seq<Slot>, o: Outcome) {
    && o.node == n.(prop := o.node.prop, window := o.node.window) && Observes(n.prop, bal, o.node.prop) && Quiet(o)
    && exists k: nat :: CountedTo(n, peer, bal, slots, k, o)
  }

  /** ACCEPTED: the ballot is observed. Each named open slot that holds the ballot counts the
      peer, whatever it promised since, and is resolved exactly if as many distinct peers as
      complete its quorum accepted then; all peers are sent one RESOLUTION with exactly the
      slots resolved, unless there are none or the handler stopped at a resolved slot, be it
      one that the message itself resolved. */
  lemma {:induction false} AcceptedReply(n: NodeState, peer: NodeId, bal: Ballot, slots: seq<Slot>)
    requires NodeOk(n)
    ensures MeetsAccepted(n, peer, bal, slots, Handle(n, Receive(C.Accepted(peer, bal, slots))))
  {
    hide WindowOk, View, AcceptedLoop, ObserveBallot, RoleHolds, Observes, CountedUpTo, Completed;
    ObserveMeaning(n.prop, bal);
    var k := CountAnswer(n.window, peer, bal, slots);
    CountedFields(n.window, peer, bal, slots, k, AcceptedLoop(n.window, peer, bal, slots));
    assert CountedTo(n, peer, bal, slots, k, Handle(n, Receive(C.Accepted(peer, bal, slots))));
  }

  lemma {:induction false} CountedFields(w: Window, peer: NodeId, bal: Ballot, slots: seq<Slot>, k: nat, r: AcceptedResult)
    requires CountedUpTo(w, peer, bal, slots, k, r)
    ensures k <= |slots| && r == AcceptedResult(r.window, k < |slots|, Completed(w, peer, bal, slots[..k]))
  {
    hide View, Changes, CountedAt, MeetsResolved, Completed;
  }

  // ---------------------------------------------------------------------------
  // RESOLUTION and CATCHUP
  // ---------------------------------------------------------------------------

  /** The owner of the highest ballot known is asked for all missing slots, if any slot but the
      first open one is open. */
  ghost predicate AsksFor(n: NodeState, outs: seq<C.Output>) {
    if End(n.window) == n.window.openMin + 1 then outs == []
    else
      && n.prop.highest.Some? && |outs| == 1 && outs[0].Send? && outs[0].to == n.prop.highest.value.node
      && outs[0].cmd.Catchup? && outs[0].cmd.node == n.id
      && ListsMissing(n.window, n.window.openMin, End(n.window), outs[0].cmd.slots)
  }

  ghost predicate MeetsResolution(n: NodeState, bal: Ballot, entries: seq<C.Entry>, o: Outcome) {
    var w, w' := n.window, o.node.window;
    && o.node == n.(prop := o.node.prop, window := w') && Observes(n.prop, bal, o.node.prop) && Quiet(o)
    && Changes(w, w', NewSlots(w, entries), NewBallots(w, bal, entries))
    && (forall t: Slot :: Learned(w, bal, entries, w', t))
    && AsksFor(o.node, o.outs)
  }

  /** RESOLUTION: the ballot is observed, and the named slots that are unresolved are resolved
      with it. Then the owner of the highest ballot known is asked for exactly the slots that
      are still missing, each once and in slot order, unless only one slot is open. */
  lemma {:induction false} ResolutionReply(n: NodeState, bal: Ballot, entries: seq<C.Entry>)
    requires NodeOk(n)
    ensures MeetsResolution(n, bal, entries, Handle(n, Receive(C.Resolution(bal, entries))))
  {
    hide View, ResolveAll, Learned, Unresolved, Opens, Rises, ObserveBallot, RoleHolds;
    ObserveMeaning(n.prop, bal);
    ResolveMeaning(n.window, bal, entries);
    var w := ResolveAll(n.window, bal, entries);
    UnresolvedMeaning(w, w.openMin, End(w));
  }

  /** The answers to CATCHUP: resolutions of what was asked for. */
  ghost predicate Replies(n: NodeState, peer: NodeId, slots: seq<Slot>, sorted: seq<Slot>, cmds: seq<C.Command>, o: Outcome) {
    && Sorted(sorted) && multiset(sorted) == multiset(slots)
    && |o.outs| == |cmds| && (forall i :: 0 <= i < |cmds| ==> o.outs[i] == C.Send(peer, cmds[i]))
    && Flatten(cmds) == Wanted(n.window, sorted) && Alternates(cmds, None)
    && forall cmd :: cmd in cmds ==> Truthful(n.window, cmd)
  }

  ghost predicate MeetsCatchup(n: NodeState, peer: NodeId, slots: seq<Slot>, o: Outcome) {
    && o.node == n && Quiet(o)
    && if n.prop.state.Leader? then exists sorted, cmds :: Replies(n, peer, slots, sorted, cmds, o) else o.outs == []
  }

  /** CATCHUP: only a leader answers, and nothing changes. It sends the peer resolutions whose
      entries, concatenated, are the requested slots in increasing order as far as it resolved
      them, with their values; each has the ballot at which all its slots were resolved, and
      consecutive ones have different ballots. */
  lemma {:induction false} CatchupAnswer(n: NodeState, peer: NodeId, slots: seq<Slot>)
    ensures MeetsCatchup(n, peer, slots, Handle(n, Receive(C.Catchup(peer, slots))))
  {
    hide View, Batches, Sort, Truthful, Flatten, Wanted, Alternates, Sorted;
    var cmds, sorted := CatchupMeaning(n, peer, slots);
    if n.prop.state.Leader? {
      assert Replies(n, peer, slots, sorted, cmds, Handle(n, Receive(C.Catchup(peer, slots))));
    }
  }

  // ---------------------------------------------------------------------------
  // Asking for leadership
  // ---------------------------------------------------------------------------

  ghost predicate MeetsTakeLead(n: NodeState, o: Outcome) {
    match n.prop.state
    case Leader(b) => o.node == n && o.outs == [C.Broadcast(C.Accept(b, []))] && Quiet(o)
    case Candidate(b, _) => o.node == n && o.outs == [C.Broadcast(C.Prepare(b))] && Quiet(o)
    case Follower => Campaigns(n, o)
  }

  /** Asked to lead, a follower campaigns with the least ballot of its own above all it
      observed, counting itself only; a candidate repeats its campaign; a leader sends an empty
      ACCEPT. Window and queue are not touched. */
  lemma {:induction false} LeadAnswer(n: NodeState)
    requires NodeOk(n)
    ensures MeetsTakeLead(n, Handle(n, TakeLead))
  {
    hide WindowOk, Campaigned;
    if n.prop.state.Follower? { CandidacyMeaning(n.prop); }
  }

  // ---------------------------------------------------------------------------
  // Any input
  // ---------------------------------------------------------------------------

  /** What a node does with an input, told by the input alone. */
  ghost predicate Meets(n: NodeState, input: Input, o: Outcome)
    requires RoleHolds(n.prop)
  {
    match input
    case TakeLead => MeetsTakeLead(n, o)
    case Receive(Proposal(v)) => MeetsProposal(n, v, o)
    case Receive(Prepare(b)) => MeetsPrepare(n, b, o)
    case Receive(Promise(peer, b, reports)) => MeetsPromise(n, peer, b, reports, o)
    case Receive(Accept(b, entries)) => MeetsAccept(n, b, entries, o)
    case Receive(Reject(_, proposed, preempted)) => MeetsReject(n, proposed, preempted, o)
    case Receive(Accepted(peer, b, slots)) => MeetsAccepted(n, peer, b, slots, o)
    case Receive(Resolution(b, entries)) => MeetsResolution(n, b, entries, o)
    case Receive(Catchup(peer, slots)) => MeetsCatchup(n, peer, slots, o)
  }

  lemma {:induction false} HandleMeets(n: NodeState, input: Input)
    requires NodeOk(n)
    ensures Meets(n, input, Handle(n, input))
  {
    hide WindowOk, Handle, MeetsTakeLead, MeetsProposal, MeetsPrepare, MeetsPromise, MeetsAccept, MeetsReject, MeetsAccepted;
    hide MeetsResolution, MeetsCatchup;
    match input
    case TakeLead => LeadAnswer(n);
    case Receive(Proposal(v)) => ProposalAnswer(n, v);
    case Receive(Prepare(b)) => PrepareAnswer(n, b);
    case Receive(Promise(peer, b, reports)) => PromiseAnswer(n, peer, b, reports);
    case Receive(Accept(b, entries)) => AcceptReply(n, b, entries);
    case Receive(Reject(peer, proposed, preempted)) => RejectAnswer(n, peer, proposed, preempted);
    case Receive(Accepted(peer, b, slots)) => AcceptedReply(n, peer, b, slots);
    case Receive(Resolution(b, entries)) => ResolutionReply(n, b, entries);
    case Receive(Catchup(peer, slots)) => CatchupAnswer(n, peer, slots);
  }
}
