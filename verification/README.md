# A verified model of a multi-decree Paxos replica

This project models the replica of the paxos-rs library, from the quorum set up to the
replica that executes decided values, and then a cluster of such replicas that exchange
messages over a network that may lose, delay, reorder and duplicate them. It proves when
replicas agree, what each handler does to a node, and where the code falls short.

## How it is built

Three layers, each proved against the one before:

1. **Steps as functions of values.** `Acceptors`, `Windows`, `Proposers`, `NodeSteps` and
   `Execution` say what one message does to one node: the new state, the messages sent,
   and, as history that no handler reads, the votes cast, the values picked and the client
   values placed. `Windows.View` reads a window as a total map from slots to acceptors:
   decided slots are resolved, and a slot that is not open yet is bound by the single
   `max_promised`. `Windows.Put` is an access to a slot with the drop of its reference.
   What these functions mean is said without them: `WindowChanges` tells how a window
   changed by its slots, its end and its promise; `Leading`, `Electing`, `Promising`,
   `Accepting`, `Counting` and `CatchingUp` tell what each loop does to every slot; and
   `Answers` says for every message, by its fields, what the node becomes, sends, votes for,
   picks and places (`Answers.HandleMeets`). `LocalSteps`, `Conservation`, `Traces` and
   `Candidacies` are about one node over any sequence of inputs.
2. **Objects.** `QuorumSet`, `Acceptor`, `SlotWindow`, `DecisionIterator`, `Proposer`,
   `Node` and `StateMachineReplica` are classes with the fields of the source and its loops.
   Dropping a reference to an open slot is an explicit call. Every method is proved to leave
   the state, and to hand to the transport the messages, that its step function says; the
   two therefore cannot drift apart.
3. **A cluster.** `Clusters` is a transition system over any number of nodes that uses the
   same step functions, a set of packets that only grows, and a history of votes, picks,
   counted promises and elections. A step delivers any packet ever sent, submits a client
   value, or asks a node to lead at any moment. `Invariants` is the inductive invariant;
   `Growth` is the relation under which everything recorded stays true; `SlotSteps`,
   `ProposerSteps`, `LoopSteps`, `LearnSteps`, `LeadSteps`, `HandlerSteps`, `MessageSteps`,
   `ElectionSteps` and `Safety` show that each step keeps it, and `Runs` lifts that to runs.
   `Theorems`, `Protocol` and `Panics` are what follows for runs; `Scenarios` and `Overtaken`
   hold concrete runs, built with `Staging`.

A vote is an ACCEPT that an acceptor accepts, or the leader's own acceptor taking over the
leader's ballot. Values that a candidate takes over from a promise are not votes.

## What is assumed

- At least three nodes share one membership, which excludes a node from its own peers, and
  no node restarts. `Acceptor::new` asserts a quorum above one, so two nodes cannot run.
- Safety across ballots needs an odd number of nodes: `1 + peers / 2` nodes are a quorum,
  and two such quorums share a node exactly in an odd cluster
  (`Quorums.QuorumsIntersectIffOdd`). `Scenarios.EvenDisagreementIsReachable` is a run of
  four nodes that covers all promises and still disagrees.
- Agreement further needs **promise coverage**. PREPARE is answered from the open range
  only, so a promise says nothing about slots that the promiser already moved to its log.
  `Clusters.Covered` says that no promise counted by an elected leader came from a node
  whose log ended beyond the start of the leader's window when it was elected.
  `Clusters.Reconciled` is weaker: wherever a counted promiser's log held a slot, the leader
  picked the logged value. Packets carry the sender's log as a history variable for this.

Resolution soundness, validity, one value per ballot and slot, the binding of promises and
the leadership invariant need neither an odd cluster nor coverage.

## What the model shows about the code

- **Agreement is not unconditional.** `Scenarios.DisagreementIsReachable` is a run of three
  nodes in which slot 0 is decided twice with different values, because the promise of the
  first leader leaves its decided slot out. `Theorems.NodesAgree` proves agreement for
  every covered or reconciled run of an odd cluster, and `Theorems.ReconciledIsExact` that
  being reconciled is exactly when the picks of leaders are safe, unless a promiser's log
  was ahead of the promised ballot; then it is not necessary, as
  `Overtaken.SafeUnreconciledIsReachable` shows with five nodes.
- **Catching up can panic.** When `resolution` still misses slots it asks the owner of the
  highest ballot it observed for them. A candidate or leader is that owner itself, and the
  lookup of a node among its own peers panics. `Panics.OnlyCatchupPanics` tells from the
  state before a step of a run exactly when a handler panics; `Scenarios.PanicIsReachable`
  is such a run.
- **A repeated slot silences an announcement.** When an ACCEPTED names a slot again after its
  first occurrence resolved it, the handler returns without announcing anything it resolved
  (`Answers.AcceptedReply`).
- **Ranges with an included end fall short.** `DecisionSet::range` stops before the slot ahead
  of an included end; `SlotWindows.RangeExactly` gives the exact condition. The replica uses
  no such range.
- The comments of `QuorumSet` say that entries are sorted and that nothing is added after
  the quorum is reached. The code keeps insertion order and overwrites the last entry of a
  full set; `Quorums.CountsDistinctNodes` shows that it still counts distinct nodes right.

## Model

| member | source | states |
|---|---|---|
| Ballots.Ballot.HigherFor | src/lib.rs:65-68 | the least ballot of the given node above this one |
| Ballots.BallotsRank | src/lib.rs:71-87 | the order of ballots is that of the natural numbers `num * k + node`, for any `k` above the node numbers: no ties, and the higher node last |
| Quorums.QuorumsIntersectIffOdd | src/config.rs:39-43 | all pairs of quorums share a node if and only if the number of peers is even |
| Quorums.InsertMeaning | src/config.rs:118-135 | inserting keeps the entries packed and duplicate-free and adds exactly the node, unless the set is full |
| Quorums.InsertExactly | src/config.rs:118-135 | an insertion writes nothing if the node is in the set, else the first vacant entry, and in a full set the last entry |
| Quorums.CountsDistinctNodes | src/config.rs:85-135 | after any insertions the quorum is reached exactly when at least as many distinct nodes were inserted as there are entries |
| Quorums.QuorumSet.Search | src/config.rs:118-128 | the scan finds the node, the first vacant entry, or the last entry |
| Quorums.QuorumSet.InsertNode | src/config.rs:131-135 | writes the entry the search designates and no other |
| Quorums.QuorumSet.WithSize | src/config.rs:102-105 | as many vacant entries as given, at least one |
| Quorums.QuorumSet.ContainsNode | src/config.rs:138-140 | whether the search finds the node |
| Quorums.QuorumSet.ReachedQuorum | src/config.rs:113-115 | whether the last entry is occupied |
| Acceptors.OperationsGrow | src/acceptor.rs:51-189 | every operation keeps the acceptor well formed: resolutions are final, accepted ballots and promises never fall, one ballot has one value |
| Acceptors.AcceptMeaning | src/acceptor.rs:100-129 | an ACCEPT is accepted exactly when the slot is unresolved and promised nothing higher; the ballot becomes promise and accepted ballot; at the ballot it holds already the value and the counted peers stay, else nobody is counted yet |
| Acceptors.PledgeMeaning | src/acceptor.rs:69-94 | a PREPARE is refused exactly when an unresolved slot promised a higher ballot; else the promise alone changes, and the accepted pair is reported |
| Acceptors.NoticeMeaning | src/acceptor.rs:137-173 | a noticed pair is taken over exactly when the unresolved slot accepted no ballot as high; then nobody is counted and the promise is the higher of the old one and the ballot |
| Acceptors.CountMeaning | src/acceptor.rs:176-189 | whatever was promised since, an ACCEPTED of the accepted ballot adds exactly its sender to the counted peers, and resolves the slot if and only if these are then the quorum without the leader |
| Acceptors.Acceptor.constructor | src/acceptor.rs:13-16 | awaits a value, bound by the given promise |
| Acceptors.Acceptor.GetPromised | src/acceptor.rs:19-25 | the promise, which is the accepted ballot once resolved |
| Acceptors.Acceptor.GetHighestValue | src/acceptor.rs:28-34 | the accepted or resolved pair, if any |
| Acceptors.Acceptor.GetResolution | src/acceptor.rs:37-43 | the resolved pair, if any |
| Acceptors.Acceptor.ResolveTo | src/acceptor.rs:51-64 | resolves unless resolved already |
| Acceptors.Acceptor.Prepare | src/acceptor.rs:69-94 | refuses a ballot below the promise, else raises the promise and reports the accepted pair; a resolved slot only says so |
| Acceptors.Acceptor.Accept | src/acceptor.rs:100-129 | refuses a ballot below the promise, else raises the promise, takes over the pair and returns the displaced one |
| Acceptors.Acceptor.Notice | src/acceptor.rs:137-173 | takes over a pair of a higher ballot with a fresh quorum set, and returns the displaced pair |
| Acceptors.Acceptor.CountAccepted | src/acceptor.rs:176-189 | counts a peer for the accepted ballot and resolves at the quorum |
| Windows.FillDecisionsMeaning | src/window.rs:96-116 | moving the resolved prefix to the log changes no slot of the map, extends the log by exactly that prefix and leaves an unresolved start |
| Windows.PutMeaning | src/window.rs:40-70 | an access and its drop change the accessed slot to what was written, bind unopened slots by the written promise, and change nothing else; the window ends exactly where it did, behind that slot, or behind the one slot kept open |
| Windows.LogIsResolvedPrefix | src/window.rs:14-26 | the log is exactly the longest resolved prefix of the map |
| Windows.NextSlotMeaning | src/window.rs:73-81 | the next slot is the last open one if and only if that holds no value, else the first unopened one; it holds no value |
| SlotWindows.AccessMeaning | src/window.rs:148-182 | filling, writing through the reference and dropping it is one access of the map, with every index in bounds |
| SlotWindows.NextMeaning | src/window.rs:73-81 | so is writing to the next slot |
| SlotWindows.LocateMeaning | src/window.rs:40-70 | in a well-formed window no slot is found truncated, and a slot is found resolved exactly if the map holds it resolved |
| SlotWindows.SlotWindow.constructor | src/window.rs:31-37 | one open slot and an empty log |
| SlotWindows.SlotWindow.SlotMut | src/window.rs:40-70 | finds a slot truncated, resolved, open or empty, and changes nothing |
| SlotWindows.SlotWindow.NextRef | src/window.rs:73-81 | reuses the last open slot while it has no value, else opens one |
| SlotWindows.SlotWindow.OpenUpTo | src/window.rs:118-129 | opens all slots up to the given one with the promise of the window |
| SlotWindows.SlotWindow.MoveDecisions | src/window.rs:96-116 | moves the resolved prefix to the log and keeps a slot open |
| SlotWindows.SlotWindow.Drop | src/window.rs:148-154 | raises the promise of the window to the slot's and moves decisions |
| SlotWindows.SlotWindow.Fill | src/window.rs:175-182 | opens the slot and all before it |
| SlotWindows.SlotWindow.NoticeAt | src/window.rs:143-145 | through the reference, the acceptor of that slot alone notices a pair |
| SlotWindows.SlotWindow.PrepareAt | src/window.rs:143-145 | the same for PREPARE |
| SlotWindows.SlotWindow.AcceptAt | src/window.rs:143-145 | the same for ACCEPT |
| SlotWindows.SlotWindow.CountAt | src/window.rs:143-145 | the same for ACCEPTED |
| SlotWindows.SlotWindow.ResolveAt | src/window.rs:143-145 | the same for a resolution |
| SlotWindows.SlotWindow.Range | src/window.rs:194-212 | the walk over the decisions for any kind of start and end bound, as the code computes it |
| SlotWindows.RangeExactly | src/window.rs:199-209 | that walk yields exactly the decisions asked for if and only if the range does not end with an included slot at or before the end of the log and from its start on |
| SlotWindows.DecisionIterator.Next | src/window.rs:230-243 | yields the decisions one by one, in slot order |
| Proposers.ObserveMeaning | src/proposer.rs:46-60 | the proposer knows the higher of what it knew and the ballot, keeps its role exactly if it was a follower or owns that ballot, and changes in nothing else |
| Proposers.PromiseMeaning | src/proposer.rs:107-134 | a candidate counts a promise of its ballot exactly if its sender did not promise before, whatever is queued, and leads if and only if the distinct promisers are then a quorum; any other promise changes nothing |
| Proposers.CandidacyMeaning | src/proposer.rs:68-85 | a campaign uses the least own ballot above all that was observed, and has counted the node itself only |
| Proposers.Proposer.Observe | src/proposer.rs:46-60 | raises the highest ballot, and steps down when another node owns it |
| Proposers.Proposer.StartCandidacy | src/proposer.rs:68-85 | campaigns with the next own ballot, counting itself |
| Proposers.Proposer.Rejected | src/proposer.rs:89-103 | observes a ballot above the rejected one |
| Proposers.Proposer.Promised | src/proposer.rs:107-134 | counts a new peer for its own ballot, and leads at the quorum |
| Proposers.Proposer.constructor | src/proposer.rs:29-37 | a follower that has seen no ballot |
| Proposers.Proposer.Push | src/proposer.rs:137-139 | appends to the queue |
| Proposers.Proposer.Take | src/proposer.rs:142-144 | returns the queue and empties it |
| Leading.PlaceMeaning | src/node.rs:42-45 | queued values take consecutive slots from the next slot on, in queue order, and nothing else changes |
| Leading.BatchMeaning | src/node.rs:33-78 | a leader announces exactly the unresolved slots of its window extended by its queue, in increasing order, each with the value of highest ballot it knows, else the queued, else the empty value |
| Leading.AbsorbMeaning | src/node.rs:186-197 | after a promise every unresolved slot holds the pair of highest ballot among its own and the reported ones |
| Electing.AbsorbAnswer | src/node.rs:186-197 | an unresolved slot takes over the reported pair of highest ballot exactly if it is above its own; no other slot changes, the window opens up to the last reported unresolved slot, and its promise rises to the reported ballots only |
| Electing.DriveAnswer | src/node.rs:33-78 | announcing the batch: slots of the queue take over the queued values, other proposed slots notice the value they hold or the empty one, unless they hold a ballot not below; no other slot changes; the leader votes exactly where its acceptor then holds its ballot |
| Leading.ElectionBatch | src/node.rs:179-201 | a promise of a new node with which a quorum promised the candidate's ballot makes it leader and leads to that batch, over its own and the reported pairs |
| Candidacies.CandidacyBatch | src/node.rs:179-201 | over a whole candidacy, whatever else arrives, every slot of the batch gets the value of a pair held at the start or learnt since whose ballot is not below any pair held or reported in any promise received; only without one a queued or the empty value |
| Candidacies.CandidacyCounts | src/proposer.rs:107-134 | over a whole candidacy, whatever else arrives: the promises counted are those of the start and of exactly the distinct senders of promises of its ballot, and the node leads after the next input if and only if these are then a quorum |
| Promising.PrepareMeaning | src/node.rs:137-177 | a PREPARE is asked slot by slot up to the first open slot that promised higher; the slots before it promise it and are otherwise as they were, also if it is refused; it is refused exactly if there is such a slot, with its promise; no other slot changes |
| Promising.ReportsMeaning | src/node.rs:143-162 | the report lists, each once and in slot order, exactly the slots that accepted or resolved a pair, with that pair |
| Promising.PromiseBinds | src/window.rs:118-154 | a promised ballot binds every slot: open, resolved and not yet open |
| Answers.HandleMeets | src/commands.rs:59-88 | every message and a request to lead is met as the lemmas below state, told by the fields of the message |
| Answers.ProposalAnswer | src/node.rs:108-135 | PROPOSAL: a leader puts the value in the last open slot if that holds none, else in the first unopened one, announces and votes for exactly that; a candidate queues it; a follower redirects it, or queues it and campaigns |
| Answers.ProposalLeavesNoHole | src/window.rs:73-81 | if every slot below the last open one of a leader holds a value or is resolved, so does every slot up to the announced one |
| Answers.PrepareAnswer | src/node.rs:137-177 | PREPARE: observed; the owner is sent a promise that reports exactly the pairs of the open slots in slot order, if none of them promised higher, else a refusal with the first such promise; promises taken before it stay |
| Answers.PromiseAnswer | src/node.rs:179-201 | PROMISE: only a candidate listens; it takes over the reports, counts the sender, and goes on, or leads and announces, votes for and places exactly its batch |
| Accepting.AcceptAnswer | src/node.rs:207-231 | the loop stops at the first entry whose slot is resolved or promised a higher ballot; slots named before it take the ballot with the value of their first entry, unless they hold one at that ballot; a vote is cast for each, and no other slot changes |
| Answers.AcceptReply | src/node.rs:203-234 | ACCEPT: observed for every list of entries, the empty one included; the answer names all slots exactly if all are acceptable, is missing if the loop stops at a resolved slot, else refuses with the higher promise; what was accepted before stays accepted |
| Counting.CountAnswer | src/node.rs:246-262 | whatever the message names and however often: the loop stops exactly at a slot resolved before or by the message itself; each open slot named before it counts the sender for the ballot it holds and is resolved exactly if its distinct peers complete the quorum; exactly these are collected, and no other slot changes |
| Answers.AcceptedReply | src/node.rs:242-268 | ACCEPTED: observed; one RESOLUTION to all peers with exactly those slots and their accepted values, if any, and nothing if the loop stopped |
| Traces.ResolvesExactly | src/acceptor.rs:176-189 | while a node is told no other value for a slot, whatever it promises and receives in between, the slot is resolved with the pair it holds if and only if the distinct peers whose ACCEPTED reached it are the quorum without the leader |
| Traces.QuorumResolves | src/acceptor.rs:176-189 | whatever a node receives, once that many distinct peers accepted, the slot is resolved, unless it accepted a higher ballot |
| Traces.QuorumsStay | src/config.rs:39-43 | whatever a fresh node receives, both its quorums stay those of its membership |
| Answers.ResolutionReply | src/node.rs:270-300 | RESOLUTION: observed; resolves exactly the named unresolved slots; then the owner of the highest known ballot is asked for exactly the missing slots, each once and in increasing order, unless one slot only is open |
| Answers.RejectAnswer | src/node.rs:236-240 | REJECT: the promised ballot is observed if above the rejected one; a node that is follower then, also on a stale REJECT, passes its whole queue on to the owner of the highest ballot it knows, in order; any other carries on |
| Answers.RejectStepsDown | src/node.rs:236-240 | told of a ballot of another node, above the rejected one and all it knew, a node follows that node and has sent it its queue |
| Answers.CatchupAnswer | src/node.rs:302-336 | CATCHUP: only a leader answers, with resolutions sent to the asking node alone that concatenate to the sorted request filtered to resolved slots, and nothing changes |
| Answers.LeadAnswer | src/node.rs:340-352 | asked to lead: a follower campaigns with its least ballot above all it observed, a candidate repeats, a leader sends an empty ACCEPT |
| LocalSteps.HandleAdvances | src/window.rs:14-26 | whatever a node receives, its window stays well formed, its log is only extended, and slots change only as acceptors may |
| Conservation.ValuesAreConserved | src/node.rs:33-135 | whatever a node receives, the values it was asked to propose are those it queues, those it forwarded and those it placed, each once, in distinct slots at its own ballots; each placed value was announced for its slot in an ACCEPT of its ballot, and the slot holds it unless a higher ballot or a decision took over |
| CatchingUp.CatchupMeaning | src/node.rs:302-336 | the answers concatenate to the sorted request filtered to resolved slots, each message holds slots of one resolution ballot, consecutive ballots differ |
| CatchingUp.ResolveMeaning | src/node.rs:270-279 | RESOLUTION resolves exactly the named unresolved slots, at its ballot with the value of their first entry, keeps resolved ones and changes no other slot |
| CatchingUp.CatchupClosesGap | src/node.rs:281-299 | after the leader's answers, in any order and possibly repeated, the window starts at or past its old end and requested slots hold the leader's values |
| Execution.ExecuteMeaning | src/statemachine.rs:29-39 | the calls for a log are its non-empty values in strictly increasing slot order, none skipped |
| Replicas.ExecutesExactlyOnce | src/statemachine.rs:29-46 | whatever a replica receives, it has executed exactly the non-empty decided values, in order, each once |
| Replicas.StateMachineReplica.TryExecuteSlots | src/statemachine.rs:29-39 | executes what was decided since the last time and advances the next slot |
| Replicas.StateMachineReplica.Receive | src/statemachine.rs:43-46 | handles the message, then executes, unless the handler panicked |
| Replicas.StateMachineReplica.constructor | src/statemachine.rs:25-27 | wraps the given node, of which nothing is executed yet |
| Replicas.StateMachineReplica.ProposeLeadershipNow | src/statemachine.rs:50-52 | asks the node to lead and executes nothing |
| Nodes.Node.constructor | src/node.rs:21-30 | a fresh proposer and window with the quorum of the membership |
| Nodes.Node.DriveAcceptNow | src/node.rs:33-78 | the loops place the queue, sweep the open range and announce the batch as `Leading.BatchMeaning` describes it |
| Nodes.Node.ForwardQueue | src/node.rs:81-92 | takes the queue and sends it in order, as `Answers.RejectAnswer` describes it |
| Nodes.Node.Hand | src/node.rs:95-104 | a message to a peer is handed to the transport, a message to any other node panics |
| Commands.TransmittedMeaning | src/node.rs:95-104 | what leaves a node is everything up to the first message to a node that is no peer, and it panics exactly if there is one |
| Nodes.Node.HandleProposal | src/node.rs:108-135 | leaves the state and sends what `Answers.ProposalAnswer` describes |
| Nodes.Node.HandlePrepare | src/node.rs:137-177 | the loop with its early return leaves the state and sends the reply `Answers.PrepareAnswer` describes |
| Nodes.Node.HandlePromise | src/node.rs:179-201 | counts, takes over the reports and drives ACCEPT as `Answers.PromiseAnswer` describes it |
| Nodes.Node.HandleAccept | src/node.rs:203-234 | the loop with its early returns leaves the state and sends the reply `Answers.AcceptReply` describes |
| Nodes.Node.HandleReject | src/node.rs:236-240 | steps down and forwards as `Answers.RejectAnswer` describes it |
| Nodes.Node.HandleAccepted | src/node.rs:242-268 | the loop with its early return leaves the state and announces what `Answers.AcceptedReply` describes |
| Nodes.Node.HandleResolution | src/node.rs:270-300 | resolves and asks for the rest as `Answers.ResolutionReply` describes it |
| Nodes.Node.HandleCatchup | src/node.rs:302-336 | the run-length loop sends what `Answers.CatchupAnswer` describes, up to the first message that panics |
| Nodes.Node.Lead | src/node.rs:340-352 | campaigns or repeats as `Answers.LeadAnswer` describes it |
| Nodes.Node.Dispatch | src/commands.rs:59-88 | each message goes to its handler |
| Safety.NewPickIsSafe | src/node.rs:48-72 | in an odd, reconciled cluster whose earlier picks are safe, no value but the one a leader picks is or can be chosen below its ballot |
| Runs.StepKeeps | src/node.rs:107-353 | every step of a cluster keeps the invariant, and everything recorded only grows |
| Runs.RunKeeps | src/node.rs:107-353 | the invariant holds in every cluster of every run |
| Runs.RunGrows | src/node.rs:107-353 | between any two moments of a run promises only rise, votes, picks and resolutions stay, and nobody votes where it closed a ballot |
| Theorems.CoveredIsReconciled | src/node.rs:143-176 | promise coverage leaves nothing to reconcile |
| Theorems.PicksAreSafe | src/node.rs:33-78 | in every covered or reconciled run of an odd cluster, for every pick and every lower ballot, some quorum voted that value there or never will vote |
| Theorems.NodesAgree | src/node.rs:137-268 | in such a run no two nodes hold different resolved values for a slot |
| Theorems.NodesAlwaysAgree | src/node.rs:137-268 | nor at two different moments of the run |
| Theorems.ReconciledIsExact | src/node.rs:137-177 | reconciled runs of an odd cluster are safe, and safe ones are reconciled wherever no promiser's log was ahead of the promised ballot; so unless one was, the picks are safe if and only if the run is reconciled |
| Theorems.RunExecutes | src/statemachine.rs:29-46 | throughout a run every replica has executed its log, or a prefix if it panicked |
| Theorems.ReplicasAgree | src/statemachine.rs:9-16 | of any two replicas at any two moments, one's log of values and one's executed commands are a prefix of the other's |
| Protocol.ResolutionIsBacked | src/acceptor.rs:176-189 | however a slot was resolved, its value was proposed at its ballot and a quorum of distinct nodes, the leader included, voted for it there |
| Protocol.ResolutionIsValid | src/node.rs:108-135 | a resolved value is empty or was submitted by a client |
| Protocol.AcceptsAgree | src/node.rs:33-135 | all ACCEPT messages and votes of a ballot and slot carry one value |
| Protocol.PromiseBindsForever | src/node.rs:137-177 | once a node promised a ballot, every slot is barred below it at all later moments, refuses every lower ACCEPT unchanged, and no lower vote is cast |
| Protocol.PromiseReports | src/node.rs:142-176 | reported pairs were proposed; for every vote of the sender below the promised ballot, in slots beyond its log, the slot is reported, with a pair whose ballot is not below the vote or which is itself the chosen one |
| Protocol.RolesHold | src/proposer.rs:46-134 | a candidate or leader holds its own ballot as the highest, a leader was promised it by a quorum, a follower never takes itself for the leader |
| Protocol.BallotsAreWonOnce | src/proposer.rs:107-134 | a ballot has one leader ever, and nobody campaigns for it again |
| Panics.OnlyCatchupPanics | src/node.rs:284-299 | told before the step: a step panics if and only if it delivers a RESOLUTION to a candidate or leader of a ballot not below it, and leaves an unresolved slot below another that is open or named |
| Panics.StepPanics | src/config.rs:61-66 | equivalently, the node still misses slots after the step and is candidate or leader then |
| Scenarios.DisagreementIsReachable | src/node.rs:142-143 | a run of three nodes that neither covers its promises nor is reconciled ends in disagreement |
| Scenarios.EvenDisagreementIsReachable | src/config.rs:39-43 | a run of four nodes whose promises are all covered ends in disagreement |
| Overtaken.SafeUnreconciledIsReachable | src/node.rs:142-176 | a run of five nodes whose picks are all safe is not reconciled, because a promiser had logged a slot above the promised ballot |
| Scenarios.PanicIsReachable | src/config.rs:61-66 | a run of three nodes ends in the panic of a candidate that looks itself up |

## Left out

- Liveness timers (src/liveness.rs) depend on the clock; asking for leadership may happen at any step instead.
- Eventual progress and termination of elections: some answers are dropped by early returns and nothing is retried.
- The HTTP example, transports, serialisation and node metadata: sending adds an addressed message to a set.
- The order in which a broadcast reaches peers, which follows a hash map: a broadcast is one output to all peers.
- Restarts: nothing is persisted, so a restarted node is outside the claims.
- Machine limits: ballots, slots and node ids are unbounded naturals, and windows have no memory limit.
- The length of the decision iterator, which is not defined for a start past the end.
- Logging, debug output and `tick`, which does nothing.
- What happens after a panic: a replica that panicked takes no further step.
- Protocol.PromiseReports: a vote in a slot already moved to the sender's log is not reported by the code; the lemma speaks of the slots beyond the log and of the log itself.
- Theorems.ReconciledIsExact: where a counted promiser had logged a slot at a ballot above the promised one, being reconciled is sufficient for safety but not necessary; `Overtaken.SafeUnreconciledIsReachable` is a run that shows it.
- Nodes.Node.Hand: a panic is modelled as a flag after which nothing is sent; in every handler the state is final by then.
