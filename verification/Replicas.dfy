// A replica that executes decided values in a state machine (src/statemachine.rs).
module Replicas {
  import opened Ballots
  import opened Quorums
  import opened Windows
  import opened NodeSteps
  import opened LocalSteps
  import opened Execution
  import opened Clusters
  import opened Theorems
  import opened SlotWindows
  import opened Nodes
  import opened Proposers
  import C = Commands

  // ---------------------------------------------------------------------------
  // Any sequence of inputs at one replica
  // ---------------------------------------------------------------------------

  datatype ReplicaState = ReplicaState(node: NodeState, app: App)

  /** One input at a replica that did not panic. */
  function ReplicaStep(r: ReplicaState, input: Input): ReplicaState {
    if r.app.halted then r else
    var o := Handle(r.node, input);
    ReplicaState(o.node, AppStep(r.app, r.node, o, input))
  }

  function ReplicaRun(r: ReplicaState, inputs: seq<Input>): ReplicaState
    decreases |inputs|
  {
    if inputs == [] then r else ReplicaRun(ReplicaStep(r, inputs[0]), inputs[1..])
  }

  ghost predicate ReplicaOk(r: ReplicaState) {
    WindowOk(r.node.window) && AppOk(r.app, r.node.window.decided)
  }

  /** A step keeps the replica in order, extends its log, and adds calls at the end of its
      execution only. */
  lemma {:induction false} StepInOrder(r: ReplicaState, input: Input)
    requires ReplicaOk(r)
    ensures var q := ReplicaStep(r, input);
            ReplicaOk(q) && r.node.window.decided <= q.node.window.decided && r.app.executed <= q.app.executed
  {
    hide WindowOk, Handle, WindowGrows, C.Panics, ExecuteFrom;
    if !r.app.halted {
      HandleAdvances(r.node, input);
      AdvancesOk(r.node.window, Handle(r.node, input).node.window);
      ElectKeepsWindow(r.node);
      AppStepOk(r.app, r.node, Handle(r.node, input), input);
    }
  }

  lemma {:induction false} RunInOrder(r: ReplicaState, inputs: seq<Input>)
    requires ReplicaOk(r)
    ensures var q := ReplicaRun(r, inputs);
            ReplicaOk(q) && r.node.window.decided <= q.node.window.decided && r.app.executed <= q.app.executed
    decreases |inputs|
  {
    hide ReplicaOk, ReplicaStep;
    if inputs != [] {
      StepInOrder(r, inputs[0]);
      RunInOrder(ReplicaStep(r, inputs[0]), inputs[1..]);
    }
  }

  /** Exactly-once execution in order: whatever a fresh replica receives, its calls to the
      state machine are exactly the non-empty decided values below its next slot, in
      strictly increasing slot order, none repeated and none skipped; and unless it
      panicked that is its whole log. */
  lemma {:induction false} ExecutesExactlyOnce(id: NodeId, peers: set<NodeId>, inputs: seq<Input>)
    requires |peers| >= 2
    ensures var r := ReplicaRun(ReplicaState(NewNode(id, peers), INITIAL_APP), inputs);
            && r.app.next <= |r.node.window.decided|
            && CallsMatch(r.app.executed, r.node.window.decided[..r.app.next], 0)
            && (!r.app.halted ==> r.app.next == |r.node.window.decided|)
  {
    hide ReplicaRun, CallsMatch, WindowOk;
    var start := ReplicaState(NewNode(id, peers), INITIAL_APP);
    NewWindowOk(QuorumSize(|peers|));
    RunInOrder(start, inputs);
    var r := ReplicaRun(start, inputs);
    ExecuteMeaning(r.node.window.decided[..r.app.next], 0);
  }

  // ---------------------------------------------------------------------------
  // The replica as an object
  // ---------------------------------------------------------------------------

  class StateMachineReplica {
    const inner: Node
    /** The calls made to the state machine. */
    var executed: seq<C.Entry>
    var nextSlot: Slot

    ghost predicate Valid()
      reads this, inner, inner.proposer, inner.window, inner.Repr()
    {
      this !in inner.Repr() && inner.Valid() && nextSlot <= |inner.window.decided|
    }

    ghost function Model(): ReplicaState
      requires Valid()
      reads this, inner, inner.proposer, inner.window, inner.Repr()
    {
      ReplicaState(inner.Model(), App(nextSlot, executed, inner.panicked))
    }

    /** Wraps a node, of which nothing is executed yet. */
    constructor (inner: Node)
      requires inner.Valid()
      ensures this.inner == inner && Valid()
      ensures Model() == ReplicaState(inner.Model(), App(0, [], inner.panicked))
    {
      this.inner := inner;
      executed, nextSlot := [], 0;
    }

    /** Executes what was decided since the last time, skipping empty values. */
    method TryExecuteSlots()
      requires nextSlot <= |inner.window.decided|
      modifies this
      ensures App(nextSlot, executed, inner.panicked)
              == TryExecute(App(old(nextSlot), old(executed), inner.panicked), inner.window.decided)
      ensures nextSlot <= |inner.window.decided|
    {
      hide ExecuteFrom;
      ghost var decided := inner.window.decided;
      var next := nextSlot;
      var it := inner.window.Range(Included(nextSlot), Unbounded);
      var slot, val := it.Next();
      while val.Some?
        invariant fresh(it) && it.window == inner.window && it.end == |inner.window.decided|
        invariant nextSlot == old(nextSlot) && nextSlot <= next == slot <= it.end
        invariant val == (if slot < it.end then Some(inner.window.decided[slot].val) else None)
        invariant it.i == (if val.Some? then slot + 1 else slot)
        invariant inner.window.decided == decided
        invariant executed + ExecuteFrom(decided, slot) == old(executed) + ExecuteFrom(decided, old(nextSlot))
        decreases it.end - slot
      {
        ExecuteNext(decided, slot, executed);
        if val.value != [] {
          executed := executed + [C.Entry(slot, val.value)];
        }
        next := slot + 1;
        slot, val := it.Next();
      }
      ExecuteEnd(decided, slot);
      nextSlot := next;
    }

    /** Handles a message and executes what it decided, unless the handler panicked. */
    method Receive(cmd: C.Command)
      requires Valid() && !inner.panicked
      modifies this, inner.Repr()
      ensures Valid() && fresh(inner.Repr() - old(inner.Repr()))
      ensures Model() == ReplicaStep(old(Model()), Input.Receive(cmd))
    {
      hide Handle, WindowOk, RoleHolds, C.Panics, C.Transmitted;
      LogGrows(inner.Model(), Input.Receive(cmd));
      inner.Dispatch(cmd);
      if !inner.panicked {
        TryExecuteSlots();
      }
    }

    method ProposeLeadershipNow()
      requires Valid() && !inner.panicked
      modifies this, inner.Repr()
      ensures Valid() && fresh(inner.Repr() - old(inner.Repr()))
      ensures Model() == ReplicaStep(old(Model()), TakeLead)
    {
      hide WindowOk, C.Panics, C.Transmitted;
      LogGrows(inner.Model(), TakeLead);
      inner.Lead();
    }
  }

  lemma {:induction false} LogGrows(n: NodeState, input: Input)
    requires WindowOk(n.window)
    ensures |n.window.decided| <= |Handle(n, input).node.window.decided|
  {
    hide Handle, WindowOk, WindowGrows;
    HandleAdvances(n, input);
    AdvancesOk(n.window, Handle(n, input).node.window);
  }
}
