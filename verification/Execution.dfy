// Execution of decided values (src/statemachine.rs), as values.
module Execution {
  import opened Ballots
  import opened Acceptors
  import C = Commands

  /** A replicated state machine: the calls to `execute` so far, and whether the
      replica panicked. */
  datatype App = App(next: Slot, executed: seq<C.Entry>, halted: bool)

  const INITIAL_APP := App(0, [], false)

  /** The call for one decision; empty values are fillers and are skipped. */
  function CallFor(d: Pair, slot: Slot): seq<C.Entry> {
    if d.val == [] then [] else [C.Entry(slot, d.val)]
  }

  /** The calls to `execute` for the decisions from `slot` on. */
  function ExecuteFrom(decided: seq<Pair>, slot: Slot): seq<C.Entry>
    decreases |decided| - slot
  {
    if slot >= |decided| then []
    else CallFor(decided[slot], slot) + ExecuteFrom(decided, slot + 1)
  }

  function TryExecute(app: App, decided: seq<Pair>): App {
    app.(next := if app.next < |decided| then |decided| else app.next,
         executed := app.executed + ExecuteFrom(decided, app.next))
  }

  lemma {:induction false} ExecuteSplit(decided: seq<Pair>, slot: Slot, mid: Slot)
    requires slot <= mid <= |decided|
    ensures ExecuteFrom(decided, slot) == ExecuteFrom(decided[..mid], slot) + ExecuteFrom(decided, mid)
    decreases mid - slot
  {
    hide ExecuteFrom, CallFor;
    var part := decided[..mid];
    if slot == mid {
      ExecuteEnd(part, slot);
    } else {
      ExecuteSplit(decided, slot + 1, mid);
      ExecuteStep(decided, slot);
      ExecuteStep(part, slot);
      assert part[slot] == decided[slot];
      Associates(decided[slot], slot, ExecuteFrom(part, slot + 1), ExecuteFrom(decided, mid));
    }
  }

  lemma {:induction false} ExecuteStep(decided: seq<Pair>, slot: Slot)
    requires slot < |decided|
    ensures ExecuteFrom(decided, slot) == CallFor(decided[slot], slot) + ExecuteFrom(decided, slot + 1)
  {
  }

  lemma {:induction false} Associates(d: Pair, slot: Slot, xs: seq<C.Entry>, ys: seq<C.Entry>)
    ensures CallFor(d, slot) + (xs + ys) == (CallFor(d, slot) + xs) + ys
  {
  }

  lemma {:induction false} ExecuteEnd(decided: seq<Pair>, slot: Slot)
    ensures slot >= |decided| ==> ExecuteFrom(decided, slot) == []
  {
  }

  /** One more call, after the calls `done`. */
  lemma {:induction false} ExecuteNext(decided: seq<Pair>, slot: Slot, done: seq<C.Entry>)
    requires slot < |decided|
    ensures done + ExecuteFrom(decided, slot) == (done + CallFor(decided[slot], slot)) + ExecuteFrom(decided, slot + 1)
  {
  }

  /** The calls are the non-empty decisions, in strictly increasing slot order. */
  ghost predicate CallsMatch(es: seq<C.Entry>, decided: seq<Pair>, slot: Slot) {
    && (forall i :: 0 <= i < |es| ==>
          slot <= es[i].slot < |decided| && es[i].val == decided[es[i].slot].val && es[i].val != [])
    && (forall i, j :: 0 <= i < j < |es| ==> es[i].slot < es[j].slot)
    && (forall s: Slot :: slot <= s < |decided| && decided[s].val != [] ==> C.Entry(s, decided[s].val) in es)
  }

  lemma {:induction false} PrependCall(rest: seq<C.Entry>, decided: seq<Pair>, slot: Slot)
    requires slot < |decided| && CallsMatch(rest, decided, slot + 1)
    ensures CallsMatch(CallFor(decided[slot], slot) + rest, decided, slot)
  {
    var es := CallFor(decided[slot], slot) + rest;
    if decided[slot].val == [] {
      assert es == rest;
    } else {
      assert es[0] == C.Entry(slot, decided[slot].val);
      assert forall i :: 0 < i < |es| ==> es[i] == rest[i - 1];
    }
  }

  lemma {:induction false} ExecuteMeaning(decided: seq<Pair>, slot: Slot)
    ensures CallsMatch(ExecuteFrom(decided, slot), decided, slot)
    decreases |decided| - slot
  {
    hide CallsMatch;
    if slot < |decided| {
      ExecuteMeaning(decided, slot + 1);
      PrependCall(ExecuteFrom(decided, slot + 1), decided, slot);
    } else {
      NoCalls(decided, slot);
    }
  }

  lemma {:induction false} NoCalls(decided: seq<Pair>, slot: Slot)
    requires slot >= |decided|
    ensures CallsMatch([], decided, slot)
  {
  }

  /** A replica that is up to date with its log. */
  ghost predicate CaughtUp(app: App, decided: seq<Pair>) {
    app.next == |decided| && app.executed == ExecuteFrom(decided, 0)
  }

  /** Executing after the log grew brings the replica up to date again. */
  lemma {:induction false} TryExecuteCatchesUp(app: App, before: seq<Pair>, decided: seq<Pair>)
    requires CaughtUp(app, before) && before <= decided
    ensures CaughtUp(TryExecute(app, decided), decided)
  {
    ExecuteSplit(decided, 0, |before|);
    assert decided[..|before|] == before;
  }

  /** Logs that are prefixes of each other have executions that are. */
  lemma {:induction false} ExecutionPrefix(a: seq<Pair>, b: seq<Pair>)
    requires |a| <= |b| && forall s :: 0 <= s < |a| ==> a[s].val == b[s].val
    ensures ExecuteFrom(a, 0) <= ExecuteFrom(b, 0)
  {
    ExecuteSplit(b, 0, |a|);
    SameValuesSameCalls(a, b[..|a|], 0);
  }

  lemma {:induction false} SameValuesSameCalls(a: seq<Pair>, b: seq<Pair>, slot: Slot)
    requires |a| == |b| && forall s :: 0 <= s < |a| ==> a[s].val == b[s].val
    ensures ExecuteFrom(a, slot) == ExecuteFrom(b, slot)
    decreases |a| - slot
  {
    hide ExecuteFrom;
    if slot < |a| {
      SameValuesSameCalls(a, b, slot + 1);
      ExecuteStep(a, slot);
      ExecuteStep(b, slot);
    } else {
      ExecuteEnd(a, slot);
      ExecuteEnd(b, slot);
    }
  }
}
