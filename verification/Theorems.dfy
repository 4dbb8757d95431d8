// What holds in every run of a cluster, whatever the network loses, delays, reorders
// or duplicates.
module Theorems {
  import opened Ballots
  import opened Acceptors
  import opened NodeSteps
  import opened Execution
  import opened Clusters
  import opened Invariants
  import opened Growth
  import opened Safety
  import opened Runs

  // ---------------------------------------------------------------------------
  // Agreement
  // ---------------------------------------------------------------------------

  /** Promise coverage leaves no slot to reconcile: a leader picks values only from the
      start of its window on, below which every counted promiser's log ends. */
  lemma {:induction false} CoveredIsReconciled(c: Cluster)
    requires Inv(c) && Covered(c)
    ensures Reconciled(c)
  {
    hide Inv, PickOk, Covered;
    forall p, k | p in c.counted && p.cmd.Promise? && k in c.picks && k.bal == p.cmd.bal
      ensures |p.log| <= k.slot
    {
      InvPick(c, k);
      PickStart(c, k);
      CoveredAt(c, p);
    }
  }

  lemma {:induction false} PickStart(c: Cluster, k: Pick)
    requires PickOk(c, k)
    ensures k.bal in c.elected && c.elected[k.bal] <= k.slot
  {
  }

  lemma {:induction false} CoveredAt(c: Cluster, p: Packet)
    requires Covered(c) && p in c.counted && p.cmd.Promise? && p.cmd.bal in c.elected
    ensures |p.log| <= c.elected[p.cmd.bal]
  {
  }

  /** In a safe cluster, only one value can be chosen in a slot, at whatever ballots. */
  lemma {:induction false} ChosenAgree(c: Cluster, b: Ballot, v: Bytes, d: Ballot, w: Bytes, s: Slot)
    requires Inv(c) && OddSize(c) && AllSafe(c) && Chosen(c, b, s, v) && Chosen(c, d, s, w)
    ensures v == w
  {
    hide Inv, Chosen, SafeAt;
    InvOneValue(c);
    VotesArePicks(c);
    ChosenIsPicked(c, b, s, v);
    ChosenIsPicked(c, d, s, w);
    if b.AtMost(d) {
      ChosenFixes(c, b, s, v, Pick(d, s, w));
    } else {
      ChosenFixes(c, d, s, w, Pick(b, s, v));
    }
  }

  lemma {:induction false} ResolvedChosen(c: Cluster, n: NodeId, s: Slot)
    requires Inv(c) && n in c.nodes && At(c.nodes[n], s).Resolved?
    ensures Chosen(c, At(c.nodes[n], s).accepted, s, At(c.nodes[n], s).value)
  {
    hide Inv, Chosen;
    InvSlot(c, n, s);
  }

  lemma {:induction false} SafeClustersAgree(c: Cluster)
    requires Inv(c) && OddSize(c) && AllSafe(c)
    ensures Agreement(c)
  {
    hide Inv, Chosen, AllSafe, At;
    forall m, n, s: Slot | m in c.nodes && n in c.nodes && At(c.nodes[m], s).Resolved? && At(c.nodes[n], s).Resolved?
      ensures At(c.nodes[m], s).value == At(c.nodes[n], s).value
    {
      ResolvedChosen(c, m, s);
      ResolvedChosen(c, n, s);
      ChosenAgree(c, At(c.nodes[m], s).accepted, At(c.nodes[m], s).value,
                  At(c.nodes[n], s).accepted, At(c.nodes[n], s).value, s);
    }
  }

  /** Inductive safety: in every run of an odd cluster that is reconciled, for every
      value a leader picked, no other value is or can become chosen below its ballot. */
  lemma {:induction false} PicksAreSafe(run: seq<Cluster>, steps: seq<Step>, i: nat)
    requires IsRun(run, steps) && i < |run| && OddSize(run[i])
    requires Covered(run[i]) || Reconciled(run[i])
    ensures AllSafe(run[i])
  {
    hide Inv, IsRun, Covered, Reconciled, AllSafe;
    RunKeeps(run, steps, i);
    if Covered(run[i]) { CoveredIsReconciled(run[i]); }
    InvSafe(run[i]);
  }

  /** Agreement. */
  lemma {:induction false} NodesAgree(run: seq<Cluster>, steps: seq<Step>, i: nat)
    requires IsRun(run, steps) && i < |run| && OddSize(run[i])
    requires Covered(run[i]) || Reconciled(run[i])
    ensures Agreement(run[i])
  {
    hide Inv, IsRun, Covered, Reconciled, AllSafe, Agreement;
    RunKeeps(run, steps, i);
    PicksAreSafe(run, steps, i);
    SafeClustersAgree(run[i]);
  }

  lemma {:induction false} ResolvedStays(c: Cluster, d: Cluster, n: NodeId, s: Slot)
    requires Grows(c, d) && n in c.nodes && At(c.nodes[n], s).Resolved?
    ensures n in d.nodes && At(d.nodes[n], s) == At(c.nodes[n], s)
  {
    assert NodeGrows(c.nodes[n], d.nodes[n]);
    assert AccGrows(At(c.nodes[n], s), At(d.nodes[n], s));
  }

  /** Agreement over time: values resolved at any two moments of the run agree. */
  lemma {:induction false} NodesAlwaysAgree(run: seq<Cluster>, steps: seq<Step>, i: nat, j: nat, m: NodeId,
                                            n: NodeId, s: Slot)
    requires IsRun(run, steps) && i <= j < |run| && OddSize(run[j])
    requires Covered(run[j]) || Reconciled(run[j])
    requires m in run[i].nodes && At(run[i].nodes[m], s).Resolved?
    requires n in run[j].nodes && At(run[j].nodes[n], s).Resolved?
    ensures At(run[i].nodes[m], s).value == At(run[j].nodes[n], s).value
  {
    hide Inv, IsRun, Covered, Reconciled, Grows, At;
    RunGrows(run, steps, i, j);
    ResolvedStays(run[i], run[j], m, s);
    NodesAgree(run, steps, j);
  }

  /** Reconciled as far as the logs are not ahead of the promised ballot. */
  ghost predicate ReconciledBelow(c: Cluster) {
    forall p, k ::
      && p in c.counted && p.cmd.Promise? && k in c.picks && k.bal == p.cmd.bal && k.slot < |p.log|
      && p.log[k.slot].bal.AtMost(p.cmd.bal)
      ==> k.val == p.log[k.slot].val
  }

  /** No counted promise came with a log entry of a ballot above the promised one. */
  ghost predicate LogsBelow(c: Cluster) {
    forall p, s: Slot :: p in c.counted && p.cmd.Promise? && s < |p.log| ==> p.log[s].bal.AtMost(p.cmd.bal)
  }

  /** How exact the condition is: reconciled runs are safe, and safe runs are reconciled
      wherever a promiser's log was not ahead of the promised ballot; so unless one was, the
      picks of a run are safe if and only if it is reconciled. */
  lemma {:induction false} ReconciledIsExact(run: seq<Cluster>, steps: seq<Step>, i: nat)
    requires IsRun(run, steps) && i < |run| && OddSize(run[i])
    ensures Reconciled(run[i]) ==> AllSafe(run[i])
    ensures AllSafe(run[i]) ==> ReconciledBelow(run[i])
    ensures LogsBelow(run[i]) ==> (AllSafe(run[i]) <==> Reconciled(run[i]))
  {
    hide Inv, IsRun, SafeAt, Chosen, LogsBelow, ReconciledBelow, Reconciled;
    var c := run[i];
    RunKeeps(run, steps, i);
    if Reconciled(c) { InvSafe(c); }
    if AllSafe(c) { SafeIsReconciledBelow(c); }
    if LogsBelow(c) && ReconciledBelow(c) { BelowIsAll(c); }
  }

  lemma {:induction false} SafeIsReconciledBelow(c: Cluster)
    requires Inv(c) && OddSize(c) && AllSafe(c)
    ensures ReconciledBelow(c)
  {
    hide Inv, SafeAt, Chosen;
    forall p, k | && p in c.counted && p.cmd.Promise? && k in c.picks && k.bal == p.cmd.bal && k.slot < |p.log|
                  && p.log[k.slot].bal.AtMost(p.cmd.bal)
      ensures k.val == p.log[k.slot].val
    {
      InvOneValue(c);
      VotesArePicks(c);
      CountedLog(c, p, k.slot);
      ChosenFixes(c, p.log[k.slot].bal, k.slot, p.log[k.slot].val, k);
    }
  }

  lemma {:induction false} BelowIsAll(c: Cluster)
    requires LogsBelow(c) && ReconciledBelow(c)
    ensures Reconciled(c)
  {
  }

  lemma {:induction false} CountedLog(c: Cluster, p: Packet, s: Slot)
    requires Inv(c) && p in c.counted && s < |p.log|
    ensures Chosen(c, p.log[s].bal, s, p.log[s].val)
  {
    assert CountedOk(c, p);
    InvPacket(c, p);
  }

  // ---------------------------------------------------------------------------
  // Execution
  // ---------------------------------------------------------------------------

  /** A replica has executed a prefix of its log, and all of it unless it panicked. */
  ghost predicate AppOk(app: App, decided: seq<Pair>) {
    && app.next <= |decided|
    && app.executed == ExecuteFrom(decided[..app.next], 0)
    && (!app.halted ==> app.next == |decided|)
  }

  lemma {:induction false} AppStepOk(app: App, x: NodeState, o: Outcome, input: Input)
    requires AppOk(app, x.window.decided) && !app.halted && x.window.decided <= o.node.window.decided
    requires input.TakeLead? ==> o.node.window == x.window
    ensures AppOk(AppStep(app, x, o, input), o.node.window.decided)
  {
    var a, b := x.window.decided, o.node.window.decided;
    assert a[..app.next] == a == b[..app.next];
    assert b[..|b|] == b;
    TryExecuteCatchesUp(app, a, b);
  }

  lemma {:induction false} ElectKeepsWindow(x: NodeState)
    ensures Handle(x, TakeLead).node.window == x.window
  {
  }

  ghost predicate AppsOk(c: Cluster) {
    c.apps.Keys == c.nodes.Keys && forall n :: n in c.nodes ==> AppOk(c.apps[n], c.nodes[n].window.decided)
  }

  lemma {:induction false} StepApps(c: Cluster, step: Step)
    requires Inv(c) && Enabled(c, step) && AppsOk(c)
    ensures AppsOk(Next(c, step))
  {
    hide Inv, Grows, Handle, AppOk, AppStep;
    var d := Next(c, step);
    var n := Actor(step);
    StepKeeps(c, step);
    DecidedGrows(c, d, n);
    ElectKeepsWindow(c.nodes[n]);
    AppStepOk(c.apps[n], c.nodes[n], Handle(c.nodes[n], InputOf(step)), InputOf(step));
  }

  lemma {:induction false} DecidedGrows(c: Cluster, d: Cluster, n: NodeId)
    requires Grows(c, d) && n in c.nodes
    ensures n in d.nodes && c.nodes[n].window.decided <= d.nodes[n].window.decided
  {
    assert NodeGrows(c.nodes[n], d.nodes[n]);
  }

  /** Throughout a run every replica has executed exactly its log, or a prefix of it if
      it panicked. */
  lemma {:induction false} RunExecutes(run: seq<Cluster>, steps: seq<Step>, i: nat)
    requires IsRun(run, steps) && i < |run|
    ensures AppsOk(run[i])
  {
    hide IsRun, Inv, Next, Enabled, AppsOk, Init;
    RunStarts(run, steps);
    if i == 0 {
      AppsStart(run[0]);
    } else {
      RunExecutes(run, steps, i - 1);
      RunKeeps(run, steps, i - 1);
      RunStep(run, steps, i - 1);
      StepApps(run[i - 1], steps[i - 1]);
    }
  }

  lemma {:induction false} AppsStart(c: Cluster)
    requires Init(c)
    ensures AppsOk(c)
  {
    hide NewNode;
    forall n | n in c.nodes ensures AppOk(c.apps[n], c.nodes[n].window.decided) {
      assert IsFresh(c, n);
      FreshLog(n, c.nodes.Keys - {n});
    }
  }

  lemma {:induction false} FreshLog(n: NodeId, peers: set<NodeId>)
    ensures NewNode(n, peers).window.decided == []
  {
  }

  /** One log holds the values of the other and perhaps more. */
  ghost predicate Extends(a: seq<Pair>, b: seq<Pair>) {
    |a| <= |b| && forall s :: 0 <= s < |a| ==> a[s].val == b[s].val
  }

  lemma {:induction false} LogsAgree(c: Cluster, m: NodeId, n: NodeId)
    requires Inv(c) && Agreement(c) && m in c.nodes && n in c.nodes
    requires |c.nodes[m].window.decided| <= |c.nodes[n].window.decided|
    ensures Extends(c.nodes[m].window.decided, c.nodes[n].window.decided)
  {
    hide Inv, Agreement;
    var a, b := c.nodes[m].window.decided, c.nodes[n].window.decided;
    forall s | 0 <= s < |a|
      ensures a[s].val == b[s].val
    {
      assert At(c.nodes[m], s) == Resolved(a[s].bal, a[s].val) && At(c.nodes[n], s) == Resolved(b[s].bal, b[s].val);
      AgreeAt(c, m, n, s);
    }
  }

  lemma {:induction false} AgreeAt(c: Cluster, m: NodeId, n: NodeId, s: Slot)
    requires Agreement(c) && m in c.nodes && n in c.nodes
    requires At(c.nodes[m], s).Resolved? && At(c.nodes[n], s).Resolved?
    ensures At(c.nodes[m], s).value == At(c.nodes[n], s).value
  {
  }

  lemma {:induction false} ExtendsExecution(a: seq<Pair>, b: seq<Pair>, j: nat, k: nat)
    requires Extends(a, b) || Extends(b, a)
    requires j <= |a| && k <= |b|
    ensures j <= k ==> ExecuteFrom(a[..j], 0) <= ExecuteFrom(b[..k], 0)
    ensures k <= j ==> ExecuteFrom(b[..k], 0) <= ExecuteFrom(a[..j], 0)
  {
    if j <= k { ExecutionPrefix(a[..j], b[..k]); }
    if k <= j { ExecutionPrefix(b[..k], a[..j]); }
  }

  /** A log that holds another's values extends every part of it. */
  lemma {:induction false} PrefixExtends(a: seq<Pair>, a': seq<Pair>, b: seq<Pair>)
    requires a <= a' && (Extends(a', b) || Extends(b, a'))
    ensures Extends(a, b) || Extends(b, a)
  {
    assert |a| <= |b| ==> Extends(a, b);
  }

  /** State machine safety: of any two replicas, at any two moments of the run, one's log of
      decided values and one's sequence of executed commands is a prefix of the other's. */
  lemma {:induction false} ReplicasAgree(run: seq<Cluster>, steps: seq<Step>, i: nat, j: nat, m: NodeId, n: NodeId)
    requires IsRun(run, steps) && i <= j < |run| && OddSize(run[j]) && (Covered(run[j]) || Reconciled(run[j]))
    requires m in run[i].nodes && n in run[j].nodes
    ensures var a, b := run[i].nodes[m].window.decided, run[j].nodes[n].window.decided;
            Extends(a, b) || Extends(b, a)
    ensures m in run[i].apps && n in run[j].apps
    ensures var a, b := run[i].apps[m].executed, run[j].apps[n].executed; a <= b || b <= a
  {
    hide Inv, IsRun, Covered, Reconciled, Agreement, Extends, Grows;
    var c, d := run[i], run[j];
    RunKeeps(run, steps, j);
    RunGrows(run, steps, i, j);
    DecidedGrows(c, d, m);
    NodesAgree(run, steps, j);
    var a, a', b := c.nodes[m].window.decided, d.nodes[m].window.decided, d.nodes[n].window.decided;
    if |a'| <= |b| { LogsAgree(d, m, n); } else { LogsAgree(d, n, m); }
    PrefixExtends(a, a', b);
    RunExecutes(run, steps, i);
    RunExecutes(run, steps, j);
    assert AppOk(c.apps[m], a) && AppOk(d.apps[n], b);
    ExtendsExecution(a, b, c.apps[m].next, d.apps[n].next);
  }
}
