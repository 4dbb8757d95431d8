// Identifiers, values and the ballot order (src/lib.rs).
module Ballots {

  type NodeId = nat
  type Slot = nat

  newtype Byte = x: int | 0 <= x < 256
  type Bytes = seq<Byte>

  datatype Option<+T> = None | Some(value: T)

  /** Ballots are ordered by number first and by owner second. */
  datatype Ballot = Ballot(num: nat, node: NodeId) {
    predicate Less(b: Ballot) {
      num < b.num || (num == b.num && node < b.node)
    }

    predicate AtMost(b: Ballot) {
      num < b.num || (num == b.num && node <= b.node)
    }

    /** The ballot a node proposes after having seen this one: the least ballot of
        node `n` above it. */
    function HigherFor(n: NodeId): (r: Ballot)
      ensures r.node == n && Less(r)
      ensures forall b: Ballot :: b.node == n && Less(b) ==> r.AtMost(b)
    {
      if node < n then Ballot(num, n) else Ballot(num + 1, n)
    }
  }

  /** The order of ballots is that of the natural numbers: with node numbers below `k`, the
      ballot of node `n` with number `i` ranks as `i * k + n`. So no two ballots tie, and of
      ballots with one number the one of the higher node comes last. */
  lemma {:induction false} BallotsRank(a: Ballot, b: Ballot, k: nat)
    requires a.node < k && b.node < k
    ensures a.Less(b) <==> a.num * k + a.node < b.num * k + b.node
    ensures a.AtMost(b) <==> a.num * k + a.node <= b.num * k + b.node
    ensures a == b <==> a.num * k + a.node == b.num * k + b.node
  {
    if a.num < b.num { MoreTimes(a.num, b.num, k); }
    if b.num < a.num { MoreTimes(b.num, a.num, k); }
  }

  lemma {:induction false} MoreTimes(i: nat, j: nat, k: nat)
    requires i < j
    ensures i * k + k <= j * k
    decreases j
  {
    if i + 1 < j {
      MoreTimes(i, j - 1, k);
    }
    assert j * k == (j - 1) * k + k;
  }

  /** The order on optional ballots, in which "none" comes first. */
  predicate Precedes(a: Option<Ballot>, b: Option<Ballot>) {
    a.None? || (b.Some? && a.value.AtMost(b.value))
  }

  function Max(a: Option<Ballot>, b: Option<Ballot>): (r: Option<Ballot>)
    ensures Precedes(a, r) && Precedes(b, r)
    ensures r == a || r == b
  {
    if Precedes(a, b) then b else a
  }
}
