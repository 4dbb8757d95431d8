// Quorum sizes and the quorum set (src/config.rs).
module Quorums {
  import opened Ballots

  /** Size of both quorums, from the number of peers. */
  function QuorumSize(peers: nat): nat {
    1 + peers / 2
  }

  // ---------------------------------------------------------------------------
  // Two quorums of one membership
  // ---------------------------------------------------------------------------

  ghost predicate QuorumOf(members: set<NodeId>, q: set<NodeId>)
    requires members != {}
  {
    q <= members && |q| >= QuorumSize(|members| - 1)
  }

  lemma {:induction false} DisjointSize<T>(a: set<T>, b: set<T>, all: set<T>)
    requires a <= all && b <= all && a * b == {}
    ensures |a| + |b| <= |all|
  {
    assert |a + b| == |a| + |b|;
    SubsetSize(a + b, all);
  }

  lemma {:induction false} SubsetSize<T>(a: set<T>, b: set<T>)
    requires a <= b
    ensures |a| <= |b|
  {
    assert a + (b - a) == b;
    assert |b| == |a| + |b - a|;
  }

  lemma {:induction false} SubsetOfSize<T>(all: set<T>, k: nat) returns (sub: set<T>)
    requires k <= |all|
    ensures sub <= all && |sub| == k
  {
    if k == 0 {
      sub := {};
    } else {
      var x :| x in all;
      var rest := SubsetOfSize(all - {x}, k - 1);
      sub := rest + {x};
    }
  }

  lemma {:induction false} QuorumsMeet(members: set<NodeId>, a: set<NodeId>, b: set<NodeId>) returns (n: NodeId)
    requires members != {} && |members| % 2 == 1
    requires QuorumOf(members, a) && QuorumOf(members, b)
    ensures n in a && n in b
  {
    if a * b == {} {
      DisjointSize(a, b, members);
      assert false;
    }
    n :| n in a * b;
  }

  /** Any two quorums share a node exactly when the cluster has an odd number of
      nodes, that is, when the number of peers is even. */
  lemma {:induction false} QuorumsIntersectIffOdd(members: set<NodeId>)
    requires members != {}
    ensures (forall a, b :: QuorumOf(members, a) && QuorumOf(members, b) ==> a * b != {})
       <==> (|members| - 1) % 2 == 0
  {
    if (|members| - 1) % 2 == 0 {
      forall a, b | QuorumOf(members, a) && QuorumOf(members, b)
        ensures a * b != {}
      {
        var n := QuorumsMeet(members, a, b);
        assert n in a * b;
      }
    } else {
      var size := QuorumSize(|members| - 1);
      assert 2 * size == |members|;
      var a := SubsetOfSize(members, size);
      var b := members - a;
      assert |b| == |members| - |a|;
      assert QuorumOf(members, a) && QuorumOf(members, b) && a * b == {};
    }
  }

  // ---------------------------------------------------------------------------
  // The quorum set as a value
  // ---------------------------------------------------------------------------

  type Entries = seq<Option<NodeId>>

  function Vacant(size: nat): Entries {
    seq(size, _ => None)
  }

  /** Occupied entries come first and hold distinct nodes. */
  ghost predicate Packed(vs: Entries) {
    forall i, j :: 0 <= i < j < |vs| && vs[j].Some? ==> vs[i].Some? && vs[i] != vs[j]
  }

  function Members(vs: Entries): set<NodeId> {
    set i | 0 <= i < |vs| && vs[i].Some? :: vs[i].value
  }

  predicate HasQuorum(vs: Entries) {
    |vs| > 0 && vs[|vs| - 1].Some?
  }

  datatype SearchResult = Found(at: nat) | Missing(at: nat)

  /** First entry that holds `n` or is vacant, else the last entry. */
  function SearchFrom(vs: Entries, n: NodeId, i: nat): SearchResult
    requires i <= |vs| && |vs| > 0
    decreases |vs| - i
  {
    if i == |vs| then Missing(|vs| - 1)
    else if vs[i] == Some(n) then Found(i)
    else if vs[i] == None then Missing(i)
    else SearchFrom(vs, n, i + 1)
  }

  function Insert(vs: Entries, n: NodeId): Entries {
    if |vs| == 0 then vs else
    match SearchFrom(vs, n, 0)
    case Found(_) => vs
    case Missing(i) => if i < |vs| then vs[i := Some(n)] else vs
  }

  predicate Contains(vs: Entries, n: NodeId) {
    |vs| > 0 && SearchFrom(vs, n, 0).Found?
  }

  lemma {:induction false} SearchMeaning(vs: Entries, n: NodeId, i: nat)
    requires i <= |vs| && |vs| > 0 && Packed(vs)
    requires forall j :: 0 <= j < i ==> vs[j].Some? && vs[j] != Some(n)
    ensures SearchFrom(vs, n, i).at < |vs|
    ensures SearchFrom(vs, n, i).Found? <==> n in Members(vs)
    ensures SearchFrom(vs, n, i).Missing? && !HasQuorum(vs) ==>
              var k := SearchFrom(vs, n, i).at;
              vs[k] == None && forall j :: 0 <= j < k ==> vs[j].Some? && vs[j] != Some(n)
    ensures SearchFrom(vs, n, i).Missing? && HasQuorum(vs) ==> SearchFrom(vs, n, i).at == |vs| - 1
    decreases |vs| - i
  {
    if i < |vs| {
      if vs[i] == Some(n) {
        assert n in Members(vs);
      } else if vs[i].Some? {
        SearchMeaning(vs, n, i + 1);
      }
    }
  }

  /** One insertion: the entries stay packed; below quorum the node joins the set,
      and a quorum once reached is never lost. */
  lemma {:induction false} InsertMeaning(vs: Entries, n: NodeId)
    requires Packed(vs) && |vs| > 0
    ensures |Insert(vs, n)| == |vs| && Packed(Insert(vs, n))
    ensures Contains(vs, n) <==> n in Members(vs)
    ensures !HasQuorum(vs) ==> Members(Insert(vs, n)) == Members(vs) + {n}
    ensures HasQuorum(vs) ==> HasQuorum(Insert(vs, n))
    ensures Members(Insert(vs, n)) <= Members(vs) + {n}
  {
    SearchMeaning(vs, n, 0);
    match SearchFrom(vs, n, 0)
    case Found(_) =>
    case Missing(i) =>
      var ws := Insert(vs, n);
      assert ws == vs[i := Some(n)];
      forall m | m in Members(vs) && !HasQuorum(vs)
        ensures m in Members(ws)
      {
        var j :| 0 <= j < |vs| && vs[j] == Some(m);
        assert ws[j] == Some(m);
      }
      assert ws[i] == Some(n);
  }

  /** Where an insertion writes: nowhere if the node is in the set; else the first vacant entry;
      and in a full set the last entry, whose node is lost. */
  lemma {:induction false} InsertExactly(vs: Entries, n: NodeId) returns (k: nat)
    requires Packed(vs) && |vs| > 0
    ensures k < |vs| && Insert(vs, n) == if n in Members(vs) then vs else vs[k := Some(n)]
    ensures n !in Members(vs) && HasQuorum(vs) ==> k == |vs| - 1
    ensures n !in Members(vs) && !HasQuorum(vs) ==> vs[k].None? && forall j :: 0 <= j < k ==> vs[j].Some?
  {
    SearchMeaning(vs, n, 0);
    k := SearchFrom(vs, n, 0).at;
  }

  lemma {:induction false} MembersOfAppend(vs: Entries, n: NodeId)
    ensures Members(vs + [Some(n)]) == Members(vs) + {n}
  {
    var ws := vs + [Some(n)];
    assert ws[|vs|] == Some(n);
    forall m | m in Members(vs)
      ensures m in Members(ws)
    {
      var i :| 0 <= i < |vs| && vs[i] == Some(m);
      assert ws[i] == Some(m);
    }
  }

  lemma {:induction false} PrefixCount(vs: Entries, k: nat)
    requires k <= |vs| && Packed(vs) && (k > 0 ==> vs[k - 1].Some?)
    ensures |Members(vs[..k])| == k
  {
    if k > 0 {
      assert k > 1 ==> vs[k - 2].Some?;
      PrefixCount(vs, k - 1);
      var n := vs[k - 1].value;
      assert vs[..k] == vs[..k - 1] + [Some(n)];
      MembersOfAppend(vs[..k - 1], n);
      assert n !in Members(vs[..k - 1]);
    } else {
      assert Members(vs[..k]) == {};
    }
  }

  /** A packed quorum set has reached its quorum exactly when it holds as many nodes
      as it has entries. */
  lemma {:induction false} PackedCount(vs: Entries)
    requires Packed(vs) && |vs| > 0
    ensures HasQuorum(vs) <==> |Members(vs)| == |vs|
    ensures |Members(vs)| <= |vs|
  {
    if HasQuorum(vs) {
      PrefixCount(vs, |vs|);
      assert vs[..|vs|] == vs;
    } else {
      var k := OccupiedPrefix(vs, |vs| - 1);
      PrefixCount(vs, k);
      assert Members(vs) == Members(vs[..k]) by {
        forall m | m in Members(vs)
          ensures m in Members(vs[..k])
        {
          var i :| 0 <= i < |vs| && vs[i] == Some(m);
          assert vs[..k][i] == Some(m);
        }
        forall m | m in Members(vs[..k])
          ensures m in Members(vs)
        {
          var i :| 0 <= i < k && vs[..k][i] == Some(m);
          assert vs[i] == Some(m);
        }
      }
    }
  }

  lemma {:induction false} OccupiedPrefix(vs: Entries, n: nat) returns (k: nat)
    requires n < |vs| && vs[n] == None && Packed(vs)
    ensures k <= n && (k > 0 ==> vs[k - 1].Some?)
    ensures forall i :: k <= i < |vs| ==> vs[i] == None
  {
    if n == 0 || vs[n - 1].Some? {
      k := n;
    } else {
      k := OccupiedPrefix(vs, n - 1);
    }
  }

  function InsertAll(vs: Entries, ns: seq<NodeId>): Entries {
    if ns == [] then vs else Insert(InsertAll(vs, ns[..|ns| - 1]), ns[|ns| - 1])
  }

  function Elements(ns: seq<NodeId>): set<NodeId> {
    set n | n in ns
  }

  /** After any sequence of insertions, repetitions and overflow included, the
      quorum set has its quorum exactly when at least as many distinct nodes were
      inserted as it has entries; below that it holds exactly the inserted nodes. */
  lemma {:induction false} CountsDistinctNodes(size: nat, ns: seq<NodeId>)
    requires size > 0
    ensures var vs := InsertAll(Vacant(size), ns);
            |vs| == size && Packed(vs) && Members(vs) <= Elements(ns)
            && (HasQuorum(vs) <==> |Elements(ns)| >= size)
            && (!HasQuorum(vs) ==> Members(vs) == Elements(ns))
  {
    if ns == [] {
      assert Members(Vacant(size)) == {};
      assert Elements(ns) == {};
    } else {
      var front, n := ns[..|ns| - 1], ns[|ns| - 1];
      CountsDistinctNodes(size, front);
      var us := InsertAll(Vacant(size), front);
      var vs := Insert(us, n);
      InsertMeaning(us, n);
      PackedCount(us);
      PackedCount(vs);
      assert Elements(ns) == Elements(front) + {n} by {
        assert ns == front + [n];
      }
      if HasQuorum(us) {
        SubsetSize(Elements(front), Elements(ns));
      }
    }
  }

  // ---------------------------------------------------------------------------
  // The quorum set as an object
  // ---------------------------------------------------------------------------

  class QuorumSet {
    const values: array<Option<NodeId>>

    constructor WithSize(size: nat)
      requires size > 0
      ensures fresh(values) && values[..] == Vacant(size)
    {
      values := new Option<NodeId>[size](_ => None);
      new;
      assert values[..] == Vacant(size);
    }

    method Search(n: NodeId) returns (r: SearchResult)
      requires values.Length > 0
      ensures r == SearchFrom(values[..], n, 0)
      ensures r.at < values.Length
    {
      var i := 0;
      while i < values.Length
        invariant i <= values.Length
        invariant SearchFrom(values[..], n, 0) == SearchFrom(values[..], n, i)
      {
        match values[i] {
          case Some(m) =>
            if m == n { return Found(i); }
          case None => return Missing(i);
        }
        i := i + 1;
      }
      r := Missing(values.Length - 1);
    }

    method InsertNode(n: NodeId)
      requires values.Length > 0
      modifies values
      ensures values[..] == Insert(old(values[..]), n)
    {
      var r := Search(n);
      if r.Missing? {
        values[r.at] := Some(n);
      }
    }

    method ContainsNode(n: NodeId) returns (r: bool)
      requires values.Length > 0
      ensures r == Contains(values[..], n)
    {
      var s := Search(n);
      r := s.Found?;
    }

    method ReachedQuorum() returns (r: bool)
      requires values.Length > 0
      ensures r == HasQuorum(values[..])
    {
      r := values[values.Length - 1].Some?;
    }
  }
}
