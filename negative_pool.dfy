/** The pool that negative contexts are drawn from
    (`SplitterTrainer.create_negative_sample_pool`): every persona node
    repeated `int(1 + degree ** 0.75)` times, nodes in iteration order. */
module NegativePool {
  import opened Seqs

  /** A node of the persona graph. The trainer also uses it as a row index
      of the persona table. */
  type PersonaId = nat

  /** The persona graph as the pool reads it: its nodes in iteration order
      and the degree of each node. */
  datatype PersonaGraph = PersonaGraph(nodes: seq<PersonaId>, degree: map<PersonaId, nat>)
  {
    /** A graph lists each node once and knows the degree of every node. */
    predicate Valid()
    {
      (forall i, j :: 0 <= i < j < |nodes| ==> nodes[i] != nodes[j]) &&
      (forall n :: n in nodes ==> n in degree)
    }
  }

  function Cube(d: nat): nat { d * d * d }

  function Pow4(m: nat): nat { m * m * m * m }

  lemma {:induction false} MulMonotone(x: nat, y: nat, u: nat, v: nat)
    requires x <= y && u <= v
    ensures x * u <= y * v
  {
    assert x * u <= y * u;
    assert y * u <= y * v;
  }

  lemma {:induction false} CubeMonotone(a: nat, b: nat)
    requires a <= b
    ensures Cube(a) <= Cube(b)
  {
    MulMonotone(a, b, a, b);
    MulMonotone(a * a, b * b, a, b);
  }

  lemma {:induction false} Pow4Monotone(a: nat, b: nat)
    requires a <= b
    ensures Pow4(a) <= Pow4(b)
  {
    CubeMonotone(a, b);
    MulMonotone(Cube(a), Cube(b), a, b);
  }

  lemma {:induction false} Pow4AtLeast(m: nat)
    ensures m <= Pow4(m)
  {
    if m > 0 {
      assert m * m >= m;
      assert m * m * m >= m * m;
      assert m * m * m * m >= m * m * m;
    }
  }

  /** The largest `r >= m` whose fourth power is at most `c`. */
  function FloorRootFrom(c: nat, m: nat): (r: nat)
    requires Pow4(m) <= c
    ensures m <= r && Pow4(r) <= c < Pow4(r + 1)
    decreases c - m
  {
    if Pow4(m + 1) <= c then
      Pow4AtLeast(m + 1);
      FloorRootFrom(c, m + 1)
    else
      m
  }

  /** `floor(d ** 0.75)` in exact integer arithmetic: the largest `m` with
      `m^4 <= d^3`. The source evaluates `d ** 0.75` in floating point and
      truncates with `int(...)`. */
  function FloorPowThreeQuarters(d: nat): (m: nat)
    ensures Pow4(m) <= Cube(d) < Pow4(m + 1)
  {
    FloorRootFrom(Cube(d), 0)
  }

  /** Only one natural number lies where `FloorPowThreeQuarters` says. */
  lemma {:induction false} FloorPowThreeQuartersUnique(d: nat, m: nat)
    requires Pow4(m) <= Cube(d) < Pow4(m + 1)
    ensures m == FloorPowThreeQuarters(d)
  {
    var r := FloorPowThreeQuarters(d);
    if m < r {
      Pow4Monotone(m + 1, r);
    } else if r < m {
      Pow4Monotone(r + 1, m);
    }
  }

  /** The multiplicity of a node of degree `d` in the pool:
      `int(1 + d ** 0.75)` (src/splitter.py:159). */
  function Weight(d: nat): (w: nat)
    ensures w >= 1
    ensures Pow4(w - 1) <= Cube(d) < Pow4(w)
  {
    1 + FloorPowThreeQuarters(d)
  }

  /** A node of higher degree is never weighted less. */
  lemma {:induction false} WeightMonotone(d1: nat, d2: nat)
    requires d1 <= d2
    ensures Weight(d1) <= Weight(d2)
  {
    var m1, m2 := FloorPowThreeQuarters(d1), FloorPowThreeQuarters(d2);
    if m1 > m2 {
      CubeMonotone(d1, d2);
      Pow4Monotone(m2 + 1, m1);
    }
  }

  /** `downsampled_degrees`: node to pool multiplicity (src/splitter.py:159). */
  function DownsampledDegrees(g: PersonaGraph): (dd: map<PersonaId, nat>)
    requires g.Valid()
    ensures forall n :: n in g.nodes <==> n in dd
    ensures forall n :: n in dd ==> dd[n] >= 1
  {
    map n | n in g.nodes :: Weight(g.degree[n])
  }

  /** `[k for k, v in dd.items() for i in range(v)]` over `dd`'s items in
      the order `nodes` lists them (src/splitter.py:160). */
  function PoolOf(nodes: seq<PersonaId>, dd: map<PersonaId, nat>): seq<PersonaId>
    requires forall n :: n in nodes ==> n in dd
  {
    if nodes == [] then [] else Replicate(nodes[0], dd[nodes[0]]) + PoolOf(nodes[1..], dd)
  }

  /** `negative_samples_pool` of a persona graph. */
  function NegativeSamplesPool(g: PersonaGraph): seq<PersonaId>
    requires g.Valid()
  {
    PoolOf(g.nodes, DownsampledDegrees(g))
  }

  /** The sum of the multiplicities of `nodes`. */
  function Total(nodes: seq<PersonaId>, dd: map<PersonaId, nat>): nat
    requires forall n :: n in nodes ==> n in dd
  {
    if nodes == [] then 0 else dd[nodes[0]] + Total(nodes[1..], dd)
  }

  lemma {:induction false} PoolOfLength(nodes: seq<PersonaId>, dd: map<PersonaId, nat>)
    requires forall n :: n in nodes ==> n in dd
    ensures |PoolOf(nodes, dd)| == Total(nodes, dd)
  {
    if nodes != [] {
      PoolOfLength(nodes[1..], dd);
    }
  }

  lemma {:induction false} PoolOfAppend(a: seq<PersonaId>, b: seq<PersonaId>, dd: map<PersonaId, nat>)
    requires forall n :: n in a + b ==> n in dd
    ensures PoolOf(a + b, dd) == PoolOf(a, dd) + PoolOf(b, dd)
  {
    if a == [] {
      assert a + b == b;
    } else {
      assert (a + b)[1..] == a[1..] + b;
      PoolOfAppend(a[1..], b, dd);
    }
  }

  lemma {:induction false} PoolOfCount(nodes: seq<PersonaId>, dd: map<PersonaId, nat>, x: PersonaId)
    requires forall n :: n in nodes ==> n in dd
    requires forall i, j :: 0 <= i < j < |nodes| ==> nodes[i] != nodes[j]
    ensures multiset(PoolOf(nodes, dd))[x] == if x in nodes then dd[x] else 0
  {
    if nodes != [] {
      ReplicateCount(nodes[0], dd[nodes[0]], x);
      PoolOfCount(nodes[1..], dd, x);
      assert x in nodes <==> x == nodes[0] || x in nodes[1..];
      if x == nodes[0] {
        assert x !in nodes[1..];
      }
    }
  }

  /** The pool holds exactly `Weight(degree(n))` copies of each persona node
      `n` and nothing else (src/splitter.py:159-160). */
  lemma {:induction false} PoolCount(g: PersonaGraph, x: PersonaId)
    requires g.Valid()
    ensures multiset(NegativeSamplesPool(g))[x] == if x in g.nodes then Weight(g.degree[x]) else 0
  {
    PoolOfCount(g.nodes, DownsampledDegrees(g), x);
  }

  /** The values of the pool are exactly the persona nodes. */
  lemma {:induction false} PoolMembers(g: PersonaGraph, x: PersonaId)
    requires g.Valid()
    ensures x in NegativeSamplesPool(g) <==> x in g.nodes
  {
    PoolCount(g, x);
    assert x in NegativeSamplesPool(g) <==> x in multiset(NegativeSamplesPool(g));
  }

  /** The copies of `nodes[i]` form one contiguous block after the blocks
      of the nodes before it. */
  lemma {:induction false} PoolOfBlock(nodes: seq<PersonaId>, dd: map<PersonaId, nat>, i: nat)
    requires forall n :: n in nodes ==> n in dd
    requires i < |nodes|
    ensures |PoolOf(nodes, dd)| == Total(nodes, dd)
    ensures var start := Total(nodes[..i], dd);
      start + dd[nodes[i]] <= |PoolOf(nodes, dd)| &&
      PoolOf(nodes, dd)[start .. start + dd[nodes[i]]] == Replicate(nodes[i], dd[nodes[i]])
  {
    var pre, post := nodes[..i], nodes[i..];
    var block := Replicate(nodes[i], dd[nodes[i]]);
    assert PoolOf(nodes, dd) == PoolOf(pre, dd) + (block + PoolOf(post[1..], dd)) by {
      assert nodes == pre + post;
      PoolOfAppend(pre, post, dd);
    }
    assert |PoolOf(pre, dd)| == Total(pre, dd) by {
      PoolOfLength(pre, dd);
    }
    PoolOfLength(nodes, dd);
    var start := |PoolOf(pre, dd)|;
    assert PoolOf(nodes, dd)[start .. start + |block|] == block;
  }

  /** The copies of node `i` form one contiguous block, which starts after
      the blocks of the nodes listed before it; the pool's length is the sum
      of all weights (src/splitter.py:160). */
  lemma {:induction false} PoolBlock(g: PersonaGraph, i: nat)
    requires g.Valid() && i < |g.nodes|
    ensures |NegativeSamplesPool(g)| == Total(g.nodes, DownsampledDegrees(g))
    ensures var start := Total(g.nodes[..i], DownsampledDegrees(g));
      var end := start + Weight(g.degree[g.nodes[i]]);
      end <= |NegativeSamplesPool(g)| &&
      NegativeSamplesPool(g)[start..end] == Replicate(g.nodes[i], Weight(g.degree[g.nodes[i]]))
  {
    var dd := DownsampledDegrees(g);
    PoolOfBlock(g.nodes, dd, i);
    assert dd[g.nodes[i]] == Weight(g.degree[g.nodes[i]]);
  }
}
