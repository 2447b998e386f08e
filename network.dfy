/** The layered pipe network shared by all four generators: the four node
    classes (plants P, tanks T, transfer nodes C1, final nodes C2), their
    1-based global numbering, arcs between adjacent layers, complete
    bipartite layer pairs, the dictionary-of-generated-data shape of an
    instance, and the insertion-ordered dictionaries that hold costs. */
module Network {

  /** The four node classes, in their fixed block order. */
  datatype Layer = Plant | Tank | Transfer | Final

  /** A node is its class tag and its 0-based offset inside the class
      (the source's names "P0", "T3", "C1_2", "C2_5"). */
  datatype Node = Node(layer: Layer, k: nat)

  type Arc = (Node, Node)

  datatype Sizes = Sizes(nP: nat, nT: nat, nC1: nat, nC2: nat)

  const Layers: seq<Layer> := [Plant, Tank, Transfer, Final]

  function Rank(l: Layer): (r: nat)
    ensures r < 4 && Layers[r] == l
  {
    match l
    case Plant => 0
    case Tank => 1
    case Transfer => 2
    case Final => 3
  }

  function Count(z: Sizes, l: Layer): nat
  {
    match l
    case Plant => z.nP
    case Tank => z.nT
    case Transfer => z.nC1
    case Final => z.nC2
  }

  /** Number of nodes in the first `g` classes of the block order. */
  function Before(z: Sizes, g: nat): nat
    requires g <= 4
  {
    if g == 0 then 0
    else if g == 1 then z.nP
    else if g == 2 then z.nP + z.nT
    else if g == 3 then z.nP + z.nT + z.nC1
    else z.nP + z.nT + z.nC1 + z.nC2
  }

  function Total(z: Sizes): nat
  {
    z.nP + z.nT + z.nC1 + z.nC2
  }

  predicate Valid(z: Sizes, v: Node)
  {
    v.k < Count(z, v.layer)
  }

  /** The 1-based global index of a node: the sizes of the earlier classes
      plus the offset plus one. */
  function Index(z: Sizes, v: Node): (i: nat)
    requires Valid(z, v)
    ensures Before(z, Rank(v.layer)) < i <= Before(z, Rank(v.layer) + 1) <= Total(z)
  {
    Before(z, Rank(v.layer)) + v.k + 1
  }

  /** The node that carries global index `i`. */
  function Decode(z: Sizes, i: nat): (v: Node)
    requires 1 <= i <= Total(z)
    ensures Valid(z, v) && Index(z, v) == i
  {
    if i <= z.nP then Node(Plant, i - 1)
    else if i <= z.nP + z.nT then Node(Tank, i - 1 - z.nP)
    else if i <= z.nP + z.nT + z.nC1 then Node(Transfer, i - 1 - z.nP - z.nT)
    else Node(Final, i - 1 - z.nP - z.nT - z.nC1)
  }

  /** Decoding the index of a node gives back the node, so `Index` is a
      bijection from the valid nodes onto 1..Total. */
  lemma DecodeIndex(z: Sizes, v: Node)
    requires Valid(z, v)
    ensures Decode(z, Index(z, v)) == v
  {
    var i := Index(z, v);
    var w := Decode(z, i);
    IndexInjective(z, v, w);
  }

  lemma IndexInjective(z: Sizes, v: Node, w: Node)
    requires Valid(z, v) && Valid(z, w) && Index(z, v) == Index(z, w)
    ensures v == w
  {
    if Rank(v.layer) < Rank(w.layer) {
      BeforeMonotone(z, Rank(v.layer) + 1, Rank(w.layer));
      assert false;
    } else if Rank(w.layer) < Rank(v.layer) {
      BeforeMonotone(z, Rank(w.layer) + 1, Rank(v.layer));
      assert false;
    }
  }

  lemma BeforeMonotone(z: Sizes, g: nat, h: nat)
    requires g <= h <= 4
    ensures Before(z, g) <= Before(z, h)
  {
  }

  /** `instancia['nodos'][l]`: the nodes of one class in offset order. */
  function NodesOf(z: Sizes, l: Layer): (r: seq<Node>)
    ensures |r| == Count(z, l)
    ensures forall k :: 0 <= k < |r| ==> r[k] == Node(l, k)
  {
    seq(Count(z, l), k requires 0 <= k < Count(z, l) => Node(l, k))
  }

  /** All nodes in block order P, T, C1, C2. */
  function AllNodes(z: Sizes): seq<Node>
  {
    NodesOf(z, Plant) + NodesOf(z, Tank) + NodesOf(z, Transfer) + NodesOf(z, Final)
  }

  /** Enumerating the classes in block order numbers the nodes 1..N with no
      gap: the j-th node enumerated gets index j + 1. */
  lemma AllNodesNumbered(z: Sizes)
    ensures |AllNodes(z)| == Total(z)
    ensures forall j :: 0 <= j < Total(z) ==>
      Valid(z, AllNodes(z)[j]) && Index(z, AllNodes(z)[j]) == j + 1
  {
    var all := AllNodes(z);
    forall j | 0 <= j < Total(z)
      ensures Valid(z, all[j]) && Index(z, all[j]) == j + 1
    {
      if j < z.nP {
        assert all[j] == Node(Plant, j);
      } else if j < z.nP + z.nT {
        assert all[j] == Node(Tank, j - z.nP);
      } else if j < z.nP + z.nT + z.nC1 {
        assert all[j] == Node(Transfer, j - z.nP - z.nT);
      } else {
        assert all[j] == Node(Final, j - z.nP - z.nT - z.nC1);
      }
    }
  }

  predicate NoDup<T(==)>(s: seq<T>)
  {
    forall i, j :: 0 <= i < j < |s| ==> s[i] != s[j]
  }

  // ---------------------------------------------------------------------
  // Arcs and complete bipartite layer pairs

  /** An arc from a valid node of class `l1` to a valid node of class `l2`. */
  predicate LayerArc(z: Sizes, a: Arc, l1: Layer, l2: Layer)
  {
    a.0.layer == l1 && a.1.layer == l2 && Valid(z, a.0) && Valid(z, a.1)
  }

  predicate LayerArcs(z: Sizes, arcs: seq<Arc>, l1: Layer, l2: Layer)
  {
    forall i :: 0 <= i < |arcs| ==> LayerArc(z, arcs[i], l1, l2)
  }

  /** `[(u, v) for v in vs]`. */
  function Row<A, B>(u: A, vs: seq<B>): (r: seq<(A, B)>)
    ensures |r| == |vs| && forall j :: 0 <= j < |vs| ==> r[j] == (u, vs[j])
  {
    seq(|vs|, j requires 0 <= j < |vs| => (u, vs[j]))
  }

  /** `[(u, v) for u in us for v in vs]`: the complete bipartite arcs between
      two layers, row by row. */
  function Product<A, B>(us: seq<A>, vs: seq<B>): seq<(A, B)>
  {
    if us == [] then [] else Product(us[..|us| - 1], vs) + Row(us[|us| - 1], vs)
  }

  lemma {:induction false} ProductLength<A, B>(us: seq<A>, vs: seq<B>)
    ensures |Product(us, vs)| == |us| * |vs|
  {
    if us != [] {
      var n := |us| - 1;
      ProductLength(us[..n], vs);
      assert |Product(us, vs)| == n * |vs| + |vs|;
      assert n * |vs| + |vs| == (n + 1) * |vs|;
    }
  }

  /** Row-major layout: pair (us[a], vs[b]) sits at position a*|vs| + b. */
  lemma {:induction false} ProductAt<A, B>(us: seq<A>, vs: seq<B>, a: nat, b: nat)
    requires a < |us| && b < |vs|
    ensures |Product(us, vs)| == |us| * |vs|
    ensures a * |vs| + b < |us| * |vs|
    ensures Product(us, vs)[a * |vs| + b] == (us[a], vs[b])
  {
    ProductLength(us, vs);
    var n := |us| - 1;
    var m := |vs|;
    ProductLength(us[..n], vs);
    if a == n {
      assert a * m + b == n * m + b;
    } else {
      ProductAt(us[..n], vs, a, b);
      assert (a + 1) * m <= n * m by {
        assert a + 1 <= n;
        MulLe(a + 1, n, m);
      }
    }
    assert (a + 1) * m <= |us| * m by { MulLe(a + 1, |us|, m); }
  }

  lemma MulLe(x: nat, y: nat, m: nat)
    requires x <= y
    ensures x * m <= y * m
  {
  }

  lemma {:induction false} ProductMember<A, B>(us: seq<A>, vs: seq<B>, p: (A, B))
    ensures p in Product(us, vs) <==> p.0 in us && p.1 in vs
  {
    if us != [] {
      var n := |us| - 1;
      ProductMember(us[..n], vs, p);
      assert us == us[..n] + [us[n]];
    }
  }

  lemma NoDupConcat<T>(a: seq<T>, b: seq<T>)
    requires NoDup(a) && NoDup(b)
    requires forall x :: x in a ==> x !in b
    ensures NoDup(a + b)
  {
    var c := a + b;
    forall i, j | 0 <= i < j < |c|
      ensures c[i] != c[j]
    {
      if i < |a| && j >= |a| {
        assert c[i] in a && c[j] in b;
      }
    }
  }

  /** Complete bipartite layers between duplicate-free node lists repeat no arc. */
  lemma {:induction false} ProductNoDup<A, B>(us: seq<A>, vs: seq<B>)
    requires NoDup(us) && NoDup(vs)
    ensures NoDup(Product(us, vs))
  {
    if us != [] {
      var n := |us| - 1;
      ProductNoDup(us[..n], vs);
      var row := Row(us[n], vs);
      forall x | x in Product(us[..n], vs)
        ensures x !in row
      {
        ProductMember(us[..n], vs, x);
      }
      NoDupConcat(Product(us[..n], vs), row);
    }
  }

  lemma NodesOfNoDup(z: Sizes, l: Layer)
    ensures NoDup(NodesOf(z, l))
  {
  }

  /** Complete bipartite arcs between two layers are arcs of that layer pair. */
  lemma CompleteLayerArcs(z: Sizes, l1: Layer, l2: Layer)
    ensures LayerArcs(z, Product(NodesOf(z, l1), NodesOf(z, l2)), l1, l2)
  {
    var p := Product(NodesOf(z, l1), NodesOf(z, l2));
    forall i | 0 <= i < |p|
      ensures LayerArc(z, p[i], l1, l2)
    {
      ProductMember(NodesOf(z, l1), NodesOf(z, l2), p[i]);
    }
  }

  /** The arc count of three complete bipartite layer pairs. */
  function CompleteArcCount(z: Sizes): nat
  {
    z.nP * z.nT + z.nT * z.nC1 + z.nC1 * z.nC2
  }

  // ---------------------------------------------------------------------
  // Degrees

  function InDegree(arcs: seq<Arc>, v: Node): nat
  {
    if arcs == [] then 0
    else InDegree(arcs[..|arcs| - 1], v) + (if arcs[|arcs| - 1].1 == v then 1 else 0)
  }

  function OutDegree(arcs: seq<Arc>, u: Node): nat
  {
    if arcs == [] then 0
    else OutDegree(arcs[..|arcs| - 1], u) + (if arcs[|arcs| - 1].0 == u then 1 else 0)
  }

  lemma {:induction false} DegreeConcat(a: seq<Arc>, b: seq<Arc>, v: Node)
    ensures InDegree(a + b, v) == InDegree(a, v) + InDegree(b, v)
    ensures OutDegree(a + b, v) == OutDegree(a, v) + OutDegree(b, v)
    decreases |b|
  {
    if b == [] {
      assert a + b == a;
    } else {
      assert (a + b)[..|a + b| - 1] == a + b[..|b| - 1];
      assert (a + b)[|a + b| - 1] == b[|b| - 1];
      DegreeConcat(a, b[..|b| - 1], v);
    }
  }

  lemma {:induction false} InDegreeZero(arcs: seq<Arc>, v: Node)
    requires forall i :: 0 <= i < |arcs| ==> arcs[i].1 != v
    ensures InDegree(arcs, v) == 0
  {
    if arcs != [] {
      InDegreeZero(arcs[..|arcs| - 1], v);
    }
  }

  lemma {:induction false} OutDegreeZero(arcs: seq<Arc>, u: Node)
    requires forall i :: 0 <= i < |arcs| ==> arcs[i].0 != u
    ensures OutDegree(arcs, u) == 0
  {
    if arcs != [] {
      OutDegreeZero(arcs[..|arcs| - 1], u);
    }
  }

  // ---------------------------------------------------------------------
  // Sums

  function Sum(s: seq<real>): real
  {
    if s == [] then 0.0 else Sum(s[..|s| - 1]) + s[|s| - 1]
  }

  lemma {:induction false} SumConcat(a: seq<real>, b: seq<real>)
    ensures Sum(a + b) == Sum(a) + Sum(b)
    decreases |b|
  {
    if b == [] {
      assert a + b == a;
    } else {
      assert (a + b)[..|a + b| - 1] == a + b[..|b| - 1];
      assert (a + b)[|a + b| - 1] == b[|b| - 1];
      SumConcat(a, b[..|b| - 1]);
    }
  }

  function Zeros(n: nat): (r: seq<real>)
    ensures |r| == n && forall i :: 0 <= i < n ==> r[i] == 0.0
  {
    seq(n, _ => 0.0)
  }

  lemma {:induction false} SumZeros(n: nat)
    ensures Sum(Zeros(n)) == 0.0
  {
    if n > 0 {
      assert Zeros(n)[..n - 1] == Zeros(n - 1);
      SumZeros(n - 1);
    }
  }

  /** Every value of `s` lies in [lo, hi]: the envelope of a list of draws. */
  predicate Within(s: seq<real>, lo: real, hi: real)
  {
    forall i :: 0 <= i < |s| ==> lo <= s[i] <= hi
  }

  /** A sum of values that all lie in [lo, hi] lies in [|s|*lo, |s|*hi]. */
  lemma {:induction false} SumBounds(s: seq<real>, lo: real, hi: real)
    requires forall i :: 0 <= i < |s| ==> lo <= s[i] <= hi
    ensures |s| as real * lo <= Sum(s) <= |s| as real * hi
  {
    if s != [] {
      SumBounds(s[..|s| - 1], lo, hi);
    }
  }

  /** `n` copies of `x`, as `[x for _ in range(n)]`. */
  function Repeat(x: real, n: nat): (r: seq<real>)
    ensures |r| == n && forall i :: 0 <= i < n ==> r[i] == x
  {
    seq(n, _ => x)
  }

  lemma {:induction false} SumRepeat(x: real, n: nat)
    ensures Sum(Repeat(x, n)) == n as real * x
  {
    if n > 0 {
      assert Repeat(x, n)[..n - 1] == Repeat(x, n - 1);
      SumRepeat(x, n - 1);
    }
  }

  function Max(x: real, y: real): real { if x >= y then x else y }

  function MaxNat(a: nat, b: nat): nat { if a >= b then a else b }

  function MinNat(a: nat, b: nat): nat { if a <= b then a else b }

  /** `[max(lo, x) for x in xs]`: every draw floored at `lo`. */
  function FloorAll(xs: seq<real>, lo: real): (r: seq<real>)
    ensures |r| == |xs|
    ensures forall i :: 0 <= i < |xs| ==> r[i] >= lo
    ensures forall i :: 0 <= i < |xs| ==> (xs[i] >= lo ==> r[i] == xs[i]) && (xs[i] < lo ==> r[i] == lo)
  {
    seq(|xs|, i requires 0 <= i < |xs| => Max(lo, xs[i]))
  }

  /** nP equal shares of `total / nP` add up to `total`. */
  lemma EvenShare(total: real, n: nat)
    requires n > 0
    ensures Sum(Repeat(total / n as real, n)) == total
  {
    SumRepeat(total / n as real, n);
  }

  // ---------------------------------------------------------------------
  // Insertion-ordered dictionaries (Python's dict)

  /** A Python dict: its items in insertion order, each key once. */
  type Dict<K, V> = seq<(K, V)>

  /** `list(d.keys())`; on a list of pairs, the first components
      (`[a[0] for a in arcs]`). */
  function Keys<K, V>(d: Dict<K, V>): (r: seq<K>)
    ensures |r| == |d| && forall i :: 0 <= i < |d| ==> r[i] == d[i].0
  {
    seq(|d|, i requires 0 <= i < |d| => d[i].0)
  }

  /** `list(d.values())`; on a list of pairs, the second components. */
  function Values<K, V>(d: Dict<K, V>): (r: seq<V>)
    ensures |r| == |d| && forall i :: 0 <= i < |d| ==> r[i] == d[i].1
  {
    seq(|d|, i requires 0 <= i < |d| => d[i].1)
  }

  /** `d[k] = v`: a new key is appended, an existing key keeps its position
      and takes the new value. */
  function Put<K(==), V>(d: Dict<K, V>, k: K, v: V): Dict<K, V>
  {
    if d == [] then [(k, v)]
    else if d[0].0 == k then [(k, v)] + d[1..]
    else [d[0]] + Put(d[1..], k, v)
  }

  /** `{k: v for k, v in zip(ks, vs)}`. */
  function FromPairs<K(==), V>(ks: seq<K>, vs: seq<V>): Dict<K, V>
    requires |ks| == |vs|
  {
    if ks == [] then [] else Put(FromPairs(ks[..|ks| - 1], vs[..|vs| - 1]), ks[|ks| - 1], vs[|vs| - 1])
  }

  lemma {:induction false} PutFresh<K, V>(d: Dict<K, V>, k: K, v: V)
    requires k !in Keys(d)
    ensures Put(d, k, v) == d + [(k, v)]
  {
    if d != [] {
      assert d[0].0 == Keys(d)[0];
      assert Keys(d[1..]) == Keys(d)[1..];
      PutFresh(d[1..], k, v);
    }
  }

  /** With distinct keys the dict keeps every pair, in order, so its keys are
      `ks` and its values are `vs`. */
  lemma {:induction false} FromDistinctPairs<K, V>(ks: seq<K>, vs: seq<V>)
    requires |ks| == |vs| && NoDup(ks)
    ensures Keys(FromPairs(ks, vs)) == ks
    ensures Values(FromPairs(ks, vs)) == vs
  {
    if ks != [] {
      var n := |ks| - 1;
      var d := FromPairs(ks[..n], vs[..n]);
      FromDistinctPairs(ks[..n], vs[..n]);
      assert ks[n] !in ks[..n];
      PutFresh(d, ks[n], vs[n]);
      AppendItem(d, ks[n], vs[n]);
      assert ks[..n] + [ks[n]] == ks;
      assert vs[..n] + [vs[n]] == vs;
    }
  }

  /** Appending an item appends its key and its value. */
  lemma AppendItem<K, V>(d: Dict<K, V>, k: K, v: V)
    ensures Keys(d + [(k, v)]) == Keys(d) + [k]
    ensures Values(d + [(k, v)]) == Values(d) + [v]
  {
  }

  /** A repeated key loses an item: whenever two arcs have the same
      endpoints, the cost dict has fewer items than there are arcs. */
  lemma DuplicateKeyShrinks<K, V>(ks: seq<K>, vs: seq<V>)
    requires |ks| == |vs| && !NoDup(ks)
    ensures |FromPairs(ks, vs)| < |ks|
  {
    var n := |ks| - 1;
    var d := FromPairs(ks[..n], vs[..n]);
    FromPairsKeys(ks[..n], vs[..n]);
    PutSize(d, ks[n], vs[n]);
    if NoDup(ks[..n]) {
      var i, j :| 0 <= i < j < |ks| && ks[i] == ks[j];
      assert j == n && ks[i] in ks[..n];
    } else {
      DuplicateKeyShrinks(ks[..n], vs[..n]);
    }
  }

  /** `d[k] = v` adds one item exactly when `k` is new. */
  lemma {:induction false} PutSize<K, V>(d: Dict<K, V>, k: K, v: V)
    ensures |Put(d, k, v)| == if k in Keys(d) then |d| else |d| + 1
  {
    if d != [] {
      assert Keys(d) == [d[0].0] + Keys(d[1..]);
      if d[0].0 != k {
        PutSize(d[1..], k, v);
      }
    }
  }

  /** After `d[k] = v` the keys are those of `d` plus `k`. */
  lemma {:induction false} PutKeys<K, V>(d: Dict<K, V>, k: K, v: V)
    ensures forall x :: x in Keys(Put(d, k, v)) <==> x in Keys(d) || x == k
  {
    if d == [] {
      assert Keys(Put(d, k, v)) == [k];
    } else if d[0].0 != k {
      PutKeys(d[1..], k, v);
      assert Keys(d) == [d[0].0] + Keys(d[1..]);
      assert Keys(Put(d, k, v)) == [d[0].0] + Keys(Put(d[1..], k, v));
    } else {
      assert Keys(d) == [k] + Keys(d[1..]);
      assert Keys(Put(d, k, v)) == [k] + Keys(d[1..]);
    }
  }

  /** The dict built from the pairs has at most one item per pair, and its
      keys are exactly the keys listed. */
  lemma {:induction false} FromPairsKeys<K, V>(ks: seq<K>, vs: seq<V>)
    requires |ks| == |vs|
    ensures |FromPairs(ks, vs)| <= |ks|
    ensures forall x :: x in Keys(FromPairs(ks, vs)) <==> x in ks
  {
    if ks != [] {
      var n := |ks| - 1;
      FromPairsKeys(ks[..n], vs[..n]);
      PutSize(FromPairs(ks[..n], vs[..n]), ks[n], vs[n]);
      PutKeys(FromPairs(ks[..n], vs[..n]), ks[n], vs[n]);
      assert ks == ks[..n] + [ks[n]];
    }
  }

  // ---------------------------------------------------------------------
  // The generated instance (the dictionary the tools/ generators return)

  /** Nodes are implied by the sizes (`nodos`); `pt`, `tc1`, `c1c2` are the
      three arc lists (`conexiones`); `supply`, `d1`, `d2` are the values of
      the `suministro`, `d1` and `d2` dictionaries in node order; `cPt`,
      `cTc1`, `cC1c2` are the transport-cost dictionaries keyed by arc. */
  datatype Instance = Instance(
    sizes: Sizes,
    pt: seq<Arc>, tc1: seq<Arc>, c1c2: seq<Arc>,
    supply: seq<real>, d1: seq<real>, d2: seq<real>,
    cPt: Dict<Arc, real>, cTc1: Dict<Arc, real>, cC1c2: Dict<Arc, real>)

  /** `pt + tc1 + c1c2`: the canonical arc order used by every parallel array. */
  function Arcs(inst: Instance): seq<Arc>
  {
    inst.pt + inst.tc1 + inst.c1c2
  }

  /** The shape every generator produces and every serializer relies on. */
  predicate WellFormed(inst: Instance)
  {
    && |inst.supply| == inst.sizes.nP
    && |inst.d1| == inst.sizes.nC1
    && |inst.d2| == inst.sizes.nC2
    && LayerArcs(inst.sizes, inst.pt, Plant, Tank)
    && LayerArcs(inst.sizes, inst.tc1, Tank, Transfer)
    && LayerArcs(inst.sizes, inst.c1c2, Transfer, Final)
  }

  /** In a well-formed instance every arc goes from one class to the next
      one, hence from a smaller global index to a larger one. */
  lemma ArcsGoForward(inst: Instance, i: nat)
    requires WellFormed(inst) && i < |Arcs(inst)|
    ensures Valid(inst.sizes, Arcs(inst)[i].0) && Valid(inst.sizes, Arcs(inst)[i].1)
    ensures Rank(Arcs(inst)[i].1.layer) == Rank(Arcs(inst)[i].0.layer) + 1
    ensures Index(inst.sizes, Arcs(inst)[i].0) < Index(inst.sizes, Arcs(inst)[i].1)
  {
    var a := Arcs(inst)[i];
    var z := inst.sizes;
    if i < |inst.pt| {
      assert a == inst.pt[i];
    } else if i < |inst.pt| + |inst.tc1| {
      assert a == inst.tc1[i - |inst.pt|];
    } else {
      assert a == inst.c1c2[i - |inst.pt| - |inst.tc1|];
    }
    BeforeMonotone(z, Rank(a.0.layer) + 1, Rank(a.1.layer));
  }

  /** Three complete bipartite layer pairs over the nodes of `z`. */
  function CompletePt(z: Sizes): seq<Arc> { Product(NodesOf(z, Plant), NodesOf(z, Tank)) }
  function CompleteTc1(z: Sizes): seq<Arc> { Product(NodesOf(z, Tank), NodesOf(z, Transfer)) }
  function CompleteC1c2(z: Sizes): seq<Arc> { Product(NodesOf(z, Transfer), NodesOf(z, Final)) }

  /** The complete topology has nP*nT + nT*nC1 + nC1*nC2 arcs, all between
      adjacent layers and none repeated. */
  lemma CompleteTopology(z: Sizes)
    ensures |CompletePt(z)| + |CompleteTc1(z)| + |CompleteC1c2(z)| == CompleteArcCount(z)
    ensures LayerArcs(z, CompletePt(z), Plant, Tank)
    ensures LayerArcs(z, CompleteTc1(z), Tank, Transfer)
    ensures LayerArcs(z, CompleteC1c2(z), Transfer, Final)
    ensures NoDup(CompletePt(z)) && NoDup(CompleteTc1(z)) && NoDup(CompleteC1c2(z))
  {
    ProductLength(NodesOf(z, Plant), NodesOf(z, Tank));
    ProductLength(NodesOf(z, Tank), NodesOf(z, Transfer));
    ProductLength(NodesOf(z, Transfer), NodesOf(z, Final));
    CompleteLayerArcs(z, Plant, Tank);
    CompleteLayerArcs(z, Tank, Transfer);
    CompleteLayerArcs(z, Transfer, Final);
    ProductNoDup(NodesOf(z, Plant), NodesOf(z, Tank));
    ProductNoDup(NodesOf(z, Tank), NodesOf(z, Transfer));
    ProductNoDup(NodesOf(z, Transfer), NodesOf(z, Final));
  }

  /** In a complete topology every tank, transfer and final node has an
      incoming arc from the previous layer as soon as that layer is not empty. */
  lemma CompleteCoverage(z: Sizes, v: Node)
    requires Valid(z, v) && v.layer != Plant
    requires v.layer == Tank ==> z.nP > 0
    requires v.layer == Transfer ==> z.nT > 0
    requires v.layer == Final ==> z.nC1 > 0
    ensures v.layer == Tank ==> InDegree(CompletePt(z), v) >= 1
    ensures v.layer == Transfer ==> InDegree(CompleteTc1(z), v) >= 1
    ensures v.layer == Final ==> InDegree(CompleteC1c2(z), v) >= 1
  {
    NodesOfNoDup(z, v.layer);
    assert NodesOf(z, v.layer)[v.k] == v;
    match v.layer
    case Tank => ProductInDegree(NodesOf(z, Plant), NodesOf(z, Tank), v);
    case Transfer => ProductInDegree(NodesOf(z, Tank), NodesOf(z, Transfer), v);
    case Final => ProductInDegree(NodesOf(z, Transfer), NodesOf(z, Final), v);
  }

  /** A row `[(u, w) for w in vs]` over distinct `vs` enters `v` once when
      `v` is among `vs`, and never otherwise. */
  lemma {:induction false} RowInDegree(u: Node, vs: seq<Node>, v: Node)
    requires NoDup(vs)
    ensures InDegree(Row(u, vs), v) == if v in vs then 1 else 0
  {
    if vs != [] {
      var n := |vs| - 1;
      assert Row(u, vs) == Row(u, vs[..n]) + [(u, vs[n])];
      DegreeConcat(Row(u, vs[..n]), [(u, vs[n])], v);
      assert [(u, vs[n])][..0] == [];
      RowInDegree(u, vs[..n], v);
      assert vs == vs[..n] + [vs[n]];
    }
  }

  /** In complete bipartite layers every node of the second layer is entered
      once from each node of the first. */
  lemma {:induction false} ProductInDegree(us: seq<Node>, vs: seq<Node>, v: Node)
    requires NoDup(vs) && v in vs
    ensures InDegree(Product(us, vs), v) == |us|
  {
    if us != [] {
      var n := |us| - 1;
      ProductInDegree(us[..n], vs, v);
      DegreeConcat(Product(us[..n], vs), Row(us[n], vs), v);
      RowInDegree(us[n], vs, v);
    }
  }

  /** In the complete C1->C2 layer every C2 node has in-degree nC1. */
  lemma CompleteFinalInDegree(z: Sizes, k: nat)
    requires k < z.nC2
    ensures InDegree(CompleteC1c2(z), Node(Final, k)) == z.nC1
  {
    NodesOfNoDup(z, Final);
    assert NodesOf(z, Final)[k] == Node(Final, k);
    ProductInDegree(NodesOf(z, Transfer), NodesOf(z, Final), Node(Final, k));
  }
}
