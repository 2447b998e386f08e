/** minizinc/tools/generador.py: the complete-topology generator working
    directly on 1-based node numbers.  `generate_instance` fills the demand
    vector in place, appends the arcs of every adjacent class pair in nested
    loops, draws one transport cost per arc and one installation-cost type
    per (arc, diameter) cell while counting the types; `instance_to_dzn`
    flattens the installation table row by row and writes the `.dzn` text. */
module MiniZincGenerator {
  import opened Network
  import opened Text
  import opened Dzn

  // ---------------------------------------------------------------------
  // Index blocks

  /** `list(range(lo, hi))`. */
  function Range(lo: nat, hi: nat): (r: seq<nat>)
    requires lo <= hi
    ensures |r| == hi - lo
    ensures forall i :: 0 <= i < |r| ==> r[i] == lo + i
  {
    seq(hi - lo, i requires 0 <= i < hi - lo => lo + i)
  }

  /** `P_idxs`, `T_idxs`, `C1_idxs`, `C2_idxs`: the numbers of one class. */
  function Block(z: Sizes, l: Layer): (r: seq<nat>)
    ensures |r| == Count(z, l)
  {
    Range(Before(z, Rank(l)) + 1, Before(z, Rank(l)) + Count(z, l) + 1)
  }

  /** The blocks are the global numbering of the node model: offset k of
      class l carries Index(Node(l, k)), and the four blocks in order are
      1..N without gap or overlap. */
  lemma BlocksNumberNodes(z: Sizes)
    ensures forall l: Layer, k :: 0 <= k < Count(z, l) ==>
      Valid(z, Node(l, k)) && Block(z, l)[k] == Index(z, Node(l, k))
    ensures Block(z, Plant) + Block(z, Tank) + Block(z, Transfer) + Block(z, Final) == Range(1, Total(z) + 1)
  {
    var all := Block(z, Plant) + Block(z, Tank) + Block(z, Transfer) + Block(z, Final);
    forall i | 0 <= i < Total(z) ensures all[i] == i + 1 {
      if i < z.nP {
      } else if i < z.nP + z.nT {
        assert all[i] == Block(z, Tank)[i - z.nP];
      } else if i < z.nP + z.nT + z.nC1 {
        assert all[i] == Block(z, Transfer)[i - z.nP - z.nT];
      } else {
        assert all[i] == Block(z, Final)[i - z.nP - z.nT - z.nC1];
      }
    }
  }

  /** Arcs between nodes, written as pairs of node numbers. */
  function Numbered(z: Sizes, arcs: seq<Arc>): (r: seq<(nat, nat)>)
    requires EndsValid(z, arcs)
    ensures |r| == |arcs|
    ensures forall i :: 0 <= i < |arcs| ==> r[i] == (Index(z, arcs[i].0), Index(z, arcs[i].1))
  {
    seq(|arcs|, i requires 0 <= i < |arcs| && EndsValid(z, arcs) => (Index(z, arcs[i].0), Index(z, arcs[i].1)))
  }

  lemma {:induction false} ProductNumbered(z: Sizes, us: seq<Node>, vs: seq<Node>, bs: seq<nat>, cs: seq<nat>)
    requires |us| == |bs| && |vs| == |cs|
    requires forall i :: 0 <= i < |us| ==> Valid(z, us[i]) && bs[i] == Index(z, us[i])
    requires forall j :: 0 <= j < |vs| ==> Valid(z, vs[j]) && cs[j] == Index(z, vs[j])
    ensures EndsValid(z, Product(us, vs))
    ensures Product(bs, cs) == Numbered(z, Product(us, vs))
    decreases |us|
  {
    if us != [] {
      var n := |us| - 1;
      ProductNumbered(z, us[..n], vs, bs[..n], cs);
      var left := Product(us[..n], vs);
      var row := Row(us[n], vs);
      assert Product(us, vs) == left + row;
      assert EndsValid(z, left + row) by {
        forall i | 0 <= i < |left + row|
          ensures Valid(z, (left + row)[i].0) && Valid(z, (left + row)[i].1)
        {
          if i >= |left| {
            assert (left + row)[i] == (us[n], vs[i - |left|]);
          }
        }
      }
      assert Product(bs, cs) == Product(bs[..n], cs) + Row(bs[n], cs);
      assert Numbered(z, left + row) == Numbered(z, left) + Numbered(z, row);
    }
  }

  /** The arc list of `generate_instance`: P->T, T->C1, C1->C2, each row by
      row. */
  function NumberedArcs(z: Sizes): seq<(nat, nat)>
  {
    Product(Block(z, Plant), Block(z, Tank))
      + Product(Block(z, Tank), Block(z, Transfer))
      + Product(Block(z, Transfer), Block(z, Final))
  }

  /** Pairs whose first number is below the second. */
  predicate Forward(ps: seq<(nat, nat)>)
  {
    forall i :: 0 <= i < |ps| ==> ps[i].0 < ps[i].1
  }

  lemma NumberedConcat(z: Sizes, a: seq<Arc>, b: seq<Arc>)
    requires EndsValid(z, a) && EndsValid(z, b)
    ensures EndsValid(z, a + b) && Numbered(z, a + b) == Numbered(z, a) + Numbered(z, b)
  {
  }

  /** Numbering keeps distinct valid arcs distinct. */
  lemma NumberedNoDup(z: Sizes, arcs: seq<Arc>)
    requires EndsValid(z, arcs) && NoDup(arcs)
    ensures NoDup(Numbered(z, arcs))
  {
    var r := Numbered(z, arcs);
    forall i, j | 0 <= i < j < |r| ensures r[i] != r[j] {
      if r[i] == r[j] {
        IndexInjective(z, arcs[i].0, arcs[j].0);
        IndexInjective(z, arcs[i].1, arcs[j].1);
      }
    }
  }

  /** Arcs from one class to the next get a smaller number at their tail. */
  lemma NumberedForward(z: Sizes, arcs: seq<Arc>, l1: Layer, l2: Layer)
    requires LayerArcs(z, arcs, l1, l2) && Rank(l2) == Rank(l1) + 1
    ensures EndsValid(z, arcs) && Forward(Numbered(z, arcs))
  {
    assert EndsValid(z, arcs) by {
      forall i | 0 <= i < |arcs| ensures Valid(z, arcs[i].0) && Valid(z, arcs[i].1) {
        assert LayerArc(z, arcs[i], l1, l2);
      }
    }
    var r := Numbered(z, arcs);
    forall i | 0 <= i < |r| ensures r[i].0 < r[i].1 {
      assert LayerArc(z, arcs[i], l1, l2);
    }
  }

  lemma ForwardConcat(a: seq<(nat, nat)>, b: seq<(nat, nat)>)
    requires Forward(a) && Forward(b)
    ensures Forward(a + b)
  {
    forall i | |a| <= i < |a + b| ensures (a + b)[i].0 < (a + b)[i].1 {
      assert (a + b)[i] == b[i - |a|];
    }
  }

  /** Walking the index blocks pair by pair yields the complete layered
      topology of the node model, numbered. */
  lemma NumberedArcsMatch(z: Sizes)
    ensures var complete := CompletePt(z) + CompleteTc1(z) + CompleteC1c2(z);
      EndsValid(z, complete) && NumberedArcs(z) == Numbered(z, complete)
  {
    CompleteTopology(z);
    var pt, tc1, c1c2 := CompletePt(z), CompleteTc1(z), CompleteC1c2(z);
    LayerNumbered(z, Plant, Tank);
    LayerNumbered(z, Tank, Transfer);
    LayerNumbered(z, Transfer, Final);
    NumberedConcat(z, pt, tc1);
    NumberedConcat(z, pt + tc1, c1c2);
  }

  /** The numbered arcs are the complete layered topology of the node model,
      arc for arc, each from a smaller to a larger number, none repeated. */
  lemma NumberedArcsAreComplete(z: Sizes)
    ensures var complete := CompletePt(z) + CompleteTc1(z) + CompleteC1c2(z);
      EndsValid(z, complete) && NumberedArcs(z) == Numbered(z, complete)
    ensures Forward(NumberedArcs(z))
    ensures NoDup(NumberedArcs(z))
  {
    NumberedArcsMatch(z);
    CompleteTopology(z);
    var pt, tc1, c1c2 := CompletePt(z), CompleteTc1(z), CompleteC1c2(z);
    NumberedForward(z, pt, Plant, Tank);
    NumberedForward(z, tc1, Tank, Transfer);
    NumberedForward(z, c1c2, Transfer, Final);
    NumberedConcat(z, pt, tc1);
    NumberedConcat(z, pt + tc1, c1c2);
    ForwardConcat(Numbered(z, pt), Numbered(z, tc1));
    ForwardConcat(Numbered(z, pt) + Numbered(z, tc1), Numbered(z, c1c2));
    CompleteNoDup(z);
    NumberedNoDup(z, pt + tc1 + c1c2);
  }

  /** `nA = len(arcs)` is nP*nT + nT*nC1 + nC1*nC2. */
  lemma NumberedArcsCount(z: Sizes)
    ensures |NumberedArcs(z)| == CompleteArcCount(z)
  {
    ProductLength(Block(z, Plant), Block(z, Tank));
    ProductLength(Block(z, Tank), Block(z, Transfer));
    ProductLength(Block(z, Transfer), Block(z, Final));
  }

  lemma LayerNumbered(z: Sizes, l1: Layer, l2: Layer)
    ensures EndsValid(z, Product(NodesOf(z, l1), NodesOf(z, l2)))
    ensures Product(Block(z, l1), Block(z, l2)) == Numbered(z, Product(NodesOf(z, l1), NodesOf(z, l2)))
  {
    BlocksNumberNodes(z);
    ProductNumbered(z, NodesOf(z, l1), NodesOf(z, l2), Block(z, l1), Block(z, l2));
  }

  /** The three complete layers together repeat no arc: within a layer by
      construction, across layers because the source classes differ. */
  lemma CompleteNoDup(z: Sizes)
    ensures NoDup(CompletePt(z) + CompleteTc1(z) + CompleteC1c2(z))
  {
    CompleteTopology(z);
    var pt, tc1, c1c2 := CompletePt(z), CompleteTc1(z), CompleteC1c2(z);
    forall x | x in pt ensures x !in tc1 {
      var i :| 0 <= i < |pt| && pt[i] == x;
      assert x.0.layer == Plant;
    }
    NoDupConcat(pt, tc1);
    forall x | x in pt + tc1 ensures x !in c1c2 {
      var i :| 0 <= i < |pt + tc1| && (pt + tc1)[i] == x;
      if i < |pt| { assert x == pt[i]; } else { assert x == tc1[i - |pt|]; }
    }
    NoDupConcat(pt + tc1, c1c2);
  }

  // ---------------------------------------------------------------------
  // Generation

  /** The dictionary `generate_instance` returns. */
  datatype Generated = Generated(
    sizes: Sizes, n: nat, nA: nat, arcs: seq<(nat, nat)>, demand: seq<nat>,
    trans: seq<real>, install: seq<seq<nat>>, totalDemand: nat,
    countA: nat, countB: nat, seed: Option<int>)

  /** The demand vector: zero on plants and tanks, the j-th `randint(40, 100)`
      draw on the j-th C1/C2 node. */
  function DemandOf(z: Sizes, draws: seq<nat>): (r: seq<nat>)
    requires |draws| == z.nC1 + z.nC2
    ensures |r| == Total(z)
  {
    seq(Total(z), i requires 0 <= i < Total(z) => if i < z.nP + z.nT then 0 else draws[i - z.nP - z.nT])
  }

  function SumNat(s: seq<nat>): nat
  {
    if s == [] then 0 else SumNat(s[..|s| - 1]) + s[|s| - 1]
  }

  /** `random.random() < 0.5` picks type a. */
  function CoinType(c: real): CostType
  {
    if c < 0.5 then TypeA else TypeB
  }

  /** How many draws chose type a. */
  function CountCheap(coins: seq<real>): nat
  {
    if coins == [] then 0 else CountCheap(coins[..|coins| - 1]) + (if coins[|coins| - 1] < 0.5 then 1 else 0)
  }

  /** The installation-cost row of arc `a`, one draw per diameter. */
  function CoinRow(coins: seq<real>, a: nat): (r: seq<nat>)
    requires 3 * a + 3 <= |coins|
    ensures |r| == 3
  {
    seq(3, d requires 0 <= d < 3 => InstallCost(CoinType(coins[3 * a + d]), Diameters[d]))
  }

  /** Nested `for i in from: for j in to: arcs.append((i, j))`. */
  method AppendProduct(arcs: seq<(nat, nat)>, from: seq<nat>, to: seq<nat>) returns (r: seq<(nat, nat)>)
    ensures r == arcs + Product(from, to)
  {
    r := arcs;
    for i := 0 to |from|
      invariant r == arcs + Product(from[..i], to)
    {
      for j := 0 to |to|
        invariant r == arcs + Product(from[..i], to) + Row(from[i], to[..j])
      {
        assert Row(from[i], to[..j + 1]) == Row(from[i], to[..j]) + [(from[i], to[j])];
        r := r + [(from[i], to[j])];
      }
      assert to[..|to|] == to;
      assert from[..i + 1][..i] == from[..i];
    }
    assert from[..|from|] == from;
  }

  /** The demand loop of `generate_instance`: a vector of zeros, then one
      draw written at each C1 and C2 number in turn. */
  method FillDemand(z: Sizes, demandDraws: seq<nat>) returns (demand: seq<nat>)
    requires |demandDraws| == z.nC1 + z.nC2
    ensures demand == DemandOf(z, demandDraws)
  {
    var total := z.nP + z.nT + z.nC1 + z.nC2;
    var c1Idx, c2Idx := Block(z, Transfer), Block(z, Final);
    demand := seq(total, _ => 0);
    var targets := c1Idx + c2Idx;
    for j := 0 to |targets|
      invariant |demand| == total
      invariant forall i :: 0 <= i < total ==>
        demand[i] == if z.nP + z.nT <= i < z.nP + z.nT + j then demandDraws[i - z.nP - z.nT] else 0
    {
      assert targets[j] == z.nP + z.nT + j + 1 by {
        if j >= |c1Idx| { assert targets[j] == c2Idx[j - |c1Idx|]; }
      }
      demand := demand[targets[j] - 1 := demandDraws[j]];
    }
  }

  /** The transport-cost loop: each N(8, 2) draw floored at 0.1. */
  method DrawTransport(normals: seq<real>) returns (trans: seq<real>)
    ensures |trans| == |normals|
    ensures forall a :: 0 <= a < |normals| ==> trans[a] >= 0.1 && (normals[a] >= 0.1 ==> trans[a] == normals[a])
    ensures forall a :: 0 <= a < |normals| ==> (normals[a] < 0.1 ==> trans[a] == 0.1)
  {
    trans := [];
    for a := 0 to |normals|
      invariant |trans| == a
      invariant forall b :: 0 <= b < a ==> trans[b] == Max(normals[b], 0.1)
    {
      trans := trans + [Max(normals[a], 0.1)];
    }
  }

  /** The installation-cost loop: a table of zeros overwritten cell by cell,
      type a when the draw is below 0.5, counting the choices. */
  method DrawInstall(nA: nat, coins: seq<real>) returns (install: seq<seq<nat>>, countA: nat, countB: nat)
    requires |coins| == 3 * nA
    ensures |install| == nA && forall a :: 0 <= a < nA ==> install[a] == CoinRow(coins, a)
    ensures countA == CountCheap(coins) && countA + countB == 3 * nA
  {
    install := seq(nA, _ => [0, 0, 0]);
    countA, countB := 0, 0;
    for a := 0 to nA
      invariant |install| == nA
      invariant forall b :: 0 <= b < a ==> install[b] == CoinRow(coins, b)
      invariant forall b :: a <= b < nA ==> install[b] == [0, 0, 0]
      invariant countA == CountCheap(coins[..3 * a]) && countA + countB == 3 * a
    {
      for di := 0 to 3
        invariant |install| == nA && |install[a]| == 3
        invariant forall b :: 0 <= b < a ==> install[b] == CoinRow(coins, b)
        invariant forall b :: a < b < nA ==> install[b] == [0, 0, 0]
        invariant forall e :: 0 <= e < di ==> install[a][e] == CoinRow(coins, a)[e]
        invariant countA == CountCheap(coins[..3 * a + di]) && countA + countB == 3 * a + di
      {
        assert coins[..3 * a + di + 1][..3 * a + di] == coins[..3 * a + di];
        var row: seq<nat> := install[a];
        if coins[3 * a + di] < 0.5 {
          row := row[di := InstallCost(TypeA, Diameters[di])];
          countA := countA + 1;
        } else {
          row := row[di := InstallCost(TypeB, Diameters[di])];
          countB := countB + 1;
        }
        install := install[a := row];
      }
      assert install[a] == CoinRow(coins, a);
    }
    assert coins[..3 * nA] == coins;
  }

  /** `generate_instance(nP, nT, nC1, nC2, seed)`; the random draws are
      parameters: `demandDraws` the `randint(40, 100)` values, `normals` the
      N(8, 2) transport draws, `coins` the `random.random()` values, three
      per arc. */
  method GenerateInstance(z: Sizes, seed: Option<int>, demandDraws: seq<nat>, normals: seq<real>, coins: seq<real>)
      returns (g: Generated)
    requires |demandDraws| == z.nC1 + z.nC2
    requires forall j :: 0 <= j < |demandDraws| ==> 40 <= demandDraws[j] <= 100
    requires |normals| == CompleteArcCount(z) && |coins| == 3 * CompleteArcCount(z)
    ensures g.sizes == z && g.seed == seed && g.n == Total(z)
    ensures g.arcs == NumberedArcs(z) && g.nA == |g.arcs| == CompleteArcCount(z)
    ensures g.demand == DemandOf(z, demandDraws) && g.totalDemand == SumNat(g.demand)
    ensures forall i :: 0 <= i < g.n ==>
      if i < z.nP + z.nT then g.demand[i] == 0 else 40 <= g.demand[i] <= 100
    ensures 40 * (z.nC1 + z.nC2) <= g.totalDemand <= 100 * (z.nC1 + z.nC2)
    ensures |g.trans| == g.nA
    ensures forall a :: 0 <= a < g.nA ==> g.trans[a] >= 0.1 && (normals[a] >= 0.1 ==> g.trans[a] == normals[a])
    ensures forall a :: 0 <= a < g.nA ==> (normals[a] < 0.1 ==> g.trans[a] == 0.1)
    ensures |g.install| == g.nA && forall a :: 0 <= a < g.nA ==> g.install[a] == CoinRow(coins, a)
    ensures g.countA == CountCheap(coins) && g.countA + g.countB == 3 * g.nA
  {
    var demand := FillDemand(z, demandDraws);
    var totalDemand := SumNat(demand);
    DemandRange(z, demandDraws);
    TotalDemandBounds(z, demandDraws);

    var arcs: seq<(nat, nat)> := [];
    arcs := AppendProduct(arcs, Block(z, Plant), Block(z, Tank));
    assert arcs == Product(Block(z, Plant), Block(z, Tank));
    arcs := AppendProduct(arcs, Block(z, Tank), Block(z, Transfer));
    arcs := AppendProduct(arcs, Block(z, Transfer), Block(z, Final));
    assert arcs == NumberedArcs(z);
    NumberedArcsCount(z);
    var nA := |arcs|;

    var trans := DrawTransport(normals);
    var install, countA, countB := DrawInstall(nA, coins);
    g := Generated(z, z.nP + z.nT + z.nC1 + z.nC2, nA, arcs, demand, trans, install, totalDemand, countA, countB, seed);
  }

  /** The demand vector puts each draw on its node: C1 node k gets draw k,
      C2 node k gets draw nC1 + k, plants and tanks demand nothing. */
  lemma DemandOnNodes(z: Sizes, draws: seq<nat>)
    requires |draws| == z.nC1 + z.nC2
    ensures forall k :: 0 <= k < z.nP ==> DemandOf(z, draws)[Index(z, Node(Plant, k)) - 1] == 0
    ensures forall k :: 0 <= k < z.nT ==> DemandOf(z, draws)[Index(z, Node(Tank, k)) - 1] == 0
    ensures forall k :: 0 <= k < z.nC1 ==> DemandOf(z, draws)[Index(z, Node(Transfer, k)) - 1] == draws[k]
    ensures forall k :: 0 <= k < z.nC2 ==> DemandOf(z, draws)[Index(z, Node(Final, k)) - 1] == draws[z.nC1 + k]
  {
  }

  lemma {:induction false} SumNatConcat(a: seq<nat>, b: seq<nat>)
    ensures SumNat(a + b) == SumNat(a) + SumNat(b)
    decreases |b|
  {
    if b == [] {
      assert a + b == a;
    } else {
      assert (a + b)[..|a + b| - 1] == a + b[..|b| - 1];
      SumNatConcat(a, b[..|b| - 1]);
    }
  }

  lemma {:induction false} SumNatBounds(s: seq<nat>, lo: nat, hi: nat)
    requires forall i :: 0 <= i < |s| ==> lo <= s[i] <= hi
    ensures |s| * lo <= SumNat(s) <= |s| * hi
  {
    if s != [] {
      var t := s[..|s| - 1];
      SumNatBounds(t, lo, hi);
      assert SumNat(s) == SumNat(t) + s[|s| - 1];
      MulSucc(|t|, lo);
      MulSucc(|t|, hi);
    }
  }

  lemma MulSucc(n: nat, x: nat)
    ensures (n + 1) * x == n * x + x
  {
  }

  /** `total_demand = sum(demand)` lies between 40 and 100 per C1/C2 node. */
  /** With draws from `randint(40, 100)`, plants and tanks demand nothing and
      every C1 and C2 node demands between 40 and 100. */
  lemma DemandRange(z: Sizes, draws: seq<nat>)
    requires |draws| == z.nC1 + z.nC2
    requires forall j :: 0 <= j < |draws| ==> 40 <= draws[j] <= 100
    ensures forall i :: 0 <= i < Total(z) ==>
      if i < z.nP + z.nT then DemandOf(z, draws)[i] == 0 else 40 <= DemandOf(z, draws)[i] <= 100
  {
  }

  lemma TotalDemandBounds(z: Sizes, draws: seq<nat>)
    requires |draws| == z.nC1 + z.nC2
    requires forall j :: 0 <= j < |draws| ==> 40 <= draws[j] <= 100
    ensures 40 * (z.nC1 + z.nC2) <= SumNat(DemandOf(z, draws)) <= 100 * (z.nC1 + z.nC2)
  {
    var zeros: seq<nat> := seq(z.nP + z.nT, _ => 0);
    assert DemandOf(z, draws) == zeros + draws;
    SumNatConcat(zeros, draws);
    SumNatBounds(zeros, 0, 0);
    SumNatBounds(draws, 40, 100);
  }

  /** A cell holds the type-a cost of its diameter exactly when its draw was
      below 0.5, so `cost_distribution['a']` counts the type-a cells. */
  lemma CellTypeMatchesDraw(coins: seq<real>, a: nat, d: nat)
    requires 3 * a + 3 <= |coins| && d < 3
    ensures CoinRow(coins, a)[d] == InstallCost(TypeA, Diameters[d]) <==> coins[3 * a + d] < 0.5
    ensures CoinRow(coins, a)[d] == InstallCost(TypeB, Diameters[d]) <==> coins[3 * a + d] >= 0.5
  {
  }

  // ---------------------------------------------------------------------
  // Serialisation

  /** `install_cost` flattened row by row (`flat_install`). */
  function Flatten(rows: seq<seq<nat>>): seq<nat>
  {
    if rows == [] then [] else Flatten(rows[..|rows| - 1]) + rows[|rows| - 1]
  }

  predicate Rows3(rows: seq<seq<nat>>)
  {
    forall a :: 0 <= a < |rows| ==> |rows[a]| == 3
  }

  /** The flattened table is row-major: cell (a, d) sits at 3*a + d. */
  lemma {:induction false} FlattenAt(rows: seq<seq<nat>>)
    requires Rows3(rows)
    ensures |Flatten(rows)| == 3 * |rows|
    ensures forall a, d :: 0 <= a < |rows| && 0 <= d < 3 ==> Flatten(rows)[3 * a + d] == rows[a][d]
  {
    if rows != [] {
      var n := |rows| - 1;
      FlattenAt(rows[..n]);
      assert Flatten(rows) == Flatten(rows[..n]) + rows[n];
      forall a, d | 0 <= a < |rows| && 0 <= d < 3
        ensures Flatten(rows)[3 * a + d] == rows[a][d]
      {
        if a < n {
          assert rows[..n][a] == rows[a];
        }
      }
    }
  }

  /** `truthy(seed)`: present and non-zero. */
  predicate Truthy(seed: Option<int>)
  {
    seed.Some? && seed.value != 0
  }

  function DiameterMms(): seq<nat>
  {
    seq(|Diameters|, i requires 0 <= i < |Diameters| => NominalMm(Diameters[i]))
  }

  function HeaderLines(g: Generated): seq<string>
  {
    [ "% Instancia generada para Grupo 5",
      "% Diámetros: " + NatList(DiameterMms()) + " mm",
      "% Capacidades: " + NatList(MaxCapacity()) + " l/min",
      "% Demanda total: " + NatStr(g.totalDemand) + " l/min",
      "% Costos tipo a: " + NatStr(g.countA) + ", tipo b: " + NatStr(g.countB) ]
    + (if Truthy(g.seed) then ["% Semilla: " + IntStr(g.seed.value)] else [])
    + [""]
  }

  function SizeLines(g: Generated): seq<string>
  {
    [ "nP = " + NatStr(g.sizes.nP) + ";",
      "nT = " + NatStr(g.sizes.nT) + ";",
      "nC1 = " + NatStr(g.sizes.nC1) + ";",
      "nC2 = " + NatStr(g.sizes.nC2) + ";",
      "N = " + NatStr(g.n) + ";",
      "" ]
  }

  function ArcLines(g: Generated): seq<string>
  {
    [ "nA = " + NatStr(g.nA) + ";",
      "arc_from = " + NatList(Keys(g.arcs)) + ";",
      "arc_to   = " + NatList(Values(g.arcs)) + ";",
      "" ]
  }

  function InstallLine(g: Generated): string
  {
    "install_cost = array2d(1.." + NatStr(g.nA) + ", 1.." + NatStr(|Diameters|) + ", "
      + NatList(Flatten(g.install)) + ");"
  }

  /** The lines `instance_to_dzn` writes; `show` is `str` on a float. */
  function MznLines(g: Generated, show: real -> string): seq<string>
  {
    HeaderLines(g) + SizeLines(g) + ArcLines(g)
      + ["demand = " + NatList(g.demand) + ";", ""]
      + [InstallLine(g), "trans_cost   = " + Bracket(Shown(g.trans, show)) + ";"]
  }

  /** The nested loop of `instance_to_dzn` that flattens the installation
      table row by row into its decimal strings. */
  method FlattenInstall(install: seq<seq<nat>>) returns (flat: seq<string>)
    requires Rows3(install)
    ensures flat == NatStrs(Flatten(install))
  {
    flat := [];
    for a := 0 to |install|
      invariant flat == NatStrs(Flatten(install[..a]))
    {
      for d := 0 to 3
        invariant flat == NatStrs(Flatten(install[..a]) + install[a][..d])
      {
        assert install[a][..d + 1] == install[a][..d] + [install[a][d]];
        flat := flat + [NatStr(install[a][d])];
      }
      assert install[a][..3] == install[a];
      assert install[..a + 1][..a] == install[..a];
    }
    assert install[..|install|] == install;
  }

  /** `instance_to_dzn`: the `.dzn` text, with the installation table
      flattened by the nested loop. */
  method InstanceToDzn(g: Generated, show: real -> string) returns (text: string)
    requires |g.install| == g.nA && Rows3(g.install)
    ensures text == Unlines(MznLines(g, show))
  {
    var arcFrom := seq(|g.arcs|, i requires 0 <= i < |g.arcs| => g.arcs[i].0);
    var arcTo := seq(|g.arcs|, i requires 0 <= i < |g.arcs| => g.arcs[i].1);
    var flat := FlattenInstall(g.install);
    var installStr := "[" + Join(flat, ", ") + "]";
    var header := HeaderLines(g);
    var sizes := ["nP = " + NatStr(g.sizes.nP) + ";", "nT = " + NatStr(g.sizes.nT) + ";",
                  "nC1 = " + NatStr(g.sizes.nC1) + ";", "nC2 = " + NatStr(g.sizes.nC2) + ";",
                  "N = " + NatStr(g.n) + ";", ""];
    assert sizes == SizeLines(g);
    var arcLines := ["nA = " + NatStr(g.nA) + ";", "arc_from = " + NatList(arcFrom) + ";",
                     "arc_to   = " + NatList(arcTo) + ";", ""];
    assert arcFrom == Keys(g.arcs) && arcTo == Values(g.arcs);
    assert arcLines == ArcLines(g);
    var install := "install_cost = array2d(1.." + NatStr(g.nA) + ", 1.." + NatStr(|Diameters|) + ", " + installStr + ");";
    assert install == InstallLine(g);
    var lines := header + sizes + arcLines + ["demand = " + NatList(g.demand) + ";", ""]
      + [install, "trans_cost   = " + Bracket(Shown(g.trans, show)) + ";"];
    text := Unlines(lines);
  }

  /** The seed comment is written exactly when the seed is truthy (a seed of
      0 or None writes none), and every later line moves down by one. */
  lemma SeedLineIffTruthy(g: Generated, show: real -> string)
    ensures |MznLines(g, show)| == 20 + (if Truthy(g.seed) then 1 else 0)
    ensures Truthy(g.seed) ==> MznLines(g, show)[5] == "% Semilla: " + IntStr(g.seed.value)
    ensures !Truthy(g.seed) ==> MznLines(g, show)[5] == ""
  {
  }

  /** The `demand` line and the `install_cost` line read back as the demand
      vector and as the row-major installation table. */
  lemma DznReadsBack(g: Generated, show: real -> string)
    requires Rows3(g.install)
    ensures var lines := MznLines(g, show);
      var k := |lines| - 4;
      && lines[k] == "demand = " + NatList(g.demand) + ";"
      && ParseNatList(lines[k][9..|lines[k]| - 1]) == Some(g.demand)
    ensures ParseNatList(NatList(Flatten(g.install))) == Some(Flatten(g.install))
    ensures |Flatten(g.install)| == 3 * |g.install|
    ensures forall a, d :: 0 <= a < |g.install| && 0 <= d < 3 ==> Flatten(g.install)[3 * a + d] == g.install[a][d]
  {
    var lines := MznLines(g, show);
    SeedLineIffTruthy(g, show);
    var k := |lines| - 4;
    assert lines[k] == "demand = " + NatList(g.demand) + ";";
    assert lines[k][9..|lines[k]| - 1] == NatList(g.demand);
    NatListRoundTrip(g.demand);
    NatListRoundTrip(Flatten(g.install));
    FlattenAt(g.install);
  }

  /** The built-in test instance (1, 2, 2, 3): 8 nodes and 12 arcs, the
      first being plant 1 to tank 2 and the last C1 node 5 to C2 node 8. */
  lemma TestInstanceShape()
    ensures Total(Sizes(1, 2, 2, 3)) == 8
    ensures |NumberedArcs(Sizes(1, 2, 2, 3))| == 12
    ensures NumberedArcs(Sizes(1, 2, 2, 3))[0] == (1, 2)
    ensures NumberedArcs(Sizes(1, 2, 2, 3))[11] == (5, 8)
  {
    var z := Sizes(1, 2, 2, 3);
    NumberedArcsAreComplete(z);
    var pt := Product(Block(z, Plant), Block(z, Tank));
    var tc1 := Product(Block(z, Tank), Block(z, Transfer));
    var c1c2 := Product(Block(z, Transfer), Block(z, Final));
    ProductAt(Block(z, Plant), Block(z, Tank), 0, 0);
    ProductAt(Block(z, Transfer), Block(z, Final), 1, 2);
    ProductLength(Block(z, Plant), Block(z, Tank));
    ProductLength(Block(z, Tank), Block(z, Transfer));
    assert NumberedArcs(z)[11] == c1c2[5];
  }
}
