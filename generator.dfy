/** tools/generador.py: random instances in three size categories.  The
    sizes are drawn from per-category ranges, the topology from random
    samples (each plant feeds 1..3 tanks, each tank 1..4 C1 nodes, each C2
    node is fed by 1..3 C1 nodes), every plant supplies 110% of the total
    demand divided by nP, and `guardar_dzn` writes the sizes, arcs, demand,
    installation and transport costs as one run of text without newlines
    and without a supply array. */
module Generator {
  import opened Network
  import opened Text
  import opened Dzn

  // ---------------------------------------------------------------------
  // Size categories

  datatype Category = Small | Medium | Large

  /** The key of `rangos_instancias`. */
  function CategoryKey(c: Category): string
  {
    match c
    case Small => "pequeñas"
    case Medium => "medianas"
    case Large => "grandes"
  }

  /** An inclusive `randint` range. */
  datatype Bounds = Bounds(lo: nat, hi: nat)

  /** `rangos_instancias[tam]`: plants, tanks, transfer and final nodes. */
  function Ranges(c: Category): (r: seq<Bounds>)
    ensures |r| == 4
  {
    match c
    case Small => [Bounds(1, 2), Bounds(5, 10), Bounds(5, 10), Bounds(10, 20)]
    case Medium => [Bounds(3, 4), Bounds(10, 20), Bounds(10, 20), Bounds(20, 50)]
    case Large => [Bounds(5, 7), Bounds(20, 50), Bounds(25, 50), Bounds(50, 100)]
  }

  predicate InBounds(x: nat, b: Bounds) { b.lo <= x <= b.hi }

  /** The sizes `randint(*r[k])` can draw for category `c`. */
  predicate SizesIn(c: Category, z: Sizes)
  {
    var r := Ranges(c);
    InBounds(z.nP, r[0]) && InBounds(z.nT, r[1]) && InBounds(z.nC1, r[2]) && InBounds(z.nC2, r[3])
  }

  /** Every range is non-empty and starts at 1 or more, so a drawn instance
      has at least one plant (the division by nP is safe) and 5 tanks, 5 C1
      and 10 C2 nodes, and at most 207 nodes. */
  lemma DrawnSizes(c: Category, z: Sizes)
    requires SizesIn(c, z)
    ensures forall i :: 0 <= i < 4 ==> 1 <= Ranges(c)[i].lo <= Ranges(c)[i].hi
    ensures z.nP >= 1 && z.nT >= 5 && z.nC1 >= 5 && z.nC2 >= 10
    ensures 21 <= Total(z) <= 207
  {
  }

  // ---------------------------------------------------------------------
  // Topology

  /** `random.sample(range(n), random.randint(1, min(cap, n)))`: between 1
      and min(cap, n) distinct values below n. */
  predicate SampleOf(pick: seq<nat>, n: nat, cap: nat)
  {
    && 1 <= |pick| <= MinNat(cap, n)
    && NoDup(pick)
    && (forall j :: 0 <= j < |pick| ==> pick[j] < n)
  }

  /** `[(u, v_t) for t in pick]`. */
  function Spokes(u: Node, l2: Layer, pick: seq<nat>): (r: seq<Arc>)
    ensures |r| == |pick| && forall j :: 0 <= j < |pick| ==> r[j] == (u, Node(l2, pick[j]))
  {
    seq(|pick|, j requires 0 <= j < |pick| => (u, Node(l2, pick[j])))
  }

  /** `[(u_c, v) for c in pick]`. */
  function Feeders(l1: Layer, pick: seq<nat>, v: Node): (r: seq<Arc>)
    ensures |r| == |pick| && forall j :: 0 <= j < |pick| ==> r[j] == (Node(l1, pick[j]), v)
  {
    seq(|pick|, j requires 0 <= j < |pick| => (Node(l1, pick[j]), v))
  }

  /** `[(u_i, v_t) for i in range(len(picks)) for t in picks[i]]`. */
  function FanOut(l1: Layer, l2: Layer, picks: seq<seq<nat>>): seq<Arc>
  {
    if picks == [] then []
    else FanOut(l1, l2, picks[..|picks| - 1]) + Spokes(Node(l1, |picks| - 1), l2, picks[|picks| - 1])
  }

  /** `[(u_c, v_f) for f in range(len(picks)) for c in picks[f]]`. */
  function FanIn(l1: Layer, l2: Layer, picks: seq<seq<nat>>): seq<Arc>
  {
    if picks == [] then []
    else FanIn(l1, l2, picks[..|picks| - 1]) + Feeders(l1, picks[|picks| - 1], Node(l2, |picks| - 1))
  }

  /** Every arc of a fan-out leaves node i of `l1` for some i < |picks| and
      enters a node of `l2` that `picks[i]` names. */
  lemma {:induction false} FanOutArcs(l1: Layer, l2: Layer, picks: seq<seq<nat>>)
    ensures forall a :: a in FanOut(l1, l2, picks) ==>
      a.0.layer == l1 && a.0.k < |picks| && a.1.layer == l2 && a.1.k in picks[a.0.k]
  {
    if picks != [] {
      var n := |picks| - 1;
      FanOutArcs(l1, l2, picks[..n]);
      var s := Spokes(Node(l1, n), l2, picks[n]);
      forall a | a in FanOut(l1, l2, picks)
        ensures a.0.layer == l1 && a.0.k < |picks| && a.1.layer == l2 && a.1.k in picks[a.0.k]
      {
        if a in FanOut(l1, l2, picks[..n]) {
          assert picks[..n][a.0.k] == picks[a.0.k];
        } else {
          assert a in s;
          var j :| 0 <= j < |s| && s[j] == a;
          assert picks[n][j] in picks[n];
        }
      }
    }
  }

  lemma {:induction false} FanInArcs(l1: Layer, l2: Layer, picks: seq<seq<nat>>)
    ensures forall a :: a in FanIn(l1, l2, picks) ==>
      a.1.layer == l2 && a.1.k < |picks| && a.0.layer == l1 && a.0.k in picks[a.1.k]
  {
    if picks != [] {
      var n := |picks| - 1;
      FanInArcs(l1, l2, picks[..n]);
      var s := Feeders(l1, picks[n], Node(l2, n));
      forall a | a in FanIn(l1, l2, picks)
        ensures a.1.layer == l2 && a.1.k < |picks| && a.0.layer == l1 && a.0.k in picks[a.1.k]
      {
        if a in FanIn(l1, l2, picks[..n]) {
          assert picks[..n][a.1.k] == picks[a.1.k];
        } else {
          assert a in s;
          var j :| 0 <= j < |s| && s[j] == a;
          assert picks[n][j] in picks[n];
        }
      }
    }
  }

  lemma SpokesNoDup(u: Node, l2: Layer, pick: seq<nat>)
    requires NoDup(pick)
    ensures NoDup(Spokes(u, l2, pick))
  {
  }

  lemma FeedersNoDup(l1: Layer, pick: seq<nat>, v: Node)
    requires NoDup(pick)
    ensures NoDup(Feeders(l1, pick, v))
  {
  }

  /** Samples without repeats give a fan-out without repeated arcs. */
  lemma {:induction false} FanOutNoDup(l1: Layer, l2: Layer, picks: seq<seq<nat>>)
    requires forall i :: 0 <= i < |picks| ==> NoDup(picks[i])
    ensures NoDup(FanOut(l1, l2, picks))
  {
    if picks != [] {
      var n := |picks| - 1;
      FanOutNoDup(l1, l2, picks[..n]);
      FanOutArcs(l1, l2, picks[..n]);
      SpokesNoDup(Node(l1, n), l2, picks[n]);
      NoDupConcat(FanOut(l1, l2, picks[..n]), Spokes(Node(l1, n), l2, picks[n]));
    }
  }

  lemma {:induction false} FanInNoDup(l1: Layer, l2: Layer, picks: seq<seq<nat>>)
    requires forall i :: 0 <= i < |picks| ==> NoDup(picks[i])
    ensures NoDup(FanIn(l1, l2, picks))
  {
    if picks != [] {
      var n := |picks| - 1;
      FanInNoDup(l1, l2, picks[..n]);
      FanInArcs(l1, l2, picks[..n]);
      FeedersNoDup(l1, picks[n], Node(l2, n));
      NoDupConcat(FanIn(l1, l2, picks[..n]), Feeders(l1, picks[n], Node(l2, n)));
    }
  }

  lemma {:induction false} SpokesOutDegree(u: Node, l2: Layer, pick: seq<nat>)
    ensures OutDegree(Spokes(u, l2, pick), u) == |pick|
  {
    if pick != [] {
      var n := |pick| - 1;
      assert Spokes(u, l2, pick)[..n] == Spokes(u, l2, pick[..n]);
      SpokesOutDegree(u, l2, pick[..n]);
    }
  }

  lemma {:induction false} FeedersInDegree(l1: Layer, pick: seq<nat>, v: Node)
    ensures InDegree(Feeders(l1, pick, v), v) == |pick|
  {
    if pick != [] {
      var n := |pick| - 1;
      assert Feeders(l1, pick, v)[..n] == Feeders(l1, pick[..n], v);
      FeedersInDegree(l1, pick[..n], v);
    }
  }

  /** Node i of `l1` has exactly |picks[i]| outgoing arcs in the fan-out. */
  lemma {:induction false} FanOutDegree(l1: Layer, l2: Layer, picks: seq<seq<nat>>, i: nat)
    requires i < |picks|
    ensures OutDegree(FanOut(l1, l2, picks), Node(l1, i)) == |picks[i]|
  {
    var n := |picks| - 1;
    var u := Node(l1, i);
    var prefix := FanOut(l1, l2, picks[..n]);
    var s := Spokes(Node(l1, n), l2, picks[n]);
    DegreeConcat(prefix, s, u);
    if i == n {
      FanOutArcs(l1, l2, picks[..n]);
      forall a | 0 <= a < |prefix| ensures prefix[a].0 != u {
        assert prefix[a] in prefix;
      }
      OutDegreeZero(prefix, u);
      SpokesOutDegree(u, l2, picks[n]);
    } else {
      FanOutDegree(l1, l2, picks[..n], i);
      OutDegreeZero(s, u);
    }
  }

  /** Node f of `l2` has exactly |picks[f]| incoming arcs in the fan-in. */
  lemma {:induction false} FanInDegree(l1: Layer, l2: Layer, picks: seq<seq<nat>>, f: nat)
    requires f < |picks|
    ensures InDegree(FanIn(l1, l2, picks), Node(l2, f)) == |picks[f]|
  {
    var n := |picks| - 1;
    var v := Node(l2, f);
    var prefix := FanIn(l1, l2, picks[..n]);
    var s := Feeders(l1, picks[n], Node(l2, n));
    DegreeConcat(prefix, s, v);
    if f == n {
      FanInArcs(l1, l2, picks[..n]);
      forall a | 0 <= a < |prefix| ensures prefix[a].1 != v {
        assert prefix[a] in prefix;
      }
      InDegreeZero(prefix, v);
      FeedersInDegree(l1, picks[n], v);
    } else {
      FanInDegree(l1, l2, picks[..n], f);
      InDegreeZero(s, v);
    }
  }

  /** The draws `generar_topologia` makes, one sample per plant, per tank
      and per C2 node. */
  predicate PicksFit(z: Sizes, ptPicks: seq<seq<nat>>, tc1Picks: seq<seq<nat>>, c2Picks: seq<seq<nat>>)
  {
    && |ptPicks| == z.nP && (forall p :: 0 <= p < z.nP ==> SampleOf(ptPicks[p], z.nT, 3))
    && |tc1Picks| == z.nT && (forall t :: 0 <= t < z.nT ==> SampleOf(tc1Picks[t], z.nC1, 4))
    && |c2Picks| == z.nC2 && (forall f :: 0 <= f < z.nC2 ==> SampleOf(c2Picks[f], z.nC1, 3))
  }

  lemma FanOutLayer(z: Sizes, l1: Layer, l2: Layer, picks: seq<seq<nat>>, cap: nat)
    requires |picks| == Count(z, l1)
    requires forall i :: 0 <= i < |picks| ==> SampleOf(picks[i], Count(z, l2), cap)
    ensures LayerArcs(z, FanOut(l1, l2, picks), l1, l2) && NoDup(FanOut(l1, l2, picks))
  {
    var arcs := FanOut(l1, l2, picks);
    FanOutArcs(l1, l2, picks);
    forall i | 0 <= i < |arcs| ensures LayerArc(z, arcs[i], l1, l2) {
      assert arcs[i] in arcs;
    }
    FanOutNoDup(l1, l2, picks);
  }

  lemma FanInLayer(z: Sizes, l1: Layer, l2: Layer, picks: seq<seq<nat>>, cap: nat)
    requires |picks| == Count(z, l2)
    requires forall i :: 0 <= i < |picks| ==> SampleOf(picks[i], Count(z, l1), cap)
    ensures LayerArcs(z, FanIn(l1, l2, picks), l1, l2) && NoDup(FanIn(l1, l2, picks))
  {
    var arcs := FanIn(l1, l2, picks);
    FanInArcs(l1, l2, picks);
    forall i | 0 <= i < |arcs| ensures LayerArc(z, arcs[i], l1, l2) {
      assert arcs[i] in arcs;
    }
    FanInNoDup(l1, l2, picks);
  }

  /** `generar_topologia(nP, nT, nC1, nC2)` over the drawn samples: arcs go
      only between adjacent layers and never repeat, each plant has 1 to
      min(3, nT) tank successors, each tank 1 to min(4, nC1) C1 successors,
      and each C2 node 1 to min(3, nC1) C1 predecessors. */
  function GenerateTopology(z: Sizes, ptPicks: seq<seq<nat>>, tc1Picks: seq<seq<nat>>, c2Picks: seq<seq<nat>>)
      : (t: Topology)
    requires PicksFit(z, ptPicks, tc1Picks, c2Picks)
    ensures LayerArcs(z, t.pt, Plant, Tank) && LayerArcs(z, t.tc1, Tank, Transfer)
    ensures LayerArcs(z, t.c1c2, Transfer, Final)
    ensures NoDup(t.pt) && NoDup(t.tc1) && NoDup(t.c1c2)
    ensures forall p :: 0 <= p < z.nP ==> 1 <= OutDegree(t.pt, Node(Plant, p)) <= MinNat(3, z.nT)
    ensures forall k :: 0 <= k < z.nT ==> 1 <= OutDegree(t.tc1, Node(Tank, k)) <= MinNat(4, z.nC1)
    ensures forall f :: 0 <= f < z.nC2 ==> 1 <= InDegree(t.c1c2, Node(Final, f)) <= MinNat(3, z.nC1)
  {
    FanOutLayer(z, Plant, Tank, ptPicks, 3);
    FanOutLayer(z, Tank, Transfer, tc1Picks, 4);
    FanInLayer(z, Transfer, Final, c2Picks, 3);
    var t := Topology(FanOut(Plant, Tank, ptPicks), FanOut(Tank, Transfer, tc1Picks),
                      FanIn(Transfer, Final, c2Picks));
    assert forall p :: 0 <= p < z.nP ==> OutDegree(t.pt, Node(Plant, p)) == |ptPicks[p]| by {
      forall p | 0 <= p < z.nP ensures OutDegree(t.pt, Node(Plant, p)) == |ptPicks[p]| {
        FanOutDegree(Plant, Tank, ptPicks, p);
      }
    }
    assert forall k :: 0 <= k < z.nT ==> OutDegree(t.tc1, Node(Tank, k)) == |tc1Picks[k]| by {
      forall k | 0 <= k < z.nT ensures OutDegree(t.tc1, Node(Tank, k)) == |tc1Picks[k]| {
        FanOutDegree(Tank, Transfer, tc1Picks, k);
      }
    }
    assert forall f :: 0 <= f < z.nC2 ==> InDegree(t.c1c2, Node(Final, f)) == |c2Picks[f]| by {
      forall f | 0 <= f < z.nC2 ensures InDegree(t.c1c2, Node(Final, f)) == |c2Picks[f]| {
        FanInDegree(Transfer, Final, c2Picks, f);
      }
    }
    t
  }

  /** Samples that give every plant and every tank only node 0 as successor
      (and every C2 node C1 node 0 as predecessor) are legal draws for the
      smallest "pequeñas" sizes. */
  lemma NarrowPicksFit()
    ensures SizesIn(Small, Sizes(1, 5, 5, 10))
    ensures PicksFit(Sizes(1, 5, 5, 10), [[0]], seq(5, _ => [0]), seq(10, _ => [0]))
  {
    assert SampleOf([0], 5, 3) && SampleOf([0], 5, 4);
  }

  /** No tank and no C1 node other than node 0 is fed by such a fan-out. */
  lemma {:induction false} OnlyNodeZeroFed(l1: Layer, l2: Layer, n: nat, k: nat)
    requires k != 0
    ensures InDegree(FanOut(l1, l2, seq(n, _ => [0])), Node(l2, k)) == 0
  {
    var picks: seq<seq<nat>> := seq(n, _ => [0]);
    var arcs := FanOut(l1, l2, picks);
    FanOutArcs(l1, l2, picks);
    forall i | 0 <= i < |arcs| ensures arcs[i].1 != Node(l2, k) {
      assert arcs[i] in arcs;
      assert picks[arcs[i].0.k] == [0];
    }
    InDegreeZero(arcs, Node(l2, k));
  }

  /** Only C2 nodes are sure to be fed: with legal draws for the smallest
      "pequeñas" sizes, tank 1 and C1 node 1 are left without any incoming
      arc. */
  lemma UnfedNodesPossible()
    ensures var z := Sizes(1, 5, 5, 10);
      var ptPicks: seq<seq<nat>> := [[0]];
      var tc1Picks: seq<seq<nat>> := seq(5, _ => [0]);
      var c2Picks: seq<seq<nat>> := seq(10, _ => [0]);
      && SizesIn(Small, z)
      && PicksFit(z, ptPicks, tc1Picks, c2Picks)
      && InDegree(GenerateTopology(z, ptPicks, tc1Picks, c2Picks).pt, Node(Tank, 1)) == 0
      && InDegree(GenerateTopology(z, ptPicks, tc1Picks, c2Picks).tc1, Node(Transfer, 1)) == 0
  {
    NarrowPicksFit();
    var ptPicks: seq<seq<nat>> := [[0]];
    assert ptPicks == seq(1, _ => [0]);
    OnlyNodeZeroFed(Plant, Tank, 1, 1);
    OnlyNodeZeroFed(Tank, Transfer, 5, 1);
  }

  // ---------------------------------------------------------------------
  // Instance

  /** `metadata` (`tamaño`, `numero`; `grupo` is always 5) and the instance. */
  datatype Generated = Generated(category: Category, number: int, inst: Instance)

  /** `generar_instancia(tam, idx)` over the drawn sizes `z`, samples,
      uniform demand draws `d1`, `d2` and transport draws `normals`. */
  function GenerateInstance(c: Category, idx: int, z: Sizes,
                            ptPicks: seq<seq<nat>>, tc1Picks: seq<seq<nat>>, c2Picks: seq<seq<nat>>,
                            d1: seq<real>, d2: seq<real>, normals: seq<real>): (g: Generated)
    requires SizesIn(c, z) && PicksFit(z, ptPicks, tc1Picks, c2Picks)
    requires |d1| == z.nC1 && |d2| == z.nC2
    requires Within(d1, 40.0, 100.0) && Within(d2, 40.0, 100.0)
    requires |normals| == ArcTotal(GenerateTopology(z, ptPicks, tc1Picks, c2Picks))
    ensures g.category == c && g.number == idx
    ensures Within(g.inst.d1, 40.0, 100.0) && Within(g.inst.d2, 40.0, 100.0)
    ensures 40.0 * (z.nC1 + z.nC2) as real <= Sum(g.inst.d1) + Sum(g.inst.d2) <= 100.0 * (z.nC1 + z.nC2) as real
    ensures WellFormed(g.inst) && g.inst.sizes == z
    ensures Topology(g.inst.pt, g.inst.tc1, g.inst.c1c2) == GenerateTopology(z, ptPicks, tc1Picks, c2Picks)
    ensures g.inst == InstanceOn(z, GenerateTopology(z, ptPicks, tc1Picks, c2Picks), d1, d2, normals)
  {
    DrawnSizes(c, z);
    DrawnDemandBounds(d1, d2);
    Generated(c, idx, InstanceOn(z, GenerateTopology(z, ptPicks, tc1Picks, c2Picks), d1, d2, normals))
  }

  /** Demands drawn from `uniform(40, 100)` total between 40 and 100 per
      demand node. */
  lemma DrawnDemandBounds(d1: seq<real>, d2: seq<real>)
    requires Within(d1, 40.0, 100.0) && Within(d2, 40.0, 100.0)
    ensures 40.0 * (|d1| + |d2|) as real <= Sum(d1) + Sum(d2) <= 100.0 * (|d1| + |d2|) as real
  {
    SumBounds(d1, 40.0, 100.0);
    SumBounds(d2, 40.0, 100.0);
  }

  /** The instance dictionary of `generar_instancia` once the topology `t`
      is drawn: the demands as drawn, every plant the same share of 1.1
      times the total demand, and the transport costs the normal draws
      floored at 0.1, in arc order. */
  function InstanceOn(z: Sizes, t: Topology, d1: seq<real>, d2: seq<real>, normals: seq<real>): (inst: Instance)
    requires z.nP > 0 && |d1| == z.nC1 && |d2| == z.nC2
    requires LayerArcs(z, t.pt, Plant, Tank) && LayerArcs(z, t.tc1, Tank, Transfer)
    requires LayerArcs(z, t.c1c2, Transfer, Final)
    requires NoDup(t.pt) && NoDup(t.tc1) && NoDup(t.c1c2)
    requires |normals| == ArcTotal(t)
    ensures WellFormed(inst) && inst.sizes == z && inst.d1 == d1 && inst.d2 == d2
    ensures inst.pt == t.pt && inst.tc1 == t.tc1 && inst.c1c2 == t.c1c2
    ensures TransCosts(inst) == FloorAll(normals, 0.1) && |TransCosts(inst)| == |Arcs(inst)|
    ensures inst.supply == PlantSupply(Sum(d1) + Sum(d2), z.nP)
  {
    BaseInstance(z, t, FloorAll(normals, 0.1), PlantShare(Sum(d1) + Sum(d2), z.nP), d1, d2)
  }

  /** `sup = (total * 1.1) / nP`. */
  function PlantShare(total: real, nP: nat): real
    requires nP > 0
  {
    (total * 1.1) / nP as real
  }

  /** `{f"P{i}": sup for i in range(nP)}`: every plant gets the same share. */
  function PlantSupply(total: real, nP: nat): (s: seq<real>)
    requires nP > 0
    ensures |s| == nP && forall p :: 0 <= p < nP ==> s[p] == s[0]
  {
    Repeat(PlantShare(total, nP), nP)
  }

  /** Together the plants supply 10% more than the total demand. */
  lemma PlantSupplyTotal(total: real, nP: nat)
    requires nP > 0
    ensures Sum(PlantSupply(total, nP)) == total * 1.1
  {
    EvenShare(total * 1.1, nP);
  }

  // ---------------------------------------------------------------------
  // Serialisation

  function AsReals(row: seq<nat>): (r: seq<real>)
    ensures |r| == |row| && forall d :: 0 <= d < |row| ==> r[d] == row[d] as real
  {
    seq(|row|, d requires 0 <= d < |row| => row[d] as real)
  }

  /** `"[ " + ", ".join(items) + " ]"`, the list form of this writer. */
  function Spaced(items: seq<string>): string
  {
    "[ " + Join(items, ", ") + " ]"
  }

  /** `name = [ ... ];`, one list parameter. */
  function Assign(name: string, items: seq<string>): string
  {
    name + " = " + Spaced(items) + ";"
  }

  /** One installation row: two spaces, the costs as decimals, a comma. */
  function RowPiece(row: seq<nat>, show: real -> string): string
  {
    "  " + Join(Shown(AsReals(row), show), ", ") + ","
  }

  function RowPieces(rows: seq<seq<nat>>, show: real -> string): (r: seq<string>)
    ensures |r| == |rows| && forall i :: 0 <= i < |rows| ==> r[i] == RowPiece(rows[i], show)
  {
    seq(|rows|, i requires 0 <= i < |rows| => RowPiece(rows[i], show))
  }

  /** The pieces before the installation rows. */
  function HeadPieces(z: Sizes, arcFrom: seq<nat>, arcTo: seq<nat>, demand: seq<real>, show: real -> string)
    : (r: seq<string>)
    ensures |r| == 9
  {
    [ "nP = " + NatStr(z.nP) + ";",
      "nT = " + NatStr(z.nT) + ";",
      "nC1 = " + NatStr(z.nC1) + ";",
      "nC2 = " + NatStr(z.nC2) + ";",
      "nA = " + NatStr(|arcFrom|) + ";",
      Assign("arc_from", NatStrs(arcFrom)),
      Assign("arc_to  ", NatStrs(arcTo)),
      Assign("demand", Shown(demand, show)),
      "install_cost = array2d(1..nA,1..3,[" ]
  }

  /** The writes of `guardar_dzn`, in order; `show` is `f"{x:.2f}"`. */
  function Pieces(inst: Instance, show: real -> string): (r: seq<string>)
    requires WellFormed(inst)
    ensures |r| == 11 + |Arcs(inst)|
  {
    WellFormedEnds(inst);
    var z := inst.sizes;
    var arcs := Arcs(inst);
    HeadPieces(z, ArcFrom(z, arcs), ArcTo(z, arcs), DemandArray(z, inst.d1, inst.d2), show)
      + RowPieces(AlternatingRows(|arcs|), show)
      + TailPieces(TransCosts(inst), show)
  }

  function TailPieces(trans: seq<real>, show: real -> string): seq<string>
  {
    ["]);", Assign("trans_cost", Shown(trans, show))]
  }

  /** Writing `a` and then `b` writes their concatenation. */
  lemma {:induction false} ConcatAppend(a: seq<string>, b: seq<string>)
    ensures Concat(a + b) == Concat(a) + Concat(b)
    decreases |b|
  {
    if b == [] {
      assert a + b == a;
    } else {
      var b' := b[..|b| - 1];
      assert (a + b)[..|a + b| - 1] == a + b';
      ConcatAppend(a, b');
    }
  }

  /** Consecutive `f.write` calls: `text` is everything written so far. */
  method WritePieces(text0: string, pieces: seq<string>) returns (text: string)
    ensures text == text0 + Concat(pieces)
  {
    text := text0;
    for i := 0 to |pieces|
      invariant text == text0 + Concat(pieces[..i])
    {
      assert pieces[..i + 1][..i] == pieces[..i];
      text := text + pieces[i];
    }
    assert pieces[..|pieces|] == pieces;
  }

  /** The loop `for row in install_costs: f.write("  " + ... + ",")`. */
  method WriteRows(text0: string, install: seq<seq<nat>>, show: real -> string) returns (text: string)
    ensures text == text0 + Concat(RowPieces(install, show))
  {
    text := text0;
    ghost var rows := RowPieces(install, show);
    for i := 0 to |install|
      invariant text == text0 + Concat(rows[..i])
    {
      assert rows[..i + 1][..i] == rows[..i];
      text := text + RowPiece(install[i], show);
    }
    assert rows[..|install|] == rows;
  }

  /** The arrays `guardar_dzn` computes before writing: the node-index loop,
      the arc projections, the transport values, the demand fill and the
      alternating installation rows. */
  method PrepareArrays(inst: Instance)
      returns (arcFrom: seq<nat>, arcTo: seq<nat>, demand: seq<real>, install: seq<seq<nat>>, trans: seq<real>)
    requires WellFormed(inst)
    ensures EndsValid(inst.sizes, Arcs(inst))
    ensures arcFrom == ArcFrom(inst.sizes, Arcs(inst)) && arcTo == ArcTo(inst.sizes, Arcs(inst))
    ensures demand == DemandArray(inst.sizes, inst.d1, inst.d2)
    ensures install == AlternatingRows(|Arcs(inst)|) && trans == TransCosts(inst)
  {
    var z := inst.sizes;
    var nodeIdx, contador := BuildNodeIndex(z);
    var arcos := Arcs(inst);
    WellFormedEnds(inst);
    arcFrom := seq(|arcos|, i requires 0 <= i < |arcos| => nodeIdx[arcos[i].0]);
    arcTo := seq(|arcos|, i requires 0 <= i < |arcos| => nodeIdx[arcos[i].1]);
    trans := Values(inst.cPt) + Values(inst.cTc1) + Values(inst.cC1c2);
    demand := FillDemand(z, nodeIdx, inst.d1, inst.d2);
    install := InstallRows(|arcos|);
  }

  /** The written pieces are the head, one piece per installation row, and
      the tail. */
  lemma PiecesParts(inst: Instance, show: real -> string)
    requires WellFormed(inst)
    ensures EndsValid(inst.sizes, Arcs(inst))
    ensures Pieces(inst, show)
      == HeadPieces(inst.sizes, ArcFrom(inst.sizes, Arcs(inst)), ArcTo(inst.sizes, Arcs(inst)),
                    DemandArray(inst.sizes, inst.d1, inst.d2), show)
         + RowPieces(AlternatingRows(|Arcs(inst)|), show)
         + TailPieces(TransCosts(inst), show)
  {
    WellFormedEnds(inst);
  }

  /** `guardar_dzn`: the arrays, then the writes, one after the other with
      nothing in between. */
  method SaveDzn(inst: Instance, show: real -> string) returns (text: string)
    requires WellFormed(inst)
    ensures text == Concat(Pieces(inst, show))
  {
    var arcFrom, arcTo, demand, install, trans := PrepareArrays(inst);
    var head := HeadPieces(inst.sizes, arcFrom, arcTo, demand, show);
    var tail := TailPieces(trans, show);
    ghost var rows := RowPieces(install, show);
    var t1 := WritePieces("", head);
    assert t1 == Concat(head);
    var t2 := WriteRows(t1, install, show);
    ConcatAppend(head, rows);
    assert t2 == Concat(head + rows);
    text := WritePieces(t2, tail);
    ConcatAppend(head + rows, tail);
    assert text == Concat(head + rows + tail);
    PiecesParts(inst, show);
  }

  /** What the written text holds: the demand list has one entry per node,
      zero on plants and tanks; the installation rows alternate type A and
      type B, each ended by a comma, and the last is followed directly by
      "]);"; the transport costs are one per arc. */
  lemma WrittenPieces(inst: Instance, show: real -> string)
    requires WellFormed(inst)
    ensures var r := Pieces(inst, show);
      var n := |Arcs(inst)|;
      var demand := DemandArray(inst.sizes, inst.d1, inst.d2);
      && r[7] == Assign("demand", Shown(demand, show))
      && |demand| == Total(inst.sizes)
      && (forall i :: 0 <= i < inst.sizes.nP + inst.sizes.nT ==> demand[i] == 0.0)
      && (forall i :: 9 <= i < 9 + n ==> r[i] == RowPiece(AlternatingRows(n)[i - 9], show) && r[i][|r[i]| - 1] == ',')
      && r[9 + n] == "]);"
      && (forall i :: 0 <= i < n ==> AlternatingRows(n)[i] == if i % 2 == 0 then [20, 24, 32] else [50, 62, 78])
  {
    var z, n := inst.sizes, |Arcs(inst)|;
    PiecesParts(inst, show);
    DemandArrayProperties(z, inst.d1, inst.d2);
    AlternatingRowsShape(n);
    var head := HeadPieces(z, ArcFrom(z, Arcs(inst)), ArcTo(z, Arcs(inst)), DemandArray(z, inst.d1, inst.d2), show);
    var rows := RowPieces(AlternatingRows(n), show);
    var tail := TailPieces(TransCosts(inst), show);
    var r := Pieces(inst, show);
    assert r == head + rows + tail;
    assert r[7] == head[7];
    forall i | 9 <= i < 9 + n
      ensures r[i] == RowPiece(AlternatingRows(n)[i - 9], show) && r[i][|r[i]| - 1] == ','
    {
      assert r[i] == rows[i - 9];
      RowPieceEndsWithComma(AlternatingRows(n)[i - 9], show);
    }
    assert r[9 + n] == tail[0];
  }

  lemma RowPieceEndsWithComma(row: seq<nat>, show: real -> string)
    ensures var p := RowPiece(row, show); |p| > 0 && p[|p| - 1] == ','
  {
  }

  /** A list line `name = [ x, y, ... ];` reads back as its list. */
  lemma AssignReadsBack(name: string, xs: seq<nat>)
    requires xs != []
    ensures var l := Assign(name, NatStrs(xs));
      |name| + 5 <= |l| - 3 && ParseItems(l[|name| + 5..|l| - 3]) == Some(xs)
  {
    var l := Assign(name, NatStrs(xs));
    assert l[|name| + 5..|l| - 3] == Join(NatStrs(xs), ", ");
    ParseItemsJoin(xs);
  }

  /** Pieces 5 and 6 are the `arc_from` and `arc_to` lists. */
  lemma ArcPieces(inst: Instance, show: real -> string)
    requires WellFormed(inst)
    ensures EndsValid(inst.sizes, Arcs(inst))
    ensures Pieces(inst, show)[5] == Assign("arc_from", NatStrs(ArcFrom(inst.sizes, Arcs(inst))))
    ensures Pieces(inst, show)[6] == Assign("arc_to  ", NatStrs(ArcTo(inst.sizes, Arcs(inst))))
  {
    PiecesParts(inst, show);
  }

  /** The `arc_from` and `arc_to` lists read back as the arcs' end indices. */
  lemma ArcPiecesReadBack(inst: Instance, show: real -> string)
    requires WellFormed(inst) && Arcs(inst) != []
    ensures EndsValid(inst.sizes, Arcs(inst))
    ensures var r := Pieces(inst, show);
      && ParseItems(r[5][13..|r[5]| - 3]) == Some(ArcFrom(inst.sizes, Arcs(inst)))
      && ParseItems(r[6][13..|r[6]| - 3]) == Some(ArcTo(inst.sizes, Arcs(inst)))
  {
    ArcPieces(inst, show);
    AssignReadsBack("arc_from", ArcFrom(inst.sizes, Arcs(inst)));
    AssignReadsBack("arc_to  ", ArcTo(inst.sizes, Arcs(inst)));
  }
}
