/** tools/generador_infactible.py: six generators of deliberately hard or
    infeasible instances.  Each variant fixes the class sizes, draws demands
    in its own envelope, sets a uniform per-plant supply from the total
    demand and a slack factor, and hands over to `_crear_instancia_base`,
    which builds complete bipartite layers (thinned out for the fragmented
    topology), transport costs per arc, the cost dictionaries and the
    metadata.  `guardar_dzn` writes the `.dzn` text. */
module Infeasible {
  import opened Network
  import opened Text
  import opened Dzn

  // ---------------------------------------------------------------------
  // Size classification and explanations

  datatype SizeClass = Small | Medium | Large | VeryLarge

  /** The labels 'pequeña', 'mediana', 'grande', 'muy_grande'. */
  function SizeLabel(c: SizeClass): string
  {
    match c
    case Small => "pequeña"
    case Medium => "mediana"
    case Large => "grande"
    case VeryLarge => "muy_grande"
  }

  function SizeRank(c: SizeClass): nat
  {
    match c
    case Small => 0
    case Medium => 1
    case Large => 2
    case VeryLarge => 3
  }

  /** `_clasificar_tamaño`: the first threshold pair that either count
      exceeds decides the class. */
  function ClassifySize(numArcs: int, numNodes: int): (c: SizeClass)
    ensures c == VeryLarge <==> numArcs > 200 || numNodes > 40
    ensures c == Large <==> (numArcs <= 200 && numNodes <= 40) && (numArcs > 100 || numNodes > 25)
    ensures c == Medium <==> (numArcs <= 100 && numNodes <= 25) && (numArcs > 50 || numNodes > 15)
    ensures c == Small <==> numArcs <= 50 && numNodes <= 15
  {
    if numArcs > 200 || numNodes > 40 then VeryLarge
    else if numArcs > 100 || numNodes > 25 then Large
    else if numArcs > 50 || numNodes > 15 then Medium
    else Small
  }

  /** More arcs or more nodes never give a smaller class. */
  lemma ClassifyMonotone(a: int, n: int, a': int, n': int)
    requires a <= a' && n <= n'
    ensures SizeRank(ClassifySize(a, n)) <= SizeRank(ClassifySize(a', n'))
  {
  }

  /** The six problem types. */
  datatype Kind = Overload | Bottleneck | Prohibitive | Isolation | Complexity | Conflicting

  /** The `tipo` string each type is recorded and explained under. */
  function Tag(k: Kind): string
  {
    match k
    case Overload => "INFACTIBLE_DEMANDA"
    case Bottleneck => "CUELLO_BOTELLA"
    case Prohibitive => "COSTOS_PROHIBITIVOS"
    case Isolation => "TOPOLOGIA_IMPOSIBLE"
    case Complexity => "COMPLEJIDAD_EXTREMA"
    case Conflicting => "RESTRICCIONES_CONFLICTIVAS"
  }

  const Kinds: set<string> := {Tag(Overload), Tag(Bottleneck), Tag(Prohibitive), Tag(Isolation),
                               Tag(Complexity), Tag(Conflicting)}

  const DefaultReason := "Problema diseñado para ser difícil"

  /** `_explicar_problema`: the justification of each problem type; an
      unknown type falls back to the default text.  `show1` renders a real
      with one decimal (`{x:.1f}`). */
  function Explain(kind: string, demand: real, supply: real, numArcs: int, show1: real -> string): (r: string)
    ensures kind in Kinds <==> r != DefaultReason
  {
    if kind == Tag(Overload) then OverloadReason(demand, show1)
    else if kind == Tag(Bottleneck) then "Topología con cuello de botella extremo, solo 1 nodo intermedio"
    else if kind == Tag(Prohibitive) then "Costos de transporte extremadamente altos (>5000)"
    else if kind == Tag(Isolation) then "Nodos críticos aislados sin conectividad"
    else if kind == Tag(Complexity) then "Problema muy grande (" + IntStr(numArcs) + " arcos) con margen mínimo"
    else if kind == Tag(Conflicting) then "Demandas requieren capacidades conflictivas"
    else DefaultReason
  }

  predicate OccursAt(s: string, w: string, i: int)
  {
    0 <= i <= |s| - |w| && s[i..i + |w|] == w
  }

  ghost predicate Contains(s: string, w: string)
  {
    exists i :: OccursAt(s, w, i)
  }

  /** The overload justification, which quotes the demand. */
  function OverloadReason(demand: real, show1: real -> string): string
  {
    "Demanda" + " (" + show1(demand) + ") excede " + "capacidad" + " física máxima teórica"
  }

  /** The overload justification names both the demand and the capacity. */
  lemma OverloadReasonNamesCapacity(demand: real, supply: real, numArcs: int, show1: real -> string)
    ensures Explain(Tag(Overload), demand, supply, numArcs, show1) == OverloadReason(demand, show1)
    ensures Contains(OverloadReason(demand, show1), "Demanda")
    ensures Contains(OverloadReason(demand, show1), "capacidad")
  {
    var rest := " (" + show1(demand) + ") excede " + "capacidad" + " física máxima teórica";
    assert OverloadReason(demand, show1)[0..7] == "Demanda";
    assert OccursAt(OverloadReason(demand, show1), "Demanda", 0);
    OccursInMiddle("Demanda" + " (" + show1(demand) + ") excede ", "capacidad", " física máxima teórica");
  }

  lemma OccursInMiddle(a: string, w: string, b: string)
    ensures OccursAt(a + w + b, w, |a|)
  {
    assert (a + w + b)[|a|..|a| + |w|] == w;
  }

  // ---------------------------------------------------------------------
  // Topology

  /** `random.sample(population, k)` seen as the positions it picks: k
      distinct positions below n. */
  predicate IsSample(pick: seq<nat>, n: nat, k: nat)
  {
    |pick| == k && NoDup(pick) && forall i :: 0 <= i < |pick| ==> pick[i] < n
  }

  function Select(arcs: seq<Arc>, pick: seq<nat>): (r: seq<Arc>)
    requires forall i :: 0 <= i < |pick| ==> pick[i] < |arcs|
    ensures |r| == |pick|
  {
    seq(|pick|, i requires 0 <= i < |pick| => arcs[pick[i]])
  }

  /** The random draws of the fragmentation step. */
  datatype Cuts = Cuts(ptPick: seq<nat>, tc1Pick: seq<nat>, isolated: seq<nat>)


  /** Each draw is a sample of the size the source asks for, where it draws. */
  predicate CutsFit(z: Sizes, cuts: Cuts)
  {
    && (z.nP * z.nT > 2 ==> IsSample(cuts.ptPick, z.nP * z.nT, MaxNat(1, z.nP * z.nT / 3)))
    && (z.nT * z.nC1 > 2 ==> IsSample(cuts.tc1Pick, z.nT * z.nC1, MaxNat(1, z.nT * z.nC1 / 2)))
    && (z.nC2 > 3 ==> IsSample(cuts.isolated, z.nC2, MinNat(3, z.nC2 / 2)))
  }

  predicate IsIsolated(v: Node, isolated: seq<nat>)
  {
    v.layer == Final && v.k in isolated
  }

  /** `[arc for arc in c1c2 if not any(arc[1] == C2_n for n in isolated)]`. */
  function Isolate(arcs: seq<Arc>, isolated: seq<nat>): (r: seq<Arc>)
    ensures forall a :: a in r <==> a in arcs && !IsIsolated(a.1, isolated)
  {
    if arcs == [] then []
    else
      var rest := Isolate(arcs[..|arcs| - 1], isolated);
      var a := arcs[|arcs| - 1];
      assert arcs == arcs[..|arcs| - 1] + [a];
      if IsIsolated(a.1, isolated) then rest else rest + [a]
  }

  lemma {:induction false} IsolateNoDup(arcs: seq<Arc>, isolated: seq<nat>)
    requires NoDup(arcs)
    ensures NoDup(Isolate(arcs, isolated))
  {
    if arcs != [] {
      var n := |arcs| - 1;
      IsolateNoDup(arcs[..n], isolated);
      if !IsIsolated(arcs[n].1, isolated) {
        assert arcs[n] !in arcs[..n];
        NoDupConcat(Isolate(arcs[..n], isolated), [arcs[n]]);
      }
    }
  }

  /** Isolating other nodes leaves a node's in-degree unchanged. */
  lemma {:induction false} IsolateInDegree(arcs: seq<Arc>, isolated: seq<nat>, v: Node)
    requires !IsIsolated(v, isolated)
    ensures InDegree(Isolate(arcs, isolated), v) == InDegree(arcs, v)
  {
    if arcs != [] {
      var n := |arcs| - 1;
      IsolateInDegree(arcs[..n], isolated, v);
      if !IsIsolated(arcs[n].1, isolated) {
        DegreeConcat(Isolate(arcs[..n], isolated), [arcs[n]], v);
        assert [arcs[n]][..0] == [];
      }
    }
  }

  lemma SelectNoDup(arcs: seq<Arc>, pick: seq<nat>)
    requires NoDup(arcs) && NoDup(pick)
    requires forall i :: 0 <= i < |pick| ==> pick[i] < |arcs|
    ensures NoDup(Select(arcs, pick))
  {
  }

  predicate Fragmenting(kind: Kind, fragment: bool)
  {
    fragment || kind == Isolation
  }

  /** The arc lists of `_crear_instancia_base`: complete bipartite layers,
      and when fragmenting, a third of P->T (at least one) and half of
      T->C1 (at least one) kept when a list is longer than 2, and every arc
      into the isolated C2 nodes dropped when there are more than 3 C2
      nodes. */
  function BaseTopology(z: Sizes, fragmenting: bool, cuts: Cuts): Topology
    requires fragmenting ==> CutsFit(z, cuts)
  {
    var pt := CompletePt(z);
    var tc1 := CompleteTc1(z);
    var c1c2 := CompleteC1c2(z);
    ProductLength(NodesOf(z, Plant), NodesOf(z, Tank));
    ProductLength(NodesOf(z, Tank), NodesOf(z, Transfer));
    if !fragmenting then Topology(pt, tc1, c1c2)
    else
      Topology(
        if |pt| > 2 then Select(pt, cuts.ptPick) else pt,
        if |tc1| > 2 then Select(tc1, cuts.tc1Pick) else tc1,
        if z.nC2 > 3 then Isolate(c1c2, cuts.isolated) else c1c2)
  }

  /** Without fragmentation the topology is complete bipartite with
      nP*nT + nT*nC1 + nC1*nC2 arcs. */
  lemma UnfragmentedArcCount(z: Sizes, cuts: Cuts)
    ensures ArcTotal(BaseTopology(z, false, cuts)) == CompleteArcCount(z)
    ensures BaseTopology(z, false, cuts) == Topology(CompletePt(z), CompleteTc1(z), CompleteC1c2(z))
  {
    CompleteTopology(z);
  }

  /** Fragmentation only removes arcs: the kept P->T and T->C1 arcs are
      original arcs, max(1, |pt|//3) and max(1, |tc1|//2) of them when the
      list was longer than 2; the min(3, nC2//2) isolated C2 nodes are
      distinct and have no incoming arc left, while every C1->C2 arc into
      any other node survives. */
  lemma FragmentOnlyRemoves(z: Sizes, cuts: Cuts)
    requires CutsFit(z, cuts)
    ensures var t := BaseTopology(z, true, cuts);
      && (forall a :: a in t.pt ==> a in CompletePt(z))
      && (forall a :: a in t.tc1 ==> a in CompleteTc1(z))
      && (forall a :: a in t.c1c2 ==> a in CompleteC1c2(z))
      && |t.pt| == (if z.nP * z.nT > 2 then MaxNat(1, z.nP * z.nT / 3) else z.nP * z.nT)
      && |t.tc1| == (if z.nT * z.nC1 > 2 then MaxNat(1, z.nT * z.nC1 / 2) else z.nT * z.nC1)
      && NoDup(t.pt) && NoDup(t.tc1) && NoDup(t.c1c2)
      && (z.nC2 > 3 ==>
            && |cuts.isolated| == MinNat(3, z.nC2 / 2) && NoDup(cuts.isolated)
            && (forall i :: 0 <= i < |cuts.isolated| ==>
                  cuts.isolated[i] < z.nC2 && InDegree(t.c1c2, Node(Final, cuts.isolated[i])) == 0)
            && (forall a :: a in CompleteC1c2(z) && !IsIsolated(a.1, cuts.isolated) ==> a in t.c1c2))
      && (z.nC2 <= 3 ==> t.c1c2 == CompleteC1c2(z))
  {
    var t := BaseTopology(z, true, cuts);
    CompleteTopology(z);
    ProductLength(NodesOf(z, Plant), NodesOf(z, Tank));
    ProductLength(NodesOf(z, Tank), NodesOf(z, Transfer));
    if |CompletePt(z)| > 2 {
      SelectNoDup(CompletePt(z), cuts.ptPick);
    }
    if |CompleteTc1(z)| > 2 {
      SelectNoDup(CompleteTc1(z), cuts.tc1Pick);
    }
    if z.nC2 > 3 {
      IsolateNoDup(CompleteC1c2(z), cuts.isolated);
      forall i | 0 <= i < |cuts.isolated|
        ensures InDegree(t.c1c2, Node(Final, cuts.isolated[i])) == 0
      {
        var v := Node(Final, cuts.isolated[i]);
        forall j | 0 <= j < |t.c1c2| ensures t.c1c2[j].1 != v {
          assert t.c1c2[j] in t.c1c2;
        }
        InDegreeZero(t.c1c2, v);
      }
    }
  }

  // ---------------------------------------------------------------------
  // Transport costs

  /** The draws each problem type takes its transport costs from: uniform
      in [5000, 20000] for prohibitive costs, uniform in [1, 5] for
      conflicting constraints, a normal draw otherwise. */
  predicate TransDrawsFit(kind: Kind, draws: seq<real>)
  {
    && (kind == Prohibitive ==> forall i :: 0 <= i < |draws| ==> 5000.0 <= draws[i] <= 20000.0)
    && (kind == Conflicting ==> forall i :: 0 <= i < |draws| ==> 1.0 <= draws[i] <= 5.0)
  }

  /** `trans`: the normal draws are floored at 0.5; the uniform ones are kept. */
  function TransFor(kind: Kind, draws: seq<real>): (r: seq<real>)
    requires TransDrawsFit(kind, draws)
    ensures |r| == |draws|
    ensures forall i :: 0 <= i < |r| ==> r[i] >= 0.5
    ensures kind == Prohibitive ==> forall i :: 0 <= i < |r| ==> r[i] >= 5000.0
  {
    if kind == Prohibitive || kind == Conflicting then draws
    else seq(|draws|, i requires 0 <= i < |draws| => Max(0.5, draws[i]))
  }

  // ---------------------------------------------------------------------
  // The instance

  /** The `metadata` record. */
  datatype Meta = Meta(
    size: SizeClass, number: int, kind: string,
    totalDemand: real, totalSupply: real, slack: real,
    numArcs: nat, totalNodes: nat, density: real,
    problematic: bool, reason: string)

  datatype Problematic = Problematic(meta: Meta, inst: Instance)

  /** `factor_holgura`: supply over demand, or 0 when there is no demand. */
  function SlackFactor(supply: real, demand: real): (r: real)
    ensures demand > 0.0 ==> r * demand == supply
    ensures demand <= 0.0 ==> r == 0.0
  {
    if demand > 0.0 then supply / demand else 0.0
  }

  /** `sup * nP` as nP repeated additions of `sup`. Kept recursive so that
      the solver sees the total supply as an opaque term instead of a
      nonlinear real product spreading through every query about the
      instance; `ScaleIsProduct` recovers the product where it is needed. */
  function Scale(n: nat, x: real): real
  {
    if n == 0 then 0.0 else Scale(n - 1, x) + x
  }

  lemma {:induction false} ScaleIsProduct(n: nat, x: real)
    ensures Scale(n, x) == n as real * x
  {
    if n > 0 {
      ScaleIsProduct(n - 1, x);
    }
  }

  /** `suministro_total = sup * nP` is the sum of the per-plant supplies. */
  lemma UniformSupplyTotal(supply: seq<real>, sup: real, nP: nat)
    requires supply == Repeat(sup, nP)
    ensures Sum(supply) == Scale(nP, sup)
  {
    SumRepeat(sup, nP);
    ScaleIsProduct(nP, sup);
  }

  /** What `_crear_instancia_base` returns for per-plant supply `sup`: an
      instance of sizes `z` with the given demands, the base topology, the
      transport costs of the problem type and `sup` at every plant, and the
      metadata agreeing with it: index, kind tag, arc count, node count,
      connection density, demand and supply totals, slack factor, size
      class, the problematic flag and reason. */
  predicate BaseOf(p: Problematic, idx: int, z: Sizes, d1: seq<real>, d2: seq<real>, sup: real,
                   kind: Kind, fragmenting: bool, cuts: Cuts, draws: seq<real>, show1: real -> string)
    requires Total(z) > 0
    requires fragmenting ==> CutsFit(z, cuts)
    requires TransDrawsFit(kind, draws)
  {
    && WellFormed(p.inst)
    && p.inst.sizes == z && p.inst.d1 == d1 && p.inst.d2 == d2
    && Topology(p.inst.pt, p.inst.tc1, p.inst.c1c2) == BaseTopology(z, fragmenting, cuts)
    && TransCosts(p.inst) == TransFor(kind, draws)
    && p.inst.supply == Repeat(sup, z.nP)
    && p.meta.number == idx && p.meta.kind == Tag(kind)
    && p.meta.numArcs == |Arcs(p.inst)|
    && p.meta.totalNodes == Total(z)
    && p.meta.density == Density(p.meta.numArcs, Total(z))
    && p.meta.problematic
    && p.meta.totalDemand == Sum(d1) + Sum(d2)
    && p.meta.totalSupply == Scale(z.nP, sup)
    && p.meta.slack == SlackFactor(p.meta.totalSupply, p.meta.totalDemand)
    && p.meta.size == ClassifySize(p.meta.numArcs, Total(z))
    && p.meta.reason == Explain(Tag(kind), p.meta.totalDemand, p.meta.totalSupply, p.meta.numArcs, show1)
  }

  /** `densidad_conexion`: arcs per ordered pair of nodes, M / N². */
  function Density(m: nat, n: nat): real
    requires n > 0
  {
    SquarePositive(n);
    m as real / (n * n) as real
  }

  method CreateBase(idx: int, z: Sizes, d1: seq<real>, d2: seq<real>, sup: real,
                    kind: Kind, fragment: bool, cuts: Cuts, draws: seq<real>,
                    show1: real -> string) returns (p: Problematic)
    requires Total(z) > 0
    requires |d1| == z.nC1 && |d2| == z.nC2
    requires Fragmenting(kind, fragment) ==> CutsFit(z, cuts)
    requires |draws| == ArcTotal(BaseTopology(z, Fragmenting(kind, fragment), cuts))
    requires TransDrawsFit(kind, draws)
    ensures BaseOf(p, idx, z, d1, d2, sup, kind, Fragmenting(kind, fragment), cuts, draws, show1)
    ensures NoDup(p.inst.pt) && NoDup(p.inst.tc1) && NoDup(p.inst.c1c2)
    ensures |Arcs(p.inst)| == |TransCosts(p.inst)|
  {
    var t := BaseTopology(z, Fragmenting(kind, fragment), cuts);
    BaseTopologyFacts(z, Fragmenting(kind, fragment), cuts);
    var inst := BaseInstance(z, t, TransFor(kind, draws), sup, d1, d2);
    var m := ArcTotal(t);
    var n := Total(z);
    var totalDemand := Sum(d1) + Sum(d2);
    var totalSupply := Scale(z.nP, sup);
    var meta := Meta(
      ClassifySize(m, n), idx, Tag(kind), totalDemand, totalSupply,
      SlackFactor(totalSupply, totalDemand), m, n,
      Density(m, n), true,
      Explain(Tag(kind), totalDemand, totalSupply, m, show1));
    p := Problematic(meta, inst);
  }

  lemma SquarePositive(n: nat)
    requires n > 0
    ensures n * n > 0
  {
    assert n * n >= n * 1;
  }

  lemma BaseTopologyFacts(z: Sizes, fragmenting: bool, cuts: Cuts)
    requires fragmenting ==> CutsFit(z, cuts)
    ensures var t := BaseTopology(z, fragmenting, cuts);
      && LayerArcs(z, t.pt, Plant, Tank) && LayerArcs(z, t.tc1, Tank, Transfer)
      && LayerArcs(z, t.c1c2, Transfer, Final)
      && NoDup(t.pt) && NoDup(t.tc1) && NoDup(t.c1c2)
  {
    CompleteTopology(z);
    var t := BaseTopology(z, fragmenting, cuts);
    if fragmenting {
      FragmentOnlyRemoves(z, cuts);
      SubsetLayerArcs(z, t.pt, CompletePt(z), Plant, Tank);
      SubsetLayerArcs(z, t.tc1, CompleteTc1(z), Tank, Transfer);
      SubsetLayerArcs(z, t.c1c2, CompleteC1c2(z), Transfer, Final);
    }
  }

  lemma SubsetLayerArcs(z: Sizes, sub: seq<Arc>, full: seq<Arc>, l1: Layer, l2: Layer)
    requires LayerArcs(z, full, l1, l2)
    requires forall a :: a in sub ==> a in full
    ensures LayerArcs(z, sub, l1, l2)
  {
    forall i | 0 <= i < |sub| ensures LayerArc(z, sub[i], l1, l2) {
      assert sub[i] in full;
    }
  }

  /** The per-plant supply `total * factor / nP` adds up over the nP plants
      to `factor * total`, so the realised slack factor is `factor` whenever
      there is demand. */
  lemma UniformSupplySlack(total: real, factor: real, nP: nat)
    requires nP > 0 && total > 0.0
    ensures nP as real * (total * factor / nP as real) == factor * total
    ensures SlackFactor(nP as real * (total * factor / nP as real), total) == factor
  {
  }

  // ---------------------------------------------------------------------
  // The six variants

  /** `max(max_flujo)` over the diameter catalog. */
  function MaxArcCapacity(): (c: nat)
    ensures forall i :: 0 <= i < |MaxCapacity()| ==> MaxCapacity()[i] <= c
    ensures c in MaxCapacity()
  {
    assert MaxCapacity() == [795, 1414, 3181];
    3181
  }

  const OverloadSizes := Sizes(2, 3, 4, 6)

  /** Demand per node in the overload variant: twice the theoretical maximum
      flow (largest capacity times the estimated arc count) spread evenly
      over the C1 and C2 nodes. */
  function OverloadDemand(): real
  {
    var z := OverloadSizes;
    (MaxArcCapacity() * CompleteArcCount(z)) as real * 2.0 / (z.nC1 + z.nC2) as real
  }

  /** The overload demands: 26720.4 per node, 267204 in total, twice the
      theoretical capacity 3181 * 42. */
  lemma OverloadFigures()
    ensures CompleteArcCount(OverloadSizes) == 42
    ensures OverloadDemand() == 26720.4
    ensures Sum(Repeat(OverloadDemand(), 4)) + Sum(Repeat(OverloadDemand(), 6)) == 267204.0
    ensures 267204.0 == 2.0 * (MaxArcCapacity() * CompleteArcCount(OverloadSizes)) as real
  {
    SumRepeat(OverloadDemand(), 4);
    SumRepeat(OverloadDemand(), 6);
  }

  /** `generar_instancia_infactible_demanda`. */
  method InfeasibleDemand(idx: int, draws: seq<real>, show1: real -> string) returns (p: Problematic)
    requires |draws| == CompleteArcCount(OverloadSizes)
    ensures Realises(p, idx, OverloadSizes, Repeat(26720.4, 4), Repeat(26720.4, 6), 0.1, Overload,
                     false, Cuts([], [], []), draws, show1)
    ensures p.meta.numArcs == 42
    ensures p.inst.d1 == Repeat(26720.4, 4) && p.inst.d2 == Repeat(26720.4, 6)
    ensures p.meta.totalDemand == 2.0 * (MaxArcCapacity() * p.meta.numArcs) as real
    ensures p.meta.slack == 0.1 < 1.0
    ensures Contains(p.meta.reason, "capacidad")
  {
    var z := OverloadSizes;
    var d := OverloadDemand();
    OverloadFigures();
    SumPositive(Repeat(d, 4));
    SumPositive(Repeat(d, 6));
    UnfragmentedArcCount(z, Cuts([], [], []));
    p := Variant(idx, z, Repeat(d, 4), Repeat(d, 6), 0.1, Overload, false, Cuts([], [], []), draws, show1);
    OverloadReasonNamesCapacity(p.meta.totalDemand, p.meta.totalSupply, p.meta.numArcs, show1);
  }

  /** `round(sum(d1 + d2) * factor / nP, 2)`: each plant's share of
      `factor` times the total demand (rounding left out). */
  function PlantShare(total: real, factor: real, nP: nat): real
    requires nP > 0
  {
    total * factor / nP as real
  }

  /** What every variant builds from its draws: the base instance with
      `sum(d1 + d2) * factor / nP` supply per plant, a positive demand total
      and slack factor `factor`. */
  predicate Realises(p: Problematic, idx: int, z: Sizes, d1: seq<real>, d2: seq<real>,
                     factor: real, kind: Kind, fragmenting: bool, cuts: Cuts,
                     draws: seq<real>, show1: real -> string)
    requires fragmenting ==> CutsFit(z, cuts)
    requires TransDrawsFit(kind, draws)
  {
    && z.nP > 0
    && BaseOf(p, idx, z, d1, d2, PlantShare(Sum(d1) + Sum(d2), factor, z.nP), kind, fragmenting, cuts, draws, show1)
    && p.meta.totalDemand > 0.0 && p.meta.slack == factor
  }

  /** Metadata whose recorded slack factor is `factor` over a positive
      demand total, as in every realised variant, supplies `factor` times
      that demand. */
  lemma RealisedSupply(m: Meta, factor: real)
    requires m.totalDemand > 0.0 && m.slack == factor
    requires m.slack == SlackFactor(m.totalSupply, m.totalDemand)
    ensures m.totalSupply == factor * m.totalDemand
  {
    assert m.slack * m.totalDemand == m.totalSupply;
  }

  /** The shared tail of the six variants: given the demands, supply
      `sum(d1 + d2) * factor / nP` per plant, then `_crear_instancia_base`. */
  method Variant(idx: int, z: Sizes, d1: seq<real>, d2: seq<real>, factor: real,
                 kind: Kind, fragment: bool, cuts: Cuts, draws: seq<real>,
                 show1: real -> string) returns (p: Problematic)
    requires z.nP > 0
    requires |d1| == z.nC1 && |d2| == z.nC2 && Sum(d1) + Sum(d2) > 0.0
    requires Fragmenting(kind, fragment) ==> CutsFit(z, cuts)
    requires |draws| == ArcTotal(BaseTopology(z, Fragmenting(kind, fragment), cuts))
    requires TransDrawsFit(kind, draws)
    ensures Realises(p, idx, z, d1, d2, factor, kind, Fragmenting(kind, fragment), cuts, draws, show1)
  {
    p := CreateBase(idx, z, d1, d2, PlantShare(Sum(d1) + Sum(d2), factor, z.nP), kind, fragment, cuts, draws, show1);
    MetaBalance(p.meta, Sum(d1) + Sum(d2), factor, z.nP);
  }

  /** Metadata recording the per-plant share of `factor` times the demand
      has supply total `factor` times the demand total and slack `factor`. */
  lemma MetaBalance(m: Meta, total: real, factor: real, nP: nat)
    requires nP > 0 && total > 0.0
    requires m.totalDemand == total && m.totalSupply == Scale(nP, PlantShare(total, factor, nP))
    requires m.slack == SlackFactor(m.totalSupply, m.totalDemand)
    ensures m.totalSupply == factor * m.totalDemand && m.slack == factor
  {
    VariantBalance(total, factor, nP);
  }

  /** Every random variant realises its slack factor: nP plants at the
      share `total * factor / nP` supply `factor` times the total demand,
      and the recorded slack factor is `factor`. */
  lemma VariantBalance(total: real, factor: real, nP: nat)
    requires nP > 0 && total > 0.0
    ensures Scale(nP, PlantShare(total, factor, nP)) == factor * total
    ensures SlackFactor(Scale(nP, PlantShare(total, factor, nP)), total) == factor
  {
    ScaleIsProduct(nP, PlantShare(total, factor, nP));
    UniformSupplySlack(total, factor, nP);
  }

  lemma PositiveDemand(d1: seq<real>, d2: seq<real>, lo1: real, hi1: real, lo2: real, hi2: real)
    requires Within(d1, lo1, hi1) && Within(d2, lo2, hi2) && lo1 > 0.0 && lo2 > 0.0
    requires |d1| + |d2| > 0
    ensures Sum(d1) + Sum(d2) > 0.0
  {
    SumPositive(d1);
    SumPositive(d2);
  }

  /** A sum of positive terms is positive unless empty. */
  lemma {:induction false} SumPositive(s: seq<real>)
    requires forall i :: 0 <= i < |s| ==> s[i] > 0.0
    ensures Sum(s) >= 0.0
    ensures s != [] ==> Sum(s) > 0.0
  {
    if s != [] {
      SumPositive(s[..|s| - 1]);
    }
  }

  /** `generar_instancia_cuello_botella`: a single tank, high demands and
      80% supply. */
  method BottleneckVariant(idx: int, d1: seq<real>, d2: seq<real>, draws: seq<real>,
                           show1: real -> string) returns (p: Problematic)
    requires |d1| == 6 && Within(d1, 500.0, 800.0)
    requires |d2| == 10 && Within(d2, 600.0, 900.0)
    requires |draws| == CompleteArcCount(Sizes(4, 1, 6, 10))
    ensures Realises(p, idx, Sizes(4, 1, 6, 10), d1, d2, 0.8, Bottleneck, false, Cuts([], [], []), draws, show1)
    ensures forall k :: 0 <= k < 4 ==> (Node(Plant, k), Node(Tank, 0)) in p.inst.pt
    ensures forall k :: 0 <= k < 6 ==> (Node(Tank, 0), Node(Transfer, k)) in p.inst.tc1
    ensures forall i :: 0 <= i < |p.inst.pt| ==> p.inst.pt[i].1 == Node(Tank, 0)
    ensures forall i :: 0 <= i < |p.inst.tc1| ==> p.inst.tc1[i].0 == Node(Tank, 0)
  {
    var z := Sizes(4, 1, 6, 10);
    PositiveDemand(d1, d2, 500.0, 800.0, 600.0, 900.0);
    UnfragmentedArcCount(z, Cuts([], [], []));
    p := Variant(idx, z, d1, d2, 0.8, Bottleneck, false, Cuts([], [], []), draws, show1);
    SingleTank(p.inst);
    ThroughTheTank(z);
  }

  /** With one tank, every P->T arc ends in it and every T->C1 arc starts
      from it: all flow passes through that node. */
  lemma SingleTank(inst: Instance)
    requires WellFormed(inst) && inst.sizes.nT == 1
    ensures forall i :: 0 <= i < |inst.pt| ==> inst.pt[i].1 == Node(Tank, 0)
    ensures forall i :: 0 <= i < |inst.tc1| ==> inst.tc1[i].0 == Node(Tank, 0)
  {
  }

  /** With one tank, the complete layers link every plant to it and it to
      every C1 node. */
  lemma ThroughTheTank(z: Sizes)
    requires z.nT == 1
    ensures forall k :: 0 <= k < z.nP ==> (Node(Plant, k), Node(Tank, 0)) in CompletePt(z)
    ensures forall k :: 0 <= k < z.nC1 ==> (Node(Tank, 0), Node(Transfer, k)) in CompleteTc1(z)
  {
    forall k | 0 <= k < z.nP
      ensures (Node(Plant, k), Node(Tank, 0)) in CompletePt(z)
    {
      assert NodesOf(z, Plant)[k] == Node(Plant, k) && NodesOf(z, Tank)[0] == Node(Tank, 0);
      ProductMember(NodesOf(z, Plant), NodesOf(z, Tank), (Node(Plant, k), Node(Tank, 0)));
    }
    forall k | 0 <= k < z.nC1
      ensures (Node(Tank, 0), Node(Transfer, k)) in CompleteTc1(z)
    {
      assert NodesOf(z, Transfer)[k] == Node(Transfer, k) && NodesOf(z, Tank)[0] == Node(Tank, 0);
      ProductMember(NodesOf(z, Tank), NodesOf(z, Transfer), (Node(Tank, 0), Node(Transfer, k)));
    }
  }

  /** `generar_instancia_costos_prohibitivos`: every transport cost is at
      least 5000, supply 110% of demand. */
  method ProhibitiveCostsVariant(idx: int, d1: seq<real>, d2: seq<real>, draws: seq<real>,
                                 show1: real -> string) returns (p: Problematic)
    requires |d1| == 5 && Within(d1, 80.0, 150.0)
    requires |d2| == 7 && Within(d2, 100.0, 180.0)
    requires |draws| == CompleteArcCount(Sizes(3, 4, 5, 7))
    requires Within(draws, 5000.0, 20000.0)
    ensures Realises(p, idx, Sizes(3, 4, 5, 7), d1, d2, 1.1, Prohibitive, false, Cuts([], [], []), draws, show1)
    ensures TransCosts(p.inst) == draws && |Arcs(p.inst)| == 12 + 20 + 35
    ensures forall i :: 0 <= i < |TransCosts(p.inst)| ==> TransCosts(p.inst)[i] >= 5000.0
  {
    var z := Sizes(3, 4, 5, 7);
    PositiveDemand(d1, d2, 80.0, 150.0, 100.0, 180.0);
    UnfragmentedArcCount(z, Cuts([], [], []));
    p := Variant(idx, z, d1, d2, 1.1, Prohibitive, false, Cuts([], [], []), draws, show1);
  }

  /** `generar_instancia_topologia_imposible`: fragmented topology with
      three isolated C2 nodes, supply 120% of demand. */
  method ImpossibleTopologyVariant(idx: int, d1: seq<real>, d2: seq<real>, cuts: Cuts,
                                   draws: seq<real>, show1: real -> string) returns (p: Problematic)
    requires |d1| == 6 && Within(d1, 200.0, 400.0)
    requires |d2| == 8 && Within(d2, 300.0, 500.0)
    requires CutsFit(Sizes(3, 5, 6, 8), cuts)
    requires |draws| == ArcTotal(BaseTopology(Sizes(3, 5, 6, 8), true, cuts))
    ensures Realises(p, idx, Sizes(3, 5, 6, 8), d1, d2, 1.2, Isolation, true, cuts, draws, show1)
    ensures |cuts.isolated| == 3
    ensures forall i :: 0 <= i < 3 ==> InDegree(p.inst.c1c2, Node(Final, cuts.isolated[i])) == 0
    ensures forall k :: 0 <= k < 8 && k !in cuts.isolated ==> InDegree(p.inst.c1c2, Node(Final, k)) == 6
    ensures |p.inst.pt| == 5 && |p.inst.tc1| == 15
  {
    var z := Sizes(3, 5, 6, 8);
    PositiveDemand(d1, d2, 200.0, 400.0, 300.0, 500.0);
    IsolatedTopology(cuts);
    p := Variant(idx, z, d1, d2, 1.2, Isolation, true, cuts, draws, show1);
  }

  /** In the 3/5/6/8 network the fragmentation keeps 5 of the 15 P->T arcs
      and 15 of the 30 T->C1 arcs, and cuts off three C2 nodes. */
  lemma IsolatedTopology(cuts: Cuts)
    requires CutsFit(Sizes(3, 5, 6, 8), cuts)
    ensures var t := BaseTopology(Sizes(3, 5, 6, 8), true, cuts);
      && |cuts.isolated| == 3 && |t.pt| == 5 && |t.tc1| == 15
      && (forall i :: 0 <= i < 3 ==> InDegree(t.c1c2, Node(Final, cuts.isolated[i])) == 0)
      && forall k :: 0 <= k < 8 && k !in cuts.isolated ==> InDegree(t.c1c2, Node(Final, k)) == 6
  {
    FragmentOnlyRemoves(Sizes(3, 5, 6, 8), cuts);
    forall k | 0 <= k < 8 && k !in cuts.isolated
      ensures InDegree(BaseTopology(Sizes(3, 5, 6, 8), true, cuts).c1c2, Node(Final, k)) == 6
    {
      SurvivorKeepsInDegree(Sizes(3, 5, 6, 8), cuts, k);
    }
  }

  /** A C2 node that is not isolated keeps an arc from every C1 node. */
  lemma SurvivorKeepsInDegree(z: Sizes, cuts: Cuts, k: nat)
    requires CutsFit(z, cuts) && z.nC2 > 3 && k < z.nC2 && k !in cuts.isolated
    ensures InDegree(BaseTopology(z, true, cuts).c1c2, Node(Final, k)) == z.nC1
  {
    IsolateInDegree(CompleteC1c2(z), cuts.isolated, Node(Final, k));
    CompleteFinalInDegree(z, k);
  }

  /** `generar_instancia_complejidad_extrema`: 56 nodes, 585 arcs, supply
      only 0.1% above demand. */
  method ExtremeComplexityVariant(idx: int, d1: seq<real>, d2: seq<real>, draws: seq<real>,
                                  show1: real -> string) returns (p: Problematic)
    requires |d1| == 15 && Within(d1, 10.0, 500.0)
    requires |d2| == 25 && Within(d2, 20.0, 600.0)
    requires |draws| == CompleteArcCount(Sizes(6, 10, 15, 25))
    ensures Realises(p, idx, Sizes(6, 10, 15, 25), d1, d2, 1.001, Complexity, false, Cuts([], [], []), draws, show1)
    ensures p.meta.numArcs == 585 && p.meta.size == VeryLarge
  {
    var z := Sizes(6, 10, 15, 25);
    PositiveDemand(d1, d2, 10.0, 500.0, 20.0, 600.0);
    UnfragmentedArcCount(z, Cuts([], [], []));
    p := Variant(idx, z, d1, d2, 1.001, Complexity, false, Cuts([], [], []), draws, show1);
  }

  /** `generar_instancia_restricciones_conflictivas`: the drawn demands and
      the cheap uniform transport costs go into the instance unchanged,
      supply 105% of demand. */
  method ConflictingConstraintsVariant(idx: int, d1: seq<real>, d2: seq<real>, draws: seq<real>,
                                       show1: real -> string) returns (p: Problematic)
    requires |d1| == 4 && Within(d1, 800.0, 1200.0)
    requires |d2| == 6 && Within(d2, 50.0, 100.0)
    requires |draws| == CompleteArcCount(Sizes(2, 3, 4, 6))
    requires Within(draws, 1.0, 5.0)
    ensures Realises(p, idx, Sizes(2, 3, 4, 6), d1, d2, 1.05, Conflicting, false, Cuts([], [], []), draws, show1)
    ensures TransCosts(p.inst) == draws
  {
    var z := Sizes(2, 3, 4, 6);
    PositiveDemand(d1, d2, 800.0, 1200.0, 50.0, 100.0);
    UnfragmentedArcCount(z, Cuts([], [], []));
    p := Variant(idx, z, d1, d2, 1.05, Conflicting, false, Cuts([], [], []), draws, show1);
  }

  /** The conflict: every C1 demand drawn in [800, 1200] exceeds what a D2
      arc carries but fits a D3 arc, while every C2 demand drawn in
      [50, 100] fits a D2 arc. */
  lemma ConflictingDemands(d1: seq<real>, d2: seq<real>)
    requires Within(d1, 800.0, 1200.0) && Within(d2, 50.0, 100.0)
    ensures forall i :: 0 <= i < |d1| ==> MaxFlow(D2) as real < d1[i] < MaxFlow(D3) as real
    ensures forall i :: 0 <= i < |d2| ==> d2[i] < MaxFlow(D2) as real
  {
  }

  // ---------------------------------------------------------------------
  // Serialisation

  /** The comment header: problem type, reason and the balance figures.
      `showMeta` renders a metadata figure as Python's `str` does (a
      rounded float such as "0.8", or "0" for the integer slack of a
      zero demand), which differs from the arrays' `validar_numero`. */
  function CommentBlock(m: Meta, showMeta: real -> string): seq<string>
  {
    [ "% Instancia problemática tipo: " + m.kind,
      "% Razón: " + m.reason,
      "% Demanda total: " + showMeta(m.totalDemand),
      "% Suministro total: " + showMeta(m.totalSupply),
      "% Factor holgura: " + showMeta(m.slack),
      "" ]
  }

  /** The lines of the `.dzn` file `guardar_dzn` writes: the header with
      its figures rendered by `showMeta` (`str`), then the parameter
      section with its numbers rendered by `show` (`validar_numero`). */
  function DznLines(p: Problematic, a: Arrays, showMeta: real -> string, show: real -> string): (r: seq<string>)
    ensures |r| == 25 + |a.install|
    ensures r[..6] == CommentBlock(p.meta, showMeta)
    ensures r[6..] == ParamLines(p.inst.sizes, a, show)
  {
    CommentBlock(p.meta, showMeta) + ParamLines(p.inst.sizes, a, show)
  }

  /** `guardar_dzn`: the metadata comments, then the parameter section. */
  method SaveDzn(p: Problematic, showMeta: real -> string, show: real -> string) returns (text: string)
    requires WellFormed(p.inst)
    ensures text == Unlines(DznLines(p, ArraysOf(p.inst), showMeta, show))
  {
    var lines := CommentBlock(p.meta, showMeta);
    var params := WriteParams(p.inst, show);
    lines := lines + params;
    text := Unlines(lines);
  }

  /** For every generated instance the written arrays are parallel: nA
      entries in `arc_from`, `arc_to`, `trans_cost` and nA rows of nD = 3
      installation costs; `trans_cost` is the sampled cost list; supply and
      demand cover all N nodes and sum to the metadata totals. */
  lemma GeneratedArrays(p: Problematic, kind: Kind, draws: seq<real>)
    requires WellFormed(p.inst)
    requires p.meta.numArcs == |Arcs(p.inst)| == |draws| && TransDrawsFit(kind, draws)
    requires TransCosts(p.inst) == TransFor(kind, draws)
    requires p.meta.totalSupply == Sum(p.inst.supply)
    requires p.meta.totalDemand == Sum(p.inst.d1) + Sum(p.inst.d2)
    ensures var a := ArraysOf(p.inst);
      && |a.arcFrom| == |a.arcTo| == |a.trans| == |a.install| == p.meta.numArcs
      && (forall i :: 0 <= i < |a.install| ==> |a.install[i]| == |Diameters|)
      && a.trans == TransFor(kind, draws)
      && |a.supply| == |a.demand| == a.n == Total(p.inst.sizes)
      && Sum(a.supply) == p.meta.totalSupply
      && Sum(a.demand) == p.meta.totalDemand
  {
    SupplyArraySum(p.inst.sizes, p.inst.supply);
    DemandArrayProperties(p.inst.sizes, p.inst.d1, p.inst.d2);
  }
}
