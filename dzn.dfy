/** The parts of `guardar_dzn` that tools/generador_infactible.py,
    tools/generador_penaliza.py and tools/generador.py share: the node-index
    counter loop, the `arc_from`/`arc_to` projections, the per-node supply and
    demand arrays filled in place, the installation-cost rows that alternate
    type A / type B by arc position, and the transport-cost list read from
    the cost dictionaries.  Each loop is proved against a specification
    function over the instance, and the arrays' properties are proved about
    those functions. */
module Dzn {
  import opened Network
  import opened Text

  /** The diameter catalog `['D2', 'D3', 'D5']`. */
  datatype Diameter = D2 | D3 | D5

  const Diameters: seq<Diameter> := [D2, D3, D5]

  function NominalMm(d: Diameter): nat
  {
    match d
    case D2 => 75
    case D3 => 100
    case D5 => 150
  }

  /** `diametro_specs[d]['max_flujo']`. */
  function MaxFlow(d: Diameter): nat
  {
    match d
    case D2 => 795
    case D3 => 1414
    case D5 => 3181
  }

  datatype CostType = TypeA | TypeB

  /** `costos_instalacion[tipo][d]`. */
  function InstallCost(t: CostType, d: Diameter): nat
  {
    match (t, d)
    case (TypeA, D2) => 20
    case (TypeA, D3) => 24
    case (TypeA, D5) => 32
    case (TypeB, D2) => 50
    case (TypeB, D3) => 62
    case (TypeB, D5) => 78
  }

  /** `[costos_instalacion[tipo][d] for d in diametros]`. */
  function CostRow(t: CostType): (r: seq<nat>)
    ensures |r| == |Diameters|
  {
    seq(|Diameters|, i requires 0 <= i < |Diameters| => InstallCost(t, Diameters[i]))
  }

  /** `[diametro_specs[d]['max_flujo'] for d in diametros]`. */
  function MaxCapacity(): seq<nat>
  {
    seq(|Diameters|, i requires 0 <= i < |Diameters| => MaxFlow(Diameters[i]))
  }

  /** The type of the row for arc position `i`: A on even, B on odd positions. */
  function TypeAt(i: nat): CostType
  {
    if i % 2 == 0 then TypeA else TypeB
  }

  /** The installation-cost table of `n` arcs. */
  function AlternatingRows(n: nat): seq<seq<nat>>
  {
    seq(n, i requires 0 <= i < n => CostRow(TypeAt(i)))
  }

  /** The table has one row of nD = 3 entries per arc; row i is the type A
      costs [20, 24, 32] on even i and the type B costs [50, 62, 78] on odd
      i, and neighbouring rows always differ. */
  lemma AlternatingRowsShape(n: nat)
    ensures |AlternatingRows(n)| == n
    ensures forall i :: 0 <= i < n ==> |AlternatingRows(n)[i]| == 3
    ensures forall i :: 0 <= i < n ==>
      AlternatingRows(n)[i] == (if i % 2 == 0 then [20, 24, 32] else [50, 62, 78])
    ensures forall i :: 0 <= i < n - 1 ==> AlternatingRows(n)[i] != AlternatingRows(n)[i + 1]
  {
    assert CostRow(TypeA) == [20, 24, 32];
    assert CostRow(TypeB) == [50, 62, 78];
    forall i | 0 <= i < n - 1
      ensures AlternatingRows(n)[i] != AlternatingRows(n)[i + 1]
    {
      assert AlternatingRows(n)[i][0] != AlternatingRows(n)[i + 1][0];
    }
  }

  /** The loop `for i in range(len(arcos)): install_costs.append(...)`. */
  method InstallRows(nA: nat) returns (rows: seq<seq<nat>>)
    ensures rows == AlternatingRows(nA)
  {
    rows := [];
    for i := 0 to nA
      invariant rows == AlternatingRows(i)
    {
      rows := rows + [CostRow(if i % 2 == 0 then TypeA else TypeB)];
    }
  }

  // ---------------------------------------------------------------------
  // Node indices

  /** `node_idx` maps exactly the valid nodes, each to its global index. */
  ghost predicate IsNodeIndex(z: Sizes, nodeIdx: map<Node, nat>)
  {
    && (forall v :: v in nodeIdx <==> Valid(z, v))
    && (forall v :: v in nodeIdx ==> nodeIdx[v] == Index(z, v))
  }

  /** The counter loop over the groups P, T, C1, C2 that builds `node_idx`;
      `counter` ends one past the last index, so N = counter - 1. */
  method BuildNodeIndex(z: Sizes) returns (nodeIdx: map<Node, nat>, counter: nat)
    ensures IsNodeIndex(z, nodeIdx)
    ensures counter == Total(z) + 1
  {
    nodeIdx := map[];
    counter := 1;
    for g := 0 to |Layers|
      invariant counter == Before(z, g) + 1
      invariant forall v :: v in nodeIdx <==> Valid(z, v) && Rank(v.layer) < g
      invariant forall v :: v in nodeIdx ==> nodeIdx[v] == Index(z, v)
    {
      var grupo := Layers[g];
      var nodos := NodesOf(z, grupo);
      for j := 0 to |nodos|
        invariant counter == Before(z, g) + j + 1
        invariant forall v :: v in nodeIdx <==>
          Valid(z, v) && (Rank(v.layer) < g || (v.layer == grupo && v.k < j))
        invariant forall v :: v in nodeIdx ==> nodeIdx[v] == Index(z, v)
      {
        nodeIdx := nodeIdx[nodos[j] := counter];
        counter := counter + 1;
      }
      assert Before(z, g) + |nodos| == Before(z, g + 1);
    }
  }

  // ---------------------------------------------------------------------
  // Arc projections

  predicate EndsValid(z: Sizes, arcs: seq<Arc>)
  {
    forall i :: 0 <= i < |arcs| ==> Valid(z, arcs[i].0) && Valid(z, arcs[i].1)
  }

  /** `[node_idx[a] for (a, b) in arcos]`. */
  function ArcFrom(z: Sizes, arcs: seq<Arc>): (r: seq<nat>)
    requires EndsValid(z, arcs)
    ensures |r| == |arcs|
  {
    seq(|arcs|, i requires 0 <= i < |arcs| && EndsValid(z, arcs) => Index(z, arcs[i].0))
  }

  /** `[node_idx[b] for (a, b) in arcos]`. */
  function ArcTo(z: Sizes, arcs: seq<Arc>): (r: seq<nat>)
    requires EndsValid(z, arcs)
    ensures |r| == |arcs|
  {
    seq(|arcs|, i requires 0 <= i < |arcs| && EndsValid(z, arcs) => Index(z, arcs[i].1))
  }

  /** Decoding the emitted indices gives back the arcs: every entry of
      `arc_from`/`arc_to` lies in 1..N and names the arc's own end node. */
  lemma ArcEndsRoundTrip(z: Sizes, arcs: seq<Arc>, i: nat)
    requires EndsValid(z, arcs) && i < |arcs|
    ensures 1 <= ArcFrom(z, arcs)[i] <= Total(z) && 1 <= ArcTo(z, arcs)[i] <= Total(z)
    ensures Decode(z, ArcFrom(z, arcs)[i]) == arcs[i].0
    ensures Decode(z, ArcTo(z, arcs)[i]) == arcs[i].1
  {
    DecodeIndex(z, arcs[i].0);
    DecodeIndex(z, arcs[i].1);
  }

  lemma WellFormedEnds(inst: Instance)
    requires WellFormed(inst)
    ensures EndsValid(inst.sizes, Arcs(inst))
  {
    forall i | 0 <= i < |Arcs(inst)|
      ensures Valid(inst.sizes, Arcs(inst)[i].0) && Valid(inst.sizes, Arcs(inst)[i].1)
    {
      ArcsGoForward(inst, i);
    }
  }

  /** In a well-formed instance `arc_from[i] < arc_to[i]` for every arc. */
  lemma ArcIndicesIncrease(inst: Instance, i: nat)
    requires WellFormed(inst) && i < |Arcs(inst)|
    ensures EndsValid(inst.sizes, Arcs(inst))
    ensures ArcFrom(inst.sizes, Arcs(inst))[i] < ArcTo(inst.sizes, Arcs(inst))[i]
  {
    WellFormedEnds(inst);
    ArcsGoForward(inst, i);
  }

  /** `list(c_pt.values()) + list(c_tc1.values()) + list(c_c1c2.values())`. */
  function TransCosts(inst: Instance): seq<real>
  {
    Values(inst.cPt) + Values(inst.cTc1) + Values(inst.cC1c2)
  }

  /** `build_dict(conns, offs)`: arc i of `conns` keyed to `trans[i + offs]`. */
  function BuildDict(conns: seq<Arc>, trans: seq<real>, offs: nat): Dict<Arc, real>
    requires offs + |conns| <= |trans|
  {
    FromPairs(conns, trans[offs..offs + |conns|])
  }

  lemma BuildDictValues(conns: seq<Arc>, trans: seq<real>, offs: nat)
    requires offs + |conns| <= |trans| && NoDup(conns)
    ensures Values(BuildDict(conns, trans, offs)) == trans[offs..offs + |conns|]
  {
    FromDistinctPairs(conns, trans[offs..offs + |conns|]);
  }

  /** When the three arc lists are each free of repeats and the dictionaries
      are built with offsets 0, |pt| and |pt| + |tc1|, the serialized
      transport-cost list is the sampled list itself, in order, one entry per
      arc. */
  lemma TransCostsAreSampled(inst: Instance, trans: seq<real>)
    requires |trans| == |Arcs(inst)|
    requires NoDup(inst.pt) && NoDup(inst.tc1) && NoDup(inst.c1c2)
    requires inst.cPt == BuildDict(inst.pt, trans, 0)
    requires inst.cTc1 == BuildDict(inst.tc1, trans, |inst.pt|)
    requires inst.cC1c2 == BuildDict(inst.c1c2, trans, |inst.pt| + |inst.tc1|)
    ensures TransCosts(inst) == trans
    ensures |TransCosts(inst)| == |Arcs(inst)|
  {
    var a := |inst.pt|;
    var b := a + |inst.tc1|;
    BuildDictValues(inst.pt, trans, 0);
    BuildDictValues(inst.tc1, trans, a);
    BuildDictValues(inst.c1c2, trans, b);
    assert b + |inst.c1c2| == |trans|;
    assert TransCosts(inst) == trans[0..a] + trans[a..b] + trans[b..|trans|];
    ThreeSlices(trans, a, b);
  }

  lemma ThreeSlices(s: seq<real>, a: nat, b: nat)
    requires a <= b <= |s|
    ensures s[0..a] + s[a..b] + s[b..|s|] == s
  {
    assert s[0..a] + s[a..b] == s[0..b];
  }

  /** The three arc lists `conexiones` of a generated instance. */
  datatype Topology = Topology(pt: seq<Arc>, tc1: seq<Arc>, c1c2: seq<Arc>)

  function ArcTotal(t: Topology): nat
  {
    |t.pt| + |t.tc1| + |t.c1c2|
  }

  /** The instance dictionary the tools/ generators build from their arc
      lists: the same supply `sup` for every plant, the demands, and the
      three cost dictionaries keyed by arc over one shared list of transport
      costs (`build_dict` with offsets 0, |pt| and |pt| + |tc1|). */
  function BaseInstance(z: Sizes, t: Topology, trans: seq<real>, sup: real,
                        d1: seq<real>, d2: seq<real>): (inst: Instance)
    requires |d1| == z.nC1 && |d2| == z.nC2
    requires LayerArcs(z, t.pt, Plant, Tank) && LayerArcs(z, t.tc1, Tank, Transfer)
    requires LayerArcs(z, t.c1c2, Transfer, Final)
    requires NoDup(t.pt) && NoDup(t.tc1) && NoDup(t.c1c2)
    requires |trans| == ArcTotal(t)
    ensures WellFormed(inst)
    ensures inst.sizes == z && inst.d1 == d1 && inst.d2 == d2
    ensures inst.pt == t.pt && inst.tc1 == t.tc1 && inst.c1c2 == t.c1c2
    ensures inst.supply == Repeat(sup, z.nP)
    ensures TransCosts(inst) == trans
  {
    var inst := Instance(z, t.pt, t.tc1, t.c1c2, Repeat(sup, z.nP), d1, d2,
                         BuildDict(t.pt, trans, 0),
                         BuildDict(t.tc1, trans, |t.pt|),
                         BuildDict(t.c1c2, trans, |t.pt| + |t.tc1|));
    TransCostsAreSampled(inst, trans);
    inst
  }

  // ---------------------------------------------------------------------
  // Supply and demand arrays

  /** `supply`: the plant supplies at positions 0..nP-1, zero elsewhere. */
  function SupplyArray(z: Sizes, supply: seq<real>): (r: seq<real>)
    requires |supply| == z.nP
    ensures |r| == Total(z)
  {
    seq(Total(z), i requires 0 <= i < Total(z) => if i < z.nP then supply[i] else 0.0)
  }

  /** `demand`: zero on plants and tanks, then the C1 demands, then the C2
      demands. */
  function DemandArray(z: Sizes, d1: seq<real>, d2: seq<real>): (r: seq<real>)
    requires |d1| == z.nC1 && |d2| == z.nC2
    ensures |r| == Total(z)
  {
    seq(Total(z), i requires 0 <= i < Total(z) =>
      if i < z.nP + z.nT then 0.0
      else if i < z.nP + z.nT + z.nC1 then d1[i - z.nP - z.nT]
      else d2[i - z.nP - z.nT - z.nC1])
  }

  /** The supply array holds exactly the plant supplies, each at its plant's
      index, and its sum is the total supply. */
  lemma SupplyArrayProperties(z: Sizes, supply: seq<real>)
    requires |supply| == z.nP
    ensures forall k :: 0 <= k < z.nP ==> SupplyArray(z, supply)[Index(z, Node(Plant, k)) - 1] == supply[k]
    ensures forall i :: z.nP <= i < Total(z) ==> SupplyArray(z, supply)[i] == 0.0
    ensures Sum(SupplyArray(z, supply)) == Sum(supply)
  {
    var r := SupplyArray(z, supply);
    forall k | 0 <= k < z.nP
      ensures r[Index(z, Node(Plant, k)) - 1] == supply[k]
    {
      assert Index(z, Node(Plant, k)) - 1 == k;
    }
    SupplyArraySum(z, supply);
  }

  lemma SupplyArraySum(z: Sizes, supply: seq<real>)
    requires |supply| == z.nP
    ensures Sum(SupplyArray(z, supply)) == Sum(supply)
  {
    var zs := Zeros(Total(z) - z.nP);
    assert SupplyArray(z, supply) == supply + zs;
    SumConcat(supply, zs);
    SumZeros(Total(z) - z.nP);
  }

  /** The demand array holds each C1/C2 demand at that node's index, zero on
      plant and tank indices, and its sum is the total demand. */
  lemma DemandArrayProperties(z: Sizes, d1: seq<real>, d2: seq<real>)
    requires |d1| == z.nC1 && |d2| == z.nC2
    ensures forall i :: 0 <= i < z.nP + z.nT ==> DemandArray(z, d1, d2)[i] == 0.0
    ensures forall k :: 0 <= k < z.nC1 ==> DemandArray(z, d1, d2)[Index(z, Node(Transfer, k)) - 1] == d1[k]
    ensures forall k :: 0 <= k < z.nC2 ==> DemandArray(z, d1, d2)[Index(z, Node(Final, k)) - 1] == d2[k]
    ensures Sum(DemandArray(z, d1, d2)) == Sum(d1) + Sum(d2)
  {
    DemandArrayAtNodes(z, d1, d2);
    DemandArraySum(z, d1, d2);
  }

  lemma DemandArrayAtNodes(z: Sizes, d1: seq<real>, d2: seq<real>)
    requires |d1| == z.nC1 && |d2| == z.nC2
    ensures forall k :: 0 <= k < z.nC1 ==> DemandArray(z, d1, d2)[Index(z, Node(Transfer, k)) - 1] == d1[k]
    ensures forall k :: 0 <= k < z.nC2 ==> DemandArray(z, d1, d2)[Index(z, Node(Final, k)) - 1] == d2[k]
  {
    var r := DemandArray(z, d1, d2);
    forall k | 0 <= k < z.nC1
      ensures r[Index(z, Node(Transfer, k)) - 1] == d1[k]
    {
      assert Index(z, Node(Transfer, k)) - 1 == z.nP + z.nT + k;
    }
    forall k | 0 <= k < z.nC2
      ensures r[Index(z, Node(Final, k)) - 1] == d2[k]
    {
      assert Index(z, Node(Final, k)) - 1 == z.nP + z.nT + z.nC1 + k;
    }
  }

  /** The demand array is the zeros of the plants and tanks followed by `d1`
      and `d2`, so its sum is theirs. */
  lemma DemandArraySum(z: Sizes, d1: seq<real>, d2: seq<real>)
    requires |d1| == z.nC1 && |d2| == z.nC2
    ensures Sum(DemandArray(z, d1, d2)) == Sum(d1) + Sum(d2)
  {
    var r := DemandArray(z, d1, d2);
    var zs := Zeros(z.nP + z.nT);
    var cat := zs + d1 + d2;
    assert |cat| == |r|;
    forall i | 0 <= i < |r|
      ensures r[i] == cat[i]
    {
      if i < z.nP + z.nT {
      } else if i < z.nP + z.nT + z.nC1 {
        assert cat[i] == d1[i - z.nP - z.nT];
      } else {
        assert cat[i] == d2[i - z.nP - z.nT - z.nC1];
      }
    }
    assert r == cat;
    SumConcat(zs + d1, d2);
    SumConcat(zs, d1);
    SumZeros(z.nP + z.nT);
  }

  /** The loop `for nodo in nodos['P']: supply[node_idx[nodo] - 1] = ...`. */
  method FillSupply(z: Sizes, nodeIdx: map<Node, nat>, suministro: seq<real>) returns (supply: seq<real>)
    requires IsNodeIndex(z, nodeIdx) && |suministro| == z.nP
    ensures supply == SupplyArray(z, suministro)
  {
    supply := Zeros(Total(z));
    var plants := NodesOf(z, Plant);
    for j := 0 to |plants|
      invariant |supply| == Total(z)
      invariant forall i :: 0 <= i < Total(z) ==> supply[i] == if i < j then suministro[i] else 0.0
    {
      var nodo := plants[j];
      supply := supply[nodeIdx[nodo] - 1 := suministro[nodo.k]];
    }
  }

  /** The two loops over `d1.items()` and `d2.items()` that write
      `demand[node_idx[nodo] - 1]`. */
  method FillDemand(z: Sizes, nodeIdx: map<Node, nat>, d1: seq<real>, d2: seq<real>) returns (demand: seq<real>)
    requires IsNodeIndex(z, nodeIdx) && |d1| == z.nC1 && |d2| == z.nC2
    ensures demand == DemandArray(z, d1, d2)
  {
    var base := z.nP + z.nT;
    demand := Zeros(Total(z));
    var c1 := NodesOf(z, Transfer);
    for j := 0 to |c1|
      invariant |demand| == Total(z)
      invariant forall i :: 0 <= i < Total(z) ==>
        demand[i] == if base <= i < base + j then d1[i - base] else 0.0
    {
      demand := demand[nodeIdx[c1[j]] - 1 := d1[j]];
    }
    var c2 := NodesOf(z, Final);
    for j := 0 to |c2|
      invariant |demand| == Total(z)
      invariant forall i :: 0 <= i < Total(z) ==>
        demand[i] == if base <= i < base + z.nC1 then d1[i - base]
                     else if base + z.nC1 <= i < base + z.nC1 + j then d2[i - base - z.nC1]
                     else 0.0
    {
      demand := demand[nodeIdx[c2[j]] - 1 := d2[j]];
    }
  }

  /** The arrays `guardar_dzn` computes before writing: the index map, the
      arc projections, the transport costs, supply, demand and the
      installation-cost rows. */
  datatype Arrays = Arrays(
    n: nat, arcFrom: seq<nat>, arcTo: seq<nat>, trans: seq<real>,
    supply: seq<real>, demand: seq<real>, install: seq<seq<nat>>)

  function ArraysOf(inst: Instance): (r: Arrays)
    requires WellFormed(inst)
  {
    WellFormedEnds(inst);
    var z := inst.sizes;
    Arrays(Total(z), ArcFrom(z, Arcs(inst)), ArcTo(z, Arcs(inst)), TransCosts(inst),
           SupplyArray(z, inst.supply), DemandArray(z, inst.d1, inst.d2),
           AlternatingRows(|Arcs(inst)|))
  }

  /** The array-building part of `guardar_dzn`, loops included. */
  method ComputeArrays(inst: Instance) returns (r: Arrays)
    requires WellFormed(inst)
    ensures r == ArraysOf(inst)
  {
    var z := inst.sizes;
    var nodeIdx, contador := BuildNodeIndex(z);
    var arcos := Arcs(inst);
    WellFormedEnds(inst);
    var arcFrom := seq(|arcos|, i requires 0 <= i < |arcos| => nodeIdx[arcos[i].0]);
    var arcTo := seq(|arcos|, i requires 0 <= i < |arcos| => nodeIdx[arcos[i].1]);
    var transCosts := Values(inst.cPt) + Values(inst.cTc1) + Values(inst.cC1c2);
    var n := contador - 1;
    var supply := FillSupply(z, nodeIdx, inst.supply);
    var demand := FillDemand(z, nodeIdx, inst.d1, inst.d2);
    var install := InstallRows(|arcos|);
    r := Arrays(n, arcFrom, arcTo, transCosts, supply, demand, install);
  }

  /** The rows of the `install_cost` block: each row indented by two spaces,
      all rows but the last followed by a comma. */
  function RowText(row: seq<nat>): string
  {
    "  " + Join(NatStrs(row), ", ")
  }

  function InstallBlockLines(rows: seq<seq<nat>>): (r: seq<string>)
    ensures |r| == |rows|
  {
    seq(|rows|, i requires 0 <= i < |rows| =>
      RowText(rows[i]) + (if i < |rows| - 1 then "," else ""))
  }

  /** The loop writing `"  " + row` then `",\n"`, or `"\n"` after the last row. */
  method WriteInstallRows(rows: seq<seq<nat>>) returns (lines: seq<string>)
    ensures lines == InstallBlockLines(rows)
  {
    lines := [];
    for i := 0 to |rows|
      invariant |lines| == i
      invariant forall j :: 0 <= j < i ==> lines[j] == InstallBlockLines(rows)[j]
    {
      var line := RowText(rows[i]);
      if i < |rows| - 1 {
        line := line + ",";
      }
      lines := lines + [line];
    }
  }

  function RowTexts(rows: seq<seq<nat>>): (r: seq<string>)
    ensures |r| == |rows| && forall i :: 0 <= i < |rows| ==> r[i] == RowText(rows[i])
  {
    seq(|rows|, i requires 0 <= i < |rows| => RowText(rows[i]))
  }

  /** Written out, the rows are separated by ",\n" and the last one is ended
      by a bare newline: no separator follows the last row. */
  lemma {:induction false} InstallBlockText(rows: seq<seq<nat>>)
    requires rows != []
    ensures Unlines(InstallBlockLines(rows)) == Join(RowTexts(rows), ",\n") + "\n"
    decreases |rows|
  {
    var ls := InstallBlockLines(rows);
    if |rows| == 1 {
      assert ls[0] == RowText(rows[0]) + "";
      assert RowText(rows[0]) + "" == RowText(rows[0]);
      assert Unlines(ls) == ls[0] + "\n" + Unlines(ls[1..]);
      assert ls[1..] == [];
    } else {
      assert ls[1..] == InstallBlockLines(rows[1..]);
      assert RowTexts(rows)[1..] == RowTexts(rows[1..]);
      InstallBlockText(rows[1..]);
      assert Unlines(ls) == ls[0] + "\n" + Unlines(ls[1..]);
      assert ls[0] == RowText(rows[0]) + ",";
    }
  }

  // ---------------------------------------------------------------------
  // Text layout of the parameter section

  /** Numbers rendered with a formatter (`validar_numero`, `f"{x:.2f}"`). */
  function Shown(xs: seq<real>, show: real -> string): (r: seq<string>)
    ensures |r| == |xs|
  {
    seq(|xs|, i requires 0 <= i < |xs| => show(xs[i]))
  }

  /** The scalar sizes, with nD = 3 diameters. */
  function SizeBlock(z: Sizes, nA: nat): seq<string>
  {
    [ "nP = " + NatStr(z.nP) + ";",
      "nT = " + NatStr(z.nT) + ";",
      "nC1 = " + NatStr(z.nC1) + ";",
      "nC2 = " + NatStr(z.nC2) + ";",
      "nA = " + NatStr(nA) + ";",
      "nD = " + NatStr(|Diameters|) + ";",
      "" ]
  }

  function ArcBlock(a: Arrays): seq<string>
  {
    [ "arc_from = " + NatList(a.arcFrom) + ";",
      "arc_to = " + NatList(a.arcTo) + ";",
      "" ]
  }

  function BalanceBlock(a: Arrays, show: real -> string): seq<string>
  {
    [ "supply = " + Bracket(Shown(a.supply, show)) + ";",
      "demand = " + Bracket(Shown(a.demand, show)) + ";",
      "",
      "max_capacity = " + NatList(MaxCapacity()) + ";",
      "" ]
  }

  function InstallBlock(a: Arrays): seq<string>
  {
    ["install_cost = array2d(1..nA, 1..nD, ["] + InstallBlockLines(a.install) + ["]);", ""]
  }

  function TransLine(a: Arrays, show: real -> string): string
  {
    "trans_cost = " + Bracket(Shown(a.trans, show)) + ";"
  }

  /** The parameter section of the `.dzn` files of
      tools/generador_infactible.py and tools/generador_penaliza.py: sizes,
      arc ends, supply and demand, capacities, the installation table and the
      transport costs, in that order. */
  function ParamLines(z: Sizes, a: Arrays, show: real -> string): (r: seq<string>)
    ensures |r| == 19 + |a.install|
    ensures r[..7] == SizeBlock(z, |a.arcFrom|)
    ensures r[7] == "arc_from = " + NatList(a.arcFrom) + ";"
    ensures r[8] == "arc_to = " + NatList(a.arcTo) + ";"
    ensures r[10] == "supply = " + Bracket(Shown(a.supply, show)) + ";"
    ensures r[11] == "demand = " + Bracket(Shown(a.demand, show)) + ";"
    ensures r[|r| - 1] == TransLine(a, show)
  {
    SizeBlock(z, |a.arcFrom|) + ArcBlock(a) + BalanceBlock(a, show) + InstallBlock(a) + [TransLine(a, show)]
  }

  /** The writes of the parameter section, the installation rows by their
      loop. */
  method WriteParams(inst: Instance, show: real -> string) returns (lines: seq<string>)
    requires WellFormed(inst)
    ensures lines == ParamLines(inst.sizes, ArraysOf(inst), show)
  {
    var a := ComputeArrays(inst);
    lines := SizeBlock(inst.sizes, |a.arcFrom|);
    lines := lines + ArcBlock(a);
    lines := lines + BalanceBlock(a, show);
    var rows := WriteInstallRows(a.install);
    lines := lines + (["install_cost = array2d(1..nA, 1..nD, ["] + rows + ["]);", ""]);
    lines := lines + [TransLine(a, show)];
  }

  /** The `arc_from` and `arc_to` lines read back as the indices of the arcs'
      end nodes. */
  lemma ArcLinesReadBack(z: Sizes, a: Arrays, show: real -> string)
    ensures var r := ParamLines(z, a, show);
      && ParseNatList(r[7][11..|r[7]| - 1]) == Some(a.arcFrom)
      && ParseNatList(r[8][9..|r[8]| - 1]) == Some(a.arcTo)
  {
    var r := ParamLines(z, a, show);
    assert r[7][11..|r[7]| - 1] == NatList(a.arcFrom);
    assert r[8][9..|r[8]| - 1] == NatList(a.arcTo);
    NatListRoundTrip(a.arcFrom);
    NatListRoundTrip(a.arcTo);
  }
}
