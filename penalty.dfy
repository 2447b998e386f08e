/** tools/generador_penaliza.py: instances built to be under-supplied on
    purpose, so that a model with penalties for unmet demand has something
    to penalise.  The sizes are fixed at (2, 5, 5, 8), the topology is
    complete, every plant supplies 80% of the total demand divided by nP, and
    the transport costs are normal draws floored at 1.0.  `guardar_dzn`
    writes the shared parameter section without comments, and
    `generar_reporte_instancia` writes the balance figures and the per-layer
    connection counts. */
module Penalty {
  import opened Network
  import opened Text
  import opened Dzn

  /** `nP, nT, nC1, nC2 = 2, 5, 5, 8`. */
  const PenaltySizes: Sizes := Sizes(2, 5, 5, 8)

  /** The varying part of `metadata` (`tamaño` is always 'pequeña' and
      `grupo` 5); `factor_holgura` is derived from it by `Slack`. */
  datatype PenaltyMeta = PenaltyMeta(
    number: int, totalDemand: real, totalSupply: real, numArcs: nat)

  /** `factor_holgura`: supply over demand. */
  function Slack(m: PenaltyMeta): real
    requires m.totalDemand != 0.0
  {
    m.totalSupply / m.totalDemand
  }

  datatype Penalized = Penalized(meta: PenaltyMeta, inst: Instance)

  /** `random.uniform(60, 80)` draws. */
  predicate DemandDraws(ds: seq<real>)
  {
    forall i :: 0 <= i < |ds| ==> 60.0 <= ds[i] <= 80.0
  }

  function CompleteLayers(z: Sizes): Topology
  {
    Topology(CompletePt(z), CompleteTc1(z), CompleteC1c2(z))
  }

  /** The `metadata` figures for total demand `total`: the supply total is
      `nP * ((total * 0.8) / nP)`, that is 80% of the demand. */
  function PenaltyMetadata(idx: int, total: real): (m: PenaltyMeta)
    ensures m.number == idx && m.totalDemand == total && m.numArcs == 75
    ensures m.totalSupply == 0.8 * total
  {
    var sup := (total * 0.8) / 2.0;
    PenaltyMeta(idx, total, sup * 2.0, 75)
  }

  /** `generar_instancia_penaliza(idx)`; `d1`, `d2` are the uniform demand
      draws and `normals` the 75 transport-cost draws.  The metadata agrees
      with the instance: its supply total is the sum of the plant supplies
      and its arc count the number of arcs. */
  function GeneratePenalty(idx: int, d1: seq<real>, d2: seq<real>, normals: seq<real>): (p: Penalized)
    requires |d1| == 5 && |d2| == 8 && DemandDraws(d1) && DemandDraws(d2)
    requires |normals| == 75
    ensures p.inst == PenaltyInstance(d1, d2, normals)
    ensures p.meta.totalDemand == Sum(d1) + Sum(d2)
    ensures p.meta == PenaltyMetadata(idx, p.meta.totalDemand)
    ensures p.meta.totalSupply == Sum(p.inst.supply)
    ensures |Arcs(p.inst)| == p.meta.numArcs
  {
    var total := Sum(d1) + Sum(d2);
    SumRepeat((total * 0.8) / 2.0, 2);
    Penalized(PenaltyMetadata(idx, total), PenaltyInstance(d1, d2, normals))
  }

  /** The instance part of `generar_instancia_penaliza`: the complete
      topology of (2, 5, 5, 8), both plants supplying `(total * 0.8) / 2`. */
  function PenaltyInstance(d1: seq<real>, d2: seq<real>, normals: seq<real>): (inst: Instance)
    requires |d1| == 5 && |d2| == 8 && |normals| == 75
    ensures inst.sizes == PenaltySizes && WellFormed(inst)
    ensures inst.pt == CompletePt(PenaltySizes) && inst.tc1 == CompleteTc1(PenaltySizes)
    ensures inst.c1c2 == CompleteC1c2(PenaltySizes)
    ensures inst.d1 == d1 && inst.d2 == d2 && |Arcs(inst)| == 75
    ensures TransCosts(inst) == FloorAll(normals, 1.0)
    ensures inst.supply == Repeat(((Sum(d1) + Sum(d2)) * 0.8) / 2.0, 2)
  {
    var z := PenaltySizes;
    CompleteTopology(z);
    PenaltyLayerCounts();
    assert ArcTotal(CompleteLayers(z)) == 75;
    BaseInstance(z, CompleteLayers(z), FloorAll(normals, 1.0), ((Sum(d1) + Sum(d2)) * 0.8) / 2.0, d1, d2)
  }

  /** The penalty instance is under-supplied by design: total supply is 80%
      of total demand, so `factor_holgura` is 0.8 < 1, while the demand
      itself lies between 13 * 60 and 13 * 80. */
  lemma PenaltyBalance(idx: int, d1: seq<real>, d2: seq<real>, normals: seq<real>)
    requires |d1| == 5 && |d2| == 8 && DemandDraws(d1) && DemandDraws(d2)
    requires |normals| == 75
    ensures var m := GeneratePenalty(idx, d1, d2, normals).meta;
      && 780.0 <= m.totalDemand <= 1040.0
      && m.totalSupply == 0.8 * m.totalDemand
      && Slack(m) == 0.8 < 1.0
  {
    DemandBetween(d1, d2);
    MetadataSlack(idx, Sum(d1) + Sum(d2));
  }

  /** Thirteen draws from [60, 80] sum to between 780 and 1040. */
  lemma DemandBetween(d1: seq<real>, d2: seq<real>)
    requires |d1| == 5 && |d2| == 8 && DemandDraws(d1) && DemandDraws(d2)
    ensures 780.0 <= Sum(d1) + Sum(d2) <= 1040.0
  {
    SumBounds(d1, 60.0, 80.0);
    SumBounds(d2, 60.0, 80.0);
  }

  /** For any non-zero demand, the metadata's slack factor is 0.8. */
  lemma MetadataSlack(idx: int, total: real)
    requires total != 0.0
    ensures Slack(PenaltyMetadata(idx, total)) == 0.8
  {
    FractionOfSelf(total, 0.8);
  }

  lemma FractionOfSelf(t: real, f: real)
    requires t != 0.0
    ensures (t * f) / t == f
  {
    assert (t * f) == f * t;
  }

  /** The complete layers of (2, 5, 5, 8) have 10, 25 and 40 arcs. */
  lemma PenaltyLayerCounts()
    ensures |CompletePt(PenaltySizes)| == 10
    ensures |CompleteTc1(PenaltySizes)| == 25
    ensures |CompleteC1c2(PenaltySizes)| == 40
  {
    ProductLength(NodesOf(PenaltySizes, Plant), NodesOf(PenaltySizes, Tank));
    ProductLength(NodesOf(PenaltySizes, Tank), NodesOf(PenaltySizes, Transfer));
    ProductLength(NodesOf(PenaltySizes, Transfer), NodesOf(PenaltySizes, Final));
  }

  /** `guardar_dzn`: the parameter section, nothing before it. */
  method SaveDzn(p: Penalized, show: real -> string) returns (text: string)
    requires WellFormed(p.inst)
    ensures text == Unlines(ParamLines(p.inst.sizes, ArraysOf(p.inst), show))
  {
    var lines := WriteParams(p.inst, show);
    text := Unlines(lines);
  }

  /** What the written file holds for a generated instance: 20 nodes and 75
      arcs in every parallel array, the sampled costs in arc order,
      alternating installation rows, and an installation block whose rows
      are separated by ",\n" with no separator after the last. */
  lemma WrittenPenaltyArrays(idx: int, d1: seq<real>, d2: seq<real>, normals: seq<real>, show: real -> string)
    requires |d1| == 5 && |d2| == 8 && DemandDraws(d1) && DemandDraws(d2)
    requires |normals| == 75
    ensures var p := GeneratePenalty(idx, d1, d2, normals);
      var a := ArraysOf(p.inst);
      && a.n == 20
      && |a.arcFrom| == |a.arcTo| == |a.trans| == |a.install| == 75
      && a.trans == FloorAll(normals, 1.0)
      && a.install == AlternatingRows(75)
      && |ParamLines(p.inst.sizes, a, show)| == 94
      && Unlines(InstallBlockLines(a.install)) == Join(RowTexts(a.install), ",\n") + "\n"
  {
    var p := GeneratePenalty(idx, d1, d2, normals);
    var a := ArraysOf(p.inst);
    AlternatingRowsShape(75);
    InstallBlockText(a.install);
  }

  /** The supply and demand arrays of a generated instance: the two plant
      supplies at positions 0 and 1 (nodes 1 and 2), the C1 demands at 7..11
      and the C2 demands at 12..19, zero everywhere else. */
  lemma WrittenPenaltyBalance(idx: int, d1: seq<real>, d2: seq<real>, normals: seq<real>)
    requires |d1| == 5 && |d2| == 8 && DemandDraws(d1) && DemandDraws(d2)
    requires |normals| == 75
    ensures var p := GeneratePenalty(idx, d1, d2, normals);
      var a := ArraysOf(p.inst);
      && |a.supply| == |a.demand| == 20
      && a.supply[0] == a.supply[1] == p.inst.supply[0]
      && (forall i :: 2 <= i < 20 ==> a.supply[i] == 0.0)
      && (forall i :: 0 <= i < 7 ==> a.demand[i] == 0.0)
      && (forall k :: 0 <= k < 5 ==> a.demand[7 + k] == d1[k])
      && (forall k :: 0 <= k < 8 ==> a.demand[12 + k] == d2[k])
  {
    var p := GeneratePenalty(idx, d1, d2, normals);
    BalanceArraysAt(p.inst);
  }

  lemma BalanceArraysAt(inst: Instance)
    requires inst.sizes == PenaltySizes && WellFormed(inst) && |inst.supply| == 2
    ensures var a := ArraysOf(inst);
      && |a.supply| == |a.demand| == 20
      && a.supply[0] == inst.supply[0] && a.supply[1] == inst.supply[1]
      && (forall i :: 2 <= i < 20 ==> a.supply[i] == 0.0)
      && (forall i :: 0 <= i < 7 ==> a.demand[i] == 0.0)
      && (forall k :: 0 <= k < 5 ==> a.demand[7 + k] == inst.d1[k])
      && (forall k :: 0 <= k < 8 ==> a.demand[12 + k] == inst.d2[k])
  {
    var a := ArraysOf(inst);
    assert a.supply == SupplyArray(PenaltySizes, inst.supply);
    assert a.demand == DemandArray(PenaltySizes, inst.d1, inst.d2);
  }

  // ---------------------------------------------------------------------
  // Report

  function SupplyTotal(inst: Instance): real { Sum(inst.supply) }

  function DemandTotal(inst: Instance): real { Sum(inst.d1) + Sum(inst.d2) }

  /** The lines written before the slack factor is computed. */
  function ReportHead(inst: Instance, metaText: string, show: real -> string): seq<string>
  {
    [ "=== REPORTE DE INSTANCIA PENALIZA ===",
      "",
      "Metadata: " + metaText,
      "",
      "BALANCE OFERTA-DEMANDA:",
      "  Suministro total: " + show(SupplyTotal(inst)),
      "  Demanda total: " + show(DemandTotal(inst)) ]
  }

  function ReportTail(inst: Instance, show: real -> string): seq<string>
    requires DemandTotal(inst) != 0.0
  {
    [ "  Factor de holgura: " + show(SupplyTotal(inst) / DemandTotal(inst)),
      "",
      "CONECTIVIDAD:",
      "  Plantas -> Tanques: " + NatStr(|inst.pt|) + " conexiones",
      "  Tanques -> Transbordo: " + NatStr(|inst.tc1|) + " conexiones",
      "  Transbordo -> Finales: " + NatStr(|inst.c1c2|) + " conexiones",
      "" ]
  }

  /** The report file's lines; with zero total demand the division raises
      after the first seven lines, and nothing more is written. */
  function ReportLines(inst: Instance, metaText: string, show: real -> string): (r: seq<string>)
    ensures |r| == if DemandTotal(inst) != 0.0 then 14 else 7
    ensures r[..7] == ReportHead(inst, metaText, show)
  {
    ReportHead(inst, metaText, show)
      + (if DemandTotal(inst) != 0.0 then ReportTail(inst, show) else [])
  }

  /** `generar_reporte_instancia`, line by line; `metaText` is the printed
      metadata dictionary.  `completed` is false when the slack division
      fails. */
  method WriteReport(inst: Instance, metaText: string, show: real -> string)
      returns (lines: seq<string>, completed: bool)
    ensures lines == ReportLines(inst, metaText, show)
    ensures completed <==> DemandTotal(inst) != 0.0
  {
    lines := ["=== REPORTE DE INSTANCIA PENALIZA ===", ""];
    lines := lines + ["Metadata: " + metaText, ""];
    lines := lines + ["BALANCE OFERTA-DEMANDA:"];
    var supplyTotal := Sum(inst.supply);
    var demandTotal := Sum(inst.d1) + Sum(inst.d2);
    lines := lines + ["  Suministro total: " + show(supplyTotal)];
    lines := lines + ["  Demanda total: " + show(demandTotal)];
    if demandTotal == 0.0 {
      completed := false;
      return;
    }
    lines := lines + ["  Factor de holgura: " + show(supplyTotal / demandTotal), ""];
    lines := lines + ["CONECTIVIDAD:"];
    lines := lines + ["  Plantas -> Tanques: " + NatStr(|inst.pt|) + " conexiones"];
    lines := lines + ["  Tanques -> Transbordo: " + NatStr(|inst.tc1|) + " conexiones"];
    lines := lines + ["  Transbordo -> Finales: " + NatStr(|inst.c1c2|) + " conexiones", ""];
    completed := true;
  }

  /** A report over an instance with supply at 80% of a positive demand
      completes, shows slack 0.8, and counts the three arc lists. */
  lemma ReportOfUnderSupplied(inst: Instance, metaText: string, show: real -> string)
    requires DemandTotal(inst) > 0.0 && SupplyTotal(inst) == 0.8 * DemandTotal(inst)
    ensures var r := ReportLines(inst, metaText, show);
      && |r| == 14
      && r[5] == "  Suministro total: " + show(0.8 * DemandTotal(inst))
      && r[6] == "  Demanda total: " + show(DemandTotal(inst))
      && r[7] == "  Factor de holgura: " + show(0.8)
      && r[10] == "  Plantas -> Tanques: " + NatStr(|inst.pt|) + " conexiones"
      && r[11] == "  Tanques -> Transbordo: " + NatStr(|inst.tc1|) + " conexiones"
      && r[12] == "  Transbordo -> Finales: " + NatStr(|inst.c1c2|) + " conexiones"
  {
    FractionOfSelf(DemandTotal(inst), 0.8);
    var r := ReportLines(inst, metaText, show);
    assert r == ReportHead(inst, metaText, show) + ReportTail(inst, show);
  }

  /** A generated instance meets the premises of `ReportOfUnderSupplied`, so
      its report always completes, with the C1 + C2 demands' sum as demand
      total, 80% of it as supply total, a slack line showing 0.8, and
      connection counts 10, 25 and 40. */
  lemma ReportOfGenerated(idx: int, d1: seq<real>, d2: seq<real>, normals: seq<real>,
                          metaText: string, show: real -> string)
    requires |d1| == 5 && |d2| == 8 && DemandDraws(d1) && DemandDraws(d2)
    requires |normals| == 75
    ensures var inst := GeneratePenalty(idx, d1, d2, normals).inst;
      && DemandTotal(inst) == Sum(d1) + Sum(d2) > 0.0
      && SupplyTotal(inst) == 0.8 * DemandTotal(inst)
      && |inst.pt| == 10 && |inst.tc1| == 25 && |inst.c1c2| == 40
      && |ReportLines(inst, metaText, show)| == 14
      && ReportLines(inst, metaText, show)[7] == "  Factor de holgura: " + show(0.8)
  {
    var p := GeneratePenalty(idx, d1, d2, normals);
    PenaltyBalance(idx, d1, d2, normals);
    PenaltyLayerCounts();
    var inst := p.inst;
    var total := Sum(d1) + Sum(d2);
    assert DemandTotal(inst) == total == p.meta.totalDemand;
    assert SupplyTotal(inst) == 0.8 * total;
    ReportOfUnderSupplied(inst, metaText, show);
  }
}
