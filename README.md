# Pipe-network instance generators, modelled in Dafny

This project models the instance generators of a pipe-network design
project. The network has four node classes: plants (P), tanks (T), transfer
nodes (C1) and final nodes (C2). Arcs go only from one class to the next.
Each generator builds an instance from random draws and writes it as a
MiniZinc `.dzn` data file. Four generators are modelled:

- `tools/generador_infactible.py`: six deliberately hard or infeasible
  variants (impossible demand, single-tank bottleneck, prohibitive costs,
  isolated final nodes, very large size, conflicting pipe capacities). They
  share `_crear_instancia_base`, the size classifier, the explanation table
  and `guardar_dzn` with its comment header.
- `minizinc/tools/generador.py`: complete topology on 1-based node numbers.
  It has random integer demands, transport costs floored at 0.1, an
  installation-cost type drawn per (arc, diameter) cell with counters, and
  `instance_to_dzn`.
- `tools/generador_penaliza.py`: fixed sizes (2, 5, 5, 8), a complete
  topology, supply at 80% of demand, `guardar_dzn`, and the text report.
- `tools/generador.py`: per-category size ranges and a sampled topology. Each
  plant feeds 1..3 tanks, each tank 1..4 C1 nodes, and each C2 node is fed by
  1..3 C1 nodes. Supply is 110% of demand, and `guardar_dzn` writes one run
  of text without newlines.

Modules:

- `Text` (text.dfy): decimal rendering of integers, `", "`-joined lists,
  and their parse-back. Lines joined with `"\n"`, and concatenation.
- `Network` (network.dfy): sizes, nodes, the 1-based node numbering and its
  inverse, and complete bipartite layers (`Product`). Also in-degree and
  out-degree, sums, and Python's insertion-ordered dictionaries as
  association lists.
- `Dzn` (dzn.dfy): the parts of `guardar_dzn` shared by three generators.
  - The node-index counter loop, the `arc_from`/`arc_to` projections and
    the transport-cost values of the three cost dictionaries.
  - The supply and demand arrays filled in place, and the installation rows
    alternating type A / type B.
  - The parameter section with its row block.
- `Infeasible`, `MiniZincGenerator`, `Penalty`, `Generator`: one module per
  generator file.

Random draws are parameters. A precondition bounds each one to the range the
source draws from (demands, uniform costs and samples; a normal draw has no
range):

- `random.uniform(a, b)` becomes a real in `[a, b]`;
- `np.random.normal` becomes an arbitrary real, which the model then floors;
- `random.sample` becomes a duplicate-free index list of the drawn length;
- `random.random() < 0.5` becomes a real coin compared with 0.5.

Loops that fill arrays or write lines are methods with loop invariants.
Each is proved equal to a specification function, and the properties of the
source are proved about those functions.

## Model

| member | source | states |
|---|---|---|
| Text.NatListRoundTrip | minizinc/tools/generador.py:133-134 | a list of naturals printed as `[a, b, c]` parses back to the same list |
| Text.ParseItemsJoin | minizinc/tools/generador.py:137-141 | a non-empty `", "`-joined list of decimal numbers parses back to the numbers |
| Text.NatStrRoundTrip | minizinc/tools/generador.py:133-134 | `str(n)` of a natural number reads back as `n` |
| Text.UnlinesRoundTrip | tools/generador_penaliza.py:90-109 | lines written each followed by `"\n"` split back into exactly those lines |
| Network.AllNodesNumbered | tools/generador.py:77-83 | the counter loop numbers all nodes 1..N in class order P, T, C1, C2 |
| Network.DecodeIndex | tools/generador.py:77-83 | decoding a node's 1-based index yields the node back |
| Network.IndexInjective | tools/generador.py:77-83 | distinct nodes get distinct indices |
| Network.ProductLength | tools/generador_infactible.py:108-110 | a complete layer `[(a, b) for a in us for b in vs]` has `|us| * |vs|` arcs |
| Network.ProductAt | tools/generador_infactible.py:108-110 | arc `a * |vs| + b` of a complete layer is `(us[a], vs[b])` |
| Network.ProductMember | tools/generador_infactible.py:108-110 | a pair is in a complete layer iff its ends are in the two classes |
| Network.ProductNoDup | tools/generador_infactible.py:108-110 | a complete layer over duplicate-free classes has no repeated arc |
| Network.CompleteTopology | tools/generador_infactible.py:108-110 | the three complete layers join adjacent classes, have no repeats, and count nP·nT + nT·nC1 + nC1·nC2 arcs |
| Network.CompleteCoverage | tools/generador_infactible.py:108-110 | in the complete topology every non-plant node has an incoming arc when the previous class is non-empty |
| Network.RowInDegree | tools/generador_infactible.py:110 | a row `[(u, w) for w in vs]` over distinct `vs` enters `v` once if `v` is in `vs`, otherwise never |
| Network.ProductInDegree | tools/generador_infactible.py:110 | in a complete layer over distinct targets every target has in-degree `|us|` |
| Network.CompleteFinalInDegree | tools/generador_infactible.py:110 | in the complete C1→C2 layer every C2 node has in-degree nC1 |
| Network.FloorAll | tools/generador_penaliza.py:29 | `max(lo, x)` per draw: every cost is at least `lo`, draws at or above `lo` are kept, the rest become `lo` |
| Network.FromDistinctPairs | tools/generador.py:46-51 | a dict built from distinct keys keeps the keys and values in insertion order |
| Network.DuplicateKeyShrinks | tools/generador.py:46-47 | for any key list with a repeated key, the dict built from the pairs has fewer items than there are pairs |
| Network.PutSize | tools/generador.py:46-47 | `d[k] = v` adds an item exactly when `k` is not yet a key, and otherwise keeps the size |
| Network.PutKeys | tools/generador.py:46-47 | after `d[k] = v` the keys are those of `d` plus `k` |
| Network.FromPairsKeys | tools/generador.py:46-47 | the dict built from pairs has at most one item per pair and exactly the listed keys |
| Network.EvenShare | tools/generador.py:44-65 | nP equal shares of `total / nP` sum back to `total` |
| Network.ArcsGoForward | tools/generador.py:86-88 | in a well-formed instance every arc goes from one class to the next, so from a smaller index to a larger one |
| Dzn.AlternatingRowsShape | tools/generador_penaliza.py:85-88 | row i of the installation costs is type A `[20, 24, 32]` for even i and type B `[50, 62, 78]` for odd i, and neighbouring rows differ |
| Dzn.InstallRows | tools/generador_penaliza.py:85-88 | the append loop produces exactly the alternating rows |
| Dzn.BuildNodeIndex | tools/generador_penaliza.py:63-68 | the counter loop maps every node to its 1-based index and ends with counter N + 1 |
| Dzn.ArcEndsRoundTrip | tools/generador_penaliza.py:69-71 | `arc_from[i]` and `arc_to[i]` lie in 1..N and decode to the ends of arc i |
| Dzn.ArcIndicesIncrease | tools/generador_penaliza.py:69-71 | `arc_from[i] < arc_to[i]` for every arc of a well-formed instance |
| Dzn.BuildDictValues | tools/generador_penaliza.py:30-35 | `build_dict(conns, offs)` over distinct arcs has the values `trans[offs .. offs + |conns|]` in order |
| Dzn.TransCostsAreSampled | tools/generador_penaliza.py:72-74 | the concatenated dictionary values are the sampled cost list itself, one per arc |
| Dzn.BaseInstance | tools/generador_penaliza.py:41-59 | the assembled instance is well formed, uses the given sizes, layers and demands, gives every plant the same supply, and serialises the given costs |
| Dzn.SupplyArrayProperties | tools/generador_penaliza.py:75-78 | each plant's supply sits at its node index, everything else is 0, and the array sums to the total supply |
| Dzn.DemandArrayProperties | tools/generador_penaliza.py:79-83 | demand is 0 on plants and tanks, each C1/C2 demand sits at its node index, and the array sums to the total demand |
| Dzn.DemandArrayAtNodes | tools/generador_penaliza.py:79-83 | each C1 and C2 demand is stored at its node's index minus one |
| Dzn.DemandArraySum | tools/generador_penaliza.py:79-83 | the demand array sums to sum(d1) + sum(d2) |
| Dzn.FillSupply | tools/generador_penaliza.py:76-78 | the in-place fill loop yields the supply array |
| Dzn.FillDemand | tools/generador_penaliza.py:79-83 | the two in-place fill loops yield the demand array |
| Dzn.ComputeArrays | tools/generador_penaliza.py:63-88 | the array-building part of `guardar_dzn` yields the specified arrays |
| Dzn.WriteInstallRows | tools/generador_penaliza.py:102-107 | the row loop writes `",\n"` after every row but the last and `"\n"` after the last |
| Dzn.InstallBlockText | tools/generador_penaliza.py:102-107 | the written row block is the rows joined by `",\n"` plus a final newline |
| Dzn.ParamLines | tools/generador_penaliza.py:90-109 | the parameter section has 19 + nA lines, with sizes first, then `arc_from`, `arc_to`, `supply` and `demand` at fixed positions, and `trans_cost` last |
| Dzn.WriteParams | tools/generador_penaliza.py:89-109 | the writing method produces exactly the parameter lines of the instance's arrays |
| Dzn.ArcLinesReadBack | tools/generador_penaliza.py:96-97 | the `arc_from` and `arc_to` lines parse back to the index arrays |
| Infeasible.ClassifySize | tools/generador_infactible.py:181-190 | each size class holds exactly when its threshold pair is the first one exceeded |
| Infeasible.ClassifyMonotone | tools/generador_infactible.py:181-190 | more arcs and more nodes never give a smaller class |
| Infeasible.Explain | tools/generador_infactible.py:192-202 | a known problem type gets its own reason, and any other type gets the default reason |
| Infeasible.OverloadReasonNamesCapacity | tools/generador_infactible.py:195 | the impossible-demand reason is the formatted demand sentence and mentions demand and capacity |
| Infeasible.Select | tools/generador_infactible.py:115-119 | `random.sample(arcs, k)` yields k arcs |
| Infeasible.SelectNoDup | tools/generador_infactible.py:115-119 | a sample of distinct positions of a duplicate-free list has no repeats |
| Infeasible.Isolate | tools/generador_infactible.py:121-124 | the filter keeps exactly the arcs not ending in an isolated C2 node |
| Infeasible.IsolateNoDup | tools/generador_infactible.py:121-124 | filtering keeps a list duplicate-free |
| Infeasible.IsolateInDegree | tools/generador_infactible.py:121-124 | the filter leaves the in-degree of every node that is not isolated unchanged |
| Infeasible.SurvivorKeepsInDegree | tools/generador_infactible.py:110-124 | after fragmentation every C2 node that is not isolated still has an arc from each of the nC1 C1 nodes |
| Infeasible.UnfragmentedArcCount | tools/generador_infactible.py:107-110 | without fragmentation the topology is the complete one |
| Infeasible.FragmentOnlyRemoves | tools/generador_infactible.py:112-124 | fragmentation only removes arcs. It keeps `max(1, n // 3)` P→T arcs and `max(1, n // 2)` T→C1 arcs when a layer has more than 2, and cuts every arc into `min(3, nC2 // 2)` distinct C2 nodes when nC2 > 3, keeping all the others |
| Infeasible.BaseTopologyFacts | tools/generador_infactible.py:107-124 | fragmented or not, each layer joins adjacent classes and has no repeats |
| Infeasible.TransFor | tools/generador_infactible.py:129-138 | one cost per arc and every cost at least 0.5. Prohibitive-cost instances have every cost at least 5000 |
| Infeasible.SlackFactor | tools/generador_infactible.py:164 | with positive demand the factor times the demand is the supply. Otherwise it is 0 |
| Infeasible.UniformSupplyTotal | tools/generador_infactible.py:155 | `sup * nP` is the sum of the nP equal plant supplies |
| Infeasible.UniformSupplySlack | tools/generador_infactible.py:155-164 | `sup = total * f / nP` gives supply total `f * total` and slack factor exactly f |
| Infeasible.CreateBase | tools/generador_infactible.py:105-179 | `_crear_instancia_base` (`BaseOf`): a well-formed instance of the sizes with the given demands, the base topology, the costs of the problem type and `sup` at every plant, with no repeated arc. Its metadata agrees with it: index, kind tag, arc count, node count N, connection density M / N², the problematic flag set, supply total `sup * nP`, demand total, slack, size class and reason |
| Infeasible.MaxArcCapacity | tools/generador_infactible.py:26 | the largest `max_flujo` of the diameters (3181) |
| Infeasible.OverloadFigures | tools/generador_infactible.py:25-33 | 42 estimated arcs, 26720.4 per demand node, and a total demand of twice 3181 · 42 |
| Infeasible.InfeasibleDemand | tools/generador_infactible.py:21-38 | `Realises` for sizes (2, 3, 4, 6), complete topology and slack 0.1, with equal demands 26720.4 summing to twice the theoretical maximum capacity 3181 · 42, and a reason that names capacity |
| Infeasible.Variant | tools/generador_infactible.py:40-103 | `Realises`: sizes, demands and index as given; the base topology; the costs of the problem type; `sum * f / nP` supply per plant; a positive demand total and slack exactly f; kind tag, arc count, totals, size class and the `_explicar_problema` reason of the metadata |
| Infeasible.VariantBalance | tools/generador_infactible.py:154-164 | nP plants at the share `total * f / nP` supply f times the total demand, and the slack factor of those totals is f |
| Infeasible.MetaBalance | tools/generador_infactible.py:154-164 | metadata recording that share has supply total f times the demand total and slack f |
| Infeasible.RealisedSupply | tools/generador_infactible.py:154-164 | metadata with slack f over a positive demand total, as every realised variant records, supplies f times that demand |
| Infeasible.PositiveDemand | tools/generador_infactible.py:154-164 | demands drawn from positive ranges have a positive total, so the slack division is taken |
| Infeasible.BottleneckVariant | tools/generador_infactible.py:40-51 | `Realises` for sizes (4, 1, 6, 10), complete topology and slack 0.8: every plant has an arc to tank 0, tank 0 has an arc to every C1 node, and every P→T arc ends and every T→C1 arc starts at tank 0 |
| Infeasible.SingleTank | tools/generador_infactible.py:42 | with nT = 1 all tank-layer arcs pass through the single tank |
| Infeasible.ThroughTheTank | tools/generador_infactible.py:108-109 | with one tank the complete layers link every plant to it and it to every C1 node |
| Infeasible.ProhibitiveCostsVariant | tools/generador_infactible.py:53-64 | `Realises` for sizes (3, 4, 5, 7), complete topology and slack 1.1: the costs are the draws, one for each of the 67 arcs, all at least 5000 |
| Infeasible.ImpossibleTopologyVariant | tools/generador_infactible.py:66-77 | `Realises` for sizes (3, 5, 6, 8), the fragmented topology and slack 1.2: three isolated C2 nodes with no incoming arc, every other C2 node with in-degree 6, and 5 P→T and 15 T→C1 arcs |
| Infeasible.IsolatedTopology | tools/generador_infactible.py:112-124 | for sizes (3, 5, 6, 8) fragmentation leaves 5 and 15 arcs, isolates 3 final nodes completely, and keeps all 6 incoming arcs of each other final node |
| Infeasible.ExtremeComplexityVariant | tools/generador_infactible.py:79-90 | `Realises` for sizes (6, 10, 15, 25), complete topology and slack 1.001, with 585 arcs and size class `muy_grande` |
| Infeasible.ConflictingConstraintsVariant | tools/generador_infactible.py:92-103 | `Realises` for sizes (2, 3, 4, 6), complete topology and slack 1.05: the demands and the cheap costs in [1, 5] are the draws |
| Infeasible.ConflictingDemands | tools/generador_infactible.py:96-98 | every C1 demand exceeds the D2 capacity but stays under D3's, and every C2 demand fits D2 |
| Infeasible.DznLines | tools/generador_infactible.py:262-300 | the file is the 6-line comment header, its figures rendered as `str` does, followed by the parameter section, its numbers rendered as `validar_numero` does |
| Infeasible.SaveDzn | tools/generador_infactible.py:213-300 | the written text is those lines, newline-terminated, with the header figures and the array numbers rendered by their own formatters |
| Infeasible.GeneratedArrays | tools/generador_infactible.py:215-258 | the arrays have one entry per arc or per node and carry the generated costs. Supply and demand sum to the metadata totals |
| MiniZincGenerator.Range | minizinc/tools/generador.py:44-47 | `range(lo, hi)` holds `lo + i` at position i |
| MiniZincGenerator.BlocksNumberNodes | minizinc/tools/generador.py:44-49 | the four index blocks number each class's nodes by their global index and together cover 1..N |
| MiniZincGenerator.Numbered | minizinc/tools/generador.py:58-74 | an arc list written with node numbers is the list of its ends' indices |
| MiniZincGenerator.ProductNumbered | minizinc/tools/generador.py:62-64 | the nested loop over two index blocks is the numbered complete layer |
| MiniZincGenerator.NumberedArcsAreComplete | minizinc/tools/generador.py:58-74 | the arc list is the numbered complete topology, goes forward and has no repeats |
| MiniZincGenerator.NumberedArcsCount | minizinc/tools/generador.py:76 | nA = nP·nT + nT·nC1 + nC1·nC2 |
| MiniZincGenerator.AppendProduct | minizinc/tools/generador.py:62-74 | each nested loop appends exactly the complete layer |
| MiniZincGenerator.FillDemand | minizinc/tools/generador.py:51-54 | the in-place demand loop yields the demand vector |
| MiniZincGenerator.DemandOnNodes | minizinc/tools/generador.py:51-54 | demand is 0 on plants and tanks, and each C1/C2 node holds its draw at its index |
| MiniZincGenerator.TotalDemandBounds | minizinc/tools/generador.py:52-56 | total demand lies between 40 and 100 times the number of C1 + C2 nodes |
| MiniZincGenerator.DrawTransport | minizinc/tools/generador.py:78-82 | one cost per arc: the draw when it is at least 0.1, else 0.1 |
| MiniZincGenerator.DrawInstall | minizinc/tools/generador.py:84-95 | row a is decided by the coins of its 3 cells, the type-A counter counts coins below 0.5, and the counters add to 3·nA |
| MiniZincGenerator.CellTypeMatchesDraw | minizinc/tools/generador.py:88-95 | a cell holds the type-A cost iff its coin is below 0.5, and the type-B cost iff not |
| MiniZincGenerator.GenerateInstance | minizinc/tools/generador.py:28-108 | `generate_instance`: N, the complete numbered arc list, demand 0 on P/T and each draw in [40, 100] on C1/C2, with total between 40 and 100 per demand node; costs that are the draw when at least 0.1 and exactly 0.1 otherwise; coin-decided installation rows and consistent counters |
| MiniZincGenerator.FlattenAt | minizinc/tools/generador.py:137-141 | the flattened table has 3·nA entries, with cell (a, d) at position 3a + d |
| MiniZincGenerator.FlattenInstall | minizinc/tools/generador.py:137-140 | the flattening loop yields the rendered flattened table |
| MiniZincGenerator.InstanceToDzn | minizinc/tools/generador.py:114-171 | the written text is the specified lines, newline-terminated |
| MiniZincGenerator.SeedLineIffTruthy | minizinc/tools/generador.py:150-152 | the seed comment line is written iff the seed is truthy, so the file has 21 or 20 lines |
| MiniZincGenerator.DznReadsBack | minizinc/tools/generador.py:163-170 | the demand line and the flattened installation list parse back to the generated values |
| MiniZincGenerator.TestInstanceShape | minizinc/tools/generador.py:294-300 | the test instance (1, 2, 2, 3) has 8 nodes and 12 arcs, from (1, 2) to (5, 8) |
| Penalty.PenaltyMetadata | tools/generador_penaliza.py:41-50 | the metadata's supply total is 80% of the demand total, with 75 arcs |
| Penalty.GeneratePenalty | tools/generador_penaliza.py:19-60 | the metadata agrees with the instance: demand total, supply total equal to the plant supplies' sum, and arc count |
| Penalty.PenaltyInstance | tools/generador_penaliza.py:20-59 | sizes (2, 5, 5, 8), complete layers, the drawn demands, costs floored at 1.0 in arc order, and two equal supplies of `total * 0.8 / 2` |
| Penalty.PenaltyBalance | tools/generador_penaliza.py:21-48 | demand total is in [780, 1040], supply is 80% of it, and the slack factor is 0.8 < 1 |
| Penalty.DemandBetween | tools/generador_penaliza.py:21-23 | thirteen draws from [60, 80] sum to between 780 and 1040 |
| Penalty.MetadataSlack | tools/generador_penaliza.py:47-48 | `factor_holgura` is 0.8 for any non-zero demand |
| Penalty.PenaltyLayerCounts | tools/generador_penaliza.py:25-28 | the complete layers have 10, 25 and 40 arcs |
| Penalty.SaveDzn | tools/generador_penaliza.py:62-110 | the written text is the parameter section, newline-terminated |
| Penalty.WrittenPenaltyArrays | tools/generador_penaliza.py:62-109 | a generated file has 20 nodes, 75 arcs in every parallel array, the floored costs in arc order, alternating rows, 94 lines and a correctly separated row block |
| Penalty.WrittenPenaltyBalance | tools/generador_penaliza.py:75-83 | the supply array holds the two plant supplies then zeros, and the demand array holds zeros then d1 then d2 |
| Penalty.BalanceArraysAt | tools/generador_penaliza.py:75-83 | for any well-formed (2, 5, 5, 8) instance, supplies at 0..1, C1 demands at 7..11, C2 demands at 12..19 |
| Penalty.ReportLines | tools/generador_penaliza.py:112-125 | the report has 14 lines, or 7 when the slack division by a zero demand raises |
| Penalty.WriteReport | tools/generador_penaliza.py:112-125 | the writing method yields those lines and reports completion iff the demand total is non-zero |
| Penalty.ReportOfUnderSupplied | tools/generador_penaliza.py:117-125 | with supply at 80% of a positive demand, the report shows both totals, slack 0.8 and the three connection counts |
| Penalty.ReportOfGenerated | tools/generador_penaliza.py:112-125 | a generated instance's report always completes, with the drawn demand total, 80% supply, slack 0.8 and counts 10, 25, 40 |
| Generator.Ranges | tools/generador.py:18-22 | every category has four size ranges |
| Generator.DrawnSizes | tools/generador.py:36-38 | drawn sizes have at least one plant, at least 5 tanks and C1 nodes and at least 10 C2 nodes, and between 21 and 207 nodes |
| Generator.Spokes | tools/generador.py:31-32 | a node's sampled arcs go to the sampled nodes in sampled order |
| Generator.Feeders | tools/generador.py:33 | a C2 node's sampled arcs come from the sampled C1 nodes |
| Generator.FanOutArcs | tools/generador.py:31-32 | every arc of a fan-out starts at a node of the first class and ends at one of that node's picks |
| Generator.FanInArcs | tools/generador.py:33 | every arc of a fan-in ends at a C2 node and starts at one of that node's picks |
| Generator.FanOutNoDup | tools/generador.py:31-32 | samples without repeats give a layer without repeated arcs |
| Generator.FanInNoDup | tools/generador.py:33 | samples without repeats give a layer without repeated arcs |
| Generator.FanOutDegree | tools/generador.py:31-32 | node i's out-degree is the size of its sample |
| Generator.FanInDegree | tools/generador.py:33 | C2 node f's in-degree is the size of its sample |
| Generator.FanOutLayer | tools/generador.py:31-32 | the sampled layer joins the two classes and has no repeats |
| Generator.FanInLayer | tools/generador.py:33 | the sampled layer joins the two classes and has no repeats |
| Generator.GenerateTopology | tools/generador.py:30-34 | each plant has out-degree 1..min(3, nT), each tank 1..min(4, nC1), each C2 node has in-degree 1..min(3, nC1), and no layer has repeats |
| Generator.OnlyNodeZeroFed | tools/generador.py:31-32 | if every sample is `[0]`, no node other than 0 receives an arc |
| Generator.UnfedNodesPossible | tools/generador.py:30-34 | valid draws exist that leave a tank and a C1 node without any incoming arc |
| Generator.GenerateInstance | tools/generador.py:25-71 | a well-formed instance of the drawn sizes over the sampled topology, with category and number recorded, demands in [40, 100] and total demand between 40 and 100 per demand node |
| Generator.DrawnDemandBounds | tools/generador.py:25 | demands drawn from `uniform(40, 100)` total between 40 and 100 per demand node |
| Generator.InstanceOn | tools/generador.py:39-70 | the given layers and demands, costs floored at 0.1 in arc order, and nP equal supplies |
| Generator.PlantSupply | tools/generador.py:65 | one supply per plant, all equal |
| Generator.PlantSupplyTotal | tools/generador.py:43-65 | the plant supplies sum to 110% of the total demand |
| Generator.WritePieces | tools/generador.py:108-130 | a run of `f.write` calls appends the concatenation of the pieces |
| Generator.WriteRows | tools/generador.py:125-126 | the row loop appends one piece per installation row |
| Generator.PrepareArrays | tools/generador.py:77-105 | the index, arc, demand, installation and cost arrays are the specified ones |
| Generator.PiecesParts | tools/generador.py:108-130 | the file is the 9 header pieces, then the rows, then the closing and `trans_cost` pieces |
| Generator.SaveDzn | tools/generador.py:73-130 | the written text is the concatenation of the file's pieces, with no separators |
| Generator.WrittenPieces | tools/generador.py:93-130 | the demand piece holds zeros on P and T, each row piece is the alternating row and ends with a comma, and `]);` follows the last row |
| Generator.RowPieceEndsWithComma | tools/generador.py:126 | every installation row piece ends with `,` |
| Generator.AssignReadsBack | tools/generador.py:117-118 | a `name = [ ... ];` piece of naturals parses back to the list |
| Generator.ArcPieces | tools/generador.py:117-118 | pieces 5 and 6 are the `arc_from` and `arc_to` assignments of the index arrays |
| Generator.ArcPiecesReadBack | tools/generador.py:117-118 | those two pieces parse back to `arc_from` and `arc_to` |

## Left out

- Rounding: `round(x, 2)` and the density's `round(x, 4)` are not applied. Reals are exact, so the model's sums, and the slack factors that are exactly 0.8, 1.1 and so on, are those of the unrounded values.
- Float formatting: `f"{x:.2f}"`, `{x:.1f}`, `validar_numero` and Python's `str` of a float are formatting parameters (`show`, `show1`, `showMeta`), not modelled, so the exact digits written for reals are not modelled. In tools/generador_infactible.py the header figures (`str`) and the array entries (`validar_numero`) are two separate parameters, `showMeta` and `show`.
- The printed metadata dictionary in the penalty report is a string parameter (`metaText`). Python's `repr` of a dict is not modelled.
- Random number generation and seeding are not modelled; the draws are parameters. `random.seed` and `np.random.seed` calls are out of the model, and in minizinc/tools/generador.py the seed only shows in the optional comment line.
- File I/O: files are returned as text, not written. `os.makedirs`, `open` and the exception re-raise after a failed write are not modelled.
- All console output (`print`) is not modelled, including the "Nodos C2 aislados" message of the fragmenting branch.
- Running MiniZinc (`subprocess`, timeouts, result analysis), the JSON metadata files, bulk generation loops and experiment summaries are I/O around the core and are not modelled.
- Penalty.WriteReport: when the slack division raises, the report file keeps the first seven lines. The model returns those lines with `completed == false` rather than raising.
- Generator.GenerateInstance: an unknown category is not modelled, because `Category` is a datatype; the source's `KeyError` for other keys is not reachable in the model.
- MiniZincGenerator.InstanceToDzn requires every installation row to have three cells, as `generate_instance` always produces. A malformed table, which would raise `IndexError` in the source, is not modelled.
- Penalty.ReportOfGenerated states the premises of `Penalty.ReportOfUnderSupplied` and the slack line. The full line list for generated instances follows from combining the two lemmas.
- Infeasible.ConflictingDemands: the source comment says the C1 demands need D5. The model proves what the capacities actually imply: every C1 demand exceeds the D2 capacity and stays under D3's.
- Cost dictionaries: tools/generador.py and tools/generador_penaliza.py key their cost dicts by `"a->b"` strings. The model keys them by the arc pair itself. Node names contain no `->`, so the two keyings are in one-to-one correspondence.
- Generator.SaveDzn: the installation rows are written with `{c:.2f}`, modelled as `show` applied to the integer cost as a real.
