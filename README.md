# Pharmaceutical distribution planner: a Dafny model

This is a model of the planning core of `app.py`, a single-file Flask service. The service reads a table of rows, each row giving:

- a plant, a center, a drug and a week;
- the transport, cold-chain, holding, shortage and waste costs;
- the demand, plant capacity, center capacity and initial inventory.

`solve_optimization` builds a linear program from that table and hands it to a solver. The program chooses:

- how much each plant ships to each center, per drug and week;
- how much each center holds, falls short and throws away.

The result record carries:

- the solver's status;
- the cost;
- every non-negligible shipment, inventory, shortage and waste value.

When the solve is not optimal, it carries the explanation of `explain_infeasibility` instead.

The model proves the following:

- **Parameter dictionaries.** The index lists hold what the rows hold; the week list is the sorted distinct weeks; every dictionary holds the value of the last row with its key.
- **Failed lookups.** Building the model fails exactly when a lookup with `[...]` would fail.
- **Objective.** It counts the center costs once per plant, and it is never negative when the costs are not negative.
- **Inventory.** The balance equations unroll to a closed form for the inventory.
- **Service level.** Every feasible plan delivers at least 95% of the cumulative demand from stock and shipments.
- **Diagnoser.** The checks run in their order. The first overfull center is the one reported. The fallback fires exactly when no check does.
- **Diagnoser limits.** Both the production and the storage check can blame a table that has a feasible plan.
- **Production bound.** A table with a feasible plan has total capacity plus total initial stock of at least 95% of total demand. So when the table holds no initial stock, a "PRODUCTION TOO LOW" diagnosis is right: no plan is feasible.
- **Extraction.** Each report lists every variable of its grid whose value is above 1e-6 exactly once, in loop order, with its value.
- **Optimal solves.** When the solver keeps its promise, the reported cost is the cheapest feasible one.

Modules, in dependency order:

| module | file | contents |
|---|---|---|
| `Wrappers` | `wrappers.dfy` | `Option`, `Result` |
| `Seqs` | `seqs.dfy` | distinct elements, sorted distinct integers, sums over sequences |
| `Dicts` | `dicts.dfy` | Python dictionaries with insertion order, dictionary comprehensions |
| `Records` | `records.dfy` | input rows, index lists, parameter dictionaries, lookups that must succeed |
| `Formulation` | `formulation.dfy` | the variables as an assignment, the constraints as predicates, the objective |
| `Diagnoser` | `diagnoser.dfy` | `explain_infeasibility` |
| `DiagnosisLimits` | `diagnosis_limits.dfy` | tables the diagnoser blames on production or storage although a feasible plan exists |
| `ProductionBound` | `production_bound.dfy` | the capacity and stock a feasible plan needs, against the production check |
| `Extraction` | `extraction.dfy` | the loops that collect the non-negligible variable values |
| `LoopOrder` | `loop_order.dfy` | the order of the reported entries, by the positions of their indices in the index lists |
| `Orchestrator` | `orchestrator.dfy` | `solve_optimization`, the result record, the solver's promise |

## Model

| member | source | states |
|---|---|---|
| Records.Plants | app.py:127 | the plant list has no repeats and holds exactly the plants of the rows |
| Records.Centers | app.py:128 | the center list has no repeats and holds exactly the centers of the rows |
| Records.Drugs | app.py:129 | the drug list has no repeats and holds exactly the drugs of the rows |
| Records.IndexListsFollowFirstRows | app.py:127-129 | plants, centers and drugs are listed in the order of their first rows: every row holding a later element comes after some row holding each earlier one |
| Seqs.DistinctFollowsFirstOccurrences | app.py:127-129 | every occurrence of a later element of `unique()` comes after an occurrence of each earlier one |
| Records.Weeks | app.py:130 | the week list is strictly increasing, holds exactly the weeks of the rows, and is non-empty when the rows are |
| Seqs.Distinct | app.py:127-129 | `unique()` keeps no repeats and loses and invents no element |
| Seqs.DistinctKeepsFirstOccurrenceOrder | app.py:127-129 | `unique()` lists elements in the order of their first occurrence |
| Seqs.SortedUnique | app.py:130 | `sorted(unique())` is strictly increasing with the same elements as the column |
| Seqs.StrictlyIncreasingListingIsUnique | app.py:130 | two strictly increasing lists with the same elements are equal, so the week list is determined by the week set |
| Dicts.Comprehension | app.py:132-139 | a comprehension's keys are exactly the keys of the kept rows, in first-insertion order |
| Dicts.ComprehensionKeepsLastRow | app.py:132-139 | the last kept row with a key decides that key's value |
| Dicts.ComprehensionValueIsFromLastRow | app.py:132-139 | each value of a comprehension is the value of the last kept row with its key |
| Records.InitialInventories | app.py:140-141 | the initial inventory keys are exactly the (center, drug) pairs that have a row in the first week; with no rows the dictionary is empty |
| Records.NoFirstWeekRowNoEntry | app.py:140-141 | a center without a first-week row has no initial inventory entry |
| Records.SingleColumnKeysPresent | app.py:133-139 | `storage_cap`, `cold_flag`, `penalty` and `waste_cost` have a key for every center or drug, and no other key |
| Records.CostsComeFromLastRow | app.py:132-136 | each cost dictionary holds, for a key, the cost in the last row with that key |
| Records.QuantitiesComeFromLastRow | app.py:137-141 | demand, capacities and first-week initial inventory hold the value of the last row with their key |
| Records.Derive | app.py:72-81 | the index lists and dictionaries that `explain_infeasibility` and `solve_optimization` build from the rows (app.py:127-141 for the latter), both from the same definitions |
| Records.DeriveOneRow | app.py:127-141 | a table of one row gives one-element index lists and dictionaries holding that row's single entry |
| Records.Buildable | app.py:157-192 | every `[...]` lookup of model building succeeds: the cost keys for every plant, center and drug, `demand` for every cell, `y[j][k][t - 1]` for every week but the first, `storage_cap` for every center and `prod_cap` for every plant and week |
| Records.PreviousWeekLookupsIffConsecutive | app.py:177-184 | the lookups of `y[j][k][t - 1]` succeed for every week but the first, if and only if the sorted weeks are consecutive integers |
| Formulation.ObjectiveCountsStockCostOncePerPlant | app.py:157-163 | the objective is the transport cost plus the number of plants times the holding, shortage and waste cost, because those terms sit inside the plant loop |
| Formulation.Objective | app.py:157-163 | the objective: the sum over the plant, center, drug and week grid of the transport-with-surcharge, holding, shortage and waste terms with weights 1.0, 0.7, 4.0 and 3.0 |
| Formulation.Feasible | app.py:147-197 | the plan gives every variable of the grid a value and meets the lower bounds, the inventory balance, the storage and production capacities and the 5% shortage ceiling |
| Formulation.ObjectiveNonNegative | app.py:157-163 | with non-negative cost parameters and non-negative variables, the objective is non-negative |
| Formulation.GridSumOfCellTerms | app.py:157-163 | a summand that does not depend on the plant is counted once per plant |
| Formulation.InventoryClosedForm | app.py:165-184 | under the balance equations, inventory at the end of week `weeks[n]` is the initial inventory plus the net flows of `weeks[0]` through `weeks[n]` |
| Formulation.StockNeverNegative | app.py:165-184 | with non-negative variables, the initial inventory plus the cumulative net flow is never negative |
| Formulation.NetFlowWithinServiceLevel | app.py:194-197 | under the shortage ceiling, a week's net flow is at most its inflow less 95% of its demand |
| Formulation.CumulativeInflowCoversServiceLevel | app.py:165-197 | in any plan that meets the balance, non-negativity and shortage constraints, initial inventory plus cumulative inflow covers 95% of cumulative demand through every week |
| Diagnoser.FirstOverfull | app.py:100-110 | the position found is an overfull center with no overfull center before it; none is found exactly when no center from there on is overfull |
| Diagnoser.Diagnosis | app.py:83-122 | the explanation of the three ordered checks: production against 95% of demand, then each center's initial stock against its capacity, then the fallback |
| Diagnoser.NeverFeasible | app.py:65-66 | the explanation always has `is_feasible` false |
| Diagnoser.RunChecks | app.py:64-122 | the step-by-step explanation record and the center scan with its early return yield the diagnosis of the three ordered checks |
| Diagnoser.ExplainInfeasibility | app.py:64-81 | `explain_infeasibility(df)` is the diagnosis of the parameters derived from the rows |
| Diagnoser.ProductionCheckedFirst | app.py:83-97 | the cause is "PRODUCTION TOO LOW" exactly when total capacity is below 95% of total demand, and then the explanation ignores storage capacities and initial inventories |
| Diagnoser.ReportsFirstOverfullCenter | app.py:99-110 | when production passes, the first overfull center is reported with its initial total and capacity in one detail line, and its name is in the first fix option |
| Diagnoser.StorageCauseNamesFirstOverfullCenter | app.py:99-110 | a storage explanation means production passed and names the first overfull center |
| Diagnoser.FallbackWhenNoCheckFires | app.py:112-122 | the cause is "DEMAND + SHORTAGE LIMIT TOO STRICT" exactly when production passes and no center is overfull; it carries one message and four fix options |
| Diagnoser.MissingInitialInventoryCountsAsZero | app.py:101 | a center with no first-week row has an initial total of 0 |
| DiagnosisLimits.OneRowDiagnosis | app.py:83-122 | on a one-row table, the cause is production exactly when capacity is below 95% of demand, else storage exactly when initial inventory exceeds capacity, else the fallback |
| DiagnosisLimits.IdlePlanFeasible | app.py:147-197 | on a one-row table, shipping and holding nothing while wasting the stock above demand satisfies every constraint when demand, both capacities and the stock above demand are not negative |
| DiagnosisLimits.ProductionCauseDespiteFeasiblePlan | app.py:83-97 | a table whose initial stock covers demand has a feasible plan, yet is diagnosed "PRODUCTION TOO LOW": a firing production check does not imply infeasibility, since capacity of 95% of demand is not necessary for feasibility |
| ProductionBound.FeasiblePlanNeedsCapacityOrStock | app.py:165-197 | every feasible plan of a table needs the table's total capacity plus total initial stock to reach 95% of its total demand |
| ProductionBound.CapacityCoversGridDemand | app.py:165-197 | the same bound for any index lists and dictionaries shaped as the table builds them |
| ProductionBound.ProductionCauseWithoutStockIsInfeasible | app.py:83-97 | when the table holds no initial stock, a "PRODUCTION TOO LOW" diagnosis implies that no plan is feasible |
| ProductionBound.TotalDemandIsCellSum | app.py:83 | `sum(demand.values())` adds the demand of each center, drug and week of the grid once |
| ProductionBound.TotalProductionIsPlantSum | app.py:85 | `sum(prod_cap.values())` adds the capacity of each plant and week once |
| ProductionBound.GridCovers | app.py:165-197 | when each center and drug gets 95% of its demand over the horizon, so does the whole grid |
| ProductionBound.InflowWithinCapacity | app.py:190-192 | what all centers receive over the horizon stays within the plants' total capacity |
| ProductionBound.PlantWithinCapacity | app.py:190-192 | what one plant ships over the horizon stays within its capacity summed over the weeks |
| DiagnosisLimits.StorageCauseDespiteFeasiblePlan | app.py:99-110 | a table whose excess initial stock can be wasted has a feasible plan, yet is diagnosed "STORAGE CAPACITY TOO SMALL": a firing storage check does not imply infeasibility, since initial stock within storage capacity is not necessary for feasibility |
| Extraction.KeptIsExactlyTheKeptKeys | app.py:219-220 | every kept entry is a listed variable with a value above 1e-6, carrying that value; every such variable has its entry |
| Extraction.Kept | app.py:219-220 | the entries the extraction keeps from a listing of variables: one per variable whose value exists and is above 1e-6, in listing order |
| Extraction.KeptFollowsListing | app.py:215-227 | with a repeat-free listing, the entries come in listing order |
| Extraction.ShipKeysMembers | app.py:215-218 | the shipment loops visit exactly the points of the plant, center, drug and week grid |
| Extraction.ShipKeysNoDups | app.py:215-218 | with repeat-free index lists, the shipment loops visit no point twice |
| Extraction.CellKeysMembers | app.py:229-231 | the cell loops visit exactly the points of the center, drug and week grid |
| Extraction.CellKeysNoDups | app.py:229-231 | with repeat-free index lists, the cell loops visit no point twice |
| Extraction.AppendIfKept | app.py:219-227 | a variable's value is appended exactly when it exists and exceeds 1e-6 |
| Extraction.ExtractShipments | app.py:215-227 | the four nested loops produce the kept entries of the shipment grid in plant, center, drug, week order |
| Extraction.ExtractCells | app.py:229-257 | one loop nest produces the kept inventory, shortage and waste entries of the cell grid in center, drug, week order |
| Extraction.ShipmentsAboveNoiseFloorReportedOnce | app.py:215-227 | the shipment report lists every grid shipment variable whose value is above 1e-6 exactly once with its value, and nothing else |
| Extraction.CellsAboveNoiseFloorReportedOnce | app.py:229-257 | the inventory, shortage and waste reports list every grid variable whose value is above 1e-6 exactly once with its value, and nothing else |
| LoopOrder.ShipKeysOrdered | app.py:215-218 | the four shipment loops visit the grid in lexicographic plant, center, drug, week order, by position in the index lists |
| LoopOrder.CellKeysOrdered | app.py:229-231 | the three cell loops visit the grid in lexicographic center, drug, week order |
| LoopOrder.ShipmentsInLoopOrder | app.py:215-227 | each reported shipment comes before every later one in plant, then center, then drug, then week order |
| LoopOrder.CellsInLoopOrder | app.py:229-257 | each inventory, shortage and waste entry comes before every later one in center, then drug, then week order |
| Orchestrator.StatusName | app.py:202-206 | the status string is "Optimal" exactly for the optimal status, so `is_feasible` holds exactly then |
| Orchestrator.ObjectiveValue | app.py:207 | `pl.value(model.objective)`: the objective's value when every variable has a value, and none otherwise |
| Orchestrator.SolveOptimization | app.py:126-261 | the call fails exactly when a lookup in model building would fail; otherwise the result reports status, feasibility, cost, lists and explanation as described |
| Orchestrator.AssembleResult | app.py:204-259 | after an optimal solve: the cost is the objective's value and the lists are the extracted reports; otherwise: no cost, empty lists and the diagnosis |
| Orchestrator.OptimalResultIsCheapestPlan | app.py:199-227 | after an optimal solve from a solver that keeps its promise, the reported cost is the objective of the reported plan, no feasible plan costs less, and every report lists each variable whose value is above 1e-6 exactly once |
| Orchestrator.OptimalCostIsNonNegative | app.py:207 | with non-negative costs, the cost reported after an optimal solve from a solver that keeps its promise is not negative |
| Orchestrator.NonOptimalResultIsExplained | app.py:258-259 | every status except "Optimal" gives empty lists, no cost, and an explanation that names one of the three causes and is never feasible |

Where the prose description and the code disagree, the model follows the code:

- **Non-optimal statuses.** Every status except "Optimal", including "Not Solved", "Unbounded" and "Undefined", reaches `explain_infeasibility` (app.py:258-259). So an unbounded model is also "explained" as infeasible. `NonOptimalResultIsExplained` states this for all such statuses.
- **Absent quantities.** Absent quantities are said to count as 0. The code does this only for initial inventory (`init_inventory.get`, app.py:171 in the balance and app.py:101 in the diagnoser). Every other lookup uses `[...]`, and a missing key raises KeyError. That includes `y[j][k][t - 1]` when the weeks are not consecutive. `SolveOptimization` models this as `Failure(MissingKey)`, and `Buildable` lists the lookups.

## Left out

- **Flask.** The HTTP routes, CORS, CSV decoding, the `dataset_info` counts and the JSON error responses are not modelled. They are interface code around the core.
- **Synthetic data.** `generate_synthetic_data` is not modelled. It builds test data with a seeded random generator.
- **The solver.** PuLP and CBC are not modelled. The solver's answer (a status plus the values of the variables that have one) is a parameter. What a correct solver promises is the predicate `HonoursContract`. The model does not claim that the solver keeps it.
- **Constraint construction.** The constraints are modelled as predicates on an assignment (`Feasible`), not as the loops that add rows to the PuLP model. Variable naming inside PuLP, including name collisions, is not modelled.
- **Exact reals.** Quantities are exact reals, not floats. `round(val, 2)` in the reports is left out: entries carry the unrounded value. f-string formatting of the detail lines is left out: `Detail` carries the numbers.
- **Which KeyError.** The model records that some lookup fails (`MissingKey`), not which key fails first.
- **Coefficient simplification.** An objective term whose coefficient is 0 is kept in the sum, whether or not PuLP would drop it from the expression.
- **pandas typing.** Column types are not modelled. Cold flags are reals, and weeks are integers, which `t - 1` requires.
- Orchestrator.OptimalResultIsCheapestPlan: assumes `HonoursContract`, since app.py does not establish that the solver is correct.
- Diagnoser.ProductionCheckedFirst: shows that the production check ignores initial inventory. A firing production or storage check does not imply infeasibility, because the condition each check tests is not necessary for feasibility: `DiagnosisLimits.ProductionCauseDespiteFeasiblePlan` and `DiagnosisLimits.StorageCauseDespiteFeasiblePlan` give feasible tables that they blame. A condition that is necessary for feasibility counts initial stock with capacity (`ProductionBound.FeasiblePlanNeedsCapacityOrStock`). Only without initial stock does a production diagnosis imply infeasibility (`ProductionBound.ProductionCauseWithoutStockIsInfeasible`).
- Formulation.CumulativeInflowCoversServiceLevel: requires the balance, non-negativity and shortage constraints rather than all of `Feasible`. It therefore holds for more plans than the feasible ones.
