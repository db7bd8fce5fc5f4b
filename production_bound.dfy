/** What a feasible plan needs from the table: over the whole horizon the plants'
    capacity and the initial stock together cover the 95% of total demand that
    the service-level constraints ask for. This is the bound behind the
    production check of `explain_infeasibility`, which leaves the stock out. */
module ProductionBound {
  import opened Seqs
  import opened Dicts
  import opened Records
  import opened Formulation
  import opened Diagnoser
  import opened Extraction

  /** The initial stock of all centers and drugs, missing entries read as 0. */
  function InitialStock(p: Params): real {
    Sum(p.centers, InitialTotalAt(p))
  }

  function InitialTotalAt(p: Params): Center -> real {
    j => InitialTotal(p, j)
  }

  /** What reaches a cell from all plants. */
  function InflowAt(p: Params, a: Assignment): CellKey -> real {
    (c: CellKey) => Inflow(p, a, c.0, c.1, c.2)
  }

  // ---------------------------------------------------------------------------
  // The nested cell sum is the sum over the flat cell listing

  lemma {:induction false} WeekListingSum(j: Center, k: Drug, ws: seq<Week>, g: CellKey -> real)
    ensures Sum(WeekCellKeys(j, k, ws), g) == Sum(ws, CellAtWeek(g, j, k))
  {
    if ws != [] {
      var init, t := ws[..|ws| - 1], ws[|ws| - 1];
      WeekListingSum(j, k, init, g);
      SumConcat(WeekCellKeys(j, k, init), [(j, k, t)], g);
      SumOfOne((j, k, t), g);
    }
  }

  lemma {:induction false} DrugListingSum(p: Params, j: Center, ds: seq<Drug>, g: CellKey -> real)
    ensures Sum(DrugCellKeys(j, ds, p.weeks), g) == Sum(ds, CellOverWeeks(p, g, j))
  {
    if ds != [] {
      var init, k := ds[..|ds| - 1], ds[|ds| - 1];
      DrugListingSum(p, j, init, g);
      SumConcat(DrugCellKeys(j, init, p.weeks), WeekCellKeys(j, k, p.weeks), g);
      WeekListingSum(j, k, p.weeks, g);
    }
  }

  lemma {:induction false} CenterListingSum(p: Params, cs: seq<Center>, g: CellKey -> real)
    ensures Sum(CellKeys(cs, p.drugs, p.weeks), g) == Sum(cs, CellOverDrugs(p, g))
  {
    if cs != [] {
      var init, j := cs[..|cs| - 1], cs[|cs| - 1];
      CenterListingSum(p, init, g);
      SumConcat(CellKeys(init, p.drugs, p.weeks), DrugCellKeys(j, p.drugs, p.weeks), g);
      DrugListingSum(p, j, p.drugs, g);
    }
  }

  lemma CellSumIsListingSum(p: Params, g: CellKey -> real)
    ensures CellSum(p, g) == Sum(CellKeys(p.centers, p.drugs, p.weeks), g)
  {
    CenterListingSum(p, p.centers, g);
  }

  // ---------------------------------------------------------------------------
  // The plant and week listing of the production capacities

  function WeekKeysOf(i: Plant, ws: seq<Week>): seq<(Plant, Week)> {
    if ws == [] then []
    else
      assert ws == ws[..|ws| - 1] + [ws[|ws| - 1]];
      WeekKeysOf(i, ws[..|ws| - 1]) + [(i, ws[|ws| - 1])]
  }

  /** `for i in plants for t in weeks`, the index set of the production constraints. */
  function PlantWeekKeys(ps: seq<Plant>, ws: seq<Week>): seq<(Plant, Week)> {
    if ps == [] then []
    else
      assert ps == ps[..|ps| - 1] + [ps[|ps| - 1]];
      PlantWeekKeys(ps[..|ps| - 1], ws) + WeekKeysOf(ps[|ps| - 1], ws)
  }

  lemma {:induction false} WeekKeysOfMembers(i: Plant, ws: seq<Week>)
    ensures forall key :: key in WeekKeysOf(i, ws) <==> key.0 == i && key.1 in ws
  {
    if ws != [] {
      var init := ws[..|ws| - 1];
      assert ws == init + [ws[|ws| - 1]];
      WeekKeysOfMembers(i, init);
    }
  }

  lemma {:induction false} PlantWeekKeysMembers(ps: seq<Plant>, ws: seq<Week>)
    ensures forall key :: key in PlantWeekKeys(ps, ws) <==> key.0 in ps && key.1 in ws
  {
    if ps != [] {
      var init := ps[..|ps| - 1];
      assert ps == init + [ps[|ps| - 1]];
      PlantWeekKeysMembers(init, ws);
      WeekKeysOfMembers(ps[|ps| - 1], ws);
    }
  }

  lemma {:induction false} WeekKeysOfNoDups(i: Plant, ws: seq<Week>)
    requires NoDups(ws)
    ensures NoDups(WeekKeysOf(i, ws))
  {
    if ws != [] {
      var init, t := ws[..|ws| - 1], ws[|ws| - 1];
      assert ws == init + [t];
      WeekKeysOfNoDups(i, init);
      WeekKeysOfMembers(i, init);
      assert t !in init;
      NoDupsConcat(WeekKeysOf(i, init), [(i, t)]);
    }
  }

  lemma {:induction false} PlantWeekKeysNoDups(ps: seq<Plant>, ws: seq<Week>)
    requires NoDups(ps) && NoDups(ws)
    ensures NoDups(PlantWeekKeys(ps, ws))
  {
    if ps != [] {
      var init, i := ps[..|ps| - 1], ps[|ps| - 1];
      assert ps == init + [i];
      PlantWeekKeysNoDups(init, ws);
      WeekKeysOfNoDups(i, ws);
      PlantWeekKeysMembers(init, ws);
      WeekKeysOfMembers(i, ws);
      assert i !in init;
      NoDupsConcat(PlantWeekKeys(init, ws), WeekKeysOf(i, ws));
    }
  }

  /** The capacity of plant i over all weeks. */
  function PlantCapacity(p: Params): Plant -> real {
    i => Sum(p.weeks, CapacityByWeek(p, i))
  }

  function CapacityByWeek(p: Params, i: Plant): Week -> real {
    t => p.ProdCap(i, t)
  }

  lemma {:induction false} WeekKeysOfSum(p: Params, i: Plant, ws: seq<Week>)
    ensures Sum(WeekKeysOf(i, ws), ValueAt(p.prodCap)) == Sum(ws, CapacityByWeek(p, i))
  {
    if ws != [] {
      var init, t := ws[..|ws| - 1], ws[|ws| - 1];
      WeekKeysOfSum(p, i, init);
      SumConcat(WeekKeysOf(i, init), [(i, t)], ValueAt(p.prodCap));
      SumOfOne((i, t), ValueAt(p.prodCap));
    }
  }

  lemma {:induction false} PlantWeekKeysSum(p: Params, ps: seq<Plant>)
    ensures Sum(PlantWeekKeys(ps, p.weeks), ValueAt(p.prodCap)) == Sum(ps, PlantCapacity(p))
  {
    if ps != [] {
      var init, i := ps[..|ps| - 1], ps[|ps| - 1];
      PlantWeekKeysSum(p, init);
      SumConcat(PlantWeekKeys(init, p.weeks), WeekKeysOf(i, p.weeks), ValueAt(p.prodCap));
      WeekKeysOfSum(p, i, p.weeks);
    }
  }

  // ---------------------------------------------------------------------------
  // The dictionary sums of the diagnoser, as sums over the grids

  /** Every key of the demand dictionary is a cell of the grid. */
  lemma DemandKeysAreCells(rows: seq<Row>)
    ensures forall c :: c in Derive(rows).demand.table ==>
              c.0 in Derive(rows).centers && c.1 in Derive(rows).drugs && c.2 in Derive(rows).weeks
  {
    var p := Derive(rows);
    forall c | c in p.demand.table ensures c.0 in p.centers && c.1 in p.drugs && c.2 in p.weeks {
      var n := KeyHasKeptRow(rows, Always, CellOf, c);
      assert rows[n].center == c.0 && rows[n].drug == c.1 && rows[n].week == c.2;
    }
  }

  /** Every key of the capacity dictionary is a plant and a week of the grid. */
  lemma CapacityKeysArePlantWeeks(rows: seq<Row>)
    ensures forall key :: key in Derive(rows).prodCap.table ==>
              key.0 in Derive(rows).plants && key.1 in Derive(rows).weeks
  {
    var p := Derive(rows);
    forall key | key in p.prodCap.table ensures key.0 in p.plants && key.1 in p.weeks {
      var n := KeyHasKeptRow(rows, Always, PlantWeekOf, key);
      assert rows[n].plant == key.0 && rows[n].week == key.1;
    }
  }

  /** Index lists and dictionaries as `Derive` builds them: repeat-free lists,
      ascending weeks, and demand and capacity entries on the grid only. */
  predicate GridShaped(p: Params) {
    && NoDups(p.plants) && NoDups(p.centers) && NoDups(p.drugs) && StrictlyIncreasing(p.weeks)
    && p.demand.Valid() && p.prodCap.Valid()
    && (forall c :: c in p.demand.table ==> c.0 in p.centers && c.1 in p.drugs && c.2 in p.weeks)
    && (forall key :: key in p.prodCap.table ==> key.0 in p.plants && key.1 in p.weeks)
    && (p.centers != [] ==> p.weeks != [])
  }

  lemma DeriveIsGridShaped(rows: seq<Row>)
    ensures GridShaped(Derive(rows))
  {
    if Derive(rows).centers != [] {
      assert Derive(rows).centers[0] in Derive(rows).centers;
    }
    DemandKeysAreCells(rows);
    CapacityKeysArePlantWeeks(rows);
  }

  /** `sum(demand.values())` adds the demand of every cell of the grid once. */
  lemma TotalDemandIsCellSum(p: Params)
    requires Buildable(p) && GridShaped(p)
    ensures TotalDemand(p) == CellSum(p, ValueAt(p.demand))
  {
    var cells := CellKeys(p.centers, p.drugs, p.weeks);
    CellKeysMembers(p.centers, p.drugs, p.weeks);
    IncreasingHasNoDups(p.weeks);
    CellKeysNoDups(p.centers, p.drugs, p.weeks);
    forall c ensures c in p.demand.order <==> c in cells {
      assert c in p.demand.order <==> c in p.demand.table;
    }
    SumPermutation(p.demand.order, cells, ValueAt(p.demand));
    CellSumIsListingSum(p, ValueAt(p.demand));
  }

  /** `sum(prod_cap.values())` adds the capacity of every plant and week once. */
  lemma TotalProductionIsPlantSum(p: Params)
    requires Buildable(p) && GridShaped(p)
    ensures TotalProduction(p) == Sum(p.plants, PlantCapacity(p))
  {
    var keys := PlantWeekKeys(p.plants, p.weeks);
    PlantWeekKeysMembers(p.plants, p.weeks);
    IncreasingHasNoDups(p.weeks);
    PlantWeekKeysNoDups(p.plants, p.weeks);
    forall key ensures key in p.prodCap.order <==> key in keys {
      assert key in p.prodCap.order <==> key in p.prodCap.table;
    }
    SumPermutation(p.prodCap.order, keys, ValueAt(p.prodCap));
    PlantWeekKeysSum(p, p.plants);
  }

  // ---------------------------------------------------------------------------
  // Service level, summed over the cells

  /** Stock plus inflow of cell column (j, k) over the whole horizon covers 95% of its demand. */
  predicate CellCovered(p: Params, a: Assignment, j: Center, k: Drug) {
    InitialOfDrug(p, j)(k) + CellOverWeeks(p, InflowAt(p, a), j)(k) >= 0.95 * CellOverWeeks(p, ValueAt(p.demand), j)(k)
  }

  /** Stock plus inflow of one center over all drugs and weeks covers 95% of its demand. */
  predicate CenterCovered(p: Params, a: Assignment, j: Center) {
    InitialTotalAt(p)(j) + CellOverDrugs(p, InflowAt(p, a))(j) >= 0.95 * CellOverDrugs(p, ValueAt(p.demand))(j)
  }

  /** The service level, summed over the weeks of a feasible plan. */
  lemma CellCovers(p: Params, a: Assignment, j: Center, k: Drug)
    requires Buildable(p) && StrictlyIncreasing(p.weeks) && p.weeks != [] && Feasible(p, a)
    requires j in p.centers && k in p.drugs
    ensures CellCovered(p, a, j, k)
  {
    var n := |p.weeks| - 1;
    assert p.weeks[..n + 1] == p.weeks;
    CumulativeInflowCoversServiceLevel(p, a, j, k, n);
    SumEqual(p.weeks, CellAtWeek(InflowAt(p, a), j, k), InflowByWeek(p, a, j, k));
    SumEqual(p.weeks, CellAtWeek(ValueAt(p.demand), j, k), DemandByWeek(p, j, k));
  }

  /** Adds a bound `base + extra >= c * need` that holds element by element. */
  lemma SumCovers<T>(s: seq<T>, base: T -> real, extra: T -> real, need: T -> real, c: real)
    requires forall x :: x in s ==> base(x) + extra(x) >= c * need(x)
    ensures Sum(s, base) + Sum(s, extra) >= c * Sum(s, need)
  {
    SumAdd(s, base, extra, Plus(base, extra));
    SumScale(s, need, Times(need, c), c);
    SumLe(s, Times(need, c), Plus(base, extra));
  }

  function Plus<T>(f: T -> real, g: T -> real): T -> real {
    x => f(x) + g(x)
  }

  function Times<T>(f: T -> real, c: real): T -> real {
    x => c * f(x)
  }

  lemma CenterCovers(p: Params, a: Assignment, j: Center)
    requires forall k :: k in p.drugs ==> CellCovered(p, a, j, k)
    ensures CenterCovered(p, a, j)
  {
    SumCovers(p.drugs, InitialOfDrug(p, j), CellOverWeeks(p, InflowAt(p, a), j), CellOverWeeks(p, ValueAt(p.demand), j), 0.95);
  }

  /** Stock plus inflow over the whole grid covers 95% of the total demand. */
  lemma GridCovers(p: Params, a: Assignment)
    requires forall j, k :: j in p.centers && k in p.drugs ==> CellCovered(p, a, j, k)
    ensures InitialStock(p) + CellSum(p, InflowAt(p, a)) >= 0.95 * CellSum(p, ValueAt(p.demand))
  {
    forall j | j in p.centers ensures CenterCovered(p, a, j) {
      CenterCovers(p, a, j);
    }
    SumCovers(p.centers, InitialTotalAt(p), CellOverDrugs(p, InflowAt(p, a)), CellOverDrugs(p, ValueAt(p.demand)), 0.95);
  }

  // ---------------------------------------------------------------------------
  // Inflow, regrouped by plant, stays within the capacities

  function ShipAt(a: Assignment): (CellKey, Plant) -> real {
    (c: CellKey, i: Plant) => a.Ship(i, c.0, c.1, c.2)
  }

  /** What plant i ships to center j in week t summed over drugs, by center and week. */
  function CenterWeekShip(p: Params, a: Assignment, i: Plant): (Center, Week) -> real {
    (j: Center, t: Week) => ShippedToCenter(p, a, i, t)(j)
  }

  /** What plant i ships to cell (j, k, t), by drug and week for a fixed center. */
  function DrugWeekShip(a: Assignment, i: Plant, j: Center): (Drug, Week) -> real {
    (k: Drug, t: Week) => a.Ship(i, j, k, t)
  }

  /** Plant i's shipments to center j over all drugs and weeks, regrouped by week. */
  lemma CenterShipByWeek(p: Params, a: Assignment, i: Plant, j: Center)
    ensures CellOverDrugs(p, ColOf(ShipAt(a), i))(j) == Sum(p.weeks, RowOf(CenterWeekShip(p, a, i), j))
  {
    var h := ColOf(ShipAt(a), i);
    var f := DrugWeekShip(a, i, j);
    forall k | k in p.drugs ensures CellOverWeeks(p, h, j)(k) == RowSums(p.weeks, f)(k) {
      SumEqual(p.weeks, CellAtWeek(h, j, k), RowOf(f, k));
    }
    SumEqual(p.drugs, CellOverWeeks(p, h, j), RowSums(p.weeks, f));
    SumSwap(p.drugs, p.weeks, f);
    forall t | t in p.weeks ensures ColSums(p.drugs, f)(t) == RowOf(CenterWeekShip(p, a, i), j)(t) {
      SumEqual(p.drugs, ColOf(f, t), ShippedOfDrug(a, i, j, t));
      calc {
        RowOf(CenterWeekShip(p, a, i), j)(t);
        CenterWeekShip(p, a, i)(j, t);
        ShippedToCenter(p, a, i, t)(j);
      }
    }
    SumEqual(p.weeks, ColSums(p.drugs, f), RowOf(CenterWeekShip(p, a, i), j));
  }

  /** Everything plant i ships over the horizon stays within its capacity. */
  lemma PlantWithinCapacity(p: Params, a: Assignment, i: Plant)
    requires WithinProduction(p, a) && i in p.plants
    ensures CellSum(p, ColOf(ShipAt(a), i)) <= PlantCapacity(p)(i)
  {
    var f := CenterWeekShip(p, a, i);
    forall j | j in p.centers ensures CellOverDrugs(p, ColOf(ShipAt(a), i))(j) == RowSums(p.weeks, f)(j) {
      CenterShipByWeek(p, a, i, j);
    }
    SumEqual(p.centers, CellOverDrugs(p, ColOf(ShipAt(a), i)), RowSums(p.weeks, f));
    SumSwap(p.centers, p.weeks, f);
    forall t | t in p.weeks ensures ColSums(p.centers, f)(t) <= CapacityByWeek(p, i)(t) {
      SumEqual(p.centers, ColOf(f, t), ShippedToCenter(p, a, i, t));
    }
    SumLe(p.weeks, ColSums(p.centers, f), CapacityByWeek(p, i));
  }

  /** What reaches the cells over the horizon stays within the plants' total capacity. */
  lemma InflowWithinCapacity(p: Params, a: Assignment)
    requires WithinProduction(p, a)
    ensures CellSum(p, InflowAt(p, a)) <= Sum(p.plants, PlantCapacity(p))
  {
    var cells := CellKeys(p.centers, p.drugs, p.weeks);
    CellSumIsListingSum(p, InflowAt(p, a));
    forall c | c in cells ensures InflowAt(p, a)(c) == RowSums(p.plants, ShipAt(a))(c) {
      SumEqual(p.plants, ShipmentFromPlant(a, c.0, c.1, c.2), RowOf(ShipAt(a), c));
    }
    SumEqual(cells, InflowAt(p, a), RowSums(p.plants, ShipAt(a)));
    SumSwap(cells, p.plants, ShipAt(a));
    forall i | i in p.plants ensures ColSums(cells, ShipAt(a))(i) <= PlantCapacity(p)(i) {
      CellSumIsListingSum(p, ColOf(ShipAt(a), i));
      PlantWithinCapacity(p, a, i);
    }
    SumLe(p.plants, ColSums(cells, ShipAt(a)), PlantCapacity(p));
  }

  // ---------------------------------------------------------------------------
  // The bound

  /** A table with a feasible plan has production capacity and initial stock that
      together reach 95% of its total demand. */
  lemma FeasiblePlanNeedsCapacityOrStock(rows: seq<Row>, a: Assignment)
    requires Buildable(Derive(rows)) && Feasible(Derive(rows), a)
    ensures TotalProduction(Derive(rows)) + InitialStock(Derive(rows)) >= RequiredProduction(Derive(rows))
  {
    DeriveIsGridShaped(rows);
    CapacityCoversGridDemand(Derive(rows), a);
  }

  lemma CapacityCoversGridDemand(p: Params, a: Assignment)
    requires Buildable(p) && GridShaped(p) && Feasible(p, a)
    ensures TotalProduction(p) + InitialStock(p) >= RequiredProduction(p)
  {
    TotalDemandIsCellSum(p);
    TotalProductionIsPlantSum(p);
    if p.weeks == [] {
      // no rows: no centers, and every plant has an empty horizon
      SumConst(p.plants, PlantCapacity(p), 0.0);
    } else {
      forall j, k | j in p.centers && k in p.drugs ensures CellCovered(p, a, j, k) {
        CellCovers(p, a, j, k);
      }
      GridCovers(p, a);
      InflowWithinCapacity(p, a);
    }
  }

  /** When the table holds no initial stock, the production check of
      `explain_infeasibility` fires only on tables that have no feasible plan. */
  lemma ProductionCauseWithoutStockIsInfeasible(rows: seq<Row>)
    requires Buildable(Derive(rows)) && InitialStock(Derive(rows)) <= 0.0
    requires Diagnosis(Derive(rows)).rootCause == PRODUCTION_TOO_LOW
    ensures forall a :: !Feasible(Derive(rows), a)
  {
    ProductionCheckedFirst(Derive(rows), Derive(rows).storageCap, Derive(rows).initInventory);
    forall a ensures !Feasible(Derive(rows), a) {
      if Feasible(Derive(rows), a) {
        FeasiblePlanNeedsCapacityOrStock(rows, a);
      }
    }
  }
}
