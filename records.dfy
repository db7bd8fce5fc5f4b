/** The input table and the index sets and parameter dictionaries that
    `solve_optimization` and `explain_infeasibility` derive from it. */
module Records {
  import opened Seqs
  import opened Dicts

  type Plant = string
  type Center = string
  type Drug = string
  type Week = int

  /** One row of the input table. `needsUltraCold` is the 0/1 flag the
      objective multiplies by the cold-chain surcharge. */
  datatype Row = Row(
    plant: Plant, center: Center, drug: Drug, week: Week,
    baseTransportCost: real, needsUltraCold: real, holdingCost: real,
    shortagePenalty: real, wasteCost: real, demand: real,
    plantWeekCapacity: real, centerStorageCapacity: real, initialInventory: real)

  // Column projections and dictionary keys, named so that every use denotes the same function.
  function PlantOf(r: Row): Plant { r.plant }
  function CenterOf(r: Row): Center { r.center }
  function DrugOf(r: Row): Drug { r.drug }
  function WeekOf(r: Row): Week { r.week }
  function PlantCenterOf(r: Row): (Plant, Center) { (r.plant, r.center) }
  function CenterDrugOf(r: Row): (Center, Drug) { (r.center, r.drug) }
  function CellOf(r: Row): (Center, Drug, Week) { (r.center, r.drug, r.week) }
  function PlantWeekOf(r: Row): (Plant, Week) { (r.plant, r.week) }
  function BaseTransportCostOf(r: Row): real { r.baseTransportCost }
  function NeedsUltraColdOf(r: Row): real { r.needsUltraCold }
  function HoldingCostOf(r: Row): real { r.holdingCost }
  function ShortagePenaltyOf(r: Row): real { r.shortagePenalty }
  function WasteCostOf(r: Row): real { r.wasteCost }
  function DemandOf(r: Row): real { r.demand }
  function PlantWeekCapacityOf(r: Row): real { r.plantWeekCapacity }
  function CenterStorageCapacityOf(r: Row): real { r.centerStorageCapacity }
  function InitialInventoryOf(r: Row): real { r.initialInventory }

  /** The comprehension filter that keeps every row. */
  function Always(r: Row): bool { true }

  /** The comprehension filter `if r.week == w`. */
  function InWeek(w: Week): Row -> bool {
    (r: Row) => r.week == w
  }

  /** Index sets and parameter dictionaries of one solve. */
  datatype Params = Params(
    plants: seq<Plant>, centers: seq<Center>, drugs: seq<Drug>, weeks: seq<Week>,
    baseCost: Dict<(Plant, Center), real>,
    coldFlag: Dict<Drug, real>,
    holding: Dict<(Center, Drug), real>,
    penalty: Dict<Drug, real>,
    wasteCost: Dict<Drug, real>,
    demand: Dict<(Center, Drug, Week), real>,
    prodCap: Dict<(Plant, Week), real>,
    storageCap: Dict<Center, real>,
    initInventory: Dict<(Center, Drug), real>)
  {
    // Lookups. Only InitialInventory defaults to 0 in app.py; for the
    // others the default is never reached once Buildable holds.
    function BaseCost(i: Plant, j: Center): real { baseCost.Get((i, j), 0.0) }
    function ColdFlag(k: Drug): real { coldFlag.Get(k, 0.0) }
    function Holding(j: Center, k: Drug): real { holding.Get((j, k), 0.0) }
    function Penalty(k: Drug): real { penalty.Get(k, 0.0) }
    function WasteCost(k: Drug): real { wasteCost.Get(k, 0.0) }
    function Demand(j: Center, k: Drug, t: Week): real { demand.Get((j, k, t), 0.0) }
    function ProdCap(i: Plant, t: Week): real { prodCap.Get((i, t), 0.0) }
    function StorageCap(j: Center): real { storageCap.Get(j, 0.0) }
    /** `init_inventory.get((j, k), 0)` */
    function InitialInventory(j: Center, k: Drug): real { initInventory.Get((j, k), 0.0) }
  }

  /** `df["plant"].unique()` */
  function Plants(rows: seq<Row>): (ps: seq<Plant>)
    ensures NoDups(ps)
    ensures forall i :: i in ps <==> exists n :: 0 <= n < |rows| && rows[n].plant == i
  {
    Distinct(Column(rows, PlantOf))
  }

  /** `df["center"].unique()` */
  function Centers(rows: seq<Row>): (cs: seq<Center>)
    ensures NoDups(cs)
    ensures forall j :: j in cs <==> exists n :: 0 <= n < |rows| && rows[n].center == j
  {
    Distinct(Column(rows, CenterOf))
  }

  /** `df["drug"].unique()` */
  function Drugs(rows: seq<Row>): (ds: seq<Drug>)
    ensures NoDups(ds)
    ensures forall k :: k in ds <==> exists n :: 0 <= n < |rows| && rows[n].drug == k
  {
    Distinct(Column(rows, DrugOf))
  }

  /** `unique()` lists plants, centers and drugs in the order of their first
      rows: every row holding a later element comes after a row holding an
      earlier one. */
  lemma IndexListsFollowFirstRows(rows: seq<Row>)
    ensures FirstSeenInOrder(Column(rows, PlantOf), Plants(rows))
    ensures FirstSeenInOrder(Column(rows, CenterOf), Centers(rows))
    ensures FirstSeenInOrder(Column(rows, DrugOf), Drugs(rows))
  {
    DistinctFollowsFirstOccurrences(Column(rows, PlantOf));
    DistinctFollowsFirstOccurrences(Column(rows, CenterOf));
    DistinctFollowsFirstOccurrences(Column(rows, DrugOf));
  }

  /** `sorted(df["week"].unique())` */
  function Weeks(rows: seq<Row>): (ws: seq<Week>)
    ensures StrictlyIncreasing(ws)
    ensures forall t :: t in ws <==> exists n :: 0 <= n < |rows| && rows[n].week == t
    ensures rows != [] ==> ws != []
  {
    assert rows != [] ==> Column(rows, WeekOf)[0] in Column(rows, WeekOf);
    SortedUnique(Column(rows, WeekOf))
  }

  /** `{(r.center, r.drug): r.initial_inventory for r in df.itertuples() if r.week == weeks[0]}`;
      with no rows the filter, and so `weeks[0]`, is never evaluated. */
  function InitialInventories(rows: seq<Row>, weeks: seq<Week>): (d: Dict<(Center, Drug), real>)
    ensures d.Valid()
    ensures weeks != [] ==> forall j, k :: (j, k) in d.table <==>
              exists n :: 0 <= n < |rows| && rows[n].week == weeks[0] && rows[n].center == j && rows[n].drug == k
    ensures rows == [] ==> d.table == map[]
  {
    if weeks == [] then Dict([], map[])
    else
      FirstWeekKeys(rows, weeks[0]);
      Comprehension(rows, InWeek(weeks[0]), CenterDrugOf, InitialInventoryOf)
  }

  lemma FirstWeekKeys(rows: seq<Row>, w: Week)
    ensures forall j, k :: (j, k) in Comprehension(rows, InWeek(w), CenterDrugOf, InitialInventoryOf).table <==>
              exists n :: 0 <= n < |rows| && rows[n].week == w && rows[n].center == j && rows[n].drug == k
  {
    var d := Comprehension(rows, InWeek(w), CenterDrugOf, InitialInventoryOf);
    forall j, k | (j, k) in d.table
      ensures exists n :: 0 <= n < |rows| && rows[n].week == w && rows[n].center == j && rows[n].drug == k
    {
      var n := KeyHasKeptRow(rows, InWeek(w), CenterDrugOf, (j, k));
    }
    forall j, k | exists n :: 0 <= n < |rows| && rows[n].week == w && rows[n].center == j && rows[n].drug == k
      ensures (j, k) in d.table
    {
      var n :| 0 <= n < |rows| && rows[n].week == w && rows[n].center == j && rows[n].drug == k;
      assert InWeek(w)(rows[n]) && CenterDrugOf(rows[n]) == (j, k);
    }
  }

  /** A (center, drug) pair with no row in the first week has no initial inventory entry. */
  lemma NoFirstWeekRowNoEntry(rows: seq<Row>, j: Center, k: Drug)
    requires forall n :: 0 <= n < |rows| && rows[n].center == j ==> rows[n].week != Weeks(rows)[0]
    ensures (j, k) !in InitialInventories(rows, Weeks(rows)).table
  {
    if rows == [] {
      assert InitialInventories(rows, Weeks(rows)).table == map[];
    }
  }

  /** Index sets and parameter dictionaries, as `solve_optimization` and `explain_infeasibility` build them. */
  function Derive(rows: seq<Row>): Params
  {
    var weeks := Weeks(rows);
    Params(
      plants := Plants(rows),
      centers := Centers(rows),
      drugs := Drugs(rows),
      weeks := weeks,
      baseCost := Comprehension(rows, Always, PlantCenterOf, BaseTransportCostOf),
      coldFlag := Comprehension(rows, Always, DrugOf, NeedsUltraColdOf),
      holding := Comprehension(rows, Always, CenterDrugOf, HoldingCostOf),
      penalty := Comprehension(rows, Always, DrugOf, ShortagePenaltyOf),
      wasteCost := Comprehension(rows, Always, DrugOf, WasteCostOf),
      demand := Comprehension(rows, Always, CellOf, DemandOf),
      prodCap := Comprehension(rows, Always, PlantWeekOf, PlantWeekCapacityOf),
      storageCap := Comprehension(rows, Always, CenterOf, CenterStorageCapacityOf),
      initInventory := InitialInventories(rows, weeks))
  }

  /** The parameters of a table that holds the single row `r`. */
  function OneRowParams(r: Row): Params {
    Params(
      [r.plant], [r.center], [r.drug], [r.week],
      Dict([(r.plant, r.center)], map[(r.plant, r.center) := r.baseTransportCost]),
      Dict([r.drug], map[r.drug := r.needsUltraCold]),
      Dict([(r.center, r.drug)], map[(r.center, r.drug) := r.holdingCost]),
      Dict([r.drug], map[r.drug := r.shortagePenalty]),
      Dict([r.drug], map[r.drug := r.wasteCost]),
      Dict([(r.center, r.drug, r.week)], map[(r.center, r.drug, r.week) := r.demand]),
      Dict([(r.plant, r.week)], map[(r.plant, r.week) := r.plantWeekCapacity]),
      Dict([r.center], map[r.center := r.centerStorageCapacity]),
      Dict([(r.center, r.drug)], map[(r.center, r.drug) := r.initialInventory]))
  }

  /** A table of one row gives one-element index lists and dictionaries with
      that row's single entry each. */
  lemma DeriveOneRow(r: Row)
    ensures Derive([r]) == OneRowParams(r)
  {
    OneRowIndexLists(r);
    OneRowCosts(r);
    OneRowQuantities(r);
  }

  lemma OneRowCosts(r: Row)
    ensures var p := Derive([r]);
      && p.baseCost == Dict([(r.plant, r.center)], map[(r.plant, r.center) := r.baseTransportCost])
      && p.coldFlag == Dict([r.drug], map[r.drug := r.needsUltraCold])
      && p.holding == Dict([(r.center, r.drug)], map[(r.center, r.drug) := r.holdingCost])
      && p.penalty == Dict([r.drug], map[r.drug := r.shortagePenalty])
      && p.wasteCost == Dict([r.drug], map[r.drug := r.wasteCost])
  {
    ComprehensionOfOneRow(r, Always, PlantCenterOf, BaseTransportCostOf);
    ComprehensionOfOneRow(r, Always, DrugOf, NeedsUltraColdOf);
    ComprehensionOfOneRow(r, Always, CenterDrugOf, HoldingCostOf);
    ComprehensionOfOneRow(r, Always, DrugOf, ShortagePenaltyOf);
    ComprehensionOfOneRow(r, Always, DrugOf, WasteCostOf);
  }

  lemma OneRowQuantities(r: Row)
    ensures var p := Derive([r]);
      && p.demand == Dict([(r.center, r.drug, r.week)], map[(r.center, r.drug, r.week) := r.demand])
      && p.prodCap == Dict([(r.plant, r.week)], map[(r.plant, r.week) := r.plantWeekCapacity])
      && p.storageCap == Dict([r.center], map[r.center := r.centerStorageCapacity])
      && p.initInventory == Dict([(r.center, r.drug)], map[(r.center, r.drug) := r.initialInventory])
  {
    OneRowIndexLists(r);
    ComprehensionOfOneRow(r, Always, CellOf, DemandOf);
    ComprehensionOfOneRow(r, Always, PlantWeekOf, PlantWeekCapacityOf);
    ComprehensionOfOneRow(r, Always, CenterOf, CenterStorageCapacityOf);
    assert InWeek(r.week)(r);
    ComprehensionOfOneRow(r, InWeek(r.week), CenterDrugOf, InitialInventoryOf);
  }

  lemma OneRowIndexLists(r: Row)
    ensures Plants([r]) == [r.plant] && Centers([r]) == [r.center] && Drugs([r]) == [r.drug]
    ensures Weeks([r]) == [r.week]
  {
    var rows := [r];
    assert Column(rows, PlantOf) == [r.plant] && Column(rows, CenterOf) == [r.center];
    assert Column(rows, DrugOf) == [r.drug] && Column(rows, WeekOf) == [r.week];
    DistinctOfOne(r.plant);
    DistinctOfOne(r.center);
    DistinctOfOne(r.drug);
    assert [r.week][..0] == [];
    assert SortedUnique([r.week]) == InsertUnique(r.week, SortedUnique([]));
  }

  lemma DistinctOfOne<T>(x: T)
    ensures Distinct([x]) == [x]
  {
    assert [x][..0] == [];
  }

  lemma ComprehensionOfOneRow<K, V>(r: Row, keep: Row -> bool, key: Row -> K, val: Row -> V)
    requires keep(r)
    ensures Comprehension([r], keep, key, val) == Dict([key(r)], map[key(r) := val(r)])
  {
    assert [r][..0] == [];
  }

  /** `storage_cap[j]`, `cold_flag[k]`, `penalty[k]` and `waste_cost[k]` never
      fail: the dictionaries keyed by one column hold every value of that column. */
  lemma SingleColumnKeysPresent(rows: seq<Row>)
    ensures var p := Derive(rows);
      && (forall j :: j in p.centers <==> j in p.storageCap.table)
      && (forall k :: k in p.drugs <==> k in p.coldFlag.table)
      && (forall k :: k in p.drugs <==> k in p.penalty.table)
      && (forall k :: k in p.drugs <==> k in p.wasteCost.table)
  {
    var p := Derive(rows);
    forall j | j in p.centers ensures j in p.storageCap.table {
      var n :| 0 <= n < |rows| && rows[n].center == j;
      assert Always(rows[n]) && CenterOf(rows[n]) == j;
    }
    forall k | k in p.drugs
      ensures k in p.coldFlag.table && k in p.penalty.table && k in p.wasteCost.table
    {
      var n :| 0 <= n < |rows| && rows[n].drug == k;
      assert Always(rows[n]) && DrugOf(rows[n]) == k;
    }
    forall j | j in p.storageCap.table ensures j in p.centers {
      var n := KeyHasKeptRow(rows, Always, CenterOf, j);
    }
    forall k | k in p.coldFlag.table ensures k in p.drugs {
      var n := KeyHasKeptRow(rows, Always, DrugOf, k);
    }
    forall k | k in p.penalty.table ensures k in p.drugs {
      var n := KeyHasKeptRow(rows, Always, DrugOf, k);
    }
    forall k | k in p.wasteCost.table ensures k in p.drugs {
      var n := KeyHasKeptRow(rows, Always, DrugOf, k);
    }
  }

  /** A cost dictionary holds, for each key, the value of the last row with that key. */
  lemma CostsComeFromLastRow(rows: seq<Row>, n: nat)
    requires n < |rows|
    ensures var p, r := Derive(rows), rows[n];
      && (IsLastKept(rows, Always, PlantCenterOf, n) ==> p.baseCost.table[(r.plant, r.center)] == r.baseTransportCost)
      && (IsLastKept(rows, Always, DrugOf, n) ==> p.coldFlag.table[r.drug] == r.needsUltraCold)
      && (IsLastKept(rows, Always, CenterDrugOf, n) ==> p.holding.table[(r.center, r.drug)] == r.holdingCost)
      && (IsLastKept(rows, Always, DrugOf, n) ==> p.penalty.table[r.drug] == r.shortagePenalty)
      && (IsLastKept(rows, Always, DrugOf, n) ==> p.wasteCost.table[r.drug] == r.wasteCost)
  {
    if IsLastKept(rows, Always, PlantCenterOf, n) {
      ComprehensionKeepsLastRow(rows, Always, PlantCenterOf, BaseTransportCostOf, n);
    }
    if IsLastKept(rows, Always, DrugOf, n) {
      ComprehensionKeepsLastRow(rows, Always, DrugOf, NeedsUltraColdOf, n);
      ComprehensionKeepsLastRow(rows, Always, DrugOf, ShortagePenaltyOf, n);
      ComprehensionKeepsLastRow(rows, Always, DrugOf, WasteCostOf, n);
    }
    if IsLastKept(rows, Always, CenterDrugOf, n) {
      ComprehensionKeepsLastRow(rows, Always, CenterDrugOf, HoldingCostOf, n);
    }
  }

  /** Demand, capacities and initial inventory: each key holds the value of the
      last row with that key; for initial inventory, the last first-week row. */
  lemma QuantitiesComeFromLastRow(rows: seq<Row>, n: nat)
    requires n < |rows|
    ensures var p, r := Derive(rows), rows[n];
      && (IsLastKept(rows, Always, CellOf, n) ==> p.demand.table[(r.center, r.drug, r.week)] == r.demand)
      && (IsLastKept(rows, Always, PlantWeekOf, n) ==> p.prodCap.table[(r.plant, r.week)] == r.plantWeekCapacity)
      && (IsLastKept(rows, Always, CenterOf, n) ==> p.storageCap.table[r.center] == r.centerStorageCapacity)
      && (IsLastKept(rows, InWeek(p.weeks[0]), CenterDrugOf, n) ==>
            p.initInventory.table[(r.center, r.drug)] == r.initialInventory)
  {
    if IsLastKept(rows, Always, CellOf, n) {
      ComprehensionKeepsLastRow(rows, Always, CellOf, DemandOf, n);
    }
    if IsLastKept(rows, Always, PlantWeekOf, n) {
      ComprehensionKeepsLastRow(rows, Always, PlantWeekOf, PlantWeekCapacityOf, n);
    }
    if IsLastKept(rows, Always, CenterOf, n) {
      ComprehensionKeepsLastRow(rows, Always, CenterOf, CenterStorageCapacityOf, n);
    }
    var weeks := Weeks(rows);
    if IsLastKept(rows, InWeek(weeks[0]), CenterDrugOf, n) {
      ComprehensionKeepsLastRow(rows, InWeek(weeks[0]), CenterDrugOf, InitialInventoryOf, n);
    }
  }

  /** `solve_optimization` finds every dictionary entry and variable it looks up with
      `[...]` while building the objective and the constraints (otherwise it
      raises KeyError). The checks follow the order of its loops. */
  predicate Buildable(p: Params) {
    // objective: base_cost[(i, j)], cold_flag[k], holding[(j, k)], penalty[k], waste_cost[k]
    && (forall i, j :: i in p.plants && j in p.centers ==> (i, j) in p.baseCost.table)
    && (forall k :: k in p.drugs ==> k in p.coldFlag.table)
    && (forall j, k :: j in p.centers && k in p.drugs ==> (j, k) in p.holding.table)
    && (forall k :: k in p.drugs ==> k in p.penalty.table && k in p.wasteCost.table)
    // inventory balance: demand[(j, k, t)], and y[j][k][t - 1] for every week but the first
    && (forall j, k, t :: j in p.centers && k in p.drugs && t in p.weeks ==> (j, k, t) in p.demand.table)
    && (forall t :: t in p.weeks && t != p.weeks[0] ==> t - 1 in p.weeks)
    // storage and production: storage_cap[j], prod_cap[(i, t)]
    && (forall j :: j in p.centers ==> j in p.storageCap.table)
    && (forall i, t :: i in p.plants && t in p.weeks ==> (i, t) in p.prodCap.table)
  }

  /** Looking up `t - 1` for every week but the first succeeds exactly when the
      ascending weeks are consecutive integers. */
  lemma {:induction false} PreviousWeekLookupsIffConsecutive(ws: seq<Week>)
    requires StrictlyIncreasing(ws)
    ensures (forall t :: t in ws && t != ws[0] ==> t - 1 in ws) <==>
            (forall n :: 0 <= n < |ws| ==> ws[n] == ws[0] + n)
  {
    if forall t :: t in ws && t != ws[0] ==> t - 1 in ws {
      forall n | 0 <= n < |ws| ensures ws[n] == ws[0] + n {
        ConsecutiveAt(ws, n);
      }
    }
    if forall n :: 0 <= n < |ws| ==> ws[n] == ws[0] + n {
      forall t | t in ws && t != ws[0] ensures t - 1 in ws {
        var n :| 0 <= n < |ws| && ws[n] == t;
        assert ws[n - 1] == t - 1;
      }
    }
  }

  lemma {:induction false} ConsecutiveAt(ws: seq<Week>, n: nat)
    requires StrictlyIncreasing(ws)
    requires forall t :: t in ws && t != ws[0] ==> t - 1 in ws
    requires n < |ws|
    ensures ws[n] == ws[0] + n
  {
    if n > 0 {
      ConsecutiveAt(ws, n - 1);
      assert ws[n] != ws[0] && ws[n] in ws;
      assert ws[n] - 1 in ws;
      var m :| 0 <= m < |ws| && ws[m] == ws[n] - 1;
    }
  }
}
