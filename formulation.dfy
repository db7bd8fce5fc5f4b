/** The linear program `solve_optimization` builds: four families of
    non-negative variables, a linear objective and four constraint families,
    read here as a feasibility predicate over an assignment of values to the
    variables, and as a function that evaluates the objective. */
module Formulation {
  import opened Seqs
  import opened Dicts
  import opened Records

  type ShipKey = (Plant, Center, Drug, Week)
  type CellKey = (Center, Drug, Week)

  /** Values for the variables `ship` (x), `inv` (y), `short` (s) and `expire`
      (e). A key without a value stands for a variable whose value is None. */
  datatype Assignment = Assignment(
    ship: map<ShipKey, real>, inv: map<CellKey, real>,
    short: map<CellKey, real>, expire: map<CellKey, real>)
  {
    function Ship(i: Plant, j: Center, k: Drug, t: Week): real {
      if (i, j, k, t) in ship then ship[(i, j, k, t)] else 0.0
    }
    function Inv(j: Center, k: Drug, t: Week): real {
      if (j, k, t) in inv then inv[(j, k, t)] else 0.0
    }
    function Short(j: Center, k: Drug, t: Week): real {
      if (j, k, t) in short then short[(j, k, t)] else 0.0
    }
    function Expire(j: Center, k: Drug, t: Week): real {
      if (j, k, t) in expire then expire[(j, k, t)] else 0.0
    }
  }

  // Objective weights and the cold-chain surcharge.
  const ALPHA: real := 1.0
  const BETA: real := 0.7
  const GAMMA: real := 4.0
  const DELTA: real := 3.0
  const H_COLD: real := 3.0

  /** Every variable of the model has a value. */
  predicate Complete(p: Params, a: Assignment) {
    && (forall i, j, k, t :: i in p.plants && j in p.centers && k in p.drugs && t in p.weeks ==>
          (i, j, k, t) in a.ship)
    && (forall j, k, t :: j in p.centers && k in p.drugs && t in p.weeks ==>
          (j, k, t) in a.inv && (j, k, t) in a.short && (j, k, t) in a.expire)
  }

  /** `lowBound=0` on all four families. */
  predicate NonNegative(p: Params, a: Assignment) {
    && (forall i, j, k, t :: i in p.plants && j in p.centers && k in p.drugs && t in p.weeks ==>
          a.Ship(i, j, k, t) >= 0.0)
    && (forall j, k, t :: j in p.centers && k in p.drugs && t in p.weeks ==>
          a.Inv(j, k, t) >= 0.0 && a.Short(j, k, t) >= 0.0 && a.Expire(j, k, t) >= 0.0)
  }

  /** `inflow = lpSum(x[i][j][k][t] for i in plants)` */
  function Inflow(p: Params, a: Assignment, j: Center, k: Drug, t: Week): real {
    Sum(p.plants, ShipmentFromPlant(a, j, k, t))
  }

  function ShipmentFromPlant(a: Assignment, j: Center, k: Drug, t: Week): Plant -> real {
    i => a.Ship(i, j, k, t)
  }

  /** Stock carried into week t: the initial inventory (0 when absent) in the
      first week, the previous week's inventory variable otherwise. */
  function Previous(p: Params, a: Assignment, j: Center, k: Drug, t: Week): real
    requires t in p.weeks
  {
    if t == p.weeks[0] then p.InitialInventory(j, k) else a.Inv(j, k, t - 1)
  }

  /** Inventory balance for center j, drug k and week t. */
  predicate BalancedAt(p: Params, a: Assignment, j: Center, k: Drug, t: Week)
    requires t in p.weeks
  {
    a.Inv(j, k, t) ==
      Previous(p, a, j, k, t) + Inflow(p, a, j, k, t) - p.Demand(j, k, t)
      + a.Short(j, k, t) - a.Expire(j, k, t)
  }

  /** Inventory balance, one equation per center, drug and week. */
  predicate Balanced(p: Params, a: Assignment) {
    forall j, k, t :: j in p.centers && k in p.drugs && t in p.weeks ==> BalancedAt(p, a, j, k, t)
  }

  /** `lpSum(y[j][k][t] for k in drugs)` */
  function Stored(p: Params, a: Assignment, j: Center, t: Week): real {
    Sum(p.drugs, InventoryOfDrug(a, j, t))
  }

  function InventoryOfDrug(a: Assignment, j: Center, t: Week): Drug -> real {
    k => a.Inv(j, k, t)
  }

  /** Storage: the inventory of all drugs at a center fits its capacity, every week. */
  predicate WithinStorage(p: Params, a: Assignment) {
    forall j, t :: j in p.centers && t in p.weeks ==> Stored(p, a, j, t) <= p.StorageCap(j)
  }

  /** `lpSum(x[i][j][k][t] for j in centers for k in drugs)` */
  function Released(p: Params, a: Assignment, i: Plant, t: Week): real {
    Sum(p.centers, ShippedToCenter(p, a, i, t))
  }

  function ShippedToCenter(p: Params, a: Assignment, i: Plant, t: Week): Center -> real {
    j => Sum(p.drugs, ShippedOfDrug(a, i, j, t))
  }

  function ShippedOfDrug(a: Assignment, i: Plant, j: Center, t: Week): Drug -> real {
    k => a.Ship(i, j, k, t)
  }

  /** Production: what a plant ships in a week stays within its capacity for that week. */
  predicate WithinProduction(p: Params, a: Assignment) {
    forall i, t :: i in p.plants && t in p.weeks ==> Released(p, a, i, t) <= p.ProdCap(i, t)
  }

  /** Service level: `s[j][k][t] <= 0.05 * demand[(j, k, t)]`. */
  predicate WithinShortageCeiling(p: Params, a: Assignment) {
    forall j, k, t :: j in p.centers && k in p.drugs && t in p.weeks ==>
      a.Short(j, k, t) <= 0.05 * p.Demand(j, k, t)
  }

  /** An assignment that satisfies every constraint of the model. */
  predicate Feasible(p: Params, a: Assignment)
    requires Buildable(p)
  {
    && Complete(p, a)
    && NonNegative(p, a)
    && Balanced(p, a)
    && WithinStorage(p, a)
    && WithinProduction(p, a)
    && WithinShortageCeiling(p, a)
  }

  // ---------------------------------------------------------------------------
  // Sums over the plant x center x drug x week grid and the center x drug x week grid,
  // nested in the order of the loops of `solve_optimization`.

  function GridSum(p: Params, f: ShipKey -> real): real {
    Sum(p.plants, OverCenters(p, f))
  }
  function OverCenters(p: Params, f: ShipKey -> real): Plant -> real {
    i => Sum(p.centers, OverDrugs(p, f, i))
  }
  function OverDrugs(p: Params, f: ShipKey -> real, i: Plant): Center -> real {
    j => Sum(p.drugs, OverWeeks(p, f, i, j))
  }
  function OverWeeks(p: Params, f: ShipKey -> real, i: Plant, j: Center): Drug -> real {
    k => Sum(p.weeks, AtWeek(f, i, j, k))
  }
  function AtWeek(f: ShipKey -> real, i: Plant, j: Center, k: Drug): Week -> real {
    t => f((i, j, k, t))
  }

  function CellSum(p: Params, g: CellKey -> real): real {
    Sum(p.centers, CellOverDrugs(p, g))
  }
  function CellOverDrugs(p: Params, g: CellKey -> real): Center -> real {
    j => Sum(p.drugs, CellOverWeeks(p, g, j))
  }
  function CellOverWeeks(p: Params, g: CellKey -> real, j: Center): Drug -> real {
    k => Sum(p.weeks, CellAtWeek(g, j, k))
  }
  function CellAtWeek(g: CellKey -> real, j: Center, k: Drug): Week -> real {
    t => g((j, k, t))
  }

  /** Sums over the grid add up pointwise. */
  lemma GridSumAdd(p: Params, f: ShipKey -> real, g: ShipKey -> real, h: ShipKey -> real)
    requires forall i, j, k, t :: i in p.plants && j in p.centers && k in p.drugs && t in p.weeks ==>
               h((i, j, k, t)) == f((i, j, k, t)) + g((i, j, k, t))
    ensures GridSum(p, h) == GridSum(p, f) + GridSum(p, g)
  {
    forall i | i in p.plants
      ensures OverCenters(p, h)(i) == OverCenters(p, f)(i) + OverCenters(p, g)(i)
    {
      forall j | j in p.centers
        ensures OverDrugs(p, h, i)(j) == OverDrugs(p, f, i)(j) + OverDrugs(p, g, i)(j)
      {
        forall k | k in p.drugs
          ensures OverWeeks(p, h, i, j)(k) == OverWeeks(p, f, i, j)(k) + OverWeeks(p, g, i, j)(k)
        {
          forall t | t in p.weeks ensures AtWeek(h, i, j, k)(t) == AtWeek(f, i, j, k)(t) + AtWeek(g, i, j, k)(t) {
            assert h((i, j, k, t)) == f((i, j, k, t)) + g((i, j, k, t));
          }
          SumAdd(p.weeks, AtWeek(f, i, j, k), AtWeek(g, i, j, k), AtWeek(h, i, j, k));
        }
        SumAdd(p.drugs, OverWeeks(p, f, i, j), OverWeeks(p, g, i, j), OverWeeks(p, h, i, j));
      }
      SumAdd(p.centers, OverDrugs(p, f, i), OverDrugs(p, g, i), OverDrugs(p, h, i));
    }
    SumAdd(p.plants, OverCenters(p, f), OverCenters(p, g), OverCenters(p, h));
  }

  /** A grid summand made of a part that depends on the plant and a part that
      does not: the second part is counted once per plant. */
  lemma GridSumSplitsOffCellPart(p: Params, h: ShipKey -> real, f: ShipKey -> real, g: CellKey -> real)
    requires forall i, j, k, t :: i in p.plants && j in p.centers && k in p.drugs && t in p.weeks ==>
               h((i, j, k, t)) == f((i, j, k, t)) + g((j, k, t))
    ensures GridSum(p, h) == GridSum(p, f) + |p.plants| as real * CellSum(p, g)
  {
    var lifted := Lift(g);
    GridSumAdd(p, f, lifted, h);
    GridSumOfCellTerms(p, lifted, g);
  }

  function Lift(g: CellKey -> real): ShipKey -> real {
    (key: ShipKey) => g((key.1, key.2, key.3))
  }

  /** A summand that does not depend on the plant is counted once per plant. */
  lemma GridSumOfCellTerms(p: Params, f: ShipKey -> real, g: CellKey -> real)
    requires forall i, j, k, t :: i in p.plants && j in p.centers && k in p.drugs && t in p.weeks ==>
               f((i, j, k, t)) == g((j, k, t))
    ensures GridSum(p, f) == |p.plants| as real * CellSum(p, g)
  {
    PlantSlicesAreCellSums(p, f, g);
    GridSumOfEqualSlices(p, f, CellSum(p, g));
  }

  lemma GridSumOfEqualSlices(p: Params, f: ShipKey -> real, c: real)
    requires forall i :: i in p.plants ==> OverCenters(p, f)(i) == c
    ensures GridSum(p, f) == |p.plants| as real * c
  {
    SumConst(p.plants, OverCenters(p, f), c);
  }

  lemma PlantSlicesAreCellSums(p: Params, f: ShipKey -> real, g: CellKey -> real)
    requires forall i, j, k, t :: i in p.plants && j in p.centers && k in p.drugs && t in p.weeks ==>
               f((i, j, k, t)) == g((j, k, t))
    ensures forall i :: i in p.plants ==> OverCenters(p, f)(i) == CellSum(p, g)
  {
    forall i, j | i in p.plants && j in p.centers ensures OverDrugs(p, f, i)(j) == CellOverDrugs(p, g)(j) {
      forall k | k in p.drugs ensures OverWeeks(p, f, i, j)(k) == CellOverWeeks(p, g, j)(k) {
        forall t | t in p.weeks ensures AtWeek(f, i, j, k)(t) == CellAtWeek(g, j, k)(t) {
          assert f((i, j, k, t)) == g((j, k, t));
        }
        SumEqual(p.weeks, AtWeek(f, i, j, k), CellAtWeek(g, j, k));
      }
      SumEqual(p.drugs, OverWeeks(p, f, i, j), CellOverWeeks(p, g, j));
    }
    forall i | i in p.plants ensures OverCenters(p, f)(i) == CellSum(p, g) {
      SumEqual(p.centers, OverDrugs(p, f, i), CellOverDrugs(p, g));
    }
  }

  /** Sums of non-negative summands over the grid are non-negative. */
  lemma GridSumNonNegative(p: Params, f: ShipKey -> real)
    requires forall i, j, k, t :: i in p.plants && j in p.centers && k in p.drugs && t in p.weeks ==> f((i, j, k, t)) >= 0.0
    ensures GridSum(p, f) >= 0.0
  {
    forall i | i in p.plants ensures OverCenters(p, f)(i) >= 0.0 {
      forall j | j in p.centers ensures OverDrugs(p, f, i)(j) >= 0.0 {
        forall k | k in p.drugs ensures OverWeeks(p, f, i, j)(k) >= 0.0 {
          forall t | t in p.weeks ensures AtWeek(f, i, j, k)(t) >= 0.0 {
            assert f((i, j, k, t)) >= 0.0;
          }
          SumNonNegative(p.weeks, AtWeek(f, i, j, k));
        }
        SumNonNegative(p.drugs, OverWeeks(p, f, i, j));
      }
      SumNonNegative(p.centers, OverDrugs(p, f, i));
    }
    SumNonNegative(p.plants, OverCenters(p, f));
  }

  // ---------------------------------------------------------------------------
  // Objective

  /** Transport and cold-chain cost of one shipment variable. */
  function TransportTerm(p: Params, a: Assignment, key: ShipKey): real {
    var (i, j, k, t) := key;
    ALPHA * (p.BaseCost(i, j) + H_COLD * p.ColdFlag(k)) * a.Ship(i, j, k, t)
  }

  /** Holding, shortage and waste cost of one center, drug and week. */
  function StockTerm(p: Params, a: Assignment, cell: CellKey): real {
    var (j, k, t) := cell;
    BETA * p.Holding(j, k) * a.Inv(j, k, t)
    + GAMMA * p.Penalty(k) * a.Short(j, k, t)
    + DELTA * p.WasteCost(k) * a.Expire(j, k, t)
  }

  /** One summand of the objective's `lpSum`, for plant i, center j, drug k and week t. */
  function ObjectiveTerm(p: Params, a: Assignment): ShipKey -> real {
    key => TransportTerm(p, a, key) + StockTerm(p, a, (key.1, key.2, key.3))
  }

  function TransportTerms(p: Params, a: Assignment): ShipKey -> real {
    key => TransportTerm(p, a, key)
  }

  function StockTerms(p: Params, a: Assignment): CellKey -> real {
    cell => StockTerm(p, a, cell)
  }

  /** The objective the model minimises, at assignment a. */
  function Objective(p: Params, a: Assignment): real
    requires Buildable(p)
  {
    GridSum(p, ObjectiveTerm(p, a))
  }

  /** Because `solve_optimization` sums the holding, shortage and waste terms inside the
      plant loop, the objective is the transport cost plus |plants| times the
      stock cost. */
  lemma ObjectiveCountsStockCostOncePerPlant(p: Params, a: Assignment)
    requires Buildable(p)
    ensures Objective(p, a) ==
            GridSum(p, TransportTerms(p, a)) + |p.plants| as real * CellSum(p, StockTerms(p, a))
  {
    GridSumSplitsOffCellPart(p, ObjectiveTerm(p, a), TransportTerms(p, a), StockTerms(p, a));
  }

  /** Every cost coefficient the objective reads is non-negative. */
  predicate NonNegativeCosts(p: Params) {
    && (forall i, j :: i in p.plants && j in p.centers ==> p.BaseCost(i, j) >= 0.0)
    && (forall k :: k in p.drugs ==> p.ColdFlag(k) >= 0.0 && p.Penalty(k) >= 0.0 && p.WasteCost(k) >= 0.0)
    && (forall j, k :: j in p.centers && k in p.drugs ==> p.Holding(j, k) >= 0.0)
  }

  /** With non-negative costs, the objective of a non-negative assignment is non-negative. */
  lemma ObjectiveNonNegative(p: Params, a: Assignment)
    requires Buildable(p) && NonNegativeCosts(p) && NonNegative(p, a)
    ensures Objective(p, a) >= 0.0
  {
    forall i, j, k, t | i in p.plants && j in p.centers && k in p.drugs && t in p.weeks ensures ObjectiveTerm(p, a)((i, j, k, t)) >= 0.0 {
      TransportTermNonNegative(p, a, i, j, k, t);
      StockTermNonNegative(p, a, i, j, k, t);
    }
    GridSumNonNegative(p, ObjectiveTerm(p, a));
  }

  lemma TransportTermNonNegative(p: Params, a: Assignment, i: Plant, j: Center, k: Drug, t: Week)
    requires NonNegativeCosts(p) && NonNegative(p, a) && i in p.plants && j in p.centers && k in p.drugs && t in p.weeks
    ensures TransportTerm(p, a, (i, j, k, t)) >= 0.0
  {
    NonNegativeProduct(H_COLD, p.ColdFlag(k));
    NonNegativeProduct(ALPHA, p.BaseCost(i, j) + H_COLD * p.ColdFlag(k));
    NonNegativeProduct(ALPHA * (p.BaseCost(i, j) + H_COLD * p.ColdFlag(k)), a.Ship(i, j, k, t));
  }

  lemma StockTermNonNegative(p: Params, a: Assignment, i: Plant, j: Center, k: Drug, t: Week)
    requires NonNegativeCosts(p) && NonNegative(p, a) && i in p.plants && j in p.centers && k in p.drugs && t in p.weeks
    ensures StockTerm(p, a, (j, k, t)) >= 0.0
  {
    NonNegativeProduct(BETA, p.Holding(j, k));
    NonNegativeProduct(BETA * p.Holding(j, k), a.Inv(j, k, t));
    NonNegativeProduct(GAMMA, p.Penalty(k));
    NonNegativeProduct(GAMMA * p.Penalty(k), a.Short(j, k, t));
    NonNegativeProduct(DELTA, p.WasteCost(k));
    NonNegativeProduct(DELTA * p.WasteCost(k), a.Expire(j, k, t));
  }

  lemma NonNegativeProduct(c: real, x: real)
    requires c >= 0.0 && x >= 0.0
    ensures c * x >= 0.0
  {
  }

  // ---------------------------------------------------------------------------
  // The inventory recurrence

  /** Net change of stock in week t: inflow - demand + shortage - waste. */
  function NetFlow(p: Params, a: Assignment, j: Center, k: Drug): Week -> real {
    t => Inflow(p, a, j, k, t) - p.Demand(j, k, t) + a.Short(j, k, t) - a.Expire(j, k, t)
  }

  /** Unrolling the balance equations: the inventory at the end of week
      `weeks[n]` is the initial inventory plus the net flows of `weeks[0]`
      through `weeks[n]`. */
  lemma {:induction false} InventoryClosedForm(p: Params, a: Assignment, j: Center, k: Drug, n: nat)
    requires Buildable(p) && StrictlyIncreasing(p.weeks) && Balanced(p, a)
    requires j in p.centers && k in p.drugs && n < |p.weeks|
    ensures a.Inv(j, k, p.weeks[n]) == p.InitialInventory(j, k) + Sum(p.weeks[..n + 1], NetFlow(p, a, j, k))
  {
    var ws := p.weeks;
    assert ws[n] in ws;
    assert BalancedAt(p, a, j, k, ws[n]);
    assert ws[..n + 1][..n] == ws[..n];
    if n > 0 {
      ConsecutiveAt(ws, n);
      ConsecutiveAt(ws, n - 1);
      assert ws[n] != ws[0];
      InventoryClosedForm(p, a, j, k, n - 1);
    }
  }

  function InflowByWeek(p: Params, a: Assignment, j: Center, k: Drug): Week -> real {
    t => Inflow(p, a, j, k, t)
  }

  function DemandByWeek(p: Params, j: Center, k: Drug): Week -> real {
    t => p.Demand(j, k, t)
  }

  /** Under the balance, non-negativity and shortage constraints (so in every
      feasible plan), what reaches a center for a drug by week `weeks[n]`, plus
      its initial inventory, covers at least 95% of its demand over `weeks[0]`
      through `weeks[n]`. */
  lemma CumulativeInflowCoversServiceLevel(p: Params, a: Assignment, j: Center, k: Drug, n: nat)
    requires Buildable(p) && StrictlyIncreasing(p.weeks) && Balanced(p, a) && NonNegative(p, a) && WithinShortageCeiling(p, a)
    requires j in p.centers && k in p.drugs && n < |p.weeks|
    ensures p.InitialInventory(j, k) + Sum(p.weeks[..n + 1], InflowByWeek(p, a, j, k))
            >= 0.95 * Sum(p.weeks[..n + 1], DemandByWeek(p, j, k))
  {
    StockNeverNegative(p, a, j, k, n);
    NetFlowWithinServiceLevel(p, a, j, k, n);
    ServedShareFromStock(p.weeks[..n + 1], NetFlow(p, a, j, k), InflowByWeek(p, a, j, k), DemandByWeek(p, j, k),
                         p.InitialInventory(j, k), 0.95);
  }

  lemma StockNeverNegative(p: Params, a: Assignment, j: Center, k: Drug, n: nat)
    requires Buildable(p) && StrictlyIncreasing(p.weeks) && Balanced(p, a) && NonNegative(p, a)
    requires j in p.centers && k in p.drugs && n < |p.weeks|
    ensures p.InitialInventory(j, k) + Sum(p.weeks[..n + 1], NetFlow(p, a, j, k)) >= 0.0
  {
    InventoryClosedForm(p, a, j, k, n);
    assert p.weeks[n] in p.weeks;
  }

  /** Each week's net flow is at most the inflow less 95% of the demand. */
  lemma NetFlowWithinServiceLevel(p: Params, a: Assignment, j: Center, k: Drug, n: nat)
    requires NonNegative(p, a) && WithinShortageCeiling(p, a)
    requires j in p.centers && k in p.drugs && n < |p.weeks|
    ensures NetFlowBounded(p.weeks[..n + 1], NetFlow(p, a, j, k), InflowByWeek(p, a, j, k), DemandByWeek(p, j, k), 0.95)
  {
    forall t | t in p.weeks[..n + 1]
      ensures NetFlow(p, a, j, k)(t) <= InflowByWeek(p, a, j, k)(t) - 0.95 * DemandByWeek(p, j, k)(t)
    {
      assert t in p.weeks;
    }
  }

  /** Every week's net flow is at most the inflow less a share c of the demand. */
  predicate NetFlowBounded(ws: seq<Week>, net: Week -> real, inflow: Week -> real, demand: Week -> real, c: real) {
    forall t :: t in ws ==> net(t) <= inflow(t) - c * demand(t)
  }

  /** If stock never goes negative and each week's net flow is at most the
      inflow less a share c of the demand, then the initial stock plus the
      inflows cover that share of the demand. */
  lemma ServedShareFromStock(ws: seq<Week>, net: Week -> real, inflow: Week -> real, demand: Week -> real,
                             init: real, c: real)
    requires init + Sum(ws, net) >= 0.0
    requires NetFlowBounded(ws, net, inflow, demand, c)
    ensures init + Sum(ws, inflow) >= c * Sum(ws, demand)
  {
    var bound := Difference(inflow, Scaled(demand, c));
    forall t | t in ws ensures net(t) <= bound(t) {
      assert net(t) <= inflow(t) - c * demand(t);
    }
    SumLe(ws, net, bound);
    SumAdd(ws, bound, Scaled(demand, c), inflow);
    SumScale(ws, demand, Scaled(demand, c), c);
  }

  function Scaled(f: Week -> real, c: real): Week -> real {
    t => c * f(t)
  }

  function Difference(f: Week -> real, g: Week -> real): Week -> real {
    t => f(t) - g(t)
  }
}
