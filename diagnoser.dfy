/** `explain_infeasibility`: three ordered checks over the derived parameters,
    the first that fires deciding the explanation. */
module Diagnoser {
  import opened Wrappers
  import opened Seqs
  import opened Dicts
  import opened Records

  const PRODUCTION_TOO_LOW: string := "PRODUCTION TOO LOW"
  const STORAGE_TOO_SMALL: string := "STORAGE CAPACITY TOO SMALL"
  const DEMAND_TOO_STRICT: string := "DEMAND + SHORTAGE LIMIT TOO STRICT"

  const PRODUCTION_FIXES: seq<string> := [
    "Increase plant_week_capacity",
    "Reduce demand values",
    "Relax shortage limit (e.g., allow 20% instead of 5%)"
  ]

  const FALLBACK_MESSAGE: string :=
    "Model cannot satisfy 95% of demand for all centers/drugs/weeks simultaneously."

  const FALLBACK_FIXES: seq<string> := [
    "Relax shortage constraint from 5% to 20%",
    "Increase production for early weeks",
    "Increase initial_inventory",
    "Reduce some peak demand values"
  ]

  /** One line of `details`, with the numbers it reports rather than their
      formatted text. */
  datatype Detail =
    | TotalProductionLine(totalProduction: real)
    | RequiredLine(required: real)
    | CenterLine(center: Center, initialTotal: real, capacity: real)
    | Message(text: string)

  datatype Explanation = Explanation(
    isFeasible: bool, rootCause: string, details: seq<Detail>, fixOptions: seq<string>)

  /** `sum(demand.values())` */
  function TotalDemand(p: Params): real {
    SumValues(p.demand)
  }

  /** `sum(prod_cap.values())` */
  function TotalProduction(p: Params): real {
    SumValues(p.prodCap)
  }

  /** Production the check asks for: 95% of the total demand. */
  function RequiredProduction(p: Params): real {
    0.95 * TotalDemand(p)
  }

  predicate ProductionTooLow(p: Params) {
    TotalProduction(p) < RequiredProduction(p)
  }

  /** `sum(init_inventory.get((j, k), 0) for k in drugs)` */
  function InitialTotal(p: Params, j: Center): real {
    Sum(p.drugs, InitialOfDrug(p, j))
  }

  function InitialOfDrug(p: Params, j: Center): Drug -> real {
    k => p.InitialInventory(j, k)
  }

  /** A center whose initial stock exceeds its storage capacity. */
  predicate Overfull(p: Params, j: Center) {
    InitialTotal(p, j) > p.StorageCap(j)
  }

  /** Position of the first overfull center at or after position n of `centers`. */
  function FirstOverfull(p: Params, n: nat): (r: Option<nat>)
    requires n <= |p.centers|
    ensures r.Some? ==> n <= r.value < |p.centers| && Overfull(p, p.centers[r.value])
    ensures r.Some? ==> forall m :: n <= m < r.value ==> !Overfull(p, p.centers[m])
    ensures r.None? <==> forall m :: n <= m < |p.centers| ==> !Overfull(p, p.centers[m])
    decreases |p.centers| - n
  {
    if n == |p.centers| then None
    else if Overfull(p, p.centers[n]) then Some(n)
    else FirstOverfull(p, n + 1)
  }

  function ProductionExplanation(p: Params): Explanation {
    Explanation(false, PRODUCTION_TOO_LOW,
                [TotalProductionLine(TotalProduction(p)), RequiredLine(RequiredProduction(p))],
                PRODUCTION_FIXES)
  }

  function StorageExplanation(p: Params, j: Center): Explanation {
    Explanation(false, STORAGE_TOO_SMALL,
                [CenterLine(j, InitialTotal(p, j), p.StorageCap(j))],
                ["Increase center_storage_capacity for " + j, "Reduce initial_inventory at that center"])
  }

  function FallbackExplanation(): Explanation {
    Explanation(false, DEMAND_TOO_STRICT, [Message(FALLBACK_MESSAGE)], FALLBACK_FIXES)
  }

  /** The explanation the three ordered checks produce. */
  function Diagnosis(p: Params): Explanation {
    if ProductionTooLow(p) then ProductionExplanation(p)
    else match FirstOverfull(p, 0)
      case Some(n) => StorageExplanation(p, p.centers[n])
      case None => FallbackExplanation()
  }

  /** `explain_infeasibility(df)`: derives the parameters, then runs the checks. */
  method ExplainInfeasibility(rows: seq<Row>) returns (e: Explanation)
    ensures e == Diagnosis(Derive(rows))
  {
    var p := Derive(rows);
    e := RunChecks(p);
  }

  /** The checks as `explain_infeasibility` runs them: the explanation record is filled in
      step by step, and the centers are scanned in order with a return at the
      first overfull one. */
  method RunChecks(p: Params) returns (e: Explanation)
    ensures e == Diagnosis(p)
  {
    e := Explanation(false, "", [], []);
    var totalDemand := SumValues(p.demand);
    var totalDemand95 := 0.95 * totalDemand;
    var totalProd := SumValues(p.prodCap);

    if totalProd < totalDemand95 {
      e := e.(rootCause := PRODUCTION_TOO_LOW);
      e := e.(details := e.details + [TotalProductionLine(totalProd)]);
      e := e.(details := e.details + [RequiredLine(totalDemand95)]);
      e := e.(fixOptions := PRODUCTION_FIXES);
      return;
    }

    var n := 0;
    while n < |p.centers|
      invariant n <= |p.centers|
      invariant FirstOverfull(p, n) == FirstOverfull(p, 0)
      invariant e == Explanation(false, "", [], [])
      decreases |p.centers| - n
    {
      var j := p.centers[n];
      var initTotal := InitialTotal(p, j);
      var cap := p.StorageCap(j);
      if initTotal > cap {
        e := e.(rootCause := STORAGE_TOO_SMALL);
        e := e.(details := e.details + [CenterLine(j, initTotal, cap)]);
        e := e.(fixOptions := ["Increase center_storage_capacity for " + j, "Reduce initial_inventory at that center"]);
        return;
      }
      n := n + 1;
    }

    e := e.(rootCause := DEMAND_TOO_STRICT);
    e := e.(details := e.details + [Message(FALLBACK_MESSAGE)]);
    e := e.(fixOptions := FALLBACK_FIXES);
  }

  // ---------------------------------------------------------------------------
  // Properties of the diagnosis

  /** The explanation never claims feasibility. */
  lemma NeverFeasible(p: Params)
    ensures !Diagnosis(p).isFeasible
  {
  }

  /** Production is checked first: it decides the root cause on its own, and
      then neither storage capacities nor initial inventories are consulted. */
  lemma ProductionCheckedFirst(p: Params, storageCap: Dict<Center, real>, initInventory: Dict<(Center, Drug), real>)
    ensures Diagnosis(p).rootCause == PRODUCTION_TOO_LOW <==> ProductionTooLow(p)
    ensures ProductionTooLow(p) ==>
              Diagnosis(p) == ProductionExplanation(p) &&
              Diagnosis(p) == Diagnosis(p.(storageCap := storageCap, initInventory := initInventory))
  {
    var q := p.(storageCap := storageCap, initInventory := initInventory);
    assert TotalProduction(q) == TotalProduction(p) && RequiredProduction(q) == RequiredProduction(p);
    if !ProductionTooLow(p) {
      match FirstOverfull(p, 0)
      case Some(n) =>
        assert Diagnosis(p).rootCause == STORAGE_TOO_SMALL;
      case None =>
        assert Diagnosis(p).rootCause == DEMAND_TOO_STRICT;
    }
  }

  /** When production passes, the first overfull center in encounter order is
      reported, in exactly one detail line carrying its totals. */
  lemma ReportsFirstOverfullCenter(p: Params, n: nat)
    requires !ProductionTooLow(p)
    requires n < |p.centers| && Overfull(p, p.centers[n])
    requires forall m :: 0 <= m < n ==> !Overfull(p, p.centers[m])
    ensures Diagnosis(p).rootCause == STORAGE_TOO_SMALL
    ensures Diagnosis(p).details == [CenterLine(p.centers[n], InitialTotal(p, p.centers[n]), p.StorageCap(p.centers[n]))]
    ensures Diagnosis(p).fixOptions[0] == "Increase center_storage_capacity for " + p.centers[n]
  {
    var r := FirstOverfull(p, 0);
    assert r.Some?;
    assert !(r.value < n);
  }

  /** A storage explanation always names an overfull center, the first one. */
  lemma StorageCauseNamesFirstOverfullCenter(p: Params)
    requires Diagnosis(p).rootCause == STORAGE_TOO_SMALL
    ensures !ProductionTooLow(p)
    ensures exists n :: 0 <= n < |p.centers| && Overfull(p, p.centers[n]) &&
                        (forall m :: 0 <= m < n ==> !Overfull(p, p.centers[m])) &&
                        Diagnosis(p).details == [CenterLine(p.centers[n], InitialTotal(p, p.centers[n]), p.StorageCap(p.centers[n]))]
  {
    assert PRODUCTION_TOO_LOW != STORAGE_TOO_SMALL && DEMAND_TOO_STRICT != STORAGE_TOO_SMALL;
    var r := FirstOverfull(p, 0);
    assert !ProductionTooLow(p) && r.Some?;
  }

  /** The fallback fires exactly when neither check does, with four fix options. */
  lemma FallbackWhenNoCheckFires(p: Params)
    ensures Diagnosis(p).rootCause == DEMAND_TOO_STRICT <==>
              !ProductionTooLow(p) && forall j :: j in p.centers ==> !Overfull(p, j)
    ensures Diagnosis(p).rootCause == DEMAND_TOO_STRICT ==>
              Diagnosis(p).details == [Message(FALLBACK_MESSAGE)] && |Diagnosis(p).fixOptions| == 4
  {
    if !ProductionTooLow(p) {
      var r := FirstOverfull(p, 0);
      if r.Some? {
        assert p.centers[r.value] in p.centers && Overfull(p, p.centers[r.value]);
        assert Diagnosis(p).rootCause == STORAGE_TOO_SMALL;
      } else {
        forall j | j in p.centers ensures !Overfull(p, j) {
          var m :| 0 <= m < |p.centers| && p.centers[m] == j;
        }
      }
    } else {
      assert Diagnosis(p).rootCause == PRODUCTION_TOO_LOW;
    }
  }

  /** A (center, drug) pair without a first-week row counts as 0: a center with
      no first-week row at all has initial total 0. */
  lemma MissingInitialInventoryCountsAsZero(rows: seq<Row>, j: Center)
    requires forall n :: 0 <= n < |rows| && rows[n].center == j ==> rows[n].week != Weeks(rows)[0]
    ensures InitialTotal(Derive(rows), j) == 0.0
  {
    var p := Derive(rows);
    assert p.initInventory == InitialInventories(rows, Weeks(rows));
    forall k | k in p.drugs ensures (j, k) !in p.initInventory.table {
      NoFirstWeekRowNoEntry(rows, j, k);
    }
    NoEntriesNoInitialTotal(p, j);
  }

  lemma NoEntriesNoInitialTotal(p: Params, j: Center)
    requires forall k :: k in p.drugs ==> (j, k) !in p.initInventory.table
    ensures InitialTotal(p, j) == 0.0
  {
    SumConst(p.drugs, InitialOfDrug(p, j), 0.0);
  }
}
