/** What the checks of `explain_infeasibility` do not tell: a diagnosis can
    name production or storage even though some plan satisfies every
    constraint, because the production check ignores initial inventory and
    the storage check ignores waste. Shown on tables of a single row. */
module DiagnosisLimits {
  import opened Seqs
  import opened Dicts
  import opened Records
  import opened Formulation
  import opened Diagnoser

  /** One plant, center, drug and week: demand 10, no production capacity,
      storage 100, initial inventory 10. */
  const STOCKED_ROW: Row := Row("P1", "C1", "D1", 1, 1.0, 0.0, 1.0, 1.0, 1.0, 10.0, 0.0, 100.0, 10.0)

  /** The same cell with production capacity 100 and initial inventory 200. */
  const OVERSTOCKED_ROW: Row := Row("P1", "C1", "D1", 1, 1.0, 0.0, 1.0, 1.0, 1.0, 10.0, 100.0, 100.0, 200.0)

  /** For the cell of row `r`: ship nothing, hold nothing, fall short of
      nothing and throw `waste` away. */
  function IdlePlan(r: Row, waste: real): Assignment {
    Assignment(map[(r.plant, r.center, r.drug, r.week) := 0.0],
               map[(r.center, r.drug, r.week) := 0.0],
               map[(r.center, r.drug, r.week) := 0.0],
               map[(r.center, r.drug, r.week) := waste])
  }

  /** Every lookup succeeds on a one-row table. */
  lemma OneRowBuildable(r: Row)
    ensures Buildable(OneRowParams(r))
  {
  }

  /** On a one-row table the checks compare the row's capacity with 95% of
      its demand, then its initial inventory with its storage capacity. */
  lemma OneRowDiagnosis(r: Row)
    ensures Diagnosis(OneRowParams(r)).rootCause ==
              if r.plantWeekCapacity < 0.95 * r.demand then PRODUCTION_TOO_LOW
              else if r.initialInventory > r.centerStorageCapacity then STORAGE_TOO_SMALL
              else DEMAND_TOO_STRICT
  {
    var p := OneRowParams(r);
    SumOfOne((r.center, r.drug, r.week), ValueAt(p.demand));
    SumOfOne((r.plant, r.week), ValueAt(p.prodCap));
    SumOfOne(r.drug, InitialOfDrug(p, r.center));
  }

  /** The idle plan satisfies every constraint of a one-row table when the
      waste it throws away is exactly the stock above demand. */
  lemma IdlePlanFeasible(r: Row, waste: real)
    requires waste == r.initialInventory - r.demand && waste >= 0.0
    requires r.demand >= 0.0 && r.plantWeekCapacity >= 0.0 && r.centerStorageCapacity >= 0.0
    ensures Buildable(OneRowParams(r)) && Feasible(OneRowParams(r), IdlePlan(r, waste))
  {
    OneRowBuildable(r);
    IdlePlanBalanced(r, waste);
    IdlePlanWithinCapacities(r, waste);
  }

  lemma IdlePlanBalanced(r: Row, waste: real)
    requires waste == r.initialInventory - r.demand
    ensures Balanced(OneRowParams(r), IdlePlan(r, waste))
  {
    var p, a := OneRowParams(r), IdlePlan(r, waste);
    SumOfOne(r.plant, ShipmentFromPlant(a, r.center, r.drug, r.week));
    assert BalancedAt(p, a, r.center, r.drug, r.week);
  }

  lemma IdlePlanWithinCapacities(r: Row, waste: real)
    requires r.plantWeekCapacity >= 0.0 && r.centerStorageCapacity >= 0.0
    ensures WithinStorage(OneRowParams(r), IdlePlan(r, waste))
    ensures WithinProduction(OneRowParams(r), IdlePlan(r, waste))
  {
    var p, a := OneRowParams(r), IdlePlan(r, waste);
    SumOfOne(r.drug, InventoryOfDrug(a, r.center, r.week));
    SumOfOne(r.drug, ShippedOfDrug(a, r.plant, r.center, r.week));
    SumOfOne(r.center, ShippedToCenter(p, a, r.plant, r.week));
  }

  /** Initial stock alone covers demand, so a plan that ships nothing
      satisfies every constraint, yet the diagnosis is "PRODUCTION TOO LOW". */
  lemma ProductionCauseDespiteFeasiblePlan()
    ensures var p := Derive([STOCKED_ROW]);
            Buildable(p) && Feasible(p, IdlePlan(STOCKED_ROW, 0.0)) && Diagnosis(p).rootCause == PRODUCTION_TOO_LOW
  {
    DeriveOneRow(STOCKED_ROW);
    IdlePlanFeasible(STOCKED_ROW, 0.0);
    OneRowDiagnosis(STOCKED_ROW);
  }

  /** Waste absorbs the initial stock above capacity, so a plan that throws
      it away satisfies every constraint, yet the diagnosis is "STORAGE
      CAPACITY TOO SMALL". */
  lemma StorageCauseDespiteFeasiblePlan()
    ensures var p := Derive([OVERSTOCKED_ROW]);
            Buildable(p) && Feasible(p, IdlePlan(OVERSTOCKED_ROW, 190.0)) && Diagnosis(p).rootCause == STORAGE_TOO_SMALL
  {
    DeriveOneRow(OVERSTOCKED_ROW);
    IdlePlanFeasible(OVERSTOCKED_ROW, 190.0);
    OneRowDiagnosis(OVERSTOCKED_ROW);
  }
}
