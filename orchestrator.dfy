/** `solve_optimization`: builds the index sets and parameters, hands the
    model to the solver, and assembles the result record from the solver's
    status and variable values. The solver itself is not modelled: its answer
    is a parameter, and the properties of an answer that honours the solver's
    promise are stated as lemmas. */
module Orchestrator {
  import opened Wrappers
  import opened Seqs
  import opened Records
  import opened Formulation
  import opened Diagnoser
  import opened Extraction

  /** The five statuses the solver reports. */
  datatype Status = NotSolved | Optimal | Infeasible | Unbounded | Undefined

  /** The solver's name for each status, the string stored in the result. */
  function StatusName(s: Status): (name: string)
    ensures name == "Optimal" <==> s == Optimal
  {
    match s
    case NotSolved => "Not Solved"
    case Optimal => "Optimal"
    case Infeasible => "Infeasible"
    case Unbounded => "Unbounded"
    case Undefined => "Undefined"
  }

  /** What comes back from the solver: a status and the value of each
      variable that has one (a variable without a value is absent). */
  datatype SolverAnswer = SolverAnswer(status: Status, values: Assignment)

  /** A model-building step looked up a dictionary key or variable that does
      not exist; the exception leaves `solve_optimization` unhandled. */
  datatype BuildError = MissingKey

  /** The result dictionary. */
  datatype SolveResult = SolveResult(
    status: string,
    isFeasible: bool,
    optimalCost: Option<real>,
    shipments: seq<Entry<ShipKey>>,
    inventory: seq<Entry<CellKey>>,
    shortages: seq<Entry<CellKey>>,
    waste: seq<Entry<CellKey>>,
    explanation: Option<Explanation>)

  /** The value of the objective expression: none as soon as one variable of
      the grid has no value. */
  function ObjectiveValue(p: Params, a: Assignment): Option<real>
    requires Buildable(p)
  {
    if Complete(p, a) then Some(Objective(p, a)) else None
  }

  /** The solver's promise: "Optimal" comes with values that satisfy every
      constraint and cost no more than any other such values, and
      "Infeasible" means that no values satisfy every constraint. */
  ghost predicate HonoursContract(p: Params, ans: SolverAnswer)
    requires Buildable(p)
  {
    && (ans.status == Optimal ==>
          Feasible(p, ans.values) &&
          forall b :: Feasible(p, b) ==> Objective(p, ans.values) <= Objective(p, b))
    && (ans.status == Infeasible ==> forall b :: !Feasible(p, b))
  }

  /** What the result record says about the parameters and the solver's
      answer. */
  predicate Describes(p: Params, ans: SolverAnswer, s: SolveResult)
    requires Buildable(p)
  {
    && s.status == StatusName(ans.status)
    && (s.isFeasible <==> ans.status == Optimal)
    && (s.isFeasible ==>
          && s.optimalCost == ObjectiveValue(p, ans.values)
          && s.shipments == Kept(ShipKeys(p.plants, p.centers, p.drugs, p.weeks), ans.values.ship)
          && s.inventory == Kept(CellKeys(p.centers, p.drugs, p.weeks), ans.values.inv)
          && s.shortages == Kept(CellKeys(p.centers, p.drugs, p.weeks), ans.values.short)
          && s.waste == Kept(CellKeys(p.centers, p.drugs, p.weeks), ans.values.expire)
          && s.explanation == None)
    && (!s.isFeasible ==>
          && s.optimalCost == None
          && s.shipments == [] && s.inventory == [] && s.shortages == [] && s.waste == []
          && s.explanation == Some(Diagnosis(p)))
  }

  /** `solve_optimization(df)`, with the solver's answer as a parameter. */
  method SolveOptimization(rows: seq<Row>, ans: SolverAnswer) returns (r: Result<SolveResult, BuildError>)
    ensures r.Failure? <==> !Buildable(Derive(rows))
    ensures r.Success? ==> Buildable(Derive(rows)) && Describes(Derive(rows), ans, r.value)
  {
    var p := Derive(rows);
    if !Buildable(p) {
      return Failure(MissingKey);
    }
    var e: Option<Explanation> := None;
    if ans.status != Optimal {
      var ex := ExplainInfeasibility(rows);
      e := Some(ex);
    }
    var s := AssembleResult(p, ans, e);
    r := Success(s);
  }

  /** The result record and, after an optimal solve, the extraction loops;
      otherwise `explanation` is the diagnoser's. */
  method AssembleResult(p: Params, ans: SolverAnswer, explanation: Option<Explanation>) returns (s: SolveResult)
    requires Buildable(p)
    requires ans.status != Optimal ==> explanation == Some(Diagnosis(p))
    ensures Describes(p, ans, s)
  {
    var status := StatusName(ans.status);
    var isFeasible := status == "Optimal";
    s := SolveResult(status, isFeasible, if isFeasible then ObjectiveValue(p, ans.values) else None,
                     [], [], [], [], None);
    if isFeasible {
      var shipments := ExtractShipments(p, ans.values);
      var inventory, shortages, waste := ExtractCells(p, ans.values);
      s := s.(shipments := shipments, inventory := inventory, shortages := shortages, waste := waste);
    } else {
      s := s.(explanation := explanation);
    }
  }

  /** After an optimal solve from a solver that keeps its promise, the
      reported cost is the objective of the reported values, no values that
      satisfy every constraint cost less, the shipments list every shipment
      variable of the grid whose value is above 1e-6 once with its value, and
      the same holds for inventory, shortages and waste. */
  lemma OptimalResultIsCheapestPlan(p: Params, ans: SolverAnswer, s: SolveResult)
    requires Buildable(p) && Describes(p, ans, s) && HonoursContract(p, ans) && s.isFeasible
    requires NoDups(p.plants) && NoDups(p.centers) && NoDups(p.drugs) && StrictlyIncreasing(p.weeks)
    ensures s.optimalCost == Some(Objective(p, ans.values))
    ensures forall b :: Feasible(p, b) ==> s.optimalCost.value <= Objective(p, b)
    ensures Reports(s.shipments, ShipKeys(p.plants, p.centers, p.drugs, p.weeks), ans.values.ship)
    ensures Reports(s.inventory, CellKeys(p.centers, p.drugs, p.weeks), ans.values.inv)
    ensures Reports(s.shortages, CellKeys(p.centers, p.drugs, p.weeks), ans.values.short)
    ensures Reports(s.waste, CellKeys(p.centers, p.drugs, p.weeks), ans.values.expire)
  {
    ShipmentsAboveNoiseFloorReportedOnce(p, ans.values);
    CellsAboveNoiseFloorReportedOnce(p, ans.values.inv);
    CellsAboveNoiseFloorReportedOnce(p, ans.values.short);
    CellsAboveNoiseFloorReportedOnce(p, ans.values.expire);
  }

  /** With non-negative cost parameters, the cost reported after an optimal
      solve from a solver that keeps its promise is not negative. */
  lemma OptimalCostIsNonNegative(p: Params, ans: SolverAnswer, s: SolveResult)
    requires Buildable(p) && Describes(p, ans, s) && HonoursContract(p, ans) && s.isFeasible
    requires NonNegativeCosts(p)
    ensures s.optimalCost.Some? && s.optimalCost.value >= 0.0
  {
    ObjectiveNonNegative(p, ans.values);
  }

  /** Every status but "Optimal" leaves the lists empty, reports no cost and
      carries a diagnosis that names one of the three causes and says the
      model is not feasible. */
  lemma NonOptimalResultIsExplained(p: Params, ans: SolverAnswer, s: SolveResult)
    requires Buildable(p) && Describes(p, ans, s) && ans.status != Optimal
    ensures !s.isFeasible && s.optimalCost == None
    ensures s.shipments == [] && s.inventory == [] && s.shortages == [] && s.waste == []
    ensures s.explanation.Some? && !s.explanation.value.isFeasible
    ensures s.explanation.value.rootCause in {PRODUCTION_TOO_LOW, STORAGE_TOO_SMALL, DEMAND_TOO_STRICT}
  {
    NeverFeasible(p);
  }
}
