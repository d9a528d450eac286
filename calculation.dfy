/**
 * The schedule (src/calculation.rs): build the tableau, solve it in two
 * phases, read the charge of each charging interval off the solution and
 * turn every interval into a plan entry. An interval within the maximum
 * consumption charges the battery by its decision variable; an interval
 * above it draws its excess from the battery. Amounts are hourly powers
 * over quarter hours, hence the division by 4.
 */
module Calculation {
  import opened Wrappers
  import opened Data
  import opened TableauCreation
  import opened TableauProperties
  import opened DualSimplex

  /** Plan entry of interval `d`, whose decision variable (if it has one)
      is entry `offset` of the solution. */
  function PlanEntry(d: Interval, c: Config, solution: seq<real>, offset: nat): Plan
    requires HasVariable(d, c) ==> offset < |solution|
  {
    if HasVariable(d, c) then Plan(d.start, d.end, 0.0, solution[offset] / 4.0)
    else Plan(d.start, d.end, (d.power - c.maxConsumption) / 4.0, 0.0)
  }

  /** The plan for the first `n` intervals. */
  function Plans(data: seq<Interval>, c: Config, solution: seq<real>, n: nat): (p: seq<Plan>)
    requires n <= |data| && VarsBefore(data, c, n) <= |solution|
    ensures |p| == n
  {
    if n == 0 then []
    else Plans(data, c, solution, n - 1) + [PlanEntry(data[n - 1], c, solution, VarsBefore(data, c, n - 1))]
  }

  /* ---------------------------------------------------------------------- */
  /* What a plan says                                                        */
  /* ---------------------------------------------------------------------- */

  /** Each entry keeps its interval's times and moves energy one way: an
      interval within the maximum charges by the next solution value, one
      above it draws its excess from the battery. */
  lemma {:induction false} PlansEntries(data: seq<Interval>, c: Config, solution: seq<real>, n: nat)
    requires n <= |data| && VarsBefore(data, c, n) <= |solution|
    ensures forall i :: 0 <= i < n ==>
      var p := Plans(data, c, solution, n)[i];
      && p.start == data[i].start && p.end == data[i].end
      && (p.energyToBatteryWh == 0.0 || p.energyFromBatteryWh == 0.0)
      && (HasVariable(data[i], c) ==>
            VarsBefore(data, c, i) < |solution| && p.energyToBatteryWh == solution[VarsBefore(data, c, i)] / 4.0
            && p.energyFromBatteryWh == 0.0)
      && (!HasVariable(data[i], c) ==>
            p.energyToBatteryWh == 0.0 && p.energyFromBatteryWh == (data[i].power - c.maxConsumption) / 4.0
            && p.energyFromBatteryWh > 0.0)
  {
    if n > 0 {
      PlansEntries(data, c, solution, n - 1);
    }
  }

  function FromBattery(plans: seq<Plan>): real {
    if plans == [] then 0.0 else FromBattery(plans[..|plans| - 1]) + plans[|plans| - 1].energyFromBatteryWh
  }

  function ToBattery(plans: seq<Plan>): real {
    if plans == [] then 0.0 else ToBattery(plans[..|plans| - 1]) + plans[|plans| - 1].energyToBatteryWh
  }

  function Sum(xs: seq<real>): real {
    if xs == [] then 0.0 else Sum(xs[..|xs| - 1]) + xs[|xs| - 1]
  }

  /** The plan draws from the battery exactly the discharge that the
      tableau's discharge and final-charge rows account for (an interval at
      the maximum draws nothing either way). */
  lemma {:induction false} PlansDrawTheDischarge(data: seq<Interval>, c: Config, solution: seq<real>, n: nat)
    requires n <= |data| && VarsBefore(data, c, n) <= |solution|
    ensures 4.0 * FromBattery(Plans(data, c, solution, n)) == DischargeBefore(data, c, n)
  {
    if n > 0 {
      var p := Plans(data, c, solution, n);
      assert p[..n - 1] == Plans(data, c, solution, n - 1);
      PlansDrawTheDischarge(data, c, solution, n - 1);
    }
  }

  /** The plan charges the battery with every solution value it reads, once
      each, in order. */
  lemma {:induction false} PlansUseTheSolution(data: seq<Interval>, c: Config, solution: seq<real>, n: nat)
    requires n <= |data| && VarsBefore(data, c, n) <= |solution|
    ensures 4.0 * ToBattery(Plans(data, c, solution, n)) == Sum(solution[..VarsBefore(data, c, n)])
  {
    if n > 0 {
      var p := Plans(data, c, solution, n);
      var k := VarsBefore(data, c, n - 1);
      assert p[..n - 1] == Plans(data, c, solution, n - 1);
      PlansUseTheSolution(data, c, solution, n - 1);
      if HasVariable(data[n - 1], c) {
        assert solution[..k + 1][..k] == solution[..k];
      }
    }
  }

  /* ---------------------------------------------------------------------- */
  /* The calculation                                                         */
  /* ---------------------------------------------------------------------- */

  /** The plan loop: one entry per interval, the solution read in order. */
  method ExpandPlan(data: seq<Interval>, config: Config, solution: seq<real>) returns (planning: seq<Plan>)
    requires CountVars(data, config) <= |solution|
    ensures VarsBefore(data, config, |data|) <= |solution|
    ensures planning == Plans(data, config, solution, |data|)
  {
    planning := [];
    var solutionOffset := 0;
    for i := 0 to |data|
      invariant solutionOffset == VarsBefore(data, config, i) <= VarsBefore(data, config, |data|)
      invariant planning == Plans(data, config, solution, i)
    {
      VarsBeforeMono(data, config, i + 1, |data|);
      var d := data[i];
      if d.power <= config.maxConsumption {
        planning := planning + [Plan(d.start, d.end, 0.0, solution[solutionOffset] / 4.0)];
        solutionOffset := solutionOffset + 1;
      } else {
        planning := planning + [Plan(d.start, d.end, (d.power - config.maxConsumption) / 4.0, 0.0)];
      }
    }
  }

  lemma {:induction false} VarsBeforeMono(data: seq<Interval>, c: Config, m: nat, n: nat)
    requires m <= n <= |data|
    ensures VarsBefore(data, c, m) <= VarsBefore(data, c, n)
  {
    if m < n {
      VarsBeforeMono(data, c, m, n - 1);
    }
  }

  /** The tableau meets what the solver and the read-back need. */
  lemma TableauSolvable(data: seq<Interval>, c: Config)
    requires Fits(data, c)
    ensures Shaped(Tableau(data, c), UsedArtificials(data, c))
    ensures CountVars(data, c) <= |Tableau(data, c)[0]|
  {
    TableauShape(data, c);
  }

  /** What the two solver phases deliver: Phase One solves `tableau`,
      stopping at `phaseOne` with the intermediate objective within the
      tolerance of zero; Phase Two solves on from there to `final`; the
      solution is read back from the final tableau. */
  ghost predicate SolvedInTwoPhases(tableau: seq<seq<real>>, variables: nat, artificials: nat,
                                    phaseOne: seq<seq<real>>, final: seq<seq<real>>, solution: seq<real>)
  {
    && Solves(tableau, phaseOne, One, artificials, Ok(()))
    && Solves(phaseOne, final, Two, artificials, Ok(()))
    && Shaped(final, artificials) && variables <= |final[0]| && ReadsBack(final, variables, solution)
  }

  /** The result of both phases: the read-back solution when both succeed;
      otherwise the error of Phase One, or, when Phase One succeeds, the error
      of Phase Two. */
  ghost predicate TwoPhaseOutcome(tableau: seq<seq<real>>, variables: nat, artificials: nat,
                                  phaseOne: seq<seq<real>>, final: seq<seq<real>>, r: Result<seq<real>, string>)
  {
    match r
    case Ok(solution) => SolvedInTwoPhases(tableau, variables, artificials, phaseOne, final, solution)
    case Err(e) =>
      || Solves(tableau, phaseOne, One, artificials, Err(e))
      || (Solves(tableau, phaseOne, One, artificials, Ok(())) && Solves(phaseOne, final, Two, artificials, Err(e)))
  }

  /** When both phases succeed, every outcome of them is that success. */
  lemma OkOutcomeUnique(tableau: seq<seq<real>>, variables: nat, artificials: nat,
                        p1: seq<seq<real>>, f1: seq<seq<real>>, s1: seq<real>,
                        p2: seq<seq<real>>, f2: seq<seq<real>>, r2: Result<seq<real>, string>)
    requires SolvedInTwoPhases(tableau, variables, artificials, p1, f1, s1)
    requires TwoPhaseOutcome(tableau, variables, artificials, p2, f2, r2)
    ensures r2 == Ok(s1)
  {
    var ok: Result<(), string> := Ok(());
    if r2.Ok? {
      SolvesUnique(tableau, p1, p2, One, artificials, ok, ok);
      SolvesUnique(p1, f1, f2, Two, artificials, ok, ok);
      ReadsBackUnique(f1, variables, s1, r2.value);
    } else if Solves(tableau, p2, One, artificials, Err(r2.error)) {
      SolvesUnique(tableau, p1, p2, One, artificials, ok, Err(r2.error));
      assert false;
    } else {
      SolvesUnique(tableau, p1, p2, One, artificials, ok, ok);
      SolvesUnique(p1, f1, f2, Two, artificials, ok, Err(r2.error));
      assert false;
    }
  }

  /** Two failing outcomes of the phases report the same error. */
  lemma ErrOutcomeUnique(tableau: seq<seq<real>>, variables: nat, artificials: nat,
                         p1: seq<seq<real>>, f1: seq<seq<real>>, e1: string,
                         p2: seq<seq<real>>, f2: seq<seq<real>>, e2: string)
    requires TwoPhaseOutcome(tableau, variables, artificials, p1, f1, Err(e1))
    requires TwoPhaseOutcome(tableau, variables, artificials, p2, f2, Err(e2))
    ensures e1 == e2
  {
    var ok: Result<(), string> := Ok(());
    if Solves(tableau, p1, One, artificials, Err(e1)) {
      if Solves(tableau, p2, One, artificials, Err(e2)) {
        SolvesUnique(tableau, p1, p2, One, artificials, Err(e1), Err(e2));
      } else {
        SolvesUnique(tableau, p1, p2, One, artificials, Err(e1), ok);
        assert false;
      }
    } else if Solves(tableau, p2, One, artificials, Err(e2)) {
      SolvesUnique(tableau, p1, p2, One, artificials, ok, Err(e2));
      assert false;
    } else {
      SolvesUnique(tableau, p1, p2, One, artificials, ok, ok);
      SolvesUnique(p1, f1, f2, Two, artificials, Err(e1), Err(e2));
    }
  }

  /** The two phases have one result: whether they succeed, which error they
      report and which solution they read back are fixed by the tableau. */
  lemma TwoPhaseOutcomeUnique(tableau: seq<seq<real>>, variables: nat, artificials: nat,
                              p1: seq<seq<real>>, f1: seq<seq<real>>, r1: Result<seq<real>, string>,
                              p2: seq<seq<real>>, f2: seq<seq<real>>, r2: Result<seq<real>, string>)
    requires TwoPhaseOutcome(tableau, variables, artificials, p1, f1, r1)
    requires TwoPhaseOutcome(tableau, variables, artificials, p2, f2, r2)
    ensures r1 == r2
  {
    if r1.Ok? {
      OkOutcomeUnique(tableau, variables, artificials, p1, f1, r1.value, p2, f2, r2);
    } else if r2.Ok? {
      OkOutcomeUnique(tableau, variables, artificials, p2, f2, r2.value, p1, f1, r1);
    } else {
      ErrOutcomeUnique(tableau, variables, artificials, p1, f1, r1.error, p2, f2, r2.error);
    }
  }

  /** The two solver phases on a fresh matrix, then the read-back of the
      decision variables. An error of either phase is passed on unchanged. */
  method SolveBothPhases(tableau: seq<seq<real>>, variables: nat, artificials: nat)
    returns (r: Result<seq<real>, string>, ghost phaseOne: seq<seq<real>>, ghost final: seq<seq<real>>)
    requires Shaped(tableau, artificials) && variables <= |tableau[0]|
    ensures r.Err? ==> r.error == NoFeasibleSolution || r.error == TooManyIterations
    ensures TwoPhaseOutcome(tableau, variables, artificials, phaseOne, final, r)
  {
    var matrix := new Matrix(tableau, variables, artificials);
    var first, trace1, states1 := matrix.Solve();
    phaseOne, final := matrix.data, matrix.data;
    if first.Err? {
      return Err(first.error), phaseOne, final;
    }
    matrix.PhaseTwo();
    var second, trace2, states2 := matrix.Solve();
    final := matrix.data;
    if second.Err? {
      return Err(second.error), phaseOne, final;
    }
    var values := matrix.GetSolution();
    return Ok(values), phaseOne, final;
  }

  /** Both phases of the solver, then the plan. A solver failure is passed
      on unchanged; otherwise the plan has one entry per interval, drawing
      from the battery what the interval draws above the maximum and
      charging by the solution's value for each other interval. */
  method Calculation(data: seq<Interval>, config: Config)
    returns (r: Result<seq<Plan>, string>, ghost phaseOne: seq<seq<real>>, ghost final: seq<seq<real>>,
             ghost solution: seq<real>)
    requires Fits(data, config)
    ensures r.Err? ==> r.error == NoFeasibleSolution || r.error == TooManyIterations
    ensures r.Err? ==> TwoPhaseOutcome(Tableau(data, config), CountVars(data, config), UsedArtificials(data, config),
                                       phaseOne, final, Err(r.error))
    ensures r.Ok? ==> SolvedInTwoPhases(Tableau(data, config), CountVars(data, config), UsedArtificials(data, config),
                                        phaseOne, final, solution)
    ensures r.Ok? ==> r.value == Plans(data, config, solution, |data|)
  {
    var tableau, variables, artificials := BuildTableau(data, config);
    TableauSolvable(data, config);
    var solved;
    solved, phaseOne, final := SolveBothPhases(tableau, variables, artificials);
    if solved.Err? {
      return Err(solved.error), phaseOne, final, [];
    }
    var planning := ExpandPlan(data, config, solved.value);
    return Ok(planning), phaseOne, final, solved.value;
  }
}
