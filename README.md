# Battery schedule optimisation, modelled in Dafny

The program plans when a home battery should charge and when it should
discharge. It works over quarter-hour intervals that each have a consumption
forecast and a price. An interval that draws more than the maximum
consumption takes the excess from the battery. The other intervals may
charge the battery. The schedule is the cheapest charging that keeps the
battery within its capacity and covers every overload. The program builds a
linear program as a simplex tableau and solves it with a two-phase simplex
method.

The model covers four parts:

- `Data` (`data.dfy`): the records, and the checks and join of `read_data`.
  Both series must be non-empty and share their start and end. Each forecast
  gets the hourly price at index `i / 4`.
- `TableauCreation` (`tableau_creation.dfy`): `build_tableau`.
  - Every loop of the source is a method with invariants, proved equal to a
    specification function (`Tableau`).
  - `TableauProperties` (`tableau_properties.dfy`) proves what that tableau
    holds: its shape, where each interval's rows sit, which decision columns
    each row weighs, and that every constraint has a non-negative
    right-hand side. It also proves that the intermediate row is the sum of
    the rows that carry an artificial, and that trimming drops only columns
    of zeros.
  - `TableauCreationExample` checks the four-interval tableau of the unit
    test.
- `DualSimplex` (`dual_simplex.dfy`): the `Matrix` object, a `class` whose
  tableau field the pivot methods update in place.
  - Its methods are proved against the selection rules, stated as
    predicates: the most positive objective entry and the minimum-ratio row.
  - `Solve` returns, as ghost outputs, the pivots it made and the tableaux it
    passed through.
  - `DualSimplexExample` follows the step-by-step unit test from start to
    the solution `[1.5, 0.5]`.
- `Calculation` (`calculation.dfy`): `calculation`.
  - It builds the tableau, solves both phases and expands the solution into
    one plan entry per interval.
  - Its contract ties the plan to the two pivot runs and to the solution
    read-back, and an error to the `solve` call that failed. `solve` is
    proved deterministic, so the contract fixes the result. Lemmas prove that the plan draws exactly the overload energy
    and uses each solution value once.

Floating-point values are modelled as exact reals, timestamps as integers,
and `usize` counters as naturals.

Two tests in the source do not always agree:

- The number of decision variables counts intervals with
  `power <= max_consumption`.
- The loops that build the rows skip intervals with
  `power >= max_consumption`.

The model keeps both, as `HasVariable` and `Charges`.
`TableauProperties.ColumnsAlign` proves the two agree exactly when no
interval sits at the maximum.

## Model

| member | source | states |
|---|---|---|
| Data.ReadData | src/data.rs:84-122 | Each failed check yields its own message: empty forecasts, empty prices, start mismatch, end mismatch. Success holds exactly when all checks pass. The result then has one interval per forecast with its times and power, and the price at index `i / 4`. |
| DualSimplex.PivotChoiceUnique | src/dual_simplex.rs:57-114 | The selection rules pick at most one pivot, and a pivot they pick rules out "no pivot". |
| DualSimplex.Pivoted | src/dual_simplex.rs:116-141 | After a pivot: the pivot entry is 1 and the pivot row is the old row divided by the pivot value. Every other updated row is 0 in the pivot column. Rows outside the updated range are unchanged. |
| DualSimplex.PivotMakesColumnBasic | src/dual_simplex.rs:116-141 | After a Phase One pivot, the pivot row holds the only nonzero entry of the pivot column. Its right-hand side is the old one divided by the pivot value. |
| DualSimplex.SoleNonzeroIffCountOne | src/dual_simplex.rs:165-182 | Counting exactly one nonzero entry in a column is the same as that entry's row being the column's only nonzero. This is the read-back test of `get_solution`. |
| DualSimplex.PivotRunExtend | src/dual_simplex.rs:143-156 | A run of rule-chosen pivots, extended by the pivot the rules pick in its last tableau, is still such a run. |
| DualSimplex.RunsAgree | src/dual_simplex.rs:143-156 | Two runs of rule-chosen pivots from the same tableau pass through the same tableaux, step by step. |
| DualSimplex.RunContinues | src/dual_simplex.rs:143-156 | A tableau in which a longer run from the same start makes another pivot is one where the rules pick a pivot, so `solve` cannot stop there. |
| DualSimplex.RunsStopTogether | src/dual_simplex.rs:143-156 | Two runs from the same tableau that both stop as `solve` stops end at the same tableau with the same result. |
| DualSimplex.SolvesUnique | src/dual_simplex.rs:143-156 | `solve` is deterministic: from one tableau and phase it ends at one tableau with one result. |
| DualSimplex.SolvesOk | src/dual_simplex.rs:143-156 | A successful `solve` reached its tableau by rule-chosen pivots, the rules pick nothing there, and in Phase One the intermediate objective is strictly within 0.0001 of zero. |
| DualSimplex.ReadsBackUnique | src/dual_simplex.rs:158-186 | The read-back fixes the solution: one tableau reads back one solution. |
| DualSimplex.Matrix.constructor | src/dual_simplex.rs:40-42 | A new matrix is in Phase One and keeps the tableau and both counts as given. |
| DualSimplex.Matrix.Get | src/dual_simplex.rs:44-46 | The entry at the given row and column. |
| DualSimplex.Matrix.Set | src/dual_simplex.rs:48-50 | Exactly one entry changes, to the given value. |
| DualSimplex.Matrix.PhaseTwo | src/dual_simplex.rs:52-55 | The phase becomes Two and nothing else may change. |
| DualSimplex.Matrix.FindMostPositiveInBottomRow | src/dual_simplex.rs:57-81 | Returns the column of the strictly largest positive entry of the active objective row, earliest on ties, with its value. Phase One scans the last row without the right-hand side. Phase Two scans the second-to-last row without the artificials. `None` exactly when no scanned entry is positive. |
| DualSimplex.Matrix.FindPivot | src/dual_simplex.rs:83-114 | A returned pivot is in the most positive column, at the eligible row with the smallest ratio, earliest on ties. Eligible means a positive entry and a non-negative right-hand side. Phase One leaves out both objective rows, Phase Two only the last row. `None` exactly when the rules pick nothing. |
| DualSimplex.Matrix.ScaleRow | src/dual_simplex.rs:126-129 | The pivot row is divided by the pivot value in place; no other row changes. |
| DualSimplex.Matrix.EliminateRow | src/dual_simplex.rs:133-137 | Row `r` loses `ratio` times the pivot row in place; no other row changes. |
| DualSimplex.Matrix.Pivot | src/dual_simplex.rs:116-141 | The new tableau is `Pivoted` on the pivot. All rows are updated in Phase One, all but the last in Phase Two. |
| DualSimplex.Matrix.CheckIfWeHaveASolution | src/dual_simplex.rs:188-204 | Phase Two always accepts. Phase One accepts exactly when the last row's last entry is strictly within 0.0001 of zero, and rejects an empty tableau or an empty last row. |
| DualSimplex.Matrix.Solve | src/dual_simplex.rs:143-156 | The tableaux passed through form a run of rule-chosen pivots from the old tableau to the new one, so `Solves` holds from the old tableau to the new one with the result returned. `Ok` exactly when the rules stop within 1000000 pivots and the phase check accepts. "No feasible solution found" exactly when they stop and the check rejects. "iterated too many times" exactly after 1000000 pivots. |
| DualSimplex.Matrix.GetSolution | src/dual_simplex.rs:158-186 | One value per decision variable. It is the right-hand side of the row holding the column's only nonzero entry, and 0 when no single row does. |
| DualSimplexExample.Step1 | src/dual_simplex.rs:313-315 | On the test tableau the rules pick pivot (2, 0). |
| DualSimplexExample.Pivot1 | src/dual_simplex.rs:316 | Pivoting on (2, 0) gives the second tableau of the run. |
| DualSimplexExample.Step2 | src/dual_simplex.rs:318-319 | The rules then pick (1, 1). |
| DualSimplexExample.Pivot2 | src/dual_simplex.rs:320 | Pivoting on (1, 1) gives the third tableau. |
| DualSimplexExample.Step3 | src/dual_simplex.rs:322-323 | The rules then pick (3, 4). |
| DualSimplexExample.Pivot3 | src/dual_simplex.rs:324 | Pivoting on (3, 4) clears the intermediate objective. |
| DualSimplexExample.Step4 | src/dual_simplex.rs:327-329 | In Phase Two the rules pick (0, 3). |
| DualSimplexExample.Pivot4 | src/dual_simplex.rs:330 | Pivoting on (0, 3), with the last row left alone, gives the final tableau. |
| DualSimplexExample.ReadBack | src/dual_simplex.rs:332-334 | In the final tableau columns 0 and 1 are basic, in rows 2 and 1, with right-hand sides 1.5 and 0.5. |
| DualSimplexExample.PivotStep | src/dual_simplex.rs:314-316 | One `find_pivot` plus `pivot` on a matrix where the rules pick `(r, c)` pivots on exactly `(r, c)`. |
| DualSimplexExample.WorkedExample | src/dual_simplex.rs:309-335 | The step-by-step test run reads back the solution `[1.5, 0.5]`. |
| TableauCreation.Trim | src/tableau_creation.rs:170-174 | A trimmed row has `a + 1` entries: the first `a` unchanged, then the old right-hand side. |
| TableauCreation.Negate | src/tableau_creation.rs:32-38 | Every entry changes sign. |
| TableauCreation.CapacityEquation | src/tableau_creation.rs:70-89 | Builds the capacity row, and advances the artificial offset exactly when the limit is negative. |
| TableauCreation.DischargeEquation | src/tableau_creation.rs:100-122 | Builds the sufficiency row. When the limit is non-negative, the row gets an artificial and is added to the intermediate row; otherwise the intermediate row is unchanged. |
| TableauCreation.FinalEquation | src/tableau_creation.rs:128-155 | Builds the final-charge row over all `count_vars` columns, and its share of the intermediate row, the same way. |
| TableauCreation.ChargeCaps | src/tableau_creation.rs:40-59 | The charge-cap loop yields the charge-cap block, one row per charging interval, and counts the charging intervals. |
| TableauCreation.CapacityRows | src/tableau_creation.rs:60-90 | The capacity loop yields the capacity block. The artificial offset ends past one column per negative capacity limit. |
| TableauCreation.DischargeInterval | src/tableau_creation.rs:96-125 | One pass of the discharge loop keeps the loop state. The state holds the column offset, the line count, the running discharge, the artificial offset, the intermediate row and the rows so far. |
| TableauCreation.DischargeRows | src/tableau_creation.rs:92-126 | The discharge loop yields the discharge block, the intermediate row, the total discharge and the artificial offset. |
| TableauCreation.PriceEquation | src/tableau_creation.rs:157-167 | The price row is `-price` at each charging interval's decision column and 0 elsewhere. |
| TableauCreation.TrimRows | src/tableau_creation.rs:170-174 | Every row is trimmed at the first unused artificial column. |
| TableauCreation.RawTableau | src/tableau_creation.rs:14-168 | Every row before trimming is in the order pushed. The returned offset is the first unused artificial column. |
| TableauCreation.BuildTableau | src/tableau_creation.rs:14-176 | Returns the tableau, `count_vars`, and the number of artificial columns in use. |
| TableauCreation.LayoutFacts | src/tableau_creation.rs:21-30 | The charging intervals fit in the decision columns. The slack columns end before the artificials. Room is left for `count_over + 1` artificials before the right-hand side. |
| TableauProperties.TableauShape | src/tableau_creation.rs:40-174 | Two rows per charging interval, one per other interval, then three more rows. Every row has the used columns plus the right-hand side. |
| TableauProperties.ColumnsAlign | src/tableau_creation.rs:21-49 | The decision columns handed out match the `count_vars` count exactly when no interval sits at the maximum consumption. |
| TableauProperties.RowsAsReserved | src/tableau_creation.rs:21-24 | With no interval at the maximum, the tableau has the `2 * count_vars + count_over + 3` rows the source reserves. |
| TableauProperties.XIndexOrder | src/tableau_creation.rs:45-52 | Decision columns are handed out in interval order. |
| TableauProperties.RowInTableau | src/tableau_creation.rs:170-174 | A tableau row is its raw row cut at the first unused artificial column, with the right-hand side moved there. |
| TableauProperties.CapRowInTableau | src/tableau_creation.rs:44-59 | Each charging interval's charge cap weighs its own decision column and its slack. The right-hand side is the smaller of the charge rate and the headroom below the maximum. |
| TableauProperties.CapacityRowInTableau | src/tableau_creation.rs:60-90 | The capacity row of each charging interval weighs, by the efficiency, every charging column up to its own, plus a slack. The right-hand side is the room left in the battery. A negative room negates the row and sets an artificial. |
| TableauProperties.DischargeRowInTableau | src/tableau_creation.rs:92-126 | The sufficiency row of each overloaded interval weighs, by the efficiency, the charging columns before it, minus a slack. The right-hand side is the overload so far beyond the initial charge. It is negated when negative, and gets an artificial otherwise. |
| TableauProperties.CapacityDecisionInTableau | src/tableau_creation.rs:72-75 | A decision column of a capacity row is nonzero exactly up to that row's own column, when the efficiency is nonzero. |
| TableauProperties.DischargeDecisionInTableau | src/tableau_creation.rs:103-109 | A decision column of a sufficiency row is nonzero exactly below that interval's column count, when the efficiency is nonzero. |
| TableauProperties.CapacityRowCoversChargesSoFar | src/tableau_creation.rs:72-75 | A capacity row weighs the decision column of a charging interval `h` exactly when `h` is at or before the row's interval. |
| TableauProperties.DischargeRowCoversEarlierCharges | src/tableau_creation.rs:103-109 | A sufficiency row weighs the decision column of a charging interval `h` exactly when `h` comes before the row's interval. |
| TableauProperties.FinalRowInTableau | src/tableau_creation.rs:128-155 | The final-charge row weighs every decision column by the efficiency. The slack and artificial are set by the sign of the limit, and the right-hand side is its magnitude. |
| TableauProperties.PriceRowEntries | src/tableau_creation.rs:157-167 | After the first `n` intervals the price row holds `-price` at each charging interval's column. It is 0 from the next unused decision column on. |
| TableauProperties.PriceRowInTableau | src/tableau_creation.rs:157-167 | In the tableau, the price row is `-price` at every charging column and 0 at every other column, including the right-hand side. |
| TableauProperties.RawFacts | src/tableau_creation.rs:40-168 | Before trimming, every row is zero between the used artificials and the right-hand side. Every constraint row has a non-negative right-hand side when the charge rate is not negative. |
| TableauProperties.TrimDropsOnlyZeros | src/tableau_creation.rs:170-174 | Each row before trimming is its tableau row with zeros put back in the dropped columns, so trimming loses nothing. |
| TableauProperties.ConstraintRhsNonNegative | src/tableau_creation.rs:79-154 | Every constraint row of the tableau has a non-negative right-hand side when the charge rate is not negative. |
| TableauProperties.IntermediateAddsDischarge | src/tableau_creation.rs:106-121 | A sufficiency row with an artificial adds exactly itself to the intermediate row, outside the artificial columns. |
| TableauProperties.IntermediateIsArtificialSum | src/tableau_creation.rs:92-126 | Outside the artificial columns, the intermediate row after the discharge loop is the sum of the sufficiency rows that carry an artificial. |
| TableauProperties.FinalIntermediateIsArtificialSum | src/tableau_creation.rs:132-147 | The finished intermediate row also adds the final-charge row when that carries an artificial. |
| TableauProperties.IntermediateRowInTableau | src/tableau_creation.rs:92-168 | In the tableau, the bottom row is the sum of the sufficiency and final-charge rows with an artificial. The capacity rows with an artificial are not included. |
| TableauProperties.DischargeBoundAsWritten | src/tableau_creation.rs:104 | The loop bound as written fails exactly when the offset exceeds `i`. Otherwise it is `i + 1 - offset`. |
| TableauProperties.DischargeBoundUnderflows | src/tableau_creation.rs:96-104 | At an overloaded interval the bound as written fails exactly when no earlier interval charges. Where it does not fail, it equals the number of decision columns the row weighs, which is the bound the construction uses. |
| TableauProperties.DischargeBoundUnderflowExample | src/tableau_creation.rs:96-104 | A single interval drawing 3 against a maximum of 2 reaches the failing bound. |
| TableauCreationExample.Counters | src/tableau_creation.rs:187-205 | The counters of the test data: two charging intervals, 13 columns before trimming, two artificials in use. |
| TableauCreationExample.Blocks | src/tableau_creation.rs:212-224 | The test's charge-cap, capacity, sufficiency and final-charge rows before trimming. |
| TableauCreationExample.LastRows | src/tableau_creation.rs:225-226 | The test's price and intermediate rows before trimming. |
| TableauCreationExample.TrimmedRows | src/tableau_creation.rs:212-227 | Each of those rows, trimmed, is the expected row of the test. |
| TableauCreationExample.FourIntervals | src/tableau_creation.rs:187-228 | The test data builds exactly the expected tableau, with 2 variables and 2 artificials. |
| TableauCreationExample.BuildFourIntervals | src/tableau_creation.rs:206-228 | `BuildTableau` on the test data returns the expected tableau, 2 and 2. |
| Calculation.PlansEntries | src/calculation.rs:20-40 | Each plan entry keeps its interval's times and moves energy one way only. An interval within the maximum charges by the next solution value divided by 4. An interval above it draws a quarter of its positive excess. |
| Calculation.PlansDrawTheDischarge | src/calculation.rs:32-38 | Four times the energy drawn from the battery over the plan is exactly the overload the tableau's sufficiency rows account for. |
| Calculation.PlansUseTheSolution | src/calculation.rs:22-31 | Four times the energy put into the battery is the sum of the solution values read, each read once, in order. |
| Calculation.ExpandPlan | src/calculation.rs:19-41 | The plan loop yields the plan specification, one entry per interval. |
| Calculation.TableauSolvable | src/calculation.rs:10-11 | The built tableau has the shape the solver needs, and at least `count_vars` columns. |
| Calculation.OkOutcomeUnique | src/calculation.rs:11-16 | When both phases succeed, every outcome of them is that same success with the same solution. |
| Calculation.ErrOutcomeUnique | src/calculation.rs:11-16 | Two failing outcomes of the phases report the same error. |
| Calculation.TwoPhaseOutcomeUnique | src/calculation.rs:11-16 | The tableau fixes the result of both phases: whether they succeed, which error they report and which solution they read back. |
| Calculation.SolveBothPhases | src/calculation.rs:11-16 | The result is the outcome of the two `solve` calls. It is Phase One's error when Phase One fails. It is Phase Two's error when Phase One succeeds and Phase Two fails. Otherwise it is the solution read back after both succeed. Any error is "No feasible solution found" or "iterated too many times". |
| Calculation.Calculation | src/calculation.rs:9-42 | On the built tableau, an error is exactly the error of the failing `solve`: Phase One's, or Phase Two's after Phase One succeeds. Otherwise the plan is the plan specification for the solution read back after both phases succeed. |

## Left out

- Reading and parsing the JSON and TOML files (`read_file_and_parse`), writing the output (`print_output`, `Out`), the `Display` of `Matrix`, logging, and `src/main.rs`. These are I/O.
- Floating-point behaviour: `f64` is modelled as exact reals, so rounding, NaN, infinities and `-0.0` are not modelled. `Negate` keeps the source's skip of zero entries, which on reals changes nothing.
- Data.ReadData: requires at least one price per four forecasts when the checks pass. Otherwise the source indexes past the end of the prices and panics.
- TableauCreation.BuildTableau: requires `Fits`: the rows ask for at most `count_over + 1` artificial columns. With more, the source writes into the right-hand-side column and then indexes past the end of its rows while trimming.
- DualSimplex.Matrix.Solve: proves that every pivot follows the selection rules and when each result is returned. It does not prove that the result is optimal, or that the simplex terminates before the iteration bound; the source promises neither.
- DualSimplex.Matrix.Pivot: requires a rectangular tableau, whereas the source uses the first row's length for every row.
- Calculation.Calculation: the solution, the Phase One tableau and the final tableau are ghost outputs; the source only uses the solution internally.
- The numeric solutions of the solver tests on the built tableaux (`test_four_intervals`, `test_five_intervals_and_battery_recharge`, `impossible_conditions` in `src/calculation.rs`), and the solver tests `test_artificial_variables_stage_1`, `test_four_intervals`, `test_without_max_capacity` and `test_reverse_coefficients`. Only the step-by-step test is followed pivot by pivot.
- An interval whose power equals the maximum consumption is modelled as written. It is counted in `count_vars` and read from the solution by the plan, but it gets no decision column. The solution columns then shift against the intervals; `TableauProperties.ColumnsAlign` states when this happens.
- TableauCreation.DischargeInterval: the inner loop runs to `i + 1 - offset`. That is the intended bound, and what a release build computes after wrapping. The panic of builds with overflow checks, when no earlier interval charges, is not modelled here; see Findings.
- The intermediate row leaves out the capacity rows that carry an artificial. This is modelled as written (`TableauProperties.IntermediateRowInTableau`).

## Findings

| source | as written | input that shows it | evidently intended | confidence | as-written member | corrected member |
|---|---|---|---|---|---|---|
| src/tableau_creation.rs:104 | The discharge-row bound `i - x_vs_interval_offset + 1` subtracts first on `usize`, with the offset already counting interval `i`. | One interval drawing 3.0 against a `max_consumption` of 2.0: `i = 0`, offset 1. | The bound `i + 1 - offset`, the number of charging intervals before `i`. The row then weighs exactly those intervals' columns. | not executed; the subtraction fails only in builds with overflow checks (a release build wraps to an empty range) | TableauProperties.DischargeBoundUnderflows | TableauProperties.DischargeRowCoversEarlierCharges |
