/**
 * Two-phase simplex on a dense tableau (src/dual_simplex.rs).
 *
 * The tableau is a rectangular grid of reals whose last column is the
 * right-hand side. Its last row is the phase-one (intermediate) objective and
 * the row before it the price objective. A `Matrix` object owns the grid and
 * updates it in place while pivoting.
 */
module DualSimplex {
  import opened Wrappers

  datatype Phase = One | Two

  /** Safety bound on the number of pivots one `Solve` performs. */
  const MaxIterations: nat := 1000000

  /** The phase-one objective counts as zero below this magnitude. */
  const Tolerance: real := 0.0001

  const NoFeasibleSolution: string := "No feasible solution found"
  const TooManyIterations: string := "No solution found, iterated too many times"

  function Abs(x: real): real {
    if x < 0.0 then -x else x
  }

  /* ---------------------------------------------------------------------- */
  /* Shape of a tableau                                                      */
  /* ---------------------------------------------------------------------- */

  ghost predicate Rectangular(d: seq<seq<real>>, cols: nat) {
    forall i :: 0 <= i < |d| ==> |d[i]| == cols
  }

  /** What the solver's indexing needs: at least the two objective rows, a
      right-hand-side column, all rows as long as the first, and room for the
      artificial columns that Phase Two leaves out of the column search. */
  ghost predicate Shaped(d: seq<seq<real>>, artificials: nat) {
    |d| >= 2 && |d[0]| >= 1 && Rectangular(d, |d[0]|) && artificials + 1 <= |d[0]|
  }

  /** Right-hand side of row `r`, read at the first row's last column. */
  function Rhs(d: seq<seq<real>>, r: nat): real
    requires |d| > 0 && |d[0]| >= 1 && Rectangular(d, |d[0]|) && r < |d|
  {
    d[r][|d[0]| - 1]
  }

  /* ---------------------------------------------------------------------- */
  /* Which rows each phase uses                                              */
  /* ---------------------------------------------------------------------- */

  /** Phase One scans the last row, Phase Two the second-to-last. */
  function ObjectiveRowIndex(phase: Phase, rows: nat): nat
    requires rows >= 2
  {
    match phase
    case One => rows - 1
    case Two => rows - 2
  }

  /** Phase One leaves out the right-hand side, Phase Two also the artificials. */
  function ScanWidth(phase: Phase, cols: nat, artificials: nat): nat
    requires artificials + 1 <= cols
  {
    match phase
    case One => cols - 1
    case Two => cols - (artificials + 1)
  }

  /** The prefix of the active objective row in which a pivot column is sought. */
  ghost function ObjectiveRow(d: seq<seq<real>>, phase: Phase, artificials: nat): seq<real>
    requires Shaped(d, artificials)
  {
    d[ObjectiveRowIndex(phase, |d|)][..ScanWidth(phase, |d[0]|, artificials)]
  }

  /** Rows `0..RatioRows` take part in the ratio test: Phase One leaves out
      both objective rows, Phase Two only the last row. */
  function RatioRows(phase: Phase, rows: nat): nat
    requires rows >= 2
  {
    match phase
    case One => rows - 2
    case Two => rows - 1
  }

  /** Rows `0..UpdatedRows` are eliminated by a pivot: all of them in Phase
      One, all but the last in Phase Two. */
  function UpdatedRows(phase: Phase, rows: nat): nat
    requires rows >= 1
  {
    match phase
    case One => rows
    case Two => rows - 1
  }

  /* ---------------------------------------------------------------------- */
  /* Pivot selection rules                                                   */
  /* ---------------------------------------------------------------------- */

  /** `c` holds the strictly largest positive entry of `row`, the earliest on ties. */
  ghost predicate IsMostPositive(row: seq<real>, c: int) {
    && 0 <= c < |row|
    && row[c] > 0.0
    && (forall j :: 0 <= j < c ==> row[j] < row[c])
    && (forall j :: c < j < |row| ==> row[j] <= row[c])
  }

  ghost predicate NoPositive(row: seq<real>) {
    forall j :: 0 <= j < |row| ==> row[j] <= 0.0
  }

  /** Row `r` may be the pivot row for column `c`: positive entry, non-negative
      right-hand side. */
  ghost predicate Eligible(d: seq<seq<real>>, r: nat, c: nat)
    requires |d| > 0 && |d[0]| >= 1 && Rectangular(d, |d[0]|) && r < |d| && c < |d[0]|
  {
    d[r][c] > 0.0 && Rhs(d, r) >= 0.0
  }

  ghost function Ratio(d: seq<seq<real>>, r: nat, c: nat): real
    requires |d| > 0 && |d[0]| >= 1 && Rectangular(d, |d[0]|) && r < |d| && c < |d[0]|
    requires d[r][c] > 0.0
  {
    Rhs(d, r) / d[r][c]
  }

  /** Among rows `0..m`, `r` is eligible for column `c` and has the smallest
      ratio, the earliest on ties. */
  ghost predicate IsMinRatioRow(d: seq<seq<real>>, m: nat, r: nat, c: nat)
    requires |d| > 0 && |d[0]| >= 1 && Rectangular(d, |d[0]|) && m <= |d| && c < |d[0]|
  {
    && r < m
    && Eligible(d, r, c)
    && (forall k :: 0 <= k < r && Eligible(d, k, c) ==> Ratio(d, r, c) < Ratio(d, k, c))
    && (forall k :: r < k < m && Eligible(d, k, c) ==> Ratio(d, r, c) <= Ratio(d, k, c))
  }

  ghost predicate NoEligibleRow(d: seq<seq<real>>, m: nat, c: nat)
    requires |d| > 0 && |d[0]| >= 1 && Rectangular(d, |d[0]|) && m <= |d| && c < |d[0]|
  {
    forall k :: 0 <= k < m ==> !Eligible(d, k, c)
  }

  /** `(r, c)` is the pivot the selection rules pick. */
  ghost predicate IsPivotChoice(d: seq<seq<real>>, phase: Phase, artificials: nat, r: nat, c: nat)
    requires Shaped(d, artificials)
  {
    && IsMostPositive(ObjectiveRow(d, phase, artificials), c)
    && IsMinRatioRow(d, RatioRows(phase, |d|), r, c)
  }

  /** The selection rules pick nothing: the objective row has no positive
      entry, or the column it picks has no eligible row. */
  ghost predicate NoPivot(d: seq<seq<real>>, phase: Phase, artificials: nat)
    requires Shaped(d, artificials)
  {
    || NoPositive(ObjectiveRow(d, phase, artificials))
    || exists c :: IsMostPositive(ObjectiveRow(d, phase, artificials), c)
                && NoEligibleRow(d, RatioRows(phase, |d|), c)
  }

  lemma MostPositiveUnique(row: seq<real>, c1: int, c2: int)
    requires IsMostPositive(row, c1) && IsMostPositive(row, c2)
    ensures c1 == c2
  {
  }

  /** The selection rules are a function of the tableau: at most one pivot
      qualifies, and a qualifying pivot excludes "no pivot". */
  lemma {:induction false} PivotChoiceUnique(d: seq<seq<real>>, phase: Phase, artificials: nat,
                                            r1: nat, c1: nat, r2: nat, c2: nat)
    requires Shaped(d, artificials)
    requires IsPivotChoice(d, phase, artificials, r1, c1)
    requires IsPivotChoice(d, phase, artificials, r2, c2)
    ensures r1 == r2 && c1 == c2
    ensures !NoPivot(d, phase, artificials)
  {
    var row := ObjectiveRow(d, phase, artificials);
    MostPositiveUnique(row, c1, c2);
    assert Eligible(d, r1, c1) && Eligible(d, r2, c1);
    assert row[c1] > 0.0;
    forall c | IsMostPositive(row, c)
      ensures !NoEligibleRow(d, RatioRows(phase, |d|), c)
    {
      MostPositiveUnique(row, c, c1);
      assert Eligible(d, r1, c);
    }
  }

  /* ---------------------------------------------------------------------- */
  /* Gauss-Jordan pivot                                                      */
  /* ---------------------------------------------------------------------- */

  /** `row` divided by `v`. */
  function Scaled(row: seq<real>, v: real): (r: seq<real>)
    requires v != 0.0
    ensures |r| == |row|
    ensures forall j :: 0 <= j < |row| ==> r[j] * v == row[j]
  {
    seq(|row|, j requires 0 <= j < |row| => row[j] / v)
  }

  /** `row` minus `factor` times `pivotRow`. */
  function Eliminated(row: seq<real>, factor: real, pivotRow: seq<real>): (r: seq<real>)
    requires |row| == |pivotRow|
    ensures |r| == |row|
  {
    seq(|row|, j requires 0 <= j < |row| => row[j] - factor * pivotRow[j])
  }

  /** The tableau after pivoting on `(pr, pc)` with rows `0..m` eliminated. */
  function Pivoted(d: seq<seq<real>>, pr: nat, pc: nat, m: nat): (r: seq<seq<real>>)
    requires |d| > 0 && Rectangular(d, |d[0]|)
    requires pr < |d| && pc < |d[0]| && d[pr][pc] != 0.0
    ensures |r| == |d| && Rectangular(r, |d[0]|)
    ensures r[pr][pc] == 1.0
    ensures forall j :: 0 <= j < |d[0]| ==> r[pr][j] * d[pr][pc] == d[pr][j]
    ensures forall i :: 0 <= i < m && i < |d| && i != pr ==> r[i][pc] == 0.0
    ensures forall i :: m <= i < |d| && i != pr ==> r[i] == d[i]
  {
    var p := Scaled(d[pr], d[pr][pc]);
    var r := seq(|d|, i requires 0 <= i < |d| =>
      if i == pr then p
      else if i < m then Eliminated(d[i], d[i][pc], p)
      else d[i]);
    assert p[pc] == 1.0 by {
      assert p[pc] * d[pr][pc] == d[pr][pc];
    }
    r
  }

  /* ---------------------------------------------------------------------- */
  /* Reading the solution                                                    */
  /* ---------------------------------------------------------------------- */

  /** Row `r` holds the only nonzero entry of column `col`. */
  ghost predicate SoleNonzero(d: seq<seq<real>>, col: nat, r: nat)
    requires |d| > 0 && Rectangular(d, |d[0]|) && col < |d[0]|
  {
    r < |d| && d[r][col] != 0.0 && forall k :: 0 <= k < |d| && k != r ==> d[k][col] == 0.0
  }

  /** Number of rows among `0..n` with a nonzero entry in column `col`. */
  ghost function NonzeroCount(d: seq<seq<real>>, col: nat, n: nat): nat
    requires n <= |d| && |d| > 0 && Rectangular(d, |d[0]|) && col < |d[0]|
  {
    if n == 0 then 0 else NonzeroCount(d, col, n - 1) + (if d[n - 1][col] != 0.0 then 1 else 0)
  }

  lemma {:induction false} NonzeroCountZero(d: seq<seq<real>>, col: nat, n: nat)
    requires n <= |d| && |d| > 0 && Rectangular(d, |d[0]|) && col < |d[0]|
    requires forall k :: 0 <= k < n ==> d[k][col] == 0.0
    ensures NonzeroCount(d, col, n) == 0
  {
    if n > 0 {
      NonzeroCountZero(d, col, n - 1);
    }
  }

  /** Counting one nonzero entry in a column is the same as that entry's row
      being the column's sole nonzero. */
  lemma {:induction false} SoleNonzeroIffCountOne(d: seq<seq<real>>, col: nat, r: nat)
    requires |d| > 0 && Rectangular(d, |d[0]|) && col < |d[0]|
    requires r < |d| && d[r][col] != 0.0
    ensures SoleNonzero(d, col, r) <==> NonzeroCount(d, col, |d|) == 1
  {
    SplitCount(d, col, r, |d|);
    if SoleNonzero(d, col, r) {
      NonzeroCountZero(d, col, r);
      assert NonzeroCount(d, col, |d|) == NonzeroCount(d, col, r) + 1;
    } else {
      var k :| 0 <= k < |d| && k != r && d[k][col] != 0.0;
      if k < r {
        CountPositive(d, col, k, r);
      } else {
        CountPositive(d, col, k, |d|);
        CountMonotone(d, col, r + 1, k);
      }
    }
  }

  /** Splits the count at a row `r` below `n`. */
  lemma {:induction false} SplitCount(d: seq<seq<real>>, col: nat, r: nat, n: nat)
    requires |d| > 0 && Rectangular(d, |d[0]|) && col < |d[0]|
    requires r < n <= |d|
    ensures NonzeroCount(d, col, n) >= NonzeroCount(d, col, r) + (if d[r][col] != 0.0 then 1 else 0)
    ensures (forall k :: r < k < n ==> d[k][col] == 0.0) ==>
              NonzeroCount(d, col, n) == NonzeroCount(d, col, r) + (if d[r][col] != 0.0 then 1 else 0)
  {
    if n > r + 1 {
      SplitCount(d, col, r, n - 1);
    }
  }

  /** A nonzero entry in row `k` below `n` makes the count positive. */
  lemma {:induction false} CountPositive(d: seq<seq<real>>, col: nat, k: nat, n: nat)
    requires |d| > 0 && Rectangular(d, |d[0]|) && col < |d[0]|
    requires k < n <= |d| && d[k][col] != 0.0
    ensures NonzeroCount(d, col, n) >= NonzeroCount(d, col, k) + 1
  {
    SplitCount(d, col, k, n);
  }

  lemma {:induction false} CountMonotone(d: seq<seq<real>>, col: nat, m: nat, n: nat)
    requires |d| > 0 && Rectangular(d, |d[0]|) && col < |d[0]|
    requires m <= n <= |d|
    ensures NonzeroCount(d, col, m) <= NonzeroCount(d, col, n)
  {
    if m < n {
      CountMonotone(d, col, m, n - 1);
    }
  }

  /** After a Phase One pivot on `(pr, pc)`, column `pc` is basic: row `pr`
      is its sole nonzero, so the solution reads the new right-hand side of
      row `pr`, the old one divided by the pivot value. */
  lemma {:induction false} PivotMakesColumnBasic(d: seq<seq<real>>, pr: nat, pc: nat)
    requires |d| > 0 && |d[0]| >= 1 && Rectangular(d, |d[0]|)
    requires pr < |d| && pc < |d[0]| && d[pr][pc] != 0.0
    ensures SoleNonzero(Pivoted(d, pr, pc, |d|), pc, pr)
    ensures Rhs(Pivoted(d, pr, pc, |d|), pr) * d[pr][pc] == Rhs(d, pr)
  {
    var r := Pivoted(d, pr, pc, |d|);
    assert r[pr][pc] == 1.0;
    assert forall k :: 0 <= k < |d| && k != pr ==> r[k][pc] == 0.0;
  }

  /** `states` are the tableaux a run of pivots passes through and `trace`
      the pivots: every state has the shape of the first, and each pivot is
      the one the selection rules pick in the state before it. */
  ghost predicate PivotRun(states: seq<seq<seq<real>>>, trace: seq<(nat, nat)>, phase: Phase, artificials: nat) {
    && |states| == |trace| + 1
    && (forall t :: 0 <= t < |states| ==>
          Shaped(states[t], artificials) && |states[t]| == |states[0]| && |states[t][0]| == |states[0][0]|)
    && (forall t :: 0 <= t < |trace| ==>
          && IsPivotChoice(states[t], phase, artificials, trace[t].0, trace[t].1)
          && states[t + 1] == Pivoted(states[t], trace[t].0, trace[t].1, UpdatedRows(phase, |states[t]|)))
  }

  /** One more pivot, chosen by the rules in the last state, extends a run. */
  lemma PivotRunExtend(states: seq<seq<seq<real>>>, trace: seq<(nat, nat)>, phase: Phase, artificials: nat,
                       p: (nat, nat), next: seq<seq<real>>)
    requires PivotRun(states, trace, phase, artificials)
    requires IsPivotChoice(states[|trace|], phase, artificials, p.0, p.1)
    requires next == Pivoted(states[|trace|], p.0, p.1, UpdatedRows(phase, |states[|trace|]|))
    ensures PivotRun(states + [next], trace + [p], phase, artificials)
  {
    var s', t' := states + [next], trace + [p];
    forall t | 0 <= t < |t'|
      ensures IsPivotChoice(s'[t], phase, artificials, t'[t].0, t'[t].1)
      ensures s'[t + 1] == Pivoted(s'[t], t'[t].0, t'[t].1, UpdatedRows(phase, |s'[t]|))
    {
      if t < |trace| {
        assert s'[t] == states[t] && s'[t + 1] == states[t + 1] && t'[t] == trace[t];
      }
    }
  }

  /** Some run of pivots, each chosen by the rules, leads from `from` to `to`. */
  ghost predicate Reaches(from: seq<seq<real>>, to: seq<seq<real>>, phase: Phase, artificials: nat) {
    exists states: seq<seq<seq<real>>>, trace: seq<(nat, nat)> ::
      PivotRun(states, trace, phase, artificials) && states[0] == from && states[|trace|] == to
  }

  /** Column `col` reads the right-hand side of the row holding its sole
      nonzero entry, and 0 when no row does. */
  ghost predicate ReadsBack(d: seq<seq<real>>, variables: nat, solution: seq<real>)
    requires |d| > 0 && |d[0]| >= 1 && Rectangular(d, |d[0]|) && variables <= |d[0]|
  {
    && |solution| == variables
    && (forall col, r :: 0 <= col < variables && 0 <= r < |d| && SoleNonzero(d, col, r) ==>
          solution[col] == Rhs(d, r))
    && (forall col :: 0 <= col < variables && (forall r :: 0 <= r < |d| ==> !SoleNonzero(d, col, r)) ==>
          solution[col] == 0.0)
  }

  /** What `Solve` returns once it has made `steps` pivots and stands at
      `to`: too many iterations after `MaxIterations` pivots; otherwise the
      rules pick nothing in `to` and the phase's check decides. */
  ghost predicate Outcome(to: seq<seq<real>>, phase: Phase, artificials: nat, steps: nat, res: Result<(), string>)
    requires Shaped(to, artificials)
  {
    if steps == MaxIterations then res == Err(TooManyIterations)
    else
      && steps < MaxIterations
      && NoPivot(to, phase, artificials)
      && res == (if phase == Two || -Tolerance < Rhs(to, |to| - 1) < Tolerance then Ok(()) else Err(NoFeasibleSolution))
  }

  /** `Solve` in `phase`, started at `from`, ends at `to` with result `res`. */
  ghost predicate Solves(from: seq<seq<real>>, to: seq<seq<real>>, phase: Phase, artificials: nat,
                         res: Result<(), string>)
  {
    exists states: seq<seq<seq<real>>>, trace: seq<(nat, nat)> ::
      && PivotRun(states, trace, phase, artificials) && states[0] == from && states[|trace|] == to
      && Shaped(to, artificials) && Outcome(to, phase, artificials, |trace|, res)
  }

  /** Two runs of rule-chosen pivots from the same tableau pass through the
      same tableaux. */
  lemma {:induction false} RunsAgree(s1: seq<seq<seq<real>>>, t1: seq<(nat, nat)>,
                                     s2: seq<seq<seq<real>>>, t2: seq<(nat, nat)>,
                                     phase: Phase, artificials: nat, k: nat)
    requires PivotRun(s1, t1, phase, artificials) && PivotRun(s2, t2, phase, artificials) && s1[0] == s2[0]
    requires k <= |t1| && k <= |t2|
    ensures s1[k] == s2[k]
  {
    if k > 0 {
      RunsAgree(s1, t1, s2, t2, phase, artificials, k - 1);
      PivotChoiceUnique(s1[k - 1], phase, artificials, t1[k - 1].0, t1[k - 1].1, t2[k - 1].0, t2[k - 1].1);
    }
  }

  /** A tableau a longer run from the same start pivots on is one where the
      rules pick a pivot. */
  lemma RunContinues(s1: seq<seq<seq<real>>>, t1: seq<(nat, nat)>, s2: seq<seq<seq<real>>>, t2: seq<(nat, nat)>,
                     phase: Phase, artificials: nat)
    requires PivotRun(s1, t1, phase, artificials) && PivotRun(s2, t2, phase, artificials) && s1[0] == s2[0]
    requires |t1| < |t2|
    ensures Shaped(s1[|t1|], artificials) && !NoPivot(s1[|t1|], phase, artificials)
  {
    var k := |t1|;
    RunsAgree(s1, t1, s2, t2, phase, artificials, k);
    PivotChoiceUnique(s2[k], phase, artificials, t2[k].0, t2[k].1, t2[k].0, t2[k].1);
  }

  /** Two runs from the same tableau that both stop as `Solve` stops end at
      the same tableau with the same result. */
  lemma RunsStopTogether(s1: seq<seq<seq<real>>>, t1: seq<(nat, nat)>, s2: seq<seq<seq<real>>>, t2: seq<(nat, nat)>,
                         phase: Phase, artificials: nat, r1: Result<(), string>, r2: Result<(), string>)
    requires PivotRun(s1, t1, phase, artificials) && PivotRun(s2, t2, phase, artificials) && s1[0] == s2[0]
    requires Shaped(s1[|t1|], artificials) && Outcome(s1[|t1|], phase, artificials, |t1|, r1)
    requires Shaped(s2[|t2|], artificials) && Outcome(s2[|t2|], phase, artificials, |t2|, r2)
    ensures s1[|t1|] == s2[|t2|] && r1 == r2
  {
    if |t1| < |t2| {
      RunContinues(s1, t1, s2, t2, phase, artificials);
    } else if |t2| < |t1| {
      RunContinues(s2, t2, s1, t1, phase, artificials);
    } else {
      RunsAgree(s1, t1, s2, t2, phase, artificials, |t1|);
    }
  }

  /** `Solve` is deterministic: from the same tableau it ends at the same
      tableau with the same result. */
  lemma SolvesUnique(from: seq<seq<real>>, to1: seq<seq<real>>, to2: seq<seq<real>>, phase: Phase,
                     artificials: nat, r1: Result<(), string>, r2: Result<(), string>)
    requires Solves(from, to1, phase, artificials, r1) && Solves(from, to2, phase, artificials, r2)
    ensures to1 == to2 && r1 == r2
  {
    var s1, t1 :| && PivotRun(s1, t1, phase, artificials) && s1[0] == from && s1[|t1|] == to1
                   && Shaped(to1, artificials) && Outcome(to1, phase, artificials, |t1|, r1);
    var s2, t2 :| && PivotRun(s2, t2, phase, artificials) && s2[0] == from && s2[|t2|] == to2
                   && Shaped(to2, artificials) && Outcome(to2, phase, artificials, |t2|, r2);
    RunsStopTogether(s1, t1, s2, t2, phase, artificials, r1, r2);
  }

  /** A successful `Solve` reached `to` by rule-chosen pivots, the rules pick
      nothing there, and in Phase One the intermediate objective is within
      the tolerance of zero. */
  lemma SolvesOk(from: seq<seq<real>>, to: seq<seq<real>>, phase: Phase, artificials: nat)
    requires Solves(from, to, phase, artificials, Ok(()))
    ensures Reaches(from, to, phase, artificials)
    ensures Shaped(to, artificials) && NoPivot(to, phase, artificials)
    ensures phase == One ==> -Tolerance < Rhs(to, |to| - 1) < Tolerance
  {
    var s, t :| && PivotRun(s, t, phase, artificials) && s[0] == from && s[|t|] == to
                 && Shaped(to, artificials) && Outcome(to, phase, artificials, |t|, Ok(()));
  }

  /** The read-back fixes the solution: one tableau reads back one solution. */
  lemma ReadsBackUnique(d: seq<seq<real>>, variables: nat, s1: seq<real>, s2: seq<real>)
    requires |d| > 0 && |d[0]| >= 1 && Rectangular(d, |d[0]|) && variables <= |d[0]|
    requires ReadsBack(d, variables, s1) && ReadsBack(d, variables, s2)
    ensures s1 == s2
  {
    forall col | 0 <= col < variables
      ensures s1[col] == s2[col]
    {
      if r :| 0 <= r < |d| && SoleNonzero(d, col, r) {
      }
    }
  }

  /* ---------------------------------------------------------------------- */
  /* The tableau object                                                      */
  /* ---------------------------------------------------------------------- */

  class Matrix {
    var phase: Phase
    var variables: nat
    var artificials: nat
    var data: seq<seq<real>>

    ghost predicate Valid()
      reads this
    {
      Shaped(data, artificials)
    }

    /** Starts in Phase One and keeps its arguments as given. */
    constructor (data: seq<seq<real>>, variables: nat, artificials: nat)
      ensures this.phase == One
      ensures this.data == data && this.variables == variables && this.artificials == artificials
    {
      this.phase := One;
      this.data := data;
      this.variables := variables;
      this.artificials := artificials;
    }

    /** The entry at `row`, `col`. */
    function Get(row: nat, col: nat): (v: real)
      reads this
      requires row < |data| && col < |data[row]|
      ensures v == data[row][col]
    {
      data[row][col]
    }

    method Set(row: nat, col: nat, val: real)
      requires row < |data| && col < |data[row]|
      modifies this`data
      ensures data == old(data)[row := old(data)[row][col := val]]
    {
      data := data[row := data[row][col := val]];
    }

    /** Switches to Phase Two; nothing else changes. */
    method PhaseTwo()
      modifies this`phase
      ensures phase == Two
    {
      phase := Two;
    }

    /** The column of the strictly largest positive entry of the active
        objective row (earliest on ties), with that entry; `None` exactly when
        no scanned entry is positive. */
    method FindMostPositiveInBottomRow() returns (found: Option<(nat, real)>)
      requires Valid()
      ensures found.Some? ==> IsMostPositive(ObjectiveRow(data, phase, artificials), found.value.0)
      ensures found.Some? ==> found.value.1 == ObjectiveRow(data, phase, artificials)[found.value.0]
      ensures found.None? <==> NoPositive(ObjectiveRow(data, phase, artificials))
    {
      var lastRow := match phase
        case One => data[|data| - 1]
        case Two => data[|data| - 2];
      found := None;
      var limit := match phase
        case One => 1
        case Two => artificials + 1;
      lastRow := lastRow[..|lastRow| - limit];
      ghost var row := ObjectiveRow(data, phase, artificials);
      assert lastRow == row;
      for col := 0 to |lastRow|
        invariant found.None? ==> NoPositive(row[..col])
        invariant found.Some? ==> IsMostPositive(row[..col], found.value.0)
        invariant found.Some? ==> found.value.1 == row[found.value.0]
      {
        var x := lastRow[col];
        if x > 0.0 {
          found := match found
            case Some((_, val)) => if x > val then Some((col, x)) else found
            case None => Some((col, x));
        }
      }
      assert row[..|lastRow|] == row;
    }

    /** The pivot the selection rules pick, or `None` when they pick nothing. */
    method FindPivot() returns (pivot: Option<(nat, nat)>)
      requires Valid()
      ensures pivot.Some? ==> IsPivotChoice(data, phase, artificials, pivot.value.0, pivot.value.1)
      ensures pivot.None? <==> NoPivot(data, phase, artificials)
    {
      var found := FindMostPositiveInBottomRow();
      if found.None? {
        return None;
      }
      var col := found.value.0;
      var minRatio: Option<real> := None;
      pivot := None;
      var limit := match phase
        case One => 2
        case Two => 1;
      var numRows := |data|;
      var numCols := |data[0]|;
      assert col < numCols;
      for row := 0 to numRows - limit
        invariant minRatio.None? <==> pivot.None?
        invariant pivot.None? ==> NoEligibleRow(data, row, col)
        invariant pivot.Some? ==> pivot.value.1 == col && IsMinRatioRow(data, row, pivot.value.0, col)
        invariant pivot.Some? ==> minRatio.value == Ratio(data, pivot.value.0, col)
      {
        var a := Get(row, col);
        var b := Get(row, numCols - 1);
        if a > 0.0 && b >= 0.0 {
          var ratio := b / a;
          match minRatio {
            case Some(val) =>
              if ratio < val {
                minRatio := Some(ratio);
                pivot := Some((row, col));
              }
            case None =>
              minRatio := Some(ratio);
              pivot := Some((row, col));
          }
        }
      }
      if pivot.Some? {
        PivotChoiceUnique(data, phase, artificials, pivot.value.0, col, pivot.value.0, col);
      }
    }

    /** Divides row `r` by `v` in place; no other row changes. */
    method ScaleRow(r: nat, v: real)
      requires Valid() && r < |data| && v != 0.0
      modifies this`data
      ensures Valid()
      ensures data == old(data)[r := Scaled(old(data)[r], v)]
    {
      ghost var d0 := data;
      ghost var target := Scaled(d0[r], v);
      var numCols := |data[0]|;
      for col := 0 to numCols
        invariant |data| == |d0| && Rectangular(data, numCols)
        invariant forall i :: 0 <= i < |d0| && i != r ==> data[i] == d0[i]
        invariant forall j :: 0 <= j < col ==> data[r][j] == target[j]
        invariant forall j :: col <= j < numCols ==> data[r][j] == d0[r][j]
      {
        Set(r, col, Get(r, col) / v);
      }
      assert data[r] == target;
    }

    /** Subtracts `ratio` times row `p` from row `r` in place; no other row
        changes. */
    method EliminateRow(r: nat, p: nat, ratio: real)
      requires Valid() && r < |data| && p < |data| && r != p
      modifies this`data
      ensures Valid()
      ensures data == old(data)[r := Eliminated(old(data)[r], ratio, old(data)[p])]
    {
      ghost var d0 := data;
      ghost var target := Eliminated(d0[r], ratio, d0[p]);
      var numCols := |data[0]|;
      for col := 0 to numCols
        invariant |data| == |d0| && Rectangular(data, numCols)
        invariant forall i :: 0 <= i < |d0| && i != r ==> data[i] == d0[i]
        invariant forall j :: 0 <= j < col ==> data[r][j] == target[j]
        invariant forall j :: col <= j < numCols ==> data[r][j] == d0[r][j]
      {
        Set(r, col, Get(r, col) - ratio * Get(p, col));
      }
      assert data[r] == target;
    }

    /** Gauss-Jordan elimination on `(pivotRow, pivotCol)`: the pivot row is
        divided by the pivot value, then every other updated row loses the
        multiple of it that clears the pivot column. */
    method Pivot(pivotRow: nat, pivotCol: nat)
      requires Valid()
      requires pivotRow < |data| && pivotCol < |data[0]| && data[pivotRow][pivotCol] != 0.0
      modifies this`data
      ensures Valid()
      ensures data == Pivoted(old(data), pivotRow, pivotCol, UpdatedRows(phase, |old(data)|))
    {
      var pivotVal := Get(pivotRow, pivotCol);
      var numRows := match phase
        case One => |data|
        case Two => |data| - 1;
      ghost var d0 := data;
      ghost var scaled := Scaled(d0[pivotRow], pivotVal);
      ScaleRow(pivotRow, pivotVal);

      for row := 0 to numRows
        invariant Valid() && |data| == |d0| && |data[0]| == |d0[0]|
        invariant data[pivotRow] == scaled
        invariant forall i :: 0 <= i < row && i != pivotRow ==>
                    data[i] == Eliminated(d0[i], d0[i][pivotCol], scaled)
        invariant forall i :: row <= i < |d0| && i != pivotRow ==> data[i] == d0[i]
      {
        if row != pivotRow {
          EliminateRow(row, pivotRow, Get(row, pivotCol));
        }
      }
      assert data == Pivoted(d0, pivotRow, pivotCol, numRows);
    }

    /** Phase One accepts only an intermediate objective within `Tolerance`
        of zero; Phase Two accepts whatever it reached. */
    function CheckIfWeHaveASolution(): (ok: bool)
      reads this
      ensures phase == Two ==> ok
      ensures phase == One ==>
                (ok <==> |data| > 0 && |data[|data| - 1]| > 0 &&
                         -Tolerance < data[|data| - 1][|data[|data| - 1]| - 1] < Tolerance)
    {
      match phase
      case One =>
        if |data| > 0 then
          var lastRow := data[|data| - 1];
          if |lastRow| > 0 then Abs(lastRow[|lastRow| - 1]) < Tolerance else false
        else false
      case Two => true
    }

    /** Pivots until the selection rules pick nothing, at most `MaxIterations`
        times. `trace` lists the pivots made and `states` the tableaux passed
        through; each pivot is the one the rules pick in the state before it. */
    method Solve() returns (r: Result<(), string>, ghost trace: seq<(nat, nat)>,
                            ghost states: seq<seq<seq<real>>>)
      requires Valid()
      modifies this`data
      ensures Valid()
      ensures PivotRun(states, trace, phase, artificials) && states[0] == old(data) && states[|trace|] == data
      ensures r.Ok? <==> |trace| < MaxIterations && NoPivot(data, phase, artificials) && CheckIfWeHaveASolution()
      ensures r == Err(NoFeasibleSolution) <==>
                |trace| < MaxIterations && NoPivot(data, phase, artificials) && !CheckIfWeHaveASolution()
      ensures r == Err(TooManyIterations) <==> |trace| == MaxIterations
      ensures r.Err? ==> r.error == NoFeasibleSolution || r.error == TooManyIterations
      ensures Solves(old(data), data, phase, artificials, r)
    {
      trace, states := [], [data];
      for i := 0 to MaxIterations
        invariant Valid()
        invariant |trace| == i
        invariant PivotRun(states, trace, phase, artificials) && states[0] == old(data) && states[|trace|] == data
      {
        var pivot := FindPivot();
        match pivot {
          case Some(p) =>
            Pivot(p.0, p.1);
            PivotRunExtend(states, trace, phase, artificials, p, data);
            trace, states := trace + [p], states + [data];
          case None =>
            if CheckIfWeHaveASolution() {
              return Ok(()), trace, states;
            } else {
              return Err(NoFeasibleSolution), trace, states;
            }
        }
      }
      r := Err(TooManyIterations);
    }

    /** One value per decision variable: the right-hand side of the row that
        holds the column's sole nonzero entry, or 0 when the column has no
        nonzero entry or more than one. */
    method GetSolution() returns (solution: seq<real>)
      requires Valid() && variables <= |data[0]|
      ensures ReadsBack(data, variables, solution)
    {
      solution := seq(variables, _ => 0.0);
      var numRows := |data|;
      var numCols := |data[0]|;
      for col := 0 to variables
        invariant |solution| == variables
        invariant forall c, r :: 0 <= c < col && 0 <= r < |data| && SoleNonzero(data, c, r) ==>
                    solution[c] == Rhs(data, r)
        invariant forall c :: 0 <= c < col && (forall r :: 0 <= r < |data| ==> !SoleNonzero(data, c, r)) ==>
                    solution[c] == 0.0
      {
        var numZeroes := 0;
        var numOnes := 0;
        var val := 0.0;
        ghost var last := 0;
        for row := 0 to numRows
          invariant numZeroes + numOnes == row
          invariant numOnes == NonzeroCount(data, col, row)
          invariant numOnes > 0 ==> last < row && data[last][col] != 0.0 && val == Rhs(data, last)
          invariant numOnes > 0 ==> forall k :: last < k < row ==> data[k][col] == 0.0
        {
          if Get(row, col) == 0.0 {
            numZeroes := numZeroes + 1;
          } else {
            numOnes := numOnes + 1;
            val := Get(row, numCols - 1);
            last := row;
          }
        }
        if numZeroes == numRows - 1 && numOnes == 1 {
          solution := solution[col := val];
          SoleNonzeroIffCountOne(data, col, last);
          forall r | 0 <= r < |data| && SoleNonzero(data, col, r)
            ensures r == last
          {
          }
        } else {
          solution := solution[col := 0.0];
          forall r | 0 <= r < |data| && SoleNonzero(data, col, r)
            ensures false
          {
            SoleNonzeroIffCountOne(data, col, r);
          }
        }
      }
    }
  }
}
