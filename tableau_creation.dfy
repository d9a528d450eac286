/**
 * Construction of the simplex tableau for the battery schedule
 * (src/tableau_creation.rs).
 *
 * Layout of the tableau before trimming, with `v` decision variables (one per
 * interval whose power does not exceed the maximum consumption):
 *   columns: `v` decision columns, then `2v + over + 1` slack columns, then
 *   `over + 1` artificial columns, then the right-hand side;
 *   rows: charge caps, capacity rows, discharge rows, the final-charge row,
 *   the price row and the intermediate (phase-one) row.
 *
 * The count of decision variables uses `power <= maxConsumption`, while the
 * loops that build rows skip an interval when `power >= maxConsumption`. Both
 * are kept as written: `Charges` below is the loops' test, `HasVariable` the
 * count's. Battery quantities are hourly and are scaled by 4 to quarter hours.
 */
module TableauCreation {
  import opened Data

  function Min(a: real, b: real): real {
    if a <= b then a else b
  }

  /** The row-building loops give an interval a decision column, a charge-cap
      row and a capacity row exactly when this holds. */
  predicate Charges(d: Interval, c: Config) {
    d.power < c.maxConsumption
  }

  /** The test used to count decision variables. */
  predicate HasVariable(d: Interval, c: Config) {
    d.power <= c.maxConsumption
  }

  /* ---------------------------------------------------------------------- */
  /* Counters over a prefix `data[..n]`                                      */
  /* ---------------------------------------------------------------------- */

  /** Intervals among the first `n` that pass the counting test. */
  function VarsBefore(data: seq<Interval>, c: Config, n: nat): (k: nat)
    requires n <= |data|
    ensures k <= n
  {
    if n == 0 then 0 else VarsBefore(data, c, n - 1) + (if HasVariable(data[n - 1], c) then 1 else 0)
  }

  function CountVars(data: seq<Interval>, c: Config): nat {
    VarsBefore(data, c, |data|)
  }

  /** Charging intervals among the first `n`: the decision column of interval
      `n` when it charges. */
  ghost function XIndex(data: seq<Interval>, c: Config, n: nat): (k: nat)
    requires n <= |data|
    ensures k <= n && k <= VarsBefore(data, c, n)
  {
    if n == 0 then 0 else XIndex(data, c, n - 1) + (if Charges(data[n - 1], c) then 1 else 0)
  }

  /** Energy the battery must deliver, in quarter-hour units, over the
      non-charging intervals among the first `n`. */
  ghost function DischargeBefore(data: seq<Interval>, c: Config, n: nat): real
    requires n <= |data|
  {
    if n == 0 then 0.0
    else DischargeBefore(data, c, n - 1)
         + (if Charges(data[n - 1], c) then 0.0 else data[n - 1].power - c.maxConsumption)
  }

  /** Right-hand side of the capacity row of charging interval `i`. */
  ghost function CapacityLimit(data: seq<Interval>, c: Config, i: nat): real
    requires i <= |data|
  {
    c.batteryCapacity * 4.0 + DischargeBefore(data, c, i) - c.batteryInitialCharge * 4.0
  }

  /** Right-hand side of the discharge row of non-charging interval `i`; its
      own discharge is included. */
  ghost function DischargeLimit(data: seq<Interval>, c: Config, i: nat): real
    requires i < |data|
  {
    DischargeBefore(data, c, i + 1) - c.batteryInitialCharge * 4.0
  }

  ghost function FinalLimit(data: seq<Interval>, c: Config): real {
    c.batteryFinalCharge * 4.0 - c.batteryInitialCharge * 4.0 + DischargeBefore(data, c, |data|)
  }

  /** Capacity rows among the first `n` intervals that need an artificial. */
  ghost function NegCapacity(data: seq<Interval>, c: Config, n: nat): (k: nat)
    requires n <= |data|
    ensures k <= n
  {
    if n == 0 then 0
    else NegCapacity(data, c, n - 1)
         + (if Charges(data[n - 1], c) && CapacityLimit(data, c, n - 1) < 0.0 then 1 else 0)
  }

  /** Discharge rows among the first `n` intervals that need an artificial. */
  ghost function PosDischarge(data: seq<Interval>, c: Config, n: nat): (k: nat)
    requires n <= |data|
    ensures k <= n
  {
    if n == 0 then 0
    else PosDischarge(data, c, n - 1)
         + (if !Charges(data[n - 1], c) && DischargeLimit(data, c, n - 1) >= 0.0 then 1 else 0)
  }

  /** Rows that receive an artificial column. */
  ghost function UsedArtificials(data: seq<Interval>, c: Config): nat {
    NegCapacity(data, c, |data|) + PosDischarge(data, c, |data|)
    + (if FinalLimit(data, c) >= 0.0 then 1 else 0)
  }

  /* ---------------------------------------------------------------------- */
  /* Column layout                                                           */
  /* ---------------------------------------------------------------------- */

  function CountOver(data: seq<Interval>, c: Config): nat {
    |data| - CountVars(data, c)
  }

  function NumSlacks(data: seq<Interval>, c: Config): nat {
    2 * CountVars(data, c) + CountOver(data, c) + 1
  }

  /** First artificial column. */
  function ABase(data: seq<Interval>, c: Config): nat {
    CountVars(data, c) + NumSlacks(data, c)
  }

  /** Width of the untrimmed tableau; room is made for `over + 1` artificials. */
  function Cols(data: seq<Interval>, c: Config): nat {
    ABase(data, c) + CountOver(data, c) + 1 + 1
  }

  /** Every artificial column a row asks for exists: the source indexes past
      the end of its rows otherwise. */
  ghost predicate Fits(data: seq<Interval>, c: Config) {
    UsedArtificials(data, c) <= CountOver(data, c) + 1
  }

  /* ---------------------------------------------------------------------- */
  /* Row shapes                                                              */
  /* ---------------------------------------------------------------------- */

  function Zeros(n: nat): (r: seq<real>)
    ensures |r| == n && forall j :: 0 <= j < n ==> r[j] == 0.0
  {
    seq(n, _ => 0.0)
  }

  /** Charge cap `x + s = rhs`: 1 at decision column `x` and at `slack`. */
  function CapRow(cols: nat, x: nat, slack: nat, rhs: real): (r: seq<real>)
    requires x < slack < cols - 1
    ensures |r| == cols
  {
    seq(cols, j => if j == x || j == slack then 1.0 else if j == cols - 1 then rhs else 0.0)
  }

  /** Entry `j` of a row with `coef` on decision columns `0..k`, `slackCoef`
      at `slack` and `rhs` last. */
  function ChargeSumEntry(cols: nat, k: nat, coef: real, slack: nat, slackCoef: real, rhs: real, j: int): real {
    if j < k then coef else if j == slack then slackCoef else if j == cols - 1 then rhs else 0.0
  }

  /** Entry `j` of the capacity row `eff * (x_0 + ... + x_k) + s = lim`; when
      `lim` is negative the row is negated and artificial column `a` gets 1. */
  function CapacityEntry(cols: nat, k: nat, eff: real, slack: nat, lim: real, a: nat, j: int): real {
    var v := ChargeSumEntry(cols, k + 1, eff, slack, 1.0, lim, j);
    if lim >= 0.0 then v else if j == a then 1.0 else -v
  }

  function CapacityRow(cols: nat, k: nat, eff: real, slack: nat, lim: real, a: nat): (r: seq<real>)
    requires k < slack < cols - 1
    ensures |r| == cols
  {
    seq(cols, j => CapacityEntry(cols, k, eff, slack, lim, a, j))
  }

  /** Entry `j` of the sufficiency row `eff * (x_0 + ... + x_{k-1}) - s = lim`
      (the discharge rows and the final-charge row); when `lim` is negative the
      row is negated, otherwise artificial column `a` gets 1. */
  function CoverageEntry(cols: nat, k: nat, eff: real, slack: nat, lim: real, a: nat, j: int): real {
    var v := ChargeSumEntry(cols, k, eff, slack, -1.0, lim, j);
    if lim < 0.0 then -v else if j == a then 1.0 else v
  }

  function CoverageRow(cols: nat, k: nat, eff: real, slack: nat, lim: real, a: nat): (r: seq<real>)
    requires k <= slack < cols - 1
    ensures |r| == cols
  {
    seq(cols, j => CoverageEntry(cols, k, eff, slack, lim, a, j))
  }

  /** What a sufficiency row with an artificial adds to the intermediate row:
      its decision coefficients, -1 at its slack and its right-hand side. */
  function AddObjective(row: seq<real>, k: nat, eff: real, slack: nat, lim: real): (r: seq<real>)
    requires k <= slack < |row| - 1
    ensures |r| == |row|
  {
    seq(|row|, j requires 0 <= j < |row| =>
      if j < k then row[j] + eff
      else if j == slack then -1.0
      else if j == |row| - 1 then row[j] + lim
      else row[j])
  }

  /** Keeps columns `0..a` and moves the right-hand side to column `a`. */
  function Trim(row: seq<real>, a: nat): (r: seq<real>)
    requires a < |row|
    ensures |r| == a + 1 && r[a] == row[|row| - 1]
    ensures forall j :: 0 <= j < a ==> r[j] == row[j]
  {
    row[..a] + [row[|row| - 1]]
  }

  /* ---------------------------------------------------------------------- */
  /* Counter facts                                                           */
  /* ---------------------------------------------------------------------- */

  lemma {:induction false} XIndexMono(data: seq<Interval>, c: Config, m: nat, n: nat)
    requires m <= n <= |data|
    ensures XIndex(data, c, m) <= XIndex(data, c, n)
    ensures XIndex(data, c, n) - XIndex(data, c, m) <= n - m
  {
    if m < n {
      XIndexMono(data, c, m, n - 1);
    }
  }

  lemma {:induction false} NegCapacityMono(data: seq<Interval>, c: Config, m: nat, n: nat)
    requires m <= n <= |data|
    ensures NegCapacity(data, c, m) <= NegCapacity(data, c, n)
  {
    if m < n {
      NegCapacityMono(data, c, m, n - 1);
    }
  }

  lemma {:induction false} PosDischargeMono(data: seq<Interval>, c: Config, m: nat, n: nat)
    requires m <= n <= |data|
    ensures PosDischarge(data, c, m) <= PosDischarge(data, c, n)
  {
    if m < n {
      PosDischargeMono(data, c, m, n - 1);
    }
  }

  /** Bounds that keep every column index of the spec inside the row. */
  lemma LayoutFacts(data: seq<Interval>, c: Config)
    ensures XIndex(data, c, |data|) <= CountVars(data, c)
    ensures Cols(data, c) - 1 == ABase(data, c) + CountOver(data, c) + 1
    ensures CountVars(data, c) + 2 * XIndex(data, c, |data|) + (|data| - XIndex(data, c, |data|)) < ABase(data, c)
  {
  }

  /* ---------------------------------------------------------------------- */
  /* The rows of one interval                                                */
  /* ---------------------------------------------------------------------- */

  ghost function CapRowOf(data: seq<Interval>, c: Config, i: nat): (r: seq<real>)
    requires i < |data| && Charges(data[i], c)
    ensures |r| == Cols(data, c)
  {
    XIndexMono(data, c, i + 1, |data|);
    CapRow(Cols(data, c), XIndex(data, c, i), CountVars(data, c) + XIndex(data, c, i),
           Min(c.batteryMaxCharge, c.maxConsumption - data[i].power))
  }

  ghost function CapacityRowOf(data: seq<Interval>, c: Config, i: nat): (r: seq<real>)
    requires i < |data| && Charges(data[i], c)
    ensures |r| == Cols(data, c)
  {
    XIndexMono(data, c, i + 1, |data|);
    NegCapacityMono(data, c, i + 1, |data|);
    CapacityRow(Cols(data, c), XIndex(data, c, i), c.batteryEfficiency,
                CountVars(data, c) + XIndex(data, c, |data|) + XIndex(data, c, i),
                CapacityLimit(data, c, i), ABase(data, c) + NegCapacity(data, c, i))
  }

  /** Slack column of the discharge row of non-charging interval `i`. */
  ghost function DischargeSlack(data: seq<Interval>, c: Config, i: nat): nat
    requires i <= |data|
  {
    CountVars(data, c) + 2 * XIndex(data, c, |data|) + (i - XIndex(data, c, i))
  }

  ghost function DischargeRowOf(data: seq<Interval>, c: Config, i: nat): (r: seq<real>)
    requires i < |data| && !Charges(data[i], c)
    ensures |r| == Cols(data, c)
  {
    XIndexMono(data, c, i + 1, |data|);
    XIndexMono(data, c, i, |data|);
    PosDischargeMono(data, c, i + 1, |data|);
    CoverageRow(Cols(data, c), XIndex(data, c, i), c.batteryEfficiency, DischargeSlack(data, c, i),
                DischargeLimit(data, c, i),
                ABase(data, c) + NegCapacity(data, c, |data|) + PosDischarge(data, c, i))
  }

  ghost function FinalRowOf(data: seq<Interval>, c: Config): (r: seq<real>)
    ensures |r| == Cols(data, c)
  {
    CoverageRow(Cols(data, c), CountVars(data, c), c.batteryEfficiency, DischargeSlack(data, c, |data|),
                FinalLimit(data, c),
                ABase(data, c) + NegCapacity(data, c, |data|) + PosDischarge(data, c, |data|))
  }

  /** Price row after the first `n` intervals: `-price` at the decision
      column of each charging one. */
  ghost function PriceRowOf(data: seq<Interval>, c: Config, n: nat): (r: seq<real>)
    requires n <= |data|
    ensures |r| == Cols(data, c)
  {
    if n == 0 then Zeros(Cols(data, c))
    else if Charges(data[n - 1], c) then
      XIndexMono(data, c, n, |data|);
      PriceRowOf(data, c, n - 1)[XIndex(data, c, n - 1) := -data[n - 1].price]
    else PriceRowOf(data, c, n - 1)
  }

  /** Intermediate row after the discharge rows of the first `n` intervals. */
  ghost function IntermediateOf(data: seq<Interval>, c: Config, n: nat): (r: seq<real>)
    requires n <= |data|
    ensures |r| == Cols(data, c)
  {
    if n == 0 then Zeros(Cols(data, c))
    else if !Charges(data[n - 1], c) && DischargeLimit(data, c, n - 1) >= 0.0 then
      XIndexMono(data, c, n - 1, |data|);
      AddObjective(IntermediateOf(data, c, n - 1), XIndex(data, c, n - 1), c.batteryEfficiency,
                   DischargeSlack(data, c, n - 1), DischargeLimit(data, c, n - 1))
    else IntermediateOf(data, c, n - 1)
  }

  /** The intermediate row once the final-charge row has been added. */
  ghost function FinalIntermediate(data: seq<Interval>, c: Config): (r: seq<real>)
    ensures |r| == Cols(data, c)
  {
    if FinalLimit(data, c) >= 0.0 then
      AddObjective(IntermediateOf(data, c, |data|), CountVars(data, c), c.batteryEfficiency,
                   DischargeSlack(data, c, |data|), FinalLimit(data, c))
    else IntermediateOf(data, c, |data|)
  }

  /* ---------------------------------------------------------------------- */
  /* Blocks of rows and the whole tableau                                    */
  /* ---------------------------------------------------------------------- */

  ghost function CapBlock(data: seq<Interval>, c: Config, n: nat): seq<seq<real>>
    requires n <= |data|
  {
    if n == 0 then []
    else CapBlock(data, c, n - 1) + (if Charges(data[n - 1], c) then [CapRowOf(data, c, n - 1)] else [])
  }

  ghost function CapacityBlock(data: seq<Interval>, c: Config, n: nat): seq<seq<real>>
    requires n <= |data|
  {
    if n == 0 then []
    else CapacityBlock(data, c, n - 1)
         + (if Charges(data[n - 1], c) then [CapacityRowOf(data, c, n - 1)] else [])
  }

  ghost function DischargeBlock(data: seq<Interval>, c: Config, n: nat): seq<seq<real>>
    requires n <= |data|
  {
    if n == 0 then []
    else DischargeBlock(data, c, n - 1)
         + (if Charges(data[n - 1], c) then [] else [DischargeRowOf(data, c, n - 1)])
  }

  /** All rows before trimming, in the order the source pushes them. */
  ghost function Raw(data: seq<Interval>, c: Config): seq<seq<real>>
  {
    CapBlock(data, c, |data|) + CapacityBlock(data, c, |data|) + DischargeBlock(data, c, |data|)
    + [FinalRowOf(data, c), PriceRowOf(data, c, |data|), FinalIntermediate(data, c)]
  }

  /** Index of the last artificial column in use plus one. */
  ghost function TrimAt(data: seq<Interval>, c: Config): nat {
    ABase(data, c) + UsedArtificials(data, c)
  }

  ghost function Tableau(data: seq<Interval>, c: Config): seq<seq<real>>
    requires Fits(data, c)
  {
    var raw := Raw(data, c);
    RawRowLengths(data, c);
    TrimFits(data, c);
    seq(|raw|, r requires 0 <= r < |raw| => Trim(raw[r], TrimAt(data, c)))
  }

  /** Rows that are the trimmed raw rows, one by one, form the tableau. */
  lemma TableauFromRows(data: seq<Interval>, c: Config, rows: seq<seq<real>>)
    requires Fits(data, c)
    requires |rows| == |Raw(data, c)|
    requires forall r :: 0 <= r < |rows| ==> |Raw(data, c)[r]| == Cols(data, c) && rows[r] == Trim(Raw(data, c)[r], TrimAt(data, c))
    ensures rows == Tableau(data, c)
  {
  }

  lemma {:induction false} BlockRowLengths(data: seq<Interval>, c: Config, n: nat)
    requires n <= |data|
    ensures forall r :: 0 <= r < |CapBlock(data, c, n)| ==> |CapBlock(data, c, n)[r]| == Cols(data, c)
    ensures forall r :: 0 <= r < |CapacityBlock(data, c, n)| ==> |CapacityBlock(data, c, n)[r]| == Cols(data, c)
    ensures forall r :: 0 <= r < |DischargeBlock(data, c, n)| ==> |DischargeBlock(data, c, n)[r]| == Cols(data, c)
  {
    if n > 0 {
      BlockRowLengths(data, c, n - 1);
    }
  }

  lemma RawRowLengths(data: seq<Interval>, c: Config)
    ensures forall r :: 0 <= r < |Raw(data, c)| ==> |Raw(data, c)[r]| == Cols(data, c)
  {
    BlockRowLengths(data, c, |data|);
  }

  lemma TrimFits(data: seq<Interval>, c: Config)
    requires Fits(data, c)
    ensures TrimAt(data, c) < Cols(data, c)
  {
  }

  /** Under `Fits`, the artificial column of an over-load interval's row
      exists. */
  lemma DischargeArtificialFits(data: seq<Interval>, c: Config, i: nat)
    requires Fits(data, c) && i < |data| && !Charges(data[i], c) && DischargeLimit(data, c, i) >= 0.0
    ensures ABase(data, c) + NegCapacity(data, c, |data|) + PosDischarge(data, c, i) < Cols(data, c) - 1
  {
    PosDischargeMono(data, c, i + 1, |data|);
  }

  /** Under `Fits`, the artificial column of a charging interval's capacity
      row exists. */
  lemma CapacityArtificialFits(data: seq<Interval>, c: Config, i: nat)
    requires Fits(data, c) && i < |data| && Charges(data[i], c) && CapacityLimit(data, c, i) < 0.0
    ensures ABase(data, c) + NegCapacity(data, c, i) < Cols(data, c) - 1
  {
    NegCapacityMono(data, c, i + 1, |data|);
  }

  /** What the discharge loop learns from one non-charging interval. */
  lemma DischargeStep(data: seq<Interval>, c: Config, i: nat)
    requires i < |data| && !Charges(data[i], c)
    ensures XIndex(data, c, i + 1) == XIndex(data, c, i)
    ensures DischargeBefore(data, c, i + 1) == DischargeBefore(data, c, i) + (data[i].power - c.maxConsumption)
    ensures XIndex(data, c, i) <= DischargeSlack(data, c, i) < Cols(data, c) - 1
    ensures PosDischarge(data, c, i + 1)
              == PosDischarge(data, c, i) + (if DischargeLimit(data, c, i) >= 0.0 then 1 else 0)
  {
    XIndexMono(data, c, i, |data|);
  }

  /** What the discharge loop learns from one charging interval. */
  lemma DischargeSkip(data: seq<Interval>, c: Config, i: nat)
    requires i < |data| && Charges(data[i], c)
    ensures XIndex(data, c, i + 1) == XIndex(data, c, i) + 1
    ensures DischargeBefore(data, c, i + 1) == DischargeBefore(data, c, i)
    ensures PosDischarge(data, c, i + 1) == PosDischarge(data, c, i)
    ensures DischargeBlock(data, c, i + 1) == DischargeBlock(data, c, i)
    ensures IntermediateOf(data, c, i + 1) == IntermediateOf(data, c, i)
  {
  }

  /** What the capacity loop learns from one charging interval. */
  lemma CapacityStep(data: seq<Interval>, c: Config, i: nat)
    requires i < |data| && Charges(data[i], c)
    ensures XIndex(data, c, i + 1) == XIndex(data, c, i) + 1
    ensures DischargeBefore(data, c, i + 1) == DischargeBefore(data, c, i)
    ensures XIndex(data, c, i) < CountVars(data, c) + XIndex(data, c, |data|) + XIndex(data, c, i) < Cols(data, c) - 1
    ensures NegCapacity(data, c, i + 1)
              == NegCapacity(data, c, i) + (if CapacityLimit(data, c, i) < 0.0 then 1 else 0)
    ensures CapacityBlock(data, c, i + 1) == CapacityBlock(data, c, i) + [CapacityRowOf(data, c, i)]
  {
    XIndexMono(data, c, i + 1, |data|);
  }

  /** What the capacity loop learns from one non-charging interval. */
  lemma CapacitySkip(data: seq<Interval>, c: Config, i: nat)
    requires i < |data| && !Charges(data[i], c)
    ensures XIndex(data, c, i + 1) == XIndex(data, c, i)
    ensures DischargeBefore(data, c, i + 1) == DischargeBefore(data, c, i) + (data[i].power - c.maxConsumption)
    ensures NegCapacity(data, c, i + 1) == NegCapacity(data, c, i)
    ensures CapacityBlock(data, c, i + 1) == CapacityBlock(data, c, i)
  {
  }

  /* ---------------------------------------------------------------------- */
  /* Building the tableau                                                    */
  /* ---------------------------------------------------------------------- */

  /** The `negate` closure: flips the sign of every nonzero entry. */
  method Negate(v: seq<real>) returns (w: seq<real>)
    ensures |w| == |v|
    ensures forall j :: 0 <= j < |v| ==> w[j] == -v[j]
  {
    w := v;
    for j := 0 to |w|
      invariant |w| == |v|
      invariant forall k :: 0 <= k < j ==> w[k] == -v[k]
      invariant forall k :: j <= k < |w| ==> w[k] == v[k]
    {
      if w[j] != 0.0 {
        w := w[j := -w[j]];
      }
    }
  }

  /** One capacity row: efficiency on columns `0..=k`, 1 at the slack, the
      limit last; negated with an artificial when the limit is negative. */
  method CapacityEquation(cols: nat, k: nat, eff: real, slack: nat, limit: real, aOffset: nat)
    returns (equation: seq<real>, aNext: nat)
    requires k < slack < cols - 1 && (limit < 0.0 ==> aOffset < cols - 1)
    ensures equation == CapacityRow(cols, k, eff, slack, limit, aOffset)
    ensures aNext == if limit < 0.0 then aOffset + 1 else aOffset
  {
    equation := Zeros(cols);
    for col := 0 to k + 1
      invariant |equation| == cols
      invariant forall j :: 0 <= j < col ==> equation[j] == eff
      invariant forall j :: col <= j < cols ==> equation[j] == 0.0
    {
      equation := equation[col := eff];
    }
    equation := equation[slack := 1.0];
    equation := equation[cols - 1 := limit];
    assert forall j :: 0 <= j < cols ==> equation[j] == ChargeSumEntry(cols, k + 1, eff, slack, 1.0, limit, j);
    aNext := aOffset;
    if limit < 0.0 {
      equation := Negate(equation);
      equation := equation[aOffset := 1.0];
      aNext := aOffset + 1;
    }
  }

  /** One discharge row, and its contribution to the intermediate row when
      it receives an artificial. */
  method DischargeEquation(cols: nat, k: nat, eff: real, slack: nat, limit: real, aOffset: nat,
                           intermediate: seq<real>)
    returns (equation: seq<real>, aNext: nat, intermediateNext: seq<real>)
    requires k <= slack < cols - 1 && (limit >= 0.0 ==> aOffset < cols - 1) && |intermediate| == cols
    ensures equation == CoverageRow(cols, k, eff, slack, limit, aOffset)
    ensures aNext == if limit >= 0.0 then aOffset + 1 else aOffset
    ensures intermediateNext ==
              if limit >= 0.0 then AddObjective(intermediate, k, eff, slack, limit) else intermediate
  {
    equation := Zeros(cols);
    intermediateNext := intermediate;
    for j := 0 to k
      invariant |equation| == cols && |intermediateNext| == cols
      invariant forall q :: 0 <= q < j ==> equation[q] == eff
      invariant forall q :: j <= q < cols ==> equation[q] == 0.0
      invariant forall q :: 0 <= q < j ==> intermediateNext[q] == if limit >= 0.0 then intermediate[q] + eff else intermediate[q]
      invariant forall q :: j <= q < cols ==> intermediateNext[q] == intermediate[q]
    {
      equation := equation[j := eff];
      if limit >= 0.0 {
        intermediateNext := intermediateNext[j := intermediateNext[j] + equation[j]];
      }
    }
    equation := equation[slack := -1.0];
    equation := equation[cols - 1 := limit];
    assert forall j :: 0 <= j < cols ==> equation[j] == ChargeSumEntry(cols, k, eff, slack, -1.0, limit, j);
    aNext := aOffset;
    if limit < 0.0 {
      equation := Negate(equation);
      assert intermediateNext == intermediate;
    } else {
      equation := equation[aOffset := 1.0];
      aNext := aOffset + 1;
      intermediateNext := intermediateNext[slack := -1.0];
      intermediateNext := intermediateNext[cols - 1 := intermediateNext[cols - 1] + limit];
      assert intermediateNext == AddObjective(intermediate, k, eff, slack, limit);
    }
  }

  /** The final-charge row over all `vars` decision columns, and its
      contribution to the intermediate row when it receives an artificial. */
  method FinalEquation(cols: nat, vars: nat, eff: real, slack: nat, limit: real, aOffset: nat,
                       intermediate: seq<real>)
    returns (equation: seq<real>, aNext: nat, intermediateNext: seq<real>)
    requires vars <= slack < cols - 1 && (limit >= 0.0 ==> aOffset < cols - 1) && |intermediate| == cols
    ensures equation == CoverageRow(cols, vars, eff, slack, limit, aOffset)
    ensures aNext == if limit >= 0.0 then aOffset + 1 else aOffset
    ensures intermediateNext ==
              if limit >= 0.0 then AddObjective(intermediate, vars, eff, slack, limit) else intermediate
  {
    equation := Zeros(cols);
    intermediateNext := intermediate;
    for i := 0 to vars
      invariant |equation| == cols && |intermediateNext| == cols
      invariant forall q :: 0 <= q < i ==> equation[q] == eff
      invariant forall q :: i <= q < cols ==> equation[q] == 0.0
      invariant forall q :: 0 <= q < i ==> intermediateNext[q] == if limit >= 0.0 then intermediate[q] + eff else intermediate[q]
      invariant forall q :: i <= q < cols ==> intermediateNext[q] == intermediate[q]
    {
      equation := equation[i := eff];
      if limit >= 0.0 {
        intermediateNext := intermediateNext[i := intermediateNext[i] + eff];
      }
    }
    aNext := aOffset;
    if limit >= 0.0 {
      equation := equation[slack := -1.0];
      intermediateNext := intermediateNext[slack := -1.0];
      equation := equation[aOffset := 1.0];
      aNext := aOffset + 1;
      equation := equation[cols - 1 := limit];
      intermediateNext := intermediateNext[cols - 1 := intermediateNext[cols - 1] + limit];
      assert intermediateNext == AddObjective(intermediate, vars, eff, slack, limit);
    } else {
      equation := Negate(equation);
      equation := equation[slack := 1.0];
      equation := equation[cols - 1 := -limit];
    }
  }

  /** Charge-cap rows: one per charging interval, in interval order. */
  method ChargeCaps(data: seq<Interval>, config: Config, cols: nat, countVars: nat)
    returns (rows: seq<seq<real>>, lineCount: nat)
    requires cols == Cols(data, config) && countVars == CountVars(data, config)
    ensures rows == CapBlock(data, config, |data|)
    ensures lineCount == XIndex(data, config, |data|)
  {
    LayoutFacts(data, config);
    rows := [];
    lineCount := 0;
    var xOffset := 0;
    for i := 0 to |data|
      invariant xOffset + XIndex(data, config, i) == i
      invariant lineCount == XIndex(data, config, i)
      invariant rows == CapBlock(data, config, i)
    {
      var d := data[i];
      XIndexMono(data, config, i + 1, |data|);
      if d.power >= config.maxConsumption {
        xOffset := xOffset + 1;
        continue;
      }
      var equation := Zeros(cols);
      equation := equation[i - xOffset := 1.0];
      equation := equation[countVars + lineCount := 1.0];
      lineCount := lineCount + 1;
      equation := equation[cols - 1 := Min(config.batteryMaxCharge, config.maxConsumption - d.power)];
      assert equation == CapRowOf(data, config, i);
      rows := rows + [equation];
    }
  }

  /** Capacity rows: one per charging interval, each bounding the charge
      accumulated so far by the room left in the battery. */
  method CapacityRows(data: seq<Interval>, config: Config, cols: nat, countVars: nat, firstLine: nat)
    returns (rows: seq<seq<real>>, aOffset: nat)
    requires Fits(data, config)
    requires cols == Cols(data, config) && countVars == CountVars(data, config)
    requires firstLine == XIndex(data, config, |data|)
    ensures rows == CapacityBlock(data, config, |data|)
    ensures aOffset == ABase(data, config) + NegCapacity(data, config, |data|)
  {
    LayoutFacts(data, config);
    var b0 := config.batteryInitialCharge * 4.0;
    var bMax := config.batteryCapacity * 4.0;
    rows := [];
    aOffset := ABase(data, config);
    var lineCount := firstLine;
    var xOffset := 0;
    var discharge := 0.0;
    for i := 0 to |data|
      invariant xOffset + XIndex(data, config, i) == i
      invariant lineCount == firstLine + XIndex(data, config, i)
      invariant discharge == DischargeBefore(data, config, i)
      invariant aOffset == ABase(data, config) + NegCapacity(data, config, i)
      invariant rows == CapacityBlock(data, config, i)
    {
      var d := data[i];
      if d.power >= config.maxConsumption {
        CapacitySkip(data, config, i);
        xOffset := xOffset + 1;
        discharge := discharge + (d.power - config.maxConsumption);
        continue;
      }
      CapacityStep(data, config, i);
      var limit := bMax + discharge - b0;
      if limit < 0.0 {
        CapacityArtificialFits(data, config, i);
      }
      var equation;
      equation, aOffset := CapacityEquation(cols, i - xOffset, config.batteryEfficiency,
                                            countVars + lineCount, limit, aOffset);
      lineCount := lineCount + 1;
      rows := rows + [equation];
    }
  }

  /** Loop state of the discharge rows after the first `i` intervals. */
  ghost predicate DischargeState(data: seq<Interval>, c: Config, i: nat, xOffset: nat, lineCount: nat,
                                 aOffset: nat, intermediate: seq<real>, discharge: real, rows: seq<seq<real>>)
    requires i <= |data|
  {
    && xOffset + XIndex(data, c, i) == i
    && lineCount == 2 * XIndex(data, c, |data|) + (i - XIndex(data, c, i))
    && discharge == DischargeBefore(data, c, i)
    && aOffset == ABase(data, c) + NegCapacity(data, c, |data|) + PosDischarge(data, c, i)
    && intermediate == IntermediateOf(data, c, i)
    && rows == DischargeBlock(data, c, i)
  }

  /** One pass of the discharge loop: a non-charging interval adds its row
      and, when that row receives an artificial, its share of the
      intermediate row. */
  method DischargeInterval(data: seq<Interval>, config: Config, cols: nat, countVars: nat, i: nat,
                           xOffset: nat, lineCount: nat, aOffset: nat, intermediate: seq<real>,
                           discharge: real, rows: seq<seq<real>>)
    returns (xOffset': nat, lineCount': nat, aOffset': nat, intermediate': seq<real>,
             discharge': real, rows': seq<seq<real>>)
    requires Fits(data, config) && i < |data|
    requires cols == Cols(data, config) && countVars == CountVars(data, config)
    requires DischargeState(data, config, i, xOffset, lineCount, aOffset, intermediate, discharge, rows)
    ensures DischargeState(data, config, i + 1, xOffset', lineCount', aOffset', intermediate', discharge', rows')
  {
    var d := data[i];
    xOffset', lineCount', aOffset', intermediate', discharge', rows' :=
      xOffset, lineCount, aOffset, intermediate, discharge, rows;
    if d.power >= config.maxConsumption {
      DischargeStep(data, config, i);
      xOffset' := xOffset + 1;
      discharge' := discharge + (d.power - config.maxConsumption);
      var limit := discharge' - config.batteryInitialCharge * 4.0;
      if limit >= 0.0 {
        DischargeArtificialFits(data, config, i);
      }
      var k := i + 1 - xOffset';
      var slack := countVars + lineCount;
      var equation;
      equation, aOffset', intermediate' :=
        DischargeEquation(cols, k, config.batteryEfficiency, slack, limit, aOffset, intermediate);
      DischargeRowAdvance(data, config, i, cols, k, slack, limit, aOffset, rows, equation);
      IntermediateAdvance(data, config, i, k, slack, limit, intermediate, intermediate');
      lineCount' := lineCount + 1;
      rows' := rows + [equation];
    } else {
      DischargeSkip(data, config, i);
    }
  }

  /** The row built for over-load interval `i` is the one the specification
      adds for it. */
  lemma DischargeRowAdvance(data: seq<Interval>, c: Config, i: nat, cols: nat, k: nat, slack: nat, lim: real,
                            a: nat, rows: seq<seq<real>>, equation: seq<real>)
    requires i < |data| && !Charges(data[i], c)
    requires cols == Cols(data, c) && k == XIndex(data, c, i) && slack == DischargeSlack(data, c, i)
    requires lim == DischargeLimit(data, c, i)
    requires a == ABase(data, c) + NegCapacity(data, c, |data|) + PosDischarge(data, c, i)
    requires k <= slack < cols - 1
    requires rows == DischargeBlock(data, c, i)
    requires equation == CoverageRow(cols, k, c.batteryEfficiency, slack, lim, a)
    ensures rows + [equation] == DischargeBlock(data, c, i + 1)
  {
  }

  /** The intermediate row after over-load interval `i` is the one the
      specification gives. */
  lemma IntermediateAdvance(data: seq<Interval>, c: Config, i: nat, k: nat, slack: nat, lim: real,
                            intermediate: seq<real>, intermediate': seq<real>)
    requires i < |data| && !Charges(data[i], c)
    requires k == XIndex(data, c, i) && slack == DischargeSlack(data, c, i) && lim == DischargeLimit(data, c, i)
    requires k <= slack < |intermediate| - 1
    requires intermediate == IntermediateOf(data, c, i)
    requires intermediate' == if lim >= 0.0 then AddObjective(intermediate, k, c.batteryEfficiency, slack, lim)
                              else intermediate
    ensures intermediate' == IntermediateOf(data, c, i + 1)
  {
  }

  /** Discharge rows: one per non-charging interval, each asking the charge
      accumulated so far to cover the discharge so far; the rows that receive
      an artificial are summed into the intermediate row. */
  method DischargeRows(data: seq<Interval>, config: Config, cols: nat, countVars: nat,
                       firstLine: nat, firstA: nat)
    returns (rows: seq<seq<real>>, aOffset: nat, intermediate: seq<real>, discharge: real)
    requires Fits(data, config)
    requires cols == Cols(data, config) && countVars == CountVars(data, config)
    requires firstLine == 2 * XIndex(data, config, |data|)
    requires firstA == ABase(data, config) + NegCapacity(data, config, |data|)
    ensures rows == DischargeBlock(data, config, |data|)
    ensures aOffset == firstA + PosDischarge(data, config, |data|)
    ensures intermediate == IntermediateOf(data, config, |data|)
    ensures discharge == DischargeBefore(data, config, |data|)
  {
    rows := [];
    aOffset := firstA;
    intermediate := Zeros(cols);
    discharge := 0.0;
    var lineCount := firstLine;
    var xOffset := 0;
    for i := 0 to |data|
      invariant DischargeState(data, config, i, xOffset, lineCount, aOffset, intermediate, discharge, rows)
    {
      xOffset, lineCount, aOffset, intermediate, discharge, rows :=
        DischargeInterval(data, config, cols, countVars, i, xOffset, lineCount, aOffset, intermediate, discharge, rows);
    }
  }

  /** The price row: `-price` at the decision column of each charging
      interval. */
  method PriceEquation(data: seq<Interval>, config: Config, cols: nat) returns (equation: seq<real>)
    requires cols == Cols(data, config)
    ensures equation == PriceRowOf(data, config, |data|)
  {
    var xOffset := 0;
    equation := Zeros(cols);
    for i := 0 to |data|
      invariant xOffset + XIndex(data, config, i) == i
      invariant equation == PriceRowOf(data, config, i)
    {
      var d := data[i];
      XIndexMono(data, config, i + 1, |data|);
      if d.power >= config.maxConsumption {
        xOffset := xOffset + 1;
        continue;
      }
      equation := equation[i - xOffset := -d.price];
    }
  }

  /** Moves each row's right-hand side to column `a` and cuts the row there. */
  method TrimRows(raw: seq<seq<real>>, a: nat, cols: nat) returns (result: seq<seq<real>>)
    requires a < cols && forall r :: 0 <= r < |raw| ==> |raw[r]| == cols
    ensures |result| == |raw|
    ensures forall r :: 0 <= r < |raw| ==> result[r] == Trim(raw[r], a)
  {
    result := raw;
    for r := 0 to |result|
      invariant |result| == |raw|
      invariant forall q :: 0 <= q < r ==> result[q] == Trim(raw[q], a)
      invariant forall q :: r <= q < |raw| ==> result[q] == raw[q]
    {
      var row := result[r];
      row := row[a := row[cols - 1]];
      row := row[..a + 1];
      result := result[r := row];
    }
  }

  /** The final-charge row and the finished intermediate row are the ones the
      specification gives. */
  lemma FinalAdvance(data: seq<Interval>, c: Config, cols: nat, slack: nat, lim: real, a: nat,
                     intermediate: seq<real>, final: seq<real>, intermediate': seq<real>)
    requires cols == Cols(data, c) && slack == DischargeSlack(data, c, |data|) && lim == FinalLimit(data, c)
    requires a == ABase(data, c) + NegCapacity(data, c, |data|) + PosDischarge(data, c, |data|)
    requires CountVars(data, c) <= slack < cols - 1 && |intermediate| == cols
    requires intermediate == IntermediateOf(data, c, |data|)
    requires final == CoverageRow(cols, CountVars(data, c), c.batteryEfficiency, slack, lim, a)
    requires intermediate' == if lim >= 0.0
                              then AddObjective(intermediate, CountVars(data, c), c.batteryEfficiency, slack, lim)
                              else intermediate
    ensures final == FinalRowOf(data, c)
    ensures intermediate' == FinalIntermediate(data, c)
  {
  }

  /** All rows before trimming, and the first artificial column left unused. */
  method RawTableau(data: seq<Interval>, config: Config) returns (raw: seq<seq<real>>, aOffset: nat)
    requires Fits(data, config)
    ensures raw == Raw(data, config)
    ensures aOffset == TrimAt(data, config)
  {
    var b0 := config.batteryInitialCharge * 4.0;
    var bFinal := config.batteryFinalCharge * 4.0;

    var countVars := CountVars(data, config);
    var countOver := |data| - countVars;
    var numS := 2 * countVars + countOver + 1;
    var numMaxA := countOver + 1;
    var cols := countVars + numS + numMaxA + 1;
    LayoutFacts(data, config);

    var caps, lineCount := ChargeCaps(data, config, cols, countVars);
    var capacities;
    capacities, aOffset := CapacityRows(data, config, cols, countVars, lineCount);
    var discharges, intermediate, discharge;
    discharges, aOffset, intermediate, discharge :=
      DischargeRows(data, config, cols, countVars, 2 * lineCount, aOffset);
    lineCount := 2 * lineCount + (|data| - lineCount);

    var limit := bFinal - b0 + discharge;
    var slack := countVars + lineCount;
    var final, aFinal, intermediateFinal :=
      FinalEquation(cols, countVars, config.batteryEfficiency, slack, limit, aOffset, intermediate);
    FinalAdvance(data, config, cols, slack, limit, aOffset, intermediate, final, intermediateFinal);
    var price := PriceEquation(data, config, cols);
    raw := caps + capacities + discharges + [final, price, intermediateFinal];
    aOffset := aFinal;
  }

  /** Builds the tableau and returns it with the number of decision variables
      and the number of artificial columns kept. */
  method BuildTableau(data: seq<Interval>, config: Config)
    returns (result: seq<seq<real>>, variables: nat, artificials: nat)
    requires Fits(data, config)
    ensures result == Tableau(data, config)
    ensures variables == CountVars(data, config)
    ensures artificials == UsedArtificials(data, config)
  {
    var countVars := CountVars(data, config);
    var numS := 2 * countVars + (|data| - countVars) + 1;
    var raw, aOffset := RawTableau(data, config);
    RawRowLengths(data, config);
    TrimFits(data, config);
    result := TrimRows(raw, aOffset, Cols(data, config));
    TableauFromRows(data, config, result);
    return result, countVars, aOffset - countVars - numS;
  }
}
