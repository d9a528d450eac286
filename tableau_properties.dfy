/**
 * What the tableau of `TableauCreation` holds: how many rows it has, where
 * the rows of each interval sit and which columns they touch, that every
 * constraint row has a non-negative right-hand side, that the intermediate
 * row is the sum of the rows that carry an artificial, and that trimming
 * only drops columns of zeros.
 */
module TableauProperties {
  import opened Wrappers
  import opened Data
  import opened TableauCreation

  /* ---------------------------------------------------------------------- */
  /* Shape                                                                   */
  /* ---------------------------------------------------------------------- */

  lemma {:induction false} BlockSizes(data: seq<Interval>, c: Config, n: nat)
    requires n <= |data|
    ensures |CapBlock(data, c, n)| == XIndex(data, c, n)
    ensures |CapacityBlock(data, c, n)| == XIndex(data, c, n)
    ensures |DischargeBlock(data, c, n)| == n - XIndex(data, c, n)
  {
    if n > 0 {
      BlockSizes(data, c, n - 1);
    }
  }

  /** Two rows per charging interval, one per other interval, then the
      final-charge, price and intermediate rows; each row keeps the used
      columns and the right-hand side. */
  lemma TableauShape(data: seq<Interval>, c: Config)
    requires Fits(data, c)
    ensures |Tableau(data, c)| == 2 * XIndex(data, c, |data|) + (|data| - XIndex(data, c, |data|)) + 3
    ensures forall r :: 0 <= r < |Tableau(data, c)| ==> |Tableau(data, c)[r]| == TrimAt(data, c) + 1
  {
    BlockSizes(data, c, |data|);
  }

  /** The row count and the decision columns agree with the counting test
      exactly when no interval sits at the maximum consumption. */
  lemma {:induction false} ColumnsAlign(data: seq<Interval>, c: Config, n: nat)
    requires n <= |data|
    ensures XIndex(data, c, n) == VarsBefore(data, c, n)
            <==> forall i :: 0 <= i < n ==> data[i].power != c.maxConsumption
  {
    if n > 0 {
      ColumnsAlign(data, c, n - 1);
    }
  }

  /** Without an interval at the limit the tableau has the
      `2 * count_vars + count_over + 3` rows the source reserves. */
  lemma RowsAsReserved(data: seq<Interval>, c: Config)
    requires Fits(data, c)
    requires forall i :: 0 <= i < |data| ==> data[i].power != c.maxConsumption
    ensures |Tableau(data, c)| == 2 * CountVars(data, c) + CountOver(data, c) + 3
  {
    TableauShape(data, c);
    ColumnsAlign(data, c, |data|);
  }

  /* ---------------------------------------------------------------------- */
  /* Where the rows of an interval sit                                       */
  /* ---------------------------------------------------------------------- */

  /** Decision columns are handed out in interval order. */
  lemma XIndexOrder(data: seq<Interval>, c: Config, h: nat, i: nat)
    requires h < |data| && Charges(data[h], c) && i <= |data|
    ensures XIndex(data, c, h) < XIndex(data, c, i) <==> h < i
  {
    if h < i {
      XIndexMono(data, c, h + 1, i);
    } else {
      XIndexMono(data, c, i, h);
    }
  }

  lemma {:induction false} CapBlocksAt(data: seq<Interval>, c: Config, n: nat, i: nat)
    requires i < n <= |data| && Charges(data[i], c)
    ensures XIndex(data, c, i) < |CapBlock(data, c, n)| == |CapacityBlock(data, c, n)|
    ensures CapBlock(data, c, n)[XIndex(data, c, i)] == CapRowOf(data, c, i)
    ensures CapacityBlock(data, c, n)[XIndex(data, c, i)] == CapacityRowOf(data, c, i)
  {
    BlockSizes(data, c, n - 1);
    if i < n - 1 {
      CapBlocksAt(data, c, n - 1, i);
    }
  }

  lemma {:induction false} DischargeBlockAt(data: seq<Interval>, c: Config, n: nat, i: nat)
    requires i < n <= |data| && !Charges(data[i], c)
    ensures i - XIndex(data, c, i) < |DischargeBlock(data, c, n)|
    ensures DischargeBlock(data, c, n)[i - XIndex(data, c, i)] == DischargeRowOf(data, c, i)
  {
    BlockSizes(data, c, n - 1);
    if i < n - 1 {
      DischargeBlockAt(data, c, n - 1, i);
      XIndexMono(data, c, i, n - 1);
    }
  }

  /** Entry `r` of four concatenated blocks, when it falls in the second. */
  lemma SecondBlockAt<T>(a: seq<T>, b: seq<T>, d: seq<T>, e: seq<T>, q: nat, r: nat)
    requires q < |b| && r == |a| + q
    ensures r < |a + b + d + e| && (a + b + d + e)[r] == b[q]
  {
    assert (a + b)[r] == b[q];
  }

  /** Entry `r` of four concatenated blocks, when it falls in the third. */
  lemma ThirdBlockAt<T>(a: seq<T>, b: seq<T>, d: seq<T>, e: seq<T>, q: nat, r: nat)
    requires q < |d| && r == |a| + |b| + q
    ensures r < |a + b + d + e| && (a + b + d + e)[r] == d[q]
  {
    assert (a + b + d)[r] == d[q];
  }

  /** The capacity block's row of charging interval `i`, found in the raw
      rows. */
  lemma CapacityRawAt(data: seq<Interval>, c: Config, i: nat, row: seq<real>)
    requires i < |data| && Charges(data[i], c)
    requires XIndex(data, c, i) < |CapacityBlock(data, c, |data|)|
    requires CapacityBlock(data, c, |data|)[XIndex(data, c, i)] == row
    ensures var r := XIndex(data, c, |data|) + XIndex(data, c, i);
      r < |Raw(data, c)| && Raw(data, c)[r] == row
  {
    BlockSizes(data, c, |data|);
    SecondBlockAt(CapBlock(data, c, |data|), CapacityBlock(data, c, |data|), DischargeBlock(data, c, |data|),
                  [FinalRowOf(data, c), PriceRowOf(data, c, |data|), FinalIntermediate(data, c)],
                  XIndex(data, c, i), XIndex(data, c, |data|) + XIndex(data, c, i));
  }

  /** The discharge block's row of non-charging interval `i`, found in the
      raw rows. */
  lemma DischargeRawAt(data: seq<Interval>, c: Config, i: nat, row: seq<real>)
    requires i < |data| && !Charges(data[i], c)
    requires i - XIndex(data, c, i) < |DischargeBlock(data, c, |data|)|
    requires DischargeBlock(data, c, |data|)[i - XIndex(data, c, i)] == row
    ensures var r := 2 * XIndex(data, c, |data|) + (i - XIndex(data, c, i));
      r < |Raw(data, c)| && Raw(data, c)[r] == row
  {
    BlockSizes(data, c, |data|);
    ThirdBlockAt(CapBlock(data, c, |data|), CapacityBlock(data, c, |data|), DischargeBlock(data, c, |data|),
                 [FinalRowOf(data, c), PriceRowOf(data, c, |data|), FinalIntermediate(data, c)],
                 i - XIndex(data, c, i), 2 * XIndex(data, c, |data|) + (i - XIndex(data, c, i)));
  }

  /** A tableau row is its raw row cut at `TrimAt`, with the right-hand side
      moved to column `TrimAt`. */
  lemma RowInTableau(data: seq<Interval>, c: Config, r: nat, row: seq<real>)
    requires Fits(data, c) && r < |Raw(data, c)| && Raw(data, c)[r] == row
    ensures r < |Tableau(data, c)| && |row| == Cols(data, c) && TrimAt(data, c) < |row|
    ensures |Tableau(data, c)[r]| == TrimAt(data, c) + 1
    ensures Tableau(data, c)[r][TrimAt(data, c)] == row[|row| - 1]
    ensures forall j :: 0 <= j < TrimAt(data, c) ==> Tableau(data, c)[r][j] == row[j]
  {
    RawRowLengths(data, c);
    TrimFits(data, c);
  }

  /** Entry `j` of tableau row `r`, left of the cut, is the raw entry. */
  lemma EntryInTableau(data: seq<Interval>, c: Config, r: nat, j: nat)
    requires Fits(data, c) && r < |Raw(data, c)| && j < TrimAt(data, c)
    ensures TrimAt(data, c) < Cols(data, c)
    ensures r < |Tableau(data, c)| && j < |Tableau(data, c)[r]| && j < |Raw(data, c)[r]|
    ensures Tableau(data, c)[r][j] == Raw(data, c)[r][j]
  {
    RowInTableau(data, c, r, Raw(data, c)[r]);
  }

  /* ---------------------------------------------------------------------- */
  /* What the rows hold                                                      */
  /* ---------------------------------------------------------------------- */

  /** Charge cap of charging interval `i`, in row `XIndex(i)`: its decision
      column plus its slack equals the smaller of the battery's charge rate
      and the headroom below the maximum consumption. */
  lemma CapRowInTableau(data: seq<Interval>, c: Config, i: nat)
    requires Fits(data, c) && i < |data| && Charges(data[i], c)
    ensures var t, x := Tableau(data, c), XIndex(data, c, i);
      x < |t| && |t[x]| == TrimAt(data, c) + 1
      && t[x][TrimAt(data, c)] == Min(c.batteryMaxCharge, c.maxConsumption - data[i].power)
      && forall j :: 0 <= j < TrimAt(data, c) ==>
           t[x][j] == (if j == x || j == CountVars(data, c) + x then 1.0 else 0.0)
  {
    var x := XIndex(data, c, i);
    CapBlocksAt(data, c, |data|, i);
    RowInTableau(data, c, x, CapRowOf(data, c, i));
  }

  /** A capacity row placed at raw row `r`, seen in the tableau. */
  lemma CapacityShapeInTableau(data: seq<Interval>, c: Config, r: nat, k: nat, slack: nat, lim: real, a: nat)
    requires Fits(data, c) && r < |Raw(data, c)|
    requires k < slack < a && slack < Cols(data, c) - 1 && (lim < 0.0 ==> a < Cols(data, c) - 1)
    requires Raw(data, c)[r] == CapacityRow(Cols(data, c), k, c.batteryEfficiency, slack, lim, a)
    ensures var t := Tableau(data, c);
      r < |t| && |t[r]| == TrimAt(data, c) + 1
      && t[r][TrimAt(data, c)] == (if lim < 0.0 then -lim else lim)
      && forall j :: 0 <= j < TrimAt(data, c) ==>
           t[r][j] == (if j <= k then (if lim < 0.0 then -c.batteryEfficiency else c.batteryEfficiency)
                       else if j == slack then (if lim < 0.0 then -1.0 else 1.0)
                       else if lim < 0.0 && j == a then 1.0
                       else 0.0)
  {
    RowInTableau(data, c, r, Raw(data, c)[r]);
  }

  /** A sufficiency row placed at raw row `r`, seen in the tableau. */
  lemma CoverageShapeInTableau(data: seq<Interval>, c: Config, r: nat, k: nat, slack: nat, lim: real, a: nat)
    requires Fits(data, c) && r < |Raw(data, c)|
    requires k <= slack < a && slack < Cols(data, c) - 1 && (lim >= 0.0 ==> a < Cols(data, c) - 1)
    requires Raw(data, c)[r] == CoverageRow(Cols(data, c), k, c.batteryEfficiency, slack, lim, a)
    ensures var t := Tableau(data, c);
      r < |t| && |t[r]| == TrimAt(data, c) + 1
      && t[r][TrimAt(data, c)] == (if lim < 0.0 then -lim else lim)
      && forall j :: 0 <= j < TrimAt(data, c) ==>
           t[r][j] == (if j < k then (if lim < 0.0 then -c.batteryEfficiency else c.batteryEfficiency)
                       else if j == slack then (if lim < 0.0 then 1.0 else -1.0)
                       else if lim >= 0.0 && j == a then 1.0
                       else 0.0)
  {
    RowInTableau(data, c, r, Raw(data, c)[r]);
  }

  /** Capacity row of charging interval `i`, in row `XIndex(N) + XIndex(i)`:
      the efficiency-weighted charge of interval `i` and of every charging
      interval before it, plus a slack, is at most the room left in the
      battery. When that room is negative the row is negated and an
      artificial column gets 1; the right-hand side is never negative. */
  lemma CapacityRowInTableau(data: seq<Interval>, c: Config, i: nat)
    requires Fits(data, c) && i < |data| && Charges(data[i], c)
    ensures var t, r := Tableau(data, c), XIndex(data, c, |data|) + XIndex(data, c, i);
      var lim, slack := CapacityLimit(data, c, i), CountVars(data, c) + r;
      r < |t| && |t[r]| == TrimAt(data, c) + 1
      && t[r][TrimAt(data, c)] == (if lim < 0.0 then -lim else lim)
      && forall j :: 0 <= j < TrimAt(data, c) ==>
           t[r][j] == (if j <= XIndex(data, c, i) then (if lim < 0.0 then -c.batteryEfficiency else c.batteryEfficiency)
                       else if j == slack then (if lim < 0.0 then -1.0 else 1.0)
                       else if lim < 0.0 && j == ABase(data, c) + NegCapacity(data, c, i) then 1.0
                       else 0.0)
  {
    var r := XIndex(data, c, |data|) + XIndex(data, c, i);
    CapacityRowPlaced(data, c, i);
    CapacityShapeInTableau(data, c, r, XIndex(data, c, i), CountVars(data, c) + r, CapacityLimit(data, c, i),
                           ABase(data, c) + NegCapacity(data, c, i));
  }

  /** Where the capacity row of charging interval `i` sits among the raw
      rows, and that its columns are in order. */
  lemma CapacityRowPlaced(data: seq<Interval>, c: Config, i: nat)
    requires Fits(data, c) && i < |data| && Charges(data[i], c)
    ensures var r, k := XIndex(data, c, |data|) + XIndex(data, c, i), XIndex(data, c, i);
      var slack, lim, a := CountVars(data, c) + r, CapacityLimit(data, c, i), ABase(data, c) + NegCapacity(data, c, i);
      k < slack < a && slack < Cols(data, c) - 1 && (lim < 0.0 ==> a < Cols(data, c) - 1)
      && r < |Raw(data, c)| && Raw(data, c)[r] == CapacityRow(Cols(data, c), k, c.batteryEfficiency, slack, lim, a)
  {
    CapacityColumnsInOrder(data, c, i);
    CapacityRowAt(data, c, i);
  }

  lemma CapacityColumnsInOrder(data: seq<Interval>, c: Config, i: nat)
    requires Fits(data, c) && i < |data| && Charges(data[i], c)
    ensures var r, k := XIndex(data, c, |data|) + XIndex(data, c, i), XIndex(data, c, i);
      var slack, lim, a := CountVars(data, c) + r, CapacityLimit(data, c, i), ABase(data, c) + NegCapacity(data, c, i);
      k < slack < a && slack < Cols(data, c) - 1 && (lim < 0.0 ==> a < Cols(data, c) - 1)
  {
    XIndexMono(data, c, i + 1, |data|);
    LayoutFacts(data, c);
    if CapacityLimit(data, c, i) < 0.0 {
      CapacityArtificialFits(data, c, i);
    }
  }

  lemma CapacityRowAt(data: seq<Interval>, c: Config, i: nat)
    requires i < |data| && Charges(data[i], c)
    ensures var r := XIndex(data, c, |data|) + XIndex(data, c, i);
      r < |Raw(data, c)| && Raw(data, c)[r] == CapacityRowOf(data, c, i)
  {
    CapBlocksAt(data, c, |data|, i);
    CapacityRawAt(data, c, i, CapacityRowOf(data, c, i));
  }

  /** Discharge row of non-charging interval `i`, in row
      `2 * XIndex(N) + (i - XIndex(i))`: the efficiency-weighted charge of the
      charging intervals before `i`, minus a slack, covers everything the
      intervals up to `i` draw above the maximum beyond the initial charge.
      When that amount is negative the row is negated; otherwise an
      artificial column gets 1. The right-hand side is never negative. */
  lemma DischargeRowInTableau(data: seq<Interval>, c: Config, i: nat)
    requires Fits(data, c) && i < |data| && !Charges(data[i], c)
    ensures var t, r := Tableau(data, c), 2 * XIndex(data, c, |data|) + (i - XIndex(data, c, i));
      var lim := DischargeLimit(data, c, i);
      r < |t| && |t[r]| == TrimAt(data, c) + 1
      && t[r][TrimAt(data, c)] == (if lim < 0.0 then -lim else lim)
      && forall j :: 0 <= j < TrimAt(data, c) ==>
           t[r][j] == (if j < XIndex(data, c, i) then (if lim < 0.0 then -c.batteryEfficiency else c.batteryEfficiency)
                       else if j == DischargeSlack(data, c, i) then (if lim < 0.0 then 1.0 else -1.0)
                       else if lim >= 0.0 && j == ABase(data, c) + NegCapacity(data, c, |data|) + PosDischarge(data, c, i) then 1.0
                       else 0.0)
  {
    var r := 2 * XIndex(data, c, |data|) + (i - XIndex(data, c, i));
    DischargeRowPlaced(data, c, i);
    CoverageShapeInTableau(data, c, r, XIndex(data, c, i), DischargeSlack(data, c, i), DischargeLimit(data, c, i),
                           ABase(data, c) + NegCapacity(data, c, |data|) + PosDischarge(data, c, i));
  }

  /** Where the discharge row of non-charging interval `i` sits among the
      raw rows, and that its columns are in order. */
  lemma DischargeRowPlaced(data: seq<Interval>, c: Config, i: nat)
    requires Fits(data, c) && i < |data| && !Charges(data[i], c)
    ensures var r, k := 2 * XIndex(data, c, |data|) + (i - XIndex(data, c, i)), XIndex(data, c, i);
      var slack, lim := DischargeSlack(data, c, i), DischargeLimit(data, c, i);
      var a := ABase(data, c) + NegCapacity(data, c, |data|) + PosDischarge(data, c, i);
      k <= slack < a && slack < Cols(data, c) - 1 && (lim >= 0.0 ==> a < Cols(data, c) - 1)
      && r < |Raw(data, c)| && Raw(data, c)[r] == CoverageRow(Cols(data, c), k, c.batteryEfficiency, slack, lim, a)
  {
    DischargeColumnsInOrder(data, c, i);
    DischargeRowAt(data, c, i);
  }

  lemma DischargeColumnsInOrder(data: seq<Interval>, c: Config, i: nat)
    requires Fits(data, c) && i < |data| && !Charges(data[i], c)
    ensures var k, slack, lim := XIndex(data, c, i), DischargeSlack(data, c, i), DischargeLimit(data, c, i);
      var a := ABase(data, c) + NegCapacity(data, c, |data|) + PosDischarge(data, c, i);
      k <= slack < a && slack < Cols(data, c) - 1 && (lim >= 0.0 ==> a < Cols(data, c) - 1)
  {
    DischargeStep(data, c, i);
    XIndexMono(data, c, i, |data|);
    LayoutFacts(data, c);
    if DischargeLimit(data, c, i) >= 0.0 {
      DischargeArtificialFits(data, c, i);
    }
  }

  lemma DischargeRowAt(data: seq<Interval>, c: Config, i: nat)
    requires i < |data| && !Charges(data[i], c)
    ensures var r := 2 * XIndex(data, c, |data|) + (i - XIndex(data, c, i));
      r < |Raw(data, c)| && Raw(data, c)[r] == DischargeRowOf(data, c, i)
  {
    DischargeBlockAt(data, c, |data|, i);
    DischargeRawAt(data, c, i, DischargeRowOf(data, c, i));
  }

  /** A charging interval's decision column lies left of every slack and
      artificial column. */
  lemma DecisionColumnLeft(data: seq<Interval>, c: Config, h: nat)
    requires h < |data| && Charges(data[h], c)
    ensures XIndex(data, c, h) < CountVars(data, c) < ABase(data, c) <= TrimAt(data, c)
  {
    XIndexMono(data, c, h + 1, |data|);
    LayoutFacts(data, c);
  }

  /** Decision columns up to that of charging interval `i` belong to the
      charging intervals up to `i`. */
  lemma XIndexUpTo(data: seq<Interval>, c: Config, h: nat, i: nat)
    requires h < |data| && Charges(data[h], c) && i < |data| && Charges(data[i], c)
    ensures XIndex(data, c, h) <= XIndex(data, c, i) <==> h <= i
  {
    XIndexOrder(data, c, h, i + 1);
    assert XIndex(data, c, i + 1) == XIndex(data, c, i) + 1;
  }

  /** Left of its slack and artificial columns, a capacity row is nonzero
      exactly up to column `k` and when the efficiency is. */
  lemma CapacityEntryNonzero(cols: nat, k: nat, eff: real, slack: nat, lim: real, a: nat, x: nat)
    requires x < slack && x < a && x < cols - 1
    ensures CapacityEntry(cols, k, eff, slack, lim, a, x) != 0.0 <==> x <= k && eff != 0.0
  {
  }

  /** Left of its slack and artificial columns, a sufficiency row is
      nonzero exactly below column `k` and when the efficiency is. */
  lemma CoverageEntryNonzero(cols: nat, k: nat, eff: real, slack: nat, lim: real, a: nat, x: nat)
    requires x < slack && x < a && x < cols - 1
    ensures CoverageEntry(cols, k, eff, slack, lim, a, x) != 0.0 <==> x < k && eff != 0.0
  {
  }

  /** Entry `j` of the capacity row of charging interval `i`, left of the cut. */
  lemma CapacityEntryInTableau(data: seq<Interval>, c: Config, i: nat, j: nat)
    requires Fits(data, c) && i < |data| && Charges(data[i], c) && j < TrimAt(data, c)
    ensures j < Cols(data, c) - 1
    ensures var t, r := Tableau(data, c), XIndex(data, c, |data|) + XIndex(data, c, i);
      r < |t| && j < |t[r]|
      && t[r][j] == CapacityEntry(Cols(data, c), XIndex(data, c, i), c.batteryEfficiency, CountVars(data, c) + r,
                                  CapacityLimit(data, c, i), ABase(data, c) + NegCapacity(data, c, i), j)
  {
    CapacityRowPlaced(data, c, i);
    EntryInTableau(data, c, XIndex(data, c, |data|) + XIndex(data, c, i), j);
  }

  /** Entry `j` of the discharge row of non-charging interval `i`, left of
      the cut. */
  lemma DischargeEntryInTableau(data: seq<Interval>, c: Config, i: nat, j: nat)
    requires Fits(data, c) && i < |data| && !Charges(data[i], c) && j < TrimAt(data, c)
    ensures j < Cols(data, c) - 1
    ensures var t, r := Tableau(data, c), 2 * XIndex(data, c, |data|) + (i - XIndex(data, c, i));
      r < |t| && j < |t[r]|
      && t[r][j] == CoverageEntry(Cols(data, c), XIndex(data, c, i), c.batteryEfficiency, DischargeSlack(data, c, i),
                                  DischargeLimit(data, c, i),
                                  ABase(data, c) + NegCapacity(data, c, |data|) + PosDischarge(data, c, i), j)
  {
    DischargeRowPlaced(data, c, i);
    EntryInTableau(data, c, 2 * XIndex(data, c, |data|) + (i - XIndex(data, c, i)), j);
  }

  /** Decision column `x` of the capacity row of charging interval `i` is
      nonzero exactly up to `i`'s own column. */
  lemma CapacityDecisionInTableau(data: seq<Interval>, c: Config, i: nat, x: nat)
    requires Fits(data, c) && i < |data| && Charges(data[i], c) && x < CountVars(data, c)
    ensures var t, r := Tableau(data, c), XIndex(data, c, |data|) + XIndex(data, c, i);
      r < |t| && x < |t[r]| && (t[r][x] != 0.0 <==> x <= XIndex(data, c, i) && c.batteryEfficiency != 0.0)
  {
    CapacityDecisionEntry(data, c, i, x);
    CapacityEntryInTableau(data, c, i, x);
  }

  /** The capacity-row entry of a decision column, before it is placed. */
  lemma CapacityDecisionEntry(data: seq<Interval>, c: Config, i: nat, x: nat)
    requires i < |data| && x < CountVars(data, c)
    ensures x < TrimAt(data, c)
    ensures var r := XIndex(data, c, |data|) + XIndex(data, c, i);
      CapacityEntry(Cols(data, c), XIndex(data, c, i), c.batteryEfficiency, CountVars(data, c) + r,
                    CapacityLimit(data, c, i), ABase(data, c) + NegCapacity(data, c, i), x) != 0.0
      <==> x <= XIndex(data, c, i) && c.batteryEfficiency != 0.0
  {
    LayoutFacts(data, c);
    CapacityEntryNonzero(Cols(data, c), XIndex(data, c, i), c.batteryEfficiency,
                         CountVars(data, c) + XIndex(data, c, |data|) + XIndex(data, c, i),
                         CapacityLimit(data, c, i), ABase(data, c) + NegCapacity(data, c, i), x);
  }

  /** Decision column `x` of the discharge row of non-charging interval `i`
      is nonzero exactly below `i`'s column count. */
  lemma DischargeDecisionInTableau(data: seq<Interval>, c: Config, i: nat, x: nat)
    requires Fits(data, c) && i < |data| && !Charges(data[i], c) && x < CountVars(data, c)
    ensures var t, r := Tableau(data, c), 2 * XIndex(data, c, |data|) + (i - XIndex(data, c, i));
      r < |t| && x < |t[r]| && (t[r][x] != 0.0 <==> x < XIndex(data, c, i) && c.batteryEfficiency != 0.0)
  {
    DischargeDecisionEntry(data, c, i, x);
    DischargeEntryInTableau(data, c, i, x);
  }

  /** The sufficiency-row entry of a decision column, before it is placed. */
  lemma DischargeDecisionEntry(data: seq<Interval>, c: Config, i: nat, x: nat)
    requires i < |data| && x < CountVars(data, c)
    ensures x < TrimAt(data, c)
    ensures var a := ABase(data, c) + NegCapacity(data, c, |data|) + PosDischarge(data, c, i);
      CoverageEntry(Cols(data, c), XIndex(data, c, i), c.batteryEfficiency, DischargeSlack(data, c, i),
                    DischargeLimit(data, c, i), a, x) != 0.0
      <==> x < XIndex(data, c, i) && c.batteryEfficiency != 0.0
  {
    LayoutFacts(data, c);
    var a := ABase(data, c) + NegCapacity(data, c, |data|) + PosDischarge(data, c, i);
    assert x < DischargeSlack(data, c, i) && x < a && x < Cols(data, c) - 1;
    CoverageEntryNonzero(Cols(data, c), XIndex(data, c, i), c.batteryEfficiency, DischargeSlack(data, c, i),
                         DischargeLimit(data, c, i), a, x);
    assert CoverageEntry(Cols(data, c), XIndex(data, c, i), c.batteryEfficiency, DischargeSlack(data, c, i),
                    DischargeLimit(data, c, i), a, x) != 0.0
      <==> x < XIndex(data, c, i) && c.batteryEfficiency != 0.0;
  }

  /** The discharge row of interval `i` weighs exactly the charging intervals
      that come before `i`. */
  lemma DischargeRowCoversEarlierCharges(data: seq<Interval>, c: Config, i: nat, h: nat)
    requires Fits(data, c) && i < |data| && !Charges(data[i], c)
    requires h < |data| && Charges(data[h], c)
    ensures var t, r := Tableau(data, c), 2 * XIndex(data, c, |data|) + (i - XIndex(data, c, i));
      r < |t| && XIndex(data, c, h) < |t[r]|
      && (t[r][XIndex(data, c, h)] != 0.0 <==> h < i && c.batteryEfficiency != 0.0)
  {
    XIndexOrder(data, c, h, i);
    DecisionColumnLeft(data, c, h);
    DischargeDecisionInTableau(data, c, i, XIndex(data, c, h));
  }

  /** The capacity row of interval `i` weighs exactly the charging intervals
      up to and including `i`. */
  lemma CapacityRowCoversChargesSoFar(data: seq<Interval>, c: Config, i: nat, h: nat)
    requires Fits(data, c) && i < |data| && Charges(data[i], c)
    requires h < |data| && Charges(data[h], c)
    ensures var t, r := Tableau(data, c), XIndex(data, c, |data|) + XIndex(data, c, i);
      r < |t| && XIndex(data, c, h) < |t[r]|
      && (t[r][XIndex(data, c, h)] != 0.0 <==> h <= i && c.batteryEfficiency != 0.0)
  {
    XIndexUpTo(data, c, h, i);
    DecisionColumnLeft(data, c, h);
    CapacityDecisionInTableau(data, c, i, XIndex(data, c, h));
  }

  /** Final-charge row, third from the bottom: the efficiency-weighted charge
      over all `count_vars` decision columns, minus a slack, brings the
      battery from its initial to its final charge net of every discharge.
      Negated when that amount is negative, otherwise with an artificial. */
  lemma FinalRowInTableau(data: seq<Interval>, c: Config)
    requires Fits(data, c)
    ensures var t, lim := Tableau(data, c), FinalLimit(data, c);
      var r, a := |t| - 3, ABase(data, c) + NegCapacity(data, c, |data|) + PosDischarge(data, c, |data|);
      0 <= r && |t[r]| == TrimAt(data, c) + 1
      && t[r][TrimAt(data, c)] == (if lim < 0.0 then -lim else lim)
      && forall j :: 0 <= j < TrimAt(data, c) ==>
           t[r][j] == (if j < CountVars(data, c) then (if lim < 0.0 then -c.batteryEfficiency else c.batteryEfficiency)
                       else if j == DischargeSlack(data, c, |data|) then (if lim < 0.0 then 1.0 else -1.0)
                       else if lim >= 0.0 && j == a then 1.0
                       else 0.0)
  {
    LayoutFacts(data, c);
    CoverageShapeInTableau(data, c, |Raw(data, c)| - 3, CountVars(data, c), DischargeSlack(data, c, |data|),
                           FinalLimit(data, c), ABase(data, c) + NegCapacity(data, c, |data|) + PosDischarge(data, c, |data|));
  }

  /** The price row holds `-price` at the decision column of each charging
      interval among the first `n` and zeros from column `XIndex(n)` on. */
  lemma {:induction false} PriceRowEntries(data: seq<Interval>, c: Config, n: nat)
    requires n <= |data|
    ensures forall h :: 0 <= h < n && Charges(data[h], c) ==>
              XIndex(data, c, h) < Cols(data, c) && PriceRowOf(data, c, n)[XIndex(data, c, h)] == -data[h].price
    ensures forall j :: XIndex(data, c, n) <= j < Cols(data, c) ==> PriceRowOf(data, c, n)[j] == 0.0
  {
    if n > 0 {
      var m := n - 1;
      PriceRowEntries(data, c, m);
      assert XIndex(data, c, n) < Cols(data, c) by {
        XIndexMono(data, c, n, |data|);
        LayoutFacts(data, c);
      }
      if Charges(data[m], c) {
        var row := PriceRowOf(data, c, n);
        assert row == PriceRowOf(data, c, m)[XIndex(data, c, m) := -data[m].price];
        forall h | 0 <= h < n && Charges(data[h], c)
          ensures XIndex(data, c, h) < Cols(data, c) && row[XIndex(data, c, h)] == -data[h].price
        {
          if h < m {
            XIndexOrder(data, c, h, m);
          }
        }
      } else {
        assert PriceRowOf(data, c, n) == PriceRowOf(data, c, m);
      }
    }
  }

  /** Price row, second from the bottom: minus the price of each charging
      interval at its decision column, zero at every slack and artificial
      column and as right-hand side. */
  lemma PriceRowInTableau(data: seq<Interval>, c: Config)
    requires Fits(data, c)
    ensures var t := Tableau(data, c);
      var r := |t| - 2;
      0 <= r && |t[r]| == TrimAt(data, c) + 1
      && (forall h :: 0 <= h < |data| && Charges(data[h], c) ==>
            XIndex(data, c, h) < TrimAt(data, c) && t[r][XIndex(data, c, h)] == -data[h].price)
      && forall j :: XIndex(data, c, |data|) <= j <= TrimAt(data, c) ==> t[r][j] == 0.0
  {
    var row := PriceRowOf(data, c, |data|);
    PriceRowEntries(data, c, |data|);
    LayoutFacts(data, c);
    RowInTableau(data, c, |Raw(data, c)| - 2, row);
  }

  /* ---------------------------------------------------------------------- */
  /* Right-hand sides and trimmed columns                                    */
  /* ---------------------------------------------------------------------- */

  /** Every entry from column `lo` up to the right-hand side is zero. */
  ghost predicate ZeroFrom(row: seq<real>, lo: nat) {
    forall j :: lo <= j < |row| - 1 ==> row[j] == 0.0
  }

  ghost predicate RhsNonNegative(row: seq<real>) {
    |row| > 0 && row[|row| - 1] >= 0.0
  }

  lemma CapRowFacts(cols: nat, x: nat, slack: nat, rhs: real, lo: nat)
    requires x < slack < lo <= cols - 1
    ensures ZeroFrom(CapRow(cols, x, slack, rhs), lo)
    ensures CapRow(cols, x, slack, rhs)[cols - 1] == rhs
  {
  }

  lemma CapacityRowFacts(cols: nat, k: nat, eff: real, slack: nat, lim: real, a: nat, lo: nat)
    requires k < slack < lo <= cols - 1 && (lim < 0.0 ==> a < lo)
    ensures ZeroFrom(CapacityRow(cols, k, eff, slack, lim, a), lo)
    ensures RhsNonNegative(CapacityRow(cols, k, eff, slack, lim, a))
  {
  }

  lemma CoverageRowFacts(cols: nat, k: nat, eff: real, slack: nat, lim: real, a: nat, lo: nat)
    requires k <= slack < lo <= cols - 1 && (lim >= 0.0 ==> a < lo)
    ensures ZeroFrom(CoverageRow(cols, k, eff, slack, lim, a), lo)
    ensures RhsNonNegative(CoverageRow(cols, k, eff, slack, lim, a))
  {
  }

  lemma AddObjectiveFacts(row: seq<real>, k: nat, eff: real, slack: nat, lim: real, lo: nat)
    requires k <= slack < lo <= |row| - 1 && ZeroFrom(row, lo)
    ensures ZeroFrom(AddObjective(row, k, eff, slack, lim), lo)
  {
  }

  lemma {:induction false} CapBlockFacts(data: seq<Interval>, c: Config, n: nat)
    requires n <= |data|
    ensures forall q :: 0 <= q < |CapBlock(data, c, n)| ==> ZeroFrom(CapBlock(data, c, n)[q], ABase(data, c))
    ensures c.batteryMaxCharge >= 0.0 ==>
              forall q :: 0 <= q < |CapBlock(data, c, n)| ==> RhsNonNegative(CapBlock(data, c, n)[q])
  {
    if n > 0 {
      CapBlockFacts(data, c, n - 1);
      if Charges(data[n - 1], c) {
        var i := n - 1;
        XIndexMono(data, c, i + 1, |data|);
        LayoutFacts(data, c);
        CapRowFacts(Cols(data, c), XIndex(data, c, i), CountVars(data, c) + XIndex(data, c, i),
                    Min(c.batteryMaxCharge, c.maxConsumption - data[i].power), ABase(data, c));
      }
    }
  }

  lemma ZeroFromWiden(rows: seq<seq<real>>, lo: nat, hi: nat)
    requires lo <= hi && forall q :: 0 <= q < |rows| ==> ZeroFrom(rows[q], lo)
    ensures forall q :: 0 <= q < |rows| ==> ZeroFrom(rows[q], hi)
  {
  }

  lemma CapacityRowOfFacts(data: seq<Interval>, c: Config, i: nat)
    requires Fits(data, c) && i < |data| && Charges(data[i], c)
    ensures ZeroFrom(CapacityRowOf(data, c, i), ABase(data, c) + NegCapacity(data, c, i + 1))
    ensures RhsNonNegative(CapacityRowOf(data, c, i))
  {
    var k := XIndex(data, c, i);
    CapacityColumnsBefore(data, c, i);
    CapacityRowFacts(Cols(data, c), k, c.batteryEfficiency, CountVars(data, c) + XIndex(data, c, |data|) + k,
                     CapacityLimit(data, c, i), ABase(data, c) + NegCapacity(data, c, i),
                     ABase(data, c) + NegCapacity(data, c, i + 1));
  }

  /** The columns a capacity row uses all lie before the artificial columns
      of later rows. */
  lemma CapacityColumnsBefore(data: seq<Interval>, c: Config, i: nat)
    requires Fits(data, c) && i < |data| && Charges(data[i], c)
    ensures var k, lim := XIndex(data, c, i), CapacityLimit(data, c, i);
      var slack := CountVars(data, c) + XIndex(data, c, |data|) + k;
      var a, lo := ABase(data, c) + NegCapacity(data, c, i), ABase(data, c) + NegCapacity(data, c, i + 1);
      k < slack < lo <= Cols(data, c) - 1 && (lim < 0.0 ==> a < lo)
  {
    LayoutFacts(data, c);
    NegCapacityMono(data, c, i + 1, |data|);
    XIndexMono(data, c, i + 1, |data|);
  }

  lemma {:induction false} CapacityBlockFacts(data: seq<Interval>, c: Config, n: nat)
    requires Fits(data, c) && n <= |data|
    ensures forall q :: 0 <= q < |CapacityBlock(data, c, n)| ==>
              ZeroFrom(CapacityBlock(data, c, n)[q], ABase(data, c) + NegCapacity(data, c, n))
    ensures forall q :: 0 <= q < |CapacityBlock(data, c, n)| ==> RhsNonNegative(CapacityBlock(data, c, n)[q])
  {
    if n > 0 {
      var i := n - 1;
      CapacityBlockFacts(data, c, i);
      NegCapacityMono(data, c, i, n);
      ZeroFromWiden(CapacityBlock(data, c, i), ABase(data, c) + NegCapacity(data, c, i), ABase(data, c) + NegCapacity(data, c, n));
      if Charges(data[i], c) {
        CapacityRowOfFacts(data, c, i);
      }
    }
  }

  lemma DischargeRowOfFacts(data: seq<Interval>, c: Config, i: nat)
    requires Fits(data, c) && i < |data| && !Charges(data[i], c)
    ensures ZeroFrom(DischargeRowOf(data, c, i),
                     ABase(data, c) + NegCapacity(data, c, |data|) + PosDischarge(data, c, i + 1))
    ensures RhsNonNegative(DischargeRowOf(data, c, i))
  {
    DischargeColumnsBefore(data, c, i);
    CoverageRowFacts(Cols(data, c), XIndex(data, c, i), c.batteryEfficiency, DischargeSlack(data, c, i),
                     DischargeLimit(data, c, i), ABase(data, c) + NegCapacity(data, c, |data|) + PosDischarge(data, c, i),
                     ABase(data, c) + NegCapacity(data, c, |data|) + PosDischarge(data, c, i + 1));
  }

  /** The columns a discharge row uses all lie before the artificial
      columns of later rows. */
  lemma DischargeColumnsBefore(data: seq<Interval>, c: Config, i: nat)
    requires Fits(data, c) && i < |data| && !Charges(data[i], c)
    ensures var k, slack, lim := XIndex(data, c, i), DischargeSlack(data, c, i), DischargeLimit(data, c, i);
      var a := ABase(data, c) + NegCapacity(data, c, |data|) + PosDischarge(data, c, i);
      var lo := ABase(data, c) + NegCapacity(data, c, |data|) + PosDischarge(data, c, i + 1);
      k <= slack < lo <= Cols(data, c) - 1 && (lim >= 0.0 ==> a < lo)
  {
    LayoutFacts(data, c);
    PosDischargeMono(data, c, i + 1, |data|);
    XIndexMono(data, c, i, |data|);
  }

  lemma {:induction false} DischargeBlockFacts(data: seq<Interval>, c: Config, n: nat)
    requires Fits(data, c) && n <= |data|
    ensures forall q :: 0 <= q < |DischargeBlock(data, c, n)| ==>
              ZeroFrom(DischargeBlock(data, c, n)[q],
                       ABase(data, c) + NegCapacity(data, c, |data|) + PosDischarge(data, c, n))
    ensures forall q :: 0 <= q < |DischargeBlock(data, c, n)| ==> RhsNonNegative(DischargeBlock(data, c, n)[q])
  {
    if n > 0 {
      var i := n - 1;
      var base := ABase(data, c) + NegCapacity(data, c, |data|);
      DischargeBlockFacts(data, c, i);
      PosDischargeMono(data, c, i, n);
      ZeroFromWiden(DischargeBlock(data, c, i), base + PosDischarge(data, c, i), base + PosDischarge(data, c, n));
      if !Charges(data[i], c) {
        DischargeRowOfFacts(data, c, i);
      }
    }
  }

  lemma FinalRowFacts(data: seq<Interval>, c: Config)
    requires Fits(data, c)
    ensures ZeroFrom(FinalRowOf(data, c), TrimAt(data, c))
    ensures RhsNonNegative(FinalRowOf(data, c))
  {
    var a := ABase(data, c) + NegCapacity(data, c, |data|) + PosDischarge(data, c, |data|);
    LayoutFacts(data, c);
    CoverageRowFacts(Cols(data, c), CountVars(data, c), c.batteryEfficiency, DischargeSlack(data, c, |data|),
                     FinalLimit(data, c), a, TrimAt(data, c));
  }

  lemma {:induction false} IntermediateFacts(data: seq<Interval>, c: Config, n: nat)
    requires n <= |data|
    ensures ZeroFrom(IntermediateOf(data, c, n), ABase(data, c))
  {
    if n > 0 {
      IntermediateFacts(data, c, n - 1);
      if !Charges(data[n - 1], c) && DischargeLimit(data, c, n - 1) >= 0.0 {
        XIndexMono(data, c, n - 1, |data|);
        LayoutFacts(data, c);
        AddObjectiveFacts(IntermediateOf(data, c, n - 1), XIndex(data, c, n - 1), c.batteryEfficiency,
                          DischargeSlack(data, c, n - 1), DischargeLimit(data, c, n - 1), ABase(data, c));
      }
    }
  }

  lemma FinalIntermediateFacts(data: seq<Interval>, c: Config)
    ensures ZeroFrom(FinalIntermediate(data, c), ABase(data, c))
  {
    IntermediateFacts(data, c, |data|);
    LayoutFacts(data, c);
    if FinalLimit(data, c) >= 0.0 {
      AddObjectiveFacts(IntermediateOf(data, c, |data|), CountVars(data, c), c.batteryEfficiency,
                        DischargeSlack(data, c, |data|), FinalLimit(data, c), ABase(data, c));
    }
  }

  /** Every raw row is zero from column `TrimAt` up to its right-hand side,
      and every constraint row has a non-negative right-hand side when the
      battery's charge rate is not negative. */
  lemma RawFacts(data: seq<Interval>, c: Config)
    requires Fits(data, c)
    ensures forall r :: 0 <= r < |Raw(data, c)| ==> ZeroFrom(Raw(data, c)[r], TrimAt(data, c))
    ensures c.batteryMaxCharge >= 0.0 ==>
              forall r :: 0 <= r < |Raw(data, c)| - 2 ==> RhsNonNegative(Raw(data, c)[r])
  {
    var n, at := |data|, TrimAt(data, c);
    var caps, capacities, discharges := CapBlock(data, c, n), CapacityBlock(data, c, n), DischargeBlock(data, c, n);
    CapBlockFacts(data, c, n);
    CapacityBlockFacts(data, c, n);
    DischargeBlockFacts(data, c, n);
    FinalRowFacts(data, c);
    FinalIntermediateFacts(data, c);
    PriceRowEntries(data, c, n);
    LayoutFacts(data, c);
    ZeroFromWiden(caps, ABase(data, c), at);
    ZeroFromWiden(capacities, ABase(data, c) + NegCapacity(data, c, n), at);
    ZeroFromWiden(discharges, ABase(data, c) + NegCapacity(data, c, n) + PosDischarge(data, c, n), at);
    var raw := Raw(data, c);
    assert raw == caps + capacities + discharges
                  + [FinalRowOf(data, c), PriceRowOf(data, c, n), FinalIntermediate(data, c)];
    forall r | 0 <= r < |raw|
      ensures ZeroFrom(raw[r], at)
      ensures c.batteryMaxCharge >= 0.0 && r < |raw| - 2 ==> RhsNonNegative(raw[r])
    {
      if r < |caps| {
        assert raw[r] == caps[r];
      } else if r < |caps| + |capacities| {
        assert raw[r] == capacities[r - |caps|];
      } else if r < |caps| + |capacities| + |discharges| {
        assert raw[r] == discharges[r - |caps| - |capacities|];
      } else if r == |raw| - 3 {
        assert raw[r] == FinalRowOf(data, c);
      } else if r == |raw| - 2 {
        assert raw[r] == PriceRowOf(data, c, n);
      } else {
        assert raw[r] == FinalIntermediate(data, c);
      }
    }
  }

  /** A row that is zero between column `a` and its right-hand side is its
      trimmed form padded back with zeros. */
  lemma PadTrimmed(row: seq<real>, a: nat)
    requires a < |row| && ZeroFrom(row, a)
    ensures row == Trim(row, a)[..a] + Zeros(|row| - 1 - a) + [Trim(row, a)[a]]
  {
    var padded := Trim(row, a)[..a] + Zeros(|row| - 1 - a) + [Trim(row, a)[a]];
    assert |padded| == |row|;
    forall j | 0 <= j < |row|
      ensures padded[j] == row[j]
    {
      if j < a {
      } else if j < |row| - 1 {
        assert padded[j] == Zeros(|row| - 1 - a)[j - a];
      }
    }
  }

  /** Trimming loses nothing: each row before trimming is the tableau row
      with zeros put back in the unused artificial columns. */
  lemma TrimDropsOnlyZeros(data: seq<Interval>, c: Config)
    requires Fits(data, c)
    ensures |Raw(data, c)| == |Tableau(data, c)|
    ensures forall r :: 0 <= r < |Raw(data, c)| ==>
      var row := Tableau(data, c)[r];
      |row| == TrimAt(data, c) + 1
      && Raw(data, c)[r] == row[..TrimAt(data, c)] + Zeros(Cols(data, c) - 1 - TrimAt(data, c)) + [row[TrimAt(data, c)]]
  {
    RawFacts(data, c);
    RawRowLengths(data, c);
    TrimFits(data, c);
    var raw, t, at := Raw(data, c), Tableau(data, c), TrimAt(data, c);
    forall r | 0 <= r < |raw|
      ensures |t[r]| == at + 1 && raw[r] == t[r][..at] + Zeros(Cols(data, c) - 1 - at) + [t[r][at]]
    {
      assert t[r] == Trim(raw[r], at);
      PadTrimmed(raw[r], at);
    }
  }

  /** Every constraint row (all but the price and intermediate rows) has a
      non-negative right-hand side, which is what the negations and the
      artificial columns are for. The charge-cap rows need a non-negative
      charge rate. */
  lemma ConstraintRhsNonNegative(data: seq<Interval>, c: Config)
    requires Fits(data, c) && c.batteryMaxCharge >= 0.0
    ensures forall r :: 0 <= r < |Tableau(data, c)| - 2 ==>
              |Tableau(data, c)[r]| == TrimAt(data, c) + 1 && Tableau(data, c)[r][TrimAt(data, c)] >= 0.0
  {
    RawFacts(data, c);
    RawRowLengths(data, c);
    TrimFits(data, c);
  }

  /* ---------------------------------------------------------------------- */
  /* The intermediate row                                                    */
  /* ---------------------------------------------------------------------- */

  /** Column `j` summed over the discharge rows among the first `n`
      intervals that carry an artificial. */
  ghost function ArtificialRowsSum(data: seq<Interval>, c: Config, n: nat, j: nat): real
    requires n <= |data| && j < Cols(data, c)
  {
    if n == 0 then 0.0
    else ArtificialRowsSum(data, c, n - 1, j)
         + (if !Charges(data[n - 1], c) && DischargeLimit(data, c, n - 1) >= 0.0
            then DischargeRowOf(data, c, n - 1)[j] else 0.0)
  }

  /** Adding a sufficiency row with an artificial to the intermediate row
      adds the row itself outside the artificial columns, provided its slack
      column was still zero. */
  lemma AddObjectiveAddsRow(prev: seq<real>, k: nat, eff: real, slack: nat, lim: real, a: nat, j: nat)
    requires k <= slack < a < |prev| - 1 && lim >= 0.0 && prev[slack] == 0.0
    requires j < a || j == |prev| - 1
    ensures AddObjective(prev, k, eff, slack, lim)[j] == prev[j] + CoverageRow(|prev|, k, eff, slack, lim, a)[j]
  {
  }

  /** Discharge rows before `n` are zero from the slack of interval `n` up to
      the artificial columns. */
  lemma {:induction false} ArtificialRowsSumZero(data: seq<Interval>, c: Config, n: nat, j: nat)
    requires n <= |data| && DischargeSlack(data, c, n) <= j < ABase(data, c)
    ensures ArtificialRowsSum(data, c, n, j) == 0.0
  {
    if n > 0 {
      var i := n - 1;
      XIndexMono(data, c, i, n);
      XIndexMono(data, c, i, |data|);
      LayoutFacts(data, c);
      ArtificialRowsSumZero(data, c, i, j);
      if !Charges(data[i], c) && DischargeLimit(data, c, i) >= 0.0 {
        DischargeStep(data, c, i);
        assert DischargeRowOf(data, c, i)[j]
          == CoverageEntry(Cols(data, c), XIndex(data, c, i), c.batteryEfficiency, DischargeSlack(data, c, i),
                           DischargeLimit(data, c, i),
                           ABase(data, c) + NegCapacity(data, c, |data|) + PosDischarge(data, c, i), j);
      }
    }
  }

  /** Outside the artificial columns the intermediate row built so far is the
      sum of the discharge rows that carry an artificial. */
  lemma {:induction false} IntermediateIsArtificialSum(data: seq<Interval>, c: Config, n: nat)
    requires Fits(data, c) && n <= |data|
    ensures forall j :: 0 <= j < ABase(data, c) || j == Cols(data, c) - 1 ==>
              IntermediateOf(data, c, n)[j] == ArtificialRowsSum(data, c, n, j)
  {
    if n > 0 {
      IntermediateIsArtificialSum(data, c, n - 1);
      if !Charges(data[n - 1], c) && DischargeLimit(data, c, n - 1) >= 0.0 {
        IntermediateAddsDischarge(data, c, n - 1, n);
      }
    }
  }

  /** One step of the intermediate row: a discharge row with an artificial is
      added outside the artificial columns. */
  lemma IntermediateAddsDischarge(data: seq<Interval>, c: Config, i: nat, n: nat)
    requires Fits(data, c) && i < |data| && n == i + 1
    requires !Charges(data[i], c) && DischargeLimit(data, c, i) >= 0.0
    requires forall j :: 0 <= j < ABase(data, c) || j == Cols(data, c) - 1 ==>
               IntermediateOf(data, c, i)[j] == ArtificialRowsSum(data, c, i, j)
    ensures forall j :: 0 <= j < ABase(data, c) || j == Cols(data, c) - 1 ==>
              IntermediateOf(data, c, n)[j] == ArtificialRowsSum(data, c, n, j)
  {
    var k, slack, lim := XIndex(data, c, i), DischargeSlack(data, c, i), DischargeLimit(data, c, i);
    var a := ABase(data, c) + NegCapacity(data, c, |data|) + PosDischarge(data, c, i);
    var prev := IntermediateOf(data, c, i);
    assert k <= slack < ABase(data, c) <= a < |prev| - 1 by {
      DischargeStep(data, c, i);
      DischargeArtificialFits(data, c, i);
      XIndexMono(data, c, i, |data|);
      LayoutFacts(data, c);
    }
    assert prev[slack] == 0.0 by {
      ArtificialRowsSumZero(data, c, i, slack);
    }
    forall j | 0 <= j < ABase(data, c) || j == Cols(data, c) - 1
      ensures IntermediateOf(data, c, n)[j] == ArtificialRowsSum(data, c, n, j)
    {
      AddObjectiveAddsRow(prev, k, c.batteryEfficiency, slack, lim, a, j);
    }
  }

  /** The finished intermediate row adds the final-charge row when that
      carries an artificial. */
  lemma FinalIntermediateIsArtificialSum(data: seq<Interval>, c: Config)
    requires Fits(data, c)
    ensures var final := if FinalLimit(data, c) >= 0.0 then FinalRowOf(data, c) else Zeros(Cols(data, c));
      forall j :: 0 <= j < ABase(data, c) || j == Cols(data, c) - 1 ==>
        FinalIntermediate(data, c)[j] == ArtificialRowsSum(data, c, |data|, j) + final[j]
  {
    var n := |data|;
    var k, slack, lim := CountVars(data, c), DischargeSlack(data, c, n), FinalLimit(data, c);
    var a := ABase(data, c) + NegCapacity(data, c, n) + PosDischarge(data, c, n);
    var prev := IntermediateOf(data, c, n);
    IntermediateIsArtificialSum(data, c, n);
    LayoutFacts(data, c);
    if lim >= 0.0 {
      assert prev[slack] == 0.0 by {
        ArtificialRowsSumZero(data, c, n, slack);
      }
      forall j | 0 <= j < ABase(data, c) || j == Cols(data, c) - 1
        ensures FinalIntermediate(data, c)[j] == ArtificialRowsSum(data, c, n, j) + FinalRowOf(data, c)[j]
      {
        AddObjectiveAddsRow(prev, k, c.batteryEfficiency, slack, lim, a, j);
      }
    }
  }

  /** Intermediate row, the bottom one: outside the artificial columns it is
      the sum of every row that carries an artificial, the discharge rows
      and the final-charge row. Capacity rows that carry an artificial are
      not added, as in the source. */
  lemma IntermediateRowInTableau(data: seq<Interval>, c: Config)
    requires Fits(data, c)
    ensures var t := Tableau(data, c);
      var r, at := |t| - 1, TrimAt(data, c);
      var final := if FinalLimit(data, c) >= 0.0 then FinalRowOf(data, c) else Zeros(Cols(data, c));
      0 <= r && |t[r]| == at + 1 && ABase(data, c) <= at < Cols(data, c)
      && t[r][at] == ArtificialRowsSum(data, c, |data|, Cols(data, c) - 1) + final[Cols(data, c) - 1]
      && forall j :: 0 <= j < ABase(data, c) ==> t[r][j] == ArtificialRowsSum(data, c, |data|, j) + final[j]
  {
    FinalIntermediateIsArtificialSum(data, c);
    RowInTableau(data, c, |Raw(data, c)| - 1, FinalIntermediate(data, c));
  }

  /* ---------------------------------------------------------------------- */
  /* The loop bound of a discharge row                                       */
  /* ---------------------------------------------------------------------- */

  /** The bound of the discharge row's decision columns as the source writes
      it, `i - offset + 1` on unsigned integers, with `offset` already
      counting interval `i`. The subtraction comes first, so it fails (a
      panic in a build with overflow checks) when `offset` exceeds `i`. */
  function DischargeBoundAsWritten(i: nat, offset: nat): (r: Option<nat>)
    ensures r.None? <==> i < offset
    ensures r.Some? ==> r.value + offset == i + 1
  {
    if offset <= i then Some(i - offset + 1) else None
  }

  /** At a non-charging interval the source's bound fails exactly when no
      earlier interval charges, although the row is well defined there: it
      weighs no decision column. Where it does not fail it is the number of
      decision columns the row weighs, the bound the construction uses. */
  lemma {:induction false} DischargeBoundUnderflows(data: seq<Interval>, c: Config, i: nat)
    requires i < |data| && !Charges(data[i], c)
    ensures var x := XIndex(data, c, i);
            && (DischargeBoundAsWritten(i, i + 1 - x).None? <==> x == 0)
            && (DischargeBoundAsWritten(i, i + 1 - x).Some? ==> DischargeBoundAsWritten(i, i + 1 - x).value == x)
  {
    BoundAfterCharges(i, XIndex(data, c, i));
  }

  /** With `x <= i` charging intervals before interval `i`, the offset is
      `i + 1 - x`, and the bound as written fails exactly when `x` is 0. */
  lemma BoundAfterCharges(i: nat, x: nat)
    requires x <= i
    ensures DischargeBoundAsWritten(i, i + 1 - x).None? <==> x == 0
    ensures DischargeBoundAsWritten(i, i + 1 - x).Some? ==> DischargeBoundAsWritten(i, i + 1 - x).value == x
  {
    var offset := i + 1 - x;
    assert i < offset <==> x == 0;
  }

  /** One interval drawing 3 against a maximum of 2: the first discharge row
      is reached with `i = 0` and `offset = 1`. */
  lemma DischargeBoundUnderflowExample()
    ensures var data := [Interval(0, 900, 3.0, 1.0)];
      var c := Config(2.0, 0.5, 1.5, 0.375, 0.9, 0.0);
      !Charges(data[0], c) && XIndex(data, c, 0) == 0 && DischargeBoundAsWritten(0, 1 - XIndex(data, c, 1)) == None
  {
  }
}
