/**
 * The step-by-step run of the solver on the six-row tableau of
 * src/dual_simplex.rs (two charge caps, two constraints that need an
 * artificial, the price row and the intermediate row).
 */
module DualSimplexExample {
  import opened Wrappers
  import opened DualSimplex

  const M0: seq<seq<real>> := [
    [1.0, 0.0, 1.0, 0.0, 0.0, 0.0, 0.0, 0.0, 1.5],
    [0.0, 1.0, 0.0, 1.0, 0.0, 0.0, 0.0, 0.0, 1.0],
    [1.0, 0.0, 0.0, 0.0, -1.0, 0.0, 1.0, 0.0, 1.0],
    [1.0, 1.0, 0.0, 0.0, 0.0, -1.0, 0.0, 1.0, 2.0],
    [-1.0, -2.0, 0.0, 0.0, 0.0, 0.0, 0.0, 0.0, 0.0],
    [2.0, 1.0, 0.0, 0.0, -1.0, -1.0, 0.0, 0.0, 3.0]
  ]

  const M1: seq<seq<real>> := [
    [0.0, 0.0, 1.0, 0.0, 1.0, 0.0, -1.0, 0.0, 0.5],
    [0.0, 1.0, 0.0, 1.0, 0.0, 0.0, 0.0, 0.0, 1.0],
    [1.0, 0.0, 0.0, 0.0, -1.0, 0.0, 1.0, 0.0, 1.0],
    [0.0, 1.0, 0.0, 0.0, 1.0, -1.0, -1.0, 1.0, 1.0],
    [0.0, -2.0, 0.0, 0.0, -1.0, 0.0, 1.0, 0.0, 1.0],
    [0.0, 1.0, 0.0, 0.0, 1.0, -1.0, -2.0, 0.0, 1.0]
  ]

  const M2: seq<seq<real>> := [
    [0.0, 0.0, 1.0, 0.0, 1.0, 0.0, -1.0, 0.0, 0.5],
    [0.0, 1.0, 0.0, 1.0, 0.0, 0.0, 0.0, 0.0, 1.0],
    [1.0, 0.0, 0.0, 0.0, -1.0, 0.0, 1.0, 0.0, 1.0],
    [0.0, 0.0, 0.0, -1.0, 1.0, -1.0, -1.0, 1.0, 0.0],
    [0.0, 0.0, 0.0, 2.0, -1.0, 0.0, 1.0, 0.0, 3.0],
    [0.0, 0.0, 0.0, -1.0, 1.0, -1.0, -2.0, 0.0, 0.0]
  ]

  const M3: seq<seq<real>> := [
    [0.0, 0.0, 1.0, 1.0, 0.0, 1.0, 0.0, -1.0, 0.5],
    [0.0, 1.0, 0.0, 1.0, 0.0, 0.0, 0.0, 0.0, 1.0],
    [1.0, 0.0, 0.0, -1.0, 0.0, -1.0, 0.0, 1.0, 1.0],
    [0.0, 0.0, 0.0, -1.0, 1.0, -1.0, -1.0, 1.0, 0.0],
    [0.0, 0.0, 0.0, 1.0, 0.0, -1.0, 0.0, 1.0, 3.0],
    [0.0, 0.0, 0.0, 0.0, 0.0, 0.0, -1.0, -1.0, 0.0]
  ]

  const M4: seq<seq<real>> := [
    [0.0, 0.0, 1.0, 1.0, 0.0, 1.0, 0.0, -1.0, 0.5],
    [0.0, 1.0, -1.0, 0.0, 0.0, -1.0, 0.0, 1.0, 0.5],
    [1.0, 0.0, 1.0, 0.0, 0.0, 0.0, 0.0, 0.0, 1.5],
    [0.0, 0.0, 1.0, 0.0, 1.0, 0.0, -1.0, 0.0, 0.5],
    [0.0, 0.0, -1.0, 0.0, 0.0, -2.0, 0.0, 2.0, 2.5],
    [0.0, 0.0, 0.0, 0.0, 0.0, 0.0, -1.0, -1.0, 0.0]
  ]

  lemma Step1()
    ensures Shaped(M0, 2) && IsPivotChoice(M0, One, 2, 2, 0)
  {
    assert Shaped(M0, 2);
    var row := ObjectiveRow(M0, One, 2);
    assert row == [2.0, 1.0, 0.0, 0.0, -1.0, -1.0, 0.0, 0.0];
    assert IsMostPositive(row, 0);
    assert Eligible(M0, 0, 0) && !Eligible(M0, 1, 0) && Eligible(M0, 2, 0) && Eligible(M0, 3, 0);
    assert Ratio(M0, 0, 0) == 1.5 && Ratio(M0, 2, 0) == 1.0 && Ratio(M0, 3, 0) == 2.0;
    assert IsMinRatioRow(M0, 4, 2, 0);
  }

  lemma Pivot1()
    ensures Pivoted(M0, 2, 0, 6) == M1
  {
    var p := Scaled(M0[2], 1.0);
    assert p == M0[2];
    assert Eliminated(M0[0], 1.0, p) == M1[0];
    assert Eliminated(M0[1], 0.0, p) == M1[1];
    assert Eliminated(M0[3], 1.0, p) == M1[3];
    assert Eliminated(M0[4], -1.0, p) == M1[4];
    assert Eliminated(M0[5], 2.0, p) == M1[5];
  }

  lemma Step2()
    ensures Shaped(M1, 2) && IsPivotChoice(M1, One, 2, 1, 1)
  {
    assert Shaped(M1, 2);
    var row := ObjectiveRow(M1, One, 2);
    assert row == [0.0, 1.0, 0.0, 0.0, 1.0, -1.0, -2.0, 0.0];
    assert IsMostPositive(row, 1);
    assert !Eligible(M1, 0, 1) && Eligible(M1, 1, 1) && !Eligible(M1, 2, 1) && Eligible(M1, 3, 1);
    assert Ratio(M1, 1, 1) == 1.0 && Ratio(M1, 3, 1) == 1.0;
    assert IsMinRatioRow(M1, 4, 1, 1);
  }

  lemma Pivot2()
    ensures Pivoted(M1, 1, 1, 6) == M2
  {
    var p := Scaled(M1[1], 1.0);
    assert p == M1[1];
    assert Eliminated(M1[0], 0.0, p) == M2[0];
    assert Eliminated(M1[2], 0.0, p) == M2[2];
    assert Eliminated(M1[3], 1.0, p) == M2[3];
    assert Eliminated(M1[4], -2.0, p) == M2[4];
    assert Eliminated(M1[5], 1.0, p) == M2[5];
  }

  lemma Step3()
    ensures Shaped(M2, 2) && IsPivotChoice(M2, One, 2, 3, 4)
  {
    assert Shaped(M2, 2);
    var row := ObjectiveRow(M2, One, 2);
    assert row == [0.0, 0.0, 0.0, -1.0, 1.0, -1.0, -2.0, 0.0];
    assert IsMostPositive(row, 4);
    assert Eligible(M2, 0, 4) && !Eligible(M2, 1, 4) && !Eligible(M2, 2, 4) && Eligible(M2, 3, 4);
    assert Ratio(M2, 0, 4) == 0.5 && Ratio(M2, 3, 4) == 0.0;
    assert IsMinRatioRow(M2, 4, 3, 4);
  }

  lemma Pivot3()
    ensures Pivoted(M2, 3, 4, 6) == M3
  {
    var p := Scaled(M2[3], 1.0);
    assert p == M2[3];
    assert Eliminated(M2[0], 1.0, p) == M3[0];
    assert Eliminated(M2[1], 0.0, p) == M3[1];
    assert Eliminated(M2[2], -1.0, p) == M3[2];
    assert Eliminated(M2[4], -1.0, p) == M3[4];
    assert Eliminated(M2[5], 1.0, p) == M3[5];
  }

  /** In Phase Two the price row itself (row 4) takes part in the ratio test. */
  lemma Step4()
    ensures Shaped(M3, 2) && IsPivotChoice(M3, Two, 2, 0, 3)
  {
    assert Shaped(M3, 2);
    var row := ObjectiveRow(M3, Two, 2);
    assert row == [0.0, 0.0, 0.0, 1.0, 0.0, -1.0];
    assert IsMostPositive(row, 3);
    assert Eligible(M3, 0, 3) && Eligible(M3, 1, 3) && !Eligible(M3, 2, 3) && !Eligible(M3, 3, 3);
    assert Eligible(M3, 4, 3);
    assert Ratio(M3, 0, 3) == 0.5 && Ratio(M3, 1, 3) == 1.0 && Ratio(M3, 4, 3) == 3.0;
    assert IsMinRatioRow(M3, 5, 0, 3);
  }

  /** The Phase Two pivot leaves the last row alone. */
  lemma Pivot4()
    ensures Pivoted(M3, 0, 3, 5) == M4
  {
    var p := Scaled(M3[0], 1.0);
    assert p == M3[0];
    assert Eliminated(M3[1], 1.0, p) == M4[1];
    assert Eliminated(M3[2], -1.0, p) == M4[2];
    assert Eliminated(M3[3], -1.0, p) == M4[3];
    assert Eliminated(M3[4], 1.0, p) == M4[4];
  }

  lemma ReadBack()
    ensures Shaped(M4, 2) && SoleNonzero(M4, 0, 2) && SoleNonzero(M4, 1, 1)
    ensures Rhs(M4, 2) == 1.5 && Rhs(M4, 1) == 0.5
  {
    assert Shaped(M4, 2);
  }

  /** One iteration of the solver on `m`, when the rules are known to pick `(r, c)`. */
  method PivotStep(m: Matrix, ghost r: nat, ghost c: nat)
    requires m.Valid() && IsPivotChoice(m.data, m.phase, m.artificials, r, c)
    modifies m
    ensures m.Valid() && m.phase == old(m.phase) && m.artificials == old(m.artificials)
    ensures m.variables == old(m.variables)
    ensures m.data == Pivoted(old(m.data), r, c, UpdatedRows(m.phase, |old(m.data)|))
  {
    PivotChoiceUnique(m.data, m.phase, m.artificials, r, c, r, c);
    var p := m.FindPivot();
    PivotChoiceUnique(m.data, m.phase, m.artificials, r, c, p.value.0, p.value.1);
    m.Pivot(p.value.0, p.value.1);
  }

  /** Pivots (2, 0), (1, 1) and (3, 4) in Phase One, then (0, 3) in Phase
      Two, after which the two decision variables read 1.5 and 0.5. */
  method WorkedExample() returns (solution: seq<real>)
    ensures solution == [1.5, 0.5]
  {
    var m := new Matrix(M0, 2, 2);
    Step1();
    PivotStep(m, 2, 0);
    Pivot1();
    Step2();
    PivotStep(m, 1, 1);
    Pivot2();
    Step3();
    PivotStep(m, 3, 4);
    Pivot3();
    m.PhaseTwo();
    Step4();
    PivotStep(m, 0, 3);
    Pivot4();
    ReadBack();
    solution := m.GetSolution();
  }
}
