/**
 * The four-interval tableau of the unit test in src/tableau_creation.rs:
 * intervals drawing 0, 3, 1 and 3 against a maximum of 2, so two of them
 * charge and two need the battery.
 */
module TableauCreationExample {
  import opened Data
  import opened TableauCreation

  const Intervals: seq<Interval> := [
    Interval(0, 0, 0.0, 1.0),
    Interval(0, 0, 3.0, 2.0),
    Interval(0, 0, 1.0, 2.0),
    Interval(0, 0, 3.0, 1.0)
  ]

  const Settings: Config := Config(2.0, 0.5, 1.5, 0.375, 0.9, 0.0)

  const Expected: seq<seq<real>> := [
    [1.0, 0.0, 1.0, 0.0, 0.0, 0.0, 0.0, 0.0, 0.0, 0.0, 0.0, 1.5],
    [0.0, 1.0, 0.0, 1.0, 0.0, 0.0, 0.0, 0.0, 0.0, 0.0, 0.0, 1.0],
    [0.9, 0.0, 0.0, 0.0, 1.0, 0.0, 0.0, 0.0, 0.0, 0.0, 0.0, 0.5],
    [0.9, 0.9, 0.0, 0.0, 0.0, 1.0, 0.0, 0.0, 0.0, 0.0, 0.0, 1.5],
    [-0.9, 0.0, 0.0, 0.0, 0.0, 0.0, 1.0, 0.0, 0.0, 0.0, 0.0, 0.5],
    [0.9, 0.9, 0.0, 0.0, 0.0, 0.0, 0.0, -1.0, 0.0, 1.0, 0.0, 0.5],
    [0.9, 0.9, 0.0, 0.0, 0.0, 0.0, 0.0, 0.0, -1.0, 0.0, 1.0, 0.5],
    [-1.0, -2.0, 0.0, 0.0, 0.0, 0.0, 0.0, 0.0, 0.0, 0.0, 0.0, 0.0],
    [1.8, 1.8, 0.0, 0.0, 0.0, 0.0, 0.0, -1.0, -1.0, 0.0, 0.0, 1.0]
  ]

  lemma Counters()
    ensures XIndex(Intervals, Settings, 1) == 1 && XIndex(Intervals, Settings, 2) == 1
    ensures XIndex(Intervals, Settings, 3) == 2 && XIndex(Intervals, Settings, 4) == 2
    ensures CountVars(Intervals, Settings) == 2
    ensures DischargeBefore(Intervals, Settings, 2) == 1.0 && DischargeBefore(Intervals, Settings, 4) == 2.0
    ensures NegCapacity(Intervals, Settings, 4) == 0
    ensures PosDischarge(Intervals, Settings, 3) == 0 && PosDischarge(Intervals, Settings, 4) == 1
    ensures FinalLimit(Intervals, Settings) == 0.5
    ensures Cols(Intervals, Settings) == 13 && ABase(Intervals, Settings) == 9
    ensures UsedArtificials(Intervals, Settings) == 2 && TrimAt(Intervals, Settings) == 11
    ensures Fits(Intervals, Settings)
  {
    assert VarsBefore(Intervals, Settings, 4) == 2;
    assert DischargeBefore(Intervals, Settings, 1) == 0.0;
    assert DischargeBefore(Intervals, Settings, 3) == 1.0;
    assert NegCapacity(Intervals, Settings, 2) == 0;
    assert PosDischarge(Intervals, Settings, 2) == 0;
  }

  lemma Blocks()
    ensures CapBlock(Intervals, Settings, 4) == [CapRow(13, 0, 2, 1.5), CapRow(13, 1, 3, 1.0)]
    ensures CapacityBlock(Intervals, Settings, 4) == [CapacityRow(13, 0, 0.9, 4, 0.5, 9), CapacityRow(13, 1, 0.9, 5, 1.5, 9)]
    ensures DischargeBlock(Intervals, Settings, 4) == [CoverageRow(13, 1, 0.9, 6, -0.5, 9), CoverageRow(13, 2, 0.9, 7, 0.5, 9)]
    ensures FinalRowOf(Intervals, Settings) == CoverageRow(13, 2, 0.9, 8, 0.5, 10)
  {
    Counters();
    assert CapBlock(Intervals, Settings, 2) == [CapRow(13, 0, 2, 1.5)];
    assert CapacityBlock(Intervals, Settings, 2) == [CapacityRow(13, 0, 0.9, 4, 0.5, 9)];
    assert DischargeBlock(Intervals, Settings, 2) == [CoverageRow(13, 1, 0.9, 6, -0.5, 9)];
  }

  lemma LastRows()
    ensures PriceRowOf(Intervals, Settings, 4) == Zeros(13)[0 := -1.0][1 := -2.0]
    ensures FinalIntermediate(Intervals, Settings)
            == AddObjective(AddObjective(Zeros(13), 2, 0.9, 7, 0.5), 2, 0.9, 8, 0.5)
  {
    Counters();
    assert PriceRowOf(Intervals, Settings, 3) == Zeros(13)[0 := -1.0][1 := -2.0];
    assert IntermediateOf(Intervals, Settings, 3) == Zeros(13);
  }

  lemma TrimmedRows()
    ensures Trim(CapRow(13, 0, 2, 1.5), 11) == Expected[0]
    ensures Trim(CapRow(13, 1, 3, 1.0), 11) == Expected[1]
    ensures Trim(CapacityRow(13, 0, 0.9, 4, 0.5, 9), 11) == Expected[2]
    ensures Trim(CapacityRow(13, 1, 0.9, 5, 1.5, 9), 11) == Expected[3]
    ensures Trim(CoverageRow(13, 1, 0.9, 6, -0.5, 9), 11) == Expected[4]
    ensures Trim(CoverageRow(13, 2, 0.9, 7, 0.5, 9), 11) == Expected[5]
    ensures Trim(CoverageRow(13, 2, 0.9, 8, 0.5, 10), 11) == Expected[6]
    ensures Trim(Zeros(13)[0 := -1.0][1 := -2.0], 11) == Expected[7]
    ensures Trim(AddObjective(AddObjective(Zeros(13), 2, 0.9, 7, 0.5), 2, 0.9, 8, 0.5), 11) == Expected[8]
  {
  }

  /** The tableau of the test, with two decision variables and two
      artificial columns in use. */
  lemma FourIntervals()
    ensures Fits(Intervals, Settings)
    ensures Tableau(Intervals, Settings) == Expected
    ensures CountVars(Intervals, Settings) == 2 && UsedArtificials(Intervals, Settings) == 2
  {
    Counters();
    Blocks();
    LastRows();
    TrimmedRows();
    var raw := Raw(Intervals, Settings);
    assert raw == [CapRow(13, 0, 2, 1.5), CapRow(13, 1, 3, 1.0),
                   CapacityRow(13, 0, 0.9, 4, 0.5, 9), CapacityRow(13, 1, 0.9, 5, 1.5, 9),
                   CoverageRow(13, 1, 0.9, 6, -0.5, 9), CoverageRow(13, 2, 0.9, 7, 0.5, 9),
                   CoverageRow(13, 2, 0.9, 8, 0.5, 10), Zeros(13)[0 := -1.0][1 := -2.0],
                   AddObjective(AddObjective(Zeros(13), 2, 0.9, 7, 0.5), 2, 0.9, 8, 0.5)];
  }

  /** Running the construction on the test's input gives the test's matrix. */
  method BuildFourIntervals() returns (result: seq<seq<real>>, variables: nat, artificials: nat)
    ensures result == Expected && variables == 2 && artificials == 2
  {
    FourIntervals();
    result, variables, artificials := BuildTableau(Intervals, Settings);
  }
}
