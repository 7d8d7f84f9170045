/** Concrete regimes: the header comment's promise that three supervisors
    never drill on the same day does not hold for every regime the form
    accepts, and the validator reports the days on which it fails. */
module Scenarios {
  import opened Domain
  import opened CycleGenerator
  import opened Validator
  import opened Planner

  /** A day on which all three trimmed timelines drill is reported as a
      THREE_DRILLING error naming the three supervisors, and the schedule is
      then not valid. */
  lemma ReportsDay(g: Regime, day: nat)
    requires g.Valid()
    requires forall sup :: DrillingAt(Buffers(g).Of(sup), day)
    ensures Violation(day, ThreeDrilling, [S1, S2, S3]) in Generate(g).validation.errors
    ensures !Generate(g).validation.isValid
    ensures !Generate(g).validation.contractClause
  {
    var t := Trimmed(g);
    GeneratedShape(g);
    assert DrillingAt(Buffers(g).Of(S1), day);
    assert DrillingAt(Buffers(g).Of(S2), day);
    assert DrillingAt(Buffers(g).Of(S3), day);
    assert t.s1[day] == Drilling && t.s2[day] == Drilling && t.s3[day] == Drilling;
    assert CountDrilling(t, day) == 3;
    ErrorsExact(t, |t.s1|);
    ValidIff(t);
  }

  /** A 30x1 regime with one induction day, 30 drilling days. */
  function ThirtyByOne(): Regime
  {
    Regime(30, 1, 1, 30)
  }

  /** In the 30x1 regime S1 drills days 2-30, S2 (offset 10) days 12-40 and
      S3 (offset 20) days 22-50, so day 22 is reported. */
  lemma ThirtyByOneReportsDay22()
    ensures Violation(22, ThreeDrilling, [S1, S2, S3]) in Generate(ThirtyByOne()).validation.errors
    ensures !Generate(ThirtyByOne()).validation.isValid
  {
    var g := ThirtyByOne();
    assert PlanOffsets(g) == Offsets(0, 10, 20);
    FirstRepetition(g, 0);
    FirstRepetition(g, 10);
    FirstRepetition(g, 20);
    assert FirstDrilling(g) == 29;
    ReportsDay(g, 22);
  }

  /** The 21x7 regime with three induction days and 30 drilling days, the
      second configuration the scheduler's tests list as free of
      three-drilling days. */
  function TwentyOneBySeven(): Regime
  {
    Regime(21, 7, 3, 30)
  }

  /** S1 in the 21x7 regime: its second repetition starts on day 28, after
      18 drilling days, and drills from day 29. */
  lemma TwentyOneBySevenS1Day29()
    ensures DrillingAt(Timeline(TwentyOneBySeven(), 0), 29)
  {
    var g := TwentyOneBySeven();
    assert CeilDiv(6, 42) == 1;
    assert CeilDiv(48, 42) == 2;
    assert CeilDiv(90, 42) == 3;
    SpanProduct(28, 8);
    assert Horizon(g) == 224;
    var s0 := Loop(Repeat(Empty, Horizon(g)), 0, 0, true);
    assert Guard(g, s0);
    Continues(g, true, s0);
    var s1 := Step(g, true, s0);
    assert s1.day == 28 && s1.drillingDone == 18 && !s1.isFirstCycle;
    assert Guard(g, s1);
    RunRepetition(g, true, s1);
    assert Run(g, true, s1).cells[28 + 1] == Cell(0, 12, 1);
  }

  /** In the 21x7 regime S1 drills on day 29 (second repetition), S2
      (offset 9) days 13-30 and S3 (offset 18) days 22-39, so day 29 is
      reported, although the scheduler's tests expect no such day. */
  lemma TwentyOneBySevenReportsDay29()
    ensures Violation(29, ThreeDrilling, [S1, S2, S3]) in Generate(TwentyOneBySeven()).validation.errors
    ensures !Generate(TwentyOneBySeven()).validation.isValid
  {
    var g := TwentyOneBySeven();
    assert PlanOffsets(g) == Offsets(0, 9, 18);
    TwentyOneBySevenS1Day29();
    FirstRepetition(g, 9);
    FirstRepetition(g, 18);
    assert FirstDrilling(g) == 18;
    ReportsDay(g, 29);
  }
}
