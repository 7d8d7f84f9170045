/** The schedule validator and the statistics pass: per-day drilling counts,
    the concurrency distribution, the THREE_DRILLING errors, the pattern
    warnings and the drilling totals. */
module Validator {
  import opened Domain

  /** 1 when timeline `t` drills on `day`, else 0. */
  function Drills(t: seq<Status>, day: int): nat
  {
    if At(t, day) == Drilling then 1 else 0
  }

  /** The supervisors drilling on `day`, in the order S1, S2, S3. */
  function DrillingSupervisors(sched: Schedule, day: int): (r: seq<Supervisor>)
    ensures |r| == 3 ==> r == [S1, S2, S3]
  {
    (if At(sched.s1, day) == Drilling then [S1] else [])
      + (if At(sched.s2, day) == Drilling then [S2] else [])
      + (if At(sched.s3, day) == Drilling then [S3] else [])
  }

  /** How many supervisors drill on `day`. */
  function CountDrilling(sched: Schedule, day: int): (r: nat)
    ensures r <= 3
    ensures r == 3 <==> At(sched.s1, day) == Drilling && At(sched.s2, day) == Drilling && At(sched.s3, day) == Drilling
    ensures r == 0 <==> At(sched.s1, day) != Drilling && At(sched.s2, day) != Drilling && At(sched.s3, day) != Drilling
  {
    Drills(sched.s1, day) + Drills(sched.s2, day) + Drills(sched.s3, day)
  }

  /** The days in [0, n) on which exactly `c` supervisors drill. */
  function DaysWith(sched: Schedule, n: nat, c: nat): nat
  {
    if n == 0 then 0
    else DaysWith(sched, n - 1, c) + (if CountDrilling(sched, n - 1) == c then 1 else 0)
  }

  datatype Distribution = Distribution(zero: nat, one: nat, two: nat, three: nat)

  /** The concurrency distribution over the days [0, n). */
  function Tally(sched: Schedule, n: nat): Distribution
  {
    Distribution(DaysWith(sched, n, 0), DaysWith(sched, n, 1), DaysWith(sched, n, 2), DaysWith(sched, n, 3))
  }

  /** Every day falls in exactly one of the four classes. */
  lemma {:induction false} TallySum(sched: Schedule, n: nat)
    ensures Tally(sched, n).zero + Tally(sched, n).one + Tally(sched, n).two + Tally(sched, n).three == n
  {
    if n > 0 {
      TallySum(sched, n - 1);
    }
  }

  /** No day with three drilling is counted exactly when no such day exists. */
  lemma {:induction false} NoThreeIff(sched: Schedule, n: nat)
    ensures DaysWith(sched, n, 3) == 0 <==> forall d :: 0 <= d < n ==> CountDrilling(sched, d) != 3
  {
    if n > 0 {
      NoThreeIff(sched, n - 1);
    }
  }

  datatype ErrorKind = ThreeDrilling

  /** An error record: a day on which the contract clause is broken and the
      supervisors drilling on it. */
  datatype Violation = Violation(day: nat, kind: ErrorKind, supervisors: seq<Supervisor>)

  /** The errors recorded for the days [0, n), in day order. */
  function Errors(sched: Schedule, n: nat): seq<Violation>
  {
    if n == 0 then []
    else Errors(sched, n - 1)
         + (if CountDrilling(sched, n - 1) == 3
            then [Violation(n - 1, ThreeDrilling, DrillingSupervisors(sched, n - 1))]
            else [])
  }

  /** The supervisors listed for a day are exactly those drilling on it. */
  lemma DrillingSupervisorsExact(sched: Schedule, day: int)
    ensures forall sup :: sup in DrillingSupervisors(sched, day) <==> At(sched.Of(sup), day) == Drilling
  {
  }

  /** The supervisors listed for a day are as many as drill on it. */
  lemma DrillingSupervisorsCount(sched: Schedule, day: int)
    ensures |DrillingSupervisors(sched, day)| == CountDrilling(sched, day)
  {
  }

  /** Each error of `e` is a day in [0, n) with three drilling, naming all
      three supervisors. */
  predicate ErrorsSoundFor(sched: Schedule, n: nat, e: seq<Violation>)
  {
    forall i :: 0 <= i < |e| ==>
      && e[i].day < n
      && CountDrilling(sched, e[i].day) == 3
      && e[i].kind == ThreeDrilling
      && e[i].supervisors == [S1, S2, S3]
  }

  /** The errors of `e` come in strictly increasing day order. */
  predicate DaysIncreasing(e: seq<Violation>)
  {
    forall i, j :: 0 <= i < j < |e| ==> e[i].day < e[j].day
  }

  /** Every day in [0, n) with three drilling has an error in `e`. */
  predicate ErrorsCover(sched: Schedule, n: nat, e: seq<Violation>)
  {
    forall d :: 0 <= d < n && CountDrilling(sched, d) == 3 ==> exists i :: 0 <= i < |e| && e[i].day == d
  }

  /** Each error is a day with three drilling naming all three supervisors,
      and the errors come in strictly increasing day order. */
  lemma {:induction false} ErrorsSound(sched: Schedule, n: nat)
    ensures ErrorsSoundFor(sched, n, Errors(sched, n))
    ensures DaysIncreasing(Errors(sched, n))
  {
    if n > 0 {
      ErrorsSound(sched, n - 1);
      DrillingSupervisorsCount(sched, n - 1);
    }
  }

  /** Every day with three drilling has an error, and there are as many
      errors as the distribution's `three`. */
  lemma {:induction false} ErrorsComplete(sched: Schedule, n: nat)
    ensures |Errors(sched, n)| == DaysWith(sched, n, 3)
    ensures ErrorsCover(sched, n, Errors(sched, n))
  {
    if n > 0 {
      ErrorsComplete(sched, n - 1);
      var e0 := Errors(sched, n - 1);
      var e := Errors(sched, n);
      forall d | 0 <= d < n && CountDrilling(sched, d) == 3
        ensures exists i :: 0 <= i < |e| && e[i].day == d
      {
        if d < n - 1 {
          var i :| 0 <= i < |e0| && e0[i].day == d;
          assert e[i] == e0[i];
        } else {
          assert e[|e| - 1].day == d;
        }
      }
    }
  }

  /** The errors are exactly the days with three drilling, in strictly
      increasing day order, each naming all three supervisors; there are as
      many as the distribution's `three`. */
  lemma ErrorsExact(sched: Schedule, n: nat)
    ensures |Errors(sched, n)| == DaysWith(sched, n, 3)
    ensures ErrorsSoundFor(sched, n, Errors(sched, n))
    ensures DaysIncreasing(Errors(sched, n))
    ensures ErrorsCover(sched, n, Errors(sched, n))
  {
    ErrorsSound(sched, n);
    ErrorsComplete(sched, n);
  }

  datatype WarningKind = ConsecutiveRise | RiseThenDescent

  /** A pattern warning for one supervisor on one day. */
  datatype Warning = Warning(day: nat, supervisor: Supervisor, kind: WarningKind)

  /** The status `sup` has on `day`. */
  function Today(sched: Schedule, sup: Supervisor, day: int): Status
  {
    At(sched.Of(sup), day)
  }

  /** The status `sup` has on the day after `day`, in a schedule of
      `n` days; on the last day there is none (Empty). */
  function Tomorrow(sched: Schedule, n: int, sup: Supervisor, day: int): Status
  {
    if day < n - 1 then At(sched.Of(sup), day + 1) else Empty
  }

  /** The status that, following a Rise, triggers a warning of `kind`. */
  function Follower(kind: WarningKind): Status
  {
    match kind
    case ConsecutiveRise => Rise
    case RiseThenDescent => Descent
  }

  /** The pattern the warning `w` reports holds in a schedule of `n` days. */
  predicate Emits(sched: Schedule, n: int, w: Warning)
  {
    Today(sched, w.supervisor, w.day) == Rise && Tomorrow(sched, n, w.supervisor, w.day) == Follower(w.kind)
  }

  /** The warnings for `sup` on `day`: Rise then Rise, then Rise then Descent. */
  function SupWarnings(sched: Schedule, n: int, day: nat, sup: Supervisor): seq<Warning>
  {
    var today := Today(sched, sup, day);
    var tomorrow := Tomorrow(sched, n, sup, day);
    (if today == Rise && tomorrow == Rise then [Warning(day, sup, ConsecutiveRise)] else [])
      + (if today == Rise && tomorrow == Descent then [Warning(day, sup, RiseThenDescent)] else [])
  }

  /** The warnings on `day` for the supervisors `sups`, in that order. */
  function WarningsOf(sched: Schedule, n: int, day: nat, sups: seq<Supervisor>): seq<Warning>
  {
    if sups == [] then []
    else WarningsOf(sched, n, day, sups[..|sups| - 1]) + SupWarnings(sched, n, day, sups[|sups| - 1])
  }

  /** The supervisors in the order the validator visits them. */
  const Supervisors: seq<Supervisor> := [S1, S2, S3]

  /** The warnings on `day` for all three supervisors. */
  function DayWarnings(sched: Schedule, n: int, day: nat): seq<Warning>
  {
    WarningsOf(sched, n, day, Supervisors)
  }

  /** The warnings for the days [0, m) of a schedule of `n` days. */
  function Warnings(sched: Schedule, n: int, m: nat): seq<Warning>
  {
    if m == 0 then [] else Warnings(sched, n, m - 1) + DayWarnings(sched, n, m - 1)
  }

  function SupervisorIndex(sup: Supervisor): nat
  {
    match sup
    case S1 => 0
    case S2 => 1
    case S3 => 2
  }

  function KindIndex(kind: WarningKind): nat
  {
    match kind
    case ConsecutiveRise => 0
    case RiseThenDescent => 1
  }

  /** The position of a warning in the validator's visiting order: by day,
      then supervisor, then kind. */
  function Key(w: Warning): nat
  {
    6 * w.day + 2 * SupervisorIndex(w.supervisor) + KindIndex(w.kind)
  }

  /** `ws` holds exactly the warnings whose pattern holds, on the days
      [lo, hi). */
  ghost predicate WarningsAre(sched: Schedule, n: int, lo: int, hi: int, ws: seq<Warning>)
  {
    forall w :: w in ws <==> lo <= w.day < hi && Emits(sched, n, w)
  }

  lemma AppendWarningsAre(sched: Schedule, n: int, a: seq<Warning>, b: seq<Warning>, lo: int, mid: int, hi: int)
    requires lo <= mid <= hi
    requires WarningsAre(sched, n, lo, mid, a) && WarningsAre(sched, n, mid, hi, b)
    ensures WarningsAre(sched, n, lo, hi, a + b)
  {
    forall w: Warning
      ensures w in a + b <==> lo <= w.day < hi && Emits(sched, n, w)
    {
      assert w in a + b <==> w in a || w in b;
    }
  }

  /** Keys strictly increase along `ws`. */
  predicate Ascending(ws: seq<Warning>)
  {
    forall i, j :: 0 <= i < j < |ws| ==> Key(ws[i]) < Key(ws[j])
  }

  /** Every key of `ws` lies in [lo, hi). */
  predicate KeysIn(ws: seq<Warning>, lo: int, hi: int)
  {
    forall i :: 0 <= i < |ws| ==> lo <= Key(ws[i]) < hi
  }

  lemma AppendAscending(a: seq<Warning>, b: seq<Warning>, lo: int, mid: int, hi: int)
    requires lo <= mid <= hi
    requires Ascending(a) && KeysIn(a, lo, mid)
    requires Ascending(b) && KeysIn(b, mid, hi)
    ensures Ascending(a + b) && KeysIn(a + b, lo, hi)
  {
    var ab := a + b;
    forall i, j | 0 <= i < j < |ab|
      ensures Key(ab[i]) < Key(ab[j])
    {
      if j < |a| {
        assert ab[i] == a[i] && ab[j] == a[j];
      } else if i < |a| {
        assert ab[i] == a[i] && ab[j] == b[j - |a|];
      } else {
        assert ab[i] == b[i - |a|] && ab[j] == b[j - |a|];
      }
    }
    forall i | 0 <= i < |ab|
      ensures lo <= Key(ab[i]) < hi
    {
      if i < |a| {
        assert ab[i] == a[i];
      } else {
        assert ab[i] == b[i - |a|];
      }
    }
  }

  /** The warnings of one supervisor on one day are exactly the patterns that
      hold for it, consecutive rise first. */
  lemma SupWarningsExact(sched: Schedule, n: int, day: nat, sup: Supervisor)
    ensures forall w :: w in SupWarnings(sched, n, day, sup) <==> w.day == day && w.supervisor == sup && Emits(sched, n, w)
    ensures Ascending(SupWarnings(sched, n, day, sup))
    ensures KeysIn(SupWarnings(sched, n, day, sup), 6 * day + 2 * SupervisorIndex(sup), 6 * day + 2 * SupervisorIndex(sup) + 2)
  {
  }

  /** The day's warnings are those of S1, then S2, then S3. */
  lemma DayWarningsSplit(sched: Schedule, n: int, day: nat)
    ensures DayWarnings(sched, n, day)
         == SupWarnings(sched, n, day, S1) + SupWarnings(sched, n, day, S2) + SupWarnings(sched, n, day, S3)
  {
    assert Supervisors[..2] == [S1, S2] && Supervisors[2] == S3;
    assert [S1, S2][..1] == [S1];
    assert [S1][..0] == [];
    assert WarningsOf(sched, n, day, [S1]) == SupWarnings(sched, n, day, S1);
    assert WarningsOf(sched, n, day, [S1, S2]) == WarningsOf(sched, n, day, [S1]) + SupWarnings(sched, n, day, S2);
  }

  /** The warnings of one day are exactly the patterns that hold on it, in
      visiting order. */
  lemma DayWarningsExact(sched: Schedule, n: int, day: nat)
    ensures WarningsAre(sched, n, day, day + 1, DayWarnings(sched, n, day))
    ensures Ascending(DayWarnings(sched, n, day))
    ensures KeysIn(DayWarnings(sched, n, day), 6 * day, 6 * day + 6)
  {
    var w1 := SupWarnings(sched, n, day, S1);
    var w2 := SupWarnings(sched, n, day, S2);
    var w3 := SupWarnings(sched, n, day, S3);
    DayWarningsSplit(sched, n, day);
    SupWarningsExact(sched, n, day, S1);
    SupWarningsExact(sched, n, day, S2);
    SupWarningsExact(sched, n, day, S3);
    AppendAscending(w1, w2, 6 * day, 6 * day + 2, 6 * day + 4);
    AppendAscending(w1 + w2, w3, 6 * day, 6 * day + 4, 6 * day + 6);
    forall w: Warning
      ensures w in w1 + w2 + w3 <==> day <= w.day < day + 1 && Emits(sched, n, w)
    {
      if day <= w.day < day + 1 && Emits(sched, n, w) {
        match w.supervisor
        case S1 => assert w in w1;
        case S2 => assert w in w2;
        case S3 => assert w in w3;
      }
    }
  }

  /** The warnings for the days [0, m) are exactly the patterns that hold on
      those days. */
  lemma {:induction false} WarningsMembership(sched: Schedule, n: int, m: nat)
    ensures WarningsAre(sched, n, 0, m, Warnings(sched, n, m))
  {
    if m > 0 {
      var d := m - 1;
      WarningsMembership(sched, n, d);
      DayWarningsExact(sched, n, d);
      AppendWarningsAre(sched, n, Warnings(sched, n, d), DayWarnings(sched, n, d), 0, d, d + 1);
    }
  }

  /** The warnings for the days [0, m) come in strictly increasing visiting
      order. */
  lemma {:induction false} WarningsOrder(sched: Schedule, n: int, m: nat)
    ensures Ascending(Warnings(sched, n, m))
    ensures KeysIn(Warnings(sched, n, m), 0, 6 * m)
  {
    if m > 0 {
      var d := m - 1;
      WarningsOrder(sched, n, d);
      DayWarningsExact(sched, n, d);
      AppendAscending(Warnings(sched, n, d), DayWarnings(sched, n, d), 0, 6 * d, 6 * d + 6);
    }
  }

  /** The warnings for the days [0, m) are exactly the patterns that hold on
      those days, in strictly increasing visiting order. */
  lemma WarningsExact(sched: Schedule, n: int, m: nat)
    ensures WarningsAre(sched, n, 0, m, Warnings(sched, n, m))
    ensures Ascending(Warnings(sched, n, m))
  {
    WarningsMembership(sched, n, m);
    WarningsOrder(sched, n, m);
  }

  /** No warning is ever reported for the last day of the schedule. */
  lemma NoWarningOnLastDay(sched: Schedule, n: int, m: nat)
    ensures forall w :: w in Warnings(sched, n, m) ==> w.day < n - 1
  {
    WarningsExact(sched, n, m);
  }

  /** The validator's result. */
  datatype Validation = Validation(isValid: bool, errors: seq<Violation>, warnings: seq<Warning>,
                                   distribution: Distribution, contractClause: bool)

  /** The validation of a schedule whose length is that of S1's timeline. */
  function Validate(sched: Schedule): (v: Validation)
    ensures |v.errors| == v.distribution.three
    ensures v.distribution.zero + v.distribution.one + v.distribution.two + v.distribution.three == |sched.s1|
  {
    ErrorsExact(sched, |sched.s1|);
    TallySum(sched, |sched.s1|);
    var n := |sched.s1|;
    var t := Tally(sched, n);
    var e := Errors(sched, n);
    Validation(e == [], e, Warnings(sched, n, n), t, t.three == 0)
  }

  /** Validity, an empty error list, the contract-clause flag, a zero
      `three` count and the absence of any day with three drilling are all
      the same thing; warnings play no part in it. */
  lemma ValidIff(sched: Schedule)
    ensures Validate(sched).isValid <==> Validate(sched).errors == []
    ensures Validate(sched).isValid <==> Validate(sched).contractClause
    ensures Validate(sched).isValid <==> Validate(sched).distribution.three == 0
    ensures Validate(sched).isValid <==> forall d :: 0 <= d < |sched.s1| ==> CountDrilling(sched, d) != 3
  {
    ErrorsExact(sched, |sched.s1|);
    NoThreeIff(sched, |sched.s1|);
  }

  /** The per-supervisor pattern check of one day: for S1, S2 and S3 in
      turn, a warning when a Rise is followed by a Rise or by a Descent. */
  method CheckPatterns(sched: Schedule, totalDays: int, day: nat) returns (warnings: seq<Warning>)
    ensures warnings == DayWarnings(sched, totalDays, day)
  {
    warnings := [];
    for i := 0 to |Supervisors|
      invariant warnings == WarningsOf(sched, totalDays, day, Supervisors[..i])
    {
      var sup := Supervisors[i];
      var today := At(sched.Of(sup), day);
      var tomorrow := if day < totalDays - 1 then At(sched.Of(sup), day + 1) else Empty;
      assert Supervisors[..i + 1][..i] == Supervisors[..i];
      if today == Rise && tomorrow == Rise {
        warnings := warnings + [Warning(day, sup, ConsecutiveRise)];
      }
      if today == Rise && tomorrow == Descent {
        warnings := warnings + [Warning(day, sup, RiseThenDescent)];
      }
    }
    assert Supervisors[..|Supervisors|] == Supervisors;
  }

  /** One pass over the days of S1's timeline, counting the distribution,
      recording each day with three drilling and each Rise->Rise and
      Rise->Descent pattern. */
  method ValidateSchedule(sched: Schedule) returns (v: Validation)
    ensures v == Validate(sched)
    ensures v.isValid <==> forall d :: 0 <= d < |sched.s1| ==> CountDrilling(sched, d) != 3
  {
    var errors: seq<Violation> := [];
    var warnings: seq<Warning> := [];
    var totalDays := |sched.s1|;
    var daysWithZero, daysWithOne, daysWithTwo, daysWithThree := 0, 0, 0, 0;
    for day := 0 to totalDays
      invariant errors == Errors(sched, day)
      invariant warnings == Warnings(sched, totalDays, day)
      invariant daysWithZero == DaysWith(sched, day, 0)
      invariant daysWithOne == DaysWith(sched, day, 1)
      invariant daysWithTwo == DaysWith(sched, day, 2)
      invariant daysWithThree == DaysWith(sched, day, 3)
    {
      var count := CountDrilling(sched, day);
      if count == 0 { daysWithZero := daysWithZero + 1; }
      if count == 1 { daysWithOne := daysWithOne + 1; }
      if count == 2 { daysWithTwo := daysWithTwo + 1; }
      if count == 3 { daysWithThree := daysWithThree + 1; }

      if count == 3 {
        errors := errors + [Violation(day, ThreeDrilling, DrillingSupervisors(sched, day))];
      }

      var dayWarnings := CheckPatterns(sched, totalDays, day);
      warnings := warnings + dayWarnings;
    }
    v := Validation(errors == [], errors, warnings,
                    Distribution(daysWithZero, daysWithOne, daysWithTwo, daysWithThree),
                    daysWithThree == 0);
    ValidIff(sched);
  }

  /** Drilling cells of timeline `t` among the days [0, n). */
  function DrillingCells(t: seq<Status>, n: nat): nat
  {
    if n == 0 then 0 else DrillingCells(t, n - 1) + Drills(t, n - 1)
  }

  /** Counting the drilling days of a whole timeline counts its Drilling
      cells. */
  lemma {:induction false} DrillingCellsMultiset(t: seq<Status>, n: nat)
    requires n <= |t|
    ensures DrillingCells(t, n) == multiset(t[..n])[Drilling]
  {
    if n > 0 {
      DrillingCellsMultiset(t, n - 1);
      assert t[..n] == t[..n - 1] + [t[n - 1]];
    }
  }

  /** Drilling cells of all three timelines among the days [0, n), counted
      day by day and supervisor by supervisor. */
  function DrillingTotal(sched: Schedule, n: nat): nat
  {
    if n == 0 then 0
    else DrillingTotal(sched, n - 1) + Drills(sched.s1, n - 1) + Drills(sched.s2, n - 1) + Drills(sched.s3, n - 1)
  }

  /** The drilling total weighs each day by its drilling count, and splits
      into the three timelines' Drilling cells. */
  lemma {:induction false} DrillingTotalFacts(sched: Schedule, n: nat)
    ensures DrillingTotal(sched, n) == DaysWith(sched, n, 1) + 2 * DaysWith(sched, n, 2) + 3 * DaysWith(sched, n, 3)
    ensures DrillingTotal(sched, n) == DrillingCells(sched.s1, n) + DrillingCells(sched.s2, n) + DrillingCells(sched.s3, n)
  {
    if n > 0 {
      DrillingTotalFacts(sched, n - 1);
    }
  }

  /** The statistics' result; the last three fields repeat the
      distribution under the names older callers read. */
  datatype Stats = Stats(totalDays: nat, totalDrillingDays: nat, distribution: Distribution,
                         meetsContractClause: bool, violationDays: nat,
                         daysWithTwoDrilling: nat, daysWithOneDrilling: nat, daysWithThreeDrilling: nat)

  /** The statistics of a schedule whose length is that of S1's timeline. */
  function Statistics(sched: Schedule): (r: Stats)
    ensures r.distribution.zero + r.distribution.one + r.distribution.two + r.distribution.three == r.totalDays
    ensures r.totalDrillingDays == r.distribution.one + 2 * r.distribution.two + 3 * r.distribution.three
  {
    DrillingTotalFacts(sched, |sched.s1|);
    TallySum(sched, |sched.s1|);
    var n := |sched.s1|;
    var t := Tally(sched, n);
    Stats(n, DrillingTotal(sched, n), t, t.three == 0, t.three, t.two, t.one, t.three)
  }

  /** What the statistics promise: the distribution covers every day and is
      the validator's, the drilling total is one + 2 two + 3 three and, when
      the three timelines have the schedule's length, the number of their
      Drilling cells; the compliance fields follow `three`. */
  lemma StatisticsFacts(sched: Schedule)
    ensures Statistics(sched).distribution.zero + Statistics(sched).distribution.one
          + Statistics(sched).distribution.two + Statistics(sched).distribution.three
         == Statistics(sched).totalDays
    ensures Statistics(sched).totalDrillingDays
         == Statistics(sched).distribution.one + 2 * Statistics(sched).distribution.two
          + 3 * Statistics(sched).distribution.three
    ensures Statistics(sched).distribution == Validate(sched).distribution
    ensures Statistics(sched).meetsContractClause <==> Statistics(sched).distribution.three == 0
    ensures Statistics(sched).meetsContractClause <==> Validate(sched).isValid
    ensures Statistics(sched).violationDays == Statistics(sched).distribution.three == |Validate(sched).errors|
    ensures Statistics(sched).daysWithOneDrilling == Statistics(sched).distribution.one
    ensures Statistics(sched).daysWithTwoDrilling == Statistics(sched).distribution.two
    ensures Statistics(sched).daysWithThreeDrilling == Statistics(sched).distribution.three
    ensures |sched.s2| == |sched.s1| && |sched.s3| == |sched.s1| ==>
              (Statistics(sched).totalDrillingDays
               == multiset(sched.s1)[Drilling] + multiset(sched.s2)[Drilling] + multiset(sched.s3)[Drilling])
  {
    var n := |sched.s1|;
    TallySum(sched, n);
    DrillingTotalFacts(sched, n);
    ValidIff(sched);
    ErrorsExact(sched, n);
    if |sched.s2| == n && |sched.s3| == n {
      DrillingCellsMultiset(sched.s1, n);
      DrillingCellsMultiset(sched.s2, n);
      DrillingCellsMultiset(sched.s3, n);
      assert sched.s1[..n] == sched.s1 && sched.s2[..n] == sched.s2 && sched.s3[..n] == sched.s3;
    }
  }

  /** A second pass over the days, counting the distribution and the
      Drilling cells of each supervisor. */
  method GetScheduleStats(sched: Schedule) returns (st: Stats)
    ensures st == Statistics(sched)
    ensures st.totalDrillingDays == st.distribution.one + 2 * st.distribution.two + 3 * st.distribution.three
  {
    var totalDays := |sched.s1|;
    var totalDrillingDays := 0;
    var zero, one, two, three := 0, 0, 0, 0;
    for day := 0 to totalDays
      invariant totalDrillingDays == DrillingTotal(sched, day)
      invariant zero == DaysWith(sched, day, 0)
      invariant one == DaysWith(sched, day, 1)
      invariant two == DaysWith(sched, day, 2)
      invariant three == DaysWith(sched, day, 3)
    {
      var count := CountDrilling(sched, day);
      if count == 0 { zero := zero + 1; }
      if count == 1 { one := one + 1; }
      if count == 2 { two := two + 1; }
      if count == 3 { three := three + 1; }

      ghost var before := totalDrillingDays;
      for i := 0 to |Supervisors|
        invariant totalDrillingDays == before + DrillsOf(sched, day, Supervisors[..i])
      {
        assert Supervisors[..i + 1][..i] == Supervisors[..i];
        if At(sched.Of(Supervisors[i]), day) == Drilling {
          totalDrillingDays := totalDrillingDays + 1;
        }
      }
      assert Supervisors[..|Supervisors|] == Supervisors;
      DrillsOfAll(sched, day);
    }
    st := Stats(totalDays, totalDrillingDays, Distribution(zero, one, two, three),
                three == 0, three, two, one, three);
    StatisticsFacts(sched);
  }

  /** Counting over the visiting order counts each timeline once. */
  lemma DrillsOfAll(sched: Schedule, day: int)
    ensures DrillsOf(sched, day, Supervisors)
         == Drills(sched.s1, day) + Drills(sched.s2, day) + Drills(sched.s3, day)
  {
    assert Supervisors[..2] == [S1, S2] && Supervisors[2] == S3;
    assert [S1, S2][..1] == [S1];
    assert [S1][..0] == [];
    assert DrillsOf(sched, day, [S1]) == Drills(sched.s1, day);
    assert DrillsOf(sched, day, [S1, S2]) == Drills(sched.s1, day) + Drills(sched.s2, day);
  }

  /** Drilling cells on `day` among the supervisors `sups`. */
  function DrillsOf(sched: Schedule, day: int, sups: seq<Supervisor>): nat
  {
    if sups == [] then 0
    else DrillsOf(sched, day, sups[..|sups| - 1]) + Drills(sched.Of(sups[|sups| - 1]), day)
  }
}
