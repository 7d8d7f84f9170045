/** The planner: sizes the horizon, places the three supervisors at
    staggered offsets, trims the timelines after the last drilling day and
    validates the result. */
module Planner {
  import opened Domain
  import opened CycleGenerator
  import opened Validator

  /** Integer ceiling of a / b, counted in whole multiples of b; for integer
      operands it is the exact value of the horizon's float ceiling. */
  function CeilDiv(a: nat, b: nat): nat
    requires b > 0
    decreases a
  {
    if a == 0 then 0 else if a <= b then 1 else 1 + CeilDiv(a - b, b)
  }

  /** `k` back-to-back blocks of `len` days. */
  function Span(len: nat, k: nat): nat
  {
    if k == 0 then 0 else Span(len, k - 1) + len
  }

  /** Cycles of buffer: the estimate ceil(1.5 T / W) plus five more. */
  function EstimatedCycles(g: Regime): (r: nat)
    requires g.Valid()
    ensures r >= 6
  {
    CeilDiv(3 * g.totalDrillingDays, 2 * g.workDays) + 5
  }

  /** Days of each pre-sized buffer: that many whole cycles. */
  function Horizon(g: Regime): (r: nat)
    requires g.Valid()
    ensures r >= g.CycleLength()
  {
    Span(g.CycleLength(), EstimatedCycles(g))
  }

  /** The days on which the three supervisors start. */
  datatype Offsets = Offsets(s1: nat, s2: nat, s3: nat)
  {
    function Of(sup: Supervisor): nat
    {
      match sup
      case S1 => s1
      case S2 => s2
      case S3 => s3
    }
  }

  /** Staggered thirds: S1 on day 0, S2 a third and S3 two thirds of a
      cycle later, rounded down. */
  function PlanOffsets(g: Regime): (o: Offsets)
    requires g.Valid()
    ensures o.s1 == 0 <= o.s2 <= o.s3 < g.CycleLength()
    ensures 3 * o.s2 <= g.CycleLength() < 3 * o.s2 + 3
    ensures 3 * o.s3 <= 2 * g.CycleLength() < 3 * o.s3 + 3
  {
    Offsets(0, g.CycleLength() / 3, (g.CycleLength() * 2) / 3)
  }

  /** The buffer of one supervisor after the generator ran on it from
      `start`: a horizon of Empty cells filled with repetitions. */
  function Timeline(g: Regime, start: nat): (t: seq<Status>)
    requires g.Valid()
    ensures |t| == Horizon(g)
  {
    Run(g, true, Loop(Repeat(Empty, Horizon(g)), start, 0, true)).cells
  }

  /** The untrimmed schedule. */
  function Buffers(g: Regime): (b: Schedule)
    requires g.Valid()
    ensures |b.s1| == Horizon(g) && |b.s2| == Horizon(g) && |b.s3| == Horizon(g)
  {
    var o := PlanOffsets(g);
    Schedule(Timeline(g, o.s1), Timeline(g, o.s2), Timeline(g, o.s3))
  }

  /** CeilDiv is the ceiling: the least r with a <= b * r. */
  lemma {:induction false} CeilDivBounds(a: nat, b: nat)
    requires b > 0
    ensures a <= b * CeilDiv(a, b)
    ensures a > 0 ==> b * (CeilDiv(a, b) - 1) < a
    decreases a
  {
    if a > b {
      var r := CeilDiv(a - b, b);
      CeilDivBounds(a - b, b);
      assert b * (1 + r) == b + b * r;
      assert b * (r - 1) == b * r - b;
    }
  }

  /** Span multiplies. */
  lemma {:induction false} SpanProduct(len: nat, k: nat)
    ensures Span(len, k) == len * k
  {
    if k > 0 {
      SpanProduct(len, k - 1);
      assert len * k == len * (k - 1) + len;
    }
  }

  lemma MulLe(x: int, y: int, z: nat)
    requires x <= y
    ensures z * x <= z * y
  {
    assert z * y - z * x == z * (y - x);
  }

  /** One more multiple of b raises the ceiling by one. */
  lemma CeilDivStep(a: nat, b: nat)
    requires b > 0
    ensures CeilDiv(a + b, b) == CeilDiv(a, b) + 1
  {
  }

  /** The ceiling grows with the dividend. */
  lemma {:induction false} CeilDivMono(a: nat, a': nat, b: nat)
    requires b > 0 && a <= a'
    ensures CeilDiv(a, b) <= CeilDiv(a', b)
    decreases a
  {
    if a > b {
      CeilDivMono(a - b, a' - b, b);
    }
  }

  function Pos(x: int): nat
  {
    if x > 0 then x else 0
  }

  /** Cells of a repetition that drills a whole work block. */
  function FullLength(g: Regime): nat
    requires g.Valid()
  {
    g.workDays + 2 + g.RestRun()
  }

  /** Repetitions still needed to meet the quota from loop state `s`. */
  function StepsLeft(g: Regime, hasInduction: bool, s: Loop): nat
    requires g.Valid()
  {
    if s.drillingDone >= g.totalDrillingDays then 0
    else if s.isFirstCycle && hasInduction then
      1 + CeilDiv(Pos(g.totalDrillingDays - s.drillingDone - (g.workDays - g.inductionDays)), g.workDays)
    else CeilDiv(g.totalDrillingDays - s.drillingDone, g.workDays)
  }

  /** The buffer after `s.day` holds every repetition still needed, each
      starting where the loop condition still holds. */
  predicate OnTrack(g: Regime, hasInduction: bool, s: Loop)
    requires g.Valid()
  {
    && s.drillingDone <= g.totalDrillingDays
    && (s.drillingDone < g.totalDrillingDays ==>
          s.day + Span(FullLength(g), StepsLeft(g, hasInduction, s) - 1) + g.CycleLength() < |s.cells|)
  }

  /** A repetition that leaves quota over uses one of the steps left and at
      most a full repetition of buffer, so the run stays on track. */
  lemma TrackStep(g: Regime, hasInduction: bool, s: Loop)
    requires g.Valid() && Guard(g, s) && OnTrack(g, hasInduction, s)
    ensures OnTrack(g, hasInduction, Step(g, hasInduction, s))
  {
    var t := Step(g, hasInduction, s);
    var L := FullLength(g);
    assert t.day <= s.day + L;
    if t.drillingDone < g.totalDrillingDays {
      var k := StepsLeft(g, hasInduction, t);
      if s.isFirstCycle && hasInduction {
        assert k + 1 == StepsLeft(g, hasInduction, s);
      } else {
        CeilDivStep(g.totalDrillingDays - t.drillingDone, g.workDays);
        assert k + 1 == StepsLeft(g, hasInduction, s);
      }
      ShiftByOne(s.day, t.day, k, L, g.CycleLength(), |s.cells|);
    }
  }

  lemma ShiftByOne(day: int, next: int, k: nat, L: nat, C: int, n: int)
    requires next <= day + L && k >= 1
    requires day + Span(L, k + 1 - 1) + C < n
    ensures next + Span(L, k - 1) + C < n
  {
  }

  /** From a state on track the generator meets the quota exactly. */
  lemma {:induction false} RunMeetsQuota(g: Regime, hasInduction: bool, s: Loop)
    requires g.Valid() && OnTrack(g, hasInduction, s)
    ensures Run(g, hasInduction, s).drillingDone == g.totalDrillingDays
    decreases |s.cells| - s.day
  {
    if Guard(g, s) {
      TrackStep(g, hasInduction, s);
      RunMeetsQuota(g, hasInduction, Step(g, hasInduction, s));
    }
  }

  /** From W (q - 1) < T and 3 T <= 2 W c3: 3 q - 2 <= 2 c3. */
  lemma ThirdsBound(T: int, W: int, q: int, c3: int)
    requires W >= 1 && W * (q - 1) < T && 3 * T <= 2 * W * c3
    ensures 3 * q - 2 <= 2 * c3
  {
    assert W * (3 * q - 3) == 3 * (W * (q - 1));
    assert 2 * W * c3 == W * (2 * c3);
    if 2 * c3 < 3 * q - 2 {
      MulLe(2 * c3, 3 * q - 3, W);
    }
  }

  /** The linear core of the horizon bound, over the products X = m L,
      Y = q C and Z = C c3. */
  lemma HorizonLinear(start: int, C: int, q: int, X: int, Y: int, Z: int)
    requires 0 <= start < C && X <= Y + q && 2 * Z >= 3 * Y - 2 * C && 2 * q <= Y
    ensures start + X + C < Z + 5 * C
  {
  }

  lemma RepetitionsBound(m: int, q: int, L: int, C: int)
    requires 0 <= m <= q && 0 <= L <= C + 1
    ensures m * L <= q * C + q
  {
    MulLe(m, q, L);
    MulLe(L, C + 1, q);
    assert L * q == q * L && q * (C + 1) == q * C + q;
  }

  lemma CyclesBound(q: int, c3: int, C: int)
    requires C >= 0 && 3 * q - 2 <= 2 * c3
    ensures 2 * (C * c3) >= 3 * (q * C) - 2 * C
  {
    MulLe(3 * q - 2, 2 * c3, C);
    assert C * (3 * q - 2) == 3 * (q * C) - 2 * C;
    assert C * (2 * c3) == 2 * (C * c3);
  }

  lemma TwiceBound(q: int, C: int)
    requires q >= 0 && C >= 2
    ensures 2 * q <= q * C
  {
    MulLe(2, C, q);
  }

  /** The arithmetic of the horizon: with m <= q = ceil(T / W) repetitions
      of at most C + 1 cells after a start inside the first cycle, the
      last one still starts a cycle before the end of
      C * (ceil(3T / 2W) + 5) days. */
  lemma HorizonArithmetic(T: int, W: int, C: int, L: int, start: int, m: int, q: int, c3: int)
    requires W >= 1 && C >= 2 && 0 <= L <= C + 1 && 0 <= start < C
    requires 0 <= m <= q && W * (q - 1) < T && 3 * T <= 2 * W * c3
    ensures start + m * L + C < C * (c3 + 5)
  {
    ThirdsBound(T, W, q, c3);
    RepetitionsBound(m, q, L, C);
    CyclesBound(q, c3, C);
    TwiceBound(q, C);
    HorizonLinear(start, C, q, m * L, q * C, C * c3);
    assert C * (c3 + 5) == C * c3 + 5 * C;
  }

  /** The horizon of ceil(1.5 T / W) + 5 cycles leaves room for every
      repetition a supervisor starting within the first cycle needs. */
  lemma HorizonSuffices(g: Regime, start: nat)
    requires g.Valid() && start < g.CycleLength()
    ensures OnTrack(g, true, Loop(Repeat(Empty, Horizon(g)), start, 0, true))
  {
    var T, W := g.totalDrillingDays, g.workDays;
    var m := CeilDiv(Pos(T - (W - g.inductionDays)), W);
    var q := CeilDiv(T, W);
    var c3 := CeilDiv(3 * T, 2 * W);
    CeilDivMono(Pos(T - (W - g.inductionDays)), T, W);
    CeilDivBounds(T, W);
    CeilDivBounds(3 * T, 2 * W);
    SpanProduct(FullLength(g), m);
    SpanProduct(g.CycleLength(), c3 + 5);
    HorizonArithmetic(T, W, g.CycleLength(), FullLength(g), start, m, q, c3);
  }

  /** The last index of `t` holding Drilling, or -1 when none does. */
  function LastDrillingIndex(t: seq<Status>): (r: int)
    ensures -1 <= r < |t|
    ensures r >= 0 ==> t[r] == Drilling
    ensures forall k :: r < k < |t| ==> t[k] != Drilling
  {
    if |t| == 0 then -1
    else if t[|t| - 1] == Drilling then |t| - 1
    else LastDrillingIndex(t[..|t| - 1])
  }

  /** The running maximum, raised by a found index. */
  function MaxWith(a: nat, i: int): nat
  {
    if i > a then i else a
  }

  /** The running maximum after the first `n` supervisors, from 0. */
  function LastDayOf(sched: Schedule, n: nat): nat
    requires n <= 3
  {
    if n == 0 then 0
    else MaxWith(LastDayOf(sched, n - 1), LastDrillingIndex(sched.Of(Supervisors[n - 1])))
  }

  /** The last drilling day over the three timelines, 0 when none drills. */
  function LastDrillingDay(sched: Schedule): (r: nat)
    ensures LastDrillingIndex(sched.s1) <= r && LastDrillingIndex(sched.s2) <= r && LastDrillingIndex(sched.s3) <= r
  {
    assert Supervisors[0] == S1 && Supervisors[1] == S2 && Supervisors[2] == S3;
    assert LastDayOf(sched, 1) == MaxWith(0, LastDrillingIndex(sched.s1));
    assert LastDayOf(sched, 2) == MaxWith(LastDayOf(sched, 1), LastDrillingIndex(sched.s2));
    LastDayOf(sched, 3)
  }

  /** The running maximum after `n` supervisors bounds every drilling index
      seen so far, and is one of them or 0 when there was none. */
  lemma {:induction false} LastDayOfFacts(sched: Schedule, n: nat)
    requires n <= 3
    ensures forall i, k :: 0 <= i < n && DrillingAt(sched.Of(Supervisors[i]), k) ==> k <= LastDayOf(sched, n)
    ensures (exists i :: 0 <= i < n && DrillingAt(sched.Of(Supervisors[i]), LastDayOf(sched, n)))
         || (LastDayOf(sched, n) == 0 && forall i, k :: 0 <= i < n ==> !DrillingAt(sched.Of(Supervisors[i]), k))
  {
    if n > 0 {
      LastDayOfFacts(sched, n - 1);
      var t := sched.Of(Supervisors[n - 1]);
      var j := LastDrillingIndex(t);
      if j > LastDayOf(sched, n - 1) {
        assert DrillingAt(sched.Of(Supervisors[n - 1]), LastDayOf(sched, n));
      }
    }
  }

  /** The last drilling day is at least every Drilling index of the three
      timelines, and is itself one, or 0 when no timeline drills. */
  lemma LastDrillingDayFacts(sched: Schedule)
    ensures forall sup, k :: DrillingAt(sched.Of(sup), k) ==> k <= LastDrillingDay(sched)
    ensures (exists sup :: DrillingAt(sched.Of(sup), LastDrillingDay(sched)))
         || (LastDrillingDay(sched) == 0 && forall sup, k :: !DrillingAt(sched.Of(sup), k))
  {
    LastDayOfFacts(sched, 3);
    forall sup, k | DrillingAt(sched.Of(sup), k)
      ensures k <= LastDrillingDay(sched)
    {
      var i := SupervisorIndex(sup);
      assert Supervisors[i] == sup;
    }
    if exists i :: 0 <= i < 3 && DrillingAt(sched.Of(Supervisors[i]), LastDrillingDay(sched)) {
      var i :| 0 <= i < 3 && DrillingAt(sched.Of(Supervisors[i]), LastDrillingDay(sched));
      assert DrillingAt(sched.Of(Supervisors[i]), LastDrillingDay(sched));
    } else {
      forall sup, k ensures !DrillingAt(sched.Of(sup), k) {
        var i := SupervisorIndex(sup);
        assert Supervisors[i] == sup;
      }
    }
  }

  /** An index with Drilling and none after it is the last one; with none
      at all the last one is -1. */
  lemma LastDrillingIndexIs(t: seq<Status>, i: int)
    requires -1 <= i < |t|
    requires i >= 0 ==> t[i] == Drilling
    requires forall k :: i < k < |t| ==> t[k] != Drilling
    ensures LastDrillingIndex(t) == i
  {
  }

  /** For each supervisor in turn, scans its timeline backwards and raises
      the running maximum to the first Drilling index found. */
  method FindLastDrillingDay(sched: Schedule) returns (lastDay: nat)
    ensures lastDay == LastDrillingDay(sched)
  {
    lastDay := 0;
    for n := 0 to 3
      invariant lastDay == LastDayOf(sched, n)
    {
      var t := sched.Of(Supervisors[n]);
      var i := |t| - 1;
      ghost var before := lastDay;
      while i >= 0
        invariant -1 <= i < |t|
        invariant forall k :: i < k < |t| ==> t[k] != Drilling
        invariant lastDay == before
        decreases i + 1
      {
        if t[i] == Drilling {
          LastDrillingIndexIs(t, i);
          lastDay := MaxWith(lastDay, i);
          break;
        }
        i := i - 1;
      }
      if i < 0 {
        LastDrillingIndexIs(t, -1);
      }
    }
  }

  /** JavaScript's slice(0, n): the first n cells, or all when fewer. */
  function Slice(t: seq<Status>, n: nat): (r: seq<Status>)
    ensures |r| == Min(n, |t|)
    ensures r == t[..|r|]
  {
    t[..Min(n, |t|)]
  }

  /** What the planner returns. */
  datatype Generation = Generation(schedule: Schedule, validation: Validation, totalDays: nat, offsets: Offsets)

  /** The day count the planner reports: restDays + 10 days after the last
      drilling day. */
  function ActualDays(g: Regime): (r: nat)
    requires g.Valid()
    ensures LastDrillingDay(Buffers(g)) < r
  {
    LastDrillingDay(Buffers(g)) + g.restDays + 10
  }

  /** The buffers, each cut to the reported day count. */
  function Trimmed(g: Regime): (t: Schedule)
    requires g.Valid()
    ensures |t.s1| == Min(ActualDays(g), Horizon(g))
    ensures |t.s2| == |t.s1| && |t.s3| == |t.s1|
  {
    var full := Buffers(g);
    Schedule(Slice(full.s1, ActualDays(g)), Slice(full.s2, ActualDays(g)), Slice(full.s3, ActualDays(g)))
  }

  /** The planner's result for a regime: the trimmed schedule, its
      validation, the untrimmed day count and the offsets used. */
  function Generate(g: Regime): (r: Generation)
    requires g.Valid()
    ensures |r.schedule.s1| <= r.totalDays
    ensures |r.validation.errors| == r.validation.distribution.three
  {
    Generation(Trimmed(g), Validate(Trimmed(g)), ActualDays(g), PlanOffsets(g))
  }

  /** A fresh buffer of `n` Empty cells. */
  method EmptyBuffer(n: nat) returns (a: array<Status>)
    ensures fresh(a)
    ensures a[..] == Repeat(Empty, n)
  {
    a := new Status[n](_ => Empty);
  }

  /** Sizes the horizon, fills three buffers at the staggered offsets, trims
      them after the last drilling day and validates the trimmed schedule. */
  method GenerateSchedule(workDays: int, restDays: int, inductionDays: int, totalDrillingDays: int)
    returns (r: Generation)
    requires Regime(workDays, restDays, inductionDays, totalDrillingDays).Valid()
    ensures r == Generate(Regime(workDays, restDays, inductionDays, totalDrillingDays))
  {
    var g := Regime(workDays, restDays, inductionDays, totalDrillingDays);
    var cycleLength := workDays + restDays;
    var estimatedCycles := CeilDiv(3 * totalDrillingDays, 2 * workDays) + 5;
    var totalDays := cycleLength * estimatedCycles;
    SpanProduct(cycleLength, estimatedCycles);
    assert totalDays == Horizon(g);
    var s1 := EmptyBuffer(totalDays);
    var s2 := EmptyBuffer(totalDays);
    var s3 := EmptyBuffer(totalDays);
    GenerateSupervisor(s1, 0, g, true);
    assert s1[..] == Timeline(g, 0);
    var s2Offset := cycleLength / 3;
    GenerateSupervisor(s2, s2Offset, g, true);
    assert s2[..] == Timeline(g, s2Offset);
    var s3Offset := (cycleLength * 2) / 3;
    GenerateSupervisor(s3, s3Offset, g, true);
    assert s3[..] == Timeline(g, s3Offset);
    var offsets := Offsets(0, s2Offset, s3Offset);
    assert offsets == PlanOffsets(g);
    var full := Schedule(s1[..], s2[..], s3[..]);
    assert full == Buffers(g);
    var lastDay := FindLastDrillingDay(full);
    var actualDays := lastDay + restDays + 10;
    assert actualDays == ActualDays(g);
    var trimmed := Schedule(Slice(s1[..], actualDays), Slice(s2[..], actualDays), Slice(s3[..], actualDays));
    assert trimmed == Trimmed(g);
    var validation := ValidateSchedule(trimmed);
    r := Generation(trimmed, validation, actualDays, offsets);
  }

  /** A supervisor starting within the first cycle drills exactly the quota,
      and the cells before its start stay Empty. */
  lemma TimelineQuota(g: Regime, start: nat)
    requires g.Valid() && start < g.CycleLength()
    ensures multiset(Timeline(g, start))[Drilling] == g.totalDrillingDays
    ensures forall k :: 0 <= k < start ==> Timeline(g, start)[k] == Empty
  {
    var s := Loop(Repeat(Empty, Horizon(g)), start, 0, true);
    HorizonSuffices(g, start);
    RunMeetsQuota(g, true, s);
    RunDrillingCount(g, true, s);
    RepeatCount(Empty, Horizon(g), Drilling);
    RunFacts(g, true, s);
  }

  /** Cutting off a tail without Drilling keeps every Drilling cell. */
  lemma PrefixCount(t: seq<Status>, n: nat)
    requires n <= |t|
    requires forall k :: n <= k < |t| ==> t[k] != Drilling
    ensures multiset(t[..n])[Drilling] == multiset(t)[Drilling]
  {
    assert Drilling !in t[n..];
    assert t == t[..n] + t[n..];
  }

  /** The trimmed schedule: three timelines of the same length,
      min(lastDay + restDays + 10, horizon), each a prefix of its buffer,
      with no Drilling cell cut off. */
  lemma GeneratedShape(g: Regime)
    requires g.Valid()
    ensures |Trimmed(g).s1| == |Trimmed(g).s2| == |Trimmed(g).s3| == Min(ActualDays(g), Horizon(g))
    ensures forall sup :: Trimmed(g).Of(sup) == Buffers(g).Of(sup)[..|Trimmed(g).s1|]
    ensures forall sup, k :: DrillingAt(Buffers(g).Of(sup), k) ==> k < |Trimmed(g).s1|
  {
    LastDrillingDayFacts(Buffers(g));
  }

  /** Every supervisor of the trimmed schedule drills exactly the quota. */
  lemma GeneratedQuota(g: Regime)
    requires g.Valid()
    ensures forall sup :: multiset(Trimmed(g).Of(sup))[Drilling] == g.totalDrillingDays
  {
    var o := PlanOffsets(g);
    var full := Buffers(g);
    var n := |Trimmed(g).s1|;
    GeneratedShape(g);
    forall sup ensures multiset(Trimmed(g).Of(sup))[Drilling] == g.totalDrillingDays
    {
      TimelineQuota(g, o.Of(sup));
      assert full.Of(sup) == Timeline(g, o.Of(sup));
      forall k | n <= k < |full.Of(sup)| ensures full.Of(sup)[k] != Drilling {
        if full.Of(sup)[k] == Drilling {
          assert DrillingAt(full.Of(sup), k);
        }
      }
      PrefixCount(full.Of(sup), n);
    }
  }

  /** The statistics of the planner's schedule count 3 T drilling days. */
  lemma GeneratedStats(g: Regime)
    requires g.Valid()
    ensures Statistics(Generate(g).schedule).totalDrillingDays == 3 * g.totalDrillingDays
  {
    var t := Trimmed(g);
    GeneratedShape(g);
    GeneratedQuota(g);
    assert t.Of(S1) == t.s1 && t.Of(S2) == t.s2 && t.Of(S3) == t.s3;
    StatisticsFacts(t);
  }

  /** The trimmed timelines are Empty before their supervisor's offset. */
  lemma GeneratedStartsEmpty(g: Regime)
    requires g.Valid()
    ensures forall sup, k :: 0 <= k < PlanOffsets(g).Of(sup) && k < |Trimmed(g).Of(sup)| ==>
      Trimmed(g).Of(sup)[k] == Empty
  {
    var o := PlanOffsets(g);
    GeneratedShape(g);
    forall sup ensures forall k :: 0 <= k < o.Of(sup) && k < |Trimmed(g).Of(sup)| ==>
      Trimmed(g).Of(sup)[k] == Empty
    {
      TimelineQuota(g, o.Of(sup));
      assert Buffers(g).Of(sup) == Timeline(g, o.Of(sup));
    }
  }

  /** The drilling days of a first repetition with induction. */
  function FirstDrilling(g: Regime): nat
    requires g.Valid()
  {
    Min(g.workDays - g.inductionDays, g.totalDrillingDays)
  }

  /** The first repetition of a supervisor starting within the first cycle:
      a rise on its start day, the induction days, at least one drilling day
      (the work days left after induction, clamped to the quota), then a
      descent. */
  lemma FirstRepetition(g: Regime, start: nat)
    requires g.Valid() && start < g.CycleLength()
    ensures start + g.inductionDays + FirstDrilling(g) + 1 < Horizon(g)
    ensures FirstDrilling(g) >= 1
    ensures Timeline(g, start)[start] == Rise
    ensures forall k :: start < k <= start + g.inductionDays ==> Timeline(g, start)[k] == Induction
    ensures forall k :: start + g.inductionDays < k <= start + g.inductionDays + FirstDrilling(g) ==>
      Timeline(g, start)[k] == Drilling
    ensures Timeline(g, start)[start + g.inductionDays + FirstDrilling(g) + 1] == Descent
  {
    var s := Loop(Repeat(Empty, Horizon(g)), start, 0, true);
    var t := Timeline(g, start);
    var ind, dr := g.inductionDays, FirstDrilling(g);
    SpanProduct(g.CycleLength(), EstimatedCycles(g));
    MulLe(5, EstimatedCycles(g), g.CycleLength());
    assert Guard(g, s);
    RunRepetition(g, true, s);
    assert t[start + 0] == Cell(ind, dr, 0);
    forall k | start < k <= start + ind + dr + 1
      ensures t[k] == Cell(ind, dr, k - start)
    {
      assert t[start + (k - start)] == Cell(ind, dr, k - start);
    }
  }

  /** S1's trimmed timeline opens with exactly its first repetition: day 0
      a rise, days 1..I induction, then drilling, then a descent. */
  lemma GeneratedS1FirstCycle(g: Regime)
    requires g.Valid()
    ensures g.inductionDays + FirstDrilling(g) + 1 < |Trimmed(g).s1|
    ensures FirstDrilling(g) >= 1
    ensures Trimmed(g).s1[0] == Rise
    ensures forall k :: 0 < k <= g.inductionDays ==> Trimmed(g).s1[k] == Induction
    ensures forall k :: g.inductionDays < k <= g.inductionDays + FirstDrilling(g) ==>
      Trimmed(g).s1[k] == Drilling
    ensures Trimmed(g).s1[g.inductionDays + FirstDrilling(g) + 1] == Descent
  {
    FirstCycleKept(g);
    FirstRepetition(g, 0);
    S1Prefix(g);
    var t := Timeline(g, 0);
    var ind, dr := g.inductionDays, FirstDrilling(g);
    forall k | 0 < k <= ind
      ensures t[k] == Induction
    {
    }
    forall k | ind < k <= ind + dr
      ensures t[k] == Drilling
    {
    }
    PrefixShape(t, Trimmed(g).s1, ind, dr);
  }

  /** A prefix long enough to hold a first repetition starting on day 0
      holds it as the whole timeline does. */
  lemma PrefixShape(t: seq<Status>, p: seq<Status>, ind: nat, dr: nat)
    requires ind + dr + 1 < |p| <= |t| && p == t[..|p|]
    requires t[0] == Rise && t[ind + dr + 1] == Descent
    requires forall k :: 0 < k <= ind ==> t[k] == Induction
    requires forall k :: ind < k <= ind + dr ==> t[k] == Drilling
    ensures p[0] == Rise && p[ind + dr + 1] == Descent
    ensures forall k :: 0 < k <= ind ==> p[k] == Induction
    ensures forall k :: ind < k <= ind + dr ==> p[k] == Drilling
  {
  }

  /** S1's trimmed timeline is a prefix of its buffer. */
  lemma S1Prefix(g: Regime)
    requires g.Valid()
    ensures Trimmed(g).s1 == Timeline(g, 0)[..|Trimmed(g).s1|]
  {
  }

  /** The trim keeps S1's first repetition up to its descent. */
  lemma FirstCycleKept(g: Regime)
    requires g.Valid()
    ensures g.inductionDays + FirstDrilling(g) + 1 < |Trimmed(g).s1|
  {
    var t := Timeline(g, 0);
    var d := g.inductionDays + FirstDrilling(g);
    FirstRepetition(g, 0);
    assert t[d] == Drilling;
    assert Buffers(g).Of(S1) == t;
    assert DrillingAt(Buffers(g).Of(S1), d);
    LastDrillingDayFacts(Buffers(g));
  }
}
