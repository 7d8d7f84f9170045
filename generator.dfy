/** The cycle generator: one supervisor's timeline, written in place into a
    pre-sized buffer as repeated rise / induction / drilling / descent / rest
    repetitions until the drilling quota is met or the buffer runs short. */
module CycleGenerator {
  import opened Domain

  /** The regime parameters: an NxM work/rest rotation, the induction days of
      the first work block and the drilling quota of each supervisor. */
  datatype Regime = Regime(workDays: int, restDays: int, inductionDays: int, totalDrillingDays: int)
  {
    /** The configuration form's acceptance test; the generator is only ever
        called on regimes that pass it. */
    predicate Valid()
    {
      && workDays > 0
      && restDays > 0
      && 1 <= inductionDays <= 5
      && totalDrillingDays > 0
      && workDays > inductionDays
    }

    function CycleLength(): int
    {
      workDays + restDays
    }

    /** Rest cells written after each descent: restDays - 2, the rise and the
        descent standing for the two travel days. A count of zero or less
        writes nothing. */
    function RestRun(): nat
    {
      if restDays > 2 then restDays - 2 else 0
    }
  }

  function Min(a: int, b: int): int
  {
    if a <= b then a else b
  }

  /** The loop state of the generator: the buffer and its three counters. */
  datatype Loop = Loop(cells: seq<Status>, day: nat, drillingDone: nat, isFirstCycle: bool)

  /** Induction cells of a repetition: only the first one, and only when the
      supervisor has an induction. */
  function InductionRun(g: Regime, first: bool, hasInduction: bool): nat
    requires g.Valid()
  {
    if first && hasInduction then g.inductionDays else 0
  }

  /** Work days of a repetition before clamping to the quota. */
  function DaysToWork(g: Regime, first: bool, hasInduction: bool): int
  {
    if first && hasInduction then g.workDays - g.inductionDays else g.workDays
  }

  /** Drilling cells of a repetition: the work days, clamped to what is left
      of the quota. */
  function DaysThisCycle(g: Regime, first: bool, hasInduction: bool, done: int): (r: nat)
    requires g.Valid() && done < g.totalDrillingDays
    ensures 1 <= r <= g.totalDrillingDays - done
    ensures r <= DaysToWork(g, first, hasInduction)
    ensures r == DaysToWork(g, first, hasInduction) || done + r == g.totalDrillingDays
  {
    Min(DaysToWork(g, first, hasInduction), g.totalDrillingDays - done)
  }

  /** The status at offset `j` of a repetition with `ind` induction and `dr`
      drilling cells, read by position. */
  function Cell(ind: nat, dr: nat, j: int): Status
  {
    if j == 0 then Rise
    else if j <= ind then Induction
    else if j <= ind + dr then Drilling
    else if j == ind + dr + 1 then Descent
    else Rest
  }

  /** The cells of a repetition with `ind` induction, `dr` drilling and
      `rest` rest cells, in the order the generator writes them. */
  function Block(ind: nat, dr: nat, rest: nat): (b: seq<Status>)
    ensures |b| == ind + dr + 2 + rest
  {
    [Rise] + Repeat(Induction, ind) + Repeat(Drilling, dr) + [Descent] + Repeat(Rest, rest)
  }

  /** The concatenated repetition agrees with the positional reading. */
  lemma BlockAt(ind: nat, dr: nat, rest: nat, j: int)
    requires 0 <= j < ind + dr + 2 + rest
    ensures Block(ind, dr, rest)[j] == Cell(ind, dr, j)
  {
    var p1 := [Rise] + Repeat(Induction, ind);
    var p2 := p1 + Repeat(Drilling, dr);
    var p3 := p2 + [Descent];
    var b := p3 + Repeat(Rest, rest);
    assert Block(ind, dr, rest) == b;
    if j < |p1| {
      assert b[j] == p1[j];
    } else if j < |p2| {
      assert b[j] == p2[j];
    } else if j < |p3| {
      assert b[j] == p3[j];
    }
  }

  /** A repetition drills exactly its `dr` drilling days. */
  lemma BlockDrilling(ind: nat, dr: nat, rest: nat)
    ensures multiset(Block(ind, dr, rest))[Drilling] == dr
  {
    var i := Repeat(Induction, ind);
    var m := Repeat(Drilling, dr);
    var r := Repeat(Rest, rest);
    RepeatCount(Induction, ind, Drilling);
    RepeatCount(Drilling, dr, Drilling);
    RepeatCount(Rest, rest, Drilling);
    assert multiset([Rise] + i + m + [Descent] + r)
        == multiset([Rise]) + multiset(i) + multiset(m) + multiset([Descent]) + multiset(r);
  }

  /** Cells of a repetition: rise, induction, drilling, descent and rest. */
  function RepetitionLength(g: Regime, first: bool, hasInduction: bool, done: int): nat
    requires g.Valid() && done < g.totalDrillingDays
  {
    InductionRun(g, first, hasInduction) + DaysThisCycle(g, first, hasInduction, done) + 2 + g.RestRun()
  }

  /** `c` with the `n` cells from `d` on overwritten by a repetition with
      `ind` induction and `dr` drilling cells. */
  function Fill(c: seq<Status>, d: int, ind: nat, dr: nat, n: int): (r: seq<Status>)
    ensures |r| == |c|
    ensures forall k :: 0 <= k < |c| ==> r[k] == if d <= k < d + n then Cell(ind, dr, k - d) else c[k]
  {
    seq(|c|, k requires 0 <= k < |c| => if d <= k < d + n then Cell(ind, dr, k - d) else c[k])
  }

  /** The loop condition: quota not met, and more than a full work+rest block
      of buffer left after `day`. */
  predicate Guard(g: Regime, s: Loop)
  {
    s.drillingDone < g.totalDrillingDays && s.day < |s.cells| - g.workDays - g.restDays
  }

  /** A repetition that starts where the guard holds ends inside the buffer. */
  lemma BlockFits(g: Regime, hasInduction: bool, s: Loop)
    requires g.Valid() && Guard(g, s)
    ensures s.day + RepetitionLength(g, s.isFirstCycle, hasInduction, s.drillingDone) <= |s.cells|
  {
  }

  /** One pass of the loop body. */
  function Step(g: Regime, hasInduction: bool, s: Loop): (r: Loop)
    requires g.Valid() && Guard(g, s)
    ensures |r.cells| == |s.cells| && !r.isFirstCycle
    ensures s.day < r.day <= |s.cells|
    ensures s.drillingDone < r.drillingDone <= g.totalDrillingDays
  {
    BlockFits(g, hasInduction, s);
    var ind := InductionRun(g, s.isFirstCycle, hasInduction);
    var dr := DaysThisCycle(g, s.isFirstCycle, hasInduction, s.drillingDone);
    var n := RepetitionLength(g, s.isFirstCycle, hasInduction, s.drillingDone);
    Loop(Fill(s.cells, s.day, ind, dr, n), s.day + n, s.drillingDone + dr, false)
  }

  /** The state in which the generator's loop exits, from state `s`. */
  function Run(g: Regime, hasInduction: bool, s: Loop): (r: Loop)
    requires g.Valid()
    decreases |s.cells| - s.day
    ensures |r.cells| == |s.cells|
    ensures !Guard(g, r)
  {
    if Guard(g, s) then Run(g, hasInduction, Step(g, hasInduction, s)) else s
  }

  /** What the run leaves: the loop condition fails, the day only moves
      forward and stays in the buffer, only cells in [s.day, r.day) are
      written, and the drilling count only grows and stays within quota. */
  lemma {:induction false} RunFacts(g: Regime, hasInduction: bool, s: Loop)
    requires g.Valid()
    decreases |s.cells| - s.day
    ensures !Guard(g, Run(g, hasInduction, s))
    ensures s.day <= Run(g, hasInduction, s).day
    ensures s.day <= |s.cells| ==> Run(g, hasInduction, s).day <= |s.cells|
    ensures forall k :: 0 <= k < |s.cells| && (k < s.day || Run(g, hasInduction, s).day <= k) ==>
      Run(g, hasInduction, s).cells[k] == s.cells[k]
    ensures s.drillingDone <= Run(g, hasInduction, s).drillingDone
    ensures s.drillingDone <= g.totalDrillingDays ==> Run(g, hasInduction, s).drillingDone <= g.totalDrillingDays
  {
    if Guard(g, s) {
      BlockFits(g, hasInduction, s);
      RunFacts(g, hasInduction, Step(g, hasInduction, s));
    }
  }

  /** Filling a repetition splices its block into the buffer. */
  lemma FillSplice(c: seq<Status>, d: nat, ind: nat, dr: nat, rest: nat)
    requires d + ind + dr + 2 + rest <= |c|
    ensures Fill(c, d, ind, dr, ind + dr + 2 + rest)
         == c[..d] + Block(ind, dr, rest) + c[d + ind + dr + 2 + rest..]
  {
    var b := Block(ind, dr, rest);
    var e := d + ind + dr + 2 + rest;
    var t := c[..d] + b + c[e..];
    forall k | 0 <= k < |c|
      ensures Fill(c, d, ind, dr, ind + dr + 2 + rest)[k] == t[k]
    {
      if d <= k < e {
        BlockAt(ind, dr, rest, k - d);
        assert t[k] == b[k - d];
      } else if k < d {
        assert t[k] == c[k];
      } else {
        assert t[k] == c[k];
      }
    }
  }

  /** Shape of each repetition: where the loop condition holds, the final
      timeline holds, from `s.day` on, a rise, the induction days of a first
      repetition, the clamped drilling days, a descent and the rest days. */
  lemma RunRepetition(g: Regime, hasInduction: bool, s: Loop)
    requires g.Valid() && Guard(g, s)
    ensures s.day + RepetitionLength(g, s.isFirstCycle, hasInduction, s.drillingDone) <= |s.cells|
    ensures forall j :: 0 <= j < RepetitionLength(g, s.isFirstCycle, hasInduction, s.drillingDone) ==>
      Run(g, hasInduction, s).cells[s.day + j]
        == Cell(InductionRun(g, s.isFirstCycle, hasInduction),
                DaysThisCycle(g, s.isFirstCycle, hasInduction, s.drillingDone), j)
  {
    BlockFits(g, hasInduction, s);
    var ind := InductionRun(g, s.isFirstCycle, hasInduction);
    var dr := DaysThisCycle(g, s.isFirstCycle, hasInduction, s.drillingDone);
    var n := RepetitionLength(g, s.isFirstCycle, hasInduction, s.drillingDone);
    var t := Step(g, hasInduction, s);
    assert t.cells == Fill(s.cells, s.day, ind, dr, n) && t.day == s.day + n;
    Continues(g, hasInduction, s);
    RunFacts(g, hasInduction, t);
    forall j | 0 <= j < n
      ensures Run(g, hasInduction, s).cells[s.day + j] == Cell(ind, dr, j)
    {
      var k := s.day + j;
      assert Run(g, hasInduction, t).cells[k] == t.cells[k];
      assert t.cells[k] == Cell(ind, dr, k - s.day);
    }
  }

  /** Replacing the cells [d, d + |b|) of `c`, none of which is x, by `b`
      adds the occurrences of x in `b`. */
  lemma SpliceCount(c: seq<Status>, d: nat, b: seq<Status>, x: Status)
    requires d + |b| <= |c|
    requires forall k :: d <= k < |c| ==> c[k] != x
    ensures multiset(c[..d] + b + c[d + |b|..])[x] == multiset(c)[x] + multiset(b)[x]
  {
    var e := d + |b|;
    var p, m, q := c[..d], c[d..e], c[e..];
    assert x !in m;
    assert c == p + m + q;
    assert multiset(c) == multiset(p) + multiset(m) + multiset(q);
    assert multiset(p + b + q) == multiset(p) + multiset(b) + multiset(q);
  }

  /** A repetition written where no Drilling cell lay adds exactly its
      drilling days to the Drilling cells. */
  lemma FillDrillingCount(c: seq<Status>, d: nat, ind: nat, dr: nat, rest: nat)
    requires d + ind + dr + 2 + rest <= |c|
    requires forall k :: d <= k < |c| ==> c[k] != Drilling
    ensures multiset(Fill(c, d, ind, dr, ind + dr + 2 + rest))[Drilling] == multiset(c)[Drilling] + dr
  {
    var b := Block(ind, dr, rest);
    FillSplice(c, d, ind, dr, rest);
    assert Fill(c, d, ind, dr, ind + dr + 2 + rest) == c[..d] + b + c[d + |b|..];
    SpliceCount(c, d, b, Drilling);
    BlockDrilling(ind, dr, rest);
  }

  /** One repetition adds exactly its drilling days to the Drilling cells,
      when none lay where it writes. */
  lemma StepDrillingCount(g: Regime, hasInduction: bool, s: Loop)
    requires g.Valid() && Guard(g, s)
    requires forall k :: s.day <= k < |s.cells| ==> s.cells[k] != Drilling
    ensures multiset(Step(g, hasInduction, s).cells)[Drilling]
         == multiset(s.cells)[Drilling] + DaysThisCycle(g, s.isFirstCycle, hasInduction, s.drillingDone)
  {
    BlockFits(g, hasInduction, s);
    FillDrillingCount(s.cells, s.day, InductionRun(g, s.isFirstCycle, hasInduction),
      DaysThisCycle(g, s.isFirstCycle, hasInduction, s.drillingDone), g.RestRun());
  }

  /** A repetition moves the day forward by at least a rise, a drilling day
      and a descent, stays in the buffer, and leaves the cells before and
      after it as they were. */
  lemma StepFrame(g: Regime, hasInduction: bool, s: Loop)
    requires g.Valid() && Guard(g, s)
    ensures s.day + 3 <= Step(g, hasInduction, s).day <= |s.cells|
    ensures forall k :: 0 <= k < |s.cells| && (k < s.day || Step(g, hasInduction, s).day <= k) ==>
      Step(g, hasInduction, s).cells[k] == s.cells[k]
  {
    BlockFits(g, hasInduction, s);
  }

  /** Drilling cells of the final timeline: those already there plus exactly
      the days the loop drilled, when no Drilling cell lies where it writes. */
  lemma {:induction false} RunDrillingCount(g: Regime, hasInduction: bool, s: Loop)
    requires g.Valid()
    requires forall k :: s.day <= k < |s.cells| ==> s.cells[k] != Drilling
    ensures multiset(Run(g, hasInduction, s).cells)[Drilling]
         == multiset(s.cells)[Drilling] + Run(g, hasInduction, s).drillingDone - s.drillingDone
    decreases |s.cells| - s.day
  {
    if Guard(g, s) {
      StepDrillingCount(g, hasInduction, s);
      StepFrame(g, hasInduction, s);
      RunDrillingCount(g, hasInduction, Step(g, hasInduction, s));
    }
  }

  /** The generator never writes more Drilling cells than the quota: a run
      from the start state over a buffer without Drilling cells from the
      start day on adds at most totalDrillingDays of them. */
  lemma QuotaNeverExceeded(g: Regime, hasInduction: bool, cells: seq<Status>, startDay: nat)
    requires g.Valid()
    requires forall k :: startDay <= k < |cells| ==> cells[k] != Drilling
    ensures multiset(Run(g, hasInduction, Loop(cells, startDay, 0, true)).cells)[Drilling]
         <= multiset(cells)[Drilling] + g.totalDrillingDays
  {
    RunDrillingCount(g, hasInduction, Loop(cells, startDay, 0, true));
    RunFacts(g, hasInduction, Loop(cells, startDay, 0, true));
  }

  /** The buffer part-way through a repetition with `ind` induction and `dr`
      drilling cells begun at `start` over the cells `orig`: the cells from
      `start` up to `upto` are written, the others are as they were. */
  ghost predicate Filled(a: array<Status>, orig: seq<Status>, start: int, ind: nat, dr: nat, upto: int)
    reads a
  {
    && a.Length == |orig|
    && forall k :: 0 <= k < a.Length ==>
         a[k] == if start <= k < upto then Cell(ind, dr, k - start) else orig[k]
  }

  /** Where the loop condition fails the loop model stops. */
  lemma Stops(g: Regime, hasInduction: bool, s: Loop)
    requires g.Valid() && !Guard(g, s)
    ensures Run(g, hasInduction, s) == s
  {
  }

  /** Where the loop condition holds the loop model takes one step. */
  lemma Continues(g: Regime, hasInduction: bool, s: Loop)
    requires g.Valid() && Guard(g, s)
    ensures Run(g, hasInduction, s) == Run(g, hasInduction, Step(g, hasInduction, s))
  {
  }

  /** Writes `n` copies of `x` from `from` on, where the repetition has `x`
      at each of those offsets; the written part then reaches `from + n`. */
  method WriteRun(a: array<Status>, from: nat, n: nat, x: Status,
                  ghost orig: seq<Status>, ghost start: nat, ghost ind: nat, ghost dr: nat)
    requires Filled(a, orig, start, ind, dr, from)
    requires start <= from && from + n <= a.Length
    requires forall j :: from - start <= j < from + n - start ==> Cell(ind, dr, j) == x
    modifies a
    ensures Filled(a, orig, start, ind, dr, from + n)
  {
    for i := 0 to n
      invariant Filled(a, orig, start, ind, dr, from + i)
    {
      a[from + i] := x;
    }
  }

  /** Writes one repetition from `day`: a rise, `ind` induction days, `dr`
      drilling days, a descent and `rest` rest days. The cells written are
      exactly the repetition's, by position, and nothing else changes. */
  method WriteRepetition(a: array<Status>, day: nat, ind: nat, dr: nat, rest: nat)
    requires day + ind + dr + 2 + rest <= a.Length
    modifies a
    ensures a[..] == Fill(old(a[..]), day, ind, dr, ind + dr + 2 + rest)
  {
    ghost var orig := a[..];
    var d := day;
    WriteRun(a, d, 1, Rise, orig, day, ind, dr);
    d := d + 1;
    WriteRun(a, d, ind, Induction, orig, day, ind, dr);
    d := d + ind;
    WriteRun(a, d, dr, Drilling, orig, day, ind, dr);
    d := d + dr;
    WriteRun(a, d, 1, Descent, orig, day, ind, dr);
    d := d + 1;
    WriteRun(a, d, rest, Rest, orig, day, ind, dr);
    assert a[..] == Fill(orig, day, ind, dr, ind + dr + 2 + rest);
  }

  /** One pass of the generator's loop body: a repetition written from `day`,
      with its induction only on the first repetition and its drilling
      clamped to what is left of the quota. */
  method Repetition(timeline: array<Status>, day: nat, drillingDone: nat, isFirstCycle: bool,
                    g: Regime, hasInduction: bool)
    returns (nextDay: nat, nextDone: nat)
    requires g.Valid() && Guard(g, Loop(timeline[..], day, drillingDone, isFirstCycle))
    modifies timeline
    ensures Loop(timeline[..], nextDay, nextDone, false)
         == Step(g, hasInduction, Loop(old(timeline[..]), day, drillingDone, isFirstCycle))
  {
    var realRestDays := g.restDays - 2;
    var inductionDays := if isFirstCycle && hasInduction then g.inductionDays else 0;
    var daysToWork := if isFirstCycle && hasInduction then g.workDays - g.inductionDays else g.workDays;
    var daysThisCycle := Min(daysToWork, g.totalDrillingDays - drillingDone);
    var restDays := if realRestDays > 0 then realRestDays else 0;
    assert inductionDays == InductionRun(g, isFirstCycle, hasInduction);
    assert daysThisCycle == DaysThisCycle(g, isFirstCycle, hasInduction, drillingDone);
    assert restDays == g.RestRun();
    BlockFits(g, hasInduction, Loop(timeline[..], day, drillingDone, isFirstCycle));
    WriteRepetition(timeline, day, inductionDays, daysThisCycle, restDays);
    nextDay := day + inductionDays + daysThisCycle + 2 + restDays;
    nextDone := drillingDone + daysThisCycle;
  }

  /** Fills `timeline` in place from `startDay` with repetitions of the
      regime; the result is the state the loop model Run reaches from the
      start state, so every write is in bounds and the properties proved
      about Run hold of the array. */
  method GenerateSupervisor(timeline: array<Status>, startDay: nat, g: Regime, hasInduction: bool)
    requires g.Valid()
    modifies timeline
    ensures timeline[..] == Run(g, hasInduction, Loop(old(timeline[..]), startDay, 0, true)).cells
  {
    var day: nat := startDay;
    var drillingDone: nat := 0;
    var isFirstCycle := true;
    while drillingDone < g.totalDrillingDays && day < timeline.Length - g.workDays - g.restDays
      invariant Run(g, hasInduction, Loop(timeline[..], day, drillingDone, isFirstCycle))
             == Run(g, hasInduction, Loop(old(timeline[..]), startDay, 0, true))
      decreases timeline.Length - day
    {
      ghost var s := Loop(timeline[..], day, drillingDone, isFirstCycle);
      Continues(g, hasInduction, s);
      day, drillingDone := Repetition(timeline, day, drillingDone, isFirstCycle, g, hasInduction);
      isFirstCycle := false;
    }
    Stops(g, hasInduction, Loop(timeline[..], day, drillingDone, isFirstCycle));
  }
}
