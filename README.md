# Mining shift scheduler: a Dafny model of the scheduling engine

The engine plans the shifts of three drilling supervisors, S1, S2 and S3, on a
work/rest rotation. A regime has `workDays` (W) work days and `restDays` (R)
rest days, so one cycle lasts C = W + R days. The first work block also holds
`inductionDays` (I) induction days, and each supervisor has a quota of
`totalDrillingDays` (T) drilling days.

Each repetition of a supervisor's timeline writes, in order:

- one rise (S);
- the induction days (I), on the first repetition only;
- the drilling days (P), clamped to what is left of the quota;
- one descent (B);
- max(0, R − 2) rest days (D), so none when R ≤ 2.

The planner then does the following:

- it sizes a horizon of `ceil(1.5 T / W) + 5` cycles;
- it starts S1 on day 0, S2 on day ⌊C/3⌋ and S3 on day ⌊2C/3⌋;
- it trims the three timelines to `lastDrillingDay + R + 10` days;
- it validates the result.

The validator builds the distribution of days by how many supervisors drill on
them. It records a THREE_DRILLING error for every day on which all three drill.
It also records a warning for a rise followed by a rise, and for a rise followed
by a descent.

The model has five modules:

- `Domain`: the statuses, their letter codes and the three-timeline schedule.
- `CycleGenerator`: `generateSupervisor`. It is an `array<Status>` method,
  proved equal to the loop model `Run`. Every property of a timeline is proved
  about `Run`.
- `Validator`: `countDrilling`, `validateSchedule` and `getScheduleStats`. The
  two passes are loop methods, proved equal to the spec functions `Validate` and
  `Statistics`. What these functions mean is proved as lemmas.
- `Planner`: `generateSchedule` and `findLastDrillingDay`. It also holds the
  theorem that the horizon is always large enough: every supervisor meets its
  quota exactly.
- `Scenarios`: two concrete regimes for which the validator reports three
  supervisors drilling on the same day.

The engine's precondition is the configuration form's acceptance test
(src/components/ConfigForm.jsx:16-25), modelled as `Regime.Valid()`:

- W > 0;
- R > 0;
- 1 ≤ I ≤ 5;
- T > 0;
- W > I.

## Where the code and its documentation disagree

The model follows the code.

- The header comment of src/utils/scheduler.js:6-13 promises that three
  supervisors never drill at the same time. This does not hold for every regime
  the form accepts. For 30×1 with one induction day (`ThirtyByOneReportsDay22`),
  all three drill on day 22.
- src/utils/scheduler.test.js:47-72 and :125-157 expect the 21×7 regime with
  three induction days and T = 30 to produce no THREE_DRILLING error. The code
  gives all three supervisors a drilling day on day 29, so the schedule is
  reported invalid (`TwentyOneBySevenReportsDay29`).
  - S1 is in its second repetition on that day.
  - S2 starts on day 9 and drills days 13–30.
  - S3 starts on day 18 and drills days 22–39.

## Model

| member | source | states |
|---|---|---|
| Domain.CodeInjective | src/utils/scheduler.js:16-23 | distinct statuses have distinct letter codes, so comparing codes is comparing statuses |
| Domain.RepeatCount | src/utils/scheduler.js:34-38 | a run of n copies of a status holds that status n times and no other status |
| CycleGenerator.DaysThisCycle | src/utils/scheduler.js:101-102 | the drilling days of a repetition are at least 1 and at most the quota left and the work days; they equal the work days unless they complete the quota |
| CycleGenerator.BlockAt | src/utils/scheduler.js:91-115 | cell j of the concatenated repetition is `Cell(ind, dr, j)`: rise, then induction, drilling, descent and rest at their offsets |
| CycleGenerator.BlockDrilling | src/utils/scheduler.js:104-107 | a repetition with dr drilling days holds exactly dr Drilling cells |
| CycleGenerator.BlockFits | src/utils/scheduler.js:89-115 | a repetition started where the loop condition holds ends inside the buffer, also when restDays is 1 or 2 |
| CycleGenerator.FillSplice | src/utils/scheduler.js:91-115 | writing a repetition replaces exactly the cells [day, day + length) by the repetition |
| CycleGenerator.StepFrame | src/utils/scheduler.js:89-117 | each pass advances the day by at least 3 and stays in the buffer; the cells outside the repetition are unchanged (termination and bounds) |
| CycleGenerator.RunFacts | src/utils/scheduler.js:84-118 | at loop exit the condition fails, the day has only moved forward within the buffer, the cells before the start day and from the final day on are unchanged, and the drilling count only grew and stays within the quota |
| CycleGenerator.RunRepetition | src/utils/scheduler.js:91-117 | where the loop condition holds, the final timeline holds the repetition from that day: rise, the first-cycle induction, the clamped drilling, descent, max(0, R − 2) rest |
| CycleGenerator.SpliceCount | src/utils/scheduler.js:104-107 | writing a block over cells without Drilling adds exactly the block's Drilling cells |
| CycleGenerator.FillDrillingCount | src/utils/scheduler.js:104-107 | a repetition written where no Drilling lay adds exactly its dr Drilling cells |
| CycleGenerator.StepDrillingCount | src/utils/scheduler.js:104-107 | one pass adds exactly DaysThisCycle Drilling cells, which is what it adds to drillingDone |
| CycleGenerator.RunDrillingCount | src/utils/scheduler.js:89-117 | the Drilling cells of the final timeline are those already there plus exactly the final drillingDone |
| CycleGenerator.QuotaNeverExceeded | src/utils/scheduler.js:89-107 | the generator never writes more than totalDrillingDays Drilling cells |
| CycleGenerator.Step | src/utils/scheduler.js:90-117 | one pass of the loop body: the buffer keeps its length, the day moves forward inside the buffer, drillingDone grows and stays within the quota, and later passes are no longer the first cycle |
| CycleGenerator.Run | src/utils/scheduler.js:89-118 | the state in which the loop exits: the buffer keeps its length and the loop condition no longer holds |
| CycleGenerator.Stops | src/utils/scheduler.js:89 | where the loop condition fails the loop model leaves the state as it is |
| CycleGenerator.Continues | src/utils/scheduler.js:89-117 | where the loop condition holds the loop model takes one pass of the body |
| CycleGenerator.WriteRun | src/utils/scheduler.js:95-97 | writes n copies of a status from a position, so the written part grows by n |
| CycleGenerator.WriteRepetition | src/utils/scheduler.js:91-115 | the array afterwards is the old array with the repetition written from `day` |
| CycleGenerator.Repetition | src/utils/scheduler.js:90-117 | one pass of the loop body: new array, day and drillingDone are those of the loop model's step |
| CycleGenerator.GenerateSupervisor | src/utils/scheduler.js:83-119 | the array afterwards is the final timeline of the loop model, so every write is in bounds and every lemma about `Run` holds of it |
| Validator.CountDrilling | src/utils/scheduler.js:134-140 | the count is in 0..3; it is 3 exactly when all three drill that day and 0 exactly when none does |
| Validator.DrillingSupervisors | src/utils/scheduler.js:170-174 | a list of three supervisors is [S1, S2, S3] |
| Validator.DrillingSupervisorsExact | src/utils/scheduler.js:170-174 | a supervisor is listed exactly when its timeline drills that day |
| Validator.DrillingSupervisorsCount | src/utils/scheduler.js:164-175 | the list is as long as the day's drilling count |
| Validator.TallySum | src/utils/scheduler.js:154-161 | the four distribution counters sum to the number of days |
| Validator.NoThreeIff | src/utils/scheduler.js:161 | daysWithThree is 0 exactly when no day has three drilling |
| Validator.ErrorsExact | src/utils/scheduler.js:164-176 | as many errors as days with three drilling; each is a day with count 3, kind THREE_DRILLING, naming [S1, S2, S3]; days strictly increase; every such day has an error |
| Validator.DayWarningsExact | src/utils/scheduler.js:179-200 | one day's warnings are exactly the (supervisor, kind) pairs whose cell is a rise and whose next cell is a rise or a descent, in supervisor order |
| Validator.WarningsExact | src/utils/scheduler.js:154-201 | a warning is emitted exactly when its cell is a rise followed by a rise (CONSECUTIVE_SUBIDA) or by a descent (SUBIDA_BAJADA), in day-then-supervisor order |
| Validator.NoWarningOnLastDay | src/utils/scheduler.js:181 | no warning is for the last day: its "tomorrow" is null |
| Validator.Validate | src/utils/scheduler.js:203-219 | the validation result: one error per day with three drilling, and a distribution whose four counters sum to the schedule's length |
| Validator.ValidIff | src/utils/scheduler.js:203-219 | isValid, no errors, the contract-clause flag, zero days with three and no day with count 3 are all equivalent; warnings play no part |
| Validator.CheckPatterns | src/utils/scheduler.js:179-200 | one day's pattern check returns that day's warnings |
| Validator.ValidateSchedule | src/utils/scheduler.js:142-220 | the single pass returns the validation of the schedule; valid exactly when no day has three drilling |
| Validator.DrillingCellsMultiset | src/utils/scheduler.js:237-241 | drilling cells counted day by day equal the Drilling cells of the timeline |
| Validator.DrillingTotalFacts | src/utils/scheduler.js:230-242 | the drilling total is one + 2·two + 3·three, and the sum of the three timelines' drilling cells |
| Validator.DrillsOfAll | src/utils/scheduler.js:237-241 | the per-supervisor pass over [S1, S2, S3] adds each timeline's drilling cell |
| Validator.Statistics | src/utils/scheduler.js:244-261 | the statistics result: the counters sum to totalDays and the drilling total is one + 2·two + 3·three |
| Validator.StatisticsFacts | src/utils/scheduler.js:222-262 | the counters sum to totalDays; total drilling is one + 2·two + 3·three and the Drilling cells of the three timelines; the distribution equals the validator's; meetsContractClause iff three is 0 iff valid; violationDays = three = number of errors; the compatibility fields equal the distribution |
| Validator.GetScheduleStats | src/utils/scheduler.js:222-262 | the second pass returns the statistics of the schedule, with total drilling one + 2·two + 3·three |
| Planner.CeilDivBounds | src/utils/scheduler.js:30 | CeilDiv(a, b) is the ceiling of a / b: the least r with a ≤ b·r |
| Planner.SpanProduct | src/utils/scheduler.js:31 | k blocks of len days span len·k days |
| Planner.EstimatedCycles | src/utils/scheduler.js:30 | the estimated cycle count is ceil(1.5 T / W) + 5, so at least 6 cycles |
| Planner.Horizon | src/utils/scheduler.js:31 | the horizon is that many whole cycles, so it is at least one cycle long and every offset lies inside it |
| Planner.PlanOffsets | src/utils/scheduler.js:46-53 | the offsets are 0, ⌊C/3⌋ and ⌊2C/3⌋, ordered and within the first cycle |
| Planner.Timeline | src/utils/scheduler.js:34-53 | each buffer keeps the horizon's length |
| Planner.EmptyBuffer | src/utils/scheduler.js:34-38 | a new array of the horizon's length with every cell Empty |
| Planner.Buffers | src/utils/scheduler.js:34-53 | the three untrimmed timelines, each filled by the generator from its offset; all three are as long as the horizon |
| Planner.HorizonSuffices | src/utils/scheduler.js:30-31 | a supervisor starting within the first cycle has room for every repetition it needs before the loop condition runs out |
| Planner.TrackStep | src/utils/scheduler.js:101-117 | a pass that leaves quota over uses one of the repetitions still needed and at most a full repetition of buffer |
| Planner.RunMeetsQuota | src/utils/scheduler.js:89-117 | from a state with room for the repetitions still needed the loop ends with drillingDone = totalDrillingDays |
| Planner.TimelineQuota | src/utils/scheduler.js:34-53 | each supervisor's buffer holds exactly T Drilling cells; the cells before its offset stay Empty |
| Planner.LastDrillingIndex | src/utils/scheduler.js:123-129 | the backward scan's stop: a Drilling index with none after it, or -1 |
| Planner.LastDayOfFacts | src/utils/scheduler.js:121-132 | after n supervisors the running maximum bounds their Drilling indices and is one of them, or 0 when there is none |
| Planner.LastDrillingDay | src/utils/scheduler.js:121-132 | the result of the scan: the maximum of the three last drilling indices and 0, so at least each supervisor's last drilling index |
| Planner.LastDrillingDayFacts | src/utils/scheduler.js:121-132 | the last drilling day is at least every Drilling index of the three timelines and is itself one, or 0 when none drills |
| Planner.FindLastDrillingDay | src/utils/scheduler.js:121-132 | the backward scans with break and running max return the last drilling day |
| Planner.Slice | src/utils/scheduler.js:59-63 | slice(0, n) returns the first min(n, length) cells, a prefix |
| Planner.PrefixCount | src/utils/scheduler.js:59-63 | cutting off a tail without Drilling keeps every Drilling cell |
| Planner.ActualDays | src/utils/scheduler.js:56-57 | the reported day count, lastDay + R + 10, lies past the last drilling day |
| Planner.Trimmed | src/utils/scheduler.js:59-63 | the three buffers cut to the reported day count: all three have length min(actualDays, horizon) |
| Planner.GeneratedShape | src/utils/scheduler.js:56-63 | the three trimmed timelines have the same length, min(lastDay + R + 10, horizon); each is a prefix of its buffer; no Drilling cell is cut off |
| Planner.GeneratedQuota | src/utils/scheduler.js:56-63 | each trimmed timeline holds exactly T Drilling cells |
| Planner.GeneratedStats | src/utils/scheduler.js:222-262 | the statistics of the planner's schedule count 3·T drilling days |
| Planner.GeneratedStartsEmpty | src/utils/scheduler.js:34-53 | each trimmed timeline is Empty before its supervisor's offset |
| Planner.FirstRepetition | src/utils/scheduler.js:91-110 | a supervisor's first repetition: a rise on its start day, I induction days, min(W − I, T) ≥ 1 drilling days, a descent |
| Planner.GeneratedS1FirstCycle | src/utils/scheduler.test.js:199-240 | S1's trimmed timeline: day 0 rise, days 1..I induction, then at least one drilling day, then a descent, all inside the trimmed length |
| Planner.Generate | src/utils/scheduler.js:66-77 | the returned record: the trimmed schedule is no longer than the reported day count, and its validation has one error per day with three drilling |
| Planner.GenerateSchedule | src/utils/scheduler.js:25-78 | the result is the trimmed schedule, its validation, the uncapped day count lastDay + R + 10 and the offsets used |
| Scenarios.ReportsDay | src/utils/scheduler.js:164-176 | a day on which all three buffers drill is reported as THREE_DRILLING with [S1, S2, S3]; the schedule is then neither valid nor compliant |
| Scenarios.ThirtyByOneReportsDay22 | src/utils/scheduler.js:6-13 | for the 30×1 regime with one induction day, day 22 is reported and the schedule is invalid |
| Scenarios.TwentyOneBySevenS1Day29 | src/utils/scheduler.js:89-117 | in the 21×7 regime, S1's second repetition starts on day 28 and drills on day 29 |
| Scenarios.TwentyOneBySevenReportsDay29 | src/utils/scheduler.test.js:47-72 | for the 21×7 regime with three induction days, day 29 is reported and the schedule is invalid |

## Left out

- The React components (ScheduleTable.jsx, ConfigForm.jsx and ValidationAlerts.jsx). They only render. The form's acceptance test is kept as `Regime.Valid()`.
- The float horizon `Math.ceil(T * 1.5 / W)`. It is modelled as the integer ceiling of 3T / 2W, which is exact for integer operands.
- Error and warning messages, the severity field and the compliance message. An error is kept as its day, kind and supervisors, and a warning as its day, supervisor and kind.
- `s3ActiveDay`, the ONE_DRILLING error and a synchronized-pair placement. The code computes none of them.
- The test harness's console reporting and its browser global.
- The three other configurations of src/utils/scheduler.test.js:125-157 (14×7, 10×5 and 7×7). Their THREE_DRILLING-free outcome is not evaluated. Nothing is executed here, so deciding it would mean proving every cell of three timelines, each several cycles long. The scenario lemmas prove only the one day they report.
- JavaScript's growing of an array on an out-of-range write. `GenerateSupervisor` proves that every write is in bounds, so it never happens.
- A read past the end of a timeline (`undefined`) and the null "tomorrow" of the last day. Both are modelled as Empty, which equals none of the letters compared against.
- CycleGenerator.Repetition: it adds the drilling days to `drillingDone` once per repetition, not once per cell. No code between the two points reads the counter.
- The `forEach` callbacks over ['S1', 'S2', 'S3'] are modelled as loops over the sequence `[S1, S2, S3]`. The one in `validateSchedule` is the method `CheckPatterns`.
- The unused local `realRestDays` of generateSchedule (src/utils/scheduler.js:27).
