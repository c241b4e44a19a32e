# Verification model of hw-agent

`hw-agent` turns kernel counters into pressures, pressures into two risks, and the risks into a
four-level stability state, once per tick, and publishes everything to RedisTimeSeries. This project
models that program in Dafny and proves what holds of whole runs of it: the filters, the hysteresis,
the interval ring, the `/proc/softirqs` automaton, the tegrastats framing, the CPU accounting, the
configuration loader, the Redis session and the tick loop that joins them.

Check it with `dafny verify dfyconfig.toml`.

## How the model is built

Objects whose methods change fields are classes with those fields. Each of their methods is proved to
take a step that a pure function describes, and the results about runs are lemmas on those functions:

| file | program part |
|---|---|
| `SignalFrame`, `Numeric`, `Text`, `Wrappers` | the frame, 64-bit arithmetic and clamping, numerals and lines |
| `EmaFilter` | the first-order filter shared by eight stages |
| `Pressures`, `LatencyJitter`, `Risk`, `SystemState` | the nine stage objects |
| `RiskDeadlines`, `Pipeline`, `PipelineOrder`, `PipelineDeadlines`, `ExactDeadlines` | whole runs of the risk stages and of all stages together: what they publish, how two runs compare, how fast alarms rise and clear |
| `ScoreShares` | what each raw signal contributes to the scores |
| `Softirqs`, `SoftirqBaseline`, `SoftirqSnapshot`, `CpuSensor`, `TegraStats` | the sensors with state worth proving things about |
| `Config`, `ConfigTree`, `ConfigValues` | the configuration loader: lines, trees of sections, and what the values come to |
| `Sensors`, `RedisMetrics`, `RedisPayload`, `PayloadReader` | what is published, and how a subscriber reads it |
| `RedisSession`, `RedisRetry`, `RedisSink` | the session with the server, and what a publish achieves |
| `TickLoop`, `TickAccounts`, `Agent`, `Deployment` | the loop, what it reports about itself, the agent object, and what a configuration file makes it do |

Conventions:

- `float` and `double` are exact reals; the decimal constants are the ones in the source.
- `std::uint64_t` and `std::uint32_t` are bounded integers; additions and subtractions that may wrap
  are written out (`Add64`, `Sub64`, `Increment32`).
- The exponential of the memory and I/O scores is a function parameter; only that it is increasing is used.
- Clocks, sensor readings and server answers are arbitrary functions of the global tick or of the number
  of exchanges so far, so a statement about them covers every behaviour of the outside world.
- Bytes are characters; the parsers only compare them.
- `hide` at the head of a proof keeps definitions it does not need away from the solver.

Where the documentation and the code differ the model follows the code: `sensor_failures` and
`redis_errors` are reset in every tick (`src/core/agent.cpp:199`, `src/core/agent.cpp:233`), and failing
sensors write 0 instead of holding a value (`src/sensors/cpu.cpp:20-23`).

One plausible property is false and stated as such: more interrupts do not always mean a higher
scheduler pressure, because earlier interrupts raise the baseline a burst is measured against
(`PipelineOrder.MoreInterruptsCanLookBetter`). What holds instead is exact, for one stage and for whole runs:

- of two primed scheduler stages, one never publishes more than the other, whatever they read next, iff
  its baseline is no lower (`Pressures.HigherBaselinePublishesLess`);
- of two interrupt histories, the second never makes anything published look better, under any worse loads,
  iff at every tick it adds at least as much to the scheduler filter
  (`PipelineOrder.OrderedExactlyWhenBurstsAre`). That is a comparison of two numbers computed from the rates
  alone. It holds when each burst is at least as high as the other's (`PipelineOrder.BurstByBurst`), so for
  equal rates on all ticks but the last, and against any history whenever the first one stays at or below 1.5,
  where nothing scores.

The same baseline makes a steady interrupt rate score nothing, however high it is. So the deadlines ask what a
tick scores against the baseline of its own run: `PipelineOrder.SilentExactlyFrom` says after how many
ticks a steady rate falls silent, and `PipelineDeadlines.SteadyRestEndsIdle` that an otherwise resting machine
is then idle. From there the deadlines are exact (`ExactDeadlines`): eleven idle ticks on an even clock clear
every alarm and ten do not, twenty-one busy ones raise CRITICAL from every history and twenty do not.

What a publish achieves is said in terms of the server's answers (`RedisRetry`): a TS.MADD that is not accepted is
sent once more on a fresh connection, and a server that stumbles now and then never costs a tick. What a file asks
for is followed to what the agent does (`ConfigValues`, `Deployment`), and what the agent publishes to what a
subscriber reads (`PayloadReader`).

Two more concern the loader. A header indented deeper than the open sections makes the source write past its
section stack: `ConfigTree.TooDeepExactly` says for which files, and `ConfigTree.IndentedHeaderIsTooDeep` shows
one. And the port range of 1 to 65535 that it checks does not survive several addresses: a host that follows a socket
keeps the socket's port 0. `Config.PortZeroExactly` says for which files, `ConfigTree.BareHostKeepsPortZero`
shows one.

## Model

| member | source | states |
|---|---|---|
| `Numeric.Clamp01IsNearest` | include/core/math.hpp:7-9 | clamping moves a value to the one nearest point of the unit interval |
| `EmaFilter.RunIsWeightedSum` | src/derived/io_pressure.cpp:16-22 | a freshly started filter equals the sum of all its inputs with the explicit weights (1-alpha)^k, for every input sequence |
| `EmaFilter.WeightsAreConvex` | src/derived/memory_pressure.cpp:15-21 | those weights are never negative and add up to one |
| `EmaFilter.RunStaysBetween` | src/risk/saturation_risk.cpp:17-23 | the output stays between any bounds on the inputs and the starting state |
| `EmaFilter.RunsConverge` | src/derived/power_pressure.cpp:14-20 | two states fed the same scores differ after n ticks by exactly (1-alpha)^n times their first difference |
| `Pressures.SchedulerPressure.Sample` | src/derived/scheduler_pressure.cpp:9-37 | baseline, filter and frame after one sample, from those before; nothing else in the frame changes |
| `Pressures.MemoryPressure.Sample` | src/derived/memory_pressure.cpp:9-24 | the same for the memory stage |
| `Pressures.IoPressure.Sample` | src/derived/io_pressure.cpp:9-25 | the same for the I/O stage |
| `Pressures.ThermalPressure.Sample` | src/derived/thermal_pressure.cpp:8-24 | the same for the thermal stage |
| `Pressures.ThermalPressure.constructor` | src/derived/thermal_pressure.cpp:6 | a window that is not positive is replaced by 30 degrees |
| `Pressures.PowerPressure.Sample` | src/derived/power_pressure.cpp:7-23 | the same for the power stage, which reads this tick's thermal pressure |
| `Pressures.TrackBaseline` | src/derived/scheduler_pressure.cpp:14-22 | the interrupt baseline never falls below one, so the ratio is always defined |
| `Pressures.IrqNormMonotone` | src/derived/scheduler_pressure.cpp:14-25 | within a tick a higher interrupt rate never scores lower, although it also lifts the baseline |
| `ScoreShares.ScoresAreShares` | src/derived/thermal_pressure.cpp:8-14 | each of the five scores is the sum over its signals of weight times fraction, where the fraction says how far the signal has gone through its own range, from rest to its limit |
| `ScoreShares.FractionsExist` | src/derived/thermal_pressure.cpp:8-14 | every reading has such fractions |
| `ScoreShares.TicksScoreShares` | src/core/agent.cpp:214-222 | the scores of the last tick of every run in those shares, interrupts against the run's own baseline |
| `ScoreShares.FirstFrameIsShares` | src/core/agent.cpp:214-222 | the six pressures of the first frame in those shares; interrupts never count in it |
| `Pressures.HigherBaselinePublishesLess` | src/derived/scheduler_pressure.cpp:14-36 | of two primed stages one publishes no more than the other, for every filter state and every reading, iff its interrupt baseline is no lower |
| `Pressures.ScoresMonotone` | src/derived/thermal_pressure.cpp:9-13 | every raw score is monotone in load (and antitone in thermal headroom) |
| `Pressures.ScoresSpanUnit` | src/derived/scheduler_pressure.cpp:10-27 | all five raw scores lie in the unit interval; which inputs give exactly 0 and exactly 1, as thresholds on the raw signals |
| `LatencyJitter.LatencyJitter.Sample` | src/derived/latency_jitter.cpp:7-51 | ring, last timestamp, filter and frame after one sample, the ring seen as the window of retained intervals in age order |
| `LatencyJitter.LatencyJitter.Push` | src/derived/latency_jitter.cpp:11-16 | writing the next slot slides the window by one interval |
| `LatencyJitter.LatencyJitter.SumIntervals` | src/derived/latency_jitter.cpp:18-21 | the first loop computes the 64-bit sum of the occupied slots |
| `LatencyJitter.LatencyJitter.SumDeviations` | src/derived/latency_jitter.cpp:25-29 | the second loop computes the sum of absolute deviations of the occupied slots |
| `LatencyJitter.LatencyJitter.Dispersion` | src/derived/latency_jitter.cpp:18-32 | both loops together yield the temporal term of the window, whatever the write position |
| `LatencyJitter.LatencyJitter.RingIsRotation` | src/derived/latency_jitter.cpp:11-16 | the occupied slots are the window rotated by the write position, so sums over them agree |
| `LatencyJitter.RingHoldsLastIntervals` | src/derived/latency_jitter.cpp:10-16 | after n samples the ring holds exactly the last min(n-1, 8) intervals |
| `LatencyJitter.WindowSumTelescopes` | src/derived/latency_jitter.cpp:18-21 | the accumulated sum is the 64-bit difference between now and the oldest retained timestamp, for any timestamps |
| `LatencyJitter.WindowSumNeverWraps` | src/derived/latency_jitter.cpp:18-21 | on a clock that never steps back that sum is exact and fits 64 bits |
| `LatencyJitter.TemporalNormIgnoresRotation` | src/derived/latency_jitter.cpp:18-32 | the temporal term does not depend on the ring position |
| `LatencyJitter.DeviationBound` | src/derived/latency_jitter.cpp:25-29 | the deviations of n intervals add up to at most 2(n-1) times their mean |
| `LatencyJitter.RelativeDeviationBound` | src/derived/latency_jitter.cpp:30-31 | mean absolute deviation over mean is at most 7/4 |
| `LatencyJitter.TemporalNormZeroIffEqual` | src/derived/latency_jitter.cpp:23-32 | the temporal term is zero iff all retained intervals are equal |
| `LatencyJitter.TemporalNormInWholes` | src/derived/latency_jitter.cpp:18-32 | for any number of intervals the temporal term is four times the sum of the distances of n times each interval from their sum, over n times that sum, in whole numbers and clamped |
| `LatencyJitter.TemporalNormScaleFree` | src/derived/latency_jitter.cpp:23-32 | scaling all intervals by one positive real factor leaves the temporal term unchanged |
| `LatencyJitter.OutlierSaturates` | src/derived/latency_jitter.cpp:23-32 | one interval of at least twice the mean makes the temporal term 1 |
| `LatencyJitter.TemporalNormInSpread` | src/derived/latency_jitter.cpp:23-32 | intervals between lo and hi give a temporal term of at most 2 (hi - lo) / lo |
| `Risk.RealtimeRisk.Sample` | src/risk/realtime_risk.cpp:7-24 | filter and frame after one sample of the realtime risk |
| `Risk.SaturationRisk.Sample` | src/risk/saturation_risk.cpp:7-26 | filter and frame after one sample of the saturation risk |
| `Risk.RealtimeScore` | src/risk/realtime_risk.cpp:8-13 | the score is 1 iff all four inputs are saturated and 0 iff all four are idle |
| `Risk.SaturationScore` | src/risk/saturation_risk.cpp:8-15 | the score is 1 iff all five inputs are saturated and 0 iff all five are idle |
| `SystemState.SystemState.Sample` | src/risk/system_state.cpp:11-45 | the level and the frame after one sample |
| `SystemState.LevelStep` | src/risk/system_state.cpp:14-42 | one step moves at most one level |
| `SystemState.LevelStepMonotone` | src/risk/system_state.cpp:14-42 | the step is monotone in level and risk jointly |
| `SystemState.FlappingBound` | src/risk/system_state.cpp:14-42 | for every risk trace, 0.10 times the number of direction reversals is at most the total variation of the risk |
| `SystemState.ConstantRiskSettles` | src/risk/system_state.cpp:14-42 | under a constant risk the level is fixed after three steps and never reverses |
| `SystemState.ConstantRiskExactly` | src/risk/system_state.cpp:11-45 | n steps under a constant risk, exactly: the level moves at most n levels towards the range between the thresholds the risk reaches on the way up and those it exceeds on the way down, and stays there |
| `SystemState.SettlesLikeThreeRelays` | src/risk/system_state.cpp:14-42 | from three steps on the machine is three relays with the thresholds 0.45/0.30, 0.70/0.55 and 0.88/0.78: each is on iff the risk reaches the upper one, or it was on and the risk exceeds the lower one |
| `SystemState.StaysExactlyWhen` | src/risk/system_state.cpp:14-42 | a level holds for good under a constant risk iff it lies in that range |
| `SystemState.TwoStepsDoNotSettle` | src/risk/system_state.cpp:14-42 | two steps are not enough in general |
| `RiskDeadlines.RunStaysBounded` | src/risk/realtime_risk.cpp:12-23 | both risk filters stay in the unit interval in every reachable state |
| `RiskDeadlines.EscalatesExactlyWhen` | src/risk/realtime_risk.cpp:8-23 | n steps with the four realtime inputs at or above theta end in CRITICAL from every reachable state iff theta (1 - 0.65^n) >= 0.88, for every theta in [0,1] |
| `RiskDeadlines.EscalationTakesExactlyFive` | src/risk/system_state.cpp:14-42 | the limit theta = 1, the fastest there is: enough iff n >= 5 |
| `RiskDeadlines.ClimbsAtLeast` | src/risk/realtime_risk.cpp:12-23 | over such steps the realtime filter stays above its bound and the level keeps up with it, threshold by threshold |
| `RiskDeadlines.RecoversExactlyWhen` | src/risk/saturation_risk.cpp:8-23 | n steps with all six loads at or below theta end in STABLE from every reachable state iff theta + (1 - theta) 0.82^n <= 0.30, for every theta in [0,1] |
| `RiskDeadlines.RecoveryTakesExactlySeven` | src/risk/system_state.cpp:14-42 | the limit theta = 0: enough iff n >= 7 |
| `RiskDeadlines.DescendsAtLeast` | src/risk/saturation_risk.cpp:15-24 | over such steps both filters stay below their bound and the level keeps up with it |
| `Pipeline.StageIsFilter` | src/core/agent.cpp:214-229 | in every run each of the eight stages is the filter of its own alpha applied to its own raw scores |
| `Pipeline.PublishedIsConvexCombination` | src/core/agent.cpp:214-229 | what each stage publishes is the convex combination of its raw scores, in [0,1], and the final clamp never changes it |
| `Pipeline.ClockFollowsReadings` | src/derived/latency_jitter.cpp:35-36 | the jitter ring of a run is the ring of exactly that run's timestamps |
| `Pipeline.RiskStagesFollowLoads` | src/core/agent.cpp:224-229 | inside every run the risk stages take exactly the steps `RiskDeadlines` is about, on the loads that run publishes |
| `Pipeline.StatesFollowRisks` | src/risk/system_state.cpp:11-45 | the published states are the level machine run on the published risks |
| `Pipeline.PublishedStateRarelyTurns` | src/risk/system_state.cpp:14-42 | in every run of the whole pipeline, 0.10 times the number of turns of the published state is at most the total variation of the published risk |
| `PipelineDeadlines.CalmEndsStable` | src/core/agent.cpp:214-229 | n ticks at the end of any run whose signals score at most theta, interrupts against the run's own baseline, the last m of them with a temporal term of at most tau, end in STABLE once theta + (1 - theta) Lag(n) and 0.33 tau + 0.67 theta + (1 - min(theta, tau)) ShortLag(m) are at most 0.30 |
| `PipelineDeadlines.ReadingsEndCalm` | src/derived/scheduler_pressure.cpp:23-29 | readings that score at most theta against a baseline of one do so in every run |
| `PipelineDeadlines.IdleEndsCalm` | src/derived/scheduler_pressure.cpp:14-31 | a tick scores nothing iff all its signals rest and its interrupt rate is at most 0.5 above the baseline of the run |
| `PipelineDeadlines.SteadyRestEndsIdle` | src/derived/scheduler_pressure.cpp:14-31 | resting ticks are idle at any steady interrupt rate that has lasted until 0.9^n of its excess over one is at most 0.5 |
| `PipelineDeadlines.NineteenIdleTicksEndStable` | src/core/agent.cpp:214-229 | nineteen or more idle ticks whose distances differ by at most a fifth of the shortest bring every history back to STABLE |
| `PipelineDeadlines.LoadEndsCritical` | src/core/agent.cpp:214-229 | n ticks whose scores, interrupts against the run's own baseline, keep their floors, at the end of any run, end in CRITICAL once the weighted floor times 1 - Lag(n) reaches 0.88 |
| `ExactDeadlines.RunMoves` | src/core/agent.cpp:214-229 | in every run a tick takes all eight filters and the level one unclamped linear move, a function of their values and of what the tick's signals score; the first tick primes them |
| `ExactDeadlines.MoveMonotone` | src/core/agent.cpp:214-229 | that move is monotone in the filters, the level and the scores |
| `ExactDeadlines.RunIsAbove` | src/core/agent.cpp:214-229 | whatever the history, a run ends at least where lower bounds on its last scores lead from nothing |
| `ExactDeadlines.RunIsBelow` | src/core/agent.cpp:214-229 | and at most where upper bounds on them lead from the worst state |
| `ExactDeadlines.RecoveryTakesExactlyEleven` | src/core/agent.cpp:214-229 | n idle ticks on an even clock end in STABLE after every history iff n is at least eleven |
| `ExactDeadlines.EscalationTakesExactlyTwentyOne` | src/core/agent.cpp:214-229 | n busy ticks end in CRITICAL after every history, on any clock, iff n is at least twenty-one |
| `PipelineDeadlines.FadesInClosedForm` | src/risk/saturation_risk.cpp:17-23 | the bounds used for the saturation risk are the closed expressions in 0.80^n and 0.82^n |
| `PipelineDeadlines.WanesInClosedForm` | src/risk/realtime_risk.cpp:15-21 | and those used for the realtime risk the ones in 0.80^n and 0.65^n |
| `PipelineDeadlines.SpacingBoundsJitter` | src/derived/latency_jitter.cpp:10-32 | nine timestamps at distances between lo and hi leave a temporal term of at most 2 (hi - lo) / lo, whatever the ring held before |
| `PipelineDeadlines.EvenSpacingIsNoJitter` | src/derived/latency_jitter.cpp:10-32 | nine evenly spaced timestamps leave a ring whose temporal term is zero, whatever it held before |
| `PipelineOrder.TickPreservesOrder` | src/core/agent.cpp:214-229 | worse stages with a baseline no higher, fed a worse reading, publish worse values, and stay comparable while the baseline stays no higher |
| `PipelineOrder.WorseTraceNeverLooksBetter` | src/core/agent.cpp:214-229 | a trace at least as loaded at every tick, whose interrupts add at least as much, never publishes a smaller pressure, a smaller risk or a better state, at any tick |
| `PipelineOrder.OrderedExactlyWhenBurstsAre` | src/derived/scheduler_pressure.cpp:14-36 | for two interrupt histories that holds under all worse loads iff at every tick the second adds at least as much to the scheduler filter |
| `PipelineOrder.SchedulerIsSum` | src/derived/scheduler_pressure.cpp:27-34 | in every run the scheduler filter is the filter of the other signals plus 0.15 times the filter of the bursts, and the baseline is a function of the rates alone |
| `PipelineOrder.BurstByBurst` | src/derived/scheduler_pressure.cpp:23-29 | histories in which every burst is at least as high as the other's are ordered that way |
| `PipelineOrder.HigherRatesOnEqualBaselines` | src/derived/scheduler_pressure.cpp:17-25 | so are higher rates as long as both histories have the same baselines |
| `PipelineOrder.SilentExactlyFrom` | src/derived/scheduler_pressure.cpp:14-25 | a rate scores nothing after k ticks at it, whatever came before, iff 0.9^k of its excess over one is at most 0.5 |
| `PipelineOrder.EqualRatesButLast` | src/derived/scheduler_pressure.cpp:17-25 | so are equal rates on all ticks but the last, where the second may be higher |
| `PipelineOrder.QuietRates` | src/derived/scheduler_pressure.cpp:24-25 | so is every history after one whose rates stay at or below 1.5, since such rates never score |
| `PipelineOrder.MoreInterruptsCanLookBetter` | src/derived/scheduler_pressure.cpp:17-25 | two concrete traces show that monotonicity in earlier interrupt rates fails |
| `Softirqs.ScanChunks` | src/sensors/softirqs.cpp:30-93 | for every sequence of reads the automaton returns the specified total of the delivered bytes, and whether there were any |
| `Softirqs.ScanFile` | src/sensors/softirqs.cpp:44-93 | the byte automaton computes, modulo 2^64, the sum over lines of the saturated values of the digit runs after the first colon |
| `Softirqs.AppendDigitSaturates` | src/sensors/softirqs.cpp:66-75 | saturating digit by digit equals saturating the whole numeral |
| `Softirqs.DeliveredConcatenates` | src/sensors/softirqs.cpp:38-45 | the delivered bytes are the concatenation of the reads, so where they are cut never matters |
| `Softirqs.SoftirqsSensor.Sample` | src/sensors/softirqs.cpp:19-130 | success, state and published score of one sample, including all failure paths |
| `Softirqs.BurstThresholds` | src/sensors/softirqs.cpp:108-128 | the score is 0 iff the growth is at most 12/7 of the baseline, 1 iff it is at least 16 times the baseline, and 0 on a counter reset |
| `Softirqs.BurstRunInUnit` | src/sensors/softirqs.cpp:100-129 | over every run the score stays in [0,1] and the baseline never goes negative |
| `Softirqs.SteadyRateIsSilent` | src/sensors/softirqs.cpp:100-129 | counters that always grow by the same amount never score |
| `SoftirqBaseline.BaselineIsFilter` | src/sensors/softirqs.cpp:100-119 | in every run, resets and idle stretches included, the baseline is the filter with alpha 0.2 of the growths from the first increase on |
| `SoftirqBaseline.BaselineFollowsRate` | src/sensors/softirqs.cpp:118-119 | n samples at a new rate d leave a baseline b at d + (b - d) 0.8^n |
| `SoftirqBaseline.ChangeFallsSilentExactly` | src/sensors/softirqs.cpp:108-129 | the n-th sample of a lasting change of rate from b to d is silent iff 12 (d - b) 0.8^(n-1) is at most 5 d, saturates iff 16 (d - b) 0.8^(n-1) reaches 15 d, and else scores the rate over the baseline that has moved with it |
| `SoftirqBaseline.FirstRateIsNormal` | src/sensors/softirqs.cpp:112-116 | the first rate after no growth at all never scores |
| `SoftirqSnapshot.ReaderUndoesPrinter` | tests/sensors_unit_tests.cpp:298-322 | reading a printed snapshot of any rows yields exactly the printed counters in order; the CPU header contributes nothing |
| `SoftirqSnapshot.SnapshotRoundTrip` | tests/sensors_unit_tests.cpp:298-322 | for the printer of the tests the total is the sum of all counters modulo 2^64 |
| `CpuSensor.CpuSensor.Sample` | src/sensors/cpu.cpp:19-90 | success, counters and published percentage of one sample, from the text of the first line |
| `CpuSensor.ParseLine` | src/sensors/cpu.cpp:36-61 | the loop over the ten values computes the specified fields, stops at the end of the line, and fails on the prefix or on a numeral that is none |
| `CpuSensor.ReaderUndoesKernel` | tests/sensors_unit_tests.cpp:63-73 | reading a printed line of any numbers gives back its first ten, with zeros for missing columns |
| `CpuSensor.UtilisationIsPercentage` | src/sensors/cpu.cpp:75-88 | for arbitrary counters, including resets and wrap-around, the value is in [0,100] |
| `CpuSensor.UtilisationExactly` | src/sensors/cpu.cpp:63-88 | the percentage between any two reads: zero when no time or no busy time passed, a hundred when idle time stood still or stepped back, and else the busy share |
| `CpuSensor.OneFieldGrows` | src/sensors/cpu.cpp:63-65 | fields 3 and 4 are idle time, 8 and 9 do not count, and the other six are busy time |
| `CpuSensor.RunUtilisation` | src/sensors/cpu.cpp:67-79 | in a run the percentage is that against the last read that succeeded, and zero at the first |
| `CpuSensor.NumeralsAreRead` | src/sensors/cpu.cpp:52-58 | a numeral is read iff it fits 64 bits, with a plus as without, with a minus negated modulo 2^64 |
| `CpuSensor.BadColumnSpoils` | src/sensors/cpu.cpp:55-58 | a column that is no number spoils the line, wherever among the first ten it stands |
| `CpuSensor.SingleProcessorIsNone` | src/sensors/cpu.cpp:37-40 | the line of a single processor is not taken for the aggregate one |
| `CpuSensor.NoNumeral` | src/sensors/cpu.cpp:55-58 | text that does not begin with a number is rejected |
| `CpuSensor.BusyTimeIsConserved` | src/sensors/cpu.cpp:63-89 | over nondecreasing counters with failed reads anywhere, the credited busy ticks are the non-idle time between the first and the last successful read |
| `CpuSensor.UtilisationCarriesCredit` | src/sensors/cpu.cpp:86-88 | the published value times the elapsed ticks is 100 times the credited ticks |
| `TegraStats.TegraStatsSensor.ParseBufferedLines` | src/sensors/tegrastats.cpp:84-95 | the inner loop hands over exactly the complete lines of the buffer, in order, stops at an exception, terminates, and says whether one of them was recognised |
| `TegraStats.TegraStatsSensor.Sample` | src/sensors/tegrastats.cpp:72-137 | keeps the invariant that the lines handed over are the newline-split of all bytes read and the buffer is the tail; when it succeeds, which eight fields it publishes, and that a success disables it iff the child has exited and no line of this call was recognised |
| `TegraStats.TegraStatsSensor.ParseLine` | src/sensors/tegrastats.cpp:87-92 | one line updates the parsed fields and joins the lines handed over; an exception is reported |
| `TegraStats.TegraStatsSensor.WriteFields` | src/sensors/tegrastats.cpp:119-135 | the eight frame fields; a temperature or power not reported keeps its value |
| `TegraStats.CopiesAgree` | src/sensors/tegrastats.cpp:119-135 | the two copies of each signal agree, a signal not reported keeps both, and no other signal changes |
| `TegraStats.ParseAllAppend` | src/sensors/tegrastats.cpp:81-97 | lines parsed in two lots give the fields, the recognition and the exception of one lot |
| `TegraStats.FramingIgnoresChunks` | src/sensors/tegrastats.cpp:80-97 | any two ways of cutting the same bytes hand over the same lines and leave the same tail |
| `Text.SpacesByCode` | src/core/config.cpp:14-21 | what is trimmed: the blank and the control characters from tab to carriage return |
| `Text.SplitUnlines` | src/sensors/tegrastats.cpp:84-95 | splitting undoes joining |
| `Text.UnlinesSplit` | src/sensors/tegrastats.cpp:84-95 | joining undoes splitting, so the split is unique |
| `Config.LoadAgentConfig` | src/core/config.cpp:124-184 | the line loop computes the specified result, including every error, and the calls of `apply_key_value` it makes are exactly the recorded ones up to the first that fails |
| `Config.ProcessLine` | src/core/config.cpp:134-181 | one line takes the step its classification calls for and makes the one call a setting asks for, or none |
| `Config.LoadMakesRecordedCalls` | src/core/config.cpp:132-181 | for any lines, loading is making the recorded calls in order: same failure, configuration and open sections |
| `Config.FullKey` | src/core/config.cpp:172-178 | the key loop joins the open, non-empty section names with dots |
| `Config.LastSettingWins` | src/core/config.cpp:73-119 | the health switch, the debug switch and every sensor end up as their last setting says, whatever else is set |
| `Config.LoadedConfigIsInRange` | src/core/config.cpp:36-120 | every file that loads gives a tick interval of 1 to 1000 ms, a positive warning window, a port of at most 65535, and no host beside a socket |
| `ConfigValues.LoadsExactly` | src/core/config.cpp:36-120 | a file loads iff no header is too deep and every recorded setting is acceptable: rate 1 to 1000, a temperature, a positive window, an index not below 0, a port 1 to 65535 |
| `ConfigValues.FirstRejectedDecides` | src/core/config.cpp:36-120 | the first setting that is not acceptable ends the loading, as no number or as out of range |
| `ConfigValues.LastNumberWins` | src/core/config.cpp:37-71 | interval, throttle temperature, window and device end up as their last setting says: the interval is the whole number of milliseconds with interval times rate at most 1000 and one more exceeding it |
| `ConfigValues.KeepsUpOnce` | src/core/config.cpp:47 | only one interval does that |
| `ConfigValues.LastPortWins` | src/core/config.cpp:83-114 | the port is the number in the last address that names one, 0 after a socket, and an address switches Redis on |
| `ConfigValues.OnWords` | src/core/config.cpp:23-34 | true, yes, on and 1 switch on, in any case of their letters, and nothing else does |
| `ConfigValues.NothingSet` | include/core/config.hpp:10-26 | a file without settings gives ten ticks a second, 85 and 30 degrees, every sensor, and no Redis |
| `Deployment.LoadingIsApplying` | src/core/config.cpp:124-180 | a file that loads gives what its recorded settings leave of the defaults |
| `Deployment.RateReachesAgent` | src/core/config.cpp:37-49 | with a tick rate in its file the agent wakes up at least that often, and one more millisecond per tick would not do |
| `Deployment.SwitchReachesAgent` | src/core/agent.cpp:171-194 | the last setting of a sensor's switch decides whether the sensor is ever sampled and whether its metrics are published |
| `Deployment.WindowReachesAgent` | src/core/agent.cpp:94-99 | the window in the file is the one the thermal stage uses |
| `Deployment.AddressReachesAgent` | src/core/agent.cpp:100-107 | the agent dials the socket, or the host and port, of the last address, with a timeout of one second |
| `Config.LastNewlineDoesNotMatter` | src/core/config.cpp:134-136 | a last line without a newline counts like any other |
| `Config.PortZeroExactly` | src/core/config.cpp:83-112 | a file that loads gives a host with port 0 iff its last address that names a socket or a port names a socket and its last address is a bare host |
| `Config.LastAddressWins` | src/core/config.cpp:83-112 | host and socket end up as the last address says, and the port is 0 iff the last address that is more than a bare host names a socket |
| `ConfigTree.BareHostKeepsPortZero` | src/core/config.cpp:92-103 | a file of two addresses does it |
| `ConfigTree.TextAsksForLeaves` | src/core/config.cpp:132-181 | the text of any well-formed section tree, with blank lines, comment lines, padding and trailing comments before, behind and after its lines, asks for one call per leaf, in order, under its dotted path, and for no other |
| `ConfigTree.LoadFlattensTree` | src/core/config.cpp:132-181 | loading that text makes exactly those calls, up to the first that fails, and gives what they leave |
| `ConfigTree.DecorationsDoNotMatter` | src/core/config.cpp:135-142 | blank lines and comment lines anywhere, also at the end, and padding and trailing comments never change the calls, for any lines at all |
| `ConfigTree.DecoratedLoadsSame` | src/core/config.cpp:135-142 | so they never change what loading gives or which calls it makes |
| `ConfigTree.ForestAsks` | src/core/config.cpp:144-180 | rendered sections at any depth ask for exactly their leaves, in order, and keep the enclosing sections open |
| `ConfigTree.OddSpaceDoesNotMatter` | src/core/config.cpp:144-148 | one space more than two for each section changes nothing |
| `ConfigTree.TooDeepExactly` | src/core/config.cpp:159-169 | loading leaves the section stack iff some header is indented deeper than the sections then open and every setting before the first such header is accepted |
| `ConfigTree.IndentedHeaderIsTooDeep` | src/core/config.cpp:164-168 | a file of one indented header does it |
| `RedisMetrics.EnabledRedisMetrics` | src/core/agent.cpp:22-90 | the vector that is built is the candidates in the agent's order, filtered by the switches |
| `RedisMetrics.EnabledMetricsExactly` | src/core/agent.cpp:22-90 | a metric is in it iff its source is switched on, and only once |
| `RedisMetrics.SwitchesDecide` | src/core/agent.cpp:22-90 | pressures and risks are always enabled, health with its switch, and every other metric with the sensor it belongs to, sensor by sensor |
| `Sensors.SensorNamesAreRead` | src/core/agent.cpp:171-186 | each switch name belongs to one sensor |
| `RedisMetrics.SuffixInjective` | src/sinks/redis_ts.cpp:36-76 | the 36 metric names are distinct |
| `RedisPayload.ArgsAt` | src/sinks/redis_ts.cpp:29-34 | each metric contributes key, timestamp and value, with one timestamp for the whole command |
| `PayloadReader.PayloadLookup` | src/sinks/redis_ts.cpp:234-287 | under the key of a metric a payload has the timestamp and the value of that metric iff it is written |
| `PayloadReader.AgentPayloadLookup` | src/core/agent.cpp:100-107 | in a payload of the agent the key `edge:node:` plus name is there iff the configuration enables the metric |
| `PayloadReader.FrameIsRead` | src/sinks/redis_ts.cpp:249-287 | the 36 values determine the frame: each field is read back from its own metric |
| `PayloadReader.SubscriberReadsFrame` | src/sinks/redis_ts.cpp:234-287 | when all metrics are written, looking up each by name and reading its number gives back the frame that was published |
| `PayloadReader.NoNamesMeanAll` | src/sinks/redis_ts.cpp:80-84 | options that name no metric write all of them, health with its switch |
| `RedisPayload.PayloadFits` | src/sinks/redis_ts.cpp:310-314 | for any options the command has 1 + 3k arguments, never more than the reserved 109, for k distinct metrics |
| `RedisPayload.KeysAgreeExactly` | src/sinks/redis_ts.cpp:188-191 | for any options the keys created are the keys written iff every enabled name is known and no health metric is enabled while health is off |
| `RedisPayload.AgentSchemaMatchesPayload` | src/core/agent.cpp:100-107 | for every agent configuration the keys created are exactly the keys written, each once, and the command has 1 + 3k arguments |
| `RedisSession.CreationMeaning` | src/sinks/redis_ts.cpp:196-213 | which replies to TS.CREATE count as created and which as a missing module, in terms of the words in the reply |
| `RedisSession.EveryRunIsSafe` | src/sinks/redis_ts.cpp:101-232 | for every server, every reachable session satisfies the invariant: connects use the configured address and timeout, each TS.MADD on an open connection with exactly the enabled keys created, and the two latches exclude each other |
| `RedisSession.TimeoutIsExact` | src/sinks/redis_ts.cpp:115-117 | splitting the connect timeout into seconds and microseconds loses nothing |
| `RedisSession.EveryMaddIsPrepared` | src/sinks/redis_ts.cpp:112-217 | in terms of the log: each TS.MADD follows a successful connect to the configured address with none in between, its accepted AUTH and SELECT where configured, and a successful TS.CREATE of every enabled key |
| `RedisSession.SilentAfterUnknown` | src/sinks/redis_ts.cpp:198-208 | after an "unknown command" answer to TS.CREATE nothing is ever connected or sent again |
| `RedisSession.UnavailableIffUnknown` | src/sinks/redis_ts.cpp:204-208 | the unavailability latch is set iff such an answer was received |
| `RedisSession.PublishCounts` | src/sinks/redis_ts.cpp:219-232 | one publish makes at most two connects and two TS.MADDs, repeats no TS.CREATE once the schema is ready, and reports success iff its last command was an accepted TS.MADD |
| `RedisRetry.ReconnectsExactly` | src/sinks/redis_ts.cpp:112-217 | a reconnect succeeds iff the connect, the configured AUTH and SELECT and every missing TS.CREATE are answered well, and leaves exactly those events; otherwise its last event is the refused one |
| `RedisRetry.PublishesExactly` | src/sinks/redis_ts.cpp:219-232 | a publish succeeds iff it reaches the server and the first TS.MADD is accepted, or a fresh handshake and a second TS.MADD of the same frame are; its whole log, the frame and the kept connection in each case |
| `RedisRetry.RefusedMaddIsRetried` | src/sinks/redis_ts.cpp:224-231 | after a first TS.MADD that is not accepted the next event is a connect, and if handshake and second TS.MADD are accepted the publish succeeds |
| `RedisRetry.FailuresEndSo` | src/sinks/redis_ts.cpp:219-232 | a publish that fails on an available session ends in a refused handshake step or after exactly two refused TS.MADDs |
| `RedisRetry.StumblesLoseNothing` | src/sinks/redis_ts.cpp:101-232 | when each faulty answer is followed by a clean stretch as long as one recovery, every publish after the first operation succeeds |
| `RedisSink.RedisTsSink.EnsureSchema` | src/sinks/redis_ts.cpp:183-217 | the TS.CREATE loop takes the specified steps for every script of answers |
| `RedisSink.RedisTsSink.Reconnect` | src/sinks/redis_ts.cpp:112-150 | connect to the socket path if there is one and to host and port otherwise, with the configured timeout, then AUTH, SELECT and schema in order, dropping the context on any failure |
| `RedisSink.RedisTsSink.EnsureConnected` | src/sinks/redis_ts.cpp:101-110 | nothing when unavailable, the kept context when it has no error, a reconnect otherwise |
| `RedisSink.RedisTsSink.AppendMetric` | src/sinks/redis_ts.cpp:242-247 | appending one metric extends the buffer to the specified prefix of the command |
| `RedisSink.RedisTsSink.PublishImpl` | src/sinks/redis_ts.cpp:234-308 | the command sent is the specified payload within the reserved size, and only the latency field of the frame changes |
| `RedisSink.RedisTsSink.MirrorArgs` | src/sinks/redis_ts.cpp:289-292 | the mirrored arguments are the arguments, each with its length |
| `RedisSink.RedisTsSink.Publish` | src/sinks/redis_ts.cpp:219-232 | one attempt, then one reconnect and one more attempt |
| `TickLoop.WakeupsDoNotDrift` | src/core/agent.cpp:140-166 | after k cycles the next wake-up is exactly start + k tick intervals |
| `TickLoop.RunsCompose` | src/core/agent.cpp:137-169 | running m ticks and then n ends in the same state as running m + n, and the statistics add up |
| `TickLoop.MainLoopIsOneRun` | src/main.cpp:56-58 | the program's one-tick-at-a-time loop is one long run |
| `TickLoop.SampledCeilTimes` | src/core/agent.cpp:171-212 | in the first n ticks an enabled sensor of period p is sampled ceil(n/p) times and a disabled one never |
| `TickLoop.SampledExactlyWhenDue` | src/core/agent.cpp:201-211 | a sensor is sampled in cycle t iff it is enabled and its period divides t |
| `TickLoop.LogIsSchedule` | src/core/agent.cpp:196-212 | the dispatch log of every run, completely: entry (t, s) is in it iff t was run, s is enabled and its period divides t; ordered by tick and, within a tick, by registration |
| `TickLoop.SamplesOnePeriodApart` | src/core/sampler.cpp:7-12 | in that log consecutive entries of one sensor are exactly one of its periods apart |
| `TickLoop.AllCoincideEvery27720` | src/core/agent.cpp:171-186 | all twelve periods divide a tick iff 27720 does |
| `TickLoop.FailuresBounded` | src/core/agent.cpp:199-211 | the failures reported by a tick never exceed the sensors sampled in it |
| `TickLoop.SampledTogether` | src/core/agent.cpp:171-186 | how often each sensor has been sampled after 27720 ticks, from 27720 times for psi to 2310 for gpu |
| `TickAccounts.FailuresExact` | src/core/agent.cpp:199-211 | the failures a tick reports are exactly the enabled due sensors that report failure |
| `TickAccounts.SensorsWriteInTurn` | src/core/agent.cpp:201-211 | each due sensor works on what the ones before it left and passes on what it leaves, failed or not |
| `TickAccounts.ErrorsAreThisTicks` | src/core/agent.cpp:233-251 | after every cycle the errors are one iff the frame of that cycle was not accepted, else zero |
| `TickAccounts.NoTickIsLost` | src/core/agent.cpp:239-251 | with a server that only stumbles every cycle gets its frame through and no error is ever reported |
| `TickAccounts.MissedCyclesCounted` | src/core/agent.cpp:264-266 | the 32-bit counter is the number of cycles so far that took longer than the interval, modulo 2^32 |
| `TickAccounts.TimesAreExact` | src/core/agent.cpp:153-159 | compute time and loop jitter of the last cycle to the nanosecond; the first cycle reports the whole interval as jitter |
| `TickAccounts.SilentHealth` | src/core/agent.cpp:254-257 | with health off those fields stay zero for good |
| `TickAccounts.HealthIsLastCycles` | src/core/agent.cpp:145-158 | what is published about the agent is one cycle old, but for the sensor failures |
| `TickLoop.RegistryIsWellFormed` | src/core/agent.cpp:171-194 | each sensor is registered once, with its period, under its own switch |
| `TickLoop.AgentRunsPipeline` | src/core/agent.cpp:145-151 | every run of the agent is a run of the pressure and risk pipeline on the readings of its ticks, down to what reaches the sinks |
| `TickLoop.WorseAgentNeverLooksBetter` | src/core/agent.cpp:145-151 | of two agents, one at least as loaded at every tick with interrupts that add at least as much, that one never hands better values to its sinks |
| `TickLoop.AgentMeetsDeadlines` | src/core/agent.cpp:145-151 | both end-to-end deadlines hold of what the agent hands to its sinks, for every load strength, every jitter bound, all floors and every history |
| `TickLoop.AgentFollowsLoad` | src/core/agent.cpp:145-151 | nineteen idle ticks on a clock that keeps within a fifth and eleven on an even one hand over STABLE, twenty-one busy ones CRITICAL |
| `TickLoop.AgentPrintsWhatItPublishes` | src/core/agent.cpp:231-237 | the debug sink, when it is on, is handed exactly the frames the other sink is handed, one a cycle |
| `TickLoop.AgentRarelyFlaps` | src/core/agent.cpp:145-151 | the state the agent hands over turns only when the risk it publishes has swung by 0.10 |
| `TickLoop.AgentRunsSession` | src/core/agent.cpp:231-252 | every run of the agent is a run of the session protocol: the connectivity check, then one publish a cycle |
| `TickLoop.AgentPublishesWhatItCreated` | src/core/agent.cpp:100-107 | for every configuration, world and server: at each TS.MADD of the agent the created keys are exactly the written ones, on an open connection, within the reserved buffer |
| `Agent.Agent.CollectSensors` | src/core/agent.cpp:196-212 | the registry loop dispatches exactly the enabled and due sensors, in order, and counts failures |
| `Agent.Agent.ComputeDerived` | src/core/agent.cpp:214-222 | the six pressure stages run in their fixed order |
| `Agent.Agent.ComputeRisk` | src/core/agent.cpp:224-229 | both risks and then the state are computed from this tick's pressures |
| `Agent.Agent.PublishToSinks` | src/core/agent.cpp:231-252 | the debug sink if it is on, then one publish, its failure counted and remembered |
| `Agent.Agent.UpdateAgentHealth` | src/core/agent.cpp:254-267 | the health fields after a cycle, or nothing when health is off |
| `Agent.Agent.RunCycle` | src/core/agent.cpp:145-166 | one loop pass is one cycle of the model |
| `Agent.Agent.RunForTicks` | src/core/agent.cpp:137-169 | n passes are a run of n cycles and every statistic is n; with zero ticks, after any number of passes of the endless run |
| `Agent.Agent.constructor` | src/core/agent.cpp:94-122 | a new agent has fresh stages and has tried once to connect its sink |
| `Agent.RegisterSensors` | src/core/agent.cpp:171-186 | the pushes build the registry the loop is proved about |
| `Agent.NewAgent` | src/core/agent.cpp:94-135 | an agent built from a configuration has the options, the registry and the state the results about runs start from |

## Left out

- Agent.Agent.RunForTicks: a run of zero ticks never returns in the source; the method describes it up to any number of passes.
- TickLoop.SampledCeilTimes: stops at 2^64 ticks, where the sampler's counter wraps and periods that are no power of two shift.
- PayloadReader.SubscriberReadsFrame: asks for a number format that loses nothing; for any other one `PayloadReader.PayloadLookup` gives the text under each key.
- TickLoop.WakeupsDoNotDrift: time points are unbounded integers; sleeping itself is not modelled.
- PipelineOrder.WorseTraceNeverLooksBetter: asks that the interrupts add at least as much to the scheduler filter, because the property is false exactly otherwise (`PipelineOrder.OrderedExactlyWhenBurstsAre`).
- PipelineDeadlines.NineteenIdleTicksEndStable: nineteen ticks are enough on a clock that varies by a fifth; the least number is proved for an even clock (`ExactDeadlines.RecoveryTakesExactlyEleven`).
- ExactDeadlines.EscalationTakesExactlyTwentyOne: needs readings that sit on their limits, with an exponential of exactly 0.1 there, to show that twenty ticks fail; twenty-one are enough without them.
- LatencyJitter.RelativeDeviationBound: is about windows whose sum fits 64 bits, which `LatencyJitter.WindowSumNeverWraps` shows for every clock that never steps back.
- CpuSensor.BusyTimeIsConserved: is about counters whose sums fit 64 bits and do not decrease; the percentage bound needs neither.
- Config.LoadAgentConfig: on a header indented deeper than the open sections the source indexes past its vector; the model returns `HeaderTooDeep` there, and `ConfigTree.TooDeepExactly` says for which files.
- TegraStats.TegraStatsSensor.Sample: the regular expressions of `parse_line`, the child process and the pipe are parameters.
- RedisSession.EveryRunIsSafe: the wording of other error replies plays no part.
- RedisSink.RedisTsSink.PublishImpl: values are reals, so `sanitize_value`, which replaces non-finite ones by zero, is the identity.
- Agent.Agent.PublishToSinks: the text the debug sink prints and the two log messages.
- CpuSensor.CpuSensor.Sample: opening, rewinding and reading the file are one optional line of text.
- Floating-point rounding, NaN and infinity.
- The number parsers `stoi`, `stoll` and `stof` of the configuration: parameters.
- PSI, interrupts, memory, thermal, disk, network, cpufreq, throttle and NVML sensors: one read and one ratio each; in the loop they are arbitrary functions.
- Logging and signal handling.
- The MCP server and the terminal UI under `tools`.
