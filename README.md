# Stepping scheduler and logs of the Parcels benchmark particle sets

This project is a Dafny model of `ParticleSet_Benchmark.execute` as it appears in two particle sets of the Parcels
benchmark code:

- `parcels/particleset_vectorized_benchmark.py`
- `parcels/particleset_node_benchmark.py`

It also models the two small logging classes of the node set, `ParticleSet_TimingLog` and
`ParticleSet_ParamLogging`.

`execute` advects a particle set from a start time to an end time, as follows.

1. It checks its time arguments.
2. It fills in missing particle times.
3. It derives the start and end time from the particles, `runtime`/`endtime` and the sign of `dt`.
4. It switches to "execute once" mode when there is nothing to step.
5. It starts five independent recurring timers:
   - particle release (`repeatdt`);
   - field input (`computeTimeChunk`);
   - output (`outputdt`);
   - movie (`moviedt`);
   - callback (`callbackdt`, which defaults to the smallest of the others).
6. It loops. Each pass stops at the earliest (forward run) or latest (backward run) of the timers and the end time.
   Then the pass:
   - runs the kernel up to that stop;
   - releases particles when the release timer is due;
   - logs the particle count;
   - writes output, shows a movie frame or calls back when those timers are due;
   - moves every timer that fired on by one signed period;
   - re-reads the field unless the stop is the end time;
   - advances the timing and memory logs, except on the single pass of execute-once mode, which ends in a `break`.

The model is layered as follows.

- `ExtTime`: times extended with ±∞ (`np.infty`). The run direction follows the loop's own test: `dt > 0` runs
  forward, and any other `dt` runs backward.
- `Schedule`: the state of the loop, the next-stop rule, one pass (`Step`) and the whole run (`Run`) as functions.
- `ScheduleProperties`: what a whole run promises:
  - stops ordered and never past the end time;
  - the last stop exactly at the end time;
  - each periodic timer firing at exactly the points of its arithmetic progression.
- `Setup`: the argument checks, the plan (start, end, `dt`, execute-once mode), the periods and the first timer
  values, including the first release formula.
- `Passes`: what the passes do to the particles and the logs, as functions of the run.
- `Launching`: the part common to both sets once the start time is known.
- `VectorizedBenchmark` and `NodeBenchmark`: each set as a class whose `Execute` method runs an imperative `while`
  loop. That method is proved equal to the functional specification (`ExecuteSpec`, `NodeExecuteSpec`).
- `NodeLogging`: the two log classes of the node set.

Collaborators the model cannot see are parameters:

- `computeTimeChunk` is a `ChunkOracle`. A stepping run assumes it answers strictly past the time it is asked about
  (`ChunkAdvances`).
- The kernel is a `Kernel` function on the particle list.
- Clock readings are a `Clock` indexed by the loop time and the probe.
- The resident memory size is an `Rss` function.
- The MPI rank is a constructor argument of the timing log.

Times and periods are integers, and the tolerances (`1e-12`, `1e-5`) are exact equality.

The warning that execute-once mode prints says the kernels run "once, without incrementing time"
(parcels/particleset_vectorized_benchmark.py:172-173). The model follows the code rather than the warning. The single
pass stops at the maximum of the timers and the start time, because `dt == 0` is not `dt > 0`. So it can stop at a
later next release or field input time. `Setup.OnceStop` states this.

## Model

| member | source | states |
|---|---|---|
| `ExtTime.Min` | parcels/particleset_vectorized_benchmark.py:230 | the minimum of two extended times is one of them and at most both |
| `ExtTime.Max` | parcels/particleset_vectorized_benchmark.py:232 | the maximum of two extended times is one of them and at least both |
| `ExtTime.Sign` | parcels/particleset_vectorized_benchmark.py:162 | `np.sign`: has the sign of its argument, is zero exactly for zero, lies in -1..1 |
| `Schedule.Continues` | parcels/particleset_vectorized_benchmark.py:216 | the loop goes on exactly when `dt` is zero or the time lies strictly before the end time in the run direction |
| `Schedule.NextStop` | parcels/particleset_vectorized_benchmark.py:229-232 | the stop is no later (forward) / no earlier (backward) than the end time and every timer, and is one of them |
| `Schedule.Step` | parcels/particleset_vectorized_benchmark.py:229-296 | one pass: the stop is `NextStop`; a timer fires iff it is finite, has a period and equals the stop; fired timers move by period·sign(dt), others keep their value; the input timer is re-queried iff the stop is not the end time |
| `Schedule.Fires` | parcels/particleset_vectorized_benchmark.py:269-291 | where only periodic timers are finite, a timer fires exactly when the stop hits its next time (the source's tolerance test) |
| `Schedule.Advance` | parcels/particleset_vectorized_benchmark.py:269-291 | a timer that did not fire keeps its value; a fired one stays at the stop when `dt` is zero, else with a positive period moves strictly past the stop in the run direction |
| `Schedule.Run` | parcels/particleset_vectorized_benchmark.py:216-298 | execute-once mode makes exactly one pass; a stepping run makes no pass iff the loop condition fails at the start |
| `Schedule.StepKeepsAhead` | parcels/particleset_vectorized_benchmark.py:229-296 | a stepping pass keeps every periodic timer strictly ahead, moves time strictly on, never past the end time, and decreases the distance left |
| `ScheduleProperties.RunStopsOrdered` | parcels/particleset_vectorized_benchmark.py:216-232 | the stops of a stepping run lie strictly past the start and strictly increase in the run direction |
| `ScheduleProperties.RunWithinEndtime` | parcels/particleset_vectorized_benchmark.py:229-232 | no stop overshoots the end time |
| `ScheduleProperties.RunEndsAtEndtime` | parcels/particleset_vectorized_benchmark.py:216-232 | a stepping run that enters the loop has a pass, and its last stop is exactly the end time |
| `ScheduleProperties.RunNeverFires` | parcels/particleset_vectorized_benchmark.py:196-200 | a timer without a period (`np.infty`) never fires, stepping or in execute-once mode |
| `ScheduleProperties.RunFiresOnProgression` | parcels/particleset_vectorized_benchmark.py:269-291 | at every stop of a run, a periodic timer fires iff the stop is on its progression from its next time |
| `ScheduleProperties.StepFiresOnProgression` | parcels/particleset_vectorized_benchmark.py:269-291 | in one pass a timer fires iff the stop is on its progression, and past the stop its moved-on value describes the same progression |
| `ScheduleProperties.RunVisitsEveryFiring` | parcels/particleset_vectorized_benchmark.py:269-291 | no firing is skipped: every progression point up to the end time is a stop at which the timer fires |
| `ScheduleProperties.FiredAt` | parcels/particleset_vectorized_benchmark.py:269-291 | the firing times of a timer are exactly the stops of passes on which it fired |
| `ScheduleProperties.FiringTimesAreProgression` | parcels/particleset_vectorized_benchmark.py:269-291 | over a whole run a timer fires at x iff x is on its progression and not past the end time |
| `ScheduleProperties.FiresPastStart` | parcels/particleset_vectorized_benchmark.py:269-291 | a timer started one period past `t0` fires over a run at exactly the progression points from `t0`, other than `t0`, up to the end time |
| `Setup.CheckArgsAsWritten` | parcels/particleset_vectorized_benchmark.py:142-144 | the assertions as written: accepted iff `runtime`, `outputdt` and `moviedt` are each absent or non-negative |
| `Setup.CheckArgs` | parcels/particleset_node_benchmark.py:208-210 | the corrected checks: accepted iff the as-written checks pass and `outputdt`, `moviedt`, `callbackdt` are absent or positive; refuses all that the as-written checks refuse |
| `Setup.Least` | parcels/particleset_vectorized_benchmark.py:158 | Python `min` of a non-empty list: an element, at most every element |
| `Setup.Greatest` | parcels/particleset_vectorized_benchmark.py:158 | Python `max` of a non-empty list: an element, at least every element |
| `Setup.EndTime` | parcels/particleset_vectorized_benchmark.py:161-165 | with `runtime`, the end lies `runtime` away from the start in the run direction (at the start when `dt` is zero); else the given end time; else the field's last time in the run direction |
| `Setup.MakePlan` | parcels/particleset_vectorized_benchmark.py:167-174 | execute-once mode holds exactly when the end time equals the start, `dt` is zero or `runtime` is zero, and then sets `dt` to 0 and the end time to the start; otherwise `dt` is the given nonzero one and the end time is `EndTime`, different from the start |
| `Setup.RuntimeSetsSpan` | parcels/particleset_vectorized_benchmark.py:161-162 | with `runtime`, a stepping run enters the loop and spans exactly `runtime` seconds |
| `Setup.MakePeriods` | parcels/particleset_vectorized_benchmark.py:186-200 | releases recur exactly when releasing and `repeatdt` is set and nonzero, every `repeatdt`; the output and movie periods are exactly `outputdt` and `moviedt` when given and none otherwise; the callback period is the given `callbackdt`, else `DefaultCallbackdt` of the movie, output and `repeatdt` periods |
| `Setup.DefaultCallbackdt` | parcels/particleset_vectorized_benchmark.py:186-192 | the default `callbackdt` is at most `moviedt`, `outputdt` and `repeatdt`, and is one of them or infinite |
| `Setup.AcceptedArgsGivePositivePeriods` | parcels/particleset_vectorized_benchmark.py:186-200 | arguments the corrected checks accept, with a positive `repeatdt`, give every timer a positive period |
| `Setup.FirstRelease` | parcels/particleset_vectorized_benchmark.py:194-195 | the first release lies strictly past the start in the run direction and a whole number of periods from `repeat_starttime`, and is the first such point when the start is not before it; with `dt == 0` it is `repeat_starttime` |
| `Setup.FirstTimers` | parcels/particleset_vectorized_benchmark.py:193-201 | the output, movie and callback timers start one period from the start in the run direction (`time ± xdt`), the release timer at `FirstRelease`, the input timer at the field's answer for `sign(dt)`; a timer without a period lies at the far end of the run direction |
| `Setup.FirstSchedStepping` | parcels/particleset_vectorized_benchmark.py:193-201 | a stepping plan starts in a state satisfying the loop invariant |
| `Setup.PlanRunnable` | parcels/particleset_vectorized_benchmark.py:167-201 | a plan is either execute-once mode with `dt == 0`, or steps from the loop invariant |
| `Setup.OnceStop` | parcels/particleset_vectorized_benchmark.py:229-232 | the single pass of execute-once mode stops at the maximum of the next release, the next input and the start |
| `Setup.FiresEveryPeriod` | parcels/particleset_vectorized_benchmark.py:198-291 | in a stepping run the output, movie and callback timers fire at exactly the points `start + k·xdt·sign(dt)`, k ≥ 1, not past the end time |
| `Setup.StallPersists` | parcels/particleset_vectorized_benchmark.py:269-275 | with a zero period, a due timer keeps the stop at the current time and the loop stays stalled |
| `Setup.ZeroOutputdtStalls` | parcels/particleset_vectorized_benchmark.py:143 | `outputdt = 0` passes the as-written assertions (the corrected checks refuse it), and the loop stalls at its start |
| `Passes.KnownTimes` | parcels/particleset_node_benchmark.py:232 | exactly the non-NaN particle times, no more entries than particles, and, when none is NaN, every particle's time in particle order |
| `Passes.Released` | parcels/particleset_node_benchmark.py:318-332 | a release adds exactly `count` particles at the stop with the run's timestep |
| `Passes.Tick` | parcels/particleset_vectorized_benchmark.py:269-291 | the source's test `abs(time - next_x) < tol` on one timer gives exactly the firing rule of a step (`Fires`), and the timer's new value is exactly its move (`Advance`) |
| `Passes.CountsLogEachPass` | parcels/particleset_vectorized_benchmark.py:267 | `nparticle_log` gains one entry per pass: the set's size after that pass's kernel and release |
| `Passes.AfterPass` | parcels/particleset_vectorized_benchmark.py:236-253 | a pass keeps the kernel's particles first and untouched, and a release pass appends exactly `count` particles after them, at the stop with timestep `dt`; no other pass adds any |
| `Passes.RunAt` | parcels/particleset_vectorized_benchmark.py:216-298 | pass k of a run is one `Step` from the state after k passes |
| `Passes.RunGoesOn` | parcels/particleset_vectorized_benchmark.py:216 | after k passes, the loop condition holds iff passes remain |
| `Passes.RunVisits` | parcels/particleset_vectorized_benchmark.py:216-298 | a run is what the loop body's passes are |
| `Passes.OnceLogsOnePass` | parcels/particleset_vectorized_benchmark.py:297-298 | execute-once mode logs one particle count (the size after the pass) and advances no timing log |
| `Passes.SteppingLogsEveryPass` | parcels/particleset_vectorized_benchmark.py:304-327 | a stepping run advances the timing logs once per logged count and ends at the end time; it changes nothing when the loop is not entered |
| `Launching.LaunchAt` | parcels/particleset_vectorized_benchmark.py:159-160 | the start becomes `repeat_starttime` iff `repeatdt` is set and it is unset; a release period only with `repeatdt` and releases enabled |
| `Launching.LaunchReady` | parcels/particleset_vectorized_benchmark.py:142-201 | accepted arguments and a positive `repeatdt` launch a runnable loop with positive periods |
| `Launching.Finish` | parcels/particleset_vectorized_benchmark.py:179-333 | the loop and the writes around it finish; with an output file the first write is at the start and the last at the loop's last time, without one nothing is written; a nonzero `moviedt` shows a frame at the start first |
| `Launching.FinishWritesEveryOutputdt` | parcels/particleset_vectorized_benchmark.py:181-182 | with an output file, output is written at the start, at the end, and between them at exactly the `outputdt` progression points |
| `Launching.FinishFramesEveryMoviedt` | parcels/particleset_vectorized_benchmark.py:183-281 | no frame without `moviedt`; with it, a frame at the start and then frames at exactly the `moviedt` progression points up to the end time |
| `Launching.FinishCallbacksEveryPeriod` | parcels/particleset_vectorized_benchmark.py:283-291 | the callbacks run at no pass without a callback period and otherwise at exactly the callback period's progression points up to the end time |
| `Launching.FinishLogsPasses` | parcels/particleset_vectorized_benchmark.py:297-327 | execute-once logs one count and no timing; stepping logs timings once per count and ends at the end time |
| `VectorizedBenchmark.Filled` | parcels/particleset_vectorized_benchmark.py:146-150 | NaN times take the field's first (dt ≥ 0) or last time; all other fields unchanged |
| `VectorizedBenchmark.WithDt` | parcels/particleset_vectorized_benchmark.py:177-178 | every particle's timestep becomes `dt`, times unchanged |
| `VectorizedBenchmark.StartOf` | parcels/particleset_vectorized_benchmark.py:158 | the start is a particle time, the earliest when dt ≥ 0, else the latest |
| `VectorizedBenchmark.ExecuteSpec` | parcels/particleset_vectorized_benchmark.py:138-333 | `execute` fails exactly when a check fails, `runtime` and `endtime` are both given, or the set is empty; the checks come first and leave the particles as they were; a failure logs nothing and leaves the repeat start time; a success leaves one set whenever `repeatdt` is set |
| `VectorizedBenchmark.ExecuteWritesEveryOutputdt` | parcels/particleset_vectorized_benchmark.py:269-275 | a successful `execute` with output writes at the start, at the `outputdt` points up to the end time, and at the end |
| `VectorizedBenchmark.ExecuteFramesAndCallbacks` | parcels/particleset_vectorized_benchmark.py:183-291 | a successful `execute` draws frames at the start and at the `moviedt` points up to the end time (none without `moviedt`), and runs the callbacks at exactly the points of the given or default callback period |
| `VectorizedBenchmark.ExecuteLogsPasses` | parcels/particleset_vectorized_benchmark.py:267-327 | `execute` logs one count in execute-once mode, else one timing advance per count, and ends at the end time |
| `VectorizedBenchmark.ParticleSetBenchmark.constructor` | parcels/particleset_vectorized_benchmark.py:75 | a set with empty logs and no repeat start time |
| `VectorizedBenchmark.ParticleSetBenchmark.FillMissingTimes` | parcels/particleset_vectorized_benchmark.py:147-150 | the in-place loop leaves `Filled` of the old particles |
| `VectorizedBenchmark.ParticleSetBenchmark.SetTimestep` | parcels/particleset_vectorized_benchmark.py:177-178 | the in-place loop leaves `WithDt` of the old particles |
| `VectorizedBenchmark.ParticleSetBenchmark.Pass` | parcels/particleset_vectorized_benchmark.py:229-296 | one loop body equals `Step` on the timers and `AfterPass` on the particles, and reports exactly the fired output, movie and callback timers |
| `VectorizedBenchmark.ParticleSetBenchmark.StepLoop` | parcels/particleset_vectorized_benchmark.py:216-327 | the `while` loop over the passes leaves the time, particles, counts, timing advances, outputs, frames and callbacks of `EffectOf` those passes |
| `VectorizedBenchmark.ParticleSetBenchmark.RunLoop` | parcels/particleset_vectorized_benchmark.py:216-327 | the loop leaves particles and logs as `LoopSpec` of the run gives them |
| `VectorizedBenchmark.ParticleSetBenchmark.Execute` | parcels/particleset_vectorized_benchmark.py:75-333 | `execute` returns and leaves particles, repeat start time and logs exactly as `ExecuteSpec` |
| `VectorizedBenchmark.ParticleSetBenchmark.Start` | parcels/particleset_vectorized_benchmark.py:158-333 | from the start time on, `execute` matches `Finish` of the launch |
| `VectorizedBenchmark.ParticleSetBenchmark.Launched` | parcels/particleset_vectorized_benchmark.py:177-333 | setting the timestep, looping and writing matches `Finish` of the launch |
| `NodeLogging.Index` | parcels/particleset_node_benchmark.py:96-97 | Python list indexing: defined iff `-len <= i < len`, and the result is an element |
| `NodeLogging.IndexFromBothEnds` | parcels/particleset_node_benchmark.py:96-97 | an element is reached by its index and by its index minus the length |
| `NodeLogging.TimingLog.constructor` | parcels/particleset_node_benchmark.py:34-40 | a new log is consistent and empty, all readings 0 |
| `NodeLogging.TimingLog.StartTiming` | parcels/particleset_node_benchmark.py:42-51 | the start reading is taken, except on MPI ranks other than 0 |
| `NodeLogging.TimingLog.StopTiming` | parcels/particleset_node_benchmark.py:53-62 | the stop reading is taken, except on MPI ranks other than 0 |
| `NodeLogging.TimingLog.AccumulateTiming` | parcels/particleset_node_benchmark.py:64-73 | adds stop − start to the accumulated time; ranks other than 0 reset it to 0 |
| `NodeLogging.TimingLog.Time` | parcels/particleset_node_benchmark.py:42-73 | start, stop and accumulate together add the interval (rank 0 or no MPI) or zero the sum |
| `NodeLogging.TimingLog.AdvanceIteration` | parcels/particleset_node_benchmark.py:75-88 | appends the accumulated time and the iteration index and counts the iteration (not on ranks other than 0), zeroes the sum, keeps `len(timings) == len(samples) == iter` and `samples == [0..iter)` |
| `NodeLogging.TimingLog.GetValues` | parcels/particleset_node_benchmark.py:93-94 | the recorded totals, as many as `__len__` |
| `NodeLogging.TimingLog.GetValue` | parcels/particleset_node_benchmark.py:96-97 | the total of iteration `index`, defined iff `-len <= index < len` |
| `NodeLogging.ParamLog.constructor` | parcels/particleset_node_benchmark.py:103-106 | a new log is consistent and empty |
| `NodeLogging.ParamLog.AdvanceIteration` | parcels/particleset_node_benchmark.py:108-112 | appends the value and the iteration index and counts the iteration, keeping the log consistent |
| `NodeLogging.ParamLog.GetParams` | parcels/particleset_node_benchmark.py:117-118 | the recorded values, as many as `__len__` |
| `NodeLogging.ParamLog.GetParam` | parcels/particleset_node_benchmark.py:120-121 | the value of iteration `index`, defined iff `-len <= index < len` |
| `NodeBenchmark.NodeStart` | parcels/particleset_node_benchmark.py:231-232 | the start is at most (dt ≥ 0) / at least the field's first / last time and every known node time, and is one of them |
| `NodeBenchmark.Initialised` | parcels/particleset_node_benchmark.py:257-264 | every node's timestep is `dt`, NaN times become the start, other times stay |
| `NodeBenchmark.NodeLaunch` | parcels/particleset_node_benchmark.py:231-290 | the run starts at the start time; the repeat start time becomes the start iff `repeatdt` is set and it is unset; nodes are released every `repeatdt` exactly when the set has release parameters and a nonzero `repeatdt` |
| `NodeBenchmark.NodeExecuteSpec` | parcels/particleset_node_benchmark.py:138-394 | `execute` fails exactly when a check fails or `runtime` and `endtime` are both given (an empty set runs); a failure leaves the nodes and the repeat start time and logs nothing; a success leaves a repeat start time whenever `repeatdt` is set |
| `NodeBenchmark.ReleasesNeedParams` | parcels/particleset_node_benchmark.py:281-284 | without `repeatdt` or without release parameters no pass releases nodes |
| `NodeBenchmark.NodeExecuteWritesEveryOutputdt` | parcels/particleset_node_benchmark.py:338-344 | a successful `execute` with output writes at the start, at the `outputdt` points up to the end time, and at the end |
| `NodeBenchmark.NodeExecuteFramesAndCallbacks` | parcels/particleset_node_benchmark.py:270-356 | a successful `execute` draws frames at the start and at the `moviedt` points up to the end time (none without `moviedt`), and runs the callbacks at exactly the points of the given or default callback period |
| `NodeBenchmark.NodeExecuteLogsPasses` | parcels/particleset_node_benchmark.py:336-383 | `execute` logs one count in execute-once mode, else one log advance per count, and ends at the end time |
| `NodeBenchmark.Readings` | parcels/particleset_node_benchmark.py:371-378 | the first `n` memory readings are the `rss` oracle at the end times of the first `n` passes, one per pass |
| `NodeBenchmark.LoopReadings` | parcels/particleset_node_benchmark.py:362-378 | the loop logs no memory reading in execute-once mode and one per pass otherwise, each at that pass's stop |
| `NodeBenchmark.NodeReadingsPerPass` | parcels/particleset_node_benchmark.py:336-378 | `execute` logs exactly as many memory readings as log advances |
| `NodeBenchmark.ExecuteLaunches` | parcels/particleset_node_benchmark.py:231-394 | when the checks pass, the launch is ready and `NodeExecuteSpec` and `NodeReadings` are `Finish` and `LoopReadings` of its run |
| `NodeBenchmark.ParticleSetBenchmark.constructor` | parcels/particleset_node_benchmark.py:126-135 | a set with six fresh, empty, consistent logs |
| `NodeBenchmark.ParticleSetBenchmark.InitialiseNodes` | parcels/particleset_node_benchmark.py:257-264 | the `piter` loop leaves `Initialised` of the old nodes |
| `NodeBenchmark.ParticleSetBenchmark.AddReleased` | parcels/particleset_node_benchmark.py:318-332 | the `add_iter` loop appends exactly `Released(time, dt, num_pts)` |
| `NodeBenchmark.ParticleSetBenchmark.Advance` | parcels/particleset_node_benchmark.py:311-361 | one loop body equals `Step` on the timers and `AfterPass` on the nodes, and reports exactly the fired output, movie and callback timers |
| `NodeBenchmark.ParticleSetBenchmark.LogPass` | parcels/particleset_node_benchmark.py:300-361 | a pass appends its node count to `nparticle_log`, keeps every recorded timing and memory entry, starts the total timing at the pass's clock reading, adds the compute time to the compute total, the write and field-query times to the io total and the frame time to the plot total (only on rank 0; elsewhere the totals are reset) |
| `NodeBenchmark.ParticleSetBenchmark.LogOutputs` | parcels/particleset_node_benchmark.py:338-361 | the io total gains the write time when output is written and the field-query time when the field is re-read; the plot total gains the frame time when a frame is drawn; recorded entries are kept |
| `NodeBenchmark.ParticleSetBenchmark.LogIteration` | parcels/particleset_node_benchmark.py:300-383 | the logging of one iteration appends its count, and unless the pass breaks (`dt == 0`) the memory reading at its stop and the timing entries on rank 0 |
| `NodeBenchmark.ParticleSetBenchmark.EndPass` | parcels/particleset_node_benchmark.py:369-383 | the end of a pass appends the memory reading at the stop to `mem_log`; on rank 0 the total log records its accumulated time plus the elapsed pass time and the compute, io and plot logs record their accumulated times; all four totals restart at 0 |
| `NodeBenchmark.ParticleSetBenchmark.AdvanceTimings` | parcels/particleset_node_benchmark.py:380-383 | on rank 0 each of the four timing logs appends its accumulated time (nothing on other ranks), keeps its earlier entries, and restarts its total at 0 |
| `NodeBenchmark.ParticleSetBenchmark.Iterate` | parcels/particleset_node_benchmark.py:299-383 | one iteration makes one more pass of progress, appends its count to `nparticle_log` and, unless it is the execute-once pass, the memory reading at its stop to `mem_log` and one entry to each timing log on rank 0 |
| `NodeBenchmark.ParticleSetBenchmark.StepLoop` | parcels/particleset_node_benchmark.py:299-383 | the `while` loop leaves `EffectOf` its passes; `nparticle_log` gains exactly the pass counts, `mem_log` exactly the readings at the stops of the non-breaking passes, and the timing logs keep their entries and gain one per such pass |
| `NodeBenchmark.ParticleSetBenchmark.RunLoop` | parcels/particleset_node_benchmark.py:299-383 | the loop leaves the nodes as `LoopSpec` of the run gives them and logs its counts and the `LoopReadings` of the run |
| `NodeBenchmark.ParticleSetBenchmark.Execute` | parcels/particleset_node_benchmark.py:138-394 | `execute` returns and leaves nodes and repeat start time exactly as `NodeExecuteSpec`; `nparticle_log` gains its counts and `mem_log` exactly `NodeReadings`, earlier entries kept |
| `NodeBenchmark.ParticleSetBenchmark.Launched` | parcels/particleset_node_benchmark.py:254-394 | initialising, looping and writing matches `Finish` of the launch; the logs gain its counts and the loop's memory readings, earlier entries kept |
| `NodeBenchmark.ParticleSetBenchmark.Start` | parcels/particleset_node_benchmark.py:231-394 | once the checks pass, the launched run leaves nodes, repeat start time and logs exactly as `NodeExecuteSpec` and `NodeReadings` give them |
| `NodeBenchmark.ParticleSetBenchmark.LogFinalWrite` | parcels/particleset_node_benchmark.py:385-389 | the final output write adds its time to the io total (rank 0) and keeps every recorded entry |

## Left out

- Kernel compilation (`GNUCompiler`, `GNUCompiler_MS`), the kernel's own execution, output file writes, `show`, the
  progress bar, the walltime check and logger messages. These are I/O or foreign calls. The kernel is an oracle on the
  particle list. Writes, frames and callbacks are recorded as the times at which they happen.
- `computeTimeChunk` is an oracle. A stepping run assumes it answers strictly past the time asked about (as
  `ChunkAdvances`). Otherwise the loop need not terminate. The field's chunk partitioning is not part of this model.
- Floating-point time: times and periods are integers, the tolerances `1e-12` and `1e-5` are exact equality, and
  `np.infty` is an extended-time value.
- Conversions of `datetime` and `timedelta` arguments: arguments are plain seconds.
- Particle identity and position (`lon`, `lat`, `depth`, ids from `idgen` or `rparam`): a particle is its time and
  its timestep.
- Memory measurement (`psutil`, `getrusage`, the asynchronous memory log) and the MPI `reduce` of memory. The reading
  is the oracle `rss`.
- The `Kernel_Benchmark` branches of the vectorized set, its `mem_io_log`, and the plot timing around the progress bar.
- VectorizedBenchmark.ParticleSetBenchmark.Execute: the vectorized set's `TimingLog` and `ParamLogging` come from
  `parcels.tools.performance_logger` (imported at parcels/particleset_vectorized_benchmark.py:26), which this model
  does not cover. The model records only the particle counts handed to `nparticle_log` and how many
  times the other logs advance, not their contents.
- The clock is an oracle `(time, probe) -> reading`: each `start_timing`/`stop_timing` pair reads it once per probe
  point, so the model does not order the readings of one pass against those of another.
- NodeBenchmark.ParticleSetBenchmark.Iterate: the values each timing log appends are stated per iteration by
  `EndPass` and `AdvanceTimings`; across iterations only their number and the kept earlier entries are carried.
- NodeBenchmark.ParticleSetBenchmark.StepLoop: as for `Iterate`, the timing logs' new entries are counted, not
  valued; `nparticle_log` and `mem_log` are stated entry by entry.
- NodeBenchmark.ParticleSetBenchmark.RunLoop: timing entries counted, not valued, as for `StepLoop`.
- NodeBenchmark.ParticleSetBenchmark.Execute: timing entries counted, not valued, as for `StepLoop`; the final
  write's io time is stated by `LogFinalWrite`.
- NodeBenchmark.ParticleSetBenchmark.Start: timing entries counted, not valued, as for `Execute`.
- NodeBenchmark.ParticleSetBenchmark.Launched: timing entries counted, not valued, as for `Execute`.
- NodeBenchmark.ParticleSetBenchmark.LogIteration: timing entries counted, not valued; `LogPass` and `EndPass`
  state the values.
- The `ParticleSet` constructor is not part of this model. Both sets take `repeatdt > 0` as given when it is set
  (`Valid`).
- Setup.CheckArgs and the execute models refuse a negative `callbackdt`, which the source never checks. A negative
  period would make the callback timer lie behind the start, and the model does not follow that case.
- Setup.FirstRelease: when `repeat_starttime` lies ahead of the start in the run direction, the formula jumps
  past the progression points between them. The model computes the formula as written but proves the "first such
  point" part only when the start is not before `repeat_starttime`.
- Setup.CheckArgs also refuses a zero `outputdt`, `moviedt` or `callbackdt` in execute-once mode. There the source's
  single pass ends in the `dt == 0` break, so a zero interval cannot stall it; the model refuses it anyway.
- NodeBenchmark.ParticleSetBenchmark.AddReleased: the node set's `add` is not part of this model; released nodes are
  taken to be appended at the end of the node list, an order nothing later in the model depends on.
- The node set writes each node's data back with `set_data` in place. The model updates its node list and stores it
  back after the loop. Aliasing between nodes is not modelled.

## Findings

| source | as written | input that shows it | evidently intended | confidence | as-written member | corrected member |
|---|---|---|---|---|---|---|
| parcels/particleset_vectorized_benchmark.py:143-144 | `assert outputdt is None or outputdt >= 0` (likewise `moviedt`; `callbackdt` is not checked) accepts a zero interval | `endtime=10`, `dt=1`, an output file with `outputdt=0`, particles at time 0: the output timer is due at 0, every stop is 0 and the zero period never moves it on, so time never advances | intervals must be positive, as the messages "must be positive" say | not executed | `Setup.ZeroOutputdtStalls` | `Setup.AcceptedArgsGivePositivePeriods` |
