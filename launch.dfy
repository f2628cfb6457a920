/**
 * What both variants of `execute` do once the start time is known: the
 * repeat start time, the plan and the periods, the check that the loop can
 * run, and the loop together with the output writes and the movie frame
 * around it.
 */
module Launching {
  import opened Opt
  import opened ExtTime
  import opened Schedule
  import opened ScheduleProperties
  import opened Setup
  import opened Passes

  /** What `execute` returns to its caller: an exception, or the times of its side effects. */
  datatype Outcome =
    | Failed(error: SetupError)
      /** `final` is the loop's last time; `writes`, `frames` and `callbacks` the times of output writes, movie frames and callback rounds. */
    | Finished(final: Time, writes: seq<Time>, frames: seq<Time>, callbacks: seq<Time>)

  /** The start time, the repeat start time after `execute` set it, the plan and the periods. */
  datatype Launch = Launch(start: int, repeatStart: Option<int>, plan: Plan, periods: Periods)

  /**
   * The set-up from the start time: the start becomes the repeat start time
   * when `repeatdt` is set and no repeat start time is; releases happen when
   * `releasing` holds (for the node set: when it has release parameters).
   */
  function LaunchAt(start: int, repeatStart: Option<int>, repeatdt: Option<nat>, releasing: bool, a: Args, range: TimeRange): (l: Launch)
    requires CheckArgsAsWritten(a).None? && AtLeastZero(a.callbackdt)
    ensures l.start == start && l.plan.start == start
    ensures l.repeatStart == if repeatdt.Some? && repeatStart.None? then Some(start) else repeatStart
    ensures l.periods.release.Every? ==> releasing && repeatdt == Some(l.periods.release.n)
  {
    var rs := if repeatdt.Some? && repeatStart.None? then Some(start) else repeatStart;
    Launch(start, rs, MakePlan(a, start, range), MakePeriods(a, repeatdt, releasing))
  }

  /** The repeat start time the first-release formula uses (only read when releases are configured). */
  function ReleaseOrigin(l: Launch): int {
    if l.repeatStart.Some? then l.repeatStart.value else l.start
  }

  function LaunchConfig(l: Launch): Config {
    PlanConfig(l.plan, l.periods)
  }

  function LaunchSched(l: Launch, chunk: ChunkOracle): Sched {
    FirstSched(l.plan, l.periods, ReleaseOrigin(l), chunk)
  }

  /** What `execute` leaves behind: its outcome, the particles, the repeat start time and the log entries it added. */
  datatype Effect = Effect(outcome: Outcome, particles: seq<Particle>, repeatStart: Option<int>, counts: seq<nat>, logged: nat)

  /** The launch's loop can run: it steps from the loop invariant, or it is the execute-once pass. */
  ghost predicate Ready(l: Launch, chunk: ChunkOracle) {
    Runnable(LaunchConfig(l), chunk, LaunchSched(l, chunk), l.plan.once) &&
    FiniteTimersPeriodic(LaunchConfig(l), LaunchSched(l, chunk).timers)
  }

  /** Arguments the checks accept and a positive `repeatdt` launch a loop that can run, with positive periods. */
  lemma LaunchReady(start: int, repeatStart: Option<int>, repeatdt: Option<nat>, releasing: bool, a: Args, range: TimeRange,
                    chunk: ChunkOracle)
    requires (repeatdt.Some? ==> repeatdt.value > 0) && ChunkAdvances(chunk) && CheckArgs(a).None?
    ensures var l := LaunchAt(start, repeatStart, repeatdt, releasing, a, range);
      Ready(l, chunk) && PositivePeriods(l.periods)
  {
    var l := LaunchAt(start, repeatStart, repeatdt, releasing, a, range);
    AcceptedArgsGivePositivePeriods(a, repeatdt, releasing);
    PlanRunnable(a, l.start, range, l.periods, ReleaseOrigin(l), chunk);
  }

  /**
   * The loop on the particles `ps` (their timestep already set) and the
   * writes around it: output at the start and the end, a movie frame at the
   * start.
   */
  function Finish(l: Launch, ps: seq<Particle>, a: Args, chunk: ChunkOracle, kernel: Kernel, count: nat): (eff: Effect)
    requires Ready(l, chunk)
    ensures eff.outcome.Finished? && eff.repeatStart == l.repeatStart
    ensures a.outputdt.None? <==> eff.outcome.writes == []
    ensures a.outputdt.Some? ==>
      && |eff.outcome.writes| >= 2 && eff.outcome.writes[0] == Fin(l.start)
      && eff.outcome.writes[|eff.outcome.writes| - 1] == eff.outcome.final
    ensures a.moviedt.Some? && a.moviedt.value != 0 ==> |eff.outcome.frames| >= 1 && eff.outcome.frames[0] == Fin(l.start)
  {
    var e := LoopSpec(LaunchConfig(l), chunk, LaunchSched(l, chunk), l.plan.once, kernel, count, ps);
    var writes := if a.outputdt.Some? then [Fin(l.start)] + e.outputs + [e.final] else [];
    var frames := (if a.moviedt.Some? && a.moviedt.value != 0 then [Fin(l.start)] else []) + e.frames;
    Effect(Finished(e.final, writes, frames, e.callbacks), e.particles, l.repeatStart, e.counts, e.logged)
  }

  /**
   * A launch with an output file writes at the start, after every pass whose
   * stop is due for output, and at the loop's last time; when it steps, the
   * writes in between are exactly at the points `start + k * outputdt *
   * sign(dt)` (k >= 1) up to the end time.
   */
  lemma FinishWritesEveryOutputdt(l: Launch, ps: seq<Particle>, a: Args, chunk: ChunkOracle, kernel: Kernel,
                                  count: nat, x: Time)
    requires Ready(l, chunk) && PositivePeriods(l.periods) && ChunkAdvances(chunk) && l.plan.start == l.start
    requires a.outputdt.Some? && a.outputdt.value > 0 && l.periods.output == Every(a.outputdt.value)
    ensures var r := Finish(l, ps, a, chunk, kernel, count).outcome;
      && r.Finished?
      && |r.writes| >= 2 && r.writes[0] == Fin(l.start) && r.writes[|r.writes| - 1] == r.final
      && (!l.plan.once ==>
            (x in r.writes[1..|r.writes| - 1] <==>
             OnProgression(l.plan.dt, l.start, a.outputdt.value, x) && x != Fin(l.start) &&
             PrecedesEq(l.plan.dt, x, Fin(l.plan.endtime))))
  {
    var vs := Run(LaunchConfig(l), chunk, LaunchSched(l, chunk));
    var r := Finish(l, ps, a, chunk, kernel, count).outcome;
    var outs := FiredUpTo(vs, |vs|, Output);
    assert r.writes == [Fin(l.start)] + outs + [r.final];
    assert r.writes[1..|r.writes| - 1] == outs;
    if !l.plan.once {
      FiredUpToAll(vs, Output);
      FiresEveryPeriod(l.plan, l.periods, ReleaseOrigin(l), chunk, Output, a.outputdt.value, x);
    }
  }

  /**
   * A launch without `moviedt` draws no frame. One with a positive `moviedt`
   * draws a frame at the start and, when it steps, then at exactly the points
   * `start + k * moviedt * sign(dt)` (k >= 1) up to the end time.
   */
  lemma FinishFramesEveryMoviedt(l: Launch, ps: seq<Particle>, a: Args, chunk: ChunkOracle, kernel: Kernel,
                                 count: nat, x: Time)
    requires Ready(l, chunk) && PositivePeriods(l.periods) && ChunkAdvances(chunk) && l.plan.start == l.start
    requires a.moviedt.None? ==> l.periods.movie.Never?
    requires a.moviedt.Some? ==> a.moviedt.value > 0 && l.periods.movie == Every(a.moviedt.value)
    ensures var r := Finish(l, ps, a, chunk, kernel, count).outcome;
      && r.Finished?
      && (a.moviedt.None? ==> r.frames == [])
      && (a.moviedt.Some? ==>
            && |r.frames| >= 1 && r.frames[0] == Fin(l.start)
            && (!l.plan.once ==>
                  (x in r.frames[1..] <==>
                   OnProgression(l.plan.dt, l.start, a.moviedt.value, x) && x != Fin(l.start) &&
                   PrecedesEq(l.plan.dt, x, Fin(l.plan.endtime)))))
  {
    var c := LaunchConfig(l);
    var vs := Run(c, chunk, LaunchSched(l, chunk));
    var r := Finish(l, ps, a, chunk, kernel, count).outcome;
    FiredUpToAll(vs, Movie);
    if a.moviedt.None? {
      assert c.periods.Of(Movie).Never?;
      RunNeverFires(c, chunk, LaunchSched(l, chunk), Movie);
    } else {
      assert r.frames[1..] == FiredUpTo(vs, |vs|, Movie);
      if !l.plan.once {
        FiresEveryPeriod(l.plan, l.periods, ReleaseOrigin(l), chunk, Movie, a.moviedt.value, x);
      }
    }
  }

  /**
   * The callbacks run at no pass when the callback timer has no period and,
   * in a stepping run with a period `n`, at exactly the points
   * `start + k * n * sign(dt)` (k >= 1) up to the end time.
   */
  lemma FinishCallbacksEveryPeriod(l: Launch, ps: seq<Particle>, a: Args, chunk: ChunkOracle, kernel: Kernel,
                                   count: nat, x: Time)
    requires Ready(l, chunk) && PositivePeriods(l.periods) && ChunkAdvances(chunk) && l.plan.start == l.start
    ensures var r := Finish(l, ps, a, chunk, kernel, count).outcome;
      && r.Finished?
      && (l.periods.callback.Never? ==> r.callbacks == [])
      && (!l.plan.once && l.periods.callback.Every? ==>
            (x in r.callbacks <==>
             OnProgression(l.plan.dt, l.start, l.periods.callback.n, x) && x != Fin(l.start) &&
             PrecedesEq(l.plan.dt, x, Fin(l.plan.endtime))))
  {
    var c := LaunchConfig(l);
    var vs := Run(c, chunk, LaunchSched(l, chunk));
    var r := Finish(l, ps, a, chunk, kernel, count).outcome;
    assert r.callbacks == FiredUpTo(vs, |vs|, Callback);
    FiredUpToAll(vs, Callback);
    if l.periods.callback.Never? {
      assert c.periods.Of(Callback).Never?;
      RunNeverFires(c, chunk, LaunchSched(l, chunk), Callback);
    } else if !l.plan.once {
      FiresEveryPeriod(l.plan, l.periods, ReleaseOrigin(l), chunk, Callback, l.periods.callback.n, x);
    }
  }

  /**
   * The loop's end: execute-once mode logs one particle count and advances
   * no timing log; a stepping run logs one particle count and advances the
   * timing logs once per pass, and when it enters the loop it ends at the
   * end time.
   */
  lemma FinishLogsPasses(l: Launch, ps: seq<Particle>, a: Args, chunk: ChunkOracle, kernel: Kernel, count: nat)
    requires Ready(l, chunk) && l.plan.start == l.start
    ensures var eff := Finish(l, ps, a, chunk, kernel, count);
      && (l.plan.once ==> |eff.counts| == 1 && eff.logged == 0)
      && (!l.plan.once ==> eff.logged == |eff.counts|)
      && (!l.plan.once && Continues(l.plan.dt, Fin(l.start), l.plan.endtime) ==> eff.outcome.final == Fin(l.plan.endtime))
  {
    if l.plan.once {
      OnceLogsOnePass(LaunchConfig(l), chunk, LaunchSched(l, chunk), kernel, count, ps);
    } else {
      SteppingLogsEveryPass(LaunchConfig(l), chunk, LaunchSched(l, chunk), kernel, count, ps);
    }
  }
}
