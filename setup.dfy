/**
 * What `ParticleSet_Benchmark.execute` computes before its stepping loop:
 * the argument checks, the start and end time, execute-once mode, the
 * periods of the recurring timers (with the `callbackdt` default) and the
 * timers' first values, including the first particle release.
 */
module Setup {
  import opened Opt
  import opened ExtTime
  import opened Schedule
  import opened ScheduleProperties

  /**
   * The time arguments of `execute`, in seconds; `None` where not given.
   * `outputdt` is the output file's interval, `None` when there is no output file.
   */
  datatype Args = Args(endtime: Option<int>, runtime: Option<int>, dt: int,
                       outputdt: Option<int>, moviedt: Option<int>, callbackdt: Option<int>)

  /** `fieldset.gridset.dimrange('time_full')`: the first and last time of the field data. */
  datatype TimeRange = TimeRange(min: int, max: int)

  datatype SetupError =
    | RuntimeNegative
    | OutputdtNotPositive
    | MoviedtNotPositive
    | CallbackdtNotPositive
    | RuntimeAndEndtime
    | EmptySet

  predicate AtLeastZero(x: Option<int>) {
    x.None? || x.value >= 0
  }

  predicate AboveZero(x: Option<int>) {
    x.None? || x.value > 0
  }

  /** The three assertions as the source writes them: only negative values are refused. */
  function CheckArgsAsWritten(a: Args): (r: Option<SetupError>)
    ensures r.None? <==> AtLeastZero(a.runtime) && AtLeastZero(a.outputdt) && AtLeastZero(a.moviedt)
  {
    if !AtLeastZero(a.runtime) then Some(RuntimeNegative)
    else if !AtLeastZero(a.outputdt) then Some(OutputdtNotPositive)
    else if !AtLeastZero(a.moviedt) then Some(MoviedtNotPositive)
    else None
  }

  /**
   * The checks the assertion messages ask for ("must be positive"): every
   * interval that drives a timer must be positive, `callbackdt` included.
   */
  function CheckArgs(a: Args): (r: Option<SetupError>)
    ensures r.None? <==>
      CheckArgsAsWritten(a).None? && AboveZero(a.outputdt) && AboveZero(a.moviedt) && AboveZero(a.callbackdt)
    ensures CheckArgsAsWritten(a).Some? ==> r.Some?
  {
    if !AtLeastZero(a.runtime) then Some(RuntimeNegative)
    else if !AboveZero(a.outputdt) then Some(OutputdtNotPositive)
    else if !AboveZero(a.moviedt) then Some(MoviedtNotPositive)
    else if !AboveZero(a.callbackdt) then Some(CallbackdtNotPositive)
    else None
  }

  /** Python's `min` of a non-empty list. */
  function Least(xs: seq<int>): (m: int)
    requires xs != []
    ensures m in xs
    ensures forall i :: 0 <= i < |xs| ==> m <= xs[i]
  {
    if |xs| == 1 then xs[0]
    else
      var m := Least(xs[1..]);
      if xs[0] <= m then xs[0] else m
  }

  /** Python's `max` of a non-empty list. */
  function Greatest(xs: seq<int>): (m: int)
    requires xs != []
    ensures m in xs
    ensures forall i :: 0 <= i < |xs| ==> xs[i] <= m
  {
    if |xs| == 1 then xs[0]
    else
      var m := Greatest(xs[1..]);
      if xs[0] >= m then xs[0] else m
  }

  /** The end time: from `runtime` in the run direction, else the given one, else the field's last (forward) or first time. */
  function EndTime(a: Args, start: int, range: TimeRange): (e: int)
    ensures a.runtime.Some? && a.dt != 0 ==> Abs(e - start) == Abs(a.runtime.value)
    ensures a.runtime.Some? && a.runtime.value >= 0 ==> PrecedesEq(a.dt, Fin(start), Fin(e))
    ensures a.runtime.Some? && a.dt == 0 ==> e == start
    ensures a.runtime.None? && a.endtime.Some? ==> e == a.endtime.value
    ensures a.runtime.None? && a.endtime.None? ==> e in {range.min, range.max}
    ensures a.runtime.None? && a.endtime.None? && a.dt != 0 && range.min <= range.max ==>
      PrecedesEq(a.dt, Fin(range.min), Fin(e)) && PrecedesEq(a.dt, Fin(range.max), Fin(e))
  {
    if a.runtime.Some? then start + a.runtime.value * Sign(a.dt)
    else if a.endtime.None? then (if a.dt >= 0 then range.max else range.min)
    else a.endtime.value
  }

  /** The start, end and timestep the loop runs with, and whether it is execute-once mode. */
  datatype Plan = Plan(start: int, endtime: int, dt: int, once: bool)

  /**
   * Execute-once mode when the end time equals the start, `dt` is zero or
   * `runtime` is zero: then `dt` becomes 0 and the end time the start.
   */
  function MakePlan(a: Args, start: int, range: TimeRange): (p: Plan)
    ensures p.start == start
    ensures p.once ==> p.dt == 0 && p.endtime == start
    ensures !p.once ==> p.dt == a.dt && p.dt != 0 && p.endtime != start
    ensures p.once <==> EndTime(a, start, range) == start || a.dt == 0 || a.runtime == Some(0)
    ensures !p.once ==> p.endtime == EndTime(a, start, range)
  {
    var end := EndTime(a, start, range);
    if end == start || a.dt == 0 || a.runtime == Some(0) then Plan(start, start, 0, true)
    else Plan(start, end, a.dt, false)
  }

  /** A run given a non-negative `runtime` enters the loop and covers exactly `runtime` seconds. */
  lemma RuntimeSetsSpan(a: Args, start: int, range: TimeRange)
    requires a.runtime.Some? && a.runtime.value >= 0
    ensures var p := MakePlan(a, start, range);
      !p.once ==> Continues(p.dt, Fin(start), p.endtime) && Abs(p.endtime - start) == a.runtime.value
  {
    var p := MakePlan(a, start, range);
    var rt := a.runtime.value;
    if !p.once {
      if a.dt > 0 {
        assert p.endtime == start + rt;
      } else {
        assert p.endtime == start - rt;
      }
    }
  }

  function Abs(x: int): nat {
    if x < 0 then -x else x
  }

  /** An interval in seconds as a timer period; none is `np.infty`. */
  function PeriodOf(x: Option<int>): Period
    requires AtLeastZero(x)
  {
    if x.None? then Never else Every(x.value)
  }

  /** Order on periods with `Never` (`np.infty`) the largest. */
  predicate PeriodAtMost(a: Period, b: Period) {
    b.Never? || (a.Every? && a.n <= b.n)
  }

  function PeriodMin(a: Period, b: Period): Period {
    if PeriodAtMost(a, b) then a else b
  }

  /** `np.min([np.infty, moviedt, outputdt] + ([repeatdt] if repeatdt is set))`. */
  function DefaultCallbackdt(movie: Period, output: Period, repeatdt: Option<nat>): (p: Period)
    ensures PeriodAtMost(p, movie) && PeriodAtMost(p, output)
    ensures repeatdt.Some? ==> PeriodAtMost(p, Every(repeatdt.value))
    ensures p == Never || p == movie || p == output || (repeatdt.Some? && p == Every(repeatdt.value))
  {
    var m := PeriodMin(PeriodMin(Never, movie), output);
    if repeatdt.Some? then PeriodMin(m, Every(repeatdt.value)) else m
  }

  /**
   * The timers' periods. Particles are released every `repeatdt` when it is
   * set and non-zero and `releasing` holds (the node set also needs its
   * release parameters); the callback period defaults to the smallest of the
   * others.
   */
  function MakePeriods(a: Args, repeatdt: Option<nat>, releasing: bool): (ps: Periods)
    requires CheckArgsAsWritten(a).None? && AtLeastZero(a.callbackdt)
    ensures ps.release.Every? <==> releasing && repeatdt.Some? && repeatdt.value != 0
    ensures ps.release.Every? ==> ps.release == Every(repeatdt.value)
    ensures ps.output.Every? <==> a.outputdt.Some?
    ensures a.outputdt.Some? ==> ps.output == Every(a.outputdt.value)
    ensures ps.movie.Every? <==> a.moviedt.Some?
    ensures a.moviedt.Some? ==> ps.movie == Every(a.moviedt.value)
    ensures a.callbackdt.Some? ==> ps.callback == Every(a.callbackdt.value)
    ensures a.callbackdt.None? ==> ps.callback == DefaultCallbackdt(ps.movie, ps.output, repeatdt)
    ensures a.callbackdt.None? ==> PeriodAtMost(ps.callback, ps.output) && PeriodAtMost(ps.callback, ps.movie)
    ensures a.callbackdt.None? && repeatdt.Some? ==> PeriodAtMost(ps.callback, Every(repeatdt.value))
  {
    var output := PeriodOf(a.outputdt);
    var movie := PeriodOf(a.moviedt);
    Periods(
      if releasing && repeatdt.Some? && repeatdt.value != 0 then Every(repeatdt.value) else Never,
      output,
      movie,
      if a.callbackdt.Some? then Every(a.callbackdt.value) else DefaultCallbackdt(movie, output, repeatdt))
  }

  /** Arguments the corrected checks accept, with a positive `repeatdt`, give positive periods. */
  lemma AcceptedArgsGivePositivePeriods(a: Args, repeatdt: Option<nat>, releasing: bool)
    requires CheckArgs(a).None? && (repeatdt.Some? ==> repeatdt.value > 0)
    ensures PositivePeriods(MakePeriods(a, repeatdt, releasing))
  {
    var ps := MakePeriods(a, repeatdt, releasing);
    if a.callbackdt.None? {
      var cb := DefaultCallbackdt(PeriodOf(a.moviedt), PeriodOf(a.outputdt), repeatdt);
      assert cb.Every? ==> cb.n > 0;
    }
  }

  /** The far end of the time line in the run direction: the value of a timer that never fires. */
  function Beyond(dt: int): Time {
    if dt > 0 then PosInf else NegInf
  }

  /** `time + x if dt > 0 else time - x` for a period `x`. */
  function Offset(t: int, p: Period, dt: int): Time {
    match p
    case Never => Beyond(dt)
    case Every(n) => Fin(if dt > 0 then t + n else t - n)
  }

  /** The next multiple of `period` strictly above `d` is at most `d + period` away, and at least `period`. */
  lemma NextMultipleAbove(d: nat, period: nat)
    requires period > 0
    ensures var k := (d / period + 1) * period;
      k > d && k - period <= d && k >= period && k % period == 0
  {
    var q, m := d / period, d % period;
    assert d == q * period + m;
    var k := (q + 1) * period;
    assert k == q * period + period;
    DivModUnique(k, q + 1, period, 0);
  }

  /**
   * The first release after time `t`:
   * `repeat_starttime + (abs(t - repeat_starttime) // repeatdt + 1) * repeatdt * sign(dt)`.
   * It lies strictly past `t` in the run direction and a whole number of
   * periods from `r`; when `t` is not before `r` it is the first such point
   * (the one before it is not past `t`). With `dt == 0` it is `r`.
   */
  function FirstRelease(t: int, r: int, period: nat, dt: int): (x: int)
    requires period > 0
    ensures dt != 0 ==> Precedes(dt, Fin(t), Fin(x))
    ensures (x - r) % period == 0
    ensures dt == 0 ==> x == r
    ensures dt != 0 && PrecedesEq(dt, Fin(r), Fin(t)) ==> PrecedesEq(dt, Fin(x - period * Sign(dt)), Fin(t))
  {
    var k := (Abs(t - r) / period + 1) * period;
    NextMultipleAbove(Abs(t - r), period);
    if dt > 0 then
      r + k
    else if dt < 0 then
      NegatedMultiple(k, period);
      r - k
    else
      r
  }

  /**
   * The timers before the first pass; the field is first queried with
   * `sign(dt)`. The output, movie and callback timers start one period from
   * the start (ahead of it when `dt > 0`, behind it otherwise), the release
   * timer at the first release past the start.
   */
  function FirstTimers(p: Plan, ps: Periods, repeatStart: int, chunk: ChunkOracle): (tm: Timers)
    ensures FiniteTimersPeriodic(PlanConfig(p, ps), tm)
    ensures forall ev :: ps.Of(ev).Never? ==> tm.Of(ev) == Beyond(p.dt)
    ensures forall ev :: ev != Release && ps.Of(ev).Every? ==>
      tm.Of(ev) == Fin(if p.dt > 0 then p.start + ps.Of(ev).n else p.start - ps.Of(ev).n)
    ensures ps.release.Every? && ps.release.n > 0 ==> tm.release == Fin(FirstRelease(p.start, repeatStart, ps.release.n, p.dt))
    ensures tm.input == chunk(Fin(p.start), Sign(p.dt))
  {
    Timers(
      if ps.release.Every? && ps.release.n > 0
      then Fin(FirstRelease(p.start, repeatStart, ps.release.n, p.dt))
      else Beyond(p.dt),
      chunk(Fin(p.start), Sign(p.dt)),
      Offset(p.start, ps.output, p.dt),
      Offset(p.start, ps.movie, p.dt),
      Offset(p.start, ps.callback, p.dt))
  }

  function PlanConfig(p: Plan, ps: Periods): Config {
    Config(p.dt, p.endtime, ps)
  }

  function FirstSched(p: Plan, ps: Periods, repeatStart: int, chunk: ChunkOracle): Sched {
    Sched(Fin(p.start), FirstTimers(p, ps, repeatStart, chunk))
  }

  /** A stepping plan with positive periods starts in a state that satisfies the loop invariant. */
  lemma FirstSchedStepping(p: Plan, ps: Periods, repeatStart: int, chunk: ChunkOracle)
    requires p.dt != 0 && PositivePeriods(ps) && ChunkAdvances(chunk)
    ensures Stepping(PlanConfig(p, ps), chunk, FirstSched(p, ps, repeatStart, chunk))
  {
    var c := PlanConfig(p, ps);
    var st := FirstSched(p, ps, repeatStart, chunk);
    assert ps.Of(Release) == ps.release && ps.Of(Output) == ps.output;
    assert ps.Of(Movie) == ps.movie && ps.Of(Callback) == ps.callback;
    assert Precedes(Sign(p.dt), Fin(p.start), chunk(Fin(p.start), Sign(p.dt)));
    forall ev
      ensures Precedes(c.dt, st.time, st.timers.Of(ev))
    {
      assert ps.Of(ev).Every? ==> ps.Of(ev).n > 0;
    }
  }

  /** A plan either steps from a state satisfying the loop invariant, or is execute-once mode with `dt == 0`. */
  lemma PlanRunnable(a: Args, start: int, range: TimeRange, ps: Periods, repeatStart: int, chunk: ChunkOracle)
    requires PositivePeriods(ps) && ChunkAdvances(chunk)
    ensures var p := MakePlan(a, start, range);
      || (p.dt == 0 && p.once)
      || (p.dt != 0 && !p.once && Stepping(PlanConfig(p, ps), chunk, FirstSched(p, ps, repeatStart, chunk)))
  {
    var p := MakePlan(a, start, range);
    if !p.once {
      FirstSchedStepping(p, ps, repeatStart, chunk);
    }
  }

  /**
   * In execute-once mode the single pass stops at the start time, unless the
   * next release or the field's next input time lies later.
   */
  lemma OnceStop(p: Plan, ps: Periods, repeatStart: int, chunk: ChunkOracle)
    requires p.dt == 0 && p.endtime == p.start
    ensures var tm := FirstTimers(p, ps, repeatStart, chunk);
      Step(PlanConfig(p, ps), chunk, FirstSched(p, ps, repeatStart, chunk)).state.time ==
        Max(Max(tm.release, tm.input), Fin(p.start))
  {
    var tm := FirstTimers(p, ps, repeatStart, chunk);
    var a := Max(tm.release, tm.input);
    assert AtMost(tm.output, Fin(p.start)) && AtMost(tm.movie, Fin(p.start)) && AtMost(tm.callback, Fin(p.start));
    var b := Max(a, tm.output);
    assert Max(b, Fin(p.start)) == Max(a, Fin(p.start));
    var c := Max(b, tm.movie);
    assert Max(c, Fin(p.start)) == Max(a, Fin(p.start));
    var d := Max(c, tm.callback);
    assert Max(d, Fin(p.start)) == Max(a, Fin(p.start));
  }

  /**
   * With every interval positive, a stepping run fires its output, movie or
   * callback timer with the period `n` at exactly the points
   * `start + k * n * sign(dt)`, k >= 1, that do not pass the end time.
   */
  lemma FiresEveryPeriod(p: Plan, ps: Periods, repeatStart: int, chunk: ChunkOracle, ev: Event, n: nat, x: Time)
    requires ev == Output || ev == Movie || ev == Callback
    requires p.dt != 0 && PositivePeriods(ps) && ChunkAdvances(chunk) && ps.Of(ev) == Every(n)
    ensures Stepping(PlanConfig(p, ps), chunk, FirstSched(p, ps, repeatStart, chunk))
    ensures x in FiredAt(Run(PlanConfig(p, ps), chunk, FirstSched(p, ps, repeatStart, chunk)), ev) <==>
      OnProgression(p.dt, p.start, n, x) && x != Fin(p.start) && PrecedesEq(p.dt, x, Fin(p.endtime))
  {
    var c := PlanConfig(p, ps);
    var st := FirstSched(p, ps, repeatStart, chunk);
    FirstSchedStepping(p, ps, repeatStart, chunk);
    FiresPastStart(c, chunk, st, ev, n, p.start, x);
  }

  /** The loop state as the source leaves it when an interval is zero: a timer due now that a zero period never moves on. */
  ghost predicate Stalled(c: Config, chunk: ChunkOracle, st: Sched, ev: Event) {
    && c.dt != 0 && ChunkAdvances(chunk)
    && st.time.Fin? && Continues(c.dt, st.time, c.endtime)
    && c.periods.Of(ev) == Every(0) && st.timers.Of(ev) == st.time
    && PrecedesEq(c.dt, st.time, st.timers.input)
    && (forall e :: PrecedesEq(c.dt, st.time, st.timers.Of(e)))
  }

  /** A stalled pass stops where it started and leaves the loop stalled: time never advances again. */
  lemma StallPersists(c: Config, chunk: ChunkOracle, st: Sched, ev: Event)
    requires Stalled(c, chunk, st, ev)
    ensures Step(c, chunk, st).state.time == st.time
    ensures Stalled(c, chunk, Step(c, chunk, st).state, ev)
  {
    var v := Step(c, chunk, st);
    var s := v.state.time;
    assert PrecedesEq(c.dt, s, st.timers.Of(ev));
    assert PrecedesEq(c.dt, st.time, s) by {
      assert s in {Fin(c.endtime), st.timers.input, st.timers.release, st.timers.output, st.timers.movie, st.timers.callback};
      assert st.timers.release == st.timers.Of(Release) && st.timers.output == st.timers.Of(Output);
      assert st.timers.movie == st.timers.Of(Movie) && st.timers.callback == st.timers.Of(Callback);
    }
    assert s == st.time;
    assert ev in v.fired;
    assert s != Fin(c.endtime);
    assert v.state.timers.input == chunk(Fin(s.t), c.dt);
    forall e
      ensures PrecedesEq(c.dt, s, v.state.timers.Of(e))
    {
    }
  }

  /**
   * The assertions let a zero `outputdt` through: with an end time ahead and
   * an output file written every 0 seconds, the run is stalled at its start
   * from the first pass on. The corrected checks refuse these arguments.
   */
  lemma ZeroOutputdtStalls(chunk: ChunkOracle)
    requires ChunkAdvances(chunk)
    ensures var a := Args(Some(10), None, 1, Some(0), None, None);
      var p := MakePlan(a, 0, TimeRange(0, 10));
      var ps := MakePeriods(a, None, true);
      && CheckArgsAsWritten(a).None?
      && CheckArgs(a) == Some(OutputdtNotPositive)
      && !p.once
      && Stalled(PlanConfig(p, ps), chunk, FirstSched(p, ps, 0, chunk), Output)
  {
    var a := Args(Some(10), None, 1, Some(0), None, None);
    var p := MakePlan(a, 0, TimeRange(0, 10));
    var ps := MakePeriods(a, None, true);
    assert p == Plan(0, 10, 1, false);
    assert ps.output == Every(0);
    var st := FirstSched(p, ps, 0, chunk);
    assert Precedes(1, Fin(0), chunk(Fin(0), 1));
    assert st.timers.output == Fin(0);
    forall e
      ensures PrecedesEq(1, st.time, st.timers.Of(e))
    {
    }
  }
}
