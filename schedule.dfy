/**
 * The stepping scheduler shared by both benchmark particle sets
 * (`ParticleSet_Benchmark.execute`): independent recurring timers, the
 * choice of the next stop, and the firing rule.
 *
 * One pass of the `while` loop chooses the stop as the minimum (forward run)
 * or maximum (backward run) of the release, input, output, movie and callback
 * timers and the end time, fires every timer equal to the stop, moves each
 * fired timer on by one signed period, and re-queries the field's time chunk
 * unless the stop is the end time.
 */
module Schedule {
  import opened ExtTime

  /** The four timers that fire and move on by a period. */
  datatype Event = Release | Output | Movie | Callback

  const AllEvents: set<Event> := {Release, Output, Movie, Callback}

  /** A timer's period: a finite interval, or none (`np.infty`: the timer never fires). */
  datatype Period = Every(n: nat) | Never

  datatype Periods = Periods(release: Period, output: Period, movie: Period, callback: Period)
  {
    function Of(ev: Event): Period {
      match ev
      case Release => release
      case Output => output
      case Movie => movie
      case Callback => callback
    }
  }

  /** `next_prelease`, `next_input`, `next_output`, `next_movie`, `next_callback`. */
  datatype Timers = Timers(release: Time, input: Time, output: Time, movie: Time, callback: Time)
  {
    function Of(ev: Event): Time {
      match ev
      case Release => release
      case Output => output
      case Movie => movie
      case Callback => callback
    }
  }

  /** The loop's variables: the current `time` and the timers. */
  datatype Sched = Sched(time: Time, timers: Timers)

  /** What stays fixed during a run: the timestep, the end time and the periods. */
  datatype Config = Config(dt: int, endtime: int, periods: Periods)

  /** One pass of the loop: the state after it (its `time` is the stop) and the timers that fired. */
  datatype Visit = Visit(state: Sched, fired: set<Event>)

  /** The source's `computeTimeChunk(time, dt)`: the next time at which field input is needed. */
  type ChunkOracle = (Time, int) -> Time

  /** The loop condition `(time < endtime and dt > 0) or (time > endtime and dt < 0) or dt == 0`. */
  predicate Continues(dt: int, time: Time, endtime: int)
    ensures Continues(dt, time, endtime) <==> dt == 0 || Precedes(dt, time, Fin(endtime))
  {
    (dt > 0 && Less(time, Fin(endtime))) || (dt < 0 && Less(Fin(endtime), time)) || dt == 0
  }

  /** The next stop: the earliest (forward) or latest (backward) of the timers and the end time. */
  function NextStop(dt: int, endtime: int, tm: Timers): (s: Time)
    ensures PrecedesEq(dt, s, Fin(endtime)) && PrecedesEq(dt, s, tm.input)
    ensures forall ev :: PrecedesEq(dt, s, tm.Of(ev))
    ensures s in {Fin(endtime), tm.input, tm.release, tm.output, tm.movie, tm.callback}
  {
    if dt > 0 then
      var a := Min(tm.release, tm.input);
      var b := Min(a, tm.output);
      var c := Min(b, tm.movie);
      var d := Min(c, tm.callback);
      var s := Min(d, Fin(endtime));
      AtMostTransitive(s, d, c);
      AtMostTransitive(s, c, b);
      AtMostTransitive(s, b, a);
      AtMostTransitive(s, a, tm.release);
      AtMostTransitive(s, a, tm.input);
      AtMostTransitive(s, b, tm.output);
      AtMostTransitive(s, c, tm.movie);
      AtMostTransitive(s, d, tm.callback);
      s
    else
      var a := Max(tm.release, tm.input);
      var b := Max(a, tm.output);
      var c := Max(b, tm.movie);
      var d := Max(c, tm.callback);
      var s := Max(d, Fin(endtime));
      AtMostTransitive(c, d, s);
      AtMostTransitive(b, c, s);
      AtMostTransitive(a, b, s);
      AtMostTransitive(tm.release, a, s);
      AtMostTransitive(tm.input, a, s);
      AtMostTransitive(tm.output, b, s);
      AtMostTransitive(tm.movie, c, s);
      AtMostTransitive(tm.callback, d, s);
      s
  }

  /**
   * A timer fires when the stop equals its (finite) next time. Where only
   * timers with a period hold finite times, this is the source's test
   * `abs(time - next_x) < tol` alone.
   */
  predicate Fires(c: Config, tm: Timers, ev: Event, s: Time)
    ensures FiniteTimersPeriodic(c, tm) ==> (Fires(c, tm, ev, s) <==> Hits(s, tm.Of(ev)))
  {
    s.Fin? && tm.Of(ev) == s && c.periods.Of(ev).Every?
  }

  /**
   * `next_x += xdt * np.sign(dt)` for a timer that fired; any other timer
   * keeps its value. With no timestep a fired timer stays at the stop;
   * otherwise one with a positive period moves strictly past the stop in the
   * run direction.
   */
  function Advance(c: Config, tm: Timers, ev: Event, s: Time): (next: Time)
    ensures !Fires(c, tm, ev, s) ==> next == tm.Of(ev)
    ensures Fires(c, tm, ev, s) && c.dt == 0 ==> next == s
    ensures Fires(c, tm, ev, s) && c.dt != 0 && c.periods.Of(ev).n > 0 ==> Precedes(c.dt, s, next)
  {
    if Fires(c, tm, ev, s) then Fin(s.t + c.periods.Of(ev).n * Sign(c.dt)) else tm.Of(ev)
  }

  /** One pass of the stepping loop. */
  function Step(c: Config, chunk: ChunkOracle, st: Sched): (v: Visit)
    ensures v.state.time == NextStop(c.dt, c.endtime, st.timers)
    ensures forall ev :: ev in v.fired <==>
      (v.state.time.Fin? && st.timers.Of(ev) == v.state.time && c.periods.Of(ev).Every?)
    ensures forall ev :: (v.state.timers.Of(ev) ==
      if ev in v.fired then Fin(v.state.time.t + c.periods.Of(ev).n * Sign(c.dt)) else st.timers.Of(ev))
    ensures v.state.timers.input ==
      (if v.state.time == Fin(c.endtime) then st.timers.input else chunk(v.state.time, c.dt))
  {
    var s := NextStop(c.dt, c.endtime, st.timers);
    var tm := st.timers;
    var fired := set ev | ev in AllEvents && Fires(c, tm, ev, s);
    var input := if s != Fin(c.endtime) then chunk(s, c.dt) else tm.input;
    Visit(Sched(s, Timers(Advance(c, tm, Release, s), input, Advance(c, tm, Output, s),
                          Advance(c, tm, Movie, s), Advance(c, tm, Callback, s))), fired)
  }

  /** Only a timer with a period ever holds a finite time (a timer without one stays at infinity). */
  predicate FiniteTimersPeriodic(c: Config, tm: Timers) {
    forall ev :: tm.Of(ev).Fin? ==> c.periods.Of(ev).Every?
  }

  /**
   * The source's firing test `abs(time - next_x) < tol`: only a finite time
   * can hit (a difference involving an infinity is infinite or NaN).
   */
  predicate Hits(time: Time, next: Time) {
    time.Fin? && time == next
  }

  /** Every finite period is positive. */
  predicate PositivePeriods(ps: Periods) {
    forall ev :: ps.Of(ev).Every? ==> ps.Of(ev).n > 0
  }

  /** The assumption on the field collaborator: a query in a run direction answers strictly past the time asked. */
  ghost predicate ChunkAdvances(chunk: ChunkOracle) {
    forall t: int, d: int {:trigger chunk(Fin(t), d)} :: d != 0 ==> Precedes(d, Fin(t), chunk(Fin(t), d))
  }

  /**
   * The loop invariant of a stepping run: the time is finite, every finite
   * timer has a period, the periodic timers lie strictly ahead of the time and,
   * while the loop goes on, so does the input timer.
   */
  predicate Ahead(c: Config, st: Sched) {
    && st.time.Fin?
    && FiniteTimersPeriodic(c, st.timers)
    && (forall ev :: Precedes(c.dt, st.time, st.timers.Of(ev)))
    && (Continues(c.dt, st.time, c.endtime) ==> Precedes(c.dt, st.time, st.timers.input))
  }

  /** A run that advances time: nonzero timestep, positive periods, an advancing field, the invariant. */
  ghost predicate Stepping(c: Config, chunk: ChunkOracle, st: Sched) {
    c.dt != 0 && PositivePeriods(c.periods) && ChunkAdvances(chunk) && Ahead(c, st)
  }

  /** Distance still to go to the end time. */
  function Remaining(c: Config, time: Time): nat {
    if !time.Fin? then 0
    else if c.dt > 0 && time.t < c.endtime then c.endtime - time.t
    else if c.dt < 0 && time.t > c.endtime then time.t - c.endtime
    else 0
  }

  /** A pass of a stepping run keeps the invariant, moves time strictly on and never past the end time. */
  lemma StepKeepsAhead(c: Config, chunk: ChunkOracle, st: Sched)
    requires Stepping(c, chunk, st) && Continues(c.dt, st.time, c.endtime)
    ensures var next := Step(c, chunk, st).state;
      && Ahead(c, next)
      && Precedes(c.dt, st.time, next.time)
      && PrecedesEq(c.dt, next.time, Fin(c.endtime))
      && Remaining(c, next.time) < Remaining(c, st.time)
  {
    var v := Step(c, chunk, st);
    var s := v.state.time;
    assert s.Fin?;
    forall ev
      ensures Precedes(c.dt, s, v.state.timers.Of(ev))
    {
      if ev !in v.fired {
        assert st.timers.Of(ev) != s;
      }
    }
    if Continues(c.dt, s, c.endtime) {
      assert s != Fin(c.endtime);
      assert v.state.timers.input == chunk(Fin(s.t), c.dt);
    }
  }

  /**
   * The passes of the loop from state `st`: none when the loop condition
   * fails, exactly one in execute-once mode (`dt == 0` ends in `break`),
   * otherwise passes until the time reaches the end time.
   */
  function Run(c: Config, chunk: ChunkOracle, st: Sched): (vs: seq<Visit>)
    requires c.dt == 0 || Stepping(c, chunk, st)
    ensures c.dt == 0 ==> |vs| == 1
    ensures c.dt != 0 ==> (vs == [] <==> !Continues(c.dt, st.time, c.endtime))
    decreases Remaining(c, st.time)
  {
    if !Continues(c.dt, st.time, c.endtime) then []
    else
      var v := Step(c, chunk, st);
      if c.dt == 0 then [v]
      else
        StepKeepsAhead(c, chunk, st);
        [v] + Run(c, chunk, v.state)
  }
}
