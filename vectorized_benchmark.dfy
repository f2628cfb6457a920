/**
 * `ParticleSet_Benchmark.execute` of the vectorized particle set
 * (parcels/particleset_vectorized_benchmark.py).
 *
 * The particle set is a list the method updates in place. Its timing and
 * parameter logs are classes defined elsewhere; the model records what this
 * method hands them: the particle count per pass (`nparticleLog`) and the
 * number of passes on which the timing and memory logs advance (`logged`).
 */
module VectorizedBenchmark {
  import opened Opt
  import opened ExtTime
  import opened Schedule
  import opened ScheduleProperties
  import opened Setup
  import opened Passes
  import opened Launching

  /** The particle set with every NaN time replaced by `value`; other particles unchanged. */
  function Filled(ps: seq<Particle>, value: int): (qs: seq<Particle>)
    ensures |qs| == |ps|
    ensures forall i :: 0 <= i < |ps| ==> qs[i].dt == ps[i].dt && qs[i].time.Some?
    ensures forall i :: 0 <= i < |ps| ==> ps[i].time.Some? ==> qs[i].time == ps[i].time
    ensures forall i :: 0 <= i < |ps| ==> ps[i].time.None? ==> qs[i].time == Some(value)
  {
    seq(|ps|, i requires 0 <= i < |ps| => if ps[i].time.None? then ps[i].(time := Some(value)) else ps[i])
  }

  /** The particle set with every timestep set to `dt`. */
  function WithDt(ps: seq<Particle>, dt: int): (qs: seq<Particle>)
    ensures |qs| == |ps|
    ensures forall i :: 0 <= i < |ps| ==> qs[i].time == ps[i].time && qs[i].dt == dt
  {
    seq(|ps|, i requires 0 <= i < |ps| => ps[i].(dt := dt))
  }

  /**
   * The start time of a non-empty set whose times are all known: the
   * earliest time when `dt >= 0`, the latest otherwise.
   */
  function StartOf(filled: seq<Particle>, dt: int): (start: int)
    requires filled != [] && forall i :: 0 <= i < |filled| ==> filled[i].time.Some?
    ensures forall i :: 0 <= i < |filled| ==>
      if dt >= 0 then start <= filled[i].time.value else filled[i].time.value <= start
    ensures exists i :: 0 <= i < |filled| && filled[i].time == Some(start)
  {
    var times := KnownTimes(filled);
    assert filled[0].time.value in times;
    assert forall i :: 0 <= i < |filled| ==> filled[i].time.value in times;
    if dt >= 0 then Least(times) else Greatest(times)
  }

  /**
   * The whole of `execute`: the checks, the NaN fill (before the
   * runtime-and-endtime check), the start time (`min` of an empty set
   * fails), then the loop and the writes around it.
   */
  function ExecuteSpec(ps: seq<Particle>, repeatStart: Option<int>, repeatdt: Option<nat>, count: nat,
                       a: Args, range: TimeRange, chunk: ChunkOracle, kernel: Kernel): (eff: Effect)
    requires (repeatdt.Some? ==> repeatdt.value > 0) && ChunkAdvances(chunk)
    ensures eff.outcome.Failed? <==> CheckArgs(a).Some? || (a.runtime.Some? && a.endtime.Some?) || ps == []
    ensures CheckArgs(a).Some? ==> eff.outcome == Failed(CheckArgs(a).value) && eff.particles == ps
    ensures CheckArgs(a).None? && a.runtime.Some? && a.endtime.Some? ==> eff.outcome == Failed(RuntimeAndEndtime)
    ensures eff.outcome.Failed? ==> eff.repeatStart == repeatStart && eff.counts == [] && eff.logged == 0
    ensures eff.outcome.Finished? ==> eff.repeatStart.Some? == (repeatdt.Some? || repeatStart.Some?)
  {
    if CheckArgs(a).Some? then Effect(Failed(CheckArgs(a).value), ps, repeatStart, [], 0)
    else
      var filled := Filled(ps, if a.dt >= 0 then range.min else range.max);
      if a.runtime.Some? && a.endtime.Some? then Effect(Failed(RuntimeAndEndtime), filled, repeatStart, [], 0)
      else if filled == [] then Effect(Failed(EmptySet), filled, repeatStart, [], 0)
      else
        var l := LaunchAt(StartOf(filled, a.dt), repeatStart, repeatdt, true, a, range);
        LaunchReady(l.start, repeatStart, repeatdt, true, a, range, chunk);
        Finish(l, WithDt(filled, l.plan.dt), a, chunk, kernel, count)
  }

  /**
   * A stepping `execute` with an output file writes at the start, then at
   * exactly the points `start + k * outputdt * sign(dt)` (k >= 1) up to the
   * end time, and finally at the end time.
   */
  lemma ExecuteWritesEveryOutputdt(ps: seq<Particle>, repeatStart: Option<int>, repeatdt: Option<nat>, count: nat,
                                   a: Args, range: TimeRange, chunk: ChunkOracle, kernel: Kernel, x: Time)
    requires (repeatdt.Some? ==> repeatdt.value > 0) && ChunkAdvances(chunk)
    requires CheckArgs(a).None? && !(a.runtime.Some? && a.endtime.Some?) && ps != [] && a.outputdt.Some?
    ensures var filled := Filled(ps, if a.dt >= 0 then range.min else range.max);
      var l := LaunchAt(StartOf(filled, a.dt), repeatStart, repeatdt, true, a, range);
      var r := ExecuteSpec(ps, repeatStart, repeatdt, count, a, range, chunk, kernel).outcome;
      && r.Finished?
      && |r.writes| >= 2 && r.writes[0] == Fin(l.start) && r.writes[|r.writes| - 1] == r.final
      && (!l.plan.once ==>
            (x in r.writes[1..|r.writes| - 1] <==>
             OnProgression(l.plan.dt, l.start, a.outputdt.value, x) && x != Fin(l.start) &&
             PrecedesEq(l.plan.dt, x, Fin(l.plan.endtime))))
  {
    var filled := Filled(ps, if a.dt >= 0 then range.min else range.max);
    var l := LaunchAt(StartOf(filled, a.dt), repeatStart, repeatdt, true, a, range);
    LaunchReady(l.start, repeatStart, repeatdt, true, a, range, chunk);
    var pd := WithDt(filled, l.plan.dt);
    assert ExecuteSpec(ps, repeatStart, repeatdt, count, a, range, chunk, kernel) == Finish(l, pd, a, chunk, kernel, count);
    FinishWritesEveryOutputdt(l, pd, a, chunk, kernel, count, x);
  }

  /**
   * A successful `execute` draws movie frames and runs the callbacks on
   * their progressions: no frame without `moviedt`, else a frame at the
   * start and, when it steps, frames at exactly the points
   * `start + k * moviedt * sign(dt)` (k >= 1) up to the end time; callbacks
   * at no pass when the callback period is `np.infty`, else, when it steps,
   * at exactly the points `start + k * callbackdt * sign(dt)` of the given or
   * default callback period.
   */
  lemma ExecuteFramesAndCallbacks(ps: seq<Particle>, repeatStart: Option<int>, repeatdt: Option<nat>, count: nat,
                                  a: Args, range: TimeRange, chunk: ChunkOracle, kernel: Kernel, x: Time)
    requires (repeatdt.Some? ==> repeatdt.value > 0) && ChunkAdvances(chunk)
    requires CheckArgs(a).None? && !(a.runtime.Some? && a.endtime.Some?) && ps != []
    ensures var filled := Filled(ps, if a.dt >= 0 then range.min else range.max);
      var l := LaunchAt(StartOf(filled, a.dt), repeatStart, repeatdt, true, a, range);
      var cb := MakePeriods(a, repeatdt, true).callback;
      var r := ExecuteSpec(ps, repeatStart, repeatdt, count, a, range, chunk, kernel).outcome;
      && r.Finished?
      && (a.moviedt.None? ==> r.frames == [])
      && (a.moviedt.Some? ==>
            && |r.frames| >= 1 && r.frames[0] == Fin(l.start)
            && (!l.plan.once ==>
                  (x in r.frames[1..] <==>
                   OnProgression(l.plan.dt, l.start, a.moviedt.value, x) && x != Fin(l.start) &&
                   PrecedesEq(l.plan.dt, x, Fin(l.plan.endtime)))))
      && (cb.Never? ==> r.callbacks == [])
      && (!l.plan.once && cb.Every? ==>
            (x in r.callbacks <==>
             OnProgression(l.plan.dt, l.start, cb.n, x) && x != Fin(l.start) &&
             PrecedesEq(l.plan.dt, x, Fin(l.plan.endtime))))
  {
    var filled := Filled(ps, if a.dt >= 0 then range.min else range.max);
    var l := LaunchAt(StartOf(filled, a.dt), repeatStart, repeatdt, true, a, range);
    LaunchReady(l.start, repeatStart, repeatdt, true, a, range, chunk);
    var pd := WithDt(filled, l.plan.dt);
    assert ExecuteSpec(ps, repeatStart, repeatdt, count, a, range, chunk, kernel) == Finish(l, pd, a, chunk, kernel, count);
    FinishFramesEveryMoviedt(l, pd, a, chunk, kernel, count, x);
    FinishCallbacksEveryPeriod(l, pd, a, chunk, kernel, count, x);
  }

  /**
   * The loop's end: execute-once mode logs one particle count and advances
   * no timing log; a stepping run that enters the loop ends at the end time
   * and advances the timing logs once per logged particle count.
   */
  lemma ExecuteLogsPasses(ps: seq<Particle>, repeatStart: Option<int>, repeatdt: Option<nat>, count: nat,
                          a: Args, range: TimeRange, chunk: ChunkOracle, kernel: Kernel)
    requires (repeatdt.Some? ==> repeatdt.value > 0) && ChunkAdvances(chunk)
    requires CheckArgs(a).None? && !(a.runtime.Some? && a.endtime.Some?) && ps != []
    ensures var filled := Filled(ps, if a.dt >= 0 then range.min else range.max);
      var l := LaunchAt(StartOf(filled, a.dt), repeatStart, repeatdt, true, a, range);
      var eff := ExecuteSpec(ps, repeatStart, repeatdt, count, a, range, chunk, kernel);
      && (l.plan.once ==> |eff.counts| == 1 && eff.logged == 0)
      && (!l.plan.once ==> eff.logged == |eff.counts|)
      && (!l.plan.once && Continues(l.plan.dt, Fin(l.start), l.plan.endtime) ==> eff.outcome.final == Fin(l.plan.endtime))
  {
    var filled := Filled(ps, if a.dt >= 0 then range.min else range.max);
    var l := LaunchAt(StartOf(filled, a.dt), repeatStart, repeatdt, true, a, range);
    LaunchReady(l.start, repeatStart, repeatdt, true, a, range, chunk);
    var pd := WithDt(filled, l.plan.dt);
    assert ExecuteSpec(ps, repeatStart, repeatdt, count, a, range, chunk, kernel) == Finish(l, pd, a, chunk, kernel, count);
    FinishLogsPasses(l, pd, a, chunk, kernel, count);
  }

  class ParticleSetBenchmark {
    /** The particles, in the set's order. */
    var particles: seq<Particle>
    /** `repeat_starttime`; `execute` sets it when releases are configured and it is unset. */
    var repeatStarttime: Option<int>
    /** `repeatdt`: the release interval, if particles are released repeatedly. */
    const repeatdt: Option<nat>
    /** How many particles one release adds (the length of `repeatlon`). */
    const repeatCount: nat
    /** The arguments of `nparticle_log.advance_iteration`. */
    var nparticleLog: seq<nat>
    /** How many times the timing and memory logs were advanced. */
    var logged: nat

    /** A positive release interval; the constructor that ensures it is not part of this model. */
    predicate Valid() {
      repeatdt.Some? ==> repeatdt.value > 0
    }

    constructor (particles: seq<Particle>, repeatdt: Option<nat>, repeatCount: nat)
      requires repeatdt.Some? ==> repeatdt.value > 0
      ensures Valid()
      ensures this.particles == particles && this.repeatdt == repeatdt && this.repeatCount == repeatCount
      ensures repeatStarttime.None? && nparticleLog == [] && logged == 0
    {
      this.particles := particles;
      this.repeatdt := repeatdt;
      this.repeatCount := repeatCount;
      repeatStarttime := None;
      nparticleLog := [];
      logged := 0;
    }

    /** The loop over the particles giving each NaN time the value `value`. */
    method FillMissingTimes(value: int)
      modifies this`particles
      ensures particles == Filled(old(particles), value)
    {
      var ps := particles;
      ghost var want := Filled(ps, value);
      var i := 0;
      while i < |ps|
        invariant 0 <= i <= |ps| == |want|
        invariant forall j :: 0 <= j < i ==> ps[j] == want[j]
        invariant forall j :: i <= j < |ps| ==> ps[j] == particles[j]
      {
        if ps[i].time.None? {
          ps := ps[i := ps[i].(time := Some(value))];
        }
        i := i + 1;
      }
      particles := ps;
    }

    /** The loop `for p in self: p.dt = dt`. */
    method SetTimestep(dt: int)
      modifies this`particles
      ensures particles == WithDt(old(particles), dt)
    {
      var ps := particles;
      ghost var want := WithDt(ps, dt);
      var i := 0;
      while i < |ps|
        invariant 0 <= i <= |ps| == |want|
        invariant forall j :: 0 <= j < i ==> ps[j] == want[j]
        invariant forall j :: i <= j < |ps| ==> ps[j] == particles[j]
      {
        ps := ps[i := ps[i].(dt := dt)];
        i := i + 1;
      }
      particles := ps;
    }

    /**
     * One pass of the loop body on the particle set `ps` from the time
     * `time` and the timers `tm`: pick the stop, run the kernel, release when
     * due, report which of output, movie frame and callback are due, move
     * the timers that fired and re-query the field unless at the end time.
     */
    method Pass(c: Config, chunk: ChunkOracle, once: bool, kernel: Kernel, ps: seq<Particle>, time: Time, tm: Timers)
      returns (moved: seq<Particle>, stop: Time, next: Timers, write: bool, frame: bool, callback: bool)
      requires FiniteTimersPeriodic(c, tm)
      requires c.periods.release.Every? ==> repeatdt == Some(c.periods.release.n)
      ensures var v := Step(c, chunk, Sched(time, tm));
        && Sched(stop, next) == v.state
        && moved == AfterPass(ps, v, c.dt, once, kernel, repeatCount)
        && (write <==> Output in v.fired) && (frame <==> Movie in v.fired) && (callback <==> Callback in v.fired)
    {
      ghost var v := Step(c, chunk, Sched(time, tm));
      stop := NextStop(c.dt, c.endtime, tm);
      moved := kernel(ps, stop, c.dt, once);
      var release, nextRelease := Tick(c, tm, Release, stop);
      if release {
        moved := moved + Released(stop.t, c.dt, repeatCount);
      }
      var nextOutput, nextMovie, nextCallback;
      write, nextOutput := Tick(c, tm, Output, stop);
      frame, nextMovie := Tick(c, tm, Movie, stop);
      callback, nextCallback := Tick(c, tm, Callback, stop);
      var nextInput := if stop != Fin(c.endtime) then chunk(stop, c.dt) else tm.input;
      next := Timers(nextRelease, nextInput, nextOutput, nextMovie, nextCallback);
      assert stop == v.state.time;
      assert release == (Release in v.fired) && write == (Output in v.fired);
      assert frame == (Movie in v.fired) && callback == (Callback in v.fired);
      assert v.state.timers == Timers(v.state.timers.Of(Release), v.state.timers.input, v.state.timers.Of(Output),
                                      v.state.timers.Of(Movie), v.state.timers.Of(Callback));
    }

    /**
     * The stepping loop from the state `st`: passes while the loop condition
     * holds, writing output, showing a frame and calling back where a pass
     * says so, advancing the timing logs, and ending after one pass in
     * execute-once mode.
     */
    method StepLoop(c: Config, st: Sched, once: bool, chunk: ChunkOracle, kernel: Kernel, ghost vs: seq<Visit>,
                    ps0: seq<Particle>)
      returns (time: Time, ps: seq<Particle>, counts: seq<nat>, passes: nat, outputs: seq<Time>, frames: seq<Time>,
               callbacks: seq<Time>)
      requires Visits(c, chunk, st, vs) && (c.dt == 0 <==> once)
      requires c.periods.release.Every? ==> repeatdt == Some(c.periods.release.n)
      ensures EffectOf(st, vs, c.dt, once, kernel, repeatCount, ps0)
           == LoopEffect(time, ps, counts, passes, outputs, frames, callbacks)
    {
      time := st.time;
      var timers := st.timers;
      ps, counts, passes := ps0, [], 0;
      outputs, frames, callbacks := [], [], [];
      ghost var k := 0;
      while Continues(c.dt, time, c.endtime)
        invariant (c.dt == 0 ==> k == 0) && passes == k
        invariant Progress(st, vs, k, c.dt, once, kernel, repeatCount, ps0, time, timers, ps, counts,
                           outputs, frames, callbacks)
        decreases |vs| - k
      {
        ProgressGoesOn(c, chunk, st, vs, k, once, kernel, repeatCount, ps0, time, timers, ps, counts,
                       outputs, frames, callbacks);
        var moved, stop, next, write, frame, callback := Pass(c, chunk, once, kernel, ps, time, timers);
        ProgressStep(st, vs, k, c.dt, once, kernel, repeatCount, ps0, time, timers, ps, counts, outputs, frames,
                     callbacks, stop, next, moved, write, frame, callback);
        ps, time, timers := moved, stop, next;
        counts := counts + [|ps|];
        outputs := outputs + (if write then [time] else []);
        frames := frames + (if frame then [time] else []);
        callbacks := callbacks + (if callback then [time] else []);
        k := k + 1;
        if c.dt == 0 {
          break;
        }
        passes := passes + 1;
      }
      ProgressEnds(c, chunk, st, vs, k, once, kernel, repeatCount, ps0, time, timers, ps, counts,
                   outputs, frames, callbacks);
    }

    /** The stepping loop from a state it can run from: its effect is the one `LoopSpec` gives. */
    method RunLoop(c: Config, st: Sched, once: bool, chunk: ChunkOracle, kernel: Kernel)
      returns (time: Time, outputs: seq<Time>, frames: seq<Time>, callbacks: seq<Time>)
      requires Runnable(c, chunk, st, once) && FiniteTimersPeriodic(c, st.timers)
      requires c.periods.release.Every? ==> repeatdt == Some(c.periods.release.n)
      modifies this`particles, this`nparticleLog, this`logged
      ensures var e := LoopSpec(c, chunk, st, once, kernel, repeatCount, old(particles));
        && time == e.final && particles == e.particles
        && nparticleLog == old(nparticleLog) + e.counts && logged == old(logged) + e.logged
        && outputs == e.outputs && frames == e.frames && callbacks == e.callbacks
    {
      RunVisits(c, chunk, st, once);
      var ps, counts, passes;
      time, ps, counts, passes, outputs, frames, callbacks := StepLoop(c, st, once, chunk, kernel, Run(c, chunk, st),
                                                                       particles);
      particles, nparticleLog, logged := ps, nparticleLog + counts, logged + passes;
    }

    /** `execute`, from the argument checks to the final output write. */
    method Execute(a: Args, range: TimeRange, chunk: ChunkOracle, kernel: Kernel) returns (r: Outcome)
      requires Valid() && ChunkAdvances(chunk)
      modifies this
      ensures var e := ExecuteSpec(old(particles), old(repeatStarttime), repeatdt, repeatCount, a, range, chunk, kernel);
        && r == e.outcome && particles == e.particles && repeatStarttime == e.repeatStart
        && nparticleLog == old(nparticleLog) + e.counts && logged == old(logged) + e.logged
    {
      var check := CheckArgs(a);
      if check.Some? {
        return Failed(check.value);
      }
      FillMissingTimes(if a.dt >= 0 then range.min else range.max);
      if a.runtime.Some? && a.endtime.Some? {
        return Failed(RuntimeAndEndtime);
      }
      if particles == [] {
        return Failed(EmptySet);
      }
      r := Start(a, range, chunk, kernel);
    }

    /**
     * `execute` after the checks, on a non-empty set whose times are all
     * known: the start time, the repeat start time, the plan, the timestep,
     * the loop and the writes around it.
     */
    method Start(a: Args, range: TimeRange, chunk: ChunkOracle, kernel: Kernel) returns (r: Outcome)
      requires Valid() && ChunkAdvances(chunk) && CheckArgs(a).None?
      requires particles != [] && forall i :: 0 <= i < |particles| ==> particles[i].time.Some?
      modifies this`particles, this`repeatStarttime, this`nparticleLog, this`logged
      ensures (var l := LaunchAt(StartOf(old(particles), a.dt), old(repeatStarttime), repeatdt, true, a, range);
        LaunchReady(l.start, old(repeatStarttime), repeatdt, true, a, range, chunk);
        var e := Finish(l, WithDt(old(particles), l.plan.dt), a, chunk, kernel, repeatCount);
        && r == e.outcome && particles == e.particles && repeatStarttime == e.repeatStart
        && nparticleLog == old(nparticleLog) + e.counts && logged == old(logged) + e.logged)
    {
      var l := LaunchAt(StartOf(particles, a.dt), repeatStarttime, repeatdt, true, a, range);
      LaunchReady(l.start, repeatStarttime, repeatdt, true, a, range, chunk);
      if repeatdt.Some? && repeatStarttime.None? {
        repeatStarttime := Some(l.start);
      }
      r := Launched(l, a, chunk, kernel);
    }

    /**
     * The part of `execute` after the start time is known: set the
     * timestep, run the loop, and write output and show a frame at the
     * start and write output again at the end.
     */
    method Launched(l: Launch, a: Args, chunk: ChunkOracle, kernel: Kernel) returns (r: Outcome)
      requires Ready(l, chunk) && (l.periods.release.Every? ==> repeatdt == Some(l.periods.release.n))
      modifies this`particles, this`nparticleLog, this`logged
      ensures var e := Finish(l, WithDt(old(particles), l.plan.dt), a, chunk, kernel, repeatCount);
        && r == e.outcome && particles == e.particles
        && nparticleLog == old(nparticleLog) + e.counts && logged == old(logged) + e.logged
    {
      SetTimestep(l.plan.dt);
      var time, outputs, frames, callbacks := RunLoop(LaunchConfig(l), LaunchSched(l, chunk), l.plan.once, chunk, kernel);
      var writes := if a.outputdt.Some? then [Fin(l.start)] + outputs + [time] else [];
      var shown := (if a.moviedt.Some? && a.moviedt.value != 0 then [Fin(l.start)] else []) + frames;
      r := Finished(time, writes, shown, callbacks);
    }
  }
}
