/**
 * What the passes of the stepping loop do besides moving the timers: the
 * kernel runs up to each stop, a release appends new particles, the particle
 * count is logged on every pass, output, movie frames and callbacks happen at
 * the stops where their timers fire, and the timing and memory logs advance
 * on every pass that does not end in the execute-once `break`.
 */
module Passes {
  import opened Opt
  import opened ExtTime
  import opened Schedule
  import opened ScheduleProperties

  /** A particle as the loop sees it: its time (`None` for NaN) and its timestep. */
  datatype Particle = Particle(time: Option<int>, dt: int)

  /** `kernel.execute(pset, endtime=time, dt=dt, execute_once=...)`: the particles after the kernel ran up to the stop. */
  type Kernel = (seq<Particle>, Time, int, bool) -> seq<Particle>

  /** The times of the particles whose time is set, in order (the list comprehension over non-NaN times). */
  function KnownTimes(ps: seq<Particle>): (ts: seq<int>)
    ensures |ts| <= |ps|
    ensures forall x :: x in ts <==> exists i :: 0 <= i < |ps| && ps[i].time == Some(x)
    ensures (forall i :: 0 <= i < |ps| ==> ps[i].time.Some?) ==>
      |ts| == |ps| && forall i :: 0 <= i < |ps| ==> ts[i] == ps[i].time.value
  {
    if ps == [] then []
    else
      var rest := KnownTimes(ps[1..]);
      assert forall i :: 0 < i < |ps| ==> ps[i] == ps[1..][i - 1];
      if ps[0].time.Some? then [ps[0].time.value] + rest else rest
  }

  /** The particles a release adds: `count` new particles at time `at` with timestep `dt`. */
  function Released(at: int, dt: int, count: nat): (ps: seq<Particle>)
    ensures |ps| == count
    ensures forall i :: 0 <= i < count ==> ps[i] == Particle(Some(at), dt)
  {
    if count == 0 then [] else Released(at, dt, count - 1) + [Particle(Some(at), dt)]
  }

  /**
   * One pass on the particle set: the kernel runs to the stop, then a due
   * release appends `count` particles at the stop with timestep `dt`; the
   * kernel's particles come first and are not touched.
   */
  function AfterPass(ps: seq<Particle>, v: Visit, dt: int, once: bool, kernel: Kernel, count: nat): (after: seq<Particle>)
    ensures var moved := kernel(ps, v.state.time, dt, once);
      var released := Release in v.fired && v.state.time.Fin?;
      && |after| == |moved| + (if released then count else 0)
      && after[..|moved|] == moved
      && forall i :: |moved| <= i < |after| ==> after[i] == Particle(Some(v.state.time.t), dt)
  {
    var moved := kernel(ps, v.state.time, dt, once);
    if Release in v.fired && v.state.time.Fin? then moved + Released(v.state.time.t, dt, count) else moved
  }

  /**
   * One timer's test in the loop body (`if abs(time - next_x) < tol: ... next_x += xdt * np.sign(dt)`),
   * made on the stop alone: it agrees with the firing rule of `Step` and with the timer's move.
   */
  method Tick(c: Config, tm: Timers, ev: Event, stop: Time) returns (hit: bool, after: Time)
    requires FiniteTimersPeriodic(c, tm)
    ensures hit == Fires(c, tm, ev, stop)
    ensures after == Advance(c, tm, ev, stop)
  {
    var next := tm.Of(ev);
    hit := Hits(stop, next);
    after := next;
    if hit {
      after := Fin(stop.t + c.periods.Of(ev).n * Sign(c.dt));
    }
  }

  /** The particle set after the first `n` passes of `vs`. */
  function ParticlesAfter(ps: seq<Particle>, vs: seq<Visit>, n: nat, dt: int, once: bool, kernel: Kernel, count: nat): seq<Particle>
    requires n <= |vs|
  {
    if n == 0 then ps
    else AfterPass(ParticlesAfter(ps, vs, n - 1, dt, once, kernel, count), vs[n - 1], dt, once, kernel, count)
  }

  /** The entries `nparticle_log` gains in the first `n` passes of `vs`: one per pass. */
  function CountsAfter(ps: seq<Particle>, vs: seq<Visit>, n: nat, dt: int, once: bool, kernel: Kernel, count: nat): seq<nat>
    requires n <= |vs|
  {
    if n == 0 then []
    else CountsAfter(ps, vs, n - 1, dt, once, kernel, count) + [|ParticlesAfter(ps, vs, n, dt, once, kernel, count)|]
  }

  /** The `i`-th logged count is the size of the set after the kernel and release of pass `i`. */
  lemma {:induction false} CountsLogEachPass(ps: seq<Particle>, vs: seq<Visit>, n: nat, dt: int, once: bool, kernel: Kernel, count: nat)
    requires n <= |vs|
    ensures |CountsAfter(ps, vs, n, dt, once, kernel, count)| == n
    ensures forall i :: 0 <= i < n ==>
      CountsAfter(ps, vs, n, dt, once, kernel, count)[i] == |ParticlesAfter(ps, vs, i + 1, dt, once, kernel, count)|
  {
    if n > 0 {
      CountsLogEachPass(ps, vs, n - 1, dt, once, kernel, count);
    }
  }

  /** The times at which the first `n` passes of `vs` fired `ev`, in order. */
  function FiredUpTo(vs: seq<Visit>, n: nat, ev: Event): seq<Time>
    requires n <= |vs|
  {
    if n == 0 then []
    else FiredUpTo(vs, n - 1, ev) + (if ev in vs[n - 1].fired then [vs[n - 1].state.time] else [])
  }

  /** `FiredUpTo` over the first `n` passes is `FiredAt` of those passes. */
  lemma {:induction false} FiredUpToPrefix(vs: seq<Visit>, n: nat, ev: Event)
    requires n <= |vs|
    ensures FiredUpTo(vs, n, ev) == FiredAt(vs[..n], ev)
  {
    if n > 0 {
      FiredUpToPrefix(vs, n - 1, ev);
      assert vs[..n][..n - 1] == vs[..n - 1];
    }
  }

  /** Over all passes, `FiredUpTo` is `FiredAt`. */
  lemma FiredUpToAll(vs: seq<Visit>, ev: Event)
    ensures FiredUpTo(vs, |vs|, ev) == FiredAt(vs, ev)
  {
    FiredUpToPrefix(vs, |vs|, ev);
    assert vs[..|vs|] == vs;
  }

  /** The loop's state after the first `n` passes of `vs` from `st`: `st` itself when no pass ran. */
  function StateAt(st: Sched, vs: seq<Visit>, n: nat): Sched
    requires n <= |vs|
  {
    if n == 0 then st else vs[n - 1].state
  }

  /** What the stepping loop leaves behind. `logged` counts the passes that advance the timing and memory logs. */
  datatype LoopEffect = LoopEffect(
    final: Time,
    particles: seq<Particle>,
    counts: seq<nat>,
    logged: nat,
    outputs: seq<Time>,
    frames: seq<Time>,
    callbacks: seq<Time>)

  /** A loop that either steps with nonzero `dt` or is the execute-once pass. */
  ghost predicate Runnable(c: Config, chunk: ChunkOracle, st: Sched, once: bool) {
    (c.dt == 0 && once) || (c.dt != 0 && !once && Stepping(c, chunk, st))
  }

  /**
   * The passes of a run, one at a time: after the first `k` passes the next
   * pass is one `Step` from the state reached, and only timers with a period
   * hold finite times there.
   */
  lemma {:induction false} RunAt(c: Config, chunk: ChunkOracle, st: Sched, once: bool, k: nat)
    requires Runnable(c, chunk, st, once) && FiniteTimersPeriodic(c, st.timers)
    requires k < |Run(c, chunk, st)|
    decreases k
    ensures FiniteTimersPeriodic(c, StateAt(st, Run(c, chunk, st), k).timers)
    ensures Run(c, chunk, st)[k] == Step(c, chunk, StateAt(st, Run(c, chunk, st), k))
  {
    var vs := Run(c, chunk, st);
    if k > 0 {
      var v := Step(c, chunk, st);
      StepKeepsAhead(c, chunk, st);
      var ws := Run(c, chunk, v.state);
      assert vs == [v] + ws;
      RunAt(c, chunk, v.state, once, k - 1);
      assert StateAt(st, vs, k) == StateAt(v.state, ws, k - 1);
    }
  }

  /** A stepping loop goes on after the first `k` passes exactly while passes remain. */
  lemma {:induction false} RunGoesOn(c: Config, chunk: ChunkOracle, st: Sched, k: nat)
    requires Stepping(c, chunk, st)
    requires k <= |Run(c, chunk, st)|
    decreases k
    ensures k < |Run(c, chunk, st)| <==> Continues(c.dt, StateAt(st, Run(c, chunk, st), k).time, c.endtime)
  {
    var vs := Run(c, chunk, st);
    if k > 0 {
      var v := Step(c, chunk, st);
      StepKeepsAhead(c, chunk, st);
      var ws := Run(c, chunk, v.state);
      assert vs == [v] + ws;
      RunGoesOn(c, chunk, v.state, k - 1);
      assert StateAt(st, vs, k) == StateAt(v.state, ws, k - 1);
    }
  }

  /** The effect of the passes `vs` made from `st`, with `count` particles per release. */
  function EffectOf(st: Sched, vs: seq<Visit>, dt: int, once: bool, kernel: Kernel, count: nat, ps: seq<Particle>): LoopEffect {
    LoopEffect(
      StateAt(st, vs, |vs|).time,
      ParticlesAfter(ps, vs, |vs|, dt, once, kernel, count),
      CountsAfter(ps, vs, |vs|, dt, once, kernel, count),
      if once then 0 else |vs|,
      FiredUpTo(vs, |vs|, Output),
      FiredUpTo(vs, |vs|, Movie),
      FiredUpTo(vs, |vs|, Callback))
  }

  /** The effect of the whole loop started in `st`, with `count` particles per release. */
  function LoopSpec(c: Config, chunk: ChunkOracle, st: Sched, once: bool, kernel: Kernel, count: nat,
                    ps: seq<Particle>): LoopEffect
    requires Runnable(c, chunk, st, once)
  {
    EffectOf(st, Run(c, chunk, st), c.dt, once, kernel, count, ps)
  }

  /**
   * `vs` are the passes a loop makes from `st`, as its body sees them: each
   * is one `Step` from the state the passes before it reached, where only
   * timers with a period hold finite times; execute-once mode makes one pass,
   * a stepping loop goes on exactly while passes remain.
   */
  ghost predicate Visits(c: Config, chunk: ChunkOracle, st: Sched, vs: seq<Visit>) {
    && (c.dt == 0 ==> |vs| == 1)
    && (forall k :: 0 <= k < |vs| ==> VisitAt(c, chunk, st, vs, k))
    && (c.dt != 0 ==> forall k :: 0 <= k <= |vs| ==> GoesOnAt(c, st, vs, k))
  }

  /** Pass `k` of `vs` is one `Step` from the state reached, where only timers with a period hold finite times. */
  ghost predicate VisitAt(c: Config, chunk: ChunkOracle, st: Sched, vs: seq<Visit>, k: nat)
    requires k < |vs|
  {
    FiniteTimersPeriodic(c, StateAt(st, vs, k).timers) && vs[k] == Step(c, chunk, StateAt(st, vs, k))
  }

  /** After `k` of the passes `vs`, the loop condition holds exactly when a pass remains. */
  ghost predicate GoesOnAt(c: Config, st: Sched, vs: seq<Visit>, k: nat)
    requires k <= |vs|
  {
    k < |vs| <==> Continues(c.dt, StateAt(st, vs, k).time, c.endtime)
  }

  /**
   * A loop over the passes `vs` from `st` that has made `k` of them: it
   * stands at `time` with the timers `timers`, holds the particles `ps`
   * grown from `ps0`, has logged the counts `counts`, and has seen the
   * outputs, frames and callbacks of those passes.
   */
  ghost predicate Progress(st: Sched, vs: seq<Visit>, k: nat, dt: int, once: bool, kernel: Kernel, count: nat,
                           ps0: seq<Particle>, time: Time, timers: Timers, ps: seq<Particle>, counts: seq<nat>,
                           outputs: seq<Time>, frames: seq<Time>, callbacks: seq<Time>)
  {
    && k <= |vs| && Sched(time, timers) == StateAt(st, vs, k)
    && ps == ParticlesAfter(ps0, vs, k, dt, once, kernel, count)
    && counts == CountsAfter(ps0, vs, k, dt, once, kernel, count)
    && outputs == FiredUpTo(vs, k, Output) && frames == FiredUpTo(vs, k, Movie)
    && callbacks == FiredUpTo(vs, k, Callback)
  }

  /** While the loop condition holds, a pass remains, and it is one `Step` from where the loop stands. */
  lemma ProgressGoesOn(c: Config, chunk: ChunkOracle, st: Sched, vs: seq<Visit>, k: nat, once: bool, kernel: Kernel,
                       count: nat, ps0: seq<Particle>, time: Time, timers: Timers, ps: seq<Particle>, counts: seq<nat>,
                       outputs: seq<Time>, frames: seq<Time>, callbacks: seq<Time>)
    requires Visits(c, chunk, st, vs) && (c.dt == 0 ==> k == 0) && Continues(c.dt, time, c.endtime)
    requires Progress(st, vs, k, c.dt, once, kernel, count, ps0, time, timers, ps, counts, outputs, frames, callbacks)
    ensures k < |vs| && FiniteTimersPeriodic(c, timers) && vs[k] == Step(c, chunk, Sched(time, timers))
  {
    if c.dt != 0 {
      assert GoesOnAt(c, st, vs, k);
    }
    assert VisitAt(c, chunk, st, vs, k);
  }

  /** One more pass, as the loop body makes it, is one more pass of progress. */
  lemma ProgressStep(st: Sched, vs: seq<Visit>, k: nat, dt: int, once: bool, kernel: Kernel, count: nat,
                     ps0: seq<Particle>, time: Time, timers: Timers, ps: seq<Particle>, counts: seq<nat>,
                     outputs: seq<Time>, frames: seq<Time>, callbacks: seq<Time>,
                     stop: Time, next: Timers, moved: seq<Particle>, write: bool, frame: bool, callback: bool)
    requires Progress(st, vs, k, dt, once, kernel, count, ps0, time, timers, ps, counts, outputs, frames, callbacks)
    requires k < |vs| && Sched(stop, next) == vs[k].state && moved == AfterPass(ps, vs[k], dt, once, kernel, count)
    requires (write <==> Output in vs[k].fired) && (frame <==> Movie in vs[k].fired)
    requires callback <==> Callback in vs[k].fired
    ensures Progress(st, vs, k + 1, dt, once, kernel, count, ps0, stop, next, moved, counts + [|moved|],
                     outputs + (if write then [stop] else []), frames + (if frame then [stop] else []),
                     callbacks + (if callback then [stop] else []))
  {
  }

  /** When the loop ends, by its condition or by the execute-once break, every pass has been made. */
  lemma ProgressEnds(c: Config, chunk: ChunkOracle, st: Sched, vs: seq<Visit>, k: nat, once: bool, kernel: Kernel,
                     count: nat, ps0: seq<Particle>, time: Time, timers: Timers, ps: seq<Particle>, counts: seq<nat>,
                     outputs: seq<Time>, frames: seq<Time>, callbacks: seq<Time>)
    requires Visits(c, chunk, st, vs) && (c.dt == 0 ==> k == 1) && (c.dt != 0 ==> !Continues(c.dt, time, c.endtime))
    requires Progress(st, vs, k, c.dt, once, kernel, count, ps0, time, timers, ps, counts, outputs, frames, callbacks)
    ensures k == |vs|
    ensures EffectOf(st, vs, c.dt, once, kernel, count, ps0)
         == LoopEffect(time, ps, counts, if once then 0 else k, outputs, frames, callbacks)
  {
    if c.dt != 0 {
      assert GoesOnAt(c, st, vs, k);
    }
  }

  /** A run is what the loop's passes are. */
  lemma RunVisits(c: Config, chunk: ChunkOracle, st: Sched, once: bool)
    requires Runnable(c, chunk, st, once) && FiniteTimersPeriodic(c, st.timers)
    ensures Visits(c, chunk, st, Run(c, chunk, st))
  {
    var vs := Run(c, chunk, st);
    forall k | 0 <= k < |vs|
      ensures VisitAt(c, chunk, st, vs, k)
    {
      RunAt(c, chunk, st, once, k);
    }
    if c.dt != 0 {
      forall k | 0 <= k <= |vs|
        ensures GoesOnAt(c, st, vs, k)
      {
        RunGoesOn(c, chunk, st, k);
      }
    }
  }

  /**
   * Execute-once mode runs exactly one pass: the particle count is logged
   * once and the timing logs never advance.
   */
  lemma OnceLogsOnePass(c: Config, chunk: ChunkOracle, st: Sched, kernel: Kernel, count: nat, ps: seq<Particle>)
    requires Runnable(c, chunk, st, true)
    ensures var e := LoopSpec(c, chunk, st, true, kernel, count, ps);
      && |e.counts| == 1
      && e.counts[0] == |e.particles|
      && e.logged == 0
      && e.final == Step(c, chunk, st).state.time
  {
    var vs := Run(c, chunk, st);
    assert vs == [Step(c, chunk, st)];
    assert CountsAfter(ps, vs, 1, c.dt, true, kernel, count) == [|ParticlesAfter(ps, vs, 1, c.dt, true, kernel, count)|];
  }

  /**
   * A stepping run logs the particle count and advances the timing logs once
   * per pass; it ends at the end time when the loop is entered, and leaves
   * everything as it was when it is not.
   */
  lemma SteppingLogsEveryPass(c: Config, chunk: ChunkOracle, st: Sched, kernel: Kernel, count: nat, ps: seq<Particle>)
    requires Runnable(c, chunk, st, false)
    ensures var e := LoopSpec(c, chunk, st, false, kernel, count, ps);
      && e.logged == |e.counts|
      && (Continues(c.dt, st.time, c.endtime) ==> e.final == Fin(c.endtime))
      && (!Continues(c.dt, st.time, c.endtime) ==> e.final == st.time && e.counts == [] && e.particles == ps)
  {
    var vs := Run(c, chunk, st);
    CountsLogEachPass(ps, vs, |vs|, c.dt, false, kernel, count);
    if Continues(c.dt, st.time, c.endtime) {
      RunEndsAtEndtime(c, chunk, st);
    }
  }
}
