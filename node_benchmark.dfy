/**
 * `ParticleSet_Benchmark.execute` of the node particle set
 * (parcels/particleset_node_benchmark.py).
 *
 * The same stepping loop as the vectorized set, with three differences in
 * the set-up: the start time also takes the field's first (or last) time
 * into account, so an empty set is no error; NaN times become the start
 * time in the loop that sets each node's timestep; and particles are
 * released only when the set has release parameters, `num_pts` nodes at a
 * time, each appended by its own loop iteration. The set keeps four timing
 * logs and two parameter logs, which the loop advances.
 *
 * Clock readings and the resident memory size are oracles: `clock(t, p)` is
 * the reading taken at the probe `p` while the loop's time is `t`, and
 * `rss(t)` the memory reading at the end of the pass that stopped at `t`.
 */
module NodeBenchmark {
  import opened Opt
  import opened ExtTime
  import opened Schedule
  import opened ScheduleProperties
  import opened Setup
  import opened Passes
  import opened Launching
  import opened NodeLogging

  /** The totals recorded by the total, compute, IO and plot timing logs. */
  datatype Totals = Totals(total: seq<int>, compute: seq<int>, io: seq<int>, plot: seq<int>)

  /** `xs` is `ys` with `n` more entries appended. */
  predicate Grown(xs: seq<int>, ys: seq<int>, n: nat) {
    |xs| == |ys| + n && ys <= xs
  }

  /** Each list of `now` is the matching list of `before` with `n` more entries appended. */
  predicate Extends(now: Totals, before: Totals, n: nat) {
    && Grown(now.total, before.total, n) && Grown(now.compute, before.compute, n)
    && Grown(now.io, before.io, n) && Grown(now.plot, before.plot, n)
  }

  /** The places in `execute` where a timing log reads the clock. */
  datatype Probe =
    | TotalStart | TotalStop | ComputeStart | ComputeStop | WriteStart | WriteStop
    | PlotStart | PlotStop | InputStart | InputStop | FinalWriteStart | FinalWriteStop

  type Clock = (Time, Probe) -> int
  type Rss = Time -> int

  /**
   * The start time: the least of the known node times and the field's first
   * time when `dt >= 0`, otherwise the greatest of them and its last time.
   */
  function NodeStart(nodes: seq<Particle>, dt: int, range: TimeRange): (start: int)
    ensures dt >= 0 ==> start <= range.min && forall i :: 0 <= i < |nodes| && nodes[i].time.Some? ==> start <= nodes[i].time.value
    ensures dt < 0 ==> range.max <= start && forall i :: 0 <= i < |nodes| && nodes[i].time.Some? ==> nodes[i].time.value <= start
    ensures start == (if dt >= 0 then range.min else range.max) || exists i :: 0 <= i < |nodes| && nodes[i].time == Some(start)
  {
    var times := KnownTimes(nodes);
    var xs := times + [if dt >= 0 then range.min else range.max];
    var m := if dt >= 0 then Least(xs) else Greatest(xs);
    assert xs[|times|] == range.min || xs[|times|] == range.max;
    forall i | 0 <= i < |nodes| && nodes[i].time.Some?
      ensures if dt >= 0 then m <= nodes[i].time.value else nodes[i].time.value <= m
    {
      assert nodes[i].time.value in times;
      var j :| 0 <= j < |times| && times[j] == nodes[i].time.value;
      assert xs[j] == times[j];
    }
    assert m in times || m == xs[|times|];
    m
  }

  /** The nodes after the `piter` loop: every timestep is `dt`, and every NaN time is `start`. */
  function Initialised(nodes: seq<Particle>, dt: int, start: int): (qs: seq<Particle>)
    ensures |qs| == |nodes|
    ensures forall i :: 0 <= i < |nodes| ==> qs[i].dt == dt && qs[i].time.Some?
    ensures forall i :: 0 <= i < |nodes| ==> nodes[i].time.Some? ==> qs[i].time == nodes[i].time
    ensures forall i :: 0 <= i < |nodes| ==> nodes[i].time.None? ==> qs[i].time == Some(start)
  {
    seq(|nodes|, i requires 0 <= i < |nodes| =>
      Particle(if nodes[i].time.None? then Some(start) else nodes[i].time, dt))
  }

  /** `rparam.num_pts`, the number of nodes one release adds; none without release parameters. */
  function NumPts(rparam: Option<nat>): nat {
    if rparam.Some? then rparam.value else 0
  }

  /** The set-up of a run: the start time, the repeat start time, the plan and the periods. */
  function NodeLaunch(nodes: seq<Particle>, repeatStart: Option<int>, repeatdt: Option<nat>, rparam: Option<nat>,
                      a: Args, range: TimeRange): (l: Launch)
    requires CheckArgsAsWritten(a).None? && AtLeastZero(a.callbackdt)
    ensures l.plan.start == l.start
    ensures l.repeatStart == if repeatdt.Some? && repeatStart.None? then Some(l.start) else repeatStart
    ensures l.periods.release.Every? ==> rparam.Some? && repeatdt == Some(l.periods.release.n)
    ensures rparam.Some? && repeatdt.Some? && repeatdt.value != 0 ==> l.periods.release == Every(repeatdt.value)
  {
    LaunchAt(NodeStart(nodes, a.dt, range), repeatStart, repeatdt, rparam.Some?, a, range)
  }

  /**
   * The whole of `execute`: the checks, the runtime-and-endtime check, the
   * start time, the node initialisation, then the loop and the writes
   * around it. Failed checks leave the nodes as they were.
   */
  function NodeExecuteSpec(nodes: seq<Particle>, repeatStart: Option<int>, repeatdt: Option<nat>, rparam: Option<nat>,
                           a: Args, range: TimeRange, chunk: ChunkOracle, kernel: Kernel): (eff: Effect)
    requires (repeatdt.Some? ==> repeatdt.value > 0) && ChunkAdvances(chunk)
    ensures eff.outcome.Failed? <==> CheckArgs(a).Some? || (a.runtime.Some? && a.endtime.Some?)
    ensures CheckArgs(a).Some? ==> eff.outcome == Failed(CheckArgs(a).value)
    ensures eff.outcome.Failed? ==> eff.particles == nodes && eff.repeatStart == repeatStart && eff.counts == [] && eff.logged == 0
    ensures eff.outcome.Finished? ==> eff.repeatStart.Some? == (repeatdt.Some? || repeatStart.Some?)
  {
    if CheckArgs(a).Some? then Effect(Failed(CheckArgs(a).value), nodes, repeatStart, [], 0)
    else if a.runtime.Some? && a.endtime.Some? then Effect(Failed(RuntimeAndEndtime), nodes, repeatStart, [], 0)
    else
      var l := NodeLaunch(nodes, repeatStart, repeatdt, rparam, a, range);
      LaunchReady(l.start, repeatStart, repeatdt, rparam.Some?, a, range, chunk);
      Finish(l, Initialised(nodes, l.plan.dt, l.start), a, chunk, kernel, NumPts(rparam))
  }

  /** Without release parameters (or without `repeatdt`) no pass releases nodes. */
  lemma ReleasesNeedParams(nodes: seq<Particle>, repeatStart: Option<int>, repeatdt: Option<nat>, rparam: Option<nat>,
                           a: Args, range: TimeRange, chunk: ChunkOracle)
    requires (repeatdt.Some? ==> repeatdt.value > 0) && ChunkAdvances(chunk) && CheckArgs(a).None?
    requires rparam.None? || repeatdt.None?
    ensures (var l := NodeLaunch(nodes, repeatStart, repeatdt, rparam, a, range);
      LaunchReady(l.start, repeatStart, repeatdt, rparam.Some?, a, range, chunk);
      var vs := Run(LaunchConfig(l), chunk, LaunchSched(l, chunk));
      forall i :: 0 <= i < |vs| ==> Release !in vs[i].fired)
  {
    var l := NodeLaunch(nodes, repeatStart, repeatdt, rparam, a, range);
    LaunchReady(l.start, repeatStart, repeatdt, rparam.Some?, a, range, chunk);
    RunNeverFires(LaunchConfig(l), chunk, LaunchSched(l, chunk), Release);
  }

  /**
   * A stepping `execute` with an output file writes at the start, then at
   * exactly the points `start + k * outputdt * sign(dt)` (k >= 1) up to the
   * end time, and finally at the end time.
   */
  lemma NodeExecuteWritesEveryOutputdt(nodes: seq<Particle>, repeatStart: Option<int>, repeatdt: Option<nat>,
                                       rparam: Option<nat>, a: Args, range: TimeRange, chunk: ChunkOracle,
                                       kernel: Kernel, x: Time)
    requires (repeatdt.Some? ==> repeatdt.value > 0) && ChunkAdvances(chunk)
    requires CheckArgs(a).None? && !(a.runtime.Some? && a.endtime.Some?) && a.outputdt.Some?
    ensures var l := NodeLaunch(nodes, repeatStart, repeatdt, rparam, a, range);
      var r := NodeExecuteSpec(nodes, repeatStart, repeatdt, rparam, a, range, chunk, kernel).outcome;
      && r.Finished?
      && |r.writes| >= 2 && r.writes[0] == Fin(l.start) && r.writes[|r.writes| - 1] == r.final
      && (!l.plan.once ==>
            (x in r.writes[1..|r.writes| - 1] <==>
             OnProgression(l.plan.dt, l.start, a.outputdt.value, x) && x != Fin(l.start) &&
             PrecedesEq(l.plan.dt, x, Fin(l.plan.endtime))))
  {
    var l := NodeLaunch(nodes, repeatStart, repeatdt, rparam, a, range);
    LaunchReady(l.start, repeatStart, repeatdt, rparam.Some?, a, range, chunk);
    var ns := Initialised(nodes, l.plan.dt, l.start);
    assert NodeExecuteSpec(nodes, repeatStart, repeatdt, rparam, a, range, chunk, kernel) ==
           Finish(l, ns, a, chunk, kernel, NumPts(rparam));
    FinishWritesEveryOutputdt(l, ns, a, chunk, kernel, NumPts(rparam), x);
  }

  /**
   * A successful `execute` draws movie frames and runs the callbacks on
   * their progressions: no frame without `moviedt`, else a frame at the
   * start and, when it steps, frames at exactly the points
   * `start + k * moviedt * sign(dt)` (k >= 1) up to the end time; callbacks
   * at no pass when the callback period is `np.infty`, else, when it steps,
   * at exactly the points `start + k * callbackdt * sign(dt)` of the given or
   * default callback period.
   */
  lemma NodeExecuteFramesAndCallbacks(nodes: seq<Particle>, repeatStart: Option<int>, repeatdt: Option<nat>,
                                      rparam: Option<nat>, a: Args, range: TimeRange, chunk: ChunkOracle,
                                      kernel: Kernel, x: Time)
    requires (repeatdt.Some? ==> repeatdt.value > 0) && ChunkAdvances(chunk)
    requires CheckArgs(a).None? && !(a.runtime.Some? && a.endtime.Some?)
    ensures var l := NodeLaunch(nodes, repeatStart, repeatdt, rparam, a, range);
      var cb := MakePeriods(a, repeatdt, rparam.Some?).callback;
      var r := NodeExecuteSpec(nodes, repeatStart, repeatdt, rparam, a, range, chunk, kernel).outcome;
      && r.Finished?
      && (a.moviedt.None? ==> r.frames == [])
      && (a.moviedt.Some? ==>
            && |r.frames| >= 1 && r.frames[0] == Fin(l.start)
            && (!l.plan.once ==>
                  (x in r.frames[1..] <==>
                   OnProgression(l.plan.dt, l.start, a.moviedt.value, x) && x != Fin(l.start) &&
                   PrecedesEq(l.plan.dt, x, Fin(l.plan.endtime)))))
      && (cb.Never? ==> r.callbacks == [])
      && (!l.plan.once && cb.Every? ==>
            (x in r.callbacks <==>
             OnProgression(l.plan.dt, l.start, cb.n, x) && x != Fin(l.start) &&
             PrecedesEq(l.plan.dt, x, Fin(l.plan.endtime))))
  {
    var l := NodeLaunch(nodes, repeatStart, repeatdt, rparam, a, range);
    LaunchReady(l.start, repeatStart, repeatdt, rparam.Some?, a, range, chunk);
    var ns := Initialised(nodes, l.plan.dt, l.start);
    assert NodeExecuteSpec(nodes, repeatStart, repeatdt, rparam, a, range, chunk, kernel) ==
           Finish(l, ns, a, chunk, kernel, NumPts(rparam));
    FinishFramesEveryMoviedt(l, ns, a, chunk, kernel, NumPts(rparam), x);
    FinishCallbacksEveryPeriod(l, ns, a, chunk, kernel, NumPts(rparam), x);
  }

  /**
   * The loop's end: execute-once mode logs one particle count and advances
   * no other log; a stepping run advances the other logs once per logged
   * particle count, and when it enters the loop it ends at the end time.
   */
  lemma NodeExecuteLogsPasses(nodes: seq<Particle>, repeatStart: Option<int>, repeatdt: Option<nat>, rparam: Option<nat>,
                              a: Args, range: TimeRange, chunk: ChunkOracle, kernel: Kernel)
    requires (repeatdt.Some? ==> repeatdt.value > 0) && ChunkAdvances(chunk)
    requires CheckArgs(a).None? && !(a.runtime.Some? && a.endtime.Some?)
    ensures var l := NodeLaunch(nodes, repeatStart, repeatdt, rparam, a, range);
      var eff := NodeExecuteSpec(nodes, repeatStart, repeatdt, rparam, a, range, chunk, kernel);
      && (l.plan.once ==> |eff.counts| == 1 && eff.logged == 0)
      && (!l.plan.once ==> eff.logged == |eff.counts|)
      && (!l.plan.once && Continues(l.plan.dt, Fin(l.start), l.plan.endtime) ==> eff.outcome.final == Fin(l.plan.endtime))
  {
    var l := NodeLaunch(nodes, repeatStart, repeatdt, rparam, a, range);
    LaunchReady(l.start, repeatStart, repeatdt, rparam.Some?, a, range, chunk);
    var ns := Initialised(nodes, l.plan.dt, l.start);
    assert NodeExecuteSpec(nodes, repeatStart, repeatdt, rparam, a, range, chunk, kernel) ==
           Finish(l, ns, a, chunk, kernel, NumPts(rparam));
    FinishLogsPasses(l, ns, a, chunk, kernel, NumPts(rparam));
  }

  /**
   * The `mem_log` readings of the first `n` passes of `vs`: the memory in
   * use at each pass's stop.
   */
  function Readings(rss: Rss, vs: seq<Visit>, n: nat): (ms: seq<int>)
    requires n <= |vs|
    ensures |ms| == n
    ensures forall i :: 0 <= i < n ==> ms[i] == rss(vs[i].state.time)
  {
    if n == 0 then [] else Readings(rss, vs, n - 1) + [rss(vs[n - 1].state.time)]
  }

  /**
   * The readings a loop over the passes `vs` adds to `mem_log`: none in
   * execute-once mode, whose pass breaks first; one per pass otherwise.
   */
  function LoopReadings(rss: Rss, vs: seq<Visit>, once: bool): (ms: seq<int>)
    ensures once ==> ms == []
    ensures !once ==> |ms| == |vs| && forall i :: 0 <= i < |vs| ==> ms[i] == rss(vs[i].state.time)
  {
    if once then [] else Readings(rss, vs, |vs|)
  }

  /** The readings the whole of `execute` adds to `mem_log`: none when it fails. */
  function NodeReadings(nodes: seq<Particle>, repeatStart: Option<int>, repeatdt: Option<nat>, rparam: Option<nat>,
                        a: Args, range: TimeRange, chunk: ChunkOracle, rss: Rss): seq<int>
    requires (repeatdt.Some? ==> repeatdt.value > 0) && ChunkAdvances(chunk)
  {
    if CheckArgs(a).Some? || (a.runtime.Some? && a.endtime.Some?) then []
    else
      var l := NodeLaunch(nodes, repeatStart, repeatdt, rparam, a, range);
      LaunchReady(l.start, repeatStart, repeatdt, rparam.Some?, a, range, chunk);
      LoopReadings(rss, Run(LaunchConfig(l), chunk, LaunchSched(l, chunk)), l.plan.once)
  }

  /**
   * `execute` adds one memory reading per pass that advances the logs, and
   * each is the memory in use at that pass's stop.
   */
  lemma NodeReadingsPerPass(nodes: seq<Particle>, repeatStart: Option<int>, repeatdt: Option<nat>, rparam: Option<nat>,
                            a: Args, range: TimeRange, chunk: ChunkOracle, kernel: Kernel, rss: Rss)
    requires (repeatdt.Some? ==> repeatdt.value > 0) && ChunkAdvances(chunk)
    ensures |NodeReadings(nodes, repeatStart, repeatdt, rparam, a, range, chunk, rss)| ==
            NodeExecuteSpec(nodes, repeatStart, repeatdt, rparam, a, range, chunk, kernel).logged
  {
    if CheckArgs(a).None? && !(a.runtime.Some? && a.endtime.Some?) {
      var l := NodeLaunch(nodes, repeatStart, repeatdt, rparam, a, range);
      LaunchReady(l.start, repeatStart, repeatdt, rparam.Some?, a, range, chunk);
      var ns := Initialised(nodes, l.plan.dt, l.start);
      assert NodeExecuteSpec(nodes, repeatStart, repeatdt, rparam, a, range, chunk, kernel) ==
             Finish(l, ns, a, chunk, kernel, NumPts(rparam));
    }
  }

  /** Once the checks pass, `execute` is its launch's `Finish`, and its memory readings are its loop's. */
  lemma ExecuteLaunches(nodes: seq<Particle>, repeatStart: Option<int>, repeatdt: Option<nat>, rparam: Option<nat>,
                        a: Args, range: TimeRange, chunk: ChunkOracle, kernel: Kernel, rss: Rss)
    requires (repeatdt.Some? ==> repeatdt.value > 0) && ChunkAdvances(chunk)
    requires CheckArgs(a).None? && !(a.runtime.Some? && a.endtime.Some?)
    ensures var l := NodeLaunch(nodes, repeatStart, repeatdt, rparam, a, range);
      && Ready(l, chunk)
      && NodeExecuteSpec(nodes, repeatStart, repeatdt, rparam, a, range, chunk, kernel)
         == Finish(l, Initialised(nodes, l.plan.dt, l.start), a, chunk, kernel, NumPts(rparam))
      && NodeReadings(nodes, repeatStart, repeatdt, rparam, a, range, chunk, rss)
         == LoopReadings(rss, Run(LaunchConfig(l), chunk, LaunchSched(l, chunk)), l.plan.once)
  {
    var l := NodeLaunch(nodes, repeatStart, repeatdt, rparam, a, range);
    LaunchReady(l.start, repeatStart, repeatdt, rparam.Some?, a, range, chunk);
  }


  class ParticleSetBenchmark {
    /** The data of the set's nodes, in list order. */
    var nodes: seq<Particle>
    /** `repeat_starttime`; `execute` sets it when `repeatdt` is set and it is unset. */
    var repeatStarttime: Option<int>
    /** `repeatdt`: the release interval, if nodes are released repeatedly. */
    const repeatdt: Option<nat>
    /** `rparam.num_pts`; `None` when the set has no release parameters. */
    const rparam: Option<nat>
    /** The MPI rank the timing logs were made with. */
    const rank: Option<nat>
    const totalLog: TimingLog
    const computeLog: TimingLog
    const ioLog: TimingLog
    const plotLog: TimingLog
    const nparticleLog: ParamLog
    const memLog: ParamLog

    /** The six logs are distinct objects and the timing logs share the set's rank. */
    predicate Wired() {
      && totalLog != computeLog && totalLog != ioLog && totalLog != plotLog
      && computeLog != ioLog && computeLog != plotLog && ioLog != plotLog && nparticleLog != memLog
      && totalLog.rank == rank && computeLog.rank == rank && ioLog.rank == rank && plotLog.rank == rank
    }

    /** Each of the six logs is consistent. */
    predicate LogsValid()
      reads totalLog`timings, totalLog`samples, totalLog`iter, computeLog`timings, computeLog`samples, computeLog`iter
      reads ioLog`timings, ioLog`samples, ioLog`iter, plotLog`timings, plotLog`samples, plotLog`iter
      reads nparticleLog`params, nparticleLog`samples, nparticleLog`iter, memLog`params, memLog`samples, memLog`iter
    {
      && totalLog.Valid() && computeLog.Valid() && ioLog.Valid() && plotLog.Valid()
      && nparticleLog.Valid() && memLog.Valid()
    }

    /** Consistent logs and a positive release interval; the constructor that ensures the latter is not part of this model. */
    predicate Valid()
      reads totalLog`timings, totalLog`samples, totalLog`iter, computeLog`timings, computeLog`samples, computeLog`iter
      reads ioLog`timings, ioLog`samples, ioLog`iter, plotLog`timings, plotLog`samples, plotLog`iter
      reads nparticleLog`params, nparticleLog`samples, nparticleLog`iter, memLog`params, memLog`samples, memLog`iter
    {
      (repeatdt.Some? ==> repeatdt.value > 0) && Wired() && LogsValid()
    }

    /** The totals the total, compute, IO and plot timing logs have recorded. */
    function Recorded(): Totals
      reads totalLog`timings, computeLog`timings, ioLog`timings, plotLog`timings
    {
      Totals(totalLog.timings, computeLog.timings, ioLog.timings, plotLog.timings)
    }

    /**
     * Consistent logs where `nparticle_log` holds `counts`, `mem_log` holds
     * `mems`, and each timing log holds its list in `base` followed by `n`
     * more totals.
     */
    predicate Logged(counts: seq<int>, mems: seq<int>, base: Totals, n: nat)
      reads totalLog`timings, totalLog`samples, totalLog`iter, computeLog`timings, computeLog`samples, computeLog`iter
      reads ioLog`timings, ioLog`samples, ioLog`iter, plotLog`timings, plotLog`samples, plotLog`iter
      reads nparticleLog`params, nparticleLog`samples, nparticleLog`iter, memLog`params, memLog`samples, memLog`iter
    {
      LogsValid() && nparticleLog.params == counts && memLog.params == mems && Extends(Recorded(), base, n)
    }

    /**
     * The logs after a run that logged the particle counts `added` and the
     * memory readings `readings`, started with `counts` in `nparticle_log`,
     * `mems` in `mem_log` and `base` in the timing logs: each timing log
     * kept its totals and gained one per reading (none on ranks other than
     * 0).
     */
    predicate LoggedAfter(counts: seq<int>, mems: seq<int>, base: Totals, added: seq<nat>, readings: seq<int>)
      reads totalLog`timings, totalLog`samples, totalLog`iter, computeLog`timings, computeLog`samples, computeLog`iter
      reads ioLog`timings, ioLog`samples, ioLog`iter, plotLog`timings, plotLog`samples, plotLog`iter
      reads nparticleLog`params, nparticleLog`samples, nparticleLog`iter, memLog`params, memLog`samples, memLog`iter
    {
      Logged(counts + added, mems + readings, base, if KeepsTimings(rank) then |readings| else 0)
    }

    /** `__init__`: the set with fresh, empty logs. */
    constructor (nodes: seq<Particle>, repeatdt: Option<nat>, rparam: Option<nat>, rank: Option<nat>)
      requires repeatdt.Some? ==> repeatdt.value > 0
      ensures Valid() && fresh(totalLog) && fresh(computeLog) && fresh(ioLog) && fresh(plotLog)
      ensures fresh(nparticleLog) && fresh(memLog)
      ensures this.nodes == nodes && this.repeatdt == repeatdt && this.rparam == rparam && this.rank == rank
      ensures repeatStarttime.None? && Recorded() == Totals([], [], [], [])
      ensures nparticleLog.params == [] && memLog.params == []
    {
      this.nodes := nodes;
      this.repeatStarttime := None;
      this.repeatdt := repeatdt;
      this.rparam := rparam;
      this.rank := rank;
      totalLog := new TimingLog(rank);
      computeLog := new TimingLog(rank);
      ioLog := new TimingLog(rank);
      plotLog := new TimingLog(rank);
      nparticleLog := new ParamLog();
      memLog := new ParamLog();
    }

    /** The `piter` loop: each node's timestep becomes `dt` and a NaN time becomes `start`. */
    method InitialiseNodes(dt: int, start: int)
      modifies this`nodes
      ensures nodes == Initialised(old(nodes), dt, start)
    {
      var ns := nodes;
      ghost var want := Initialised(ns, dt, start);
      var piter := 0;
      while piter < |ns|
        invariant 0 <= piter <= |ns| == |want|
        invariant forall j :: 0 <= j < piter ==> ns[j] == want[j]
        invariant forall j :: piter <= j < |ns| ==> ns[j] == nodes[j]
      {
        var pdata := ns[piter].(dt := dt);
        if pdata.time.None? {
          pdata := pdata.(time := Some(start));
        }
        ns := ns[piter := pdata];
        piter := piter + 1;
      }
      nodes := ns;
    }

    /**
     * The `add_iter` loop: `count` new nodes at the time `at` with the timestep `dt`, appended in turn. The node
     * set's `add` is taken to append at the end of the node list; nothing later depends on the nodes' order.
     */
    static method AddReleased(ns: seq<Particle>, at: int, dt: int, count: nat) returns (out: seq<Particle>)
      ensures out == ns + Released(at, dt, count)
    {
      out := ns;
      var addIter := 0;
      while addIter < count
        invariant addIter <= count && out == ns + Released(at, dt, addIter)
      {
        out := out + [Particle(Some(at), dt)];
        addIter := addIter + 1;
      }
    }

    /**
     * One pass of the loop body up to the `dt == 0` break, on the nodes
     * `ns` from the time `time` and the timers `tm`: pick the stop, run the
     * kernel, release `count` nodes when due, report which of output, movie
     * frame and callback are due, move the timers that fired and re-query
     * the field unless at the end time. The logging of the pass is
     * `LogPass`.
     */
    static method Advance(c: Config, chunk: ChunkOracle, once: bool, kernel: Kernel, count: nat, ns: seq<Particle>,
                          time: Time, tm: Timers)
      returns (moved: seq<Particle>, stop: Time, next: Timers, write: bool, frame: bool, callback: bool)
      requires FiniteTimersPeriodic(c, tm)
      ensures var v := Step(c, chunk, Sched(time, tm));
        && Sched(stop, next) == v.state
        && moved == AfterPass(ns, v, c.dt, once, kernel, count)
        && (write <==> Output in v.fired) && (frame <==> Movie in v.fired) && (callback <==> Callback in v.fired)
    {
      ghost var v := Step(c, chunk, Sched(time, tm));
      stop := NextStop(c.dt, c.endtime, tm);
      moved := kernel(ns, stop, c.dt, once);
      var release, nextRelease := Tick(c, tm, Release, stop);
      if release {
        moved := AddReleased(moved, stop.t, c.dt, count);
      }
      var nextOutput, nextMovie, nextCallback;
      write, nextOutput := Tick(c, tm, Output, stop);
      frame, nextMovie := Tick(c, tm, Movie, stop);
      callback, nextCallback := Tick(c, tm, Callback, stop);
      var nextInput := if stop != Fin(c.endtime) then chunk(stop, c.dt) else tm.input;
      next := Timers(nextRelease, nextInput, nextOutput, nextMovie, nextCallback);
      assert stop == v.state.time;
      assert release == (Release in v.fired) && write == (Output in v.fired);
      assert frame == (Movie in v.fired) && callback == (Callback in v.fired);
      assert v.state.timers == Timers(v.state.timers.Of(Release), v.state.timers.input, v.state.timers.Of(Output),
                                      v.state.timers.Of(Movie), v.state.timers.Of(Callback));
    }

    /**
     * The logging of one pass from the time `time` to the stop `stop`, up
     * to the `dt == 0` break: the total timing starts, the kernel and the
     * release are timed as compute, the node count `n` is logged, an output
     * write (`write`) is timed as IO, a movie frame (`frame`) as plotting,
     * and the field query (`reread`) as IO. No log but `nparticle_log`
     * records an iteration here.
     */
    method LogPass(clock: Clock, time: Time, stop: Time, n: nat, write: bool, frame: bool, reread: bool,
                   ghost counts: seq<int>, ghost mems: seq<int>, ghost base: Totals, ghost m: nat)
      requires Wired() && Logged(counts, mems, base, m)
      modifies totalLog`stime, computeLog`stime, computeLog`etime, computeLog`mtime, ioLog`stime, ioLog`etime,
               ioLog`mtime, plotLog`stime, plotLog`etime, plotLog`mtime, nparticleLog
      ensures Logged(counts + [n], mems, base, m)
      ensures totalLog.stime == if KeepsTimings(rank) then clock(time, TotalStart) else old(totalLog.stime)
      ensures computeLog.mtime == Timed(rank, old(computeLog.mtime), true, clock(stop, ComputeStop) - clock(stop, ComputeStart))
      ensures ioLog.mtime == Timed(rank, Timed(rank, old(ioLog.mtime), write, clock(stop, WriteStop) - clock(stop, WriteStart)),
                                   reread, clock(stop, InputStop) - clock(stop, InputStart))
      ensures plotLog.mtime == Timed(rank, old(plotLog.mtime), frame, clock(stop, PlotStop) - clock(stop, PlotStart))
    {
      totalLog.StartTiming(clock(time, TotalStart));
      computeLog.Time(clock(stop, ComputeStart), clock(stop, ComputeStop));
      nparticleLog.AdvanceIteration(n);
      LogOutputs(clock, stop, write, frame, reread, counts + [n], mems, base, m);
    }

    /**
     * The rest of `LogPass`, at the stop `stop`: an output write is timed
     * as IO, a movie frame as plotting, and the field query as IO.
     */
    method LogOutputs(clock: Clock, stop: Time, write: bool, frame: bool, reread: bool,
                      ghost counts: seq<int>, ghost mems: seq<int>, ghost base: Totals, ghost m: nat)
      requires Wired() && Logged(counts, mems, base, m)
      modifies ioLog`stime, ioLog`etime, ioLog`mtime, plotLog`stime, plotLog`etime, plotLog`mtime
      ensures Logged(counts, mems, base, m)
      ensures ioLog.mtime == Timed(rank, Timed(rank, old(ioLog.mtime), write, clock(stop, WriteStop) - clock(stop, WriteStart)),
                                   reread, clock(stop, InputStop) - clock(stop, InputStart))
      ensures plotLog.mtime == Timed(rank, old(plotLog.mtime), frame, clock(stop, PlotStop) - clock(stop, PlotStart))
    {
      if write {
        ioLog.Time(clock(stop, WriteStart), clock(stop, WriteStop));
      }
      if frame {
        plotLog.Time(clock(stop, PlotStart), clock(stop, PlotStop));
      }
      if reread {
        ioLog.Time(clock(stop, InputStart), clock(stop, InputStop));
      }
    }

    /** The final output write at the loop's last time `time`, timed as IO. */
    method LogFinalWrite(clock: Clock, time: Time, ghost counts: seq<int>, ghost mems: seq<int>, ghost base: Totals,
                         ghost m: nat)
      requires Wired() && Logged(counts, mems, base, m)
      modifies ioLog`stime, ioLog`etime, ioLog`mtime
      ensures Logged(counts, mems, base, m)
      ensures ioLog.mtime == Timed(rank, old(ioLog.mtime), true, clock(time, FinalWriteStop) - clock(time, FinalWriteStart))
    {
      ioLog.Time(clock(time, FinalWriteStart), clock(time, FinalWriteStop));
    }

    /**
     * The end of a pass that did not break: stop and accumulate the total
     * timing, log the memory reading at the stop `time`, and advance the
     * four timing logs, each recording the time it accumulated.
     */
    method EndPass(clock: Clock, rss: Rss, time: Time, ghost counts: seq<int>, ghost mems: seq<int>, ghost base: Totals,
                   ghost m: nat)
      requires Wired() && Logged(counts, mems, base, m)
      modifies totalLog`etime, totalLog`mtime, memLog
      modifies totalLog`timings, totalLog`samples, totalLog`iter, computeLog`timings, computeLog`samples,
               computeLog`iter, computeLog`mtime, ioLog`timings, ioLog`samples, ioLog`iter, ioLog`mtime,
               plotLog`timings, plotLog`samples, plotLog`iter, plotLog`mtime
      ensures Logged(counts, mems + [rss(time)], base, m + if KeepsTimings(rank) then 1 else 0)
      ensures memLog.params == old(memLog.params) + [rss(time)]
      ensures KeepsTimings(rank) ==>
        && totalLog.timings == old(totalLog.timings) + [old(totalLog.mtime) + (clock(time, TotalStop) - old(totalLog.stime))]
        && computeLog.timings == old(computeLog.timings) + [old(computeLog.mtime)]
        && ioLog.timings == old(ioLog.timings) + [old(ioLog.mtime)]
        && plotLog.timings == old(plotLog.timings) + [old(plotLog.mtime)]
      ensures totalLog.mtime == 0 && computeLog.mtime == 0 && ioLog.mtime == 0 && plotLog.mtime == 0
    {
      totalLog.StopTiming(clock(time, TotalStop));
      totalLog.AccumulateTiming();
      memLog.AdvanceIteration(rss(time));
      AdvanceTimings(counts, mems + [rss(time)], base, m);
    }

    /** The four timing logs each record the time accumulated in this iteration and start the next from 0. */
    method AdvanceTimings(ghost counts: seq<int>, ghost mems: seq<int>, ghost base: Totals, ghost m: nat)
      requires Wired() && Logged(counts, mems, base, m)
      modifies totalLog`timings, totalLog`samples, totalLog`iter, totalLog`mtime, computeLog`timings, computeLog`samples,
               computeLog`iter, computeLog`mtime, ioLog`timings, ioLog`samples, ioLog`iter, ioLog`mtime,
               plotLog`timings, plotLog`samples, plotLog`iter, plotLog`mtime
      ensures Logged(counts, mems, base, m + if KeepsTimings(rank) then 1 else 0)
      ensures KeepsTimings(rank) ==>
        && totalLog.timings == old(totalLog.timings) + [old(totalLog.mtime)]
        && computeLog.timings == old(computeLog.timings) + [old(computeLog.mtime)]
        && ioLog.timings == old(ioLog.timings) + [old(ioLog.mtime)]
        && plotLog.timings == old(plotLog.timings) + [old(plotLog.mtime)]
      ensures totalLog.mtime == 0 && computeLog.mtime == 0 && ioLog.mtime == 0 && plotLog.mtime == 0
    {
      computeLog.AdvanceIteration();
      ioLog.AdvanceIteration();
      plotLog.AdvanceIteration();
      totalLog.AdvanceIteration();
    }

    /**
     * One iteration of the stepping loop, standing after `k` of the passes
     * `vs` with the loop variables `time`, `timers`, `ns`, `outputs`,
     * `frames` and `callbacks`: the pass itself (`Advance`), its logging
     * (`LogPass`) and, unless the loop breaks after this pass, the end of
     * the iteration (`EndPass`). The logs hold what the loop started with
     * (`counts0`, `mems0`, `base`), the counts `added` so far and the
     * memory readings of the passes so far.
     */
    method Iterate(c: Config, chunk: ChunkOracle, st: Sched, ghost vs: seq<Visit>, ghost k: nat, once: bool,
                   kernel: Kernel, clock: Clock, rss: Rss, ghost ns0: seq<Particle>, time: Time, timers: Timers,
                   ns: seq<Particle>, outputs: seq<Time>, frames: seq<Time>, callbacks: seq<Time>,
                   ghost counts0: seq<int>, ghost mems0: seq<int>, ghost base: Totals, ghost added: seq<nat>)
      returns (time': Time, timers': Timers, ns': seq<Particle>, outputs': seq<Time>, frames': seq<Time>,
               callbacks': seq<Time>)
      requires Visits(c, chunk, st, vs) && (c.dt == 0 ==> k == 0) && Continues(c.dt, time, c.endtime)
      requires c.periods.release.Every? ==> rparam.Some?
      requires Progress(st, vs, k, c.dt, once, kernel, NumPts(rparam), ns0, time, timers, ns, added,
                        outputs, frames, callbacks)
      requires Wired() && LoggedAfter(counts0, mems0, base, added, Readings(rss, vs, k))
      modifies totalLog, computeLog, ioLog, plotLog, nparticleLog, memLog
      ensures Progress(st, vs, k + 1, c.dt, once, kernel, NumPts(rparam), ns0, time', timers', ns', added + [|ns'|],
                       outputs', frames', callbacks')
      ensures c.dt == 0 ==> LoggedAfter(counts0, mems0, base, added + [|ns'|], [])
      ensures c.dt != 0 ==> LoggedAfter(counts0, mems0, base, added + [|ns'|], Readings(rss, vs, k + 1))
    {
      ProgressGoesOn(c, chunk, st, vs, k, once, kernel, NumPts(rparam), ns0, time, timers, ns, added,
                     outputs, frames, callbacks);
      var write, frame, callback;
      ns', time', timers', write, frame, callback := Advance(c, chunk, once, kernel, NumPts(rparam), ns, time, timers);
      ProgressStep(st, vs, k, c.dt, once, kernel, NumPts(rparam), ns0, time, timers, ns, added, outputs, frames,
                   callbacks, time', timers', ns', write, frame, callback);
      LogIteration(clock, rss, c.dt, time, time', |ns'|, write, frame, time' != Fin(c.endtime), counts0, mems0, base,
                   added, Readings(rss, vs, k));
      outputs' := outputs + (if write then [time'] else []);
      frames' := frames + (if frame then [time'] else []);
      callbacks' := callbacks + (if callback then [time'] else []);
      if c.dt != 0 {
        assert Readings(rss, vs, k + 1) == Readings(rss, vs, k) + [rss(time')];
      }
    }

    /**
     * The logging of one iteration from the time `time` to the stop `stop`
     * with `n` nodes: `LogPass`, then, unless the loop breaks after the pass
     * (`dt == 0`), `EndPass` with the memory reading at the stop.
     */
    method LogIteration(clock: Clock, rss: Rss, dt: int, time: Time, stop: Time, n: nat, write: bool, frame: bool,
                        reread: bool, ghost counts0: seq<int>, ghost mems0: seq<int>, ghost base: Totals,
                        ghost added: seq<nat>, ghost readings: seq<int>)
      requires Wired() && LoggedAfter(counts0, mems0, base, added, readings) && (dt == 0 ==> readings == [])
      modifies totalLog, computeLog, ioLog, plotLog, nparticleLog, memLog
      ensures dt == 0 ==> LoggedAfter(counts0, mems0, base, added + [n], [])
      ensures dt != 0 ==> LoggedAfter(counts0, mems0, base, added + [n], readings + [rss(stop)])
    {
      ghost var m := if KeepsTimings(rank) then |readings| else 0;
      LogPass(clock, time, stop, n, write, frame, reread, counts0 + added, mems0 + readings, base, m);
      if dt != 0 {
        EndPass(clock, rss, stop, counts0 + added + [n], mems0 + readings, base, m);
        LoggedAfterEnd(counts0, mems0, base, added, n, readings, rss(stop));
      } else {
        LoggedAfterPass(counts0, mems0, base, added, n);
      }
    }

    /** The logs after the execute-once pass, regrouped as an extension of the logs before the loop. */
    lemma LoggedAfterPass(counts0: seq<int>, mems0: seq<int>, base: Totals, added: seq<nat>, n: nat)
      requires Logged(counts0 + added + [n], mems0 + [], base, 0)
      ensures LoggedAfter(counts0, mems0, base, added + [n], [])
    {
      assert counts0 + added + [n] == counts0 + (added + [n]);
    }

    /** The logs after a pass that ends an iteration, regrouped as an extension of the logs before the loop. */
    lemma LoggedAfterEnd(counts0: seq<int>, mems0: seq<int>, base: Totals, added: seq<nat>, n: nat, readings: seq<int>,
                         x: int)
      requires Logged(counts0 + added + [n], mems0 + readings + [x], base,
                      (if KeepsTimings(rank) then |readings| else 0) + (if KeepsTimings(rank) then 1 else 0))
      ensures LoggedAfter(counts0, mems0, base, added + [n], readings + [x])
    {
      assert counts0 + added + [n] == counts0 + (added + [n]);
      assert mems0 + readings + [x] == mems0 + (readings + [x]);
    }

    /**
     * The stepping loop from the state `st` over the passes `vs`: passes
     * while the loop condition holds, ending after one pass in execute-once
     * mode; the nodes live in a local list that is stored back at the end.
     */
    method StepLoop(c: Config, st: Sched, once: bool, chunk: ChunkOracle, kernel: Kernel, clock: Clock, rss: Rss,
                    ghost vs: seq<Visit>, ns0: seq<Particle>, ghost counts0: seq<int>, ghost mems0: seq<int>,
                    ghost base: Totals)
      returns (time: Time, ns: seq<Particle>, outputs: seq<Time>, frames: seq<Time>, callbacks: seq<Time>,
               ghost added: seq<nat>, ghost passes: nat)
      requires Visits(c, chunk, st, vs) && (c.dt == 0 <==> once) && Wired() && Logged(counts0, mems0, base, 0)
      requires c.periods.release.Every? ==> rparam.Some?
      modifies totalLog, computeLog, ioLog, plotLog, nparticleLog, memLog
      ensures EffectOf(st, vs, c.dt, once, kernel, NumPts(rparam), ns0)
           == LoopEffect(time, ns, added, passes, outputs, frames, callbacks)
      ensures LoggedAfter(counts0, mems0, base, added, LoopReadings(rss, vs, once))
    {
      time := st.time;
      var timers := st.timers;
      outputs, frames, callbacks := [], [], [];
      ns := ns0;
      ghost var k := 0;
      added, passes := [], 0;
      assert counts0 + added == counts0 && mems0 + Readings(rss, vs, 0) == mems0;
      while Continues(c.dt, time, c.endtime)
        invariant (c.dt == 0 ==> k == 0) && passes == k
        invariant Progress(st, vs, k, c.dt, once, kernel, NumPts(rparam), ns0, time, timers, ns, added,
                           outputs, frames, callbacks)
        invariant LoggedAfter(counts0, mems0, base, added, Readings(rss, vs, passes))
        decreases |vs| - k
      {
        time, timers, ns, outputs, frames, callbacks := Iterate(c, chunk, st, vs, k, once, kernel, clock, rss, ns0, time,
          timers, ns, outputs, frames, callbacks, counts0, mems0, base, added);
        k, added := k + 1, added + [|ns|];
        if c.dt == 0 {
          break;
        }
        passes := passes + 1;
      }
      ProgressEnds(c, chunk, st, vs, k, once, kernel, NumPts(rparam), ns0, time, timers, ns, added,
                   outputs, frames, callbacks);
    }

    /** The stepping loop from a state it can run from: its effect is the one `LoopSpec` gives. */
    method RunLoop(c: Config, st: Sched, once: bool, chunk: ChunkOracle, kernel: Kernel, clock: Clock, rss: Rss)
      returns (time: Time, outputs: seq<Time>, frames: seq<Time>, callbacks: seq<Time>)
      requires Runnable(c, chunk, st, once) && FiniteTimersPeriodic(c, st.timers) && Wired() && LogsValid()
      requires c.periods.release.Every? ==> rparam.Some?
      modifies this`nodes, totalLog, computeLog, ioLog, plotLog, nparticleLog, memLog
      ensures var e := LoopSpec(c, chunk, st, once, kernel, NumPts(rparam), old(nodes));
        && time == e.final && nodes == e.particles
        && outputs == e.outputs && frames == e.frames && callbacks == e.callbacks
      ensures LoggedAfter(old(nparticleLog.params), old(memLog.params), old(Recorded()),
                          LoopSpec(c, chunk, st, once, kernel, NumPts(rparam), old(nodes)).counts,
                          LoopReadings(rss, Run(c, chunk, st), once))
    {
      RunVisits(c, chunk, st, once);
      ghost var added, passes;
      var ns;
      time, ns, outputs, frames, callbacks, added, passes := StepLoop(c, st, once, chunk, kernel, clock, rss,
                                                                      Run(c, chunk, st), nodes, nparticleLog.params,
                                                                      memLog.params, Recorded());
      nodes := ns;
    }

    /**
     * `execute`, from the argument checks to the final output write, with
     * the clock readings `clock` and the memory readings `rss`.
     */
    method Execute(a: Args, range: TimeRange, chunk: ChunkOracle, kernel: Kernel, clock: Clock, rss: Rss)
      returns (r: Outcome)
      requires Valid() && ChunkAdvances(chunk)
      modifies this`nodes, this`repeatStarttime, totalLog, computeLog, ioLog, plotLog, nparticleLog, memLog
      ensures var e := NodeExecuteSpec(old(nodes), old(repeatStarttime), repeatdt, rparam, a, range, chunk, kernel);
        && r == e.outcome && nodes == e.particles && repeatStarttime == e.repeatStart
      ensures LoggedAfter(old(nparticleLog.params), old(memLog.params), old(Recorded()),
        NodeExecuteSpec(old(nodes), old(repeatStarttime), repeatdt, rparam, a, range, chunk, kernel).counts,
        NodeReadings(old(nodes), old(repeatStarttime), repeatdt, rparam, a, range, chunk, rss))
    {
      var check := CheckArgs(a);
      if check.Some? || (a.runtime.Some? && a.endtime.Some?) {
        assert nparticleLog.params + [] == nparticleLog.params && memLog.params + [] == memLog.params;
        return if check.Some? then Failed(check.value) else Failed(RuntimeAndEndtime);
      }
      r := Start(a, range, chunk, kernel, clock, rss);
    }

    /**
     * `execute` after the checks: the start time, the repeat start time,
     * the plan, then the node initialisation, the loop and the writes
     * around it.
     */
    method Start(a: Args, range: TimeRange, chunk: ChunkOracle, kernel: Kernel, clock: Clock, rss: Rss)
      returns (r: Outcome)
      requires Valid() && ChunkAdvances(chunk) && CheckArgs(a).None? && !(a.runtime.Some? && a.endtime.Some?)
      modifies this`nodes, this`repeatStarttime, totalLog, computeLog, ioLog, plotLog, nparticleLog, memLog
      ensures var e := NodeExecuteSpec(old(nodes), old(repeatStarttime), repeatdt, rparam, a, range, chunk, kernel);
        && r == e.outcome && nodes == e.particles && repeatStarttime == e.repeatStart
      ensures LoggedAfter(old(nparticleLog.params), old(memLog.params), old(Recorded()),
        NodeExecuteSpec(old(nodes), old(repeatStarttime), repeatdt, rparam, a, range, chunk, kernel).counts,
        NodeReadings(old(nodes), old(repeatStarttime), repeatdt, rparam, a, range, chunk, rss))
    {
      var l := NodeLaunch(nodes, repeatStarttime, repeatdt, rparam, a, range);
      ExecuteLaunches(nodes, repeatStarttime, repeatdt, rparam, a, range, chunk, kernel, rss);
      if repeatdt.Some? && repeatStarttime.None? {
        repeatStarttime := Some(l.start);
      }
      r := Launched(l, a, chunk, kernel, clock, rss);
    }

    /**
     * The part of `execute` after the start time is known: the `piter` loop,
     * the stepping loop, and output and a movie frame at the start and
     * output again at the end, the last write timed as IO.
     */
    method Launched(l: Launch, a: Args, chunk: ChunkOracle, kernel: Kernel, clock: Clock, rss: Rss)
      returns (r: Outcome)
      requires Ready(l, chunk) && Wired() && LogsValid() && (l.periods.release.Every? ==> rparam.Some?)
      modifies this`nodes, totalLog, computeLog, ioLog, plotLog, nparticleLog, memLog
      ensures var e := Finish(l, Initialised(old(nodes), l.plan.dt, l.start), a, chunk, kernel, NumPts(rparam));
        && r == e.outcome && nodes == e.particles
      ensures LoggedAfter(old(nparticleLog.params), old(memLog.params), old(Recorded()),
        Finish(l, Initialised(old(nodes), l.plan.dt, l.start), a, chunk, kernel, NumPts(rparam)).counts,
        LoopReadings(rss, Run(LaunchConfig(l), chunk, LaunchSched(l, chunk)), l.plan.once))
    {
      ghost var counts0, mems0, base := nparticleLog.params, memLog.params, Recorded();
      InitialiseNodes(l.plan.dt, l.start);
      var time, outputs, frames, callbacks := RunLoop(LaunchConfig(l), LaunchSched(l, chunk), l.plan.once, chunk,
                                                      kernel, clock, rss);
      if a.outputdt.Some? {
        ghost var e := LoopSpec(LaunchConfig(l), chunk, LaunchSched(l, chunk), l.plan.once, kernel, NumPts(rparam),
                                Initialised(old(nodes), l.plan.dt, l.start));
        ghost var readings := LoopReadings(rss, Run(LaunchConfig(l), chunk, LaunchSched(l, chunk)), l.plan.once);
        LogFinalWrite(clock, time, counts0 + e.counts, mems0 + readings, base,
                      if KeepsTimings(rank) then |readings| else 0);
      }
      var writes := if a.outputdt.Some? then [Fin(l.start)] + outputs + [time] else [];
      var shown := (if a.moviedt.Some? && a.moviedt.value != 0 then [Fin(l.start)] else []) + frames;
      r := Finished(time, writes, shown, callbacks);
    }
  }
}
