/**
 * The two small logs of the node particle set
 * (parcels/particleset_node_benchmark.py): `ParticleSet_TimingLog`, which
 * accumulates stopwatch intervals and records one total per iteration, and
 * `ParticleSet_ParamLogging`, which records one value per iteration.
 *
 * Clock readings are parameters of the methods that take them. The MPI rank
 * is fixed when a log is made: `None` when `mpi4py` is not available, else
 * the rank of this process in `COMM_WORLD`.
 */
module NodeLogging {
  import opened Opt

  /**
   * Python's `xs[i]` on a list: a negative `i` counts from the end, and an
   * index outside `-len(xs) .. len(xs) - 1` raises `IndexError` (`None`).
   */
  function Index<T>(xs: seq<T>, i: int): (r: Option<T>)
    ensures r.Some? <==> -|xs| <= i < |xs|
    ensures r.Some? ==> r.value in xs
  {
    if 0 <= i < |xs| then Some(xs[i])
    else if -|xs| <= i < 0 then Some(xs[|xs| + i])
    else None
  }

  /** An element is reached both from the front and from the back of the list. */
  lemma IndexFromBothEnds<T>(xs: seq<T>, i: int)
    requires 0 <= i < |xs|
    ensures Index(xs, i) == Some(xs[i]) && Index(xs, i - |xs|) == Some(xs[i])
  {
  }

  /** Whether a process with this rank keeps timings: without MPI, or as rank 0. */
  predicate KeepsTimings(rank: Option<nat>) {
    rank.None? || rank == Some(0)
  }

  /**
   * A stopwatch sum after one more stretch of work of length `d`, when
   * `timed` holds: a process that keeps timings adds it, any other resets
   * the sum to 0.
   */
  function Timed(rank: Option<nat>, sum: int, timed: bool, d: int): int {
    if !timed then sum else if KeepsTimings(rank) then sum + d else 0
  }

  /** `ParticleSet_TimingLog`. */
  class TimingLog {
    /** The MPI rank, `None` without MPI. */
    const rank: Option<nat>
    /** `_stime`, `_etime`: the last start and stop readings. */
    var stime: int
    var etime: int
    /** `_mtime`: the time accumulated in the current iteration. */
    var mtime: int
    /** `_samples`: the iteration index of every recorded total. */
    var samples: seq<nat>
    /** `_timings`: the recorded totals, one per iteration. */
    var timings: seq<int>
    /** `_iter`: the number of recorded iterations. */
    var iter: nat

    /** One sample and one total per recorded iteration, and the samples count 0, 1, 2, ... */
    predicate Valid()
      reads this`timings, this`samples, this`iter
    {
      |timings| == iter && |samples| == iter && forall i :: 0 <= i < |samples| ==> samples[i] == i
    }

    /** `__init__`. */
    constructor (rank: Option<nat>)
      ensures Valid() && this.rank == rank
      ensures stime == 0 && etime == 0 && mtime == 0 && samples == [] && timings == [] && iter == 0
    {
      this.rank := rank;
      stime, etime, mtime := 0, 0, 0;
      samples, timings, iter := [], [], 0;
    }

    /** `start_timing`: the reading `now` becomes the start time, except on ranks other than 0. */
    method StartTiming(now: int)
      modifies this`stime
      ensures stime == if KeepsTimings(rank) then now else old(stime)
    {
      if KeepsTimings(rank) {
        stime := now;
      }
    }

    /** `stop_timing`: the reading `now` becomes the stop time, except on ranks other than 0. */
    method StopTiming(now: int)
      modifies this`etime
      ensures etime == if KeepsTimings(rank) then now else old(etime)
    {
      if KeepsTimings(rank) {
        etime := now;
      }
    }

    /** `accumulate_timing`: add the last interval; ranks other than 0 reset the sum instead. */
    method AccumulateTiming()
      modifies this`mtime
      ensures mtime == if KeepsTimings(rank) then old(mtime) + (etime - stime) else 0
    {
      if KeepsTimings(rank) {
        mtime := mtime + (etime - stime);
      } else {
        mtime := 0;
      }
    }

    /**
     * One timed stretch of work: `start_timing` with the reading `start`,
     * `stop_timing` with the reading `stop`, then `accumulate_timing`.
     */
    method Time(start: int, stop: int)
      modifies this`stime, this`etime, this`mtime
      ensures KeepsTimings(rank) ==> stime == start && etime == stop && mtime == old(mtime) + (stop - start)
      ensures !KeepsTimings(rank) ==> stime == old(stime) && etime == old(etime) && mtime == 0
    {
      StartTiming(start);
      StopTiming(stop);
      AccumulateTiming();
    }

    /**
     * `advance_iteration`: record the accumulated time and the iteration
     * index (not on ranks other than 0) and start the next iteration from 0.
     */
    method AdvanceIteration()
      requires Valid()
      modifies this`timings, this`samples, this`iter, this`mtime
      ensures Valid() && mtime == 0
      ensures KeepsTimings(rank) ==>
        timings == old(timings) + [old(mtime)] && samples == old(samples) + [old(iter)] && iter == old(iter) + 1
      ensures !KeepsTimings(rank) ==> timings == old(timings) && samples == old(samples) && iter == old(iter)
    {
      if KeepsTimings(rank) {
        timings := timings + [mtime];
        samples := samples + [iter];
        iter := iter + 1;
      }
      mtime := 0;
    }

    /** `__len__`. */
    function Length(): nat
      reads this`timings
    {
      |timings|
    }

    /** `get_values`. */
    function GetValues(): (ts: seq<int>)
      reads this`timings
      ensures |ts| == Length()
    {
      timings
    }

    /** `get_value(index)`: the total of iteration `index`, counted from the end when negative. */
    function GetValue(index: int): (r: Option<int>)
      reads this`timings
      ensures r.Some? <==> 0 - Length() <= index < Length()
      ensures 0 <= index < Length() ==> r == Some(GetValues()[index])
    {
      Index(timings, index)
    }
  }

  /** `ParticleSet_ParamLogging`. */
  class ParamLog {
    /** `_samples`: the iteration index of every recorded value. */
    var samples: seq<nat>
    /** `_params`: the recorded values, one per iteration. */
    var params: seq<int>
    /** `_iter`: the number of recorded iterations. */
    var iter: nat

    /** One sample and one value per recorded iteration, and the samples count 0, 1, 2, ... */
    predicate Valid()
      reads this`params, this`samples, this`iter
    {
      |params| == iter && |samples| == iter && forall i :: 0 <= i < |samples| ==> samples[i] == i
    }

    /** `__init__`. */
    constructor ()
      ensures Valid() && samples == [] && params == [] && iter == 0
    {
      samples, params, iter := [], [], 0;
    }

    /** `advance_iteration(param)`: record `param` as the value of the next iteration. */
    method AdvanceIteration(param: int)
      requires Valid()
      modifies this
      ensures Valid()
      ensures params == old(params) + [param] && samples == old(samples) + [old(iter)] && iter == old(iter) + 1
    {
      params := params + [param];
      samples := samples + [iter];
      iter := iter + 1;
    }

    /** `__len__`. */
    function Length(): nat
      reads this`params
    {
      |params|
    }

    /** `get_params`. */
    function GetParams(): (ps: seq<int>)
      reads this`params
      ensures |ps| == Length()
    {
      params
    }

    /** `get_param(index)`: the value of iteration `index`, counted from the end when negative. */
    function GetParam(index: int): (r: Option<int>)
      reads this`params
      ensures r.Some? <==> 0 - Length() <= index < Length()
      ensures 0 <= index < Length() ==> r == Some(GetParams()[index])
    {
      Index(params, index)
    }
  }
}
