/**
 * What the stepping loop promises over a whole run: stops strictly ordered in
 * the run direction, never past the end time, ending exactly at it, and each
 * periodic timer firing at exactly the points of its arithmetic progression
 * (none skipped, none doubled).
 */
module ScheduleProperties {
  import opened ExtTime
  import opened Schedule

  /** `x` is `t0 + k * n * sign(dt)` for some k >= 0. */
  predicate OnProgression(dt: int, t0: int, n: nat, x: Time) {
    x.Fin? && n > 0 && PrecedesEq(dt, Fin(t0), x) && (x.t - t0) % n == 0
  }

  /** A multiple of a positive number strictly between `-n` and `n` is zero. */
  lemma SmallMultipleIsZero(k: int, n: int)
    requires n > 0 && -n < k * n < n
    ensures k == 0
  {
  }

  /** Quotient and remainder are unique. */
  lemma DivModUnique(a: int, q: int, n: int, r: int)
    requires n > 0 && 0 <= r < n && a == q * n + r
    ensures a / n == q && a % n == r
  {
    var q', r' := a / n, a % n;
    assert a == q' * n + r';
    assert (q - q') * n == r' - r;
    SmallMultipleIsZero(q - q', n);
  }

  lemma ModShift(a: int, n: int)
    requires n > 0
    ensures (a - n) % n == a % n && (a + n) % n == a % n
  {
    var q, r := a / n, a % n;
    assert a == q * n + r;
    DivModUnique(a - n, q - 1, n, r);
    DivModUnique(a + n, q + 1, n, r);
  }

  lemma MultipleAtLeastPeriod(a: int, n: int)
    requires n > 0 && a > 0 && a % n == 0
    ensures a >= n
  {
    var q := a / n;
    assert a == q * n;
  }

  /** Divisibility by `n` does not depend on the sign. */
  lemma NegatedMultiple(d: int, n: int)
    requires n > 0 && d % n == 0
    ensures (-d) % n == 0
  {
    var q := d / n;
    assert d == q * n;
    DivModUnique(-d, -q, n, 0);
  }

  /** Forward form of the shift: a positive offset `d` is a multiple of `n` iff `d - n` is a non-negative one. */
  lemma ShiftForward(d: int, n: int)
    requires n > 0 && d > 0
    ensures (d >= n && (d - n) % n == 0) <==> d % n == 0
  {
    ModShift(d, n);
    if d % n == 0 {
      MultipleAtLeastPeriod(d, n);
    }
  }

  /** Backward form of the shift: a negative offset `d` is a multiple of `n` iff `d + n` is a non-positive one. */
  lemma ShiftBackward(d: int, n: int)
    requires n > 0 && d < 0
    ensures (d <= -n && (d + n) % n == 0) <==> d % n == 0
  {
    ModShift(d, n);
    if d % n == 0 {
      NegatedMultiple(d, n);
      MultipleAtLeastPeriod(-d, n);
    }
  }

  /**
   * Past a firing at `t0`, the progression from `t0` and the progression from
   * the moved-on timer `t0 + n * sign(dt)` have the same points.
   */
  lemma ProgressionShift(dt: int, t0: int, n: nat, x: Time)
    requires n > 0 && dt != 0 && Precedes(dt, Fin(t0), x)
    ensures OnProgression(dt, t0 + n * Sign(dt), n, x) <==> OnProgression(dt, t0, n, x)
  {
    if x.Fin? {
      var d := x.t - t0;
      if dt > 0 {
        assert t0 + n * Sign(dt) == t0 + n;
        assert x.t - (t0 + n) == d - n;
        ShiftForward(d, n);
      } else {
        assert t0 + n * Sign(dt) == t0 - n;
        assert x.t - (t0 - n) == d + n;
        ShiftBackward(d, n);
      }
    }
  }

  /**
   * A timer started one period past `t0` is on the progression from `t0`
   * without `t0` itself.
   */
  lemma ProgressionPastStart(dt: int, t0: int, n: nat, x: Time)
    requires n > 0 && dt != 0
    ensures OnProgression(dt, if dt > 0 then t0 + n else t0 - n, n, x) <==> OnProgression(dt, t0, n, x) && x != Fin(t0)
  {
    var t1 := t0 + n * Sign(dt);
    assert t1 == if dt > 0 then t0 + n else t0 - n;
    assert Precedes(dt, Fin(t0), Fin(t1));
    if OnProgression(dt, t1, n, x) {
      PrecedesTransitiveEq(dt, Fin(t0), Fin(t1), x);
      ProgressionShift(dt, t0, n, x);
    }
    if OnProgression(dt, t0, n, x) && x != Fin(t0) {
      ProgressionShift(dt, t0, n, x);
    }
  }

  /** The stops of a stepping run lie strictly past the start and strictly increase in the run direction. */
  lemma {:induction false} RunStopsOrdered(c: Config, chunk: ChunkOracle, st: Sched)
    requires Stepping(c, chunk, st)
    ensures forall i :: 0 <= i < |Run(c, chunk, st)| ==>
      Precedes(c.dt, st.time, Run(c, chunk, st)[i].state.time)
    ensures forall i, j :: 0 <= i < j < |Run(c, chunk, st)| ==>
      Precedes(c.dt, Run(c, chunk, st)[i].state.time, Run(c, chunk, st)[j].state.time)
    decreases Remaining(c, st.time)
  {
    if Continues(c.dt, st.time, c.endtime) {
      var v := Step(c, chunk, st);
      StepKeepsAhead(c, chunk, st);
      RunStopsOrdered(c, chunk, v.state);
      var rest := Run(c, chunk, v.state);
      var vs := Run(c, chunk, st);
      assert vs == [v] + rest;
      forall i | 0 < i < |vs|
        ensures Precedes(c.dt, st.time, vs[i].state.time) && Precedes(c.dt, v.state.time, vs[i].state.time)
      {
        assert vs[i] == rest[i - 1];
        PrecedesTransitive(c.dt, st.time, v.state.time, vs[i].state.time);
      }
      forall i, j | 0 < i < j < |vs|
        ensures Precedes(c.dt, vs[i].state.time, vs[j].state.time)
      {
        assert vs[i] == rest[i - 1] && vs[j] == rest[j - 1];
      }
    }
  }

  /** No stop of a stepping run overshoots the end time. */
  lemma {:induction false} RunWithinEndtime(c: Config, chunk: ChunkOracle, st: Sched)
    requires Stepping(c, chunk, st)
    ensures forall i :: 0 <= i < |Run(c, chunk, st)| ==>
      PrecedesEq(c.dt, Run(c, chunk, st)[i].state.time, Fin(c.endtime))
    decreases Remaining(c, st.time)
  {
    if Continues(c.dt, st.time, c.endtime) {
      var v := Step(c, chunk, st);
      StepKeepsAhead(c, chunk, st);
      RunWithinEndtime(c, chunk, v.state);
      var rest := Run(c, chunk, v.state);
      var vs := Run(c, chunk, st);
      assert vs == [v] + rest;
      forall i | 0 < i < |vs|
        ensures PrecedesEq(c.dt, vs[i].state.time, Fin(c.endtime))
      {
        assert vs[i] == rest[i - 1];
      }
    }
  }

  /** A stepping run that enters the loop makes its last stop exactly at the end time. */
  lemma {:induction false} RunEndsAtEndtime(c: Config, chunk: ChunkOracle, st: Sched)
    requires Stepping(c, chunk, st) && Continues(c.dt, st.time, c.endtime)
    ensures |Run(c, chunk, st)| > 0
    ensures Run(c, chunk, st)[|Run(c, chunk, st)| - 1].state.time == Fin(c.endtime)
    decreases Remaining(c, st.time)
  {
    var v := Step(c, chunk, st);
    StepKeepsAhead(c, chunk, st);
    var vs := Run(c, chunk, st);
    var rest := Run(c, chunk, v.state);
    assert vs == [v] + rest;
    if Continues(c.dt, v.state.time, c.endtime) {
      RunEndsAtEndtime(c, chunk, v.state);
      assert vs[|vs| - 1] == rest[|rest| - 1];
    } else {
      assert rest == [];
    }
  }

  /** A timer without a period never fires, in a stepping run or in the single pass of execute-once mode. */
  lemma {:induction false} RunNeverFires(c: Config, chunk: ChunkOracle, st: Sched, ev: Event)
    requires c.dt == 0 || Stepping(c, chunk, st)
    requires c.periods.Of(ev).Never?
    ensures forall i :: 0 <= i < |Run(c, chunk, st)| ==> ev !in Run(c, chunk, st)[i].fired
    decreases Remaining(c, st.time)
  {
    if Continues(c.dt, st.time, c.endtime) && c.dt != 0 {
      var v := Step(c, chunk, st);
      StepKeepsAhead(c, chunk, st);
      RunNeverFires(c, chunk, v.state, ev);
      var rest := Run(c, chunk, v.state);
      var vs := Run(c, chunk, st);
      assert vs == [v] + rest;
      forall i | 0 < i < |vs|
        ensures ev !in vs[i].fired
      {
        assert vs[i] == rest[i - 1];
      }
    }
  }

  /**
   * A periodic timer fires at a stop exactly when the stop is on its
   * progression from its current next time: it fires at no other stop.
   */
  lemma {:induction false} RunFiresOnProgression(c: Config, chunk: ChunkOracle, st: Sched, ev: Event, n: nat)
    requires Stepping(c, chunk, st)
    requires c.periods.Of(ev) == Every(n) && st.timers.Of(ev).Fin?
    ensures forall i :: 0 <= i < |Run(c, chunk, st)| ==>
      (ev in Run(c, chunk, st)[i].fired <==>
       OnProgression(c.dt, st.timers.Of(ev).t, n, Run(c, chunk, st)[i].state.time))
    decreases Remaining(c, st.time)
  {
    if Continues(c.dt, st.time, c.endtime) {
      var v := Step(c, chunk, st);
      StepKeepsAhead(c, chunk, st);
      StepFiresOnProgression(c, chunk, st, ev, n, v.state.time);
      RunStopsOrdered(c, chunk, v.state);
      RunFiresOnProgression(c, chunk, v.state, ev, n);
      var rest := Run(c, chunk, v.state);
      var vs := Run(c, chunk, st);
      assert vs == [v] + rest;
      forall i | 0 < i < |vs|
        ensures ev in vs[i].fired <==> OnProgression(c.dt, st.timers.Of(ev).t, n, vs[i].state.time)
      {
        assert vs[i] == rest[i - 1];
        StepFiresOnProgression(c, chunk, st, ev, n, rest[i - 1].state.time);
      }
    }
  }

  /**
   * One pass: a periodic timer fires at the stop exactly when the stop is on
   * its progression, and beyond the stop its next time lies on the same
   * progression as before.
   */
  lemma StepFiresOnProgression(c: Config, chunk: ChunkOracle, st: Sched, ev: Event, n: nat, x: Time)
    requires Stepping(c, chunk, st) && Continues(c.dt, st.time, c.endtime)
    requires c.periods.Of(ev) == Every(n) && st.timers.Of(ev).Fin?
    ensures var v := Step(c, chunk, st);
      && v.state.timers.Of(ev).Fin?
      && (ev in v.fired <==> OnProgression(c.dt, st.timers.Of(ev).t, n, v.state.time))
      && (Precedes(c.dt, v.state.time, x) ==>
           (OnProgression(c.dt, v.state.timers.Of(ev).t, n, x) <==> OnProgression(c.dt, st.timers.Of(ev).t, n, x)))
  {
    var t0 := st.timers.Of(ev).t;
    var v := Step(c, chunk, st);
    var s := v.state.time;
    StepKeepsAhead(c, chunk, st);
    if ev in v.fired {
      assert s == Fin(t0);
      assert v.state.timers.Of(ev).t == t0 + n * Sign(c.dt);
      if Precedes(c.dt, s, x) {
        ProgressionShift(c.dt, t0, n, x);
      }
    } else {
      assert st.timers.Of(ev) != s;
      assert !OnProgression(c.dt, t0, n, s);
      assert v.state.timers.Of(ev).t == t0;
    }
  }

  /**
   * No firing is skipped: every point of a periodic timer's progression up to
   * the end time is a stop of the run, and the timer fires there.
   */
  lemma {:induction false} RunVisitsEveryFiring(c: Config, chunk: ChunkOracle, st: Sched, ev: Event, n: nat, p: int)
    requires Stepping(c, chunk, st)
    requires c.periods.Of(ev) == Every(n) && st.timers.Of(ev).Fin?
    requires OnProgression(c.dt, st.timers.Of(ev).t, n, Fin(p)) && PrecedesEq(c.dt, Fin(p), Fin(c.endtime))
    ensures exists i :: (0 <= i < |Run(c, chunk, st)| &&
      Run(c, chunk, st)[i].state.time == Fin(p) && ev in Run(c, chunk, st)[i].fired)
    decreases Remaining(c, st.time)
  {
    var t0 := st.timers.Of(ev).t;
    assert Precedes(c.dt, st.time, Fin(t0));
    PrecedesTransitiveEq(c.dt, st.time, Fin(t0), Fin(p));
    PrecedesTransitiveEq(c.dt, st.time, Fin(p), Fin(c.endtime));
    var v := Step(c, chunk, st);
    StepKeepsAhead(c, chunk, st);
    var rest := Run(c, chunk, v.state);
    var vs := Run(c, chunk, st);
    assert vs == [v] + rest;
    if ev in v.fired && p == t0 {
      assert vs[0] == v && v.state.time == Fin(p);
    } else {
      if ev in v.fired {
        assert Precedes(c.dt, Fin(t0), Fin(p));
        ProgressionShift(c.dt, t0, n, Fin(p));
      } else {
        assert v.state.timers.Of(ev) == Fin(t0);
      }
      RunVisitsEveryFiring(c, chunk, v.state, ev, n, p);
      var j :| 0 <= j < |rest| && rest[j].state.time == Fin(p) && ev in rest[j].fired;
      assert vs[j + 1] == rest[j];
    }
  }

  /** The stops at which `ev` fired, in the order of the passes. */
  function FiredAt(vs: seq<Visit>, ev: Event): (ts: seq<Time>)
    ensures |ts| <= |vs|
    ensures forall x :: x in ts <==> exists i :: 0 <= i < |vs| && ev in vs[i].fired && vs[i].state.time == x
    ensures (forall i :: 0 <= i < |vs| ==> ev !in vs[i].fired) ==> ts == []
    decreases |vs|
  {
    if vs == [] then []
    else
      var init := vs[..|vs| - 1];
      var ts := FiredAt(init, ev) + (if ev in vs[|vs| - 1].fired then [vs[|vs| - 1].state.time] else []);
      assert forall i :: 0 <= i < |init| ==> init[i] == vs[i];
      ts
  }

  /**
   * Over a whole stepping run a periodic timer fires at exactly the points of
   * its progression that do not pass the end time: none is skipped and no
   * other stop fires it.
   */
  lemma FiringTimesAreProgression(c: Config, chunk: ChunkOracle, st: Sched, ev: Event, n: nat, x: Time)
    requires Stepping(c, chunk, st)
    requires c.periods.Of(ev) == Every(n) && st.timers.Of(ev).Fin?
    ensures x in FiredAt(Run(c, chunk, st), ev) <==>
      OnProgression(c.dt, st.timers.Of(ev).t, n, x) && PrecedesEq(c.dt, x, Fin(c.endtime))
  {
    var vs := Run(c, chunk, st);
    if x in FiredAt(vs, ev) {
      var i :| 0 <= i < |vs| && ev in vs[i].fired && vs[i].state.time == x;
      RunFiresOnProgression(c, chunk, st, ev, n);
      RunWithinEndtime(c, chunk, st);
    }
    if OnProgression(c.dt, st.timers.Of(ev).t, n, x) && PrecedesEq(c.dt, x, Fin(c.endtime)) {
      RunVisitsEveryFiring(c, chunk, st, ev, n, x.t);
    }
  }

  /**
   * A periodic timer that starts one period past `t0` fires over a whole
   * stepping run at exactly the points of the progression from `t0`, other
   * than `t0`, that do not pass the end time.
   */
  lemma FiresPastStart(c: Config, chunk: ChunkOracle, st: Sched, ev: Event, n: nat, t0: int, x: Time)
    requires Stepping(c, chunk, st) && n > 0 && c.dt != 0
    requires c.periods.Of(ev) == Every(n) && st.timers.Of(ev) == Fin(if c.dt > 0 then t0 + n else t0 - n)
    ensures x in FiredAt(Run(c, chunk, st), ev) <==>
      OnProgression(c.dt, t0, n, x) && x != Fin(t0) && PrecedesEq(c.dt, x, Fin(c.endtime))
  {
    FiringTimesAreProgression(c, chunk, st, ev, n, x);
    ProgressionPastStart(c.dt, t0, n, x);
  }

}
