/** The source's optional values (`None` for an argument that was not given). */
module Opt {
  datatype Option<+T> = None | Some(value: T)
}

/**
 * Simulation time extended with the two infinities that the stepping loop
 * uses for timers that never fire (`np.infty` and `-np.infty`).
 *
 * The run direction follows the loop's own test `if dt > 0 ... else ...`:
 * a positive timestep runs forward, zero and negative timesteps run backward.
 */
module ExtTime {
  datatype Time = NegInf | Fin(t: int) | PosInf

  /** Strict order of the extended line. */
  predicate Less(a: Time, b: Time) {
    match a
    case NegInf => !b.NegInf?
    case Fin(x) => b.PosInf? || (b.Fin? && x < b.t)
    case PosInf => false
  }

  predicate AtMost(a: Time, b: Time) {
    a == b || Less(a, b)
  }

  /** Python's `min` on two extended times. */
  function Min(a: Time, b: Time): (m: Time)
    ensures AtMost(m, a) && AtMost(m, b)
    ensures m == a || m == b
  {
    if AtMost(a, b) then a else b
  }

  /** Python's `max` on two extended times. */
  function Max(a: Time, b: Time): (m: Time)
    ensures AtMost(a, m) && AtMost(b, m)
    ensures m == a || m == b
  {
    if AtMost(a, b) then b else a
  }

  /** `a` comes strictly before `b` in the direction of a run with timestep `dt`. */
  predicate Precedes(dt: int, a: Time, b: Time) {
    if dt > 0 then Less(a, b) else Less(b, a)
  }

  predicate PrecedesEq(dt: int, a: Time, b: Time) {
    a == b || Precedes(dt, a, b)
  }

  /** `np.sign` */
  function Sign(x: int): (s: int)
    ensures s * x >= 0 && (s == 0 <==> x == 0)
    ensures -1 <= s <= 1
  {
    if x > 0 then 1 else if x < 0 then -1 else 0
  }

  lemma AtMostTransitive(a: Time, b: Time, c: Time)
    requires AtMost(a, b) && AtMost(b, c)
    ensures AtMost(a, c)
  {
  }

  lemma LessTransitive(a: Time, b: Time, c: Time)
    requires Less(a, b) && Less(b, c)
    ensures Less(a, c)
  {
  }

  lemma PrecedesTransitive(dt: int, a: Time, b: Time, c: Time)
    requires PrecedesEq(dt, a, b) && Precedes(dt, b, c)
    ensures Precedes(dt, a, c)
  {
  }

  lemma PrecedesTransitiveEq(dt: int, a: Time, b: Time, c: Time)
    requires Precedes(dt, a, b) && PrecedesEq(dt, b, c)
    ensures Precedes(dt, a, c)
  {
  }
}
