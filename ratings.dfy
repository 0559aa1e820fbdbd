/**
 * The standard current ratings the calculators choose from, and the value a
 * rating ladder returns: a rating in amperes (0 meaning "none needed"), the
 * "refer to the technical department" text, or `null`.
 */
module Ratings {

  datatype Rating = Amps(amps: real) | Consult(text: string) | NoResult

  /** The rating ladder, in ascending order. */
  const Ladder: seq<real> := [40.0, 60.0, 80.0, 100.0, 140.0, 160.0, 200.0]

  predicate InLadder(r: Rating)
  {
    r.Amps? && r.amps in Ladder
  }

  /** `x` is the least ladder step strictly above `current`. */
  predicate LeastStepAbove(x: real, current: real)
  {
    && x in Ladder
    && current < x
    && forall k :: k in Ladder && current < k ==> x <= k
  }
}
