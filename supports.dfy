/**
 * Line supports, splices and end feed (composables/useSupports.ts): counts
 * derived from the total line length and the rating to install, and the
 * end-feed ("alimentacion extrema", AE-...) reference.
 */
module Supports {
  import opened Js
  import opened Ratings

  const EndFeedAdvisory: string := "Elegir seg\U{00FA}n cable (desplegar abajo):"

  /** `supportsSO4`: the number of SO-4 supports along the line. */
  function SupportsSO4(distance: Value, intensity: Rating): (n: Option<int>)
    ensures var len := ToNumber(distance);
      n.None? <==> !(len.Finite? && len.v > 0.0) || !intensity.Amps?
    ensures n.Some? && intensity.amps < 101.0 ==>
      var half := ToNumber(distance).v / 2.0;
      half <= n.value as real < half + 1.0
    ensures n.Some? && intensity.amps > 102.0 ==>
      var threeQuarters := ToNumber(distance).v * 0.75;
      threeQuarters <= n.value as real < threeQuarters + 1.0
    ensures n.Some? && 101.0 <= intensity.amps <= 102.0 ==> n.value == 0
    ensures n.Some? && !(101.0 <= intensity.amps <= 102.0) ==> n.value >= 1
  {
    var len := ToNumber(distance);
    if !len.Finite? || len.v <= 0.0 then None
    else if !intensity.Amps? then None
    else
      var raw :=
        if intensity.amps < 101.0 then len.v / 2.0
        else if intensity.amps > 102.0 then len.v * (3.0 / 4.0)
        else 0.0;
      Some(Ceil(raw))
  }

  /** `empalmesEMP4`: splices, one per 4 m of line less one; no lower bound on the length. */
  function EmpalmesEMP4(distance: Value): (n: Option<int>)
    ensures n.None? <==> !ToNumber(distance).Finite?
    ensures n.Some? ==>
      var raw := ToNumber(distance).v / 4.0 - 1.0;
      raw <= n.value as real < raw + 1.0
    ensures n.Some? ==> (n.value >= 0 <==> ToNumber(distance).v > 0.0)
  {
    var len := ToNumber(distance);
    if !len.Finite? then None
    else Some(Ceil(len.v / 4.0 - 1.0))
  }

  /** An empty (null) length reads as 0 m and gives -1 splices. */
  lemma NullDistanceSplices()
    ensures EmpalmesEMP4(Null) == Some(-1)
  {
  }

  /** `alimentacionExtremaRef`: the end-feed unit for a rating. */
  function AlimentacionExtremaRef(intensity: Rating): (r: Option<string>)
    ensures r.None? <==> !intensity.Amps?
  {
    if !intensity.Amps? then None
    else if intensity.amps < 70.0 then Some("AE-4")
    else if intensity.amps < 110.0 then Some("AE-4-100")
    else if intensity.amps < 150.0 then Some("AE-4-140")
    else Some(EndFeedAdvisory)
  }

  /**
   * The end-feed reference of every numeric rating: AE-4 below 70 A,
   * AE-4-100 from 70 A up to 110 A, AE-4-140 from 110 A up to 150 A, and
   * the choose-by-cable text from 150 A on.
   */
  lemma EndFeedBuckets(a: real)
    ensures a < 70.0 ==> AlimentacionExtremaRef(Amps(a)) == Some("AE-4")
    ensures 70.0 <= a < 110.0 ==> AlimentacionExtremaRef(Amps(a)) == Some("AE-4-100")
    ensures 110.0 <= a < 150.0 ==> AlimentacionExtremaRef(Amps(a)) == Some("AE-4-140")
    ensures 150.0 <= a ==> AlimentacionExtremaRef(Amps(a)) == Some(EndFeedAdvisory)
  {
  }

  /** `su5001`: one more than the supports, when there is a support count. */
  function Su5001(supports: Option<int>): (n: Option<int>)
    ensures n.None? <==> supports.None?
    ensures n.Some? ==> n.value - 1 == supports.value
  {
    if supports.None? then None else Some(supports.value + 1)
  }

  /** With a positive length and a rating outside 101..102 there are at least two SU-5001. */
  lemma AtLeastTwoSu5001(distance: Value, intensity: Rating)
    requires var len := ToNumber(distance); len.Finite? && len.v > 0.0
    requires intensity.Amps? && !(101.0 <= intensity.amps <= 102.0)
    ensures Su5001(SupportsSO4(distance, intensity)).Some?
    ensures Su5001(SupportsSO4(distance, intensity)).value >= 2
  {
  }

  /** 100 m at 60 A: 50 supports, 24 splices, end feed AE-4. */
  lemma HundredMetresAt60A()
    ensures SupportsSO4(Number(Finite(100.0)), Amps(60.0)) == Some(50)
    ensures EmpalmesEMP4(Number(Finite(100.0))) == Some(24)
    ensures AlimentacionExtremaRef(Amps(60.0)) == Some("AE-4")
    ensures Su5001(SupportsSO4(Number(Finite(100.0)), Amps(60.0))) == Some(51)
  {
  }
}
