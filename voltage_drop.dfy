/**
 * Voltage drop along the line (composables/useVoltageDrop.ts): its own copy
 * of the rating ladder, the impedance per metre of each rating, the drop in
 * volts and in per cent of the nominal voltage, and the offer verdict.
 */
module VoltageDrop {
  import opened Js
  import opened Ratings

  /** The sentinel text of this ladder. */
  const ConsultText: string := "Consultar dpto. t\U{00E9}cnico"

  const Offerable: string := "SE PUEDE OFERTAR ESTA L\U{00CD}NEA (<3%)"
  const SeeOptions: string := "VER OPCIONES 1 Y 2"

  /** `IMPEDANCE_BY_INTENSITY_OHM_PER_M`: ohms per metre of each rating. */
  const ImpedanceTable: map<real, real> := map[
    40.0 := 0.002,
    60.0 := 0.00175,
    80.0 := 0.00118,
    100.0 := 0.001,
    140.0 := 0.00075,
    160.0 := 0.00065,
    200.0 := 0.00055
  ]

  /** The table has exactly the ladder's ratings as keys. */
  lemma ImpedanceTableKeys()
    ensures forall a :: a in ImpedanceTable <==> a in Ladder
  {
  }

  /** A higher rating has a strictly lower impedance. */
  lemma ImpedanceDecreasing(a: real, b: real)
    requires a in ImpedanceTable && b in ImpedanceTable && a < b
    ensures ImpedanceTable[a] > ImpedanceTable[b]
  {
  }

  /** `getIntensityToInstall`: this copy has no branch for currents at or below 0. */
  function IntensityToInstall(current: Num): (r: Rating)
    ensures !current.Finite? ==> r == NoResult
    ensures current.Finite? && current.v < 40.0 ==> r == Amps(40.0)
    ensures current.Finite? && current.v < 200.0 ==> r.Amps? && LeastStepAbove(r.amps, current.v)
    ensures current.Finite? && current.v == 200.0 ==> r == NoResult
    ensures current.Finite? && current.v > 200.0 ==> r == Consult(ConsultText)
  {
    if !current.Finite? then NoResult
    else
      var x := current.v;
      if x < 40.0 then Amps(40.0)
      else if x < 60.0 then Amps(60.0)
      else if x < 80.0 then Amps(80.0)
      else if x < 100.0 then Amps(100.0)
      else if x < 140.0 then Amps(140.0)
      else if x < 160.0 then Amps(160.0)
      else if x < 200.0 then Amps(200.0)
      else if x > 200.0 then Consult(ConsultText)
      else NoResult
  }

  /** `getImpedanceOhmPerM`: the table value of a ladder rating, null for anything else. */
  function ImpedanceOhmPerM(rating: Rating): (z: Option<real>)
    ensures z.Some? <==> InLadder(rating)
    ensures z.Some? ==> z.value > 0.0
  {
    if !rating.Amps? then None
    else if rating.amps in ImpedanceTable then Some(ImpedanceTable[rating.amps])
    else None
  }

  /** `voltageDropVolts`: sqrt 3 * I * L * Z, with the raw current and the impedance of its rating. */
  function VoltageDropVolts(current: Num, distance: Value): (d: Option<real>)
    ensures var len := ToNumber(distance);
      d.Some? <==> current.Finite? && 0.0 < current.v < 200.0 && len.Finite? && len.v > 0.0
    ensures d.Some? ==>
      && d.value > 0.0
      && d.value == Sqrt3 * current.v * ToNumber(distance).v * ImpedanceTable[IntensityToInstall(current).amps]
  {
    var len := ToNumber(distance);
    var z := ImpedanceOhmPerM(IntensityToInstall(current));
    if !current.Finite? || current.v <= 0.0 then None
    else if !len.Finite? || len.v <= 0.0 then None
    else if z.None? then None
    else
      assert Sqrt3 * current.v * len.v > 0.0;
      Some(Sqrt3 * current.v * len.v * z.value)
  }

  /** At exactly 200 A neither a rating nor a drop comes out. */
  lemma NoDropAt200A(distance: Value)
    ensures IntensityToInstall(Finite(200.0)) == NoResult
    ensures VoltageDropVolts(Finite(200.0), distance) == None
  {
  }

  /** The drop grows in proportion to the line length. */
  lemma DropProportionalToLength(current: Num, l1: real, l2: real)
    requires 0.0 < l1 && 0.0 < l2
    ensures var d1 := VoltageDropVolts(current, Number(Finite(l1)));
      var d2 := VoltageDropVolts(current, Number(Finite(l2)));
      d1.Some? <==> d2.Some?
    ensures var d1 := VoltageDropVolts(current, Number(Finite(l1)));
      var d2 := VoltageDropVolts(current, Number(Finite(l2)));
      d1.Some? ==> d1.value * l2 == d2.value * l1
  {
  }

  /** `voltageDropPercent`: the drop as a percentage of the nominal voltage. */
  function VoltageDropPercent(drop: Option<real>, voltage: Value): (p: Option<real>)
    ensures var v := ToNumber(voltage);
      p.Some? <==> drop.Some? && v.Finite? && v.v != 0.0
    ensures p.Some? ==> p.value * ToNumber(voltage).v == drop.value * 100.0
  {
    var v := ToNumber(voltage);
    if !v.Finite? || v.v == 0.0 then None
    else if drop.None? then None
    else Some(drop.value / v.v * 100.0)
  }

  /** `voltageDropMessage`: the line can be offered when the drop stays under 3 %. */
  function VoltageDropMessage(percent: Option<real>): (m: Option<string>)
    ensures m.None? <==> percent.None?
    ensures m == Some(Offerable) <==> percent.Some? && percent.value < 3.0
    ensures m == Some(SeeOptions) <==> percent.Some? && percent.value >= 3.0
  {
    if percent.None? then None
    else if percent.value < 3.0 then Some(Offerable)
    else Some(SeeOptions)
  }

  /** The verdict for a line length and voltage, from the line current. */
  function Verdict(current: Num, distance: Value, voltage: Value): Option<string>
  {
    VoltageDropMessage(VoltageDropPercent(VoltageDropVolts(current, distance), voltage))
  }

  /** Shortening a line that can be offered keeps it offerable, at a positive voltage. */
  lemma ShorterLineStaysOfferable(current: Num, l1: real, l2: real, voltage: Value)
    requires 0.0 < l1 <= l2
    requires var v := ToNumber(voltage); v.Finite? && v.v > 0.0
    requires Verdict(current, Number(Finite(l2)), voltage) == Some(Offerable)
    ensures Verdict(current, Number(Finite(l1)), voltage) == Some(Offerable)
  {
    var v := ToNumber(voltage).v;
    var d1 := VoltageDropVolts(current, Number(Finite(l1)));
    var d2 := VoltageDropVolts(current, Number(Finite(l2)));
    DropProportionalToLength(current, l1, l2);
    var p1 := VoltageDropPercent(d1, voltage).value;
    var p2 := VoltageDropPercent(d2, voltage).value;
    assert d1.value <= d2.value by {
      assert d1.value * l2 == d2.value * l1;
      assert d1.value * l2 <= d2.value * l2;
    }
    CancelPositiveFactor(p1, p2, v, d1.value * 100.0, d2.value * 100.0);
  }

  /** Two numbers that a positive `v` scales to `a <= b` are in the same order. */
  lemma CancelPositiveFactor(x: real, y: real, v: real, a: real, b: real)
    requires v > 0.0 && x * v == a && y * v == b && a <= b
    ensures x <= y
  {
  }

  /** 199 A over 50 m at 380 V: rating 200 A, a drop of about 9.48 V or 2.49 %, offerable. */
  lemma OfferableAt199A()
    ensures Verdict(Finite(199.0), Number(Finite(50.0)), Number(Finite(380.0))) == Some(Offerable)
  {
    var d := VoltageDropVolts(Finite(199.0), Number(Finite(50.0)));
    assert d.value == Sqrt3 * 199.0 * 50.0 * 0.00055;
  }
}
