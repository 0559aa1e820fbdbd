/**
 * How the calculators fit together: the line current of `TotalPower` feeds
 * the rating ladders, the rating feeds the supports and the voltage drop.
 * The two ladders (per crane and for the whole line) are separate copies
 * that differ at and below 0 A and in their sentinel text.
 */
module Pipeline {
  import opened Js
  import opened Ratings
  import TotalPower
  import GruaAccessories
  import Supports
  import VoltageDrop

  /** A ladder step is determined by the current it is the least step above. */
  lemma LeastStepAboveUnique(x: real, y: real, current: real)
    requires LeastStepAbove(x, current) && LeastStepAbove(y, current)
    ensures x == y
  {
  }

  /**
   * The per-crane ladder and the line ladder agree on every current strictly
   * between 0 and 200 A and at 200 A; at or below 0 A one answers 0 and the
   * other 40; above 200 A both refer to the technical department, with
   * texts that differ.
   */
  lemma LaddersAgree(x: real)
    ensures 0.0 < x <= 200.0 ==>
      GruaAccessories.IntensityToInstall(Finite(x)) == VoltageDrop.IntensityToInstall(Finite(x))
    ensures x <= 0.0 ==>
      && GruaAccessories.IntensityToInstall(Finite(x)) == Amps(0.0)
      && VoltageDrop.IntensityToInstall(Finite(x)) == Amps(40.0)
    ensures x > 200.0 ==>
      && GruaAccessories.IntensityToInstall(Finite(x)).Consult?
      && VoltageDrop.IntensityToInstall(Finite(x)).Consult?
      && GruaAccessories.IntensityToInstall(Finite(x)) != VoltageDrop.IntensityToInstall(Finite(x))
  {
    if 0.0 < x < 200.0 {
      LeastStepAboveUnique(GruaAccessories.IntensityToInstall(Finite(x)).amps,
        VoltageDrop.IntensityToInstall(Finite(x)).amps, x);
    } else if x > 200.0 {
      assert GruaAccessories.ConsultText[17] != VoltageDrop.ConsultText[17];
    }
  }

  /**
   * The 101..102 A band, where the supports formula yields 0, is never a
   * ladder rating: with a positive line length there are always at least two
   * SU-5001 units.
   */
  lemma SupportsGapUnreachable(current: Num, distance: Value)
    requires var len := ToNumber(distance); len.Finite? && len.v > 0.0
    ensures var r := VoltageDrop.IntensityToInstall(current);
      r.Amps? ==>
        && Supports.Su5001(Supports.SupportsSO4(distance, r)).Some?
        && Supports.Su5001(Supports.SupportsSO4(distance, r)).value >= 2
  {
    var r := VoltageDrop.IntensityToInstall(current);
    if r.Amps? {
      assert r.amps in Ladder;
      Supports.AtLeastTwoSu5001(distance, r);
    }
  }

  /** Without a positive voltage the line current is 0, so no voltage-drop verdict is shown. */
  lemma NoVoltageNoVerdict(voltage: Value, totalWatts: real, distance: Value)
    requires var v := ToNumber(voltage); !(v.Finite? && v.v > 0.0)
    ensures VoltageDrop.Verdict(Finite(TotalPower.TotalPowerAmps(voltage, totalWatts)), distance, voltage) == None
  {
    var amps := TotalPower.TotalPowerAmps(voltage, totalWatts);
    assert amps == 0.0;
    assert VoltageDrop.VoltageDropVolts(Finite(amps), distance) == None;
  }
}
