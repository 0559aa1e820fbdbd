/**
 * Current sizing and accessory lookup per crane
 * (composables/useGruaAccessories.ts): nominal current from power and
 * voltage, the rating ladder that rounds it up, and the socket ("toma de
 * corriente", TO-...) and drag-arm ("brazo de arrastre", BA-...) catalog
 * references of a rating. The crane's installed power is the one of
 * `TotalPower`, which the file repeats verbatim.
 */
module GruaAccessories {
  import opened Js
  import opened Ratings
  import TotalPower

  /** The sentinel text of this ladder, with the accented letter as the file stores it. */
  const ConsultText: string := "Consultar dpto. t\U{00C3}\U{00A9}cnico"

  /** The reference lookups answer the number 0 when there is no reference. */
  datatype CatalogRef = NoRef | Code(code: string)

  /** `getNominalIntensityAmps`: three-phase current P / (sqrt 3 * V * 0.8). */
  function NominalIntensityAmps(powerWatts: real, voltage: real): (i: Num)
    ensures i.Finite? <==> voltage != 0.0
    ensures i.Finite? ==> i.v * (Sqrt3 * voltage * 0.8) == powerWatts
    ensures voltage > 0.0 && powerWatts >= 0.0 ==> i.Finite? && i.v >= 0.0
  {
    Divide(powerWatts, Sqrt3 * voltage * 0.8)
  }

  /** `getIntensityToInstall`: the rating a nominal current calls for. */
  function IntensityToInstall(current: Num): (r: Rating)
    ensures !current.Finite? ==> r == NoResult
    ensures current.Finite? && current.v <= 0.0 ==> r == Amps(0.0)
    ensures current.Finite? && 0.0 < current.v < 200.0 ==> r.Amps? && LeastStepAbove(r.amps, current.v)
    ensures current.Finite? && current.v == 200.0 ==> r == NoResult
    ensures current.Finite? && current.v > 200.0 ==> r == Consult(ConsultText)
  {
    if !current.Finite? then NoResult
    else
      var x := current.v;
      if x <= 0.0 then Amps(0.0)
      else if x < 40.0 then Amps(40.0)
      else if x < 60.0 then Amps(60.0)
      else if x < 80.0 then Amps(80.0)
      else if x < 100.0 then Amps(100.0)
      else if x < 140.0 then Amps(140.0)
      else if x < 160.0 then Amps(160.0)
      else if x < 200.0 then Amps(200.0)
      else if x > 200.0 then Consult(ConsultText)
      else NoResult
  }

  /** A larger current never gets a smaller rating. */
  lemma IntensityToInstallMonotonic(a: real, b: real)
    requires a <= b < 200.0
    ensures IntensityToInstall(Finite(a)).amps <= IntensityToInstall(Finite(b)).amps
  {
    if 0.0 < a {
      var rb := IntensityToInstall(Finite(b)).amps;
      assert rb in Ladder && a < rb;
    }
  }

  /** How many 40 A units and 60 A units make up each ladder rating. */
  datatype Units = Units(small: nat, large: nat)

  function UnitsFor(amps: real): Option<Units>
  {
    if amps == 40.0 then Some(Units(1, 0))
    else if amps == 60.0 || amps == 80.0 then Some(Units(0, 1))
    else if amps == 100.0 then Some(Units(1, 1))
    else if amps == 140.0 then Some(Units(0, 2))
    else if amps == 160.0 then Some(Units(1, 2))
    else if amps == 200.0 then Some(Units(0, 3))
    else None
  }

  /** `getTomacorrientesRef`: the socket units for a rating. */
  function TomacorrientesRef(rating: Rating): (r: CatalogRef)
    ensures r.Code? <==> InLadder(rating)
  {
    if !rating.Amps? then NoRef
    else
      match rating.amps
      case 40.0 => Code("TO-4x35A")
      case 60.0 => Code("TO-4x70A")
      case 80.0 => Code("TO-4x70A")
      case 100.0 => Code("TO-4x35A + TO-4x70A")
      case 140.0 => Code("2  TO-4x70A")
      case 160.0 => Code("TO-4x35A + 2 TO-4x70A")
      case 200.0 => Code("3 TO-4x70A")
      case _ => NoRef
  }

  /** `getBrazoArrastreRef`: the drag-arm units for a rating. */
  function BrazoArrastreRef(rating: Rating): (r: CatalogRef)
    ensures r.Code? <==> InLadder(rating)
  {
    if !rating.Amps? then NoRef
    else
      match rating.amps
      case 40.0 => Code("BA-4")
      case 60.0 => Code("BA-70")
      case 80.0 => Code("BA-70")
      case 100.0 => Code("BA-4 + BA-70")
      case 140.0 => Code("2 BA-70")
      case 160.0 => Code("BA-4 + 2 BA-70")
      case 200.0 => Code("3 BA-70")
      case _ => NoRef
  }

  /**
   * Two ladder ratings get the same socket reference, and the same arm
   * reference, exactly when they are made of the same units.
   */
  lemma RefsFollowUnits(a: real, b: real)
    requires a in Ladder && b in Ladder
    ensures TomacorrientesRef(Amps(a)) == TomacorrientesRef(Amps(b)) <==> UnitsFor(a) == UnitsFor(b)
    ensures BrazoArrastreRef(Amps(a)) == BrazoArrastreRef(Amps(b)) <==> UnitsFor(a) == UnitsFor(b)
  {
  }

  /** `intensityToInstallByGrua`: the rating of each crane on its own. */
  function IntensityToInstallByGrua(voltage: Value, gruas: seq<TotalPower.Grua>): (rs: seq<Rating>)
    ensures |rs| == |gruas|
    ensures var v := ToNumber(voltage);
      !(v.Finite? && v.v > 0.0) ==> forall i :: 0 <= i < |rs| ==> rs[i] == NoResult
    ensures var v := ToNumber(voltage);
      v.Finite? && v.v > 0.0 ==>
        forall i :: 0 <= i < |rs| ==>
          (rs[i] == Amps(0.0) <==> TotalPower.InstalledPowerWatts(gruas[i]) <= 0.0)
    ensures var v := ToNumber(voltage);
      v.Finite? && v.v > 0.0 ==>
        forall i :: 0 <= i < |rs| ==>
          rs[i] == IntensityToInstall(NominalIntensityAmps(TotalPower.InstalledPowerWatts(gruas[i]), v.v))
  {
    var v := ToNumber(voltage);
    if !v.Finite? || v.v <= 0.0 then seq(|gruas|, _ => NoResult)
    else
      seq(|gruas|, i requires 0 <= i < |gruas| =>
        IntensityToInstall(NominalIntensityAmps(TotalPower.InstalledPowerWatts(gruas[i]), v.v)))
  }

  /** `tomacorrientesByGrua`: the socket reference of each crane's rating, in crane order. */
  function TomacorrientesByGrua(rs: seq<Rating>): (refs: seq<CatalogRef>)
    ensures |refs| == |rs|
    ensures forall i :: 0 <= i < |rs| ==> (refs[i].Code? <==> InLadder(rs[i]))
    ensures forall i :: 0 <= i < |rs| ==> refs[i] == TomacorrientesRef(rs[i])
  {
    seq(|rs|, i requires 0 <= i < |rs| => TomacorrientesRef(rs[i]))
  }

  /** `brazoArrastreByGrua`: the drag-arm reference of each crane's rating, in crane order. */
  function BrazoArrastreByGrua(rs: seq<Rating>): (refs: seq<CatalogRef>)
    ensures |refs| == |rs|
    ensures forall i :: 0 <= i < |rs| ==> (refs[i].Code? <==> InLadder(rs[i]))
    ensures forall i :: 0 <= i < |rs| ==> refs[i] == BrazoArrastreRef(rs[i])
  {
    seq(|rs|, i requires 0 <= i < |rs| => BrazoArrastreRef(rs[i]))
  }

  /** Without a usable voltage every crane shows 0 for both references. */
  lemma NoVoltageNoAccessories(voltage: Value, gruas: seq<TotalPower.Grua>)
    requires var v := ToNumber(voltage); !(v.Finite? && v.v > 0.0)
    ensures var rs := IntensityToInstallByGrua(voltage, gruas);
      && |TomacorrientesByGrua(rs)| == |gruas|
      && (forall i :: 0 <= i < |gruas| ==> TomacorrientesByGrua(rs)[i] == NoRef)
      && |BrazoArrastreByGrua(rs)| == |gruas|
      && (forall i :: 0 <= i < |gruas| ==> BrazoArrastreByGrua(rs)[i] == NoRef)
  {
  }

  /** One 30 kW crane at 380 V draws about 57 A from its own power, not derated, and gets the 60 A units. */
  lemma CraneOf30KwAt380V()
    ensures var g := TotalPower.Grua(Some([TotalPower.Servicio(Number(Finite(30.0)))]));
      var rs := IntensityToInstallByGrua(Number(Finite(380.0)), [g]);
      && rs == [Amps(60.0)]
      && TomacorrientesRef(rs[0]) == Code("TO-4x70A")
      && BrazoArrastreRef(rs[0]) == Code("BA-70")
  {
    TotalPower.CraneOf30Kw();
    var i := NominalIntensityAmps(30000.0, 380.0);
    assert 56.9 < i.v < 57.0;
  }
}
