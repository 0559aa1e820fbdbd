/**
 * Power-unit synchronisation (composables/usePowerCalculations.ts): the
 * CV/kW conversions and the current at a fixed 380 V, and the input handlers
 * that overwrite, or clear, the other fields of the form's simultaneous-power
 * record or of a per-machine power group.
 */
module PowerCalculations {
  import opened Js
  import TotalPower

  /** The voltage the current is always computed at, whatever the form's voltage. */
  const FixedVoltage: real := 380.0

  /** `convertCvToKw`: the value times 1.36, to two decimals. */
  function ConvertCvToKw(value: real): (kw: real)
    ensures -0.005 <= kw - value * 1.36 <= 0.005
    ensures (kw * 100.0).Floor as real == kw * 100.0
    ensures value >= 0.0 ==> kw >= 0.0
  {
    Round2(value * 1.36)
  }

  /** `convertKwToCv`: the value times 0.73, to two decimals. */
  function ConvertKwToCv(value: real): (cv: real)
    ensures -0.005 <= cv - value * 0.73 <= 0.005
    ensures (cv * 100.0).Floor as real == cv * 100.0
    ensures value >= 0.0 ==> cv >= 0.0
  {
    Round2(value * 0.73)
  }

  /** `calculateAmp`: the three-phase current of `kw` kilowatts at 380 V and power factor 0.8, to two decimals. */
  function CalculateAmp(kw: real): (amp: real)
    ensures -0.005 <= amp - kw * 1000.0 / (Sqrt3 * FixedVoltage * 0.8) <= 0.005
    ensures kw >= 0.0 ==> amp >= 0.0
  {
    assert Sqrt3 * FixedVoltage * 0.8 > 0.0;
    Round2(kw * 1000.0 / (Sqrt3 * FixedVoltage * 0.8))
  }

  /**
   * The current of `calculateAmp` is the total-power current of the same
   * power at a form voltage of 380 V: the form's own voltage is never read.
   */
  lemma CalculateAmpAtFixedVoltage(kw: real)
    ensures CalculateAmp(kw) == TotalPower.TotalPowerAmps(Number(Finite(FixedVoltage)), kw * 1000.0)
  {
    assert TotalPower.Derating == 0.8;
  }

  /** 1 CV converts to 1.36 kW, which converts back to 0.99 CV: the conversions are not inverses. */
  lemma NoRoundTrip()
    ensures ConvertCvToKw(1.0) == 1.36
    ensures ConvertKwToCv(ConvertCvToKw(1.0)) == 0.99
  {
    assert RoundHalfUp(136.0) == 136;
    assert 1.36 * 0.73 * 100.0 == 99.28;
    assert RoundHalfUp(99.28) == 99;
  }

  /** From 2 units up, converting there and back always loses value, in either order. */
  lemma RoundTripShrinks(value: real)
    requires value >= 2.0
    ensures ConvertKwToCv(ConvertCvToKw(value)) < value
    ensures ConvertCvToKw(ConvertKwToCv(value)) < value
  {
    var kw := ConvertCvToKw(value);
    assert kw <= value * 1.36 + 0.005;
    assert kw * 0.73 <= value * 0.9928 + 0.00365;
    var cv := ConvertKwToCv(value);
    assert cv <= value * 0.73 + 0.005;
    assert cv * 1.36 <= value * 0.9928 + 0.0068;
  }

  /** `event.target?.value ?? ""`: the input's text, or the empty string without a target. */
  function RawInput(target: Option<Text>): (raw: Text)
    ensures target.Some? ==> raw == target.value
    ensures target.None? ==> raw.chars == []
  {
    if target.Some? then target.value else Text("", Finite(0.0))
  }

  /** `raw.trim() === ""`. */
  predicate IsBlankText(raw: Text)
  {
    Trim(raw.chars) == []
  }

  /** The form's simultaneous-power fields: CV, kW and amps. */
  class SimultaneousPower {
    var cv: Value
    var kw: Value
    var amp: Value

    constructor (cv: Value, kw: Value, amp: Value)
      ensures this.cv == cv && this.kw == kw && this.amp == amp
    {
      this.cv := cv;
      this.kw := kw;
      this.amp := amp;
    }

    /** The amp field holds the current of the kW field's number. */
    predicate AmpFollowsKw()
      reads this
    {
      kw.Number? && kw.num.Finite? && amp == Number(Finite(CalculateAmp(kw.num.v)))
    }

    /**
     * `handleCvInput`: a blank input clears kW and amps; an input that does
     * not read as a finite number changes nothing; otherwise kW becomes the
     * converted value and amps its current. The CV field is never written.
     */
    method HandleCvInput(target: Option<Text>)
      modifies this
      ensures cv == old(cv)
      ensures IsBlankText(RawInput(target)) ==> kw == Null && amp == Null
      ensures var raw := RawInput(target);
        !IsBlankText(raw) && !raw.asNumber.Finite? ==> kw == old(kw) && amp == old(amp)
      ensures var raw := RawInput(target);
        !IsBlankText(raw) && raw.asNumber.Finite? ==>
          && kw == Number(Finite(ConvertCvToKw(raw.asNumber.v)))
          && AmpFollowsKw()
    {
      var raw := RawInput(target);
      if IsBlankText(raw) {
        kw := Null;
        amp := Null;
        return;
      }
      var value := raw.asNumber;
      if !value.Finite? {
        return;
      }
      var converted := ConvertCvToKw(value.v);
      kw := Number(Finite(converted));
      amp := Number(Finite(CalculateAmp(converted)));
    }

    /**
     * `handleKwInput`: a blank input clears CV and amps; an input that does
     * not read as a finite number changes nothing; otherwise CV becomes the
     * converted value and amps the current of the typed value. The kW field
     * is never written.
     */
    method HandleKwInput(target: Option<Text>)
      modifies this
      ensures kw == old(kw)
      ensures IsBlankText(RawInput(target)) ==> cv == Null && amp == Null
      ensures var raw := RawInput(target);
        !IsBlankText(raw) && !raw.asNumber.Finite? ==> cv == old(cv) && amp == old(amp)
      ensures var raw := RawInput(target);
        !IsBlankText(raw) && raw.asNumber.Finite? ==>
          && cv == Number(Finite(ConvertKwToCv(raw.asNumber.v)))
          && amp == Number(Finite(CalculateAmp(raw.asNumber.v)))
    {
      var raw := RawInput(target);
      if IsBlankText(raw) {
        cv := Null;
        amp := Null;
        return;
      }
      var value := raw.asNumber;
      if !value.Finite? {
        return;
      }
      cv := Number(Finite(ConvertKwToCv(value.v)));
      amp := Number(Finite(CalculateAmp(value.v)));
    }
  }

  /** Which field of a power group was edited. */
  datatype PowerUnit = Cv | Kw

  /** A per-machine power group: CV, kW and amps. */
  class PowerGroup {
    var cv: Value
    var kw: Value
    var amp: Value

    constructor (cv: Value, kw: Value, amp: Value)
      ensures this.cv == cv && this.kw == kw && this.amp == amp
    {
      this.cv := cv;
      this.kw := kw;
      this.amp := amp;
    }

    /** The field the edit came from. */
    function Source(unit: PowerUnit): Value
      reads this
    {
      if unit == Cv then cv else kw
    }

    /** The amp field holds the current of the number the kW field reads as. */
    predicate AmpFollowsKw()
      reads this
    {
      ToNumber(kw).Finite? && amp == Number(Finite(CalculateAmp(ToNumber(kw).v)))
    }
  }

  /**
   * `raw === null || raw === undefined || String(raw).trim() === ""`. The
   * text of a number is never blank.
   */
  predicate IsBlankValue(x: Value)
  {
    x.Null? || x.Undefined? || (x.Str? && IsBlankText(x.text))
  }

  /**
   * `handleGroupInput`: a blank source clears the other unit and amps; a
   * source that does not read as a finite number changes nothing; otherwise
   * the other unit becomes the converted value and amps the current of the
   * kW the group now holds. The source field is never written.
   */
  method HandleGroupInput(group: PowerGroup, source: PowerUnit)
    modifies group
    ensures group.Source(source) == old(group.Source(source))
    ensures var raw := old(group.Source(source));
      IsBlankValue(raw) ==>
        && group.amp == Null
        && (source == Cv ==> group.kw == Null)
        && (source == Kw ==> group.cv == Null)
    ensures var raw := old(group.Source(source));
      !IsBlankValue(raw) && !ToNumber(raw).Finite? ==>
        group.cv == old(group.cv) && group.kw == old(group.kw) && group.amp == old(group.amp)
    ensures var raw := old(group.Source(source));
      !IsBlankValue(raw) && ToNumber(raw).Finite? ==>
        && (source == Cv ==> group.kw == Number(Finite(ConvertCvToKw(ToNumber(raw).v))))
        && (source == Kw ==> group.cv == Number(Finite(ConvertKwToCv(ToNumber(raw).v))))
        && group.AmpFollowsKw()
  {
    var raw := if source == Cv then group.cv else group.kw;
    if IsBlankValue(raw) {
      if source == Cv {
        group.kw := Null;
      } else {
        group.cv := Null;
      }
      group.amp := Null;
      return;
    }
    var value := ToNumber(raw);
    if !value.Finite? {
      return;
    }
    if source == Cv {
      var converted := ConvertCvToKw(value.v);
      group.kw := Number(Finite(converted));
      group.amp := Number(Finite(CalculateAmp(converted)));
      return;
    }
    group.cv := Number(Finite(ConvertKwToCv(value.v)));
    group.amp := Number(Finite(CalculateAmp(value.v)));
  }
}
