/**
 * Form validation (composables/useFormValidation.ts): the field predicates,
 * the "required fields complete" check that gates the results panel, the
 * message chosen for an invalid input, and the input handler that adds and
 * removes entries of the error map in place.
 */
module FormValidation {
  import opened Js

  /** A curved-line segment: radius, angle and length. */
  datatype Tramo = Tramo(radio: Value, angulo: Value, longitud: Value)

  /** The form fields validation reads, as the form holds them. */
  datatype FormState = FormState(
    applicationIndustryType: Value,
    machinesToFeed: Value,
    conductorType: Value,
    totalDistance: Value,
    lineType: Value,
    tramos: seq<Tramo>,
    workEnvironment: Value,
    feedingPointPosition: Value,
    feedingPointDistance: Value,
    environmentalCondition: Value,
    corrosiveCondition: Value,
    protectedLine: Value,
    supplySupportArms: Value,
    minTemperature: Value,
    maxTemperature: Value,
    voltage: Value)

  const CurvedLine: string := "L\U{00ED}nea curva"
  const AtDistance: string := "distance"
  const Corrosive: string := "corrosive"

  /** `isNonEmptyString`: a string whose trim is not empty. */
  predicate IsNonEmptyString(x: Value)
  {
    x.Str? && Trim(x.text.chars) != []
  }

  /** A value passes `isNonEmptyString` exactly when it is a string with a character `trim` keeps. */
  lemma NonEmptyStringHasVisibleChar(x: Value)
    ensures IsNonEmptyString(x) <==>
      x.Str? && exists i :: 0 <= i < |x.text.chars| && !IsWhiteSpace(x.text.chars[i])
  {
    if x.Str? {
      TrimEmptyIffBlank(x.text.chars);
    }
  }

  /** `isValidNumber`: not null, not "", not NaN, and within the optional inclusive bounds. */
  function IsValidNumber(x: Value, min: Option<real>, max: Option<real>): (ok: bool)
    ensures x.Null? || IsString(x, "") || ToNumber(x).NaN? ==> !ok
    ensures var n := ToNumber(x);
      !x.Null? && !IsString(x, "") && n.Finite? ==>
        (ok <==> (min.None? || min.value <= n.v) && (max.None? || n.v <= max.value))
    ensures !x.Null? && !IsString(x, "") && ToNumber(x).PosInfinity? ==> (ok <==> max.None?)
    ensures !x.Null? && !IsString(x, "") && ToNumber(x).NegInfinity? ==> (ok <==> min.None?)
  {
    var n := ToNumber(x);
    if x.Null? || IsString(x, "") || n.NaN? then false
    else if min.Some? && Less(n, Finite(min.value)) then false
    else if max.Some? && Less(Finite(max.value), n) then false
    else true
  }

  /** `formState.tramos[0]`, whose fields read as undefined when there is no first segment. */
  function FirstTramo(tramos: seq<Tramo>): Tramo
  {
    if |tramos| == 0 then Tramo(Undefined, Undefined, Undefined) else tramos[0]
  }

  /** The curved-line rule: a curved line needs a valid first segment. */
  predicate CurvedLineComplete(lineType: Value, tramos: seq<Tramo>)
  {
    var f := FirstTramo(tramos);
    IsString(lineType, CurvedLine) ==>
      && IsValidNumber(f.radio, Some(0.0), None)
      && IsValidNumber(f.angulo, Some(0.0), Some(360.0))
      && IsValidNumber(f.longitud, Some(0.0), None)
  }

  /** The feed-point rule: a feed point "at a distance" needs a distance of at least 0. */
  predicate FeedPointComplete(position: Value, distance: Value)
  {
    IsString(position, AtDistance) ==> IsValidNumber(distance, Some(0.0), None)
  }

  /** The environment rule: a corrosive environment needs its subtype. */
  predicate CorrosionComplete(condition: Value, corrosive: Value)
  {
    IsString(condition, Corrosive) ==> IsNonEmptyString(corrosive)
  }

  /** `isRequiredFormComplete`: the conjunction of its thirteen checks, each stated on the fields it reads. */
  predicate IsRequiredFormComplete(f: FormState)
  {
    && IsNonEmptyString(f.applicationIndustryType)
    && IsValidNumber(f.machinesToFeed, Some(1.0), Some(4.0))
    && IsNonEmptyString(f.conductorType)
    && IsValidNumber(f.totalDistance, Some(1.0), Some(280.0))
    && IsNonEmptyString(f.lineType)
    && CurvedLineComplete(f.lineType, f.tramos)
    && IsNonEmptyString(f.workEnvironment)
    && IsNonEmptyString(f.feedingPointPosition)
    && FeedPointComplete(f.feedingPointPosition, f.feedingPointDistance)
    && IsNonEmptyString(f.environmentalCondition)
    && CorrosionComplete(f.environmentalCondition, f.corrosiveCondition)
    && IsNonEmptyString(f.protectedLine)
    && IsNonEmptyString(f.supplySupportArms)
  }

  /** A complete form has 1 to 4 machines and a line of 1 to 280 m. */
  lemma CompleteFormBounds(f: FormState)
    requires IsRequiredFormComplete(f)
    ensures var m := ToNumber(f.machinesToFeed); m.Finite? && 1.0 <= m.v <= 4.0
    ensures var d := ToNumber(f.totalDistance); d.Finite? && 1.0 <= d.v <= 280.0
  {
  }

  /** 280 m is accepted as the line length and 281 m is not. */
  lemma DistanceBoundary()
    ensures IsValidNumber(Number(Finite(280.0)), Some(1.0), Some(280.0))
    ensures !IsValidNumber(Number(Finite(281.0)), Some(1.0), Some(280.0))
  {
  }

  /** Completeness never reads the temperatures or the voltage. */
  lemma CompletenessIgnoresTemperatureAndVoltage(f: FormState, minT: Value, maxT: Value, v: Value)
    ensures IsRequiredFormComplete(f)
        == IsRequiredFormComplete(f.(minTemperature := minT, maxTemperature := maxT, voltage := v))
  {
  }

  /** The segments are only read for a curved line. */
  lemma StraightLineIgnoresTramos(f: FormState, tramos: seq<Tramo>)
    requires !IsString(f.lineType, CurvedLine)
    ensures IsRequiredFormComplete(f) == IsRequiredFormComplete(f.(tramos := tramos))
  {
  }

  /** A complete curved line has a first segment with radius >= 0, angle in [0, 360], length >= 0. */
  lemma CurvedLineNeedsFirstTramo(f: FormState)
    requires IsString(f.lineType, CurvedLine) && IsRequiredFormComplete(f)
    ensures |f.tramos| > 0
    ensures LessEq(Finite(0.0), ToNumber(f.tramos[0].radio))
    ensures LessEq(Finite(0.0), ToNumber(f.tramos[0].angulo))
    ensures LessEq(ToNumber(f.tramos[0].angulo), Finite(360.0))
    ensures LessEq(Finite(0.0), ToNumber(f.tramos[0].longitud))
  {
  }

  /** The feed-point distance is only read when the feed point is at a distance. */
  lemma FeedPointDistanceOnlyWhenAtDistance(f: FormState, d: Value)
    requires !IsString(f.feedingPointPosition, AtDistance)
    ensures IsRequiredFormComplete(f) == IsRequiredFormComplete(f.(feedingPointDistance := d))
  {
  }

  /** A complete form whose feed point is at a distance has a distance of at least 0 m. */
  lemma AtDistanceNeedsFeedPointDistance(f: FormState)
    requires IsString(f.feedingPointPosition, AtDistance) && IsRequiredFormComplete(f)
    ensures LessEq(Finite(0.0), ToNumber(f.feedingPointDistance))
  {
  }

  /** The corrosive subtype is only read in a corrosive environment. */
  lemma CorrosiveSubtypeOnlyWhenCorrosive(f: FormState, c: Value)
    requires !IsString(f.environmentalCondition, Corrosive)
    ensures IsRequiredFormComplete(f) == IsRequiredFormComplete(f.(corrosiveCondition := c))
  {
  }

  /** A complete form in a corrosive environment names its corrosive subtype. */
  lemma CorrosiveNeedsSubtype(f: FormState)
    requires IsString(f.environmentalCondition, Corrosive) && IsRequiredFormComplete(f)
    ensures IsNonEmptyString(f.corrosiveCondition)
  {
  }

  /** `target.validity`: the constraint flags of an input; `valid` is all of them clear. */
  datatype Validity = Validity(
    valueMissing: bool,
    typeMismatch: bool,
    patternMismatch: bool,
    tooLong: bool,
    tooShort: bool,
    rangeUnderflow: bool,
    rangeOverflow: bool,
    stepMismatch: bool,
    badInput: bool,
    customError: bool)

  predicate IsValid(v: Validity)
  {
    !(v.valueMissing || v.typeMismatch || v.patternMismatch || v.tooLong || v.tooShort
      || v.rangeUnderflow || v.rangeOverflow || v.stepMismatch || v.badInput || v.customError)
  }

  /** The input an event came from. */
  datatype Target = Target(
    name: string,
    inputType: string,
    disabled: bool,
    required: bool,
    validity: Validity,
    min: string,
    max: string,
    validationMessage: string)

  const RequiredMessage: string := "Este campo es obligatorio."
  const DistanceMaxMessage: string :=
    "Valor m\U{00E1}ximo: 280. Para m\U{00E1}s recorrido contacte con el servicio t\U{00E9}cnico."
  const FormatMessage: string := "Formato inv\U{00E1}lido."
  const FallbackMessage: string := "Campo inv\U{00E1}lido."

  /** `getErrorMessage`: the message for an input, by the first constraint it breaks. */
  function GetErrorMessage(t: Target): (msg: string)
    ensures |msg| > 0
    ensures t.validity.valueMissing ==> msg == RequiredMessage
  {
    var v := t.validity;
    if v.valueMissing then RequiredMessage
    else if v.rangeUnderflow then "Valor m\U{00ED}nimo: " + t.min + "."
    else if v.rangeOverflow then
      if t.max == "280" then DistanceMaxMessage
      else "Valor m\U{00E1}ximo: " + t.max + "."
    else if v.stepMismatch || v.typeMismatch || v.badInput then FormatMessage
    else if t.validationMessage != "" then t.validationMessage
    else FallbackMessage
  }

  /** Going over the 280 m bound asks the user to contact technical service. */
  lemma DistanceOverflowMessage(t: Target)
    requires t.validity.rangeOverflow && !t.validity.valueMissing && !t.validity.rangeUnderflow
    requires t.max == "280"
    ensures GetErrorMessage(t) == DistanceMaxMessage
  {
  }

  const MinTemperatureField: string := "min_temperature"
  const MaxTemperatureField: string := "max_temperature"
  const VoltageField: string := "voltage"

  const SelectOptionMessage: string := "Selecciona una opci\U{00F3}n."
  const TemperatureMessage: string :=
    "La temperatura m\U{00ED}nima debe ser menor que la temperatura m\U{00E1}xima."
  const VoltageMessage: string := "Para un voltaje mayor a 500V contacte con el servicio t\U{00E9}cnico."

  /** Both temperatures set and the minimum not below the maximum. */
  predicate TemperatureConflict(f: FormState)
  {
    !f.minTemperature.Null? && !f.maxTemperature.Null? && GreaterEq(f.minTemperature, f.maxTemperature)
  }

  /** On numbers the temperature rule is `min >= max`; NaN never conflicts. */
  lemma TemperatureConflictOnNumbers(f: FormState)
    requires f.minTemperature.Number? && f.maxTemperature.Number?
    ensures var lo := f.minTemperature.num;
      var hi := f.maxTemperature.num;
      && (lo.Finite? && hi.Finite? ==> (TemperatureConflict(f) <==> lo.v >= hi.v))
      && (lo.NaN? || hi.NaN? ==> !TemperatureConflict(f))
  {
  }

  /** A voltage above 500 V. */
  predicate VoltageAdvisory(f: FormState)
  {
    !f.voltage.Null? && Less(Finite(500.0), ToNumber(f.voltage))
  }

  /** The event is handled only for a named, enabled input. */
  predicate Handled(target: Option<Target>)
  {
    target.Some? && target.value.name != "" && !target.value.disabled
  }

  predicate IsTemperatureField(name: string)
  {
    name == MinTemperatureField || name == MaxTemperatureField
  }

  /** `k` has the same entry, or the same absence, in both maps. */
  predicate SameEntry(m: map<string, string>, m': map<string, string>, k: string)
  {
    (k in m <==> k in m') && (k in m ==> m[k] == m'[k])
  }

  /** The error map: a field name is present exactly while that field shows an error. */
  class ErrorMap {
    var errors: map<string, string>

    constructor ()
      ensures errors == map[]
    {
      errors := map[];
    }

    /** `handleInputValidation`: updates the entries the edited input affects, and no others. */
    method HandleInputValidation(target: Option<Target>, form: FormState, radioGroupChecked: bool)
      modifies this
      ensures !Handled(target) ==> errors == old(errors)
      ensures Handled(target) && target.value.inputType == "radio" ==>
        var name := target.value.name;
        && (forall k :: k != name ==> SameEntry(errors, old(errors), k))
        && (name in errors <==> !radioGroupChecked && target.value.required)
        && (name in errors ==> errors[name] == SelectOptionMessage)
      ensures Handled(target) && target.value.inputType != "radio" ==>
        var name := target.value.name;
        forall k :: k != name && !(k == MinTemperatureField && IsTemperatureField(name)) ==>
          SameEntry(errors, old(errors), k)
      ensures Handled(target) && target.value.inputType != "radio" ==>
        var name := target.value.name;
        name != MinTemperatureField && name != VoltageField ==>
          && (name in errors <==> !IsValid(target.value.validity))
          && (name in errors ==> errors[name] == GetErrorMessage(target.value))
      ensures (Handled(target) && target.value.inputType != "radio"
        && IsTemperatureField(target.value.name)) ==>
          && (MinTemperatureField in errors <==> TemperatureConflict(form))
          && (MinTemperatureField in errors ==> errors[MinTemperatureField] == TemperatureMessage)
      ensures (Handled(target) && target.value.inputType != "radio"
        && target.value.name == VoltageField) ==>
          && (VoltageField in errors <==> VoltageAdvisory(form))
          && (VoltageField in errors ==> errors[VoltageField] == VoltageMessage)
    {
      if !Handled(target) {
        return;
      }
      var t := target.value;

      if t.inputType == "radio" {
        if !radioGroupChecked && t.required {
          errors := errors[t.name := SelectOptionMessage];
        } else {
          errors := errors - {t.name};
        }
        return;
      }

      if !IsValid(t.validity) {
        errors := errors[t.name := GetErrorMessage(t)];
      } else {
        errors := errors - {t.name};
      }

      if IsTemperatureField(t.name) {
        if TemperatureConflict(form) {
          errors := errors[MinTemperatureField := TemperatureMessage];
        } else {
          errors := errors - {MinTemperatureField};
        }
      }

      if t.name == VoltageField {
        if VoltageAdvisory(form) {
          errors := errors[VoltageField := VoltageMessage];
        } else {
          errors := errors - {VoltageField};
        }
      }
    }
  }
}
