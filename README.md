# Crane power-line configurator: the derivation engine in Dafny

This project models the calculation core of a web configurator for the
electrical feed line of industrial cranes ("gruas"). The configurator adds up
the installed power of the cranes and derates it. It turns the total into a
three-phase line current and rounds that current up to a standard rating.
From the rating it picks the socket, drag-arm and end-feed catalog
references, and it counts the supports and splices along the line. It
estimates the voltage drop and says whether the line can be offered. It
also validates the form and keeps the CV, kW and amp fields of the power
inputs in step.

Modules, one per source file plus three shared ones:

- `Js`: the JavaScript value semantics the code relies on.
  - A number is an exact real or one of `NaN`, `+Infinity`, `-Infinity`.
  - A form value is `null`, `undefined`, a string or a number.
  - A string carries the number `Number(s)` reads from it; numeral parsing is not modelled.
  - It also has `Number(x)`, the comparison operators, `trim`, `Math.ceil`, `Math.sqrt(3)` (written `1.7320508075688772`, the shortest decimal that reads back as the double the runtime returns) and `toFixed(2)`, which rounds to hundredths with halves away from zero.
- `Ratings`: the ladder of standard ratings 40, 60, 80, 100, 140, 160 and 200 A, and the value a ladder returns: a rating, a "consult the technical department" text, or `null`.
- `TotalPower` (`composables/useTotalPower.ts`): installed, corrected and total power, and the line current.
- `GruaAccessories` (`composables/useGruaAccessories.ts`): the current and rating of each crane, and its socket (TO-...) and drag-arm (BA-...) references.
- `Supports` (`composables/useSupports.ts`): SO-4 supports, EMP-4 splices, the end feed (AE-...) and SU-5001 units.
- `VoltageDrop` (`composables/useVoltageDrop.ts`): the line's own rating ladder, the impedance table, the drop in volts and per cent, and the offer verdict.
- `FormValidation` (`composables/useFormValidation.ts`): the field predicates and the required-fields check. It also has the error message of an input, and the error map. `ErrorMap` is a class whose `HandleInputValidation` method adds and removes entries in place.
- `PowerCalculations` (`composables/usePowerCalculations.ts`): the CV/kW conversions and the current at 380 V. It also has the input handlers, as methods that overwrite the fields of the `SimultaneousPower` and `PowerGroup` classes.
- `Pipeline`: how the calculators fit together.
  - The two rating ladders agree except at and below 0 A and in their sentinel text.
  - The supports formula's 0 band is never reached from a ladder.
  - Without a voltage there is no verdict.

The code makes some choices a reader may not expect, and the model keeps them:

- **Two 30 kW cranes give 38400 W, not 30720 W.** Each crane is derated by 0.8, and a sum of two or more units is derated by 0.8 once more (`TotalPower.TwoCranesOf30Kw`).
- **A current of exactly 200 A gets no rating and no voltage drop.** Both ladders test `< 200` and then `> 200`, so 200 A falls through to `null`. So the line at 200 A has no voltage drop either (`VoltageDrop.NoDropAt200A`).
- **`isValidNumber` accepts infinite values.** It accepts `Infinity` when no maximum is given and `-Infinity` when no minimum is given, because it rejects only `null`, `""` and `NaN` before comparing with the bounds.
- **The conversions are kept as written.** `convertCvToKw` multiplies by 1.36 and `convertKwToCv` by 0.73. These factors look swapped: 1 CV is about 0.735 kW. The two are not inverses (`PowerCalculations.NoRoundTrip`, `PowerCalculations.RoundTripShrinks`).

## Model

| member | source | states |
|---|---|---|
| Js.Divide | composables/useGruaAccessories.ts:28-29 | the quotient is finite exactly when the divisor is not 0, and then times the divisor it gives back the dividend |
| Js.Ceil | composables/useSupports.ts:31 | `Math.ceil` is the least integer not below its argument |
| Js.Round2 | composables/useTotalPower.ts:74-76 | `toFixed(2)` lands within half a hundredth of its argument, on a whole number of hundredths, and keeps a non-negative value non-negative |
| Js.TrimStartKeepsSuffix | composables/useFormValidation.ts:30 | what is kept is a suffix; every dropped character is white space; a kept string starts with a visible character |
| Js.TrimEndKeepsPrefix | composables/useFormValidation.ts:30 | what is kept is a prefix; every dropped character is white space; a kept string ends with a visible character |
| Js.TrimEmptyIffBlank | composables/usePowerCalculations.ts:19 | `raw.trim() === ""` exactly when every character of `raw` is white space |
| TotalPower.SumAppend | composables/useTotalPower.ts:57 | the `reduce` sum of a concatenation is the sum of the sums |
| TotalPower.SumPositive | composables/useTotalPower.ts:57 | a sum of positive powers is non-negative, and positive when the list is not empty |
| TotalPower.SumConstant | composables/useTotalPower.ts:36 | `n` copies of one power add up to `n` times it |
| TotalPower.ServiciosWattsIsFiniteKwSum | composables/useTotalPower.ts:21-27 | summing service by service, skipping non-finite readings, gives 1000 times the sum of the finite kW readings |
| TotalPower.ServiciosWattsAppend | composables/useTotalPower.ts:21-27 | the services of two lists add up separately |
| TotalPower.ServiciosWattsRemove | composables/useTotalPower.ts:21-27 | taking one service out takes exactly its contribution out of the crane's power |
| TotalPower.ServiciosWattsPermutation | composables/useTotalPower.ts:21 | a crane's power does not depend on the order in which its services are listed |
| TotalPower.InstalledPowerWatts | composables/useTotalPower.ts:17-28 | a crane without services installs 0 W; otherwise 1000 times the sum of its finite kW readings |
| TotalPower.KeepPositive | composables/useTotalPower.ts:41 | the filter keeps exactly the positive powers and nothing else |
| TotalPower.KeepPositiveAppend | composables/useTotalPower.ts:41 | the filter keeps order: filtering a concatenation concatenates the filtered parts |
| TotalPower.KeepPositiveAllPositive | composables/useTotalPower.ts:41 | a list of positive powers passes the filter unchanged |
| TotalPower.InstalledPowersWatts | composables/useTotalPower.ts:30-42 | in "simultanea" mode with a finite positive per-machine kW, `gruasCount` copies of kW * 1000; otherwise the positive crane powers, and all of them in crane order when all are positive; every entry is positive |
| TotalPower.InstalledPowersKeepCraneOrder | composables/useTotalPower.ts:39-41 | in crane mode the installed list of two crane lists placed one after the other is the two installed lists placed one after the other |
| TotalPower.CorrectedPowersWatts | composables/useTotalPower.ts:44 | one corrected entry per installed entry, in the same order; an entry is positive exactly when its unit is, and then smaller than it |
| TotalPower.SumCorrected | composables/useTotalPower.ts:44 | the corrected list has one entry per installed entry and sums to 0.8 times the installed sum |
| TotalPower.TotalPowerWatts | composables/useTotalPower.ts:46-59 | no units gives 0 W; one unit gives 0.8 times its power; two or more give 0.64 times the sum; never negative |
| TotalPower.PerMachineTotal | composables/useTotalPower.ts:30-59 | in per-machine mode: 0 W for no units, 800 W per kW for one, 640 W per kW per unit for more |
| TotalPower.CraneOf30Kw | composables/useTotalPower.ts:17-28 | one 30 kW service installs 30000 W |
| TotalPower.OneCraneOf30Kw | composables/useTotalPower.ts:46-55 | one 30 kW crane totals 24000 W |
| TotalPower.TwoCranesOf30Kw | composables/useTotalPower.ts:46-59 | two 30 kW cranes total 38400 W |
| TotalPower.TotalPowerAmps | composables/useTotalPower.ts:69-77 | a voltage that is not a finite positive number gives 0 A; otherwise within half a hundredth of W / (sqrt 3 * V * 0.8); never negative for a non-negative power |
| GruaAccessories.NominalIntensityAmps | composables/useGruaAccessories.ts:28-29 | finite exactly for a non-zero voltage, and then equal to P / (sqrt 3 * V * 0.8); non-negative for a positive voltage and non-negative power |
| GruaAccessories.IntensityToInstall | composables/useGruaAccessories.ts:31-63 | non-finite gives null; at or below 0 gives 0; strictly between 0 and 200 the least ladder step above the current; exactly 200 gives null; above 200 the consult text |
| GruaAccessories.IntensityToInstallMonotonic | composables/useGruaAccessories.ts:38-58 | below 200 A a larger current never gets a smaller rating, currents at or below 0 included |
| GruaAccessories.TomacorrientesRef | composables/useGruaAccessories.ts:65-87 | a socket reference exists exactly for the ladder ratings |
| GruaAccessories.BrazoArrastreRef | composables/useGruaAccessories.ts:89-111 | a drag-arm reference exists exactly for the ladder ratings |
| GruaAccessories.RefsFollowUnits | composables/useGruaAccessories.ts:65-111 | two ratings share a socket reference, and a drag-arm reference, exactly when they are made of the same 40 A and 60 A units |
| GruaAccessories.IntensityToInstallByGrua | composables/useGruaAccessories.ts:114-124 | one entry per crane; all null without a finite positive voltage; otherwise each crane's entry is the ladder rating of its own current P / (sqrt 3 * V * 0.8), and it is 0 exactly when its installed power is not positive |
| GruaAccessories.TomacorrientesByGrua | composables/useGruaAccessories.ts:126-128 | one socket reference per crane, in crane order, each the reference of that crane's rating; a crane has a code exactly when its rating is on the ladder |
| GruaAccessories.BrazoArrastreByGrua | composables/useGruaAccessories.ts:129-131 | one drag-arm reference per crane, in crane order, each the reference of that crane's rating; a crane has a code exactly when its rating is on the ladder |
| GruaAccessories.NoVoltageNoAccessories | composables/useGruaAccessories.ts:126-131 | without a usable voltage every crane shows 0 for both references |
| GruaAccessories.CraneOf30KwAt380V | composables/useGruaAccessories.ts:114-131 | a 30 kW crane at 380 V draws about 57 A from its own power, not derated, and gets 60 A, "TO-4x70A" and "BA-70" |
| Supports.SupportsSO4 | composables/useSupports.ts:11-32 | null exactly when the length is not finite and positive or the rating is not a number; ceil(L/2) below 101 A, ceil(3L/4) above 102 A, 0 in between, at least 1 outside that band |
| Supports.EmpalmesEMP4 | composables/useSupports.ts:53-60 | null exactly for a non-finite length; otherwise ceil(L/4 - 1), which is non-negative exactly for a positive length |
| Supports.NullDistanceSplices | composables/useSupports.ts:53-60 | an empty length reads as 0 m and gives -1 splices |
| Supports.AlimentacionExtremaRef | composables/useSupports.ts:34-49 | an end-feed answer exists exactly when the rating is a number |
| Supports.EndFeedBuckets | composables/useSupports.ts:39-48 | for every numeric rating: below 70 A AE-4, from 70 A below 110 A AE-4-100, from 110 A below 150 A AE-4-140, from 150 A on the choose-by-cable text |
| Supports.Su5001 | composables/useSupports.ts:62-68 | null exactly when there is no support count; otherwise one more than it |
| Supports.AtLeastTwoSu5001 | composables/useSupports.ts:11-32 | with a positive length and a rating outside 101..102 there are at least two SU-5001 |
| Supports.HundredMetresAt60A | composables/useSupports.ts:11-68 | 100 m at 60 A: 50 supports, 24 splices, AE-4, 51 SU-5001 |
| VoltageDrop.ImpedanceTableKeys | composables/useVoltageDrop.ts:7-15 | the impedance table has exactly the ladder ratings as keys |
| VoltageDrop.ImpedanceDecreasing | composables/useVoltageDrop.ts:7-15 | a higher rating has a strictly lower impedance |
| VoltageDrop.IntensityToInstall | composables/useVoltageDrop.ts:17-46 | non-finite gives null; below 40 (0 and negative included) gives 40; below 200 the least ladder step above; exactly 200 gives null; above 200 the consult text |
| VoltageDrop.ImpedanceOhmPerM | composables/useVoltageDrop.ts:48-54 | an impedance exists exactly for a ladder rating, and it is positive |
| VoltageDrop.VoltageDropVolts | composables/useVoltageDrop.ts:62-78 | a drop exists exactly for a current strictly between 0 and 200 A and a finite positive length; it is positive and equals sqrt 3 * I * L * Z of the rating |
| VoltageDrop.NoDropAt200A | composables/useVoltageDrop.ts:41-46 | 200 A gets neither a rating nor a drop |
| VoltageDrop.DropProportionalToLength | composables/useVoltageDrop.ts:62-78 | the drop exists for all positive lengths or none, and grows in proportion to the length |
| VoltageDrop.VoltageDropPercent | composables/useVoltageDrop.ts:79-89 | a percentage exists exactly for a drop and a finite non-zero voltage, and percentage times voltage is 100 times the drop |
| VoltageDrop.VoltageDropMessage | composables/useVoltageDrop.ts:90-98 | no message without a percentage; the offer message exactly below 3 %; the see-options message exactly from 3 % up |
| VoltageDrop.ShorterLineStaysOfferable | composables/useVoltageDrop.ts:62-98 | at a positive voltage, shortening an offerable line keeps it offerable |
| VoltageDrop.OfferableAt199A | composables/useVoltageDrop.ts:62-98 | 199 A over 50 m at 380 V can be offered |
| FormValidation.IsNonEmptyString | composables/useFormValidation.ts:30 | a string whose trim is not empty; by `NonEmptyStringHasVisibleChar`, exactly a string with a character that is not white space, and never `null`, `undefined` or a number |
| FormValidation.NonEmptyStringHasVisibleChar | composables/useFormValidation.ts:30 | `isNonEmptyString` holds exactly for a string with a character that `trim` keeps |
| FormValidation.IsValidNumber | composables/useFormValidation.ts:31-43 | null, "" and NaN fail; a finite number passes exactly within the given inclusive bounds; +Infinity passes exactly without a maximum, -Infinity exactly without a minimum |
| FormValidation.IsRequiredFormComplete | composables/useFormValidation.ts:66-121 | the conjunction of the thirteen checks, each on the fields it reads; the lemmas below show it bounds the machine count and the length, needs a first segment only on a curved line, the feed-point distance only at "distance" and the corrosive subtype only when corrosive, and never reads the temperatures or the voltage |
| FormValidation.CompleteFormBounds | composables/useFormValidation.ts:66-121 | a complete form has 1 to 4 machines and a line of 1 to 280 m |
| FormValidation.DistanceBoundary | composables/useFormValidation.ts:76 | 280 m is accepted and 281 m is not |
| FormValidation.CompletenessIgnoresTemperatureAndVoltage | composables/useFormValidation.ts:66-121 | completeness does not depend on the temperatures or the voltage |
| FormValidation.StraightLineIgnoresTramos | composables/useFormValidation.ts:82-92 | the segments matter only for a curved line |
| FormValidation.CurvedLineNeedsFirstTramo | composables/useFormValidation.ts:82-92 | a complete curved line has a first segment with radius at least 0, angle in [0, 360] and length at least 0 |
| FormValidation.FeedPointDistanceOnlyWhenAtDistance | composables/useFormValidation.ts:99-104 | the feed-point distance matters only when the feed point is "distance" |
| FormValidation.AtDistanceNeedsFeedPointDistance | composables/useFormValidation.ts:99-104 | a complete form whose feed point is "distance" has a feed-point distance of at least 0 m |
| FormValidation.CorrosiveSubtypeOnlyWhenCorrosive | composables/useFormValidation.ts:108-113 | the corrosive subtype matters only in a "corrosive" environment |
| FormValidation.CorrosiveNeedsSubtype | composables/useFormValidation.ts:108-113 | a complete form in a "corrosive" environment has a non-blank corrosive subtype |
| FormValidation.GetErrorMessage | composables/useFormValidation.ts:45-63 | the message is never empty, and a missing value always gets the required message |
| FormValidation.DistanceOverflowMessage | composables/useFormValidation.ts:53-56 | going over a maximum of "280" asks the user to contact technical service |
| FormValidation.TemperatureConflictOnNumbers | composables/useFormValidation.ts:146-154 | on two finite numbers the temperature rule is min >= max; NaN never conflicts |
| FormValidation.ErrorMap.HandleInputValidation | composables/useFormValidation.ts:123-163 | an unnamed, disabled or missing input changes nothing. A radio sets "Selecciona una opción." exactly when required and no option in its group is checked. Any other input has an entry exactly when it is invalid, with its error message. A temperature input sets the min_temperature entry exactly on a conflict. The voltage input sets the voltage entry exactly above 500 V. No other entry changes |
| PowerCalculations.ConvertCvToKw | composables/usePowerCalculations.ts:12 | within half a hundredth of 1.36 times the value, on a whole number of hundredths, and non-negative for a non-negative value |
| PowerCalculations.ConvertKwToCv | composables/usePowerCalculations.ts:13 | within half a hundredth of 0.73 times the value, on a whole number of hundredths, and non-negative for a non-negative value |
| PowerCalculations.CalculateAmp | composables/usePowerCalculations.ts:14-15 | within half a hundredth of kW * 1000 / (sqrt 3 * 380 * 0.8), and non-negative for a non-negative power |
| PowerCalculations.CalculateAmpAtFixedVoltage | composables/usePowerCalculations.ts:14-15 | the current is the total-power current of the same power at 380 V, whatever voltage the form holds |
| PowerCalculations.NoRoundTrip | composables/usePowerCalculations.ts:12-13 | 1 CV converts to 1.36 kW, which converts back to 0.99 CV |
| PowerCalculations.RoundTripShrinks | composables/usePowerCalculations.ts:12-13 | from 2 up, converting there and back loses value in either order |
| PowerCalculations.SimultaneousPower.HandleCvInput | composables/usePowerCalculations.ts:17-33 | CV is never written; a blank input clears kW and amps; a non-finite reading changes nothing; otherwise kW is the converted value and amps is the current of that kW |
| PowerCalculations.SimultaneousPower.HandleKwInput | composables/usePowerCalculations.ts:35-50 | kW is never written; a blank input clears CV and amps; a non-finite reading changes nothing; otherwise CV is the converted value and amps the current of the typed value |
| PowerCalculations.HandleGroupInput | composables/usePowerCalculations.ts:52-78 | the source field is never written; a blank source clears the other unit and amps; a non-finite source changes nothing; otherwise the other unit is the converted value and amps is the current of the kW the group now holds |
| Pipeline.LaddersAgree | composables/useGruaAccessories.ts:31-63 | the per-crane ladder and the line ladder give the same rating for currents above 0 up to 200 A; at or below 0 A they give 0 and 40; above 200 A they give different consult texts |
| Pipeline.SupportsGapUnreachable | composables/useSupports.ts:22-29 | a ladder rating never falls in the 101..102 A band, so a positive length always has at least two SU-5001 |
| Pipeline.NoVoltageNoVerdict | composables/useTotalPower.ts:69-73 | without a finite positive voltage the line current is 0 and no voltage-drop verdict is shown |

## Left out

- The other repository files are not part of this model. These are `composables/useSendModal.js` (overlay DOM, `requestAnimationFrame`, the `fetch` of the contact form), `deploy/mail.php` (the mail relay), `nuxt.config.ts` and `app/plugins/flyonui.client.ts` (build configuration and plugin loading).
- Numbers are exact reals. IEEE rounding, overflow and `-0` are not modelled. `Math.sqrt(3)` is the real `1.7320508075688772`, the shortest decimal that reads back as the double the runtime returns. The double's exact value is 1.732050807568877193176604123436845839023590087890625; the difference is not modelled.
- `toFixed(2)` is modelled as exact rounding of a real to hundredths, halves away from zero. The double-rounding effects of the real runtime are not modelled.
- `Number(s)` of a string is not parsed from its characters. Each string carries its reading, so `Number("")` and `Number(" ")` are whatever the string supplies. In the runtime these read as 0.
- String comparison for the temperature rule compares whole characters, not UTF-16 code units. The two orders differ only outside the Basic Multilingual Plane.
- Vue reactivity is left out. Each `computed` is a plain function of its inputs, and the handlers take the edited target (or the edited group and unit) as a parameter.
- `document.querySelectorAll` and the browser's constraint validation are parameters. The "some radio in the group is checked" flag is a boolean, and `target.validity` is a record of the ten flags.
- `TotalPower.InstalledPowersWatts`: a non-integer or non-finite `gruasCount` is not modelled; the count is an integer, and a negative one gives an empty list.
- `TotalPower.InstalledPowerWatts`: a falsy crane (`null` in the list) and a `null` service are not modelled. A service whose kW is `undefined` behaves like a `null` service.
- `Supports.SupportsSO4`: a rating is a real number or one of the two non-number answers. An infinite number never reaches the supports from a ladder, so it is not represented.
- `Supports.AlimentacionExtremaRef`: the same holds; a rating that is a number is finite here.
- The per-crane consult text is kept exactly as the file stores it, with "é" written as the two characters "Ã©". The line ladder's text has a plain "é". How the page displays either is not modelled.
