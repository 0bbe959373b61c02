# Short-circuit fault calculator — Dafny model

The program is a single-screen mobile app ("Calculadora de Curto-Circuito").
It computes the short-circuit current and the fault power of a three-phase
network. The inputs are the line-to-line voltage in kV and the sequence
impedances Z1, Z2 and Z0 in ohms. Three fault types are offered: three-phase
(LLL), phase-to-phase (LL) and phase-to-ground (LG). This project models the
screen's domain logic in main.js:

- `parseNumber`, the text-to-number step that accepts a decimal comma.
- `calcular`, the "Calcular" button. It parses the four texts and runs an ordered
  validation gate that reports the first bad field in Portuguese. It then applies
  one of three closed-form formulas, converts the units and stores the result record.
- `limpar`, the "Limpar" button.
- The screen state they change: `tipo`, `vll`, `z1`, `z2`, `z0`, `resultado`
  and `erro`.

Modules:

- `Wrappers`: `Option` and `Result`.
- `Numbers`: JavaScript numbers (`NaN` or a finite real), a decimal model of
  `Number(...)`, `String.replace` with a one-character pattern, and `parseNumber`.
  It also proves what the decimal comma does: it is accepted once, and rejected
  when repeated or mixed with a period.
- `FaultFormulas`: the three current formulas and the MVA formula. It proves the
  two alternative forms the source's comments give, and the relations between
  the fault types.
- `FaultCalculator`: the gate (`Validate`), the messages, the result record
  (`Compute`), and one press of "Calcular" as a function of the texts
  (`Calculate`). It proves what a result satisfies, that unused fields are
  ignored, and two worked examples with the default inputs.
- `CalculatorScreen`: the class `Screen` holding the screen state. It has the
  methods `Calcular` and `Limpar`, which update the state in place. `Calcular`
  is proved against `Calculate`; `Limpar`'s contract gives the whole new state.
  Both leave a state where a result and an error are never shown together.

`Math.sqrt(3)` is a parameter `sqrt3` throughout. Every formula only needs it
to be positive. The lemmas that depend on its value ask for `sqrt3 * sqrt3 == 3`.

Two consequences of the formulas as coded:

- With Z2 = Z1, the phase-to-phase formula of main.js:74 gives exactly 3/4 of
  the three-phase current (`CurrentLLIsThreeQuartersOfLLL`), not the textbook
  ratio √3/2.
- With the default inputs (220 kV, Z1 = Z2 = 0.05 Ω, Z0 = 0.15 Ω) the formulas
  give about 2540.34 kA and exactly 968,000 MVA (kV²/Z1) for a three-phase
  fault (`ExampleThreePhase`), and about 1,524,204.7 A and exactly 580,800 MVA
  for a phase-to-ground fault (`ExamplePhaseToGround`).

## Model

| member | source | states |
|---|---|---|
| Numbers.ParseNumber | main.js:31-35 | Empty text gives NaN. Text without a comma converts exactly as `Number` does. |
| Numbers.ReplaceFirst | main.js:34 | The length is kept. Only the first occurrence of the pattern becomes the replacement. Text without the pattern is unchanged. |
| Numbers.ToNumber | main.js:34 | `Number`: empty text is 0, text with a leading '-' is never positive, other accepted text is never negative. What it rejects and accepts is stated by `ToNumberRejectsComma`, `ToNumberRejectsTwoPeriods` and `UnsignedDecimalValue`. |
| Numbers.UnsignedDecimalValue | main.js:34 | For digit strings w and f, not both empty, "w.f" is accepted with the value w + f / 10^len(f). |
| Numbers.UnsignedDecimal | main.js:34 | An accepted unsigned literal is never negative. |
| Numbers.UnsignedDecimalChars | main.js:34 | An accepted unsigned literal consists only of digits and periods. |
| Numbers.UnsignedDecimalOnePeriod | main.js:34 | An accepted unsigned literal holds at most one period. |
| Numbers.ToNumberRejectsComma | main.js:34 | `Number` gives NaN for any text that still holds a comma. |
| Numbers.ToNumberRejectsTwoPeriods | main.js:34 | `Number` gives NaN for any text with two periods. |
| Numbers.ParseNumberRejectsSecondComma | main.js:33-34 | Only the first comma is replaced, so text with two commas parses to NaN. |
| Numbers.ParseNumberRejectsCommaAndPeriod | main.js:33-34 | Text with both a comma and a period (a thousands separator) parses to NaN. |
| Numbers.ParseNumberDecimalComma | main.js:33-34 | "w,f" and "w.f" parse to the same value, w + f / 10^len(f), for any digit strings. |
| Numbers.ParseNumberMinusSign | main.js:31-34 | Text starting with '-' never parses to a positive number, so the gate rejects it. |
| Numbers.DecimalValue | main.js:34 | The value of "w.f" lies between w and w + 1. |
| FaultFormulas.CurrentLLL | main.js:69-71 | The three-phase current is positive for positive voltage and Z1. |
| FaultFormulas.CurrentLL | main.js:72-74 | The phase-to-phase current is positive for positive voltage, Z1 and Z2. |
| FaultFormulas.CurrentLG | main.js:75-77 | The phase-to-ground current is positive for positive voltage, Z1, Z2 and Z0. |
| FaultFormulas.PowerMva | main.js:80-83 | The fault power is positive. |
| FaultFormulas.CurrentLLEquivalentForms | main.js:73-74 | The coded phase-to-phase formula equals both forms in the comment: (√3/2)·V/(Z1+Z2) and √3·V/(2(Z1+Z2)). |
| FaultFormulas.CurrentLGPhaseVoltageForm | main.js:76-77 | The coded phase-to-ground formula equals 3·Vf/(Z1+Z2+Z0) with Vf = V/√3. |
| FaultFormulas.CurrentLGDecreasesWithZ0 | main.js:77 | A larger Z0 gives a strictly smaller phase-to-ground current. |
| FaultFormulas.CurrentLLIsThreeQuartersOfLLL | main.js:69-74 | With Z2 = Z1 the phase-to-phase current is 3/4 of the three-phase current, hence strictly smaller. |
| FaultFormulas.CurrentLGEqualsLLLForEqualSequences | main.js:69-77 | With Z0 = Z2 = Z1 the phase-to-ground current equals the three-phase current. |
| FaultFormulas.PowerLLLIsKvSquaredOverZ1 | main.js:64-83 | For a three-phase fault the power in MVA is kV²/Z1, whatever value `sqrt3` takes. |
| FaultCalculator.ErrorMessage | main.js:46-60 | Every rejection shows a non-empty message. |
| FaultCalculator.ErrorMessageInjective | main.js:46-60 | Distinct rejections show distinct messages. |
| FaultCalculator.Validate | main.js:46-61 | The gate passes exactly when every input the fault type needs is a number > 0. Otherwise it reports the first failing check in the order voltage, Z1, Z2 (LL and LG), Z0 (LG). |
| FaultCalculator.ValidateIgnoresUnusedImpedances | main.js:54-61 | The gate's verdict does not depend on Z2 or Z0 for LLL, nor on Z0 for LL. |
| FaultCalculator.FaultCurrent | main.js:67-78 | The current chosen by fault type is positive whenever the inputs it uses are. |
| FaultCalculator.Compute | main.js:63-96 | The record carries the fault type, the echoed inputs and the chosen formula's current. It satisfies I_kA·1000 = I_A and S_MVA·10^6 = √3·V·I_A with positive values. |
| FaultCalculator.Evaluate | main.js:46-96 | Parsed inputs give an error exactly when they fail the gate, and then the gate's first error. |
| FaultCalculator.Calculate | main.js:41-96 | A press gives an error exactly when the parsed texts fail the gate, and then the gate's first error. |
| FaultCalculator.CalculateResult | main.js:41-96 | A successful press is the record built from the parsed texts: the selected type, I_A = that type's formula at V = Vll_kV·1000 with the parsed impedances, I_kA·1000 = I_A, S_MVA·10^6 = √3·V·I_A, and the parsed inputs echoed. |
| FaultCalculator.CalculateIgnoresUnusedFields | main.js:54-78 | Text in Z2 or Z0 for LLL, or in Z0 for LL, changes neither the error nor the computed values. Only the echoed inputs differ. |
| FaultCalculator.CalculateRejectsEmptyOrNegativeVoltage | main.js:31-48 | An empty voltage text or one starting with '-' is reported as an invalid voltage for every fault type. |
| FaultCalculator.Sqrt3Bounds | main.js:65 | The positive square root of 3 lies between 1.7320508 and 1.7320509. |
| FaultCalculator.DefaultInputsParse | main.js:24-27 | The default texts parse to 220, 0.05 and 0.15. |
| FaultCalculator.ExampleThreePhase | main.js:64-83 | With the default inputs a three-phase fault gives 968,000 MVA and between 2540.341 and 2540.342 kA. |
| FaultCalculator.ExamplePhaseToGround | main.js:64-83 | With the default inputs a phase-to-ground fault gives 580,800 MVA and between 1,524,204.7 and 1,524,204.8 A. |
| CalculatorScreen.Screen.constructor | main.js:23-29 | The initial state is LLL, "220", "0.05", "0.05", "0.15", with no result and no error. |
| CalculatorScreen.Screen.Calcular | main.js:37-97 | From any state, the inputs are unchanged. The screen shows exactly `Calculate`'s result, or no result and the error's message. Never both, and never neither. |
| CalculatorScreen.Screen.ValidateAndCompute | main.js:46-96 | Starting from a cleared screen, the early-return gate and the formula dispatch leave exactly what `Evaluate` gives. |
| CalculatorScreen.Screen.Limpar | main.js:99-106 | From any state, the four inputs become empty and the result and error are cleared. The fault type is kept. |
| CalculatorScreen.ClearThenCalculate | main.js:99-106 | "Limpar" then "Calcular" shows the voltage message and no result, for every fault type. |

## Left out

- Numbers.ToNumber: JavaScript's `Number` is modelled on a plain decimal grammar. Surrounding white space, exponents, hexadecimal, binary and octal prefixes and "Infinity" are not modelled. Text the grammar does not cover reads as NaN, though `Number` may accept some of it. So the gate of main.js:46 reports an invalid voltage (or impedance) for "Infinity", " 220" and "1e3", which the source accepts; with "Infinity" the source goes on to an infinite current, which the model does not produce.
- IEEE-754 doubles are not modelled. All arithmetic is on exact reals, so rounding, overflow to Infinity and the last digits of the displayed values are outside the model.
- `Math.sqrt(3)` is a library call, so it is the parameter `sqrt3`. Only `sqrt3 > 0` is assumed, except where the exact value matters.
- The fallback `Icc_A = 0` (main.js:67) is never used, because `tipo` is always one of the three types. The model's `match` has no such branch.
- React state batching and the setter functions are not modelled. `setErro`, `setResultado`, `setVll` and the others are plain field assignments, applied in order.
- The body of `calcular` is split into `Screen.Calcular` (clear and parse) and `Screen.ValidateAndCompute` (gate and compute). Together they follow the source's statements in order.
- The display is not modelled: `toFixed` formatting, the JSX layout, `RadioOption`, the text fields and the style sheet.
- Editing a text field or choosing a radio button only assigns a field. It is not modelled as a separate operation.
