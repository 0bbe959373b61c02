/**
 * What one press of "Calcular" computes (main.js `calcular`, lines 37-97), as a
 * function of the fault type and the four input texts: the ordered validation
 * gate, the dispatch over the three formulas, and the result record with its
 * unit conversions and echo of the parsed inputs.
 */
module FaultCalculator {
  import opened Wrappers
  import opened Numbers
  import opened FaultFormulas

  /** The impedance an error names. */
  datatype Impedance = Z1 | Z2 | Z0

  /** Which input the gate rejected; each stands for one message of the screen. */
  datatype InputError = InvalidVoltage | InvalidImpedance(which: Impedance)

  /** The message the screen shows in `erro` for each rejection. */
  function ErrorMessage(e: InputError): (m: string)
    ensures |m| > 0
  {
    match e
    case InvalidVoltage => "Informe uma tensão VLL válida (>0)."
    case InvalidImpedance(Z1) => "Informe Z1 válida (>0)."
    case InvalidImpedance(Z2) => "Informe Z2 válida (>0) para este tipo de falta."
    case InvalidImpedance(Z0) => "Informe Z0 válida (>0) para falta fase-terra."
  }

  /** Distinct rejections show distinct messages, so the message names the field. */
  lemma ErrorMessageInjective(e: InputError, e': InputError)
    requires e != e'
    ensures ErrorMessage(e) != ErrorMessage(e')
  {
  }

  predicate NeedsZ2(t: FaultType) {
    t == LL || t == LG
  }

  predicate NeedsZ0(t: FaultType) {
    t == LG
  }

  /** The inputs the selected fault type needs are all numbers greater than zero. */
  predicate Acceptable(t: FaultType, vllKv: JsNumber, z1: JsNumber, z2: JsNumber, z0: JsNumber) {
    && !IsBadQuantity(vllKv)
    && !IsBadQuantity(z1)
    && (NeedsZ2(t) ==> !IsBadQuantity(z2))
    && (NeedsZ0(t) ==> !IsBadQuantity(z0))
  }

  /**
   * The validation gate: voltage, then Z1, then Z2 (LL and LG only), then Z0
   * (LG only); the first failure is the one reported.
   */
  function Validate(t: FaultType, vllKv: JsNumber, z1: JsNumber, z2: JsNumber, z0: JsNumber): (r: Option<InputError>)
    ensures r == None <==> Acceptable(t, vllKv, z1, z2, z0)
    ensures r == Some(InvalidVoltage) <==> IsBadQuantity(vllKv)
    ensures r == Some(InvalidImpedance(Z1)) <==> !IsBadQuantity(vllKv) && IsBadQuantity(z1)
    ensures r == Some(InvalidImpedance(Z2)) <==>
      !IsBadQuantity(vllKv) && !IsBadQuantity(z1) && NeedsZ2(t) && IsBadQuantity(z2)
    ensures r == Some(InvalidImpedance(Z0)) <==>
      !IsBadQuantity(vllKv) && !IsBadQuantity(z1) && (NeedsZ2(t) ==> !IsBadQuantity(z2))
      && NeedsZ0(t) && IsBadQuantity(z0)
  {
    if IsBadQuantity(vllKv) then Some(InvalidVoltage)
    else if IsBadQuantity(z1) then Some(InvalidImpedance(Z1))
    else if (t == LL || t == LG) && IsBadQuantity(z2) then Some(InvalidImpedance(Z2))
    else if t == LG && IsBadQuantity(z0) then Some(InvalidImpedance(Z0))
    else None
  }

  /**
   * The gate never looks at an impedance the fault type does not use: Z2 and Z0
   * are ignored for LLL, Z0 for LL.
   */
  lemma ValidateIgnoresUnusedImpedances(t: FaultType, vllKv: JsNumber, z1: JsNumber,
                                        z2: JsNumber, z0: JsNumber, z2': JsNumber, z0': JsNumber)
    ensures t == LLL ==> Validate(t, vllKv, z1, z2, z0) == Validate(t, vllKv, z1, z2', z0')
    ensures t == LL ==> Validate(t, vllKv, z1, z2, z0) == Validate(t, vllKv, z1, z2, z0')
  {
  }

  /** The parsed inputs shown under "Detalhes de cálculo". */
  datatype Details = Details(vllKv: real, z1: real, z2: JsNumber, z0: JsNumber)

  /** The record `resultado`. */
  datatype FaultResult = FaultResult(tipo: FaultType, iKa: real, iA: real, sMva: real, detalhes: Details)

  /**
   * The relations every result record satisfies: a positive current and power,
   * I_kA = I_A / 1000 and S_MVA = sqrt3 * V * I_A / 1e6 with V = Vll_kV * 1000.
   */
  predicate ConsistentResult(sqrt3: real, r: FaultResult) {
    && r.iA > 0.0 && r.sMva > 0.0
    && r.iKa * 1000.0 == r.iA
    && r.sMva * 1000000.0 == sqrt3 * (r.detalhes.vllKv * 1000.0) * r.iA
  }

  /** The fault current in amperes for the selected type (main.js:69-78). */
  function FaultCurrent(sqrt3: real, t: FaultType, v: real, z1: real, z2: JsNumber, z0: JsNumber): (i: real)
    requires sqrt3 > 0.0 && v > 0.0 && z1 > 0.0
    requires NeedsZ2(t) ==> !IsBadQuantity(z2)
    requires NeedsZ0(t) ==> !IsBadQuantity(z0)
    ensures i > 0.0
  {
    match t
    case LLL => CurrentLLL(sqrt3, v, z1)
    case LL => CurrentLL(sqrt3, v, z1, z2.value)
    case LG => CurrentLG(sqrt3, v, z1, z2.value, z0.value)
  }

  /** The result record built once the gate has passed (main.js:63-96). */
  function Compute(sqrt3: real, t: FaultType, vllKv: real, z1: real, z2: JsNumber, z0: JsNumber): (r: FaultResult)
    requires sqrt3 > 0.0 && vllKv > 0.0 && z1 > 0.0
    requires NeedsZ2(t) ==> !IsBadQuantity(z2)
    requires NeedsZ0(t) ==> !IsBadQuantity(z0)
    ensures r.tipo == t && r.detalhes == Details(vllKv, z1, z2, z0)
    ensures r.iA == FaultCurrent(sqrt3, t, vllKv * 1000.0, z1, z2, z0)
    ensures ConsistentResult(sqrt3, r)
  {
    var v := vllKv * 1000.0;
    var i := FaultCurrent(sqrt3, t, v, z1, z2, z0);
    FaultResult(t, i / 1000.0, i, PowerMva(sqrt3, v, i), Details(vllKv, z1, z2, z0))
  }

  /** The gate followed by the computation, on the four parsed numbers (main.js:46-96). */
  function Evaluate(sqrt3: real, t: FaultType, vllKv: JsNumber, z1: JsNumber, z2: JsNumber, z0: JsNumber)
    : (r: Result<FaultResult, InputError>)
    requires sqrt3 > 0.0
    ensures r.Err? <==> !Acceptable(t, vllKv, z1, z2, z0)
    ensures r.Err? ==> Some(r.error) == Validate(t, vllKv, z1, z2, z0)
  {
    var gate := Validate(t, vllKv, z1, z2, z0);
    if gate.Some? then Err(gate.value)
    else Ok(Compute(sqrt3, t, vllKv.value, z1.value, z2, z0))
  }

  /** One press of "Calcular": parse the four texts (main.js:41-44), then evaluate. */
  function Calculate(sqrt3: real, t: FaultType, vll: string, z1: string, z2: string, z0: string)
    : (r: Result<FaultResult, InputError>)
    requires sqrt3 > 0.0
    ensures r.Err? <==> !Acceptable(t, ParseNumber(vll), ParseNumber(z1), ParseNumber(z2), ParseNumber(z0))
    ensures r.Err? ==> Some(r.error) == Validate(t, ParseNumber(vll), ParseNumber(z1), ParseNumber(z2), ParseNumber(z0))
  {
    Evaluate(sqrt3, t, ParseNumber(vll), ParseNumber(z1), ParseNumber(z2), ParseNumber(z0))
  }

  /**
   * A successful calculation is the record built from the parsed inputs: it
   * reports the selected fault type, its current is that type's formula at
   * V = Vll_kV * 1000, it satisfies the result relations, and it echoes the
   * parsed inputs unchanged.
   */
  lemma CalculateResult(sqrt3: real, t: FaultType, vll: string, z1: string, z2: string, z0: string)
    requires sqrt3 > 0.0
    requires Calculate(sqrt3, t, vll, z1, z2, z0).Ok?
    ensures var r := Calculate(sqrt3, t, vll, z1, z2, z0).value;
      && r.tipo == t
      && ConsistentResult(sqrt3, r)
      && ParseNumber(vll) == Finite(r.detalhes.vllKv)
      && ParseNumber(z1) == Finite(r.detalhes.z1)
      && ParseNumber(z2) == r.detalhes.z2
      && ParseNumber(z0) == r.detalhes.z0
      && r == Compute(sqrt3, t, ParseNumber(vll).value, ParseNumber(z1).value, ParseNumber(z2), ParseNumber(z0))
      && r.iA == FaultCurrent(sqrt3, t, ParseNumber(vll).value * 1000.0, ParseNumber(z1).value,
                              ParseNumber(z2), ParseNumber(z0))
  {
  }

  /** Two outcomes that show the same error, or results equal but for the echoed inputs. */
  predicate SameCalculation(a: Result<FaultResult, InputError>, b: Result<FaultResult, InputError>) {
    || (a.Err? && b == a)
    || (a.Ok? && b.Ok? && a.value.(detalhes := b.value.detalhes) == b.value)
  }

  /**
   * Text in a field the fault type does not use cannot cause an error nor change
   * the current: Z2 and Z0 for LLL, Z0 for LL. Only the echo of that text differs.
   */
  lemma {:induction false} CalculateIgnoresUnusedFields(sqrt3: real, t: FaultType, vll: string, z1: string,
                                                        z2: string, z0: string, z2': string, z0': string)
    requires sqrt3 > 0.0
    ensures t == LLL ==> SameCalculation(Calculate(sqrt3, t, vll, z1, z2, z0), Calculate(sqrt3, t, vll, z1, z2', z0'))
    ensures t == LL ==> SameCalculation(Calculate(sqrt3, t, vll, z1, z2, z0), Calculate(sqrt3, t, vll, z1, z2, z0'))
  {
    var nV, n1, n2, n0, n2', n0' := ParseNumber(vll), ParseNumber(z1), ParseNumber(z2), ParseNumber(z0),
                                    ParseNumber(z2'), ParseNumber(z0');
    ValidateIgnoresUnusedImpedances(t, nV, n1, n2, n0, n2', n0');
    if t == LLL && Validate(t, nV, n1, n2, n0).None? {
      var v := nV.value * 1000.0;
      assert FaultCurrent(sqrt3, t, v, n1.value, n2, n0) == FaultCurrent(sqrt3, t, v, n1.value, n2', n0');
    }
    if t == LL && Validate(t, nV, n1, n2, n0).None? {
      var v := nV.value * 1000.0;
      assert FaultCurrent(sqrt3, t, v, n1.value, n2, n0) == FaultCurrent(sqrt3, t, v, n1.value, n2, n0');
    }
  }

  /**
   * Empty voltage text (as left by "Limpar") or a negative one is reported as an
   * invalid voltage for every fault type, whatever the impedance fields hold.
   */
  lemma {:induction false} CalculateRejectsEmptyOrNegativeVoltage(sqrt3: real, t: FaultType, vll: string,
                                                                  z1: string, z2: string, z0: string)
    requires sqrt3 > 0.0
    requires vll == "" || vll[0] == '-'
    ensures Calculate(sqrt3, t, vll, z1, z2, z0) == Err(InvalidVoltage)
  {
    if vll != "" {
      ParseNumberMinusSign(vll);
    }
  }

  /** sqrt(3) lies between 1.7320508 and 1.7320509. */
  lemma Sqrt3Bounds(sqrt3: real)
    requires IsSqrt3(sqrt3)
    ensures 1.7320508 < sqrt3 < 1.7320509
  {
  }

  /** The screen's default texts parse to 220, 0.05 and 0.15. */
  lemma DefaultInputsParse()
    ensures ParseNumber("220") == Finite(220.0)
    ensures ParseNumber("0.05") == Finite(0.05)
    ensures ParseNumber("0.15") == Finite(0.15)
  {
    IntegerTextParses();
    FractionTextParses005();
    FractionTextParses015();
  }

  lemma IntegerTextParses()
    ensures ParseNumber("220") == Finite(220.0)
  {
    assert DigitsValue("220") == 220 by {
      assert "220"[..2] == "22" && "22"[..1] == "2" && "2"[..0] == "";
    }
    assert AllDigits("220") && ',' !in "220" && '.' !in "220";
  }

  lemma FractionTextParses005()
    ensures ParseNumber("0.05") == Finite(0.05)
  {
    FractionTextsValue();
    assert AllDigits("0") && AllDigits("05");
    ParseNumberDecimalComma("0", "05");
    assert "0" + "." + "05" == "0.05";
  }

  lemma FractionTextParses015()
    ensures ParseNumber("0.15") == Finite(0.15)
  {
    FractionTextsValue();
    assert AllDigits("0") && AllDigits("15");
    ParseNumberDecimalComma("0", "15");
    assert "0" + "." + "15" == "0.15";
  }

  lemma FractionTextsValue()
    ensures DecimalValue("0", "05") == 0.05
    ensures DecimalValue("0", "15") == 0.15
  {
    assert DigitsValue("0") == 0 by { assert "0"[..0] == ""; }
    assert DigitsValue("05") == 5 by { assert "05"[..1] == "0"; }
    assert DigitsValue("15") == 15 by { assert "15"[..1] == "1"; }
  }

  /**
   * Worked example with the screen's default inputs, three-phase fault at 220 kV
   * and Z1 = 0.05 ohm: about 2540.34 kA and exactly 968,000 MVA (kV^2 / Z1).
   */
  lemma ExampleThreePhase(sqrt3: real)
    requires IsSqrt3(sqrt3)
    ensures Calculate(sqrt3, LLL, "220", "0.05", "0.05", "0.15").Ok?
    ensures var r := Calculate(sqrt3, LLL, "220", "0.05", "0.05", "0.15").value;
      r.sMva == 968000.0 && 2540.341 < r.iKa < 2540.342
  {
    DefaultInputsParse();
    var r := Compute(sqrt3, LLL, 220.0, 0.05, Finite(0.05), Finite(0.15));
    assert Calculate(sqrt3, LLL, "220", "0.05", "0.05", "0.15") == Ok(r);
    ExampleThreePhaseValues(sqrt3, r);
  }

  lemma ExampleThreePhaseValues(sqrt3: real, r: FaultResult)
    requires IsSqrt3(sqrt3)
    requires r == Compute(sqrt3, LLL, 220.0, 0.05, Finite(0.05), Finite(0.15))
    ensures r.sMva == 968000.0 && 2540.341 < r.iKa < 2540.342
  {
    var i := CurrentLLL(sqrt3, 220000.0, 0.05);
    assert r.iA == i && r.iKa == i / 1000.0 && r.sMva == PowerMva(sqrt3, 220000.0, i);
    PowerLLLIsKvSquaredOverZ1(sqrt3, 220.0, 0.05);
    Sqrt3Bounds(sqrt3);
    assert i * sqrt3 == 4400000.0;
  }

  /**
   * Worked example with the screen's default inputs, phase-to-ground fault at
   * 220 kV, Z1 = Z2 = 0.05 and Z0 = 0.15 ohm: about 1,524,204.7 A and exactly
   * 580,800 MVA.
   */
  lemma ExamplePhaseToGround(sqrt3: real)
    requires IsSqrt3(sqrt3)
    ensures Calculate(sqrt3, LG, "220", "0.05", "0.05", "0.15").Ok?
    ensures var r := Calculate(sqrt3, LG, "220", "0.05", "0.05", "0.15").value;
      r.sMva == 580800.0 && 1524204.7 < r.iA < 1524204.8
  {
    DefaultInputsParse();
    var r := Compute(sqrt3, LG, 220.0, 0.05, Finite(0.05), Finite(0.15));
    assert Calculate(sqrt3, LG, "220", "0.05", "0.05", "0.15") == Ok(r);
    ExamplePhaseToGroundValues(sqrt3, r);
  }

  lemma ExamplePhaseToGroundValues(sqrt3: real, r: FaultResult)
    requires IsSqrt3(sqrt3)
    requires r == Compute(sqrt3, LG, 220.0, 0.05, Finite(0.05), Finite(0.15))
    ensures r.sMva == 580800.0 && 1524204.7 < r.iA < 1524204.8
  {
    var i := CurrentLG(sqrt3, 220000.0, 0.05, 0.05, 0.15);
    assert r.iA == i && r.sMva == PowerMva(sqrt3, 220000.0, i);
    assert i == sqrt3 * 880000.0;
    Sqrt3Bounds(sqrt3);
    assert sqrt3 * 220000.0 * i == 3.0 * 220000.0 * 880000.0;
  }
}
