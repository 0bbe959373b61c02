/**
 * The state of the calculator screen (the `App` component of main.js): the
 * selected fault type, the four input texts, the result record and the error
 * message, with the two button handlers `calcular` and `limpar` that update it.
 */
module CalculatorScreen {
  import opened Wrappers
  import opened Numbers
  import opened FaultFormulas
  import opened FaultCalculator

  class Screen {
    var tipo: FaultType
    var vll: string
    var z1: string
    var z2: string
    var z0: string
    var resultado: Option<FaultResult>
    var erro: string

    /** The screen never shows a result and an error at the same time. */
    ghost predicate Valid()
      reads this
    {
      !(erro != "" && resultado.Some?)
    }

    /** The initial state: LLL, 220 kV, Z1 = Z2 = 0.05, Z0 = 0.15, nothing shown. */
    constructor ()
      ensures Valid()
      ensures tipo == LLL && vll == "220" && z1 == "0.05" && z2 == "0.05" && z0 == "0.15"
      ensures resultado == None && erro == ""
    {
      tipo, vll, z1, z2, z0 := LLL, "220", "0.05", "0.05", "0.15";
      resultado, erro := None, "";
    }

    /**
     * The "Calcular" button (main.js:37-97). Clears the result and the error,
     * parses the four texts, then either shows the message of the first failed
     * check or stores the new result. `sqrt3` is the value of `Math.sqrt(3)`.
     */
    method Calcular(sqrt3: real)
      requires sqrt3 > 0.0
      modifies this
      ensures Valid()
      ensures tipo == old(tipo) && vll == old(vll) && z1 == old(z1) && z2 == old(z2) && z0 == old(z0)
      ensures match Calculate(sqrt3, tipo, vll, z1, z2, z0)
              case Ok(r) => resultado == Some(r) && erro == ""
              case Err(e) => resultado == None && erro == ErrorMessage(e)
      ensures resultado.None? ==> |erro| > 0
      ensures resultado.Some? ==> erro == ""
    {
      erro := "";
      resultado := None;

      var vllKv := ParseNumber(vll);
      var nZ1 := ParseNumber(z1);
      var nZ2 := ParseNumber(z2);
      var nZ0 := ParseNumber(z0);

      ValidateAndCompute(sqrt3, vllKv, nZ1, nZ2, nZ0);
    }

    /**
     * The rest of `calcular` once the four texts are parsed (main.js:46-96):
     * the gate with its early returns, the formula for `tipo`, and the record.
     */
    method ValidateAndCompute(sqrt3: real, vllKv: JsNumber, nZ1: JsNumber, nZ2: JsNumber, nZ0: JsNumber)
      requires sqrt3 > 0.0 && erro == "" && resultado == None
      modifies this`erro, this`resultado
      ensures match Evaluate(sqrt3, tipo, vllKv, nZ1, nZ2, nZ0)
              case Ok(r) => resultado == Some(r) && erro == ""
              case Err(e) => resultado == None && erro == ErrorMessage(e)
    {
      if IsBadQuantity(vllKv) {
        erro := ErrorMessage(InvalidVoltage);
        return;
      }
      if IsBadQuantity(nZ1) {
        erro := ErrorMessage(InvalidImpedance(Z1));
        return;
      }
      if (tipo == LL || tipo == LG) && IsBadQuantity(nZ2) {
        erro := ErrorMessage(InvalidImpedance(Z2));
        return;
      }
      if tipo == LG && IsBadQuantity(nZ0) {
        erro := ErrorMessage(InvalidImpedance(Z0));
        return;
      }

      var v := vllKv.value * 1000.0;
      var iccA: real;
      match tipo {
        case LLL => iccA := CurrentLLL(sqrt3, v, nZ1.value);
        case LL => iccA := CurrentLL(sqrt3, v, nZ1.value, nZ2.value);
        case LG => iccA := CurrentLG(sqrt3, v, nZ1.value, nZ2.value, nZ0.value);
      }

      var sMva := PowerMva(sqrt3, v, iccA);
      resultado := Some(FaultResult(tipo, iccA / 1000.0, iccA, sMva, Details(vllKv.value, nZ1.value, nZ2, nZ0)));
    }

    /** The "Limpar" button: empties the four inputs and clears result and error; the fault type stays. */
    method Limpar()
      modifies this
      ensures Valid()
      ensures vll == "" && z1 == "" && z2 == "" && z0 == ""
      ensures resultado == None && erro == ""
      ensures tipo == old(tipo)
    {
      vll := "";
      z1 := "";
      z2 := "";
      z0 := "";
      resultado := None;
      erro := "";
    }
  }

  /**
   * A press of "Limpar" followed by "Calcular" shows the voltage message and no
   * result, whatever the fault type and whatever was shown before.
   */
  method ClearThenCalculate(s: Screen, sqrt3: real)
    requires sqrt3 > 0.0
    modifies s
    ensures s.Valid()
    ensures s.erro == ErrorMessage(InvalidVoltage) && s.resultado == None
  {
    s.Limpar();
    s.Calcular(sqrt3);
    CalculateRejectsEmptyOrNegativeVoltage(sqrt3, s.tipo, s.vll, s.z1, s.z2, s.z0);
  }
}
