/**
 * The three closed-form short-circuit current formulas of main.js (`calcular`,
 * lines 64-78), over exact reals. `v` is the line-to-line voltage in volts and
 * z1, z2, z0 the positive-, negative- and zero-sequence impedances in ohms.
 *
 * The source obtains sqrt(3) from `Math.sqrt(3)`. The model takes it as the
 * parameter `sqrt3`: every formula only needs it positive, and the lemmas that
 * depend on its exact value ask for `IsSqrt3(sqrt3)`.
 */
module FaultFormulas {

  /** The radio-button selection `tipo`: "LLL", "LL" or "LG". */
  datatype FaultType = LLL | LL | LG

  predicate IsSqrt3(s: real) {
    s > 0.0 && s * s == 3.0
  }

  /** Three-phase fault: V / (sqrt3 * Z1). */
  function CurrentLLL(sqrt3: real, v: real, z1: real): (i: real)
    requires sqrt3 > 0.0 && v > 0.0 && z1 > 0.0
    ensures i > 0.0
  {
    PositiveQuotient(v, sqrt3 * z1);
    v / (sqrt3 * z1)
  }

  /** Phase-to-phase fault: V / (2 * (Z1 + Z2) / sqrt3). */
  function CurrentLL(sqrt3: real, v: real, z1: real, z2: real): (i: real)
    requires sqrt3 > 0.0 && v > 0.0 && z1 > 0.0 && z2 > 0.0
    ensures i > 0.0
  {
    PositiveQuotient(2.0 * (z1 + z2), sqrt3);
    PositiveQuotient(v, 2.0 * (z1 + z2) / sqrt3);
    v / (2.0 * (z1 + z2) / sqrt3)
  }

  /** Phase-to-ground fault: sqrt3 * V / (Z1 + Z2 + Z0). */
  function CurrentLG(sqrt3: real, v: real, z1: real, z2: real, z0: real): (i: real)
    requires sqrt3 > 0.0 && v > 0.0 && z1 > 0.0 && z2 > 0.0 && z0 > 0.0
    ensures i > 0.0
  {
    PositiveQuotient(sqrt3 * v, z1 + z2 + z0);
    (sqrt3 * v) / (z1 + z2 + z0)
  }

  lemma PositiveQuotient(a: real, b: real)
    requires a > 0.0 && b > 0.0
    ensures a * b > 0.0 && a / b > 0.0
  {
  }

  /** Apparent fault power in MVA: sqrt3 * V * I / 1e6. */
  function PowerMva(sqrt3: real, v: real, i: real): (s: real)
    requires sqrt3 > 0.0 && v > 0.0 && i > 0.0
    ensures s > 0.0
  {
    PositiveQuotient(sqrt3, v);
    PositiveQuotient(sqrt3 * v, i);
    sqrt3 * v * i / 1000000.0
  }

  /**
   * The phase-to-phase form in the source's comment, (sqrt3 / 2) * V / (Z1 + Z2),
   * and its equivalent sqrt3 * V / (2 * (Z1 + Z2)), are the same current.
   */
  lemma CurrentLLEquivalentForms(sqrt3: real, v: real, z1: real, z2: real)
    requires sqrt3 > 0.0 && v > 0.0 && z1 > 0.0 && z2 > 0.0
    ensures CurrentLL(sqrt3, v, z1, z2) == (sqrt3 / 2.0) * v / (z1 + z2)
    ensures CurrentLL(sqrt3, v, z1, z2) == sqrt3 * v / (2.0 * (z1 + z2))
  {
    var d := 2.0 * (z1 + z2);
    assert CurrentLL(sqrt3, v, z1, z2) == v * sqrt3 / d by {
      assert (d / sqrt3) * sqrt3 == d;
      assert (v / (d / sqrt3)) * (d / sqrt3) == v;
    }
  }

  /**
   * The phase-to-ground form in the source's comment, 3 * Vf / (Z1 + Z2 + Z0)
   * with the phase voltage Vf = V / sqrt3, is the same current.
   */
  lemma CurrentLGPhaseVoltageForm(sqrt3: real, v: real, z1: real, z2: real, z0: real)
    requires IsSqrt3(sqrt3) && v > 0.0 && z1 > 0.0 && z2 > 0.0 && z0 > 0.0
    ensures CurrentLG(sqrt3, v, z1, z2, z0) == 3.0 * (v / sqrt3) / (z1 + z2 + z0)
  {
    assert 3.0 * (v / sqrt3) == sqrt3 * v by {
      assert (v / sqrt3) * sqrt3 == v;
      assert 3.0 * (v / sqrt3) == sqrt3 * sqrt3 * (v / sqrt3);
    }
  }

  /** With V, Z1 and Z2 fixed, a larger Z0 gives a strictly smaller phase-to-ground current. */
  lemma CurrentLGDecreasesWithZ0(sqrt3: real, v: real, z1: real, z2: real, z0: real, z0': real)
    requires sqrt3 > 0.0 && v > 0.0 && z1 > 0.0 && z2 > 0.0 && 0.0 < z0 < z0'
    ensures CurrentLG(sqrt3, v, z1, z2, z0') < CurrentLG(sqrt3, v, z1, z2, z0)
  {
    var a, d, d' := sqrt3 * v, z1 + z2 + z0, z1 + z2 + z0';
    PositiveQuotient(sqrt3, v);
    assert (a / d) * d == a && (a / d') * d' == a;
  }

  /**
   * With Z2 = Z1 the phase-to-phase current is exactly three quarters of the
   * three-phase current, so strictly less.
   */
  lemma CurrentLLIsThreeQuartersOfLLL(sqrt3: real, v: real, z1: real)
    requires IsSqrt3(sqrt3) && v > 0.0 && z1 > 0.0
    ensures CurrentLL(sqrt3, v, z1, z1) == 0.75 * CurrentLLL(sqrt3, v, z1)
    ensures CurrentLL(sqrt3, v, z1, z1) < CurrentLLL(sqrt3, v, z1)
  {
    CurrentLLEquivalentForms(sqrt3, v, z1, z1);
    var lll := CurrentLLL(sqrt3, v, z1);
    assert lll * (sqrt3 * z1) == v;
    assert sqrt3 * v / (4.0 * z1) == 0.75 * lll by {
      assert sqrt3 * v == sqrt3 * lll * sqrt3 * z1;
      assert sqrt3 * v == 3.0 * lll * z1;
    }
  }

  /** With Z0 = Z2 = Z1 the phase-to-ground current equals the three-phase current. */
  lemma CurrentLGEqualsLLLForEqualSequences(sqrt3: real, v: real, z: real)
    requires IsSqrt3(sqrt3) && v > 0.0 && z > 0.0
    ensures CurrentLG(sqrt3, v, z, z, z) == CurrentLLL(sqrt3, v, z)
  {
    var lll := CurrentLLL(sqrt3, v, z);
    assert lll * (sqrt3 * z) == v;
    assert sqrt3 * v == 3.0 * z * lll by {
      assert sqrt3 * v == sqrt3 * lll * sqrt3 * z;
    }
  }

  /** For a three-phase fault the power is kV^2 / Z1 MVA, whatever the value used for sqrt3. */
  lemma PowerLLLIsKvSquaredOverZ1(sqrt3: real, kv: real, z1: real)
    requires sqrt3 > 0.0 && kv > 0.0 && z1 > 0.0
    ensures PowerMva(sqrt3, kv * 1000.0, CurrentLLL(sqrt3, kv * 1000.0, z1)) == kv * kv / z1
  {
    var v := kv * 1000.0;
    var i := CurrentLLL(sqrt3, v, z1);
    assert i * (sqrt3 * z1) == v;
    assert sqrt3 * v * i == v * v / z1 by {
      assert (sqrt3 * v * i) * z1 == v * v;
      assert (v * v / z1) * z1 == v * v;
    }
    assert v * v == kv * kv * 1000000.0;
  }
}
