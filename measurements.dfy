/**
 * Unit normalisation and BMI (frontend/app/page.tsx, getHeightInCm,
 * getWaistInCm, calculatedBMI, effectiveBMI).  Measurements are exact reals.
 */
module Measurements {
  import opened Wrappers
  import opened Inputs

  /** JavaScript's `parseFloat(s) || 0`: a parsed number is kept, NaN becomes
      0, so 0 comes out exactly for NaN and for a parsed 0. */
  function OrZero(x: Option<real>): (r: real)
    ensures x.Some? ==> r == x.value
    ensures r == 0.0 <==> x.None? || x.value == 0.0
  {
    match x
    case None => 0.0
    case Some(v) => v
  }

  const CmPerInch: real := 2.54

  /** Height in centimetres: passed through in cm mode, otherwise
      (feet * 12 + inches) * 2.54. */
  function HeightInCm(f: Form): (cm: real)
    ensures f.heightUnit.Centimetres? ==> cm == OrZero(f.heightCm.asFloat)
    ensures f.heightUnit.FeetInches? ==>
      cm / CmPerInch == 12.0 * OrZero(f.heightFeet.asFloat) + OrZero(f.heightInches.asFloat)
  {
    if f.heightUnit.Centimetres? then OrZero(f.heightCm.asFloat)
    else
      var feet := OrZero(f.heightFeet.asFloat);
      var inches := OrZero(f.heightInches.asFloat);
      (feet * 12.0 + inches) * CmPerInch
  }

  /** Waist in centimetres: passed through in cm mode, otherwise inches * 2.54. */
  function WaistInCm(f: Form): (cm: real)
    ensures f.waistUnit.WaistCentimetres? ==> cm == OrZero(f.waistCm.asFloat)
    ensures f.waistUnit.WaistInches? ==> cm / CmPerInch == OrZero(f.waistInch.asFloat)
  {
    if f.waistUnit.WaistCentimetres? then OrZero(f.waistCm.asFloat)
    else OrZero(f.waistInch.asFloat) * CmPerInch
  }

  /** `parseFloat(x.toFixed(1))` for x >= 0: the nearest multiple of 0.1,
      halves rounded up. */
  function Round1(x: real): (r: real)
    ensures x - 0.05 < r <= x + 0.05
    ensures (r * 10.0).Floor as real == r * 10.0
  {
    ((x * 10.0 + 0.5).Floor as real) / 10.0
  }

  /** Weight over height in metres squared, before rounding. */
  function Quetelet(heightCm: real, weightKg: real): real
    requires heightCm > 0.0
  {
    weightKg / ((heightCm / 100.0) * (heightCm / 100.0))
  }

  predicate PositiveWeight(f: Form) {
    f.weight.asFloat.Some? && f.weight.asFloat.value > 0.0
  }

  /** BMI from height and weight, to one decimal; 0 unless both are positive. */
  function CalculatedBmi(f: Form): (bmi: real)
    ensures !(HeightInCm(f) > 0.0 && PositiveWeight(f)) ==> bmi == 0.0
    ensures HeightInCm(f) > 0.0 && PositiveWeight(f) ==>
      var q := Quetelet(HeightInCm(f), f.weight.asFloat.value);
      q - 0.05 < bmi <= q + 0.05 && (bmi * 10.0).Floor as real == bmi * 10.0
    ensures bmi >= 0.0
  {
    var h := HeightInCm(f);
    if h > 0.0 && PositiveWeight(f) then
      var q := Quetelet(h, f.weight.asFloat.value);
      QueteletPositive(h, f.weight.asFloat.value);
      Round1(q)
    else 0.0
  }

  lemma QueteletPositive(heightCm: real, weightKg: real)
    requires heightCm > 0.0 && weightKg > 0.0
    ensures Quetelet(heightCm, weightKg) > 0.0
  {
    var m := heightCm / 100.0;
    ProductPositive(m, m);
    assert m * m > 0.0;
    assert weightKg / (m * m) > 0.0;
  }

  lemma ProductPositive(a: real, b: real)
    requires a > 0.0 && b > 0.0
    ensures a * b > 0.0
  {
  }

  /** The BMI the scores use: the typed value in "direct" mode, the
      calculated one otherwise. */
  function EffectiveBmi(f: Form): (bmi: real)
    ensures f.bmiInput.Direct? ==> bmi == OrZero(f.bmi.asFloat)
    ensures f.bmiInput.Calculate? ==> bmi == CalculatedBmi(f) && bmi >= 0.0
  {
    if f.bmiInput.Direct? then OrZero(f.bmi.asFloat) else CalculatedBmi(f)
  }

  /** The two BMI sources never mix: in direct mode height and weight do not
      matter, in calculate mode the typed BMI does not. */
  lemma EffectiveBmiSource(f: Form, g: Form)
    requires f.bmiInput == g.bmiInput
    requires f.bmiInput.Direct? ==> f.bmi == g.bmi
    requires f.bmiInput.Calculate? ==>
      f.heightUnit == g.heightUnit && f.heightCm == g.heightCm && f.heightFeet == g.heightFeet
      && f.heightInches == g.heightInches && f.weight == g.weight
    ensures EffectiveBmi(f) == EffectiveBmi(g)
    ensures f.bmiInput.Direct? ==> EffectiveBmi(f) == OrZero(f.bmi.asFloat)
  {
  }

  /** 5 ft 8 in is 172.72 cm; 35 in of waist is 88.9 cm. */
  lemma ConversionExamples(f: Form)
    requires f.heightUnit.FeetInches? && f.heightFeet.asFloat == Some(5.0) && f.heightInches.asFloat == Some(8.0)
    requires f.waistUnit.WaistInches? && f.waistInch.asFloat == Some(35.0)
    ensures HeightInCm(f) == 172.72
    ensures WaistInCm(f) == 88.9
  {
  }

  /** 170 cm and 70 kg give a BMI of 24.2 (70 / 1.7^2 = 24.22...). */
  lemma BmiExample(f: Form)
    requires f.heightUnit.Centimetres? && f.heightCm.asFloat == Some(170.0)
    requires f.weight.asFloat == Some(70.0)
    ensures CalculatedBmi(f) == 24.2
  {
    var b := CalculatedBmi(f);
    assert Quetelet(170.0, 70.0) == 70.0 / 2.89;
    assert 24.17 < b <= 24.28;
    assert 241.0 < b * 10.0 < 243.0;
  }
}
