/** Body-mass index as both data-entry screens compute it: weight in kg over
    the square of height given in cm, shown with two decimals. */
module Bmi {
  import opened Wrappers
  import opened JsMath

  /** `x.toFixed(2)` read back as a number: the nearest hundredth, halves
      rounded up (for the non-negative values it is applied to). */
  function Round2(x: real): (r: real)
    ensures (r * 100.0).Floor as real == r * 100.0
    ensures r - 0.005 <= x < r + 0.005
  {
    Round(x * 100.0) as real / 100.0
  }

  lemma Round2Monotonic(x: real, y: real)
    requires x <= y
    ensures Round2(x) <= Round2(y)
  {
    RoundMonotonic(x * 100.0, y * 100.0);
  }

  /** The exact formula `p / (h * h)` with `h` the height in metres. */
  function Exact(pesoKg: real, estaturaCm: real): real
    requires estaturaCm != 0.0
  {
    var h := estaturaCm / 100.0;
    pesoKg / (h * h)
  }

  /** The BMI shown on screen, or nothing (the empty text) unless both parsed
      inputs are positive. */
  function Compute(peso: Option<real>, estatura: Option<real>): (r: Option<real>)
    ensures r.Some? <==> peso.Some? && estatura.Some? && peso.value > 0.0 && estatura.value > 0.0
    ensures r.Some? ==> Round2(Exact(peso.value, estatura.value)) == r.value
  {
    if peso.Some? && estatura.Some? && peso.value > 0.0 && estatura.value > 0.0 then
      Some(Round2(Exact(peso.value, estatura.value)))
    else
      None
  }

  /** The shown BMI is the formula's value to within half a hundredth. */
  lemma ComputeNearExact(peso: real, estatura: real)
    requires peso > 0.0 && estatura > 0.0
    ensures Compute(Some(peso), Some(estatura)).Some?
    ensures var b := Compute(Some(peso), Some(estatura)).value;
      b - 0.005 <= Exact(peso, estatura) < b + 0.005
  {
  }

  /** 70 kg at 175 cm shows 22.86. */
  lemma ExampleSeventyKilos()
    ensures Compute(Some(70.0), Some(175.0)) == Some(22.86)
  {
    assert Exact(70.0, 175.0) == 70.0 / 3.0625;
    assert Round(70.0 / 3.0625 * 100.0) == 2286;
  }
}
