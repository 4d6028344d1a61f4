/** Numeric building blocks shared by the compressor engine, the plugin processor and the
    VU meter: the transcendental functions the code calls (kept uninterpreted), the clamp
    the code takes from JUCE, and the one-pole smoothing step every envelope uses. All
    arithmetic is over `real`; float rounding is not modelled. */
module Numerics {

  /** The library functions the code calls but which this model does not define:
      `std::exp`, `std::sqrt`, `juce::Decibels::decibelsToGain` and
      `juce::Decibels::gainToDecibels`. They are passed in as values so that nothing is
      claimed about them beyond what a lemma explicitly requires. */
  datatype Math = Math(
    exp: real -> real,
    sqrt: real -> real,
    decibelsToGain: real -> real,
    gainToDecibels: real -> real)

  function Exp(m: Math, x: real): real
  {
    m.exp(x)
  }

  function Sqrt(m: Math, x: real): real
  {
    m.sqrt(x)
  }

  function DecibelsToGain(m: Math, db: real): real
  {
    m.decibelsToGain(db)
  }

  function GainToDecibels(m: Math, gain: real): real
  {
    m.gainToDecibels(gain)
  }

  /** What the real `exp` does on negative arguments: it lands strictly inside (0, 1). */
  ghost predicate ExpDecays(m: Math)
  {
    forall x: real :: x < 0.0 ==> 0.0 < Exp(m, x) < 1.0
  }

  /** What `decibelsToGain` does: 0 dB is unity, a positive level amplifies, a negative
      level attenuates (down to 0 at JUCE's -100 dB floor). */
  ghost predicate DecibelsToGainSound(m: Math)
  {
    && DecibelsToGain(m, 0.0) == 1.0
    && (forall x: real :: x > 0.0 ==> DecibelsToGain(m, x) > 1.0)
    && (forall x: real :: x < 0.0 ==> 0.0 <= DecibelsToGain(m, x) < 1.0)
  }

  /** `juce::jlimit(lower, upper, value)`. */
  function Clamp(lower: real, upper: real, value: real): (r: real)
    requires lower <= upper
    ensures lower <= r <= upper
    ensures lower <= value <= upper ==> r == value
    ensures value < lower ==> r == lower
    ensures upper < value ==> r == upper
  {
    if value < lower then lower else if upper < value then upper else value
  }

  /** `std::abs` on a sample. */
  function Abs(x: real): (r: real)
    ensures r >= 0.0
    ensures r == x || r == -x
  {
    if x < 0.0 then -x else x
  }

  /** The running-maximum update `if (x > acc) acc = x;` used by every peak tracker. */
  function Max(acc: real, x: real): (r: real)
    ensures r >= acc && r >= x
    ensures r == acc || r == x
  {
    if x > acc then x else acc
  }

  /** One step of a one-pole smoother: `coeff * state + (1 - coeff) * input`. */
  function Smooth(coeff: real, state: real, input: real): real
  {
    coeff * state + (1.0 - coeff) * input
  }

  /** Sign of a product of a nonnegative factor and another factor. */
  lemma ScaleSign(k: real, x: real)
    requires k >= 0.0
    ensures x >= 0.0 ==> k * x >= 0.0
    ensures x <= 0.0 ==> k * x <= 0.0
    ensures k > 0.0 && x > 0.0 ==> k * x > 0.0
    ensures k > 0.0 && x < 0.0 ==> k * x < 0.0
  {
  }

  /** A smoothing step with a coefficient in [0, 1] lands between the old state and the
      input; with a coefficient strictly inside (0, 1) it lands strictly between them. */
  lemma SmoothBetween(coeff: real, state: real, input: real)
    requires 0.0 <= coeff <= 1.0
    ensures state <= input ==> state <= Smooth(coeff, state, input) <= input
    ensures input <= state ==> input <= Smooth(coeff, state, input) <= state
    ensures 0.0 < coeff < 1.0 && state < input ==> state < Smooth(coeff, state, input) < input
    ensures 0.0 < coeff < 1.0 && input < state ==> input < Smooth(coeff, state, input) < state
  {
    var gap := state - input;
    var s := Smooth(coeff, state, input);
    assert s - input == coeff * gap;
    assert state - s == (1.0 - coeff) * gap;
    ScaleSign(coeff, gap);
    ScaleSign(1.0 - coeff, gap);
  }

  /** The one-pole coefficient for a time constant of `ms` milliseconds at `sampleRate`:
      `exp(-1 / (ms * 0.001 * sampleRate))`. A zero denominator yields 0, as IEEE float
      does (-1/+0 is -infinity and exp(-infinity) is 0). */
  function OnePoleCoeff(m: Math, ms: real, sampleRate: real): (c: real)
    ensures ExpDecays(m) && ms > 0.0 && sampleRate > 0.0 ==> 0.0 < c < 1.0
  {
    var samples := ms * 0.001 * sampleRate;
    if samples == 0.0 then 0.0 else Exp(m, -1.0 / samples)
  }
}
