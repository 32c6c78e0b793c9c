/** The mel scale `1127 ln(1 + f/700)` and its inverse, over the logarithm and the
    exponential of the primitives. */
module MelScales {
  import opened Common

  /** `mel_scale_scalar` / `mel_scale`. */
  function MelScale(p: Primitives, freq: real): real {
    1127.0 * p.log(1.0 + freq / 700.0)
  }

  /** `inverse_mel_scale_scalar` / `inverse_mel_scale`. */
  function InverseMelScale(p: Primitives, melFreq: real): real {
    700.0 * (p.exp(melFreq / 1127.0) - 1.0)
  }

  /** Above -700 Hz, where the logarithm's argument is positive, the mel scale is strictly
      increasing. */
  lemma MelScaleIncreasing(p: Primitives, f1: real, f2: real)
    requires LogIncreasing(p.log)
    requires -700.0 < f1 < f2
    ensures MelScale(p, f1) < MelScale(p, f2)
  {
    assert 0.0 < 1.0 + f1 / 700.0 < 1.0 + f2 / 700.0;
  }
}
