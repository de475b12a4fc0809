/**
  The concrete evaporation estimate. The ACI 305R expression exists only as a
  comment in the source; what the code computes is a fixed placeholder rate.
 */
module Evaporation {

  /** The evaporation rate in kg/m²/h: the placeholder 0.42 on every call. */
  function CalculateAci305r(): (rate: real)
    ensures rate == 0.42
  {
    0.42
  }
}
