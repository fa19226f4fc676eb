/** Numeric helpers of the gate controller (srv.py): the constants of variant 30,
    Python's `round`, `clamp`, and the analog <-> code conversions of the
    8-bit ADC (tensometric stress channel) and the 8-bit DAC (drive voltage). */
module Quantizer {

  const ADC_BITS: nat := 8
  const ADC_VREF: real := 19.5
  const ADC_MAX: int := 255

  const DAC_BITS: nat := 8
  const DAC_VMAX: real := 120.0
  const DAC_MAX: int := 255

  const U_NOM: real := 116.0
  const U_HALF: real := U_NOM * 0.5
  const U_SLOW: real := U_NOM * 0.3

  /** Tensometric sensor: 0..120 kgf/mm^2 maps to 0..15 V. */
  const TENSO_MAX: real := 120.0
  const TENSO_U_MAX: real := 15.0

  /** Python's built-in `round` on a number: nearest integer, ties to the even one. */
  function PyRound(x: real): (r: int)
    ensures x - 0.5 <= r as real <= x + 0.5
    ensures x - x.Floor as real == 0.5 ==> r % 2 == 0
  {
    var f := x.Floor;
    var d := x - f as real;
    if d < 0.5 then f
    else if d > 0.5 then f + 1
    else if f % 2 == 0 then f else f + 1
  }

  /** The two properties in PyRound's contract single out its result. */
  lemma PyRoundUnique(x: real, n: int)
    requires x - 0.5 <= n as real <= x + 0.5
    requires x - x.Floor as real == 0.5 ==> n % 2 == 0
    ensures n == PyRound(x)
  {
    var r := PyRound(x);
    // two distinct integers within 1/2 of x make x their midpoint, a tie that both would win
    assert n == r + 1 || n == r - 1 ==> x - x.Floor as real == 0.5;
  }

  lemma PyRoundOfInt(n: int)
    ensures PyRound(n as real) == n
  {
    PyRoundUnique(n as real, n);
  }

  lemma PyRoundMonotone(x: real, y: real)
    requires x <= y
    ensures PyRound(x) <= PyRound(y)
  {
  }

  function Clamp(x: real, lo: real, hi: real): (r: real)
    requires lo <= hi
    ensures lo <= r <= hi
    ensures lo <= x <= hi ==> r == x
    ensures x < lo ==> r == lo
    ensures x > hi ==> r == hi
  {
    if x < lo then lo else if x > hi then hi else x
  }

  /** `int(clamp(x, lo, hi))` on integers: the clamp of a whole number is whole, so
      the conversion back loses nothing. */
  function ClampInt(x: int, lo: int, hi: int): (r: int)
    requires lo <= hi
    ensures lo <= r <= hi
    ensures lo <= x <= hi ==> r == x
    ensures x < lo ==> r == lo
    ensures x > hi ==> r == hi
  {
    Clamp(x as real, lo as real, hi as real).Floor
  }

  /** Voltage of the tensometric sensor for a given stress (linear, 120 -> 15 V). */
  function TensoToVoltage(stress: real): (u: real)
    ensures 0.0 <= stress <= TENSO_MAX ==> 0.0 <= u <= TENSO_U_MAX
    ensures stress == TENSO_MAX ==> u == TENSO_U_MAX
  {
    (stress / TENSO_MAX) * TENSO_U_MAX
  }

  lemma TensoToVoltageMonotone(s1: real, s2: real)
    requires s1 <= s2
    ensures TensoToVoltage(s1) <= TensoToVoltage(s2)
  {
  }

  /** 8-bit ADC over 0..19.5 V: the input is clamped, never wrapped. */
  function AdcCodeFromVoltage(u: real): (code: int)
    ensures 0 <= code <= ADC_MAX
    ensures u <= 0.0 ==> code == 0
    ensures u >= ADC_VREF ==> code == ADC_MAX
  {
    var c := Clamp(u, 0.0, ADC_VREF);
    var scaled := c / ADC_VREF * ADC_MAX as real;
    assert 0.0 <= scaled <= 255.0;
    PyRoundMonotone(0.0, scaled);
    PyRoundMonotone(scaled, 255.0);
    PyRoundOfInt(0);
    PyRoundOfInt(255);
    PyRound(scaled)
  }

  lemma AdcCodeMonotone(u1: real, u2: real)
    requires u1 <= u2
    ensures AdcCodeFromVoltage(u1) <= AdcCodeFromVoltage(u2)
  {
    var c1, c2 := Clamp(u1, 0.0, ADC_VREF), Clamp(u2, 0.0, ADC_VREF);
    assert c1 <= c2;
    assert c1 / ADC_VREF * ADC_MAX as real <= c2 / ADC_VREF * ADC_MAX as real;
    PyRoundMonotone(c1 / ADC_VREF * ADC_MAX as real, c2 / ADC_VREF * ADC_MAX as real);
  }

  /** 8-bit DAC over 0..120 V. */
  function DacVoltageFromCode(code: int): (u: real)
    ensures 0 <= code <= DAC_MAX ==> 0.0 <= u <= DAC_VMAX
    ensures code == 0 ==> u == 0.0
    ensures code == DAC_MAX ==> u == DAC_VMAX
  {
    (code as real / DAC_MAX as real) * DAC_VMAX
  }

  lemma DacVoltageMonotone(c1: int, c2: int)
    requires c1 <= c2
    ensures DacVoltageFromCode(c1) <= DacVoltageFromCode(c2)
  {
  }

  /** DAC codes of the nominal (116 V), half (58 V) and slow (30 %, 34.8 V) drive levels,
      as `round(U / DAC_VMAX * DAC_MAX)` yields them (see CodeLevels). */
  const CODE_NOM: int := 246
  const CODE_HALF: int := 123
  const CODE_SLOW: int := 74
  const CODE_ZERO: int := 0

  lemma CodeLevels()
    ensures CODE_NOM == PyRound(U_NOM / DAC_VMAX * DAC_MAX as real)
    ensures CODE_HALF == PyRound(U_HALF / DAC_VMAX * DAC_MAX as real)
    ensures CODE_SLOW == PyRound(U_SLOW / DAC_VMAX * DAC_MAX as real)
    ensures 0 < CODE_SLOW < CODE_HALF < CODE_NOM <= DAC_MAX
  {
    assert U_NOM / DAC_VMAX * DAC_MAX as real == 246.5;
    assert (246.5).Floor == 246;
    assert U_HALF / DAC_VMAX * DAC_MAX as real == 123.25;
    assert (123.25).Floor == 123;
    assert U_SLOW / DAC_VMAX * DAC_MAX as real == 73.95;
    assert (73.95).Floor == 73;
  }
}
