/** The linear ramp generator of the gate drive (class `Ramp` of srv.py): it moves the
    DAC code from a start code to an end code over a duration and reports completion
    once. */
module RampCtl {
  import opened Quantizer

  /** `Ramp.start` never stores a duration below one microsecond. */
  const MIN_DURATION: real := 0.000001

  datatype RampState = RampState(active: bool, startCode: int, endCode: int, duration: real, t: real)

  /** An active ramp has a positive duration to divide by and has not yet run its course. */
  ghost predicate RampValid(r: RampState) {
    r.active ==> r.duration >= MIN_DURATION && r.t < r.duration
  }

  /** The ramp a fresh `Ramp()` holds. */
  function NewRamp(): (r: RampState)
    ensures !r.active && RampValid(r)
  {
    RampState(false, 0, 0, 0.0, 0.0)
  }

  /** The ramp after `start(current_code, target_code, duration)`. */
  function Started(currentCode: int, targetCode: int, duration: real): (r: RampState)
    ensures r.active && r.t == 0.0 && RampValid(r)
    ensures r.startCode == currentCode && r.endCode == targetCode
    ensures r.duration >= MIN_DURATION
    ensures duration >= MIN_DURATION ==> r.duration == duration
  {
    RampState(true, currentCode, targetCode, if duration < MIN_DURATION then MIN_DURATION else duration, 0.0)
  }

  /** Fraction of the ramp covered after time t: `clamp(t / duration, 0, 1)`. */
  function Progress(t: real, duration: real): (k: real)
    requires duration > 0.0
    ensures 0.0 <= k <= 1.0
    ensures k >= 1.0 <==> t >= duration
    ensures t <= 0.0 ==> k == 0.0
  {
    Clamp(t / duration, 0.0, 1.0)
  }

  lemma ProgressMonotone(t1: real, t2: real, duration: real)
    requires duration > 0.0 && t1 <= t2
    ensures Progress(t1, duration) <= Progress(t2, duration)
  {
    assert t1 / duration <= t2 / duration by {
      assert t2 / duration - t1 / duration == (t2 - t1) / duration;
    }
  }

  /** The code output at progress k: `int(round(start + (end - start) * k))`. */
  function RampCode(startCode: int, endCode: int, k: real): int
  {
    PyRound(Lerp(startCode as real, endCode as real, k))
  }

  function Min(a: int, b: int): int { if a <= b then a else b }
  function Max(a: int, b: int): int { if a <= b then b else a }

  /** Every code a ramp outputs lies between its start and end codes, and the two
      ends of the progress interval give exactly the start and end codes. */
  lemma RampCodeBetween(startCode: int, endCode: int, k: real)
    requires 0.0 <= k <= 1.0
    ensures Min(startCode, endCode) <= RampCode(startCode, endCode, k) <= Max(startCode, endCode)
    ensures k == 0.0 ==> RampCode(startCode, endCode, k) == startCode
    ensures k == 1.0 ==> RampCode(startCode, endCode, k) == endCode
  {
    var lo, hi := Min(startCode, endCode), Max(startCode, endCode);
    var x := Lerp(startCode as real, endCode as real, k);
    LerpBetween(startCode as real, endCode as real, k);
    assert RampCode(startCode, endCode, k) == PyRound(x);
    PyRoundMonotone(lo as real, x);
    PyRoundMonotone(x, hi as real);
    PyRoundOfInt(lo);
    PyRoundOfInt(hi);
  }

  function Lerp(a: real, b: real, k: real): real
  {
    a + (b - a) * k
  }

  lemma LerpBetween(a: real, b: real, k: real)
    requires 0.0 <= k <= 1.0
    ensures a <= b ==> a <= Lerp(a, b, k) <= b
    ensures b <= a ==> b <= Lerp(a, b, k) <= a
    ensures k == 0.0 ==> Lerp(a, b, k) == a
    ensures k == 1.0 ==> Lerp(a, b, k) == b
  {
    var span := b - a;
    assert b - Lerp(a, b, k) == span * (1.0 - k);
    assert Lerp(a, b, k) - a == span * k;
    if a <= b {
      MulNonNegative(span, k);
      MulNonNegative(span, 1.0 - k);
    } else {
      MulNonNegative(-span, k);
      MulNonNegative(-span, 1.0 - k);
    }
  }

  lemma MulNonNegative(a: real, b: real)
    requires a >= 0.0 && b >= 0.0
    ensures a * b >= 0.0
  {
  }

  /** On a rising ramp the output never goes back down as progress grows. */
  lemma RampCodeMonotone(startCode: int, endCode: int, k1: real, k2: real)
    requires startCode <= endCode && k1 <= k2
    ensures RampCode(startCode, endCode, k1) <= RampCode(startCode, endCode, k2)
  {
    var a, b := startCode as real, endCode as real;
    assert Lerp(a, b, k2) - Lerp(a, b, k1) == (b - a) * (k2 - k1);
    MulNonNegative(b - a, k2 - k1);
    assert Lerp(a, b, k1) <= Lerp(a, b, k2);
    assert RampCode(startCode, endCode, k1) == PyRound(Lerp(a, b, k1));
    assert RampCode(startCode, endCode, k2) == PyRound(Lerp(a, b, k2));
    PyRoundMonotone(Lerp(a, b, k1), Lerp(a, b, k2));
  }

  /** On a falling ramp the output never goes back up as progress grows. */
  lemma RampCodeAntitone(startCode: int, endCode: int, k1: real, k2: real)
    requires startCode >= endCode && k1 <= k2
    ensures RampCode(startCode, endCode, k1) >= RampCode(startCode, endCode, k2)
  {
    var a, b := startCode as real, endCode as real;
    assert Lerp(a, b, k1) - Lerp(a, b, k2) == (a - b) * (k2 - k1);
    MulNonNegative(a - b, k2 - k1);
    assert Lerp(a, b, k2) <= Lerp(a, b, k1);
    assert RampCode(startCode, endCode, k1) == PyRound(Lerp(a, b, k1));
    assert RampCode(startCode, endCode, k2) == PyRound(Lerp(a, b, k2));
    PyRoundMonotone(Lerp(a, b, k2), Lerp(a, b, k1));
  }

  /** What one `update(dt)` call returns and leaves behind. */
  datatype RampStep = RampStep(next: RampState, code: int, done: bool)

  /** `Ramp.update(dt)` on the ramp state r. */
  function Step(r: RampState, dt: real): (s: RampStep)
    requires RampValid(r)
    ensures RampValid(s.next)
    ensures !r.active ==> s == RampStep(r, r.endCode, false)
    ensures s.done <==> r.active && r.t + dt >= r.duration
    ensures s.done ==> !s.next.active && s.code == r.endCode
    ensures r.active ==> s.next.active == !s.done && s.next.t == r.t + dt
    ensures Min(r.startCode, r.endCode) <= s.code <= Max(r.startCode, r.endCode)
    ensures s.next.startCode == r.startCode && s.next.endCode == r.endCode && s.next.duration == r.duration
  {
    if !r.active then
      RampStep(r, r.endCode, false)
    else
      var t := r.t + dt;
      var k := Progress(t, r.duration);
      var code := RampCode(r.startCode, r.endCode, k);
      var done := k >= 1.0;
      RampCodeBetween(r.startCode, r.endCode, k);
      RampStep(r.(t := t, active := !done), code, done)
  }

  /** Successive `update` calls with the time steps dts, and the steps they produce. */
  function Run(r: RampState, dts: seq<real>): (steps: seq<RampStep>)
    requires RampValid(r)
    ensures |steps| == |dts|
    decreases |dts|
  {
    if dts == [] then []
    else
      var s := Step(r, dts[0]);
      [s] + Run(s.next, dts[1..])
  }

  function Sum(xs: seq<real>): real
    decreases |xs|
  {
    if xs == [] then 0.0 else xs[0] + Sum(xs[1..])
  }

  function CountDone(steps: seq<RampStep>): nat
    decreases |steps|
  {
    if steps == [] then 0 else (if steps[0].done then 1 else 0) + CountDone(steps[1..])
  }

  /** Completion is reported exactly once: fed non-negative time steps, an active ramp
      reports `done` once if the steps add up to the remaining time and never otherwise;
      an inactive one never does. */
  lemma {:induction false} CompletionReportedOnce(r: RampState, dts: seq<real>)
    requires RampValid(r)
    requires forall i :: 0 <= i < |dts| ==> dts[i] >= 0.0
    ensures CountDone(Run(r, dts)) == (if r.active && r.t + Sum(dts) >= r.duration then 1 else 0)
    decreases |dts|
  {
    if dts != [] {
      var s := Step(r, dts[0]);
      var rest := Run(s.next, dts[1..]);
      assert Run(r, dts) == [s] + rest;
      assert ([s] + rest)[1..] == rest;
      assert CountDone(Run(r, dts)) == (if s.done then 1 else 0) + CountDone(rest);
      assert Sum(dts) == dts[0] + Sum(dts[1..]);
      CompletionReportedOnce(s.next, dts[1..]);
      SumNonNegative(dts[1..]);
    }
  }

  lemma {:induction false} SumNonNegative(xs: seq<real>)
    requires forall i :: 0 <= i < |xs| ==> xs[i] >= 0.0
    ensures Sum(xs) >= 0.0
    decreases |xs|
  {
    if xs != [] {
      SumNonNegative(xs[1..]);
    }
  }

  /** The object holding one ramp; GateSystem owns exactly one. */
  class Ramp {
    var active: bool
    var startCode: int
    var endCode: int
    var duration: real
    var t: real

    function View(): RampState
      reads this
    {
      RampState(active, startCode, endCode, duration, t)
    }

    ghost predicate Valid()
      reads this
    {
      RampValid(View())
    }

    constructor ()
      ensures View() == NewRamp()
    {
      active := false;
      startCode := 0;
      endCode := 0;
      duration := 0.0;
      t := 0.0;
    }

    method Start(currentCode: int, targetCode: int, duration: real)
      modifies this
      ensures View() == Started(currentCode, targetCode, duration)
    {
      active := true;
      startCode := currentCode;
      endCode := targetCode;
      this.duration := if duration < MIN_DURATION then MIN_DURATION else duration;
      t := 0.0;
    }

    method Update(dt: real) returns (code: int, done: bool)
      requires Valid()
      modifies this
      ensures Valid()
      ensures RampStep(View(), code, done) == Step(old(View()), dt)
    {
      if !active {
        return endCode, false;
      }
      t := t + dt;
      var k := Progress(t, duration);
      code := RampCode(startCode, endCode, k);
      done := k >= 1.0;
      if done {
        active := false;
      }
    }
  }
}
