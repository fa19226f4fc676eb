/** The object invariant of `GateSystem` (GateSpec.Inv) is established by the
    constructor and kept by every public operation. */
module GateInvariant {
  import opened Quantizer
  import opened RampCtl
  import opened GateSpec

  /** Starting a ramp from any state other than IDLE keeps the state consistent,
      provided slow mode, if on, is what the new target asks for. */
  lemma StartRampKeepsConsistent(v: GateView, targetCode: int, duration: real)
    requires Core(v) && v.state != Idle
    requires v.slowMode30 ==> Moving(v.state) && ClampInt(targetCode, 0, DAC_MAX) == CODE_SLOW
    ensures Consistent(StartRamp(v, targetCode, duration))
  {
    var tc := ClampInt(targetCode, 0, DAC_MAX);
    if !(tc == v.targetCode && v.ramp.active) {
      CoreWithNewRamp(v, tc, Started(v.dacCode, tc, duration));
    }
  }

  /** Replacing the target and the ramp by an 8-bit target and a valid ramp towards it
      that starts from an 8-bit code keeps Core, except in IDLE. */
  lemma CoreWithNewRamp(v: GateView, tc: int, ramp: RampState)
    requires Core(v) && v.state != Idle
    requires 0 <= tc <= DAC_MAX && RampValid(ramp) && ramp.endCode == tc && 0 <= ramp.startCode <= DAC_MAX
    ensures Core(v.(targetCode := tc, ramp := ramp, zpDacPulse := true))
  {
    assert LimitsMatchPosition(v.(targetCode := tc, ramp := ramp, zpDacPulse := true));
  }

  lemma ResetSensorsKeepsInv(v: GateView)
    requires Inv(v)
    ensures Inv(ResetSensors(v))
  {
    assert LimitsMatchPosition(ResetSensors(v));
  }

  lemma PressOpenKeepsInv(v: GateView)
    requires Inv(v)
    ensures Inv(PressOpen(v))
  {
    var w := v.(ko := true, kz := false);
    assert LimitsMatchPosition(w);
    if w.state == Idle || w.state == Stopped {
      var m := w.(state := Opening, direction := 1, slowMode30 := false);
      assert LimitsMatchPosition(m);
      StartRampKeepsConsistent(m, NominalTargetCode(m), RAMP_UP_SEC);
    }
  }

  lemma PressCloseKeepsInv(v: GateView)
    requires Inv(v)
    ensures Inv(PressClose(v))
  {
    var w := v.(kz := true, ko := false);
    assert LimitsMatchPosition(w);
    if w.state == Idle || w.state == Stopped {
      var m := w.(state := Closing, direction := -1, slowMode30 := false);
      assert LimitsMatchPosition(m);
      StartRampKeepsConsistent(m, NominalTargetCode(m), RAMP_UP_SEC);
    }
  }

  lemma EmergencyStopKeepsConsistent(v: GateView)
    requires Consistent(v)
    ensures Consistent(EmergencyStop(v))
  {
    var m := v.(state := Stopped, direction := 0, slowMode30 := false);
    assert LimitsMatchPosition(m);
    StartRampKeepsConsistent(m, CODE_ZERO, RAMP_DOWN_SEC);
  }

  lemma NormalStopKeepsConsistent(v: GateView)
    requires Consistent(v) && Moving(v.state)
    ensures Consistent(NormalStopToZero(v))
  {
    var m := v.(direction := 0, slowMode30 := false);
    assert LimitsMatchPosition(m);
    StartRampKeepsConsistent(m, CODE_ZERO, RAMP_DOWN_SEC);
  }

  lemma ControlStepKeepsConsistent(v: GateView)
    requires Consistent(v)
    ensures Consistent(ControlStep(v))
  {
    var w := v.(zpAdcPulse := true, gtFlag := true);
    assert LimitsMatchPosition(w);
    if Moving(w.state) {
      DecideKeepsConsistent(w);
    }
  }

  lemma DecideKeepsConsistent(w: GateView)
    requires Consistent(w) && Moving(w.state)
    ensures Consistent(Decide(w))
  {
    if w.uz1 || w.uz2 || w.stress >= TH_95 {
      EmergencyStopKeepsConsistent(w);
    } else if w.stress >= TH_70 {
      if !w.slowMode30 {
        var m := w.(slowMode30 := true);
        assert LimitsMatchPosition(m);
        StartRampKeepsConsistent(m, CODE_SLOW, RAMP_DOWN_SEC);
      }
    } else if w.slowMode30 && w.stress < TH_55 {
      var n := w.(slowMode30 := false);
      assert LimitsMatchPosition(n);
      StartRampKeepsConsistent(n, NominalTargetCode(n), RAMP_UP_SEC);
    } else {
      LimitRulesKeepConsistent(w);
    }
  }

  lemma LimitRulesKeepConsistent(w: GateView)
    requires Consistent(w) && Moving(w.state)
    ensures Consistent(LimitRules(w))
  {
    if (w.state == Opening && w.kvO2) || (w.state == Closing && w.kvZ2) {
      NormalStopKeepsConsistent(w);
    } else if !w.slowMode30 {
      StartRampKeepsConsistent(w, CODE_HALF, RAMP_DOWN_SEC);
    }
  }

  /** The ramp step of `update` keeps the drive codes within 8 bits. */
  lemma AdvanceRampKeepsConsistent(v: GateView, dt: real)
    requires Consistent(v)
    ensures Consistent(AdvanceRamp(v, dt))
  {
    if v.ramp.active {
      var s := Step(v.ramp, dt);
      var r := v.(dacCode := s.code, ramp := s.next);
      assert LimitsMatchPosition(r);
      assert Core(r);
      assert AdvanceRamp(v, dt) == r;
    } else {
      assert LimitsMatchPosition(v.(dacCode := v.targetCode));
    }
  }

  /** Moving the gate and refreshing the limit switches keeps the state consistent. */
  lemma MoveKeepsConsistent(w: GateView, dt: real)
    requires Consistent(w)
    ensures Consistent(Move(w, dt))
  {
    var p := Integrate(w, dt);
    assert 0.0 <= p <= 1.0;
    assert Move(w, dt) == w.(position := p, kvO1 := p >= OPEN1_POS, kvO2 := p >= OPEN2_POS,
                             kvZ1 := p <= CLOSE1_POS, kvZ2 := p <= CLOSE2_POS);
  }

  lemma AdvanceKeepsConsistent(v: GateView, dt: real)
    requires Inv(v) && dt >= 0.0
    ensures Consistent(Advance(v, dt))
  {
    ClearPulsesKeepsConsistent(v);
    AdvanceRampKeepsConsistent(ClearPulses(v), dt);
    MoveKeepsConsistent(AdvanceRamp(ClearPulses(v), dt), dt);
    AccumulateKeepsConsistent(Move(AdvanceRamp(ClearPulses(v), dt), dt), dt);
  }

  lemma ClearPulsesKeepsConsistent(v: GateView)
    requires Consistent(v)
    ensures Consistent(ClearPulses(v))
  {
    assert LimitsMatchPosition(ClearPulses(v));
  }

  lemma AccumulateKeepsConsistent(v: GateView, dt: real)
    requires Consistent(v) && dt >= 0.0
    ensures Consistent(Accumulate(v, dt))
  {
    TimerKeepsConsistent(v, v.sampleTimer + dt);
  }

  lemma TimerKeepsConsistent(v: GateView, t: real)
    requires Consistent(v) && t >= 0.0
    ensures Consistent(v.(sampleTimer := t))
  {
    assert LimitsMatchPosition(v.(sampleTimer := t));
  }

  lemma {:induction false} DrainKeepsInv(v: GateView)
    requires Consistent(v)
    ensures Inv(Drain(v))
    decreases (4.0 * v.sampleTimer).Floor
  {
    if v.sampleTimer >= SAMPLE_PERIOD {
      var w := v.(sampleTimer := v.sampleTimer - SAMPLE_PERIOD);
      TimerKeepsConsistent(v, v.sampleTimer - SAMPLE_PERIOD);
      ControlStepKeepsConsistent(w);
      DrainKeepsInv(ControlStep(w));
    }
  }

  lemma SettleKeepsInv(v: GateView)
    requires Inv(v)
    ensures Inv(Settle(v))
  {
    var w :=
      if v.state != Stopped && v.direction == 0 && v.targetCode == 0 && !v.ramp.active
      then v.(state := Idle, ko := false, kz := false)
      else v;
    assert LimitsMatchPosition(w);
    assert LimitsMatchPosition(w.(ko := false, kz := false));
  }

  lemma UpdateKeepsInv(v: GateView, dt: real)
    requires Inv(v) && dt >= 0.0
    ensures Inv(Update(v, dt))
  {
    AdvanceKeepsConsistent(v, dt);
    DrainKeepsInv(Advance(v, dt));
    SettleKeepsInv(Drain(Advance(v, dt)));
  }
}
