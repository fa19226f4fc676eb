/** Class `GateSystem` of srv.py: the controller object, whose methods update its
    fields in place. Every method is proved to leave the object in the state the
    matching function of GateSpec computes from the old state. */
module Gate {
  import opened Quantizer
  import opened RampCtl
  import opened GateSpec
  import opened GateInvariant

  class GateSystem {
    var state: Mode
    var direction: int
    var position: real
    var uz1: bool
    var uz2: bool
    var stress: real
    var ko: bool
    var kz: bool
    var kvO1: bool
    var kvO2: bool
    var kvZ1: bool
    var kvZ2: bool
    var slowMode30: bool
    var dacCode: int
    var targetCode: int
    const ramp: Ramp
    var sampleTimer: real
    var zpAdcPulse: bool
    var zpDacPulse: bool
    var gtFlag: bool

    /** The whole state of the object, its ramp included. */
    function View(): GateView
      reads this, ramp
    {
      GateView(state, direction, position, uz1, uz2, stress, ko, kz, kvO1, kvO2, kvZ1, kvZ2,
               slowMode30, dacCode, targetCode, ramp.View(), sampleTimer,
               zpAdcPulse, zpDacPulse, gtFlag)
    }

    ghost predicate Valid()
      reads this, ramp
    {
      Inv(View())
    }

    constructor ()
      ensures View() == PowerOn() && Valid()
      ensures fresh(ramp)
    {
      state := Idle;
      direction := 0;
      position := 0.0;
      uz1, uz2 := false, false;
      stress := 0.0;
      ko, kz := false, false;
      kvO1, kvO2 := false, false;
      kvZ1, kvZ2 := true, true;
      slowMode30 := false;
      dacCode := 0;
      targetCode := 0;
      ramp := new Ramp();
      sampleTimer := 0.0;
      zpAdcPulse, zpDacPulse := false, false;
      gtFlag := true;
    }

    method ResetSensors()
      requires Valid()
      modifies this
      ensures View() == GateSpec.ResetSensors(old(View()))
      ensures Valid()
    {
      ResetSensorsKeepsInv(View());
      uz1, uz2, stress := false, false, 0.0;
    }

    method PressOpen()
      requires Valid()
      modifies this, ramp
      ensures View() == GateSpec.PressOpen(old(View()))
      ensures Valid()
    {
      ghost var v := View();
      if state == Idle || state == Stopped {
        LatchButtons(true);
        SetMotion(Opening, 1);
        var code := NominalTargetCode();
        StartRamp(code, RAMP_UP_SEC);
      } else {
        LatchButtons(true);
      }
      PressOpenKeepsInv(v);
    }

    method PressClose()
      requires Valid()
      modifies this, ramp
      ensures View() == GateSpec.PressClose(old(View()))
      ensures Valid()
    {
      ghost var v := View();
      if state == Idle || state == Stopped {
        LatchButtons(false);
        SetMotion(Closing, -1);
        var code := NominalTargetCode();
        StartRamp(code, RAMP_UP_SEC);
      } else {
        LatchButtons(false);
      }
      PressCloseKeepsInv(v);
    }

    /** The first two statements of `press_open` (open) and `press_close` (not open):
        the pressed button is latched, the other one released. */
    method LatchButtons(open: bool)
      modifies this
      ensures View() == old(View()).(ko := open, kz := !open)
    {
      ko, kz := open, !open;
    }

    /** The mode, the direction and the cleared slow-mode flag that `press_open`,
        `press_close`, `emergency_stop` and `normal_stop_to_zero` set before starting
        a ramp. */
    method SetMotion(mode: Mode, dir: int)
      modifies this
      ensures View() == old(View()).(state := mode, direction := dir, slowMode30 := false)
    {
      state, direction, slowMode30 := mode, dir, false;
    }

    /** Also called midway through other operations, where the invariant is about to be
        restored; from a valid state outside IDLE (and towards the slow code in slow
        mode) it keeps the invariant. */
    method StartRamp(code: int, duration: real)
      modifies this, ramp
      ensures View() == GateSpec.StartRamp(old(View()), code, duration)
      ensures old(Valid()) && old(state) != Idle && (old(slowMode30) ==> ClampInt(code, 0, DAC_MAX) == CODE_SLOW)
        ==> Valid()
    {
      var tc := ClampInt(code, 0, DAC_MAX);
      if tc == targetCode && ramp.active {
        return;
      }
      ghost var v := View();
      targetCode := tc;
      ramp.Start(dacCode, targetCode, duration);
      zpDacPulse := true;
      assert View() == GateSpec.StartRamp(v, code, duration);
      assert Inv(v) && v.state != Idle && (v.slowMode30 ==> tc == CODE_SLOW) ==> Valid() by {
        if Inv(v) && v.state != Idle && (v.slowMode30 ==> tc == CODE_SLOW) {
          StartRampKeepsConsistent(v, code, duration);
        }
      }
    }

    method NominalTargetCode() returns (code: int)
      ensures code == GateSpec.NominalTargetCode(View())
    {
      if state == Opening {
        return if kvO1 then CODE_HALF else CODE_NOM;
      }
      if state == Closing {
        return if kvZ1 then CODE_HALF else CODE_NOM;
      }
      return CODE_ZERO;
    }

    /** Called by `update` right after the gate has moved, when the limit switches do
        not match the position yet; from a valid state it changes nothing. */
    method UpdateLimitsFromPosition()
      modifies this
      ensures View() == UpdateLimits(old(View()))
      ensures old(Valid()) ==> Valid()
    {
      var p := position;
      var o1, o2, z1, z2 := p >= OPEN1_POS, p >= OPEN2_POS, p <= CLOSE1_POS, p <= CLOSE2_POS;
      kvO1, kvO2, kvZ1, kvZ2 := o1, o2, z1, z2;
    }

    method BuildPort300(adcCode: int) returns (v: bv16)
      ensures v == EncodeInputPort(InputPortOf(View(), adcCode))
    {
      var usOr := uz1 || uz2;
      v := 0;
      v := v | (LowByte(adcCode) as bv16);
      v := v | (BitOf(kvO1) << 8);
      v := v | (BitOf(kvO2) << 9);
      v := v | (BitOf(kvZ1) << 10);
      v := v | (BitOf(kvZ2) << 11);
      v := v | (BitOf(usOr) << 12);
      v := v | (BitOf(ko) << 13);
      v := v | (BitOf(kz) << 14);
      v := v | (BitOf(gtFlag) << 15);
    }

    method BuildPort301() returns (v: bv16)
      ensures v == EncodeOutputPort(OutputPortOf(View()))
    {
      v := 0;
      v := v | (LowByte(dacCode) as bv16);
      v := v | (BitOf(zpDacPulse) << 14);
      v := v | (BitOf(zpAdcPulse) << 15);
    }

    method EmergencyStop()
      modifies this, ramp
      ensures View() == GateSpec.EmergencyStop(old(View()))
      ensures old(Valid()) ==> Valid()
    {
      ghost var v := View();
      if Inv(v) {
        EmergencyStopKeepsConsistent(v);
      }
      SetMotion(Stopped, 0);
      StartRamp(CODE_ZERO, RAMP_DOWN_SEC);
    }

    /** `normal_stop_to_zero` leaves the mode as it is: it is written back unchanged. */
    method NormalStopToZero()
      modifies this, ramp
      ensures View() == GateSpec.NormalStopToZero(old(View()))
      ensures old(Valid()) && Moving(old(state)) ==> Valid()
    {
      ghost var v := View();
      if Inv(v) && Moving(v.state) {
        NormalStopKeepsConsistent(v);
      }
      SetMotion(state, 0);
      StartRamp(CODE_ZERO, RAMP_DOWN_SEC);
    }

    method ControlStep() returns (adcCode: int)
      modifies this, ramp
      ensures View() == GateSpec.ControlStep(old(View()))
      ensures adcCode == StressAdcCode(old(View()))
      ensures old(Valid()) ==> Valid()
    {
      ghost var v := View();
      if Inv(v) {
        ControlStepKeepsConsistent(v);
      }
      MarkSampled();
      var stressU := TensoToVoltage(stress);
      adcCode := AdcCodeFromVoltage(stressU);
      if state == Opening || state == Closing {
        Decide();
      }
    }

    /** The rules of `control_step` for a moving gate, in their order of priority:
        obstacle, 95 % stress, 70 % stress, recovery below 55, limit switches. */
    method Decide()
      modifies this, ramp
      ensures View() == GateSpec.Decide(old(View()))
    {
      var usOr := uz1 || uz2;
      if usOr {
        EmergencyStop();
      } else if stress >= TH_95 {
        EmergencyStop();
      } else if stress >= TH_70 {
        if !slowMode30 {
          EnterSlowMode();
        }
      } else if slowMode30 && stress < TH_55 {
        LeaveSlowMode();
      } else {
        LimitRules();
      }
    }

    method EnterSlowMode()
      modifies this, ramp
      ensures View() == GateSpec.EnterSlowMode(old(View()))
    {
      SetSlowMode(true);
      StartRamp(CODE_SLOW, RAMP_DOWN_SEC);
    }

    method LeaveSlowMode()
      modifies this, ramp
      ensures View() == GateSpec.LeaveSlowMode(old(View()))
    {
      SetSlowMode(false);
      var nominal := NominalTargetCode();
      StartRamp(nominal, RAMP_UP_SEC);
    }

    /** The limit-switch rules: the second switch of the direction of travel stops the
        gate, the first one decelerates it to half speed unless that is already under
        way or slow mode holds. */
    method LimitRules()
      modifies this, ramp
      ensures View() == GateSpec.LimitRules(old(View()))
    {
      if state == Opening {
        if kvO2 {
          NormalStopToZero();
        } else if kvO1 && !slowMode30 && targetCode > CODE_HALF {
          StartRamp(CODE_HALF, RAMP_DOWN_SEC);
        }
      } else if state == Closing {
        if kvZ2 {
          NormalStopToZero();
        } else if kvZ1 && !slowMode30 && targetCode > CODE_HALF {
          StartRamp(CODE_HALF, RAMP_DOWN_SEC);
        }
      }
    }

    /** The first statements of `control_step`: the ADC has been sampled and is ready. */
    method MarkSampled()
      modifies this
      ensures View() == old(View()).(zpAdcPulse := true, gtFlag := true)
    {
      zpAdcPulse, gtFlag := true, true;
    }

    method SetSlowMode(on: bool)
      modifies this
      ensures View() == old(View()).(slowMode30 := on)
    {
      slowMode30 := on;
    }

    /** `update(dt)`; `dt` is the frame time, never negative. Returns the two port
        words, the ADC code of the present stress, the drive voltage, the sensor
        voltage and the combined obstacle flag. */
    method Update(dt: real) returns (port300: bv16, port301: bv16, adcCodeNow: int,
                                     uOut: real, stressU: real, usOr: bool)
      requires Valid() && dt >= 0.0
      modifies this, ramp
      ensures Valid() && View() == GateSpec.Update(old(View()), dt)
      ensures TickOutput(port300, port301, adcCodeNow, uOut, stressU, usOr) == UpdateOutput(old(View()), dt)
    {
      UpdateKeepsInv(View(), dt);
      AdvanceKeepsConsistent(View(), dt);
      ClearPulses();
      AdvanceRamp(dt);
      uOut := DacVoltageFromCode(dacCode);
      MoveGate(dt);
      UpdateLimitsFromPosition();
      AccumulateTime(dt);
      DrainSamples();
      Settle();
      stressU := TensoToVoltage(stress);
      adcCodeNow := AdcCodeFromVoltage(stressU);
      port300 := BuildPort300(adcCodeNow);
      port301 := BuildPort301();
      usOr := uz1 || uz2;
    }

    /** `update` first clears the pulses of the previous frame. */
    method ClearPulses()
      modifies this
      ensures View() == GateSpec.ClearPulses(old(View()))
    {
      zpAdcPulse, zpDacPulse := false, false;
    }

    /** `update` lets the ramp run, or holds the target code when no ramp runs. */
    method AdvanceRamp(dt: real)
      requires ramp.Valid()
      modifies this, ramp
      ensures View() == GateSpec.AdvanceRamp(old(View()), dt)
    {
      if ramp.active {
        var code, _ := ramp.Update(dt);
        SetDacCode(code);
      } else {
        SetDacCode(targetCode);
      }
    }

    method SetDacCode(code: int)
      modifies this
      ensures View() == old(View()).(dacCode := code)
    {
      dacCode := code;
    }

    /** `update` moves the gate at a speed proportional to the drive voltage while it
        is opening or closing with a direction; the kinematics is the function
        Integrate, whose result is stored. */
    method MoveGate(dt: real)
      modifies this
      ensures View() == old(View()).(position := Integrate(old(View()), dt))
    {
      position := Integrate(View(), dt);
    }

    method AccumulateTime(dt: real)
      modifies this
      ensures View() == Accumulate(old(View()), dt)
    {
      sampleTimer := sampleTimer + dt;
    }

    /** The sampling loop of `update`: one `control_step` per whole sample period. */
    method DrainSamples()
      modifies this, ramp
      ensures View() == Drain(old(View()))
    {
      ghost var start := View();
      while sampleTimer >= SAMPLE_PERIOD
        invariant Drain(View()) == Drain(start)
        decreases (4.0 * sampleTimer).Floor
      {
        SampleOnce();
      }
    }

    /** One pass of the sampling loop: one period is taken off the accumulator and
        `control_step` runs. */
    method SampleOnce()
      modifies this, ramp
      ensures View() == GateSpec.ControlStep(old(View()).(sampleTimer := old(sampleTimer) - SAMPLE_PERIOD))
    {
      ConsumeSample();
      var adcCode := ControlStep();
    }

    method ConsumeSample()
      modifies this
      ensures View() == old(View()).(sampleTimer := old(sampleTimer) - SAMPLE_PERIOD)
    {
      sampleTimer := sampleTimer - SAMPLE_PERIOD;
    }

    /** The last statements of `update`: the IDLE promotion and the button release. */
    method Settle()
      modifies this
      ensures View() == GateSpec.Settle(old(View()))
    {
      // the IDLE promotion never yields STOPPED, so the second test of the source
      // only ever applies to a state that was STOPPED already
      if state != Stopped {
        if direction == 0 && targetCode == 0 && !ramp.active {
          SetIdle();
        }
      } else if targetCode == 0 && !ramp.active {
        ReleaseButtons();
      }
    }

    method SetIdle()
      modifies this
      ensures View() == old(View()).(state := Idle, ko := false, kz := false)
    {
      state, ko, kz := Idle, false, false;
    }

    method ReleaseButtons()
      modifies this
      ensures View() == old(View()).(ko := false, kz := false)
    {
      ko, kz := false, false;
    }
  }
}
