/** Behaviour of the gate controller of srv.py, proved on the functions of GateSpec:
    the priority of the protective rules, the slow-mode hysteresis, the one-shot
    deceleration at the first limit switch, the latched emergency stop, the plant
    moving only when driven, and the bit layouts of the two ports. */
module GateProperties {
  import opened Quantizer
  import opened RampCtl
  import opened GateSpec

  /** The decision cycle as seen from a moving gate with no obstacle and a stress below
      the slow-mode threshold, outside the slow-mode exit: only the limit switches act. */
  predicate Calm(v: GateView) {
    && Moving(v.state) && !v.uz1 && !v.uz2 && v.stress < TH_70
    && !(v.slowMode30 && v.stress < TH_55)
  }

  /** An obstacle seen by either ultrasonic sensor stops a moving gate whatever the
      stress and the limit switches say: latched STOPPED, no direction, ramp to zero. */
  lemma ObstacleStops(v: GateView)
    requires Moving(v.state) && (v.uz1 || v.uz2)
    ensures var r := ControlStep(v);
      r.state == Stopped && r.direction == 0 && !r.slowMode30
      && r.targetCode == CODE_ZERO && r.ramp.active
  {
  }

  /** Without an obstacle, a stress of 95 or more stops a moving gate the same way,
      and a stress below 95 never does. */
  lemma OverstressStops(v: GateView)
    requires Moving(v.state) && !v.uz1 && !v.uz2
    ensures ControlStep(v).state == Stopped <==> v.stress >= TH_95
    ensures v.stress >= TH_95 ==> ControlStep(v).targetCode == CODE_ZERO && ControlStep(v).direction == 0
  {
    var w := v.(zpAdcPulse := true, gtFlag := true);
    if v.stress < TH_95 {
      assert Decide(w).state == w.state by {
        NoEmergencyKeepsMode(w);
      }
    }
  }

  /** Below the emergency threshold the decision rules never change the mode. */
  lemma NoEmergencyKeepsMode(w: GateView)
    requires Moving(w.state) && !w.uz1 && !w.uz2 && w.stress < TH_95
    ensures Decide(w).state == w.state
  {
    if w.stress >= TH_70 {
      if !w.slowMode30 {
        assert Decide(w) == EnterSlowMode(w);
      }
    } else if w.slowMode30 && w.stress < TH_55 {
      assert Decide(w) == LeaveSlowMode(w);
    } else {
      assert Decide(w) == LimitRules(w);
    }
  }

  /** Stress between 70 and 95 puts a moving gate into slow mode, decelerating to the
      slow code over the deceleration time, without changing its direction; once in
      slow mode further cycles with such stress change nothing but the pulses. */
  lemma SlowModeEntry(v: GateView)
    requires Moving(v.state) && !v.uz1 && !v.uz2 && TH_70 <= v.stress < TH_95
    ensures var r := ControlStep(v);
      r.slowMode30 && r.state == v.state && r.direction == v.direction
    ensures var r := ControlStep(v);
      !v.slowMode30 ==> r.targetCode == CODE_SLOW && r.ramp.active
                        && (v.targetCode != CODE_SLOW ==> r.ramp == Started(v.dacCode, CODE_SLOW, RAMP_DOWN_SEC))
    ensures v.slowMode30 ==> ControlStep(v) == v.(zpAdcPulse := true, gtFlag := true)
  {
    var w := v.(zpAdcPulse := true, gtFlag := true);
    assert ControlStep(v) == Decide(w);
    if !v.slowMode30 {
      assert Decide(w) == EnterSlowMode(w);
      var s := w.(slowMode30 := true);
      assert EnterSlowMode(w) == StartRamp(s, CODE_SLOW, RAMP_DOWN_SEC);
    } else {
      assert Decide(w) == w;
    }
  }

  /** Slow mode ends only when the stress falls below 55; the gate then ramps back up
      to the nominal code of its position: half speed past the first limit switch of
      its direction, full speed otherwise. */
  lemma SlowModeExit(v: GateView)
    requires Moving(v.state) && !v.uz1 && !v.uz2 && v.slowMode30 && v.stress < TH_55
    ensures var r := ControlStep(v);
      && !r.slowMode30 && r.state == v.state && r.ramp.active
      && r.targetCode == NominalTargetCode(v)
      && (r.targetCode == CODE_HALF || r.targetCode == CODE_NOM)
  {
    var w := v.(zpAdcPulse := true, gtFlag := true, slowMode30 := false);
    assert NominalTargetCode(w) == NominalTargetCode(v);
  }

  /** Hysteresis: in slow mode a stress from 55 up to 70 keeps the slow mode; unless the
      second limit switch of the direction of travel is reached, the cycle changes
      nothing but the pulses. */
  lemma SlowModeHysteresis(v: GateView)
    requires Consistent(v) && Moving(v.state) && !v.uz1 && !v.uz2
    requires v.slowMode30 && TH_55 <= v.stress < TH_70
    requires v.state == Opening ==> !v.kvO2
    requires v.state == Closing ==> !v.kvZ2
    ensures ControlStep(v) == v.(zpAdcPulse := true, gtFlag := true)
  {
  }

  /** The scenario of a stress rising to 72, falling to 60, then to 50 while the gate
      opens far from its limit switches: slow mode starts at 72, holds at 60 and ends
      at 50 with a ramp back to the nominal code. */
  lemma HysteresisScenario(v: GateView)
    requires Consistent(v) && v.state == Opening && !v.uz1 && !v.uz2 && !v.slowMode30
    requires !v.kvO1 && !v.kvO2
    ensures var r1 := ControlStep(v.(stress := 72.0));
      var r2 := ControlStep(r1.(stress := 60.0));
      var r3 := ControlStep(r2.(stress := 50.0));
      && r1.slowMode30 && r1.targetCode == CODE_SLOW
      && r2.slowMode30 && r2.targetCode == CODE_SLOW
      && !r3.slowMode30 && r3.targetCode == CODE_NOM && r3.state == Opening
  {
    var r1 := ControlStep(v.(stress := 72.0));
    SlowModeEntry(v.(stress := 72.0));
    assert r1.kvO1 == v.kvO1 && r1.kvO2 == v.kvO2;
    var r2 := ControlStep(r1.(stress := 60.0));
    assert r2 == r1.(stress := 60.0, zpAdcPulse := true, gtFlag := true);
    SlowModeExit(r2.(stress := 50.0));
  }

  /** With no protective rule acting, the second limit switch of the direction of
      travel ends the motion: no direction, ramp to zero, slow mode cleared; the mode
      itself stays until `update` finds the drive wound down. */
  lemma SecondLimitStops(v: GateView)
    requires Calm(v)
    requires (v.state == Opening && v.kvO2) || (v.state == Closing && v.kvZ2)
    ensures var r := ControlStep(v);
      r.direction == 0 && r.targetCode == CODE_ZERO && r.ramp.active && r.state == v.state
      && !r.slowMode30
  {
  }

  /** With no protective rule acting and the second switch not reached, the first limit
      switch decelerates a gate driven above half speed to half speed, and only once:
      the next cycle with the same readings changes nothing. */
  lemma FirstLimitDeceleratesOnce(v: GateView)
    requires Calm(v) && !v.slowMode30 && v.targetCode > CODE_HALF
    requires (v.state == Opening && v.kvO1 && !v.kvO2) || (v.state == Closing && v.kvZ1 && !v.kvZ2)
    ensures var r := ControlStep(v);
      && r.targetCode == CODE_HALF && r.ramp.active && r.state == v.state
      && r.direction == v.direction
      && ControlStep(r) == r
  {
    var r := ControlStep(v);
    assert r == StartRamp(v.(zpAdcPulse := true, gtFlag := true), CODE_HALF, RAMP_DOWN_SEC);
    assert Calm(r);
  }

  /** A gate in slow mode ignores the first limit switch. */
  lemma SlowModeIgnoresFirstLimit(v: GateView)
    requires Calm(v) && v.slowMode30
    requires (v.state == Opening && !v.kvO2) || (v.state == Closing && !v.kvZ2)
    ensures ControlStep(v) == v.(zpAdcPulse := true, gtFlag := true)
  {
  }

  /** An IDLE or STOPPED gate only marks the ADC sample in a decision cycle. */
  lemma RestOnlyPulses(v: GateView)
    requires !Moving(v.state)
    ensures ControlStep(v) == v.(zpAdcPulse := true, gtFlag := true)
  {
  }

  /** With the readings unchanged, repeated decision cycles reach a fixed point after at
      most two: every rule acts once. (The second cycle is needed when leaving slow mode
      at the second limit switch, which the stop rule then handles.) */
  lemma ControlStepSettles(v: GateView)
    ensures ControlStep(ControlStep(ControlStep(v))) == ControlStep(ControlStep(v))
  {
    var r1 := ControlStep(v);
    if Moving(r1.state) {
      SettlesAfterDecision(v);
    } else {
      assert ControlStep(r1) == r1;
    }
  }

  /** The case analysis behind ControlStepSettles, for a gate still moving after the
      first cycle. */
  lemma SettlesAfterDecision(v: GateView)
    requires Moving(ControlStep(v).state)
    ensures ControlStep(ControlStep(ControlStep(v))) == ControlStep(ControlStep(v))
  {
    var w := v.(zpAdcPulse := true, gtFlag := true);
    var r1 := ControlStep(v);
    assert r1 == Decide(w);
    if !(w.uz1 || w.uz2 || w.stress >= TH_95) {
      if w.stress >= TH_70 {
        SlowModeSettles(w);
      } else if w.slowMode30 && w.stress < TH_55 {
        SlowModeExitSettles(w);
      } else {
        assert r1 == LimitRules(w);
        LimitRulesSettle(w);
      }
    }
  }

  /** Slow mode, once entered, is a fixed point of the decision cycle. */
  lemma SlowModeSettles(w: GateView)
    requires Moving(w.state) && !w.uz1 && !w.uz2 && TH_70 <= w.stress < TH_95
    requires w.zpAdcPulse && w.gtFlag
    ensures ControlStep(Decide(w)) == Decide(w)
  {
    var r := Decide(w);
    assert r.slowMode30 && Moving(r.state);
    assert r.(zpAdcPulse := true, gtFlag := true) == r;
  }

  /** After leaving slow mode only the limit-switch rules can still act, once. */
  lemma SlowModeExitSettles(w: GateView)
    requires Moving(w.state) && !w.uz1 && !w.uz2 && w.slowMode30 && w.stress < TH_55
    requires w.zpAdcPulse && w.gtFlag
    ensures ControlStep(ControlStep(Decide(w))) == ControlStep(Decide(w))
  {
    var r := Decide(w);
    assert r == LeaveSlowMode(w);
    assert Calm(r) && r.zpAdcPulse && r.gtFlag;
    assert r.(zpAdcPulse := true, gtFlag := true) == r;
    assert ControlStep(r) == LimitRules(r);
    LimitRulesSettle(r);
  }

  /** Once the limit-switch rules have acted, a further cycle with the same readings
      changes nothing. */
  lemma LimitRulesSettle(w: GateView)
    requires Calm(w) && w.zpAdcPulse && w.gtFlag
    ensures ControlStep(LimitRules(w)) == LimitRules(w)
  {
    var r := LimitRules(w);
    assert Calm(r) && r.zpAdcPulse && r.gtFlag;
    assert r.(zpAdcPulse := true, gtFlag := true) == r;
    assert ControlStep(r) == Decide(r);
    assert Decide(r) == LimitRules(r);
    if (w.state == Opening && w.kvO2) || (w.state == Closing && w.kvZ2) {
      assert r == NormalStopToZero(w);
      assert LimitRules(r) == NormalStopToZero(r);
      assert r.(direction := 0, slowMode30 := false) == r;
    } else if !w.slowMode30 && w.targetCode > CODE_HALF
              && ((w.state == Opening && w.kvO1) || (w.state == Closing && w.kvZ1)) {
      assert r == StartRamp(w, CODE_HALF, RAMP_DOWN_SEC);
      assert LimitRules(r) == r;
    } else {
      assert r == w;
    }
  }

  /** A press of OPEN while the gate is moving only latches the button. */
  lemma PressOpenWhileMoving(v: GateView)
    requires Moving(v.state)
    ensures PressOpen(v) == v.(ko := true, kz := false)
  {
  }

  /** A press of CLOSE while the gate is moving only latches the button. */
  lemma PressCloseWhileMoving(v: GateView)
    requires Moving(v.state)
    ensures PressClose(v) == v.(kz := true, ko := false)
  {
  }

  /** A press of OPEN from rest starts opening towards the nominal code of the position
      with the acceleration time; a running ramp towards the same code is kept. */
  lemma PressOpenFromRest(v: GateView)
    requires v.state == Idle || v.state == Stopped
    ensures var r := PressOpen(v);
      && r.state == Opening && r.direction == 1 && !r.slowMode30 && r.ko && !r.kz
      && r.targetCode == (if v.kvO1 then CODE_HALF else CODE_NOM) && r.ramp.active
      && (r.targetCode != v.targetCode || !v.ramp.active ==> r.ramp == Started(v.dacCode, r.targetCode, RAMP_UP_SEC))
  {
  }

  /** A press of CLOSE from rest starts closing the same way. */
  lemma PressCloseFromRest(v: GateView)
    requires v.state == Idle || v.state == Stopped
    ensures var r := PressClose(v);
      && r.state == Closing && r.direction == -1 && !r.slowMode30 && r.kz && !r.ko
      && r.targetCode == (if v.kvZ1 then CODE_HALF else CODE_NOM) && r.ramp.active
      && (r.targetCode != v.targetCode || !v.ramp.active ==> r.ramp == Started(v.dacCode, r.targetCode, RAMP_UP_SEC))
  {
  }

  /** `start_ramp` twice with the same target is `start_ramp` once. */
  lemma StartRampIdempotent(v: GateView, code: int, d1: real, d2: real)
    ensures StartRamp(StartRamp(v, code, d1), code, d2) == StartRamp(v, code, d1)
  {
  }

  /** A gate at rest (IDLE or STOPPED) keeps its mode through any number of sampling
      cycles. */
  lemma {:induction false} DrainKeepsRest(v: GateView)
    requires !Moving(v.state)
    ensures Drain(v).state == v.state
    decreases (4.0 * v.sampleTimer).Floor
  {
    if v.sampleTimer >= SAMPLE_PERIOD {
      var w := v.(sampleTimer := v.sampleTimer - SAMPLE_PERIOD);
      RestOnlyPulses(w);
      DrainKeepsRest(ControlStep(w));
    }
  }

  /** The emergency stop is latched: `update` never leaves STOPPED; only a press does. */
  lemma StoppedIsLatched(v: GateView, dt: real)
    requires RampValid(v.ramp) && v.state == Stopped
    ensures Update(v, dt).state == Stopped
  {
    AdvanceKeepsMode(v, dt);
    var d := Drain(Advance(v, dt));
    DrainKeepsRest(Advance(v, dt));
    assert Settle(d).state == Stopped;
  }

  /** An IDLE gate stays IDLE through `update` until a button is pressed. */
  lemma IdleStaysIdle(v: GateView, dt: real)
    requires RampValid(v.ramp) && v.state == Idle
    ensures Update(v, dt).state == Idle
  {
    AdvanceKeepsMode(v, dt);
    DrainKeepsRest(Advance(v, dt));
  }

  /** The end of `update`: after the sampling loop has left the state w, a gate that is
      not STOPPED becomes (or stays) IDLE exactly when it has no direction, no target
      code and no running ramp, and a gate wound down to zero, IDLE or STOPPED, has
      both buttons released. */
  lemma IdlePromotion(v: GateView, dt: real)
    requires RampValid(v.ramp)
    ensures var w := Drain(Advance(v, dt));
      && (w.state != Stopped ==>
            (Update(v, dt).state == Idle <==>
               w.state == Idle || (w.direction == 0 && w.targetCode == 0 && !w.ramp.active)))
      && (w.targetCode == 0 && !w.ramp.active && (w.direction == 0 || w.state == Stopped) ==>
            !Update(v, dt).ko && !Update(v, dt).kz)
  {
    var w := Drain(Advance(v, dt));
    assert Update(v, dt) == Settle(w);
  }

  /** The first part of `update` keeps the mode, and the position of a gate at rest. */
  lemma AdvanceKeepsMode(v: GateView, dt: real)
    requires RampValid(v.ramp)
    ensures Advance(v, dt).state == v.state
    ensures !Moving(v.state) ==> Advance(v, dt).position == v.position
  {
    var a := AdvanceRamp(ClearPulses(v), dt);
    assert Advance(v, dt) == Accumulate(Move(a, dt), dt);
  }

  /** A decision cycle never moves the gate. */
  lemma ControlStepKeepsPosition(v: GateView)
    ensures ControlStep(v).position == v.position
  {
    var w := v.(zpAdcPulse := true, gtFlag := true);
    if Moving(w.state) {
      assert ControlStep(v) == Decide(w);
      if w.uz1 || w.uz2 || w.stress >= TH_95 {
        assert Decide(w) == EmergencyStop(w);
      } else if w.stress >= TH_70 {
        if !w.slowMode30 {
          assert Decide(w) == EnterSlowMode(w);
        }
      } else if w.slowMode30 && w.stress < TH_55 {
        assert Decide(w) == LeaveSlowMode(w);
      } else {
        assert Decide(w) == LimitRules(w);
      }
    }
  }

  lemma {:induction false} DrainKeepsPosition(v: GateView)
    ensures Drain(v).position == v.position
    decreases (4.0 * v.sampleTimer).Floor
  {
    if v.sampleTimer >= SAMPLE_PERIOD {
      var w := v.(sampleTimer := v.sampleTimer - SAMPLE_PERIOD);
      ControlStepKeepsPosition(w);
      DrainKeepsPosition(ControlStep(w));
    }
  }

  /** The gate moves only while opening or closing: an IDLE or STOPPED gate keeps its
      position through `update`. */
  lemma RestingGateStays(v: GateView, dt: real)
    requires RampValid(v.ramp) && !Moving(v.state)
    ensures Update(v, dt).position == v.position
  {
    var a := Advance(v, dt);
    AdvanceKeepsMode(v, dt);
    DrainKeepsPosition(a);
    var d := Drain(a);
    assert Settle(d).position == d.position;
  }

  /** An opening gate never moves towards closed, and a closing one never towards open,
      for a non-negative frame time and drive code. */
  lemma MotionFollowsDirection(v: GateView, dt: real)
    requires Moving(v.state) && 0.0 <= v.position <= 1.0 && dt >= 0.0 && v.dacCode >= 0
    ensures v.direction == 1 ==> Integrate(v, dt) >= v.position
    ensures v.direction == -1 ==> Integrate(v, dt) <= v.position
  {
    var frac := SpeedFraction(v.dacCode);
    var speed := BASE_SPEED * frac;
    MulNonNegative(speed, dt);
    if v.direction == 1 {
      assert v.direction as real * speed * dt == speed * dt;
    } else if v.direction == -1 {
      assert v.direction as real * speed * dt == -(speed * dt);
    }
  }

  /** Port 300h round trip: decoding the packed word gives back every field. */
  lemma InputPortRoundTrip(p: InputPort)
    ensures DecodeInputPort(EncodeInputPort(p)) == p
  {
  }

  /** Every 16-bit word is the packing of its decoding, so the layout wastes no bit. */
  lemma InputPortDecodeEncode(w: bv16)
    ensures EncodeInputPort(DecodeInputPort(w)) == w
  {
  }

  /** Port 301h round trip: every field comes back. */
  lemma OutputPortRoundTrip(p: OutputPort)
    ensures DecodeOutputPort(EncodeOutputPort(p)) == p
  {
  }

  /** A 16-bit word is the packing of a port 301h value exactly when its unused bits
      8-13 are clear. */
  lemma OutputPortDecodeEncode(w: bv16)
    ensures EncodeOutputPort(DecodeOutputPort(w)) == w <==> w & 0x3F00 == 0
  {
  }
}
