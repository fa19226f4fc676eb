/** The gate controller of srv.py as values: the whole state of a `GateSystem` object
    (controller, simulated plant, sensors, pulses and its ramp) as one datatype, and
    every operation of the class as a function from the old state to the new one.
    The class in gate.dfy is proved to follow these functions exactly; the properties
    of the controller are proved about them in gate_props.dfy. */
module GateSpec {
  import opened Quantizer
  import opened RampCtl

  /** Stress thresholds in kgf/mm^2: leave slow mode below 55, enter it at 70,
      emergency stop at 95. */
  const TH_55: real := 55.0
  const TH_70: real := 70.0
  const TH_95: real := 95.0

  /** Ramp durations in seconds: acceleration and deceleration. */
  const RAMP_UP_SEC: real := 12.0
  const RAMP_DOWN_SEC: real := 5.0

  /** Period of the fixed-rate decision step, in seconds. */
  const SAMPLE_PERIOD: real := 0.25

  /** Full travel takes 30 s at nominal voltage. */
  const TRAVEL_TIME_AT_NOM: real := 30.0
  const BASE_SPEED: real := 1.0 / TRAVEL_TIME_AT_NOM

  /** Limit-switch positions (0 = closed, 1 = open). */
  const OPEN1_POS: real := 0.80
  const OPEN2_POS: real := 1.00
  const CLOSE1_POS: real := 0.20
  const CLOSE2_POS: real := 0.00

  datatype Mode = Idle | Opening | Closing | Stopped

  predicate Moving(m: Mode) {
    m == Opening || m == Closing
  }

  /** Every field of a `GateSystem` object; `ramp` is the state of its `Ramp`. */
  datatype GateView = GateView(
    state: Mode,
    direction: int,
    position: real,
    uz1: bool, uz2: bool,
    stress: real,
    ko: bool, kz: bool,
    kvO1: bool, kvO2: bool, kvZ1: bool, kvZ2: bool,
    slowMode30: bool,
    dacCode: int,
    targetCode: int,
    ramp: RampState,
    sampleTimer: real,
    zpAdcPulse: bool, zpDacPulse: bool, gtFlag: bool)

  /** The limit switches are the threshold comparisons on the position. */
  ghost predicate LimitsMatchPosition(v: GateView) {
    && v.kvO1 == (v.position >= OPEN1_POS)
    && v.kvO2 == (v.position >= OPEN2_POS)
    && v.kvZ1 == (v.position <= CLOSE1_POS)
    && v.kvZ2 == (v.position <= CLOSE2_POS)
  }

  /** What holds of the object between any two operations, except the bound on the
      sample accumulator, which `update` exceeds while it drains it: the direction
      agrees with the mode, the limit switches with the position, the codes are
      8-bit, the ramp runs towards the target code, slow mode means moving towards
      the slow code, and an idle gate has no target and no ramp. */
  ghost predicate Consistent(v: GateView) {
    Core(v) && (v.slowMode30 ==> Moving(v.state) && v.targetCode == CODE_SLOW)
  }

  /** Consistent without the slow-mode clause. */
  ghost predicate Core(v: GateView) {
    && -1 <= v.direction <= 1
    && (v.direction == 1 ==> v.state == Opening)
    && (v.direction == -1 ==> v.state == Closing)
    && 0.0 <= v.position <= 1.0
    && LimitsMatchPosition(v)
    && 0 <= v.targetCode <= DAC_MAX
    && 0 <= v.dacCode <= DAC_MAX
    && RampValid(v.ramp)
    && v.ramp.endCode == v.targetCode
    && 0 <= v.ramp.startCode <= DAC_MAX
    && (v.state == Stopped ==> v.direction == 0)
    && (v.state == Idle ==> v.direction == 0 && v.targetCode == 0 && !v.ramp.active)
    && 0.0 <= v.sampleTimer
  }

  /** The object invariant of `GateSystem`. */
  ghost predicate Inv(v: GateView) {
    Consistent(v) && v.sampleTimer < SAMPLE_PERIOD
  }

  /** What the decision logic of the controller leaves alone: the plant, the sensors,
      the limit switches, the buttons, the DAC output, the sample accumulator and the
      ADC pulses. */
  datatype Environment = Environment(
    position: real, uz1: bool, uz2: bool, stress: real, ko: bool, kz: bool,
    kvO1: bool, kvO2: bool, kvZ1: bool, kvZ2: bool,
    dacCode: int, sampleTimer: real, zpAdcPulse: bool, gtFlag: bool)

  function EnvironmentOf(v: GateView): Environment {
    Environment(v.position, v.uz1, v.uz2, v.stress, v.ko, v.kz, v.kvO1, v.kvO2, v.kvZ1, v.kvZ2,
                v.dacCode, v.sampleTimer, v.zpAdcPulse, v.gtFlag)
  }

  /** `GateSystem.__init__`: idle, closed (both close limit switches on), no ramp. */
  function PowerOn(): (v: GateView)
    ensures Inv(v)
    ensures v.state == Idle && v.position == 0.0 && v.kvZ1 && v.kvZ2 && !v.kvO1 && !v.kvO2
  {
    GateView(Idle, 0, 0.0, false, false, 0.0, false, false,
             false, false, true, true, false, 0, 0, NewRamp(), 0.0, false, false, true)
  }

  /** `reset_sensors`: both obstacle sensors off and zero stress. */
  function ResetSensors(v: GateView): GateView
  {
    v.(uz1 := false, uz2 := false, stress := 0.0)
  }

  /** `nominal_target_code`: full speed, or half speed once the first limit switch of
      the current direction has been reached; zero when not moving. */
  function NominalTargetCode(v: GateView): (code: int)
    ensures code == CODE_ZERO <==> !Moving(v.state)
    ensures code == CODE_HALF <==> (v.state == Opening && v.kvO1) || (v.state == Closing && v.kvZ1)
    ensures code == CODE_NOM <==> (v.state == Opening && !v.kvO1) || (v.state == Closing && !v.kvZ1)
  {
    if v.state == Opening then (if v.kvO1 then CODE_HALF else CODE_NOM)
    else if v.state == Closing then (if v.kvZ1 then CODE_HALF else CODE_NOM)
    else CODE_ZERO
  }

  /** `start_ramp`: ramps from the present DAC code to the clamped target, unless that
      target is already being ramped to. Afterwards a ramp towards the clamped target
      is always running. */
  function StartRamp(v: GateView, targetCode: int, duration: real): (r: GateView)
    ensures r.targetCode == ClampInt(targetCode, 0, DAC_MAX) && r.ramp.active
    ensures EnvironmentOf(r) == EnvironmentOf(v)
    ensures r.state == v.state && r.direction == v.direction && r.slowMode30 == v.slowMode30
    ensures ClampInt(targetCode, 0, DAC_MAX) == v.targetCode && v.ramp.active ==>
      r.ramp == v.ramp && r.zpDacPulse == v.zpDacPulse
    ensures !(ClampInt(targetCode, 0, DAC_MAX) == v.targetCode && v.ramp.active) ==>
      r.ramp == Started(v.dacCode, r.targetCode, duration) && r.zpDacPulse
  {
    var tc := ClampInt(targetCode, 0, DAC_MAX);
    if tc == v.targetCode && v.ramp.active then v
    else v.(targetCode := tc, ramp := Started(v.dacCode, tc, duration), zpDacPulse := true)
  }

  /** `press_open`: the button is latched into KO; from rest it starts opening. */
  function PressOpen(v: GateView): GateView
  {
    var w := v.(ko := true, kz := false);
    if w.state == Idle || w.state == Stopped then
      var m := w.(state := Opening, direction := 1, slowMode30 := false);
      StartRamp(m, NominalTargetCode(m), RAMP_UP_SEC)
    else w
  }

  /** `press_close`: the button is latched into KZ; from rest it starts closing. */
  function PressClose(v: GateView): GateView
  {
    var w := v.(kz := true, ko := false);
    if w.state == Idle || w.state == Stopped then
      var m := w.(state := Closing, direction := -1, slowMode30 := false);
      StartRamp(m, NominalTargetCode(m), RAMP_UP_SEC)
    else w
  }

  /** `update_limits_from_position`. */
  function UpdateLimits(v: GateView): (r: GateView)
    ensures LimitsMatchPosition(r)
  {
    v.(kvO1 := v.position >= OPEN1_POS, kvO2 := v.position >= OPEN2_POS,
       kvZ1 := v.position <= CLOSE1_POS, kvZ2 := v.position <= CLOSE2_POS)
  }

  /** `emergency_stop`: latched stop, ramp to zero over 5 s. */
  function EmergencyStop(v: GateView): (r: GateView)
    ensures EnvironmentOf(r) == EnvironmentOf(v)
    ensures r.state == Stopped && r.direction == 0 && !r.slowMode30
    ensures r.targetCode == CODE_ZERO && r.ramp.active
  {
    StartRamp(v.(state := Stopped, direction := 0, slowMode30 := false), CODE_ZERO, RAMP_DOWN_SEC)
  }

  /** `normal_stop_to_zero`: no direction any more, ramp to zero over 5 s; the state
      is left as it is (update later turns it into IDLE). */
  function NormalStopToZero(v: GateView): (r: GateView)
    ensures EnvironmentOf(r) == EnvironmentOf(v)
    ensures r.state == v.state && r.direction == 0 && !r.slowMode30
    ensures r.targetCode == CODE_ZERO && r.ramp.active
  {
    StartRamp(v.(direction := 0, slowMode30 := false), CODE_ZERO, RAMP_DOWN_SEC)
  }

  /** The ADC code of the present stress, which `control_step` returns. */
  function StressAdcCode(v: GateView): (code: int)
    ensures 0 <= code <= ADC_MAX
  {
    AdcCodeFromVoltage(TensoToVoltage(v.stress))
  }

  /** `control_step`: one sampling and decision cycle. While opening or closing the
      first matching rule wins: obstacle, stress >= 95, stress >= 70 (slow mode),
      slow-mode exit below 55, second limit switch, first limit switch. */
  function ControlStep(v: GateView): (r: GateView)
    ensures EnvironmentOf(r) == EnvironmentOf(v.(zpAdcPulse := true, gtFlag := true))
  {
    var w := v.(zpAdcPulse := true, gtFlag := true);
    if !Moving(w.state) then w else Decide(w)
  }

  /** The rules of `control_step` for a gate that is opening or closing. */
  function Decide(w: GateView): (r: GateView)
    ensures EnvironmentOf(r) == EnvironmentOf(w)
    ensures r.state == w.state || r.state == Stopped
  {
    if w.uz1 || w.uz2 then EmergencyStop(w)
    else if w.stress >= TH_95 then EmergencyStop(w)
    else if w.stress >= TH_70 then (if !w.slowMode30 then EnterSlowMode(w) else w)
    else if w.slowMode30 && w.stress < TH_55 then LeaveSlowMode(w)
    else LimitRules(w)
  }

  /** Stress reached 70: slow mode, decelerating to 30 % of the nominal voltage. */
  function EnterSlowMode(w: GateView): (r: GateView)
    ensures EnvironmentOf(r) == EnvironmentOf(w)
    ensures r.state == w.state && r.direction == w.direction
    ensures r.slowMode30 && r.targetCode == CODE_SLOW && r.ramp.active
  {
    StartRamp(w.(slowMode30 := true), CODE_SLOW, RAMP_DOWN_SEC)
  }

  /** Stress fell below 55 in slow mode: back to the nominal code of the position. */
  function LeaveSlowMode(w: GateView): (r: GateView)
    ensures EnvironmentOf(r) == EnvironmentOf(w)
    ensures r.state == w.state && r.direction == w.direction
    ensures !r.slowMode30 && r.targetCode == NominalTargetCode(w) && r.ramp.active
  {
    var n := w.(slowMode30 := false);
    StartRamp(n, NominalTargetCode(n), RAMP_UP_SEC)
  }

  /** The limit-switch rules of `control_step`: the second switch of the direction of
      travel stops, the first one slows down to half speed once. */
  function LimitRules(w: GateView): (r: GateView)
    ensures EnvironmentOf(r) == EnvironmentOf(w)
    ensures r.state == w.state && (r.slowMode30 ==> w.slowMode30)
  {
    if w.state == Opening then
      if w.kvO2 then NormalStopToZero(w)
      else if w.kvO1 && !w.slowMode30 && w.targetCode > CODE_HALF then StartRamp(w, CODE_HALF, RAMP_DOWN_SEC)
      else w
    else if w.state == Closing then
      if w.kvZ2 then NormalStopToZero(w)
      else if w.kvZ1 && !w.slowMode30 && w.targetCode > CODE_HALF then StartRamp(w, CODE_HALF, RAMP_DOWN_SEC)
      else w
    else w
  }

  /** The drive speed as a fraction of the nominal one, for the DAC code output. */
  function SpeedFraction(dacCode: int): (frac: real)
    ensures 0.0 <= frac <= 1.2
    ensures 0 <= dacCode ==> 0.0 <= frac
  {
    var uOut := DacVoltageFromCode(dacCode);
    Clamp(if U_NOM <= 0.000001 then 0.0 else uOut / U_NOM, 0.0, 1.2)
  }

  /** `update` advances the ramp, or holds the target code when no ramp runs. */
  function AdvanceRamp(v: GateView, dt: real): (r: GateView)
    requires RampValid(v.ramp)
    ensures r.state == v.state && r.direction == v.direction && r.position == v.position
    ensures v.ramp.active ==> r.dacCode == Step(v.ramp, dt).code && r.ramp == Step(v.ramp, dt).next
    ensures !v.ramp.active ==> r.dacCode == v.targetCode && r.ramp == v.ramp
  {
    if v.ramp.active then
      var s := Step(v.ramp, dt);
      v.(dacCode := s.code, ramp := s.next)
    else v.(dacCode := v.targetCode)
  }

  /** The new position after `update` moves the gate at a speed proportional to the
      drive voltage, which it does only while opening or closing with a direction;
      the position stays within [0, 1]. */
  function Integrate(v: GateView, dt: real): (p: real)
    ensures Moving(v.state) && v.direction != 0 ==> 0.0 <= p <= 1.0
    ensures !(Moving(v.state) && v.direction != 0) ==> p == v.position
  {
    if Moving(v.state) && v.direction != 0 then Travel(v.position, v.direction, SpeedFraction(v.dacCode), dt)
    else v.position
  }

  /** The position after dt seconds at the given fraction of the base speed, limited
      to [0, 1]. */
  function Travel(position: real, direction: int, frac: real, dt: real): (p: real)
    ensures 0.0 <= p <= 1.0
  {
    Clamp(position + direction as real * (BASE_SPEED * frac) * dt, 0.0, 1.0)
  }

  /** First part of `update(dt)`: clear the pulses, advance the ramp (or hold the
      target code), move the gate, refresh the limit switches, accumulate the time. */
  function Advance(v: GateView, dt: real): GateView
    requires RampValid(v.ramp)
  {
    Accumulate(Move(AdvanceRamp(ClearPulses(v), dt), dt), dt)
  }

  /** `update` clears both port pulses first. */
  function ClearPulses(v: GateView): GateView
  {
    v.(zpAdcPulse := false, zpDacPulse := false)
  }

  /** `update` moves the gate and then refreshes the limit switches. */
  function Move(v: GateView, dt: real): (r: GateView)
    ensures r.state == v.state && r.position == Integrate(v, dt)
  {
    UpdateLimits(v.(position := Integrate(v, dt)))
  }

  /** `update` adds the frame time to the sample accumulator. */
  function Accumulate(v: GateView, dt: real): GateView
  {
    v.(sampleTimer := v.sampleTimer + dt)
  }

  /** The `while` loop of `update`: one decision step per whole sample period
      accumulated; what is left of the accumulator is below one period. */
  function Drain(v: GateView): (r: GateView)
    ensures r.sampleTimer < SAMPLE_PERIOD
    decreases (4.0 * v.sampleTimer).Floor
  {
    if v.sampleTimer >= SAMPLE_PERIOD then
      Drain(ControlStep(v.(sampleTimer := v.sampleTimer - SAMPLE_PERIOD)))
    else v
  }

  /** Last part of `update`: a non-stopped gate whose drive has wound down to zero
      with no direction becomes IDLE and releases the buttons; a STOPPED one only
      releases them. */
  function Settle(v: GateView): (r: GateView)
    ensures r.position == v.position && r.direction == v.direction && r.targetCode == v.targetCode
    ensures (r.state == Stopped) == (v.state == Stopped)
    ensures v.state != Stopped ==>
      (r.state == Idle <==> v.state == Idle || (v.direction == 0 && v.targetCode == 0 && !v.ramp.active))
    ensures v.state != Stopped && !(v.direction == 0 && v.targetCode == 0 && !v.ramp.active) ==>
      r.state == v.state && r.ko == v.ko && r.kz == v.kz
    ensures v.targetCode == 0 && !v.ramp.active && (v.direction == 0 || v.state == Stopped) ==> !r.ko && !r.kz
    ensures v.state == Stopped && !(v.targetCode == 0 && !v.ramp.active) ==> r.ko == v.ko && r.kz == v.kz
  {
    var w :=
      if v.state != Stopped && v.direction == 0 && v.targetCode == 0 && !v.ramp.active
      then v.(state := Idle, ko := false, kz := false)
      else v;
    if w.state == Stopped && w.targetCode == 0 && !w.ramp.active then w.(ko := false, kz := false) else w
  }

  /** `update(dt)`: the new state of the object. */
  function Update(v: GateView, dt: real): GateView
    requires RampValid(v.ramp)
  {
    Settle(Drain(Advance(v, dt)))
  }

  /** Port 300h (input) as its nine fields; the ADC code travels as its low byte. */
  datatype InputPort = InputPort(adc: bv8, kvO1: bool, kvO2: bool, kvZ1: bool, kvZ2: bool,
                                 usOr: bool, ko: bool, kz: bool, gt: bool)

  /** Port 301h (output) as its three fields; the DAC code travels as its low byte. */
  datatype OutputPort = OutputPort(dac: bv8, zpDac: bool, zpAdc: bool)

  /** `x & 0xFF` on a (possibly negative) integer: its residue modulo 256. */
  function LowByte(x: int): bv8
  {
    (x % 256) as bv8
  }

  function BitOf(b: bool): (w: bv16)
    ensures w == 0 || w == 1
  {
    if b then 1 else 0
  }

  /** The bit layout of port 300h: bits 0-7 the ADC code, then KV_O1, KV_O2, KV_Z1,
      KV_Z2, US (either obstacle sensor), KO, KZ and GT in bits 8-15. */
  function EncodeInputPort(p: InputPort): bv16
  {
    (p.adc as bv16)
      | (BitOf(p.kvO1) << 8) | (BitOf(p.kvO2) << 9) | (BitOf(p.kvZ1) << 10) | (BitOf(p.kvZ2) << 11)
      | (BitOf(p.usOr) << 12) | (BitOf(p.ko) << 13) | (BitOf(p.kz) << 14) | (BitOf(p.gt) << 15)
  }

  /** Reads the nine fields back out of a port 300h word, bit by bit. */
  function DecodeInputPort(w: bv16): InputPort
  {
    InputPort((w & 0xFF) as bv8, w & 0x100 != 0, w & 0x200 != 0, w & 0x400 != 0, w & 0x800 != 0,
              w & 0x1000 != 0, w & 0x2000 != 0, w & 0x4000 != 0, w & 0x8000 != 0)
  }

  /** The bit layout of port 301h: bits 0-7 the DAC code, bit 14 ZP_DAC, bit 15
      ZP_ADC; there is no direction bit, and bits 8-13 stay clear. */
  function EncodeOutputPort(p: OutputPort): (w: bv16)
    ensures w & 0x3F00 == 0
  {
    (p.dac as bv16) | (BitOf(p.zpDac) << 14) | (BitOf(p.zpAdc) << 15)
  }

  /** Reads the three fields back out of a port 301h word. */
  function DecodeOutputPort(w: bv16): OutputPort
  {
    OutputPort((w & 0xFF) as bv8, w & 0x4000 != 0, w & 0x8000 != 0)
  }

  /** What `build_port300(adc_code)` packs for the state v. */
  function InputPortOf(v: GateView, adcCode: int): InputPort
  {
    InputPort(LowByte(adcCode), v.kvO1, v.kvO2, v.kvZ1, v.kvZ2, v.uz1 || v.uz2, v.ko, v.kz, v.gtFlag)
  }

  /** What `build_port301()` packs for the state v. */
  function OutputPortOf(v: GateView): OutputPort
  {
    OutputPort(LowByte(v.dacCode), v.zpDacPulse, v.zpAdcPulse)
  }

  /** The six values `update(dt)` returns. */
  datatype TickOutput = TickOutput(port300: bv16, port301: bv16, adcCodeNow: int,
                                   uOut: real, stressU: real, usOr: bool)

  function UpdateOutput(v: GateView, dt: real): (o: TickOutput)
    requires RampValid(v.ramp)
  {
    var r := Update(v, dt);
    var stressU := TensoToVoltage(r.stress);
    var adcNow := AdcCodeFromVoltage(stressU);
    TickOutput(EncodeInputPort(InputPortOf(r, adcNow)), EncodeOutputPort(OutputPortOf(r)), adcNow,
               DacVoltageFromCode(Advance(v, dt).dacCode), stressU, r.uz1 || r.uz2)
  }
}
