/**
 * The ANT+ Fitness Equipment decoder (src/sensors/fitness-equipment-sensors.ts):
 * the per-device record, the decoding of data pages 0x01, 0x10, 0x11, 0x12,
 * 0x19, 0x50, 0x51 and 0x56, the session reset a READY state triggers, and
 * the sensor object that keeps one record per device, reports every decoded
 * data message and hands control pages to its channel.
 *
 * Scaled values (`/ 100`, `* 0.5`, ...) are exact reals; the one division
 * the source leaves unguarded, the average power, is a `JsNumber.Num`.
 */
module FitnessEquipment {
  import opened Wrappers
  import opened Frames
  import opened JsNumber
  import opened BaseSensor
  import opened FeCommands
  import opened Arithmetic
  import AntChannel
  import Messages
  import Consts

  const DEVICE_TYPE := 0x11
  const PROFILE := "FE"
  const PERIOD := 8192

  /** A receive channel on RF channel 57 (2457 MHz) with any transmission type, never timing out, about four messages a second. */
  function ChannelConfiguration(): (c: Messages.ChannelConfiguration)
    ensures c.channelType == "receive" && c.transmissionType == 0 && c.timeout == Consts.TIMEOUT_NEVER
    ensures c.frequency == 57 && c.period == PERIOD && 4 * c.period <= 32768 < 5 * c.period
  {
    Messages.ChannelConfiguration("receive", 0, Consts.TIMEOUT_NEVER, PERIOD, 57)
  }

  datatype Equipment = Treadmill | Elliptical | StationaryBike | Rower | Climber | NordicSkier | Trainer | General
  datatype HeartRateSource = HandContact | EM | AntPlus
  datatype EquipmentState = Off | Ready | InUse | Finished
  datatype TargetStatus = OnTarget | LowSpeed | HighSpeed

  /** An entry of page 0x56's list of devices paired with the equipment. */
  datatype PairedDevice = PairedDevice(id: Word, deviceType: Byte, paired: bool)

  /** A non-negative number of seconds. */
  type Seconds = x: real | 0.0 <= x

  /**
   * The per-device record (`FitnessEquipmentSensorState`): the common fields,
   * then one group per data page; the page-0x19 fields carry the source's
   * `_0x19_` prefix dropped. `ElapsedTime` (seconds), `Distance` (metres)
   * and `AccumulatedPower` (watts) are running totals the decoder extends
   * across counter rollovers.
   */
  datatype FitnessEquipmentState = FitnessEquipmentState(
    common: SensorState,
    Temperature: Option<real>,
    ZeroOffset: Option<Word>,
    SpinDownTime: Option<Word>,
    EquipmentType: Option<Equipment>,
    ElapsedTime: Option<Seconds>,
    Distance: Option<nat>,
    RealSpeed: Option<real>,
    VirtualSpeed: Option<real>,
    HeartRate: Option<Byte>,
    HeartRateSource: Option<HeartRateSource>,
    State: Option<EquipmentState>,
    CycleLength: Option<real>,
    Incline: Option<real>,
    Resistance: Option<Byte>,
    METs: Option<real>,
    CaloricBurnRate: Option<real>,
    Calories: Option<Byte>,
    EventCount: Option<Byte>,
    Cadence: Option<Byte>,
    AccumulatedPower: Option<nat>,
    InstantaneousPower: Option<int>,
    AveragePower: Option<Num>,
    TrainerStatus: Option<int>,
    TargetStatus: Option<TargetStatus>,
    PairedDevices: seq<PairedDevice>)

  function NewFitnessEquipmentState(deviceID: Word): (s: FitnessEquipmentState)
    ensures s.common == NewSensorState(deviceID) && SessionCleared(s) && s.PairedDevices == []
    ensures s.Temperature.None? && s.ZeroOffset.None? && s.SpinDownTime.None?
    ensures s.EquipmentType.None? && s.State.None?
  {
    FitnessEquipmentState(NewSensorState(deviceID), None, None, None, None, None, None, None, None, None, None,
                          None, None, None, None, None, None, None, None, None, None, None, None, None, None, [])
  }

  // ---------------------------------------------------------------------------
  // The session reset

  /** Every field `resetState` deletes is undefined: the readings of the current session. */
  predicate SessionCleared(s: FitnessEquipmentState) {
    && s.ElapsedTime.None? && s.Distance.None? && s.RealSpeed.None? && s.VirtualSpeed.None?
    && s.HeartRate.None? && s.HeartRateSource.None?
    && s.CycleLength.None? && s.Incline.None? && s.Resistance.None?
    && s.METs.None? && s.CaloricBurnRate.None? && s.Calories.None?
    && s.EventCount.None? && s.Cadence.None? && s.AccumulatedPower.None? && s.InstantaneousPower.None?
    && s.AveragePower.None? && s.TrainerStatus.None? && s.TargetStatus.None?
  }

  /** The fields a reset keeps: identity and product data, calibration, equipment type, state and paired devices. */
  predicate SameSetup(s: FitnessEquipmentState, r: FitnessEquipmentState) {
    && r.common == s.common && r.Temperature == s.Temperature && r.ZeroOffset == s.ZeroOffset
    && r.SpinDownTime == s.SpinDownTime && r.EquipmentType == s.EquipmentType
    && r.State == s.State && r.PairedDevices == s.PairedDevices
  }

  /** `resetState`: the session's readings are forgotten, the setup is kept. */
  function Reset(s: FitnessEquipmentState): (r: FitnessEquipmentState)
    ensures SessionCleared(r) && SameSetup(s, r)
  {
    s.(ElapsedTime := None, Distance := None, RealSpeed := None, VirtualSpeed := None,
       HeartRate := None, HeartRateSource := None, CycleLength := None, Incline := None, Resistance := None,
       METs := None, CaloricBurnRate := None, Calories := None,
       EventCount := None, Cadence := None, AccumulatedPower := None, InstantaneousPower := None,
       AveragePower := None, TrainerStatus := None, TargetStatus := None)
  }

  /** Two records that agree on their setup and have both been cleared are the same record. */
  lemma {:induction false} ResetDeterminedBySetup(s: FitnessEquipmentState, r: FitnessEquipmentState)
    requires SessionCleared(r) && SameSetup(s, r)
    ensures r == Reset(s)
  {
    var t := Reset(s);
    assert SessionCleared(t) && SameSetup(s, t);
  }

  /** Resetting twice is resetting once. */
  lemma ResetIdempotent(s: FitnessEquipmentState)
    ensures Reset(Reset(s)) == Reset(s)
  {
    ResetDeterminedBySetup(s, Reset(Reset(s)));
  }

  // ---------------------------------------------------------------------------
  // Field decoders

  function EquipmentCode(e: Equipment): int {
    match e
    case Treadmill => 19
    case Elliptical => 20
    case StationaryBike => 21
    case Rower => 22
    case Climber => 23
    case NordicSkier => 24
    case Trainer => 25
    case General => 16
  }

  /** The equipment type of page 0x10's type field; codes outside 19..25 are `General`. */
  function EquipmentOf(code: int): (e: Equipment)
    ensures e != General <==> 19 <= code <= 25
    ensures e != General ==> EquipmentCode(e) == code
  {
    match code
    case 19 => Treadmill
    case 20 => Elliptical
    case 21 => StationaryBike
    case 22 => Rower
    case 23 => Climber
    case 24 => NordicSkier
    case 25 => Trainer
    case _ => General
  }

  function SourceCode(h: HeartRateSource): int {
    match h
    case HandContact => 3
    case EM => 2
    case AntPlus => 1
  }

  /** The heart-rate source of the two low capability bits; 0 means there is none. */
  function HeartRateSourceOf(bits: int): (h: Option<HeartRateSource>)
    requires 0 <= bits < 4
    ensures h.None? <==> bits == 0
    ensures h.Some? ==> SourceCode(h.value) == bits
  {
    match bits
    case 3 => Some(HandContact)
    case 2 => Some(EM)
    case 1 => Some(AntPlus)
    case _ => None
  }

  function TargetCode(t: TargetStatus): int {
    match t
    case OnTarget => 0
    case LowSpeed => 1
    case HighSpeed => 2
  }

  /** The target-power status of page 0x19's two low flag bits; 3 means there is none. */
  function TargetStatusOf(bits: int): (t: Option<TargetStatus>)
    requires 0 <= bits < 4
    ensures t.None? <==> bits == 3
    ensures t.Some? ==> TargetCode(t.value) == bits
  {
    match bits
    case 0 => Some(OnTarget)
    case 1 => Some(LowSpeed)
    case 2 => Some(HighSpeed)
    case _ => None
  }

  function StateCode(e: EquipmentState): int {
    match e
    case Off => 1
    case Ready => 2
    case InUse => 3
    case Finished => 4
  }

  /**
   * The state switch every general and trainer page ends with: nibbles 1 to 4
   * name a state, any other deletes it, and READY also resets the session.
   */
  function ApplyState(s: FitnessEquipmentState, flags: Byte): (r: FitnessEquipmentState)
    ensures r.State.None? <==> !(1 <= Bits4To6(flags) <= 4)
    ensures r.State.Some? ==> StateCode(r.State.value) == Bits4To6(flags)
    ensures Bits4To6(flags) == 2 ==> SessionCleared(r) && SameSetup(s.(State := r.State), r)
    ensures Bits4To6(flags) != 2 ==> r == s.(State := r.State)
  {
    match Bits4To6(flags)
    case 1 => s.(State := Some(Off))
    case 2 => Reset(s).(State := Some(Ready))
    case 3 => s.(State := Some(InUse))
    case 4 => s.(State := Some(Finished))
    case _ => s.(State := None)
  }

  /**
   * A running total extended by a counter that wraps at `span`: the total's
   * residue is compared with the counter, and a smaller counter means one
   * rollover. The result is the least value, not below the total, that agrees
   * with the counter modulo `span`.
   */
  function Accumulate(total: Option<nat>, raw: int, span: int): (r: nat)
    requires 0 <= raw < span
    ensures var t := total.GetOr(0); t <= r < t + span && r % span == raw
  {
    var t := total.GetOr(0);
    var previous := t % span;
    AccumulateStep(t, previous, raw, span);
    t + Unwrap(previous, raw, span) - previous
  }

  lemma {:induction false} AccumulateStep(t: nat, previous: int, raw: int, span: int)
    requires 0 <= raw < span && previous == t % span
    ensures var r := t + Unwrap(previous, raw, span) - previous; t <= r < t + span && r % span == raw
  {
    var q := t / span;
    assert t == span * q + previous;
    var k := if previous > raw then q + 1 else q;
    var r := t + Unwrap(previous, raw, span) - previous;
    assert r == span * k + raw;
    MultiplePlusRemainder(k, span, raw);
  }

  /** `t % 64` for non-negative seconds. */
  function SecondsMod64(t: Seconds): (r: real)
    ensures 0.0 <= r < 64.0
    ensures r <= t && (t - r) / 64.0 == ((t - r) / 64.0).Floor as real
  {
    t - 64.0 * (t / 64.0).Floor as real
  }

  /** Page 0x10's elapsed time: quarter seconds that wrap at 64 s, extended onto the running total. */
  function AccumulateSeconds(total: Option<Seconds>, quarters: Byte): (r: Seconds)
    ensures var t := total.GetOr(0.0); t <= r < t + 64.0 && SecondsMod64(r) == quarters as real / 4.0
  {
    var t := total.GetOr(0.0);
    var elapsed := quarters as real / 4.0;
    var previous := SecondsMod64(t);
    var k := (t / 64.0).Floor;
    var r := t + (if previous > elapsed then elapsed + 64.0 else elapsed) - previous;
    var n := if previous > elapsed then k + 1 else k;
    assert r == 64.0 * n as real + elapsed;
    assert (r / 64.0).Floor == n;
    r
  }

  // ---------------------------------------------------------------------------
  // Page 0x01: calibration request and response

  predicate OnlyCalibrationFields(s: FitnessEquipmentState, r: FitnessEquipmentState) {
    r == s.(Temperature := r.Temperature, ZeroOffset := r.ZeroOffset, SpinDownTime := r.SpinDownTime)
  }

  /** Temperature in 0.5 °C from -25 °C (0xFF: none), zero offset and spin-down time when their flag bits are set. */
  function CalibrationPage(s: FitnessEquipmentState, data: Frame): (r: FitnessEquipmentState)
    requires HasExtendedId(data)
    ensures OnlyCalibrationFields(s, r)
    ensures Msg(data, 3) == 0xFF ==> r.Temperature == s.Temperature
    ensures Msg(data, 3) != 0xFF ==> r.Temperature.Some? && (r.Temperature.value + 25.0) * 2.0 == Msg(data, 3) as real
    ensures r.ZeroOffset == if HasFlag(Msg(data, 1), 0x40) then Some(MsgWord(data, 4)) else s.ZeroOffset
    ensures r.SpinDownTime == if HasFlag(Msg(data, 1), 0x80) then Some(MsgWord(data, 6)) else s.SpinDownTime
  {
    var temperature := Msg(data, 3);
    var flags := Msg(data, 1);
    s.(Temperature := if temperature != 0xFF then Some(-25.0 + temperature as real * 0.5) else s.Temperature,
       ZeroOffset := if HasFlag(flags, 0x40) then Some(MsgWord(data, 4)) else s.ZeroOffset,
       SpinDownTime := if HasFlag(flags, 0x80) then Some(MsgWord(data, 6)) else s.SpinDownTime)
  }

  // ---------------------------------------------------------------------------
  // Page 0x10: general FE data

  predicate OnlyGeneralFields(s: FitnessEquipmentState, r: FitnessEquipmentState) {
    r == s.(EquipmentType := r.EquipmentType, HeartRate := r.HeartRate, HeartRateSource := r.HeartRateSource,
            ElapsedTime := r.ElapsedTime, Distance := r.Distance,
            RealSpeed := r.RealSpeed, VirtualSpeed := r.VirtualSpeed)
  }

  /** Page 0x10 up to its state switch. */
  function GeneralFields(s: FitnessEquipmentState, data: Frame): (r: FitnessEquipmentState)
    requires HasExtendedId(data)
    ensures OnlyGeneralFields(s, r)
    ensures r.EquipmentType == Some(EquipmentOf(Msg(data, 1) % 32))
    ensures Msg(data, 6) == 0xFF ==> r.HeartRate == s.HeartRate && r.HeartRateSource == s.HeartRateSource
    ensures Msg(data, 6) != 0xFF ==>
              && r.HeartRateSource == HeartRateSourceOf(Msg(data, 7) % 4)
              && r.HeartRate == if r.HeartRateSource.Some? then Some(Msg(data, 6)) else None
    ensures r.ElapsedTime == Some(AccumulateSeconds(s.ElapsedTime, Msg(data, 2)))
    ensures r.Distance.Some? <==> HasFlag(Msg(data, 7), 0x04)
    ensures r.Distance.Some? ==> r.Distance.value == Accumulate(s.Distance, Msg(data, 3), 256)
    ensures r.VirtualSpeed.Some? <==> HasFlag(Msg(data, 7), 0x08)
    ensures r.RealSpeed.Some? <==> !r.VirtualSpeed.Some?
    ensures r.VirtualSpeed.Some? ==> r.VirtualSpeed.value * 1000.0 == MsgWord(data, 4) as real
    ensures r.RealSpeed.Some? ==> r.RealSpeed.value * 1000.0 == MsgWord(data, 4) as real
  {
    var heartRate := Msg(data, 6);
    var flags := Msg(data, 7);
    var source := HeartRateSourceOf(flags % 4);
    var speed := MsgWord(data, 4) as real / 1000.0;
    s.(EquipmentType := Some(EquipmentOf(Msg(data, 1) % 32)),
       HeartRate := if heartRate == 0xFF then s.HeartRate else if source.Some? then Some(heartRate) else None,
       HeartRateSource := if heartRate == 0xFF then s.HeartRateSource else source,
       ElapsedTime := Some(AccumulateSeconds(s.ElapsedTime, Msg(data, 2))),
       Distance := if HasFlag(flags, 0x04) then Some(Accumulate(s.Distance, Msg(data, 3), 256)) else None,
       VirtualSpeed := if HasFlag(flags, 0x08) then Some(speed) else None,
       RealSpeed := if HasFlag(flags, 0x08) then None else Some(speed))
  }

  function GeneralPage(s: FitnessEquipmentState, data: Frame): (r: FitnessEquipmentState)
    requires HasExtendedId(data)
    ensures r == ApplyState(GeneralFields(s, data), Msg(data, 7))
  {
    ApplyState(GeneralFields(s, data), Msg(data, 7))
  }

  // ---------------------------------------------------------------------------
  // Page 0x11: general settings

  predicate OnlySettingsFields(s: FitnessEquipmentState, r: FitnessEquipmentState) {
    r == s.(CycleLength := r.CycleLength, Incline := r.Incline, Resistance := r.Resistance)
  }

  /** Page 0x11 up to its state switch: cycle length in cm, incline in 0.01 % within ±100 %, resistance level. */
  function SettingsFields(s: FitnessEquipmentState, data: Frame): (r: FitnessEquipmentState)
    requires HasExtendedId(data)
    ensures OnlySettingsFields(s, r)
    ensures Msg(data, 3) == 0xFF ==> r.CycleLength == s.CycleLength
    ensures Msg(data, 3) != 0xFF ==> r.CycleLength.Some? && r.CycleLength.value * 100.0 == Msg(data, 3) as real
    ensures !(-10000 <= I16(data, 8) <= 10000) ==> r.Incline == s.Incline
    ensures -10000 <= I16(data, 8) <= 10000 ==>
              r.Incline.Some? && -100.0 <= r.Incline.value <= 100.0 && r.Incline.value * 100.0 == I16(data, 8) as real
    ensures r.Resistance == if Msg(data, 6) == 0xFF then s.Resistance else Some(Msg(data, 6))
  {
    var cycleLength := Msg(data, 3);
    var incline := I16(data, 8);
    var resistance := Msg(data, 6);
    s.(CycleLength := if cycleLength != 0xFF then Some(cycleLength as real / 100.0) else s.CycleLength,
       Incline := if -10000 <= incline <= 10000 then Some(incline as real / 100.0) else s.Incline,
       Resistance := if resistance != 0xFF then Some(resistance) else s.Resistance)
  }

  function SettingsPage(s: FitnessEquipmentState, data: Frame): (r: FitnessEquipmentState)
    requires HasExtendedId(data)
    ensures r == ApplyState(SettingsFields(s, data), Msg(data, 7))
  {
    ApplyState(SettingsFields(s, data), Msg(data, 7))
  }

  // ---------------------------------------------------------------------------
  // Page 0x12: general metabolic data

  predicate OnlyMetabolicFields(s: FitnessEquipmentState, r: FitnessEquipmentState) {
    r == s.(METs := r.METs, CaloricBurnRate := r.CaloricBurnRate, Calories := r.Calories)
  }

  /** Page 0x12 up to its state switch: METs in 0.01, burn rate in 0.1 kcal/h (0xFFFF: none), calories when flagged. */
  function MetabolicFields(s: FitnessEquipmentState, data: Frame): (r: FitnessEquipmentState)
    requires HasExtendedId(data)
    ensures OnlyMetabolicFields(s, r)
    ensures MsgWord(data, 2) == 0xFFFF ==> r.METs == s.METs
    ensures MsgWord(data, 2) != 0xFFFF ==> r.METs.Some? && r.METs.value * 100.0 == MsgWord(data, 2) as real
    ensures MsgWord(data, 4) == 0xFFFF ==> r.CaloricBurnRate == s.CaloricBurnRate
    ensures MsgWord(data, 4) != 0xFFFF ==>
              r.CaloricBurnRate.Some? && r.CaloricBurnRate.value * 10.0 == MsgWord(data, 4) as real
    ensures r.Calories == if HasFlag(Msg(data, 7), 0x01) then Some(Msg(data, 6)) else s.Calories
  {
    var mets := MsgWord(data, 2);
    var burnRate := MsgWord(data, 4);
    s.(METs := if mets != 0xFFFF then Some(mets as real / 100.0) else s.METs,
       CaloricBurnRate := if burnRate != 0xFFFF then Some(burnRate as real / 10.0) else s.CaloricBurnRate,
       Calories := if HasFlag(Msg(data, 7), 0x01) then Some(Msg(data, 6)) else s.Calories)
  }

  function MetabolicPage(s: FitnessEquipmentState, data: Frame): (r: FitnessEquipmentState)
    requires HasExtendedId(data)
    ensures r == ApplyState(MetabolicFields(s, data), Msg(data, 7))
  {
    ApplyState(MetabolicFields(s, data), Msg(data, 7))
  }

  // ---------------------------------------------------------------------------
  // Page 0x19: specific trainer / stationary bike data

  /**
   * The events page 0x19 counts between two event counts: a smaller count is
   * lifted by 255, so across a rollover it counts one event less than the
   * counter advanced.
   */
  function EventsSince(oldCount: Byte, count: Byte): (n: int)
    ensures 0 <= n < 0x100
    ensures count >= oldCount ==> n == (count - oldCount) % 0x100
    ensures count < oldCount ==> n == (count - oldCount) % 0x100 - 1
  {
    Unwrap(oldCount, count, 255) - oldCount
  }

  predicate OnlyTrainerFields(s: FitnessEquipmentState, r: FitnessEquipmentState) {
    r == s.(EventCount := r.EventCount, Cadence := r.Cadence, InstantaneousPower := r.InstantaneousPower,
            AccumulatedPower := r.AccumulatedPower, AveragePower := r.AveragePower,
            TrainerStatus := r.TrainerStatus, TargetStatus := r.TargetStatus)
  }

  /** The instantaneous power of page 0x19, the low 12 bits of its word at bytes 5 and 6. */
  function TrainerPower(data: Frame): (p: int)
    requires HasExtendedId(data)
    ensures 0 <= p < 0x1000 && p == Msg(data, 5) + 0x100 * (Msg(data, 6) % 0x10)
  {
    MsgWord(data, 5) % 0x1000
  }

  /**
   * Page 0x19 up to its state switch. An event count equal to the stored one
   * (undefined counts as 0) is not stored; with a power reading (0xFFF: none)
   * the accumulated power is extended across its 16-bit rollover and the
   * average power is the power gained over the events counted.
   */
  function TrainerFields(s: FitnessEquipmentState, data: Frame): (r: FitnessEquipmentState)
    requires HasExtendedId(data)
    ensures OnlyTrainerFields(s, r)
    ensures r.EventCount == if Msg(data, 1) != s.EventCount.GetOr(0) then Some(Msg(data, 1)) else s.EventCount
    ensures r.Cadence == if Msg(data, 2) == 0xFF then s.Cadence else Some(Msg(data, 2))
    ensures TrainerPower(data) == 0xFFF ==>
              r.InstantaneousPower == s.InstantaneousPower && r.AccumulatedPower == s.AccumulatedPower
              && r.AveragePower == s.AveragePower
    ensures TrainerPower(data) != 0xFFF ==>
              && r.InstantaneousPower == Some(TrainerPower(data))
              && r.AccumulatedPower == Some(Accumulate(s.AccumulatedPower, MsgWord(data, 3), 0x1_0000))
              && var gained := r.AccumulatedPower.value - s.AccumulatedPower.GetOr(0);
                 var events := EventsSince(s.EventCount.GetOr(0), Msg(data, 1));
                 && 0 <= gained < 0x1_0000
                 && r.AveragePower == Some(Div(FromInt(gained), FromInt(events)))
    ensures r.TrainerStatus == Some(Msg(data, 6) / 0x10)
    ensures r.TargetStatus == TargetStatusOf(Msg(data, 7) % 4)
  {
    var oldCount := s.EventCount.GetOr(0);
    var count := Msg(data, 1);
    var cadence := Msg(data, 2);
    var power := TrainerPower(data);
    var s1 := s.(EventCount := if count != oldCount then Some(count) else s.EventCount,
                 Cadence := if cadence != 0xFF then Some(cadence) else s.Cadence);
    var s2 :=
      if power == 0xFFF then s1
      else
        var accumulated := Accumulate(s.AccumulatedPower, MsgWord(data, 3), 0x1_0000);
        var gained := accumulated - s.AccumulatedPower.GetOr(0);
        s1.(InstantaneousPower := Some(power), AccumulatedPower := Some(accumulated),
            AveragePower := Some(Div(FromInt(gained), FromInt(EventsSince(oldCount, count)))));
    s2.(TrainerStatus := Some(Msg(data, 6) / 0x10), TargetStatus := TargetStatusOf(Msg(data, 7) % 4))
  }

  function TrainerPage(s: FitnessEquipmentState, data: Frame): (r: FitnessEquipmentState)
    requires HasExtendedId(data)
    ensures r == ApplyState(TrainerFields(s, data), Msg(data, 7))
  {
    ApplyState(TrainerFields(s, data), Msg(data, 7))
  }

  // ---------------------------------------------------------------------------
  // Pages 0x50, 0x51 and 0x56

  /** Page 0x50: hardware revision, manufacturer and model number. */
  function ManufacturerPage(s: FitnessEquipmentState, data: Frame): (r: FitnessEquipmentState)
    requires HasExtendedId(data)
    ensures r == s.(common := r.common)
    ensures r.common == s.common.(HwVersion := r.common.HwVersion, ManId := r.common.ManId, ModelNum := r.common.ModelNum)
    ensures r.common.HwVersion == Some(Msg(data, 3)) && r.common.ManId == Some(MsgWord(data, 4))
    ensures r.common.ModelNum == Some(MsgWord(data, 6))
  {
    s.(common := s.common.(HwVersion := Some(Msg(data, 3)), ManId := Some(MsgWord(data, 4)),
                           ModelNum := Some(MsgWord(data, 6))))
  }

  /**
   * Page 0x51: the software version is the main revision plus the
   * supplemental one in thousandths (0xFF: none); the serial number is the
   * signed 32-bit word at bytes 4 to 7, stored whatever its value.
   */
  function ProductPage(s: FitnessEquipmentState, data: Frame): (r: FitnessEquipmentState)
    requires HasExtendedId(data)
    ensures r == s.(common := r.common)
    ensures r.common == s.common.(SwVersion := r.common.SwVersion, SerialNumber := r.common.SerialNumber)
    ensures r.common.SwVersion.Some? && r.common.SwVersion.value.Floor == Msg(data, 3)
    ensures Msg(data, 2) != 0xFF ==> (r.common.SwVersion.value - Msg(data, 3) as real) * 1000.0 == Msg(data, 2) as real
    ensures Msg(data, 2) == 0xFF ==> r.common.SwVersion.value == Msg(data, 3) as real
    ensures r.common.SerialNumber == Some(I32(data, 8))
  {
    var supplemental := Msg(data, 2);
    var version := Msg(data, 3) as real + if supplemental != 0xFF then supplemental as real / 1000.0 else 0.0;
    var serial := I32(data, 8);
    s.(common := s.common.(SwVersion := Some(version),
                           SerialNumber := if serial != 0xFFFF_FFFF then Some(serial) else s.common.SerialNumber))
  }

  /** A serial number of all ones, the profile's "no serial number", is stored as -1. */
  lemma {:induction false} NoSerialStoredAsMinusOne(s: FitnessEquipmentState, data: Frame)
    requires HasExtendedId(data)
    requires data[8] == 0xFF && data[9] == 0xFF && data[10] == 0xFF && data[11] == 0xFF
    ensures ProductPage(s, data).common.SerialNumber == Some(-1)
  {
    assert U16(data, 8) == 0xFFFF && U16(data, 10) == 0xFFFF;
    assert I32(data, 8) == -1;
  }

  /**
   * Page 0x56: an entry with index 0 starts the list again, and when the
   * page announces at least one device its entry is appended.
   */
  function PairedDevicesPage(s: FitnessEquipmentState, data: Frame): (r: FitnessEquipmentState)
    requires HasExtendedId(data)
    ensures r == s.(PairedDevices := r.PairedDevices)
    ensures var kept := if Msg(data, 1) == 0 then [] else s.PairedDevices;
            var entry := PairedDevice(MsgWord(data, 4), Msg(data, 7), HasFlag(Msg(data, 3), 0x80));
            r.PairedDevices == if Msg(data, 2) > 0 then kept + [entry] else kept
  {
    var kept := if Msg(data, 1) == 0 then [] else s.PairedDevices;
    var entry := PairedDevice(MsgWord(data, 4), Msg(data, 7), HasFlag(Msg(data, 3), 0x80));
    s.(PairedDevices := if Msg(data, 2) > 0 then kept + [entry] else kept)
  }

  // ---------------------------------------------------------------------------
  // updateState

  /** The pages that end with the FE state switch. */
  predicate StatePage(page: int) {
    page in {0x10, 0x11, 0x12, 0x19}
  }

  predicate KnownPage(page: int) {
    StatePage(page) || page in {0x01, 0x50, 0x51, 0x56}
  }

  function WithRawData(s: FitnessEquipmentState, data: Frame): (r: FitnessEquipmentState)
    ensures r == s.(common := s.common.(RawData := Some(data)))
  {
    s.(common := s.common.(RawData := Some(data)))
  }

  /** `updateState`: the frame is kept as the raw data, then its page decoded; unknown pages change nothing else. */
  function UpdateState(s: FitnessEquipmentState, data: Frame): (r: FitnessEquipmentState)
    requires HasExtendedId(data)
    ensures r.common.RawData == Some(data)
    ensures !KnownPage(Msg(data, 0)) ==> r == WithRawData(s, data)
    ensures r.common.DeviceID == s.common.DeviceID
  {
    var s1 := WithRawData(s, data);
    match Msg(data, 0)
    case 0x01 => CalibrationPage(s1, data)
    case 0x10 => GeneralPage(s1, data)
    case 0x11 => SettingsPage(s1, data)
    case 0x12 => MetabolicPage(s1, data)
    case 0x19 => TrainerPage(s1, data)
    case 0x50 => ManufacturerPage(s1, data)
    case 0x51 => ProductPage(s1, data)
    case 0x56 => PairedDevicesPage(s1, data)
    case _ => s1
  }

  // ---------------------------------------------------------------------------
  // Properties of updateState

  /**
   * A general or trainer page reporting READY forgets the session: every
   * session reading is undefined afterwards, whatever the page itself
   * decoded, and the setup fields are as the page left them.
   */
  lemma {:induction false} ReadyPageForgetsSession(s: FitnessEquipmentState, data: Frame)
    requires HasExtendedId(data) && StatePage(Msg(data, 0)) && Bits4To6(Msg(data, 7)) == 2
    ensures var r := UpdateState(s, data);
            SessionCleared(r) && r.State == Some(Ready)
            && r.Temperature == s.Temperature && r.PairedDevices == s.PairedDevices
  {
    var s1 := WithRawData(s, data);
    match Msg(data, 0)
    case 0x10 => assert UpdateState(s, data) == ApplyState(GeneralFields(s1, data), Msg(data, 7));
    case 0x11 => assert UpdateState(s, data) == ApplyState(SettingsFields(s1, data), Msg(data, 7));
    case 0x12 => assert UpdateState(s, data) == ApplyState(MetabolicFields(s1, data), Msg(data, 7));
    case 0x19 => assert UpdateState(s, data) == ApplyState(TrainerFields(s1, data), Msg(data, 7));
  }

  /** A frame that does not report READY: no page of it resets the session. */
  predicate NoReset(data: Frame)
    requires HasExtendedId(data)
  {
    !(StatePage(Msg(data, 0)) && Bits4To6(Msg(data, 7)) == 2)
  }

  /**
   * Without a READY state the running totals never go down: the elapsed time
   * is kept or grows, the accumulated power is kept or grows, and the
   * distance grows unless page 0x10 stops reporting it.
   */
  lemma {:induction false} TotalsNeverDecrease(s: FitnessEquipmentState, data: Frame)
    requires HasExtendedId(data) && NoReset(data)
    ensures var r := UpdateState(s, data);
            && (s.ElapsedTime.Some? ==> r.ElapsedTime.Some? && r.ElapsedTime.value >= s.ElapsedTime.value)
            && (s.AccumulatedPower.Some? ==> r.AccumulatedPower.Some? && r.AccumulatedPower.value >= s.AccumulatedPower.value)
            && (s.Distance.Some? && r.Distance.Some? ==> r.Distance.value >= s.Distance.value)
  {
    var s1 := WithRawData(s, data);
    match Msg(data, 0)
    case 0x10 => assert UpdateState(s, data) == GeneralFields(s1, data).(State := UpdateState(s, data).State);
    case 0x11 => assert UpdateState(s, data) == SettingsFields(s1, data).(State := UpdateState(s, data).State);
    case 0x12 => assert UpdateState(s, data) == MetabolicFields(s1, data).(State := UpdateState(s, data).State);
    case 0x19 => assert UpdateState(s, data) == TrainerFields(s1, data).(State := UpdateState(s, data).State);
    case _ =>
  }

  /**
   * After a page 0x10 that does not report READY (READY resets the session
   * and deletes both speeds) exactly one speed is known: the virtual speed
   * when flagged, the real one otherwise.
   */
  lemma {:induction false} OneSpeedAfterGeneralPage(s: FitnessEquipmentState, data: Frame)
    requires HasExtendedId(data) && Msg(data, 0) == 0x10 && Bits4To6(Msg(data, 7)) != 2
    ensures var r := UpdateState(s, data);
            && (r.VirtualSpeed.Some? <==> HasFlag(Msg(data, 7), 0x08))
            && (r.RealSpeed.Some? <==> !HasFlag(Msg(data, 7), 0x08))
  {
    var s1 := WithRawData(s, data);
    assert UpdateState(s, data) == GeneralFields(s1, data).(State := UpdateState(s, data).State);
  }

  /**
   * Two trainer pages with the same event count and a power reading, the
   * second not reporting READY, divide by zero: the average power becomes
   * NaN when no power was gained and +Infinity otherwise. A count wrapping
   * from 255 to 0 counts zero events too.
   */
  lemma {:induction false} RepeatedCountDividesByZero(s: FitnessEquipmentState, data: Frame)
    requires HasExtendedId(data) && Msg(data, 0) == 0x19 && Bits4To6(Msg(data, 7)) != 2
    requires TrainerPower(data) != 0xFFF
    requires Msg(data, 1) == s.EventCount.GetOr(0) || (s.EventCount == Some(255) && Msg(data, 1) == 0)
    ensures var r := UpdateState(s, data);
            && r.AveragePower.Some?
            && (r.AccumulatedPower.value == s.AccumulatedPower.GetOr(0) ==> r.AveragePower.value.NaN?)
            && (r.AccumulatedPower.value != s.AccumulatedPower.GetOr(0) ==> r.AveragePower.value == PosInf)
  {
    var s1 := WithRawData(s, data);
    var t := TrainerFields(s1, data);
    assert UpdateState(s, data) == t.(State := UpdateState(s, data).State);
    assert EventsSince(s.EventCount.GetOr(0), Msg(data, 1)) == 0;
  }

  /** A first trainer page whose event count is 0 leaves the event count undefined. */
  lemma {:induction false} FirstZeroCountNotStored(s: FitnessEquipmentState, data: Frame)
    requires HasExtendedId(data) && Msg(data, 0) == 0x19 && s.EventCount.None? && Msg(data, 1) == 0
    ensures UpdateState(s, data).EventCount.None?
  {
    var s1 := WithRawData(s, data);
    var t := TrainerFields(s1, data);
    assert UpdateState(s, data) == ApplyState(t, Msg(data, 7));
  }

  /** The scanner block's RSSI and threshold, each stored only when it was read. */
  function WithScannerInfo(s: FitnessEquipmentState, info: ScannerInfo): (r: FitnessEquipmentState)
    ensures r == s.(common := s.common.(Rssi := r.common.Rssi, Threshold := r.common.Threshold))
    ensures r.common.Rssi == (if info.rssi.Some? then info.rssi else s.common.Rssi)
    ensures r.common.Threshold == (if info.threshold.Some? then info.threshold else s.common.Threshold)
  {
    s.(common := s.common.(Rssi := if info.rssi.Some? then info.rssi else s.common.Rssi,
                           Threshold := if info.threshold.Some? then info.threshold else s.common.Threshold))
  }

  // ---------------------------------------------------------------------------
  // The sensor object

  class FitnessEquipmentSensor {
    const base: Sensor
    var states: map<int, FitnessEquipmentState>

    constructor (deviceID: int := 0)
      ensures fresh(base) && base.GetDeviceID() == deviceID && base.GetChannel() == null
      ensures base.GetSendTimeout() == SEND_TIMEOUT && states == map[]
    {
      base := new Sensor(deviceID);
      states := map[];
    }

    /** The record a matching frame leads to before `updateState`: created on first sight, then the scanner block. */
    ghost function Seen(data: Frame): FitnessEquipmentState
      requires HasExtendedId(data)
      reads this
    {
      var id := FrameDeviceID(data);
      var created := if id in states then states[id] else NewFitnessEquipmentState(id);
      WithScannerInfo(created, ReadScannerInfo(data))
    }

    /** The step of `onMessage` before decoding: the device's record is created on first sight and takes the scanner block. */
    method Track(data: Frame) returns (aborted: bool)
      requires HasExtendedId(data)
      modifies this
      ensures states == old(states)[FrameDeviceID(data) := old(Seen(data))]
      ensures aborted == ReadScannerInfo(data).aborted
    {
      var deviceID := FrameDeviceID(data);
      if deviceID !in states {
        states := states[deviceID := NewFitnessEquipmentState(deviceID)];
      }
      var info := ReadScannerInfo(data);
      states := states[deviceID := WithScannerInfo(states[deviceID], info)];
      aborted := info.aborted;
    }

    /**
     * `onMessage`: frames for another channel or device type, and frames too
     * short to name a device, change nothing. A matching frame creates the
     * device's record if needed and copies the scanner block; a data message
     * is then decoded and, when the ID filter passes, reported to the
     * channel whether or not the record changed.
     */
    method OnMessage(data: Frame) returns (notified: bool)
      modifies this, base.channel
      ensures base.channel == null || !ForDecoder(data, base.channel.channelNo, DEVICE_TYPE) ==>
                states == old(states) && !notified
      ensures base.channel != null && ForDecoder(data, base.channel.channelNo, DEVICE_TYPE) ==>
                var id := FrameDeviceID(data);
                var seen := old(Seen(data));
                var decode := !ReadScannerInfo(data).aborted && IsDataMessage(data);
                && states == old(states)[id := if decode then UpdateState(seen, data) else seen]
                && (notified <==> decode && Accepts(base.deviceID, id))
      ensures base.channel != null ==>
                && base.channel.emitted == old(base.channel.emitted)
                     + (if notified then AntChannel.DeviceDataEvents(base.channel.isScanner, PROFILE, FrameDeviceID(data)) else [])
                && base.channel.messageQueue == old(base.channel.messageQueue)
                && base.channel.written == old(base.channel.written)
                && base.channel.settlements == old(base.channel.settlements)
                && base.channel.isScanner == old(base.channel.isScanner)
                && base.channel.isSensor == old(base.channel.isSensor)
                && base.channel.isWriting == old(base.channel.isWriting)
                && base.channel.nextTicket == old(base.channel.nextTicket)
    {
      notified := false;
      var channel := base.GetChannel();
      if channel == null {
        return;
      }
      var channelNo := channel.GetChannelNo();
      if !HasExtendedId(data) {
        return;
      }
      var deviceID := FrameDeviceID(data);
      var deviceType := FrameDeviceType(data);
      if data[BUFFER_INDEX_CHANNEL_NUM] != channelNo || deviceType != DEVICE_TYPE {
        return;
      }
      var aborted := Track(data);
      if aborted {
        return;
      }
      if IsDataMessage(data) {
        states := states[deviceID := UpdateState(states[deviceID], data)];
        if Accepts(base.deviceID, deviceID) {
          channel.OnDeviceData(PROFILE, deviceID);
          notified := true;
        }
      }
    }

    /** The channel took `cmd` as request `ticket`: written at once when idle, queued with its payload otherwise. */
    ghost predicate HandedOver(cmd: Messages.Command, ticket: nat, wasWriting: bool, writtenBefore: seq<Messages.Command>)
      requires base.channel != null
      reads base, base.channel
    {
      && base.channel.messageQueue != []
      && (wasWriting ==> base.channel.messageQueue[|base.channel.messageQueue| - 1]
                           == AntChannel.Entry(ticket, Messages.MsgId(cmd), Some(cmd)))
      && (!wasWriting ==> base.channel.written == writtenBefore + [cmd])
    }

    /** `send`: the control page goes to the channel as an acknowledged-data request. */
    method Send(payload: seq<int>) returns (ticket: nat)
      requires |payload| == 9
      requires base.channel != null && base.channel.Valid()
      modifies base.channel
      ensures base.channel.Valid()
      ensures HandedOver(Acknowledged(payload), ticket, old(base.channel.isWriting), old(base.channel.written))
    {
      ticket := base.channel.SendMessage(Acknowledged(payload));
    }

    method SendUserConfiguration(userWeight: Option<real>, bikeWeight: Option<real>,
                                 wheelDiameter: Option<real>, gearRatio: Option<real>) returns (ticket: nat)
      requires base.channel != null && base.channel.Valid()
      modifies base.channel
      ensures base.channel.Valid()
      ensures var c := ScaleUserConfiguration(userWeight, bikeWeight, wheelDiameter, gearRatio);
              HandedOver(Acknowledged(UserConfigurationPayload(base.channel.channelNo, c)), ticket,
                         old(base.channel.isWriting), old(base.channel.written))
    {
      var c := ScaleUserConfiguration(userWeight, bikeWeight, wheelDiameter, gearRatio);
      ticket := Send(UserConfigurationPayload(base.channel.GetChannelNo(), c));
    }

    method SendBasicResistance(resistance: Option<real>) returns (ticket: nat)
      requires base.channel != null && base.channel.Valid()
      modifies base.channel
      ensures base.channel.Valid()
      ensures HandedOver(Acknowledged(BasicResistancePayload(base.channel.channelNo, resistance)), ticket,
                         old(base.channel.isWriting), old(base.channel.written))
    {
      ticket := Send(BasicResistancePayload(base.channel.GetChannelNo(), resistance));
    }

    method SendTargetPower(power: Option<real>) returns (ticket: nat)
      requires base.channel != null && base.channel.Valid()
      modifies base.channel
      ensures base.channel.Valid()
      ensures HandedOver(Acknowledged(TargetPowerPayload(base.channel.channelNo, power)), ticket,
                         old(base.channel.isWriting), old(base.channel.written))
    {
      ticket := Send(TargetPowerPayload(base.channel.GetChannelNo(), power));
    }

    method SendWindResistance(windCoeff: Option<real>, windSpeed: Option<real>, draftFactor: Option<real>)
      returns (ticket: nat)
      requires base.channel != null && base.channel.Valid()
      modifies base.channel
      ensures base.channel.Valid()
      ensures HandedOver(Acknowledged(WindResistancePayload(base.channel.channelNo, windCoeff, windSpeed, draftFactor)),
                         ticket, old(base.channel.isWriting), old(base.channel.written))
    {
      ticket := Send(WindResistancePayload(base.channel.GetChannelNo(), windCoeff, windSpeed, draftFactor));
    }

    method SendTrackResistance(slope: Option<real>, rrCoeff: Option<real>) returns (ticket: nat)
      requires base.channel != null && base.channel.Valid()
      modifies base.channel
      ensures base.channel.Valid()
      ensures HandedOver(Acknowledged(TrackResistancePayload(base.channel.channelNo, slope, rrCoeff)), ticket,
                         old(base.channel.isWriting), old(base.channel.written))
    {
      ticket := Send(TrackResistancePayload(base.channel.GetChannelNo(), slope, rrCoeff));
    }
  }
}
