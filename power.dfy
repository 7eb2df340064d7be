/**
 * The ANT+ Bicycle Power decoder (src/sensors/bicycle-power-sensors.ts):
 * the per-device record, the decoding of data pages 0x01, 0x10, 0x12, 0x20,
 * 0x50, 0x51 and 0x52, and the sensor object that keeps one record per
 * device and reports changed records to its channel.
 *
 * `Date.now()` is the parameter `now` (milliseconds). Values the source
 * computes by unguarded division are `JsNumber.Num`s, so the infinities and
 * NaN it can store are part of the model.
 */
module BicyclePower {
  import opened Wrappers
  import opened Frames
  import opened JsNumber
  import opened BaseSensor
  import AntChannel
  import Messages
  import Consts

  const DEVICE_TYPE := 0x0B
  const PROFILE := "PWR"
  const PERIOD := 8182

  /** A receive channel on RF channel 57 (2457 MHz) with any transmission type, never timing out, about four messages a second. */
  function ChannelConfiguration(): (c: Messages.ChannelConfiguration)
    ensures c.channelType == "receive" && c.transmissionType == 0 && c.timeout == Consts.TIMEOUT_NEVER
    ensures c.frequency == 57 && c.period == PERIOD && 4 * c.period <= 32768 < 5 * c.period
  {
    Messages.ChannelConfiguration("receive", 0, Consts.TIMEOUT_NEVER, PERIOD, 57)
  }

  /**
   * The per-device record. Raw counters and timestamps are stored exactly as
   * received, so their types bound them; `EventTime10`/`EventTime12` are the
   * wall-clock times (ms) at which the page's event count last changed.
   */
  datatype PowerState = PowerState(
    DeviceID: Word,
    Cadence: Option<int>,
    CalculatedCadence: Option<Num>,
    Power: Option<int>,
    CalculatedPower: Option<Num>,
    CalculatedTorque: Option<Num>,
    Offset: Word,
    EventCount10: Byte,
    EventTime10: int,
    PedalPower: Option<int>,
    RightPedalPower: Option<int>,
    LeftPedalPower: Option<int>,
    AccumulatedPower: Word,
    EventCount12: Byte,
    EventTime12: int,
    CrankTicks: Byte,
    AccumulatedCrankPeriod: Word,
    AccumulatedTorque: Word,
    EventCount20: Byte,
    Slope: Word,
    CrankTicksStamp: Word,
    TorqueTicksStamp: Word,
    ManId: Option<int>,
    SerialNumber: Option<int>,
    HwVersion: Option<int>,
    SwVersion: Option<int>,
    ModelNum: Option<int>,
    BatteryLevel: Option<int>,
    BatteryVoltage: Option<real>,
    BatteryStatus: Battery,
    Rssi: Option<int>,
    Threshold: Option<int>)

  /** No measurement has been decoded: every reading is undefined and every counter starts at 0. */
  predicate NoReadings(s: PowerState) {
    && s.Cadence.None? && s.CalculatedCadence.None? && s.Power.None?
    && s.CalculatedPower.None? && s.CalculatedTorque.None?
    && s.PedalPower.None? && s.RightPedalPower.None? && s.LeftPedalPower.None?
    && s.Offset == 0 && s.AccumulatedPower == 0
    && s.EventCount10 == 0 && s.EventCount12 == 0 && s.EventCount20 == 0
    && s.CrankTicks == 0 && s.AccumulatedCrankPeriod == 0 && s.AccumulatedTorque == 0
    && s.Slope == 0 && s.CrankTicksStamp == 0 && s.TorqueTicksStamp == 0
  }

  /** `new BicyclePowerSensorState(deviceID)`; both event times start at the creation time. */
  function NewPowerState(deviceID: Word, now: int): (s: PowerState)
    ensures s.DeviceID == deviceID && NoReadings(s)
    ensures s.EventTime10 == now && s.EventTime12 == now
    ensures s.ManId.None? && s.SerialNumber.None? && s.HwVersion.None? && s.SwVersion.None? && s.ModelNum.None?
    ensures s.BatteryLevel.None? && s.BatteryVoltage.None? && s.BatteryStatus == Invalid
    ensures s.Rssi.None? && s.Threshold.None?
  {
    PowerState(deviceID, None, None, None, None, None, 0, 0, now, None, None, None, 0,
               0, now, 0, 0, 0, 0, 0, 0, 0, None, None, None, None, None, None, None, Invalid, None, None)
  }

  // ---------------------------------------------------------------------------
  // Page 0x01: calibration

  function CalibrationPage(s: PowerState, data: Frame): (r: PowerState)
    requires HasExtendedId(data)
    ensures Msg(data, 1) == 0x10 && Msg(data, 2) == 0x01 ==> r == s.(Offset := MsgWord(data, 6))
    ensures !(Msg(data, 1) == 0x10 && Msg(data, 2) == 0x01) ==> r == s
  {
    var calID := Msg(data, 1);
    if calID == 0x10 then
      var calParam := Msg(data, 2);
      if calParam == 0x01 then s.(Offset := MsgWord(data, 6)) else s
    else s
  }

  // ---------------------------------------------------------------------------
  // Page 0x10: power only

  /** The cadence byte, undefined when it is 0xFF. */
  function PageCadence(data: Frame): (c: Option<int>)
    requires HasExtendedId(data)
    ensures c.None? <==> Msg(data, 3) == 0xFF
    ensures c.Some? ==> c.value == Msg(data, 3) && 0 <= c.value < 0xFF
  {
    var cadence := Msg(data, 3);
    if cadence == 0xFF then None else Some(cadence)
  }

  /**
   * `125000 / cadence ? cadence : 62.5`. The quotient only decides the
   * branch: it is NaN (false) for an undefined cadence and truthy otherwise,
   * 0 included (125000 / 0 is Infinity). So the stall delay is the cadence
   * value itself, and 62.5 when the cadence is undefined.
   */
  function StallDelay(cadence: Option<int>): (delay: real)
    requires cadence.Some? ==> cadence.value >= 0
    ensures cadence.Some? ==> delay == cadence.value as real
    ensures cadence.None? ==> delay == 62.5
  {
    var quotient := Div(FromInt(125000), if cadence.Some? then FromInt(cadence.value) else NaN);
    if Truthy(quotient) then cadence.GetOr(0) as real else 62.5
  }

  /** The fields page 0x10 may write; every other field keeps its value. */
  predicate OnlyPowerOnlyFields(s: PowerState, r: PowerState) {
    r == s.(EventCount10 := r.EventCount10, EventTime10 := r.EventTime10,
            PedalPower := r.PedalPower, RightPedalPower := r.RightPedalPower, LeftPedalPower := r.LeftPedalPower,
            Cadence := r.Cadence, AccumulatedPower := r.AccumulatedPower, Power := r.Power)
  }

  /**
   * Page 0x10. A new event count records the time and the readings; the pedal
   * byte (unless 0xFF) gives the pedal-power percentage in its low 7 bits and,
   * with bit 0x80, that it is the right pedal's share. An unchanged event
   * count for at least the stall delay forces cadence and power to 0.
   */
  function PowerOnlyPage(s: PowerState, data: Frame, now: int): (r: PowerState)
    requires HasExtendedId(data)
    ensures OnlyPowerOnlyFields(s, r)
    ensures r.EventCount10 == Msg(data, 1)
    ensures s.EventCount10 != Msg(data, 1) ==>
              && r.EventTime10 == now
              && r.Cadence == PageCadence(data)
              && r.AccumulatedPower == MsgWord(data, 4)
              && r.Power == Some(MsgWord(data, 6))
    ensures s.EventCount10 != Msg(data, 1) && Msg(data, 2) != 0xFF ==>
              && r.PedalPower == Some(Msg(data, 2) % 0x80)
              && (HasFlag(Msg(data, 2), 0x80) <==> r.RightPedalPower.Some?)
              && (r.RightPedalPower.Some? ==> r.RightPedalPower == r.PedalPower && r.LeftPedalPower.Some?
                                              && r.LeftPedalPower.value + r.RightPedalPower.value == 100)
              && (r.RightPedalPower.None? ==> r.LeftPedalPower.None?)
    ensures s.EventCount10 != Msg(data, 1) && Msg(data, 2) == 0xFF ==>
              r.PedalPower == s.PedalPower && r.RightPedalPower == s.RightPedalPower && r.LeftPedalPower == s.LeftPedalPower
    ensures s.EventCount10 == Msg(data, 1) ==>
              r == (if (now - s.EventTime10) as real >= (if Msg(data, 3) == 0xFF then 62.5 else Msg(data, 3) as real)
                    then s.(Cadence := Some(0), Power := Some(0))
                    else s)
  {
    var oldEventTime := s.EventTime10;
    var eventCount := Msg(data, 1);
    var cadence := PageCadence(data);
    var delay := StallDelay(cadence);
    if s.EventCount10 != eventCount then
      var s1 := s.(EventTime10 := now, EventCount10 := eventCount);
      var pedalPower := Msg(data, 2);
      var s2 :=
        if pedalPower == 0xFF then s1
        else if HasFlag(pedalPower, 0x80) then
          var pp := pedalPower % 0x80;
          s1.(PedalPower := Some(pp), RightPedalPower := Some(pp), LeftPedalPower := Some(100 - pp))
        else s1.(PedalPower := Some(pedalPower % 0x80), RightPedalPower := None, LeftPedalPower := None);
      s2.(Cadence := cadence, AccumulatedPower := MsgWord(data, 4), Power := Some(MsgWord(data, 6)))
    else if (now - oldEventTime) as real >= delay then
      s.(Cadence := Some(0), Power := Some(0))
    else s
  }

  // ---------------------------------------------------------------------------
  // Page 0x12: standard crank torque

  /** The fields page 0x12 may write. */
  predicate OnlyCrankTorqueFields(s: PowerState, r: PowerState) {
    r == s.(EventTime12 := r.EventTime12, EventCount12 := r.EventCount12, CrankTicks := r.CrankTicks,
            Cadence := r.Cadence, AccumulatedCrankPeriod := r.AccumulatedCrankPeriod,
            AccumulatedTorque := r.AccumulatedTorque, CalculatedTorque := r.CalculatedTorque,
            CalculatedPower := r.CalculatedPower, CalculatedCadence := r.CalculatedCadence)
  }

  /**
   * Torque, power and cadence of page 0x12 from the number of crank
   * revolutions, the elapsed accumulated period (1/2048 s) and the elapsed
   * accumulated torque (1/32 Nm): the torque is the mean torque per
   * revolution, the cadence in rpm covers `events` revolutions in the period,
   * and the power is torque times angular velocity. A zero period divides by
   * zero: the cadence is infinite, and so is the power unless no torque
   * accumulated, when it is NaN (infinity times zero).
   */
  function CrankTorqueValues(events: int, period: int, torque: int): (r: (Num, Num, Num))
    requires events >= 1
    ensures IsFinite(r.0) && Value(r.0) == torque as real / (32 * events) as real
    ensures period != 0 ==> IsFinite(r.2) && Value(r.2) == 60.0 * events as real / (period as real / 2048.0)
    ensures period != 0 ==> IsFinite(r.1)
                            && Value(r.1) == 2.0 * PI * events as real / (period as real / 2048.0) * Value(r.0)
    ensures period == 0 ==> r.2 == PosInf
    ensures period == 0 && torque == 0 ==> r.1.NaN?
    ensures period == 0 && torque > 0 ==> r.1 == PosInf
  {
    var rotationPeriod := Div(FromInt(period), FromInt(2048));
    var angularVel := Div(Mul(Mul(FromInt(2), Fin(PI)), FromInt(events)), rotationPeriod);
    var torqueValue := Div(FromInt(torque), Mul(FromInt(32), FromInt(events)));
    var cadence := Div(Mul(FromInt(60), FromInt(events)), rotationPeriod);
    (torqueValue, Mul(angularVel, torqueValue), cadence)
  }

  /** The revolutions between two 8-bit event counts, compensated for one rollover at 256. */
  function Revolutions(previous: Byte, count: Byte): (n: int)
    ensures n == (count - previous) % 0x100
    ensures previous != count ==> 1 <= n <= 255
  {
    Unwrap(previous, count, 256) - previous
  }

  /** The advance between two 16-bit accumulators, compensated for one rollover at 65536. */
  function WordDelta(previous: Word, current: Word): (n: int)
    ensures 0 <= n < 0x1_0000 && n == (current - previous) % 0x1_0000
  {
    Unwrap(previous, current, 65536) - previous
  }

  /**
   * Page 0x12. On a new event count the raw count, crank ticks, accumulated
   * period and accumulated torque are stored as received, and the
   * rollover-compensated differences to the previous page (the revolutions
   * lie in 1..255) give the calculated torque, power and cadence. An
   * unchanged event count for at least the stall delay forces all four
   * readings to 0.
   */
  function CrankTorquePage(s: PowerState, data: Frame, now: int): (r: PowerState)
    requires HasExtendedId(data)
    ensures OnlyCrankTorqueFields(s, r)
    ensures s.EventCount12 != Msg(data, 1) ==>
              var events := Revolutions(s.EventCount12, Msg(data, 1));
              && 1 <= events <= 255
              && r.EventTime12 == now && r.EventCount12 == Msg(data, 1) && r.CrankTicks == Msg(data, 2)
              && r.AccumulatedCrankPeriod == MsgWord(data, 4) && r.AccumulatedTorque == MsgWord(data, 6)
              && r.Cadence == PageCadence(data)
              && var values := CrankTorqueValues(events, WordDelta(s.AccumulatedCrankPeriod, MsgWord(data, 4)),
                                                 WordDelta(s.AccumulatedTorque, MsgWord(data, 6)));
                 r.CalculatedTorque == Some(values.0) && r.CalculatedPower == Some(values.1)
                 && r.CalculatedCadence == Some(values.2)
    ensures s.EventCount12 == Msg(data, 1) ==>
              r == (if (now - s.EventTime12) as real >= (if Msg(data, 3) == 0xFF then 62.5 else Msg(data, 3) as real)
                    then s.(Cadence := Some(0), CalculatedTorque := Some(Fin(0.0)),
                            CalculatedPower := Some(Fin(0.0)), CalculatedCadence := Some(Fin(0.0)))
                    else s)
  {
    var oldEventTime := s.EventTime12;
    var oldEventCount := s.EventCount12;
    var oldAccumulatedPeriod := s.AccumulatedCrankPeriod;
    var oldAccumulatedTorque := s.AccumulatedTorque;
    var eventCount := Msg(data, 1);
    var cadence := PageCadence(data);
    var delay := StallDelay(cadence);
    if oldEventCount != eventCount then
      var accumulatedPeriod := MsgWord(data, 4);
      var accumulatedTorque := MsgWord(data, 6);
      var values := CrankTorqueValues(Revolutions(oldEventCount, eventCount),
                                      WordDelta(oldAccumulatedPeriod, accumulatedPeriod),
                                      WordDelta(oldAccumulatedTorque, accumulatedTorque));
      s.(EventTime12 := now, EventCount12 := eventCount, CrankTicks := Msg(data, 2), Cadence := cadence,
         AccumulatedCrankPeriod := accumulatedPeriod, AccumulatedTorque := accumulatedTorque,
         CalculatedTorque := Some(values.0), CalculatedPower := Some(values.1), CalculatedCadence := Some(values.2))
    else if (now - oldEventTime) as real >= delay then
      s.(Cadence := Some(0), CalculatedTorque := Some(Fin(0.0)),
         CalculatedPower := Some(Fin(0.0)), CalculatedCadence := Some(Fin(0.0)))
    else s
  }

  // ---------------------------------------------------------------------------
  // Page 0x20: crank torque frequency

  /** The fields page 0x20 may write. */
  predicate OnlyTorqueFrequencyFields(s: PowerState, r: PowerState) {
    r == s.(EventCount20 := r.EventCount20, CrankTicksStamp := r.CrankTicksStamp, Slope := r.Slope,
            TorqueTicksStamp := r.TorqueTicksStamp, CalculatedCadence := r.CalculatedCadence,
            CalculatedTorque := r.CalculatedTorque, CalculatedPower := r.CalculatedPower)
  }

  /**
   * The torque ticks stamp of page 0x20 is read at data bytes 7 and 8, so its
   * high byte is the first byte after the page: the extension flag byte.
   */
  function TorqueTicksStampOf(data: Frame): (w: Word)
    requires HasExtendedId(data)
    ensures w % 0x100 == Msg(data, 7) && w / 0x100 == data[BUFFER_INDEX_EXT_MSG_BEGIN]
  {
    MsgWord(data, 7)
  }

  /** `Math.round(60 / cadencePeriod)`, the period being the elapsed 1/2000 s ticks per revolution, in seconds. */
  function TorqueFrequencyCadence(events: int, ticks: int): (cadence: Num)
    ensures events > 0 && ticks > 0 ==> IsFinite(cadence)
    ensures events == 0 && ticks != 0 ==> IsZero(cadence)
  {
    var elapsedTime := Mul(FromInt(ticks), Fin(0.0005));
    Round(Div(FromInt(60), Div(elapsedTime, FromInt(events))))
  }

  /** In the normal case the cadence is 60 revolutions per minute over the elapsed seconds, to the nearest integer. */
  lemma {:induction false} TorqueFrequencyCadenceRpm(events: int, ticks: int)
    requires events > 0 && ticks > 0
    ensures var c := Value(TorqueFrequencyCadence(events, ticks));
            c - 0.5 <= (120000 * events) as real / ticks as real < c + 0.5
  {
    var elapsed := ticks as real * 0.0005;
    var period := elapsed / events as real;
    assert Value(Div(Mul(FromInt(ticks), Fin(0.0005)), FromInt(events))) == period;
    assert 60.0 / period == (120000 * events) as real / ticks as real;
  }

  /**
   * The torque of page 0x20: the torque-tick frequency over the elapsed
   * time, less the calibration offset, over the slope in 1/10 Nm/Hz.
   */
  function TorqueFrequencyTorque(ticks: int, torqueTicks: int, slope: Word, offset: Word): (torque: Num)
    ensures ticks > 0 && torqueTicks != 0 && slope != 0 ==>
              IsFinite(torque)
              && Value(torque) == (1.0 / (ticks as real * 0.0005 / torqueTicks as real) - offset as real) / (slope as real / 10.0)
  {
    var elapsedTime := Mul(FromInt(ticks), Fin(0.0005));
    var tickPeriod := Div(elapsedTime, FromInt(torqueTicks));
    assert ticks > 0 && torqueTicks != 0 ==> Value(elapsedTime) > 0.0 && Value(tickPeriod) != 0.0;
    var torqueFrequency := Sub(Div(FromInt(1), tickPeriod), FromInt(offset));
    Div(torqueFrequency, Div(FromInt(slope), FromInt(10)))
  }

  /** The power of page 0x20 in watts, `torque · cadence · π / 30`. */
  function TorqueFrequencyPower(torque: Num, cadence: Num): (power: Num)
    ensures IsFinite(torque) && IsFinite(cadence) ==>
              IsFinite(power) && Value(power) == Value(torque) * Value(cadence) * PI / 30.0
  {
    Div(Mul(Mul(torque, cadence), Fin(PI)), FromInt(30))
  }

  /**
   * Cadence, torque and power of page 0x20. With revolutions, elapsed ticks,
   * torque ticks and slope all non-zero the three are finite: the cadence is
   * 120000 · events / ticks to the nearest rpm, and the power is the torque
   * at that cadence (`TorqueFrequencyPower`). No revolutions give cadence 0
   * when ticks passed, and then power 0 when torque ticks and slope are
   * non-zero.
   */
  function TorqueFrequencyValues(events: int, ticks: int, torqueTicks: int, slope: Word, offset: Word)
    : (r: (Num, Num, Num))
    ensures ticks > 0 && torqueTicks != 0 && slope != 0 ==>
              IsFinite(r.1)
              && Value(r.1) == (1.0 / (ticks as real * 0.0005 / torqueTicks as real) - offset as real) / (slope as real / 10.0)
    ensures events > 0 && ticks > 0 && torqueTicks != 0 && slope != 0 ==>
              && IsFinite(r.0) && IsFinite(r.2)
              && Value(r.0) - 0.5 <= (120000 * events) as real / ticks as real < Value(r.0) + 0.5
    ensures events == 0 && ticks != 0 ==> IsZero(r.0)
    ensures events == 0 && ticks > 0 && torqueTicks != 0 && slope != 0 ==> IsFinite(r.2) && Value(r.2) == 0.0
    ensures r.2 == TorqueFrequencyPower(r.1, r.0)
  {
    var cadence := TorqueFrequencyCadence(events, ticks);
    var torque := TorqueFrequencyTorque(ticks, torqueTicks, slope, offset);
    var power := TorqueFrequencyPower(torque, cadence);
    assert events > 0 && ticks > 0 && torqueTicks != 0 && slope != 0 ==>
             && IsFinite(cadence) && IsFinite(power)
             && Value(cadence) - 0.5 <= (120000 * events) as real / ticks as real < Value(cadence) + 0.5 by {
      if events > 0 && ticks > 0 && torqueTicks != 0 && slope != 0 {
        TorqueFrequencyCadenceRpm(events, ticks);
        assert IsFinite(torque) && IsFinite(cadence);
      }
    }
    assert events == 0 && ticks > 0 && torqueTicks != 0 && slope != 0 ==> IsFinite(power) && Value(power) == 0.0 by {
      if events == 0 && ticks > 0 && torqueTicks != 0 && slope != 0 {
        assert Value(cadence) == 0.0;
        assert Value(torque) * Value(cadence) == 0.0;
      }
    }
    (cadence, torque, power)
  }

  /**
   * Page 0x20. Only a page whose crank time stamp and event count both
   * changed is decoded: the raw values are stored, and the differences use
   * the source's rollover constants (255 for the 8-bit count, 65400 and
   * 65535 for the two 16-bit stamps).
   */
  function TorqueFrequencyPage(s: PowerState, data: Frame): (r: PowerState)
    requires HasExtendedId(data)
    ensures OnlyTorqueFrequencyFields(s, r)
    ensures !(MsgWord(data, 5) != s.CrankTicksStamp && Msg(data, 1) != s.EventCount20) ==> r == s
    ensures MsgWord(data, 5) != s.CrankTicksStamp && Msg(data, 1) != s.EventCount20 ==>
              && r.EventCount20 == Msg(data, 1) && r.Slope == MsgWord(data, 3)
              && r.CrankTicksStamp == MsgWord(data, 5) && r.TorqueTicksStamp == TorqueTicksStampOf(data)
              && var values := TorqueFrequencyValues(
                   Unwrap(s.EventCount20, Msg(data, 1), 255) - s.EventCount20,
                   Unwrap(s.CrankTicksStamp, MsgWord(data, 5), 65400) - s.CrankTicksStamp,
                   Unwrap(s.TorqueTicksStamp, TorqueTicksStampOf(data), 65535) - s.TorqueTicksStamp,
                   MsgWord(data, 3), s.Offset);
                 r.CalculatedCadence == Some(values.0) && r.CalculatedTorque == Some(values.1)
                 && r.CalculatedPower == Some(values.2)
  {
    if MsgWord(data, 5) != s.CrankTicksStamp && Msg(data, 1) != s.EventCount20 then
      var values := TorqueFrequencyValues(
        Unwrap(s.EventCount20, Msg(data, 1), 255) - s.EventCount20,
        Unwrap(s.CrankTicksStamp, MsgWord(data, 5), 65400) - s.CrankTicksStamp,
        Unwrap(s.TorqueTicksStamp, TorqueTicksStampOf(data), 65535) - s.TorqueTicksStamp,
        MsgWord(data, 3), s.Offset);
      s.(EventCount20 := Msg(data, 1), CrankTicksStamp := MsgWord(data, 5), Slope := MsgWord(data, 3),
         TorqueTicksStamp := TorqueTicksStampOf(data), CalculatedCadence := Some(values.0),
         CalculatedTorque := Some(values.1), CalculatedPower := Some(values.2))
    else s
  }

  /**
   * The 8-bit event count is compensated with 255 instead of 256: after the
   * count steps from 255 to 0 the difference is 0 revolutions and the
   * decoded cadence is 0, although the crank turned.
   */
  lemma CountWrapGivesZeroCadence(s: PowerState, data: Frame)
    requires HasExtendedId(data)
    requires s.EventCount20 == 255 && Msg(data, 1) == 0 && MsgWord(data, 5) > s.CrankTicksStamp
    ensures TorqueFrequencyPage(s, data).CalculatedCadence.Some?
    ensures IsZero(TorqueFrequencyPage(s, data).CalculatedCadence.value)
  {
    var ticks := Unwrap(s.CrankTicksStamp, MsgWord(data, 5), 65400) - s.CrankTicksStamp;
    assert ticks != 0;
  }

  // ---------------------------------------------------------------------------
  // Common pages 0x50, 0x51, 0x52

  function ManufacturerPage(s: PowerState, data: Frame): (r: PowerState)
    requires HasExtendedId(data)
    ensures r == s.(ManId := r.ManId, SerialNumber := r.SerialNumber)
    ensures r.ManId == Some(MsgWord(data, 4))
    ensures r.SerialNumber.Some? && 0 <= r.SerialNumber.value < 0x1_0000_0000
    ensures r.SerialNumber.value % 0x1_0000 == s.DeviceID && r.SerialNumber.value / 0x1_0000 == MsgWord(data, 2)
  {
    s.(ManId := Some(MsgWord(data, 4)), SerialNumber := Some(SerialNumber(s.DeviceID, MsgWord(data, 2))))
  }

  function ProductPage(s: PowerState, data: Frame): (r: PowerState)
    requires HasExtendedId(data)
    ensures r == s.(HwVersion := r.HwVersion, SwVersion := r.SwVersion, ModelNum := r.ModelNum)
    ensures r.HwVersion == Some(Msg(data, 1)) && r.SwVersion == Some(Msg(data, 2)) && r.ModelNum == Some(Msg(data, 3))
  {
    s.(HwVersion := Some(Msg(data, 1)), SwVersion := Some(Msg(data, 2)), ModelNum := Some(Msg(data, 3)))
  }

  /** Page 0x52: the level (unless 0xFF), then the voltage and condition from the shared battery decoding. */
  function BatteryPage(s: PowerState, data: Frame): (r: PowerState)
    requires HasExtendedId(data)
    ensures r == s.(BatteryLevel := r.BatteryLevel, BatteryVoltage := r.BatteryVoltage, BatteryStatus := r.BatteryStatus)
    ensures r.BatteryLevel == (if Msg(data, 1) == 0xFF then s.BatteryLevel else Some(Msg(data, 1)))
    ensures r.BatteryStatus == Invalid <==> r.BatteryVoltage.None?
    ensures BatteryReading(r.BatteryVoltage, r.BatteryStatus) == DecodeBattery(Msg(data, 2), Msg(data, 3))
  {
    var batteryLevel := Msg(data, 1);
    var s1 := if batteryLevel != 0xFF then s.(BatteryLevel := Some(batteryLevel)) else s;
    var reading := DecodeBattery(Msg(data, 2), Msg(data, 3));
    s1.(BatteryVoltage := reading.voltage, BatteryStatus := reading.status)
  }

  // ---------------------------------------------------------------------------
  // updateState

  /** The data pages this decoder understands. */
  predicate KnownPage(page: Byte) {
    page in {0x01, 0x10, 0x12, 0x20, 0x50, 0x51, 0x52}
  }

  /**
   * `updateState`: dispatch on the page number in data byte 0. Every page
   * keeps the device ID; an unknown page changes nothing.
   */
  function UpdateState(s: PowerState, data: Frame, now: int): (r: PowerState)
    requires HasExtendedId(data)
    ensures r.DeviceID == s.DeviceID
    ensures !KnownPage(Msg(data, 0)) ==> r == s
    ensures r.Offset != s.Offset ==> Msg(data, 0) == 0x01
    ensures r.ManId != s.ManId || r.SerialNumber != s.SerialNumber ==> Msg(data, 0) == 0x50
    ensures Msg(data, 0) == 0x10 ==> r.EventCount10 == Msg(data, 1)
  {
    match Msg(data, 0)
    case 0x01 => CalibrationPage(s, data)
    case 0x10 => PowerOnlyPage(s, data, now)
    case 0x12 => CrankTorquePage(s, data, now)
    case 0x20 => TorqueFrequencyPage(s, data)
    case 0x50 => ManufacturerPage(s, data)
    case 0x51 => ProductPage(s, data)
    case 0x52 => BatteryPage(s, data)
    case _ => s
  }

  /** The scanner block's RSSI and threshold, each stored only when it was read. */
  function WithScannerInfo(s: PowerState, info: ScannerInfo): (r: PowerState)
    ensures r == s.(Rssi := r.Rssi, Threshold := r.Threshold)
    ensures r.Rssi == (if info.rssi.Some? then info.rssi else s.Rssi)
    ensures r.Threshold == (if info.threshold.Some? then info.threshold else s.Threshold)
  {
    s.(Rssi := if info.rssi.Some? then info.rssi else s.Rssi,
       Threshold := if info.threshold.Some? then info.threshold else s.Threshold)
  }

  // ---------------------------------------------------------------------------
  // The sensor object

  class PowerSensor {
    const base: Sensor
    var states: map<int, PowerState>

    constructor (deviceID: int := 0)
      ensures fresh(base) && base.GetDeviceID() == deviceID && base.GetChannel() == null
      ensures base.GetSendTimeout() == SEND_TIMEOUT && states == map[]
    {
      base := new Sensor(deviceID);
      states := map[];
    }

    /** The record a matching frame leads to before `updateState`: created on first sight, then the scanner block. */
    ghost function Seen(data: Frame, now: int): PowerState
      requires HasExtendedId(data)
      reads this
    {
      var id := FrameDeviceID(data);
      var created := if id in states then states[id] else NewPowerState(id, now);
      WithScannerInfo(created, ReadScannerInfo(data))
    }

    /** The step of `onMessage` before decoding: the device's record is created on first sight and takes the scanner block. */
    method Track(data: Frame, now: int) returns (aborted: bool)
      requires HasExtendedId(data)
      modifies this
      ensures states == old(states)[FrameDeviceID(data) := old(Seen(data, now))]
      ensures aborted == ReadScannerInfo(data).aborted
    {
      var deviceID := FrameDeviceID(data);
      if deviceID !in states {
        states := states[deviceID := NewPowerState(deviceID, now)];
      }
      var info := ReadScannerInfo(data);
      states := states[deviceID := WithScannerInfo(states[deviceID], info)];
      aborted := info.aborted;
    }

    /**
     * `onMessage`: frames for another channel or device type, and frames too
     * short to name a device, change nothing. A matching frame creates the
     * device's record if needed and copies the scanner block; a data message
     * is then decoded, and reported to the channel when the ID filter passes
     * and the record changed. A short scanner block aborts after the record
     * was created.
     */
    method OnMessage(data: Frame, now: int) returns (notified: bool)
      modifies this, base.channel
      ensures base.channel == null || !ForDecoder(data, base.channel.channelNo, DEVICE_TYPE) ==>
                states == old(states) && !notified
      ensures base.channel != null && ForDecoder(data, base.channel.channelNo, DEVICE_TYPE) ==>
                var id := FrameDeviceID(data);
                var seen := old(Seen(data, now));
                var decode := !ReadScannerInfo(data).aborted && IsDataMessage(data);
                var after := if decode then UpdateState(seen, data, now) else seen;
                && states == old(states)[id := after]
                && (notified <==> decode && Accepts(base.deviceID, id) && after != seen)
      ensures base.channel != null ==>
                && base.channel.emitted == old(base.channel.emitted)
                     + (if notified then AntChannel.DeviceDataEvents(base.channel.isScanner, PROFILE, FrameDeviceID(data)) else [])
                && base.channel.messageQueue == old(base.channel.messageQueue)
                && base.channel.written == old(base.channel.written)
                && base.channel.settlements == old(base.channel.settlements)
                && base.channel.isScanner == old(base.channel.isScanner)
                && base.channel.isSensor == old(base.channel.isSensor)
                && base.channel.isWriting == old(base.channel.isWriting)
                && base.channel.nextTicket == old(base.channel.nextTicket)
    {
      notified := false;
      var channel := base.GetChannel();
      if channel == null {
        return;
      }
      var channelNo := channel.GetChannelNo();
      if !HasExtendedId(data) {
        return;
      }
      var deviceID := FrameDeviceID(data);
      var deviceType := FrameDeviceType(data);
      if data[BUFFER_INDEX_CHANNEL_NUM] != channelNo || deviceType != DEVICE_TYPE {
        return;
      }
      var aborted := Track(data, now);
      if aborted {
        return;
      }
      if IsDataMessage(data) {
        var before := states[deviceID];
        var after := UpdateState(before, data, now);
        states := states[deviceID := after];
        if Accepts(base.deviceID, deviceID) && after != before {
          channel.OnDeviceData(PROFILE, deviceID);
          notified := true;
        }
      }
    }
  }
}
