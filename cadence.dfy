/**
 * The ANT+ Bicycle Cadence decoder (src/sensors/cadence-sensors.ts): the
 * per-device record, the decoding of pages 0 to 5 (the page number's toggle
 * bit 0x80 ignored), and the sensor object that keeps one record per device.
 *
 * Cadence event times are in 1/1024 s and wrap at 65536, like the cumulative
 * revolution count; `now` stands for `Date.now()` in milliseconds.
 */
module Cadence {
  import opened Wrappers
  import opened Frames
  import opened BaseSensor
  import AntChannel
  import Messages
  import Consts

  const DEVICE_TYPE := 0x7a
  const PROFILE := "CAD"
  const PERIOD := 8102

  /** An event time that repeats for this long (ms) forces the cadence to 0. */
  const STALL_TIME := 5000

  /** A receive channel on RF channel 57 (2457 MHz) with any transmission type, never timing out, about four messages a second. */
  function ChannelConfiguration(): (c: Messages.ChannelConfiguration)
    ensures c.channelType == "receive" && c.transmissionType == 0 && c.timeout == Consts.TIMEOUT_NEVER
    ensures c.frequency == 57 && c.period == PERIOD && 4 * c.period <= 32768 < 5 * c.period
  {
    Messages.ChannelConfiguration("receive", 0, Consts.TIMEOUT_NEVER, PERIOD, 57)
  }

  /** The per-device record; every field but the device ID starts undefined. */
  datatype CadenceState = CadenceState(
    DeviceID: Word,
    ManId: Option<int>,
    CadenceEventTime: Option<Word>,
    CumulativeCadenceRevolutionCount: Option<Word>,
    CalculatedCadence: Option<real>,
    Motion: Option<bool>,
    EventTime: Option<int>,
    OperatingTime: Option<int>,
    SerialNumber: Option<int>,
    HwVersion: Option<int>,
    SwVersion: Option<int>,
    ModelNum: Option<int>,
    BatteryVoltage: Option<real>,
    BatteryStatus: Option<Battery>,
    Rssi: Option<int>,
    Threshold: Option<int>)

  function NewCadenceState(deviceID: Word): (s: CadenceState)
    ensures s.DeviceID == deviceID
    ensures s == CadenceState(deviceID, None, None, None, None, None, None, None, None, None, None, None, None, None, None, None)
  {
    CadenceState(deviceID, None, None, None, None, None, None, None, None, None, None, None, None, None, None, None)
  }

  /**
   * The event time and the revolution count are stored together, and the
   * wall-clock time of the last event is known whenever they are.
   */
  predicate Consistent(s: CadenceState) {
    && (s.CadenceEventTime.Some? <==> s.CumulativeCadenceRevolutionCount.Some?)
    && (s.CadenceEventTime.Some? ==> s.EventTime.Some?)
  }

  // ---------------------------------------------------------------------------
  // The cadence computation shared with the combined speed and cadence sensor

  /**
   * `60 * (count - oldCount) * 1024 / (time - oldTime)` after compensating a
   * time rollover, kept only when it is a number: undefined while there is
   * no previous event. The time difference is always 1..65535 ticks, so a
   * defined cadence is finite; the revolution count is not compensated, so
   * a count that wraps gives a negative cadence.
   */
  function RevolutionCadence(oldTime: Option<Word>, oldCount: Option<Word>, time: Word, count: Word): (c: Option<real>)
    requires oldTime != Some(time)
    ensures c.Some? <==> oldTime.Some? && oldCount.Some?
    ensures c.Some? ==>
              var ticks := (time - oldTime.value) % 0x1_0000;
              1 <= ticks && c.value * ticks as real == (60 * 1024 * (count - oldCount.value)) as real
  {
    if oldTime.None? || oldCount.None? then None
    else
      var ticks := Unwrap(oldTime.value, time, 1024 * 64) - oldTime.value;
      Some((60 * (count - oldCount.value) * 1024) as real / ticks as real)
  }

  /** A cadence measured over `ticks` of 1/1024 s equals the revolutions per minute. */
  lemma {:induction false} RevolutionCadenceIsRpm(oldTime: Word, oldCount: Word, time: Word, count: Word)
    requires oldTime != time && oldCount <= count
    ensures var c := RevolutionCadence(Some(oldTime), Some(oldCount), time, count);
            var ticks := (time - oldTime) % 0x1_0000;
            c.Some? && c.value >= 0.0 && c.value * (ticks as real / 1024.0) / 60.0 == (count - oldCount) as real
  {
    var c := RevolutionCadence(Some(oldTime), Some(oldCount), time, count);
    var ticks := (time - oldTime) % 0x1_0000;
    assert c.value * ticks as real == (60 * 1024 * (count - oldCount)) as real;
    assert c.value >= 0.0;
  }

  /** The count is not compensated: a wrap from 65535 to 0 yields a negative cadence. */
  lemma CountWrapGivesNegativeCadence(oldTime: Word, time: Word)
    requires oldTime != time
    ensures var c := RevolutionCadence(Some(oldTime), Some(0xFFFF), time, 0);
            c.Some? && c.value < 0.0
  {
    var c := RevolutionCadence(Some(oldTime), Some(0xFFFF), time, 0);
    var ticks := (time - oldTime) % 0x1_0000;
    assert c.value * ticks as real < 0.0;
  }

  // ---------------------------------------------------------------------------
  // Pages

  /** The fields a cadence event (page 0, and page 5 with bit 0 set) may write. */
  predicate OnlyCadenceFields(s: CadenceState, r: CadenceState) {
    r == s.(EventTime := r.EventTime, CadenceEventTime := r.CadenceEventTime,
            CumulativeCadenceRevolutionCount := r.CumulativeCadenceRevolutionCount,
            CalculatedCadence := r.CalculatedCadence)
  }

  /**
   * Page 0. A new event time records the wall-clock time, the event time and
   * the count, and the cadence since the previous event when there is one.
   * An unchanged event time for at least 5 s forces the cadence to 0.
   */
  function CadenceEventPage(s: CadenceState, data: Frame, now: int): (r: CadenceState)
    requires HasExtendedId(data)
    ensures OnlyCadenceFields(s, r)
    ensures s.CadenceEventTime != Some(MsgWord(data, 4)) ==>
              && r.EventTime == Some(now)
              && r.CadenceEventTime == Some(MsgWord(data, 4))
              && r.CumulativeCadenceRevolutionCount == Some(MsgWord(data, 6))
              && var c := RevolutionCadence(s.CadenceEventTime, s.CumulativeCadenceRevolutionCount,
                                            MsgWord(data, 4), MsgWord(data, 6));
                 r.CalculatedCadence == (if c.Some? then c else s.CalculatedCadence)
    ensures s.CadenceEventTime == Some(MsgWord(data, 4)) ==>
              r == (if s.EventTime.Some? && now - s.EventTime.value >= STALL_TIME
                    then s.(CalculatedCadence := Some(0.0)) else s)
    ensures Consistent(s) ==> Consistent(r)
  {
    var oldEventTime := s.EventTime;
    var cadenceTime := MsgWord(data, 4);
    var cadenceCount := MsgWord(data, 6);
    if Some(cadenceTime) != s.CadenceEventTime then
      var cadence := RevolutionCadence(s.CadenceEventTime, s.CumulativeCadenceRevolutionCount, cadenceTime, cadenceCount);
      s.(EventTime := Some(now), CadenceEventTime := Some(cadenceTime),
         CumulativeCadenceRevolutionCount := Some(cadenceCount),
         CalculatedCadence := if cadence.Some? then cadence else s.CalculatedCadence)
    else if oldEventTime.Some? && now - oldEventTime.value >= STALL_TIME then
      s.(CalculatedCadence := Some(0.0))
    else s
  }

  /** Page 1: the 24-bit cumulative operating time, in units of 2 s, converted to seconds. */
  function OperatingTimePage(s: CadenceState, data: Frame): (r: CadenceState)
    requires HasExtendedId(data)
    ensures r == s.(OperatingTime := r.OperatingTime)
    ensures r.OperatingTime.Some? && var t := r.OperatingTime.value;
            && 0 <= t < 2 * 0x100_0000 && t % 2 == 0
            && (t / 2) % 0x100 == Msg(data, 1) && (t / 2) / 0x100 % 0x100 == Msg(data, 2)
            && (t / 2) / 0x1_0000 == Msg(data, 3)
  {
    var ticks := Msg(data, 1) + Msg(data, 2) * 0x100 + Msg(data, 3) * 0x1_0000;
    assert (ticks * 2) / 2 == ticks && ticks / 0x100 == Msg(data, 2) + Msg(data, 3) * 0x100;
    assert ticks / 0x1_0000 == Msg(data, 3);
    s.(OperatingTime := Some(ticks * 2))
  }

  /** Page 2: the one-byte manufacturer ID, and the serial number from the device ID and the page's word. */
  function ManufacturerPage(s: CadenceState, data: Frame): (r: CadenceState)
    requires HasExtendedId(data)
    ensures r == s.(ManId := r.ManId, SerialNumber := r.SerialNumber)
    ensures r.ManId == Some(Msg(data, 1))
    ensures r.SerialNumber.Some? && 0 <= r.SerialNumber.value < 0x1_0000_0000
    ensures r.SerialNumber.value % 0x1_0000 == s.DeviceID && r.SerialNumber.value / 0x1_0000 == MsgWord(data, 2)
  {
    s.(ManId := Some(Msg(data, 1)), SerialNumber := Some(SerialNumber(s.DeviceID, MsgWord(data, 2))))
  }

  /** Page 3: hardware version, software version and model number, one byte each. */
  function ProductPage(s: CadenceState, data: Frame): (r: CadenceState)
    requires HasExtendedId(data)
    ensures r == s.(HwVersion := r.HwVersion, SwVersion := r.SwVersion, ModelNum := r.ModelNum)
    ensures r.HwVersion == Some(Msg(data, 1)) && r.SwVersion == Some(Msg(data, 2)) && r.ModelNum == Some(Msg(data, 3))
  {
    s.(HwVersion := Some(Msg(data, 1)), SwVersion := Some(Msg(data, 2)), ModelNum := Some(Msg(data, 3)))
  }

  /** Page 4: the battery voltage and condition. */
  function BatteryPage(s: CadenceState, data: Frame): (r: CadenceState)
    requires HasExtendedId(data)
    ensures r == s.(BatteryVoltage := r.BatteryVoltage, BatteryStatus := r.BatteryStatus)
    ensures r.BatteryStatus.Some?
    ensures r.BatteryStatus == Some(Invalid) <==> r.BatteryVoltage.None?
    ensures BatteryReading(r.BatteryVoltage, r.BatteryStatus.value) == DecodeBattery(Msg(data, 2), Msg(data, 3))
  {
    var reading := DecodeBattery(Msg(data, 2), Msg(data, 3));
    s.(BatteryVoltage := reading.voltage, BatteryStatus := Some(reading.status))
  }

  /**
   * Page 5: `Motion` is bit 0 of data byte 1. Bit 0 clear zeroes the cadence
   * and nothing else is read; bit 0 set falls through to the page-0 decoding
   * of the cadence event. (The comment beside the source's `break` calls a
   * set bit "stopped"; the model follows the code, which breaks on a clear
   * bit.)
   */
  function MotionPage(s: CadenceState, data: Frame, now: int): (r: CadenceState)
    requires HasExtendedId(data)
    ensures r.Motion == Some(Msg(data, 1) % 2 == 1)
    ensures Msg(data, 1) % 2 == 0 ==> r == s.(Motion := Some(false), CalculatedCadence := Some(0.0))
    ensures Msg(data, 1) % 2 == 1 ==> r == CadenceEventPage(s.(Motion := Some(true)), data, now)
  {
    var motion := Msg(data, 1) % 2 == 1;
    var s1 := s.(Motion := Some(motion));
    if !motion then s1.(CalculatedCadence := Some(0.0))
    else CadenceEventPage(s1, data, now)
  }

  /** The page number without its toggle bit. */
  function PageNumber(data: Frame): (page: int)
    requires HasExtendedId(data)
    ensures 0 <= page < 0x80 && (Msg(data, 0) - page) % 0x80 == 0
  {
    Msg(data, 0) % 0x80
  }

  /** `updateState`: dispatch on the page number without the toggle bit; pages above 5 change nothing. */
  function UpdateState(s: CadenceState, data: Frame, now: int): (r: CadenceState)
    requires HasExtendedId(data)
    ensures r.DeviceID == s.DeviceID
    ensures PageNumber(data) > 5 ==> r == s
    ensures Consistent(s) ==> Consistent(r)
    ensures r.CalculatedCadence != s.CalculatedCadence ==> PageNumber(data) in {0, 5}
  {
    match PageNumber(data)
    case 0 => CadenceEventPage(s, data, now)
    case 1 => OperatingTimePage(s, data)
    case 2 => ManufacturerPage(s, data)
    case 3 => ProductPage(s, data)
    case 4 => BatteryPage(s, data)
    case 5 => MotionPage(s, data, now)
    case _ => s
  }

  /** Frames that differ only in the toggle bit decode alike. */
  lemma {:induction false} ToggleBitIgnored(s: CadenceState, data: Frame, now: int, page: Byte)
    requires HasExtendedId(data) && page % 0x80 == Msg(data, 0) % 0x80
    ensures UpdateState(s, data[BUFFER_INDEX_MSG_DATA := page], now) == UpdateState(s, data, now)
  {
    var toggled := data[BUFFER_INDEX_MSG_DATA := page];
    assert forall k :: 0 < k < 8 ==> Msg(toggled, k) == Msg(data, k);
    assert forall k :: 0 < k < 7 ==> MsgWord(toggled, k) == MsgWord(data, k);
  }

  /** A page 5 with bit 0 clear zeroes the cadence whatever the event times say. */
  lemma MotionClearZeroesCadence(s: CadenceState, data: Frame, now: int)
    requires HasExtendedId(data) && PageNumber(data) == 5 && Msg(data, 1) % 2 == 0
    ensures UpdateState(s, data, now).CalculatedCadence == Some(0.0)
    ensures UpdateState(s, data, now).CadenceEventTime == s.CadenceEventTime
  {
  }

  /** The scanner block's RSSI and threshold, each stored only when it was read. */
  function WithScannerInfo(s: CadenceState, info: ScannerInfo): (r: CadenceState)
    ensures r == s.(Rssi := r.Rssi, Threshold := r.Threshold)
    ensures r.Rssi == (if info.rssi.Some? then info.rssi else s.Rssi)
    ensures r.Threshold == (if info.threshold.Some? then info.threshold else s.Threshold)
  {
    s.(Rssi := if info.rssi.Some? then info.rssi else s.Rssi,
       Threshold := if info.threshold.Some? then info.threshold else s.Threshold)
  }

  // ---------------------------------------------------------------------------
  // The sensor object

  class CadenceSensor {
    const base: Sensor
    var states: map<int, CadenceState>

    constructor (deviceID: int := 0)
      ensures fresh(base) && base.GetDeviceID() == deviceID && base.GetChannel() == null
      ensures base.GetSendTimeout() == SEND_TIMEOUT && states == map[] && Valid()
    {
      base := new Sensor(deviceID);
      states := map[];
    }

    /** Every record keeps its event time and count together. */
    ghost predicate Valid()
      reads this
    {
      forall id :: id in states ==> Consistent(states[id])
    }

    ghost function Seen(data: Frame): CadenceState
      requires HasExtendedId(data)
      reads this
    {
      var id := FrameDeviceID(data);
      var created := if id in states then states[id] else NewCadenceState(id);
      WithScannerInfo(created, ReadScannerInfo(data))
    }

    /** The step of `onMessage` before decoding: the device's record is created on first sight and takes the scanner block. */
    method Track(data: Frame) returns (aborted: bool)
      requires Valid()
      requires HasExtendedId(data)
      modifies this
      ensures Valid()
      ensures states == old(states)[FrameDeviceID(data) := old(Seen(data))]
      ensures aborted == ReadScannerInfo(data).aborted
    {
      var deviceID := FrameDeviceID(data);
      if deviceID !in states {
        states := states[deviceID := NewCadenceState(deviceID)];
      }
      var info := ReadScannerInfo(data);
      states := states[deviceID := WithScannerInfo(states[deviceID], info)];
      aborted := info.aborted;
    }

    /** `onMessage`, as for every decoder: gate, create, copy the scanner block, decode data messages, report changes. */
    method OnMessage(data: Frame, now: int) returns (notified: bool)
      requires Valid()
      modifies this, base.channel
      ensures Valid()
      ensures base.channel == null || !ForDecoder(data, base.channel.channelNo, DEVICE_TYPE) ==>
                states == old(states) && !notified
      ensures base.channel != null && ForDecoder(data, base.channel.channelNo, DEVICE_TYPE) ==>
                var id := FrameDeviceID(data);
                var seen := old(Seen(data));
                var decode := !ReadScannerInfo(data).aborted && IsDataMessage(data);
                var after := if decode then UpdateState(seen, data, now) else seen;
                && states == old(states)[id := after]
                && (notified <==> decode && Accepts(base.deviceID, id) && after != seen)
      ensures base.channel != null ==>
                && base.channel.emitted == old(base.channel.emitted)
                     + (if notified then AntChannel.DeviceDataEvents(base.channel.isScanner, PROFILE, FrameDeviceID(data)) else [])
                && base.channel.messageQueue == old(base.channel.messageQueue)
                && base.channel.written == old(base.channel.written)
                && base.channel.settlements == old(base.channel.settlements)
                && base.channel.isScanner == old(base.channel.isScanner)
                && base.channel.isSensor == old(base.channel.isSensor)
                && base.channel.isWriting == old(base.channel.isWriting)
                && base.channel.nextTicket == old(base.channel.nextTicket)
    {
      notified := false;
      var channel := base.GetChannel();
      if channel == null {
        return;
      }
      var channelNo := channel.GetChannelNo();
      if !HasExtendedId(data) {
        return;
      }
      var deviceID := FrameDeviceID(data);
      var deviceType := FrameDeviceType(data);
      if data[BUFFER_INDEX_CHANNEL_NUM] != channelNo || deviceType != DEVICE_TYPE {
        return;
      }
      var aborted := Track(data);
      if aborted {
        return;
      }
      if IsDataMessage(data) {
        var before := states[deviceID];
        var after := UpdateState(before, data, now);
        states := states[deviceID := after];
        if Accepts(base.deviceID, deviceID) && after != before {
          channel.OnDeviceData(PROFILE, deviceID);
          notified := true;
        }
      }
    }
  }
}
