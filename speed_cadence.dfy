/**
 * The ANT+ combined Bicycle Speed and Cadence decoder
 * (src/sensors/speed-cadence-sensors.ts). Its single page carries a cadence
 * event time and count and a wheel event time and count; the cadence is
 * computed as for the cadence-only sensor, the distance and speed from the
 * wheel revolutions and the configurable wheel circumference (metres).
 */
module SpeedCadence {
  import opened Wrappers
  import opened Frames
  import opened JsNumber
  import opened BaseSensor
  import Cadence
  import AntChannel
  import Messages
  import Consts

  const DEVICE_TYPE := 0x79
  const PROFILE := "SC"
  const PERIOD := 8086

  /** A 700c wheel, in metres. */
  const DEFAULT_WHEEL_CIRCUMFERENCE: real := 2.118

  /** A receive channel on RF channel 57 (2457 MHz) with any transmission type, never timing out, about four messages a second. */
  function ChannelConfiguration(): (c: Messages.ChannelConfiguration)
    ensures c.channelType == "receive" && c.transmissionType == 0 && c.timeout == Consts.TIMEOUT_NEVER
    ensures c.frequency == 57 && c.period == PERIOD && 4 * c.period <= 32768 < 5 * c.period
  {
    Messages.ChannelConfiguration("receive", 0, Consts.TIMEOUT_NEVER, PERIOD, 57)
  }

  /**
   * The per-device record; every field but the device ID starts undefined.
   * `EventTime` is the wall-clock time of the last cadence or wheel event.
   * The distance is stored even when it is NaN (no previous wheel event).
   */
  datatype SpeedCadenceState = SpeedCadenceState(
    DeviceID: Word,
    ManId: Option<int>,
    CadenceEventTime: Option<Word>,
    CumulativeCadenceRevolutionCount: Option<Word>,
    SpeedEventTime: Option<Word>,
    CumulativeSpeedRevolutionCount: Option<Word>,
    CalculatedCadence: Option<real>,
    CalculatedDistance: Option<Num>,
    CalculatedSpeed: Option<real>,
    EventTime: Option<int>,
    Rssi: Option<int>,
    Threshold: Option<int>)

  function NewSpeedCadenceState(deviceID: Word): (s: SpeedCadenceState)
    ensures s == SpeedCadenceState(deviceID, None, None, None, None, None, None, None, None, None, None, None)
  {
    SpeedCadenceState(deviceID, None, None, None, None, None, None, None, None, None, None, None)
  }

  /** Event times and counts are stored in pairs, and the wall-clock time is known once either is. */
  predicate Consistent(s: SpeedCadenceState) {
    && (s.CadenceEventTime.Some? <==> s.CumulativeCadenceRevolutionCount.Some?)
    && (s.SpeedEventTime.Some? <==> s.CumulativeSpeedRevolutionCount.Some?)
    && (s.CadenceEventTime.Some? || s.SpeedEventTime.Some? ==> s.EventTime.Some?)
  }

  /**
   * `wheelCircumference * (count - oldCount)`: the distance covered by the
   * wheel revolutions since the previous wheel event, NaN before there is one.
   */
  function WheelDistance(wheelCircumference: real, oldCount: Option<Word>, count: Word): (d: Num)
    ensures d.NaN? <==> oldCount.None?
    ensures oldCount.Some? ==> IsFinite(d) && Value(d) == wheelCircumference * (count - oldCount.value) as real
  {
    Mul(Fin(wheelCircumference), if oldCount.Some? then FromInt(count - oldCount.value) else NaN)
  }

  /**
   * `distance * 1024 / (time - oldTime)` in metres per second, the distance
   * being the wheel distance above and the time difference compensated for
   * rollover; kept only when it is a number, that is once there is a
   * previous wheel event.
   */
  function WheelSpeed(wheelCircumference: real, oldTime: Option<Word>, oldCount: Option<Word>, time: Word, count: Word)
    : (v: Option<real>)
    requires oldTime != Some(time)
    ensures v.Some? <==> oldTime.Some? && oldCount.Some?
    ensures v.Some? ==>
              var ticks := (time - oldTime.value) % 0x1_0000;
              1 <= ticks && v.value * (ticks as real / 1024.0) == wheelCircumference * (count - oldCount.value) as real
  {
    var distance := WheelDistance(wheelCircumference, oldCount, count);
    if oldTime.None? || distance.NaN? then None
    else
      var ticks := Unwrap(oldTime.value, time, 1024 * 64) - oldTime.value;
      Some(Value(distance) * 1024.0 / ticks as real)
  }

  /** The fields the cadence half of the page may write. */
  predicate OnlyCadenceFields(s: SpeedCadenceState, r: SpeedCadenceState) {
    r == s.(EventTime := r.EventTime, CadenceEventTime := r.CadenceEventTime,
            CumulativeCadenceRevolutionCount := r.CumulativeCadenceRevolutionCount,
            CalculatedCadence := r.CalculatedCadence)
  }

  /** The fields the speed half of the page may write. */
  predicate OnlySpeedFields(s: SpeedCadenceState, r: SpeedCadenceState) {
    r == s.(EventTime := r.EventTime, SpeedEventTime := r.SpeedEventTime,
            CumulativeSpeedRevolutionCount := r.CumulativeSpeedRevolutionCount,
            CalculatedDistance := r.CalculatedDistance, CalculatedSpeed := r.CalculatedSpeed)
  }

  /**
   * The cadence half: a new cadence event time records the wall-clock time,
   * time and count and the cadence since the previous event; an unchanged
   * time for 5 s since `oldEventTime` zeroes the cadence.
   */
  function CadenceHalf(s: SpeedCadenceState, oldEventTime: Option<int>, time: Word, count: Word, now: int)
    : (r: SpeedCadenceState)
    ensures OnlyCadenceFields(s, r)
    ensures s.CadenceEventTime != Some(time) ==>
              && r.EventTime == Some(now) && r.CadenceEventTime == Some(time)
              && r.CumulativeCadenceRevolutionCount == Some(count)
              && var c := Cadence.RevolutionCadence(s.CadenceEventTime, s.CumulativeCadenceRevolutionCount, time, count);
                 r.CalculatedCadence == (if c.Some? then c else s.CalculatedCadence)
    ensures s.CadenceEventTime == Some(time) ==>
              r == (if oldEventTime.Some? && now - oldEventTime.value >= Cadence.STALL_TIME
                    then s.(CalculatedCadence := Some(0.0)) else s)
  {
    if Some(time) != s.CadenceEventTime then
      var cadence := Cadence.RevolutionCadence(s.CadenceEventTime, s.CumulativeCadenceRevolutionCount, time, count);
      s.(EventTime := Some(now), CadenceEventTime := Some(time), CumulativeCadenceRevolutionCount := Some(count),
         CalculatedCadence := if cadence.Some? then cadence else s.CalculatedCadence)
    else if oldEventTime.Some? && now - oldEventTime.value >= Cadence.STALL_TIME then
      s.(CalculatedCadence := Some(0.0))
    else s
  }

  /**
   * The speed half: a new wheel event time records the wall-clock time, time
   * and count, the distance (stored even when NaN) and the speed when it is a
   * number; an unchanged time for 5 s since `oldEventTime` zeroes the speed.
   */
  function SpeedHalf(s: SpeedCadenceState, oldEventTime: Option<int>, time: Word, count: Word, now: int,
                     wheelCircumference: real): (r: SpeedCadenceState)
    ensures OnlySpeedFields(s, r)
    ensures s.SpeedEventTime != Some(time) ==>
              && r.EventTime == Some(now) && r.SpeedEventTime == Some(time)
              && r.CumulativeSpeedRevolutionCount == Some(count)
              && var d := WheelDistance(wheelCircumference, s.CumulativeSpeedRevolutionCount, count);
                 && r.CalculatedDistance == Some(d)
                 && var v := WheelSpeed(wheelCircumference, s.SpeedEventTime, s.CumulativeSpeedRevolutionCount, time, count);
                    r.CalculatedSpeed == (if v.Some? then v else s.CalculatedSpeed)
    ensures s.SpeedEventTime == Some(time) ==>
              r == (if oldEventTime.Some? && now - oldEventTime.value >= Cadence.STALL_TIME
                    then s.(CalculatedSpeed := Some(0.0)) else s)
  {
    if Some(time) != s.SpeedEventTime then
      var distance := WheelDistance(wheelCircumference, s.CumulativeSpeedRevolutionCount, count);
      var speed := WheelSpeed(wheelCircumference, s.SpeedEventTime, s.CumulativeSpeedRevolutionCount, time, count);
      s.(EventTime := Some(now), SpeedEventTime := Some(time), CumulativeSpeedRevolutionCount := Some(count),
         CalculatedDistance := Some(distance), CalculatedSpeed := if speed.Some? then speed else s.CalculatedSpeed)
    else if oldEventTime.Some? && now - oldEventTime.value >= Cadence.STALL_TIME then
      s.(CalculatedSpeed := Some(0.0))
    else s
  }

  /**
   * `updateState`: the page is decoded whatever its number. Both halves
   * compare against the wall-clock time of the last event as it was before
   * this page.
   */
  function UpdateState(s: SpeedCadenceState, data: Frame, now: int, wheelCircumference: real)
    : (r: SpeedCadenceState)
    requires HasExtendedId(data)
    ensures r == SpeedHalf(CadenceHalf(s, s.EventTime, MsgWord(data, 0), MsgWord(data, 2), now),
                           s.EventTime, MsgWord(data, 4), MsgWord(data, 6), now, wheelCircumference)
    ensures r.DeviceID == s.DeviceID && r.ManId == s.ManId && r.Rssi == s.Rssi && r.Threshold == s.Threshold
    ensures Consistent(s) ==> Consistent(r)
  {
    var oldEventTime := s.EventTime;
    var s1 := CadenceHalf(s, oldEventTime, MsgWord(data, 0), MsgWord(data, 2), now);
    SpeedHalf(s1, oldEventTime, MsgWord(data, 4), MsgWord(data, 6), now, wheelCircumference)
  }

  /**
   * The speed stall test uses the event time from before the page, so a page
   * that brings a new cadence event after a pause of 5 s still zeroes the
   * speed if the wheel time repeats, although the record's event time is
   * now the current time.
   */
  lemma SpeedZeroedBesideFreshCadence(s: SpeedCadenceState, data: Frame, now: int, wheelCircumference: real)
    requires HasExtendedId(data)
    requires s.CadenceEventTime != Some(MsgWord(data, 0)) && s.SpeedEventTime == Some(MsgWord(data, 4))
    requires s.EventTime.Some? && now - s.EventTime.value >= Cadence.STALL_TIME
    ensures var r := UpdateState(s, data, now, wheelCircumference);
            r.CalculatedSpeed == Some(0.0) && r.EventTime == Some(now) && r.CadenceEventTime == Some(MsgWord(data, 0))
  {
  }

  /** Riding a known distance: forward wheel revolutions give that distance and a non-negative speed. */
  lemma {:induction false} SpeedFromRevolutions(s: SpeedCadenceState, data: Frame, now: int, wheelCircumference: real)
    requires HasExtendedId(data) && wheelCircumference >= 0.0
    requires s.SpeedEventTime.Some? && s.SpeedEventTime != Some(MsgWord(data, 4))
    requires s.CumulativeSpeedRevolutionCount.Some? && s.CumulativeSpeedRevolutionCount.value <= MsgWord(data, 6)
    ensures var r := UpdateState(s, data, now, wheelCircumference);
            var revolutions := MsgWord(data, 6) - s.CumulativeSpeedRevolutionCount.value;
            && r.CalculatedDistance.Some? && IsFinite(r.CalculatedDistance.value)
            && Value(r.CalculatedDistance.value) == wheelCircumference * revolutions as real
            && r.CalculatedSpeed.Some? && r.CalculatedSpeed.value >= 0.0
  {
    var s1 := CadenceHalf(s, s.EventTime, MsgWord(data, 0), MsgWord(data, 2), now);
    assert s1.SpeedEventTime == s.SpeedEventTime;
    assert s1.CumulativeSpeedRevolutionCount == s.CumulativeSpeedRevolutionCount;
    var v := WheelSpeed(wheelCircumference, s.SpeedEventTime, s.CumulativeSpeedRevolutionCount, MsgWord(data, 4), MsgWord(data, 6));
    var ticks := (MsgWord(data, 4) - s.SpeedEventTime.value) % 0x1_0000;
    assert wheelCircumference * (MsgWord(data, 6) - s.CumulativeSpeedRevolutionCount.value) as real >= 0.0;
    assert v.value * (ticks as real / 1024.0) >= 0.0;
  }

  /** The scanner block's RSSI and threshold, each stored only when it was read. */
  function WithScannerInfo(s: SpeedCadenceState, info: ScannerInfo): (r: SpeedCadenceState)
    ensures r == s.(Rssi := r.Rssi, Threshold := r.Threshold)
    ensures r.Rssi == (if info.rssi.Some? then info.rssi else s.Rssi)
    ensures r.Threshold == (if info.threshold.Some? then info.threshold else s.Threshold)
  {
    s.(Rssi := if info.rssi.Some? then info.rssi else s.Rssi,
       Threshold := if info.threshold.Some? then info.threshold else s.Threshold)
  }

  // ---------------------------------------------------------------------------
  // The sensor object

  class SpeedCadenceSensor {
    const base: Sensor
    var states: map<int, SpeedCadenceState>
    var wheelCircumference: real

    constructor (deviceID: int := 0)
      ensures fresh(base) && base.GetDeviceID() == deviceID && base.GetChannel() == null
      ensures base.GetSendTimeout() == SEND_TIMEOUT && states == map[] && Valid()
      ensures wheelCircumference == DEFAULT_WHEEL_CIRCUMFERENCE
    {
      base := new Sensor(deviceID);
      states := map[];
      wheelCircumference := DEFAULT_WHEEL_CIRCUMFERENCE;
    }

    ghost predicate Valid()
      reads this
    {
      forall id :: id in states ==> Consistent(states[id])
    }

    method SetWheelCircumference(wheelCircumference: real)
      modifies this
      ensures this.wheelCircumference == wheelCircumference && states == old(states)
    {
      this.wheelCircumference := wheelCircumference;
    }

    ghost function Seen(data: Frame): SpeedCadenceState
      requires HasExtendedId(data)
      reads this
    {
      var id := FrameDeviceID(data);
      var created := if id in states then states[id] else NewSpeedCadenceState(id);
      WithScannerInfo(created, ReadScannerInfo(data))
    }

    /** The step of `onMessage` before decoding: the device's record is created on first sight and takes the scanner block. */
    method Track(data: Frame) returns (aborted: bool)
      requires Valid()
      requires HasExtendedId(data)
      modifies this
      ensures Valid()
      ensures wheelCircumference == old(wheelCircumference)
      ensures states == old(states)[FrameDeviceID(data) := old(Seen(data))]
      ensures aborted == ReadScannerInfo(data).aborted
    {
      var deviceID := FrameDeviceID(data);
      if deviceID !in states {
        states := states[deviceID := NewSpeedCadenceState(deviceID)];
      }
      var info := ReadScannerInfo(data);
      states := states[deviceID := WithScannerInfo(states[deviceID], info)];
      aborted := info.aborted;
    }

    /** `onMessage`, as for every decoder, decoding with the current wheel circumference. */
    method OnMessage(data: Frame, now: int) returns (notified: bool)
      requires Valid()
      modifies this, base.channel
      ensures Valid() && wheelCircumference == old(wheelCircumference)
      ensures base.channel == null || !ForDecoder(data, base.channel.channelNo, DEVICE_TYPE) ==>
                states == old(states) && !notified
      ensures base.channel != null && ForDecoder(data, base.channel.channelNo, DEVICE_TYPE) ==>
                var id := FrameDeviceID(data);
                var seen := old(Seen(data));
                var decode := !ReadScannerInfo(data).aborted && IsDataMessage(data);
                var after := if decode then UpdateState(seen, data, now, wheelCircumference) else seen;
                && states == old(states)[id := after]
                && (notified <==> decode && Accepts(base.deviceID, id) && after != seen)
      ensures base.channel != null ==>
                && base.channel.emitted == old(base.channel.emitted)
                     + (if notified then AntChannel.DeviceDataEvents(base.channel.isScanner, PROFILE, FrameDeviceID(data)) else [])
                && base.channel.messageQueue == old(base.channel.messageQueue)
                && base.channel.written == old(base.channel.written)
                && base.channel.settlements == old(base.channel.settlements)
                && base.channel.isScanner == old(base.channel.isScanner)
                && base.channel.isSensor == old(base.channel.isSensor)
                && base.channel.isWriting == old(base.channel.isWriting)
                && base.channel.nextTicket == old(base.channel.nextTicket)
    {
      notified := false;
      var channel := base.GetChannel();
      if channel == null {
        return;
      }
      var channelNo := channel.GetChannelNo();
      if !HasExtendedId(data) {
        return;
      }
      var deviceID := FrameDeviceID(data);
      var deviceType := FrameDeviceType(data);
      if data[BUFFER_INDEX_CHANNEL_NUM] != channelNo || deviceType != DEVICE_TYPE {
        return;
      }
      var aborted := Track(data);
      if aborted {
        return;
      }
      if IsDataMessage(data) {
        var before := states[deviceID];
        var after := UpdateState(before, data, now, wheelCircumference);
        states := states[deviceID := after];
        if Accepts(base.deviceID, deviceID) && after != before {
          channel.OnDeviceData(PROFILE, deviceID);
          notified := true;
        }
      }
    }
  }
}
