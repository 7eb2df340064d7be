/**
 * What every profile decoder shares (src/sensors/base-sensor.ts): the sensor
 * object's device-ID binding, channel and send timeout, the common
 * `SensorState` record, and the small field decoders that several profiles
 * repeat (battery status, serial-number assembly, counter rollover, the
 * scanner's signal-strength block).
 */
module BaseSensor {
  import opened Wrappers
  import opened Frames
  import AntChannel
  import Consts

  /** The send timeout every sensor starts with, in milliseconds. */
  const SEND_TIMEOUT := 10000

  /** The battery conditions of the common battery-status page. */
  datatype Battery = New | Good | Ok | Low | Critical | Invalid

  /** The common per-device record (`SensorState`); `undefined` is `None`. */
  datatype SensorState = SensorState(
    DeviceID: int,
    ManId: Option<int>,
    SerialNumber: Option<int>,
    HwVersion: Option<int>,
    SwVersion: Option<real>,
    ModelNum: Option<int>,
    BatteryLevel: Option<int>,
    BatteryVoltage: Option<real>,
    BatteryStatus: Option<Battery>,
    RawData: Option<Frame>,
    Rssi: Option<int>,
    Threshold: Option<int>)

  /** Nothing is known yet about who made the device. */
  predicate Unidentified(s: SensorState) {
    s.ManId.None? && s.SerialNumber.None? && s.HwVersion.None? && s.SwVersion.None? && s.ModelNum.None?
  }

  /** No battery reading has arrived: no level, no voltage, and the status is `Invalid`. */
  predicate NoBatteryReading(s: SensorState) {
    s.BatteryLevel.None? && s.BatteryVoltage.None? && s.BatteryStatus == Some(Invalid)
  }

  function NewSensorState(deviceID: int): (s: SensorState)
    ensures s.DeviceID == deviceID && Unidentified(s) && NoBatteryReading(s)
    ensures s.RawData.None? && s.Rssi.None? && s.Threshold.None?
  {
    SensorState(deviceID, None, None, None, None, None, None, None, Some(Invalid), None, None, None)
  }

  // ---------------------------------------------------------------------------
  // The sensor object

  class Sensor {
    var deviceID: int
    var channel: AntChannel.Channel?
    var sendTimeout: int

    /** A sensor bound to `deviceID`; 0, the default, accepts any device of its profile. */
    constructor (deviceID: int := 0)
      ensures GetDeviceID() == deviceID && GetChannel() == null && GetSendTimeout() == SEND_TIMEOUT
    {
      this.deviceID := deviceID;
      channel := null;
      sendTimeout := SEND_TIMEOUT;
    }

    /** The channel last set, `null` until one is. */
    function GetChannel(): (c: AntChannel.Channel?)
      reads this
      ensures c == channel
    {
      channel
    }

    method SetChannel(channel: AntChannel.Channel?)
      modifies this
      ensures GetChannel() == channel
      ensures deviceID == old(deviceID) && sendTimeout == old(sendTimeout)
    {
      this.channel := channel;
    }

    /** The device the sensor is bound to; 0 accepts every device. */
    function GetDeviceID(): (id: int)
      reads this
      ensures id == deviceID
    {
      deviceID
    }

    method SetSendTimeout(ms: int)
      modifies this
      ensures GetSendTimeout() == ms
      ensures deviceID == old(deviceID) && channel == old(channel)
    {
      sendTimeout := ms;
    }

    /** The timeout, in ms, passed with every command the sensor sends. */
    function GetSendTimeout(): (ms: int)
      reads this
      ensures ms == sendTimeout
    {
      sendTimeout
    }
  }

  // ---------------------------------------------------------------------------
  // Frame gates shared by the decoders' onMessage

  /** Broadcast, acknowledged and burst data: the message types a decoder feeds to its page decoder. */
  predicate IsDataMessage(data: Frame) {
    |data| > BUFFER_INDEX_MSG_TYPE
    && data[BUFFER_INDEX_MSG_TYPE] in {Consts.MESSAGE_CHANNEL_BROADCAST_DATA,
                                       Consts.MESSAGE_CHANNEL_ACKNOWLEDGED_DATA,
                                       Consts.MESSAGE_CHANNEL_BURST_DATA}
  }

  /** The decoders' onMessage gate: the frame is long enough to name a device, is for this channel, and names a device of the decoder's type. */
  predicate ForDecoder(data: Frame, channelNo: int, deviceType: int) {
    HasExtendedId(data) && data[BUFFER_INDEX_CHANNEL_NUM] == channelNo && FrameDeviceType(data) == deviceType
  }

  /** The device-ID filter: a sensor bound to 0 reports every device, otherwise only its own. */
  predicate Accepts(boundID: int, deviceID: int)
    ensures boundID == 0 ==> Accepts(boundID, deviceID)
    ensures boundID != 0 ==> (Accepts(boundID, deviceID) <==> deviceID == boundID)
  {
    boundID == 0 || boundID == deviceID
  }

  /**
   * The signal-strength block a decoder copies into the state when the flag
   * byte has bit 0x40 and the block starts with 0x20. Reading past the end of
   * a short frame throws; `aborted` says that happened, after `rssi` may
   * already have been stored.
   */
  datatype ScannerInfo = ScannerInfo(rssi: Option<int>, threshold: Option<int>, aborted: bool)

  function ReadScannerInfo(data: Frame): (x: ScannerInfo)
    requires HasExtendedId(data)
    ensures !HasFlag(data[BUFFER_INDEX_EXT_MSG_BEGIN], 0x40) ==> x == ScannerInfo(None, None, false)
    ensures x.rssi.Some? <==> HasFlag(data[BUFFER_INDEX_EXT_MSG_BEGIN], 0x40) && |data| > 18 && data[17] == 0x20
    ensures x.rssi.Some? ==> x.rssi.value == I8(data[18])
    ensures x.threshold.Some? ==> x.rssi.Some? && |data| > 19 && x.threshold.value == I8(data[19])
    ensures !x.aborted ==> (x.threshold.Some? <==> x.rssi.Some?)
    ensures x.aborted <==> HasFlag(data[BUFFER_INDEX_EXT_MSG_BEGIN], 0x40)
                           && (|data| <= 17 || (data[17] == 0x20 && |data| <= 19))
  {
    var ext := BUFFER_INDEX_EXT_MSG_BEGIN;
    if !HasFlag(data[ext], 0x40) then ScannerInfo(None, None, false)
    else if |data| <= ext + 5 then ScannerInfo(None, None, true)
    else if data[ext + 5] != 0x20 then ScannerInfo(None, None, false)
    else if |data| <= ext + 6 then ScannerInfo(None, None, true)
    else if |data| <= ext + 7 then ScannerInfo(Some(I8(data[ext + 6])), None, true)
    else ScannerInfo(Some(I8(data[ext + 6])), Some(I8(data[ext + 7])), false)
  }

  // ---------------------------------------------------------------------------
  // Field decoders

  /**
   * The rollover compensation every counter uses: a value below the previous
   * one is lifted by `span`. For a counter that wraps at `span` this recovers
   * the true advance modulo `span`.
   */
  function Unwrap(previous: int, current: int, span: int): (r: int)
    ensures previous <= current ==> r == current
    ensures 0 <= previous < span && 0 <= current < span ==> r - previous == (current - previous) % span
  {
    if previous > current then current + span else current
  }

  /** The flag value that reports each condition (`Invalid` stands for every other value). */
  function FlagOf(b: Battery): int {
    match b
    case New => 1
    case Good => 2
    case Ok => 3
    case Low => 4
    case Critical => 5
    case Invalid => 0
  }

  datatype BatteryReading = BatteryReading(voltage: Option<real>, status: Battery)

  /**
   * The battery-status page: whole volts in the low nibble of the status
   * byte, 1/256 V in the fractional byte, the condition in the flag bits; a
   * flag value outside 1..5 reports `Invalid` and discards the voltage.
   */
  function DecodeBattery(frac: Byte, status: Byte): (r: BatteryReading)
    ensures r.status == Invalid <==> !(1 <= Bits4To6(status) <= 5)
    ensures r.status != Invalid ==> FlagOf(r.status) == Bits4To6(status)
    ensures r.voltage.None? <==> r.status == Invalid
    ensures r.voltage.Some? ==> r.voltage.value.Floor == status % 16
                                && (r.voltage.value - (status % 16) as real) * 256.0 == frac as real
  {
    var voltage := (status % 16) as real + frac as real / 256.0;
    match Bits4To6(status)
    case 1 => BatteryReading(Some(voltage), New)
    case 2 => BatteryReading(Some(voltage), Good)
    case 3 => BatteryReading(Some(voltage), Ok)
    case 4 => BatteryReading(Some(voltage), Low)
    case 5 => BatteryReading(Some(voltage), Critical)
    case _ => BatteryReading(None, Invalid)
  }

  /** JavaScript's ToInt32: the signed 32-bit value congruent to `x`. */
  function Int32(x: int): (r: int)
    ensures -0x8000_0000 <= r < 0x8000_0000 && (r - x) % 0x1_0000_0000 == 0
  {
    var u := x % 0x1_0000_0000;
    if u >= 0x8000_0000 then u - 0x1_0000_0000 else u
  }

  /** `x >>> 0`: the unsigned 32-bit value congruent to `x`. */
  function Uint32(x: int): (r: int)
    ensures 0 <= r < 0x1_0000_0000 && (r - x) % 0x1_0000_0000 == 0
  {
    x % 0x1_0000_0000
  }

  /**
   * `(deviceID | (high << 16)) >>> 0`. The shift gives a signed 32-bit value
   * whose low 16 bits are zero, so or-ing in the 16-bit device ID adds it.
   * The result carries the device ID in its low half and the page's word in
   * its high half, whatever the sign of the intermediate.
   */
  function SerialNumber(deviceID: Word, high: Word): (r: int)
    ensures 0 <= r < 0x1_0000_0000
    ensures r % 0x1_0000 == deviceID && r / 0x1_0000 == high
  {
    Uint32(Int32(high * 0x1_0000) + deviceID)
  }
}
