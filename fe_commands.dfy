/**
 * The control pages a Fitness Equipment sensor sends to a trainer
 * (the `send*` builders of src/sensors/fitness-equipment-sensors.ts): the
 * payload is the channel number followed by the 8-byte data page, handed to
 * the channel as an acknowledged-data message.
 *
 * Arguments are JavaScript numbers or `undefined` (`None`), taken as exact
 * reals; `Math.trunc` is `Trunc`, and the bitwise operators apply
 * JavaScript's ToInt32 (truncation, then wrap-around to 32 bits).
 */
module FeCommands {
  import opened Wrappers
  import opened BaseSensor
  import Messages
  import opened Arithmetic

  const PAGE_BASIC_RESISTANCE := 0x30
  const PAGE_TARGET_POWER := 0x31
  const PAGE_WIND_RESISTANCE := 0x32
  const PAGE_TRACK_RESISTANCE := 0x33
  const PAGE_USER_CONFIGURATION := 0x37

  /** `Math.trunc`: the integer part, rounding toward zero. */
  function Trunc(x: real): (n: int)
    ensures x >= 0.0 ==> n as real <= x < n as real + 1.0
    ensures x < 0.0 ==> n as real - 1.0 < x <= n as real
  {
    if x >= 0.0 then x.Floor else -((-x).Floor)
  }

  /** `x & 0xFF` for an integral number: the low byte of its two's-complement form. */
  function LowByte(x: int): (b: int)
    ensures 0 <= b < 0x100 && (b - x) % 0x100 == 0
    ensures 0 <= x < 0x100 ==> b == x
  {
    var b := Int32(x) % 0x100;
    CongruentBelow(Int32(x), x, 0x100);
    assert b - x == 0x100 * -(x / 0x100);
    ModShift(0, -(x / 0x100), 0x100);
    b
  }

  /** `(x >> 8) & 0xFF` for an integral number: the second byte of its two's-complement form. */
  function HighByte(x: int): (b: int)
    ensures 0 <= b < 0x100
  {
    (Int32(x) / 0x100) % 0x100
  }

  /** The two bytes of a word: low byte first, and together they give the word back. */
  lemma {:induction false} WordBytes(x: int)
    ensures LowByte(x) + 0x100 * HighByte(x) == x % 0x1_0000
  {
    var q := Int32(x);
    var r := q % 0x1_0000;
    var a := q / 0x1_0000;
    assert q == 0x1_0000 * a + r;
    assert q / 0x100 == 0x100 * a + r / 0x100;
    assert (q / 0x100) % 0x100 == r / 0x100;
    assert q % 0x100 == r % 0x100;
    CongruentBelow(q, x, 0x1_0000);
  }

  /** Numbers congruent modulo 2^32 are congruent modulo each power of two below it that the pages use. */
  lemma {:induction false} CongruentBelow(q: int, x: int, m: int)
    requires m in {0x10, 0x100, 0x1000, 0x1_0000}
    requires (q - x) % 0x1_0000_0000 == 0
    ensures q % m == x % m
  {
    var k := (q - x) / 0x1_0000_0000;
    assert q == x + 0x1_0000_0000 * k;
    var j := k * (0x1_0000_0000 / m);
    assert q == x + m * j;
    ModShift(x, j, m);
  }

  /** The acknowledged-data message of a payload: its first element is the channel, the rest the page. */
  function Acknowledged(payload: seq<int>): (c: Messages.Command)
    requires |payload| == 9
    ensures c.AcknowledgedData? && c.channel == payload[0] && [c.channel] + c.page == payload
  {
    Messages.AcknowledgedData(payload[0], payload[1..])
  }

  /** The payload's page number and the reserved 0xFF bytes between `from` and `to`. */
  predicate PageHeader(p: seq<int>, channelNo: int, page: int, reservedTo: nat)
    requires |p| == 9 && reservedTo <= 9
  {
    p[0] == channelNo && p[1] == page && forall k :: 2 <= k < reservedTo ==> p[k] == 0xFF
  }

  // ---------------------------------------------------------------------------
  // Page 48: basic resistance

  /** `sendBasicResistance`: the resistance in 0.5 % steps, `undefined` meaning 0. */
  function BasicResistancePayload(channelNo: int, resistance: Option<real>): (p: seq<int>)
    ensures |p| == 9 && PageHeader(p, channelNo, PAGE_BASIC_RESISTANCE, 8)
    ensures (p[8] - Trunc(resistance.GetOr(0.0) / 0.5)) % 0x100 == 0 && 0 <= p[8] < 0x100
  {
    var res := resistance.GetOr(0.0) / 0.5;
    [channelNo, PAGE_BASIC_RESISTANCE, 0xFF, 0xFF, 0xFF, 0xFF, 0xFF, 0xFF, LowByte(Trunc(res))]
  }

  /** Within the page's range the trainer reads back the resistance to the 0.5 % step below it. */
  lemma {:induction false} BasicResistanceRoundTrip(channelNo: int, resistance: real)
    requires 0.0 <= resistance < 128.0
    ensures var p := BasicResistancePayload(channelNo, Some(resistance));
            p[8] as real * 0.5 <= resistance < p[8] as real * 0.5 + 0.5
  {
    var p := BasicResistancePayload(channelNo, Some(resistance));
    var t := Trunc(resistance / 0.5);
    assert 0 <= t < 0x100;
    assert p[8] == t;
  }

  // ---------------------------------------------------------------------------
  // Page 49: target power

  /** `sendTargetPower`: the power in 0.25 W, little-endian, `undefined` meaning 0. */
  function TargetPowerPayload(channelNo: int, power: Option<real>): (p: seq<int>)
    ensures |p| == 9 && PageHeader(p, channelNo, PAGE_TARGET_POWER, 7)
    ensures p[7] + 0x100 * p[8] == Trunc(power.GetOr(0.0) * 4.0) % 0x1_0000
  {
    var q := Trunc(power.GetOr(0.0) * 4.0);
    WordBytes(q);
    [channelNo, PAGE_TARGET_POWER, 0xFF, 0xFF, 0xFF, 0xFF, 0xFF, LowByte(q), HighByte(q)]
  }

  /** A power that is a whole number of quarter watts below 16384 W is sent exactly. */
  lemma TargetPowerRoundTrip(channelNo: int, quarters: int)
    requires 0 <= quarters < 0x1_0000
    ensures var p := TargetPowerPayload(channelNo, Some(quarters as real / 4.0));
            (p[7] + 0x100 * p[8]) as real / 4.0 == quarters as real / 4.0
  {
    var power := quarters as real / 4.0;
    assert power * 4.0 == quarters as real;
    assert Trunc(power * 4.0) == quarters;
    var p := TargetPowerPayload(channelNo, Some(power));
    assert p[7] + 0x100 * p[8] == quarters;
  }

  // ---------------------------------------------------------------------------
  // Page 50: wind resistance

  /** An argument of the wind and track pages: `undefined` and the sentinel itself stay the sentinel, anything else is scaled and truncated. */
  function Scaled(x: Option<real>, sentinel: int, scale: real -> real): (n: int)
    ensures x.None? || x.value == sentinel as real ==> n == sentinel
    ensures x.Some? && x.value != sentinel as real ==> n == Trunc(scale(x.value))
  {
    if x.None? || x.value == sentinel as real then sentinel else Trunc(scale(x.value))
  }

  /** `sendWindResistance`: coefficient in 0.01 kg/m, wind speed offset by 127 km/h, drafting factor in 0.01. */
  function WindResistancePayload(channelNo: int, windCoeff: Option<real>, windSpeed: Option<real>, draftFactor: Option<real>)
    : (p: seq<int>)
    ensures |p| == 9 && PageHeader(p, channelNo, PAGE_WIND_RESISTANCE, 6)
    ensures forall k :: 6 <= k < 9 ==> 0 <= p[k] < 0x100
    ensures windCoeff.None? || windCoeff.value == 255.0 ==> p[6] == 0xFF
    ensures windSpeed.None? || windSpeed.value == 255.0 ==> p[7] == 0xFF
    ensures draftFactor.None? || draftFactor.value == 255.0 ==> p[8] == 0xFF
    ensures windCoeff.Some? && windCoeff.value != 255.0 ==> (p[6] - Trunc(windCoeff.value / 0.01)) % 0x100 == 0
    ensures windSpeed.Some? && windSpeed.value != 255.0 ==> (p[7] - Trunc(windSpeed.value + 127.0)) % 0x100 == 0
    ensures draftFactor.Some? && draftFactor.value != 255.0 ==> (p[8] - Trunc(draftFactor.value / 0.01)) % 0x100 == 0
    ensures windSpeed.Some? && -127.0 <= windSpeed.value < 128.0 && windSpeed.value != 255.0 ==>
              p[7] as real - 127.0 <= windSpeed.value < p[7] as real - 126.0
  {
    var wc := Scaled(windCoeff, 0xFF, x => x / 0.01);
    var ws := Scaled(windSpeed, 0xFF, x => x + 127.0);
    var df := Scaled(draftFactor, 0xFF, x => x / 0.01);
    [channelNo, PAGE_WIND_RESISTANCE, 0xFF, 0xFF, 0xFF, 0xFF, LowByte(wc), LowByte(ws), LowByte(df)]
  }

  // ---------------------------------------------------------------------------
  // Page 51: track resistance

  /** `sendTrackResistance`: the grade in 0.01 % offset by 200 %, little-endian, and the rolling resistance in 5e-5. */
  function TrackResistancePayload(channelNo: int, slope: Option<real>, rrCoeff: Option<real>): (p: seq<int>)
    ensures |p| == 9 && PageHeader(p, channelNo, PAGE_TRACK_RESISTANCE, 6)
    ensures forall k :: 6 <= k < 9 ==> 0 <= p[k] < 0x100
    ensures slope.None? || slope.value == 0xFFFF as real ==> p[6] == 0xFF && p[7] == 0xFF
    ensures slope.Some? && slope.value != 0xFFFF as real ==>
              p[6] + 0x100 * p[7] == Trunc((slope.value + 200.0) / 0.01) % 0x1_0000
    ensures rrCoeff.None? || rrCoeff.value == 255.0 ==> p[8] == 0xFF
    ensures rrCoeff.Some? && rrCoeff.value != 255.0 ==> (p[8] - Trunc(rrCoeff.value / 0.00005)) % 0x100 == 0
  {
    var s := Scaled(slope, 0xFFFF, x => (x + 200.0) / 0.01);
    var rr := Scaled(rrCoeff, 0xFF, x => x / 0.00005);
    WordBytes(s);
    [channelNo, PAGE_TRACK_RESISTANCE, 0xFF, 0xFF, 0xFF, 0xFF, LowByte(s), HighByte(s), LowByte(rr)]
  }

  /** A grade between -200 % and 455.35 % is read back to the 0.01 % step below it. */
  lemma {:induction false} TrackGradeRoundTrip(channelNo: int, slope: real, rrCoeff: Option<real>)
    requires -200.0 <= slope < 455.35
    ensures var p := TrackResistancePayload(channelNo, Some(slope), rrCoeff);
            var grade := (p[6] + 0x100 * p[7]) as real * 0.01 - 200.0;
            grade <= slope < grade + 0.01
  {
    var t := Trunc((slope + 200.0) / 0.01);
    assert 0 <= t < 0xFFFF;
    assert Scaled(Some(slope), 0xFFFF, x => (x + 200.0) / 0.01) == t;
  }

  // ---------------------------------------------------------------------------
  // Page 55: user configuration

  /** JavaScript's `x % 10` on numbers: the remainder takes the sign of the dividend. */
  function FMod10(x: real): (r: real)
    ensures x >= 0.0 ==> 0.0 <= r < 10.0
    ensures x < 0.0 ==> -10.0 < r <= 0.0
    ensures (x - r) / 10.0 == Trunc(x / 10.0) as real
  {
    x - 10.0 * Trunc(x / 10.0) as real
  }

  /**
   * The scaled fields of the user-configuration page, after the sentinel
   * tests: user weight in 0.01 kg (0xFFFF: unknown), bicycle weight in
   * 0.05 kg (0xFFF: unknown), wheel diameter in cm with its millimetre
   * offset (0xFF and 0xFF: unknown), gear ratio in 0.03 (0: unknown).
   */
  datatype UserConfiguration = UserConfiguration(m: int, mb: int, d: int, dOffset: real, gr: int)

  function ScaleUserConfiguration(userWeight: Option<real>, bikeWeight: Option<real>,
                                  wheelDiameter: Option<real>, gearRatio: Option<real>): (c: UserConfiguration)
    ensures userWeight.None? || userWeight.value == 0xFFFF as real ==> c.m == 0xFFFF
    ensures userWeight.Some? && userWeight.value != 0xFFFF as real ==> c.m == Trunc(userWeight.value * 100.0)
    ensures bikeWeight.None? || bikeWeight.value == 0xFFF as real ==> c.mb == 0xFFF
    ensures bikeWeight.Some? && bikeWeight.value != 0xFFF as real ==> c.mb == Trunc(bikeWeight.value * 20.0)
    ensures wheelDiameter.None? || wheelDiameter.value == 255.0 ==> c.d == 0xFF && c.dOffset == 0xFF as real
    ensures wheelDiameter.Some? && wheelDiameter.value != 255.0 ==>
              c.d == Trunc(wheelDiameter.value * 100.0) && c.d as real * 10.0 + c.dOffset == wheelDiameter.value * 1000.0
    ensures wheelDiameter.Some? && wheelDiameter.value >= 0.0 && wheelDiameter.value != 255.0 ==> 0.0 <= c.dOffset < 10.0
    ensures gearRatio.None? || gearRatio.value == 0.0 ==> c.gr == 0
    ensures gearRatio.Some? && gearRatio.value != 0.0 ==> c.gr == Trunc(gearRatio.value / 0.03)
  {
    var m := Scaled(userWeight, 0xFFFF, x => x * 100.0);
    var mb := Scaled(bikeWeight, 0xFFF, x => x * 20.0);
    var gr := if gearRatio.None? || gearRatio.value == 0.0 then 0 else Trunc(gearRatio.value / 0.03);
    if wheelDiameter.None? || wheelDiameter.value == 0xFF as real then
      UserConfiguration(m, mb, 0xFF, 0xFF as real, gr)
    else
      var mm := wheelDiameter.value * 1000.0;
      UserConfiguration(m, mb, Trunc(mm / 10.0), FMod10(mm), gr)
  }

  /**
   * The page as the source packs it. The bicycle weight's high part is
   * masked with 0xF, so only bits 4 to 7 of the 12-bit weight are sent.
   */
  function UserConfigurationPayloadAsWritten(channelNo: int, c: UserConfiguration): (p: seq<int>)
    ensures |p| == 9 && PageHeader(p, channelNo, PAGE_USER_CONFIGURATION, 2) && p[4] == 0xFF
    ensures p[2] + 0x100 * p[3] == c.m % 0x1_0000
    ensures p[5] / 0x10 == c.mb % 0x10 && p[5] % 0x10 == Trunc(c.dOffset) % 0x10
    ensures p[6] == (c.mb % 0x100) / 0x10
    ensures BikeWeightField(p) == c.mb % 0x100
    ensures (p[7] - c.d) % 0x100 == 0 && (p[8] - c.gr) % 0x100 == 0
  {
    var lo := Int32(c.mb) % 0x10;
    var hi := (Int32(c.mb) / 0x10) % 0x10;
    var off := Int32(Trunc(c.dOffset)) % 0x10;
    WordBytes(c.m);
    BikeWeightLowByte(c.mb);
    assert (lo * 0x10 + off) / 0x10 == lo && (lo * 0x10 + off) % 0x10 == off;
    assert off == Trunc(c.dOffset) % 0x10 by {
      CongruentBelow(Int32(Trunc(c.dOffset)), Trunc(c.dOffset), 0x10);
    }
    var p := [channelNo, PAGE_USER_CONFIGURATION, LowByte(c.m), HighByte(c.m), 0xFF,
              lo * 0x10 + off, hi, LowByte(c.d), LowByte(c.gr)];
    assert BikeWeightField(p) == lo + 0x10 * hi;
    p
  }

  /** The two nibbles the source keeps of the bicycle weight are its low byte. */
  lemma {:induction false} BikeWeightLowByte(x: int)
    ensures Int32(x) % 0x10 == x % 0x10 && (Int32(x) / 0x10) % 0x10 == (x % 0x100) / 0x10
    ensures x % 0x10 + 0x10 * ((x % 0x100) / 0x10) == x % 0x100
  {
    var q := Int32(x);
    var r := q % 0x100;
    var a := q / 0x100;
    assert q / 0x10 == 0x10 * a + r / 0x10 by {
      assert q == 0x100 * a + r;
    }
    assert (q / 0x10) % 0x10 == r / 0x10;
    assert q % 0x10 == r % 0x10 by {
      assert q == 0x10 * (0x10 * a) + r;
    }
    CongruentBelow(q, x, 0x100);
    CongruentBelow(q, x, 0x10);
  }

  /** The bicycle weight a receiver reads from the page: low nibble in byte 4's high half, high byte in byte 5. */
  function BikeWeightField(p: seq<int>): int
    requires |p| == 9
  {
    p[5] / 0x10 + 0x10 * p[6]
  }

  /** A 15 kg bicycle (300 units of 0.05 kg) is sent as 44 units, 2.2 kg. */
  lemma BikeWeightTruncatedAsWritten()
    ensures var c := ScaleUserConfiguration(None, Some(15.0), None, None);
            c.mb == 300 && BikeWeightField(UserConfigurationPayloadAsWritten(0, c)) == 44
  {
    var c := ScaleUserConfiguration(None, Some(15.0), None, None);
    assert c.mb == Trunc(15.0 * 20.0) == 300;
    assert c.dOffset == 255.0 && Trunc(c.dOffset) == 255;
    assert Int32(300) == 300 && Int32(255) == 255;
    var p := UserConfigurationPayloadAsWritten(0, c);
    assert p[5] == 12 * 0x10 + 15 && p[6] == 2;
  }

  /** The page with the bicycle weight's high byte masked with 0xFF, as the field layout asks. */
  function UserConfigurationPayload(channelNo: int, c: UserConfiguration): (p: seq<int>)
    ensures |p| == 9 && PageHeader(p, channelNo, PAGE_USER_CONFIGURATION, 2) && p[4] == 0xFF
    ensures p[2] + 0x100 * p[3] == c.m % 0x1_0000
    ensures BikeWeightField(p) == c.mb % 0x1000
    ensures p[5] % 0x10 == Trunc(c.dOffset) % 0x10
    ensures (p[7] - c.d) % 0x100 == 0 && (p[8] - c.gr) % 0x100 == 0
  {
    var lo := Int32(c.mb) % 0x10;
    var hi := (Int32(c.mb) / 0x10) % 0x100;
    var off := Int32(Trunc(c.dOffset)) % 0x10;
    WordBytes(c.m);
    BikeWeightNibbles(c.mb);
    assert (lo * 0x10 + off) / 0x10 == lo && (lo * 0x10 + off) % 0x10 == off;
    assert off == Trunc(c.dOffset) % 0x10 by {
      CongruentBelow(Int32(Trunc(c.dOffset)), Trunc(c.dOffset), 0x10);
    }
    [channelNo, PAGE_USER_CONFIGURATION, LowByte(c.m), HighByte(c.m), 0xFF,
     lo * 0x10 + off, hi, LowByte(c.d), LowByte(c.gr)]
  }

  lemma {:induction false} BikeWeightNibbles(x: int)
    ensures Int32(x) % 0x10 + 0x10 * ((Int32(x) / 0x10) % 0x100) == x % 0x1000
  {
    var q := Int32(x);
    var r := q % 0x1000;
    var a := q / 0x1000;
    assert q / 0x10 == 0x100 * a + r / 0x10 by {
      assert q == 0x1000 * a + r;
    }
    assert (q / 0x10) % 0x100 == r / 0x10;
    assert q % 0x10 == r % 0x10 by {
      assert q == 0x10 * (0x100 * a) + r;
    }
    CongruentBelow(q, x, 0x1000);
  }

  /** With the corrected mask every bicycle weight below 204.75 kg is sent exactly, the 15 kg case included. */
  lemma BikeWeightRoundTrip(bikeWeight: real)
    requires 0.0 <= bikeWeight < 204.75
    ensures var c := ScaleUserConfiguration(None, Some(bikeWeight), None, None);
            BikeWeightField(UserConfigurationPayload(0, c)) == Trunc(bikeWeight * 20.0)
  {
    var c := ScaleUserConfiguration(None, Some(bikeWeight), None, None);
    if bikeWeight != 0xFFF as real {
      assert c.mb == Trunc(bikeWeight * 20.0);
      assert 0 <= c.mb < 0x1000;
    }
  }
}
