/**
 * Raw ANT serial frames as byte sequences, the fixed header offsets the core
 * parses, and the little-endian field readers (Node's Buffer.readUInt8,
 * readUInt16LE, readInt8, readInt16LE, readInt32LE).
 */
module Frames {

  type Byte = x: int | 0 <= x < 0x100
  type Word = x: int | 0 <= x < 0x1_0000
  type Frame = seq<Byte>

  // Header offsets (named constants of the message codec): byte 0 sync,
  // byte 1 length, byte 2 message type, byte 3 channel number, then the
  // eight data bytes, then the extension block of an extended data message.
  const BUFFER_INDEX_MSG_TYPE := 2
  const BUFFER_INDEX_CHANNEL_NUM := 3
  const BUFFER_INDEX_MSG_DATA := 4
  const BUFFER_INDEX_EXT_MSG_BEGIN := 12

  /** Unsigned 16-bit little-endian read at byte `i`. */
  function U16(data: Frame, i: nat): (r: Word)
    requires i + 1 < |data|
    ensures r % 0x100 == data[i] && r / 0x100 == data[i + 1]
  {
    data[i] as int + 0x100 * (data[i + 1] as int)
  }

  /** Two's-complement reading of a byte (Buffer.readInt8). */
  function I8(b: Byte): (r: int)
    ensures -0x80 <= r < 0x80
    ensures (r - b) % 0x100 == 0
    ensures r < 0 <==> b >= 0x80
  {
    if b >= 0x80 then b - 0x100 else b
  }

  /** Signed 16-bit little-endian read at byte `i` (Buffer.readInt16LE). */
  function I16(data: Frame, i: nat): (r: int)
    requires i + 1 < |data|
    ensures -0x8000 <= r < 0x8000
    ensures (r - U16(data, i)) % 0x1_0000 == 0
  {
    var w := U16(data, i);
    if w >= 0x8000 then w - 0x1_0000 else w
  }

  /** Signed 32-bit little-endian read at byte `i` (Buffer.readInt32LE). */
  function I32(data: Frame, i: nat): (r: int)
    requires i + 3 < |data|
    ensures -0x8000_0000 <= r < 0x8000_0000
    ensures (r - (U16(data, i) + 0x1_0000 * U16(data, i + 2))) % 0x1_0000_0000 == 0
  {
    var u := U16(data, i) as int + 0x1_0000 * (U16(data, i + 2) as int);
    if u >= 0x8000_0000 then u - 0x1_0000_0000 else u
  }

  /** `x & mask` is non-zero, for a single-bit `mask` (a power of two). */
  predicate HasFlag(x: int, mask: int)
    requires mask > 0
  {
    (x / mask) % 2 == 1
  }

  /** Bits 4 to 6 of a byte, `(b & 0x70) >> 4`: where status and state bytes keep their condition code. */
  function Bits4To6(b: Byte): (n: int)
    ensures 0 <= n < 8
    ensures b == b % 0x10 + 0x10 * n + 0x80 * (b / 0x80)
  {
    (b / 0x10) % 8
  }

  /** A frame long enough for a decoder to read the extended device ID and type (bytes 13 to 15). */
  predicate HasExtendedId(data: Frame) {
    |data| > BUFFER_INDEX_EXT_MSG_BEGIN + 3
  }

  /** Data byte `k` of the page (`BUFFER_INDEX_MSG_DATA + k`). */
  function Msg(data: Frame, k: nat): Byte
    requires k < 8 && HasExtendedId(data)
  {
    data[BUFFER_INDEX_MSG_DATA + k]
  }

  /** Little-endian word at data bytes `k` and `k + 1`. */
  function MsgWord(data: Frame, k: nat): Word
    requires k < 8 && HasExtendedId(data)
  {
    U16(data, BUFFER_INDEX_MSG_DATA + k)
  }

  /** The device number carried in the extension block (readUInt16LE(EXT + 1)). */
  function FrameDeviceID(data: Frame): Word
    requires HasExtendedId(data)
  {
    U16(data, BUFFER_INDEX_EXT_MSG_BEGIN + 1)
  }

  /** The device type carried in the extension block (readUInt8(EXT + 3)). */
  function FrameDeviceType(data: Frame): Byte
    requires HasExtendedId(data)
  {
    data[BUFFER_INDEX_EXT_MSG_BEGIN + 3]
  }
}
