/**
 * The outbound commands the core hands to the radio. Their byte encoding
 * belongs to the message codec, which is not part of this model; the core
 * only reads back two header fields of each command buffer: its message
 * type and its channel number.
 */
module Messages {
  import opened Frames
  import Consts

  /** A profile's radio parameters (the `ChannelConfiguration` record a decoder declares). */
  datatype ChannelConfiguration = ChannelConfiguration(
    channelType: string,
    transmissionType: int,
    timeout: int,
    period: int,
    frequency: int)

  datatype Command =
    | AssignChannel(channel: int, channelType: string)
    | SetDevice(channel: int, deviceID: int, deviceType: int, transmissionType: int)
    | SearchChannel(channel: int, timeout: int)
    | SetFrequency(channel: int, frequency: int)
    | SetPeriod(channel: int, period: int)
    | SetRxExt
    | LibConfig(channel: int, flags: int)
    | OpenRxScan
    | OpenChannel(channel: int)
    | CloseChannel(channel: int)
    | UnassignChannel(channel: int)
      /** An acknowledged-data message; the first payload byte the caller pushes is the channel number. */
    | AcknowledgedData(channel: int, page: seq<int>)

  /**
   * The channel byte of the two builders that take no channel argument
   * (enable extended receive, open RX scan mode); the codec fixes it.
   */
  const FIXED_CHANNEL := 0

  /** The header message-type byte of a command buffer. */
  function MsgId(c: Command): Byte {
    match c
    case AssignChannel(_, _) => Consts.MESSAGE_CHANNEL_ASSIGN
    case SetDevice(_, _, _, _) => Consts.MESSAGE_CHANNEL_ID
    case SearchChannel(_, _) => Consts.MESSAGE_CHANNEL_SEARCH_TIMEOUT
    case SetFrequency(_, _) => Consts.MESSAGE_CHANNEL_FREQUENCY
    case SetPeriod(_, _) => Consts.MESSAGE_CHANNEL_PERIOD
    case SetRxExt => Consts.MESSAGE_ENABLE_RX_EXT
    case LibConfig(_, _) => Consts.MESSAGE_LIB_CONFIG
    case OpenRxScan => Consts.MESSAGE_CHANNEL_OPEN_RX_SCAN
    case OpenChannel(_) => Consts.MESSAGE_CHANNEL_OPEN
    case CloseChannel(_) => Consts.MESSAGE_CHANNEL_CLOSE
    case UnassignChannel(_) => Consts.MESSAGE_CHANNEL_UNASSIGN
    case AcknowledgedData(_, _) => Consts.MESSAGE_CHANNEL_ACKNOWLEDGED_DATA
  }

  /** The header channel-number field of a command buffer. */
  function ChannelField(c: Command): int {
    if c.SetRxExt? || c.OpenRxScan? then FIXED_CHANNEL else c.channel
  }
}
