/**
 * The protocol constants the core uses, with the values of the `Constants` enum
 * (src/consts.ts). Only the values matter; there is no behaviour here.
 */
module Consts {

  // Data messages
  const MESSAGE_CHANNEL_BROADCAST_DATA := 0x4E
  const MESSAGE_CHANNEL_ACKNOWLEDGED_DATA := 0x4F
  const MESSAGE_CHANNEL_BURST_DATA := 0x50

  // Channel event messages
  const MESSAGE_CHANNEL_EVENT := 0x40

  // Configuration and control messages (header message-type bytes of outbound commands)
  const MESSAGE_CHANNEL_UNASSIGN := 0x41
  const MESSAGE_CHANNEL_ASSIGN := 0x42
  const MESSAGE_CHANNEL_PERIOD := 0x43
  const MESSAGE_CHANNEL_SEARCH_TIMEOUT := 0x44
  const MESSAGE_CHANNEL_FREQUENCY := 0x45
  const MESSAGE_CHANNEL_OPEN := 0x4B
  const MESSAGE_CHANNEL_CLOSE := 0x4C
  const MESSAGE_CHANNEL_ID := 0x51
  const MESSAGE_CHANNEL_OPEN_RX_SCAN := 0x5B
  const MESSAGE_ENABLE_RX_EXT := 0x66
  const MESSAGE_LIB_CONFIG := 0x6E

  // Events
  const EVENT_RX_SEARCH_TIMEOUT := 0x01
  const EVENT_RX_FAIL := 0x02
  const EVENT_TRANSFER_TX_COMPLETED := 0x05
  const EVENT_TRANSFER_TX_FAILED := 0x06
  const EVENT_CHANNEL_CLOSED := 0x07
  const EVENT_RX_FAIL_GO_TO_SEARCH := 0x08
  const EVENT_CHANNEL_COLLISION := 0x09
  const TRANSFER_IN_PROGRESS := 0x1F
  const TRANSFER_SEQUENCE_NUMBER_ERROR := 0x20
  const TRANSFER_IN_ERROR := 0x21
  const MESSAGE_SIZE_EXCEEDS_LIMIT := 0x27
  const INVALID_MESSAGE := 0x28

  const TIMEOUT_NEVER := 0xFF
}
