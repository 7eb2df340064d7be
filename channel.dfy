/**
 * One logical ANT radio channel (src/ant-channel.ts): the single-in-flight
 * request queue, the classification of inbound frames, and the command
 * sequences that open and close the channel.
 *
 * The radio device is a log of the commands written to it, the promises
 * returned by `sendMessage` are tickets whose resolve/reject calls are
 * logged in order, and the `EventEmitter` notifications are a log too.
 */
module AntChannel {
  import opened Wrappers
  import opened Frames
  import opened Messages
  import Consts

  const START_TIMEOUT := 5000

  /**
   * A queued request: the promise it settles (`ticket`), its message type, and
   * the command while it is still unsent (`data` is cleared once written).
   */
  datatype Entry = Entry(ticket: nat, msgId: Byte, data: Option<Command>)

  /** What a promise is resolved with: `true`/`false`, or a direct response code. */
  datatype Value = Flag(b: bool) | Code(code: Byte)

  datatype Settlement = Resolved(ticket: nat, value: Value) | Rejected(ticket: nat)

  /** The notifications the channel emits: `status`, `message`, `detected`, `data`. */
  datatype Notification =
    | Status(msg: Byte, code: Byte, frame: Frame)
    | Message(frame: Frame)
    | Detected(profile: string, deviceID: int)
    | Data(profile: string, deviceID: int)

  // ---------------------------------------------------------------------------
  // Superseding unsent requests of the same message type

  /** An entry not yet written whose message type is `msgId`. */
  predicate Unsent(e: Entry, msgId: Byte) {
    e.msgId == msgId && e.data.Some?
  }

  predicate NoUnsent(q: seq<Entry>, msgId: Byte) {
    forall e :: e in q ==> !Unsent(e, msgId)
  }

  /** At most one unsent entry per message type. */
  predicate UniqueUnsent(q: seq<Entry>)
    decreases |q|
  {
    q == [] || ((q[0].data.Some? ==> NoUnsent(q[1..], q[0].msgId)) && UniqueUnsent(q[1..]))
  }

  /** The queue with every unsent entry of type `msgId` removed, order kept. */
  function Without(q: seq<Entry>, msgId: Byte): seq<Entry>
    decreases |q|
  {
    if q == [] then []
    else (if Unsent(q[0], msgId) then [] else [q[0]]) + Without(q[1..], msgId)
  }

  /** The unsent entries of type `msgId`, in queue order: those a new request supersedes. */
  function Superseded(q: seq<Entry>, msgId: Byte): seq<Entry>
    decreases |q|
  {
    if q == [] then []
    else (if Unsent(q[0], msgId) then [q[0]] else []) + Superseded(q[1..], msgId)
  }

  /** Removing the superseded entries splits the queue: every entry lands in exactly one part. */
  lemma {:induction false} SplitQueue(q: seq<Entry>, msgId: Byte)
    ensures |Without(q, msgId)| + |Superseded(q, msgId)| == |q|
    ensures forall e :: e in Superseded(q, msgId) <==> e in q && Unsent(e, msgId)
    ensures forall e :: e in Without(q, msgId) <==> e in q && !Unsent(e, msgId)
  {
    if q != [] {
      SplitQueue(q[1..], msgId);
      assert q == [q[0]] + q[1..];
    }
  }

  /** `findIndex(qi => qi.msgId === msgId && qi.data)`: the first unsent entry of that type, or -1. */
  function FindUnsent(q: seq<Entry>, msgId: Byte): (i: int)
    ensures -1 <= i < |q|
    ensures i == -1 <==> NoUnsent(q, msgId)
    ensures i >= 0 ==> Unsent(q[i], msgId) && forall k :: 0 <= k < i ==> !Unsent(q[k], msgId)
  {
    if q == [] then -1
    else if Unsent(q[0], msgId) then 0
    else var j := FindUnsent(q[1..], msgId); if j == -1 then -1 else j + 1
  }

  lemma {:induction false} RemoveFirstUnsent(q: seq<Entry>, msgId: Byte, i: nat)
    requires i < |q| && Unsent(q[i], msgId)
    requires forall k :: 0 <= k < i ==> !Unsent(q[k], msgId)
    ensures Without(q[..i] + q[i + 1..], msgId) == Without(q, msgId)
    ensures Superseded(q, msgId) == [q[i]] + Superseded(q[..i] + q[i + 1..], msgId)
    decreases i
  {
    var r := q[..i] + q[i + 1..];
    if i == 0 {
      assert r == q[1..];
    } else {
      var t := q[1..];
      RemoveFirstUnsent(t, msgId, i - 1);
      assert r[0] == q[0] && !Unsent(q[0], msgId);
      assert r[1..] == t[..i - 1] + t[i..];
      assert Without(r, msgId) == [q[0]] + Without(r[1..], msgId);
      assert Superseded(r, msgId) == Superseded(r[1..], msgId);
    }
  }

  lemma {:induction false} NothingUnsent(q: seq<Entry>, msgId: Byte)
    requires NoUnsent(q, msgId)
    ensures Without(q, msgId) == q && Superseded(q, msgId) == []
  {
    if q != [] {
      assert q[0] in q;
      NothingUnsent(q[1..], msgId);
    }
  }

  /**
   * The `do … while (found !== -1)` loop of `sendMessage`: repeatedly find the
   * first unsent entry of type `msgId` and splice it out. Returns the remaining
   * queue and the removed entries in the order they are resolved `false`.
   */
  method DropSuperseded(queue: seq<Entry>, msgId: Byte) returns (kept: seq<Entry>, dropped: seq<Entry>)
    ensures kept == Without(queue, msgId) && NoUnsent(kept, msgId)
    ensures dropped == Superseded(queue, msgId)
    ensures forall e :: e in dropped ==> Unsent(e, msgId)
  {
    kept, dropped := queue, [];
    var found := FindUnsent(kept, msgId);
    while found != -1
      invariant found == FindUnsent(kept, msgId)
      invariant Without(kept, msgId) == Without(queue, msgId)
      invariant dropped + Superseded(kept, msgId) == Superseded(queue, msgId)
      decreases |kept|
    {
      var message := kept[found];
      RemoveFirstUnsent(kept, msgId, found);
      kept := kept[..found] + kept[found + 1..];
      dropped := dropped + [message];
      found := FindUnsent(kept, msgId);
    }
    NothingUnsent(kept, msgId);
    SplitQueue(queue, msgId);
  }

  lemma WithoutKeepsNoUnsent(q: seq<Entry>, msgId: Byte, other: Byte)
    requires NoUnsent(q, other)
    ensures NoUnsent(Without(q, msgId), other)
  {
    SplitQueue(q, msgId);
  }

  lemma {:induction false} WithoutKeepsUnique(q: seq<Entry>, msgId: Byte)
    requires UniqueUnsent(q)
    ensures UniqueUnsent(Without(q, msgId))
  {
    if q != [] {
      WithoutKeepsUnique(q[1..], msgId);
      if !Unsent(q[0], msgId) {
        var r := Without(q, msgId);
        assert r == [q[0]] + Without(q[1..], msgId);
        assert r[1..] == Without(q[1..], msgId);
        if q[0].data.Some? {
          WithoutKeepsNoUnsent(q[1..], msgId, q[0].msgId);
        }
      } else {
        assert Without(q, msgId) == Without(q[1..], msgId);
      }
    }
  }

  lemma {:induction false} AppendKeepsUnique(q: seq<Entry>, e: Entry)
    requires UniqueUnsent(q)
    requires e.data.Some? ==> NoUnsent(q, e.msgId)
    ensures UniqueUnsent(q + [e])
  {
    if q == [] {
      assert [e][1..] == [];
    } else {
      assert (q + [e])[1..] == q[1..] + [e];
      AppendKeepsUnique(q[1..], e);
      if q[0].data.Some? {
        assert q[0] in q;
      }
    }
  }

  /** Removing unsent entries never removes the head that is on the air, and leaves only unsent entries behind it. */
  lemma WithoutKeepsHead(q: seq<Entry>, msgId: Byte)
    requires q != [] && q[0].data.None?
    requires forall k :: 1 <= k < |q| ==> q[k].data.Some?
    ensures Without(q, msgId) != [] && Without(q, msgId)[0] == q[0]
    ensures forall k :: 1 <= k < |Without(q, msgId)| ==> Without(q, msgId)[k].data.Some?
  {
    var w := Without(q[1..], msgId);
    SplitQueue(q[1..], msgId);
    assert Without(q, msgId) == [q[0]] + w;
    forall k | 1 <= k < |Without(q, msgId)|
      ensures Without(q, msgId)[k].data.Some?
    {
      assert Without(q, msgId)[k] == w[k - 1] && w[k - 1] in w;
    }
  }

  /**
   * Queueing a new request of type `e.msgId` behind the removal of the ones it
   * supersedes keeps the queue discipline: the head stays on the air, only
   * unsent entries follow it, and no two of them share a message type.
   */
  lemma SupersedeKeepsShape(q: seq<Entry>, e: Entry)
    requires q != [] && q[0].data.None? && UniqueUnsent(q)
    requires forall k :: 1 <= k < |q| ==> q[k].data.Some?
    requires e.data.Some?
    ensures var r := Without(q, e.msgId) + [e];
            && r[0] == q[0]
            && (forall k :: 1 <= k < |r| ==> r[k].data.Some?)
            && UniqueUnsent(r)
  {
    WithoutKeepsUnique(q, e.msgId);
    SplitQueue(q, e.msgId);
    AppendKeepsUnique(Without(q, e.msgId), e);
    WithoutKeepsHead(q, e.msgId);
  }

  // ---------------------------------------------------------------------------
  // Classification of channel events

  /** The channel-event codes `onMessage` distinguishes when the event id is 1 (an RF event). */
  datatype EventKind =
    | TransferCompleted
    | TransferFailed
    | SearchTimeout
    | RxFail
    | RxFailGoToSearch
    | Collision
    | Unhandled

  function EventKindOf(code: Byte): (k: EventKind)
    ensures k == TransferCompleted <==> code == Consts.EVENT_TRANSFER_TX_COMPLETED
    ensures k == TransferFailed <==> code in {0x06, 0x1F, 0x20, 0x21, 0x27, 0x28, 0x07}
    ensures k == SearchTimeout <==> code == Consts.EVENT_RX_SEARCH_TIMEOUT
    ensures k == RxFail <==> code == Consts.EVENT_RX_FAIL
    ensures k == RxFailGoToSearch <==> code == Consts.EVENT_RX_FAIL_GO_TO_SEARCH
    ensures k == Collision <==> code == Consts.EVENT_CHANNEL_COLLISION
  {
    if code == Consts.EVENT_TRANSFER_TX_COMPLETED then TransferCompleted
    else if code == Consts.EVENT_TRANSFER_TX_FAILED || code == Consts.TRANSFER_IN_PROGRESS
         || code == Consts.TRANSFER_SEQUENCE_NUMBER_ERROR || code == Consts.TRANSFER_IN_ERROR
         || code == Consts.MESSAGE_SIZE_EXCEEDS_LIMIT || code == Consts.INVALID_MESSAGE
         || code == Consts.EVENT_CHANNEL_CLOSED then TransferFailed
    else if code == Consts.EVENT_RX_SEARCH_TIMEOUT then SearchTimeout
    else if code == Consts.EVENT_RX_FAIL then RxFail
    else if code == Consts.EVENT_RX_FAIL_GO_TO_SEARCH then RxFailGoToSearch
    else if code == Consts.EVENT_CHANNEL_COLLISION then Collision
    else Unhandled
  }

  /** The RF event codes that settle the queue head or stop the scanner. */
  predicate Settles(code: Byte) {
    code in {Consts.EVENT_TRANSFER_TX_COMPLETED, Consts.EVENT_RX_SEARCH_TIMEOUT, 0x06, 0x1F, 0x20, 0x21, 0x27, 0x28, 0x07}
  }

  /** What an inbound frame does to the request queue. */
  datatype Reaction = Ignore | ResolveHead(value: Value) | StopScan

  /** A channel-event frame for channel `channelNo`, long enough to carry its two status bytes. */
  predicate IsEventFor(data: Frame, channelNo: int) {
    |data| > 5 && data[BUFFER_INDEX_MSG_TYPE] == Consts.MESSAGE_CHANNEL_EVENT
    && data[BUFFER_INDEX_CHANNEL_NUM] == channelNo
  }

  /**
   * The queue reaction to a frame, given the message type of the queue head:
   * a direct response (event id other than 1) resolves the head with its code
   * only when the ids match; an RF event resolves it `true` or `false`, or
   * stops the scanner on a search timeout; everything else is left alone.
   */
  function ReactionTo(data: Frame, channelNo: int, head: Option<Byte>): (r: Reaction)
    ensures !IsEventFor(data, channelNo) ==> r == Ignore
    ensures IsEventFor(data, channelNo) && data[4] != 1 ==>
              (r != Ignore <==> head == Some(data[4])) && (r != Ignore ==> r == ResolveHead(Code(data[5])))
    ensures IsEventFor(data, channelNo) && data[4] == 1 ==>
              (r == ResolveHead(Flag(true)) <==> data[5] == Consts.EVENT_TRANSFER_TX_COMPLETED)
              && (r == ResolveHead(Flag(false)) <==> data[5] in {0x06, 0x1F, 0x20, 0x21, 0x27, 0x28, 0x07})
              && (r == StopScan <==> data[5] == Consts.EVENT_RX_SEARCH_TIMEOUT)
    ensures IsEventFor(data, channelNo) && data[4] == 1 && !Settles(data[5]) ==> r == Ignore
  {
    if !IsEventFor(data, channelNo) then Ignore
    else if data[4] != 1 then
      (if head == Some(data[4]) then ResolveHead(Code(data[5])) else Ignore)
    else
      match EventKindOf(data[5])
      case TransferCompleted => ResolveHead(Flag(true))
      case TransferFailed => ResolveHead(Flag(false))
      case SearchTimeout => StopScan
      case RxFail => Ignore
      case RxFailGoToSearch => Ignore
      case Collision => Ignore
      case Unhandled => Ignore
  }

  /** The notifications `onMessage` emits for a frame: `status` for an event, `message` for other frames of this channel. */
  function EmittedFor(data: Frame, channelNo: int): (r: seq<Notification>)
    ensures |r| <= 1
    ensures IsEventFor(data, channelNo) ==> r == [Status(data[4], data[5], data)]
    ensures !IsEventFor(data, channelNo) ==> (r != [] ==> r == [Message(data)])
    ensures r == [Message(data)] <==> |data| > 3 && data[3] == channelNo && data[2] != Consts.MESSAGE_CHANNEL_EVENT
  {
    if |data| < 4 || data[BUFFER_INDEX_CHANNEL_NUM] != channelNo then []
    else if data[BUFFER_INDEX_MSG_TYPE] == Consts.MESSAGE_CHANNEL_EVENT then
      (if |data| > 5 then [Status(data[4], data[5], data)] else [])
    else [Message(data)]
  }

  /** The queue after its head is resolved and the next entry is written: the new head's payload is cleared. */
  function Advance(q: seq<Entry>): (r: seq<Entry>)
    requires q != []
    ensures |r| == |q| - 1
    ensures r != [] ==> r[0] == q[1].(data := None) && r[1..] == q[2..]
  {
    if |q| == 1 then [] else [q[1].(data := None)] + q[2..]
  }

  /** The command written when the queue advances: the next entry's payload, if there is a next entry. */
  function NextWrite(q: seq<Entry>): seq<Command> {
    if |q| > 1 && q[1].data.Some? then [q[1].data.value] else []
  }

  // ---------------------------------------------------------------------------
  // Opening and closing

  /** The commands `startScanner` sends, in order, each awaited before the next. */
  function ScannerStartSequence(channelNo: int): (r: seq<Command>)
    ensures |r| == 6 && r[0] == AssignChannel(channelNo, "receive") && r[5] == OpenRxScan
    ensures forall i, j :: 0 <= i < j < |r| ==> MsgId(r[i]) != MsgId(r[j])
    ensures forall c :: c in r && c != SetRxExt && c != OpenRxScan ==> ChannelField(c) == channelNo
  {
    [ AssignChannel(channelNo, "receive"),
      SetDevice(channelNo, 0, 0, 0),
      SetFrequency(channelNo, 57),
      SetRxExt,
      LibConfig(channelNo, 0xE0),
      OpenRxScan ]
  }

  /** The commands `startSensor` sends, in order, built from the decoder's channel configuration. */
  function SensorStartSequence(channelNo: int, config: ChannelConfiguration, deviceID: int, deviceType: int): (r: seq<Command>)
    ensures |r| == 7 && r[0] == AssignChannel(channelNo, config.channelType) && r[6] == OpenChannel(channelNo)
    ensures forall i, j :: 0 <= i < j < |r| ==> MsgId(r[i]) != MsgId(r[j])
    ensures forall c :: c in r ==> ChannelField(c) == channelNo
    ensures SetDevice(channelNo, deviceID, deviceType, config.transmissionType) in r
  {
    [ AssignChannel(channelNo, config.channelType),
      SetDevice(channelNo, deviceID, deviceType, config.transmissionType),
      SearchChannel(channelNo, config.timeout),
      SetFrequency(channelNo, config.frequency),
      SetPeriod(channelNo, config.period),
      LibConfig(channelNo, 0xE0),
      OpenChannel(channelNo) ]
  }

  /** The notifications for one decoded device: `detected` (scanner mode only) strictly before `data`. */
  function DeviceDataEvents(isScanner: bool, profile: string, deviceID: int): (r: seq<Notification>)
    ensures r != [] && r[|r| - 1] == Data(profile, deviceID)
    ensures Detected(profile, deviceID) in r <==> isScanner
    ensures isScanner ==> r == [Detected(profile, deviceID), Data(profile, deviceID)]
  {
    (if isScanner then [Detected(profile, deviceID)] else []) + [Data(profile, deviceID)]
  }

  // ---------------------------------------------------------------------------
  // The channel

  class Channel {
    const channelNo: int
    var isScanner: bool
    var isSensor: bool
    var isWriting: bool
    var messageQueue: seq<Entry>
    /** Every command handed to `device.write`, in order. */
    var written: seq<Command>
    /** Every call of a promise's resolve or reject, in order. */
    var settlements: seq<Settlement>
    /** Every notification emitted, in order. */
    var emitted: seq<Notification>
    /** The ticket the next `sendMessage` promise gets. */
    var nextTicket: nat

    /**
     * The queue discipline: the head is the one request on the air (already
     * written, payload cleared), every later entry still holds its payload,
     * a write is outstanding exactly when the queue is non-empty, and no two
     * unsent entries share a message type.
     */
    ghost predicate Valid()
      reads this
    {
      && (isWriting <==> messageQueue != [])
      && (messageQueue != [] ==> messageQueue[0].data.None?)
      && (forall k :: 1 <= k < |messageQueue| ==> messageQueue[k].data.Some?)
      && UniqueUnsent(messageQueue)
    }

    constructor (channelNo: int)
      ensures Valid()
      ensures this.channelNo == channelNo && !isScanner && !isSensor
      ensures messageQueue == [] && written == [] && settlements == [] && emitted == []
    {
      this.channelNo := channelNo;
      isScanner, isSensor, isWriting := false, false, false;
      messageQueue, written, settlements, emitted := [], [], [], [];
      nextTicket := 0;
    }

    /** The channel number fixed at construction. */
    function GetChannelNo(): (n: int)
      ensures n == channelNo
    {
      channelNo
    }

    /** A decoder reports a device: scanners first announce it as `detected`, then every channel emits `data`. */
    method OnDeviceData(profile: string, deviceID: int)
      modifies this
      ensures emitted == old(emitted) + DeviceDataEvents(isScanner, profile, deviceID)
      ensures isScanner == old(isScanner) && isSensor == old(isSensor) && isWriting == old(isWriting)
      ensures messageQueue == old(messageQueue) && written == old(written)
      ensures settlements == old(settlements) && nextTicket == old(nextTicket)
    {
      if isScanner {
        emitted := emitted + [Detected(profile, deviceID)];
      }
      emitted := emitted + [Data(profile, deviceID)];
    }

    /**
     * `stopScanner`: returns `true` at once, sending nothing, when the channel
     * is not scanning; otherwise writes the close command and waits (`stopped`
     * is false: the promise settles only after the close sequence).
     */
    method StopScanner() returns (stopped: bool)
      modifies this
      ensures stopped == !old(isScanner)
      ensures written == old(written) + (if stopped then [] else [CloseChannel(channelNo)])
      ensures isScanner == old(isScanner) && isSensor == old(isSensor) && isWriting == old(isWriting)
      ensures messageQueue == old(messageQueue) && settlements == old(settlements)
      ensures emitted == old(emitted) && nextTicket == old(nextTicket)
    {
      if !isScanner {
        return true;
      }
      written := written + [CloseChannel(channelNo)];
      stopped := false;
    }

    /** `stopSensor`: the same early return and close command, for a tracking channel. */
    method StopSensor() returns (stopped: bool)
      modifies this
      ensures stopped == !old(isSensor)
      ensures written == old(written) + (if stopped then [] else [CloseChannel(channelNo)])
      ensures isScanner == old(isScanner) && isSensor == old(isSensor) && isWriting == old(isWriting)
      ensures messageQueue == old(messageQueue) && settlements == old(settlements)
      ensures emitted == old(emitted) && nextTicket == old(nextTicket)
    {
      if !isSensor {
        return true;
      }
      written := written + [CloseChannel(channelNo)];
      stopped := false;
    }

    /**
     * `sendMessage`: with nothing outstanding the command is written at once and
     * queued without payload; otherwise every unsent entry of the same type is
     * removed and resolved `false`, and the command is queued with its payload.
     * A command for another channel is rejected but, as there is no return,
     * still queued or written.
     */
    method SendMessage(cmd: Command) returns (ticket: nat)
      requires Valid()
      modifies this
      ensures Valid() && isWriting
      ensures ticket == old(nextTicket) && nextTicket == ticket + 1
      ensures old(isWriting) ==>
                && messageQueue == Without(old(messageQueue), MsgId(cmd)) + [Entry(ticket, MsgId(cmd), Some(cmd))]
                && written == old(written)
                && settlements == old(settlements) + (if ChannelField(cmd) != channelNo then [Rejected(ticket)] else [])
                                  + Dropped(Superseded(old(messageQueue), MsgId(cmd)))
      ensures !old(isWriting) ==>
                && messageQueue == [Entry(ticket, MsgId(cmd), None)]
                && written == old(written) + [cmd]
                && settlements == old(settlements) + (if ChannelField(cmd) != channelNo then [Rejected(ticket)] else [])
      ensures isScanner == old(isScanner) && isSensor == old(isSensor) && emitted == old(emitted)
    {
      var msgId := MsgId(cmd);
      var rejected := if ChannelField(cmd) != channelNo then [Rejected(nextTicket)] else [];
      ticket := nextTicket;
      nextTicket := nextTicket + 1;
      if isWriting {
        var kept, dropped := DropSuperseded(messageQueue, msgId);
        var entry := Entry(ticket, msgId, Some(cmd));
        SupersedeKeepsShape(messageQueue, entry);
        messageQueue := kept + [entry];
        settlements := settlements + rejected + Dropped(dropped);
      } else {
        assert UniqueUnsent([Entry(ticket, msgId, None)]);
        messageQueue := [Entry(ticket, msgId, None)];
        isWriting := true;
        written := written + [cmd];
        settlements := settlements + rejected;
      }
    }

    /** The `resolve` closure of `onMessage`: settle and remove the head, if any. */
    method Resolve(value: Value)
      requires Valid()
      modifies this
      ensures old(messageQueue) == [] ==> messageQueue == [] && settlements == old(settlements) && isWriting == old(isWriting)
      ensures old(messageQueue) != [] ==>
                && messageQueue == old(messageQueue)[1..] && !isWriting
                && settlements == old(settlements) + [Resolved(old(messageQueue)[0].ticket, value)]
      ensures written == old(written) && emitted == old(emitted) && nextTicket == old(nextTicket)
      ensures isScanner == old(isScanner) && isSensor == old(isSensor)
    {
      if messageQueue == [] {
        return;
      }
      var msg := messageQueue[0];
      messageQueue := messageQueue[1..];
      isWriting := false;
      settlements := settlements + [Resolved(msg.ticket, value)];
    }

    /** The `next` closure of `onMessage`: write the new head and clear its payload, if there is one. */
    method Next()
      modifies this
      ensures old(messageQueue) == [] ==> messageQueue == [] && written == old(written) && isWriting == old(isWriting)
      ensures old(messageQueue) != [] ==>
                && isWriting
                && messageQueue == [old(messageQueue)[0].(data := None)] + old(messageQueue)[1..]
                && written == old(written) + (if old(messageQueue)[0].data.Some? then [old(messageQueue)[0].data.value] else [])
      ensures settlements == old(settlements) && emitted == old(emitted) && nextTicket == old(nextTicket)
      ensures isScanner == old(isScanner) && isSensor == old(isSensor)
    {
      if messageQueue == [] {
        return;
      }
      var msg := messageQueue[0];
      isWriting := true;
      if msg.data.Some? {
        written := written + [msg.data.value];
      }
      messageQueue := [msg.(data := None)] + messageQueue[1..];
    }

    /**
     * `onMessage`: a channel-event frame for this channel emits `status`, then
     * acts on the queue as `ReactionTo` says; another frame for this channel is
     * forwarded as `message`; frames for other channels, and frames too short
     * to read (the source catches the read error), change nothing.
     */
    method OnMessage(data: Frame)
      requires Valid()
      modifies this
      ensures Valid()
      ensures emitted == old(emitted) + EmittedFor(data, channelNo)
      ensures var head := if old(messageQueue) == [] then None else Some(old(messageQueue)[0].msgId);
              match ReactionTo(data, channelNo, head)
              case ResolveHead(value) =>
                if old(messageQueue) == [] then
                  messageQueue == [] && settlements == old(settlements) && written == old(written)
                else
                  && messageQueue == Advance(old(messageQueue))
                  && settlements == old(settlements) + [Resolved(old(messageQueue)[0].ticket, value)]
                  && written == old(written) + NextWrite(old(messageQueue))
              case StopScan =>
                && messageQueue == old(messageQueue) && settlements == old(settlements)
                && written == old(written) + (if old(isScanner) then [CloseChannel(channelNo)] else [])
              case Ignore =>
                messageQueue == old(messageQueue) && settlements == old(settlements) && written == old(written)
      ensures isScanner == old(isScanner) && isSensor == old(isSensor) && nextTicket == old(nextTicket)
    {
      if |data| < 4 {
        return;
      }
      var messageID := data[BUFFER_INDEX_MSG_TYPE];
      var channel := data[BUFFER_INDEX_CHANNEL_NUM];
      var prevMsgId := if messageQueue == [] then None else Some(messageQueue[0].msgId);
      if messageID == Consts.MESSAGE_CHANNEL_EVENT && channel == channelNo {
        if |data| < 6 {
          return;
        }
        var msg, code := data[4], data[5];
        emitted := emitted + [Status(msg, code, data)];
        ghost var q := messageQueue;
        if msg != 1 {
          if prevMsgId == Some(msg) {
            Resolve(Code(code));
            Next();
            if q != [] { AdvanceValid(q); }
            return;
          }
        } else {
          match EventKindOf(code)
          case TransferCompleted =>
            Resolve(Flag(true));
            Next();
            if q != [] { AdvanceValid(q); }
          case TransferFailed =>
            Resolve(Flag(false));
            Next();
            if q != [] { AdvanceValid(q); }
          case SearchTimeout =>
            var _ := StopScanner();
          case RxFail =>
          case RxFailGoToSearch =>
          case Collision =>
          case Unhandled =>
        }
      } else if channel == channelNo {
        emitted := emitted + [Message(data)];
      }
    }

    /** The queue shape after resolve followed by next. */
    lemma AdvanceValid(q: seq<Entry>)
      requires q != [] && q[0].data.None? && UniqueUnsent(q)
      requires forall k :: 1 <= k < |q| ==> q[k].data.Some?
      ensures UniqueUnsent(Advance(q)) && NextWrite(q) == (if |q| > 1 then [q[1].data.value] else [])
      ensures forall k :: 1 <= k < |Advance(q)| ==> Advance(q)[k].data.Some?
    {
      if |q| > 1 {
        assert UniqueUnsent(q[1..]);
        assert Advance(q)[1..] == q[1..][1..];
      }
    }
  }

  /** The `false` resolutions of superseded entries, in the order they were removed. */
  function Dropped(es: seq<Entry>): (r: seq<Settlement>)
    ensures |r| == |es|
    ensures forall k :: 0 <= k < |es| ==> r[k] == Resolved(es[k].ticket, Flag(false))
  {
    if es == [] then [] else [Resolved(es[0].ticket, Flag(false))] + Dropped(es[1..])
  }
}
