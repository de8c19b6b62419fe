/**
 The device end of a CTAPHID link (section 11.2.4 of CTAP 2.1): 64-byte packets in, 64-byte packets out,
 through one message buffer.
 */
module CtapHid {
  import opened Wrappers
  import opened Bytes

  const MESSAGE_SIZE: nat := 3072
  const PACKET_SIZE: nat := 64
  /** Payload of an initialization packet, and of a continuation packet. */
  const INIT_DATA: nat := 57
  const CONT_DATA: nat := 59

  const BROADCAST: nat := 0xffff_ffff

  type Channel = x: nat | x < 0x1_0000_0000

  type Packet = p: seq<byte> | |p| == PACKET_SIZE witness seq(PACKET_SIZE, _ => 0)

  type Command = x: int | 0 <= x < 0x80

  const PING: Command := 0x01
  const MSG: Command := 0x03
  const LOCK: Command := 0x04
  const INIT: Command := 0x06
  const WINK: Command := 0x08
  const CBOR: Command := 0x10
  const CANCEL: Command := 0x11
  const KEEPALIVE: Command := 0x3b
  const ERROR: Command := 0x3f

  /** Command numbers the device recognizes; 0x40 to 0x7f are vendor commands. */
  predicate Known(command: Command) {
    command in {PING, MSG, LOCK, INIT, WINK, CBOR, CANCEL, KEEPALIVE, ERROR} || command >= 0x40
  }

  /** Commands that are handed to the application. */
  predicate ForApplication(command: Command) {
    Known(command) && command != INIT && command != PING && command != CANCEL
  }

  const INVALID_COMMAND: byte := 0x01
  const INVALID_LENGTH: byte := 0x03
  const INVALID_SEQ: byte := 0x04
  const CHANNEL_BUSY: byte := 0x06
  const INVALID_CHANNEL: byte := 0x0b

  /** CTAPHID protocol version and capability flags that an INIT is answered with. */
  const PROTOCOL_VERSION: byte := 2
  const CAPABILITIES: byte := 0x84

  datatype Request = Request(channel: Channel, command: Command, length: nat)

  datatype Response = Response(channel: Channel, command: Command, length: nat)

  /** The next sequence number, and the payload bytes moved so far. */
  datatype MessageState = MessageState(nextSequence: nat, transmitted: nat)

  const FIRST: MessageState := MessageState(0, INIT_DATA)

  function AbsorbPacket(m: MessageState): MessageState {
    MessageState(m.nextSequence + 1, m.transmitted + CONT_DATA)
  }

  datatype State =
    | Idle
    | Receiving(request: Request, received: MessageState)
    | WaitingOnAuthenticator(waiting: Request)
    | WaitingToSend(toSend: Response)
    | Sending(response: Response, sent: MessageState)

  /** What the application behind the pipe answers. */
  datatype AppResponse = AppInvalidCommand | AppInvalidLength | AppNoResponse | AppMessage(message: seq<byte>)

  /** A pipe's whole state: outgoing packets, transaction, message buffer, last channel handed out, and the requests
      that the application has been given. */
  datatype PipeState = PipeState(
    queue: seq<Packet>, state: State, buffer: seq<byte>, lastChannel: Channel, submitted: seq<(Command, seq<byte>)>)

  /** The arithmetic a transfer in progress keeps. Sequence numbers stay far below the initialization bit. */
  predicate InProgress(m: MessageState, length: nat) {
    m.transmitted == INIT_DATA + CONT_DATA * m.nextSequence && m.transmitted < length <= MESSAGE_SIZE
  }

  predicate Inv(v: PipeState) {
    && |v.buffer| == MESSAGE_SIZE
    && match v.state
       case Idle => true
       case Receiving(request, received) => InProgress(received, request.length)
       case WaitingOnAuthenticator(request) => request.length <= MESSAGE_SIZE
       case WaitingToSend(response) => response.length <= MESSAGE_SIZE
       case Sending(response, sent) => InProgress(sent, response.length)
  }

  /** Between calls nothing waits to be sent: the first packet of a response is always queued at once. */
  predicate Settled(v: PipeState) {
    Inv(v) && !v.state.WaitingToSend?
  }

  function Overwrite(buffer: seq<byte>, at: nat, data: seq<byte>): (r: seq<byte>)
    requires at + |data| <= |buffer|
    ensures |r| == |buffer|
  {
    buffer[..at] + data + buffer[at + |data|..]
  }

  // ---------------------------------------------------------------------------
  // Packets
  // ---------------------------------------------------------------------------

  function Pad(data: seq<byte>, size: nat): (r: seq<byte>)
    requires |data| <= size
    ensures |r| == size && data <= r
  {
    data + seq(size - |data|, _ => 0)
  }

  function InitPacket(channel: Channel, command: Command, length: nat, data: seq<byte>): Packet
    requires |data| <= INIT_DATA
  {
    BigEndian(channel, 4) + [command + 0x80] + BigEndian(length, 2) + Pad(data, INIT_DATA)
  }

  function ContPacket(channel: Channel, sequence: byte, data: seq<byte>): Packet
    requires |data| <= CONT_DATA
  {
    BigEndian(channel, 4) + [sequence] + Pad(data, CONT_DATA)
  }

  function ErrorPacket(channel: Channel, error: byte): Packet {
    InitPacket(channel, ERROR, 1, [error])
  }

  function ChannelOf(p: Packet): Channel {
    Limits();
    FromBigEndian(p[..4])
  }

  function LengthOf(p: Packet): nat {
    FromBigEndian(p[5..7])
  }

  predicate IsInit(p: Packet) {
    p[4] >= 0x80
  }

  // ---------------------------------------------------------------------------
  // The pipe, step by step
  // ---------------------------------------------------------------------------

  function Min(a: nat, b: nat): nat {
    if a < b then a else b
  }

  /** Queue the next packet of a response, if one is being sent. */
  function WritePacket(v: PipeState): (w: PipeState)
    requires Inv(v)
    ensures Settled(w) && w.buffer == v.buffer && w.submitted == v.submitted
  {
    match v.state
    case WaitingToSend(r) =>
      var n := Min(INIT_DATA, r.length);
      v.(queue := v.queue + [InitPacket(r.channel, r.command, r.length, v.buffer[..n])],
         state := if r.length <= INIT_DATA then Idle else Sending(r, FIRST))
    case Sending(r, sent) =>
      var n := Min(CONT_DATA, r.length - sent.transmitted);
      v.(queue := v.queue + [ContPacket(r.channel, sent.nextSequence, v.buffer[sent.transmitted..sent.transmitted + n])],
         state := if n == r.length - sent.transmitted then Idle else Sending(r, AbsorbPacket(sent)))
    case _ => v
  }

  function StartSending(v: PipeState, r: Response): (w: PipeState)
    requires |v.buffer| == MESSAGE_SIZE && r.length <= MESSAGE_SIZE
    ensures Settled(w)
  {
    WritePacket(v.(state := WaitingToSend(r)))
  }

  /** Answer with an error and give up the transaction. */
  function Abort(v: PipeState, channel: Channel, error: byte): (w: PipeState)
    requires |v.buffer| == MESSAGE_SIZE
    ensures Settled(w) && w.state.Idle?
  {
    StartSending(v.(buffer := Overwrite(v.buffer, 0, [error])), Response(channel, ERROR, 1))
  }

  /** Answer with an error on the side: nothing but the queue changes. */
  function ErrorNow(v: PipeState, channel: Channel, error: byte): PipeState {
    v.(queue := v.queue + [ErrorPacket(channel, error)])
  }

  /** What an INIT is answered with, after the nonce that is already in the buffer. */
  function InitReply(channel: Channel): (r: seq<byte>)
    ensures |r| == 9
  {
    BigEndian(channel, 4) + [PROTOCOL_VERSION, 0, 0, 0, CAPABILITIES]
  }

  /** A complete request. `accepts` says whether the application takes it. */
  function Dispatch(v: PipeState, r: Request, accepts: bool): (w: PipeState)
    requires Settled(v) && r.length <= MESSAGE_SIZE
    ensures Settled(w)
  {
    if r.command != INIT && r.channel == BROADCAST then Abort(v, r.channel, INVALID_CHANNEL)
    else if r.command == INIT then
      if r.channel == 0 then Abort(v, 0, INVALID_CHANNEL)
      else if r.length != 8 then v
      else
        var next := (v.lastChannel + 1) % 0x1_0000_0000;
        StartSending(v.(lastChannel := next, buffer := Overwrite(v.buffer, 8, InitReply(next))),
                     Response(r.channel, INIT, 17))
    else if r.command == PING then StartSending(v, Response(r.channel, PING, r.length))
    else if r.command == CANCEL then v
    else if accepts then
      v.(state := WaitingOnAuthenticator(r), submitted := v.submitted + [(r.command, v.buffer[..r.length])])
    else ErrorNow(v, r.channel, CHANNEL_BUSY)
  }

  /** A packet starting a message. */
  function ReceiveInit(v: PipeState, p: Packet, accepts: bool): (w: PipeState)
    requires Settled(v) && IsInit(p)
    ensures Settled(w)
  {
    var channel, command, length := ChannelOf(p), p[4] - 0x80, LengthOf(p);
    var r := Request(channel, command, length);
    if !Known(command) then Abort(v, channel, INVALID_COMMAND)
    else if v.state.Sending? then v
    else if !v.state.Idle? && command != INIT then
      var current := if v.state.Receiving? then v.state.request else v.state.waiting;
      if channel != current.channel then ErrorNow(v, channel, CHANNEL_BUSY)
      else if command == CANCEL then v
      else Abort(v, channel, INVALID_SEQ)
    else if length > MESSAGE_SIZE then ErrorNow(v, channel, INVALID_LENGTH)
    else if length > INIT_DATA then v.(buffer := Overwrite(v.buffer, 0, p[7..]), state := Receiving(r, FIRST))
    else Dispatch(v.(buffer := Overwrite(v.buffer, 0, p[7..7 + length])), r, accepts)
  }

  /** A packet continuing the message being received. The sequence number is looked at before the channel. */
  function ReceiveCont(v: PipeState, p: Packet, accepts: bool): (w: PipeState)
    requires Settled(v) && !IsInit(p) && v.state.Receiving?
    ensures Settled(w)
  {
    var r, m := v.state.request, v.state.received;
    if p[4] != m.nextSequence then Abort(v, r.channel, INVALID_SEQ)
    else if ChannelOf(p) != r.channel then v
    else if m.transmitted + CONT_DATA < r.length then
      v.(buffer := Overwrite(v.buffer, m.transmitted, p[5..]), state := Receiving(r, AbsorbPacket(m)))
    else
      var missing := r.length - m.transmitted;
      Dispatch(v.(buffer := Overwrite(v.buffer, m.transmitted, p[5..5 + missing])), r, accepts)
  }

  /** The device panics on a continuation packet that continues nothing. */
  predicate Panics(v: PipeState, p: Packet) {
    !IsInit(p) && !v.state.Receiving?
  }

  function Receive(v: PipeState, p: Packet, accepts: bool): (w: PipeState)
    requires Settled(v) && !Panics(v, p)
    ensures Settled(w)
  {
    if IsInit(p) then ReceiveInit(v, p, accepts) else ReceiveCont(v, p, accepts)
  }

  /** The application's answer, if it has one, to the request it is working on. */
  function TakeResponse(v: PipeState, response: Option<AppResponse>): (w: PipeState)
    requires Settled(v)
    ensures Settled(w)
  {
    if !v.state.WaitingOnAuthenticator? || response.None? then v else
    var r := v.state.waiting;
    match response.value
    case AppInvalidCommand => Abort(v, r.channel, INVALID_COMMAND)
    case AppInvalidLength => Abort(v, r.channel, INVALID_LENGTH)
    case AppNoResponse => v
    case AppMessage(m) =>
      if |m| > MESSAGE_SIZE then Abort(v, r.channel, INVALID_LENGTH)
      else StartSending(v.(buffer := Overwrite(v.buffer, 0, m)), Response(r.channel, r.command, |m|))
  }

  /** The state that a poll leaves before it takes the oldest packet off the queue. */
  function Polled(v: PipeState, response: Option<AppResponse>): (w: PipeState)
    requires Settled(v)
    ensures Settled(w)
  {
    WritePacket(TakeResponse(v, response))
  }

  function AfterPop(v: PipeState, response: Option<AppResponse>): (w: PipeState)
    requires Settled(v)
    ensures Settled(w)
  {
    var w := Polled(v, response);
    if w.queue == [] then w else w.(queue := w.queue[1..])
  }

  function Popped(v: PipeState, response: Option<AppResponse>): Option<Packet>
    requires Settled(v)
  {
    var w := Polled(v, response);
    if w.queue == [] then None else Some(w.queue[0])
  }
}
