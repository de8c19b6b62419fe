/** The packets on the wire, spelled out: what the device answers to what, byte by byte (section 11.2 of CTAP 2.1). */
module CtapHidWire {
  import opened Wrappers
  import opened Bytes
  import opened CtapHid
  import opened CtapHidLink

  /** The 64 bytes that start a message: channel, command with the top bit, length, payload, padding. */
  function Starting(channel: Channel, code: byte, length: nat, data: seq<byte>): (p: seq<byte>)
    requires length < 0x1_0000 && |data| <= 57
    ensures |p| == 64
  {
    [channel / 0x100_0000, channel / 0x1_0000 % 0x100, channel / 0x100 % 0x100, channel % 0x100, code, length / 0x100, length % 0x100]
    + data + seq(57 - |data|, _ => 0)
  }

  /** The 64 bytes that continue one: channel, sequence number, payload, padding. */
  function Continuing(channel: Channel, sequence: byte, data: seq<byte>): (p: seq<byte>)
    requires |data| <= 59
    ensures |p| == 64
  {
    [channel / 0x100_0000, channel / 0x1_0000 % 0x100, channel / 0x100 % 0x100, channel % 0x100, sequence]
    + data + seq(59 - |data|, _ => 0)
  }

  lemma StartingIs(channel: Channel, command: Command, length: nat, data: seq<byte>)
    requires length < 0x1_0000 && |data| <= 57
    ensures Starting(channel, 0x80 + command, length, data) == InitPacket(channel, command, length, data)
  {
    FourBigEndian(channel);
    TwoBigEndian(length);
    assert channel / 0x100_0000 % 0x100 == channel / 0x100_0000 && length / 0x100 % 0x100 == length / 0x100;
  }

  lemma ContinuingIs(channel: Channel, sequence: byte, data: seq<byte>)
    requires |data| <= 59
    ensures Continuing(channel, sequence, data) == ContPacket(channel, sequence, data)
  {
    FourBigEndian(channel);
    assert channel / 0x100_0000 % 0x100 == channel / 0x100_0000;
  }

  lemma StartingReads(channel: Channel, command: Command, length: nat, data: seq<byte>)
    requires length < 0x1_0000 && |data| <= 57
    ensures var p := Starting(channel, 0x80 + command, length, data);
      && IsInit(p) && p[4] == 0x80 + command && ChannelOf(p) == channel && LengthOf(p) == length && p[7..7 + |data|] == data
  {
    StartingIs(channel, command, length, data);
    InitPacketReads(channel, command, length, data);
  }

  /** What the packet number `i` of a message carries: 57 bytes first, and then 59 at a time. */
  function Slice(m: seq<byte>, i: nat): seq<byte>
    requires i == 0 || 57 + 59 * (i - 1) <= |m|
  {
    if i == 0 then m[..Min(57, |m|)] else m[57 + 59 * (i - 1)..Min(57 + 59 * i, |m|)]
  }

  /** A message is cut into such slices, under increasing numbers. */
  lemma FragmentsSpelled(msg: Message, i: nat)
    requires |msg.payload| <= 3072 && i < |Fragments(msg)|
    ensures var m, p := msg.payload, Fragments(msg)[i];
      if i == 0 then p == Starting(msg.channel, 0x80 + msg.command, |m|, Slice(m, 0))
      else 57 + 59 * (i - 1) < |m| && i <= 128 && p == Continuing(msg.channel, i - 1, Slice(m, i))
    ensures |Fragments(msg)| == if |msg.payload| <= 57 then 1 else 1 + (|msg.payload| + 1) / 59
  {
    hide InitPacket, ContPacket, Starting, Continuing, Continuations;
    var m := msg.payload;
    StartingIs(msg.channel, msg.command, |m|, m[..Min(57, |m|)]);
    if |m| > 57 {
      ContinuationsCounted(msg.channel, m, FIRST);
      if i > 0 {
        ContinuationsSpelled(msg.channel, m, FIRST, i - 1);
        assert Fragments(msg)[i] == Continuations(msg.channel, m, FIRST)[i - 1];
      }
    }
  }

  lemma {:induction false} ContinuationsCounted(channel: Channel, m: seq<byte>, s: MessageState)
    requires InProgress(s, |m|)
    ensures |Continuations(channel, m, s)| == (|m| - s.transmitted + 58) / 59
    decreases |m| - s.transmitted
  {
    hide ContPacket;
    if |m| - s.transmitted > 59 {
      ContinuationsCounted(channel, m, AbsorbPacket(s));
    }
  }

  lemma {:induction false} ContinuationsSpelled(channel: Channel, m: seq<byte>, s: MessageState, i: nat)
    requires InProgress(s, |m|) && i < |Continuations(channel, m, s)|
    ensures var n := s.nextSequence + i;
      57 + 59 * n < |m| && n < 0x80 && Continuations(channel, m, s)[i] == Continuing(channel, n, Slice(m, n + 1))
    decreases i
  {
    hide ContPacket, Continuing, Slice;
    var rest := Continuations(channel, m, s)[1..];
    if i > 0 {
      var t := AbsorbPacket(s);
      assert rest == Continuations(channel, m, t);
      ContinuationsSpelled(channel, m, t, i - 1);
      assert t.nextSequence + (i - 1) == s.nextSequence + i && Continuations(channel, m, s)[i] == rest[i - 1];
    } else {
      var n := s.nextSequence;
      SliceIs(m, n + 1);
      ContinuingIs(channel, n, m[s.transmitted..Min(s.transmitted + 59, |m|)]);
    }
  }

  lemma SliceIs(m: seq<byte>, i: nat)
    requires i > 0 && 57 + 59 * (i - 1) <= |m|
    ensures Slice(m, i) == m[57 + 59 * (i - 1)..Min(57 + 59 * (i - 1) + 59, |m|)]
  {
  }

  // ---------------------------------------------------------------------------
  // The first exchange
  // ---------------------------------------------------------------------------

  /** The next channel, which is handed out to whoever asks. */
  function Allocated(v: PipeState): Channel {
    (v.lastChannel + 1) % 0x1_0000_0000
  }

  /** What an INIT is answered with: the client's nonce, the new channel, protocol version 2, the device version, and the
      capability flags. */
  function Answer(nonce: seq<byte>, n: Channel): seq<byte> {
    nonce + [n / 0x100_0000, n / 0x1_0000 % 0x100, n / 0x100 % 0x100, n % 0x100] + [2, 0, 0, 0, 0x84]
  }

  lemma AnswerIs(nonce: seq<byte>, n: Channel)
    ensures Answer(nonce, n) == nonce + InitReply(n)
  {
    FourBigEndian(n);
    assert n / 0x100_0000 % 0x100 == n / 0x100_0000;
  }

  lemma InitDispatched(v: PipeState, channel: Channel, nonce: seq<byte>, accepts: bool)
    requires Settled(v) && !v.state.Sending? && channel != 0 && |nonce| == 8
    ensures var n, b := Allocated(v), Overwrite(v.buffer, 0, nonce);
      After(v, PushEvent(Starting(channel, 0x86, 8, nonce), accepts))
      == StartSending(v.(lastChannel := n, buffer := Overwrite(b, 8, InitReply(n))), Response(channel, INIT, 17))
  {
    hide Starting, Overwrite, InitReply, StartSending, Abort, ErrorNow, Known, ChannelOf, LengthOf, IsInit;
    StartingReads(channel, INIT, 8, nonce);
    KnownIs(INIT);
  }

  /** INIT on any channel but 0, whatever the pipe is busy with except sending, is answered in one packet, after what is queued,
      with a channel of its own. The transaction under way is given up. */
  lemma InitAnswered(v: PipeState, channel: Channel, nonce: seq<byte>, accepts: bool)
    requires Settled(v) && !v.state.Sending? && channel != 0 && |nonce| == 8
    ensures var n, w := Allocated(v), Run(v, [PushEvent(Starting(channel, 0x86, 8, nonce), accepts)]);
      && w.queue == v.queue + [Starting(channel, 0x86, 17, Answer(nonce, n))]
      && Drain(w) == w.queue && w.state.Idle? && w.lastChannel == n && w.submitted == v.submitted
  {
    hide Drain, InitPacket, Starting, Overwrite, InitReply, Answer, Run, After;
    var e, n := PushEvent(Starting(channel, 0x86, 8, nonce), accepts), Allocated(v);
    Once(v, e);
    InitDispatched(v, channel, nonce, accepts);
    AnswerIs(nonce, n);
    Written(v.buffer, nonce, InitReply(n));
    StartingIs(channel, INIT, 17, Answer(nonce, n));
    DrainIdle(After(v, e));
  }

  /** The first exchange of all: channel 1. */
  lemma FirstContact(nonce: seq<byte>, accepts: bool)
    requires |nonce| == 8
    ensures Drain(Run(START, [PushEvent([0xff, 0xff, 0xff, 0xff, 0x86, 0, 8] + nonce + seq(49, _ => 0), accepts)]))
         == [[0xff, 0xff, 0xff, 0xff, 0x86, 0, 17] + nonce + [0, 0, 0, 1] + [2, 0, 0, 0, 0x84] + seq(40, _ => 0)]
  {
    hide Drain, Run;
    InitAnswered(START, 0xffff_ffff, nonce, accepts);
    assert Starting(0xffff_ffff, 0x86, 8, nonce) == [0xff, 0xff, 0xff, 0xff, 0x86, 0, 8] + nonce + seq(49, _ => 0);
    assert Starting(0xffff_ffff, 0x86, 17, Answer(nonce, 1))
        == [0xff, 0xff, 0xff, 0xff, 0x86, 0, 17] + nonce + [0, 0, 0, 1] + [2, 0, 0, 0, 0x84] + seq(40, _ => 0);
  }

  lemma Written(buffer: seq<byte>, a: seq<byte>, b: seq<byte>)
    requires |buffer| >= |a| + |b|
    ensures Overwrite(Overwrite(buffer, 0, a), |a|, b)[..|a| + |b|] == a + b
  {
    var r := Overwrite(Overwrite(buffer, 0, a), |a|, b);
    assert Overwrite(buffer, 0, a)[..|a|] == a;
    assert r[..|a|] == a && r[|a|..|a| + |b|] == b;
  }

  lemma Once(v: PipeState, e: Event)
    requires Settled(v)
    ensures Run(v, [e]) == After(v, e)
  {
    assert [e][1..] == [];
  }

  // ---------------------------------------------------------------------------
  // Errors
  // ---------------------------------------------------------------------------

  /** PING, MSG, LOCK, INIT, WINK, CBOR, CANCEL, KEEPALIVE, ERROR, and vendor commands. */
  predicate Listed(command: nat) {
    command in {0x01, 0x03, 0x04, 0x06, 0x08, 0x10, 0x11, 0x3b, 0x3f} || command >= 0x40
  }

  lemma KnownIs(command: Command)
    ensures Known(command) <==> Listed(command)
  {
  }

  /** An ERROR of one byte. */
  function ErrorBytes(channel: Channel, code: byte): seq<byte> {
    Starting(channel, 0xbf, 1, [code])
  }

  lemma ErrorIs(channel: Channel, code: byte)
    ensures ErrorPacket(channel, code) == ErrorBytes(channel, code)
  {
    StartingIs(channel, ERROR, 1, [code]);
  }

  lemma AbortIs(v: PipeState, channel: Channel, code: byte)
    requires Settled(v)
    ensures Abort(v, channel, code).queue == v.queue + [ErrorBytes(channel, code)] && Abort(v, channel, code).state.Idle?
    ensures Abort(v, channel, code).submitted == v.submitted && Abort(v, channel, code).lastChannel == v.lastChannel
  {
    hide InitPacket;
    StartingIs(channel, ERROR, 1, [code]);
    assert Overwrite(v.buffer, 0, [code])[..1] == [code];
  }

  /** The channel of the transaction under way. */
  function Owner(v: PipeState): Channel
    requires v.state.Receiving? || v.state.WaitingOnAuthenticator?
  {
    if v.state.Receiving? then v.state.request.channel else v.state.waiting.channel
  }

  /** How a packet that starts a message is refused, as the first of these applies: an unknown command, with 1, ending the
      transaction; nothing at all while a response is being sent; a start on another channel than that of the transaction
      under way, with 6 on the side; one on the same channel that does not cancel it, with 4, ending it; and a message that is
      too long, with 3 on the side. */
  lemma StartRefused(v: PipeState, channel: Channel, command: Command, length: nat, data: seq<byte>, accepts: bool)
    requires Settled(v) && length < 0x1_0000 && |data| <= 57
    ensures var w := After(v, PushEvent(Starting(channel, 0x80 + command, length, data), accepts));
            var underWay := v.state.Receiving? || v.state.WaitingOnAuthenticator?;
      if !Listed(command) then w.state.Idle? && w.queue == v.queue + [ErrorBytes(channel, 0x01)] && w.submitted == v.submitted
      else if v.state.Sending? then w == v
      else if underWay && command != 0x06 && channel != Owner(v) then w == v.(queue := v.queue + [ErrorBytes(channel, 0x06)])
      else if underWay && command == 0x11 then w == v
      else if underWay && command != 0x06 then
        w.state.Idle? && w.queue == v.queue + [ErrorBytes(channel, 0x04)] && w.submitted == v.submitted
      else length > 3072 ==> w == v.(queue := v.queue + [ErrorBytes(channel, 0x03)])
  {
    hide InitPacket, ErrorPacket, Abort, Starting, Dispatch, Overwrite, ChannelOf, LengthOf, Known, ErrorBytes;
    StartingReads(channel, command, length, data);
    KnownIs(command);
    AbortIs(v, channel, INVALID_COMMAND);
    AbortIs(v, channel, INVALID_SEQ);
    ErrorIs(channel, CHANNEL_BUSY);
    ErrorIs(channel, INVALID_LENGTH);
  }

  /** A continuation with the wrong number ends the transaction, with 4, whatever channel it is on. */
  lemma ContinuationRefused(v: PipeState, p: Packet, accepts: bool)
    requires Settled(v) && v.state.Receiving? && p[4] < 0x80 && p[4] != v.state.received.nextSequence
    ensures var w := After(v, PushEvent(p, accepts));
      w.state.Idle? && w.queue == v.queue + [ErrorBytes(Owner(v), 0x04)] && w.submitted == v.submitted
  {
    hide Abort, ChannelOf, ErrorBytes;
    AbortIs(v, Owner(v), INVALID_SEQ);
  }

  /** How a complete request is refused: anything but an INIT on the broadcast channel, and an INIT on channel 0, with 11; and
      one that the application does not take, with 6. */
  lemma DispatchRefused(v: PipeState, r: Request, accepts: bool)
    requires Settled(v) && r.length <= 3072 && Listed(r.command)
    ensures var w := Dispatch(v, r, accepts);
      if (r.command != 0x06 && r.channel == 0xffff_ffff) || (r.command == 0x06 && r.channel == 0) then
        w.state.Idle? && w.queue == v.queue + [ErrorBytes(r.channel, 0x0b)] && w.submitted == v.submitted
      else if r.command !in {0x01, 0x06, 0x11} then
        if accepts then w.state == WaitingOnAuthenticator(r) && w.submitted == v.submitted + [(r.command, v.buffer[..r.length])]
        else w == v.(queue := v.queue + [ErrorBytes(r.channel, 0x06)])
      else w.submitted == v.submitted
  {
    hide InitPacket, ErrorPacket, Abort, StartSending, Overwrite, ErrorBytes;
    AbortIs(v, r.channel, INVALID_CHANNEL);
    ErrorIs(r.channel, CHANNEL_BUSY);
    Unsubmitted(v);
  }

  lemma Unsubmitted(v: PipeState)
    ensures forall r: Response, w: PipeState | |w.buffer| == 3072 && r.length <= 3072 ::
              StartSending(w, r).submitted == w.submitted
  {
    hide InitPacket;
  }

  /** How the application's errors are passed on: 1 and 3, and 3 for a message that does not fit. */
  lemma AnswerRefused(v: PipeState, response: AppResponse)
    requires Settled(v) && v.state.WaitingOnAuthenticator?
    ensures var w := TakeResponse(v, Some(response));
      match response
      case AppInvalidCommand => w.state.Idle? && w.queue == v.queue + [ErrorBytes(Owner(v), 0x01)]
      case AppInvalidLength => w.state.Idle? && w.queue == v.queue + [ErrorBytes(Owner(v), 0x03)]
      case AppNoResponse => w == v
      case AppMessage(m) => |m| > 3072 ==> w.state.Idle? && w.queue == v.queue + [ErrorBytes(Owner(v), 0x03)]
  {
    hide InitPacket, Abort, StartSending, Overwrite, ErrorBytes;
    AbortIs(v, Owner(v), INVALID_COMMAND);
    AbortIs(v, Owner(v), INVALID_LENGTH);
  }
}
