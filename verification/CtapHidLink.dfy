/** What the pipe does over whole runs: messages survive fragmentation, interleaving and echoing. */
module CtapHidLink {
  import opened Wrappers
  import opened Bytes
  import opened CtapHid

  // ---------------------------------------------------------------------------
  // Messages and their packets
  // ---------------------------------------------------------------------------

  datatype Message = Message(channel: Channel, command: Command, payload: seq<byte>)

  /** The continuation packets of `m` once `sent` bytes of it are out. */
  function Continuations(channel: Channel, m: seq<byte>, s: MessageState): seq<Packet>
    requires InProgress(s, |m|)
    decreases |m| - s.transmitted
  {
    var n := Min(CONT_DATA, |m| - s.transmitted);
    [ContPacket(channel, s.nextSequence, m[s.transmitted..s.transmitted + n])]
    + (if s.transmitted + n == |m| then [] else Continuations(channel, m, AbsorbPacket(s)))
  }

  function Fragments(msg: Message): seq<Packet>
    requires |msg.payload| <= MESSAGE_SIZE
  {
    var m := msg.payload;
    [InitPacket(msg.channel, msg.command, |m|, m[..Min(INIT_DATA, |m|)])]
    + (if |m| <= INIT_DATA then [] else Continuations(msg.channel, m, FIRST))
  }

  /** The last `missing` bytes of a message, from continuation packets numbered from `sequence` on. Padding is ignored. */
  function Gather(ps: seq<Packet>, channel: Channel, missing: nat, sequence: nat): (r: Option<seq<byte>>)
    ensures r.Some? ==> |r.value| == missing
    decreases |ps|
  {
    if ps == [] then None else
    var p := ps[0];
    if IsInit(p) || p[4] != sequence || ChannelOf(p) != channel then None
    else if missing <= CONT_DATA then (if |ps| == 1 then Some(p[5..5 + missing]) else None)
    else
      match Gather(ps[1..], channel, missing - CONT_DATA, sequence + 1)
      case None => None
      case Some(rest) => Some(p[5..] + rest)
  }

  /** The message that a receiver puts together from `ps`, if they are the packets of one message. */
  function Reassemble(ps: seq<Packet>): Option<Message> {
    if ps == [] || !IsInit(ps[0]) then None else
    var p, length := ps[0], LengthOf(ps[0]);
    if length <= INIT_DATA then
      (if |ps| == 1 then Some(Message(ChannelOf(p), p[4] - 0x80, p[7..7 + length])) else None)
    else
      match Gather(ps[1..], ChannelOf(p), length - INIT_DATA, 0)
      case None => None
      case Some(rest) => Some(Message(ChannelOf(p), p[4] - 0x80, p[7..] + rest))
  }

  lemma InitPacketReads(channel: Channel, command: Command, length: nat, data: seq<byte>)
    requires |data| <= INIT_DATA && length < 0x1_0000
    ensures var p := InitPacket(channel, command, length, data);
      && IsInit(p) && p[4] == command + 0x80 && ChannelOf(p) == channel && LengthOf(p) == length && p[7..7 + |data|] == data
  {
    hide BigEndian, FromBigEndian, Limit;
    var p := InitPacket(channel, command, length, data);
    assert p[..4] == BigEndian(channel, 4) && p[5..7] == BigEndian(length, 2);
    assert p[7..7 + |data|] == data;
    Limits();
    BigEndianRoundTrip(channel, 4);
    BigEndianRoundTrip(length, 2);
    Remainder(channel, 0, Limit(4), channel);
    Remainder(length, 0, Limit(2), length);
  }

  lemma ContPacketReads(channel: Channel, sequence: byte, data: seq<byte>)
    requires |data| <= CONT_DATA
    ensures var p := ContPacket(channel, sequence, data);
      && p[4] == sequence && ChannelOf(p) == channel && p[5..5 + |data|] == data
  {
    hide BigEndian, FromBigEndian, Limit;
    var p := ContPacket(channel, sequence, data);
    assert p[..4] == BigEndian(channel, 4);
    assert p[5..5 + |data|] == data;
    Limits();
    BigEndianRoundTrip(channel, 4);
    Remainder(channel, 0, Limit(4), channel);
  }

  lemma {:induction false} ContinuationsGather(channel: Channel, m: seq<byte>, s: MessageState)
    requires InProgress(s, |m|)
    ensures Gather(Continuations(channel, m, s), channel, |m| - s.transmitted, s.nextSequence) == Some(m[s.transmitted..])
    decreases |m| - s.transmitted
  {
    hide ContPacket, ChannelOf, Gather;
    var n := Min(CONT_DATA, |m| - s.transmitted);
    var data := m[s.transmitted..s.transmitted + n];
    var p := ContPacket(channel, s.nextSequence, data);
    ContPacketReads(channel, s.nextSequence, data);
    if s.transmitted + n < |m| {
      ContinuationsGather(channel, m, AbsorbPacket(s));
      assert p[5..] == data;
      GatherStep(p, Continuations(channel, m, AbsorbPacket(s)), channel, |m| - s.transmitted);
      assert data + m[s.transmitted + n..] == m[s.transmitted..];
    } else {
      GatherLast(p, channel, n);
      assert Continuations(channel, m, s) == [p];
      assert data == m[s.transmitted..];
    }
  }

  lemma GatherStep(p: Packet, rest: seq<Packet>, channel: Channel, missing: nat)
    requires !IsInit(p) && ChannelOf(p) == channel && missing > CONT_DATA
    requires Gather(rest, channel, missing - CONT_DATA, p[4] + 1).Some?
    ensures Gather([p] + rest, channel, missing, p[4])
         == Some(p[5..] + Gather(rest, channel, missing - CONT_DATA, p[4] + 1).value)
  {
    hide ChannelOf;
    assert ([p] + rest)[1..] == rest;
  }

  lemma GatherLast(p: Packet, channel: Channel, missing: nat)
    requires !IsInit(p) && ChannelOf(p) == channel && missing <= CONT_DATA
    ensures Gather([p], channel, missing, p[4]) == Some(p[5..5 + missing])
  {
    hide ChannelOf;
  }

  /** Cutting a message into packets loses nothing. */
  lemma FragmentsReassemble(msg: Message)
    requires |msg.payload| <= MESSAGE_SIZE
    ensures Reassemble(Fragments(msg)) == Some(msg)
  {
    hide InitPacket, ChannelOf, LengthOf, Continuations, Gather;
    var m := msg.payload;
    var ps, data := Fragments(msg), m[..Min(INIT_DATA, |m|)];
    InitPacketReads(msg.channel, msg.command, |m|, data);
    if |m| > INIT_DATA {
      ContinuationsGather(msg.channel, m, FIRST);
      assert ps[1..] == Continuations(msg.channel, m, FIRST);
      assert ps[0][7..] == data && data + m[INIT_DATA..] == m;
    } else {
      assert data == m;
    }
  }

  /** The packets of a message: the first starts it, the rest are numbered 0, 1, 2, … and never look like a start. */
  lemma {:induction false} ContinuationsNumbered(channel: Channel, m: seq<byte>, s: MessageState, i: nat)
    requires InProgress(s, |m|) && i < |Continuations(channel, m, s)|
    ensures var p := Continuations(channel, m, s)[i];
            p[4] == s.nextSequence + i <= 51 && !IsInit(p) && ChannelOf(p) == channel
    decreases i
  {
    hide ContPacket, ChannelOf;
    var n := Min(CONT_DATA, |m| - s.transmitted);
    ContPacketReads(channel, s.nextSequence, m[s.transmitted..s.transmitted + n]);
    if i > 0 {
      ContinuationsNumbered(channel, m, AbsorbPacket(s), i - 1);
    }
  }

  // ---------------------------------------------------------------------------
  // Runs
  // ---------------------------------------------------------------------------

  datatype Event = PushEvent(packet: Packet, accepts: bool) | PopEvent(response: Option<AppResponse>)

  /** One event; a panic leaves the pipe as it was. */
  function After(v: PipeState, e: Event): (w: PipeState)
    requires Settled(v)
    ensures Settled(w)
  {
    match e
    case PushEvent(p, accepts) => if Panics(v, p) then v else Receive(v, p, accepts)
    case PopEvent(response) => AfterPop(v, response)
  }

  function Run(v: PipeState, events: seq<Event>): (w: PipeState)
    requires Settled(v)
    ensures Settled(w)
    decreases |events|
  {
    if events == [] then v else Run(After(v, events[0]), events[1..])
  }

  const START: PipeState := PipeState([], Idle, seq(MESSAGE_SIZE, _ => 0), 0, [])

  /** In every reachable state a transfer in progress has moved 57 + 59·n bytes, fewer than the message has, so its
      next sequence number is at most 51 and a packet's worth of buffer lies ahead of it or ends the message. */
  lemma ReachableArithmetic(events: seq<Event>)
    ensures var v := Run(START, events);
      && |v.buffer| == MESSAGE_SIZE && !v.state.WaitingToSend?
      && (v.state.Receiving? ==> var m, n := v.state.received, v.state.request.length;
            m.transmitted == 57 + 59 * m.nextSequence && m.transmitted < n <= MESSAGE_SIZE && m.nextSequence <= 51)
      && (v.state.Sending? ==> var m, n := v.state.sent, v.state.response.length;
            m.transmitted == 57 + 59 * m.nextSequence && m.transmitted < n <= MESSAGE_SIZE && m.nextSequence <= 51)
  {
    hide After;
  }

  // ---------------------------------------------------------------------------
  // Sending
  // ---------------------------------------------------------------------------

  function Remaining(v: PipeState): nat
    requires Settled(v)
  {
    if v.state.Sending? then v.state.response.length - v.state.sent.transmitted else 0
  }

  /** The packets that polling until the pipe has nothing more yields, while the application is silent. */
  function Drain(v: PipeState): seq<Packet>
    requires Settled(v)
    decreases Remaining(v), |v.queue|
  {
    match Popped(v, None)
    case None => []
    case Some(p) => [p] + Drain(AfterPop(v, None))
  }

  lemma {:induction false} DrainIdle(v: PipeState)
    requires Settled(v) && !v.state.Sending?
    ensures Drain(v) == v.queue
    decreases |v.queue|
  {
    if v.queue != [] {
      DrainIdle(v.(queue := v.queue[1..]));
    }
  }

  lemma {:induction false} DrainSending(v: PipeState, m: seq<byte>)
    requires Settled(v) && v.state.Sending? && |m| == v.state.response.length && v.buffer[..|m|] == m
    ensures Drain(v) == v.queue + Continuations(v.state.response.channel, m, v.state.sent)
    decreases |m| - v.state.sent.transmitted
  {
    var r, s := v.state.response, v.state.sent;
    var n := Min(CONT_DATA, |m| - s.transmitted);
    SendingStep(v, m);
    DrainStep(v);
    hide ContPacket, AfterPop, Popped, Drain;
    var u := AfterPop(v, None);
    var p := ContPacket(r.channel, s.nextSequence, m[s.transmitted..s.transmitted + n]);
    var first := Popped(v, None).value;
    if s.transmitted + n < |m| {
      DrainSending(u, m);
      var rest := Continuations(r.channel, m, AbsorbPacket(s));
      Regroup(first, u.queue, v.queue, p, rest);
    } else {
      DrainIdle(u);
    }
  }

  lemma Regroup(first: Packet, tail: seq<Packet>, queue: seq<Packet>, p: Packet, rest: seq<Packet>)
    requires [first] + tail == queue + [p]
    ensures [first] + (tail + rest) == queue + ([p] + rest)
  {
    assert [first] + (tail + rest) == ([first] + tail) + rest;
    assert (queue + [p]) + rest == queue + ([p] + rest);
  }

  lemma DrainStep(v: PipeState)
    requires Settled(v) && Popped(v, None).Some?
    ensures Drain(v) == [Popped(v, None).value] + Drain(AfterPop(v, None))
  {
    hide AfterPop, Popped;
  }

  lemma SendingStep(v: PipeState, m: seq<byte>)
    requires Settled(v) && v.state.Sending? && |m| == v.state.response.length && v.buffer[..|m|] == m
    ensures var r, s := v.state.response, v.state.sent;
            var n := Min(CONT_DATA, |m| - s.transmitted);
            var u := AfterPop(v, None);
      && Popped(v, None).Some?
      && [Popped(v, None).value] + u.queue == v.queue + [ContPacket(r.channel, s.nextSequence, m[s.transmitted..s.transmitted + n])]
      && u.buffer == v.buffer
      && u.state == (if s.transmitted + n == |m| then Idle else Sending(r, AbsorbPacket(s)))
  {
    hide ContPacket;
    var s := v.state.sent;
    var n := Min(CONT_DATA, |m| - s.transmitted);
    assert v.buffer[..|m|][s.transmitted..s.transmitted + n] == v.buffer[s.transmitted..s.transmitted + n];
    var w := WritePacket(v);
    assert [w.queue[0]] + w.queue[1..] == w.queue;
  }

  /** A response goes out as the packets of its message, after what was queued before. */
  lemma SendsFragments(v: PipeState, r: Response, m: seq<byte>)
    requires |v.buffer| == MESSAGE_SIZE && |m| == r.length <= MESSAGE_SIZE && v.buffer[..|m|] == m
    ensures Drain(StartSending(v, r)) == v.queue + Fragments(Message(r.channel, r.command, m))
  {
    hide InitPacket, Continuations;
    var w := StartSending(v, r);
    var n := Min(INIT_DATA, |m|);
    assert v.buffer[..n] == m[..n];
    var p := InitPacket(r.channel, r.command, |m|, m[..n]);
    if |m| <= INIT_DATA {
      DrainIdle(w);
    } else {
      DrainSending(w, m);
      assert v.queue + [p] + Continuations(r.channel, m, FIRST) == v.queue + ([p] + Continuations(r.channel, m, FIRST));
    }
  }

  /** The application's answer reaches the channel and command that asked. */
  lemma AnswerDelivered(v: PipeState, m: seq<byte>)
    requires Settled(v) && v.state.WaitingOnAuthenticator? && |m| <= MESSAGE_SIZE
    ensures Drain(TakeResponse(v, Some(AppMessage(m))))
         == v.queue + Fragments(Message(v.state.waiting.channel, v.state.waiting.command, m))
  {
    hide StartSending, Drain, Fragments;
    var r := v.state.waiting;
    var w := v.(buffer := Overwrite(v.buffer, 0, m));
    assert w.buffer[..|m|] == m;
    SendsFragments(w, Response(r.channel, r.command, |m|), m);
  }

  // ---------------------------------------------------------------------------
  // Receiving, with other channels interrupting
  // ---------------------------------------------------------------------------

  /** An event that must not disturb a request being received on `channel`: a poll, or the start of a message, other
      than an INIT, on another channel. */
  predicate Foreign(e: Event, channel: Channel) {
    match e
    case PopEvent(_) => true
    case PushEvent(p, _) =>
      IsInit(p) && Known(p[4] - 0x80) && p[4] - 0x80 != INIT && ChannelOf(p) != channel
  }

  /** `events` are the packets `ps` in order, with foreign events anywhere before the last of them. */
  predicate Interleaved(events: seq<Event>, ps: seq<Packet>, channel: Channel)
    decreases |events|
  {
    if ps == [] then events == []
    else
      && events != []
      && (if events[0].PushEvent? && events[0].packet == ps[0] then Interleaved(events[1..], ps[1..], channel)
          else Foreign(events[0], channel) && Interleaved(events[1..], ps, channel))
  }

  /** What foreign events do to the queue: a poll takes its oldest packet, an interruption adds one error packet. */
  function QueueAfter(queue: seq<Packet>, events: seq<Event>, channel: Channel): seq<Packet>
    decreases |events|
  {
    if events == [] then queue else
    var next :=
      match events[0]
      case PopEvent(_) => (if queue == [] then [] else queue[1..])
      case PushEvent(p, _) => (if ChannelOf(p) == channel then queue else queue + [ErrorPacket(ChannelOf(p), CHANNEL_BUSY)]);
    QueueAfter(next, events[1..], channel)
  }

  /** A foreign event changes the queue, and neither the transaction nor the buffer. */
  lemma ForeignStep(v: PipeState, e: Event)
    requires Settled(v) && v.state.Receiving? && Foreign(e, v.state.request.channel)
    ensures After(v, e) == v.(queue := QueueAfter(v.queue, [e], v.state.request.channel))
  {
    hide Known, ErrorPacket, ChannelOf, LengthOf;
    assert [e][1..] == [];
    assert QueueAfter(v.queue, [], v.state.request.channel) == v.queue;
  }

  lemma OwnStep(v: PipeState, p: Packet, accepts: bool, m: seq<byte>)
    requires Settled(v) && v.state.Receiving? && |m| == v.state.request.length
    requires var s := v.state.received; v.buffer[..s.transmitted] == m[..s.transmitted]
    requires !IsInit(p) && p[4] == v.state.received.nextSequence && ChannelOf(p) == v.state.request.channel
    requires var s := v.state.received; var n := Min(CONT_DATA, |m| - s.transmitted);
             p[5..5 + n] == m[s.transmitted..s.transmitted + n]
    ensures var s := v.state.received;
            var w := After(v, PushEvent(p, accepts));
      && (s.transmitted + CONT_DATA < |m| ==>
            && w.state == Receiving(v.state.request, AbsorbPacket(s))
            && w.buffer[..s.transmitted + CONT_DATA] == m[..s.transmitted + CONT_DATA]
            && w == v.(state := w.state, buffer := w.buffer)
            && Overwrite(w.buffer, 0, m) == Overwrite(v.buffer, 0, m))
      && (s.transmitted + CONT_DATA >= |m| ==>
            w == Dispatch(v.(buffer := Overwrite(v.buffer, 0, m)), v.state.request, accepts))
  {
    hide Dispatch, ChannelOf;
    var s := v.state.received;
    var n := Min(CONT_DATA, |m| - s.transmitted);
    var data, t := p[5..5 + n], s.transmitted;
    var b := Overwrite(v.buffer, t, data);
    assert b[..t] == v.buffer[..t] && b[t..t + n] == data;
    assert b[..t + n] == b[..t] + b[t..t + n];
    assert m[..t + n] == m[..t] + m[t..t + n];
    if t + CONT_DATA >= |m| {
      assert m[..t + n] == m;
      assert b == Overwrite(v.buffer, 0, m);
    } else {
      assert p[5..] == data;
      assert b[|m|..] == v.buffer[|m|..];
    }
  }

  /** What the first of the packets that `rest` is gathered from holds of it. */
  lemma GatherReads(ps: seq<Packet>, channel: Channel, missing: nat, sequence: nat, rest: seq<byte>)
    requires ps != [] && Gather(ps, channel, missing, sequence) == Some(rest)
    ensures !IsInit(ps[0]) && ps[0][4] == sequence && ChannelOf(ps[0]) == channel && |rest| == missing
    ensures var n := Min(CONT_DATA, missing); ps[0][5..5 + n] == rest[..n]
    ensures missing > CONT_DATA ==> ps[1..] != [] && Gather(ps[1..], channel, missing - CONT_DATA, sequence + 1) == Some(rest[CONT_DATA..])
    ensures missing <= CONT_DATA ==> ps[1..] == []
  {
    hide ChannelOf;
  }

  /** Transaction isolation: however foreign events are mixed in, the request that its own packets carry reaches
      dispatch whole, with the queue as the foreign events left it. */
  lemma {:induction false} Isolated(v: PipeState, events: seq<Event>, ps: seq<Packet>, m: seq<byte>)
    requires Settled(v) && v.state.Receiving? && |m| == v.state.request.length && ps != []
    requires var s := v.state.received; v.buffer[..s.transmitted] == m[..s.transmitted]
    requires var s := v.state.received;
             Gather(ps, v.state.request.channel, |m| - s.transmitted, s.nextSequence) == Some(m[s.transmitted..])
    requires Interleaved(events, ps, v.state.request.channel)
    ensures Run(v, events) == Completed(v, events, m)
    decreases |events|
  {
    hide Dispatch, ChannelOf, After, Overwrite, Foreign, ContPacket, ErrorPacket, Gather, IsInit;
    var e, channel, s := events[0], v.state.request.channel, v.state.received;
    if e.PushEvent? && e.packet == ps[0] {
      var rest, n := m[s.transmitted..], Min(CONT_DATA, |m| - s.transmitted);
      GatherReads(ps, channel, |m| - s.transmitted, s.nextSequence, rest);
      assert rest[..n] == m[s.transmitted..s.transmitted + n];
      OwnStep(v, ps[0], e.accepts, m);
      if s.transmitted + CONT_DATA < |m| {
        var w := After(v, e);
        var t := w.state.received;
        assert |m| - s.transmitted - CONT_DATA == |m| - t.transmitted && s.nextSequence + 1 == t.nextSequence;
        assert rest[CONT_DATA..] == m[t.transmitted..];
        Isolated(w, events[1..], ps[1..], m);
      } else {
        NothingLeft(events[1..], ps[1..], channel);
        assert Run(v, events) == After(v, e);
        assert QueueAfter(v.queue, events, channel) == v.queue;
      }
    } else {
      ForeignStep(v, e);
      Isolated(After(v, e), events[1..], ps, m);
      OneFirst(v.queue, events, channel);
    }
  }

  lemma OneFirst(queue: seq<Packet>, events: seq<Event>, channel: Channel)
    requires events != []
    ensures QueueAfter(queue, events, channel) == QueueAfter(QueueAfter(queue, [events[0]], channel), events[1..], channel)
  {
    hide ErrorPacket, ChannelOf;
    assert [events[0]][1..] == [];
  }

  /** The progress that the last packet of a message of `length` bytes finds. */
  function LastProgress(s: MessageState, length: nat): (t: MessageState)
    requires InProgress(s, length)
    ensures InProgress(t, length) && t.transmitted + CONT_DATA >= length
    decreases length - s.transmitted
  {
    if s.transmitted + CONT_DATA < length then LastProgress(AbsorbPacket(s), length) else s
  }

  function LastAccepts(events: seq<Event>): bool {
    events != [] && events[|events| - 1].PushEvent? && events[|events| - 1].accepts
  }

  /** The pipe after the last packet: the whole message in the buffer, dispatched. */
  function Completed(v: PipeState, events: seq<Event>, m: seq<byte>): PipeState
    requires Settled(v) && v.state.Receiving? && |m| == v.state.request.length
  {
    var r := v.state.request;
    Dispatch(v.(queue := QueueAfter(v.queue, events, r.channel), buffer := Overwrite(v.buffer, 0, m),
                state := Receiving(r, LastProgress(v.state.received, |m|))),
             r, LastAccepts(events))
  }

  /** A whole request, its first packet found the pipe idle, the rest of its packets mixed with foreign events. */
  lemma WholeRequest(v: PipeState, events: seq<Event>, ps: seq<Packet>, msg: Message)
    requires Settled(v) && v.state.Idle? && |msg.payload| <= MESSAGE_SIZE && Known(msg.command)
    requires Reassemble(ps) == Some(msg)
    requires events != [] && events[0].PushEvent? && events[0].packet == ps[0] && Interleaved(events[1..], ps[1..], msg.channel)
    ensures var m := msg.payload;
            var r := Request(msg.channel, msg.command, |m|);
            var queue := QueueAfter(v.queue, events[1..], msg.channel);
            Run(v, events)
            == Dispatch(v.(queue := queue, buffer := Overwrite(v.buffer, 0, m),
                           state := if |m| <= INIT_DATA then Idle else Receiving(r, LastProgress(FIRST, |m|))),
                        r, LastAccepts(events))
  {
    hide Dispatch, ChannelOf, LengthOf, Gather, Known, Interleaved, Abort, ErrorNow;
    var p, m := ps[0], msg.payload;
    var w := After(v, events[0]);
    if |m| <= INIT_DATA {
      NothingLeft(events[1..], ps[1..], msg.channel);
      assert Run(v, events) == w;
    } else {
      assert p[7..] + m[INIT_DATA..] == m;
      assert w.buffer[..INIT_DATA] == p[7..] && p[7..] == m[..INIT_DATA];
      GatherNeedsPackets(ps[1..], msg.channel, |m| - INIT_DATA, 0);
      Isolated(w, events[1..], ps[1..], m);
      NeedsEvents(events[1..], ps[1..], msg.channel);
      assert events[1..][|events| - 2] == events[|events| - 1];
      assert Overwrite(w.buffer, 0, m) == Overwrite(v.buffer, 0, m);
    }
  }

  lemma NothingLeft(events: seq<Event>, ps: seq<Packet>, channel: Channel)
    requires ps == [] && Interleaved(events, ps, channel)
    ensures events == []
  {
  }

  lemma NeedsEvents(events: seq<Event>, ps: seq<Packet>, channel: Channel)
    requires ps != [] && Interleaved(events, ps, channel)
    ensures events != []
  {
  }

  lemma GatherNeedsPackets(ps: seq<Packet>, channel: Channel, missing: nat, sequence: nat)
    requires Gather(ps, channel, missing, sequence).Some?
    ensures ps != []
  {
  }

  /** An application command, however it was fragmented, padded and interrupted, reaches the application whole. */
  lemma RequestDelivered(v: PipeState, events: seq<Event>, ps: seq<Packet>, msg: Message)
    requires Settled(v) && v.state.Idle? && |msg.payload| <= MESSAGE_SIZE
    requires ForApplication(msg.command) && msg.channel != 0xffff_ffff
    requires Reassemble(ps) == Some(msg)
    requires events != [] && events[0].PushEvent? && events[0].packet == ps[0] && Interleaved(events[1..], ps[1..], msg.channel)
    requires LastAccepts(events)
    ensures var w := Run(v, events);
      && w.submitted == v.submitted + [(msg.command, msg.payload)]
      && w.state == WaitingOnAuthenticator(Request(msg.channel, msg.command, |msg.payload|))
      && w.queue == QueueAfter(v.queue, events[1..], msg.channel)
  {
    hide Reassemble, Interleaved, Run, QueueAfter, Known;
    WholeRequest(v, events, ps, msg);
    var m := msg.payload;
    assert Overwrite(v.buffer, 0, m)[..|m|] == m;
  }

  /** Echo: a PING, however it was fragmented, padded and interrupted, comes back as its own packets, in order, after
      what the interruptions left in the queue. */
  lemma Echo(v: PipeState, events: seq<Event>, ps: seq<Packet>, msg: Message)
    requires Settled(v) && v.state.Idle? && |msg.payload| <= MESSAGE_SIZE
    requires msg.command == 0x01 && msg.channel != 0xffff_ffff
    requires Reassemble(ps) == Some(msg)
    requires events != [] && events[0].PushEvent? && events[0].packet == ps[0] && Interleaved(events[1..], ps[1..], msg.channel)
    ensures Drain(Run(v, events)) == QueueAfter(v.queue, events[1..], msg.channel) + Fragments(msg)
    ensures Reassemble(Fragments(msg)) == Some(msg)
  {
    hide Reassemble, Interleaved, Run, QueueAfter, Drain, StartSending, Fragments;
    WholeRequest(v, events, ps, msg);
    FragmentsReassemble(msg);
    var m, r := msg.payload, Request(msg.channel, PING, |msg.payload|);
    var b := Overwrite(v.buffer, 0, m);
    assert b[..|m|] == m;
    var state := if |m| <= INIT_DATA then Idle else Receiving(r, LastProgress(FIRST, |m|));
    SendsFragments(v.(queue := QueueAfter(v.queue, events[1..], msg.channel), buffer := b, state := state),
                   Response(r.channel, PING, |m|), m);
  }

  /** A complete request that gets no answer but, at most, an error on the side. */
  predicate Unanswered(r: Request, accepts: bool) {
    || (r.command == INIT && r.channel != 0 && r.length != 8)
    || (r.command == CANCEL && r.channel != BROADCAST)
    || (ForApplication(r.command) && r.channel != BROADCAST && !accepts)
  }

  lemma DispatchFrees(v: PipeState, r: Request, accepts: bool)
    requires Settled(v) && r.length <= MESSAGE_SIZE && Known(r.command) && (v.state.Idle? || v.state.Receiving?)
    ensures var w := Dispatch(v, r, accepts);
      && (w.state.Receiving? <==> v.state.Receiving? && Unanswered(r, accepts))
      && (w.state.Receiving? ==> w.state == v.state && w.buffer == v.buffer && w.submitted == v.submitted)
  {
    hide Overwrite, InitPacket, ErrorPacket;
  }

  /** Once complete, a request leaves the pipe still receiving exactly if it took more than one packet and goes unanswered: the
      pipe then waits for the request's last packet. */
  lemma StillReceivingIff(v: PipeState, events: seq<Event>, ps: seq<Packet>, msg: Message)
    requires Settled(v) && v.state.Idle? && |msg.payload| <= MESSAGE_SIZE && Known(msg.command)
    requires Reassemble(ps) == Some(msg)
    requires events != [] && events[0].PushEvent? && events[0].packet == ps[0] && Interleaved(events[1..], ps[1..], msg.channel)
    ensures var m, w := msg.payload, Run(v, events);
            var r := Request(msg.channel, msg.command, |m|);
      && (w.state.Receiving? <==> |m| > INIT_DATA && Unanswered(r, LastAccepts(events)))
      && (w.state.Receiving? ==>
            && w.state == Receiving(r, LastProgress(FIRST, |m|))
            && w.buffer == Overwrite(v.buffer, 0, m) && w.submitted == v.submitted)
  {
    hide Reassemble, Interleaved, Run, QueueAfter, Known, Overwrite, Dispatch, Unanswered;
    WholeRequest(v, events, ps, msg);
    var m := msg.payload;
    var r := Request(msg.channel, msg.command, |m|);
    DispatchFrees(v.(queue := QueueAfter(v.queue, events[1..], msg.channel), buffer := Overwrite(v.buffer, 0, m),
                     state := if |m| <= INIT_DATA then Idle else Receiving(r, LastProgress(FIRST, |m|))),
                  r, LastAccepts(events));
  }

  /** The last of the packets that `m` is gathered from. */
  lemma {:induction false} LastGathers(ps: seq<Packet>, channel: Channel, m: seq<byte>, s: MessageState)
    requires InProgress(s, |m|) && ps != []
    requires Gather(ps, channel, |m| - s.transmitted, s.nextSequence) == Some(m[s.transmitted..])
    ensures var t := LastProgress(s, |m|);
            Gather([ps[|ps| - 1]], channel, |m| - t.transmitted, t.nextSequence) == Some(m[t.transmitted..])
    decreases |ps|
  {
    hide ChannelOf, IsInit;
    if |m| - s.transmitted <= CONT_DATA {
      assert ps == [ps[|ps| - 1]];
    } else {
      GatherReads(ps, channel, |m| - s.transmitted, s.nextSequence, m[s.transmitted..]);
      assert m[s.transmitted..][CONT_DATA..] == m[s.transmitted + CONT_DATA..];
      LastGathers(ps[1..], channel, m, AbsorbPacket(s));
    }
  }

  /** A long request that the application refused is not lost: its last packet alone, sent again when the application takes
      requests, delivers it whole, however the rest of the time is filled with foreign events. */
  lemma LastPacketAgain(v: PipeState, events: seq<Event>, ps: seq<Packet>, msg: Message, again: seq<Event>)
    requires Settled(v) && v.state.Idle? && INIT_DATA < |msg.payload| <= MESSAGE_SIZE
    requires ForApplication(msg.command) && msg.channel != BROADCAST
    requires Reassemble(ps) == Some(msg)
    requires events != [] && events[0].PushEvent? && events[0].packet == ps[0] && Interleaved(events[1..], ps[1..], msg.channel)
    requires !LastAccepts(events) && Interleaved(again, [ps[|ps| - 1]], msg.channel) && LastAccepts(again)
    ensures var w := Run(Run(v, events), again);
      && w.submitted == v.submitted + [(msg.command, msg.payload)]
      && w.state == WaitingOnAuthenticator(Request(msg.channel, msg.command, |msg.payload|))
  {
    hide Reassemble, Interleaved, Run, QueueAfter, Known, Gather, ChannelOf;
    StillReceivingIff(v, events, ps, msg);
    var m, w := msg.payload, Run(v, events);
    TailGathers(ps, msg);
    LastGathers(ps[1..], msg.channel, m, FIRST);
    assert ps[1..][|ps| - 2] == ps[|ps| - 1];
    var t := w.state.received;
    assert Overwrite(v.buffer, 0, m)[..t.transmitted] == m[..t.transmitted];
    Isolated(w, again, [ps[|ps| - 1]], m);
    Submits(w, again, m);
  }

  lemma TailGathers(ps: seq<Packet>, msg: Message)
    requires Reassemble(ps) == Some(msg) && |msg.payload| > INIT_DATA
    ensures |ps| >= 2 && Gather(ps[1..], msg.channel, |msg.payload| - INIT_DATA, 0) == Some(msg.payload[INIT_DATA..])
  {
    hide ChannelOf, LengthOf;
    GatherNeedsPackets(ps[1..], msg.channel, |msg.payload| - INIT_DATA, 0);
  }

  /** The transaction and the bytes received so far are as they were. */
  predicate Spared(v: PipeState, w: PipeState)
    requires Settled(v) && v.state.Receiving? && Settled(w)
  {
    w.state == v.state && w.buffer[..v.state.received.transmitted] == v.buffer[..v.state.received.transmitted]
  }

  /** Which packets of other channels spare the transaction: a continuation packet only if it happens to carry the sequence
      number that the owner's next packet will carry, because the number is checked before the channel; a start of a message
      only if its command is known; and an INIT only if it is too long to be taken, or short, of no effect, and its payload
      is what the buffer begins with anyway. */
  lemma OthersThatSpare(v: PipeState, p: Packet, accepts: bool)
    requires Settled(v) && v.state.Receiving? && ChannelOf(p) != v.state.request.channel
    ensures !IsInit(p) ==>
              (Spared(v, Receive(v, p, accepts)) <==> p[4] == v.state.received.nextSequence)
    ensures IsInit(p) && p[4] - 0x80 != INIT ==>
              (Spared(v, Receive(v, p, accepts)) <==> Known(p[4] - 0x80))
    ensures IsInit(p) && p[4] - 0x80 == INIT ==>
              var n := LengthOf(p);
              (Spared(v, Receive(v, p, accepts)) <==>
                 || n > MESSAGE_SIZE
                 || (n <= INIT_DATA && n != 8 && ChannelOf(p) != 0 && p[7..7 + n] == v.buffer[..n]))
  {
    hide ChannelOf, LengthOf, InitPacket;
    if IsInit(p) && p[4] - 0x80 == INIT && LengthOf(p) <= INIT_DATA {
      Front(v.buffer, p[7..7 + LengthOf(p)], v.state.received.transmitted);
    }
  }

  lemma Front(buffer: seq<byte>, data: seq<byte>, n: nat)
    requires |data| <= n <= |buffer|
    ensures Overwrite(buffer, 0, data)[..n] == buffer[..n] <==> data == buffer[..|data|]
  {
    var b := Overwrite(buffer, 0, data);
    assert b[..n] == data + buffer[|data|..n] && buffer[..n] == buffer[..|data|] + buffer[|data|..n];
    assert (data + buffer[|data|..n])[..|data|] == data;
    assert (buffer[..|data|] + buffer[|data|..n])[..|data|] == buffer[..|data|];
  }

  /** Isolation fails against a short INIT of another channel: the owner's request goes on as if nothing had happened, and
      reaches dispatch with that INIT's payload in place of its own first bytes. */
  lemma InitReplaces(v: PipeState, p: Packet, accepts: bool, events: seq<Event>, ps: seq<Packet>, m: seq<byte>)
    requires Settled(v) && v.state.Receiving? && |m| == v.state.request.length && ps != []
    requires var s := v.state.received;
      && v.buffer[..s.transmitted] == m[..s.transmitted]
      && Gather(ps, v.state.request.channel, |m| - s.transmitted, s.nextSequence) == Some(m[s.transmitted..])
    requires Interleaved(events, ps, v.state.request.channel)
    requires IsInit(p) && p[4] - 0x80 == INIT && ChannelOf(p) != v.state.request.channel && ChannelOf(p) != 0
    requires LengthOf(p) <= INIT_DATA && LengthOf(p) != 8
    ensures var n := LengthOf(p);
            var w := v.(buffer := Overwrite(v.buffer, 0, p[7..7 + n]));
            Run(v, [PushEvent(p, accepts)] + events) == Completed(w, events, p[7..7 + n] + m[n..])
  {
    hide ChannelOf, LengthOf, Gather, Interleaved, Completed, Known, Abort, ErrorNow;
    var n, s, all := LengthOf(p), v.state.received, [PushEvent(p, accepts)] + events;
    var w := v.(buffer := Overwrite(v.buffer, 0, p[7..7 + n]));
    var corrupted := p[7..7 + n] + m[n..];
    InitStep(v, p, accepts);
    assert all[1..] == events;
    assert corrupted[s.transmitted..] == m[s.transmitted..];
    assert w.buffer[..s.transmitted] == p[7..7 + n] + v.buffer[..s.transmitted][n..];
    assert corrupted[..s.transmitted] == p[7..7 + n] + m[..s.transmitted][n..];
    Isolated(w, events, ps, corrupted);
  }

  lemma InitStep(v: PipeState, p: Packet, accepts: bool)
    requires Settled(v) && v.state.Receiving?
    requires IsInit(p) && p[4] - 0x80 == INIT && ChannelOf(p) != 0 && LengthOf(p) <= INIT_DATA && LengthOf(p) != 8
    ensures After(v, PushEvent(p, accepts)) == v.(buffer := Overwrite(v.buffer, 0, p[7..7 + LengthOf(p)]))
  {
    hide ChannelOf, LengthOf, Overwrite;
  }

  lemma Submits(v: PipeState, events: seq<Event>, m: seq<byte>)
    requires Settled(v) && v.state.Receiving? && |m| == v.state.request.length && LastAccepts(events)
    requires ForApplication(v.state.request.command) && v.state.request.channel != BROADCAST
    ensures Completed(v, events, m).submitted == v.submitted + [(v.state.request.command, m)]
  {
    hide Known, QueueAfter, Abort;
    assert Overwrite(v.buffer, 0, m)[..|m|] == m;
  }

  lemma LongStart(v: PipeState, p: Packet, accepts: bool)
    requires Settled(v) && v.state.Idle? && IsInit(p) && Known(p[4] - 0x80) && INIT_DATA < LengthOf(p) <= MESSAGE_SIZE
    ensures After(v, PushEvent(p, accepts))
         == v.(buffer := Overwrite(v.buffer, 0, p[7..]), state := Receiving(Request(ChannelOf(p), p[4] - 0x80, LengthOf(p)), FIRST))
  {
    hide ChannelOf, LengthOf, Overwrite;
  }

  /** For instance: of 58 zero bytes sent on channel 1, interrupted by an INIT of one byte on channel 2, the application is
      given 58 bytes of which the first is not zero. */
  lemma InitCorrupts()
    ensures var m := seq(58, _ => 0);
            var mine := Fragments(Message(1, CBOR, m));
            var theirs := InitPacket(2, INIT, 1, [1]);
            && |mine| == 2
            && Run(START, [PushEvent(mine[0], true), PushEvent(theirs, true), PushEvent(mine[1], true)]).submitted
               == [(CBOR, [1] + m[1..])]
  {
    hide InitPacket, ContPacket, ChannelOf, LengthOf, After, Gather, Completed, Overwrite;
    var m: seq<byte> := seq(58, _ => 0);
    var mine, theirs := Fragments(Message(1, CBOR, m)), InitPacket(2, INIT, 1, [1]);
    var first, last := mine[0], PushEvent(mine[1], true);
    InitPacketReads(1, CBOR, 58, m[..INIT_DATA]);
    InitPacketReads(2, INIT, 1, [1]);
    ContinuationsGather(1, m, FIRST);
    assert mine[1..] == Continuations(1, m, FIRST) == [mine[1]];
    assert first[7..] == first[7..7 + INIT_DATA] == m[..INIT_DATA];
    LongStart(START, first, true);
    var v := After(START, PushEvent(first, true));
    OverwrittenFront(START.buffer, m[..INIT_DATA]);
    assert |m| - FIRST.transmitted == 1;
    assert [last][1..] == [] && [mine[1]][1..] == [];
    assert [last][0].packet == [mine[1]][0] && Interleaved([], [], 1);
    InitReplaces(v, theirs, true, [last], [mine[1]], m);
    var w := v.(buffer := Overwrite(v.buffer, 0, theirs[7..8]));
    Submits(w, [last], theirs[7..8] + m[1..]);
    var events := [PushEvent(first, true), PushEvent(theirs, true), last];
    assert events[1..] == [PushEvent(theirs, true)] + [last];
  }

  lemma OverwrittenFront(buffer: seq<byte>, data: seq<byte>)
    requires |data| <= |buffer|
    ensures Overwrite(buffer, 0, data)[..|data|] == data
  {
  }
}
