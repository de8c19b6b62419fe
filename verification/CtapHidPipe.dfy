/** The pipe as the object the test device drives: packets are copied through its buffer in place. */
module CtapHidPipe {
  import opened Wrappers
  import opened Bytes
  import opened CtapHid

  /** Copy `data` into `buffer` from `at` on. */
  method CopyInto(buffer: array<byte>, at: nat, data: seq<byte>)
    requires at + |data| <= buffer.Length
    modifies buffer
    ensures buffer[..] == Overwrite(old(buffer[..]), at, data)
  {
    forall i | 0 <= i < |data| {
      buffer[at + i] := data[i];
    }
    assert buffer[at..at + |data|] == data;
  }

  class Pipe {
    var queue: seq<Packet>
    var state: State
    const buffer: array<byte>
    var lastChannel: Channel
    var submitted: seq<(Command, seq<byte>)>

    ghost function View(): PipeState
      reads this, buffer
    {
      PipeState(queue, state, buffer[..], lastChannel, submitted)
    }

    constructor ()
      ensures Settled(View()) && fresh(buffer)
      ensures View() == PipeState([], Idle, seq(MESSAGE_SIZE, _ => 0), 0, [])
    {
      queue, state, lastChannel, submitted := [], Idle, 0, [];
      buffer := new byte[MESSAGE_SIZE](_ => 0);
      new;
      assert buffer[..] == seq(MESSAGE_SIZE, _ => 0);
    }

    /** A report: one report-id byte, then a packet. Anything else panics, as does an unexpected continuation. */
    method Push(report: seq<byte>, accepts: bool) returns (panicked: bool)
      requires Settled(View())
      modifies this, buffer
      ensures Settled(View())
      ensures panicked <==> |report| != 1 + PACKET_SIZE || Panics(old(View()), report[1..])
      ensures View() == if panicked then old(View()) else Receive(old(View()), report[1..], accepts)
    {
      if |report| != 1 + PACKET_SIZE { return true; }
      panicked := ReadAndHandlePacket(report[1..], accepts);
    }

    method Pop(response: Option<AppResponse>) returns (packet: Option<Packet>)
      requires Settled(View())
      modifies this, buffer
      ensures Settled(View())
      ensures View() == AfterPop(old(View()), response) && packet == Popped(old(View()), response)
    {
      HandleResponse(response);
      MaybeWritePacket();
      if queue == [] { return None; }
      packet := Some(queue[0]);
      queue := queue[1..];
    }

    method ReadAndHandlePacket(p: Packet, accepts: bool) returns (panicked: bool)
      requires Settled(View())
      modifies this, buffer
      ensures Settled(View())
      ensures panicked <==> Panics(old(View()), p)
      ensures View() == if panicked then old(View()) else Receive(old(View()), p, accepts)
    {
      hide Dispatch, Abort, Overwrite, ErrorPacket, LengthOf, ChannelOf, Known;
      panicked := false;
      var channel := ChannelOf(p);
      if IsInit(p) {
        var command: Command := p[4] - 0x80;
        if !Known(command) {
          StartSendingErrorOnChannel(channel, INVALID_COMMAND);
          return;
        }
        var length := LengthOf(p);
        var current := Request(channel, command, length);
        if !state.Idle? {
          var request;
          match state {
            case WaitingOnAuthenticator(r) => request := r;
            case Receiving(r, _) => request := r;
            case _ => return;
          }
          if command != INIT {
            if channel == request.channel {
              if command != CANCEL {
                StartSendingErrorOnChannel(request.channel, INVALID_SEQ);
              }
            } else {
              SendErrorNow(current, CHANNEL_BUSY);
            }
            return;
          }
        }
        if length > MESSAGE_SIZE {
          SendErrorNow(current, INVALID_LENGTH);
          return;
        }
        if length > INIT_DATA {
          CopyInto(buffer, 0, p[7..]);
          state := Receiving(current, FIRST);
        } else {
          CopyInto(buffer, 0, p[7..7 + length]);
          DispatchRequest(current, accepts);
        }
      } else {
        match state {
          case Receiving(request, progress) =>
            if p[4] != progress.nextSequence {
              StartSendingErrorOnChannel(request.channel, INVALID_SEQ);
              return;
            }
            if channel != request.channel { return; }
            if progress.transmitted + CONT_DATA < request.length {
              CopyInto(buffer, progress.transmitted, p[5..]);
              state := Receiving(request, AbsorbPacket(progress));
            } else {
              var missing := request.length - progress.transmitted;
              CopyInto(buffer, progress.transmitted, p[5..5 + missing]);
              DispatchRequest(request, accepts);
            }
          case _ => panicked := true;
        }
      }
    }

    method Respond(response: Response)
      requires buffer.Length == MESSAGE_SIZE && response.length <= MESSAGE_SIZE
      modifies this
      ensures View() == StartSending(old(View()), response)
    {
      state := WaitingToSend(response);
      MaybeWritePacket();
    }

    method StartSendingErrorOnChannel(channel: Channel, error: byte)
      requires buffer.Length == MESSAGE_SIZE
      modifies this, buffer
      ensures View() == Abort(old(View()), channel, error)
    {
      CopyInto(buffer, 0, [error]);
      Respond(Response(channel, ERROR, 1));
    }

    /** Sends an error through the buffer's first byte and the sending state, and puts both back. */
    method SendErrorNow(request: Request, error: byte)
      requires Settled(View())
      modifies this, buffer
      ensures View() == ErrorNow(old(View()), request.channel, error)
    {
      var lastState, lastFirstByte := state, buffer[0];
      ghost var before := buffer[..];
      state := Idle;
      CopyInto(buffer, 0, [error]);
      assert buffer[..1] == [error];
      Respond(Response(request.channel, ERROR, 1));
      MaybeWritePacket();
      state := lastState;
      CopyInto(buffer, 0, [lastFirstByte]);
      assert buffer[..] == before;
    }

    method MaybeWritePacket()
      requires Inv(View())
      modifies this
      ensures View() == WritePacket(old(View()))
    {
      match state {
        case WaitingToSend(r) =>
          var fits := 7 + r.length <= PACKET_SIZE;
          var payload := if fits then buffer[..r.length] else buffer[..INIT_DATA];
          assert payload == buffer[..][..Min(INIT_DATA, r.length)];
          queue := queue + [InitPacket(r.channel, r.command, r.length, payload)];
          state := if fits then Idle else Sending(r, FIRST);
        case Sending(r, progress) =>
          var remaining := r.length - progress.transmitted;
          var last := 5 + remaining <= PACKET_SIZE;
          var n := if last then remaining else CONT_DATA;
          var payload := buffer[progress.transmitted..progress.transmitted + n];
          assert payload == buffer[..][progress.transmitted..progress.transmitted + n];
          queue := queue + [ContPacket(r.channel, progress.nextSequence, payload)];
          state := if last then Idle else Sending(r, AbsorbPacket(progress));
        case _ =>
      }
    }

    method DispatchRequest(request: Request, accepts: bool)
      requires Settled(View()) && request.length <= MESSAGE_SIZE
      modifies this, buffer
      ensures View() == Dispatch(old(View()), request, accepts)
    {
      if request.command != INIT && request.channel == BROADCAST {
        StartSendingErrorOnChannel(request.channel, INVALID_CHANNEL);
        return;
      }
      if request.command == INIT {
        if request.channel == 0 {
          StartSendingErrorOnChannel(0, INVALID_CHANNEL);
        } else if request.length == 8 {
          lastChannel := (lastChannel + 1) % 0x1_0000_0000;
          CopyInto(buffer, 8, InitReply(lastChannel));
          Respond(Response(request.channel, INIT, 17));
        }
      } else if request.command == PING {
        Respond(Response(request.channel, PING, request.length));
      } else if request.command == CANCEL {
      } else if accepts {
        assert buffer[..request.length] == buffer[..][..request.length];
        submitted := submitted + [(request.command, buffer[..request.length])];
        state := WaitingOnAuthenticator(request);
      } else {
        SendErrorNow(request, CHANNEL_BUSY);
      }
    }

    method HandleResponse(response: Option<AppResponse>)
      requires Settled(View())
      modifies this, buffer
      ensures View() == TakeResponse(old(View()), response)
    {
      if state.WaitingOnAuthenticator? && response.Some? {
        var request := state.waiting;
        match response.value {
          case AppInvalidCommand => StartSendingErrorOnChannel(request.channel, INVALID_COMMAND);
          case AppInvalidLength => StartSendingErrorOnChannel(request.channel, INVALID_LENGTH);
          case AppNoResponse =>
          case AppMessage(message) =>
            if |message| > buffer.Length {
              StartSendingErrorOnChannel(request.channel, INVALID_LENGTH);
            } else {
              CopyInto(buffer, 0, message);
              Respond(Response(request.channel, request.command, |message|));
            }
        }
      }
    }
  }
}
