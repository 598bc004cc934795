/** A consumer's end of the control socket: its stream, and the token it stores. */
module Client {
  import opened Bytes
  import opened Types
  import opened Framing
  import Codec
  import opened Wire

  const UNSET_SLOT_INDEX: nat := 255

  /** The token in the next message of a stream, if that is a plain ready reply. */
  function ReadyToken(env: Env, stream: Bytes): Result<SlotToken> {
    match Next(stream)
    case Err(e) => Err(e)
    case Ok(received) =>
      match Codec.DecodeServerFrame(env, received.payload)
      case Err(e) => Err(e)
      case Ok(ControlFrame(ConnectionReady(token))) => Ok(token)
      case Ok(_) => Err(UdsError)
  }

  /** A plain ready reply on the wire, tag 3, reaches the caller as its token; the handshake's own kind of reply, tag 5,
      is refused. */
  lemma ReadyReplyRead(env: Env, payload: Bytes, rest: Bytes)
    requires 2 <= |payload| <= 16 * 1024 * 1024 && payload[1] in {3, 5} && env.decodeControl(payload).Ok?
    ensures ReadyToken(env, FrameBytes(payload) + rest) ==
            match env.decodeControl(payload).value
            case ConnectionReady(token) => Ok(token)
            case ConnectionReadyShm(_) => Err(UdsError)
  {
    hide FrameBytes, Next;
    WrittenIsRead(payload, rest);
  }

  class ShmConsumer {
    const toSender: Stream
    const fromSender: Stream
    var slotTokenIndex: nat
    var slotTokenGeneration: nat

    constructor (toSender: Stream, fromSender: Stream, token: SlotToken)
      ensures this.toSender == toSender && this.fromSender == fromSender
      ensures slotTokenIndex == token.slotIndex && slotTokenGeneration == token.generation
    {
      this.toSender := toSender;
      this.fromSender := fromSender;
      slotTokenIndex := token.slotIndex;
      slotTokenGeneration := token.generation;
    }

    /** Writes one request and reads one reply. A call that succeeds took exactly one whole message off the
        stream; one that fails on the reply leaves the token as it was. */
    method SendSubscription(env: Env, encode: SubscriptionRequest -> Bytes, request: SubscriptionRequest)
      returns (r: Result<()>)
      requires toSender != fromSender
      modifies this, toSender, fromSender
      ensures var p := encode(request);
              var reply := ReadyToken(env, old(fromSender.data));
              if |p| > U32_MAX then
                && r == Err(FrameTooLarge(|p|))
                && toSender.data == old(toSender.data) && fromSender.data == old(fromSender.data)
              else
                && toSender.data == old(toSender.data) + FrameBytes(p)
                && r == match reply { case Ok(_) => Ok(()) case Err(e) => Err(e) }
      ensures r.Ok? ==> exists q: Bytes :: old(fromSender.data) == FrameBytes(q) + fromSender.data
      ensures SlotToken(slotTokenIndex, slotTokenGeneration) ==
              if r.Ok? then ReadyToken(env, old(fromSender.data)).value
              else old(SlotToken(slotTokenIndex, slotTokenGeneration))
    {
      hide FrameBytes, Codec.DecodeServerFrame, FromLe;
      r := toSender.WriteFramed(encode(request));
      if r.Err? {
        return;
      }
      var reply := fromSender.ReadFramed();
      if reply.Err? {
        return Err(reply.error);
      }
      ReadWasWritten(old(fromSender.data));
      match Codec.DecodeServerFrame(env, reply.value) {
        case Err(e) => return Err(e);
        case Ok(ControlFrame(ConnectionReady(token))) =>
          slotTokenIndex := token.slotIndex;
          slotTokenGeneration := token.generation;
          return Ok(());
        case Ok(_) => return Err(UdsError);
      }
    }

    /** Writes one ping and reads nothing, so the next reply still belongs to the next subscription. */
    method SendPing(encode: SlotToken -> Bytes) returns (r: Result<()>)
      modifies toSender
      ensures if slotTokenIndex == 255 then
                r == Err(MalformedPayload(NoSlotToken)) && toSender.data == old(toSender.data)
              else
                var p := encode(SlotToken(slotTokenIndex, slotTokenGeneration));
                && r == (if |p| <= 0xFFFF_FFFF then Ok(()) else Err(FrameTooLarge(|p|)))
                && toSender.data == old(toSender.data) + if r.Ok? then FrameBytes(p) else []
    {
      if slotTokenIndex == UNSET_SLOT_INDEX {
        return Err(MalformedPayload(NoSlotToken));
      }
      r := toSender.WriteFramed(encode(SlotToken(slotTokenIndex, slotTokenGeneration)));
    }
  }
}
