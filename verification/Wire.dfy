/** Framed messages on the control socket. */
module Wire {
  import opened Bytes
  import opened Types
  import opened Framing

  const MAX_FRAME_SIZE: nat := 16 * 1024 * 1024

  datatype Received = Received(payload: Bytes, rest: Bytes)

  /** The next message of a stream that ends after `stream`. */
  function Next(stream: Bytes): Result<Received> {
    if |stream| < FRAME_LEN_BYTES then Err(UnexpectedEof)
    else
      var size := FromLe(stream[..FRAME_LEN_BYTES]);
      if size > MAX_FRAME_SIZE then Err(FrameTooLarge(size))
      else if |stream| - FRAME_LEN_BYTES < size then Err(UnexpectedEof)
      else Ok(Received(stream[FRAME_LEN_BYTES..][..size], stream[FRAME_LEN_BYTES..][size..]))
  }

  /** Every message of a stream up to the first one that fails, and the bytes where it fails. */
  function All(stream: Bytes): (seq<Bytes>, Bytes)
    decreases |stream|
  {
    match Next(stream)
    case Err(_) => ([], stream)
    case Ok(Received(payload, rest)) =>
      var (payloads, left) := All(rest);
      ([payload] + payloads, left)
  }

  /** The next `n` messages of a stream and the bytes after them, or the first error met. */
  function Several(stream: Bytes, n: nat): Result<(seq<Bytes>, Bytes)> {
    if n == 0 then Ok(([], stream))
    else
      match Next(stream)
      case Err(e) => Err(e)
      case Ok(Received(payload, rest)) =>
        match Several(rest, n - 1)
        case Err(e) => Err(e)
        case Ok((payloads, left)) => Ok(([payload] + payloads, left))
  }

  /** The bytes of a list of messages written one after another. */
  function Frames(payloads: seq<Bytes>): Bytes {
    if payloads == [] then [] else FrameBytes(payloads[0]) + Frames(payloads[1..])
  }

  ghost predicate Small(payloads: seq<Bytes>) {
    forall i | 0 <= i < |payloads| :: |payloads[i]| <= MAX_FRAME_SIZE
  }

  // ----- The stream, as the two ends use it -----

  class Stream {
    /** Everything written and not yet read. */
    var data: Bytes

    constructor ()
      ensures data == []
    {
      data := [];
    }

    /** Reads exactly `n` bytes; at the end of the stream what was there is consumed and lost. */
    method ReadExact(n: nat) returns (r: Result<Bytes>)
      modifies this
      ensures if n <= |old(data)| then r == Ok(old(data)[..n]) && data == old(data)[n..]
              else r == Err(UnexpectedEof) && data == []
    {
      if |data| < n {
        data := [];
        return Err(UnexpectedEof);
      }
      r := Ok(data[..n]);
      data := data[n..];
    }

    method ReadFramed() returns (r: Result<Bytes>)
      modifies this
      ensures match Next(old(data))
              case Ok(received) => r == Ok(received.payload) && data == received.rest
              case Err(error) =>
                r == Err(error) && data == if error.FrameTooLarge? then old(data)[FRAME_LEN_BYTES..] else []
    {
      var prefix := ReadExact(FRAME_LEN_BYTES);
      if prefix.Err? {
        return prefix;
      }
      var size := FromLe(prefix.value);
      if size > MAX_FRAME_SIZE {
        return Err(FrameTooLarge(size));
      }
      r := ReadExact(size);
    }

    method WriteFramed(payload: Bytes) returns (r: Result<()>)
      modifies this
      ensures r == if |payload| <= 0xFFFF_FFFF then Ok(()) else Err(FrameTooLarge(|payload|))
      ensures data == old(data) + if r.Ok? then FrameBytes(payload) else []
    {
      if |payload| > U32_MAX {
        return Err(FrameTooLarge(|payload|));
      }
      data := data + Le(|payload|, FRAME_LEN_BYTES);
      data := data + payload;
      Assoc(old(data), Le(|payload|, FRAME_LEN_BYTES), payload);
      r := Ok(());
    }
  }

  // ----- Round trips -----

  lemma CutFrame(payload: Bytes, rest: Bytes)
    requires |payload| <= U32_MAX
    ensures var s := FrameBytes(payload) + rest;
            && |s| == FRAME_LEN_BYTES + |payload| + |rest| && FromLe(s[..FRAME_LEN_BYTES]) == |payload|
            && s[FRAME_LEN_BYTES..] == payload + rest
  {
    Le32RoundTrip(|payload|);
    var s := FrameBytes(payload) + rest;
    assert s[..FRAME_LEN_BYTES] == Le(|payload|, FRAME_LEN_BYTES);
  }

  /** A written message is read back, and exactly its own bytes are taken, if and only if it is not too long for
      the reader; otherwise the reader names its length. */
  lemma WrittenIsRead(payload: Bytes, rest: Bytes)
    requires |payload| <= U32_MAX
    ensures Next(FrameBytes(payload) + rest) ==
            if |payload| <= 16 * 1024 * 1024 then Ok(Received(payload, rest)) else Err(FrameTooLarge(|payload|))
  {
    hide FromLe, FrameBytes;
    CutFrame(payload, rest);
    assert (payload + rest)[..|payload|] == payload && (payload + rest)[|payload|..] == rest;
  }

  /** Whatever is read was written in just that way. */
  lemma ReadWasWritten(stream: Bytes)
    requires Next(stream).Ok?
    ensures var r := Next(stream).value; |r.payload| <= MAX_FRAME_SIZE && stream == FrameBytes(r.payload) + r.rest
  {
    hide FromLe, Le;
    var prefix, tail := stream[..FRAME_LEN_BYTES], stream[FRAME_LEN_BYTES..];
    LeOfFromLe(prefix);
    var r := Next(stream).value;
    assert tail == r.payload + r.rest;
    assert stream == prefix + tail;
    Assoc(prefix, r.payload, r.rest);
  }

  /** A stream reads as these messages and these left-over bytes if and only if it is these messages written one
      after another, each short enough, and then bytes that do not start with a whole message. */
  lemma {:induction false} AllIff(stream: Bytes, payloads: seq<Bytes>, left: Bytes)
    ensures All(stream) == (payloads, left) <==>
            stream == Frames(payloads) + left && Small(payloads) && Next(left).Err?
    decreases |stream|
  {
    hide FrameBytes;
    if All(stream) == (payloads, left) {
      AllAreFrames(stream);
    }
    if stream == Frames(payloads) + left && Small(payloads) && Next(left).Err? {
      FramesAreAll(payloads, left);
    }
  }

  /** Reading as many messages as were written gives exactly these, in order, and leaves exactly what follows
      them, whatever that is; and nothing else reads like that. */
  lemma SeveralIff(stream: Bytes, payloads: seq<Bytes>, tail: Bytes)
    ensures Several(stream, |payloads|) == Ok((payloads, tail)) <==>
            stream == Frames(payloads) + tail && Small(payloads)
  {
    if Several(stream, |payloads|) == Ok((payloads, tail)) {
      SeveralAreFrames(stream, |payloads|);
    }
    if stream == Frames(payloads) + tail && Small(payloads) {
      FramesAreSeveral(payloads, tail);
    }
  }

  lemma {:induction false} FramesAreSeveral(payloads: seq<Bytes>, tail: Bytes)
    requires Small(payloads)
    ensures Several(Frames(payloads) + tail, |payloads|) == Ok((payloads, tail))
  {
    hide FrameBytes, Next;
    if payloads == [] {
      assert Frames(payloads) + tail == tail;
    } else {
      FramesAreSeveral(payloads[1..], tail);
      Assoc(FrameBytes(payloads[0]), Frames(payloads[1..]), tail);
      WrittenIsRead(payloads[0], Frames(payloads[1..]) + tail);
      assert [payloads[0]] + payloads[1..] == payloads;
    }
  }

  lemma {:induction false} SeveralAreFrames(stream: Bytes, n: nat)
    requires Several(stream, n).Ok?
    ensures var (payloads, left) := Several(stream, n).value;
            stream == Frames(payloads) + left && Small(payloads)
    decreases n
  {
    hide FrameBytes, Next;
    if n == 0 {
      assert [] + stream == stream;
    } else {
      var Received(payload, rest) := Next(stream).value;
      SeveralAreFrames(rest, n - 1);
      ReadWasWritten(stream);
      var (payloads, left) := Several(rest, n - 1).value;
      assert ([payload] + payloads)[1..] == payloads;
      Assoc(FrameBytes(payload), Frames(payloads), left);
    }
  }

  lemma {:induction false} AllAreFrames(stream: Bytes)
    ensures var (payloads, left) := All(stream);
            stream == Frames(payloads) + left && Small(payloads) && Next(left).Err?
    decreases |stream|
  {
    hide FrameBytes, FromLe;
    match Next(stream)
    case Err(_) =>
      assert All(stream) == ([], stream);
    case Ok(Received(payload, rest)) =>
      AllAreFrames(rest);
      ReadWasWritten(stream);
      var (payloads, left) := All(rest);
      var whole := [payload] + payloads;
      assert All(stream) == (whole, left) && whole[1..] == payloads;
      Assoc(FrameBytes(payload), Frames(payloads), left);
  }

  lemma {:induction false} FramesAreAll(payloads: seq<Bytes>, left: Bytes)
    requires Small(payloads) && Next(left).Err?
    ensures All(Frames(payloads) + left) == (payloads, left)
  {
    hide FrameBytes, Next;
    if payloads == [] {
      assert Frames(payloads) + left == left;
    } else {
      var tail := Frames(payloads[1..]) + left;
      FramesAreAll(payloads[1..], left);
      Assoc(FrameBytes(payloads[0]), Frames(payloads[1..]), left);
      WrittenIsRead(payloads[0], tail);
      assert [payloads[0]] + payloads[1..] == payloads;
    }
  }

  /** One more write after any list of writes. */
  lemma {:induction false} FramesAppend(payloads: seq<Bytes>, payload: Bytes)
    ensures Frames(payloads + [payload]) == Frames(payloads) + FrameBytes(payload)
  {
    hide FrameBytes;
    if payloads == [] {
      assert payloads + [payload] == [payload] && [payload][1..] == [];
    } else {
      FramesAppend(payloads[1..], payload);
      assert (payloads + [payload])[1..] == payloads[1..] + [payload];
      Assoc(FrameBytes(payloads[0]), Frames(payloads[1..]), FrameBytes(payload));
    }
  }

  // ----- Cut-off streams -----

  lemma PartialFrame(payload: Bytes, k: nat)
    requires |payload| <= MAX_FRAME_SIZE && k < |FrameBytes(payload)|
    ensures Next(FrameBytes(payload)[..k]) == Err(UnexpectedEof)
  {
    hide FromLe, Le;
    var s := FrameBytes(payload);
    Le32RoundTrip(|payload|);
    if k >= FRAME_LEN_BYTES {
      assert s[..k][..FRAME_LEN_BYTES] == Le(|payload|, FRAME_LEN_BYTES);
    }
  }

  /** The messages that lie wholly within the first `k` bytes. */
  function Whole(payloads: seq<Bytes>, k: nat): (n: nat)
    requires k <= |Frames(payloads)|
    ensures n <= |payloads|
  {
    if payloads == [] || k < |FrameBytes(payloads[0])| then 0
    else 1 + Whole(payloads[1..], k - |FrameBytes(payloads[0])|)
  }

  /** A peer that goes away after any number of bytes: exactly the messages it finished are read, and then the
      end of the stream is reported, never a message that was not written. */
  lemma {:induction false} CutStream(payloads: seq<Bytes>, k: nat)
    requires Small(payloads) && k <= |Frames(payloads)|
    ensures var n := Whole(payloads, k);
            && |Frames(payloads[..n])| <= k && (n < |payloads| ==> k < |Frames(payloads[..n + 1])|)
            && All(Frames(payloads)[..k]).0 == payloads[..n]
            && Next(All(Frames(payloads)[..k]).1) == Err(UnexpectedEof)
  {
    hide FrameBytes, Next;
    var s, n := Frames(payloads), Whole(payloads, k);
    if payloads == [] {
      assert s[..k] == [];
      NothingLeft();
    } else {
      var first, rest := FrameBytes(payloads[0]), Frames(payloads[1..]);
      if k < |first| {
        assert s[..k] == first[..k];
        PartialFrame(payloads[0], k);
        assert payloads[..1][1..] == [];
      } else {
        CutStream(payloads[1..], k - |first|);
        assert s[..k] == first + rest[..k - |first|];
        WrittenIsRead(payloads[0], rest[..k - |first|]);
        assert payloads[..n][1..] == payloads[1..][..n - 1];
        if n < |payloads| {
          assert payloads[..n + 1][1..] == payloads[1..][..n];
        }
      }
    }
  }

  lemma NothingLeft()
    ensures Next([]) == Err(UnexpectedEof) && All([]) == ([], [])
  {
  }
}
