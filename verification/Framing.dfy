/** Length-prefixed frames and the close sentinel in a bounded byte queue. */
module Framing {
  import opened Bytes
  import opened Types

  const FRAME_LEN_BYTES: nat := 4
  const CLOSE_SENTINEL: nat := U32_MAX

  /** A write puts the whole slice at the back, or nothing when it does not fit. */
  function TryWrite(queue: Bytes, capacity: nat, slice: Bytes): Option<Bytes> {
    if |queue| + |slice| <= capacity then Some(queue + slice) else None
  }

  /** A read batch takes up to `len` bytes from the front, and nothing from an empty queue. */
  function ReadBatch(queue: Bytes, len: nat): (Option<Bytes>, Bytes) {
    if queue == [] then (None, queue)
    else
      var n := if len <= |queue| then len else |queue|;
      (Some(queue[..n]), queue[n..])
  }

  /** A shorter batch than asked for is lost: it was consumed and is not returned. */
  function ReadExact(queue: Bytes, len: nat): (Option<Bytes>, Bytes) {
    var (batch, rest) := ReadBatch(queue, len);
    if batch.Some? && |batch.value| == len then (batch, rest) else (None, rest)
  }

  function FrameBytes(body: Bytes): Bytes {
    Le(|body|, FRAME_LEN_BYTES) + body
  }

  /** The queue after pushing one frame, or why it was refused. */
  function PushFrame(queue: Bytes, capacity: nat, body: Bytes): Result<Bytes> {
    if |body| > U32_MAX then Err(PayloadTooLarge(|body|, U32_MAX))
    else if FRAME_LEN_BYTES + |body| > capacity then Err(ShmError)
    else
      match TryWrite(queue, capacity, FrameBytes(body))
      case Some(queue') => Ok(queue')
      case None => Err(ShmFull)
  }

  function PushSentinel(queue: Bytes, capacity: nat): Option<Bytes> {
    TryWrite(queue, capacity, Le(CLOSE_SENTINEL, FRAME_LEN_BYTES))
  }

  /** A frame is accepted if and only if its length has a 32-bit prefix and prefix and body fit beside what is
      queued; then they follow it. Each refusal has its own cause. */
  lemma PushOutcome(queue: Bytes, capacity: nat, body: Bytes)
    ensures var r := PushFrame(queue, capacity, body);
            && (r.Ok? <==> |body| <= 0xFFFF_FFFF && |queue| + 4 + |body| <= capacity)
            && (r.Ok? ==>
                  && |r.value| == |queue| + 4 + |body| && r.value[..|queue|] == queue
                  && FromLe(r.value[|queue|..|queue| + 4]) == |body| && r.value[|queue| + 4..] == body)
            && (r == Err(PayloadTooLarge(|body|, 0xFFFF_FFFF)) <==> |body| > 0xFFFF_FFFF)
            && (r == Err(ShmError) <==> |body| <= 0xFFFF_FFFF && 4 + |body| > capacity)
            && (r == Err(ShmFull) <==> |body| <= 0xFFFF_FFFF && 4 + |body| <= capacity < |queue| + 4 + |body|)
  {
    hide Le, FromLe;
    var r := PushFrame(queue, capacity, body);
    if r.Ok? {
      Le32RoundTrip(|body|);
      assert r.value[|queue|..|queue| + 4] == Le(|body|, 4);
    }
  }

  /** The sentinel is four bytes of ones at the back, and goes in if and only if four bytes are free. */
  lemma SentinelOutcome(queue: Bytes, capacity: nat)
    ensures PushSentinel(queue, capacity) ==
            if |queue| + 4 <= capacity then Some(queue + [0xFF, 0xFF, 0xFF, 0xFF]) else None
  {
    assert Le(CLOSE_SENTINEL, 4) == [0xFF] + Le(0xFF_FFFF, 3) == [0xFF, 0xFF, 0xFF, 0xFF] by {
      assert Le(0xFF_FFFF, 3) == [0xFF] + Le(0xFFFF, 2);
      assert Le(0xFFFF, 2) == [0xFF] + Le(0xFF, 1);
      assert Le(0xFF, 1) == [0xFF];
    }
  }

  // ----- What a queue of frames holds -----

  datatype Event = Data(body: Bytes) | Close

  function EventBytes(e: Event): Bytes {
    match e
    case Data(body) => FrameBytes(body)
    case Close => Le(CLOSE_SENTINEL, FRAME_LEN_BYTES)
  }

  function Flatten(events: seq<Event>): Bytes {
    if events == [] then [] else EventBytes(events[0]) + Flatten(events[1..])
  }

  /** Bytes these events take in a ring. */
  function Size(events: seq<Event>): nat {
    if events == [] then 0 else (if events[0].Data? then 4 + |events[0].body| else 4) + Size(events[1..])
  }

  lemma {:induction false} FlattenSize(events: seq<Event>)
    ensures |Flatten(events)| == Size(events)
  {
    if events != [] {
      FlattenSize(events[1..]);
    }
  }

  lemma {:induction false} FlattenAppend(events: seq<Event>, e: Event)
    ensures Flatten(events + [e]) == Flatten(events) + EventBytes(e)
  {
    hide EventBytes;
    if events == [] {
      assert events + [e] == [e];
      assert [e][1..] == [];
    } else {
      FlattenAppend(events[1..], e);
      assert (events + [e])[1..] == events[1..] + [e];
      Assoc(EventBytes(events[0]), Flatten(events[1..]), EventBytes(e));
    }
  }

  /** No data frame is long enough for its prefix to read as the sentinel. */
  ghost predicate Sound(events: seq<Event>) {
    forall i | 0 <= i < |events| && events[i].Data? :: |events[i].body| < CLOSE_SENTINEL
  }

  lemma ReadNumber(queue: Bytes, n: nat, tail: Bytes)
    requires n <= U32_MAX && queue == Le(n, FRAME_LEN_BYTES) + tail
    ensures ReadExact(queue, FRAME_LEN_BYTES) == (Some(Le(n, FRAME_LEN_BYTES)), tail)
    ensures FromLe(Le(n, FRAME_LEN_BYTES)) == n
  {
    var prefix := Le(n, FRAME_LEN_BYTES);
    assert queue[..4] == prefix && queue[4..] == tail;
    Le32RoundTrip(n);
  }

  /** The front event of a queue, as the bytes that follow its prefix. */
  lemma FlattenFront(events: seq<Event>)
    requires events != []
    ensures Flatten(events) == Le(Prefix(events[0]), FRAME_LEN_BYTES) + (Content(events[0]) + Flatten(events[1..]))
  {
    EventFront(events[0]);
    Assoc(Le(Prefix(events[0]), FRAME_LEN_BYTES), Content(events[0]), Flatten(events[1..]));
  }

  lemma EventFront(e: Event)
    ensures EventBytes(e) == Le(Prefix(e), FRAME_LEN_BYTES) + Content(e)
  {
  }

  function Prefix(e: Event): nat {
    if e.Data? then |e.body| else CLOSE_SENTINEL
  }

  function Content(e: Event): Bytes {
    if e.Data? then e.body else []
  }

  /** The bodies accepted before the first sentinel, in order. */
  function BeforeClose(events: seq<Event>): seq<Bytes> {
    if events == [] || events[0].Close? then [] else [events[0].body] + BeforeClose(events[1..])
  }

  function Bodies(events: seq<Event>): seq<Bytes> {
    if events == [] then []
    else (if events[0].Data? then [events[0].body] else []) + Bodies(events[1..])
  }

  lemma {:induction false} BodiesAppend(events: seq<Event>, e: Event)
    ensures Bodies(events + [e]) == Bodies(events) + if e.Data? then [e.body] else []
  {
    if events == [] {
      assert events + [e] == [e] && [e][1..] == [];
    } else {
      BodiesAppend(events[1..], e);
      assert (events + [e])[1..] == events[1..] + [e];
    }
  }

  lemma {:induction false} BeforeCloseIsPrefix(events: seq<Event>)
    ensures BeforeClose(events) <= Bodies(events)
  {
    if events != [] {
      BeforeCloseIsPrefix(events[1..]);
    }
  }
}
