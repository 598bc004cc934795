/** The ring, the event counter, the slot sink and the reader as the objects the program updates. */
module Ring {
  import opened Bytes
  import opened Types
  import opened Framing
  import Codec
  import Consumer
  import Link
  import Queues

  /** The shared byte queue both sides map. */
  class ByteQueue {
    const capacity: nat
    var data: Bytes

    constructor (capacity: nat)
      ensures this.capacity == capacity && data == []
    {
      this.capacity := capacity;
      data := [];
    }

    method TryWriteSlice(slice: Bytes) returns (ok: bool)
      modifies this
      ensures TryWrite(old(data), capacity, slice) == if ok then Some(data) else None
      ensures !ok ==> data == old(data)
    {
      ok := |data| + |slice| <= capacity;
      if ok {
        data := data + slice;
      }
    }

    method ReserveReadBatch(len: nat) returns (batch: Option<Bytes>)
      modifies this
      ensures (batch, data) == ReadBatch(old(data), len)
    {
      if data == [] {
        return None;
      }
      var n := if len <= |data| then len else |data|;
      batch := Some(data[..n]);
      data := data[n..];
    }
  }

  ghost predicate IsPowerOfTwo(n: nat) {
    if n <= 1 then n == 1 else n % 2 == 0 && IsPowerOfTwo(n / 2)
  }

  /** The smallest power of two that is at least `n`, for `n` above zero. */
  method NextPowerOfTwo(n: nat) returns (p: nat)
    requires n > 0
    ensures IsPowerOfTwo(p) && n <= p < 2 * n
  {
    p := 1;
    while p < n
      invariant IsPowerOfTwo(p) && p < 2 * n
    {
      assert 2 * p / 2 == p;
      p := 2 * p;
    }
  }

  class ShmRingProducer {
    const queue: ByteQueue
    var droppedFrames: nat

    constructor (queue: ByteQueue)
      ensures this.queue == queue && droppedFrames == 0
    {
      this.queue := queue;
      droppedFrames := 0;
    }

    /** `fileOk` tells whether the directory, the file and the mapping could be made. */
    static method Create(capacity: nat, fileOk: bool) returns (r: Result<ShmRingProducer>)
      ensures r.Ok? <==> capacity >= 64 && fileOk
      ensures r.Ok? ==> fresh(r.value) && fresh(r.value.queue) && r.value.queue.data == []
                        && IsPowerOfTwo(r.value.queue.capacity) && capacity <= r.value.queue.capacity < 2 * capacity
      ensures r.Err? ==> r.error == ShmError
    {
      if capacity < MIN_CAPACITY {
        return Err(ShmError);
      }
      if !fileOk {
        return Err(ShmError);
      }
      var normalized := NextPowerOfTwo(capacity);
      var queue := new ByteQueue(normalized);
      var producer := new ShmRingProducer(queue);
      return Ok(producer);
    }

    /** Pushes the concatenation of the parts as one frame, or leaves the queue as it was. */
    method TryPush(parts: seq<Bytes>) returns (r: Result<()>)
      modifies this, queue
      ensures var n := |Join(parts)|;
              if n > 0xFFFF_FFFF then
                r == Err(PayloadTooLarge(n, 0xFFFF_FFFF)) && queue.data == old(queue.data)
              else if 4 + n > queue.capacity then
                r == Err(ShmError) && queue.data == old(queue.data)
              else if |old(queue.data)| + 4 + n > queue.capacity then
                r == Err(ShmFull) && queue.data == old(queue.data)
              else
                r == Ok(()) && queue.data == old(queue.data) + (Le(n, 4) + Join(parts))
      ensures droppedFrames == old(droppedFrames) + if r == Err(ShmFull) then 1 else 0
      ensures PushFrame(old(queue.data), queue.capacity, Join(parts)) ==
              match r { case Ok(_) => Ok(queue.data) case Err(e) => Err(e) }
    {
      var bodyLen := 0;
      for i := 0 to |parts|
        invariant bodyLen == |Join(parts[..i])|
        invariant queue.data == old(queue.data) && droppedFrames == old(droppedFrames)
      {
        JoinExtend(parts, i);
        bodyLen := bodyLen + |parts[i]|;
      }
      assert parts[..|parts|] == parts;
      if bodyLen > U32_MAX {
        return Err(PayloadTooLarge(bodyLen, U32_MAX));
      }
      if FRAME_LEN_BYTES + bodyLen > queue.capacity {
        return Err(ShmError);
      }
      var frame := Le(bodyLen, FRAME_LEN_BYTES);
      for i := 0 to |parts|
        invariant frame == Le(bodyLen, FRAME_LEN_BYTES) + Join(parts[..i])
        invariant queue.data == old(queue.data) && droppedFrames == old(droppedFrames)
      {
        JoinExtend(parts, i);
        frame := frame + parts[i];
      }
      assert frame == FrameBytes(Join(parts));
      var ok := queue.TryWriteSlice(frame);
      if ok {
        return Ok(());
      }
      droppedFrames := droppedFrames + 1;
      return Err(ShmFull);
    }

    method CloseRing()
      modifies queue
      ensures queue.data == old(queue.data) +
                            if |old(queue.data)| + 4 <= queue.capacity then [0xFF, 0xFF, 0xFF, 0xFF] else []
    {
      SentinelOutcome(queue.data, queue.capacity);
      var _ := queue.TryWriteSlice(Le(CLOSE_SENTINEL, FRAME_LEN_BYTES));
    }
  }

  class EventFd {
    var counter: nat

    constructor ()
      ensures counter == 0
    {
      counter := 0;
    }

    /** A saturated counter stays where it is: the consumer is already woken. */
    method Notify()
      modifies this
      ensures counter == Link.Notified(old(counter))
      ensures old(counter) < 0xFFFF_FFFF_FFFF_FFFE ==> counter == old(counter) + 1
      ensures old(counter) >= 0xFFFF_FFFF_FFFF_FFFE ==> counter == old(counter)
    {
      if counter < Link.EVENTFD_MAX {
        counter := counter + 1;
      }
    }

    method Drain() returns (n: nat)
      modifies this
      ensures n == old(counter) && counter == 0
    {
      n := counter;
      counter := 0;
    }

    /** Looks at the counter until it is not zero; `arrivals[k]` notifies come in before look `k`. The wait ends at
        the first look after any notify, with all that were pending, and takes no look in vain after it; it is
        still waiting only if there was none at all. */
    method Wait(arrivals: seq<nat>) returns (n: Option<nat>, ghost look: nat)
      modifies this
      ensures look <= |arrivals|
      ensures forall k | 0 <= k < look :: arrivals[k] == 0
      ensures look > 0 ==> old(counter) == 0
      ensures n.None? ==> look == |arrivals| && counter == old(counter)
      ensures n.Some? ==>
                && look < |arrivals| && n.value == NotifiedTimes(old(counter), arrivals[look]) && n.value > 0
                && counter == 0
    {
      look := 0;
      for k := 0 to |arrivals|
        invariant look == k && counter == old(counter)
        invariant forall j | 0 <= j < k :: arrivals[j] == 0
        invariant k > 0 ==> old(counter) == 0
      {
        for i := 0 to arrivals[k]
          invariant counter == NotifiedTimes(old(counter), i)
        {
          Notify();
        }
        var count := Drain();
        if count > 0 {
          return Some(count), look;
        }
        look := look + 1;
      }
      n := None;
    }
  }

  /** A counter after this many notifies. */
  function NotifiedTimes(counter: nat, times: nat): (r: nat)
    ensures r == 0 <==> counter == 0 && times == 0
    ensures counter + times <= 0xFFFF_FFFF_FFFF_FFFE ==> r == counter + times
    ensures counter <= 0xFFFF_FFFF_FFFF_FFFE < counter + times ==> r == 0xFFFF_FFFF_FFFF_FFFE
  {
    if times == 0 then counter else Link.Notified(NotifiedTimes(counter, times - 1))
  }

  class SlotSink {
    const ring: ShmRingProducer
    const wakeup: EventFd

    constructor (ring: ShmRingProducer, wakeup: EventFd)
      ensures this.ring == ring && this.wakeup == wakeup
    {
      this.ring := ring;
      this.wakeup := wakeup;
    }

    /** Pushes and then notifies; a refused frame changes nothing but the drop count. */
    method TryPush(header: Bytes, payload: Bytes) returns (ok: bool)
      modifies ring, ring.queue, wakeup
      ensures var n, queued, capacity := |header + payload|, |old(ring.queue.data)|, ring.queue.capacity;
              && ok == (n <= 0xFFFF_FFFF && queued + 4 + n <= capacity)
              && ring.droppedFrames
                 == old(ring.droppedFrames) + if n <= 0xFFFF_FFFF && 4 + n <= capacity < queued + 4 + n then 1 else 0
      ensures ring.queue.data
              == if ok then old(ring.queue.data) + (Le(|header + payload|, 4) + (header + payload))
                 else old(ring.queue.data)
      ensures wakeup.counter == if ok then Link.Notified(old(wakeup.counter)) else old(wakeup.counter)
    {
      assert Join([header, payload]) == header + payload by {
        assert [header, payload][1..] == [payload];
        assert Join([payload]) == payload;
      }
      var r := ring.TryPush([header, payload]);
      ok := r.Ok?;
      if ok {
        wakeup.Notify();
      }
    }

    method CloseSink()
      modifies ring.queue, wakeup
      ensures ring.queue.data
              == old(ring.queue.data) +
                 if |old(ring.queue.data)| + 4 <= ring.queue.capacity then [0xFF, 0xFF, 0xFF, 0xFF] else []
      ensures wakeup.counter == Link.Notified(old(wakeup.counter))
    {
      ring.CloseRing();
      wakeup.Notify();
    }
  }

  // ----- The reading side -----

  /** One pop: the body if a frame was popped, the queue left behind, and whether a sentinel was consumed. */
  function PopFrame(queue: Bytes): (Option<Bytes>, Bytes, bool) {
    var (prefix, rest) := ReadExact(queue, FRAME_LEN_BYTES);
    if prefix.None? then (None, rest, false)
    else if FromLe(prefix.value) == CLOSE_SENTINEL then (None, rest, true)
    else if FromLe(prefix.value) == 0 then (Some([]), rest, false)
    else
      var (body, rest') := ReadExact(rest, FromLe(prefix.value));
      (body, rest', false)
  }

  /** On a queue of whole frames, a pop takes exactly the front one. */
  lemma PopFront(events: seq<Event>)
    requires Sound(events)
    ensures PopFrame(Flatten(events)) ==
            if events == [] then (None, [], false)
            else if events[0].Close? then (None, Flatten(events[1..]), true)
            else (Some(events[0].body), Flatten(events[1..]), false)
  {
    if events != [] {
      var e := events[0];
      var rest := Flatten(events[1..]);
      FlattenFront(events);
      ReadNumber(Flatten(events), Prefix(e), Content(e) + rest);
      hide Flatten;
      if e.Data? && e.body != [] {
        var tail := Content(e) + rest;
        assert tail[..|e.body|] == e.body && tail[|e.body|..] == rest;
      } else {
        assert Content(e) + rest == rest;
      }
    }
  }

  /** The one-call pop does what the step system's two reads do. */
  lemma PopIsTwoReads(s: Link.State)
    requires s.reader.ReadLen?
    ensures var (body, rest, sentinel) := PopFrame(s.queue);
            var s1 := Link.ReadStep(s);
            var s2 := if s1.reader.ReadBody? then Link.ReadStep(s1) else s1;
            && s2.queue == rest && s2.closed == (s.closed || sentinel)
            && s2.reader == if body.Some? then Link.Deliver(body.value) else Link.CheckClosed
  {
    hide FromLe;
  }

  class ShmRingConsumer {
    const queue: ByteQueue
    var closed: bool

    constructor (queue: ByteQueue)
      ensures this.queue == queue && !closed
    {
      this.queue := queue;
      closed := false;
    }

    /** Reads byte by byte out of the batch; a partial batch is consumed and lost. */
    method ReadExactly(len: nat) returns (out: Option<Bytes>)
      modifies queue
      ensures (out, queue.data) == ReadExact(old(queue.data), len)
      ensures out == if old(queue.data) != [] && len <= |old(queue.data)| then Some(old(queue.data)[..len]) else None
      ensures queue.data == if len <= |old(queue.data)| then old(queue.data)[len..] else []
    {
      var batch := queue.ReserveReadBatch(len);
      if batch.None? || |batch.value| != len {
        return None;
      }
      var bytes: Bytes := [];
      ghost var after := queue.data;
      for i := 0 to len
        invariant bytes == batch.value[..i] && queue.data == after
      {
        bytes := bytes + [batch.value[i]];
      }
      assert bytes == batch.value;
      out := Some(bytes);
    }

    method TryPop() returns (body: Option<Bytes>)
      modifies this, queue
      ensures var (b, rest, sentinel) := PopFrame(old(queue.data));
              body == b && queue.data == rest && closed == (old(closed) || sentinel)
    {
      var prefix := ReadExactly(FRAME_LEN_BYTES);
      if prefix.None? {
        return None;
      }
      var len := FromLe(prefix.value);
      if len == CLOSE_SENTINEL {
        closed := true;
        return None;
      }
      if len == 0 {
        return Some([]);
      }
      body := ReadExactly(len);
    }
  }

  /** The three queues after decoding and enqueueing these frames, in order. */
  function ReceiveAll(env: Env, c: Consumer.State, bodies: seq<Bytes>): Consumer.State {
    if bodies == [] then c
    else Consumer.Receive(env, ReceiveAll(env, c, bodies[..|bodies| - 1]), bodies[|bodies| - 1])
  }

  /** What an event queue holds once everything up to and including its first sentinel is gone. */
  function AfterFirstClose(events: seq<Event>): seq<Event> {
    if events == [] then []
    else if events[0].Close? then events[1..]
    else AfterFirstClose(events[1..])
  }

  lemma TakeFront(events: seq<Event>)
    requires events != [] && events[0].Data? && Sound(events)
    ensures Sound(events[1..])
    ensures BeforeClose(events) == [events[0].body] + BeforeClose(events[1..])
    ensures AfterFirstClose(events) == AfterFirstClose(events[1..])
    ensures Close in events <==> Close in events[1..]
  {
    assert events == [events[0]] + events[1..];
  }

  lemma ReceiveOneMore(env: Env, c: Consumer.State, done: seq<Bytes>, frame: Bytes)
    ensures ReceiveAll(env, c, done + [frame]) == Consumer.Receive(env, ReceiveAll(env, c, done), frame)
  {
    hide Consumer.Receive;
    var all := done + [frame];
    assert all[..|all| - 1] == done;
  }

  /** A consumer's reader with the queues it feeds. */
  class Reader {
    const ring: ShmRingConsumer
    const accounts: Queues.ArrayQueue<AccountUpdate>
    const transactions: Queues.ArrayQueue<TransactionUpdate>
    const slots: Queues.ArrayQueue<SlotUpdate>

    constructor (ring: ShmRingConsumer)
      ensures this.ring == ring
      ensures Holds(Consumer.Init())
      ensures fresh(accounts) && fresh(transactions) && fresh(slots)
    {
      this.ring := ring;
      accounts := new Queues.ArrayQueue();
      transactions := new Queues.ArrayQueue();
      slots := new Queues.ArrayQueue();
    }

    /** The queues have been through just these receptions. */
    ghost predicate Holds(c: Consumer.State)
      reads accounts, transactions, slots
    {
      && accounts.Valid() && accounts.history == c.accounts
      && transactions.Valid() && transactions.history == c.transactions
      && slots.Valid() && slots.history == c.slots
    }

    method Enqueue(env: Env, frame: Bytes, ghost c: Consumer.State)
      requires Holds(c)
      modifies accounts, transactions, slots
      ensures Holds(Consumer.Receive(env, c, frame))
    {
      var decoded := Codec.DecodeServerFrame(env, frame);
      hide Codec.DecodeServerFrame;
      if decoded.Ok? && decoded.value.UpdateFrame? {
        match decoded.value.stamped.update {
          case Account(u) => accounts.ForcePush(u);
          case Transaction(u) => transactions.ForcePush(u);
          case Slot(u) => slots.ForcePush(u);
        }
      }
    }

    /** Pops and enqueues until nothing comes back. From a ring of whole frames this delivers exactly the
        frames before the first sentinel, in order, and closes exactly if there is a sentinel. */
    method DrainRing(env: Env, ghost events: seq<Event>, ghost c: Consumer.State)
      requires ring.queue.data == Flatten(events) && Sound(events) && !ring.closed && Holds(c)
      modifies ring, ring.queue, accounts, transactions, slots
      ensures Holds(ReceiveAll(env, c, BeforeClose(events)))
      ensures ring.closed == (Close in events)
      ensures ring.queue.data == Flatten(AfterFirstClose(events))
    {
      hide Consumer.Receive, ReceiveAll, PopFrame, Flatten, Sound;
      ghost var left := events;
      ghost var done: seq<Bytes> := [];
      assert Holds(ReceiveAll(env, c, done)) by { ReceiveNone(env, c); }
      var frame := Some([]);
      while frame.Some?
        invariant Sound(left) && done + BeforeClose(left) == BeforeClose(events)
        invariant Holds(ReceiveAll(env, c, done))
        invariant AfterFirstClose(left) == AfterFirstClose(events)
        invariant frame.Some? ==>
                    !ring.closed && ring.queue.data == Flatten(left) && (Close in left <==> Close in events)
        invariant frame.None? ==> BeforeClose(left) == [] && ring.closed == (Close in events)
                                  && ring.queue.data == Flatten(AfterFirstClose(left))
        decreases |left|, frame.Some?
      {
        PopFront(left);
        frame := ring.TryPop();
        if frame.Some? {
          TakeFront(left);
          ReceiveOneMore(env, c, done, frame.value);
          Enqueue(env, frame.value, ReceiveAll(env, c, done));
          done := done + [frame.value];
          left := left[1..];
        } else {
          NothingLeft(left);
        }
      }
      assert done == BeforeClose(events);
    }
  }

  lemma ReceiveNone(env: Env, c: Consumer.State)
    ensures ReceiveAll(env, c, []) == c
  {
  }

  lemma NothingLeft(left: seq<Event>)
    ensures left == [] ==> Flatten(AfterFirstClose(left)) == []
    ensures left != [] && left[0].Close? ==> AfterFirstClose(left) == left[1..] && Close in left
  {
  }
}
