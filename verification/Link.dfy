/**
 One consumer's data path as a step system: the byte ring, the event counter, any number of
 producers that push and then notify, and the reader that drains, checks for close and parks.
 */
module Link {
  import opened Bytes
  import opened Types
  import opened Framing

  const EVENTFD_MAX: nat := 0xFFFF_FFFF_FFFF_FFFE

  datatype Reader =
    | ReadLen               // about to read a length prefix
    | ReadBody(len: nat)    // read the prefix, about to read the body
    | Deliver(body: Bytes)  // popped a frame, about to decode and enqueue it
    | CheckClosed           // the last pop returned nothing
    | Parked                // waiting on the event counter
    | Stopped

  /** `log` and `popped` record the run: writes the ring accepted, and frames the reader took. */
  datatype State = State(
    capacity: nat,
    queue: Bytes,
    counter: nat,
    notifying: set<nat>,    // producers between their write and their notify
    linked: bool,           // the ring file still exists
    closed: bool,           // the reader has consumed a sentinel
    reader: Reader,
    log: seq<Event>,
    popped: seq<Bytes>)

  datatype Action =
    | Push(producer: nat, body: Bytes)
    | CloseRing(producer: nat)
    | Notify(producer: nat)
    | Read
    | Unlink

  function Init(capacity: nat): State {
    State(capacity, [], 0, {}, true, false, ReadLen, [], [])
  }

  function PushStep(s: State, producer: nat, body: Bytes): State {
    match PushFrame(s.queue, s.capacity, body)
    case Ok(queue) => s.(queue := queue, log := s.log + [Data(body)], notifying := s.notifying + {producer})
    case Err(_) => s
  }

  /** The producer notifies even when the sentinel did not fit. */
  function CloseStep(s: State, producer: nat): State {
    match PushSentinel(s.queue, s.capacity)
    case Some(queue) => s.(queue := queue, log := s.log + [Close], notifying := s.notifying + {producer})
    case None => s.(notifying := s.notifying + {producer})
  }

  /** A notified counter; saturated, it stays where it is, since its consumer is already woken. */
  function Notified(counter: nat): (r: nat)
    ensures r > 0
  {
    if counter < EVENTFD_MAX then counter + 1 else counter
  }

  function NotifyStep(s: State, producer: nat): State {
    s.(counter := Notified(s.counter), notifying := s.notifying - {producer})
  }

  function ReadStep(s: State): State {
    match s.reader
    case ReadLen =>
      var (prefix, rest) := ReadExact(s.queue, FRAME_LEN_BYTES);
      if prefix.None? then s.(queue := rest, reader := CheckClosed)
      else if FromLe(prefix.value) == CLOSE_SENTINEL then s.(queue := rest, closed := true, reader := CheckClosed)
      else if FromLe(prefix.value) == 0 then s.(queue := rest, reader := Deliver([]))
      else s.(queue := rest, reader := ReadBody(FromLe(prefix.value)))
    case ReadBody(len) =>
      var (body, rest) := ReadExact(s.queue, len);
      s.(queue := rest, reader := if body.Some? then Deliver(body.value) else CheckClosed)
    case Deliver(body) => s.(popped := s.popped + [body], reader := ReadLen)
    case CheckClosed => s.(reader := if s.closed || !s.linked then Stopped else Parked)
    case Parked => if s.counter > 0 then s.(counter := 0, reader := ReadLen) else s
    case Stopped => s
  }

  /** A producer writes only between operations, and notifies only after a write. */
  predicate Enabled(s: State, a: Action) {
    match a
    case Push(p, _) => p !in s.notifying
    case CloseRing(p) => p !in s.notifying
    case Notify(p) => p in s.notifying
    case Read => true
    case Unlink => true
  }

  function Next(s: State, a: Action): State {
    if !Enabled(s, a) then s
    else
      match a
      case Push(p, body) => PushStep(s, p, body)
      case CloseRing(p) => CloseStep(s, p)
      case Notify(p) => NotifyStep(s, p)
      case Read => ReadStep(s)
      case Unlink => s.(linked := false)
  }

  function Run(s: State, actions: seq<Action>): State {
    if actions == [] then s
    else Next(Run(s, actions[..|actions| - 1]), actions[|actions| - 1])
  }

  // ----- Invariants -----

  ghost predicate Taken(s: State) {
    && |s.popped| <= |s.log|
    && forall i | 0 <= i < |s.popped| :: s.log[i] == Data(s.popped[i])
  }

  /** Events the reader has begun to take but not yet delivered: at most one. */
  ghost function InHand(s: State): nat {
    if s.closed || s.reader.ReadBody? || s.reader.Deliver? then 1 else 0
  }

  /** The event in hand is the one the reader's phase says, and the queue is what is left of it
      followed by whole frames. */
  ghost predicate Holds(queue: Bytes, reader: Reader, closed: bool, hand: seq<Event>, pending: seq<Event>) {
    if closed then
      hand == [Close] && (reader.CheckClosed? || reader.Stopped?) && queue == Flatten(pending)
    else if reader.ReadBody? then
      && |hand| == 1 && hand[0].Data? && |hand[0].body| == reader.len > 0
      && queue == hand[0].body + Flatten(pending)
    else if reader.Deliver? then
      hand == [Data(reader.body)] && queue == Flatten(pending)
    else
      hand == [] && queue == Flatten(pending)
  }

  ghost predicate Framed(s: State) {
    var k := |s.popped|;
    && Taken(s) && k + InHand(s) <= |s.log|
    && Holds(s.queue, s.reader, s.closed, s.log[k..k + InHand(s)], s.log[k + InHand(s)..])
  }

  /** Once the reader's last pop came back empty, bytes in the ring mean a wakeup is on its way. */
  ghost predicate Wakeful(s: State) {
    (s.reader.CheckClosed? || s.reader.Parked?) && !s.closed && s.queue != []
    ==> s.counter > 0 || s.notifying != {}
  }

  /** The reader stops only at a sentinel or when the ring file is gone. */
  ghost predicate StopsForCause(s: State) {
    s.reader.Stopped? ==> s.closed || !s.linked
  }

  /** Every accepted frame fitted the ring. */
  ghost predicate Fits(s: State) {
    forall i | 0 <= i < |s.log| && s.log[i].Data? ::
      |s.log[i].body| <= U32_MAX && FRAME_LEN_BYTES + |s.log[i].body| <= s.capacity
  }

  ghost predicate Inv(s: State) {
    && (Sound(s.log) ==> Framed(s))
    && Wakeful(s) && StopsForCause(s) && Fits(s)
  }

  lemma AppendHolds(queue: Bytes, reader: Reader, closed: bool, hand: seq<Event>, pending: seq<Event>, e: Event)
    requires Holds(queue, reader, closed, hand, pending)
    ensures Holds(queue + EventBytes(e), reader, closed, hand, pending + [e])
  {
    FlattenAppend(pending, e);
    if !closed && reader.ReadBody? {
      Assoc(hand[0].body, Flatten(pending), EventBytes(e));
    }
  }

  lemma AppendKeepsFramed(s: State, s': State, e: Event)
    requires Framed(s)
    requires s'.log == s.log + [e] && s'.queue == s.queue + EventBytes(e)
    requires s'.popped == s.popped && s'.closed == s.closed && s'.reader == s.reader
    ensures Framed(s')
  {
    hide Flatten, EventBytes;
    var k := |s.popped|;
    var h := k + InHand(s);
    AppendHolds(s.queue, s.reader, s.closed, s.log[k..h], s.log[h..], e);
    CutAppended(s.log, e, k, h);
  }

  lemma CutAppended(log: seq<Event>, e: Event, k: nat, h: nat)
    requires k <= h <= |log|
    ensures (log + [e])[k..h] == log[k..h]
    ensures (log + [e])[h..] == log[h..] + [e]
  {
  }

  /** Reading a prefix takes the front event in hand; an empty queue gives nothing. */
  lemma ReadLenHolds(s: State, pending: seq<Event>)
    requires !s.closed && s.reader.ReadLen? && Sound(pending)
    requires Holds(s.queue, s.reader, s.closed, [], pending)
    ensures var s' := ReadStep(s);
            if pending == [] then
              InHand(s') == 0 && Holds(s'.queue, s'.reader, s'.closed, [], [])
            else
              InHand(s') == 1 && Holds(s'.queue, s'.reader, s'.closed, [pending[0]], pending[1..])
    ensures ReadStep(s).popped == s.popped && ReadStep(s).log == s.log
  {
    if pending != [] {
      var e := pending[0];
      FlattenFront(pending);
      ReadNumber(s.queue, Prefix(e), Content(e) + Flatten(pending[1..]));
      if Content(e) == [] {
        assert Content(e) + Flatten(pending[1..]) == Flatten(pending[1..]);
      }
    }
  }

  lemma ReadLenKeepsFramed(s: State)
    requires Framed(s) && Sound(s.log) && !s.closed && s.reader.ReadLen?
    ensures Framed(ReadStep(s))
  {
    var k := |s.popped|;
    var pending := s.log[k..];
    assert s.log[k..k] == [];
    hide ReadStep, Holds;
    ReadLenHolds(s, pending);
    if pending != [] {
      assert s.log[k..k + 1] == [pending[0]] && s.log[k + 1..] == pending[1..];
    }
  }

  lemma ReadBodyKeepsFramed(s: State)
    requires Framed(s) && !s.closed && s.reader.ReadBody?
    ensures Framed(ReadStep(s)) && ReadStep(s).reader.Deliver?
  {
    var k := |s.popped|;
    var len := s.reader.len;
    assert s.queue[..len] == s.log[k].body && s.queue[len..] == Flatten(s.log[k + 1..]);
  }

  lemma DeliverKeepsFramed(s: State)
    requires Framed(s) && !s.closed && s.reader.Deliver?
    ensures Framed(ReadStep(s))
  {
    var k := |s.popped|;
    assert s.log[k..k + 1][0] == s.log[k];
    assert s.log[k + 1..k + 1] == [];
  }

  lemma ReadKeepsFramed(s: State)
    requires Framed(s) && Sound(s.log)
    ensures Framed(ReadStep(s))
  {
    hide Le, FromLe, Flatten;
    match s.reader {
      case ReadLen => ReadLenKeepsFramed(s);
      case ReadBody(_) => ReadBodyKeepsFramed(s);
      case Deliver(_) => DeliverKeepsFramed(s);
      case _ =>
    }
  }

  lemma NextKeepsFramed(s: State, a: Action)
    requires Framed(s) && Sound(s.log)
    ensures Framed(Next(s, a))
  {
    hide Le, FromLe, Flatten;
    var s' := Next(s, a);
    if a.Push? && s'.log != s.log {
      AppendKeepsFramed(s, s', Data(a.body));
    } else if a.CloseRing? && s'.log != s.log {
      AppendKeepsFramed(s, s', Close);
    } else if a.Read? {
      ReadKeepsFramed(s);
    }
  }

  lemma NextGrowsLog(s: State, a: Action)
    ensures s.log <= Next(s, a).log
    ensures Fits(s) ==> Fits(Next(s, a))
  {
    hide Le, FromLe, Flatten;
  }

  lemma NextKeepsWakeful(s: State, a: Action)
    requires Wakeful(s) && StopsForCause(s)
    ensures Wakeful(Next(s, a)) && StopsForCause(Next(s, a))
  {
    hide Le, FromLe, Flatten;
  }

  lemma NextKeepsInv(s: State, a: Action)
    requires Inv(s)
    ensures Inv(Next(s, a))
  {
    hide Le, FromLe, Flatten, Framed, Next;
    var s' := Next(s, a);
    NextGrowsLog(s, a);
    NextKeepsWakeful(s, a);
    if Sound(s'.log) {
      assert Sound(s.log) by {
        assert forall i | 0 <= i < |s.log| :: s.log[i] == s'.log[i];
      }
      NextKeepsFramed(s, a);
    }
  }

  // ----- Whole runs -----

  lemma {:induction false} RunKeepsInv(capacity: nat, actions: seq<Action>)
    ensures Inv(Run(Init(capacity), actions))
    ensures Run(Init(capacity), actions).capacity == capacity
  {
    if actions == [] {
      var s := Init(capacity);
      assert s.log[0..0] == [];
    } else {
      var n := |actions| - 1;
      RunKeepsInv(capacity, actions[..n]);
      NextKeepsInv(Run(Init(capacity), actions[..n]), actions[n]);
      NextKeepsCapacity(Run(Init(capacity), actions[..n]), actions[n]);
    }
  }

  lemma NextKeepsCapacity(s: State, a: Action)
    ensures Next(s, a).capacity == s.capacity
  {
  }

  /** No lost wakeup: in every run, over every interleaving of producers and reader, bytes in the ring
      of a reader past its last empty pop mean the counter is positive or a notify is still to come. */
  lemma NoLostWakeup(capacity: nat, actions: seq<Action>)
    ensures Wakeful(Run(Init(capacity), actions))
  {
    RunKeepsInv(capacity, actions);
  }

  /** Frames of a ring of at most 2^32 bytes cannot be mistaken for a sentinel. */
  lemma SmallRingSound(s: State)
    requires Fits(s) && s.capacity <= U32_MAX + 1
    ensures Sound(s.log)
  {
  }

  lemma {:induction false} TakenPrefix(popped: seq<Bytes>, log: seq<Event>)
    requires |popped| <= |log| && forall i | 0 <= i < |popped| :: log[i] == Data(popped[i])
    ensures popped <= BeforeClose(log)
    ensures (|popped| < |log| && log[|popped|].Close?) || |popped| == |log| ==> popped == BeforeClose(log)
  {
    if popped != [] {
      assert log[0] == Data(popped[0]);
      forall i | 0 <= i < |popped[1..]| ensures log[1..][i] == Data(popped[1..][i]) {
        assert log[i + 1] == Data(popped[i + 1]);
      }
      TakenPrefix(popped[1..], log[1..]);
      assert popped == [popped[0]] + popped[1..];
    }
  }

  /** What framing means for a reader: it takes the accepted frames in order, never a partial one, stops
      taking at the first sentinel, and marks itself closed only there. */
  ghost predicate Fifo(s: State) {
    && s.popped <= BeforeClose(s.log)
    && (s.reader.Deliver? ==> s.popped + [s.reader.body] <= BeforeClose(s.log))
    && (s.reader.ReadBody? ==> s.reader.len <= |s.queue|)
    && (s.reader.ReadLen? ==> s.queue == [] || FRAME_LEN_BYTES <= |s.queue|)
    && (s.closed ==> s.popped == BeforeClose(s.log) && Close in s.log)
  }

  lemma FramedIsFifo(s: State)
    requires Framed(s)
    ensures Fifo(s)
  {
    var k := |s.popped|;
    hide Le;
    TakenPrefix(s.popped, s.log);
    if s.closed {
      assert s.log[k..k + 1][0] == s.log[k];
    } else if s.reader.Deliver? {
      assert s.log[k..k + 1][0] == s.log[k];
      TakenPrefix(s.popped + [s.reader.body], s.log);
    } else if s.reader.ReadLen? && k < |s.log| {
      FlattenFront(s.log[k..]);
    }
  }

  /** Ring FIFO with several producers, over every run of a ring of at most 2^32 bytes. */
  lemma RingFifo(capacity: nat, actions: seq<Action>)
    requires capacity <= U32_MAX + 1
    ensures var s := Run(Init(capacity), actions); Framed(s) && Fifo(s)
  {
    RunKeepsInv(capacity, actions);
    var s := Run(Init(capacity), actions);
    SmallRingSound(s);
    FramedIsFifo(s);
  }

  /** What accepted and not yet read events take: whole frames, and the body whose length was just read. */
  ghost function UnreadBytes(s: State): nat
    requires |s.popped| + InHand(s) <= |s.log|
  {
    Size(s.log[|s.popped| + InHand(s)..]) + if s.reader.ReadBody? && !s.closed then s.reader.len else 0
  }

  lemma {:induction false} WithinCapacity(capacity: nat, actions: seq<Action>)
    ensures |Run(Init(capacity), actions).queue| <= capacity
  {
    if actions != [] {
      var n := |actions| - 1;
      WithinCapacity(capacity, actions[..n]);
      RunKeepsInv(capacity, actions[..n]);
      hide Inv, Run, FromLe, Le;
      NextWithinCapacity(Run(Init(capacity), actions[..n]), actions[n]);
    }
  }

  lemma NextWithinCapacity(s: State, a: Action)
    requires |s.queue| <= s.capacity
    ensures |Next(s, a).queue| <= s.capacity
  {
    hide FromLe;
  }

  /** The ring is as full as what is still to be read: in every run, the queue takes exactly the bytes of the events
      accepted and not yet read, and never more than the capacity. */
  lemma RingOccupancy(capacity: nat, actions: seq<Action>)
    requires capacity <= U32_MAX + 1
    ensures var s := Run(Init(capacity), actions);
            |s.popped| + InHand(s) <= |s.log| && |s.queue| == UnreadBytes(s) <= capacity
  {
    RingFifo(capacity, actions);
    WithinCapacity(capacity, actions);
    hide Run, Framed, Fifo;
    FramedOccupancy(Run(Init(capacity), actions));
  }

  lemma FramedOccupancy(s: State)
    requires Framed(s)
    ensures |s.popped| + InHand(s) <= |s.log| && |s.queue| == UnreadBytes(s)
  {
    hide Flatten, Size, Taken;
    FlattenSize(s.log[|s.popped| + InHand(s)..]);
  }

  /** Whether a push is taken depends on room alone: it is logged exactly when its length has a 32-bit prefix and four
      bytes and the body fit beside what is still to be read. */
  lemma PushLoggedIff(capacity: nat, actions: seq<Action>, p: nat, body: Bytes)
    requires capacity <= U32_MAX + 1 && p !in Run(Init(capacity), actions).notifying
    ensures var s := Run(Init(capacity), actions);
            && |s.popped| + InHand(s) <= |s.log|
            && Run(Init(capacity), actions + [Push(p, body)]).log ==
               if |body| <= 0xFFFF_FFFF && UnreadBytes(s) + 4 + |body| <= capacity then s.log + [Data(body)] else s.log
  {
    var s := Run(Init(capacity), actions);
    assert (actions + [Push(p, body)])[..|actions|] == actions;
    assert Run(Init(capacity), actions + [Push(p, body)]) == Next(s, Push(p, body));
    RingOccupancy(capacity, actions);
    RunKeepsInv(capacity, actions);
    PushOutcome(s.queue, s.capacity, body);
    hide Run, PushFrame, Inv;
  }

  /** A reader that marks itself closed has met a sentinel some close call wrote. */
  ghost predicate ClosedForCause(capacity: nat) {
    forall actions :: Run(Init(capacity), actions).closed ==> Close in Run(Init(capacity), actions).log
  }

  /** The sentinel is unambiguous exactly for rings too small to hold a frame of 2^32 - 1 bytes;
      a power of two meets this if and only if it is at most 2^32. */
  lemma SentinelUnambiguous(capacity: nat)
    ensures ClosedForCause(capacity) <==> capacity < FRAME_LEN_BYTES + CLOSE_SENTINEL
  {
    if capacity < FRAME_LEN_BYTES + CLOSE_SENTINEL {
      forall actions ensures Run(Init(capacity), actions).closed ==> Close in Run(Init(capacity), actions).log {
        RunKeepsInv(capacity, actions);
        var s := Run(Init(capacity), actions);
        assert Sound(s.log);
        FramedIsFifo(s);
      }
    } else {
      var body: Bytes := seq(CLOSE_SENTINEL, _ => 0);
      AmbiguousFrame(capacity, body);
    }
  }

  lemma AmbiguousFrame(capacity: nat, body: Bytes)
    requires |body| == CLOSE_SENTINEL && FRAME_LEN_BYTES + |body| <= capacity
    ensures !ClosedForCause(capacity)
  {
    var actions := [Push(0, body), Read];
    var s0 := Init(capacity);
    var s1 := Next(s0, Push(0, body));
    var s2 := Next(s1, Read);
    assert s1.queue == Le(CLOSE_SENTINEL, FRAME_LEN_BYTES) + body;
    ReadNumber(s1.queue, CLOSE_SENTINEL, body);
    assert actions[..1] == [Push(0, body)] && actions[..1][..0] == [];
    assert Run(s0, actions[..1]) == s1;
    assert Run(s0, actions) == s2;
    assert s2.closed && s2.log == [Data(body)];
  }

  // ----- Progress -----

  function Phase(r: Reader): nat {
    match r
    case ReadLen => 2
    case ReadBody(_) => 4
    case Deliver(_) => 3
    case CheckClosed => 1
    case Parked => 0
    case Stopped => 0
  }

  /** Ring bytes, a pending wakeup and the reader's phase, weighed so that every step pays for itself. */
  function Measure(s: State): nat {
    8 * |s.queue| + (if s.counter > 0 then 8 else 0) + Phase(s.reader)
  }

  /** The reader has nothing left to do until somebody notifies it. */
  predicate Quiet(s: State) {
    s.reader.Stopped? || (s.reader.Parked? && s.counter == 0)
  }

  lemma ReadProgress(s: State)
    requires !Quiet(s)
    ensures Measure(ReadStep(s)) < Measure(s)
  {
    hide FromLe;
  }

  /** The reader left alone until it is quiet. */
  function Settle(s: State): State
    decreases Measure(s)
  {
    if Quiet(s) then s
    else
      ReadProgress(s);
      Settle(ReadStep(s))
  }

  lemma FlattenEmpty(events: seq<Event>)
    requires Flatten(events) == []
    ensures events == []
  {
    if events != [] {
      FlattenFront(events);
    }
  }

  /** Bytes in the ring of a reader past its last empty pop mean a wakeup that has already arrived. */
  predicate Awake(s: State) {
    (s.reader.CheckClosed? || s.reader.Parked?) && !s.closed && s.queue != [] ==> s.counter > 0
  }

  lemma AwakeWhenNotified(s: State)
    requires Inv(s) && (s.notifying == {} || s.counter > 0)
    ensures Awake(s)
  {
  }

  lemma ReadKeepsAwake(s: State)
    requires Framed(s) && Sound(s.log) && Awake(s)
    ensures Awake(ReadStep(s))
  {
    hide Le, FromLe;
    if s.reader.ReadLen? {
      FramedIsFifo(s);
    } else if s.reader.ReadBody? && !s.closed {
      ReadBodyKeepsFramed(s);
    }
  }

  lemma QuietMeansDrained(s: State)
    requires Inv(s) && Framed(s) && s.linked && Awake(s) && Quiet(s)
    ensures s.popped == BeforeClose(s.log)
    ensures if Close in s.log then s.reader.Stopped? && s.closed else s.reader.Parked? && s.queue == []
  {
    FramedIsFifo(s);
    if s.reader.Parked? {
      FlattenEmpty(s.log[|s.popped|..]);
      TakenPrefix(s.popped, s.log);
      forall i | 0 <= i < |s.log| ensures s.log[i].Data? {
        assert s.log[i] == Data(s.popped[i]);
      }
    }
  }

  lemma SameLog(s: State)
    ensures ReadStep(s).log == s.log && ReadStep(s).linked == s.linked && ReadStep(s).notifying == s.notifying
  {
    hide FromLe;
  }

  lemma {:induction false} RunFromFront(s: State, a: Action, rest: seq<Action>)
    ensures Run(s, [a] + rest) == Run(Next(s, a), rest)
  {
    hide Next;
    var actions := [a] + rest;
    var n := |rest|;
    if n == 0 {
      assert actions == [a] && actions[..0] == [];
    } else {
      assert actions[..n] == [a] + rest[..n - 1];
      RunFromFront(s, a, rest[..n - 1]);
    }
  }

  /** With no further writes, the ring file in place and some wakeup delivered (which it is when no notify is
      outstanding), the reader finishes by itself, in finitely many of its own steps: it has delivered every
      frame before the first sentinel, and is parked on an empty ring if there was none, stopped if there was one. */
  lemma {:induction false} DrainProgress(s: State) returns (steps: seq<Action>)
    requires Inv(s) && Sound(s.log) && s.linked && Awake(s)
    ensures (forall a | a in steps :: a == Read) && Run(s, steps) == Settle(s)
    ensures var z := Settle(s);
            && z.log == s.log && z.popped == BeforeClose(s.log)
            && if Close in s.log then z.reader.Stopped? && z.closed
               else z.reader.Parked? && z.queue == [] && z.counter == 0
    decreases Measure(s)
  {
    hide FromLe, Flatten, Le, Holds, Inv;
    assert Framed(s) by { InvFramed(s); }
    if Quiet(s) {
      QuietMeansDrained(s);
      steps := [];
    } else {
      var s' := ReadStep(s);
      assert s' == Next(s, Read);
      NextKeepsInv(s, Read);
      SameLog(s);
      ReadProgress(s);
      ReadKeepsAwake(s);
      hide ReadStep, Next, Awake;
      var rest := DrainProgress(s');
      steps := [Read] + rest;
      RunFromFront(s, Read, rest);
    }
  }

  lemma InvFramed(s: State)
    requires Inv(s) && Sound(s.log)
    ensures Framed(s)
  {
  }

  /** A reader without a ring file stops as soon as it runs. */
  lemma {:induction false} UnlinkedStops(s: State)
    requires !s.linked && !(s.reader.Parked? && s.counter == 0)
    ensures Settle(s).reader.Stopped?
    decreases Measure(s)
  {
    if !Quiet(s) {
      ReadProgress(s);
      SameLog(s);
      NeverParksUnlinked(s);
      hide ReadStep;
      UnlinkedStops(ReadStep(s));
    }
  }

  lemma NeverParksUnlinked(s: State)
    requires !s.linked && !Quiet(s)
    ensures !ReadStep(s).reader.Parked?
  {
    hide FromLe;
  }

  /** Closing stops the reader, whatever other notifies are outstanding, exactly when the ring had room for the
      sentinel, already held one, or has lost its file; a refused sentinel leaves the reader parked, with the ring
      drained and no wakeup pending. */
  lemma CloseStopsReader(s: State, p: nat)
    requires Inv(s) && Sound(s.log) && p !in s.notifying
    ensures var z := Settle(Next(Next(s, CloseRing(p)), Notify(p)));
            && (z.reader.Stopped? <==> |s.queue| + FRAME_LEN_BYTES <= s.capacity || Close in s.log || !s.linked)
            && (!z.reader.Stopped? ==>
                  z.reader.Parked? && z.counter == 0 && z.queue == [] && z.popped == BeforeClose(s.log))
  {
    hide Settle, Inv, Le;
    var s1 := Next(s, CloseRing(p));
    var s2 := Next(s1, Notify(p));
    NextKeepsInv(s, CloseRing(p));
    NextKeepsInv(s1, Notify(p));
    CloseEffect(s, p);
    NotifyEffect(s1, p);
    assert s2.log == if |s.queue| + FRAME_LEN_BYTES <= s.capacity then s.log + [Close] else s.log;
    AwakeWhenNotified(s2);
    if s.linked {
      var _ := DrainProgress(s2);
    } else {
      UnlinkedStops(s2);
    }
  }

  /** The failing case, in a run: a frame that fills the ring leaves no room for the sentinel, and the reader ends
      parked on an empty ring. */
  lemma RefusedClose(body: Bytes)
    requires |body| == 60
    ensures var s := Run(Init(64), [Push(0, body), Notify(0)]);
            var z := Settle(Next(Next(s, CloseRing(0)), Notify(0)));
            s.linked && z.reader.Parked? && z.queue == [] && z.counter == 0 && z.popped == [body]
  {
    hide Settle, Le;
    var actions := [Push(0, body), Notify(0)];
    var s1 := Next(Init(64), Push(0, body));
    var s := Next(s1, Notify(0));
    assert actions[..1] == [Push(0, body)] && actions[..1][..0] == [];
    assert Run(Init(64), actions[..1]) == s1;
    assert Run(Init(64), actions) == s;
    RunKeepsInv(64, actions);
    assert s.log == [Data(body)] && |s.queue| == 64;
    assert BeforeClose(s.log) == [body] by { assert s.log[1..] == []; }
    CloseStopsReader(s, 0);
  }

  // ----- What each action leaves alone -----

  lemma PushEffect(s: State, p: nat, body: Bytes)
    requires p !in s.notifying && PushFrame(s.queue, s.capacity, body).Ok?
    ensures var s' := Next(s, Push(p, body));
            && s'.log == s.log + [Data(body)] && s'.notifying == s.notifying + {p}
            && s'.popped == s.popped && s'.capacity == s.capacity && s'.linked == s.linked
  {
    hide Le;
  }

  lemma CloseEffect(s: State, p: nat)
    requires p !in s.notifying
    ensures var s' := Next(s, CloseRing(p));
            && (s'.log == s.log || s'.log == s.log + [Close]) && s'.notifying == s.notifying + {p}
            && s'.popped == s.popped && s'.capacity == s.capacity && s'.linked == s.linked
  {
    hide Le;
  }

  lemma NotifyEffect(s: State, p: nat)
    requires p in s.notifying
    ensures var s' := Next(s, Notify(p));
            && s'.log == s.log && s'.notifying == s.notifying - {p}
            && s'.popped == s.popped && s'.capacity == s.capacity && s'.linked == s.linked
  {
  }

  lemma ReadEffect(s: State)
    ensures var s' := Next(s, Read);
            && s'.log == s.log && s'.notifying == s.notifying && s'.capacity == s.capacity && s'.linked == s.linked
            && s'.popped == if s.reader.Deliver? then s.popped + [s.reader.body] else s.popped
  {
    hide FromLe;
  }

  lemma UnlinkEffect(s: State)
    ensures Next(s, Unlink) == s.(linked := false)
  {
  }

  lemma OnlyUnlinkUnlinks(s: State, a: Action)
    ensures Next(s, a).linked == (s.linked && !a.Unlink?)
  {
    hide FromLe, Le;
  }
}
