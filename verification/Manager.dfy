/** The connection manager run by one task at a time: the objects it updates, operation by operation. */
module Manager {
  import opened Bytes
  import opened Types
  import opened Framing
  import Codec
  import opened Filter
  import opened Ring

  datatype Provisioned = Existing(token: SlotToken) | Created(token: SlotToken)

  // ----- One connection, as seen from its slot -----

  /** Whether the slot still holds the connection, and what the connection's id, filter, clock and ring are. */
  datatype View = View(
    held: bool,
    id: nat,
    filter: SubscriptionFilter,
    lastSeenMs: nat,
    queued: Bytes,
    woken: bool,
    capacity: nat)

  predicate StaleAt(v: View, now: nat) {
    Stale(v.lastSeenMs, now)
  }

  /** A slot without a connection, or with a stale one. */
  predicate Free(v: Option<View>, now: nat) {
    v.None? || StaleAt(v.value, now)
  }

  /** `r` is the first free slot, or none is free. */
  ghost predicate FirstFree(slots: seq<Option<View>>, nows: seq<nat>, r: Option<nat>)
    requires |slots| == |nows| == SLOTS
  {
    match r
    case None => forall i | 0 <= i < SLOTS :: !Free(slots[i], nows[i])
    case Some(k) => k < SLOTS && Free(slots[k], nows[k]) && forall i | 0 <= i < k :: !Free(slots[i], nows[i])
  }

  /** Evicted: out of its slot, with the sentinel in its ring if that fitted, and its reader notified. */
  function Evicted(v: View): View {
    var sentinel := if |v.queued| + 4 <= v.capacity then [0xFF, 0xFF, 0xFF, 0xFF] else [];
    v.(held := false, queued := v.queued + sentinel, woken := true)
  }

  /** The ring has room for this frame beside what is queued. */
  predicate HasRoom(v: View, frame: Bytes) {
    |frame| <= 0xFFFF_FFFF && |v.queued| + 4 + |frame| <= v.capacity
  }

  /** What one dispatch makes of a connection: a stale one is evicted, one that does not match is untouched, one
      with room has the frame exactly once and is notified, and one without room is evicted. */
  function Dispatched(env: Env, u: Update, frame: Bytes, now: nat, v: View): View {
    if StaleAt(v, now) then Evicted(v)
    else if !Matches(env, v.filter, u) then v
    else if HasRoom(v, frame) then
      v.(queued := v.queued + FrameBytes(frame), woken := true)
    else Evicted(v)
  }

  /** Seen within thirty seconds, and with room if it matches. */
  predicate Stays(env: Env, u: Update, frame: Bytes, now: nat, v: View) {
    && now <= v.lastSeenMs + 30_000
    && (Matches(env, v.filter, u) ==> |frame| <= 0xFFFF_FFFF && |v.queued| + 4 + |frame| <= v.capacity)
  }

  /** What counts as silent, as evicted and as having room, in numbers: nothing but the clock decides whether a
      matching connection is tried, and nothing but free bytes whether it gets the frame. */
  lemma DispatchedCases(env: Env, u: Update, frame: Bytes, now: nat, v: View)
    ensures var w := Dispatched(env, u, frame, now, v);
            var evicted := now > v.lastSeenMs + 30_000
                           || (Matches(env, v.filter, u)
                               && (|frame| > 0xFFFF_FFFF || |v.queued| + 4 + |frame| > v.capacity));
            && w.id == v.id && w.filter == v.filter && w.lastSeenMs == v.lastSeenMs && w.capacity == v.capacity
            && w.held == (v.held && !evicted)
            && w.woken == (v.woken || evicted || Matches(env, v.filter, u))
            && w.queued == v.queued + (if evicted then
                                         if |v.queued| + 4 <= v.capacity then [0xFF, 0xFF, 0xFF, 0xFF] else []
                                       else if Matches(env, v.filter, u) then Le(|frame|, 4) + frame
                                       else [])
            && (w.held <==> v.held && Stays(env, u, frame, now, v))
            && (Free(Some(v), now) <==> now > v.lastSeenMs + 30_000) && Free(None, now)
  {
    hide Matches, Le;
    assert v.queued + [] == v.queued;
  }

  /** A new connection: nothing queued, nobody woken. */
  function NewView(id: nat, filter: SubscriptionFilter, now: nat, capacity: nat): View {
    View(true, id, filter, now, [], false, capacity)
  }

  /** What a subscription makes of the table: the connection it names is renewed, or one slot, of what is left of the
      table without a stale connection that it names, takes a new connection or is left empty. */
  ghost predicate UpsertedTable(env: Env, request: SubscriptionRequest, capacity: nat, keys: seq<nat>, now: nat,
                                before: seq<Option<View>>, looked: seq<Option<View>>, nextId: nat,
                                r: Result<Provisioned>, slot: Option<nat>, after: seq<Option<View>>)
    requires |before| == |looked| == |after| == SLOTS
  {
    match slot
    case Some(k) =>
      && k < SLOTS && after == looked[k := after[k]]
      && (match r
          case Ok(p) =>
            && p == Created(SlotToken(k, nextId)) && after[k].Some?
            && after[k].value == NewView(nextId, FromRequest(env, request, keys), now, after[k].value.capacity)
            && capacity <= after[k].value.capacity < 2 * capacity
          case Err(_) => after[k].None?)
    case None =>
      match r
      case Ok(p) =>
        var i := p.token.slotIndex;
        && p.Existing? && request.token == Some(p.token) && i < SLOTS
        && before[i].Some? && before[i].value.id == p.token.generation
        && after == before[i := Some(Renewed(env, before[i].value, request, keys, now))]
      case Err(_) => after == looked
  }

  lemma RenewalTable(env: Env, request: SubscriptionRequest, capacity: nat, keys: seq<nat>, now: nat,
                     before: seq<Option<View>>, looked: seq<Option<View>>, nextId: nat, token: SlotToken,
                     after: seq<Option<View>>)
    requires |before| == |looked| == |after| == SLOTS && token.slotIndex < SLOTS && request.token == Some(token)
    requires before[token.slotIndex].Some? && before[token.slotIndex].value.id == token.generation
    requires var i := token.slotIndex; after == before[i := Some(Renewed(env, before[i].value, request, keys, now))]
    ensures UpsertedTable(env, request, capacity, keys, now, before, looked, nextId, Ok(Existing(token)), None, after)
  {
  }

  lemma InstallTable(env: Env, request: SubscriptionRequest, capacity: nat, keys: seq<nat>, now: nat,
                     before: seq<Option<View>>, looked: seq<Option<View>>, nextId: nat, r: Result<Provisioned>,
                     slot: Option<nat>, after: seq<Option<View>>)
    requires |before| == |looked| == |after| == SLOTS
    requires slot.None? ==> r.Err? && after == looked
    requires slot.Some? ==>
               && slot.value < SLOTS && after == looked[slot.value := after[slot.value]]
               && if r.Ok? then
                    && r == Ok(Created(SlotToken(slot.value, nextId))) && after[slot.value].Some?
                    && after[slot.value].value
                       == NewView(nextId, FromRequest(env, request, keys), now, after[slot.value].value.capacity)
                    && capacity <= after[slot.value].value.capacity < 2 * capacity
                  else after[slot.value].None?
    ensures UpsertedTable(env, request, capacity, keys, now, before, looked, nextId, r, slot, after)
  {
  }

  /** The connection as a subscription renews it. */
  ghost function Renewed(env: Env, v: View, request: SubscriptionRequest, keys: seq<nat>, now: nat): View {
    v.(lastSeenMs := now, filter := WithRequest(env, v.filter, request, keys))
  }

  /** The bytes a dispatch pushes for an update it can encode. */
  function FrameOf(env: Env, u: Update, stamp: U64): Bytes {
    match Codec.EncodeUpdate(env, u, stamp)
    case Ok((header, payload)) => header + payload
    case Err(_) => []
  }

  class ManagedConnection {
    const slotIndex: nat
    const connectionId: nat
    const sink: SlotSink
    var filter: SubscriptionFilter
    var lastSeenMs: nat

    constructor (slotIndex: nat, connectionId: nat, sink: SlotSink, filter: SubscriptionFilter, now: nat)
      ensures this.slotIndex == slotIndex && this.connectionId == connectionId && this.sink == sink
      ensures this.filter == filter && lastSeenMs == now
    {
      this.slotIndex := slotIndex;
      this.connectionId := connectionId;
      this.sink := sink;
      this.filter := filter;
      lastSeenMs := now;
    }

    predicate IsStale(now: nat)
      reads this
    {
      Stale(lastSeenMs, now)
    }

    ghost function Footprint(): set<object> {
      {this, sink.ring, sink.ring.queue, sink.wakeup}
    }
  }

  class ConnectionManager {
    const connections: array<ManagedConnection?>
    var nextConnectionId: nat

    ghost predicate Valid()
      reads this, connections
    {
      && connections.Length == SLOTS
      && (forall i | 0 <= i < SLOTS && connections[i] != null ::
            connections[i].slotIndex == i && connections[i].connectionId < nextConnectionId)
      && (forall i, j | 0 <= i < j < SLOTS && connections[i] != null && connections[j] != null ::
            connections[i].connectionId != connections[j].connectionId
            && connections[i].Footprint() !! connections[j].Footprint())
    }

    /** The objects of the installed connections. */
    ghost function Objects(): set<object>
      reads connections
    {
      set i, o | 0 <= i < connections.Length && connections[i] != null && o in connections[i].Footprint() :: o
    }

    ghost function ViewOf(i: nat, c: ManagedConnection): View
      requires i < connections.Length
      reads connections, c.Footprint()
    {
      View(connections[i] == c, c.connectionId, c.filter, c.lastSeenMs, c.sink.ring.queue.data,
           c.sink.wakeup.counter > 0, c.sink.ring.queue.capacity)
    }

    constructor ()
      ensures Valid() && fresh(connections) && nextConnectionId == 1
      ensures forall i | 0 <= i < SLOTS :: connections[i] == null
    {
      connections := new ManagedConnection?[SLOTS](_ => null);
      nextConnectionId := 1;
    }

    /** Closes a stale connection and takes it out of slot `i` if it still is there. */
    method MaybeCleanupStaleSlot(i: nat, c: ManagedConnection, now: nat) returns (gone: bool)
      requires Valid() && i < SLOTS
      modifies connections, c.Footprint()
      ensures Valid() && nextConnectionId == old(nextConnectionId)
      ensures gone == (now > old(c.lastSeenMs) + 30_000) == StaleAt(old(ViewOf(i, c)), now)
      ensures ViewOf(i, c) == if gone then Evicted(old(ViewOf(i, c))) else old(ViewOf(i, c))
      ensures connections[i] == if gone && old(connections[i]) == c then null else old(connections[i])
      ensures forall j | 0 <= j < SLOTS && j != i :: connections[j] == old(connections[j])
    {
      if !c.IsStale(now) {
        return false;
      }
      c.sink.CloseSink();
      if connections[i] == c {
        connections[i] := null;
      }
      return true;
    }

    /** Evicts the occupant of a slot if it still is the connection with this id. */
    method CleanupIfSame(i: nat, id: nat)
      requires Valid() && i < SLOTS
      modifies connections
      modifies if connections[i] != null && connections[i].connectionId == id then connections[i].Footprint() else {}
      ensures Valid() && nextConnectionId == old(nextConnectionId)
      ensures var c := old(connections[i]);
              if c != null && c.connectionId == id
              then connections[i] == null && ViewOf(i, c) == Evicted(old(ViewOf(i, c)))
              else connections[i] == c && (c != null ==> ViewOf(i, c) == old(ViewOf(i, c)))
      ensures forall j | 0 <= j < SLOTS && j != i :: connections[j] == old(connections[j])
    {
      var current := connections[i];
      if current != null && current.connectionId == id {
        current.sink.CloseSink();
        connections[i] := null;
      }
    }

    /** Pushes to a connection that may have left its slot in the meantime; if the push fails, only an occupant
        with the connection's own id is evicted, and that is the connection itself. */
    method PushToEntry(c: ManagedConnection, header: Bytes, payload: Bytes)
      requires Valid() && c.slotIndex < SLOTS
      requires Names(SlotToken(c.slotIndex, c.connectionId)) ==> connections[c.slotIndex] == c
      modifies connections, c.Footprint()
      ensures Valid() && nextConnectionId == old(nextConnectionId)
      ensures var i, v := c.slotIndex, old(ViewOf(c.slotIndex, c));
              if |header + payload| <= 0xFFFF_FFFF && |v.queued| + 4 + |header + payload| <= v.capacity then
                && ViewOf(i, c) == v.(queued := v.queued + FrameBytes(header + payload), woken := true)
                && connections[i] == old(connections[i])
              else
                && ViewOf(i, c) == (if v.held then Evicted(v) else v)
                && connections[i] == if v.held then null else old(connections[i])
      ensures forall j | 0 <= j < SLOTS && j != c.slotIndex :: connections[j] == old(connections[j])
    {
      hide Le;
      var ok := c.sink.TryPush(header, payload);
      if !ok {
        CleanupIfSame(c.slotIndex, c.connectionId);
      }
    }

    /** One turn of the dispatch loop; `frame` is the encoding shared by all recipients so far. */
    method DispatchSlot(i: nat, env: Env, u: Update, stamp: U64, now: nat, frame: Option<(Bytes, Bytes)>)
      returns (next: Option<(Bytes, Bytes)>, failed: bool)
      requires Valid() && i < SLOTS
      requires frame.Some? ==> Codec.EncodeUpdate(env, u, stamp) == Ok(frame.value)
      modifies connections, if connections[i] == null then {} else connections[i].Footprint()
      ensures Valid() && nextConnectionId == old(nextConnectionId)
      ensures next.Some? ==> Codec.EncodeUpdate(env, u, stamp) == Ok(next.value)
      ensures forall j | 0 <= j < SLOTS && j != i :: connections[j] == old(connections[j])
      ensures connections[i] == null || connections[i] == old(connections[i])
      ensures var c := old(connections[i]);
              c != null ==>
                if failed then
                  && Codec.EncodeUpdate(env, u, stamp).Err? && !StaleAt(old(ViewOf(i, c)), now)
                  && Matches(env, old(c.filter), u) && ViewOf(i, c) == old(ViewOf(i, c))
                else ViewOf(i, c) == Dispatched(env, u, FrameOf(env, u, stamp), now, old(ViewOf(i, c)))
      ensures old(connections[i]) == null ==> !failed
    {
      hide Codec.EncodeUpdate, Matches, FrameBytes, PushFrame;
      next := frame;
      var c := connections[i];
      if c == null {
        return next, false;
      }
      var gone := MaybeCleanupStaleSlot(i, c, now);
      if gone || !Matches(env, c.filter, u) {
        return next, false;
      }
      if next.None? {
        var encoded := Codec.EncodeUpdate(env, u, stamp);
        if encoded.Err? {
          return next, true;
        }
        next := Some(encoded.value);
      }
      PushToEntry(c, next.value.0, next.value.1);
      return next, false;
    }

    /** Fans one update out over the table in slot order, encoding it at most once, at its first match. What
        `Dispatched` says happens to every installed connection, and to nothing else. An update that cannot be
        encoded ends the dispatch at its first match, with nothing pushed. */
    method Dispatch(env: Env, u: Update, stamp: U64, nows: seq<nat>) returns (processed: nat)
      requires Valid() && |nows| == SLOTS
      modifies connections, Objects()
      ensures Valid() && nextConnectionId == old(nextConnectionId) && processed <= SLOTS
      ensures Codec.EncodeUpdate(env, u, stamp).Ok? ==> processed == SLOTS
      ensures processed < SLOTS ==>
                && old(connections[processed]) != null
                && !StaleAt(old(ViewOf(processed, connections[processed])), nows[processed])
                && Matches(env, old(connections[processed].filter), u)
      ensures forall i | 0 <= i < SLOTS && old(connections[i]) == null :: connections[i] == null
      ensures forall i | 0 <= i < processed && old(connections[i]) != null ::
                ViewOf(i, old(connections[i]))
                == Dispatched(env, u, FrameOf(env, u, stamp), nows[i], old(ViewOf(i, connections[i])))
      ensures forall i | processed <= i < SLOTS && old(connections[i]) != null ::
                ViewOf(i, old(connections[i])) == old(ViewOf(i, connections[i]))
      ensures forall i | 0 <= i < processed && old(connections[i]) != null ::
                connections[i] != null <==>
                  Stays(env, u, FrameOf(env, u, stamp), nows[i], old(ViewOf(i, connections[i])))
    {
      hide Codec.EncodeUpdate, Matches, FrameBytes, PushFrame, FrameOf, Dispatched, StaleAt, Stays;
      ghost var conns := connections[..];
      ghost var start := Snapshot();
      var frame: Option<(Bytes, Bytes)> := None;
      for i := 0 to SLOTS
        invariant Valid() && nextConnectionId == old(nextConnectionId)
        invariant frame.Some? ==> Codec.EncodeUpdate(env, u, stamp) == Ok(frame.value)
        invariant forall j | i <= j < SLOTS :: connections[j] == conns[j]
        invariant forall j | 0 <= j < SLOTS && connections[j] != null :: connections[j] == conns[j]
        invariant forall j | i <= j < SLOTS && conns[j] != null :: ViewOf(j, conns[j]) == start[j].value
        invariant forall j | 0 <= j < i && conns[j] != null ::
                    ViewOf(j, conns[j]) == Dispatched(env, u, FrameOf(env, u, stamp), nows[j], start[j].value)
        invariant forall j | 0 <= j < i && conns[j] != null ::
                    connections[j] != null <==> Stays(env, u, FrameOf(env, u, stamp), nows[j], start[j].value)
      {
        var failed;
        label before:
        frame, failed := DispatchSlot(i, env, u, stamp, nows[i], frame);
        forall j | 0 <= j < SLOTS && j != i && conns[j] != null
          ensures ViewOf(j, conns[j]) == old@before(ViewOf(j, conns[j]))
        {
        }
        forall j | 0 <= j < i && conns[j] != null
          ensures connections[j] != null <==> Stays(env, u, FrameOf(env, u, stamp), nows[j], start[j].value)
        {
        }
        if failed {
          return i;
        }
        if conns[i] != null {
          DispatchedCases(env, u, FrameOf(env, u, stamp), nows[i], start[i].value);
        }
      }
      processed := SLOTS;
    }

    // ----- Tokens, pings and subscriptions -----

    /** The token names the connection now in its slot. */
    ghost predicate Names(token: SlotToken)
      requires connections.Length == SLOTS
      reads connections
    {
      token.slotIndex < SLOTS && connections[token.slotIndex] != null
      && connections[token.slotIndex].connectionId == token.generation
    }

    ghost predicate NamedAt(token: Option<SlotToken>, i: nat)
      requires connections.Length == SLOTS
      reads connections
    {
      token.Some? && token.value.slotIndex == i && Names(token.value)
    }

    /** The token names a connection that is not stale. */
    ghost predicate Live(token: SlotToken, now: nat)
      requires connections.Length == SLOTS
      reads connections, Objects()
    {
      Names(token) && !StaleAt(ViewOf(token.slotIndex, connections[token.slotIndex]), now)
    }

    /** Finds a live connection by token, evicting it if it turns out to be stale. */
    method LookupByToken(token: SlotToken, now: nat) returns (c: ManagedConnection?)
      requires Valid()
      modifies connections, Objects()
      ensures Valid() && nextConnectionId == old(nextConnectionId)
      ensures c != null <==> old(Live(token, now))
      ensures c != null ==> c == old(connections[token.slotIndex])
      ensures Objects() <= old(Objects())
      ensures forall i | 0 <= i < SLOTS && old(connections[i]) != null && connections[i] == null ::
                old(connections[i]).Footprint() !! Objects()
      ensures forall i | 0 <= i < SLOTS ::
                connections[i] == if c == null && old(NamedAt(Some(token), i)) then null else old(connections[i])
      ensures forall i | 0 <= i < SLOTS && old(connections[i]) != null ::
                ViewOf(i, old(connections[i])) ==
                if i == token.slotIndex && old(Names(token)) && c == null then Evicted(old(ViewOf(i, connections[i])))
                else old(ViewOf(i, connections[i]))
      ensures var k, before := token.slotIndex, old(Snapshot());
              Snapshot() == if c == null && old(Names(token)) then before[k := None] else before
    {
      ghost var start := Snapshot();
      c := null;
      var i := token.slotIndex;
      if i < SLOTS && connections[i] != null && connections[i].connectionId == token.generation {
        var entry := connections[i];
        var gone := MaybeCleanupStaleSlot(i, entry, now);
        if !gone {
          c := entry;
        }
      }
      forall j | 0 <= j < SLOTS && (c != null || j != token.slotIndex || !old(Names(token)))
        ensures Snapshot()[j] == start[j]
      {
      }
    }

    method TouchPing(token: SlotToken, now: nat, touchedAt: nat) returns (ok: bool)
      requires Valid()
      modifies connections, Objects()
      ensures Valid() && nextConnectionId == old(nextConnectionId) && Objects() <= old(Objects())
      ensures ok == old(Live(token, now)) == Names(token)
      ensures ok ==> connections[token.slotIndex].lastSeenMs == touchedAt
      ensures forall i | 0 <= i < SLOTS && old(connections[i]) == null :: connections[i] == null
      ensures forall i | 0 <= i < SLOTS && old(connections[i]) != null ::
                ViewOf(i, old(connections[i])) ==
                var v := old(ViewOf(i, connections[i]));
                if i != token.slotIndex || !old(Names(token)) then v
                else if ok then v.(lastSeenMs := touchedAt)
                else Evicted(v)
      ensures var k, before := token.slotIndex, old(Snapshot());
              if !old(Names(token)) then Snapshot() == before
              else
                && before[k].Some?
                && Snapshot() == before[k := if ok then Some(before[k].value.(lastSeenMs := touchedAt)) else None]
    {
      var c := LookupByToken(token, now);
      ok := c != null;
      if ok {
        assert c in c.Footprint() && c in old(Objects());
        Stamp(c, touchedAt);
      }
    }

    /** Stamps an installed connection as seen. */
    method Stamp(c: ManagedConnection, now: nat)
      requires Valid() && c.slotIndex < SLOTS && connections[c.slotIndex] == c
      modifies c
      ensures Valid() && c.lastSeenMs == now && c.filter == old(c.filter)
      ensures var i, before := c.slotIndex, old(Snapshot());
              before[i].Some? && Snapshot() == before[i := Some(before[i].value.(lastSeenMs := now))]
    {
      ghost var start := Snapshot();
      c.lastSeenMs := now;
      forall i | 0 <= i < SLOTS && i != c.slotIndex
        ensures Snapshot()[i] == start[i]
      {
      }
    }

    /** The first slot that is empty or whose connection is stale, emptied if need be; none exactly when every
        slot holds a connection that is not stale. */
    method FindFreeSlot(nows: seq<nat>) returns (r: Option<nat>)
      requires Valid() && |nows| == SLOTS
      modifies connections, Objects()
      ensures Valid() && nextConnectionId == old(nextConnectionId)
      ensures FirstFree(old(Snapshot()), nows, r)
      ensures r.Some? ==> r.value < SLOTS && connections[r.value] == null
      ensures forall i | 0 <= i < SLOTS && r != Some(i) :: connections[i] == old(connections[i])
      ensures forall i | 0 <= i < SLOTS && old(connections[i]) != null ::
                ViewOf(i, old(connections[i])) ==
                if r == Some(i) then Evicted(old(ViewOf(i, connections[i]))) else old(ViewOf(i, connections[i]))
    {
      hide Evicted, StaleAt;
      ghost var conns := connections[..];
      ghost var start := Snapshot();
      for i := 0 to SLOTS
        invariant Valid() && nextConnectionId == old(nextConnectionId)
        invariant connections[..] == conns
        invariant forall j | 0 <= j < SLOTS && conns[j] != null :: ViewOf(j, conns[j]) == start[j].value
        invariant forall j | 0 <= j < i :: !Free(start[j], nows[j])
      {
        var existing := connections[i];
        if existing == null {
          assert Free(start[i], nows[i]);
          return Some(i);
        }
        label before:
        var gone := MaybeCleanupStaleSlot(i, existing, nows[i]);
        forall j | 0 <= j < SLOTS && j != i && conns[j] != null
          ensures ViewOf(j, conns[j]) == old@before(ViewOf(j, conns[j]))
        {
        }
        if gone && connections[i] == null {
          assert Free(start[i], nows[i]);
          return Some(i);
        }
      }
      return None;
    }

    /** The views of all installed connections. */
    ghost function Snapshot(): (s: seq<Option<View>>)
      requires connections.Length == SLOTS
      reads connections, Objects()
      ensures |s| == SLOTS
      ensures forall i | 0 <= i < SLOTS ::
                s[i] == if connections[i] == null then None else Some(ViewOf(i, connections[i]))
    {
      seq(SLOTS, i requires 0 <= i < SLOTS && connections.Length == SLOTS reads connections, Objects() =>
        if connections[i] == null then None else Some(ViewOf(i, connections[i])))
    }

    /** The slot holds a connection with this id and filter, last seen now, with a ring of the capacity asked for,
        rounded up to a power of two, that is still empty. */
    ghost predicate Installed(slot: nat, id: nat, filter: SubscriptionFilter, capacity: nat, now: nat)
      requires connections.Length == SLOTS && slot < SLOTS
      reads connections, Objects()
    {
      connections[slot] != null && connections[slot].connectionId == id
      && var v := ViewOf(slot, connections[slot]);
         && v == View(true, id, filter, now, [], false, v.capacity)
         && IsPowerOfTwo(v.capacity) && capacity <= v.capacity < 2 * capacity
    }

    lemma InstalledView(slot: nat, id: nat, filter: SubscriptionFilter, capacity: nat, now: nat)
      requires connections.Length == SLOTS && slot < SLOTS && Installed(slot, id, filter, capacity, now)
      ensures Names(SlotToken(slot, id))
      ensures Snapshot()[slot].Some?
      ensures Snapshot()[slot].value == NewView(id, filter, now, Snapshot()[slot].value.capacity)
      ensures capacity <= Snapshot()[slot].value.capacity < 2 * capacity
    {
    }

    /** A new connection with an empty ring of its own; `ioOk` tells whether the ring file and the event counter
        could be made. */
    static method Provision(slot: nat, id: nat, filter: SubscriptionFilter, capacity: nat, ioOk: bool, now: nat)
      returns (r: Result<ManagedConnection>)
      ensures r.Ok? <==> ioOk && capacity >= MIN_CAPACITY
      ensures r.Err? ==> r.error == ShmError
      ensures r.Ok? ==>
                var c := r.value;
                && fresh(c.Footprint()) && c.slotIndex == slot && c.connectionId == id
                && c.filter == filter && c.lastSeenMs == now && c.sink.wakeup.counter == 0
                && c.sink.ring.queue.data == []
                && IsPowerOfTwo(c.sink.ring.queue.capacity) && capacity <= c.sink.ring.queue.capacity < 2 * capacity
    {
      var ring := ShmRingProducer.Create(capacity, ioOk);
      if ring.Err? {
        return Err(ShmError);
      }
      var wakeup := new EventFd();
      var sink := new SlotSink(ring.value, wakeup);
      var c := new ManagedConnection(slot, id, sink, filter, now);
      return Ok(c);
    }

    /** Puts a new connection with an unused id in an empty slot, or fails and changes nothing. */
    method InstallAt(slot: nat, id: nat, filter: SubscriptionFilter, capacity: nat, ioOk: bool, now: nat)
      returns (ok: bool)
      requires Valid() && slot < SLOTS && connections[slot] == null && id < nextConnectionId
      requires forall i | 0 <= i < SLOTS && connections[i] != null :: connections[i].connectionId != id
      modifies connections
      ensures Valid() && ok == (ioOk && capacity >= MIN_CAPACITY)
      ensures if ok then Installed(slot, id, filter, capacity, now) && fresh(connections[slot].Footprint())
              else connections[slot] == null
      ensures forall i | 0 <= i < SLOTS && i != slot :: connections[i] == old(connections[i])
      ensures Snapshot() == old(Snapshot())[slot := Snapshot()[slot]]
    {
      ghost var start := Snapshot();
      var managed := Provision(slot, id, filter, capacity, ioOk, now);
      ok := managed.Ok?;
      if ok {
        connections[slot] := managed.value;
      }
      forall i | 0 <= i < SLOTS && i != slot
        ensures Snapshot()[i] == start[i]
      {
      }
    }

    /** Draws an id and then looks for a free slot. */
    method Reserve(nows: seq<nat>) returns (id: nat, found: Option<nat>)
      requires Valid() && |nows| == SLOTS
      modifies this, connections, Objects()
      ensures Valid() && id == old(nextConnectionId) && nextConnectionId == id + 1
      ensures forall i | 0 <= i < SLOTS && connections[i] != null :: connections[i].connectionId < id
      ensures FirstFree(old(Snapshot()), nows, found)
      ensures found.Some? ==> found.value < SLOTS && connections[found.value] == null
      ensures forall i | 0 <= i < SLOTS && found != Some(i) :: connections[i] == old(connections[i])
      ensures forall i | 0 <= i < SLOTS && old(connections[i]) != null ::
                ViewOf(i, old(connections[i])) ==
                if found == Some(i) then Evicted(old(ViewOf(i, connections[i]))) else old(ViewOf(i, connections[i]))
      ensures Snapshot() == match found { case Some(k) => old(Snapshot())[k := None] case None => old(Snapshot()) }
    {
      hide Evicted, Snapshot, FirstFree;
      ghost var start := Snapshot();
      id := nextConnectionId;
      nextConnectionId := nextConnectionId + 1;
      assert Snapshot() == start;
      found := FindFreeSlot(nows);
      forall i | 0 <= i < SLOTS && found != Some(i)
        ensures Snapshot()[i] == start[i]
      {
      }
    }

    /** Draws an id and installs a new connection in the first free slot. The retries of concurrent installs
        cannot happen here: the slot just found free is still empty. */
    method InstallFresh(env: Env, request: SubscriptionRequest, capacity: nat, ioOk: bool, nows: seq<nat>,
                        installedAt: nat, keys: seq<nat>) returns (r: Result<Provisioned>, ghost slot: Option<nat>)
      requires Valid() && |nows| == SLOTS
      modifies this, connections, Objects()
      ensures Valid() && nextConnectionId == old(nextConnectionId) + 1
      ensures FirstFree(old(Snapshot()), nows, slot) && (slot.None? <==> r == Err(SlotsExhausted))
      ensures slot.Some? ==>
                && slot.value < SLOTS
                && if ioOk && capacity >= MIN_CAPACITY then
                     && r == Ok(Created(SlotToken(slot.value, old(nextConnectionId))))
                     && Installed(slot.value, old(nextConnectionId), FromRequest(env, request, keys), capacity,
                                  installedAt)
                     && fresh(connections[slot.value].Footprint())
                   else r == Err(ShmError) && connections[slot.value] == null
      ensures forall i | 0 <= i < SLOTS && slot != Some(i) :: connections[i] == old(connections[i])
      ensures forall i | 0 <= i < SLOTS && old(connections[i]) != null ::
                ViewOf(i, old(connections[i])) ==
                if slot == Some(i) then Evicted(old(ViewOf(i, connections[i]))) else old(ViewOf(i, connections[i]))
      ensures slot.None? ==> Snapshot() == old(Snapshot())
      ensures slot.Some? ==> Snapshot() == old(Snapshot())[slot.value := Snapshot()[slot.value]]
    {
      hide Evicted, FromRequest, Snapshot, FirstFree, Installed, IsPowerOfTwo;
      ghost var conns := connections[..];
      ghost var start := Snapshot();
      var filter := BuildFromRequest(env, request, keys);
      assert Snapshot() == start;
      var id, found := Reserve(nows);
      slot := found;
      if found.None? {
        return Err(SlotsExhausted), slot;
      }
      label before:
      var ok := InstallAt(found.value, id, filter, capacity, ioOk, installedAt);
      forall i | 0 <= i < SLOTS && conns[i] != null
        ensures ViewOf(i, conns[i]) == old@before(ViewOf(i, conns[i]))
      {
      }
      r := if ok then Ok(Created(SlotToken(found.value, id))) else Err(ShmError);
      assert start[found.value := None][found.value := Snapshot()[found.value]]
             == start[found.value := Snapshot()[found.value]];
    }

    /** The installed connections, without the one the token names. */
    ghost function WithoutNamed(token: Option<SlotToken>): (s: seq<Option<View>>)
      requires connections.Length == SLOTS
      reads connections, Objects()
      ensures |s| == SLOTS
    {
      if token.Some? && Names(token.value) then Snapshot()[token.value.slotIndex := None] else Snapshot()
    }

    /** Stamps a connection as seen and adds a request to its filter. */
    method Renew(env: Env, request: SubscriptionRequest, c: ManagedConnection, now: nat, keys: seq<nat>)
      requires Valid() && c.slotIndex < SLOTS && connections[c.slotIndex] == c
      modifies c
      ensures Valid() && c.lastSeenMs == now && c.filter == WithRequest(env, old(c.filter), request, keys)
      ensures var i, before := c.slotIndex, old(Snapshot());
              && before[i].Some? && before[i].value.id == c.connectionId
              && Snapshot() == before[i := Some(Renewed(env, before[i].value, request, keys, now))]
    {
      hide WithRequest;
      ghost var start := Snapshot();
      c.lastSeenMs := now;
      c.filter := BuildWithRequest(env, c.filter, request, keys);
      forall i | 0 <= i < SLOTS && i != c.slotIndex
        ensures Snapshot()[i] == start[i]
      {
      }
    }

    /** Renews the connection the token names if it is live; a stale one is evicted. */
    method Resubscribe(env: Env, request: SubscriptionRequest, now: nat, stampedAt: nat, keys: seq<nat>)
      returns (found: Option<SlotToken>)
      requires Valid()
      modifies connections, Objects()
      ensures Valid() && nextConnectionId == old(nextConnectionId)
      ensures found == if request.token.Some? && old(Live(request.token.value, now)) then request.token else None
      ensures forall i | 0 <= i < SLOTS ::
                connections[i] == if found.None? && old(NamedAt(request.token, i)) then null else old(connections[i])
      ensures Objects() <= old(Objects())
      ensures found.None? ==> Snapshot() == old(WithoutNamed(request.token))
      ensures forall i | 0 <= i < SLOTS && old(connections[i]) != null ::
                ViewOf(i, old(connections[i])) ==
                var v := old(ViewOf(i, connections[i]));
                if !old(NamedAt(request.token, i)) then v
                else if found.None? then Evicted(v)
                else Renewed(env, v, request, keys, stampedAt)
      ensures found.Some? ==>
                var i, before := found.value.slotIndex, old(Snapshot());
                && i < SLOTS && before[i].Some? && before[i].value.id == found.value.generation
                && Snapshot() == before[i := Some(Renewed(env, before[i].value, request, keys, stampedAt))]
      ensures forall i | 0 <= i < SLOTS && old(connections[i]) != null && connections[i] == null ::
                old(connections[i]).Footprint() !! Objects()
    {
      hide WithRequest, StaleAt, Evicted;
      ghost var start := Snapshot();
      ghost var looked := WithoutNamed(request.token);
      found := None;
      if request.token.Some? {
        var c := LookupByToken(request.token.value, now);
        if c != null {
          assert c in c.Footprint() && c in old(Objects());
          assert Snapshot() == start;
          Renew(env, request, c, stampedAt, keys);
          return Some(SlotToken(c.slotIndex, c.connectionId));
        }
      }
      forall i | 0 <= i < SLOTS
        ensures Snapshot()[i] == looked[i]
      {
      }
    }

    /** The same as `InstallFresh`, with what it means for connections that have already left the table. */
    method InstallInstead(env: Env, request: SubscriptionRequest, capacity: nat, ioOk: bool, nows: seq<nat>,
                          stampedAt: nat, keys: seq<nat>, ghost conns: seq<ManagedConnection?>,
                          ghost before: seq<Option<View>>)
      returns (r: Result<Provisioned>, ghost slot: Option<nat>)
      requires Valid() && |nows| == |conns| == |before| == SLOTS
      requires forall i | 0 <= i < SLOTS && conns[i] != null && connections[i] == null ::
                 conns[i].Footprint() !! Objects()
      modifies this, connections, Objects()
      ensures Valid() && nextConnectionId == old(nextConnectionId) + 1
      ensures FirstFree(old(Snapshot()), nows, slot) && (slot.None? <==> r == Err(SlotsExhausted))
      ensures forall i | 0 <= i < SLOTS && slot != Some(i) :: connections[i] == old(connections[i])
      ensures forall i | 0 <= i < SLOTS && old(connections[i]) != null ::
                ViewOf(i, old(connections[i])) ==
                if slot == Some(i) then Evicted(old(ViewOf(i, connections[i]))) else old(ViewOf(i, connections[i]))
      ensures slot.Some? ==>
                && slot.value < SLOTS
                && if ioOk && capacity >= MIN_CAPACITY then
                     && r == Ok(Created(SlotToken(slot.value, old(nextConnectionId))))
                     && Installed(slot.value, old(nextConnectionId), FromRequest(env, request, keys), capacity,
                                  stampedAt)
                     && fresh(connections[slot.value].Footprint())
                   else r == Err(ShmError) && connections[slot.value] == null
      ensures forall i | 0 <= i < SLOTS && conns[i] != null && old(connections[i]) == null ::
                ViewOf(i, conns[i]) == old(ViewOf(i, conns[i]))
      ensures forall o | o in Objects() && o !in old(Objects()) :: fresh(o)
      ensures match r
              case Ok(provisioned) => Names(provisioned.token)
              case Err(e) => e == SlotsExhausted || e == ShmError
      ensures UpsertedTable(env, request, capacity, keys, stampedAt, before, old(Snapshot()), old(nextConnectionId), r,
                            slot, Snapshot())
    {
      hide UpsertedTable, Evicted, FromRequest, NewView, StaleAt, FirstFree, Installed, Snapshot, IsPowerOfTwo;
      r, slot := InstallFresh(env, request, capacity, ioOk, nows, stampedAt, keys);
      if r.Ok? {
        InstalledView(slot.value, r.value.token.generation, FromRequest(env, request, keys), capacity, stampedAt);
      }
      InstallTable(env, request, capacity, keys, stampedAt, before, old(Snapshot()), old(nextConnectionId), r, slot,
                   Snapshot());
    }

    /** Subscribes: renews the connection the token names if it is live, and else installs a new one. */
    method UpsertShm(env: Env, request: SubscriptionRequest, capacity: nat, ioOk: bool, now: nat, nows: seq<nat>,
                     stampedAt: nat, keys: seq<nat>) returns (r: Result<Provisioned>, ghost slot: Option<nat>)
      requires Valid() && |nows| == SLOTS
      modifies this, connections, Objects()
      ensures Valid()
      ensures forall o | o in Objects() && o !in old(Objects()) :: fresh(o)
      ensures match r
              case Ok(provisioned) => Names(provisioned.token)
              case Err(e) => e == SlotsExhausted || e == ShmError
      ensures (r.Ok? && r.value.Existing?) <==> request.token.Some? && old(Live(request.token.value, now))
      ensures r.Ok? && r.value.Existing? ==>
                && r.value.token == request.token.value && nextConnectionId == old(nextConnectionId) && slot.None?
                && forall i | 0 <= i < SLOTS :: connections[i] == old(connections[i])
      ensures !(r.Ok? && r.value.Existing?) ==>
                && nextConnectionId == old(nextConnectionId) + 1
                && FirstFree(old(WithoutNamed(request.token)), nows, slot) && (slot.None? <==> r == Err(SlotsExhausted))
                && (forall i | 0 <= i < SLOTS && slot != Some(i) ::
                      connections[i] == if old(NamedAt(request.token, i)) then null else old(connections[i]))
                && (forall i | 0 <= i < SLOTS && old(connections[i]) != null
                               && (slot == Some(i) || old(NamedAt(request.token, i))) ::
                      ViewOf(i, old(connections[i])) == Evicted(old(ViewOf(i, connections[i]))))
      ensures slot.Some? ==>
                && slot.value < SLOTS
                && if ioOk && capacity >= MIN_CAPACITY then
                     && r == Ok(Created(SlotToken(slot.value, old(nextConnectionId))))
                     && Installed(slot.value, old(nextConnectionId), FromRequest(env, request, keys), capacity,
                                  stampedAt)
                     && fresh(connections[slot.value].Footprint())
                   else r == Err(ShmError) && connections[slot.value] == null
      ensures UpsertedTable(env, request, capacity, keys, stampedAt, old(Snapshot()), old(WithoutNamed(request.token)),
                            old(nextConnectionId), r, slot, Snapshot())
    {
      assert connections.Length == SLOTS;
      hide Valid, Objects, UpsertedTable, Evicted, FromRequest, WithRequest, Renewed, NewView;
      hide StaleAt, FirstFree, Installed, Snapshot, WithoutNamed, IsPowerOfTwo;
      ghost var conns := connections[..];
      ghost var start, looked := Snapshot(), WithoutNamed(request.token);
      var found := Resubscribe(env, request, now, stampedAt, keys);
      if found.Some? {
        slot := None;
        RenewalTable(env, request, capacity, keys, stampedAt, start, looked, nextConnectionId, found.value, Snapshot());
        return Ok(Existing(found.value)), slot;
      }
      r, slot := InstallInstead(env, request, capacity, ioOk, nows, stampedAt, keys, conns, start);
    }
  }
}
