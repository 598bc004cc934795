/** What serving frames of a control socket does to the table of connections, as values. */
module Subscribers {
  import opened Types
  import opened Filter
  import opened Manager

  /** Times, random keys and I/O outcomes met while serving one frame. */
  datatype Tick = Tick(now: nat, scan: nat -> nat, stampedAt: nat, keys: seq<nat>, ioOk: bool)

  /** The connection a token names, if it is installed. */
  function Seat(table: seq<Option<View>>, token: SlotToken): Option<View>
    requires |table| == SLOTS
  {
    if token.slotIndex < SLOTS && table[token.slotIndex].Some? && table[token.slotIndex].value.id == token.generation
    then table[token.slotIndex]
    else None
  }

  /** The named connection is installed, and its filter lets the update through. */
  ghost predicate Passes(env: Env, table: seq<Option<View>>, token: SlotToken, u: Update)
    requires |table| == SLOTS
  {
    Seat(table, token).Some? && Matches(env, Seat(table, token).value.filter, u)
  }

  ghost predicate AllCoherent(env: Env, table: seq<Option<View>>) {
    forall i | 0 <= i < |table| && table[i].Some? :: Coherent(env, table[i].value.filter)
  }

  ghost predicate IdsBelow(table: seq<Option<View>>, nextId: nat) {
    forall i | 0 <= i < |table| && table[i].Some? :: table[i].value.id < nextId
  }

  function TokenIn(frame: ClientFrame): Option<SlotToken> {
    match frame
    case Subscription(request) => request.token
    case PingFrame(token) => Some(token)
  }

  /** The connection the reply names now passes what it passed before and what the subscription asked for; every
      other connection that is still installed has the filter it had. */
  ghost predicate Subscribed(env: Env, frame: ClientFrame, reply: Option<ControlReply>, before: seq<Option<View>>,
                             after: seq<Option<View>>)
    requires |before| == |after| == SLOTS
  {
    && (reply.Some? ==>
          && frame.Subscription? && Seat(after, reply.value.token).Some?
          && forall u :: Passes(env, after, reply.value.token, u) <==>
                         Passes(env, before, reply.value.token, u) || Wanted([frame.request], u))
    && (forall token | Seat(after, token).Some? && !(reply.Some? && reply.value.token == token) ::
          Seat(before, token).Some? && Seat(after, token).value.filter == Seat(before, token).value.filter)
  }

  /** A connection changes only if the frame names it, or if it is gone and was silent for more than thirty seconds;
      a named one goes only if it was silent, too. */
  ghost predicate SilentOnlyGone(frame: ClientFrame, tick: Tick, before: seq<Option<View>>, after: seq<Option<View>>)
    requires |before| == |after| == SLOTS
  {
    forall i | 0 <= i < SLOTS && before[i].Some? && after[i] != before[i] ::
      var v := before[i].value;
      if TokenIn(frame) == Some(SlotToken(i, v.id)) then
        tick.now > v.lastSeenMs + 30_000 || (after[i].Some? && after[i].value.id == v.id)
      else
        tick.scan(i) > v.lastSeenMs + 30_000 && !(after[i].Some? && after[i].value.id == v.id)
  }

  function LookedUp(table: seq<Option<View>>, token: Option<SlotToken>): (r: seq<Option<View>>)
    requires |table| == SLOTS
    ensures |r| == SLOTS
  {
    if token.Some? && Seat(table, token.value).Some? then table[token.value.slotIndex := None] else table
  }

  function ReplyOf(provisioned: Provisioned): ControlReply {
    match provisioned
    case Existing(token) => ConnectionReady(token)
    case Created(token) => ConnectionReadyShm(token)
  }

  /** The connection a reply names was seen just now; a new one has an empty ring of the capacity asked for. */
  predicate SeatedAnew(capacity: nat, tick: Tick, token: SlotToken, reply: ControlReply, table: seq<Option<View>>)
    requires |table| == SLOTS
  {
    var seat := Seat(table, token);
    && seat.Some? && seat.value.lastSeenMs == tick.stampedAt
    && (reply.ConnectionReadyShm? ==> seat.value.queued == [] && capacity <= seat.value.capacity < 2 * capacity)
  }

  lemma RenewalSubscribes(env: Env, request: SubscriptionRequest, keys: seq<nat>, now: nat, before: seq<Option<View>>,
                          token: SlotToken, after: seq<Option<View>>)
    requires |before| == |after| == SLOTS && AllCoherent(env, before) && Seat(before, token).Some?
    requires var i := token.slotIndex; after == before[i := Some(Renewed(env, before[i].value, request, keys, now))]
    ensures AllCoherent(env, after)
    ensures Subscribed(env, Subscription(request), Some(ConnectionReady(token)), before, after)
  {
    hide WithRequest, Coherent, Matches, Wanted;
    var i := token.slotIndex;
    forall u: Update
      ensures Coherent(env, after[i].value.filter)
      ensures Passes(env, after, token, u) <==> Passes(env, before, token, u) || Wanted([request], u)
    {
      OneMorePasses(env, before[i].value.filter, request, keys, u);
    }
    var some: Update :| true;
    OneMorePasses(env, before[i].value.filter, request, keys, some);
  }

  lemma InstallSubscribes(env: Env, request: SubscriptionRequest, keys: seq<nat>, now: nat, before: seq<Option<View>>,
                          looked: seq<Option<View>>, k: nat, nextId: nat, capacity: nat, after: seq<Option<View>>)
    requires |before| == |looked| == |after| == SLOTS && k < SLOTS
    requires AllCoherent(env, before) && IdsBelow(before, nextId)
    requires looked == LookedUp(before, request.token)
    requires after == looked[k := Some(NewView(nextId, FromRequest(env, request, keys), now, capacity))]
    ensures AllCoherent(env, after)
    ensures Subscribed(env, Subscription(request), Some(ConnectionReadyShm(SlotToken(k, nextId))), before, after)
  {
    hide FromRequest, Coherent, Matches, Wanted;
    var token := SlotToken(k, nextId);
    assert Seat(before, token).None?;
    forall u: Update
      ensures Passes(env, after, token, u) <==> Passes(env, before, token, u) || Wanted([request], u)
    {
      FirstPasses(env, request, keys, u);
    }
    var some: Update :| true;
    FirstPasses(env, request, keys, some);
  }

  /** Serving a subscription, whatever becomes of it. */
  lemma UpsertSubscribes(env: Env, request: SubscriptionRequest, capacity: nat, tick: Tick, nows: seq<nat>,
                         before: seq<Option<View>>, nextId: nat, r: Result<Provisioned>, slot: Option<nat>,
                         after: seq<Option<View>>)
    requires |before| == |after| == |nows| == SLOTS && AllCoherent(env, before) && IdsBelow(before, nextId)
    requires forall i | 0 <= i < SLOTS :: nows[i] == tick.scan(i)
    requires UpsertedTable(env, request, capacity, tick.keys, tick.stampedAt, before, LookedUp(before, request.token),
                           nextId, r, slot, after)
    requires !(r.Ok? && r.value.Existing?) ==> FirstFree(LookedUp(before, request.token), nows, slot)
    requires !(r.Ok? && r.value.Existing?) && request.token.Some? && Seat(before, request.token.value).Some? ==>
               tick.now > Seat(before, request.token.value).value.lastSeenMs + 30_000
    ensures AllCoherent(env, after)
    ensures Subscribed(env, Subscription(request), match r { case Ok(p) => Some(ReplyOf(p)) case Err(_) => None },
                       before, after)
    ensures SilentOnlyGone(Subscription(request), tick, before, after)
    ensures r.Ok? ==> SeatedAnew(capacity, tick, r.value.token, ReplyOf(r.value), after)
  {
    hide FromRequest, WithRequest, Coherent, Matches, Wanted, Passes;
    match r {
      case Ok(Existing(token)) =>
        RenewalSubscribes(env, request, tick.keys, tick.stampedAt, before, token, after);
      case Ok(Created(token)) =>
        var k := slot.value;
        InstallSubscribes(env, request, tick.keys, tick.stampedAt, before, LookedUp(before, request.token), k, nextId,
                          after[k].value.capacity, after);
      case Err(_) =>
    }
  }

  /** The slot holds a connection seen within thirty seconds of the look at it. */
  predicate Taken(table: seq<Option<View>>, tick: Tick, i: nat)
    requires i < |table|
  {
    table[i].Some? && tick.scan(i) <= table[i].value.lastSeenMs + 30_000
  }

  /** Why a subscription without a live token fails: all ten slots are taken, or else its ring cannot be made. */
  ghost predicate Refused(request: SubscriptionRequest, capacity: nat, tick: Tick, before: seq<Option<View>>, e: Error)
    requires |before| == SLOTS
  {
    var looked := LookedUp(before, request.token);
    if forall i | 0 <= i < 10 :: Taken(looked, tick, i) then e == SlotsExhausted
    else e == ShmError && !(tick.ioOk && capacity >= 64)
  }

  /** Where a new connection goes: the lowest slot that is not taken. */
  ghost predicate LowestFree(request: SubscriptionRequest, tick: Tick, before: seq<Option<View>>, k: nat)
    requires |before| == SLOTS
  {
    var looked := LookedUp(before, request.token);
    k < 10 && !Taken(looked, tick, k) && forall i | 0 <= i < k :: Taken(looked, tick, i)
  }

  lemma UpsertOutcome(request: SubscriptionRequest, capacity: nat, tick: Tick, nows: seq<nat>,
                      before: seq<Option<View>>, r: Result<Provisioned>, slot: Option<nat>)
    requires |before| == |nows| == SLOTS && forall i | 0 <= i < SLOTS :: nows[i] == tick.scan(i)
    requires FirstFree(LookedUp(before, request.token), nows, slot) && (slot.None? <==> r == Err(SlotsExhausted))
    requires slot.Some? ==>
               if tick.ioOk && capacity >= MIN_CAPACITY then r.Ok? && r.value.token.slotIndex == slot.value
               else r == Err(ShmError)
    ensures match r
            case Err(e) => Refused(request, capacity, tick, before, e)
            case Ok(p) => LowestFree(request, tick, before, p.token.slotIndex)
  {
    hide LookedUp;
    var looked := LookedUp(before, request.token);
    assert forall i | 0 <= i < SLOTS :: Taken(looked, tick, i) <==> !Free(looked[i], nows[i]);
    if slot.Some? {
      assert !Taken(looked, tick, slot.value);
    }
  }

  /** A ping stamps the connection it names, or finds it silent for too long and takes it out. */
  lemma PingSubscribes(env: Env, token: SlotToken, tick: Tick, before: seq<Option<View>>, live: bool,
                       after: seq<Option<View>>)
    requires |before| == |after| == SLOTS && AllCoherent(env, before)
    requires var seat := Seat(before, token);
             && live == (seat.Some? && tick.now <= seat.value.lastSeenMs + 30_000)
             && after == if seat.None? then before
                         else if live then before[token.slotIndex := Some(seat.value.(lastSeenMs := tick.stampedAt))]
                         else before[token.slotIndex := None]
    ensures AllCoherent(env, after)
    ensures Subscribed(env, PingFrame(token), None, before, after)
    ensures SilentOnlyGone(PingFrame(token), tick, before, after)
  {
    hide Coherent, Matches;
  }

  // ----- Whole sockets -----

  /** The requests among the served frames that were answered with this token. */
  function RequestsFor(frames: seq<ClientFrame>, replies: seq<ControlReply>, token: SlotToken)
    : seq<SubscriptionRequest>
  {
    if frames == [] then []
    else
      var n := |frames| - 1;
      if frames[n].PingFrame? || replies == [] then RequestsFor(frames[..n], replies, token)
      else
        var m := |replies| - 1;
        RequestsFor(frames[..n], replies[..m], token) + if replies[m].token == token then [frames[n].request] else []
  }

  ghost predicate RepliesBelow(replies: seq<ControlReply>, nextId: nat) {
    forall k | 0 <= k < |replies| :: replies[k].token.generation < nextId
  }

  lemma {:induction false} NoRequestsFor(frames: seq<ClientFrame>, replies: seq<ControlReply>, token: SlotToken)
    requires RepliesBelow(replies, token.generation)
    ensures RequestsFor(frames, replies, token) == []
    decreases |frames|
  {
    if frames != [] {
      var n := |frames| - 1;
      if frames[n].PingFrame? || replies == [] {
        NoRequestsFor(frames[..n], replies, token);
      } else {
        NoRequestsFor(frames[..n], replies[..|replies| - 1], token);
      }
    }
  }

  /** Each installed connection passes exactly what it passed at the start and what the subscriptions answered with
      its token have asked for since. */
  ghost predicate FiltersFollow(env: Env, start: seq<Option<View>>, frames: seq<ClientFrame>,
                                replies: seq<ControlReply>, table: seq<Option<View>>)
    requires |start| == |table| == SLOTS
  {
    forall token, u | Seat(table, token).Some? ::
      Passes(env, table, token, u) <==> Passes(env, start, token, u) || Wanted(RequestsFor(frames, replies, token), u)
  }

  lemma FollowsAtStart(env: Env, start: seq<Option<View>>)
    requires |start| == SLOTS
    ensures FiltersFollow(env, start, [], [], start)
  {
    hide MatchesAccount;
  }

  /** A frame without a reply changes no filter. */
  lemma FollowsUnanswered(env: Env, start: seq<Option<View>>, frames: seq<ClientFrame>, replies: seq<ControlReply>,
                          before: seq<Option<View>>, frame: ClientFrame, after: seq<Option<View>>)
    requires |start| == |before| == |after| == SLOTS
    requires FiltersFollow(env, start, frames, replies, before) && Subscribed(env, frame, None, before, after)
    ensures FiltersFollow(env, start, frames, replies, after)
    ensures frame.PingFrame? ==> FiltersFollow(env, start, frames + [frame], replies, after)
  {
    hide Matches, Wanted;
    assert (frames + [frame])[..|frames|] == frames;
    forall token, u | Seat(after, token).Some?
      ensures Passes(env, after, token, u) <==>
              Passes(env, start, token, u) || Wanted(RequestsFor(frames, replies, token), u)
    {
      assert Passes(env, before, token, u) <==> Passes(env, after, token, u);
    }
  }

  lemma FollowsAnswered(env: Env, start: seq<Option<View>>, frames: seq<ClientFrame>, replies: seq<ControlReply>,
                        before: seq<Option<View>>, frame: ClientFrame, reply: ControlReply, after: seq<Option<View>>,
                        nextId: nat)
    requires |start| == |before| == |after| == SLOTS && IdsBelow(start, nextId) && RepliesBelow(replies, nextId)
    requires FiltersFollow(env, start, frames, replies, before) && Subscribed(env, frame, Some(reply), before, after)
    requires Seat(before, reply.token).Some? || reply.token.generation == nextId
    ensures FiltersFollow(env, start, frames + [frame], replies + [reply], after)
  {
    hide Matches, Wanted;
    var all, answers := frames + [frame], replies + [reply];
    assert all[..|frames|] == frames && answers[..|replies|] == replies;
    forall token, u | Seat(after, token).Some?
      ensures Passes(env, after, token, u) <==>
              Passes(env, start, token, u) || Wanted(RequestsFor(all, answers, token), u)
    {
      var earlier := RequestsFor(frames, replies, token);
      if token == reply.token {
        assert RequestsFor(all, answers, token) == earlier + [frame.request];
        WantedByEither(earlier, frame.request, u);
        if Seat(before, token).None? {
          NoRequestsFor(frames, replies, token);
          NothingWanted(earlier, u, frame.request);
        }
      } else {
        assert RequestsFor(all, answers, token) == earlier + [] == earlier;
        assert Passes(env, before, token, u) <==> Passes(env, after, token, u);
      }
    }
  }

  lemma WantedByEither(requests: seq<SubscriptionRequest>, request: SubscriptionRequest, u: Update)
    ensures Wanted(requests + [request], u) <==> Wanted(requests, u) || Wanted([request], u)
  {
    assert forall r :: r in requests + [request] <==> r in requests || r in [request];
  }

  lemma NothingWanted(requests: seq<SubscriptionRequest>, u: Update, request: SubscriptionRequest)
    requires requests == []
    ensures Wanted(requests, u) ==> Wanted([request], u)
  {
  }
}
