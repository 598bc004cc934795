/** The sender's end of one control socket, run by itself: it reads a frame, serves it, and replies to it. */
module Handler {
  import opened Bytes
  import opened Types
  import opened Framing
  import opened Wire
  import opened Manager
  import opened Subscribers

  /** The control messages' own encodings. */
  datatype Codecs = Codecs(decode: Bytes -> Result<ClientFrame>, encode: ControlReply -> Bytes)

  function NewOnes(replies: seq<ControlReply>): nat {
    if replies == [] then 0
    else NewOnes(replies[..|replies| - 1]) + if replies[|replies| - 1].ConnectionReadyShm? then 1 else 0
  }

  /** A plain reply names the connection the request named; any other one a connection with the next new id. */
  predicate AnswerTo(request: SubscriptionRequest, reply: ControlReply, nextId: nat) {
    if reply.ConnectionReady? then request.token == Some(reply.token) else reply.token.generation == nextId
  }

  /** The replies answer the subscriptions among the frames, one each and in order; ids count up from `first`. */
  predicate Answers(frames: seq<ClientFrame>, replies: seq<ControlReply>, first: nat) {
    if frames == [] then replies == []
    else
      var n := |frames| - 1;
      if frames[n].PingFrame? then Answers(frames[..n], replies, first)
      else
        replies != [] &&
        var m := |replies| - 1;
        Answers(frames[..n], replies[..m], first)
        && AnswerTo(frames[n].request, replies[m], first + NewOnes(replies[..m]))
  }

  lemma AnswersPing(frames: seq<ClientFrame>, replies: seq<ControlReply>, first: nat, frame: ClientFrame)
    requires Answers(frames, replies, first) && frame.PingFrame?
    ensures Answers(frames + [frame], replies, first)
  {
    assert (frames + [frame])[..|frames|] == frames;
  }

  lemma AnswersSubscription(frames: seq<ClientFrame>, replies: seq<ControlReply>, first: nat, frame: ClientFrame,
                            reply: ControlReply)
    requires Answers(frames, replies, first) && frame.Subscription?
    requires AnswerTo(frame.request, reply, first + NewOnes(replies))
    ensures Answers(frames + [frame], replies + [reply], first)
    ensures NewOnes(replies + [reply]) == NewOnes(replies) + if reply.ConnectionReadyShm? then 1 else 0
  {
    assert (frames + [frame])[..|frames|] == frames && (replies + [reply])[..|replies|] == replies;
  }

  function Encoded(codecs: Codecs, replies: seq<ControlReply>): seq<Bytes> {
    seq(|replies|, i requires 0 <= i < |replies| => codecs.encode(replies[i]))
  }

  /** The frame carries the token of an installed connection that is not stale. */
  ghost predicate Live(m: ConnectionManager, frame: ClientFrame, now: nat)
    requires m.Valid()
    reads m, m.connections, m.Objects()
  {
    match frame
    case PingFrame(token) => m.Live(token, now)
    case Subscription(request) => request.token.Some? && m.Live(request.token.value, now)
  }

  /** Names and liveness, read off the table. */
  lemma NamesSeat(m: ConnectionManager, token: Option<SlotToken>, now: nat)
    requires m.Valid()
    ensures token.Some? ==>
              var seat := Seat(m.Snapshot(), token.value);
              && (m.Names(token.value) <==> seat.Some?)
              && (m.Live(token.value, now) <==> seat.Some? && now <= seat.value.lastSeenMs + 30_000)
    ensures m.WithoutNamed(token) == LookedUp(m.Snapshot(), token)
    ensures IdsBelow(m.Snapshot(), m.nextConnectionId)
  {
  }

  method Serve(m: ConnectionManager, env: Env, capacity: nat, frame: ClientFrame, tick: Tick)
    returns (r: Result<Option<ControlReply>>)
    requires m.Valid() && AllCoherent(env, m.Snapshot())
    modifies m, m.connections, m.Objects()
    ensures m.Valid() && forall o | o in m.Objects() && o !in old(m.Objects()) :: fresh(o)
    ensures AllCoherent(env, m.Snapshot())
    ensures Subscribed(env, frame, if r.Ok? then r.value else None, old(m.Snapshot()), m.Snapshot())
    ensures SilentOnlyGone(frame, tick, old(m.Snapshot()), m.Snapshot())
    ensures r.Err? ==>
              && frame.Subscription? && !old(Live(m, frame, tick.now))
              && Refused(frame.request, capacity, tick, old(m.Snapshot()), r.error)
              && m.nextConnectionId == old(m.nextConnectionId) + 1
    ensures r == Ok(None) ==>
              && frame.PingFrame? && m.nextConnectionId == old(m.nextConnectionId)
              && m.Names(frame.token) == old(Live(m, frame, tick.now))
              && (m.Names(frame.token) ==> m.connections[frame.token.slotIndex].lastSeenMs == tick.stampedAt)
    ensures r.Ok? && r.value.Some? ==>
              && frame.Subscription? && AnswerTo(frame.request, r.value.value, old(m.nextConnectionId))
              && r.value.value.ConnectionReady? == old(Live(m, frame, tick.now)) && m.Names(r.value.value.token)
              && m.nextConnectionId == old(m.nextConnectionId) + if r.value.value.ConnectionReadyShm? then 1 else 0
    ensures r.Ok? && r.value.Some? ==>
              var token := r.value.value.token;
              && token.generation < m.nextConnectionId && SeatedAnew(capacity, tick, token, r.value.value, m.Snapshot())
              && if r.value.value.ConnectionReady? then Seat(old(m.Snapshot()), token).Some?
                 else
                   && token.generation == old(m.nextConnectionId)
                   && LowestFree(frame.request, tick, old(m.Snapshot()), token.slotIndex)
  {
    hide FirstFree, Evicted, UpsertedTable, ConnectionManager.ViewOf, ConnectionManager.Live, ConnectionManager.Names;
    hide Subscribed, SilentOnlyGone, AllCoherent, SeatedAnew, Refused, LowestFree, LookedUp;
    hide ConnectionManager.WithoutNamed;
    ghost var before, nextId := m.Snapshot(), m.nextConnectionId;
    NamesSeat(m, TokenIn(frame), tick.now);
    match frame {
      case PingFrame(token) =>
        var touched := m.TouchPing(token, tick.now, tick.stampedAt);
        PingSubscribes(env, token, tick, before, touched, m.Snapshot());
        return Ok(None);
      case Subscription(request) =>
        var nows := seq(SLOTS, i requires 0 <= i => tick.scan(i));
        var provision, slot :=
          m.UpsertShm(env, request, capacity, tick.ioOk, tick.now, nows, tick.stampedAt, tick.keys);
        UpsertSubscribes(env, request, capacity, tick, nows, before, nextId, provision, slot, m.Snapshot());
        if !(provision.Ok? && provision.value.Existing?) {
          UpsertOutcome(request, capacity, tick, nows, before, provision, slot);
        }
        match provision {
          case Err(e) => return Err(e);
          case Ok(Existing(token)) => return Ok(Some(ConnectionReady(token)));
          case Ok(Created(token)) => return Ok(Some(ConnectionReadyShm(token)));
        }
    }
  }

  lemma StreamApart(m: ConnectionManager, s: Stream)
    ensures s !in m.Objects()
  {
  }

  /** Writing to a stream leaves the table alone. */
  method WriteReply(ghost m: ConnectionManager, output: Stream, payload: Bytes) returns (r: Result<()>)
    requires m.Valid()
    modifies output
    ensures r == if |payload| <= U32_MAX then Ok(()) else Err(FrameTooLarge(|payload|))
    ensures output.data == old(output.data) + if r.Ok? then FrameBytes(payload) else []
    ensures m.Valid() && m.Snapshot() == old(m.Snapshot()) && m.Objects() == old(m.Objects())
    ensures m.nextConnectionId == old(m.nextConnectionId)
  {
    StreamApart(m, output);
    r := output.WriteFramed(payload);
  }

  /** Reading from a stream leaves the table alone. */
  method ReadRequest(ghost m: ConnectionManager, input: Stream) returns (r: Result<Bytes>)
    requires m.Valid()
    modifies input
    ensures match Next(old(input.data))
            case Ok(received) => r == Ok(received.payload) && input.data == received.rest
            case Err(error) => r == Err(error)
    ensures m.Valid() && m.Snapshot() == old(m.Snapshot()) && m.Objects() == old(m.Objects())
    ensures m.nextConnectionId == old(m.nextConnectionId)
  {
    hide Next;
    StreamApart(m, input);
    r := input.ReadFramed();
  }

  /** How one turn of the handler ended: with a payload that does not decode, a subscription that cannot be served or
      whose reply has no length prefix, or a frame served and its reply, if it has one, written. */
  datatype Turn =
    | Undecodable(error: Error)
    | Failed(frame: ClientFrame, error: Error)
    | Unsent(frame: ClientFrame, reply: ControlReply, error: Error)
    | Done(frame: ClientFrame, answer: Option<ControlReply>)

  /** The reply names a connection that was installed, or one with the next id. */
  predicate FreshOrSeated(before: seq<Option<View>>, nextId: nat, reply: ControlReply, after: nat)
    requires |before| == SLOTS
  {
    (Seat(before, reply.token).Some? || reply.token.generation == nextId) && reply.token.generation < after
  }

  /** Decodes one payload, serves it and writes its reply, if it has one. */
  method ServePayload(m: ConnectionManager, env: Env, codecs: Codecs, capacity: nat, payload: Bytes, output: Stream,
                      tick: Tick) returns (t: Turn)
    requires m.Valid() && output !in m.Objects() && AllCoherent(env, m.Snapshot())
    modifies m, m.connections, m.Objects(), output
    ensures m.Valid() && AllCoherent(env, m.Snapshot())
    ensures forall o | o in m.Objects() && o !in old(m.Objects()) :: fresh(o)
    ensures old(m.nextConnectionId) <= m.nextConnectionId
    ensures codecs.decode(payload) == if t.Undecodable? then Err(t.error) else Ok(t.frame)
    ensures t.Undecodable? ==> m.Snapshot() == old(m.Snapshot()) && output.data == old(output.data)
    ensures t.Failed? ==>
              && t.frame.Subscription? && Refused(t.frame.request, capacity, tick, old(m.Snapshot()), t.error)
              && Subscribed(env, t.frame, None, old(m.Snapshot()), m.Snapshot()) && output.data == old(output.data)
    ensures t.Unsent? ==>
              && t.frame.Subscription? && |codecs.encode(t.reply)| > 0xFFFF_FFFF
              && t.error == FrameTooLarge(|codecs.encode(t.reply)|)
              && Subscribed(env, t.frame, Some(t.reply), old(m.Snapshot()), m.Snapshot())
              && FreshOrSeated(old(m.Snapshot()), old(m.nextConnectionId), t.reply, m.nextConnectionId)
              && output.data == old(output.data)
    ensures t.Done? ==> Subscribed(env, t.frame, t.answer, old(m.Snapshot()), m.Snapshot())
    ensures t.Done? && t.answer.None? ==>
              && t.frame.PingFrame? && m.nextConnectionId == old(m.nextConnectionId)
              && output.data == old(output.data)
    ensures t.Done? && t.answer.Some? ==>
              && t.frame.Subscription? && AnswerTo(t.frame.request, t.answer.value, old(m.nextConnectionId))
              && m.nextConnectionId == old(m.nextConnectionId) + (if t.answer.value.ConnectionReadyShm? then 1 else 0)
              && FreshOrSeated(old(m.Snapshot()), old(m.nextConnectionId), t.answer.value, m.nextConnectionId)
              && output.data == old(output.data) + FrameBytes(codecs.encode(t.answer.value))
  {
    hide FrameBytes, AnswerTo, Live, ConnectionManager.Names;
    hide Subscribed, SilentOnlyGone, AllCoherent, Refused, LowestFree;
    var frame := codecs.decode(payload);
    if frame.Err? {
      return Undecodable(frame.error);
    }
    var answer := Serve(m, env, capacity, frame.value, tick);
    if answer.Err? {
      return Failed(frame.value, answer.error);
    }
    if answer.value.Some? {
      var wrote := WriteReply(m, output, codecs.encode(answer.value.value));
      if wrote.Err? {
        return Unsent(frame.value, answer.value.value, wrote.error);
      }
    }
    return Done(frame.value, answer.value);
  }

  /** A socket part of the way: the frames served, the replies to them, the bytes not read yet, the next
      connection id, the bytes sent back, and the table. */
  datatype Session = Session(
    served: seq<ClientFrame>,
    replies: seq<ControlReply>,
    left: Bytes,
    nextId: nat,
    sent: Bytes,
    table: seq<Option<View>>)

  /** What was served is an initial stretch of the messages the consumer wrote; each subscription among it has one
      reply on the wire, in order, and no ping has any. */
  ghost predicate Progress(codecs: Codecs, written: Bytes, start: Bytes, first: nat, s: Session) {
    var (payloads, rest) := All(written);
    && Answers(s.served, s.replies, first) && s.nextId == first + NewOnes(s.replies)
    && s.sent == start + Frames(Encoded(codecs, s.replies))
    && |s.served| <= |payloads| && (payloads[|s.served|..], rest) == All(s.left)
    && forall k | 0 <= k < |s.served| :: codecs.decode(payloads[k]) == Ok(s.served[k])
  }

  /** Success means that everything was served and the stream ended; a failure is that of the next message: it cannot
      be read or decoded, its subscription is refused, or its reply is too long for a length prefix. */
  ghost predicate Ends(codecs: Codecs, capacity: nat, tick: Tick, s: Session, r: Result<()>,
                       unsent: Option<ControlReply>)
    requires |s.table| == SLOTS
  {
    match Next(s.left)
    case Err(e) => r == (if e == UnexpectedEof then Ok(()) else Err(e)) && unsent.None?
    case Ok(received) =>
      r.Err? &&
      match codecs.decode(received.payload)
      case Err(e) => r.error == e && unsent.None?
      case Ok(frame) =>
        frame.Subscription?
        && match unsent
           case None => Refused(frame.request, capacity, tick, s.table, r.error)
           case Some(reply) => |codecs.encode(reply)| > 0xFFFF_FFFF && r.error == FrameTooLarge(|codecs.encode(reply)|)
  }

  /** What the handler has done to the filters: a subscription whose reply could not be sent counts, too. */
  ghost predicate Followed(env: Env, codecs: Codecs, start: seq<Option<View>>, s: Session, unsent: Option<ControlReply>,
                           table: seq<Option<View>>)
    requires |start| == |table| == SLOTS
  {
    match unsent
    case None => FiltersFollow(env, start, s.served, s.replies, table)
    case Some(reply) =>
      && Next(s.left).Ok? && codecs.decode(Next(s.left).value.payload).Ok?
      && FiltersFollow(env, start, s.served + [codecs.decode(Next(s.left).value.payload).value], s.replies + [reply],
                       table)
  }

  /** Serves a socket until its end, or until a frame does not decode, cannot be read or cannot be served. */
  method HandleConnection(m: ConnectionManager, env: Env, codecs: Codecs, capacity: nat, input: Stream, output: Stream,
                          ticks: nat -> Tick)
    returns (r: Result<()>, ghost end: Session, ghost unsent: Option<ControlReply>)
    requires m.Valid() && input != output && AllCoherent(env, m.Snapshot())
    modifies m, m.connections, m.Objects(), input, output
    ensures m.Valid() && output.data == end.sent && |end.table| == SLOTS
    ensures Progress(codecs, old(input.data), old(output.data), old(m.nextConnectionId), end)
    ensures Ends(codecs, capacity, ticks(|end.served|), end, r, unsent)
    ensures Followed(env, codecs, old(m.Snapshot()), end, unsent, m.Snapshot())
  {
    hide FrameBytes, AnswerTo, Next, Progress, FiltersFollow, Subscribed, AllCoherent, Refused, IdsBelow, RepliesBelow;
    hide FreshOrSeated;
    ghost var written, start, first, table := input.data, output.data, m.nextConnectionId, m.Snapshot();
    end := Session([], [], input.data, m.nextConnectionId, output.data, table);
    unsent := None;
    Begin(codecs, written, start, first, table);
    FollowsAtStart(env, table);
    NamesSeat(m, None, 0);
    assert RepliesBelow([], first) by { NoReplies(first); }
    StreamApart(m, input);
    StreamApart(m, output);
    var turn: nat := 0;
    while true
      invariant m.Valid() && forall o | o in m.Objects() && o !in old(m.Objects()) :: fresh(o)
      invariant input !in m.Objects() && output !in m.Objects()
      invariant Progress(codecs, written, start, first, end) && turn == |end.served| && unsent.None?
      invariant end.left == input.data && end.nextId == m.nextConnectionId && end.sent == output.data
      invariant end.table == m.Snapshot() && AllCoherent(env, end.table)
      invariant FiltersFollow(env, table, end.served, end.replies, end.table)
      invariant IdsBelow(table, end.nextId) && RepliesBelow(end.replies, end.nextId)
      decreases |input.data|
    {
      var payload := ReadRequest(m, input);
      if payload.Err? {
        r := if payload.error == UnexpectedEof then Ok(()) else Err(payload.error);
        return;
      }
      Shrinks(end.left);
      var turned := ServePayload(m, env, codecs, capacity, payload.value, output, ticks(turn));
      match turned {
        case Undecodable(e) =>
          r := Err(e);
          return;
        case Failed(frame, e) =>
          FollowsUnanswered(env, table, end.served, end.replies, end.table, frame, m.Snapshot());
          r := Err(e);
          return;
        case Unsent(frame, reply, e) =>
          Follows(env, table, end, frame, Some(reply), m.nextConnectionId, m.Snapshot());
          unsent := Some(reply);
          r := Err(e);
          return;
        case Done(frame, answer) =>
          Follows(env, table, end, frame, answer, m.nextConnectionId, m.Snapshot());
          ghost var next := Served(end, frame, answer, input.data, m.nextConnectionId, output.data, m.Snapshot());
          ServedProgress(codecs, written, start, first, end, frame, answer, next);
          end := next;
          turn := turn + 1;
      }
    }
  }

  lemma NoReplies(first: nat)
    ensures RepliesBelow([], first)
  {
  }

  lemma Follows(env: Env, start: seq<Option<View>>, s: Session, frame: ClientFrame, answer: Option<ControlReply>,
                nextId: nat, after: seq<Option<View>>)
    requires |start| == |s.table| == |after| == SLOTS && s.nextId <= nextId
    requires IdsBelow(start, s.nextId) && RepliesBelow(s.replies, s.nextId)
    requires FiltersFollow(env, start, s.served, s.replies, s.table) && Subscribed(env, frame, answer, s.table, after)
    requires answer.None? ==> frame.PingFrame?
    requires answer.Some? ==> FreshOrSeated(s.table, s.nextId, answer.value, nextId)
    ensures var replies := s.replies + if answer.Some? then [answer.value] else [];
            FiltersFollow(env, start, s.served + [frame], replies, after) && RepliesBelow(replies, nextId)
    ensures IdsBelow(start, nextId)
  {
    hide FiltersFollow, Subscribed;
    if answer.Some? {
      FollowsAnswered(env, start, s.served, s.replies, s.table, frame, answer.value, after, s.nextId);
    } else {
      FollowsUnanswered(env, start, s.served, s.replies, s.table, frame, after);
      assert s.replies + [] == s.replies;
    }
  }

  function Served(s: Session, frame: ClientFrame, reply: Option<ControlReply>, left: Bytes, nextId: nat, sent: Bytes,
                  table: seq<Option<View>>): Session
  {
    Session(s.served + [frame], s.replies + (if reply.Some? then [reply.value] else []), left, nextId, sent, table)
  }

  lemma Begin(codecs: Codecs, written: Bytes, start: Bytes, first: nat, table: seq<Option<View>>)
    ensures Progress(codecs, written, start, first, Session([], [], written, first, start, table))
  {
    assert Encoded(codecs, []) == [];
  }

  lemma Shrinks(stream: Bytes)
    requires Next(stream).Ok?
    ensures |Next(stream).value.rest| < |stream|
  {
  }

  lemma ServedProgress(codecs: Codecs, written: Bytes, start: Bytes, first: nat, s: Session, frame: ClientFrame,
                       reply: Option<ControlReply>, s': Session)
    requires Progress(codecs, written, start, first, s)
    requires Next(s.left).Ok? && codecs.decode(Next(s.left).value.payload) == Ok(frame)
    requires s' == Served(s, frame, reply, Next(s.left).value.rest, s'.nextId, s'.sent, s'.table)
    requires match reply
             case None => frame.PingFrame? && s'.nextId == s.nextId && s'.sent == s.sent
             case Some(x) =>
               && frame.Subscription? && AnswerTo(frame.request, x, s.nextId)
               && s'.nextId == s.nextId + (if x.ConnectionReadyShm? then 1 else 0)
               && s'.sent == s.sent + FrameBytes(codecs.encode(x))
    ensures Progress(codecs, written, start, first, s')
  {
    hide FrameBytes, AnswerTo, Next, Answers, NewOnes, Frames;
    Advance(All(written).0, |s.served|, s.left);
    match reply {
      case None =>
        AnswersPing(s.served, s.replies, first, frame);
        assert s.replies + [] == s.replies;
      case Some(x) =>
        AnswersSubscription(s.served, s.replies, first, frame, x);
        EncodedAppend(codecs, s.replies, x, start);
    }
  }

  lemma Advance(payloads: seq<Bytes>, n: nat, stream: Bytes)
    requires n <= |payloads| && payloads[n..] == All(stream).0 && Next(stream).Ok?
    ensures var r := Next(stream).value;
            && n < |payloads| && payloads[n] == r.payload
            && payloads[n + 1..] == All(r.rest).0 && All(stream).1 == All(r.rest).1
  {
    assert payloads[n + 1..] == payloads[n..][1..];
  }

  lemma EncodedAppend(codecs: Codecs, replies: seq<ControlReply>, reply: ControlReply, start: Bytes)
    ensures start + Frames(Encoded(codecs, replies + [reply])) ==
            start + Frames(Encoded(codecs, replies)) + FrameBytes(codecs.encode(reply))
  {
    hide FrameBytes;
    assert Encoded(codecs, replies + [reply]) == Encoded(codecs, replies) + [codecs.encode(reply)];
    FramesAppend(Encoded(codecs, replies), codecs.encode(reply));
    Assoc(start, Frames(Encoded(codecs, replies)), FrameBytes(codecs.encode(reply)));
  }
}
