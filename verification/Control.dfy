/**
 One consumer's control socket beside the whole sender: what the consumer writes and awaits, what the
 sender's handler reads and answers, and every other step of the sender in between.
 */
module Control {
  import opened Types
  import Consumer
  import Link
  import opened Sender
  import opened SenderInv
  import opened SenderSteps
  import opened SenderTheorems

  /** A consumer is set up by its handshake; a subscribe then holds the socket until its reply is read. */
  datatype Client = Fresh | AwaitingReady | Connected(token: SlotToken, awaiting: bool) | SetupFailed

  /** The sender's side of the socket: one frame at a time, until a request fails. */
  datatype Handler = Reading | Handling(t: TaskId) | Ended

  /** `boot` records the task that served the consumer's handshake. */
  datatype State = State(
    sender: Sender.State,
    requests: seq<ClientFrame>,
    replies: seq<ControlReply>,
    handler: Handler,
    client: Client,
    boot: Option<TaskId>)

  datatype Action =
    | Bootstrap
    | Subscribe(pubkeys: seq<Pubkey>, owners: seq<Pubkey>, includeTransactions: bool)
    | SendPing
    | ReadReply
    | Serve(t: TaskId)
    | Answer
    | Elsewhere(a: Sender.Action)

  function Boot(): SubscriptionRequest {
    SubscriptionRequest(None, [], [], false)
  }

  function OpOf(frame: ClientFrame): Op {
    match frame
    case Subscription(request) => Upsert(request)
    case PingFrame(token) => Ping(token)
  }

  predicate Awaiting(client: Client) {
    client.AwaitingReady? || (client.Connected? && client.awaiting)
  }

  /** The consumer reads one reply; at the end of the stream, or at the wrong kind of reply, the call fails. */
  function Replied(client: Client, reply: Option<ControlReply>): Client {
    match client
    case AwaitingReady =>
      if reply.Some? && reply.value.ConnectionReadyShm? then Connected(reply.value.token, false) else SetupFailed
    case Connected(token, true) =>
      Connected(if reply.Some? && reply.value.ConnectionReady? then reply.value.token else token, false)
    case _ => client
  }

  /** The handler turns a finished operation into its reply, if it has one, or gives up. */
  function Answered(s: State, outcome: Outcome): State {
    match outcome
    case Existing(token) => s.(replies := s.replies + [ConnectionReady(token)], handler := Reading)
    case Created(token) => s.(replies := s.replies + [ConnectionReadyShm(token)], handler := Reading)
    case Exhausted => s.(handler := Ended)
    case CreateFailed => s.(handler := Ended)
    case _ => s.(handler := Reading)
  }

  ghost function Next(cfg: Config, s: State, a: Action): State {
    match a
    case Bootstrap =>
      if s.client.Fresh? then s.(requests := s.requests + [Subscription(Boot())], client := AwaitingReady) else s
    case Subscribe(pubkeys, owners, includeTransactions) =>
      if s.client.Connected? && !s.client.awaiting && !s.handler.Ended? then
        var request := SubscriptionRequest(Some(s.client.token), pubkeys, owners, includeTransactions);
        s.(requests := s.requests + [Subscription(request)], client := s.client.(awaiting := true))
      else s
    case SendPing =>
      if s.client.Connected? && !s.client.awaiting && !s.handler.Ended? then
        s.(requests := s.requests + [PingFrame(s.client.token)])
      else s
    case ReadReply =>
      if s.replies != [] then s.(replies := s.replies[1..], client := Replied(s.client, Some(s.replies[0])))
      else if s.handler.Ended? then s.(client := Replied(s.client, None))
      else s
    case Serve(t) =>
      if s.handler.Reading? && s.requests != [] && t !in s.sender.tasks then
        s.(requests := s.requests[1..], handler := Handling(t),
           sender := Sender.Next(cfg, s.sender, Spawn(t, OpOf(s.requests[0]))),
           boot := if s.client.AwaitingReady? then Some(t) else s.boot)
      else s
    case Answer =>
      if s.handler.Handling? && s.handler.t in s.sender.tasks && s.sender.tasks[s.handler.t].pc.Done? then
        Answered(s, s.sender.tasks[s.handler.t].pc.outcome)
      else s
    case Elsewhere(a) => s.(sender := Sender.Next(cfg, s.sender, a))
  }

  function Init(): State {
    State.State(Sender.Init(), [], [], Reading, Fresh, None)
  }

  ghost function Run(cfg: Config, s: State, actions: seq<Action>): State {
    if actions == [] then s
    else Next(cfg, Run(cfg, s, actions[..|actions| - 1]), actions[|actions| - 1])
  }

  // ----- Lockstep -----

  function Subscriptions(frames: seq<ClientFrame>): nat {
    if frames == [] then 0 else (if frames[0].Subscription? then 1 else 0) + Subscriptions(frames[1..])
  }

  lemma {:induction false} SubscriptionsAppend(frames: seq<ClientFrame>, frame: ClientFrame)
    ensures Subscriptions(frames + [frame]) == Subscriptions(frames) + if frame.Subscription? then 1 else 0
  {
    if frames == [] {
      assert frames + [frame] == [frame] && [frame][1..] == [];
    } else {
      assert (frames + [frame])[1..] == frames[1..] + [frame];
      SubscriptionsAppend(frames[1..], frame);
    }
  }

  /** Subscriptions in flight, being handled, or answered and unread. */
  function Outstanding(s: State): nat {
    Subscriptions(s.requests) + |s.replies| +
    if s.handler.Handling? && s.handler.t in s.sender.tasks && s.sender.tasks[s.handler.t].op.Upsert? then 1 else 0
  }

  /** One subscription is outstanding while the consumer awaits a reply of an open socket, and else none. */
  predicate Lockstep(s: State) {
    && (s.handler.Handling? ==> s.handler.t in s.sender.tasks && !s.sender.tasks[s.handler.t].op.Dispatch?)
    && Outstanding(s) == if Awaiting(s.client) && !s.handler.Ended? then 1 else 0
  }

  ghost predicate Mine(cfg: Config, s: Sender.State, token: SlotToken, e: EntryId)
    requires SharedInv(cfg, s.sh)
  {
    e < |s.sh.entries| && Ever(s.sh, e) && Token(s.sh.entries[e]) == token
  }

  /** A connected consumer: whatever is under way carries its token, and a refusal means that its connection
      has left the table. */
  ghost predicate ServedOk(cfg: Config, s: State, e: EntryId)
    requires SharedInv(cfg, s.sender.sh) && s.client.Connected?
  {
    && Mine(cfg, s.sender, s.client.token, e)
    && (forall i | 0 <= i < |s.requests| :: TokenOf(OpOf(s.requests[i])) == Some(s.client.token))
    && (s.handler.Handling? ==> Sought(cfg, s.sender, s.handler.t, e))
    && (forall i | 0 <= i < |s.replies| ::
          || s.replies[i] == ConnectionReady(s.client.token)
          || (s.replies[i].ConnectionReadyShm? && Gone(cfg, s.sender, e)))
    && (s.handler.Ended? ==> Gone(cfg, s.sender, e))
  }

  /** A handshake under way: the bootstrap request, or its reply with the token of an installed connection. */
  ghost predicate BootOk(cfg: Config, s: State)
    requires SharedInv(cfg, s.sender.sh)
  {
    && (forall i | 0 <= i < |s.requests| :: s.requests[i] == Subscription(Boot()))
    && (s.handler.Handling? ==> s.handler.t in s.sender.tasks && s.sender.tasks[s.handler.t].op == Upsert(Boot()))
    && (forall i | 0 <= i < |s.replies| :: s.replies[i].ConnectionReadyShm? && Issued(s.sender.sh, s.replies[i].token))
  }

  ghost predicate Inv(cfg: Config, s: State) {
    && SenderInv.Inv(cfg, s.sender)
    && Lockstep(s)
    && match s.client
       case Fresh => s.requests == [] && s.replies == [] && s.handler == Reading
       case AwaitingReady => BootOk(cfg, s)
       case Connected(_, _) => exists e :: ServedOk(cfg, s, e)
       case SetupFailed => s.handler.Ended?
  }

  // ----- Every step keeps it -----

  lemma SenderOpKept(cfg: Config, s: Sender.State, a: Sender.Action, t: TaskId)
    requires t in s.tasks
    ensures var s' := Sender.Next(cfg, s, a); t in s'.tasks && s'.tasks[t].op == s.tasks[t].op
  {
    hide LookupStep, InstallStep, DispatchStep, ReadEntry, Link.Next, Consumer.UserPop;
    if a.Step? && a.t == t && Wf(s.sh) && Shape(s.sh, s.tasks[t]) {
      TaskStepOp(cfg, s.sh, t, s.tasks[t], a.input);
    }
  }

  lemma IssuedKept(cfg: Config, s: Sender.State, a: Sender.Action, token: SlotToken)
    requires Lz4Inverts(cfg.env) && SenderInv.Inv(cfg, s) && Issued(s.sh, token)
    ensures SenderInv.Inv(cfg, Sender.Next(cfg, s, a)) && Issued(Sender.Next(cfg, s, a).sh, token)
  {
    hide Sender.Next, EntryInv, Local, Linked;
    var k :| 0 <= k < |s.sh.installs| && Token(s.sh.entries[s.sh.installs[k]]) == token;
    var e := s.sh.installs[k];
    NextKeepsConnection(cfg, s, a, e);
    var sh' := Sender.Next(cfg, s, a).sh;
    var j :| 0 <= j < |sh'.installs| && sh'.installs[j] == e;
  }

  lemma BootKept(cfg: Config, s: State, s': State, a: Sender.Action)
    requires Lz4Inverts(cfg.env) && SenderInv.Inv(cfg, s.sender) && BootOk(cfg, s)
    requires s' == s.(sender := Sender.Next(cfg, s.sender, a))
    ensures SenderInv.Inv(cfg, s'.sender) && BootOk(cfg, s')
  {
    hide Sender.Next, Local, Linked, EntryInv;
    NextKeepsInv(cfg, s.sender, a);
    hide SharedInv, Issued;
    if s.handler.Handling? {
      SenderOpKept(cfg, s.sender, a, s.handler.t);
    }
    forall i | 0 <= i < |s.replies|
      ensures Issued(s'.sender.sh, s.replies[i].token)
    {
      IssuedKept(cfg, s.sender, a, s.replies[i].token);
    }
  }

  lemma ServedKept(cfg: Config, s: State, s': State, a: Sender.Action, e: EntryId)
    requires Lz4Inverts(cfg.env) && SenderInv.Inv(cfg, s.sender) && s.client.Connected? && ServedOk(cfg, s, e)
    requires s' == s.(sender := Sender.Next(cfg, s.sender, a))
    ensures SenderInv.Inv(cfg, s'.sender) && ServedOk(cfg, s', e)
  {
    hide Sender.Next, Local, Linked, EntryInv, Sought, Gone;
    NextKeepsConnection(cfg, s.sender, a, e);
    if s.handler.Handling? {
      NextSought(cfg, s.sender, a, s.handler.t, e);
    }
  }

  lemma ElsewhereKeeps(cfg: Config, s: State, a: Sender.Action)
    requires Lz4Inverts(cfg.env) && Inv(cfg, s)
    ensures Inv(cfg, Next(cfg, s, Elsewhere(a)))
  {
    hide Sender.Next, SenderInv.Inv, SharedInv, Subscriptions, BootOk, ServedOk;
    var s' := Next(cfg, s, Elsewhere(a));
    SenderShared(cfg, s.sender);
    NextKeepsInv(cfg, s.sender, a);
    if s.handler.Handling? {
      SenderOpKept(cfg, s.sender, a, s.handler.t);
    }
    if s.client.AwaitingReady? {
      BootKept(cfg, s, s', a);
    } else if s.client.Connected? {
      var e :| ServedOk(cfg, s, e);
      ServedKept(cfg, s, s', a, e);
    }
  }

  lemma SenderShared(cfg: Config, s: Sender.State)
    requires SenderInv.Inv(cfg, s)
    ensures SharedInv(cfg, s.sh)
  {
  }

  /** The consumer's own steps leave the sender alone. */
  lemma ClientKeeps(cfg: Config, s: State, a: Action)
    requires Inv(cfg, s) && (a.Bootstrap? || a.Subscribe? || a.SendPing? || a.ReadReply?)
    ensures Inv(cfg, Next(cfg, s, a))
  {
    hide Sender.Next, SenderInv.Inv, SharedInv, Subscriptions, Issued, Sought, Gone;
    SenderShared(cfg, s.sender);
    var s' := Next(cfg, s, a);
    if |s.requests| < |s'.requests| {
      SubscriptionsAppend(s.requests, s'.requests[|s.requests|]);
    }
    if s.client.Connected? {
      var e :| ServedOk(cfg, s, e);
      assert ServedOk(cfg, s', e);
    } else if s.client.AwaitingReady? && s'.client.Connected? {
      HandshakeDone(cfg, s, s');
    }
  }

  lemma HandshakeDone(cfg: Config, s: State, s': State)
    requires SenderInv.Inv(cfg, s.sender) && s.client.AwaitingReady? && BootOk(cfg, s) && Lockstep(s)
    requires s.replies != []
    requires s' == s.(replies := s.replies[1..], client := Connected(s.replies[0].token, false))
    ensures exists e :: ServedOk(cfg, s', e)
  {
    hide Sender.Next, Local, Linked, EntryInv, Sought, Gone;
    var token := s.replies[0].token;
    assert s.requests != [] ==> Subscriptions(s.requests) > 0;
    assert s.requests == [] && s'.replies == [] && s.handler.Reading?;
    var k :| 0 <= k < |s.sender.sh.installs| && Token(s.sender.sh.entries[s.sender.sh.installs[k]]) == token;
    assert ServedOk(cfg, s', s.sender.sh.installs[k]);
  }

  lemma Spawned(cfg: Config, s: Sender.State, s': Sender.State, t: TaskId, op: Op)
    requires Lz4Inverts(cfg.env) && SenderInv.Inv(cfg, s) && t !in s.tasks && s' == Sender.Next(cfg, s, Spawn(t, op))
    ensures SenderInv.Inv(cfg, s') && s'.sh == s.sh
    ensures t in s'.tasks && s'.tasks[t].op == op && s'.tasks[t].pc == StartPc(op)
  {
    hide SenderInv.Inv, TaskStep, ReadEntry, Link.Next, Consumer.UserPop;
    NextKeepsInv(cfg, s, Spawn(t, op));
  }

  /** A new task has yet to look its token up. */
  lemma ServedServe(cfg: Config, s: State, s': State, t: TaskId, e: EntryId)
    requires Lz4Inverts(cfg.env) && SenderInv.Inv(cfg, s.sender) && s.client.Connected? && ServedOk(cfg, s, e)
    requires s.handler.Reading? && s.requests != [] && t !in s.sender.tasks
    requires s' == s.(requests := s.requests[1..], handler := Handling(t),
                      sender := Sender.Next(cfg, s.sender, Spawn(t, OpOf(s.requests[0]))))
    ensures SenderInv.Inv(cfg, s'.sender) && ServedOk(cfg, s', e)
  {
    hide Sender.Next, SenderInv.Inv, SharedInv, InTable;
    Spawned(cfg, s.sender, s'.sender, t, OpOf(s.requests[0]));
    SenderShared(cfg, s'.sender);
    assert TokenOf(OpOf(s.requests[0])) == Some(s.client.token);
  }

  lemma ServeKeeps(cfg: Config, s: State, t: TaskId)
    requires Lz4Inverts(cfg.env) && Inv(cfg, s)
    ensures Inv(cfg, Next(cfg, s, Serve(t)))
  {
    hide Sender.Next, SenderInv.Inv, SharedInv, Issued, ServedOk;
    var s' := Next(cfg, s, Serve(t));
    SenderShared(cfg, s.sender);
    if s.handler.Reading? && s.requests != [] && t !in s.sender.tasks {
      Spawned(cfg, s.sender, s'.sender, t, OpOf(s.requests[0]));
      SenderShared(cfg, s'.sender);
      if s.client.Connected? {
        var e :| ServedOk(cfg, s, e);
        ServedServe(cfg, s, s', t, e);
      }
    }
  }

  lemma AnswerKeeps(cfg: Config, s: State)
    requires Inv(cfg, s)
    ensures Inv(cfg, Next(cfg, s, Answer))
  {
    hide Sender.Next, SenderInv.Inv, SharedInv, Issued, Gone, Subscriptions;
    var s' := Next(cfg, s, Answer);
    SenderShared(cfg, s.sender);
    if s.handler.Handling? && s.handler.t in s.sender.tasks && s.sender.tasks[s.handler.t].pc.Done? {
      DoneOk(cfg, s.sender, s.handler.t);
      if s.client.Connected? {
        var e :| ServedOk(cfg, s, e);
        assert ServedOk(cfg, s', e);
      }
    }
  }

  lemma NextKeeps(cfg: Config, s: State, a: Action)
    requires Lz4Inverts(cfg.env) && Inv(cfg, s)
    ensures Inv(cfg, Next(cfg, s, a))
  {
    hide Inv, Next;
    match a
    case Serve(t) => ServeKeeps(cfg, s, t);
    case Answer => AnswerKeeps(cfg, s);
    case Elsewhere(b) => ElsewhereKeeps(cfg, s, b);
    case _ => ClientKeeps(cfg, s, a);
  }

  lemma {:induction false} RunKeeps(cfg: Config, actions: seq<Action>)
    requires Lz4Inverts(cfg.env)
    ensures Inv(cfg, Run(cfg, Init(), actions))
  {
    hide Next, Inv;
    if actions == [] {
      assert Inv(cfg, Init()) by { StartInv(cfg); }
    } else {
      var n := |actions| - 1;
      RunKeeps(cfg, actions[..n]);
      NextKeeps(cfg, Run(cfg, Init(), actions[..n]), actions[n]);
    }
  }

  lemma StartInv(cfg: Config)
    ensures Inv(cfg, Init())
  {
    InitInv(cfg);
    hide SenderInv.Inv;
  }

  // ----- What the socket promises -----

  /** Lockstep, for every mix of subscriptions and pings: while the handler runs, a consumer that awaits a reply
      has exactly one subscription in flight, being handled or answered, and one that awaits none has none. */
  lemma ControlLockstep(cfg: Config, actions: seq<Action>)
    requires Lz4Inverts(cfg.env)
    ensures var s := Run(cfg, Init(), actions);
            !s.handler.Ended? ==> Outstanding(s) == if Awaiting(s.client) then 1 else 0
  {
    hide Run, SenderInv.Inv, SharedInv, Outstanding;
    RunKeeps(cfg, actions);
  }

  /** The task that served the bootstrap request drew this token's id. */
  ghost predicate HandshakeDrew(s: State, token: SlotToken) {
    && s.boot.Some? && Drew(s.sender.sh, s.boot.value, token.generation)
    && s.boot.value in s.sender.tasks && s.sender.tasks[s.boot.value].op == Upsert(Boot())
  }

  /** The handshake's replies, and the token the consumer keeps, carry an id drawn by the handshake's own task. */
  ghost predicate Own(s: State) {
    && (s.boot.Some? ==> s.boot.value in s.sender.tasks && s.sender.tasks[s.boot.value].op == Upsert(Boot()))
    && (s.client.AwaitingReady? ==>
          && (s.handler.Handling? ==> s.boot == Some(s.handler.t))
          && forall i | 0 <= i < |s.replies| :: HandshakeDrew(s, s.replies[i].token))
    && (s.client.Connected? ==> HandshakeDrew(s, s.client.token))
  }

  lemma NextKeepsOwn(cfg: Config, s: State, a: Action)
    requires Lz4Inverts(cfg.env) && Inv(cfg, s) && Own(s)
    ensures Own(Next(cfg, s, a))
  {
    hide Sender.Next, SenderInv.Inv, SharedInv, Issued, ServedOk, Drew;
    var s' := Next(cfg, s, a);
    SenderShared(cfg, s.sender);
    if s.client.Connected? {
      NextKeepsToken(cfg, s, a);
    }
    match a {
      case Elsewhere(b) => ElsewhereKeepsOwn(cfg, s, s', b);
      case Serve(t) =>
        if s.handler.Reading? && s.requests != [] && t !in s.sender.tasks {
          Spawned(cfg, s.sender, s'.sender, t, OpOf(s.requests[0]));
          if s.boot.Some? {
            SenderOpKept(cfg, s.sender, Spawn(t, OpOf(s.requests[0])), s.boot.value);
          }
        }
      case Answer =>
        if s.handler.Handling? && s.handler.t in s.sender.tasks && s.sender.tasks[s.handler.t].pc.Done? {
          DoneOk(cfg, s.sender, s.handler.t);
        }
      case _ =>
    }
  }

  lemma ElsewhereKeepsOwn(cfg: Config, s: State, s': State, a: Sender.Action)
    requires Lz4Inverts(cfg.env) && SenderInv.Inv(cfg, s.sender) && Own(s)
    requires s' == s.(sender := Sender.Next(cfg, s.sender, a))
    ensures Own(s')
  {
    hide Sender.Next, SenderInv.Inv, Drew;
    if s.boot.Some? {
      SenderOpKept(cfg, s.sender, a, s.boot.value);
    }
    forall token | HandshakeDrew(s, token)
      ensures HandshakeDrew(s', token)
    {
      DrewKept(cfg, s.sender, a, s.boot.value, token.generation);
    }
  }

  lemma DrewKept(cfg: Config, s: Sender.State, a: Sender.Action, t: TaskId, id: nat)
    requires Lz4Inverts(cfg.env) && SenderInv.Inv(cfg, s) && Drew(s.sh, t, id)
    ensures Drew(Sender.Next(cfg, s, a).sh, t, id)
  {
    hide Sender.Next, EntryInv, Local, Linked, EntryEvolves;
    var _ := NextEvolves(cfg, s, a);
  }

  lemma {:induction false} RunKeepsOwn(cfg: Config, actions: seq<Action>)
    requires Lz4Inverts(cfg.env)
    ensures Own(Run(cfg, Init(), actions))
  {
    hide Next, Inv;
    if actions != [] {
      var n := |actions| - 1;
      RunKeeps(cfg, actions[..n]);
      RunKeepsOwn(cfg, actions[..n]);
      NextKeepsOwn(cfg, Run(cfg, Init(), actions[..n]), actions[n]);
    }
  }

  /** A handshake is answered only with an installed connection whose id was drawn by the handshake's own task, so
      one that is new, and that is the token the consumer keeps; it fails only if the sender gave up on the socket. */
  lemma HandshakeOutcome(cfg: Config, actions: seq<Action>)
    requires Lz4Inverts(cfg.env)
    ensures var s := Run(cfg, Init(), actions);
            && (s.client.SetupFailed? ==> s.handler.Ended?)
            && (s.client.AwaitingReady? ==>
                  forall i | 0 <= i < |s.replies| ::
                    && s.replies[i].ConnectionReadyShm?
                    && (exists e | e in s.sender.sh.installs ::
                          e < |s.sender.sh.entries| && Token(s.sender.sh.entries[e]) == s.replies[i].token)
                    && HandshakeDrew(s, s.replies[i].token))
            && (s.client.Connected? ==> HandshakeDrew(s, s.client.token))
  {
    hide Run, SenderInv.Inv, SharedInv, Issued, Outstanding, ServedOk, Drew;
    RunKeeps(cfg, actions);
    RunKeepsOwn(cfg, actions);
    var s := Run(cfg, Init(), actions);
    SenderShared(cfg, s.sender);
    if s.client.AwaitingReady? {
      forall i | 0 <= i < |s.replies|
        ensures exists e | e in s.sender.sh.installs ::
                  e < |s.sender.sh.entries| && Token(s.sender.sh.entries[e]) == s.replies[i].token
      {
        IssuedInstalled(cfg, s.sender.sh, s.replies[i].token);
      }
    }
  }

  lemma IssuedInstalled(cfg: Config, sh: Shared, token: SlotToken)
    requires SharedInv(cfg, sh) && Issued(sh, token)
    ensures exists e | e in sh.installs :: e < |sh.entries| && Token(sh.entries[e]) == token
  {
    hide EntryInv;
    var k :| 0 <= k < |sh.installs| && Token(sh.entries[sh.installs[k]]) == token;
    assert sh.installs[k] in sh.installs;
  }

  /** The token a consumer holds never changes after its handshake, and always has a slot of the table. */
  lemma {:induction false} TokenNeverChanges(cfg: Config, actions: seq<Action>, more: seq<Action>)
    requires Lz4Inverts(cfg.env) && Run(cfg, Init(), actions).client.Connected?
    ensures var s := Run(cfg, Init(), actions);
            var s' := Run(cfg, s, more);
            && Inv(cfg, s') && s'.client.Connected? && s'.client.token == s.client.token
            && s.client.token.slotIndex < SLOTS
  {
    hide Next, Inv;
    RunKeeps(cfg, actions);
    TokenInRange(cfg, Run(cfg, Init(), actions));
    if more != [] {
      var n := |more| - 1;
      TokenNeverChanges(cfg, actions, more[..n]);
      var before := Run(cfg, Run(cfg, Init(), actions), more[..n]);
      NextKeeps(cfg, before, more[n]);
      NextKeepsToken(cfg, before, more[n]);
    }
  }

  lemma TokenInRange(cfg: Config, s: State)
    requires Inv(cfg, s) && s.client.Connected?
    ensures s.client.token.slotIndex < SLOTS
  {
    hide Local, Linked, EntryInv, Sought, Outstanding;
  }

  lemma NextKeepsToken(cfg: Config, s: State, a: Action)
    requires Inv(cfg, s) && s.client.Connected?
    ensures Next(cfg, s, a).client.Connected? && Next(cfg, s, a).client.token == s.client.token
  {
    hide Sender.Next, SenderInv.Inv, SharedInv, Outstanding, Sought, Gone;
    SenderShared(cfg, s.sender);
  }

  /** A subscription with a token is refused, or answered with another connection, only when the consumer's own
      connection has left the table; its token then resolves to nothing, at any later time. */
  lemma RefusedMeansGone(cfg: Config, actions: seq<Action>, more: seq<Sender.Action>)
    requires Lz4Inverts(cfg.env)
    requires var s := Run(cfg, Init(), actions);
             && s.client.Connected?
             && (s.handler.Ended? || exists i | 0 <= i < |s.replies| :: s.replies[i].ConnectionReadyShm?)
    ensures var s := Run(cfg, Init(), actions);
            var sh := Sender.Run(cfg, s.sender, more).sh;
            Wf(sh) && Resolve(sh, s.client.token) == None
  {
    var s := Run(cfg, Init(), actions);
    hide Run, Local, Linked, EntryInv, Outstanding, Sought;
    RunKeeps(cfg, actions);
    var e :| ServedOk(cfg, s, e);
    GoneForGood(cfg, s.sender, more, e);
  }

  lemma GoneForGood(cfg: Config, s: Sender.State, more: seq<Sender.Action>, e: EntryId)
    requires Lz4Inverts(cfg.env) && SenderInv.Inv(cfg, s) && Gone(cfg, s, e)
    ensures var sh := Sender.Run(cfg, s, more).sh; Wf(sh) && Resolve(sh, Token(s.sh.entries[e])) == None
  {
    hide Sender.Run, Local, Linked, EntryInv;
    RunKeepsConnection(cfg, s, more, e);
    var s' := Sender.Run(cfg, s, more);
    var found := Resolve(s'.sh, Token(s.sh.entries[e]));
    if found.Some? {
      SameId(cfg, s'.sh, found.value, e);
    }
  }
}
