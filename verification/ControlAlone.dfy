/** Whole calls of a consumer, from its request to the reply it reads, when nothing else runs. */
module ControlAlone {
  import opened Types
  import Sender
  import SenderInv
  import opened SenderAlone
  import opened Control

  /** The socket after `n` steps of one of the sender's tasks. */
  ghost function Steps(cfg: Sender.Config, s: State, t: Sender.TaskId, oracle: Oracle, n: nat): State
    decreases n
  {
    if n == 0 || t !in s.sender.tasks then s
    else Steps(cfg, Next(cfg, s, Elsewhere(Sender.Step(t, oracle(s.sender.tasks[t].pc)))), t, oracle, n - 1)
  }

  lemma {:induction false} StepsAlone(cfg: Sender.Config, s: State, t: Sender.TaskId, oracle: Oracle, n: nat)
    requires t in s.sender.tasks
    ensures Steps(cfg, s, t, oracle, n) == s.(sender := Alone(cfg, s.sender, t, oracle, n))
    decreases n
  {
    hide Sender.Next;
    if n > 0 {
      var a := Sender.Step(t, oracle(s.sender.tasks[t].pc));
      SenderOpKept(cfg, s.sender, a, t);
      StepsAlone(cfg, Next(cfg, s, Elsewhere(a)), t, oracle, n - 1);
    }
  }

  /** A call of the consumer, served by task `t` in `n` steps and answered. */
  ghost function Call(cfg: Sender.Config, s: State, a: Action, t: Sender.TaskId, oracle: Oracle, n: nat): State {
    Next(cfg, Steps(cfg, Next(cfg, Next(cfg, s, a), Serve(t)), t, oracle, n), Answer)
  }

  /** Nothing is under way on the socket. */
  predicate Idle(s: State) {
    s.handler.Reading? && s.requests == [] && s.replies == []
  }

  /** Sending and serving one frame on an idle socket: the task is at its start, with exactly that frame to serve. */
  lemma Serves(cfg: Sender.Config, s: State, a: Action, t: Sender.TaskId, frame: ClientFrame, s1: State, s2: State)
    requires Lz4Inverts(cfg.env) && Inv(cfg, s) && Idle(s) && t !in s.sender.tasks
    requires s1 == Next(cfg, s, a) && s2 == Next(cfg, s1, Serve(t))
    requires s1.requests == [frame] && s1.sender == s.sender && s1.handler == s.handler && s1.replies == s.replies
    ensures SenderInv.Inv(cfg, s2.sender) && SenderInv.SharedInv(cfg, s2.sender.sh)
    ensures s2.sender.sh == s.sender.sh && t in s2.sender.tasks
    ensures s2.sender.tasks[t].op == OpOf(frame) && s2.sender.tasks[t].pc == Sender.StartPc(OpOf(frame))
    ensures s2.handler == Handling(t) && s2.requests == [] && s2.replies == [] && s2.client == s1.client
  {
    hide Sender.Next, SenderInv.Inv, SenderInv.SharedInv, ServedOk, BootOk;
    Spawned(cfg, s.sender, s2.sender, t, OpOf(frame));
    SenderShared(cfg, s2.sender);
  }

  /** A subscribe of a consumer whose connection is live: the call succeeds with the token kept, and the connection has
      been stamped and given exactly the request the consumer made. Nothing else of the sender has changed. */
  lemma SubscribeCall(cfg: Sender.Config, s: State, a: Action, t: Sender.TaskId, oracle: Oracle, e: Sender.EntryId)
    requires Lz4Inverts(cfg.env) && Inv(cfg, s) && Idle(s) && t !in s.sender.tasks && a.Subscribe?
    requires s.client.Connected? && !s.client.awaiting && Sender.Wf(s.sender.sh)
    requires LiveTo(s.sender.sh, oracle, s.client.token, e)
    ensures var z := Next(cfg, Call(cfg, s, a, t, oracle, 5), ReadReply);
            var sh, sh' := s.sender.sh, z.sender.sh;
            && z.client == s.client && Idle(z) && |sh.entries| == |sh'.entries|
            && sh'.entries[e].cell.requests == sh.entries[e].cell.requests
               + [SubscriptionRequest(Some(s.client.token), a.pubkeys, a.owners, a.includeTransactions)]
            && sh' == sh.(entries := sh.entries[e := sh.entries[e].(lastSeen := oracle(Sender.Touch(e)).now,
                                                                    cell := sh'.entries[e].cell)])
  {
    hide Sender.Next, Inv, SenderInv.Inv, SenderInv.SharedInv, Alone, LiveTo;
    var s1 := Next(cfg, s, a);
    var s2 := Next(cfg, s1, Serve(t));
    var request := SubscriptionRequest(Some(s.client.token), a.pubkeys, a.owners, a.includeTransactions);
    assert s1.requests == [Subscription(request)];
    Serves(cfg, s, a, t, Subscription(request), s1, s2);
    TokenOfLive(cfg, s2.sender, oracle, s.client.token, e);
    RenewAlone(cfg, s2.sender, t, oracle, e);
    StepsAlone(cfg, s2, t, oracle, 5);
    Replies(cfg, s2.(sender := Alone(cfg, s2.sender, t, oracle, 5)), t);
  }

  /** The subscription's task is done: its answer is written and read, and the token is what it was. */
  lemma Replies(cfg: Sender.Config, s: State, t: Sender.TaskId)
    requires s.handler == Handling(t) && s.requests == [] && s.replies == [] && s.client.Connected? && s.client.awaiting
    requires t in s.sender.tasks && s.sender.tasks[t].pc == Sender.Done(Sender.Existing(s.client.token))
    ensures var z := Next(cfg, Next(cfg, s, Answer), ReadReply);
            z.client == Connected(s.client.token, false) && Idle(z) && z.sender == s.sender
  {
    hide Sender.Next;
  }

  /** A ping of a consumer whose connection is live stamps it, is not answered, and changes nothing else. */
  lemma PingCall(cfg: Sender.Config, s: State, t: Sender.TaskId, oracle: Oracle, e: Sender.EntryId)
    requires Lz4Inverts(cfg.env) && Inv(cfg, s) && Idle(s) && t !in s.sender.tasks
    requires s.client.Connected? && !s.client.awaiting && Sender.Wf(s.sender.sh)
    requires LiveTo(s.sender.sh, oracle, s.client.token, e)
    ensures var z := Call(cfg, s, SendPing, t, oracle, 3);
            var sh := s.sender.sh;
            && z.client == s.client && Idle(z) && e < |sh.entries|
            && z.sender.sh == sh.(entries := sh.entries[e := sh.entries[e].(lastSeen := oracle(Sender.Touch(e)).now)])
  {
    hide Sender.Next, Inv, SenderInv.Inv, SenderInv.SharedInv, Alone, LiveTo;
    var s1 := Next(cfg, s, SendPing);
    var s2 := Next(cfg, s1, Serve(t));
    assert s1.requests == [PingFrame(s.client.token)];
    Serves(cfg, s, SendPing, t, PingFrame(s.client.token), s1, s2);
    TokenOfLive(cfg, s2.sender, oracle, s.client.token, e);
    PingAlone(cfg, s2.sender, t, oracle, e);
    StepsAlone(cfg, s2, t, oracle, 3);
  }

  /** A handshake: the consumer gets a new connection in the lowest slot that holds no connection seen within thirty
      seconds, if there is such a slot and a ring can be made for it; otherwise it fails, and the sender gives up. */
  lemma HandshakeCall(cfg: Sender.Config, s: State, t: Sender.TaskId, oracle: Oracle) returns (n: nat)
    requires Lz4Inverts(cfg.env) && Inv(cfg, s) && s.client.Fresh? && t !in s.sender.tasks && Sender.Wf(s.sender.sh)
    ensures var z := Next(cfg, Call(cfg, s, Bootstrap, t, oracle, n), ReadReply);
            var sh := s.sender.sh;
            && (forall j | 0 <= j < 10 && !Taken(sh, oracle, j) && (forall i | 0 <= i < j :: Taken(sh, oracle, i)) ::
                  if CanCreate(cfg, oracle(Sender.Create(j, |sh.installs|)))
                  then z.client == Connected(SlotToken(j, sh.nextId), false) && Idle(z)
                  else z.client == SetupFailed && z.handler == Ended)
            && ((forall i | 0 <= i < 10 :: Taken(sh, oracle, i)) ==> z.client == SetupFailed && z.handler == Ended)
  {
    hide Sender.Next, Inv, SenderInv.Inv, SenderInv.SharedInv, Alone, Taken, CanCreate, InstalledAlone;
    assert Idle(s) by { FreshIdle(cfg, s); }
    var s1 := Next(cfg, s, Bootstrap);
    var s2 := Next(cfg, s1, Serve(t));
    assert s1.requests == [Subscription(Boot())];
    Serves(cfg, s, Bootstrap, t, Subscription(Boot()), s1, s2);
    n := InstallAlone(cfg, s2.sender, t, oracle);
    var z := Alone(cfg, s2.sender, t, oracle, n);
    InstallAnswer(cfg, s2.sender, t, oracle, z);
    StepsAlone(cfg, s2, t, oracle, n);
    Settles(cfg, s2.(sender := z), t);
  }

  /** How an install that ran by itself ended. */
  lemma InstallAnswer(cfg: Sender.Config, s: Sender.State, t: Sender.TaskId, oracle: Oracle, z: Sender.State)
    requires Sender.Wf(s.sh) && t in s.tasks && s.tasks[t].op.Upsert? && InstalledAlone(cfg, s, t, oracle, z)
    ensures t in z.tasks && z.tasks[t].pc.Done?
    ensures (forall i | 0 <= i < 10 :: Taken(s.sh, oracle, i)) ==> z.tasks[t].pc.outcome == Sender.Exhausted
    ensures forall j | 0 <= j < 10 && !Taken(s.sh, oracle, j) && (forall i | 0 <= i < j :: Taken(s.sh, oracle, i)) ::
              z.tasks[t].pc.outcome == if CanCreate(cfg, oracle(Sender.Create(j, |s.sh.installs|)))
                                       then Sender.Created(SlotToken(j, s.sh.nextId)) else Sender.CreateFailed
  {
    hide Taken, CanCreate;
  }

  /** The handshake's task is done: its answer is written and read. */
  lemma Settles(cfg: Sender.Config, s: State, t: Sender.TaskId)
    requires s.handler == Handling(t) && s.requests == [] && s.replies == [] && s.client.AwaitingReady?
    requires t in s.sender.tasks && s.sender.tasks[t].pc.Done?
    ensures var z := Next(cfg, Next(cfg, s, Answer), ReadReply);
            match s.sender.tasks[t].pc.outcome
            case Created(token) => z.client == Connected(token, false) && Idle(z)
            case Exhausted => z.client == SetupFailed && z.handler == Ended
            case CreateFailed => z.client == SetupFailed && z.handler == Ended
            case _ => true
  {
    hide Sender.Next;
  }

  lemma FreshIdle(cfg: Sender.Config, s: State)
    requires Inv(cfg, s) && s.client.Fresh?
    ensures Idle(s)
  {
    hide SenderInv.Inv, Lockstep;
  }
}
