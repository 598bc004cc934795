/** What a consumer subscribed to is what the sender was asked for, and what its reply answers. */
module ControlRequests {
  import opened Types
  import Consumer
  import Link
  import Sender
  import SenderInv
  import SenderTheorems
  import opened Control

  /** The latest subscribe that got through in a run. */
  ghost function Asked(cfg: Sender.Config, actions: seq<Action>): Option<Action> {
    if actions == [] then None
    else
      var n := |actions| - 1;
      var s := Run(cfg, Init(), actions[..n]);
      if actions[n].Subscribe? && s.client.Connected? && !s.client.awaiting && !s.handler.Ended? then Some(actions[n])
      else Asked(cfg, actions[..n])
  }

  /** The task served exactly this request, and the reply is its outcome. */
  predicate AnswerTo(task: Sender.Task, request: SubscriptionRequest, reply: ControlReply) {
    && task.op == Sender.Upsert(request)
    && task.pc == Sender.Done(if reply.ConnectionReady? then Sender.Existing(reply.token)
                              else Sender.Created(reply.token))
  }

  predicate Answers(s: Sender.State, request: SubscriptionRequest, reply: ControlReply) {
    exists t | t in s.tasks :: AnswerTo(s.tasks[t], request, reply)
  }

  /** A subscription under way is the one asked for, wherever it is. */
  ghost predicate Carries(s: State, request: SubscriptionRequest) {
    && (forall i | 0 <= i < |s.requests| && s.requests[i].Subscription? :: s.requests[i].request == request)
    && (s.handler.Handling? && s.handler.t in s.sender.tasks && s.sender.tasks[s.handler.t].op.Upsert? ==>
          s.sender.tasks[s.handler.t].op.request == request)
    && (forall i | 0 <= i < |s.replies| :: Answers(s.sender, request, s.replies[i]))
  }

  predicate Waits(s: State) {
    s.client.Connected? && s.client.awaiting && !s.handler.Ended?
  }

  lemma {:induction false} NoSubscriptions(frames: seq<ClientFrame>)
    requires Subscriptions(frames) == 0
    ensures forall i | 0 <= i < |frames| :: !frames[i].Subscription?
  {
    if frames != [] {
      NoSubscriptions(frames[1..]);
      assert forall i | 1 <= i < |frames| :: frames[i] == frames[1..][i - 1];
    }
  }

  lemma TaskKept(cfg: Sender.Config, s: Sender.State, a: Sender.Action, t: Sender.TaskId)
    requires t in s.tasks && s.tasks[t].pc.Done?
    ensures var s' := Sender.Next(cfg, s, a); t in s'.tasks && s'.tasks[t] == s.tasks[t]
  {
    hide Sender.InstallStep, Sender.DispatchStep, Sender.ReadEntry, Link.Next, Consumer.UserPop;
  }

  lemma SenderKeepsCarries(cfg: Sender.Config, s: State, s': State, a: Sender.Action, request: SubscriptionRequest)
    requires Carries(s, request) && s'.sender == Sender.Next(cfg, s.sender, a)
    requires s'.replies == s.replies && s'.requests == s.requests
    requires s'.handler == s.handler && (s.handler.Handling? ==> s.handler.t in s.sender.tasks)
    ensures Carries(s', request)
  {
    hide Sender.Next;
    if s.handler.Handling? {
      SenderOpKept(cfg, s.sender, a, s.handler.t);
    }
    forall i | 0 <= i < |s.replies|
      ensures Answers(s'.sender, request, s.replies[i])
    {
      assert Answers(s.sender, request, s.replies[i]);
      var t :| t in s.sender.tasks && AnswerTo(s.sender.tasks[t], request, s.replies[i]);
      TaskKept(cfg, s.sender, a, t);
      assert t in s'.sender.tasks && AnswerTo(s'.sender.tasks[t], request, s.replies[i]);
    }
  }

  lemma ServeKeepsCarries(cfg: Sender.Config, s: State, t: Sender.TaskId, request: SubscriptionRequest)
    requires Lz4Inverts(cfg.env) && Inv(cfg, s) && Carries(s, request)
    ensures Carries(Next(cfg, s, Serve(t)), request)
  {
    hide Sender.Next, SenderInv.Inv, SenderInv.SharedInv, ServedOk, BootOk;
    if s.handler.Reading? && s.requests != [] && t !in s.sender.tasks {
      var op := OpOf(s.requests[0]);
      var mid := s.(sender := Sender.Next(cfg, s.sender, Sender.Spawn(t, op)));
      SenderKeepsCarries(cfg, s, mid, Sender.Spawn(t, op), request);
      Spawned(cfg, s.sender, mid.sender, t, op);
      var s' := Next(cfg, s, Serve(t));
      assert forall i | 0 <= i < |s'.requests| :: s'.requests[i] == s.requests[i + 1];
    }
  }

  lemma AnswerKeepsCarries(cfg: Sender.Config, s: State, request: SubscriptionRequest)
    requires Inv(cfg, s) && Carries(s, request)
    ensures Carries(Next(cfg, s, Answer), request)
  {
    hide Sender.Next, SenderInv.Inv, SenderInv.SharedInv, ServedOk, BootOk;
    var s' := Next(cfg, s, Answer);
    if s.handler.Handling? && s.handler.t in s.sender.tasks && s.sender.tasks[s.handler.t].pc.Done? {
      SenderTheorems.DoneOk(cfg, s.sender, s.handler.t);
      var task := s.sender.tasks[s.handler.t];
      if |s.replies| < |s'.replies| {
        assert AnswerTo(task, request, s'.replies[|s.replies|]);
      }
    }
  }

  /** One step, from the request that was asked for before it to the one asked for after. */
  lemma NextKeepsCarries(cfg: Sender.Config, s: State, a: Action, before: Option<Action>, after: Option<Action>)
    requires Lz4Inverts(cfg.env) && Inv(cfg, s)
    requires Waits(s) ==> before.Some? && before.value.Subscribe? && Carries(s, Asking(s.client.token, before.value))
    requires after == if a.Subscribe? && s.client.Connected? && !s.client.awaiting && !s.handler.Ended? then Some(a)
                      else before
    ensures var s' := Next(cfg, s, a);
            Waits(s') ==> after.Some? && after.value.Subscribe? && Carries(s', Asking(s'.client.token, after.value))
  {
    hide Sender.Next, SenderInv.Inv, SenderInv.SharedInv, ServedOk, BootOk, Carries;
    var s' := Next(cfg, s, a);
    if s.client.Connected? {
      NextKeepsToken(cfg, s, a);
    }
    if Waits(s') {
      match a
      case Subscribe(_, _, _) => SubscribeCarries(cfg, s, a, before);
      case Elsewhere(b) => SenderKeepsCarries(cfg, s, s', b, Asking(s.client.token, before.value));
      case Serve(t) => ServeKeepsCarries(cfg, s, t, Asking(s.client.token, before.value));
      case Answer => AnswerKeepsCarries(cfg, s, Asking(s.client.token, before.value));
      case _ =>
    }
  }

  /** The request a subscribe should send: the consumer's token, and its arguments untouched. */
  function Asking(token: SlotToken, a: Action): SubscriptionRequest
    requires a.Subscribe?
  {
    SubscriptionRequest(Some(token), a.pubkeys, a.owners, a.includeTransactions)
  }

  lemma SubscribeCarries(cfg: Sender.Config, s: State, a: Action, before: Option<Action>)
    requires Inv(cfg, s) && a.Subscribe? && s.client.Connected?
    requires Waits(s) ==> before.Some? && before.value.Subscribe? && Carries(s, Asking(s.client.token, before.value))
    requires Waits(Next(cfg, s, a))
    ensures var s' := Next(cfg, s, a);
            if Waits(s) then s' == s else Carries(s', Asking(s'.client.token, a))
  {
    hide Sender.Next, SenderInv.Inv, SenderInv.SharedInv, ServedOk, BootOk;
    if !Waits(s) {
      NoSubscriptions(s.requests);
    }
  }

  lemma {:induction false} RunCarries(cfg: Sender.Config, actions: seq<Action>)
    requires Lz4Inverts(cfg.env)
    ensures var s, asked := Run(cfg, Init(), actions), Asked(cfg, actions);
            Waits(s) ==> asked.Some? && asked.value.Subscribe? && Carries(s, Asking(s.client.token, asked.value))
  {
    hide Next, Inv, Carries;
    if actions != [] {
      var n := |actions| - 1;
      RunKeeps(cfg, actions[..n]);
      RunCarries(cfg, actions[..n]);
      NextKeepsCarries(cfg, Run(cfg, Init(), actions[..n]), actions[n], Asked(cfg, actions[..n]), Asked(cfg, actions));
    }
  }

  /** In every run: while a consumer waits for the reply to a subscribe, the one subscription on its socket, in its
      handler or behind the unread reply carries the consumer's token and exactly the accounts, owners and flag of
      that subscribe; and a reply is the outcome of a task that served this very request. */
  lemma SubscribesToWhatWasAsked(cfg: Sender.Config, actions: seq<Action>)
    requires Lz4Inverts(cfg.env)
    requires var s := Run(cfg, Init(), actions); s.client.Connected? && s.client.awaiting && !s.handler.Ended?
    ensures var s := Run(cfg, Init(), actions);
            var asked := Asked(cfg, actions);
            && asked.Some? && asked.value.Subscribe?
            && var request := SubscriptionRequest(Some(s.client.token), asked.value.pubkeys, asked.value.owners,
                                                  asked.value.includeTransactions);
            && (forall i | 0 <= i < |s.requests| && s.requests[i].Subscription? :: s.requests[i].request == request)
            && (s.handler.Handling? && s.handler.t in s.sender.tasks && s.sender.tasks[s.handler.t].op.Upsert? ==>
                  s.sender.tasks[s.handler.t].op.request == request)
            && (forall i | 0 <= i < |s.replies| :: Answers(s.sender, request, s.replies[i]))
  {
    hide Run, Asked;
    RunCarries(cfg, actions);
  }
}
