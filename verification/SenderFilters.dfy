/** Subscriptions of one connection: applying a request loads the filter and stores a new one in two separate
    steps, so a request stored by another task in between is lost. */
module SenderFilters {
  import opened Types
  import opened Framing
  import Codec
  import Consumer
  import Link
  import opened Filter
  import opened Sender
  import opened SenderInv
  import opened SenderSteps
  import opened SenderTheorems

  predicate Storing(s: State, t: TaskId, e: EntryId) {
    t in s.tasks && s.tasks[t].op.Upsert? && s.tasks[t].pc.FilterStore? && s.tasks[t].pc.e == e
  }

  lemma TaskStepCell(cfg: Config, sh: Shared, t: TaskId, task: Task, inp: Input, e: EntryId)
    requires Wf(sh) && Shape(sh, task) && e < |sh.entries|
    ensures var (sh', task') := TaskStep(cfg, sh, t, task, inp);
            && e < |sh'.entries|
            && (if task.pc.FilterStore? && task.pc.e == e
                then sh'.entries[e].cell.requests == task.pc.cell.requests + [task.op.request] && task'.pc.Done?
                else sh'.entries[e].cell == sh.entries[e].cell)
            && (task'.pc.FilterStore? && task'.pc.e == e ==> task'.pc.cell == sh.entries[e].cell)
  {
    hide WithRequest, FromRequest, Link.Next, Matches, Codec.EncodeUpdate, PushFrame;
  }

  /** The requests a connection's filter was built from. */
  ghost function Requests(s: State, e: EntryId): seq<SubscriptionRequest>
    requires e < |s.sh.entries|
  {
    s.sh.entries[e].cell.requests
  }

  /** One step's effect on a connection's filter: a store adds one request to what was loaded, and nothing else
      changes it. */
  ghost predicate CellStep(s: State, a: Action, s': State, e: EntryId)
    requires e < |s.sh.entries|
  {
    && e < |s'.sh.entries|
    && if a.Step? && Storing(s, a.t, e)
       then Requests(s', e) == s.tasks[a.t].pc.cell.requests + [s.tasks[a.t].op.request] && !Storing(s', a.t, e)
       else
         && s'.sh.entries[e].cell == s.sh.entries[e].cell
         && (a.Step? && Storing(s', a.t, e) ==> s'.tasks[a.t].pc.cell == s.sh.entries[e].cell)
  }

  lemma NextCell(cfg: Config, s: State, a: Action, s': State, e: EntryId)
    requires SenderInv.Inv(cfg, s) && s' == Next(cfg, s, a) && e < |s.sh.entries|
    ensures CellStep(s, a, s', e)
    ensures forall u | (a.Step? ==> u != a.t) && Storing(s', u, e) :: Storing(s, u, e) && s'.tasks[u] == s.tasks[u]
  {
    hide EntryInv, TaskOk, Linked, TaskStep, Link.Next, Consumer.UserPop, Consumer.Receive;
    if a.Step? && a.t in s.tasks {
      TaskShape(cfg, s, a.t);
      TaskStepCell(cfg, s.sh, a.t, s.tasks[a.t], a.input, e);
    }
  }

  /** A task loads and stores only filters of connections that exist. */
  lemma NothingStored(cfg: Config, s: State, a: Action, s': State, e: EntryId, t: TaskId)
    requires SenderInv.Inv(cfg, s) && s' == Next(cfg, s, a) && |s.sh.entries| <= e
    ensures !Storing(s', t, e)
  {
    hide EntryInv, TaskOk, Linked, TaskStep, Link.Next, Consumer.UserPop, Consumer.Receive;
    if t in s.tasks {
      TaskShape(cfg, s, t);
      if a.Step? && a.t == t {
        TaskStepLoads(cfg, s.sh, t, s.tasks[t], a.input);
      }
    }
  }

  lemma TaskStepLoads(cfg: Config, sh: Shared, t: TaskId, task: Task, inp: Input)
    requires Wf(sh) && Shape(sh, task)
    ensures var task' := TaskStep(cfg, sh, t, task, inp).1;
            task'.pc.FilterStore? ==> Held(task.pc) == Some(task'.pc.e)
  {
    hide WithRequest, FromRequest, Link.Next, Matches, Codec.EncodeUpdate, PushFrame;
  }

  // ----- One store -----

  /** A store keeps what is in place exactly when that is an initial stretch of what the task is about to store. */
  lemma StoreKeepsIff(cfg: Config, s: State, t: TaskId, i: Input, s': State, e: EntryId)
    requires SenderInv.Inv(cfg, s) && e < |s.sh.entries| && Storing(s, t, e) && s' == Next(cfg, s, Step(t, i))
    ensures e < |s'.sh.entries|
    ensures Requests(s, e) <= Requests(s', e) <==>
            Requests(s, e) <= s.tasks[t].pc.cell.requests + [s.tasks[t].op.request]
  {
    hide Next, SenderInv.Inv;
    NextCell(cfg, s, Step(t, i), s', e);
  }

  /** Two tasks about to store, whatever each of them loaded: the request of the one that stores first is in the
      filter afterwards exactly if the other one had loaded it or carries it too. */
  lemma RequestLost(cfg: Config, s: State, first: TaskId, last: TaskId, i: Input, j: Input, e: EntryId)
    requires Lz4Inverts(cfg.env) && SenderInv.Inv(cfg, s) && e < |s.sh.entries|
    requires first != last && Storing(s, first, e) && Storing(s, last, e)
    ensures var s1 := Next(cfg, s, Step(first, i));
            var s2 := Next(cfg, s1, Step(last, j));
            && e < |s1.sh.entries| && e < |s2.sh.entries|
            && s.tasks[first].op.request in Requests(s1, e)
            && (s.tasks[first].op.request in Requests(s2, e) <==>
                  || s.tasks[first].op.request in s.tasks[last].pc.cell.requests
                  || s.tasks[first].op.request == s.tasks[last].op.request)
  {
    hide Next, SenderInv.Inv;
    var s1 := Next(cfg, s, Step(first, i));
    NextCell(cfg, s, Step(first, i), s1, e);
    NextKeepsInv(cfg, s, Step(first, i));
    OtherTaskSame(cfg, s, first, i, last);
    NextCell(cfg, s1, Step(last, j), Next(cfg, s1, Step(last, j)), e);
  }

  lemma OtherTaskSame(cfg: Config, s: State, t: TaskId, i: Input, u: TaskId)
    requires t != u && u in s.tasks
    ensures var s' := Next(cfg, s, Step(t, i)); u in s'.tasks && s'.tasks[u] == s.tasks[u]
  {
    hide TaskStep;
  }

  // ----- Whole runs -----

  /** Step `n` of the run drops no request from the filter of connection `e`. */
  ghost predicate Kept(cfg: Config, actions: seq<Action>, n: nat, e: EntryId)
    requires n < |actions|
  {
    var s, s' := At(cfg, actions, n), At(cfg, actions, n + 1);
    e < |s.sh.entries| ==> e < |s'.sh.entries| && Requests(s, e) <= Requests(s', e)
  }

  ghost predicate NothingLost(cfg: Config, actions: seq<Action>, e: EntryId) {
    forall n | 0 <= n < |actions| :: Kept(cfg, actions, n, e)
  }

  /** Since the task loaded the filter it builds on, nothing was stored in its place, or just its own request once. */
  ghost predicate Undisturbed(s: State, t: TaskId, e: EntryId)
    requires Storing(s, t, e)
  {
    && e < |s.sh.entries|
    && (|| Requests(s, e) == s.tasks[t].pc.cell.requests
        || Requests(s, e) == s.tasks[t].pc.cell.requests + [s.tasks[t].op.request])
  }

  ghost predicate UndisturbedAt(cfg: Config, actions: seq<Action>, n: nat, e: EntryId)
    requires n < |actions|
  {
    var s := At(cfg, actions, n);
    actions[n].Step? && Storing(s, actions[n].t, e) ==> Undisturbed(s, actions[n].t, e)
  }

  /** Requests add up in a run if and only if no store comes after somebody else's store of another request since
      its own load. */
  lemma RequestsAddUp(cfg: Config, actions: seq<Action>, e: EntryId)
    requires Lz4Inverts(cfg.env)
    ensures NothingLost(cfg, actions, e) <==> forall n | 0 <= n < |actions| :: UndisturbedAt(cfg, actions, n, e)
  {
    hide Kept, UndisturbedAt;
    if NothingLost(cfg, actions, e) {
      forall n | 0 <= n < |actions|
        ensures UndisturbedAt(cfg, actions, n, e)
      {
        LostPrefix(cfg, actions, n, e);
        LoadedThroughout(cfg, actions[..n], e);
        KeptMeansUndisturbed(cfg, actions, n, e);
      }
    }
    if forall n | 0 <= n < |actions| :: UndisturbedAt(cfg, actions, n, e) {
      forall n | 0 <= n < |actions|
        ensures Kept(cfg, actions, n, e)
      {
        UndisturbedMeansKept(cfg, actions, n, e);
      }
    }
  }

  /** What every task about to store has loaded is still the beginning of what is in place. */
  ghost predicate Loaded(s: State, e: EntryId) {
    forall t | Storing(s, t, e) :: e < |s.sh.entries| && s.tasks[t].pc.cell.requests <= Requests(s, e)
  }

  lemma NextKeepsLoaded(cfg: Config, s: State, a: Action, s': State, e: EntryId)
    requires SenderInv.Inv(cfg, s) && s' == Next(cfg, s, a) && Loaded(s, e)
    requires e < |s.sh.entries| ==> e < |s'.sh.entries| && Requests(s, e) <= Requests(s', e)
    ensures Loaded(s', e)
  {
    hide Next, SenderInv.Inv;
    if e < |s.sh.entries| {
      NextCell(cfg, s, a, s', e);
    } else {
      forall t
        ensures !Storing(s', t, e)
      {
        NothingStored(cfg, s, a, s', e, t);
      }
    }
  }

  lemma {:induction false} LoadedThroughout(cfg: Config, actions: seq<Action>, e: EntryId)
    requires Lz4Inverts(cfg.env) && NothingLost(cfg, actions, e)
    ensures Loaded(Run(cfg, Init(), actions), e)
  {
    hide Next, SenderInv.Inv, Storing;
    if actions == [] {
      assert Loaded(Init(), e) by { NobodyStoring(e); }
    } else {
      var n := |actions| - 1;
      LostPrefix(cfg, actions, n, e);
      LoadedThroughout(cfg, actions[..n], e);
      AtNext(cfg, actions, n);
      assert actions[..n + 1] == actions;
      assert Kept(cfg, actions, n, e);
      NextKeepsLoaded(cfg, At(cfg, actions, n), actions[n], At(cfg, actions, n + 1), e);
    }
  }

  lemma NobodyStoring(e: EntryId)
    ensures Loaded(Init(), e)
  {
  }

  lemma LostPrefix(cfg: Config, actions: seq<Action>, m: nat, e: EntryId)
    requires NothingLost(cfg, actions, e) && m <= |actions|
    ensures NothingLost(cfg, actions[..m], e)
  {
    hide Run;
    forall n | 0 <= n < m
      ensures Kept(cfg, actions[..m], n, e)
    {
      AtPrefix(cfg, actions, m, n);
      AtPrefix(cfg, actions, m, n + 1);
      assert Kept(cfg, actions, n, e);
    }
  }

  lemma KeptMeansUndisturbed(cfg: Config, actions: seq<Action>, n: nat, e: EntryId)
    requires Lz4Inverts(cfg.env) && n < |actions| && Kept(cfg, actions, n, e) && Loaded(At(cfg, actions, n), e)
    ensures UndisturbedAt(cfg, actions, n, e)
  {
    hide Run, Next, SenderInv.Inv;
    var s := At(cfg, actions, n);
    AtNext(cfg, actions, n);
    if actions[n].Step? && Storing(s, actions[n].t, e) {
      NextCell(cfg, s, actions[n], At(cfg, actions, n + 1), e);
    }
  }

  lemma UndisturbedMeansKept(cfg: Config, actions: seq<Action>, n: nat, e: EntryId)
    requires Lz4Inverts(cfg.env) && n < |actions| && UndisturbedAt(cfg, actions, n, e)
    ensures Kept(cfg, actions, n, e)
  {
    hide Run, Next, SenderInv.Inv;
    AtNext(cfg, actions, n);
    if e < |At(cfg, actions, n).sh.entries| {
      NextCell(cfg, At(cfg, actions, n), actions[n], At(cfg, actions, n + 1), e);
    }
  }

  // ----- One task at a time -----

  /** At most one task has loaded this connection's filter and has yet to store its own. */
  ghost predicate Solo(s: State, e: EntryId) {
    forall t, u | Storing(s, t, e) && Storing(s, u, e) :: t == u
  }

  /** What a task is about to build on is the filter in place. */
  ghost predicate Current(s: State, e: EntryId) {
    forall t | Storing(s, t, e) :: e < |s.sh.entries| && s.tasks[t].pc.cell == s.sh.entries[e].cell
  }

  lemma NextKeepsCurrent(cfg: Config, s: State, a: Action, s': State, e: EntryId)
    requires SenderInv.Inv(cfg, s) && s' == Next(cfg, s, a) && Solo(s, e) && Current(s, e)
    ensures Current(s', e)
    ensures e < |s.sh.entries| ==> e < |s'.sh.entries| && Requests(s, e) <= Requests(s', e)
  {
    hide Next, SenderInv.Inv;
    if e < |s.sh.entries| {
      NextCell(cfg, s, a, s', e);
    } else {
      forall t
        ensures !Storing(s', t, e)
      {
        NothingStored(cfg, s, a, s', e, t);
      }
    }
  }

  /** Requests add up whenever the tasks that apply them to a connection never overlap. */
  lemma {:induction false} SoloAddsUp(cfg: Config, actions: seq<Action>, e: EntryId)
    requires Lz4Inverts(cfg.env) && forall n | 0 <= n <= |actions| :: Solo(At(cfg, actions, n), e)
    ensures NothingLost(cfg, actions, e) && Current(Run(cfg, Init(), actions), e)
  {
    hide Next, Run, SenderInv.Inv, Storing, Solo;
    if actions == [] {
      assert Current(Run(cfg, Init(), actions), e) by { NobodyYet(cfg, actions, e); }
    } else {
      var m := |actions| - 1;
      forall n | 0 <= n <= m
        ensures Solo(At(cfg, actions[..m], n), e)
      {
        AtPrefix(cfg, actions, m, n);
      }
      SoloAddsUp(cfg, actions[..m], e);
      AtNext(cfg, actions, m);
      assert actions[..m + 1] == actions;
      NextKeepsCurrent(cfg, At(cfg, actions, m), actions[m], At(cfg, actions, m + 1), e);
      forall n | 0 <= n < |actions|
        ensures Kept(cfg, actions, n, e)
      {
        if n < m {
          AtPrefix(cfg, actions, m, n);
          AtPrefix(cfg, actions, m, n + 1);
          assert Kept(cfg, actions[..m], n, e);
        }
      }
    }
  }

  lemma NobodyYet(cfg: Config, actions: seq<Action>, e: EntryId)
    requires actions == []
    ensures Current(Run(cfg, Init(), actions), e)
  {
  }

  // ----- Answered requests -----

  predicate Answers(outcome: Outcome, token: SlotToken) {
    outcome == Existing(token) || outcome == Created(token)
  }

  /** A subscription answered with the token of an installed connection is in that connection's filter. */
  ghost predicate Applied(s: State, t: TaskId, e: EntryId) {
    t in s.tasks && s.tasks[t].op.Upsert? ==>
      var task := s.tasks[t];
      && (IdPc(task.pc) && task.initial.Some? ==> task.initial.value.requests == [task.op.request])
      && (e < |s.sh.entries| ==>
            && (task.pc.InstallCas? && task.pc.e == e ==> task.op.request in Requests(s, e))
            && (task.pc.Done? && Ever(s.sh, e) && Answers(task.pc.outcome, Token(s.sh.entries[e])) ==>
                  task.op.request in Requests(s, e)))
  }

  /** What one task's own step makes of the requests, before the answer is given. */
  lemma OwnStepApplies(cfg: Config, sh: Shared, t: TaskId, task: Task, inp: Input)
    requires Wf(sh) && Shape(sh, task) && task.op.Upsert?
    requires IdPc(task.pc) ==> task.initial.value.requests == [task.op.request]
    ensures var (sh', task') := TaskStep(cfg, sh, t, task, inp);
            && task'.op == task.op && (task' == task ==> sh' == sh)
            && (IdPc(task'.pc) ==> task'.initial.Some? && task'.initial.value.requests == [task.op.request])
            && (task'.pc.InstallCas? ==>
                  || task' == task
                  || (task'.pc.e == |sh.entries| < |sh'.entries|
                      && sh'.entries[task'.pc.e].cell.requests == [task.op.request]))
            && (task'.pc.Done? && (task'.pc.outcome.Existing? || task'.pc.outcome.Created?) ==>
                  || task' == task
                  || (task.pc.InstallCas? && task'.pc.outcome == Created(Token(sh.entries[task.pc.e]))
                      && sh'.entries == sh.entries && Ever(sh', task.pc.e))
                  || (task.pc.FilterStore? && task'.pc.outcome == Existing(Token(sh.entries[task.pc.e]))))
  {
    hide WithRequest, FromRequest, Link.Next, Matches, Codec.EncodeUpdate, PushFrame, Link.Init;
  }

  lemma OwnApplied(cfg: Config, s: State, t: TaskId, inp: Input, s': State, e: EntryId)
    requires Lz4Inverts(cfg.env) && SenderInv.Inv(cfg, s) && s' == Next(cfg, s, Step(t, inp))
    requires t in s.tasks && Applied(s, t, e)
    requires e < |s.sh.entries| ==> e < |s'.sh.entries| && Requests(s, e) <= Requests(s', e)
    ensures Applied(s', t, e)
  {
    hide EntryInv, TaskOk, Linked, TaskStep;
    TaskShape(cfg, s, t);
    NextKeepsInv(cfg, s, Step(t, inp));
    var task, task' := s.tasks[t], s'.tasks[t];
    TaskStepOp(cfg, s.sh, t, task, inp);
    if task.op.Upsert? {
      OwnStepApplies(cfg, s.sh, t, task, inp);
      if task' != task && task'.pc.Done? && e < |s'.sh.entries| && Ever(s'.sh, e)
         && Answers(task'.pc.outcome, Token(s'.sh.entries[e])) {
        if task.pc.InstallCas? {
          SameId(cfg, s'.sh, task.pc.e, e);
        } else {
          StoreIsInstalled(cfg, s, t);
          NextKeepsConnection(cfg, s, Step(t, inp), task.pc.e);
          SameId(cfg, s'.sh, task.pc.e, e);
          NextCell(cfg, s, Step(t, inp), s', e);
        }
      }
    }
  }

  lemma StoreIsInstalled(cfg: Config, s: State, t: TaskId)
    requires SenderInv.Inv(cfg, s) && t in s.tasks && s.tasks[t].pc.FilterStore?
    ensures s.tasks[t].pc.e < |s.sh.entries| && Ever(s.sh, s.tasks[t].pc.e)
  {
    hide EntryInv, CellOk, IdOk, FrameOk, NotifyOk, SentBelow;
    assert Local(cfg, s, t);
  }

  lemma OtherApplied(cfg: Config, s: State, a: Action, s': State, t: TaskId, e: EntryId)
    requires Lz4Inverts(cfg.env) && SenderInv.Inv(cfg, s) && s' == Next(cfg, s, a)
    requires t in s.tasks && t in s'.tasks && s'.tasks[t] == s.tasks[t] && Applied(s, t, e)
    requires e < |s.sh.entries| ==> e < |s'.sh.entries| && Requests(s, e) <= Requests(s', e)
    ensures Applied(s', t, e)
  {
    hide Next, SenderInv.Inv;
    TaskShape(cfg, s, t);
    var task := s.tasks[t];
    if task.op.Upsert? && task.pc.Done? && e < |s'.sh.entries| && Ever(s'.sh, e)
       && Answers(task.pc.outcome, Token(s'.sh.entries[e])) {
      AnsweredWasInstalled(cfg, s, a, s', t, e);
    }
  }

  lemma AnsweredWasInstalled(cfg: Config, s: State, a: Action, s': State, t: TaskId, e: EntryId)
    requires Lz4Inverts(cfg.env) && SenderInv.Inv(cfg, s) && s' == Next(cfg, s, a)
    requires t in s.tasks && s.tasks[t].pc.Done? && e < |s'.sh.entries| && Ever(s'.sh, e)
    requires Answers(s.tasks[t].pc.outcome, Token(s'.sh.entries[e]))
    ensures e < |s.sh.entries| && Ever(s.sh, e) && Token(s.sh.entries[e]) == Token(s'.sh.entries[e])
  {
    hide Next, EntryInv, Local, Linked;
    DoneOk(cfg, s, t);
    var token := s.tasks[t].pc.outcome.token;
    var k :| 0 <= k < |s.sh.installs| && Token(s.sh.entries[s.sh.installs[k]]) == token;
    NextKeepsConnection(cfg, s, a, s.sh.installs[k]);
    SameId(cfg, s'.sh, s.sh.installs[k], e);
  }

  lemma NextApplied(cfg: Config, s: State, a: Action, s': State, t: TaskId, e: EntryId)
    requires Lz4Inverts(cfg.env) && SenderInv.Inv(cfg, s) && s' == Next(cfg, s, a) && Applied(s, t, e)
    requires e < |s.sh.entries| ==> e < |s'.sh.entries| && Requests(s, e) <= Requests(s', e)
    ensures Applied(s', t, e)
  {
    hide SenderInv.Inv, TaskStep, Link.Next, Consumer.UserPop, Consumer.Receive, Applied;
    if t !in s.tasks {
      JustSpawned(cfg, s, a, s', t, e);
    } else if a.Step? && a.t == t {
      OwnApplied(cfg, s, t, a.input, s', e);
    } else {
      OtherApplied(cfg, s, a, s', t, e);
    }
  }

  lemma JustSpawned(cfg: Config, s: State, a: Action, s': State, t: TaskId, e: EntryId)
    requires s' == Next(cfg, s, a) && t !in s.tasks
    ensures Applied(s', t, e)
  {
    hide TaskStep, Link.Next, Consumer.UserPop, Consumer.Receive;
  }

  lemma {:induction false} AppliedThroughout(cfg: Config, actions: seq<Action>, t: TaskId, e: EntryId)
    requires Lz4Inverts(cfg.env) && NothingLost(cfg, actions, e)
    ensures Applied(Run(cfg, Init(), actions), t, e)
  {
    hide Next, SenderInv.Inv, Applied;
    if actions == [] {
      assert Applied(Init(), t, e) by { NobodyAnswered(t, e); }
    } else {
      var n := |actions| - 1;
      LostPrefix(cfg, actions, n, e);
      AppliedThroughout(cfg, actions[..n], t, e);
      AtNext(cfg, actions, n);
      assert actions[..n + 1] == actions;
      assert Kept(cfg, actions, n, e);
      NextApplied(cfg, At(cfg, actions, n), actions[n], At(cfg, actions, n + 1), t, e);
    }
  }

  lemma NobodyAnswered(t: TaskId, e: EntryId)
    ensures Applied(Init(), t, e)
  {
  }

  /** In a run that loses nothing, a subscription answered with a connection's token has its request in that
      connection's filter, and every update it wanted matches. */
  lemma AnsweredRequestMatches(cfg: Config, actions: seq<Action>, t: TaskId, e: EntryId, u: Update)
    requires Lz4Inverts(cfg.env) && NothingLost(cfg, actions, e)
    requires var s := Run(cfg, Init(), actions);
             && t in s.tasks && s.tasks[t].op.Upsert? && s.tasks[t].pc.Done?
             && e < |s.sh.entries| && Ever(s.sh, e) && Answers(s.tasks[t].pc.outcome, Token(s.sh.entries[e]))
    ensures var s := Run(cfg, Init(), actions);
            && s.tasks[t].op.request in Requests(s, e)
            && (Wanted([s.tasks[t].op.request], u) ==> Matches(cfg.env, s.sh.entries[e].cell.filter, u))
  {
    hide Run, SenderInv.Inv, Matches, NothingLost;
    var s := Run(cfg, Init(), actions);
    AppliedThroughout(cfg, actions, t, e);
    RunKeepsInv(cfg, actions);
    var cell := s.sh.entries[e].cell;
    InvCell(cfg, s, e);
    FilterRefinesRequests(cfg.env, cell.requests, cell.keys, u);
    if Wanted([s.tasks[t].op.request], u) {
      WantedByOne(s.tasks[t].op.request, cell.requests, u);
    }
  }

  lemma InvCell(cfg: Config, s: State, e: EntryId)
    requires SenderInv.Inv(cfg, s) && e < |s.sh.entries|
    ensures CellOk(cfg.env, Token(s.sh.entries[e]), s.sh.entries[e].cell)
  {
    hide CellOk, SentOk, Link.Inv, Consumer.Inv, Encodes, Local, Linked;
    InvEntry(cfg, s, e);
  }

  lemma WantedByOne(request: SubscriptionRequest, requests: seq<SubscriptionRequest>, u: Update)
    requires request in requests && Wanted([request], u)
    ensures Wanted(requests, u)
  {
  }
}
