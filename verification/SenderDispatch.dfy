/** A dispatch reaches every connection that stays in the table and wants the update, whatever else runs. */
module SenderDispatch {
  import opened Types
  import opened Framing
  import Codec
  import Consumer
  import Link
  import opened Filter
  import opened Sender
  import opened SenderInv
  import opened SenderSteps
  import opened SenderTheorems
  import opened SenderEvictions

  /** The connection is in its slot, and its filter passes the update. */
  ghost predicate InPlace(cfg: Config, s: State, e: EntryId, u: Update) {
    && Wf(s.sh) && e < |s.sh.entries| && InTable(s.sh, e)
    && Matches(cfg.env, s.sh.entries[e].cell.filter, u)
  }

  /** The dispatch has still to come to slot `i`, or is dealing with connection `e` there. */
  predicate Behind(pc: Pc, i: nat, e: EntryId) {
    match pc
    case DispLoad(j) => j <= i
    case DispStale(j, x) => j < i || (j == i && x == e)
    case DispMatch(j, x) => j < i || (j == i && x == e)
    case DispPush(j, x, _) => j < i || (j == i && x == e)
    case DispNotify(j, _) => j < i
    case CleanLoad(j, x) => j < i || (j == i && x == e)
    case CloseRing(slot, x, NextSlot(j, _)) => j < i || (j == slot == i && x == e)
    case CloseNotify(slot, x, NextSlot(j, _)) => j < i || (j == slot == i && x == e)
    case EvictCas(slot, x, NextSlot(j, _)) => j < i || (j == slot == i && x == e)
    case _ => false
  }

  /** One of the connection's accepted pushes is this task's, with this update. */
  ghost predicate Pushed(sent: seq<Sent>, t: TaskId, u: Update) {
    exists k | 0 <= k < |sent| :: sent[k].task == t && sent[k].update.update == u
  }

  lemma DispatchAdvances(cfg: Config, sh: Shared, t: TaskId, task: Task, inp: Input, e: EntryId)
    requires Wf(sh) && Shape(sh, task) && e < |sh.entries| && InTable(sh, e) && task.op.Dispatch?
    requires Matches(cfg.env, sh.entries[e].cell.filter, task.op.update) && !IsStale(inp.now, sh.entries[e])
    requires Codec.EncodeUpdate(cfg.env, task.op.update, inp.stamp).Ok? && Behind(task.pc, sh.entries[e].slot, e)
    ensures var (sh', task') := TaskStep(cfg, sh, t, task, inp);
            var i := sh.entries[e].slot;
            && task'.op == task.op && |sh'.cells| == SLOTS && e < |sh'.entries|
            && (sh'.cells[i] == Some(e) ==> Behind(task'.pc, i, e) || Pushed(sh'.entries[e].sent, t, task.op.update))
  {
    hide WithRequest, FromRequest, Link.Next, Matches, Codec.EncodeUpdate, PushFrame;
    var sh' := TaskStep(cfg, sh, t, task, inp).0;
    var n := |sh.entries[e].sent|;
    if task.pc.DispPush? && task.pc.e == e && n < |sh'.entries[e].sent| {
      assert sh'.entries[e].sent[n].task == t;
    }
  }

  ghost predicate OnTrack(s: State, t: TaskId, e: EntryId, u: Update) {
    && t in s.tasks && s.tasks[t].op == Dispatch(u) && e < |s.sh.entries|
    && (Behind(s.tasks[t].pc, s.sh.entries[e].slot, e) || Pushed(s.sh.entries[e].sent, t, u))
  }

  /** What the dispatch's own steps find: the connection not stale, and the update encodable. */
  ghost predicate Favourable(cfg: Config, s: State, a: Action, t: TaskId, e: EntryId, u: Update) {
    a.Step? && a.t == t && e < |s.sh.entries| ==>
      !IsStale(a.input.now, s.sh.entries[e]) && Codec.EncodeUpdate(cfg.env, u, a.input.stamp).Ok?
  }

  lemma NextOnTrack(cfg: Config, s: State, a: Action, s': State, t: TaskId, e: EntryId, u: Update)
    requires Lz4Inverts(cfg.env) && Inv(cfg, s) && s' == Next(cfg, s, a) && OnTrack(s, t, e, u)
    requires InPlace(cfg, s, e, u) && InPlace(cfg, s', e, u) && Favourable(cfg, s, a, t, e, u)
    ensures OnTrack(s', t, e, u)
  {
    hide Inv, TaskStep, Link.Next, Consumer.UserPop, Consumer.Receive, Behind, Matches, Pushed;
    SameConnection(cfg, s, a, s', e);
    if Pushed(s.sh.entries[e].sent, t, u) {
      StaysPushed(s.sh.entries[e].sent, s'.sh.entries[e].sent, t, u);
    }
    if a.Step? && a.t == t {
      TaskShape(cfg, s, t);
      TaskStepOp(cfg, s.sh, t, s.tasks[t], a.input);
      if Behind(s.tasks[t].pc, s.sh.entries[e].slot, e) {
        DispatchAdvances(cfg, s.sh, t, s.tasks[t], a.input, e);
      }
    }
  }

  lemma StaysPushed(a: seq<Sent>, b: seq<Sent>, t: TaskId, u: Update)
    requires a <= b && Pushed(a, t, u)
    ensures Pushed(b, t, u)
  {
    var k :| 0 <= k < |a| && a[k].task == t && a[k].update.update == u;
    assert b[k] == a[k];
  }

  lemma SameConnection(cfg: Config, s: State, a: Action, s': State, e: EntryId)
    requires Lz4Inverts(cfg.env) && Inv(cfg, s) && s' == Next(cfg, s, a) && e < |s.sh.entries|
    ensures e < |s'.sh.entries|
    ensures s'.sh.entries[e].slot == s.sh.entries[e].slot && s.sh.entries[e].sent <= s'.sh.entries[e].sent
  {
    hide Next, EntryInv, Local, Linked;
    var t := NextEvolves(cfg, s, a);
    assert EntryEvolves(t, s.sh.entries[e], s'.sh.entries[e]);
  }

  /** From `s` on, the connection stays in place and the dispatch's own steps find it and the update in order. */
  ghost predicate Steady(cfg: Config, s: State, actions: seq<Action>, t: TaskId, e: EntryId, u: Update) {
    && (forall n | 0 <= n <= |actions| :: InPlace(cfg, Run(cfg, s, actions[..n]), e, u))
    && (forall n | 0 <= n < |actions| :: Favourable(cfg, Run(cfg, s, actions[..n]), actions[n], t, e, u))
  }

  lemma SteadyPrefix(cfg: Config, s: State, actions: seq<Action>, t: TaskId, e: EntryId, u: Update, m: nat)
    requires Steady(cfg, s, actions, t, e, u) && m <= |actions|
    ensures Steady(cfg, s, actions[..m], t, e, u)
  {
    hide Run, InPlace, Favourable;
    forall n | 0 <= n <= m
      ensures actions[..m][..n] == actions[..n]
    {
    }
  }

  lemma {:induction false} RunOnTrack(cfg: Config, s: State, actions: seq<Action>, t: TaskId, e: EntryId, u: Update)
    requires Lz4Inverts(cfg.env) && Inv(cfg, s) && Steady(cfg, s, actions, t, e, u) && OnTrack(s, t, e, u)
    ensures Inv(cfg, Run(cfg, s, actions)) && OnTrack(Run(cfg, s, actions), t, e, u)
  {
    hide Next, Inv, InPlace, Favourable, OnTrack;
    if actions != [] {
      var n := |actions| - 1;
      SteadyPrefix(cfg, s, actions, t, e, u, n);
      RunOnTrack(cfg, s, actions[..n], t, e, u);
      var before := Run(cfg, s, actions[..n]);
      assert actions[..n + 1] == actions;
      NextKeepsInv(cfg, before, actions[n]);
      NextOnTrack(cfg, before, actions[n], Run(cfg, s, actions), t, e, u);
    }
  }

  /** Exactly once: a dispatch of an encodable update that has ended pushed it, once, to every connection that was
      in its slot with a matching filter all the while, and that no step of the dispatch found stale. */
  lemma DispatchPushesOnce(cfg: Config, before: seq<Action>, t: TaskId, u: Update, after: seq<Action>, e: EntryId)
    returns (k: nat)
    requires Lz4Inverts(cfg.env) && t !in Run(cfg, Init(), before).tasks
    requires var s := Next(cfg, Run(cfg, Init(), before), Spawn(t, Dispatch(u)));
             var z := Run(cfg, s, after);
             Steady(cfg, s, after, t, e, u) && t in z.tasks && z.tasks[t].pc.Done?
    ensures var z := Run(cfg, Next(cfg, Run(cfg, Init(), before), Spawn(t, Dispatch(u))), after);
            && e < |z.sh.entries| && k < |z.sh.entries[e].sent|
            && z.sh.entries[e].sent[k].task == t && z.sh.entries[e].sent[k].update.update == u
            && forall j | 0 <= j < |z.sh.entries[e].sent| && j != k :: z.sh.entries[e].sent[j].task != t
  {
    hide Run, Inv, InPlace, Favourable;
    var s0 := Run(cfg, Init(), before);
    var s := Next(cfg, s0, Spawn(t, Dispatch(u)));
    RunKeepsInv(cfg, before);
    NextKeepsInv(cfg, s0, Spawn(t, Dispatch(u)));
    assert OnTrack(s, t, e, u) by { StartsOnTrack(cfg, s0, s, t, e, u, after); }
    hide Next;
    RunOnTrack(cfg, s, after, t, e, u);
    var z := Run(cfg, s, after);
    var sent := z.sh.entries[e].sent;
    assert Pushed(sent, t, u);
    k :| 0 <= k < |sent| && sent[k].task == t && sent[k].update.update == u;
    SentTasksDiffer(cfg, z, e);
  }

  lemma StartsOnTrack(cfg: Config, s0: State, s: State, t: TaskId, e: EntryId, u: Update, after: seq<Action>)
    requires t !in s0.tasks && s == Next(cfg, s0, Spawn(t, Dispatch(u))) && Steady(cfg, s, after, t, e, u)
    ensures OnTrack(s, t, e, u)
  {
    hide TaskStep, Matches;
    assert after[..0] == [];
    assert Run(cfg, s, after[..0]) == s;
  }

  lemma SentTasksDiffer(cfg: Config, s: State, e: EntryId)
    requires Inv(cfg, s) && e < |s.sh.entries|
    ensures var sent := s.sh.entries[e].sent; forall j, k | 0 <= j < k < |sent| :: sent[j].task != sent[k].task
  {
    InvEntry(cfg, s, e);
    hide Inv, CellOk, SentOk, Consumer.Inv, Link.Inv, Encodes;
  }

  // ----- A connection that nobody else evicts -----

  /** What the dispatch meets where it deals with the connection: seen within thirty seconds, matching, and with room
      for the frame; wherever it encodes, the update can be encoded. */
  ghost predicate Meets(cfg: Config, s: State, a: Action, t: TaskId, e: EntryId, u: Update) {
    a.Step? && a.t == t && t in s.tasks && e < |s.sh.entries| ==>
      var x, pc := s.sh.entries[e], s.tasks[t].pc;
      && (pc.DispStale? && pc.e == e ==> a.input.now <= x.lastSeen + 30_000)
      && (pc.DispMatch? ==> Codec.EncodeUpdate(cfg.env, u, a.input.stamp).Ok?)
      && (pc.DispMatch? && pc.e == e ==> Matches(cfg.env, x.cell.filter, u))
      && (pc.DispPush? && pc.e == e && s.tasks[t].frame.Some? ==>
            |x.link.queue| + 4 + |s.tasks[t].frame.value.1| <= x.link.capacity)
  }

  /** No other step takes the connection out of its slot. */
  ghost predicate LeftAlone(s: State, a: Action, s': State, t: TaskId, e: EntryId) {
    !(a.Step? && a.t == t) && Wf(s.sh) && e < |s.sh.entries| && InTable(s.sh, e) ==>
      Wf(s'.sh) && e < |s'.sh.entries| && InTable(s'.sh, e)
  }

  /** The dispatch is not about to evict the connection, which is in its slot, and it has yet to come to the
      connection or has pushed to it. */
  ghost predicate Tracked(s: State, t: TaskId, e: EntryId, u: Update) {
    && OnTrack(s, t, e, u) && Wf(s.sh) && InTable(s.sh, e)
    && !((Closing(s.tasks[t].pc) || s.tasks[t].pc.CleanLoad?) && s.tasks[t].pc.e == e)
  }

  lemma DispatchMoves(cfg: Config, sh: Shared, t: TaskId, task: Task, inp: Input, e: EntryId)
    requires Wf(sh) && Shape(sh, task) && e < |sh.entries| && InTable(sh, e) && task.op.Dispatch?
    requires Behind(task.pc, sh.entries[e].slot, e) && !((Closing(task.pc) || task.pc.CleanLoad?) && task.pc.e == e)
    requires task.pc.DispStale? && task.pc.e == e ==> !IsStale(inp.now, sh.entries[e])
    requires task.pc.DispMatch? ==> Codec.EncodeUpdate(cfg.env, task.op.update, inp.stamp).Ok?
    requires task.pc.DispMatch? && task.pc.e == e ==> Matches(cfg.env, sh.entries[e].cell.filter, task.op.update)
    requires task.pc.DispPush? && task.pc.e == e ==>
               && task.frame.Some?
               && PushFrame(sh.entries[e].link.queue, sh.entries[e].link.capacity, task.frame.value.1).Ok?
    ensures var (sh', task') := TaskStep(cfg, sh, t, task, inp);
            var i := sh.entries[e].slot;
            && e < |sh'.entries|
            && (Behind(task'.pc, i, e) || Pushed(sh'.entries[e].sent, t, task.op.update))
  {
    hide WithRequest, FromRequest, Link.Next, Matches, Codec.EncodeUpdate, PushFrame;
    var sh' := TaskStep(cfg, sh, t, task, inp).0;
    var n := |sh.entries[e].sent|;
    if task.pc.DispPush? && task.pc.e == e && n < |sh'.entries[e].sent| {
      assert sh'.entries[e].sent[n].task == t;
    }
  }

  lemma OwnTracked(cfg: Config, s: State, t: TaskId, inp: Input, s': State, e: EntryId, u: Update)
    requires Lz4Inverts(cfg.env) && Inv(cfg, s) && s' == Next(cfg, s, Step(t, inp)) && Tracked(s, t, e, u)
    requires Meets(cfg, s, Step(t, inp), t, e, u)
    ensures Tracked(s', t, e, u)
  {
    hide Inv, TaskStep, Behind, Matches, Pushed, PushFrame, Codec.EncodeUpdate, Next;
    var task := s.tasks[t];
    TaskShape(cfg, s, t);
    StepOf(cfg, s, t, inp);
    TaskStepOp(cfg, s.sh, t, task, inp);
    SameConnection(cfg, s, Step(t, inp), s', e);
    if Pushed(s.sh.entries[e].sent, t, u) {
      StaysPushed(s.sh.entries[e].sent, s'.sh.entries[e].sent, t, u);
    }
    if task.pc.DispPush? && task.pc.e == e {
      RefusedIsFull(cfg, s, t, inp);
    }
    if Behind(task.pc, s.sh.entries[e].slot, e) {
      DispatchMoves(cfg, s.sh, t, task, inp, e);
    }
    StaysClear(cfg, s, t, inp, s', e);
    TaskStepFills(cfg, s.sh, t, task, inp, s.sh.entries[e].slot);
    NextShape(cfg, s, Step(t, inp));
  }

  lemma NextShape(cfg: Config, s: State, a: Action)
    requires Lz4Inverts(cfg.env) && Inv(cfg, s)
    ensures Wf(Next(cfg, s, a).sh)
  {
    hide Next, EntryInv, Local, Linked;
    NextKeepsInv(cfg, s, a);
  }

  /** A dispatch that has no cause does not turn to evicting. */
  lemma StaysClear(cfg: Config, s: State, t: TaskId, inp: Input, s': State, e: EntryId)
    requires Lz4Inverts(cfg.env) && Inv(cfg, s) && t in s.tasks && e < |s.sh.entries|
    requires Wf(s.sh) && Shape(s.sh, s.tasks[t])
    requires s' == State(TaskStep(cfg, s.sh, t, s.tasks[t], inp).0,
                         s.tasks[t := TaskStep(cfg, s.sh, t, s.tasks[t], inp).1])
    requires s.tasks[t].op.Dispatch? && !Finds(s, Step(t, inp), t, e)
    requires !((Closing(s.tasks[t].pc) || s.tasks[t].pc.CleanLoad?) && s.tasks[t].pc.e == e)
    ensures !((Closing(s'.tasks[t].pc) || s'.tasks[t].pc.CleanLoad?) && s'.tasks[t].pc.e == e)
  {
    hide Inv, TaskStep, PushFrame;
    var task, pc := s.tasks[t], s'.tasks[t].pc;
    TaskStepCloses(cfg, s.sh, t, task, inp);
    if Closing(pc) && pc.e == e && task.pc.CleanLoad? {
      SameOccupant(cfg, s, t, e);
    } else if pc.CleanLoad? && pc.e == e {
      RefusedIsFull(cfg, s, t, inp);
    }
  }

  lemma NextTracked(cfg: Config, s: State, a: Action, s': State, t: TaskId, e: EntryId, u: Update)
    requires Lz4Inverts(cfg.env) && Inv(cfg, s) && s' == Next(cfg, s, a) && Tracked(s, t, e, u)
    requires Meets(cfg, s, a, t, e, u) && LeftAlone(s, a, s', t, e)
    ensures Tracked(s', t, e, u)
  {
    hide Inv, Next, Meets, Behind, Pushed;
    if a.Step? && a.t == t {
      OwnTracked(cfg, s, t, a.input, s', e, u);
    } else {
      OtherTask(cfg, s, a, t);
      TaskStays(cfg, s, a, t);
      SameConnection(cfg, s, a, s', e);
      if Pushed(s.sh.entries[e].sent, t, u) {
        StaysPushed(s.sh.entries[e].sent, s'.sh.entries[e].sent, t, u);
      }
    }
  }

  /** Step `n` of a run from `s` on is as the dispatch and the connection need it. */
  ghost predicate Favours(cfg: Config, s: State, actions: seq<Action>, n: nat, t: TaskId, e: EntryId, u: Update)
    requires n < |actions|
  {
    var z, z' := Run(cfg, s, actions[..n]), Run(cfg, s, actions[..n + 1]);
    Meets(cfg, z, actions[n], t, e, u) && LeftAlone(z, actions[n], z', t, e)
  }

  lemma FavoursPrefix(cfg: Config, s: State, actions: seq<Action>, m: nat, n: nat, t: TaskId, e: EntryId, u: Update)
    requires n < m <= |actions| && Favours(cfg, s, actions, n, t, e, u)
    ensures Favours(cfg, s, actions[..m], n, t, e, u)
  {
    hide Run, Meets, LeftAlone;
    assert actions[..m][..n] == actions[..n] && actions[..m][..n + 1] == actions[..n + 1];
  }

  lemma {:induction false} RunTracked(cfg: Config, s: State, actions: seq<Action>, t: TaskId, e: EntryId, u: Update)
    requires Lz4Inverts(cfg.env) && Inv(cfg, s) && Tracked(s, t, e, u)
    requires forall n | 0 <= n < |actions| :: Favours(cfg, s, actions, n, t, e, u)
    ensures Inv(cfg, Run(cfg, s, actions)) && Tracked(Run(cfg, s, actions), t, e, u)
  {
    hide Next, Inv, Meets, LeftAlone, Tracked;
    if actions != [] {
      var m := |actions| - 1;
      forall n | 0 <= n < m
        ensures Favours(cfg, s, actions[..m], n, t, e, u)
      {
        FavoursPrefix(cfg, s, actions, m, n, t, e, u);
      }
      RunTracked(cfg, s, actions[..m], t, e, u);
      assert Favours(cfg, s, actions, m, t, e, u);
      assert actions[..m + 1] == actions;
      NextKeepsInv(cfg, Run(cfg, s, actions[..m]), actions[m]);
      NextTracked(cfg, Run(cfg, s, actions[..m]), actions[m], Run(cfg, s, actions), t, e, u);
    }
  }

  /** A good consumer keeps its place and gets the update: a connection that is in its slot when a dispatch starts, that
      nobody else evicts, and that the dispatch meets seen within thirty seconds, matching and with room, is still in
      its slot when the dispatch has ended, with the update pushed to it exactly once. */
  lemma DispatchKeepsAndPushes(cfg: Config, before: seq<Action>, t: TaskId, u: Update, after: seq<Action>, e: EntryId)
    returns (k: nat)
    requires Lz4Inverts(cfg.env) && t !in Run(cfg, Init(), before).tasks
    requires var s := Next(cfg, Run(cfg, Init(), before), Spawn(t, Dispatch(u)));
             var z := Run(cfg, s, after);
             && Wf(s.sh) && e < |s.sh.entries| && s.sh.cells[s.sh.entries[e].slot] == Some(e)
             && (forall n | 0 <= n < |after| :: Favours(cfg, s, after, n, t, e, u))
             && t in z.tasks && z.tasks[t].pc.Done?
    ensures var z := Run(cfg, Next(cfg, Run(cfg, Init(), before), Spawn(t, Dispatch(u))), after);
            && Wf(z.sh) && e < |z.sh.entries| && z.sh.cells[z.sh.entries[e].slot] == Some(e)
            && k < |z.sh.entries[e].sent|
            && z.sh.entries[e].sent[k].task == t && z.sh.entries[e].sent[k].update.update == u
            && forall j | 0 <= j < |z.sh.entries[e].sent| && j != k :: z.sh.entries[e].sent[j].task != t
  {
    hide Run, Inv, Favours;
    var s0 := Run(cfg, Init(), before);
    var s := Next(cfg, s0, Spawn(t, Dispatch(u)));
    RunKeepsInv(cfg, before);
    NextKeepsInv(cfg, s0, Spawn(t, Dispatch(u)));
    assert Tracked(s, t, e, u) by { StartsTracked(cfg, s0, s, t, e, u); }
    hide Next;
    RunTracked(cfg, s, after, t, e, u);
    var z := Run(cfg, s, after);
    var sent := z.sh.entries[e].sent;
    assert Pushed(sent, t, u);
    k :| 0 <= k < |sent| && sent[k].task == t && sent[k].update.update == u;
    SentTasksDiffer(cfg, z, e);
  }

  lemma StartsTracked(cfg: Config, s0: State, s: State, t: TaskId, e: EntryId, u: Update)
    requires t !in s0.tasks && s == Next(cfg, s0, Spawn(t, Dispatch(u)))
    requires Wf(s.sh) && e < |s.sh.entries| && InTable(s.sh, e)
    ensures Tracked(s, t, e, u)
  {
    hide TaskStep;
  }
}
