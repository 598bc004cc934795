/** How tasks end: every one within a bounded number of its own steps, and each with the outcome it had cause for. */
module SenderProgress {
  import opened Types
  import opened Framing
  import Codec
  import Link
  import opened Filter
  import opened Sender
  import opened SenderInv
  import opened SenderSteps
  import opened SenderTheorems
  import opened SenderEvictions
  import SenderScan

  // ----- Own steps -----

  /** Steps a task may still have ahead of it, as long as nobody takes the slot it installs into. */
  function Rank(pc: Pc): int {
    match pc
    case DispLoad(i) => 8 * (10 - i) + 1
    case DispStale(i, _) => 8 * (10 - i)
    case DispMatch(i, _) => 8 * (10 - i) - 1
    case DispPush(i, _, _) => 8 * (10 - i) - 2
    case CleanLoad(i, _) => 8 * (10 - i) - 3
    case DispNotify(i, _) => 8 * (10 - i) - 6
    case CloseRing(_, _, k) => ContRank(k) + 3
    case CloseNotify(_, _, k) => ContRank(k) + 2
    case EvictCas(_, _, k) => ContRank(k) + 1
    case LookupLoad => 69
    case LookupStale(_) => 68
    case TakeId => 64
    case FreeLoad(i) => 6 * (10 - i) + 3
    case FreeStale(i, _) => 6 * (10 - i) + 2
    case FreeRecheck(i) => 6 * (10 - i) - 2
    case Touch(_) => 3
    case FilterLoad(_) => 2
    case FilterStore(_, _) => 1
    case Create(_, _) => 2
    case InstallCas(_, _, _) => 1
    case Done(_) => 0
  }

  function ContRank(k: Cont): int {
    match k
    case LookupMiss => 64
    case Recheck(i) => 6 * (10 - i) - 2
    case NextSlot(i, _) => 8 * (10 - i) - 7
  }

  /** Whatever the task goes on to after an eviction is a slot of the table. */
  predicate InRange(pc: Pc) {
    Closing(pc) ==> match pc.k
                    case LookupMiss => true
                    case Recheck(i) => i < SLOTS
                    case NextSlot(i, _) => i < SLOTS
  }

  /** With this step the task finds the slot it wanted taken. */
  ghost predicate Retries(s: State, t: TaskId)
    requires t in s.tasks
  {
    s.tasks[t].pc.InstallCas? && s.tasks[t].pc.i < |s.sh.cells| && s.sh.cells[s.tasks[t].pc.i].Some?
  }

  lemma TaskStepRanks(cfg: Config, sh: Shared, t: TaskId, task: Task, inp: Input)
    requires Wf(sh) && Shape(sh, task) && !task.pc.Done? && InRange(task.pc)
    ensures var pc, pc' := task.pc, TaskStep(cfg, sh, t, task, inp).1.pc;
            && InRange(pc') && Rank(pc) >= 1
            && if pc.InstallCas? && sh.cells[pc.i].Some? then pc' == FreeLoad(0) else Rank(pc') < Rank(pc)
  {
    hide TaskStep, Rank, InRange;
    if Fans(task.pc) {
      DispatchRanks(cfg, sh, t, task, inp);
    } else if Installs(task.pc) {
      InstallRanks(cfg, sh, t, task, inp);
    } else {
      LookupRanks(cfg, sh, t, task, inp);
    }
  }

  predicate Fans(pc: Pc) {
    pc.DispLoad? || pc.DispStale? || pc.DispMatch? || pc.DispPush? || pc.DispNotify? || pc.CleanLoad?
  }

  predicate Installs(pc: Pc) {
    pc.TakeId? || (IdPc(pc) && !Closing(pc))
  }

  lemma DispatchRanks(cfg: Config, sh: Shared, t: TaskId, task: Task, inp: Input)
    requires Wf(sh) && Shape(sh, task) && Fans(task.pc)
    ensures var pc, pc' := task.pc, TaskStep(cfg, sh, t, task, inp).1.pc;
            InRange(pc') && Rank(pc) >= 1 && Rank(pc') < Rank(pc)
  {
    hide LookupStep, InstallStep, Link.Next, Matches, Codec.EncodeUpdate, PushFrame;
  }

  lemma InstallRanks(cfg: Config, sh: Shared, t: TaskId, task: Task, inp: Input)
    requires Wf(sh) && Shape(sh, task) && Installs(task.pc)
    ensures var pc, pc' := task.pc, TaskStep(cfg, sh, t, task, inp).1.pc;
            && InRange(pc') && Rank(pc) >= 1
            && if pc.InstallCas? && sh.cells[pc.i].Some? then pc' == FreeLoad(0) else Rank(pc') < Rank(pc)
  {
    hide LookupStep, DispatchStep, FromRequest, NewEntry;
  }

  lemma LookupRanks(cfg: Config, sh: Shared, t: TaskId, task: Task, inp: Input)
    requires Wf(sh) && Shape(sh, task) && InRange(task.pc)
    requires !task.pc.Done? && !Fans(task.pc) && !Installs(task.pc)
    ensures var pc, pc' := task.pc, TaskStep(cfg, sh, t, task, inp).1.pc;
            InRange(pc') && Rank(pc) >= 1 && Rank(pc') < Rank(pc)
  {
    hide InstallStep, DispatchStep, WithRequest, Link.Next;
  }

  /** The task's own steps in a run. */
  ghost function OwnSteps(cfg: Config, actions: seq<Action>, t: TaskId): nat {
    if actions == [] then 0
    else
      var n := |actions| - 1;
      OwnSteps(cfg, actions[..n], t) +
      if actions[n].Step? && actions[n].t == t && t in Run(cfg, Init(), actions[..n]).tasks then 1 else 0
  }

  /** The budget, with `r` retries so far: none without an install by somebody else since the slot was seen empty. */
  ghost predicate Within(s: State, t: TaskId, steps: nat, r: nat) {
    && r <= |s.sh.installs|
    && (t in s.tasks && !s.tasks[t].pc.Done? ==>
          var task := s.tasks[t];
          && InRange(task.pc) && steps + Rank(task.pc) <= 81 * (1 + r)
          && (task.pc.Create? || task.pc.InstallCas? ==> r <= task.pc.since)
          && (!task.op.Upsert? ==> r == 0))
    && (t !in s.tasks ==> steps == 0 && r == 0)
  }

  lemma OwnWithin(cfg: Config, s: State, t: TaskId, inp: Input, s': State, steps: nat, r: nat) returns (r': nat)
    requires Lz4Inverts(cfg.env) && Inv(cfg, s) && t in s.tasks && s' == Next(cfg, s, Step(t, inp))
    requires Within(s, t, steps, r)
    ensures Within(s', t, steps + 1, r')
  {
    hide Next, Inv;
    TaskShape(cfg, s, t);
    StepOf(cfg, s, t, inp);
    InstallsGrow(cfg, s, Step(t, inp));
    TaskStepOp(cfg, s.sh, t, s.tasks[t], inp);
    TaskStepSince(cfg, s.sh, t, s.tasks[t], inp);
    hide TaskStep;
    r' := r;
    if s.tasks[t].pc.Done? {
      DoneStays(cfg, s.sh, t, s.tasks[t], inp);
    } else {
      TaskStepRanks(cfg, s.sh, t, s.tasks[t], inp);
      if Retries(s, t) {
        TakenSinceSeen(cfg, s, t);
        r' := r + 1;
      }
    }
  }

  lemma DoneStays(cfg: Config, sh: Shared, t: TaskId, task: Task, inp: Input)
    requires Wf(sh) && Shape(sh, task) && task.pc.Done?
    ensures TaskStep(cfg, sh, t, task, inp) == (sh, task)
  {
  }

  lemma TaskStepSince(cfg: Config, sh: Shared, t: TaskId, task: Task, inp: Input)
    requires Wf(sh) && Shape(sh, task)
    ensures var pc, pc' := task.pc, TaskStep(cfg, sh, t, task, inp).1.pc;
            pc'.Create? || pc'.InstallCas? ==>
              || pc'.since == |sh.installs|
              || ((pc.Create? || pc.InstallCas?) && pc'.since == pc.since)
    ensures task.pc.InstallCas? ==> task.op.Upsert?
  {
    hide WithRequest, FromRequest, Link.Next, Matches, Codec.EncodeUpdate, PushFrame;
  }

  lemma InstallsGrow(cfg: Config, s: State, a: Action)
    requires Lz4Inverts(cfg.env) && Inv(cfg, s)
    ensures |s.sh.installs| <= |Next(cfg, s, a).sh.installs|
  {
    hide Next, EntryInv, Local, Linked, EntryEvolves;
    var _ := NextEvolves(cfg, s, a);
  }

  lemma TakenSinceSeen(cfg: Config, s: State, t: TaskId)
    requires Inv(cfg, s) && t in s.tasks && Retries(s, t)
    ensures s.tasks[t].pc.since < |s.sh.installs|
  {
    hide Linked, EntryInv, IdOk, FrameOk, SentBelow, NotifyOk;
    assert Local(cfg, s, t);
    var InstallCas(i, _, since) := s.tasks[t].pc;
    assert InstalledSince(s.sh, t, i, since);
  }

  lemma OtherWithin(cfg: Config, s: State, a: Action, s': State, t: TaskId, steps: nat, r: nat)
    requires Lz4Inverts(cfg.env) && Inv(cfg, s) && s' == Next(cfg, s, a) && !(a.Step? && a.t == t && t in s.tasks)
    requires Within(s, t, steps, r)
    ensures Within(s', t, steps, r)
  {
    hide Inv, Next;
    InstallsGrow(cfg, s, a);
    OtherTask(cfg, s, a, t);
    SenderScan.JustStarted(cfg, s, a, t);
  }

  lemma {:induction false} RunWithin(cfg: Config, actions: seq<Action>, t: TaskId) returns (r: nat)
    requires Lz4Inverts(cfg.env)
    ensures Within(Run(cfg, Init(), actions), t, OwnSteps(cfg, actions, t), r)
  {
    hide Next, Inv, Within;
    if actions == [] {
      r := 0;
      assert Within(Init(), t, 0, 0) by { NothingSpent(t); }
    } else {
      var n := |actions| - 1;
      r := RunWithin(cfg, actions[..n], t);
      RunKeepsInv(cfg, actions[..n]);
      var s := Run(cfg, Init(), actions[..n]);
      if actions[n].Step? && actions[n].t == t && t in s.tasks {
        r := OwnWithin(cfg, s, t, actions[n].input, Run(cfg, Init(), actions), OwnSteps(cfg, actions[..n], t), r);
      } else {
        OtherWithin(cfg, s, actions[n], Run(cfg, Init(), actions), t, OwnSteps(cfg, actions[..n], t), r);
      }
    }
  }

  lemma NothingSpent(t: TaskId)
    ensures Within(Init(), t, 0, 0)
  {
  }

  /** Whatever the other tasks do, a dispatch and a ping are finished after 81 steps of their own, and a subscription
      after 81 and 81 more for each connection installed in the run. */
  lemma TasksFinish(cfg: Config, actions: seq<Action>, t: TaskId)
    requires Lz4Inverts(cfg.env) && t in Run(cfg, Init(), actions).tasks
    ensures var s := Run(cfg, Init(), actions);
            OwnSteps(cfg, actions, t) >= 81 * (1 + if s.tasks[t].op.Upsert? then |s.sh.installs| else 0) ==>
              s.tasks[t].pc.Done?
  {
    hide Run, OwnSteps;
    var s := Run(cfg, Init(), actions);
    var r := RunWithin(cfg, actions, t);
    RunKeepsInv(cfg, actions);
    if !s.tasks[t].pc.Done? {
      TaskShape(cfg, s, t);
      hide Inv;
      TaskStepRanks(cfg, s.sh, t, s.tasks[t], Input(0, 0, [], false));
    }
  }

  // ----- Outcomes -----

  /** What a task finds at the step that ends it. */
  ghost predicate EndsWith(cfg: Config, sh: Shared, task: Task, inp: Input, outcome: Outcome, sh': Shared) {
    match outcome
    case Dispatched =>
      || task.pc == DispLoad(10)
      || (&& task.pc.DispMatch? && task.op.Dispatch?
          && Codec.EncodeUpdate(cfg.env, task.op.update, inp.stamp).Err?)
    case Exhausted => task.pc == FreeLoad(10)
    case CreateFailed => task.pc.Create? && (!inp.createOk || cfg.capacity < 64)
    case Created(token) =>
      && task.pc.InstallCas? && task.pc.i < |sh.cells| == |sh'.cells| && task.pc.e < |sh'.entries|
      && sh.cells[task.pc.i].None? && sh'.cells[task.pc.i] == Some(task.pc.e)
      && token == Token(sh'.entries[task.pc.e])
    case Existing(token) =>
      && task.pc.FilterStore? && task.op.Upsert? && task.pc.e < |sh'.entries| && token == Token(sh'.entries[task.pc.e])
      && sh'.entries[task.pc.e].cell.requests == task.pc.cell.requests + [task.op.request]
    case PingTouched =>
      && task.op.Ping? && task.pc.Touch? && task.pc.e < |sh'.entries|
      && sh'.entries[task.pc.e].lastSeen == inp.now
    case PingIgnored => task.op.Ping? && (task.pc.LookupLoad? || task.pc.EvictCas?)
  }

  lemma TaskStepEnds(cfg: Config, sh: Shared, t: TaskId, task: Task, inp: Input)
    requires Wf(sh) && Shape(sh, task) && !task.pc.Done? && TaskStep(cfg, sh, t, task, inp).1.pc.Done?
    ensures var (sh', task') := TaskStep(cfg, sh, t, task, inp);
            EndsWith(cfg, sh, task, inp, task'.pc.outcome, sh')
  {
    hide WithRequest, FromRequest, Link.Next, Matches, Codec.EncodeUpdate, PushFrame, NewEntry;
  }

  /** Every outcome has its cause in every run: a subscription fails for want of a ring only if the task could not make
      one, is answered as created only by filling an empty slot and as existing only by adding its request, and a
      dispatch ends only after the last slot or with an update it cannot encode. */
  lemma {:induction false} OutcomeHasCause(cfg: Config, actions: seq<Action>, t: TaskId) returns (n: nat)
    requires Lz4Inverts(cfg.env)
    requires var s := Run(cfg, Init(), actions); t in s.tasks && s.tasks[t].pc.Done?
    ensures n < |actions| && actions[n].Step? && actions[n].t == t
    ensures var s := At(cfg, actions, n);
            && t in s.tasks && !s.tasks[t].pc.Done?
            && EndsWith(cfg, s.sh, s.tasks[t], actions[n].input, Run(cfg, Init(), actions).tasks[t].pc.outcome,
                        At(cfg, actions, n + 1).sh)
  {
    hide Next, Inv, EndsWith, Init;
    assert actions != [] by { NobodyAtFirst(cfg, actions); }
    n := |actions| - 1;
    var s := At(cfg, actions, n);
    AtNext(cfg, actions, n);
    assert actions[..n + 1] == actions;
    if actions[n].Step? && actions[n].t == t && t in s.tasks && !s.tasks[t].pc.Done? {
      TaskShape(cfg, s, t);
      StepOf(cfg, s, t, actions[n].input);
      TaskStepEnds(cfg, s.sh, t, s.tasks[t], actions[n].input);
    } else {
      assert t in s.tasks && s.tasks[t].pc == Run(cfg, Init(), actions).tasks[t].pc by {
        EndedBefore(cfg, s, actions[n], t);
      }
      var k := OutcomeHasCause(cfg, actions[..n], t);
      AtPrefix(cfg, actions, n, k);
      AtPrefix(cfg, actions, n, k + 1);
      n := k;
    }
  }

  lemma NobodyAtFirst(cfg: Config, actions: seq<Action>)
    ensures actions == [] ==> Run(cfg, Init(), actions).tasks == map[]
  {
  }

  lemma EndedBefore(cfg: Config, s: State, a: Action, t: TaskId)
    requires Inv(cfg, s) && !(a.Step? && a.t == t && t in s.tasks && !s.tasks[t].pc.Done?)
    requires t in Next(cfg, s, a).tasks && Next(cfg, s, a).tasks[t].pc.Done?
    ensures t in s.tasks && s.tasks[t] == Next(cfg, s, a).tasks[t]
  {
    hide Next, Inv;
    if a.Step? && a.t == t && t in s.tasks {
      TaskShape(cfg, s, t);
      StepOf(cfg, s, t, a.input);
      DoneStays(cfg, s.sh, t, s.tasks[t], a.input);
    } else {
      OtherTask(cfg, s, a, t);
    }
  }

  /** In a scan of its own the task found all ten slots taken. */
  ghost predicate FoundAllTaken(cfg: Config, actions: seq<Action>, t: TaskId) {
    exists from: nat | from <= |actions| :: AllTakenSince(cfg, actions, from, t)
  }

  ghost predicate AllTakenSince(cfg: Config, actions: seq<Action>, from: nat, t: TaskId) {
    forall j | 0 <= j < 10 :: SenderScan.TakenSince(cfg, actions, from, t, j)
  }

  /** With this step the task fails to make a ring. */
  ghost predicate CannotCreate(cfg: Config, s: State, a: Action, t: TaskId) {
    a.Step? && a.t == t && t in s.tasks && s.tasks[t].pc.Create? && (!a.input.createOk || cfg.capacity < 64)
  }

  /** What answers mean, in every run: a subscription answered as existing carried the token it is answered with, one
      answered as created has an installed connection of that token, one refused for want of a slot found all ten
      taken, and one refused for want of a ring could not make one. */
  lemma AnswersAreTrue(cfg: Config, actions: seq<Action>, t: TaskId)
    requires Lz4Inverts(cfg.env)
    requires var s := Run(cfg, Init(), actions); t in s.tasks && s.tasks[t].pc.Done?
    ensures var s := Run(cfg, Init(), actions);
            match s.tasks[t].pc.outcome
            case Existing(token) => TokenOf(s.tasks[t].op) == Some(token)
            case Created(token) =>
              exists e | e in s.sh.installs :: e < |s.sh.entries| && Token(s.sh.entries[e]) == token
            case Exhausted => FoundAllTaken(cfg, actions, t)
            case CreateFailed => exists n | 0 <= n < |actions| :: CannotCreate(cfg, At(cfg, actions, n), actions[n], t)
            case _ => true
  {
    var s := Run(cfg, Init(), actions);
    hide Run, Linked, EntryInv, IdOk, FrameOk, SentBelow, NotifyOk, SenderScan.TakenSince;
    RunKeepsInv(cfg, actions);
    assert Local(cfg, s, t);
    match s.tasks[t].pc.outcome {
      case Created(token) =>
        var k :| 0 <= k < |s.sh.installs| && Token(s.sh.entries[s.sh.installs[k]]) == token;
        assert s.sh.installs[k] in s.sh.installs;
      case Exhausted =>
        var from := SenderScan.ExhaustedMeansTaken(cfg, actions, t);
        assert AllTakenSince(cfg, actions, from, t);
      case CreateFailed =>
        var n := OutcomeHasCause(cfg, actions, t);
        assert CannotCreate(cfg, At(cfg, actions, n), actions[n], t);
      case _ =>
    }
  }
}
