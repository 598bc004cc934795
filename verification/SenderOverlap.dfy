/** A run in which two subscriptions of one connection overlap and one of them, though answered, is lost. */
module SenderOverlap {
  import opened Types
  import Link
  import Consumer
  import opened Filter
  import opened Sender
  import opened SenderInv
  import opened SenderSteps
  import opened SenderTheorems
  import opened SenderFilters

  lemma Extend(cfg: Config, actions: seq<Action>, a: Action)
    ensures Run(cfg, Init(), actions + [a]) == Next(cfg, Run(cfg, Init(), actions), a)
  {
    hide Next;
    assert (actions + [a])[..|actions|] == actions;
  }

  lemma TaskMoves(cfg: Config, s: State, t: TaskId, inp: Input, sh': Shared, task': Task)
    requires t in s.tasks && Wf(s.sh) && Shape(s.sh, s.tasks[t])
    requires TaskStep(cfg, s.sh, t, s.tasks[t], inp) == (sh', task')
    ensures Next(cfg, s, Step(t, inp)) == State(sh', s.tasks[t := task'])
  {
    hide TaskStep;
  }

  ghost function Touched(sh: Shared, e: EntryId, now: nat): Shared
    requires e < |sh.entries|
  {
    SetEntry(sh, e, sh.entries[e].(lastSeen := now))
  }

  /** A subscription's lookup, up to the point where it has loaded the filter. */
  lemma LoadsFilter(cfg: Config, actions: seq<Action>, t: TaskId, inp: Input, e: EntryId) returns (more: seq<Action>)
    requires var s := Run(cfg, Init(), actions);
             && Wf(s.sh) && t in s.tasks && s.tasks[t].op.Upsert? && s.tasks[t].op.request.token.Some?
             && s.tasks[t].pc.LookupLoad? && Resolve(s.sh, s.tasks[t].op.request.token.value) == Some(e)
             && !IsStale(inp.now, s.sh.entries[e])
    ensures var s := Run(cfg, Init(), actions);
            Run(cfg, Init(), more) ==
            State(Touched(s.sh, e, inp.now), s.tasks[t := s.tasks[t].(pc := FilterStore(e, s.sh.entries[e].cell))])
  {
    hide Run, Next;
    var s := Run(cfg, Init(), actions);
    var task := s.tasks[t];
    more := actions;
    Extend(cfg, more, Step(t, inp));
    TaskMoves(cfg, s, t, inp, s.sh, task.(pc := LookupStale(e)));
    more := more + [Step(t, inp)];
    var s1 := Run(cfg, Init(), more);
    Extend(cfg, more, Step(t, inp));
    TaskMoves(cfg, s1, t, inp, s.sh, task.(pc := Touch(e)));
    more := more + [Step(t, inp)];
    var s2 := Run(cfg, Init(), more);
    Extend(cfg, more, Step(t, inp));
    TaskMoves(cfg, s2, t, inp, Touched(s.sh, e, inp.now), task.(pc := FilterLoad(e)));
    more := more + [Step(t, inp)];
    var s3 := Run(cfg, Init(), more);
    Extend(cfg, more, Step(t, inp));
    TaskMoves(cfg, s3, t, inp, Touched(s.sh, e, inp.now), task.(pc := FilterStore(e, s.sh.entries[e].cell)));
    more := more + [Step(t, inp)];
    assert s.tasks[t := task.(pc := LookupStale(e))][t := task.(pc := Touch(e))][t := task.(pc := FilterLoad(e))]
           [t := task.(pc := FilterStore(e, s.sh.entries[e].cell))]
           == s.tasks[t := task.(pc := FilterStore(e, s.sh.entries[e].cell))];
  }

  ghost function FirstEntry(cfg: Config, boot: SubscriptionRequest, inp: Input): Entry {
    Entry(0, 1, FilterCell(FromRequest(cfg.env, boot, inp.keys), [boot], [inp.keys]), inp.now,
          Link.Init(cfg.capacity), Consumer.Init(), false, [])
  }

  /** The table with one connection in its first slot. */
  ghost function FirstTable(cfg: Config, boot: SubscriptionRequest, inp: Input): Shared {
    Shared(seq(SLOTS, i => if i == 0 then Some(0) else None), [FirstEntry(cfg, boot, inp)], 2, map[1 := 0], [0])
  }

  ghost function Drawn(cfg: Config, boot: SubscriptionRequest, inp: Input, pc: Pc): Task {
    var cell := FilterCell(FromRequest(cfg.env, boot, inp.keys), [boot], [inp.keys]);
    Task(Upsert(boot), pc, Some(1), Some(cell), None)
  }

  ghost function DrawnTable(): Shared {
    Init().sh.(nextId := 2, takers := map[1 := 0])
  }

  ghost function CreatedTable(cfg: Config, boot: SubscriptionRequest, inp: Input): Shared {
    DrawnTable().(entries := [FirstEntry(cfg, boot, inp)])
  }

  lemma DrawsId(cfg: Config, boot: SubscriptionRequest, inp: Input)
    ensures var sh, task := Init().sh, Task(Upsert(boot), TakeId, None, None, None);
            && Wf(sh) && Shape(sh, task)
            && TaskStep(cfg, sh, 0, task, inp) == (DrawnTable(), Drawn(cfg, boot, inp, FreeLoad(0)))
  {
    hide FromRequest;
    assert map[][1 := 0] == map[1 := 0];
  }

  lemma FindsSlot(cfg: Config, boot: SubscriptionRequest, inp: Input)
    ensures var sh, task := DrawnTable(), Drawn(cfg, boot, inp, FreeLoad(0));
            && Wf(sh) && Shape(sh, task)
            && TaskStep(cfg, sh, 0, task, inp) == (sh, Drawn(cfg, boot, inp, Create(0, 0)))
  {
    hide FromRequest;
  }

  lemma CreatesEntry(cfg: Config, boot: SubscriptionRequest, inp: Input)
    requires cfg.capacity >= MIN_CAPACITY && inp.createOk
    ensures var sh, task := DrawnTable(), Drawn(cfg, boot, inp, Create(0, 0));
            && Wf(sh) && Shape(sh, task)
            && TaskStep(cfg, sh, 0, task, inp)
               == (CreatedTable(cfg, boot, inp), Drawn(cfg, boot, inp, InstallCas(0, 0, 0)))
  {
    hide FromRequest, Link.Init, Consumer.Init;
    assert [] + [FirstEntry(cfg, boot, inp)] == [FirstEntry(cfg, boot, inp)];
  }

  lemma InstallsEntry(cfg: Config, boot: SubscriptionRequest, inp: Input)
    ensures var sh, task := CreatedTable(cfg, boot, inp), Drawn(cfg, boot, inp, InstallCas(0, 0, 0));
            && Wf(sh) && Shape(sh, task)
            && TaskStep(cfg, sh, 0, task, inp)
               == (FirstTable(cfg, boot, inp), Drawn(cfg, boot, inp, Done(Created(SlotToken(0, 1)))))
  {
    hide FromRequest, Link.Init, Consumer.Init;
    assert CreatedTable(cfg, boot, inp).cells[0 := Some(0)] == FirstTable(cfg, boot, inp).cells;
    assert [] + [0] == [0];
  }

  /** The first subscription of a new sender installs connection 1 in slot 0. */
  lemma InstallsFirst(cfg: Config, boot: SubscriptionRequest, inp: Input) returns (actions: seq<Action>)
    requires cfg.capacity >= MIN_CAPACITY && inp.createOk && boot.token.None?
    ensures var s := Run(cfg, Init(), actions); s.sh == FirstTable(cfg, boot, inp) && s.tasks.Keys == {0}
  {
    hide Run, Next, TaskStep, Shape, Wf, Init, Drawn, DrawnTable, CreatedTable, FirstTable;
    actions := [Spawn(0, Upsert(boot))];
    FirstSpawn(cfg, boot);
    DrawsId(cfg, boot, inp);
    Extend(cfg, actions, Step(0, inp));
    TaskMoves(cfg, Run(cfg, Init(), actions), 0, inp, DrawnTable(), Drawn(cfg, boot, inp, FreeLoad(0)));
    actions := actions + [Step(0, inp)];
    FindsSlot(cfg, boot, inp);
    Extend(cfg, actions, Step(0, inp));
    TaskMoves(cfg, Run(cfg, Init(), actions), 0, inp, DrawnTable(), Drawn(cfg, boot, inp, Create(0, 0)));
    actions := actions + [Step(0, inp)];
    CreatesEntry(cfg, boot, inp);
    Extend(cfg, actions, Step(0, inp));
    TaskMoves(cfg, Run(cfg, Init(), actions), 0, inp, CreatedTable(cfg, boot, inp),
              Drawn(cfg, boot, inp, InstallCas(0, 0, 0)));
    actions := actions + [Step(0, inp)];
    InstallsEntry(cfg, boot, inp);
    Extend(cfg, actions, Step(0, inp));
    TaskMoves(cfg, Run(cfg, Init(), actions), 0, inp, FirstTable(cfg, boot, inp),
              Drawn(cfg, boot, inp, Done(Created(SlotToken(0, 1)))));
    actions := actions + [Step(0, inp)];
  }

  lemma FirstSpawn(cfg: Config, boot: SubscriptionRequest)
    requires boot.token.None?
    ensures Run(cfg, Init(), [Spawn(0, Upsert(boot))]) ==
            State(Init().sh, map[0 := Task(Upsert(boot), TakeId, None, None, None)])
  {
    hide TaskStep;
    assert [Spawn(0, Upsert(boot))][..0] == [];
  }

  lemma Spawns(cfg: Config, actions: seq<Action>, t: TaskId, op: Op)
    requires t !in Run(cfg, Init(), actions).tasks
    ensures var s := Run(cfg, Init(), actions);
            Run(cfg, Init(), actions + [Spawn(t, op)]) ==
            State(s.sh, s.tasks[t := Task(op, StartPc(op), None, None, None)])
  {
    hide Run, TaskStep;
    Extend(cfg, actions, Spawn(t, op));
  }

  /** A real loss, from an empty sender: two subscriptions with the token of one connection overlap, and one of
      them is answered as existing although its request is not in the filter. */
  lemma RequestLostInRun(cfg: Config, boot: SubscriptionRequest, r1: SubscriptionRequest, r2: SubscriptionRequest,
                         inp: Input) returns (actions: seq<Action>)
    requires Lz4Inverts(cfg.env) && cfg.capacity >= MIN_CAPACITY && inp.createOk && boot.token.None?
    requires r1.token == r2.token == Some(SlotToken(0, 1)) && r1 != r2
    ensures var s := Run(cfg, Init(), actions);
            && 1 in s.tasks && s.tasks[1].op == Upsert(r1) && s.tasks[1].pc == Done(Existing(SlotToken(0, 1)))
            && |s.sh.entries| == 1 && Ever(s.sh, 0) && Token(s.sh.entries[0]) == SlotToken(0, 1)
            && r1 !in Requests(s, 0) && !NothingLost(cfg, actions, 0)
  {
    hide Run, Next, SenderInv.Inv, FirstTable, Touched, Resolve, NothingLost;
    actions := InstallsFirst(cfg, boot, inp);
    Spawns(cfg, actions, 1, Upsert(r1));
    actions := actions + [Spawn(1, Upsert(r1))];
    Spawns(cfg, actions, 2, Upsert(r2));
    actions := actions + [Spawn(2, Upsert(r2))];
    FirstResolves(cfg, boot, inp);
    actions := LoadsFilter(cfg, actions, 1, inp, 0);
    actions := LoadsFilter(cfg, actions, 2, inp, 0);
    RunKeepsInv(cfg, actions);
    var s := Run(cfg, Init(), actions);
    Extend(cfg, actions, Step(1, inp));
    StoreAnswers(cfg, s, 1, inp);
    RequestLost(cfg, s, 1, 2, inp, inp, 0);
    actions := actions + [Step(1, inp)];
    RunKeepsInv(cfg, actions);
    var s1 := Run(cfg, Init(), actions);
    Extend(cfg, actions, Step(2, inp));
    OtherTaskSame(cfg, s, 1, inp, 2);
    StoreAnswers(cfg, s1, 2, inp);
    OtherTaskSame(cfg, s1, 2, inp, 1);
    actions := actions + [Step(2, inp)];
    if NothingLost(cfg, actions, 0) {
      AppliedThroughout(cfg, actions, 1, 0);
    }
  }

  lemma StoreAnswers(cfg: Config, s: State, t: TaskId, inp: Input)
    requires SenderInv.Inv(cfg, s) && t in s.tasks && s.tasks[t].op.Upsert? && s.tasks[t].pc.FilterStore?
    ensures var e := s.tasks[t].pc.e;
            var s' := Next(cfg, s, Step(t, inp));
            && e < |s.sh.entries| == |s'.sh.entries| && s'.sh.installs == s.sh.installs
            && Token(s'.sh.entries[e]) == Token(s.sh.entries[e])
            && t in s'.tasks && s'.tasks[t].op == s.tasks[t].op
            && s'.tasks[t].pc == Done(Existing(Token(s.sh.entries[e])))
  {
    hide SenderInv.Inv, WithRequest;
    TaskShape(cfg, s, t);
  }

  lemma FirstResolves(cfg: Config, boot: SubscriptionRequest, inp: Input)
    ensures var sh := FirstTable(cfg, boot, inp);
            && Wf(sh) && Resolve(sh, SlotToken(0, 1)) == Some(0) && !IsStale(inp.now, sh.entries[0])
            && Touched(sh, 0, inp.now) == sh && Token(sh.entries[0]) == SlotToken(0, 1)
            && |sh.entries| == 1 && sh.entries[0].cell.requests == [boot] && Ever(sh, 0)
  {
  }
}
