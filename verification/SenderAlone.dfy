/** A task that runs by itself from any reachable state: what subscriptions and pings come to. */
module SenderAlone {
  import opened Types
  import opened Framing
  import Consumer
  import Link
  import opened Filter
  import opened Sender
  import opened SenderInv
  import opened SenderSteps
  import opened SenderTheorems
  import opened SenderEvictions

  /** Clock, keys and I/O outcome of a task's step, by the point it is taken at. */
  type Oracle = Pc -> Input

  ghost function Go(cfg: Config, s: State, t: TaskId, oracle: Oracle): State {
    if t in s.tasks then Next(cfg, s, Step(t, oracle(s.tasks[t].pc))) else s
  }

  ghost function Alone(cfg: Config, s: State, t: TaskId, oracle: Oracle, n: nat): State
    decreases n
  {
    if n == 0 then s else Alone(cfg, Go(cfg, s, t, oracle), t, oracle, n - 1)
  }

  lemma {:induction false} AloneOnward(cfg: Config, s: State, t: TaskId, oracle: Oracle, n: nat, m: nat)
    ensures Alone(cfg, Alone(cfg, s, t, oracle, n), t, oracle, m) == Alone(cfg, s, t, oracle, n + m)
    decreases n
  {
    hide Go;
    if n > 0 {
      AloneOnward(cfg, Go(cfg, s, t, oracle), t, oracle, n - 1, m);
    }
  }

  /** One step of the task, when it is known what it does. */
  lemma Moves(cfg: Config, s: State, t: TaskId, oracle: Oracle, sh': Shared, task': Task)
    requires Lz4Inverts(cfg.env) && Inv(cfg, s) && t in s.tasks
    requires Wf(s.sh) && Shape(s.sh, s.tasks[t])
    requires TaskStep(cfg, s.sh, t, s.tasks[t], oracle(s.tasks[t].pc)) == (sh', task')
    ensures Alone(cfg, s, t, oracle, 1) == State(sh', s.tasks[t := task']) && Inv(cfg, State(sh', s.tasks[t := task']))
  {
    hide Inv, TaskStep;
    StepOf(cfg, s, t, oracle(s.tasks[t].pc));
    NextKeepsInv(cfg, s, Step(t, oracle(s.tasks[t].pc)));
    hide Next;
    var s' := Go(cfg, s, t, oracle);
    assert Alone(cfg, s', t, oracle, 0) == s';
  }

  /** Two runs of the task, one after the other. */
  lemma Then(cfg: Config, s: State, t: TaskId, oracle: Oracle, n: nat, s1: State, m: nat, s2: State)
    requires Alone(cfg, s, t, oracle, n) == s1 && Alone(cfg, s1, t, oracle, m) == s2
    ensures Alone(cfg, s, t, oracle, n + m) == s2
  {
    AloneOnward(cfg, s, t, oracle, n, m);
  }

  ghost function Moved(s: State, t: TaskId, sh: Shared, pc: Pc): State
    requires t in s.tasks
  {
    State(sh, s.tasks[t := s.tasks[t].(pc := pc)])
  }

  lemma MovedTwice(s: State, t: TaskId, sh1: Shared, pc1: Pc, sh2: Shared, pc2: Pc)
    requires t in s.tasks
    ensures Moved(Moved(s, t, sh1, pc1), t, sh2, pc2) == Moved(s, t, sh2, pc2)
  {
    assert s.tasks[t := s.tasks[t].(pc := pc1)][t := s.tasks[t].(pc := pc2)] == s.tasks[t := s.tasks[t].(pc := pc2)];
  }

  /** The task goes on from one point of its program to the next. */
  lemma Goes(cfg: Config, s: State, t: TaskId, oracle: Oracle, n: nat, sh: Shared, pc: Pc, sh': Shared, pc': Pc)
    requires Lz4Inverts(cfg.env) && t in s.tasks
    requires Alone(cfg, s, t, oracle, n) == Moved(s, t, sh, pc) && Inv(cfg, Moved(s, t, sh, pc))
    requires var task := s.tasks[t].(pc := pc);
             Wf(sh) && Shape(sh, task) ==> TaskStep(cfg, sh, t, task, oracle(pc)) == (sh', task.(pc := pc'))
    ensures Alone(cfg, s, t, oracle, n + 1) == Moved(s, t, sh', pc') && Inv(cfg, Moved(s, t, sh', pc'))
  {
    hide Inv, TaskStep, Alone;
    var s1 := Moved(s, t, sh, pc);
    TaskShape(cfg, s1, t);
    Moves(cfg, s1, t, oracle, sh', s1.tasks[t].(pc := pc'));
    MovedTwice(s, t, sh, pc, sh', pc');
    Then(cfg, s, t, oracle, n, s1, 1, Moved(s, t, sh', pc'));
  }

  // ----- Scanning for a slot -----

  /** Slot `k` holds a connection seen within thirty seconds of the clock the scan reads for it. */
  ghost predicate Taken(sh: Shared, oracle: Oracle, k: nat)
    requires Wf(sh) && k < SLOTS
  {
    sh.cells[k].Some? && oracle(FreeStale(k, sh.cells[k].value)).now <= sh.entries[sh.cells[k].value].lastSeen + 30_000
  }

  ghost function Closed(x: Entry, t: TaskId): Entry {
    LinkStep(LinkStep(x, Link.CloseRing(t)).(closeCalled := true), Link.Notify(t))
  }

  /** The table with slot `k` empty, and the silent connection that was in it, if any, closed and notified. */
  ghost function Freed(sh: Shared, t: TaskId, k: nat): Shared
    requires Wf(sh) && k < SLOTS
  {
    if sh.cells[k].None? then sh
    else
      var e := sh.cells[k].value;
      sh.(entries := sh.entries[e := Closed(sh.entries[e], t)], cells := sh.cells[k := None])
  }

  /** A slot that holds a connection is passed over, or its connection is to be closed. */
  lemma LooksAt(cfg: Config, s: State, t: TaskId, oracle: Oracle, n: nat, sh: Shared, i: nat)
    requires Lz4Inverts(cfg.env) && t in s.tasks && Wf(sh) && i < SLOTS && sh.cells[i].Some?
    requires Alone(cfg, s, t, oracle, n) == Moved(s, t, sh, FreeLoad(i)) && Inv(cfg, Moved(s, t, sh, FreeLoad(i)))
    ensures var pc := if Taken(sh, oracle, i) then FreeLoad(i + 1) else CloseRing(i, sh.cells[i].value, Recheck(i));
            Alone(cfg, s, t, oracle, n + 2) == Moved(s, t, sh, pc) && Inv(cfg, Moved(s, t, sh, pc))
  {
    hide Inv, Alone, Moved, Link.Next, LookupStep, DispatchStep;
    var e := sh.cells[i].value;
    Goes(cfg, s, t, oracle, n, sh, FreeLoad(i), sh, FreeStale(i, e));
    Goes(cfg, s, t, oracle, n + 1, sh, FreeStale(i, e), sh,
         if Taken(sh, oracle, i) then FreeLoad(i + 1) else CloseRing(i, e, Recheck(i)));
  }

  lemma FindEmpty(cfg: Config, s: State, t: TaskId, oracle: Oracle, n: nat, sh: Shared, i: nat)
    requires Lz4Inverts(cfg.env) && t in s.tasks && Wf(sh) && i < SLOTS && sh.cells[i].None?
    requires Alone(cfg, s, t, oracle, n) == Moved(s, t, sh, FreeLoad(i)) && Inv(cfg, Moved(s, t, sh, FreeLoad(i)))
    ensures Alone(cfg, s, t, oracle, n + 1) == Moved(s, t, sh, Create(i, |sh.installs|))
    ensures Inv(cfg, Moved(s, t, sh, Create(i, |sh.installs|)))
  {
    hide Inv, Alone, Moved, Link.Next, LookupStep, DispatchStep;
    Goes(cfg, s, t, oracle, n, sh, FreeLoad(i), sh, Create(i, |sh.installs|));
  }

  lemma EvictsFreed(sh: Shared, t: TaskId, i: nat, e: EntryId, sh2: Shared)
    requires Wf(sh) && i < SLOTS && sh.cells[i] == Some(e)
    requires sh2 == SetEntry(SetEntry(sh, e, LinkStep(sh.entries[e], Link.CloseRing(t)).(closeCalled := true)), e,
                             Closed(sh.entries[e], t))
    ensures Wf(sh2) && Evict(sh2, i, e) == Freed(sh, t, i)
  {
    hide Link.Next;
    assert sh2.entries == sh.entries[e := Closed(sh.entries[e], t)];
  }

  /** Closing, notifying and taking out a connection, from any of the three places that do it. */
  lemma ClosesAndEvicts(cfg: Config, s: State, t: TaskId, oracle: Oracle, n: nat, sh: Shared, i: nat, e: EntryId,
                        k: Cont)
    requires Lz4Inverts(cfg.env) && t in s.tasks && Wf(sh) && i < SLOTS && sh.cells[i] == Some(e)
    requires Alone(cfg, s, t, oracle, n) == Moved(s, t, sh, CloseRing(i, e, k))
    requires Inv(cfg, Moved(s, t, sh, CloseRing(i, e, k)))
    ensures Alone(cfg, s, t, oracle, n + 3) == Moved(s, t, Freed(sh, t, i), AfterEvict(s.tasks[t].op, k))
    ensures Inv(cfg, Moved(s, t, Freed(sh, t, i), AfterEvict(s.tasks[t].op, k)))
  {
    hide Inv, Alone, Moved, Link.Next, TaskStep;
    var y := LinkStep(sh.entries[e], Link.CloseRing(t)).(closeCalled := true);
    var sh1 := SetEntry(sh, e, y);
    var sh2 := SetEntry(sh1, e, LinkStep(y, Link.Notify(t)));
    ClosesAlone(cfg, s, t, oracle, n, sh, i, e, k);
    NotifiesAlone(cfg, s, t, oracle, n + 1, sh1, i, e, k);
    EvictsFreed(sh, t, i, e, sh2);
    EvictsAlone(cfg, s, t, oracle, n + 2, sh2, i, e, k);
  }

  lemma ClosesAlone(cfg: Config, s: State, t: TaskId, oracle: Oracle, n: nat, sh: Shared, i: nat, e: EntryId, k: Cont)
    requires Lz4Inverts(cfg.env) && t in s.tasks && e < |sh.entries|
    requires Alone(cfg, s, t, oracle, n) == Moved(s, t, sh, CloseRing(i, e, k))
    requires Inv(cfg, Moved(s, t, sh, CloseRing(i, e, k)))
    ensures var sh' := SetEntry(sh, e, LinkStep(sh.entries[e], Link.CloseRing(t)).(closeCalled := true));
            && Alone(cfg, s, t, oracle, n + 1) == Moved(s, t, sh', CloseNotify(i, e, k))
            && Inv(cfg, Moved(s, t, sh', CloseNotify(i, e, k)))
  {
    hide Inv, Alone, Moved, Link.Next, InstallStep, DispatchStep;
    var sh' := SetEntry(sh, e, LinkStep(sh.entries[e], Link.CloseRing(t)).(closeCalled := true));
    Goes(cfg, s, t, oracle, n, sh, CloseRing(i, e, k), sh', CloseNotify(i, e, k));
  }

  lemma NotifiesAlone(cfg: Config, s: State, t: TaskId, oracle: Oracle, n: nat, sh: Shared, i: nat, e: EntryId, k: Cont)
    requires Lz4Inverts(cfg.env) && t in s.tasks && e < |sh.entries|
    requires Alone(cfg, s, t, oracle, n) == Moved(s, t, sh, CloseNotify(i, e, k))
    requires Inv(cfg, Moved(s, t, sh, CloseNotify(i, e, k)))
    ensures var sh' := SetEntry(sh, e, LinkStep(sh.entries[e], Link.Notify(t)));
            && Alone(cfg, s, t, oracle, n + 1) == Moved(s, t, sh', EvictCas(i, e, k))
            && Inv(cfg, Moved(s, t, sh', EvictCas(i, e, k)))
  {
    hide Inv, Alone, Moved, Link.Next, InstallStep, DispatchStep;
    var sh' := SetEntry(sh, e, LinkStep(sh.entries[e], Link.Notify(t)));
    Goes(cfg, s, t, oracle, n, sh, CloseNotify(i, e, k), sh', EvictCas(i, e, k));
  }

  lemma EvictsAlone(cfg: Config, s: State, t: TaskId, oracle: Oracle, n: nat, sh: Shared, i: nat, e: EntryId, k: Cont)
    requires Lz4Inverts(cfg.env) && t in s.tasks && Wf(sh) && i < SLOTS
    requires Alone(cfg, s, t, oracle, n) == Moved(s, t, sh, EvictCas(i, e, k))
    requires Inv(cfg, Moved(s, t, sh, EvictCas(i, e, k)))
    ensures Alone(cfg, s, t, oracle, n + 1) == Moved(s, t, Evict(sh, i, e), AfterEvict(s.tasks[t].op, k))
    ensures Inv(cfg, Moved(s, t, Evict(sh, i, e), AfterEvict(s.tasks[t].op, k)))
  {
    hide Inv, Alone, Moved, Link.Next, InstallStep, DispatchStep;
    Goes(cfg, s, t, oracle, n, sh, EvictCas(i, e, k), Evict(sh, i, e), AfterEvict(s.tasks[t].op, k));
  }

  lemma FindSilent(cfg: Config, s: State, t: TaskId, oracle: Oracle, n: nat, sh: Shared, i: nat)
    requires Lz4Inverts(cfg.env) && t in s.tasks && Wf(sh) && i < SLOTS && sh.cells[i].Some? && !Taken(sh, oracle, i)
    requires Alone(cfg, s, t, oracle, n) == Moved(s, t, sh, FreeLoad(i)) && Inv(cfg, Moved(s, t, sh, FreeLoad(i)))
    ensures Alone(cfg, s, t, oracle, n + 6) == Moved(s, t, Freed(sh, t, i), Create(i, |sh.installs|))
    ensures Inv(cfg, Moved(s, t, Freed(sh, t, i), Create(i, |sh.installs|)))
  {
    hide Inv, Alone, Moved, Freed, Link.Next, LookupStep, DispatchStep;
    FreedShape(sh, t, i);
    LooksAt(cfg, s, t, oracle, n, sh, i);
    ClosesAndEvicts(cfg, s, t, oracle, n + 2, sh, i, sh.cells[i].value, Recheck(i));
    Goes(cfg, s, t, oracle, n + 5, Freed(sh, t, i), FreeRecheck(i), Freed(sh, t, i), Create(i, |sh.installs|));
  }

  /** The lowest slot from `i` on that is not taken, or none. */
  ghost predicate LowestFree(sh: Shared, oracle: Oracle, i: nat, k: Option<nat>)
    requires Wf(sh)
  {
    match k
    case None => forall j | i <= j < SLOTS :: Taken(sh, oracle, j)
    case Some(k) => i <= k < SLOTS && !Taken(sh, oracle, k) && forall j | i <= j < k :: Taken(sh, oracle, j)
  }

  lemma {:induction false} ScanAlone(cfg: Config, s: State, t: TaskId, oracle: Oracle, n: nat, sh: Shared, i: nat)
    returns (m: nat, k: Option<nat>)
    requires Lz4Inverts(cfg.env) && t in s.tasks && Wf(sh) && i <= SLOTS
    requires Alone(cfg, s, t, oracle, n) == Moved(s, t, sh, FreeLoad(i)) && Inv(cfg, Moved(s, t, sh, FreeLoad(i)))
    ensures LowestFree(sh, oracle, i, k)
    ensures var sh', pc := match k { case Some(j) => Freed(sh, t, j) case None => sh },
                           match k { case Some(j) => Create(j, |sh.installs|) case None => Done(Exhausted) };
            Alone(cfg, s, t, oracle, m) == Moved(s, t, sh', pc) && Inv(cfg, Moved(s, t, sh', pc))
    decreases SLOTS - i
  {
    hide Inv, Alone, Moved, Link.Next, Freed, Taken, TaskStep;
    if i == SLOTS {
      k := None;
      m := n + 1;
      FindNone(cfg, s, t, oracle, n, sh);
    } else if Taken(sh, oracle, i) {
      assert sh.cells[i].Some? by { TakenHolds(sh, oracle, i); }
      LooksAt(cfg, s, t, oracle, n, sh, i);
      m, k := ScanAlone(cfg, s, t, oracle, n + 2, sh, i + 1);
    } else {
      k := Some(i);
      if sh.cells[i].None? {
        FindEmpty(cfg, s, t, oracle, n, sh, i);
        assert Freed(sh, t, i) == sh by { FreedEmpty(sh, t, i); }
        m := n + 1;
      } else {
        FindSilent(cfg, s, t, oracle, n, sh, i);
        m := n + 6;
      }
    }
  }

  lemma TakenHolds(sh: Shared, oracle: Oracle, i: nat)
    requires Wf(sh) && i < SLOTS && Taken(sh, oracle, i)
    ensures sh.cells[i].Some?
  {
  }

  lemma FreedEmpty(sh: Shared, t: TaskId, i: nat)
    requires Wf(sh) && i < SLOTS && sh.cells[i].None?
    ensures Freed(sh, t, i) == sh
  {
  }

  lemma FindNone(cfg: Config, s: State, t: TaskId, oracle: Oracle, n: nat, sh: Shared)
    requires Lz4Inverts(cfg.env) && t in s.tasks && Wf(sh)
    requires Alone(cfg, s, t, oracle, n) == Moved(s, t, sh, FreeLoad(SLOTS))
    requires Inv(cfg, Moved(s, t, sh, FreeLoad(SLOTS)))
    ensures Alone(cfg, s, t, oracle, n + 1) == Moved(s, t, sh, Done(Exhausted))
    ensures Inv(cfg, Moved(s, t, sh, Done(Exhausted)))
  {
    hide Inv, Alone, Moved, Link.Next, LookupStep, DispatchStep;
    Goes(cfg, s, t, oracle, n, sh, FreeLoad(SLOTS), sh, Done(Exhausted));
  }

  // ----- Installing -----

  /** The table with a new connection in slot `k`. */
  ghost function WithNew(cfg: Config, sh: Shared, k: nat, task: Task, now: nat): Shared
    requires |sh.cells| == SLOTS && k < SLOTS && task.id.Some? && task.initial.Some?
  {
    sh.(entries := sh.entries + [NewEntry(cfg, k, task, now)], cells := sh.cells[k := Some(|sh.entries|)],
        installs := sh.installs + [|sh.entries|])
  }

  predicate CanCreate(cfg: Config, inp: Input) {
    inp.createOk && cfg.capacity >= 64
  }

  lemma InstallsAlone(cfg: Config, s: State, t: TaskId, oracle: Oracle, n: nat, sh: Shared, k: nat, since: nat)
    requires Lz4Inverts(cfg.env) && t in s.tasks && Wf(sh) && k < SLOTS && sh.cells[k].None?
    requires s.tasks[t].op.Upsert? && s.tasks[t].id.Some? && s.tasks[t].initial.Some?
    requires CanCreate(cfg, oracle(Create(k, since)))
    requires Alone(cfg, s, t, oracle, n) == Moved(s, t, sh, Create(k, since))
    requires Inv(cfg, Moved(s, t, sh, Create(k, since)))
    ensures var sh', pc := WithNew(cfg, sh, k, s.tasks[t], oracle(Create(k, since)).now),
                           Done(Created(SlotToken(k, s.tasks[t].id.value)));
            Alone(cfg, s, t, oracle, n + 2) == Moved(s, t, sh', pc) && Inv(cfg, Moved(s, t, sh', pc))
  {
    hide Inv, Alone, Moved, Link.Next, Link.Init, Consumer.Init, LookupStep, DispatchStep;
    var now := oracle(Create(k, since)).now;
    var e := |sh.entries|;
    var sh1 := sh.(entries := sh.entries + [NewEntry(cfg, k, s.tasks[t], now)]);
    assert NewEntry(cfg, k, s.tasks[t].(pc := Create(k, since)), now) == NewEntry(cfg, k, s.tasks[t], now);
    Goes(cfg, s, t, oracle, n, sh, Create(k, since), sh1, InstallCas(k, e, since));
    Goes(cfg, s, t, oracle, n + 1, sh1, InstallCas(k, e, since), WithNew(cfg, sh, k, s.tasks[t], now),
         Done(Created(SlotToken(k, s.tasks[t].id.value))));
  }

  lemma CannotCreateAlone(cfg: Config, s: State, t: TaskId, oracle: Oracle, n: nat, sh: Shared, k: nat, since: nat)
    requires Lz4Inverts(cfg.env) && t in s.tasks && Wf(sh) && k < SLOTS && !CanCreate(cfg, oracle(Create(k, since)))
    requires Alone(cfg, s, t, oracle, n) == Moved(s, t, sh, Create(k, since))
    requires Inv(cfg, Moved(s, t, sh, Create(k, since)))
    ensures Alone(cfg, s, t, oracle, n + 1) == Moved(s, t, sh, Done(CreateFailed))
    ensures Inv(cfg, Moved(s, t, sh, Done(CreateFailed)))
  {
    hide Inv, Alone, Moved, Link.Next, Link.Init, Consumer.Init, LookupStep, DispatchStep;
    Goes(cfg, s, t, oracle, n, sh, Create(k, since), sh, Done(CreateFailed));
  }

  /** The table and the task once an id is drawn. */
  ghost function Drawn(cfg: Config, s: State, t: TaskId, oracle: Oracle): State
    requires t in s.tasks && s.tasks[t].op.Upsert?
  {
    var request, keys := s.tasks[t].op.request, oracle(TakeId).keys;
    var cell := FilterCell(FromRequest(cfg.env, request, keys), [request], [keys]);
    State(s.sh.(nextId := s.sh.nextId + 1, takers := s.sh.takers[s.sh.nextId := t]),
          s.tasks[t := s.tasks[t].(id := Some(s.sh.nextId), initial := Some(cell), pc := FreeLoad(0))])
  }

  lemma DrawsAlone(cfg: Config, s: State, t: TaskId, oracle: Oracle)
    requires Lz4Inverts(cfg.env) && Inv(cfg, s) && t in s.tasks && s.tasks[t].op.Upsert? && s.tasks[t].pc == TakeId
    ensures var s1 := Drawn(cfg, s, t, oracle);
            && Alone(cfg, s, t, oracle, 1) == s1 && Inv(cfg, s1) && Wf(s1.sh)
            && Moved(s1, t, s1.sh, FreeLoad(0)) == s1
  {
    hide Inv, Alone, FromRequest, Link.Next;
    var s1 := Drawn(cfg, s, t, oracle);
    TaskShape(cfg, s, t);
    Moves(cfg, s, t, oracle, s1.sh, s1.tasks[t]);
    TaskShape(cfg, s1, t);
    assert s1.tasks[t := s1.tasks[t].(pc := FreeLoad(0))] == s1.tasks;
  }

  /** What an installing subscription comes to when it runs by itself. */
  ghost predicate InstallOutcome(cfg: Config, s: State, t: TaskId, oracle: Oracle, k: Option<nat>, z: State)
    requires Wf(s.sh) && t in s.tasks && s.tasks[t].op.Upsert?
  {
    var s1 := Drawn(cfg, s, t, oracle);
    match k
    case None => z == Moved(s1, t, s1.sh, Done(Exhausted))
    case Some(j) =>
      && j < SLOTS && |s1.sh.cells| == SLOTS && Wf(s1.sh)
      && var freed, inp := Freed(s1.sh, t, j), oracle(Create(j, |s.sh.installs|));
         if CanCreate(cfg, inp) then
           z == Moved(s1, t, WithNew(cfg, freed, j, s1.tasks[t], inp.now), Done(Created(SlotToken(j, s.sh.nextId))))
         else z == Moved(s1, t, freed, Done(CreateFailed))
  }

  lemma UpsertAlone(cfg: Config, s: State, t: TaskId, oracle: Oracle) returns (n: nat, k: Option<nat>)
    requires Lz4Inverts(cfg.env) && Inv(cfg, s) && t in s.tasks && s.tasks[t].op.Upsert? && s.tasks[t].pc == TakeId
    ensures Wf(s.sh) && LowestFree(s.sh, oracle, 0, k)
    ensures InstallOutcome(cfg, s, t, oracle, k, Alone(cfg, s, t, oracle, n))
  {
    hide Inv, Alone, Freed, WithNew, Moved, FromRequest, Link.Next, LowestFree, Taken;
    TaskShape(cfg, s, t);
    DrawsAlone(cfg, s, t, oracle);
    var s1 := Drawn(cfg, s, t, oracle);
    assert Alone(cfg, s1, t, oracle, 0) == s1 by { NoSteps(cfg, s1, t, oracle); }
    var m;
    m, k := ScanAlone(cfg, s1, t, oracle, 0, s1.sh, 0);
    SameScan(s.sh, s1.sh, oracle, 0, k);
    if k.Some? {
      var j := k.value;
      LowestInRange(s1.sh, oracle, 0, k);
      FreedShape(s1.sh, t, j);
      if CanCreate(cfg, oracle(Create(j, |s.sh.installs|))) {
        InstallsAlone(cfg, s1, t, oracle, m, Freed(s1.sh, t, j), j, |s.sh.installs|);
        m := m + 2;
      } else {
        CannotCreateAlone(cfg, s1, t, oracle, m, Freed(s1.sh, t, j), j, |s.sh.installs|);
        m := m + 1;
      }
    }
    n := 1 + m;
    Then(cfg, s, t, oracle, 1, s1, m, Alone(cfg, s1, t, oracle, m));
  }

  lemma NoSteps(cfg: Config, s: State, t: TaskId, oracle: Oracle)
    ensures Alone(cfg, s, t, oracle, 0) == s
  {
    hide Next;
  }

  lemma SameScan(a: Shared, b: Shared, oracle: Oracle, i: nat, k: Option<nat>)
    requires Wf(a) && Wf(b) && a.cells == b.cells && a.entries == b.entries && LowestFree(b, oracle, i, k)
    ensures LowestFree(a, oracle, i, k)
  {
    forall j | 0 <= j < SLOTS
      ensures Taken(a, oracle, j) == Taken(b, oracle, j)
    {
    }
  }

  lemma LowestInRange(sh: Shared, oracle: Oracle, i: nat, k: Option<nat>)
    requires Wf(sh) && LowestFree(sh, oracle, i, k)
    ensures k.Some? ==> i <= k.value < SLOTS
  {
  }

  lemma FreedShape(sh: Shared, t: TaskId, k: nat)
    requires Wf(sh) && k < SLOTS
    ensures var f := Freed(sh, t, k); Wf(f) && f.cells[k].None? && f.installs == sh.installs
  {
    hide Link.Next;
  }

  /** What becomes of a subscription that installs from table `s` on and runs by itself to `z`: it is refused for want
      of a slot if and only if all ten slots hold connections seen within thirty seconds, and otherwise gets the next
      id in the lowest slot that does not, if its ring can be made; no connection that was seen in time is touched. */
  ghost predicate InstalledAlone(cfg: Config, s: State, t: TaskId, oracle: Oracle, z: State)
    requires Wf(s.sh) && t in s.tasks && s.tasks[t].op.Upsert?
  {
    && t in z.tasks && z.tasks[t].pc.Done? && |z.sh.cells| == SLOTS && |s.sh.entries| <= |z.sh.entries|
    && (z.tasks[t].pc.outcome == Exhausted <==> forall i | 0 <= i < 10 :: Taken(s.sh, oracle, i))
    && (forall j | 0 <= j < 10 && !Taken(s.sh, oracle, j) && (forall i | 0 <= i < j :: Taken(s.sh, oracle, i)) ::
          var inp := oracle(Create(j, |s.sh.installs|));
          if CanCreate(cfg, inp) then
            && z.tasks[t].pc.outcome == Created(SlotToken(j, s.sh.nextId))
            && z.sh.cells == s.sh.cells[j := Some(|s.sh.entries|)] && |s.sh.entries| < |z.sh.entries|
            && var x := z.sh.entries[|s.sh.entries|];
               && x.slot == j && x.connId == s.sh.nextId && x.lastSeen == inp.now && !x.closeCalled
               && x.cell.requests == [s.tasks[t].op.request]
               && x.link.capacity == cfg.capacity && x.link.queue == [] && x.link.linked
          else z.tasks[t].pc.outcome == CreateFailed && z.sh.cells == s.sh.cells[j := None])
    && (forall i | 0 <= i < 10 && Taken(s.sh, oracle, i) ::
          && z.sh.cells[i] == s.sh.cells[i]
          && z.sh.entries[s.sh.cells[i].value] == s.sh.entries[s.sh.cells[i].value])
  }

  lemma InstallAlone(cfg: Config, s: State, t: TaskId, oracle: Oracle) returns (n: nat)
    requires Lz4Inverts(cfg.env) && Inv(cfg, s) && t in s.tasks && s.tasks[t].op.Upsert? && s.tasks[t].pc == TakeId
    ensures Wf(s.sh) && InstalledAlone(cfg, s, t, oracle, Alone(cfg, s, t, oracle, n))
  {
    hide Inv, Alone, InstallOutcome, LowestFree, InstalledAlone;
    var k;
    n, k := UpsertAlone(cfg, s, t, oracle);
    OutcomeInstalls(cfg, s, t, oracle, k, Alone(cfg, s, t, oracle, n));
  }

  lemma OutcomeInstalls(cfg: Config, s: State, t: TaskId, oracle: Oracle, k: Option<nat>, z: State)
    requires Inv(cfg, s) && Wf(s.sh) && t in s.tasks && s.tasks[t].op.Upsert?
    requires LowestFree(s.sh, oracle, 0, k) && InstallOutcome(cfg, s, t, oracle, k, z)
    ensures InstalledAlone(cfg, s, t, oracle, z)
  {
    hide Inv, FromRequest, Link.Next, Taken, Closed, CanCreate;
    forall i | 0 <= i < 10 && Taken(s.sh, oracle, i)
      ensures && |z.sh.cells| == SLOTS && |s.sh.entries| <= |z.sh.entries| && s.sh.cells[i].Some?
              && z.sh.cells[i] == s.sh.cells[i]
              && z.sh.entries[s.sh.cells[i].value] == s.sh.entries[s.sh.cells[i].value]
    {
      TakenUntouched(cfg, s, t, oracle, k, z, i);
    }
  }

  lemma TakenUntouched(cfg: Config, s: State, t: TaskId, oracle: Oracle, k: Option<nat>, z: State, i: nat)
    requires Inv(cfg, s) && Wf(s.sh) && t in s.tasks && s.tasks[t].op.Upsert? && i < SLOTS && Taken(s.sh, oracle, i)
    requires LowestFree(s.sh, oracle, 0, k) && InstallOutcome(cfg, s, t, oracle, k, z)
    ensures |z.sh.cells| == SLOTS && |s.sh.entries| <= |z.sh.entries| && s.sh.cells[i].Some?
    ensures z.sh.cells[i] == s.sh.cells[i] && z.sh.entries[s.sh.cells[i].value] == s.sh.entries[s.sh.cells[i].value]
  {
    hide Inv, FromRequest, Link.Next, Closed, NewEntry;
    if k.Some? {
      DistinctCells(cfg, s, k.value);
    }
  }

  /** No connection is in two slots. */
  lemma DistinctCells(cfg: Config, s: State, j: nat)
    requires Inv(cfg, s) && j < SLOTS && Wf(s.sh)
    ensures forall i | 0 <= i < SLOTS && i != j && s.sh.cells[i].Some? :: s.sh.cells[i] != s.sh.cells[j]
  {
    hide EntryInv, Local, Linked;
  }

  // ----- Looking up a token -----

  /** The token resolves to a connection seen within thirty seconds of the clock read for it. */
  ghost predicate LiveTo(sh: Shared, oracle: Oracle, token: SlotToken, e: EntryId)
    requires Wf(sh)
  {
    Resolve(sh, token) == Some(e) && oracle(LookupStale(e)).now <= sh.entries[e].lastSeen + 30_000
  }

  lemma FindsLive(cfg: Config, s: State, t: TaskId, oracle: Oracle, e: EntryId)
    requires Lz4Inverts(cfg.env) && Inv(cfg, s) && t in s.tasks && s.tasks[t].pc == LookupLoad && Wf(s.sh)
    requires TokenOf(s.tasks[t].op).Some? && LiveTo(s.sh, oracle, TokenOf(s.tasks[t].op).value, e)
    ensures var x := s.sh.entries[e];
            var sh' := SetEntry(s.sh, e, x.(lastSeen := oracle(Touch(e)).now));
            var pc := if s.tasks[t].op.Upsert? then FilterLoad(e) else Done(PingTouched);
            Alone(cfg, s, t, oracle, 3) == Moved(s, t, sh', pc) && Inv(cfg, Moved(s, t, sh', pc))
  {
    hide Inv, Alone, Moved, Link.Next, InstallStep, DispatchStep;
    Starts(cfg, s, t, oracle);
    var sh' := SetEntry(s.sh, e, s.sh.entries[e].(lastSeen := oracle(Touch(e)).now));
    Goes(cfg, s, t, oracle, 0, s.sh, LookupLoad, s.sh, LookupStale(e));
    Goes(cfg, s, t, oracle, 1, s.sh, LookupStale(e), s.sh, Touch(e));
    Goes(cfg, s, t, oracle, 2, s.sh, Touch(e), sh', if s.tasks[t].op.Upsert? then FilterLoad(e) else Done(PingTouched));
  }

  lemma Starts(cfg: Config, s: State, t: TaskId, oracle: Oracle)
    requires t in s.tasks
    ensures Alone(cfg, s, t, oracle, 0) == s == Moved(s, t, s.sh, s.tasks[t].pc)
  {
    hide Next;
    assert s.tasks[t := s.tasks[t].(pc := s.tasks[t].pc)] == s.tasks;
  }

  /** A ping of a live connection, run by itself, stamps it with its clock and changes nothing else. */
  lemma PingAlone(cfg: Config, s: State, t: TaskId, oracle: Oracle, e: EntryId)
    requires Lz4Inverts(cfg.env) && Inv(cfg, s) && t in s.tasks && s.tasks[t].pc == LookupLoad && Wf(s.sh)
    requires s.tasks[t].op.Ping? && LiveTo(s.sh, oracle, s.tasks[t].op.token, e)
    ensures var z := Alone(cfg, s, t, oracle, 3);
            && t in z.tasks && z.tasks[t].pc == Done(PingTouched)
            && z.sh == s.sh.(entries := s.sh.entries[e := s.sh.entries[e].(lastSeen := oracle(Touch(e)).now)])
  {
    hide Inv, Alone;
    FindsLive(cfg, s, t, oracle, e);
  }

  /** A subscription with a live connection, run by itself, stamps it, adds its request to the filter, answers with the
      very token, and changes nothing else. */
  lemma RenewAlone(cfg: Config, s: State, t: TaskId, oracle: Oracle, e: EntryId)
    requires Lz4Inverts(cfg.env) && Inv(cfg, s) && t in s.tasks && s.tasks[t].pc == LookupLoad && Wf(s.sh)
    requires s.tasks[t].op.Upsert? && s.tasks[t].op.request.token.Some?
    requires LiveTo(s.sh, oracle, s.tasks[t].op.request.token.value, e)
    ensures var z := Alone(cfg, s, t, oracle, 5);
            var x, request := s.sh.entries[e], s.tasks[t].op.request;
            && t in z.tasks && z.tasks[t].pc == Done(Existing(request.token.value))
            && e < |z.sh.entries| && z.sh.entries[e].cell.requests == x.cell.requests + [request]
            && z.sh == s.sh.(entries := s.sh.entries[e := x.(lastSeen := oracle(Touch(e)).now,
                                                              cell := z.sh.entries[e].cell)])
  {
    hide Inv, Alone, WithRequest, LiveTo;
    TokenOfLive(cfg, s, oracle, s.tasks[t].op.request.token.value, e);
    FindsLive(cfg, s, t, oracle, e);
    var y := s.sh.entries[e].(lastSeen := oracle(Touch(e)).now);
    var cell := AppliesAlone(cfg, s, t, oracle, 3, SetEntry(s.sh, e, y), e);
    assert SetEntry(SetEntry(s.sh, e, y), e, y.(cell := cell)) == SetEntry(s.sh, e, y.(cell := cell));
  }

  lemma AppliesAlone(cfg: Config, s: State, t: TaskId, oracle: Oracle, n: nat, sh: Shared, e: EntryId)
    returns (cell: FilterCell)
    requires Lz4Inverts(cfg.env) && t in s.tasks && s.tasks[t].op.Upsert? && e < |sh.entries|
    requires Alone(cfg, s, t, oracle, n) == Moved(s, t, sh, FilterLoad(e)) && Inv(cfg, Moved(s, t, sh, FilterLoad(e)))
    ensures cell.requests == sh.entries[e].cell.requests + [s.tasks[t].op.request]
    ensures var sh', pc := SetEntry(sh, e, sh.entries[e].(cell := cell)), Done(Existing(Token(sh.entries[e])));
            Alone(cfg, s, t, oracle, n + 2) == Moved(s, t, sh', pc) && Inv(cfg, Moved(s, t, sh', pc))
  {
    hide Inv, Alone, Moved, Link.Next, WithRequest, InstallStep, DispatchStep;
    var loaded, request := sh.entries[e].cell, s.tasks[t].op.request;
    var keys := oracle(FilterStore(e, loaded)).keys;
    cell := FilterCell(WithRequest(cfg.env, loaded.filter, request, keys), loaded.requests + [request],
                       loaded.keys + [keys]);
    Goes(cfg, s, t, oracle, n, sh, FilterLoad(e), sh, FilterStore(e, loaded));
    Goes(cfg, s, t, oracle, n + 1, sh, FilterStore(e, loaded), SetEntry(sh, e, sh.entries[e].(cell := cell)),
         Done(Existing(Token(sh.entries[e]))));
  }

  lemma TokenOfLive(cfg: Config, s: State, oracle: Oracle, token: SlotToken, e: EntryId)
    requires Inv(cfg, s) && Wf(s.sh) && LiveTo(s.sh, oracle, token, e)
    ensures e < |s.sh.entries| && Token(s.sh.entries[e]) == token
  {
    hide EntryInv, Local, Linked;
  }

  /** A token that resolves to a silent connection, or to none: the connection is closed and out, and the task goes on
      without it, a ping to its end and a subscription to install. */
  lemma MissAlone(cfg: Config, s: State, t: TaskId, oracle: Oracle) returns (n: nat)
    requires Lz4Inverts(cfg.env) && Inv(cfg, s) && t in s.tasks && s.tasks[t].pc == LookupLoad && Wf(s.sh)
    requires TokenOf(s.tasks[t].op).Some? && forall e :: !LiveTo(s.sh, oracle, TokenOf(s.tasks[t].op).value, e)
    ensures var token, op := TokenOf(s.tasks[t].op).value, s.tasks[t].op;
            var sh' := if Resolve(s.sh, token).Some? then Freed(s.sh, t, token.slotIndex) else s.sh;
            var pc := if op.Ping? then Done(PingIgnored) else TakeId;
            Alone(cfg, s, t, oracle, n) == Moved(s, t, sh', pc) && Inv(cfg, Moved(s, t, sh', pc))
  {
    hide Inv, Alone, Moved, Link.Next, Freed, InstallStep, DispatchStep;
    var token, op := TokenOf(s.tasks[t].op).value, s.tasks[t].op;
    Starts(cfg, s, t, oracle);
    TaskShape(cfg, s, t);
    var hit := Resolve(s.sh, token);
    if hit.None? {
      Goes(cfg, s, t, oracle, 0, s.sh, LookupLoad, s.sh, AfterMiss(op));
      n := 1;
    } else {
      var e := hit.value;
      assert !LiveTo(s.sh, oracle, token, e);
      Goes(cfg, s, t, oracle, 0, s.sh, LookupLoad, s.sh, LookupStale(e));
      Goes(cfg, s, t, oracle, 1, s.sh, LookupStale(e), s.sh, CloseRing(token.slotIndex, e, LookupMiss));
      ClosesAndEvicts(cfg, s, t, oracle, 2, s.sh, token.slotIndex, e, LookupMiss);
      n := 5;
    }
  }

  /** The table a subscription installs into: without the silent connection its token named, if it named one. */
  ghost function AfterLookup(sh: Shared, t: TaskId, token: Option<SlotToken>): Shared
    requires Wf(sh)
  {
    if token.Some? && Resolve(sh, token.value).Some? then Freed(sh, t, token.value.slotIndex) else sh
  }

  /** A subscription whose token is of no live connection, or that has none, run by itself from any reachable state:
      a silent connection of its token is closed and out, and the subscription then installs. */
  lemma SubscribeAlone(cfg: Config, s: State, t: TaskId, oracle: Oracle) returns (n: nat)
    requires Lz4Inverts(cfg.env) && Inv(cfg, s) && t in s.tasks && Wf(s.sh)
    requires s.tasks[t].op.Upsert? && s.tasks[t].pc == StartPc(s.tasks[t].op)
    requires var token := s.tasks[t].op.request.token;
             token.Some? ==> forall e :: !LiveTo(s.sh, oracle, token.value, e)
    ensures var s1 := Moved(s, t, AfterLookup(s.sh, t, s.tasks[t].op.request.token), TakeId);
            Wf(s1.sh) && InstalledAlone(cfg, s1, t, oracle, Alone(cfg, s, t, oracle, n))
  {
    hide Inv, Alone, InstalledAlone, Freed, LiveTo;
    var m := 0;
    if s.tasks[t].op.request.token.Some? {
      m := MissAlone(cfg, s, t, oracle);
    } else {
      Starts(cfg, s, t, oracle);
    }
    var s1 := Moved(s, t, AfterLookup(s.sh, t, s.tasks[t].op.request.token), TakeId);
    n := InstallAlone(cfg, s1, t, oracle);
    Then(cfg, s, t, oracle, m, s1, n, Alone(cfg, s1, t, oracle, n));
    n := m + n;
  }
}
