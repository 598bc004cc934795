/** Every step of every task keeps the invariant, and every other task's facts survive it. */
module SenderSteps {
  import opened Types
  import opened Framing
  import Codec
  import opened Filter
  import Link
  import Consumer
  import opened Sender
  import opened SenderInv
  import opened SenderEntries

  // ----- Effects on the shared state -----

  lemma SetEntryOk(cfg: Config, sh: Shared, t: TaskId, e: EntryId, x: Entry)
    requires SharedInv(cfg, sh) && e < |sh.entries|
    requires EntryInv(cfg, x) && EntryEvolves(t, sh.entries[e], x)
    ensures SharedInv(cfg, SetEntry(sh, e, x)) && Evolves(t, sh, SetEntry(sh, e, x))
  {
    hide EntryInv;
    assert x.slot < SLOTS by { EntrySlot(cfg, x); }
    forall d | 0 <= d < |sh.entries| ensures EntryEvolves(t, sh.entries[d], SetEntry(sh, e, x).entries[d]) {
    }
  }

  lemma EntrySlot(cfg: Config, x: Entry)
    requires EntryInv(cfg, x)
    ensures x.slot < SLOTS
  {
    hide CellOk, Link.Inv, Consumer.Inv;
  }

  lemma NothingOk(cfg: Config, sh: Shared, t: TaskId)
    requires SharedInv(cfg, sh)
    ensures Evolves(t, sh, sh)
  {
    hide EntryInv;
  }

  lemma EvictOk(cfg: Config, sh: Shared, t: TaskId, i: nat, e: EntryId)
    requires SharedInv(cfg, sh) && i < SLOTS && e < |sh.entries| && sh.entries[e].closeCalled
    ensures SharedInv(cfg, Evict(sh, i, e)) && Evolves(t, sh, Evict(sh, i, e))
  {
    hide EntryInv;
    var sh' := Evict(sh, i, e);
    forall k | 0 <= k < |sh'.installs|
      ensures InTable(sh', sh'.installs[k]) || sh'.entries[sh'.installs[k]].closeCalled
    {
      assert InTable(sh, sh.installs[k]) || sh.entries[sh.installs[k]].closeCalled;
    }
    forall j | 0 <= j < SLOTS && sh'.cells[j].Some?
      ensures sh'.entries[sh'.cells[j].value].slot == j && Ever(sh', sh'.cells[j].value)
    {
      assert Ever(sh, sh.cells[j].value);
    }
  }

  lemma TakeIdOk(cfg: Config, sh: Shared, t: TaskId)
    requires SharedInv(cfg, sh)
    ensures var sh' := sh.(nextId := sh.nextId + 1, takers := sh.takers[sh.nextId := t]);
            SharedInv(cfg, sh') && Evolves(t, sh, sh')
  {
    hide EntryInv;
    var sh' := sh.(nextId := sh.nextId + 1, takers := sh.takers[sh.nextId := t]);
    forall k | 0 <= k < |sh'.installs|
      ensures InTable(sh', sh'.installs[k]) || sh'.entries[sh'.installs[k]].closeCalled
    {
      assert InTable(sh, sh.installs[k]) || sh.entries[sh.installs[k]].closeCalled;
    }
    forall j | 0 <= j < SLOTS && sh'.cells[j].Some?
      ensures sh'.entries[sh'.cells[j].value].slot == j && Ever(sh', sh'.cells[j].value)
    {
      assert Ever(sh, sh.cells[j].value);
    }
  }

  lemma AllocOk(cfg: Config, sh: Shared, t: TaskId, x: Entry)
    requires SharedInv(cfg, sh) && EntryInv(cfg, x)
    requires x.connId in sh.takers && x.sent == [] && x.link.notifying == {}
    ensures var sh' := sh.(entries := sh.entries + [x]); SharedInv(cfg, sh') && Evolves(t, sh, sh')
  {
    hide EntryInv;
    EntrySlot(cfg, x);
    var sh' := sh.(entries := sh.entries + [x]);
    forall k | 0 <= k < |sh'.installs|
      ensures InTable(sh', sh'.installs[k]) || sh'.entries[sh'.installs[k]].closeCalled
    {
      assert InTable(sh, sh.installs[k]) || sh.entries[sh.installs[k]].closeCalled;
    }
    forall j | 0 <= j < SLOTS && sh'.cells[j].Some?
      ensures sh'.entries[sh'.cells[j].value].slot == j && Ever(sh', sh'.cells[j].value)
    {
      assert Ever(sh, sh.cells[j].value);
    }
  }

  lemma InstallOk(cfg: Config, sh: Shared, t: TaskId, i: nat, e: EntryId)
    requires SharedInv(cfg, sh) && i < SLOTS && e < |sh.entries|
    requires sh.cells[i].None? && sh.entries[e].slot == i && OwnsId(sh, t, sh.entries[e].connId)
    ensures SharedInv(cfg, Install(sh, i, e)) && Evolves(t, sh, Install(sh, i, e))
  {
    hide EntryInv;
    var sh' := Install(sh, i, e);
    forall k | 0 <= k < |sh'.installs|
      ensures InTable(sh', sh'.installs[k]) || sh'.entries[sh'.installs[k]].closeCalled
    {
      if k < |sh.installs| {
        assert InTable(sh, sh.installs[k]) || sh.entries[sh.installs[k]].closeCalled;
      }
    }
    forall j | 0 <= j < SLOTS && sh'.cells[j].Some?
      ensures sh'.entries[sh'.cells[j].value].slot == j && Ever(sh', sh'.cells[j].value)
    {
      if j != i {
        assert Ever(sh, sh.cells[j].value);
      } else {
        assert sh'.installs[|sh.installs|] == e;
      }
    }
  }

  // ----- Stability -----

  lemma EverStable(sh: Shared, sh': Shared, e: EntryId)
    requires sh.installs <= sh'.installs && Ever(sh, e)
    ensures Ever(sh', e)
  {
    var k :| 0 <= k < |sh.installs| && sh.installs[k] == e;
    assert sh'.installs[k] == e;
  }

  lemma InstalledSinceStable(cfg: Config, a: TaskId, sh: Shared, sh': Shared, t: TaskId, i: nat, since: nat)
    requires SharedInv(cfg, sh) && SharedInv(cfg, sh') && Evolves(a, sh, sh')
    requires InstalledSince(sh, t, i, since)
    ensures InstalledSince(sh', t, i, since)
  {
    hide EntryInv;
    var k :| since <= k < |sh.installs|
             && sh.entries[sh.installs[k]].slot == i && sh.takers[sh.entries[sh.installs[k]].connId] != t;
    var e := sh.installs[k];
    assert sh'.installs[k] == e;
    assert EntryEvolves(a, sh.entries[e], sh'.entries[e]);
  }

  /** A slot seen empty is filled later only by somebody else's install. */
  lemma ReservedStable(cfg: Config, a: TaskId, sh: Shared, sh': Shared, t: TaskId, i: nat, since: nat)
    requires a != t && i < SLOTS
    requires SharedInv(cfg, sh) && SharedInv(cfg, sh') && Evolves(a, sh, sh')
    requires Reserved(sh, t, i, since)
    ensures Reserved(sh', t, i, since)
  {
    hide EntryInv;
    if sh.cells[i].Some? {
      InstalledSinceStable(cfg, a, sh, sh', t, i, since);
    } else if sh'.cells[i].Some? {
      var k := |sh.installs|;
      assert sh'.entries[sh'.installs[k]].slot == i && sh'.takers[sh'.entries[sh'.installs[k]].connId] == a;
    }
  }

  lemma OwnsIdStable(cfg: Config, a: TaskId, sh: Shared, sh': Shared, t: TaskId, id: nat)
    requires a != t
    requires SharedInv(cfg, sh) && SharedInv(cfg, sh') && Evolves(a, sh, sh')
    requires OwnsId(sh, t, id)
    ensures OwnsId(sh', t, id)
  {
    hide EntryInv;
    forall k | 0 <= k < |sh'.installs| ensures sh'.entries[sh'.installs[k]].connId != id {
      if k < |sh.installs| {
        assert sh'.installs[k] == sh.installs[k];
        assert EntryEvolves(a, sh.entries[sh.installs[k]], sh'.entries[sh.installs[k]]);
      }
    }
  }

  lemma IdOkStable(cfg: Config, a: TaskId, sh: Shared, sh': Shared, t: TaskId, task: Task)
    requires a != t
    requires SharedInv(cfg, sh) && SharedInv(cfg, sh') && Evolves(a, sh, sh')
    requires IdOk(cfg, sh, t, task)
    ensures IdOk(cfg, sh', t, task)
  {
    hide EntryInv;
    if IdPc(task.pc) {
      OwnsIdStable(cfg, a, sh, sh', t, task.id.value);
    }
  }

  lemma SentBelowStable(cfg: Config, a: TaskId, sh: Shared, sh': Shared, t: TaskId, n: nat)
    requires a != t
    requires SharedInv(cfg, sh) && SharedInv(cfg, sh') && Evolves(a, sh, sh')
    requires SentBelow(sh, t, n)
    ensures SentBelow(sh', t, n)
  {
    hide EntryInv;
    forall e, k | 0 <= e < |sh'.entries| && 0 <= k < |sh'.entries[e].sent| && sh'.entries[e].sent[k].task == t
      ensures sh'.entries[e].slot < n
    {
      assert e < |sh.entries| && EntryEvolves(a, sh.entries[e], sh'.entries[e]);
      assert k < |sh.entries[e].sent| && sh.entries[e].sent[k].task == t;
    }
  }

  lemma NotifyOkStable(cfg: Config, a: TaskId, sh: Shared, sh': Shared, t: TaskId, pc: Pc)
    requires a != t
    requires SharedInv(cfg, sh) && SharedInv(cfg, sh') && Evolves(a, sh, sh')
    requires Held(pc).Some? ==> Held(pc).value < |sh.entries|
    requires NotifyOk(sh, t, pc)
    ensures NotifyOk(sh', t, pc)
  {
    hide EntryInv;
    forall e | 0 <= e < |sh'.entries| ensures t in sh'.entries[e].link.notifying <==> Notifying(pc) == Some(e) {
      if e < |sh.entries| {
        assert EntryEvolves(a, sh.entries[e], sh'.entries[e]);
      }
    }
  }

  lemma IssuedStable(cfg: Config, a: TaskId, sh: Shared, sh': Shared, op: Op, outcome: Outcome)
    requires SharedInv(cfg, sh) && SharedInv(cfg, sh') && Evolves(a, sh, sh')
    requires OutcomeOk(sh, op, outcome)
    ensures OutcomeOk(sh', op, outcome)
  {
    hide EntryInv;
    if outcome.Existing? || outcome.Created? {
      var k :| 0 <= k < |sh.installs| && Token(sh.entries[sh.installs[k]]) == outcome.token;
      assert sh'.installs[k] == sh.installs[k];
      assert EntryEvolves(a, sh.entries[sh.installs[k]], sh'.entries[sh.installs[k]]);
    }
  }

  lemma PcOkStable(cfg: Config, a: TaskId, sh: Shared, sh': Shared, t: TaskId, task: Task)
    requires a != t
    requires SharedInv(cfg, sh) && SharedInv(cfg, sh') && Evolves(a, sh, sh')
    requires Shape(sh, task) && PcOk(cfg, sh, t, task)
    ensures Shape(sh', task) && PcOk(cfg, sh', t, task)
  {
    hide EntryInv, CellOk, Matches, Reserved, OutcomeOk;
    if Held(task.pc).Some? {
      var e := Held(task.pc).value;
      assert EntryEvolves(a, sh.entries[e], sh'.entries[e]);
      if Ever(sh, e) {
        EverStable(sh, sh', e);
      }
    }
    if task.pc.Done? {
      IssuedStable(cfg, a, sh, sh', task.op, task.pc.outcome);
    }
    if task.pc.Create? || task.pc.InstallCas? {
      ReservedStable(cfg, a, sh, sh', t, task.pc.i, task.pc.since);
    }
  }

  /** Whatever another task does within its guarantee, a task's own facts stand. */
  lemma TaskOkStable(cfg: Config, a: TaskId, sh: Shared, sh': Shared, t: TaskId, task: Task)
    requires a != t
    requires SharedInv(cfg, sh) && SharedInv(cfg, sh') && Evolves(a, sh, sh')
    requires TaskOk(cfg, sh, t, task)
    ensures TaskOk(cfg, sh', t, task)
  {
    hide EntryInv, PcOk, IdOk, NotifyOk, SentBelow, FrameOk, SharedInv, Evolves;
    PcOkStable(cfg, a, sh, sh', t, task);
    IdOkStable(cfg, a, sh, sh', t, task);
    NotifyOkStable(cfg, a, sh, sh', t, task.pc);
    if !task.pc.Done? {
      SentBelowStable(cfg, a, sh, sh', t, PushBound(task.pc));
    }
  }

  lemma UntouchedStable(cfg: Config, a: TaskId, sh: Shared, sh': Shared, t: TaskId)
    requires a != t
    requires SharedInv(cfg, sh) && SharedInv(cfg, sh') && Evolves(a, sh, sh')
    requires Untouched(sh, t)
    ensures Untouched(sh', t)
  {
    hide EntryInv;
    SentBelowStable(cfg, a, sh, sh', t, 0);
    forall e | 0 <= e < |sh'.entries| ensures t !in sh'.entries[e].link.notifying {
      if e < |sh.entries| {
        assert EntryEvolves(a, sh.entries[e], sh'.entries[e]);
      }
    }
  }

  // ----- A task's own steps -----

  /** The step stayed within its guarantee and its task knows what its new point needs. */
  ghost predicate Good(cfg: Config, sh: Shared, t: TaskId, r: (Shared, Task))
    requires SharedInv(cfg, sh)
  {
    SharedInv(cfg, r.0) && Evolves(t, sh, r.0) && TaskOk(cfg, r.0, t, r.1)
  }

  /** Rewriting an entry in place costs the acting task none of what it knows about ids. */
  lemma IdOkAfterSet(cfg: Config, sh: Shared, t: TaskId, e: EntryId, x: Entry, task: Task, pc: Pc)
    requires SharedInv(cfg, sh) && e < |sh.entries| && SharedInv(cfg, SetEntry(sh, e, x))
    requires EntryEvolves(t, sh.entries[e], x) && IdOk(cfg, sh, t, task)
    requires pc.TakeId? ==> task.id.None?
    requires LookupPc(pc) ==> LookupPc(task.pc)
    requires IdPc(pc) ==> IdPc(task.pc)
    ensures IdOk(cfg, SetEntry(sh, e, x), t, task.(pc := pc))
  {
    hide EntryInv, FilterAfter;
    var sh' := SetEntry(sh, e, x);
    if IdPc(pc) {
      var id := task.id.value;
      forall k | 0 <= k < |sh'.installs| ensures sh'.entries[sh'.installs[k]].connId != id {
        assert sh.entries[sh.installs[k]].connId != id;
      }
    }
  }

  lemma SentBelowAfterSet(sh: Shared, t: TaskId, e: EntryId, x: Entry, n: nat, m: nat)
    requires e < |sh.entries| && x.slot == sh.entries[e].slot && n <= m
    requires SentBelow(sh, t, n)
    requires x.sent == sh.entries[e].sent || x.slot < m
    ensures SentBelow(SetEntry(sh, e, x), t, m)
  {
    var sh' := SetEntry(sh, e, x);
    forall d, k | 0 <= d < |sh'.entries| && 0 <= k < |sh'.entries[d].sent| && sh'.entries[d].sent[k].task == t
      ensures sh'.entries[d].slot < m
    {
      if d != e || x.sent == sh.entries[e].sent {
        assert sh.entries[d].sent[k].task == t;
      }
    }
  }

  lemma NotifyOkAfterSet(sh: Shared, t: TaskId, e: EntryId, x: Entry, pc: Pc, pc': Pc)
    requires e < |sh.entries| && NotifyOk(sh, t, pc)
    requires Notifying(pc) == None || Notifying(pc) == Some(e)
    requires Notifying(pc') == None || Notifying(pc') == Some(e)
    requires t in x.link.notifying <==> Notifying(pc') == Some(e)
    ensures NotifyOk(SetEntry(sh, e, x), t, pc')
  {
  }

  /** A task rewrote one entry and moved on. */
  lemma SetEntryGood(cfg: Config, sh: Shared, t: TaskId, task: Task, e: EntryId, x: Entry, pc: Pc)
    requires SharedInv(cfg, sh) && TaskOk(cfg, sh, t, task) && e < |sh.entries|
    requires EntryInv(cfg, x) && EntryEvolves(t, sh.entries[e], x)
    requires SharedInv(cfg, SetEntry(sh, e, x))
    requires Shape(SetEntry(sh, e, x), task.(pc := pc)) && PcOk(cfg, SetEntry(sh, e, x), t, task.(pc := pc))
    requires !pc.TakeId? && (LookupPc(pc) ==> LookupPc(task.pc)) && (IdPc(pc) ==> IdPc(task.pc))
    requires Notifying(task.pc) == None || Notifying(task.pc) == Some(e)
    requires Notifying(pc) == None || Notifying(pc) == Some(e)
    requires t in x.link.notifying <==> Notifying(pc) == Some(e)
    requires !task.pc.Done? && (!pc.Done? ==> PushBound(task.pc) <= PushBound(pc))
    requires x.sent == sh.entries[e].sent || x.slot < PushBound(pc)
    ensures Good(cfg, sh, t, (SetEntry(sh, e, x), task.(pc := pc)))
  {
    hide EntryInv, PcOk, IdOk, SentBelow, Encodes, SharedInv, NotifyOk, Evolves;
    SetEntryOk(cfg, sh, t, e, x);
    IdOkAfterSet(cfg, sh, t, e, x, task, pc);
    NotifyOkAfterSet(sh, t, e, x, task.pc, pc);
    if !pc.Done? {
      SentBelowAfterSet(sh, t, e, x, PushBound(task.pc), PushBound(pc));
    }
  }

  lemma StepCloseRing(cfg: Config, sh: Shared, t: TaskId, task: Task, inp: Input)
    requires SharedInv(cfg, sh) && TaskOk(cfg, sh, t, task) && task.pc.CloseRing?
    ensures Good(cfg, sh, t, LookupStep(cfg, sh, t, task, inp))
  {
    hide EntryInv, Link.Next, IdOk, FrameOk, Good, SentBelow;
    var CloseRing(i, e, k) := task.pc;
    var x := LinkStep(sh.entries[e], Link.CloseRing(t)).(closeCalled := true);
    CloseEntry(cfg, sh.entries[e], t);
    SetEntryOk(cfg, sh, t, e, x);
    hide SharedInv, Evolves;
    SetEntryGood(cfg, sh, t, task, e, x, CloseNotify(i, e, k));
  }

  lemma StepCloseNotify(cfg: Config, sh: Shared, t: TaskId, task: Task, inp: Input)
    requires SharedInv(cfg, sh) && TaskOk(cfg, sh, t, task) && task.pc.CloseNotify?
    ensures Good(cfg, sh, t, LookupStep(cfg, sh, t, task, inp))
  {
    hide EntryInv, Link.Next, IdOk, FrameOk, Good, SentBelow;
    var CloseNotify(i, e, k) := task.pc;
    var x := LinkStep(sh.entries[e], Link.Notify(t));
    NotifyEntry(cfg, sh.entries[e], t);
    SetEntryOk(cfg, sh, t, e, x);
    hide SharedInv, Evolves;
    SetEntryGood(cfg, sh, t, task, e, x, EvictCas(i, e, k));
  }

  lemma StepTouch(cfg: Config, sh: Shared, t: TaskId, task: Task, inp: Input)
    requires SharedInv(cfg, sh) && TaskOk(cfg, sh, t, task) && task.pc.Touch?
    ensures Good(cfg, sh, t, LookupStep(cfg, sh, t, task, inp))
  {
    hide EntryInv, IdOk, FrameOk, Good, SentBelow;
    var e := task.pc.e;
    var x := sh.entries[e].(lastSeen := inp.now);
    TouchEntry(cfg, sh.entries[e], inp.now, t);
    SetEntryOk(cfg, sh, t, e, x);
    hide SharedInv, Evolves;
    SetEntryGood(cfg, sh, t, task, e, x, if task.op.Upsert? then FilterLoad(e) else Done(PingTouched));
  }

  lemma StepFilterStore(cfg: Config, sh: Shared, t: TaskId, task: Task, inp: Input)
    requires SharedInv(cfg, sh) && TaskOk(cfg, sh, t, task) && task.pc.FilterStore?
    ensures Good(cfg, sh, t, LookupStep(cfg, sh, t, task, inp))
  {
    hide EntryInv, IdOk, FrameOk, Good, SentBelow, WithRequest, CellOk;
    var FilterStore(e, cell) := task.pc;
    var next := FilterCell(WithRequest(cfg.env, cell.filter, task.op.request, inp.keys),
                           cell.requests + [task.op.request], cell.keys + [inp.keys]);
    var x := sh.entries[e].(cell := next);
    ExtendCell(cfg.env, Token(sh.entries[e]), cell, task.op.request, inp.keys);
    StoreCell(cfg, sh.entries[e], next, t);
    SetEntryOk(cfg, sh, t, e, x);
    assert Issued(SetEntry(sh, e, x), Token(sh.entries[e])) by {
      var k :| 0 <= k < |sh.installs| && sh.installs[k] == e;
      assert Token(SetEntry(sh, e, x).entries[sh.installs[k]]) == Token(sh.entries[e]);
    }
    hide SharedInv, Evolves, Issued;
    SetEntryGood(cfg, sh, t, task, e, x, Done(Existing(Token(sh.entries[e]))));
  }

  lemma StepDispNotify(cfg: Config, sh: Shared, t: TaskId, task: Task, inp: Input)
    requires SharedInv(cfg, sh) && TaskOk(cfg, sh, t, task) && task.pc.DispNotify?
    ensures Good(cfg, sh, t, DispatchStep(cfg, sh, t, task, inp))
  {
    hide EntryInv, Link.Next, IdOk, FrameOk, Good, SentBelow;
    var DispNotify(i, e) := task.pc;
    var x := LinkStep(sh.entries[e], Link.Notify(t));
    NotifyEntry(cfg, sh.entries[e], t);
    SetEntryOk(cfg, sh, t, e, x);
    hide SharedInv, Evolves;
    SetEntryGood(cfg, sh, t, task, e, x, DispLoad(i + 1));
  }

  lemma StepAcceptedPush(cfg: Config, sh: Shared, t: TaskId, task: Task, inp: Input)
    requires Lz4Inverts(cfg.env)
    requires SharedInv(cfg, sh) && TaskOk(cfg, sh, t, task) && task.pc.DispPush?
    requires var x := sh.entries[task.pc.e]; PushFrame(x.link.queue, x.link.capacity, task.frame.value.1).Ok?
    ensures Good(cfg, sh, t, DispatchStep(cfg, sh, t, task, inp))
  {
    hide Good, EntryInv, PcOk, IdOk, SentBelow, NotifyOk, FrameOk, PushFrame, Pushed, DispatchStep;
    PushedOk(cfg, sh, t, task);
    PushedGood(cfg, sh, t, task, Pushed(sh, t, task));
    PushedStep(cfg, sh, t, task, inp);
  }

  lemma PushedStep(cfg: Config, sh: Shared, t: TaskId, task: Task, inp: Input)
    requires Wf(sh) && Shape(sh, task) && task.pc.DispPush?
    requires var x := sh.entries[task.pc.e]; PushFrame(x.link.queue, x.link.capacity, task.frame.value.1).Ok?
    ensures DispatchStep(cfg, sh, t, task, inp)
            == (SetEntry(sh, task.pc.e, Pushed(sh, t, task)), task.(pc := DispNotify(task.pc.i, task.pc.e)))
  {
    hide PushFrame, Link.Next, Codec.EncodeUpdate, Matches;
  }

  lemma PushedGood(cfg: Config, sh: Shared, t: TaskId, task: Task, x: Entry)
    requires SharedInv(cfg, sh) && TaskOk(cfg, sh, t, task) && task.pc.DispPush?
    requires EntryInv(cfg, x) && EntryEvolves(t, sh.entries[task.pc.e], x) && t in x.link.notifying
    ensures Good(cfg, sh, t, (SetEntry(sh, task.pc.e, x), task.(pc := DispNotify(task.pc.i, task.pc.e))))
  {
    hide EntryInv, IdOk, Good, SentBelow, NotifyOk, FrameOk, Matches, CellOk;
    var DispPush(i, e, cell) := task.pc;
    SetEntryOk(cfg, sh, t, e, x);
    hide SharedInv, Evolves;
    SetEntryGood(cfg, sh, t, task, e, x, DispNotify(i, e));
  }

  /** The entry a dispatch pushes to, after the ring accepted its frame. */
  ghost function Pushed(sh: Shared, t: TaskId, task: Task): Entry
    requires Shape(sh, task) && task.pc.DispPush?
  {
    var x := sh.entries[task.pc.e];
    var (stamp, body) := task.frame.value;
    LinkStep(x, Link.Push(t, body)).(sent := x.sent + [Sent(t, Stamped(task.op.update, stamp), task.pc.cell)])
  }

  lemma PushedOk(cfg: Config, sh: Shared, t: TaskId, task: Task)
    requires Lz4Inverts(cfg.env)
    requires SharedInv(cfg, sh) && TaskOk(cfg, sh, t, task) && task.pc.DispPush?
    requires var x := sh.entries[task.pc.e]; PushFrame(x.link.queue, x.link.capacity, task.frame.value.1).Ok?
    ensures var x := sh.entries[task.pc.e];
            var y := Pushed(sh, t, task);
            EntryInv(cfg, y) && EntryEvolves(t, x, y) && t in y.link.notifying && y.slot == x.slot
  {
    hide EntryInv, Link.Next, PushFrame, PcOk, IdOk, SentBelow, NotifyOk, FrameOk;
    PushFacts(cfg, sh, t, task);
    var (stamp, body) := task.frame.value;
    PushEntry(cfg, sh.entries[task.pc.e], t, body, Sent(t, Stamped(task.op.update, stamp), task.pc.cell));
  }

  /** What a dispatch knows when it is about to push: it has not pushed to this connection before. */
  lemma PushFacts(cfg: Config, sh: Shared, t: TaskId, task: Task)
    requires SharedInv(cfg, sh) && TaskOk(cfg, sh, t, task) && task.pc.DispPush?
    ensures var x := sh.entries[task.pc.e];
            var s := Sent(t, Stamped(task.op.update, task.frame.value.0), task.pc.cell);
            && t !in x.link.notifying
            && Encodes(cfg.env, task.frame.value.1, s.update) && SentOk(cfg.env, Token(x), s)
            && forall k | 0 <= k < |x.sent| :: x.sent[k].task != t
  {
    hide EntryInv, IdOk, CellOk, Matches, Encodes;
    var x := sh.entries[task.pc.e];
    forall k | 0 <= k < |x.sent| ensures x.sent[k].task != t {
      assert x.slot == PushBound(task.pc);
    }
  }

  /** A task that only read moved on. */
  lemma MoveGood(cfg: Config, sh: Shared, t: TaskId, task: Task, pc: Pc)
    requires SharedInv(cfg, sh) && TaskOk(cfg, sh, t, task)
    requires Shape(sh, task.(pc := pc)) && PcOk(cfg, sh, t, task.(pc := pc))
    requires (pc.TakeId? ==> task.id.None?) && (LookupPc(pc) ==> LookupPc(task.pc)) && (IdPc(pc) ==> IdPc(task.pc))
    requires Notifying(task.pc) == None == Notifying(pc)
    requires !task.pc.Done? && (!pc.Done? ==> PushBound(task.pc) <= PushBound(pc))
    ensures Good(cfg, sh, t, (sh, task.(pc := pc)))
  {
    hide EntryInv, PcOk, Encodes, FilterAfter, IdOk, NotifyOk, SentBelow, FrameOk;
    NothingOk(cfg, sh, t);
    hide SharedInv, Evolves;
    SameEntriesKeep(cfg, sh, sh, t, task, pc);
  }

  lemma LookupPcHasNoId(cfg: Config, sh: Shared, t: TaskId, task: Task)
    requires SharedInv(cfg, sh) && TaskOk(cfg, sh, t, task)
    ensures LookupPc(task.pc) ==> task.id.None?
  {
    hide EntryInv, PcOk;
  }

  lemma StepLookupLoad(cfg: Config, sh: Shared, t: TaskId, task: Task, inp: Input)
    requires SharedInv(cfg, sh) && TaskOk(cfg, sh, t, task) && task.pc.LookupLoad?
    ensures Good(cfg, sh, t, LookupStep(cfg, sh, t, task, inp))
  {
    hide EntryInv, IdOk, FrameOk, Good, SentBelow, NotifyOk, WithRequest, Link.Next;
    LookupPcHasNoId(cfg, sh, t, task);
    var hit := Resolve(sh, TokenOf(task.op).value);
    var pc := if hit.Some? then LookupStale(hit.value) else AfterMiss(task.op);
    assert PcOk(cfg, sh, t, task.(pc := pc));
    hide SharedInv, PcOk;
    MoveGood(cfg, sh, t, task, pc);
  }

  lemma StepLookupStale(cfg: Config, sh: Shared, t: TaskId, task: Task, inp: Input)
    requires SharedInv(cfg, sh) && TaskOk(cfg, sh, t, task) && task.pc.LookupStale?
    ensures Good(cfg, sh, t, LookupStep(cfg, sh, t, task, inp))
  {
    hide EntryInv, IdOk, FrameOk, Good, SentBelow, NotifyOk, WithRequest, Link.Next;
    var e := task.pc.e;
    var pc := if IsStale(inp.now, sh.entries[e])
    then CloseRing(TokenOf(task.op).value.slotIndex, e, LookupMiss) else Touch(e);
    assert PcOk(cfg, sh, t, task.(pc := pc));
    hide SharedInv, PcOk;
    MoveGood(cfg, sh, t, task, pc);
  }

  lemma CellOfEntry(cfg: Config, x: Entry)
    requires EntryInv(cfg, x)
    ensures CellOk(cfg.env, Token(x), x.cell)
  {
    hide CellOk, Link.Inv, Consumer.Inv, Encodes, SentOk;
  }

  lemma StepFilterLoad(cfg: Config, sh: Shared, t: TaskId, task: Task, inp: Input)
    requires SharedInv(cfg, sh) && TaskOk(cfg, sh, t, task) && task.pc.FilterLoad?
    ensures Good(cfg, sh, t, LookupStep(cfg, sh, t, task, inp))
  {
    hide EntryInv, IdOk, FrameOk, Good, SentBelow, NotifyOk, WithRequest, Link.Next, CellOk;
    var e := task.pc.e;
    CellOfEntry(cfg, sh.entries[e]);
    var pc := FilterStore(e, sh.entries[e].cell);
    assert PcOk(cfg, sh, t, task.(pc := pc));
    hide SharedInv, PcOk;
    MoveGood(cfg, sh, t, task, pc);
  }

  lemma StepEvictCas(cfg: Config, sh: Shared, t: TaskId, task: Task, inp: Input)
    requires SharedInv(cfg, sh) && TaskOk(cfg, sh, t, task) && task.pc.EvictCas?
    ensures Good(cfg, sh, t, LookupStep(cfg, sh, t, task, inp))
  {
    hide EntryInv, FilterAfter, Encodes, IdOk, NotifyOk, SentBelow, PcOk, FrameOk, WithRequest, Link.Next;
    var EvictCas(i, e, k) := task.pc;
    var pc := AfterEvict(task.op, k);
    LookupPcHasNoId(cfg, sh, t, task);
    assert sh.entries[e].closeCalled && (k.NextSlot? ==> k.i < SLOTS) && (k.Recheck? ==> k.i == i) by {
      EvictFacts(cfg, sh, t, task);
    }
    EvictOk(cfg, sh, t, i, e);
    hide SharedInv, Evolves;
    SameEntriesKeep(cfg, sh, Evict(sh, i, e), t, task, pc);
    assert PcOk(cfg, Evict(sh, i, e), t, task.(pc := pc)) by { FreePcOk(cfg, Evict(sh, i, e), t, task.(pc := pc)); }
  }

  lemma EvictFacts(cfg: Config, sh: Shared, t: TaskId, task: Task)
    requires SharedInv(cfg, sh) && TaskOk(cfg, sh, t, task) && task.pc.EvictCas?
    ensures sh.entries[task.pc.e].closeCalled && Evicting(sh, task.pc.i, task.pc.e, task.pc.k)
  {
    hide EntryInv, IdOk, NotifyOk, SentBelow, FrameOk;
  }

  lemma FreePcOk(cfg: Config, sh: Shared, t: TaskId, task: Task)
    requires SharedInv(cfg, sh) && Shape(sh, task)
    requires Held(task.pc).None? && !task.pc.Create?
    requires task.pc.Done? ==> task.pc.outcome == PingIgnored && task.op.Ping?
    ensures PcOk(cfg, sh, t, task)
  {
    hide EntryInv;
  }

  /** Facts about entries, ids and installs do not depend on the cells. */
  lemma SameEntriesKeep(cfg: Config, sh: Shared, sh': Shared, t: TaskId, task: Task, pc: Pc)
    requires SharedInv(cfg, sh) && SharedInv(cfg, sh') && TaskOk(cfg, sh, t, task)
    requires sh'.entries == sh.entries && sh'.takers == sh.takers && sh'.installs == sh.installs
    requires (pc.TakeId? ==> task.id.None?) && (LookupPc(pc) ==> LookupPc(task.pc)) && (IdPc(pc) ==> IdPc(task.pc))
    requires Notifying(task.pc) == None == Notifying(pc)
    requires !task.pc.Done? && (!pc.Done? ==> PushBound(task.pc) <= PushBound(pc))
    ensures IdOk(cfg, sh', t, task.(pc := pc)) && NotifyOk(sh', t, pc)
    ensures FrameOk(cfg.env, task.(pc := pc))
    ensures !pc.Done? ==> SentBelow(sh', t, PushBound(pc))
  {
    hide EntryInv, PcOk, Encodes, FilterAfter;
  }

  // ----- Installing -----

  lemma StepTakeId(cfg: Config, sh: Shared, t: TaskId, task: Task, inp: Input)
    requires SharedInv(cfg, sh) && TaskOk(cfg, sh, t, task) && task.pc.TakeId?
    ensures Good(cfg, sh, t, InstallStep(cfg, sh, t, task, inp))
  {
    hide EntryInv, FromRequest, Link.Next;
    TakeIdOk(cfg, sh, t);
    var sh' := sh.(nextId := sh.nextId + 1, takers := sh.takers[sh.nextId := t]);
    var cell := FilterCell(FromRequest(cfg.env, task.op.request, inp.keys), [task.op.request], [inp.keys]);
    assert FilterAfter(cfg.env, cell.requests, cell.keys) == cell.filter;
    forall k | 0 <= k < |sh'.installs| ensures sh'.entries[sh'.installs[k]].connId != sh.nextId {
      assert sh.entries[sh.installs[k]].connId in sh.takers;
    }
    hide SharedInv, Evolves, FilterAfter;
  }

  lemma StepFreeReads(cfg: Config, sh: Shared, t: TaskId, task: Task, inp: Input)
    requires SharedInv(cfg, sh) && TaskOk(cfg, sh, t, task)
    requires task.pc.FreeLoad? || task.pc.FreeStale? || task.pc.FreeRecheck?
    ensures Good(cfg, sh, t, InstallStep(cfg, sh, t, task, inp))
  {
    hide EntryInv, IdOk, FrameOk, Good, SentBelow, NotifyOk, FromRequest;
    var r := InstallStep(cfg, sh, t, task, inp);
    assert PcOk(cfg, sh, t, r.1);
    hide SharedInv, PcOk;
    MoveGood(cfg, sh, t, task, r.1.pc);
  }

  lemma StepCreate(cfg: Config, sh: Shared, t: TaskId, task: Task, inp: Input)
    requires SharedInv(cfg, sh) && TaskOk(cfg, sh, t, task) && task.pc.Create?
    ensures Good(cfg, sh, t, InstallStep(cfg, sh, t, task, inp))
  {
    hide EntryInv, FrameOk, Good, NotifyOk, FromRequest, NewEntry, Reserved;
    var Create(i, since) := task.pc;
    if inp.createOk && cfg.capacity >= MIN_CAPACITY {
      CreateFacts(cfg, sh, t, task, inp.now);
      CreateGood(cfg, sh, t, task, NewEntry(cfg, i, task, inp.now));
    } else {
      hide SharedInv, SentBelow, IdOk;
      MoveGood(cfg, sh, t, task, Done(CreateFailed));
    }
  }

  lemma CreateFacts(cfg: Config, sh: Shared, t: TaskId, task: Task, now: nat)
    requires SharedInv(cfg, sh) && TaskOk(cfg, sh, t, task) && task.pc.Create?
    ensures var x := NewEntry(cfg, task.pc.i, task, now);
            && EntryInv(cfg, x) && x.link.notifying == {} && x.sent == []
            && x.slot == task.pc.i && x.connId == task.id.value && x.connId in sh.takers
  {
    hide EntryInv, FilterAfter, PcOk, NotifyOk, FrameOk, SentBelow;
    FreshEntry(cfg, task.pc.i, task, now);
  }

  lemma CreateGood(cfg: Config, sh: Shared, t: TaskId, task: Task, x: Entry)
    requires SharedInv(cfg, sh) && TaskOk(cfg, sh, t, task) && task.pc.Create?
    requires EntryInv(cfg, x) && x.link.notifying == {} && x.sent == []
    requires x.slot == task.pc.i && x.connId == task.id.value && x.connId in sh.takers
    ensures Good(cfg, sh, t, (sh.(entries := sh.entries + [x]),
                              task.(pc := InstallCas(task.pc.i, |sh.entries|, task.pc.since))))
  {
    hide EntryInv, FilterAfter, Encodes, OutcomeOk, CellOk, Matches;
    var Create(i, since) := task.pc;
    AllocOk(cfg, sh, t, x);
    var sh' := sh.(entries := sh.entries + [x]);
    if sh.cells[i].Some? {
      InstalledSinceStable(cfg, t, sh, sh', t, i, since);
    }
    hide SharedInv, Evolves, InstalledSince;
  }

  lemma StepInstallCas(cfg: Config, sh: Shared, t: TaskId, task: Task, inp: Input)
    requires SharedInv(cfg, sh) && TaskOk(cfg, sh, t, task) && task.pc.InstallCas?
    ensures Good(cfg, sh, t, InstallStep(cfg, sh, t, task, inp))
  {
    hide EntryInv, Good, FrameOk, FromRequest, SentBelow, NotifyOk, Reserved, FilterAfter;
    var InstallCas(i, e, since) := task.pc;
    if sh.cells[i].None? {
      InstallGood(cfg, sh, t, task);
    } else {
      hide SharedInv, IdOk;
      MoveGood(cfg, sh, t, task, FreeLoad(0));
    }
  }

  lemma InstallGood(cfg: Config, sh: Shared, t: TaskId, task: Task)
    requires SharedInv(cfg, sh) && TaskOk(cfg, sh, t, task) && task.pc.InstallCas? && sh.cells[task.pc.i].None?
    ensures var pc := Done(Created(Token(sh.entries[task.pc.e])));
            Good(cfg, sh, t, (Install(sh, task.pc.i, task.pc.e), task.(pc := pc)))
  {
    hide EntryInv, Encodes, FilterAfter, SentBelow, Reserved;
    var InstallCas(i, e, since) := task.pc;
    InstallOk(cfg, sh, t, i, e);
    assert Install(sh, i, e).installs[|sh.installs|] == e;
    assert Issued(Install(sh, i, e), Token(sh.entries[e]));
    hide SharedInv, Evolves, Issued;
  }

  // ----- Dispatching -----

  lemma StepDispLoad(cfg: Config, sh: Shared, t: TaskId, task: Task, inp: Input)
    requires SharedInv(cfg, sh) && TaskOk(cfg, sh, t, task)
    requires task.pc.DispLoad? || task.pc.DispStale?
    ensures Good(cfg, sh, t, DispatchStep(cfg, sh, t, task, inp))
  {
    hide EntryInv, IdOk, FrameOk, Good, SentBelow, NotifyOk, Matches, Codec.EncodeUpdate, PushFrame, Link.Next;
    var r := DispatchStep(cfg, sh, t, task, inp);
    assert PcOk(cfg, sh, t, r.1);
    hide SharedInv, PcOk;
    MoveGood(cfg, sh, t, task, r.1.pc);
  }

  lemma StepDispMatch(cfg: Config, sh: Shared, t: TaskId, task: Task, inp: Input)
    requires SharedInv(cfg, sh) && TaskOk(cfg, sh, t, task) && task.pc.DispMatch?
    ensures Good(cfg, sh, t, DispatchStep(cfg, sh, t, task, inp))
  {
    hide EntryInv, IdOk, Good, SentBelow, NotifyOk, Matches, Codec.EncodeUpdate, PushFrame, Link.Next, CellOk;
    var DispMatch(i, e) := task.pc;
    var cell := sh.entries[e].cell;
    CellOfEntry(cfg, sh.entries[e]);
    var r := DispatchStep(cfg, sh, t, task, inp);
    var framed := task.(frame := r.1.frame);
    assert r == (sh, framed.(pc := r.1.pc));
    assert Shape(sh, r.1) && PcOk(cfg, sh, t, r.1);
    assert FrameOk(cfg.env, framed);
    ReframedOk(cfg, sh, t, task, framed);
    hide SharedInv, PcOk, FrameOk;
    MoveGood(cfg, sh, t, framed, r.1.pc);
  }

  lemma ReframedOk(cfg: Config, sh: Shared, t: TaskId, task: Task, framed: Task)
    requires SharedInv(cfg, sh) && TaskOk(cfg, sh, t, task) && task.pc.DispMatch?
    requires framed == task.(frame := framed.frame) && FrameOk(cfg.env, framed)
    ensures TaskOk(cfg, sh, t, framed)
  {
    hide EntryInv, FrameOk, FilterAfter;
  }

  lemma StepRefusedPush(cfg: Config, sh: Shared, t: TaskId, task: Task, inp: Input)
    requires SharedInv(cfg, sh) && TaskOk(cfg, sh, t, task) && task.pc.DispPush?
    requires var x := sh.entries[task.pc.e]; PushFrame(x.link.queue, x.link.capacity, task.frame.value.1).Err?
    ensures Good(cfg, sh, t, DispatchStep(cfg, sh, t, task, inp))
  {
    hide EntryInv, IdOk, FrameOk, Good, SentBelow, NotifyOk, Matches, Codec.EncodeUpdate, PushFrame, Link.Next, CellOk;
    var DispPush(i, e, cell) := task.pc;
    assert PcOk(cfg, sh, t, task.(pc := CleanLoad(i, e)));
    hide SharedInv, PcOk;
    MoveGood(cfg, sh, t, task, CleanLoad(i, e));
  }

  /** Installed connections with equal ids are the same connection. */
  lemma SameId(cfg: Config, sh: Shared, e: EntryId, d: EntryId)
    requires SharedInv(cfg, sh) && e < |sh.entries| && d < |sh.entries| && Ever(sh, e) && Ever(sh, d)
    requires sh.entries[e].connId == sh.entries[d].connId
    ensures e == d
  {
    hide EntryInv;
    var j :| 0 <= j < |sh.installs| && sh.installs[j] == e;
    var k :| 0 <= k < |sh.installs| && sh.installs[k] == d;
  }

  /** Cleanup after a refused push finds either its own connection or none. */
  lemma StepCleanLoad(cfg: Config, sh: Shared, t: TaskId, task: Task, inp: Input)
    requires SharedInv(cfg, sh) && TaskOk(cfg, sh, t, task) && task.pc.CleanLoad?
    ensures Good(cfg, sh, t, DispatchStep(cfg, sh, t, task, inp))
  {
    hide EntryInv, IdOk, FrameOk, Good, SentBelow, NotifyOk, Matches, Codec.EncodeUpdate, PushFrame, Link.Next;
    var CleanLoad(i, e) := task.pc;
    var x := sh.entries[e];
    var current := sh.cells[x.slot];
    if current.Some? && sh.entries[current.value].connId == x.connId {
      SameId(cfg, sh, e, current.value);
    }
    var r := DispatchStep(cfg, sh, t, task, inp);
    assert PcOk(cfg, sh, t, r.1);
    hide SharedInv, PcOk;
    MoveGood(cfg, sh, t, task, r.1.pc);
  }

  // ----- Every step -----

  lemma TaskStepGood(cfg: Config, sh: Shared, t: TaskId, task: Task, inp: Input)
    requires Lz4Inverts(cfg.env)
    requires SharedInv(cfg, sh) && TaskOk(cfg, sh, t, task)
    ensures Good(cfg, sh, t, TaskStep(cfg, sh, t, task, inp))
  {
    hide EntryInv, Good, PcOk, IdOk, FrameOk, SentBelow, NotifyOk, LookupStep, InstallStep, DispatchStep, PushFrame;
    match task.pc {
      case LookupLoad => StepLookupLoad(cfg, sh, t, task, inp);
      case LookupStale(_) => StepLookupStale(cfg, sh, t, task, inp);
      case CloseRing(_, _, _) => StepCloseRing(cfg, sh, t, task, inp);
      case CloseNotify(_, _, _) => StepCloseNotify(cfg, sh, t, task, inp);
      case EvictCas(_, _, _) => StepEvictCas(cfg, sh, t, task, inp);
      case Touch(_) => StepTouch(cfg, sh, t, task, inp);
      case FilterLoad(_) => StepFilterLoad(cfg, sh, t, task, inp);
      case FilterStore(_, _) => StepFilterStore(cfg, sh, t, task, inp);
      case TakeId => StepTakeId(cfg, sh, t, task, inp);
      case FreeLoad(_) => StepFreeReads(cfg, sh, t, task, inp);
      case FreeStale(_, _) => StepFreeReads(cfg, sh, t, task, inp);
      case FreeRecheck(_) => StepFreeReads(cfg, sh, t, task, inp);
      case Create(_, _) => StepCreate(cfg, sh, t, task, inp);
      case InstallCas(_, _, _) => StepInstallCas(cfg, sh, t, task, inp);
      case DispLoad(_) => StepDispLoad(cfg, sh, t, task, inp);
      case DispStale(_, _) => StepDispLoad(cfg, sh, t, task, inp);
      case DispMatch(_, _) => StepDispMatch(cfg, sh, t, task, inp);
      case DispPush(_, _, _) =>
        var x := sh.entries[task.pc.e];
        if PushFrame(x.link.queue, x.link.capacity, task.frame.value.1).Ok? {
          StepAcceptedPush(cfg, sh, t, task, inp);
        } else {
          StepRefusedPush(cfg, sh, t, task, inp);
        }
      case DispNotify(_, _) => StepDispNotify(cfg, sh, t, task, inp);
      case CleanLoad(_, _) => StepCleanLoad(cfg, sh, t, task, inp);
      case Done(_) => StepDone(cfg, sh, t, task, inp);
    }
  }

  lemma StepDone(cfg: Config, sh: Shared, t: TaskId, task: Task, inp: Input)
    requires SharedInv(cfg, sh) && TaskOk(cfg, sh, t, task) && task.pc.Done?
    ensures Good(cfg, sh, t, LookupStep(cfg, sh, t, task, inp))
  {
    hide EntryInv, PcOk, IdOk, FrameOk, SentBelow, NotifyOk, WithRequest, Link.Next;
    NothingOk(cfg, sh, t);
    hide SharedInv, Evolves;
  }

  /** A step takes hold only of what it held, what a cell holds, or what it has just allocated; it puts
      in a cell only what it held; and it unlinks nothing. */
  ghost predicate Handles(sh: Shared, task: Task, r: (Shared, Task))
    requires Wf(sh)
  {
    && |r.0.cells| == SLOTS && |sh.entries| <= |r.0.entries|
    && (Held(r.1.pc).Some? ==>
          || Held(r.1.pc) == Held(task.pc)
          || Held(r.1.pc) in sh.cells
          || Held(r.1.pc).value >= |sh.entries|)
    && (forall i | 0 <= i < SLOTS ::
          r.0.cells[i] == sh.cells[i] || r.0.cells[i] == None || r.0.cells[i] == Held(task.pc))
    && (forall e | 0 <= e < |sh.entries| :: r.0.entries[e].link.linked == sh.entries[e].link.linked)
    && (forall e | |sh.entries| <= e < |r.0.entries| :: r.0.entries[e].link.linked)
  }

  lemma LookupHandles(cfg: Config, sh: Shared, t: TaskId, task: Task, inp: Input)
    requires Wf(sh) && Shape(sh, task)
    ensures Handles(sh, task, LookupStep(cfg, sh, t, task, inp))
  {
    hide WithRequest, Link.Next;
    if task.pc.CloseRing? {
      Link.OnlyUnlinkUnlinks(sh.entries[task.pc.e].link, Link.CloseRing(t));
    } else if task.pc.CloseNotify? {
      Link.OnlyUnlinkUnlinks(sh.entries[task.pc.e].link, Link.Notify(t));
    }
  }

  lemma InstallHandles(cfg: Config, sh: Shared, t: TaskId, task: Task, inp: Input)
    requires Wf(sh) && Shape(sh, task)
    ensures Handles(sh, task, InstallStep(cfg, sh, t, task, inp))
  {
    hide FromRequest;
  }

  lemma DispatchHandles(cfg: Config, sh: Shared, t: TaskId, task: Task, inp: Input)
    requires Wf(sh) && Shape(sh, task)
    ensures Handles(sh, task, DispatchStep(cfg, sh, t, task, inp))
  {
    hide Matches, Codec.EncodeUpdate, PushFrame, Link.Next;
    if task.pc.DispPush? {
      Link.OnlyUnlinkUnlinks(sh.entries[task.pc.e].link, Link.Push(t, task.frame.value.1));
    } else if task.pc.DispNotify? {
      Link.OnlyUnlinkUnlinks(sh.entries[task.pc.e].link, Link.Notify(t));
    }
  }

  lemma TaskStepHandles(cfg: Config, sh: Shared, t: TaskId, task: Task, inp: Input)
    requires Wf(sh) && Shape(sh, task)
    ensures Handles(sh, task, TaskStep(cfg, sh, t, task, inp))
  {
    hide Handles, LookupStep, InstallStep, DispatchStep;
    LookupHandles(cfg, sh, t, task, inp);
    InstallHandles(cfg, sh, t, task, inp);
    DispatchHandles(cfg, sh, t, task, inp);
  }

  lemma StepKeepsLinked(cfg: Config, s: State, t: TaskId, r: (Shared, Task))
    requires Wf(s.sh) && Linked(s) && t in s.tasks && Handles(s.sh, s.tasks[t], r)
    ensures Linked(State(r.0, s.tasks[t := r.1]))
  {
    var s' := State(r.0, s.tasks[t := r.1]);
    forall e | 0 <= e < |s'.sh.entries| && !s'.sh.entries[e].link.linked ensures Unreferenced(s', e) {
      assert Unreferenced(s, e);
      assert Some(e) !in s'.sh.cells;
      forall u | u in s'.tasks ensures Held(s'.tasks[u].pc) != Some(e) {
        if u != t {
          assert s'.tasks[u] == s.tasks[u];
        }
      }
    }
  }

  lemma OthersKeep(cfg: Config, s: State, t: TaskId, r: (Shared, Task), s': State)
    requires SharedInv(cfg, s.sh) && (forall u :: Local(cfg, s, u)) && t in s.tasks
    requires Good(cfg, s.sh, t, r) && s' == State(r.0, s.tasks[t := r.1])
    ensures forall u :: Local(cfg, s', u)
  {
    hide SharedInv, TaskOk, Untouched, Evolves;
    forall u: TaskId ensures Local(cfg, s', u) {
      assert Local(cfg, s, u);
      if u == t {
      } else if u in s.tasks {
        TaskOkStable(cfg, t, s.sh, r.0, u, s.tasks[u]);
      } else {
        UntouchedStable(cfg, t, s.sh, r.0, u);
      }
    }
  }

  lemma TaskStepKeepsInv(cfg: Config, s: State, t: TaskId, inp: Input)
    requires Lz4Inverts(cfg.env) && Inv(cfg, s)
    ensures Inv(cfg, Next(cfg, s, Step(t, inp)))
  {
    hide TaskStep, EntryInv, TaskOk, Untouched, Linked, Handles;
    if t in s.tasks && Wf(s.sh) && Shape(s.sh, s.tasks[t]) {
      assert Local(cfg, s, t);
      var r := TaskStep(cfg, s.sh, t, s.tasks[t], inp);
      TaskStepGood(cfg, s.sh, t, s.tasks[t], inp);
      TaskStepHandles(cfg, s.sh, t, s.tasks[t], inp);
      OthersKeep(cfg, s, t, r, Next(cfg, s, Step(t, inp)));
      StepKeepsLinked(cfg, s, t, r);
    }
  }

  lemma SpawnKeepsInv(cfg: Config, s: State, t: TaskId, op: Op)
    requires Inv(cfg, s)
    ensures Inv(cfg, Next(cfg, s, Spawn(t, op)))
  {
    hide SharedInv, TaskOk;
    if t !in s.tasks {
      var s' := Next(cfg, s, Spawn(t, op));
      forall u: TaskId ensures Local(cfg, s', u) {
        assert Local(cfg, s, u);
        if u == t {
          SpawnedOk(cfg, s.sh, t, op);
        }
      }
      forall e | 0 <= e < |s'.sh.entries| && !s'.sh.entries[e].link.linked ensures Unreferenced(s', e) {
        assert Unreferenced(s, e);
      }
    }
  }

  lemma SpawnedOk(cfg: Config, sh: Shared, t: TaskId, op: Op)
    requires SharedInv(cfg, sh) && Untouched(sh, t)
    ensures TaskOk(cfg, sh, t, Task(op, StartPc(op), None, None, None))
  {
    hide EntryInv;
  }

  /** A step of a reader, a user or the file system: some entry changes, no task moves. */
  lemma OutsideStepKeepsInv(cfg: Config, s: State, e: EntryId, y: Entry)
    requires Inv(cfg, s) && e < |s.sh.entries| && EntryInv(cfg, y)
    requires forall t :: EntryEvolves(t, s.sh.entries[e], y)
    requires y.link.linked == s.sh.entries[e].link.linked || Unreferenced(s, e)
    ensures Inv(cfg, s.(sh := SetEntry(s.sh, e, y)))
  {
    hide EntryInv, TaskOk, Untouched, EntryEvolves;
    var s' := s.(sh := SetEntry(s.sh, e, y));
    SetEntryOk(cfg, s.sh, 0, e, y);
    forall u: TaskId ensures Local(cfg, s', u) {
      assert Local(cfg, s, u);
      SetEntryOk(cfg, s.sh, u + 1, e, y);
      if u in s.tasks {
        TaskOkStable(cfg, u + 1, s.sh, s'.sh, u, s.tasks[u]);
      } else {
        UntouchedStable(cfg, u + 1, s.sh, s'.sh, u);
      }
    }
    forall d | 0 <= d < |s'.sh.entries| && !s'.sh.entries[d].link.linked ensures Unreferenced(s', d) {
      assert Unreferenced(s, d);
    }
  }

  lemma OutsideEvolves(t: TaskId, x: Entry, y: Entry)
    requires y.slot == x.slot && y.connId == x.connId && y.closeCalled == x.closeCalled && y.sent == x.sent
    requires y.link.notifying == x.link.notifying
    ensures EntryEvolves(t, x, y)
  {
  }

  lemma NextKeepsInv(cfg: Config, s: State, a: Action)
    requires Lz4Inverts(cfg.env) && Inv(cfg, s)
    ensures Inv(cfg, Next(cfg, s, a))
  {
    hide EntryInv, Local, Linked, EntryEvolves, Link.Next, Consumer.UserPop, ReadEntry, TaskStep;
    match a {
      case Spawn(t, op) => SpawnKeepsInv(cfg, s, t, op);
      case Step(t, inp) => TaskStepKeepsInv(cfg, s, t, inp);
      case ReadRing(e) =>
        if e < |s.sh.entries| {
          var x := s.sh.entries[e];
          ReadEntryOk(cfg, x);
          forall t ensures EntryEvolves(t, x, ReadEntry(cfg.env, x)) { OutsideEvolves(t, x, ReadEntry(cfg.env, x)); }
          OutsideStepKeepsInv(cfg, s, e, ReadEntry(cfg.env, x));
        }
      case UserPop(e, kind) =>
        if e < |s.sh.entries| {
          var x := s.sh.entries[e];
          var y := x.(consumer := Consumer.UserPop(x.consumer, kind));
          UserPopEntry(cfg, x, kind);
          forall t ensures EntryEvolves(t, x, y) { OutsideEvolves(t, x, y); }
          OutsideStepKeepsInv(cfg, s, e, y);
        }
      case DropRing(e) =>
        if e < |s.sh.entries| && Unreferenced(s, e) {
          var x := s.sh.entries[e];
          var y := LinkStep(x, Link.Unlink);
          UnlinkEntry(cfg, x);
          forall t ensures EntryEvolves(t, x, y) { OutsideEvolves(t, x, y); }
          OutsideStepKeepsInv(cfg, s, e, y);
        }
    }
  }

  /** The invariant of every reachable state of the sender. */
  lemma {:induction false} RunKeepsInv(cfg: Config, actions: seq<Action>)
    requires Lz4Inverts(cfg.env)
    ensures Inv(cfg, Run(cfg, Init(), actions))
  {
    hide Next;
    if actions == [] {
      InitInv(cfg);
    } else {
      hide Inv;
      var n := |actions| - 1;
      RunKeepsInv(cfg, actions[..n]);
      NextKeepsInv(cfg, Run(cfg, Init(), actions[..n]), actions[n]);
    }
  }

  lemma InitInv(cfg: Config)
    ensures Inv(cfg, Init())
  {
  }
}
