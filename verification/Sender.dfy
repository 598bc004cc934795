/**
 The sender as a step system: the table of ten compare-and-swap cells, any number of concurrent
 upsert, ping and dispatch tasks, the rings they write to and the readers that drain them. Every
 atomic load, store, compare-and-swap, fetch-and-add, ring write and notify is one step; the clock,
 the random Bloom keys and I/O failures are arbitrary inputs of a step.
 */
module Sender {
  import opened Bytes
  import opened Types
  import opened Framing
  import Codec
  import opened Filter
  import Link
  import Consumer

  type TaskId = nat
  type EntryId = nat   // identity of an allocated connection, as a pointer is

  datatype Config = Config(env: Env, capacity: nat)

  /** A connection's current filter, with the requests (and Bloom keys) it was built from. */
  datatype FilterCell = FilterCell(filter: SubscriptionFilter, requests: seq<SubscriptionRequest>, keys: seq<seq<nat>>)

  /** One accepted push: which dispatch made it, what it carried, and the filter it had matched. */
  datatype Sent = Sent(task: TaskId, update: Stamped<Update>, cell: FilterCell)

  datatype Entry = Entry(
    slot: nat,
    connId: nat,
    cell: FilterCell,
    lastSeen: nat,
    link: Link.State,
    consumer: Consumer.State,
    closeCalled: bool,      // some task has called close on the sink
    sent: seq<Sent>)

  /** `takers` records which task drew which connection id, `installs` every successful install. */
  datatype Shared = Shared(
    cells: seq<Option<EntryId>>,
    entries: seq<Entry>,
    nextId: nat,
    takers: map<nat, TaskId>,
    installs: seq<EntryId>)

  datatype Op =
    | Upsert(request: SubscriptionRequest)
    | Ping(token: SlotToken)
    | Dispatch(update: Update)

  datatype Outcome =
    | Existing(token: SlotToken)
    | Created(token: SlotToken)
    | Exhausted
    | CreateFailed
    | PingTouched
    | PingIgnored
    | Dispatched

  /** Where a task goes on after evicting, and for dispatches the entry it meant to evict. */
  datatype Cont = LookupMiss | Recheck(i: nat) | NextSlot(i: nat, victim: EntryId)

  datatype Pc =
    | LookupLoad
    | LookupStale(e: EntryId)
    | CloseRing(i: nat, e: EntryId, k: Cont)
    | CloseNotify(i: nat, e: EntryId, k: Cont)
    | EvictCas(i: nat, e: EntryId, k: Cont)
    | Touch(e: EntryId)
    | FilterLoad(e: EntryId)
    | FilterStore(e: EntryId, cell: FilterCell)
    | TakeId
    | FreeLoad(i: nat)
    | FreeStale(i: nat, e: EntryId)
    | FreeRecheck(i: nat)
    | Create(i: nat, since: nat)              // `since`: installs made when the slot was seen empty
    | InstallCas(i: nat, e: EntryId, since: nat)
    | DispLoad(i: nat)
    | DispStale(i: nat, e: EntryId)
    | DispMatch(i: nat, e: EntryId)
    | DispPush(i: nat, e: EntryId, cell: FilterCell)
    | DispNotify(i: nat, e: EntryId)
    | CleanLoad(i: nat, e: EntryId)
    | Done(outcome: Outcome)

  /** A task, with the id and filter an upsert prepared and the frame a dispatch encoded once. */
  datatype Task = Task(op: Op, pc: Pc, id: Option<nat>, initial: Option<FilterCell>, frame: Option<(U64, Bytes)>)

  datatype State = State(sh: Shared, tasks: map<TaskId, Task>)

  datatype Input = Input(now: nat, stamp: U64, keys: seq<nat>, createOk: bool)

  datatype Action =
    | Spawn(t: TaskId, op: Op)
    | Step(t: TaskId, input: Input)
    | ReadRing(e: EntryId)
    | UserPop(e: EntryId, kind: Consumer.Kind)
    | DropRing(e: EntryId)

  // ----- The steps -----

  function Token(x: Entry): SlotToken {
    SlotToken(x.slot, x.connId)
  }

  predicate IsStale(now: nat, x: Entry) {
    Stale(x.lastSeen, now)
  }

  predicate Wf(sh: Shared) {
    && |sh.cells| == SLOTS
    && (forall i | 0 <= i < SLOTS && sh.cells[i].Some? :: sh.cells[i].value < |sh.entries|)
    && (forall e | 0 <= e < |sh.entries| :: sh.entries[e].slot < SLOTS)
  }

  /** The connection a token resolves to right now, staleness aside. */
  function Resolve(sh: Shared, token: SlotToken): Option<EntryId>
    requires Wf(sh)
  {
    if token.slotIndex < SLOTS && sh.cells[token.slotIndex].Some?
       && sh.entries[sh.cells[token.slotIndex].value].connId == token.generation
    then sh.cells[token.slotIndex]
    else None
  }

  function TokenOf(op: Op): Option<SlotToken> {
    match op
    case Upsert(request) => request.token
    case Ping(token) => Some(token)
    case Dispatch(_) => None
  }

  function StartPc(op: Op): Pc {
    match op
    case Dispatch(_) => DispLoad(0)
    case Ping(_) => LookupLoad
    case Upsert(request) => if request.token.Some? then LookupLoad else TakeId
  }

  function AfterMiss(op: Op): Pc {
    if op.Ping? then Done(PingIgnored) else TakeId
  }

  function AfterEvict(op: Op, k: Cont): Pc {
    match k
    case LookupMiss => AfterMiss(op)
    case Recheck(i) => FreeRecheck(i)
    case NextSlot(i, _) => DispLoad(i + 1)
  }

  /** The entry whose handle the task holds at this point. */
  function Held(pc: Pc): Option<EntryId> {
    match pc
    case LookupStale(e) => Some(e)
    case CloseRing(_, e, _) => Some(e)
    case CloseNotify(_, e, _) => Some(e)
    case EvictCas(_, e, _) => Some(e)
    case Touch(e) => Some(e)
    case FilterLoad(e) => Some(e)
    case FilterStore(e, _) => Some(e)
    case FreeStale(_, e) => Some(e)
    case InstallCas(_, e, _) => Some(e)
    case DispStale(_, e) => Some(e)
    case DispMatch(_, e) => Some(e)
    case DispPush(_, e, _) => Some(e)
    case DispNotify(_, e) => Some(e)
    case CleanLoad(_, e) => Some(e)
    case _ => None
  }

  function SlotAt(pc: Pc): nat {
    match pc
    case CloseRing(i, _, _) => i
    case CloseNotify(i, _, _) => i
    case EvictCas(i, _, _) => i
    case FreeLoad(i) => i
    case FreeStale(i, _) => i
    case FreeRecheck(i) => i
    case Create(i, _) => i
    case InstallCas(i, _, _) => i
    case DispLoad(i) => i
    case DispStale(i, _) => i
    case DispMatch(i, _) => i
    case DispPush(i, _, _) => i
    case DispNotify(i, _) => i
    case CleanLoad(i, _) => i
    case _ => 0
  }

  predicate UpsertPc(pc: Pc) {
    pc.FilterLoad? || pc.FilterStore? || pc.TakeId? || IdPc(pc)
  }

  /** Points an upsert reaches only after drawing its connection id. */
  predicate IdPc(pc: Pc) {
    pc.FreeLoad? || pc.FreeStale? || pc.FreeRecheck? || pc.Create? || pc.InstallCas?
    || (pc.CloseRing? && pc.k.Recheck?) || (pc.CloseNotify? && pc.k.Recheck?) || (pc.EvictCas? && pc.k.Recheck?)
  }

  predicate LookupPc(pc: Pc) {
    pc.LookupLoad? || pc.LookupStale? || pc.Touch? || pc.FilterLoad? || pc.FilterStore?
    || (pc.CloseRing? && pc.k.LookupMiss?) || (pc.CloseNotify? && pc.k.LookupMiss?)
    || (pc.EvictCas? && pc.k.LookupMiss?)
  }

  predicate DispatchPc(pc: Pc) {
    pc.DispLoad? || pc.DispStale? || pc.DispMatch? || pc.DispPush? || pc.DispNotify? || pc.CleanLoad?
    || (pc.CloseRing? && pc.k.NextSlot?) || (pc.CloseNotify? && pc.k.NextSlot?) || (pc.EvictCas? && pc.k.NextSlot?)
  }

  /** The task's point fits its operation and names existing slots and entries. */
  predicate Shape(sh: Shared, task: Task) {
    && (Held(task.pc).Some? ==> Held(task.pc).value < |sh.entries|)
    && (if task.pc.FreeLoad? || task.pc.DispLoad? then SlotAt(task.pc) <= SLOTS else SlotAt(task.pc) < SLOTS)
    && (UpsertPc(task.pc) ==> task.op.Upsert?)
    && (IdPc(task.pc) ==> task.id.Some? && task.initial.Some?)
    && (LookupPc(task.pc) ==> TokenOf(task.op).Some?)
    && (DispatchPc(task.pc) <==> task.op.Dispatch? && !task.pc.Done?)
    && (task.pc.DispPush? ==> task.frame.Some?)
  }

  function SetEntry(sh: Shared, e: EntryId, x: Entry): Shared
    requires e < |sh.entries|
  {
    sh.(entries := sh.entries[e := x])
  }

  function LinkStep(x: Entry, a: Link.Action): Entry {
    x.(link := Link.Next(x.link, a))
  }

  function Evict(sh: Shared, i: nat, e: EntryId): Shared
    requires |sh.cells| == SLOTS && i < SLOTS
  {
    if sh.cells[i] == Some(e) then sh.(cells := sh.cells[i := None]) else sh
  }

  ghost function NewEntry(cfg: Config, i: nat, task: Task, now: nat): Entry
    requires task.id.Some? && task.initial.Some?
  {
    Entry(i, task.id.value, task.initial.value, now, Link.Init(cfg.capacity), Consumer.Init(), false, [])
  }

  function Install(sh: Shared, i: nat, e: EntryId): Shared
    requires |sh.cells| == SLOTS && i < SLOTS
  {
    sh.(cells := sh.cells[i := Some(e)], installs := sh.installs + [e])
  }

  /** One step of a lookup, of an eviction, or of refreshing an existing connection. */
  ghost function LookupStep(cfg: Config, sh: Shared, t: TaskId, task: Task, inp: Input): (Shared, Task)
    requires Wf(sh) && Shape(sh, task)
  {
    match task.pc
    case LookupLoad =>
      var hit := Resolve(sh, TokenOf(task.op).value);
      (sh, task.(pc := if hit.Some? then LookupStale(hit.value) else AfterMiss(task.op)))
    case LookupStale(e) =>
      (sh, task.(pc := if IsStale(inp.now, sh.entries[e])
                       then CloseRing(TokenOf(task.op).value.slotIndex, e, LookupMiss) else Touch(e)))
    case CloseRing(i, e, k) =>
      (SetEntry(sh, e, LinkStep(sh.entries[e], Link.CloseRing(t)).(closeCalled := true)),
       task.(pc := CloseNotify(i, e, k)))
    case CloseNotify(i, e, k) =>
      (SetEntry(sh, e, LinkStep(sh.entries[e], Link.Notify(t))), task.(pc := EvictCas(i, e, k)))
    case EvictCas(i, e, k) => (Evict(sh, i, e), task.(pc := AfterEvict(task.op, k)))
    case Touch(e) =>
      (SetEntry(sh, e, sh.entries[e].(lastSeen := inp.now)),
       task.(pc := if task.op.Upsert? then FilterLoad(e) else Done(PingTouched)))
    case FilterLoad(e) => (sh, task.(pc := FilterStore(e, sh.entries[e].cell)))
    case FilterStore(e, cell) =>
      var next := FilterCell(WithRequest(cfg.env, cell.filter, task.op.request, inp.keys),
                             cell.requests + [task.op.request], cell.keys + [inp.keys]);
      (SetEntry(sh, e, sh.entries[e].(cell := next)), task.(pc := Done(Existing(Token(sh.entries[e])))))
    case _ => (sh, task)
  }

  /** One step of drawing an id, finding a free slot and installing. */
  ghost function InstallStep(cfg: Config, sh: Shared, t: TaskId, task: Task, inp: Input): (Shared, Task)
    requires Wf(sh) && Shape(sh, task)
  {
    match task.pc
    case TakeId =>
      var cell := FilterCell(FromRequest(cfg.env, task.op.request, inp.keys), [task.op.request], [inp.keys]);
      (sh.(nextId := sh.nextId + 1, takers := sh.takers[sh.nextId := t]),
       task.(id := Some(sh.nextId), initial := Some(cell), pc := FreeLoad(0)))
    case FreeLoad(i) =>
      (sh, task.(pc := if i == SLOTS then Done(Exhausted)
                       else if sh.cells[i].Some? then FreeStale(i, sh.cells[i].value)
                       else Create(i, |sh.installs|)))
    case FreeStale(i, e) =>
      (sh, task.(pc := if IsStale(inp.now, sh.entries[e]) then CloseRing(i, e, Recheck(i)) else FreeLoad(i + 1)))
    case FreeRecheck(i) =>
      (sh, task.(pc := if sh.cells[i].None? then Create(i, |sh.installs|) else FreeLoad(i + 1)))
    case Create(i, since) =>
      if inp.createOk && cfg.capacity >= MIN_CAPACITY then
        (sh.(entries := sh.entries + [NewEntry(cfg, i, task, inp.now)]),
         task.(pc := InstallCas(i, |sh.entries|, since)))
      else (sh, task.(pc := Done(CreateFailed)))
    case InstallCas(i, e, since) =>
      if sh.cells[i].None? then (Install(sh, i, e), task.(pc := Done(Created(Token(sh.entries[e])))))
      else (sh, task.(pc := FreeLoad(0)))
    case _ => (sh, task)
  }

  /** One step of fanning an update out over the table. */
  ghost function DispatchStep(cfg: Config, sh: Shared, t: TaskId, task: Task, inp: Input): (Shared, Task)
    requires Wf(sh) && Shape(sh, task)
  {
    match task.pc
    case DispLoad(i) =>
      (sh, task.(pc := if i == SLOTS then Done(Dispatched)
                       else if sh.cells[i].Some? then DispStale(i, sh.cells[i].value)
                       else DispLoad(i + 1)))
    case DispStale(i, e) =>
      (sh, task.(pc := if IsStale(inp.now, sh.entries[e]) then CloseRing(i, e, NextSlot(i, e)) else DispMatch(i, e)))
    case DispMatch(i, e) =>
      var cell := sh.entries[e].cell;
      if !Matches(cfg.env, cell.filter, task.op.update) then (sh, task.(pc := DispLoad(i + 1)))
      else if task.frame.Some? then (sh, task.(pc := DispPush(i, e, cell)))
      else
        var encoded := Codec.EncodeUpdate(cfg.env, task.op.update, inp.stamp);
        if encoded.Err? then (sh, task.(pc := Done(Dispatched)))
        else (sh, task.(frame := Some((inp.stamp, encoded.value.0 + encoded.value.1)), pc := DispPush(i, e, cell)))
    case DispPush(i, e, cell) =>
      var x := sh.entries[e];
      var (stamp, body) := task.frame.value;
      if PushFrame(x.link.queue, x.link.capacity, body).Ok? then
        var sent := x.sent + [Sent(t, Stamped(task.op.update, stamp), cell)];
        (SetEntry(sh, e, LinkStep(x, Link.Push(t, body)).(sent := sent)), task.(pc := DispNotify(i, e)))
      else (sh, task.(pc := CleanLoad(i, e)))
    case DispNotify(i, e) =>
      (SetEntry(sh, e, LinkStep(sh.entries[e], Link.Notify(t))), task.(pc := DispLoad(i + 1)))
    case CleanLoad(i, e) =>
      var x := sh.entries[e];
      var current := sh.cells[x.slot];
      if current.Some? && sh.entries[current.value].connId == x.connId
      then (sh, task.(pc := CloseRing(x.slot, current.value, NextSlot(i, e))))
      else (sh, task.(pc := DispLoad(i + 1)))
    case _ => (sh, task)
  }

  ghost function TaskStep(cfg: Config, sh: Shared, t: TaskId, task: Task, inp: Input): (Shared, Task)
    requires Wf(sh) && Shape(sh, task)
  {
    match task.pc
    case TakeId => InstallStep(cfg, sh, t, task, inp)
    case FreeLoad(_) => InstallStep(cfg, sh, t, task, inp)
    case FreeStale(_, _) => InstallStep(cfg, sh, t, task, inp)
    case FreeRecheck(_) => InstallStep(cfg, sh, t, task, inp)
    case Create(_, _) => InstallStep(cfg, sh, t, task, inp)
    case InstallCas(_, _, _) => InstallStep(cfg, sh, t, task, inp)
    case DispLoad(_) => DispatchStep(cfg, sh, t, task, inp)
    case DispStale(_, _) => DispatchStep(cfg, sh, t, task, inp)
    case DispMatch(_, _) => DispatchStep(cfg, sh, t, task, inp)
    case DispPush(_, _, _) => DispatchStep(cfg, sh, t, task, inp)
    case DispNotify(_, _) => DispatchStep(cfg, sh, t, task, inp)
    case CleanLoad(_, _) => DispatchStep(cfg, sh, t, task, inp)
    case _ => LookupStep(cfg, sh, t, task, inp)
  }

  /** One step of a connection's reader; popping a frame also decodes and enqueues it. */
  ghost function ReadEntry(env: Env, x: Entry): Entry {
    LinkStep(x, Link.Read).(consumer := if x.link.reader.Deliver?
                                        then Consumer.Receive(env, x.consumer, x.link.reader.body)
                                        else x.consumer)
  }

  /** The ring file goes only when neither the table nor any task holds the connection. */
  ghost predicate Unreferenced(s: State, e: EntryId) {
    Some(e) !in s.sh.cells && forall t | t in s.tasks :: Held(s.tasks[t].pc) != Some(e)
  }

  ghost function Next(cfg: Config, s: State, a: Action): State {
    match a
    case Spawn(t, op) =>
      if t in s.tasks then s else s.(tasks := s.tasks[t := Task(op, StartPc(op), None, None, None)])
    case Step(t, inp) =>
      if t in s.tasks && Wf(s.sh) && Shape(s.sh, s.tasks[t]) then
        var (sh, task) := TaskStep(cfg, s.sh, t, s.tasks[t], inp);
        State(sh, s.tasks[t := task])
      else s
    case ReadRing(e) =>
      if e < |s.sh.entries| then s.(sh := SetEntry(s.sh, e, ReadEntry(cfg.env, s.sh.entries[e]))) else s
    case UserPop(e, kind) =>
      if e < |s.sh.entries| then
        var x := s.sh.entries[e];
        s.(sh := SetEntry(s.sh, e, x.(consumer := Consumer.UserPop(x.consumer, kind))))
      else s
    case DropRing(e) =>
      if e < |s.sh.entries| && Unreferenced(s, e) then
        s.(sh := SetEntry(s.sh, e, LinkStep(s.sh.entries[e], Link.Unlink)))
      else s
  }

  function Init(): State {
    State(Shared(seq(SLOTS, _ => None), [], 1, map[], []), map[])
  }

  ghost function Run(cfg: Config, s: State, actions: seq<Action>): State {
    if actions == [] then s
    else Next(cfg, Run(cfg, s, actions[..|actions| - 1]), actions[|actions| - 1])
  }
}
