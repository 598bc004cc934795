/** What every step of the sender keeps, by rely and guarantee: each task's own facts are stable under
    whatever the other tasks and the readers do. */
module SenderInv {
  import opened Bytes
  import opened Types
  import opened Framing
  import Codec
  import opened Filter
  import Link
  import Consumer
  import opened Sender

  // ----- One connection -----

  /** A stored filter is the one its requests build, and every request but the first carried this
      connection's own token. */
  ghost predicate CellOk(env: Env, token: SlotToken, cell: FilterCell) {
    && |cell.requests| == |cell.keys| > 0
    && cell.filter == FilterAfter(env, cell.requests, cell.keys)
    && forall i | 1 <= i < |cell.requests| :: cell.requests[i].token == Some(token)
  }

  /** The frame body is the encoding of this update at this time. */
  ghost predicate Encodes(env: Env, body: Bytes, s: Stamped<Update>) {
    var encoded := Codec.EncodeUpdate(env, s.update, s.stamp);
    encoded.Ok? && body == encoded.value.0 + encoded.value.1
  }

  ghost predicate SentOk(env: Env, token: SlotToken, s: Sent) {
    Matches(env, s.cell.filter, s.update.update) && CellOk(env, token, s.cell)
  }

  /** Accepted pushes and ring frames correspond one to one, in order. */
  ghost predicate Logged(env: Env, bodies: seq<Bytes>, sent: seq<Sent>) {
    && |bodies| == |sent|
    && forall k | 0 <= k < |sent| :: Encodes(env, bodies[k], sent[k].update)
  }

  /** What the consumer has received is what was sent first. */
  ghost predicate Received(received: seq<Stamped<Update>>, sent: seq<Sent>) {
    && |received| <= |sent|
    && forall k | 0 <= k < |received| :: received[k] == sent[k].update
  }

  ghost predicate EntryInv(cfg: Config, x: Entry) {
    && x.slot < SLOTS
    && Link.Inv(x.link) && Sound(x.link.log) && x.link.capacity == cfg.capacity
    && CellOk(cfg.env, Token(x), x.cell)
    && Logged(cfg.env, Bodies(x.link.log), x.sent)
    && (forall k | 0 <= k < |x.sent| :: SentOk(cfg.env, Token(x), x.sent[k]))
    && (forall j, k | 0 <= j < k < |x.sent| :: x.sent[j].task != x.sent[k].task)
    && Consumer.Inv(x.consumer)
    && |x.consumer.received| == |x.link.popped| && Received(x.consumer.received, x.sent)
    && (Close in x.link.log ==> x.closeCalled)
  }

  // ----- The table -----

  ghost predicate Ever(sh: Shared, e: EntryId) {
    e in sh.installs
  }

  ghost predicate SharedInv(cfg: Config, sh: Shared) {
    && Wf(sh)
    && (forall e | 0 <= e < |sh.entries| :: EntryInv(cfg, sh.entries[e]))
    && (forall e | 0 <= e < |sh.entries| :: sh.entries[e].connId in sh.takers)
    && (forall id | id in sh.takers :: id < sh.nextId)
    // an installed connection sits at its own slot index
    && (forall i | 0 <= i < SLOTS && sh.cells[i].Some? ::
          sh.entries[sh.cells[i].value].slot == i && Ever(sh, sh.cells[i].value))
    // each connection id is installed at most once
    && (forall k | 0 <= k < |sh.installs| :: sh.installs[k] < |sh.entries|)
    && (forall j, k | 0 <= j < k < |sh.installs| ::
          sh.entries[sh.installs[j]].connId != sh.entries[sh.installs[k]].connId)
    // what left the table was closed first
    && (forall k | 0 <= k < |sh.installs| :: InTable(sh, sh.installs[k]) || sh.entries[sh.installs[k]].closeCalled)
  }

  ghost predicate InTable(sh: Shared, e: EntryId)
    requires Wf(sh) && e < |sh.entries|
  {
    sh.cells[sh.entries[e].slot] == Some(e)
  }

  // ----- What one task may do to the shared state -----

  ghost predicate EntryEvolves(t: TaskId, a: Entry, b: Entry) {
    && b.slot == a.slot && b.connId == a.connId
    && (a.closeCalled ==> b.closeCalled)
    && (forall x | x != t :: x in a.link.notifying <==> x in b.link.notifying)
    && a.sent <= b.sent
    && (forall k | |a.sent| <= k < |b.sent| :: b.sent[k].task == t)
  }

  ghost predicate Evolves(t: TaskId, a: Shared, b: Shared)
    requires Wf(a) && Wf(b)
    requires forall k | 0 <= k < |b.installs| :: b.installs[k] < |b.entries|
    requires forall e | 0 <= e < |b.entries| :: b.entries[e].connId in b.takers
  {
    && |a.entries| <= |b.entries|
    && (forall e | 0 <= e < |a.entries| :: EntryEvolves(t, a.entries[e], b.entries[e]))
    && (forall e | |a.entries| <= e < |b.entries| :: b.entries[e].sent == [] && b.entries[e].link.notifying == {})
    && (forall id | id in a.takers :: id in b.takers && b.takers[id] == a.takers[id])
    && (forall id | id in b.takers && id !in a.takers :: b.takers[id] == t)
    && a.nextId <= b.nextId
    && a.installs <= b.installs
    && (forall k | |a.installs| <= k < |b.installs| :: b.takers[b.entries[b.installs[k]].connId] == t)
    // a slot is filled only by an install into it
    && (forall i | 0 <= i < SLOTS && a.cells[i].None? && b.cells[i].Some? ::
          |a.installs| < |b.installs| && b.entries[b.installs[|a.installs|]].slot == i)
  }

  // ----- What a task knows -----

  ghost predicate OwnsNone(sh: Shared, t: TaskId) {
    forall id | id in sh.takers :: sh.takers[id] != t
  }

  ghost predicate Drew(sh: Shared, t: TaskId, id: nat) {
    id in sh.takers && sh.takers[id] == t
  }

  /** The task drew this id, and nobody has installed a connection under it. */
  ghost predicate OwnsId(sh: Shared, t: TaskId, id: nat)
    requires forall k | 0 <= k < |sh.installs| :: sh.installs[k] < |sh.entries|
  {
    && Drew(sh, t, id)
    && forall k | 0 <= k < |sh.installs| :: sh.entries[sh.installs[k]].connId != id
  }

  /** Another task installed a connection in slot `i` after the first `since` installs. */
  ghost predicate InstalledSince(sh: Shared, t: TaskId, i: nat, since: nat)
    requires forall k | 0 <= k < |sh.installs| :: sh.installs[k] < |sh.entries|
    requires forall e | 0 <= e < |sh.entries| :: sh.entries[e].connId in sh.takers
  {
    exists k | since <= k < |sh.installs| ::
      sh.entries[sh.installs[k]].slot == i && sh.takers[sh.entries[sh.installs[k]].connId] != t
  }

  /** The task's accepted pushes all went to connections in slots below `n`. */
  ghost predicate SentBelow(sh: Shared, t: TaskId, n: nat) {
    forall e, k | 0 <= e < |sh.entries| && 0 <= k < |sh.entries[e].sent| && sh.entries[e].sent[k].task == t ::
      sh.entries[e].slot < n
  }

  function Notifying(pc: Pc): Option<EntryId> {
    match pc
    case CloseNotify(_, e, _) => Some(e)
    case DispNotify(_, e) => Some(e)
    case _ => None
  }

  /** The task is between a ring write and its notify exactly where its point says. */
  ghost predicate NotifyOk(sh: Shared, t: TaskId, pc: Pc) {
    forall e | 0 <= e < |sh.entries| :: t in sh.entries[e].link.notifying <==> Notifying(pc) == Some(e)
  }

  function ContSlot(k: Cont): nat {
    match k
    case NextSlot(i, _) => i + 1
    case _ => 0
  }

  function PushBound(pc: Pc): nat {
    match pc
    case DispLoad(i) => i
    case DispStale(i, _) => i
    case DispMatch(i, _) => i
    case DispPush(i, _, _) => i
    case DispNotify(i, _) => i + 1
    case CleanLoad(i, _) => i + 1
    case CloseRing(_, _, k) => ContSlot(k)
    case CloseNotify(_, _, k) => ContSlot(k)
    case EvictCas(_, _, k) => ContSlot(k)
    case _ => 0
  }

  ghost predicate Evicting(sh: Shared, i: nat, e: EntryId, k: Cont) {
    && e < |sh.entries| && Ever(sh, e) && sh.entries[e].slot == i
    && (k.NextSlot? ==> k.victim == e && k.i < SLOTS)
    && (k.Recheck? ==> k.i == i)
  }

  ghost predicate Reserved(sh: Shared, t: TaskId, i: nat, since: nat)
    requires Wf(sh) && i < SLOTS
    requires forall k | 0 <= k < |sh.installs| :: sh.installs[k] < |sh.entries|
    requires forall e | 0 <= e < |sh.entries| :: sh.entries[e].connId in sh.takers
  {
    since <= |sh.installs| && (sh.cells[i].Some? ==> InstalledSince(sh, t, i, since))
  }

  /** The token of some connection that was installed. */
  ghost predicate Issued(sh: Shared, token: SlotToken)
    requires forall k | 0 <= k < |sh.installs| :: sh.installs[k] < |sh.entries|
  {
    exists k | 0 <= k < |sh.installs| :: Token(sh.entries[sh.installs[k]]) == token
  }

  /** Replies name connections of this table, and a refresh names the one it was asked for. */
  ghost predicate OutcomeOk(sh: Shared, op: Op, outcome: Outcome)
    requires forall k | 0 <= k < |sh.installs| :: sh.installs[k] < |sh.entries|
  {
    match outcome
    case Existing(token) => op.Upsert? && TokenOf(op) == Some(token) && Issued(sh, token)
    case Created(token) => op.Upsert? && Issued(sh, token)
    case Exhausted => op.Upsert?
    case CreateFailed => op.Upsert?
    case PingTouched => op.Ping?
    case PingIgnored => op.Ping?
    case Dispatched => op.Dispatch?
  }

  ghost predicate PcOk(cfg: Config, sh: Shared, t: TaskId, task: Task)
    requires SharedInv(cfg, sh) && Shape(sh, task)
  {
    match task.pc
    case LookupStale(e) => Ever(sh, e) && TokenOf(task.op) == Some(Token(sh.entries[e]))
    case Touch(e) => Ever(sh, e) && TokenOf(task.op) == Some(Token(sh.entries[e]))
    case FilterLoad(e) => Ever(sh, e) && TokenOf(task.op) == Some(Token(sh.entries[e]))
    case FilterStore(e, cell) =>
      && Ever(sh, e) && TokenOf(task.op) == Some(Token(sh.entries[e]))
      && CellOk(cfg.env, Token(sh.entries[e]), cell)
    case CloseRing(i, e, k) => Evicting(sh, i, e, k)
    case CloseNotify(i, e, k) => Evicting(sh, i, e, k) && sh.entries[e].closeCalled
    case EvictCas(i, e, k) => Evicting(sh, i, e, k) && sh.entries[e].closeCalled
    case FreeStale(i, e) => Ever(sh, e) && sh.entries[e].slot == i
    case Create(i, since) => Reserved(sh, t, i, since)
    case InstallCas(i, e, since) =>
      && Reserved(sh, t, i, since)
      && sh.entries[e].slot == i && sh.entries[e].connId == task.id.value
    case DispStale(i, e) => Ever(sh, e) && sh.entries[e].slot == i
    case DispMatch(i, e) => Ever(sh, e) && sh.entries[e].slot == i
    case DispPush(i, e, cell) =>
      && Ever(sh, e) && sh.entries[e].slot == i
      && CellOk(cfg.env, Token(sh.entries[e]), cell) && Matches(cfg.env, cell.filter, task.op.update)
    case DispNotify(i, e) => Ever(sh, e) && sh.entries[e].slot == i
    case CleanLoad(i, e) => Ever(sh, e) && sh.entries[e].slot == i
    case Done(outcome) =>
      OutcomeOk(sh, task.op, outcome) && (outcome.Created? ==> Drew(sh, t, outcome.token.generation))
    case _ => true
  }

  ghost predicate IdOk(cfg: Config, sh: Shared, t: TaskId, task: Task)
    requires SharedInv(cfg, sh)
  {
    && (task.id.None? ==> OwnsNone(sh, t))
    && (task.id.Some? ==> forall id | id in sh.takers && sh.takers[id] == t :: id == task.id.value)
    && (task.pc.TakeId? ==> task.id.None?)
    && (LookupPc(task.pc) ==> task.id.None?)
    && (IdPc(task.pc) ==>
          && task.id.Some? && OwnsId(sh, t, task.id.value)
          && task.initial.Some? && |task.initial.value.requests| == |task.initial.value.keys| == 1
          && task.initial.value.filter == FilterAfter(cfg.env, task.initial.value.requests, task.initial.value.keys))
  }

  ghost predicate FrameOk(env: Env, task: Task) {
    task.frame.Some? ==>
      task.op.Dispatch? && Encodes(env, task.frame.value.1, Stamped(task.op.update, task.frame.value.0))
  }

  ghost predicate TaskOk(cfg: Config, sh: Shared, t: TaskId, task: Task)
    requires SharedInv(cfg, sh)
  {
    && Shape(sh, task)
    && PcOk(cfg, sh, t, task)
    && IdOk(cfg, sh, t, task)
    && FrameOk(cfg.env, task)
    && NotifyOk(sh, t, task.pc)
    && (!task.pc.Done? ==> SentBelow(sh, t, PushBound(task.pc)))
  }

  ghost predicate Untouched(sh: Shared, t: TaskId) {
    && OwnsNone(sh, t) && SentBelow(sh, t, 0)
    && forall e | 0 <= e < |sh.entries| :: t !in sh.entries[e].link.notifying
  }

  ghost predicate Local(cfg: Config, s: State, t: TaskId)
    requires SharedInv(cfg, s.sh)
  {
    if t in s.tasks then TaskOk(cfg, s.sh, t, s.tasks[t]) else Untouched(s.sh, t)
  }

  /** A ring file is gone only when nothing refers to its connection any more. */
  ghost predicate Linked(s: State) {
    forall e | 0 <= e < |s.sh.entries| && !s.sh.entries[e].link.linked :: Unreferenced(s, e)
  }

  ghost predicate Inv(cfg: Config, s: State) {
    && SharedInv(cfg, s.sh)
    && (forall t :: Local(cfg, s, t))
    && Linked(s)
  }
}
