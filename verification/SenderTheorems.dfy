/** What the sender and its consumers promise over whole runs and all interleavings. */
module SenderTheorems {
  import opened Types
  import opened Framing
  import Codec
  import opened Filter
  import Link
  import Consumer
  import Queues
  import opened Sender
  import opened SenderInv
  import opened SenderEntries
  import opened SenderSteps

  // ----- End-to-end delivery -----

  function Updates(sent: seq<Sent>): (r: seq<Stamped<Update>>)
    ensures |r| == |sent| && forall k | 0 <= k < |sent| :: r[k] == sent[k].update
  {
    seq(|sent|, k requires 0 <= k < |sent| => sent[k].update)
  }

  /** The updates pushed to a connection and accepted before its first close sentinel. */
  function AcceptedBeforeClose(x: Entry): seq<Stamped<Update>> {
    var n := |BeforeClose(x.link.log)|;
    Updates(if n <= |x.sent| then x.sent[..n] else x.sent)
  }

  /** Everything a consumer ever enqueued, of each kind and in order, is an initial stretch of what was
      accepted for it before the first sentinel; every such update matched the filter its connection had,
      so some request made with that connection's token (or its first one) asked for it. */
  ghost predicate Delivered(x: Entry) {
    && x.consumer.received <= AcceptedBeforeClose(x)
    && x.consumer.accounts.pushed <= Consumer.Accounts(AcceptedBeforeClose(x))
    && x.consumer.transactions.pushed <= Consumer.Transactions(AcceptedBeforeClose(x))
    && x.consumer.slots.pushed <= Consumer.Slots(AcceptedBeforeClose(x))
    && Queues.Orderly(x.consumer.accounts)
    && Queues.Orderly(x.consumer.transactions)
    && Queues.Orderly(x.consumer.slots)
    && forall k | 0 <= k < |x.sent| ::
         && Wanted(x.sent[k].cell.requests, x.sent[k].update.update)
         && forall i | 1 <= i < |x.sent[k].cell.requests| :: x.sent[k].cell.requests[i].token == Some(Token(x))
  }

  lemma {:induction false} KindsOfPrefix(a: seq<Stamped<Update>>, b: seq<Stamped<Update>>)
    requires a <= b
    ensures Consumer.Accounts(a) <= Consumer.Accounts(b)
    ensures Consumer.Transactions(a) <= Consumer.Transactions(b)
    ensures Consumer.Slots(a) <= Consumer.Slots(b)
  {
    if |a| < |b| {
      KindsOfPrefix(a, b[..|b| - 1]);
    } else {
      assert a == b;
    }
  }

  lemma ReceivedPrefix(cfg: Config, x: Entry)
    requires EntryInv(cfg, x)
    ensures |BeforeClose(x.link.log)| <= |x.sent|
    ensures x.consumer.received <= AcceptedBeforeClose(x)
    ensures x.link.popped == BeforeClose(x.link.log) ==> x.consumer.received == AcceptedBeforeClose(x)
  {
    hide CellOk, SentOk, Consumer.Inv, Encodes;
    Link.InvFramed(x.link);
    Link.FramedIsFifo(x.link);
    BeforeCloseIsPrefix(x.link.log);
  }

  lemma EntryDelivered(cfg: Config, x: Entry)
    requires EntryInv(cfg, x)
    ensures Delivered(x)
  {
    hide Link.Inv, Encodes, FilterAfter, Matches, Wanted, Queues.Orderly;
    ReceivedPrefix(cfg, x);
    KindsOfPrefix(x.consumer.received, AcceptedBeforeClose(x));
    forall k | 0 <= k < |x.sent|
      ensures Wanted(x.sent[k].cell.requests, x.sent[k].update.update)
      ensures forall i | 1 <= i < |x.sent[k].cell.requests| :: x.sent[k].cell.requests[i].token == Some(Token(x))
    {
      var cell := x.sent[k].cell;
      assert SentOk(cfg.env, Token(x), x.sent[k]);
      FilterRefinesRequests(cfg.env, cell.requests, cell.keys, x.sent[k].update.update);
    }
  }

  /** End to end: in every run, for every connection that ever existed. */
  lemma EndToEndDelivery(cfg: Config, actions: seq<Action>, e: EntryId)
    requires Lz4Inverts(cfg.env)
    requires e < |Run(cfg, Init(), actions).sh.entries|
    ensures Delivered(Run(cfg, Init(), actions).sh.entries[e])
  {
    hide Run, EntryInv, Local, Linked;
    RunKeepsInv(cfg, actions);
    EntryDelivered(cfg, Run(cfg, Init(), actions).sh.entries[e]);
  }

  lemma {:induction false} RunFromFront(cfg: Config, s: State, a: Action, rest: seq<Action>)
    ensures Run(cfg, s, [a] + rest) == Run(cfg, Next(cfg, s, a), rest)
  {
    hide Next;
    var actions := [a] + rest;
    var n := |rest|;
    if n == 0 {
      assert actions == [a] && actions[..0] == [];
    } else {
      assert actions[..n] == [a] + rest[..n - 1];
      RunFromFront(cfg, s, a, rest[..n - 1]);
    }
  }

  /** Nothing accepted is lost: while the ring file is in place and a wakeup has arrived (as it has when no notify
      is outstanding), the reader's own steps, finitely many, deliver every update accepted before the first
      sentinel; then it is parked on an empty ring, or has stopped at the sentinel. */
  lemma {:induction false} EventualDelivery(cfg: Config, s: State, e: EntryId) returns (steps: seq<Action>)
    requires Lz4Inverts(cfg.env) && Inv(cfg, s) && e < |s.sh.entries|
    requires s.sh.entries[e].link.linked && Link.Awake(s.sh.entries[e].link)
    ensures forall a | a in steps :: a == ReadRing(e)
    ensures e < |Run(cfg, s, steps).sh.entries|
    ensures var x := s.sh.entries[e];
            var z := Run(cfg, s, steps).sh.entries[e];
            && z.consumer.received == AcceptedBeforeClose(x)
            && if Close in x.link.log then z.link.reader.Stopped? else z.link.reader.Parked? && z.link.queue == []
    decreases Link.Measure(s.sh.entries[e].link)
  {
    hide Inv, Next, ReadEntry, EntryInv, AcceptedBeforeClose, Link.ReadStep, Link.Awake;
    var x := s.sh.entries[e];
    InvEntry(cfg, s, e);
    if Link.Quiet(x.link) {
      steps := [];
      QuietEntry(cfg, x);
    } else {
      var s' := Next(cfg, s, ReadRing(e));
      NextKeepsInv(cfg, s, ReadRing(e));
      ReadRingStep(cfg, s, e);
      Link.ReadProgress(x.link);
      AwakeEntry(cfg, x);
      var rest := EventualDelivery(cfg, s', e);
      steps := [ReadRing(e)] + rest;
      RunFromFront(cfg, s, ReadRing(e), rest);
    }
  }

  lemma InvEntry(cfg: Config, s: State, e: EntryId)
    requires Inv(cfg, s) && e < |s.sh.entries|
    ensures EntryInv(cfg, s.sh.entries[e])
  {
    hide EntryInv, Local, Linked;
  }

  lemma AwakeEntry(cfg: Config, x: Entry)
    requires EntryInv(cfg, x) && Link.Awake(x.link)
    ensures Link.Awake(Link.ReadStep(x.link))
  {
    hide CellOk, SentOk, Consumer.Inv, Encodes, Link.Inv, Link.ReadStep, Link.Awake, Link.Framed;
    Link.InvFramed(x.link);
    Link.ReadKeepsAwake(x.link);
  }

  lemma ReadRingStep(cfg: Config, s: State, e: EntryId)
    requires e < |s.sh.entries|
    ensures e < |Next(cfg, s, ReadRing(e)).sh.entries|
    ensures var x := s.sh.entries[e];
            var y := Next(cfg, s, ReadRing(e)).sh.entries[e];
            && y.link == Link.ReadStep(x.link) && y.link.log == x.link.log
            && y.link.linked == x.link.linked && y.link.notifying == x.link.notifying
            && AcceptedBeforeClose(y) == AcceptedBeforeClose(x)
  {
    hide ReadEntry, TaskStep;
    ReadEntrySame(cfg, s.sh.entries[e]);
  }

  lemma QuietEntry(cfg: Config, x: Entry)
    requires EntryInv(cfg, x) && x.link.linked && Link.Awake(x.link) && Link.Quiet(x.link)
    ensures x.consumer.received == AcceptedBeforeClose(x)
    ensures if Close in x.link.log then x.link.reader.Stopped? else x.link.reader.Parked? && x.link.queue == []
  {
    hide CellOk, SentOk, Consumer.Inv, Encodes, AcceptedBeforeClose;
    assert Link.Framed(x.link) by { Link.InvFramed(x.link); }
    Link.QuietMeansDrained(x.link);
    ReceivedPrefix(cfg, x);
  }

  lemma ReadEntrySame(cfg: Config, x: Entry)
    ensures var y := ReadEntry(cfg.env, x);
            && y.link == Link.ReadStep(x.link) && y.link.log == x.link.log && y.sent == x.sent
            && y.link.linked == x.link.linked && y.link.notifying == x.link.notifying
            && AcceptedBeforeClose(y) == AcceptedBeforeClose(x)
  {
    hide Consumer.Receive, BeforeClose;
    Link.SameLog(x.link);
    hide Link.ReadStep;
  }

  // ----- Runs, step by step -----

  /** The state a run has reached after its first `n` actions. */
  ghost function At(cfg: Config, actions: seq<Action>, n: nat): State
    requires n <= |actions|
  {
    Run(cfg, Init(), actions[..n])
  }

  lemma AtNext(cfg: Config, actions: seq<Action>, n: nat)
    requires Lz4Inverts(cfg.env) && n < |actions|
    ensures At(cfg, actions, n + 1) == Next(cfg, At(cfg, actions, n), actions[n])
    ensures Inv(cfg, At(cfg, actions, n))
  {
    hide Next, Inv;
    assert actions[..n + 1][..n] == actions[..n];
    RunKeepsInv(cfg, actions[..n]);
  }

  lemma AtPrefix(cfg: Config, actions: seq<Action>, m: nat, n: nat)
    requires n <= m <= |actions|
    ensures At(cfg, actions[..m], n) == At(cfg, actions, n)
  {
    hide Run;
    assert actions[..m][..n] == actions[..n];
  }

  // ----- Wakeups and readers -----

  /** No lost wakeup: when a reader is past its last empty pop and its ring holds any byte, its counter is
      positive or some task is between its ring write and its notify on that very connection. */
  lemma NoLostWakeup(cfg: Config, actions: seq<Action>, e: EntryId)
    requires Lz4Inverts(cfg.env) && e < |Run(cfg, Init(), actions).sh.entries|
    ensures var s := Run(cfg, Init(), actions);
            var link := s.sh.entries[e].link;
            (link.reader.CheckClosed? || link.reader.Parked?) && !link.closed && link.queue != [] ==>
              link.counter > 0 || exists t | t in s.tasks :: Notifying(s.tasks[t].pc) == Some(e)
  {
    var s := Run(cfg, Init(), actions);
    hide Run;
    RunKeepsInv(cfg, actions);
    var link := s.sh.entries[e].link;
    assert Link.Wakeful(link) by { EntryLink(cfg, s.sh.entries[e]); }
    hide EntryInv;
    if link.notifying != {} {
      var t :| t in link.notifying;
      NotifierKnown(cfg, s, t, e);
    }
  }

  lemma EntryLink(cfg: Config, x: Entry)
    requires EntryInv(cfg, x)
    ensures Link.Wakeful(x.link) && Link.StopsForCause(x.link) && Link.Fifo(x.link)
    ensures Close in x.link.log ==> x.closeCalled
  {
    hide CellOk, SentOk, Consumer.Inv, Encodes;
    Link.InvFramed(x.link);
    Link.FramedIsFifo(x.link);
    hide Link.Framed, Flatten;
  }

  lemma NotifierKnown(cfg: Config, s: State, t: TaskId, e: EntryId)
    requires Inv(cfg, s) && e < |s.sh.entries| && t in s.sh.entries[e].link.notifying
    ensures t in s.tasks && Notifying(s.tasks[t].pc) == Some(e)
  {
    hide EntryInv, PcOk, IdOk, FrameOk, SentBelow;
    assert Local(cfg, s, t);
  }

  /** A reader runs as long as its connection is installed and nobody has closed its sink; whatever the
      ring's capacity, it marks itself closed only after a close call. */
  lemma ReaderOutlivesConnection(cfg: Config, actions: seq<Action>, e: EntryId)
    requires Lz4Inverts(cfg.env) && e < |Run(cfg, Init(), actions).sh.entries|
    ensures var s := Run(cfg, Init(), actions);
            var x := s.sh.entries[e];
            && (x.link.closed ==> x.closeCalled)
            && (x.link.reader.Stopped? ==> x.closeCalled || Unreferenced(s, e))
            && (Some(e) in s.sh.cells ==> x.link.linked)
  {
    var s := Run(cfg, Init(), actions);
    hide Run, Local;
    RunKeepsInv(cfg, actions);
    EntryLink(cfg, s.sh.entries[e]);
    hide EntryInv;
  }

  // ----- The table -----

  /** Installed connections sit at their own slot index, under distinct ids drawn from the counter. */
  lemma InstalledIdsDistinct(cfg: Config, actions: seq<Action>)
    requires Lz4Inverts(cfg.env)
    ensures var sh := Run(cfg, Init(), actions).sh;
            && Wf(sh)
            && (forall i | 0 <= i < SLOTS && sh.cells[i].Some? ::
                  sh.entries[sh.cells[i].value].slot == i && sh.entries[sh.cells[i].value].connId < sh.nextId)
            && (forall i, j | 0 <= i < j < SLOTS && sh.cells[i].Some? && sh.cells[j].Some? ::
                  sh.entries[sh.cells[i].value].connId != sh.entries[sh.cells[j].value].connId)
  {
    var sh := Run(cfg, Init(), actions).sh;
    hide Run, Local, Linked, EntryInv;
    RunKeepsInv(cfg, actions);
    forall i, j | 0 <= i < j < SLOTS && sh.cells[i].Some? && sh.cells[j].Some?
      ensures sh.entries[sh.cells[i].value].connId != sh.entries[sh.cells[j].value].connId
    {
      if sh.entries[sh.cells[i].value].connId == sh.entries[sh.cells[j].value].connId {
        SameId(cfg, sh, sh.cells[i].value, sh.cells[j].value);
      }
    }
  }

  /** Each connection id, and so each connection, is installed at most once in a whole run. */
  lemma InstalledOnce(cfg: Config, actions: seq<Action>, j: nat, k: nat)
    requires Lz4Inverts(cfg.env) && j < k < |Run(cfg, Init(), actions).sh.installs|
    ensures var sh := Run(cfg, Init(), actions).sh;
            && sh.installs[j] < |sh.entries| && sh.installs[k] < |sh.entries|
            && sh.entries[sh.installs[j]].connId != sh.entries[sh.installs[k]].connId
  {
    hide Run, Local, Linked, EntryInv;
    RunKeepsInv(cfg, actions);
  }

  /** A cell is filled only by its task's install of a connection that was never installed before. */
  lemma TaskStepFills(cfg: Config, sh: Shared, t: TaskId, task: Task, inp: Input, i: nat)
    requires Wf(sh) && Shape(sh, task) && i < SLOTS
    ensures var sh' := TaskStep(cfg, sh, t, task, inp).0;
            && |sh'.cells| == SLOTS
            && (sh'.cells[i] != sh.cells[i] ==>
                  || (sh'.cells[i] == None && task.pc.EvictCas? && task.pc.i == i && sh.cells[i] == Some(task.pc.e))
                  || (sh.cells[i] == None && task.pc.InstallCas? && task.pc.i == i && sh'.cells[i] == Some(task.pc.e)))
  {
    hide WithRequest, FromRequest, Link.Next, Matches, Codec.EncodeUpdate, PushFrame;
  }

  /** Gone: it was installed and is no longer in the table. */
  ghost predicate Gone(cfg: Config, s: State, e: EntryId)
    requires SharedInv(cfg, s.sh)
  {
    e < |s.sh.entries| && Ever(s.sh, e) && !InTable(s.sh, e)
  }

  lemma NextEvolves(cfg: Config, s: State, a: Action) returns (t: TaskId)
    requires Lz4Inverts(cfg.env) && Inv(cfg, s)
    ensures SharedInv(cfg, Next(cfg, s, a).sh) && Evolves(t, s.sh, Next(cfg, s, a).sh)
  {
    hide EntryInv, TaskOk, Linked, TaskStep, ReadEntry, Link.Next, Consumer.UserPop, EntryEvolves, Untouched;
    NextKeepsInv(cfg, s, a);
    t := if a.Step? then a.t else 0;
    if a.Step? && t in s.tasks && Wf(s.sh) && Shape(s.sh, s.tasks[t]) {
      assert Local(cfg, s, t);
      TaskStepGood(cfg, s.sh, t, s.tasks[t], a.input);
    } else if (a.ReadRing? || a.UserPop? || a.DropRing?) && Next(cfg, s, a) != s {
      OutsideSetsEntry(cfg, s, a);
    } else {
      NothingOk(cfg, s.sh, t);
    }
  }

  lemma OutsideSetsEntry(cfg: Config, s: State, a: Action)
    requires Lz4Inverts(cfg.env) && Inv(cfg, s) && Inv(cfg, Next(cfg, s, a))
    requires (a.ReadRing? || a.UserPop? || a.DropRing?) && Next(cfg, s, a) != s
    ensures Evolves(0, s.sh, Next(cfg, s, a).sh)
  {
    hide EntryInv, Local, Linked, TaskStep, Link.Next, Consumer.UserPop, ReadEntry, EntryEvolves;
    var x := s.sh.entries[a.e];
    var y := Next(cfg, s, a).sh.entries[a.e];
    InvEntry(cfg, Next(cfg, s, a), a.e);
    if a.ReadRing? {
      ReadEntryOk(cfg, x);
    } else if a.DropRing? {
      UnlinkEntry(cfg, x);
    }
    OutsideEvolves(0, x, y);
    SetEntryOk(cfg, s.sh, 0, a.e, y);
  }

  /** No step changes which connection a token stands for, or brings back one that is gone. */
  lemma NextKeepsConnection(cfg: Config, s: State, a: Action, e: EntryId)
    requires Lz4Inverts(cfg.env) && Inv(cfg, s) && e < |s.sh.entries| && Ever(s.sh, e)
    ensures var s' := Next(cfg, s, a);
            && Inv(cfg, s') && e < |s'.sh.entries| && Ever(s'.sh, e)
            && Token(s'.sh.entries[e]) == Token(s.sh.entries[e])
            && (Gone(cfg, s, e) ==> Gone(cfg, s', e))
  {
    hide EntryInv, TaskOk, Linked, Untouched, Next;
    var s' := Next(cfg, s, a);
    NextKeepsInv(cfg, s, a);
    var t := NextEvolves(cfg, s, a);
    assert EntryEvolves(t, s.sh.entries[e], s'.sh.entries[e]);
    EverStable(s.sh, s'.sh, e);
    if Gone(cfg, s, e) && InTable(s'.sh, e) {
      GoneNotRefilled(cfg, s, a, e);
    }
  }

  lemma GoneNotRefilled(cfg: Config, s: State, a: Action, e: EntryId)
    requires Inv(cfg, s) && Gone(cfg, s, e)
    ensures var i := s.sh.entries[e].slot; i < |Next(cfg, s, a).sh.cells| && Next(cfg, s, a).sh.cells[i] != Some(e)
  {
    hide EntryInv, Linked, TaskStep, ReadEntry, Link.Next, Consumer.UserPop, FrameOk, SentBelow, NotifyOk;
    var i := s.sh.entries[e].slot;
    if a.Step? && a.t in s.tasks && Shape(s.sh, s.tasks[a.t]) {
      var task := s.tasks[a.t];
      assert Local(cfg, s, a.t);
      TaskStepFills(cfg, s.sh, a.t, task, a.input, i);
      if task.pc.InstallCas? && task.pc.e == e {
        InstallIsFirst(cfg, s.sh, a.t, task);
      }
    }
  }

  lemma InstallIsFirst(cfg: Config, sh: Shared, t: TaskId, task: Task)
    requires SharedInv(cfg, sh) && TaskOk(cfg, sh, t, task) && task.pc.InstallCas?
    ensures !Ever(sh, task.pc.e)
  {
    hide EntryInv, FrameOk, SentBelow, NotifyOk, FilterAfter;
  }

  lemma {:induction false} RunKeepsConnection(cfg: Config, s: State, more: seq<Action>, e: EntryId)
    requires Lz4Inverts(cfg.env) && Inv(cfg, s) && e < |s.sh.entries| && Ever(s.sh, e)
    ensures var s' := Run(cfg, s, more);
            && Inv(cfg, s') && e < |s'.sh.entries| && Ever(s'.sh, e)
            && Token(s'.sh.entries[e]) == Token(s.sh.entries[e])
            && (Gone(cfg, s, e) ==> Gone(cfg, s', e))
  {
    hide EntryInv, Next, Gone, Local, Linked;
    if more != [] {
      var n := |more| - 1;
      RunKeepsConnection(cfg, s, more[..n], e);
      NextKeepsConnection(cfg, Run(cfg, s, more[..n]), more[n], e);
    }
  }

  /** Token safety over whole runs: whatever happens later, under every interleaving, a connection's token
      resolves to that connection or to nothing, and once the connection has left the table, to nothing. */
  lemma TokenSafety(cfg: Config, actions: seq<Action>, more: seq<Action>, e: EntryId)
    requires Lz4Inverts(cfg.env)
    requires e in Run(cfg, Init(), actions).sh.installs
    ensures var s := Run(cfg, Init(), actions);
            var s' := Run(cfg, s, more);
            && Wf(s.sh) && Wf(s'.sh) && e < |s.sh.entries|
            && (var found := Resolve(s'.sh, Token(s.sh.entries[e])); found == None || found == Some(e))
            && (Some(e) !in s.sh.cells ==> Resolve(s'.sh, Token(s.sh.entries[e])) == None)
  {
    var s := Run(cfg, Init(), actions);
    var s' := Run(cfg, s, more);
    hide Run, Local, Linked, EntryInv;
    RunKeepsInv(cfg, actions);
    RunKeepsConnection(cfg, s, more, e);
    var found := Resolve(s'.sh, Token(s.sh.entries[e]));
    if found.Some? {
      SameId(cfg, s'.sh, found.value, e);
    }
  }

  /** Lock-free install: a task whose install finds its slot taken can name another task's install into that
      slot, made after the point where it saw the slot empty. */
  lemma RetryMeansProgress(cfg: Config, actions: seq<Action>, t: TaskId)
    requires Lz4Inverts(cfg.env)
    requires var s := Run(cfg, Init(), actions);
             && t in s.tasks && s.tasks[t].pc.InstallCas?
             && s.tasks[t].pc.i < |s.sh.cells| && s.sh.cells[s.tasks[t].pc.i].Some?
    ensures var s := Run(cfg, Init(), actions);
            var InstallCas(i, _, since) := s.tasks[t].pc;
            exists k | since <= k < |s.sh.installs| ::
              && s.sh.installs[k] < |s.sh.entries|
              && s.sh.entries[s.sh.installs[k]].slot == i
              && s.sh.entries[s.sh.installs[k]].connId in s.sh.takers
              && s.sh.takers[s.sh.entries[s.sh.installs[k]].connId] != t
  {
    var s := Run(cfg, Init(), actions);
    hide Run, Linked, EntryInv, IdOk, FrameOk, SentBelow, NotifyOk;
    RunKeepsInv(cfg, actions);
    assert Local(cfg, s, t);
    var InstallCas(i, _, since) := s.tasks[t].pc;
    assert InstalledSince(s.sh, t, i, since);
  }

  /** Across all interleavings, one dispatch pushes at most once to any connection. */
  lemma PushedAtMostOnce(cfg: Config, actions: seq<Action>, e: EntryId, j: nat, k: nat)
    requires Lz4Inverts(cfg.env) && e < |Run(cfg, Init(), actions).sh.entries|
    requires j < k < |Run(cfg, Init(), actions).sh.entries[e].sent|
    ensures var x := Run(cfg, Init(), actions).sh.entries[e]; x.sent[j].task != x.sent[k].task
  {
    var s := Run(cfg, Init(), actions);
    hide Run;
    RunKeepsInv(cfg, actions);
    InvEntry(cfg, s, e);
    hide Inv, CellOk, SentOk, Consumer.Inv, Link.Inv, Encodes;
  }

  lemma TaskShape(cfg: Config, s: State, t: TaskId)
    requires Inv(cfg, s) && t in s.tasks
    ensures Wf(s.sh) && Shape(s.sh, s.tasks[t])
  {
    hide EntryInv, PcOk, IdOk, FrameOk, NotifyOk, SentBelow;
    assert Local(cfg, s, t);
  }

  lemma TaskStepOp(cfg: Config, sh: Shared, t: TaskId, task: Task, inp: Input)
    requires Wf(sh) && Shape(sh, task)
    ensures TaskStep(cfg, sh, t, task, inp).1.op == task.op
  {
    hide Link.Next;
  }

  lemma DoneOk(cfg: Config, s: State, t: TaskId)
    requires Inv(cfg, s) && t in s.tasks && s.tasks[t].pc.Done?
    ensures OutcomeOk(s.sh, s.tasks[t].op, s.tasks[t].pc.outcome)
    ensures s.tasks[t].pc.outcome.Created? ==> Drew(s.sh, t, s.tasks[t].pc.outcome.token.generation)
  {
    hide EntryInv, Linked, IdOk, FrameOk, NotifyOk, SentBelow;
    assert Local(cfg, s, t);
  }

  // ----- Lookups that miss -----

  predicate EvictsLookedUp(pc: Pc) {
    (pc.CloseRing? && pc.k.LookupMiss?) || (pc.CloseNotify? && pc.k.LookupMiss?) || (pc.EvictCas? && pc.k.LookupMiss?)
  }

  /** The task's lookup came to nothing. */
  predicate Missed(pc: Pc) {
    pc.TakeId? || IdPc(pc) || (pc.Done? && !pc.outcome.Existing? && !pc.outcome.PingTouched?)
  }

  /** The task looks for connection `e` by its token; if the lookup came to nothing, the connection is gone. */
  ghost predicate Sought(cfg: Config, s: State, t: TaskId, e: EntryId)
    requires SharedInv(cfg, s.sh)
  {
    && t in s.tasks && e < |s.sh.entries| && Ever(s.sh, e)
    && TokenOf(s.tasks[t].op) == Some(Token(s.sh.entries[e]))
    && (EvictsLookedUp(s.tasks[t].pc) ==> s.tasks[t].pc.e == e)
    && (Missed(s.tasks[t].pc) ==> Gone(cfg, s, e))
  }

  lemma LookupMoves(cfg: Config, sh: Shared, t: TaskId, task: Task, inp: Input, e: EntryId)
    requires SharedInv(cfg, sh) && TaskOk(cfg, sh, t, task) && e < |sh.entries| && Ever(sh, e)
    requires TokenOf(task.op) == Some(Token(sh.entries[e]))
    requires EvictsLookedUp(task.pc) ==> task.pc.e == e
    ensures var (sh', task') := TaskStep(cfg, sh, t, task, inp);
            && task'.op == task.op
            && (EvictsLookedUp(task'.pc) ==> task'.pc.e == e)
            && (Missed(task'.pc) ==>
                  Missed(task.pc) || (|sh'.cells| == SLOTS && sh'.cells[sh.entries[e].slot] != Some(e)))
  {
    hide WithRequest, FromRequest, Link.Next, Matches, Codec.EncodeUpdate, PushFrame;
    hide EntryInv, CellOk, Reserved, IdOk, FrameOk, NotifyOk, SentBelow;
    if task.pc.LookupStale? {
      SameId(cfg, sh, task.pc.e, e);
    }
  }

  lemma NextSought(cfg: Config, s: State, a: Action, t: TaskId, e: EntryId)
    requires Lz4Inverts(cfg.env) && Inv(cfg, s) && Sought(cfg, s, t, e)
    ensures var s' := Next(cfg, s, a);
            Inv(cfg, s') && Sought(cfg, s', t, e) && s'.tasks[t].op == s.tasks[t].op
  {
    hide EntryInv, TaskOk, Linked, TaskStep, ReadEntry, Link.Next, Consumer.UserPop;
    NextKeepsConnection(cfg, s, a, e);
    if a.Step? && a.t == t && Shape(s.sh, s.tasks[t]) {
      assert Local(cfg, s, t);
      LookupMoves(cfg, s.sh, t, s.tasks[t], a.input, e);
    }
  }
}
