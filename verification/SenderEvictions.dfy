/** Why connections go: in every run, a connection is closed and leaves the table if and only if some task found it
    silent for more than thirty seconds, or found no room in its ring for a frame. */
module SenderEvictions {
  import opened Types
  import opened Framing
  import Codec
  import Consumer
  import Link
  import opened Filter
  import opened Sender
  import opened SenderInv
  import opened SenderEntries
  import opened SenderSteps
  import opened SenderTheorems

  // ----- Causes -----

  /** The task is about to compare the connection's last-seen time with its clock. */
  predicate Checks(pc: Pc, e: EntryId) {
    (pc.LookupStale? && pc.e == e) || (pc.FreeStale? && pc.e == e) || (pc.DispStale? && pc.e == e)
  }

  predicate Closing(pc: Pc) {
    pc.CloseRing? || pc.CloseNotify? || pc.EvictCas?
  }

  /** With this step the task finds the connection silent for more than thirty seconds. */
  ghost predicate FindsSilent(s: State, a: Action, t: TaskId, e: EntryId) {
    && a.Step? && a.t == t && t in s.tasks && Checks(s.tasks[t].pc, e) && e < |s.sh.entries|
    && a.input.now > s.sh.entries[e].lastSeen + 30_000
  }

  /** With this step the task finds no room for its frame in the connection's ring. */
  ghost predicate FindsFull(s: State, a: Action, t: TaskId, e: EntryId) {
    && a.Step? && a.t == t && t in s.tasks && s.tasks[t].pc.DispPush? && s.tasks[t].pc.e == e && e < |s.sh.entries|
    && s.tasks[t].frame.Some?
    && var link := s.sh.entries[e].link; |link.queue| + 4 + |s.tasks[t].frame.value.1| > link.capacity
  }

  ghost predicate Finds(s: State, a: Action, t: TaskId, e: EntryId) {
    FindsSilent(s, a, t, e) || FindsFull(s, a, t, e)
  }

  lemma TaskStepCloses(cfg: Config, sh: Shared, t: TaskId, task: Task, inp: Input)
    requires Wf(sh) && Shape(sh, task)
    ensures var (sh', task') := TaskStep(cfg, sh, t, task, inp);
            && (Closing(task'.pc) ==>
                  || (Closing(task.pc) && task.pc.e == task'.pc.e)
                  || (Checks(task.pc, task'.pc.e) && task'.pc.e < |sh.entries|
                      && inp.now > sh.entries[task'.pc.e].lastSeen + 30_000)
                  || (task.pc.CleanLoad? && task'.pc.e < |sh.entries|
                      && sh.cells[sh.entries[task.pc.e].slot] == Some(task'.pc.e)
                      && sh.entries[task'.pc.e].connId == sh.entries[task.pc.e].connId))
            && (task'.pc.CleanLoad? ==>
                  && task.pc.DispPush? && task.pc.e == task'.pc.e && task.frame.Some?
                  && var link := sh.entries[task.pc.e].link;
                     PushFrame(link.queue, link.capacity, task.frame.value.1).Err?)
            && |sh.entries| <= |sh'.entries|
            && (forall e | 0 <= e < |sh.entries| && sh'.entries[e].closeCalled ::
                  sh.entries[e].closeCalled || (Closing(task.pc) && task.pc.e == e))
            && (forall e | |sh.entries| <= e < |sh'.entries| :: !sh'.entries[e].closeCalled)
  {
    hide WithRequest, FromRequest, Link.Next, Matches, Codec.EncodeUpdate, PushFrame;
  }

  /** At some step of the run the task found the connection silent or full. */
  ghost predicate Caused(cfg: Config, actions: seq<Action>, t: TaskId, e: EntryId) {
    exists m | 0 <= m < |actions| :: Finds(At(cfg, actions, m), actions[m], t, e)
  }

  lemma CausedLater(cfg: Config, actions: seq<Action>, n: nat, t: TaskId, e: EntryId)
    requires n <= |actions| && Caused(cfg, actions[..n], t, e)
    ensures Caused(cfg, actions, t, e)
  {
    hide Run, Finds;
    var m :| 0 <= m < n && Finds(At(cfg, actions[..n], m), actions[..n][m], t, e);
    AtPrefix(cfg, actions, n, m);
    assert Finds(At(cfg, actions, m), actions[m], t, e);
  }

  lemma CausedNow(cfg: Config, actions: seq<Action>, n: nat, t: TaskId, e: EntryId)
    requires n < |actions| && Finds(At(cfg, actions, n), actions[n], t, e)
    ensures Caused(cfg, actions, t, e)
  {
  }

  /** A refused push is refused for want of room: what a task pushes always has a length prefix. */
  lemma RefusedIsFull(cfg: Config, s: State, t: TaskId, inp: Input)
    requires Lz4Inverts(cfg.env) && Inv(cfg, s) && t in s.tasks && s.tasks[t].pc.DispPush?
    requires s.tasks[t].pc.e < |s.sh.entries| && s.tasks[t].frame.Some?
    ensures var link := s.sh.entries[s.tasks[t].pc.e].link;
            PushFrame(link.queue, link.capacity, s.tasks[t].frame.value.1).Err? <==>
            FindsFull(s, Step(t, inp), t, s.tasks[t].pc.e)
  {
    var task := s.tasks[t];
    var link := s.sh.entries[task.pc.e].link;
    assert FrameOk(cfg.env, task) by { TaskFrame(cfg, s, t); }
    hide Inv;
    EncodedIsShort(cfg.env, task.frame.value.1, Stamped(task.op.update, task.frame.value.0));
    PushOutcome(link.queue, link.capacity, task.frame.value.1);
    hide PushFrame;
  }

  lemma TaskFrame(cfg: Config, s: State, t: TaskId)
    requires Inv(cfg, s) && t in s.tasks
    ensures FrameOk(cfg.env, s.tasks[t])
  {
    hide EntryInv, PcOk, IdOk, FrameOk, NotifyOk, SentBelow, Linked;
    assert Local(cfg, s, t);
  }

  lemma CleanLoadIsInstalled(cfg: Config, s: State, t: TaskId)
    requires Inv(cfg, s) && t in s.tasks && s.tasks[t].pc.CleanLoad?
    ensures s.tasks[t].pc.e < |s.sh.entries| && Ever(s.sh, s.tasks[t].pc.e)
  {
    hide EntryInv, IdOk, FrameOk, NotifyOk, SentBelow, Linked;
    assert Local(cfg, s, t);
  }

  /** The one connection with a given id that a cell can hold is the one the task means. */
  lemma SameOccupant(cfg: Config, s: State, t: TaskId, d: EntryId)
    requires Inv(cfg, s) && t in s.tasks && s.tasks[t].pc.CleanLoad? && d < |s.sh.entries|
    requires s.tasks[t].pc.e < |s.sh.entries| && s.sh.entries[s.tasks[t].pc.e].slot < |s.sh.cells|
    requires s.sh.cells[s.sh.entries[s.tasks[t].pc.e].slot] == Some(d)
    requires s.sh.entries[d].connId == s.sh.entries[s.tasks[t].pc.e].connId
    ensures d == s.tasks[t].pc.e
  {
    CleanLoadIsInstalled(cfg, s, t);
    hide EntryInv, Local, Linked;
    SameId(cfg, s.sh, d, s.tasks[t].pc.e);
  }

  /** Whoever is closing a connection has its cause. */
  ghost predicate Explained(cfg: Config, actions: seq<Action>, t: TaskId) {
    var s := Run(cfg, Init(), actions);
    t in s.tasks && (Closing(s.tasks[t].pc) || s.tasks[t].pc.CleanLoad?) ==> Caused(cfg, actions, t, s.tasks[t].pc.e)
  }

  lemma OwnStepExplained(cfg: Config, actions: seq<Action>, n: nat, t: TaskId)
    requires Lz4Inverts(cfg.env) && n + 1 == |actions| && actions[n].Step? && actions[n].t == t
    requires Explained(cfg, actions[..n], t) && t in At(cfg, actions, n).tasks
    ensures Explained(cfg, actions, t)
  {
    hide Run, Next, Inv, Finds, Caused;
    AtNext(cfg, actions, n);
    assert actions[..n + 1] == actions;
    var s, s' := At(cfg, actions, n), At(cfg, actions, n + 1);
    var task, inp := s.tasks[t], actions[n].input;
    TaskShape(cfg, s, t);
    StepOf(cfg, s, t, inp);
    TaskStepCloses(cfg, s.sh, t, task, inp);
    var pc := s'.tasks[t].pc;
    if Closing(pc) && Checks(task.pc, pc.e) && inp.now > s.sh.entries[pc.e].lastSeen + 30_000 {
      assert Finds(s, actions[n], t, pc.e) by { SilentFound(s, actions[n], t, pc.e); }
      CausedNow(cfg, actions, n, t, pc.e);
    } else if Closing(pc) {
      if task.pc.CleanLoad? {
        SameOccupant(cfg, s, t, pc.e);
      }
      CausedLater(cfg, actions, n, t, pc.e);
    } else if pc.CleanLoad? {
      RefusedIsFull(cfg, s, t, inp);
      assert Finds(s, actions[n], t, pc.e) by { FullFound(s, actions[n], t, pc.e); }
      CausedNow(cfg, actions, n, t, pc.e);
    }
  }

  lemma StepOf(cfg: Config, s: State, t: TaskId, inp: Input)
    requires t in s.tasks && Wf(s.sh) && Shape(s.sh, s.tasks[t])
    ensures var (sh', task') := TaskStep(cfg, s.sh, t, s.tasks[t], inp);
            Next(cfg, s, Step(t, inp)) == State(sh', s.tasks[t := task'])
  {
    hide TaskStep;
  }

  lemma SilentFound(s: State, a: Action, t: TaskId, e: EntryId)
    requires FindsSilent(s, a, t, e)
    ensures Finds(s, a, t, e)
  {
  }

  lemma FullFound(s: State, a: Action, t: TaskId, e: EntryId)
    requires FindsFull(s, a, t, e)
    ensures Finds(s, a, t, e)
  {
  }

  lemma {:induction false} AllExplained(cfg: Config, actions: seq<Action>, t: TaskId)
    requires Lz4Inverts(cfg.env)
    ensures Explained(cfg, actions, t)
  {
    hide Next, Caused;
    if actions != [] {
      var n := |actions| - 1;
      AllExplained(cfg, actions[..n], t);
      if actions[n].Step? && actions[n].t == t && t in At(cfg, actions, n).tasks {
        OwnStepExplained(cfg, actions, n, t);
      } else {
        OtherTask(cfg, At(cfg, actions, n), actions[n], t);
        var s' := Run(cfg, Init(), actions);
        if t in s'.tasks && (Closing(s'.tasks[t].pc) || s'.tasks[t].pc.CleanLoad?) {
          CausedLater(cfg, actions, n, t, s'.tasks[t].pc.e);
        }
      }
    }
  }

  /** A step of somebody else leaves a task where it is; a new one has not got far. */
  lemma OtherTask(cfg: Config, s: State, a: Action, t: TaskId)
    requires !(a.Step? && a.t == t && t in s.tasks)
    ensures var s' := Next(cfg, s, a);
            && (t in s.tasks ==> t in s'.tasks && s'.tasks[t] == s.tasks[t])
            && (t in s'.tasks && t !in s.tasks ==>
                  && !Closing(s'.tasks[t].pc) && !s'.tasks[t].pc.CleanLoad? && !s'.tasks[t].pc.Done?)
  {
    hide TaskStep, Link.Next, Consumer.UserPop, Consumer.Receive;
  }

  /** Only a task that is closing a connection marks it closed. */
  lemma NextCloses(cfg: Config, s: State, a: Action, s': State, e: EntryId)
    requires Inv(cfg, s) && s' == Next(cfg, s, a) && e < |s'.sh.entries| && s'.sh.entries[e].closeCalled
    ensures || (e < |s.sh.entries| && s.sh.entries[e].closeCalled)
            || (a.Step? && a.t in s.tasks && Closing(s.tasks[a.t].pc) && s.tasks[a.t].pc.e == e)
  {
    hide Inv, TaskStep, Link.Next, Consumer.UserPop, Consumer.Receive;
    if a.Step? && a.t in s.tasks {
      TaskShape(cfg, s, a.t);
      TaskStepCloses(cfg, s.sh, a.t, s.tasks[a.t], a.input);
    }
  }

  lemma {:induction false} ClosedIsCaused(cfg: Config, actions: seq<Action>, e: EntryId) returns (t: TaskId)
    requires Lz4Inverts(cfg.env)
    requires var s := Run(cfg, Init(), actions); e < |s.sh.entries| && s.sh.entries[e].closeCalled
    ensures Caused(cfg, actions, t, e)
  {
    hide Next, Inv, Caused;
    var n := |actions| - 1;
    var s := At(cfg, actions, n);
    AtNext(cfg, actions, n);
    assert actions[..n + 1] == actions;
    NextCloses(cfg, s, actions[n], Run(cfg, Init(), actions), e);
    if e < |s.sh.entries| && s.sh.entries[e].closeCalled {
      t := ClosedIsCaused(cfg, actions[..n], e);
    } else {
      t := actions[n].t;
      AllExplained(cfg, actions[..n], t);
    }
    CausedLater(cfg, actions, n, t, e);
  }

  /** No eviction without cause: in every run, a connection that was closed, or that was installed and has left the
      table, was found silent for more than thirty seconds or without room by some task; and so was, by that very
      task, any connection a task is closing. */
  lemma EvictionHasCause(cfg: Config, actions: seq<Action>, e: EntryId)
    requires Lz4Inverts(cfg.env) && e < |Run(cfg, Init(), actions).sh.entries|
    ensures var s := Run(cfg, Init(), actions);
            && (s.sh.entries[e].closeCalled || (e in s.sh.installs && Some(e) !in s.sh.cells) ==>
                  exists t :: Caused(cfg, actions, t, e))
            && (forall t | t in s.tasks && s.tasks[t].pc.CloseRing? && s.tasks[t].pc.e == e ::
                  Caused(cfg, actions, t, e))
  {
    hide Run, Next, Caused, Local, Linked, EntryInv;
    var s := Run(cfg, Init(), actions);
    RunKeepsInv(cfg, actions);
    if s.sh.entries[e].closeCalled || (e in s.sh.installs && Some(e) !in s.sh.cells) {
      var t := ClosedIsCaused(cfg, actions, e);
    }
    forall t | t in s.tasks && s.tasks[t].pc.CloseRing? && s.tasks[t].pc.e == e
      ensures Caused(cfg, actions, t, e)
    {
      AllExplained(cfg, actions, t);
    }
  }

  // ----- Consequences -----

  /** The task is on its way to taking the connection out of the table, or it is out. */
  ghost predicate Doomed(cfg: Config, s: State, t: TaskId, e: EntryId)
    requires SharedInv(cfg, s.sh)
  {
    && e < |s.sh.entries| && Ever(s.sh, e)
    && (|| Gone(cfg, s, e)
        || (t in s.tasks && (Closing(s.tasks[t].pc) || s.tasks[t].pc.CleanLoad?) && s.tasks[t].pc.e == e))
  }

  lemma TaskStepDooms(cfg: Config, sh: Shared, t: TaskId, task: Task, inp: Input, e: EntryId)
    requires SharedInv(cfg, sh) && TaskOk(cfg, sh, t, task) && e < |sh.entries| && Ever(sh, e)
    requires || ((Closing(task.pc) || task.pc.CleanLoad?) && task.pc.e == e)
             || (Checks(task.pc, e) && inp.now > sh.entries[e].lastSeen + 30_000)
             || (task.pc.DispPush? && task.pc.e == e && task.frame.Some?
                 && PushFrame(sh.entries[e].link.queue, sh.entries[e].link.capacity, task.frame.value.1).Err?)
    ensures var (sh', task') := TaskStep(cfg, sh, t, task, inp);
            || ((Closing(task'.pc) || task'.pc.CleanLoad?) && task'.pc.e == e)
            || (|sh'.cells| == SLOTS && sh'.cells[sh.entries[e].slot] != Some(e))
  {
    hide WithRequest, FromRequest, Link.Next, Matches, Codec.EncodeUpdate, PushFrame;
    hide EntryInv, CellOk, Reserved, IdOk, FrameOk, NotifyOk, SentBelow;
    if task.pc.CleanLoad? {
      var current := sh.cells[sh.entries[e].slot];
      if current.Some? && sh.entries[current.value].connId == sh.entries[e].connId {
        SameId(cfg, sh, current.value, e);
      }
    }
  }

  lemma NextDooms(cfg: Config, s: State, a: Action, t: TaskId, e: EntryId)
    requires Lz4Inverts(cfg.env) && Inv(cfg, s) && e < |s.sh.entries| && Ever(s.sh, e)
    requires Doomed(cfg, s, t, e) || Finds(s, a, t, e)
    ensures Inv(cfg, Next(cfg, s, a)) && Doomed(cfg, Next(cfg, s, a), t, e)
  {
    hide EntryInv, TaskOk, Linked, TaskStep, ReadEntry, Link.Next, Consumer.UserPop, PushFrame;
    NextKeepsConnection(cfg, s, a, e);
    if a.Step? && a.t == t && !Gone(cfg, s, e) {
      assert Local(cfg, s, t);
      TaskShape(cfg, s, t);
      if FindsFull(s, a, t, e) {
        RefusedIsFull(cfg, s, t, a.input);
      }
      TaskStepDooms(cfg, s.sh, t, s.tasks[t], a.input, e);
    }
  }

  lemma FoundIsInstalled(cfg: Config, s: State, a: Action, t: TaskId, e: EntryId)
    requires Inv(cfg, s) && Finds(s, a, t, e)
    ensures e < |s.sh.entries| && Ever(s.sh, e)
  {
    hide EntryInv, CellOk, IdOk, FrameOk, NotifyOk, SentBelow, Linked;
    assert Local(cfg, s, t);
  }

  lemma TaskStays(cfg: Config, s: State, a: Action, t: TaskId)
    requires t in s.tasks
    ensures t in Next(cfg, s, a).tasks
  {
    hide TaskStep, Link.Next, Consumer.UserPop, Consumer.Receive;
  }

  lemma {:induction false} DoomedSince(cfg: Config, actions: seq<Action>, m: nat, t: TaskId, e: EntryId)
    requires Lz4Inverts(cfg.env) && m < |actions| && Finds(At(cfg, actions, m), actions[m], t, e)
    ensures Inv(cfg, Run(cfg, Init(), actions)) && Doomed(cfg, Run(cfg, Init(), actions), t, e)
    ensures t in Run(cfg, Init(), actions).tasks
    decreases |actions|
  {
    hide Next, Run, Finds, Doomed, Inv;
    var n := |actions| - 1;
    AtNext(cfg, actions, n);
    assert actions[..n + 1] == actions;
    var s := At(cfg, actions, n);
    if m == n {
      FoundIsInstalled(cfg, s, actions[n], t, e);
      FinderKnown(s, actions[n], t, e);
    } else {
      AtPrefix(cfg, actions, n, m);
      assert actions[..n][m] == actions[m];
      DoomedSince(cfg, actions[..n], m, t, e);
      DoomedIsInstalled(cfg, s, t, e);
    }
    NextDooms(cfg, s, actions[n], t, e);
    TaskStays(cfg, s, actions[n], t);
  }

  lemma FinderKnown(s: State, a: Action, t: TaskId, e: EntryId)
    requires Finds(s, a, t, e)
    ensures t in s.tasks
  {
  }

  lemma DoomedIsInstalled(cfg: Config, s: State, t: TaskId, e: EntryId)
    requires Inv(cfg, s) && Doomed(cfg, s, t, e)
    ensures e < |s.sh.entries| && Ever(s.sh, e)
  {
    hide Inv, SharedInv, Gone;
  }

  /** No cause without eviction: once a task that found a connection silent or full has gone on to its end, the
      connection is closed and out of the table. */
  lemma CauseMeansEviction(cfg: Config, actions: seq<Action>, t: TaskId, e: EntryId)
    requires Lz4Inverts(cfg.env) && Caused(cfg, actions, t, e)
    ensures var s := Run(cfg, Init(), actions);
            && t in s.tasks
            && (s.tasks[t].pc.Done? ==>
                  e in s.sh.installs && e < |s.sh.entries| && Some(e) !in s.sh.cells && s.sh.entries[e].closeCalled)
  {
    hide Run, Finds, Inv, SharedInv, Doomed;
    var s := Run(cfg, Init(), actions);
    var m :| 0 <= m < |actions| && Finds(At(cfg, actions, m), actions[m], t, e);
    DoomedSince(cfg, actions, m, t, e);
    if s.tasks[t].pc.Done? {
      DoomedAtRest(cfg, s, t, e);
    }
  }

  lemma GoneIsOut(cfg: Config, s: State, e: EntryId)
    requires Inv(cfg, s) && Gone(cfg, s, e)
    ensures e in s.sh.installs && e < |s.sh.entries| && Some(e) !in s.sh.cells && s.sh.entries[e].closeCalled
  {
    hide EntryInv, Local, Linked;
    var k :| 0 <= k < |s.sh.installs| && s.sh.installs[k] == e;
  }

  lemma DoomedAtRest(cfg: Config, s: State, t: TaskId, e: EntryId)
    requires Inv(cfg, s) && Doomed(cfg, s, t, e) && t in s.tasks && s.tasks[t].pc.Done?
    ensures e in s.sh.installs && e < |s.sh.entries| && Some(e) !in s.sh.cells && s.sh.entries[e].closeCalled
  {
    hide Inv, SharedInv, Gone;
    GoneIsOut(cfg, s, e);
  }

  /** Exactly the silent and the full go: in every run whose tasks have all ended, an installed connection has left
      the table if and only if some task found it silent for more than thirty seconds or without room. */
  lemma EvictedIff(cfg: Config, actions: seq<Action>, e: EntryId)
    requires Lz4Inverts(cfg.env) && e in Run(cfg, Init(), actions).sh.installs
    requires forall t | t in Run(cfg, Init(), actions).tasks :: Run(cfg, Init(), actions).tasks[t].pc.Done?
    ensures Some(e) !in Run(cfg, Init(), actions).sh.cells <==> exists t :: Caused(cfg, actions, t, e)
  {
    hide Run, Caused;
    if t :| Caused(cfg, actions, t, e) {
      CauseMeansEviction(cfg, actions, t, e);
    }
    InstalledExists(cfg, actions, e);
    EvictionHasCause(cfg, actions, e);
  }

  lemma InstalledExists(cfg: Config, actions: seq<Action>, e: EntryId)
    requires Lz4Inverts(cfg.env) && e in Run(cfg, Init(), actions).sh.installs
    ensures e < |Run(cfg, Init(), actions).sh.entries|
  {
    hide Run, Local, Linked, EntryInv;
    RunKeepsInv(cfg, actions);
  }

  /** Evictions are orderly, ABA-safe and justified: a connection leaves its slot only by the compare-and-swap of a
      task that names this very connection, after its sink was closed, and that found it silent for more than thirty
      seconds or without room; the slot is then empty. A dispatch evicts the connection it found stale or failed to
      push to, whatever occupies the slot since. */
  lemma OrderlyEviction(cfg: Config, actions: seq<Action>, a: Action, i: nat, e: EntryId)
    requires Lz4Inverts(cfg.env) && i < SLOTS
    requires var sh := Run(cfg, Init(), actions).sh; |sh.cells| == SLOTS && sh.cells[i] == Some(e)
    ensures var s := Run(cfg, Init(), actions);
            var s' := Next(cfg, s, a);
            && |s'.sh.cells| == SLOTS
            && (s'.sh.cells[i] != Some(e) ==>
                  && s'.sh.cells[i] == None
                  && e < |s.sh.entries| && s.sh.entries[e].closeCalled
                  && a.Step? && a.t in s.tasks
                  && s.tasks[a.t].pc.EvictCas? && s.tasks[a.t].pc.e == e
                  && (s.tasks[a.t].pc.k.NextSlot? ==> s.tasks[a.t].pc.k.victim == e)
                  && Caused(cfg, actions, a.t, e))
  {
    var s := Run(cfg, Init(), actions);
    hide Run, Caused, Linked, EntryInv, TaskStep, ReadEntry, Link.Next, Consumer.UserPop, IdOk, FrameOk, SentBelow;
    hide NotifyOk;
    RunKeepsInv(cfg, actions);
    if a.Step? && a.t in s.tasks && Shape(s.sh, s.tasks[a.t]) {
      assert Local(cfg, s, a.t);
      TaskStepFills(cfg, s.sh, a.t, s.tasks[a.t], a.input, i);
      AllExplained(cfg, actions, a.t);
    }
  }
}
