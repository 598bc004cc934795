/** When a subscription is refused for want of a slot: its last scan found all ten slots taken. */
module SenderScan {
  import opened Types
  import opened Framing
  import Codec
  import Consumer
  import Link
  import opened Filter
  import opened Sender
  import opened SenderInv
  import opened SenderSteps
  import opened SenderTheorems
  import opened SenderEvictions

  /** With this step the scan looks at slot `j` and finds connection `e` in it. */
  ghost predicate Looks(s: State, a: Action, t: TaskId, j: nat, e: EntryId) {
    && a.Step? && a.t == t && t in s.tasks && s.tasks[t].pc == FreeLoad(j) && j < |s.sh.cells|
    && s.sh.cells[j] == Some(e)
  }

  /** With this step the scan finds that connection seen within thirty seconds, or the slot filled again. */
  ghost predicate Passes(s: State, a: Action, t: TaskId, j: nat, e: EntryId) {
    && a.Step? && a.t == t && t in s.tasks
    && (|| (s.tasks[t].pc == FreeStale(j, e) && e < |s.sh.entries| && a.input.now <= s.sh.entries[e].lastSeen + 30_000)
        || (s.tasks[t].pc == FreeRecheck(j) && j < |s.sh.cells| && s.sh.cells[j].Some?))
  }

  /** From step `from` on, the task looked at slot `j`, found a connection in it, and later passed the slot by. */
  ghost predicate TakenSince(cfg: Config, actions: seq<Action>, from: nat, t: TaskId, j: nat) {
    exists m, n, e | from <= m < n < |actions| ::
      Looks(At(cfg, actions, m), actions[m], t, j, e) && Passes(At(cfg, actions, n), actions[n], t, j, e)
  }

  ghost predicate LookedSince(cfg: Config, actions: seq<Action>, from: nat, t: TaskId, j: nat, e: EntryId) {
    exists m | from <= m < |actions| :: Looks(At(cfg, actions, m), actions[m], t, j, e)
  }

  lemma TakenLater(cfg: Config, actions: seq<Action>, k: nat, from: nat, t: TaskId, j: nat)
    requires k <= |actions| && TakenSince(cfg, actions[..k], from, t, j)
    ensures TakenSince(cfg, actions, from, t, j)
  {
    hide Run, Looks, Passes;
    var m, n, e :| from <= m < n < k && Looks(At(cfg, actions[..k], m), actions[..k][m], t, j, e)
                   && Passes(At(cfg, actions[..k], n), actions[..k][n], t, j, e);
    AtPrefix(cfg, actions, k, m);
    AtPrefix(cfg, actions, k, n);
    assert Looks(At(cfg, actions, m), actions[m], t, j, e) && Passes(At(cfg, actions, n), actions[n], t, j, e);
  }

  lemma LookedLater(cfg: Config, actions: seq<Action>, k: nat, from: nat, t: TaskId, j: nat, e: EntryId)
    requires k <= |actions| && LookedSince(cfg, actions[..k], from, t, j, e)
    ensures LookedSince(cfg, actions, from, t, j, e)
  {
    hide Run, Looks;
    var m :| from <= m < k && Looks(At(cfg, actions[..k], m), actions[..k][m], t, j, e);
    AtPrefix(cfg, actions, k, m);
    assert Looks(At(cfg, actions, m), actions[m], t, j, e);
  }

  lemma TakenNow(cfg: Config, actions: seq<Action>, n: nat, from: nat, t: TaskId, j: nat, e: EntryId)
    requires n + 1 == |actions| && LookedSince(cfg, actions[..n], from, t, j, e)
    requires Passes(At(cfg, actions, n), actions[n], t, j, e)
    ensures TakenSince(cfg, actions, from, t, j)
  {
    hide Run, Looks, Passes;
    var m :| from <= m < n && Looks(At(cfg, actions[..n], m), actions[..n][m], t, j, e);
    AtPrefix(cfg, actions, n, m);
    assert Looks(At(cfg, actions, m), actions[m], t, j, e);
  }

  /** The task is at slot `i` of a scan that began at step `from`. */
  ghost predicate ScannedTo(cfg: Config, actions: seq<Action>, from: nat, t: TaskId, i: nat) {
    && from <= |actions|
    && (var s := At(cfg, actions, from); t in s.tasks && s.tasks[t].pc == FreeLoad(0))
    && forall j | 0 <= j < i :: TakenSince(cfg, actions, from, t, j)
  }

  ghost predicate Rechecks(pc: Pc) {
    pc.FreeRecheck? || (Closing(pc) && pc.k.Recheck?)
  }

  function RecheckSlot(pc: Pc): nat {
    if pc.FreeRecheck? then pc.i else if Closing(pc) && pc.k.Recheck? then pc.k.i else 0
  }

  ghost predicate Scanning(cfg: Config, actions: seq<Action>, from: nat, t: TaskId) {
    var s := Run(cfg, Init(), actions);
    t in s.tasks ==>
      var pc := s.tasks[t].pc;
      && (pc.FreeLoad? ==> ScannedTo(cfg, actions, from, t, pc.i))
      && (pc.FreeStale? ==> ScannedTo(cfg, actions, from, t, pc.i) && LookedSince(cfg, actions, from, t, pc.i, pc.e))
      && (Rechecks(pc) ==>
            ScannedTo(cfg, actions, from, t, RecheckSlot(pc))
            && exists e :: LookedSince(cfg, actions, from, t, RecheckSlot(pc), e))
      && (pc == Done(Exhausted) ==> ScannedTo(cfg, actions, from, t, 10))
  }

  /** How a scan moves on. */
  lemma TaskStepScans(cfg: Config, sh: Shared, t: TaskId, task: Task, inp: Input)
    requires Wf(sh) && Shape(sh, task)
    ensures var pc, pc' := task.pc, TaskStep(cfg, sh, t, task, inp).1.pc;
            && (pc'.FreeLoad? ==>
                  || pc'.i == 0
                  || (pc.FreeStale? && pc'.i == pc.i + 1 && inp.now <= sh.entries[pc.e].lastSeen + 30_000)
                  || (pc.FreeRecheck? && pc'.i == pc.i + 1 && sh.cells[pc.i].Some?))
            && (pc'.FreeStale? ==> pc == FreeLoad(pc'.i) && pc'.i < |sh.cells| && sh.cells[pc'.i] == Some(pc'.e))
            && (Rechecks(pc') ==>
                  || (pc.FreeStale? && RecheckSlot(pc') == pc.i)
                  || (Rechecks(pc) && RecheckSlot(pc') == RecheckSlot(pc)))
            && (pc' == Done(Exhausted) ==> pc == pc' || pc == FreeLoad(10))
  {
    hide WithRequest, FromRequest, Link.Next, Matches, Codec.EncodeUpdate, PushFrame;
  }

  lemma ScannedLater(cfg: Config, actions: seq<Action>, k: nat, from: nat, t: TaskId, i: nat)
    requires k <= |actions| && ScannedTo(cfg, actions[..k], from, t, i)
    ensures ScannedTo(cfg, actions, from, t, i)
  {
    hide Run, TakenSince;
    AtPrefix(cfg, actions, k, from);
    forall j | 0 <= j < i
      ensures TakenSince(cfg, actions, from, t, j)
    {
      TakenLater(cfg, actions, k, from, t, j);
    }
  }

  /** One slot more, once it was passed by. */
  lemma ScannedOneMore(cfg: Config, actions: seq<Action>, n: nat, from: nat, t: TaskId, i: nat, e: EntryId)
    requires n + 1 == |actions| && ScannedTo(cfg, actions[..n], from, t, i)
    requires LookedSince(cfg, actions[..n], from, t, i, e) && Passes(At(cfg, actions, n), actions[n], t, i, e)
    ensures ScannedTo(cfg, actions, from, t, i + 1)
  {
    hide Run, TakenSince, LookedSince, Passes;
    ScannedLater(cfg, actions, n, from, t, i);
    TakenNow(cfg, actions, n, from, t, i, e);
  }

  lemma LooksNow(cfg: Config, actions: seq<Action>, n: nat, from: nat, t: TaskId, j: nat, e: EntryId)
    requires n + 1 == |actions| && from <= n && Looks(At(cfg, actions, n), actions[n], t, j, e)
    ensures LookedSince(cfg, actions, from, t, j, e)
  {
    hide Run, Looks;
  }

  lemma OwnScan(cfg: Config, actions: seq<Action>, n: nat, from: nat, t: TaskId) returns (start: nat)
    requires Lz4Inverts(cfg.env) && n + 1 == |actions| && actions[n].Step? && actions[n].t == t
    requires Scanning(cfg, actions[..n], from, t) && t in At(cfg, actions, n).tasks
    ensures Scanning(cfg, actions, start, t)
  {
    hide Run, Next, Inv, TakenSince, LookedSince, ScannedTo;
    AtNext(cfg, actions, n);
    assert actions[..n + 1] == actions;
    var s, s' := At(cfg, actions, n), At(cfg, actions, n + 1);
    var task, inp := s.tasks[t], actions[n].input;
    TaskShape(cfg, s, t);
    StepOf(cfg, s, t, inp);
    TaskStepScans(cfg, s.sh, t, task, inp);
    var pc, pc' := task.pc, s'.tasks[t].pc;
    start := from;
    if pc'.FreeLoad? && pc'.i == 0 {
      start := |actions|;
      assert ScannedTo(cfg, actions, start, t, 0) by { ScanBegins(cfg, actions, t); }
    } else if pc'.FreeLoad? {
      PassesBy(cfg, actions, n, from, t);
    } else if pc'.FreeStale? {
      ScannedLater(cfg, actions, n, from, t, pc'.i);
      FromIsEarlier(cfg, actions, n, from, t, pc'.i);
      LooksNow(cfg, actions, n, from, t, pc'.i, pc'.e);
    } else if Rechecks(pc') {
      var j := RecheckSlot(pc');
      ScannedLater(cfg, actions, n, from, t, j);
      var e: EntryId;
      if pc.FreeStale? {
        e := pc.e;
      } else {
        e :| LookedSince(cfg, actions[..n], from, t, j, e);
      }
      LookedLater(cfg, actions, n, from, t, j, e);
    } else if pc' == Done(Exhausted) {
      ScannedLater(cfg, actions, n, from, t, 10);
    }
  }

  lemma ScanBegins(cfg: Config, actions: seq<Action>, t: TaskId)
    requires var s := Run(cfg, Init(), actions); t in s.tasks && s.tasks[t].pc == FreeLoad(0)
    ensures ScannedTo(cfg, actions, |actions|, t, 0)
  {
    hide Run;
    assert actions[..|actions|] == actions;
  }

  lemma FromIsEarlier(cfg: Config, actions: seq<Action>, n: nat, from: nat, t: TaskId, i: nat)
    requires n <= |actions| && ScannedTo(cfg, actions[..n], from, t, i)
    ensures from <= n
  {
    hide Run;
  }

  lemma PassesBy(cfg: Config, actions: seq<Action>, n: nat, from: nat, t: TaskId)
    requires Lz4Inverts(cfg.env) && n + 1 == |actions| && actions[n].Step? && actions[n].t == t
    requires Scanning(cfg, actions[..n], from, t) && t in At(cfg, actions, n).tasks
    requires var s := At(cfg, actions, n);
             var pc := s.tasks[t].pc;
             && |s.sh.cells| == SLOTS
             && (|| (pc.FreeStale? && pc.e < |s.sh.entries|
                     && actions[n].input.now <= s.sh.entries[pc.e].lastSeen + 30_000)
                 || (pc.FreeRecheck? && pc.i < SLOTS && s.sh.cells[pc.i].Some?))
    ensures ScannedTo(cfg, actions, from, t, At(cfg, actions, n).tasks[t].pc.i + 1)
  {
    hide Run, TakenSince, LookedSince, ScannedTo;
    var s := At(cfg, actions, n);
    var pc := s.tasks[t].pc;
    if pc.FreeStale? {
      ScannedOneMore(cfg, actions, n, from, t, pc.i, pc.e);
    } else {
      assert Rechecks(pc) && RecheckSlot(pc) == pc.i;
      var e :| LookedSince(cfg, actions[..n], from, t, pc.i, e);
      ScannedOneMore(cfg, actions, n, from, t, pc.i, e);
    }
  }

  lemma {:induction false} ScanOf(cfg: Config, actions: seq<Action>, t: TaskId) returns (from: nat)
    requires Lz4Inverts(cfg.env)
    ensures Scanning(cfg, actions, from, t)
  {
    hide Next, TakenSince, LookedSince, ScannedTo;
    if actions == [] {
      from := 0;
    } else {
      var n := |actions| - 1;
      var earlier := ScanOf(cfg, actions[..n], t);
      if actions[n].Step? && actions[n].t == t && t in At(cfg, actions, n).tasks {
        from := OwnScan(cfg, actions, n, earlier, t);
      } else {
        from := earlier;
        OtherScan(cfg, actions, n, from, t);
      }
    }
  }

  lemma OtherScan(cfg: Config, actions: seq<Action>, n: nat, from: nat, t: TaskId)
    requires Lz4Inverts(cfg.env) && n + 1 == |actions| && Scanning(cfg, actions[..n], from, t)
    requires !(actions[n].Step? && actions[n].t == t && t in At(cfg, actions, n).tasks)
    ensures Scanning(cfg, actions, from, t)
  {
    hide Run, Next, Inv, TakenSince, LookedSince, ScannedTo;
    AtNext(cfg, actions, n);
    assert actions[..n + 1] == actions;
    var s, s' := At(cfg, actions, n), At(cfg, actions, n + 1);
    OtherTask(cfg, s, actions[n], t);
    JustStarted(cfg, s, actions[n], t);
    if t in s.tasks && t in s'.tasks {
      var pc := s.tasks[t].pc;
      if pc.FreeLoad? {
        ScannedLater(cfg, actions, n, from, t, pc.i);
      } else if pc.FreeStale? {
        ScannedLater(cfg, actions, n, from, t, pc.i);
        LookedLater(cfg, actions, n, from, t, pc.i, pc.e);
      } else if Rechecks(pc) {
        ScannedLater(cfg, actions, n, from, t, RecheckSlot(pc));
        var e :| LookedSince(cfg, actions[..n], from, t, RecheckSlot(pc), e);
        LookedLater(cfg, actions, n, from, t, RecheckSlot(pc), e);
      } else if pc == Done(Exhausted) {
        ScannedLater(cfg, actions, n, from, t, 10);
      }
    }
  }

  lemma JustStarted(cfg: Config, s: State, a: Action, t: TaskId)
    ensures var s' := Next(cfg, s, a);
            t in s'.tasks && t !in s.tasks ==> s'.tasks[t].pc == StartPc(s'.tasks[t].op)
  {
    hide TaskStep, Link.Next, Consumer.UserPop, Consumer.Receive;
  }

  /** Exhaustion is real: in every run, a subscription that was refused for want of a slot had, in a scan of its own
      that began at step `from`, looked at each of the ten slots, found a connection in it, and then found that
      connection seen within thirty seconds of its clock, or the slot filled again after a silent one had left. */
  lemma ExhaustedMeansTaken(cfg: Config, actions: seq<Action>, t: TaskId) returns (from: nat)
    requires Lz4Inverts(cfg.env)
    requires var s := Run(cfg, Init(), actions); t in s.tasks && s.tasks[t].pc == Done(Exhausted)
    ensures from <= |actions|
    ensures var s := At(cfg, actions, from); t in s.tasks && s.tasks[t].pc == FreeLoad(0)
    ensures forall j | 0 <= j < 10 :: TakenSince(cfg, actions, from, t, j)
  {
    hide Run, TakenSince;
    from := ScanOf(cfg, actions, t);
  }
}
