/** What each ring, filter and reader step keeps of one connection. */
module SenderEntries {
  import opened Bytes
  import opened Types
  import opened Framing
  import Codec
  import opened Filter
  import Link
  import Consumer
  import opened Sender
  import opened SenderInv

  lemma EncodedIsShort(env: Env, body: Bytes, s: Stamped<Update>)
    requires Lz4Inverts(env) && Encodes(env, body, s)
    ensures |body| < CLOSE_SENTINEL
    ensures Codec.DecodeServerFrame(env, body) == Ok(Codec.UpdateFrame(s))
  {
    hide Codec.EncodeUpdate, Codec.DecodeServerFrame;
    Codec.UpdateRoundTrip(env, s.update, s.stamp);
  }

  /** Closing a sink, whether or not the sentinel fits. */
  lemma CloseEntry(cfg: Config, x: Entry, t: TaskId)
    requires EntryInv(cfg, x) && t !in x.link.notifying
    ensures var y := LinkStep(x, Link.CloseRing(t)).(closeCalled := true);
            EntryInv(cfg, y) && EntryEvolves(t, x, y) && y.link.linked == x.link.linked
            && y.link.notifying == x.link.notifying + {t}
  {
    hide Link.Inv, Link.Next, CellOk, SentOk, Consumer.Inv, Encodes;
    Link.NextKeepsInv(x.link, Link.CloseRing(t));
    Link.CloseEffect(x.link, t);
    BodiesAppend(x.link.log, Close);
  }

  lemma NotifyEntry(cfg: Config, x: Entry, t: TaskId)
    requires EntryInv(cfg, x) && t in x.link.notifying
    ensures var y := LinkStep(x, Link.Notify(t));
            EntryInv(cfg, y) && EntryEvolves(t, x, y) && y.link.linked == x.link.linked
            && y.link.notifying == x.link.notifying - {t}
  {
    hide Link.Inv, Link.Next, CellOk, SentOk, Consumer.Inv, Encodes;
    Link.NextKeepsInv(x.link, Link.Notify(t));
    Link.NotifyEffect(x.link, t);
  }

  lemma PushKeepsEntry(cfg: Config, x: Entry, y: Entry, t: TaskId, body: Bytes, s: Sent)
    requires Lz4Inverts(cfg.env)
    requires EntryInv(cfg, x) && t !in x.link.notifying && PushFrame(x.link.queue, x.link.capacity, body).Ok?
    requires s.task == t && Encodes(cfg.env, body, s.update) && SentOk(cfg.env, Token(x), s)
    requires forall k | 0 <= k < |x.sent| :: x.sent[k].task != t
    requires y == LinkStep(x, Link.Push(t, body)).(sent := x.sent + [s])
    ensures EntryInv(cfg, y)
  {
    hide Link.Inv, Link.Next, CellOk, SentOk, Consumer.Inv, Encodes, PushFrame, Bodies;
    Link.NextKeepsInv(x.link, Link.Push(t, body));
    Link.PushEffect(x.link, t, body);
    BodiesAppend(x.link.log, Data(body));
    EncodedIsShort(cfg.env, body, s.update);
  }

  /** An accepted push of an encoded update that matched. */
  lemma PushEntry(cfg: Config, x: Entry, t: TaskId, body: Bytes, s: Sent)
    requires Lz4Inverts(cfg.env)
    requires EntryInv(cfg, x) && t !in x.link.notifying && PushFrame(x.link.queue, x.link.capacity, body).Ok?
    requires s.task == t && Encodes(cfg.env, body, s.update) && SentOk(cfg.env, Token(x), s)
    requires forall k | 0 <= k < |x.sent| :: x.sent[k].task != t
    ensures var y := LinkStep(x, Link.Push(t, body)).(sent := x.sent + [s]);
            EntryInv(cfg, y) && EntryEvolves(t, x, y) && y.link.linked == x.link.linked
            && y.link.notifying == x.link.notifying + {t}
  {
    hide EntryInv, Link.Next, SentOk, Encodes, PushFrame;
    PushKeepsEntry(cfg, x, LinkStep(x, Link.Push(t, body)).(sent := x.sent + [s]), t, body, s);
    Link.PushEffect(x.link, t, body);
  }

  lemma TouchEntry(cfg: Config, x: Entry, now: nat, t: TaskId)
    requires EntryInv(cfg, x)
    ensures EntryInv(cfg, x.(lastSeen := now)) && EntryEvolves(t, x, x.(lastSeen := now))
  {
    hide Link.Inv, CellOk, SentOk, Consumer.Inv, Encodes;
  }

  lemma StoreCell(cfg: Config, x: Entry, cell: FilterCell, t: TaskId)
    requires EntryInv(cfg, x) && CellOk(cfg.env, Token(x), cell)
    ensures EntryInv(cfg, x.(cell := cell)) && EntryEvolves(t, x, x.(cell := cell))
  {
    hide Link.Inv, CellOk, SentOk, Consumer.Inv, Encodes;
  }

  /** Applying a request extends the history a filter is built from. */
  lemma ExtendCell(env: Env, token: SlotToken, cell: FilterCell, request: SubscriptionRequest, keys: seq<nat>)
    requires CellOk(env, token, cell) && request.token == Some(token)
    ensures CellOk(env, token, FilterCell(WithRequest(env, cell.filter, request, keys),
                                          cell.requests + [request], cell.keys + [keys]))
  {
    hide WithRequest, FromRequest;
    var reqs, ks := cell.requests + [request], cell.keys + [keys];
    var n := |reqs| - 1;
    assert reqs[..n] == cell.requests && ks[..n] == cell.keys;
    assert FilterAfter(env, reqs, ks) == WithRequest(env, FilterAfter(env, reqs[..n], ks[..n]), reqs[n], ks[n]);
  }

  /** The reader's steps deliver, in order, the very updates that were sent. */
  lemma ReadEntryOk(cfg: Config, x: Entry)
    requires Lz4Inverts(cfg.env) && EntryInv(cfg, x)
    ensures var y := ReadEntry(cfg.env, x);
            EntryInv(cfg, y) && y.link.linked == x.link.linked && y.link.notifying == x.link.notifying
            && y.sent == x.sent && y.closeCalled == x.closeCalled && y.slot == x.slot && y.connId == x.connId
  {
    hide Link.Inv, Link.Next, Link.Framed, CellOk, SentOk, Consumer.Inv, Encodes, Consumer.Receive;
    Link.NextKeepsInv(x.link, Link.Read);
    Link.ReadEffect(x.link);
    if x.link.reader.Deliver? {
      var k := |x.link.popped|;
      Consumer.ReceiveKeepsInv(cfg.env, x.consumer, x.link.reader.body);
      NextBodyIsSent(cfg, x);
      ReceiveAppends(cfg.env, x.consumer, x.link.reader.body, x.sent[k].update);
    }
  }

  lemma NextBodyIsSent(cfg: Config, x: Entry)
    requires EntryInv(cfg, x) && x.link.reader.Deliver?
    ensures |x.link.popped| < |x.sent| && Encodes(cfg.env, x.link.reader.body, x.sent[|x.link.popped|].update)
  {
    hide CellOk, SentOk, Consumer.Inv, Encodes;
    Link.InvFramed(x.link);
    Link.FramedIsFifo(x.link);
    BeforeCloseIsPrefix(x.link.log);
    hide Link.Framed, Link.Inv;
    var delivered := x.link.popped + [x.link.reader.body];
    assert delivered <= Bodies(x.link.log);
    assert delivered[|x.link.popped|] == x.link.reader.body;
  }

  lemma ReceiveAppends(env: Env, c: Consumer.State, body: Bytes, s: Stamped<Update>)
    requires Lz4Inverts(env) && Encodes(env, body, s)
    ensures Consumer.Receive(env, c, body).received == c.received + [s]
  {
    hide Codec.DecodeServerFrame, Encodes;
    EncodedIsShort(env, body, s);
  }

  lemma UserPopEntry(cfg: Config, x: Entry, kind: Consumer.Kind)
    requires EntryInv(cfg, x)
    ensures EntryInv(cfg, x.(consumer := Consumer.UserPop(x.consumer, kind)))
  {
    hide Link.Inv, CellOk, SentOk, Consumer.Inv, Encodes, Consumer.UserPop;
    Consumer.UserPopKeepsInv(x.consumer, kind);
  }

  lemma UnlinkEntry(cfg: Config, x: Entry)
    requires EntryInv(cfg, x)
    ensures EntryInv(cfg, LinkStep(x, Link.Unlink)) && LinkStep(x, Link.Unlink).link == x.link.(linked := false)
  {
    hide Link.Inv, Link.Next, CellOk, SentOk, Consumer.Inv, Encodes;
    Link.NextKeepsInv(x.link, Link.Unlink);
    Link.UnlinkEffect(x.link);
  }

  lemma FreshEntry(cfg: Config, i: nat, task: Task, now: nat)
    requires i < SLOTS && task.id.Some? && task.initial.Some?
    requires |task.initial.value.requests| == |task.initial.value.keys| == 1
    requires task.initial.value.filter == FilterAfter(cfg.env, task.initial.value.requests, task.initial.value.keys)
    ensures EntryInv(cfg, NewEntry(cfg, i, task, now))
    ensures NewEntry(cfg, i, task, now).link.linked && NewEntry(cfg, i, task, now).link.notifying == {}
  {
    hide FilterAfter, Consumer.Inv;
    Consumer.InitInv();
    Link.RunKeepsInv(cfg.capacity, []);
  }
}
