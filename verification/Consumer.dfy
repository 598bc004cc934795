/** What the reader does with a popped frame: decode it and enqueue the update for the user. */
module Consumer {
  import opened Bytes
  import opened Types
  import opened Codec
  import Queues

  /** `received` records every update the reader enqueued, of any kind, in order. */
  datatype State = State(
    accounts: Queues.Queue<AccountUpdate>,
    transactions: Queues.Queue<TransactionUpdate>,
    slots: Queues.Queue<SlotUpdate>,
    received: seq<Stamped<Update>>)

  datatype Kind = AccountKind | TransactionKind | SlotKind

  function Init(): State {
    State(Queues.Empty(), Queues.Empty(), Queues.Empty(), [])
  }

  function Enqueue(c: State, s: Stamped<Update>): State {
    var c := c.(received := c.received + [s]);
    match s.update
    case Account(u) => c.(accounts := Queues.Next(c.accounts, Queues.ForcePush(u)))
    case Transaction(u) => c.(transactions := Queues.Next(c.transactions, Queues.ForcePush(u)))
    case Slot(u) => c.(slots := Queues.Next(c.slots, Queues.ForcePush(u)))
  }

  /** Control frames and frames that do not decode are dropped. */
  function Receive(env: Env, c: State, frame: Bytes): State {
    match DecodeServerFrame(env, frame)
    case Ok(UpdateFrame(s)) => Enqueue(c, s)
    case _ => c
  }

  function UserPop(c: State, kind: Kind): State {
    match kind
    case AccountKind => c.(accounts := Queues.Next(c.accounts, Queues.Pop))
    case TransactionKind => c.(transactions := Queues.Next(c.transactions, Queues.Pop))
    case SlotKind => c.(slots := Queues.Next(c.slots, Queues.Pop))
  }

  function Accounts(s: seq<Stamped<Update>>): seq<AccountUpdate> {
    if s == [] then []
    else
      var n := |s| - 1;
      Accounts(s[..n]) + if s[n].update.Account? then [s[n].update.account] else []
  }

  function Transactions(s: seq<Stamped<Update>>): seq<TransactionUpdate> {
    if s == [] then []
    else
      var n := |s| - 1;
      Transactions(s[..n]) + if s[n].update.Transaction? then [s[n].update.transaction] else []
  }

  function Slots(s: seq<Stamped<Update>>): seq<SlotUpdate> {
    if s == [] then []
    else
      var n := |s| - 1;
      Slots(s[..n]) + if s[n].update.Slot? then [s[n].update.slotUpdate] else []
  }

  /** Each queue was fed exactly the received updates of its kind, holds the newest of them within its
      capacity, and its user has taken an in-order selection of them without repetition. */
  ghost predicate Inv(c: State) {
    && c.accounts.pushed == Accounts(c.received)
    && c.transactions.pushed == Transactions(c.received)
    && c.slots.pushed == Slots(c.received)
    && Queues.Orderly(c.accounts) && Queues.Orderly(c.transactions) && Queues.Orderly(c.slots)
  }

  lemma EnqueueKeepsInv(c: State, s: Stamped<Update>)
    requires Inv(c)
    ensures Inv(Enqueue(c, s))
  {
    hide Queues.Suffix, Queues.InOrder, Queues.Orderly;
    var r := c.received + [s];
    assert r[..|r| - 1] == c.received;
    match s.update {
      case Account(u) => Queues.StaysOrderly(c.accounts, Queues.ForcePush(u));
      case Transaction(u) => Queues.StaysOrderly(c.transactions, Queues.ForcePush(u));
      case Slot(u) => Queues.StaysOrderly(c.slots, Queues.ForcePush(u));
    }
  }

  lemma ReceiveKeepsInv(env: Env, c: State, frame: Bytes)
    requires Inv(c)
    ensures Inv(Receive(env, c, frame))
  {
    hide DecodeServerFrame, Inv, Enqueue;
    match DecodeServerFrame(env, frame) {
      case Ok(UpdateFrame(s)) => EnqueueKeepsInv(c, s);
      case _ =>
    }
  }

  /** The oldest item has gone from the queue to its user; an empty queue has stayed as it was. */
  predicate Took<T(==)>(q: Queues.Queue<T>, q': Queues.Queue<T>) {
    if q.items == [] then q' == q
    else q'.taken == q.taken + [q.items[0]] && q'.items == q.items[1..] && q'.pushed == q.pushed
  }

  /** A user takes the oldest update of the kind asked for, and none of any other. */
  lemma UserPopKeepsInv(c: State, kind: Kind)
    requires Inv(c)
    ensures var c' := UserPop(c, kind);
            && Inv(c') && c'.received == c.received
            && match kind
               case AccountKind =>
                 Took(c.accounts, c'.accounts) && c'.transactions == c.transactions && c'.slots == c.slots
               case TransactionKind =>
                 Took(c.transactions, c'.transactions) && c'.accounts == c.accounts && c'.slots == c.slots
               case SlotKind =>
                 Took(c.slots, c'.slots) && c'.accounts == c.accounts && c'.transactions == c.transactions
  {
    hide Queues.Suffix, Queues.InOrder, Queues.Orderly;
    match kind {
      case AccountKind => Queues.StaysOrderly(c.accounts, Queues.Pop);
      case TransactionKind => Queues.StaysOrderly(c.transactions, Queues.Pop);
      case SlotKind => Queues.StaysOrderly(c.slots, Queues.Pop);
    }
  }

  lemma InitInv()
    ensures Inv(Init())
  {
    assert Queues.InOrder(Init().accounts, []);
    assert Queues.InOrder(Init().transactions, []);
    assert Queues.InOrder(Init().slots, []);
  }
}
