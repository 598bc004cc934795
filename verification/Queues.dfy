/** The bounded overwrite queues between a consumer's reader and its user. */
module Queues {
  import opened Types

  const QUEUE_CAPACITY: nat := 2048

  /** `pushed` and `taken` record the run: everything the reader enqueued, everything the user popped. */
  datatype Queue<T> = Queue(items: seq<T>, pushed: seq<T>, taken: seq<T>)

  datatype Op<T> = ForcePush(item: T) | Pop

  function Empty<T>(): Queue<T> {
    Queue([], [], [])
  }

  /** A push on a full queue drops the oldest item. */
  function PushItem<T>(items: seq<T>, x: T): seq<T> {
    (if |items| >= QUEUE_CAPACITY then items[1..] else items) + [x]
  }

  function Next<T>(q: Queue<T>, op: Op<T>): Queue<T> {
    match op
    case ForcePush(x) => Queue(PushItem(q.items, x), q.pushed + [x], q.taken)
    case Pop => if q.items == [] then q else Queue(q.items[1..], q.pushed, q.taken + [q.items[0]])
  }

  function Run<T>(ops: seq<Op<T>>): Queue<T> {
    if ops == [] then Empty() else Next(Run(ops[..|ops| - 1]), ops[|ops| - 1])
  }

  /** The queue holds the newest items, and no more than it may. */
  ghost predicate Suffix<T>(q: Queue<T>) {
    && |q.items| <= QUEUE_CAPACITY && |q.items| <= |q.pushed|
    && q.items == q.pushed[|q.pushed| - |q.items|..]
  }

  /** `at` says where each taken item stood among the pushed ones: in order, none twice, and all older
      than what is still queued. */
  ghost predicate InOrder<T>(q: Queue<T>, at: seq<nat>) {
    && |at| == |q.taken| && |q.items| <= |q.pushed|
    && (forall i | 0 <= i < |at| :: at[i] < |q.pushed| - |q.items| && q.taken[i] == q.pushed[at[i]])
    && (forall i, j | 0 <= i < j < |at| :: at[i] < at[j])
  }

  lemma NextKeepsSuffix<T>(q: Queue<T>, op: Op<T>)
    requires Suffix(q)
    ensures Suffix(Next(q, op))
  {
    var q' := Next(q, op);
    assert q'.items == q'.pushed[|q'.pushed| - |q'.items|..];
  }

  lemma PushKeepsOrder<T>(q: Queue<T>, x: T, at: seq<nat>)
    requires Suffix(q) && InOrder(q, at)
    ensures InOrder(Next(q, ForcePush(x)), at)
  {
    var q' := Next(q, ForcePush(x));
    forall i | 0 <= i < |at| ensures at[i] < |q'.pushed| - |q'.items| && q'.taken[i] == q'.pushed[at[i]] {
      assert q.taken[i] == q.pushed[at[i]];
    }
  }

  lemma PopKeepsOrder<T>(q: Queue<T>, at: seq<nat>)
    requires Suffix(q) && InOrder(q, at) && q.items != []
    ensures InOrder(Next(q, Pop), at + [|q.pushed| - |q.items|])
  {
    var q' := Next(q, Pop);
    var head := |q.pushed| - |q.items|;
    assert q.items[0] == q.pushed[head];
    var at' := at + [head];
    forall i | 0 <= i < |at'| ensures at'[i] < |q'.pushed| - |q'.items| && q'.taken[i] == q'.pushed[at'[i]] {
      if i < |at| {
        assert q.taken[i] == q.pushed[at[i]];
      }
    }
  }

  lemma NextKeepsOrder<T>(q: Queue<T>, op: Op<T>, at: seq<nat>) returns (at': seq<nat>)
    requires Suffix(q) && InOrder(q, at)
    ensures InOrder(Next(q, op), at')
  {
    hide InOrder;
    at' := at;
    match op {
      case ForcePush(x) => PushKeepsOrder(q, x, at);
      case Pop =>
        if q.items != [] {
          PopKeepsOrder(q, at);
          at' := at + [|q.pushed| - |q.items|];
        }
    }
  }

  /** After any interleaving of enqueues and pops, the queue is the newest stretch of what was enqueued,
      within its capacity, and the pops are an in-order selection without repetition. */
  lemma {:induction false} BoundedQueue<T>(ops: seq<Op<T>>) returns (at: seq<nat>)
    ensures Suffix(Run(ops)) && InOrder(Run(ops), at)
  {
    if ops == [] {
      at := [];
    } else {
      var n := |ops| - 1;
      var before := BoundedQueue(ops[..n]);
      NextKeepsSuffix(Run(ops[..n]), ops[n]);
      at := NextKeepsOrder(Run(ops[..n]), ops[n], before);
    }
  }

  /** What was taken and what is queued is what was pushed. */
  ghost predicate NothingLost<T>(q: Queue<T>) {
    q.taken + q.items == q.pushed
  }

  ghost predicate Room<T>(ops: seq<Op<T>>) {
    forall n | 0 <= n < |ops| && ops[n].ForcePush? :: |Run(ops[..n]).items| < QUEUE_CAPACITY
  }

  /** Nothing is lost if and only if every enqueue found room. */
  lemma {:induction false} NoLossIffRoom<T>(ops: seq<Op<T>>)
    ensures NothingLost(Run(ops)) <==> Room(ops)
    ensures |Run(ops).taken| + |Run(ops).items| <= |Run(ops).pushed|
  {
    hide NothingLost, Room, Next;
    var n := |ops| - 1;
    if ops == [] {
      assert NothingLost(Run(ops)) && Room(ops) by { NothingYet(ops); }
    } else {
      NoLossIffRoom(ops[..n]);
      NextLoses(Run(ops[..n]), ops[n]);
      RoomExtends(ops);
    }
  }

  lemma NothingYet<T>(ops: seq<Op<T>>)
    requires ops == []
    ensures NothingLost(Run(ops)) && Room(ops)
  {
  }

  lemma NextLoses<T>(q: Queue<T>, op: Op<T>)
    requires |q.taken| + |q.items| <= |q.pushed|
    ensures NothingLost(Next(q, op)) <==> NothingLost(q) && (op.ForcePush? ==> |q.items| < QUEUE_CAPACITY)
    ensures |Next(q, op).taken| + |Next(q, op).items| <= |Next(q, op).pushed|
  {
    if op.Pop? && q.items != [] {
      assert q.taken + [q.items[0]] + q.items[1..] == q.taken + q.items;
    } else if op.ForcePush? && |q.items| < QUEUE_CAPACITY {
      PushExtends(q.taken, q.items, q.pushed, op.item);
    } else if op.ForcePush? {
      assert |Next(q, op).taken + Next(q, op).items| < |Next(q, op).pushed|;
    }
  }

  lemma RoomExtends<T>(ops: seq<Op<T>>)
    requires ops != []
    ensures var n := |ops| - 1;
            Room(ops) <==> Room(ops[..n]) && (ops[n].ForcePush? ==> |Run(ops[..n]).items| < QUEUE_CAPACITY)
  {
    hide Run;
    var n := |ops| - 1;
    forall k | 0 <= k < n
      ensures ops[..n][k] == ops[k] && ops[..n][..k] == ops[..k]
    {
    }
  }

  lemma PushExtends<T>(taken: seq<T>, items: seq<T>, pushed: seq<T>, x: T)
    ensures taken + (items + [x]) == pushed + [x] <==> taken + items == pushed
  {
    assert taken + (items + [x]) == (taken + items) + [x];
    assert (pushed + [x])[..|pushed|] == pushed;
    assert ((taken + items) + [x])[..|taken + items|] == taken + items;
  }

  /** Enqueues that found 2048 items queued. */
  function Overflows<T>(ops: seq<Op<T>>): nat {
    if ops == [] then 0
    else
      var n := |ops| - 1;
      Overflows(ops[..n]) + if ops[n].ForcePush? && |Run(ops[..n]).items| == 2048 then 1 else 0
  }

  /** Each enqueue on a full queue loses exactly one item, and nothing else loses any. */
  lemma {:induction false} OneLostPerOverflow<T>(ops: seq<Op<T>>)
    ensures |Run(ops).pushed| == |Run(ops).taken| + |Run(ops).items| + Overflows(ops)
  {
    if ops != [] {
      var n := |ops| - 1;
      OneLostPerOverflow(ops[..n]);
      var _ := BoundedQueue(ops[..n]);
    }
  }

  function Newest<T>(pushed: seq<T>): seq<T> {
    if |pushed| <= 2048 then pushed else pushed[|pushed| - 2048..]
  }

  lemma PushKeepsNewest<T>(pushed: seq<T>, x: T)
    ensures PushItem(Newest(pushed), x) == Newest(pushed + [x])
  {
    var n := |pushed|;
    if n >= 2048 {
      assert Newest(pushed) == pushed[n - 2048..];
      assert PushItem(Newest(pushed), x) == pushed[n - 2047..] + [x];
      assert Newest(pushed + [x]) == (pushed + [x])[n - 2047..];
    }
  }

  /** Left alone, the queue keeps the newest 2048 items, and all of them while there are no more. */
  lemma {:induction false} NewestKept<T>(ops: seq<Op<T>>)
    requires forall n | 0 <= n < |ops| :: ops[n].ForcePush?
    ensures Run(ops).items == Newest(Run(ops).pushed)
  {
    hide Newest, PushItem;
    if ops == [] {
      assert Newest<T>([]) == [] by { NewestOfNone<T>(); }
    } else {
      var n := |ops| - 1;
      NewestKept(ops[..n]);
      PushKeepsNewest(Run(ops[..n]).pushed, ops[n].item);
    }
  }

  lemma NewestOfNone<T>()
    ensures Newest<T>([]) == []
  {
  }

  ghost predicate Orderly<T>(q: Queue<T>) {
    Suffix(q) && exists at :: InOrder(q, at)
  }

  lemma StaysOrderly<T>(q: Queue<T>, op: Op<T>)
    requires Orderly(q)
    ensures Orderly(Next(q, op))
  {
    var at :| InOrder(q, at);
    NextKeepsSuffix(q, op);
    var at' := NextKeepsOrder(q, op, at);
  }

  /** The queue itself, shared by the reader and the user; `history` is the run it has been through. */
  class ArrayQueue<T(==)> {
    var items: seq<T>
    ghost var history: Queue<T>

    ghost predicate Valid()
      reads this
    {
      items == history.items && Orderly(history)
    }

    constructor ()
      ensures Valid() && history == Empty()
    {
      items := [];
      history := Empty();
      assert InOrder(Empty<T>(), []);
    }

    method ForcePush(x: T)
      requires Valid()
      modifies this
      ensures Valid() && history == Next(old(history), Op.ForcePush(x))
      ensures items == (old(items) + [x])[if |old(items)| == 2048 then 1 else 0..]
      ensures |items| == if |old(items)| == 2048 then 2048 else |old(items)| + 1
    {
      assert |items| <= 2048;
      hide Suffix, InOrder, Orderly;
      StaysOrderly(history, Op.ForcePush(x));
      history := Next(history, Op.ForcePush(x));
      if |items| >= QUEUE_CAPACITY {
        items := items[1..];
      }
      items := items + [x];
    }

    /** The user gets the oldest update still queued, so that everything taken so far is an in-order selection,
        without repetition, of what was enqueued. */
    method Pop() returns (x: Option<T>)
      requires Valid()
      modifies this
      ensures Valid() && history == Next(old(history), Op.Pop)
      ensures history.taken == old(history.taken) + match x { case Some(y) => [y] case None => [] }
      ensures x.None? <==> old(items) == []
    {
      hide Suffix, InOrder, Orderly;
      StaysOrderly(history, Op.Pop);
      history := Next(history, Op.Pop);
      if items == [] {
        return None;
      }
      x := Some(items[0]);
      items := items[1..];
    }
  }
}
