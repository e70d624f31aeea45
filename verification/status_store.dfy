/** The status store: the latest snapshot, and its fan-out to subscribers that may be slow. */
module StatusStore {

  const CAPACITY := 8

  /**
   A subscriber's channel: what it buffers, what its consumer has received so far, all that was published to it
   since the subscription, and which of those the received ones are.
   */
  datatype Channel<T> = Channel(buf: seq<T>, got: seq<T>, sent: seq<T>, took: seq<nat>) {
    /** How many published snapshots the consumer has not received and will not receive. */
    function Dropped(): int {
      |sent| - |buf| - |got|
    }
  }

  /** The buffer is a contiguous suffix of what was published, at most 8 long, and delivery preserves the order. */
  ghost predicate InOrder<T>(c: Channel<T>) {
    && |c.buf| <= CAPACITY
    && |c.buf| <= |c.sent| && c.buf == c.sent[|c.sent| - |c.buf|..]
    && |c.took| == |c.got|
    && (forall i :: 0 <= i < |c.took| ==> c.took[i] < |c.sent| - |c.buf| && c.got[i] == c.sent[c.took[i]])
    && (forall i, j :: 0 <= i < j < |c.took| ==> c.took[i] < c.took[j])
  }

  /** The latest snapshot is buffered or already received; a channel nobody reads is filled to its capacity. */
  ghost predicate KeepsNewest<T>(c: Channel<T>) {
    && (c.sent != [] && c.buf == [] ==> c.took != [] && c.took[|c.took| - 1] == |c.sent| - 1)
    && (c.got == [] ==> |c.buf| == if |c.sent| < CAPACITY then |c.sent| else CAPACITY)
  }

  /** The consumer receives one snapshot. */
  function Received<T>(c: Channel<T>): Channel<T>
    requires c.buf != [] && |c.buf| <= |c.sent|
  {
    Channel(c.buf[1..], c.got + [c.buf[0]], c.sent, c.took + [|c.sent| - |c.buf|])
  }

  /** Only its consumer has acted on the channel: it has received, in order, the front part of the buffer. */
  ghost predicate OnlyRead<T>(c: Channel<T>, d: Channel<T>) {
    var n := |c.buf| - |d.buf|;
    && 0 <= n && d.sent == c.sent
    && d.buf == c.buf[n..] && d.got == c.got + c.buf[..n]
    && |d.took| == |c.took| + n && d.took[..|c.took|] == c.took
    && forall i :: |c.took| <= i < |d.took| ==> d.took[i] == |c.sent| - |c.buf| + (i - |c.took|)
  }

  lemma ReadKeeps<T>(c: Channel<T>, d: Channel<T>)
    requires InOrder(c) && OnlyRead(c, d)
    ensures InOrder(d) && (KeepsNewest(c) ==> KeepsNewest(d)) && d.Dropped() == c.Dropped()
  {
    forall i | 0 <= i < |c.took|
      ensures d.took[i] == c.took[i] && d.got[i] == c.got[i]
    {
      assert d.took[..|c.took|][i] == c.took[i];
    }
  }

  lemma ReceivedIsRead<T>(c: Channel<T>)
    requires c.buf != [] && |c.buf| <= |c.sent|
    ensures OnlyRead(c, Received(c))
  {
  }

  function Pushed<T>(c: Channel<T>, x: T): Channel<T> {
    c.(buf := c.buf + [x], sent := c.sent + [x])
  }

  lemma PushedInOrder<T>(c: Channel<T>, x: T)
    requires InOrder(c) && |c.buf| < CAPACITY
    ensures InOrder(Pushed(c, x)) && Pushed(c, x).Dropped() == c.Dropped()
    ensures c.got != [] || |c.buf| == (if |c.sent| < CAPACITY then |c.sent| else CAPACITY - 1) ==> KeepsNewest(Pushed(c, x))
  {
  }

  /** The oldest buffered snapshot is taken out by the publisher, unless the buffer is empty by now. */
  function Trimmed<T>(c: Channel<T>): Channel<T> {
    if c.buf == [] then c else c.(buf := c.buf[1..])
  }

  lemma TrimmedInOrder<T>(c: Channel<T>)
    requires InOrder(c)
    ensures InOrder(Trimmed(c)) && |Trimmed(c).buf| < CAPACITY && Trimmed(c).Dropped() <= c.Dropped() + 1
  {
  }

  /** A snapshot read by nobody: the first one still buffered is the eighth from the end. */
  lemma UnreadKeepsLastEight<T>(c: Channel<T>)
    requires InOrder(c) && KeepsNewest(c) && c.got == [] && |c.sent| >= CAPACITY
    ensures |c.buf| == CAPACITY && c.buf[0] == c.sent[|c.sent| - CAPACITY]
  {
  }

  function EmptyChannel<T>(): Channel<T> {
    Channel([], [], [], [])
  }

  lemma EmptyInOrder<T>()
    ensures InOrder<T>(EmptyChannel()) && KeepsNewest<T>(EmptyChannel())
  {
  }

  /** A channel after one publication. */
  ghost predicate Delivered<T>(c: Channel<T>, d: Channel<T>, x: T) {
    && InOrder(d) && KeepsNewest(d) && d.sent == c.sent + [x]
    && d.Dropped() <= c.Dropped() + 1 && (|c.buf| < CAPACITY ==> d.Dropped() == c.Dropped())
  }

  lemma DirectDelivery<T>(c: Channel<T>, x: T)
    requires InOrder(c) && KeepsNewest(c) && |c.buf| < CAPACITY
    ensures Delivered(c, Pushed(c, x), x)
  {
    PushedInOrder(c, x);
  }

  /** Reading, dropping the oldest, and reading again always makes room for the snapshot. */
  lemma DroppingDelivery<T>(c: Channel<T>, d: Channel<T>, e: Channel<T>, x: T)
    requires InOrder(c) && KeepsNewest(c) && |c.buf| == CAPACITY && OnlyRead(c, d) && OnlyRead(Trimmed(d), e)
    ensures |e.buf| < CAPACITY && Delivered(c, Pushed(e, x), x)
  {
    hide OnlyRead;
    ReadKeeps(c, d);
    TrimmedInOrder(d);
    ReadKeeps(Trimmed(d), e);
    ReadShortens(c, d);
    ReadShortens(Trimmed(d), e);
    PushedInOrder(e, x);
  }

  lemma ReadShortens<T>(c: Channel<T>, d: Channel<T>)
    requires OnlyRead(c, d)
    ensures |d.buf| <= |c.buf| && |d.got| == |c.got| + |c.buf| - |d.buf| && d.sent == c.sent
  {
  }

  lemma DeliveredThenRead<T>(c: Channel<T>, d: Channel<T>, e: Channel<T>, x: T)
    requires Delivered(c, d, x) && OnlyRead(d, e)
    ensures Delivered(c, e, x)
  {
    hide InOrder, KeepsNewest, OnlyRead;
    ReadKeeps(d, e);
    ReadShortens(d, e);
  }

  lemma ReadThenDelivered<T>(c: Channel<T>, d: Channel<T>, e: Channel<T>, x: T)
    requires InOrder(c) && OnlyRead(c, d) && Delivered(d, e, x)
    ensures Delivered(c, e, x)
  {
    hide InOrder, KeepsNewest, OnlyRead;
    ReadKeeps(c, d);
    ReadShortens(c, d);
  }

  lemma ReadTwice<T>(c: Channel<T>, d: Channel<T>, e: Channel<T>)
    requires OnlyRead(c, d) && OnlyRead(d, e)
    ensures OnlyRead(c, e)
  {
    var n, k := |c.buf| - |d.buf|, |d.buf| - |e.buf|;
    assert c.buf[..n + k] == c.buf[..n] + d.buf[..k];
    assert e.took[..|c.took|] == e.took[..|d.took|][..|c.took|];
    forall i | |c.took| <= i < |e.took|
      ensures e.took[i] == |c.sent| - |c.buf| + (i - |c.took|)
    {
      if i < |d.took| {
        assert e.took[..|d.took|][i] == d.took[i];
      }
    }
  }

  lemma ReadNothing<T>(c: Channel<T>)
    ensures OnlyRead(c, c)
  {
  }

  class Store<T> {
    var snap: T
    var chans: map<nat, Channel<T>>
    var subs: set<nat>
    var next: nat

    ghost predicate Valid()
      reads this
    {
      && subs <= chans.Keys && (forall id :: id in chans ==> id < next)
      && forall id :: id in chans ==> InOrder(chans[id]) && KeepsNewest(chans[id])
    }

    constructor (initial: T)
      ensures Valid() && snap == initial && chans == map[] && subs == {}
    {
      snap, chans, subs, next := initial, map[], {}, 0;
    }

    method Get() returns (s: T)
      ensures s == snap
    {
      s := snap;
    }

    method Subscribe() returns (id: nat)
      requires Valid()
      modifies this
      ensures Valid() && id !in old(chans) && snap == old(snap)
      ensures subs == old(subs) + {id} && chans == old(chans)[id := EmptyChannel()]
    {
      hide InOrder, KeepsNewest, EmptyChannel;
      EmptyInOrder<T>();
      id := next;
      next := next + 1;
      chans := chans[id := EmptyChannel()];
      subs := subs + {id};
    }

    /** The cancel function that Subscribe returns. What is already buffered can still be received. */
    method Cancel(id: nat)
      requires Valid()
      modifies this
      ensures Valid() && subs == old(subs) - {id} && chans == old(chans) && snap == old(snap)
    {
      subs := subs - {id};
    }

    /** A consumer takes the oldest buffered snapshot. */
    method Receive(id: nat) returns (x: T)
      requires id in chans && chans[id].buf != [] && |chans[id].buf| <= |chans[id].sent|
      modifies this
      ensures x == old(chans[id].buf[0]) && chans == old(chans)[id := Received(old(chans[id]))]
      ensures snap == old(snap) && subs == old(subs) && next == old(next)
      ensures old(Valid()) ==> Valid()
    {
      hide InOrder, KeepsNewest, Received, OnlyRead;
      ReceivedIsRead(chans[id]);
      if InOrder(chans[id]) {
        ReadKeeps(chans[id], Received(chans[id]));
      }
      x := chans[id].buf[0];
      chans := chans[id := Received(chans[id])];
    }

    /** Everything but the channels' contents is as before, and those only changed by reading. */
    twostate predicate OthersRead(ids: set<nat>)
      reads this
    {
      && subs == old(subs) && next == old(next) && snap == old(snap) && chans.Keys == old(chans.Keys)
      && forall id :: id in chans && id in ids ==> OnlyRead(old(chans[id]), chans[id])
    }

    ghost predicate AllInOrder()
      reads this
    {
      forall id :: id in chans ==> InOrder(chans[id])
    }

    /** The consumer of `id` receives a snapshot, if one is there. */
    method TryReceive(id: nat)
      requires AllInOrder()
      modifies this
      ensures OthersRead(chans.Keys) && AllInOrder()
    {
      hide InOrder, KeepsNewest, Received, OnlyRead;
      forall i | i in chans
        ensures OnlyRead(chans[i], chans[i])
      {
        ReadNothing(chans[i]);
      }
      if id in chans && chans[id].buf != [] {
        BufferBounded(chans[id]);
        ReceivedIsRead(chans[id]);
        ReadKeeps(chans[id], Received(chans[id]));
        var _ := Receive(id);
      }
    }

    /** Consumers receive what they like, as long as they like, from any channel. */
    method ConsumersRun()
      requires AllInOrder()
      modifies this
      ensures OthersRead(chans.Keys) && AllInOrder()
    {
      hide InOrder, KeepsNewest, OnlyRead;
      forall i | i in chans
        ensures OnlyRead(chans[i], chans[i])
      {
        ReadNothing(chans[i]);
      }
      var n: nat := *;
      while n > 0
        invariant OthersRead(chans.Keys) && AllInOrder()
      {
        n := n - 1;
        var id: nat := *;
        ghost var before := chans;
        TryReceive(id);
        forall i | i in chans
          ensures OnlyRead(old(chans[i]), chans[i])
        {
          ReadTwice(old(chans[i]), before[i], chans[i]);
        }
      }
    }

    /** One publication to one channel, with the consumers free to read between the selects. */
    method Offer(id: nat, x: T)
      requires id in chans && AllInOrder() && KeepsNewest(chans[id])
      modifies this
      ensures OthersRead(chans.Keys - {id}) && id in chans && Delivered(old(chans[id]), chans[id], x)
      ensures AllInOrder()
    {
      hide InOrder, KeepsNewest, Pushed, Trimmed, Delivered, OnlyRead;
      ghost var c := chans[id];
      forall i | i in chans
        ensures OnlyRead(chans[i], chans[i])
      {
        ReadNothing(chans[i]);
      }
      if |chans[id].buf| < CAPACITY {
        DirectDelivery(c, x);
        DeliveredKeeps(c, Pushed(c, x), x);
        chans := chans[id := Pushed(chans[id], x)];
        return;
      }
      BufferBounded(c);
      ConsumersRun();
      ghost var d := chans[id];
      TrimmedInOrder(d);
      chans := chans[id := Trimmed(chans[id])];
      ghost var mid := chans;
      ConsumersRun();
      ghost var e := chans[id];
      DroppingDelivery(c, d, e, x);
      DeliveredKeeps(c, Pushed(e, x), x);
      forall i | i in chans && i != id
        ensures OnlyRead(old(chans[i]), chans[i])
      {
        ReadTwice(old(chans[i]), mid[i], chans[i]);
      }
      if |chans[id].buf| < CAPACITY {
        chans := chans[id := Pushed(chans[id], x)];
      } else {
        assert false;
      }
    }

    /** broadcast: every subscriber gets the snapshot; the channels of others are only read. */
    method Broadcast(x: T)
      requires Valid()
      modifies this
      ensures Valid() && OthersRead(chans.Keys - subs)
      ensures forall id :: id in subs ==> id in old(chans) && id in chans && Delivered(old(chans[id]), chans[id], x)
    {
      hide InOrder, KeepsNewest, OnlyRead, Delivered;
      forall i | i in chans
        ensures OnlyRead(chans[i], chans[i])
      {
        ReadNothing(chans[i]);
      }
      var left := subs;
      while left != {}
        invariant left <= subs && AllInOrder() && OthersRead(chans.Keys - (subs - left))
        invariant forall id :: id in subs - left ==> Delivered(old(chans[id]), chans[id], x)
        decreases |left|
      {
        var id :| id in left;
        ghost var before := chans;
        StillKeeps(old(chans[id]), chans[id]);
        Offer(id, x);
        ReadThenDelivered(old(chans[id]), before[id], chans[id], x);
        forall i | i in chans && i != id
          ensures i in left || i !in subs ==> OnlyRead(old(chans[i]), chans[i])
          ensures i in subs - left ==> Delivered(old(chans[i]), chans[i], x)
        {
          if i in subs - left {
            DeliveredThenRead(old(chans[i]), before[i], chans[i], x);
          } else {
            ReadTwice(old(chans[i]), before[i], chans[i]);
          }
        }
        left := left - {id};
      }
      forall id | id in chans
        ensures InOrder(chans[id]) && KeepsNewest(chans[id])
      {
        if id in subs {
          DeliveredKeeps(old(chans[id]), chans[id], x);
        } else {
          StillKeeps(old(chans[id]), chans[id]);
        }
      }
    }

    /** Set: the snapshot becomes the current one, and every subscriber gets it. */
    method Set(x: T)
      requires Valid()
      modifies this
      ensures Valid() && snap == x && subs == old(subs) && chans.Keys == old(chans.Keys)
      ensures forall id :: id in chans ==>
                if id in subs then Delivered(old(chans[id]), chans[id], x) else OnlyRead(old(chans[id]), chans[id])
    {
      hide InOrder, KeepsNewest, OnlyRead, Delivered;
      snap := x;
      Broadcast(x);
    }
  }

  lemma DeliveredKeeps<T>(c: Channel<T>, d: Channel<T>, x: T)
    requires Delivered(c, d, x)
    ensures InOrder(d) && KeepsNewest(d)
  {
  }

  lemma StillKeeps<T>(c: Channel<T>, d: Channel<T>)
    requires InOrder(c) && KeepsNewest(c) && OnlyRead(c, d)
    ensures InOrder(d) && KeepsNewest(d)
  {
    ReadKeeps(c, d);
  }

  lemma BufferBounded<T>(c: Channel<T>)
    requires InOrder(c)
    ensures |c.buf| <= |c.sent| && |c.buf| <= CAPACITY
  {
  }
}
