/** The bounded datagram queues of both implementations, as values and as objects:
    `DatagramsQueue` of util/util.go and, apart from its notifications, `DatagramQueue` of
    crates/ssh3-core/src/queue.rs. */
module Queues {

  datatype Queue<T> = Queue(items: seq<T>, capacity: nat) {
    predicate Full() { |items| >= capacity }

    /** A non-blocking send: dropped when the buffer is full. */
    function Add(item: T): Queue<T> {
      if Full() then this else Queue(items + [item], capacity)
    }

    function AddAll(more: seq<T>): Queue<T>
      decreases |more|
    {
      if |more| == 0 then this else Add(more[0]).AddAll(more[1..])
    }
  }

  class DatagramsQueue<T> {
    const capacity: nat
    var items: seq<T>

    ghost function Value(): Queue<T>
      reads this
    {
      Queue(items, capacity)
    }

    constructor (n: nat)
      ensures capacity == n && items == []
    {
      capacity, items := n, [];
    }

    method Add(item: T) returns (added: bool)
      modifies this
      ensures Value() == old(Value()).Add(item)
      ensures added <==> !old(Value()).Full()
    {
      added := |items| < capacity;
      if added {
        items := items + [item];
      }
    }

    /** The oldest datagram, if any. */
    method Next() returns (item: seq<T>)
      modifies this
      ensures |item| == if old(items) == [] then 0 else 1
      ensures item == old(items)[..|item|] && items == old(items)[|item|..]
    {
      if |items| == 0 {
        item := [];
      } else {
        item := items[..1];
        items := items[1..];
      }
    }

    /** The drain loop: takes everything out of `src` and offers it to this queue. */
    method Drain(src: DatagramsQueue<T>)
      requires src != this
      modifies this, src
      ensures Value() == old(Value()).AddAll(old(src.items))
      ensures src.items == []
    {
      ghost var all := src.items;
      var next := src.Next();
      while |next| > 0
        invariant |next| <= 1 && (next == [] ==> src.items == [])
        invariant Value().AddAll(next + src.items) == old(Value()).AddAll(all)
        decreases |next| + |src.items|
      {
        assert (next + src.items)[1..] == src.items;
        var _ := Add(next[0]);
        ghost var rest := src.items;
        next := src.Next();
        assert next + src.items == rest;
      }
    }
  }
}
