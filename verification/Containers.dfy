/**
 The containers the threads share (src/container/ThreadFriendlyQueue.hpp,
 src/container/ThreadFriendlyMap.hpp) and the deleter that returns a packet to the pool
 (src/network/TlayerPacketRecycler.hpp).
 */
module Containers {
  import opened SipTypes

  type byte = x: int | 0 <= x < 256

  /** The packet in a hand, if there is one. */
  function Held(hand: Option<nat>): seq<nat> {
    if hand.Some? then [hand.value] else []
  }

  class ThreadFriendlyQueue<T> {
    var queue: seq<T>
    var activated: bool
    var sizeMax: nat
    ghost var lengths: seq<nat>

    /** sizeMax is the greatest length the queue ever had. */
    ghost predicate Valid()
      reads this
    {
      && lengths != [] && lengths[|lengths| - 1] == |queue|
      && (forall i | 0 <= i < |lengths| :: lengths[i] <= sizeMax)
      && sizeMax in lengths
    }

    constructor ()
      ensures Valid() && queue == [] && activated
    {
      queue, activated, sizeMax := [], true, 0;
      lengths := [0];
    }

    method Push(value: T)
      requires Valid()
      modifies `queue, `sizeMax, `lengths
      ensures Valid() && queue == old(queue) + [value] && lengths == old(lengths) + [|queue|]
    {
      queue := queue + [value];
      if |queue| > sizeMax {
        sizeMax := sizeMax + 1;
      }
      lengths := lengths + [|queue|];
    }

    /** The end of waitAndPop, when waiting is over. A deactivated queue gives nothing. */
    method WaitAndPop() returns (value: Option<T>)
      requires Valid() && (activated ==> queue != [])
      modifies `queue, `lengths
      ensures Valid()
      ensures if activated then old(queue) != [] && value == Some(old(queue)[0]) && queue == old(queue)[1..]
              else value == None && queue == old(queue)
    {
      if !activated {
        return None;
      }
      value := Some(queue[0]);
      queue := queue[1..];
      lengths := lengths + [|queue|];
    }

    method TryPop() returns (value: Option<T>)
      requires Valid()
      modifies `queue, `lengths
      ensures Valid()
      ensures if old(queue) == [] then value == None && queue == []
              else value == Some(old(queue)[0]) && queue == old(queue)[1..]
    {
      if queue == [] {
        return None;
      }
      value := Some(queue[0]);
      queue := queue[1..];
      lengths := lengths + [|queue|];
    }
  }

  class ThreadFriendlyMap<K(==), V> {
    var m: map<K, V>
    var sizeMax: nat

    ghost predicate Valid()
      reads this
    {
      |m| <= sizeMax
    }

    constructor ()
      ensures Valid() && m == map[]
    {
      m, sizeMax := map[], 0;
    }

    /** An entry that is there already is kept. */
    method Insert(k: K, v: V)
      requires Valid()
      modifies this
      ensures Valid() && m == InsertNew(old(m), k, v)
      ensures sizeMax == if |m| > old(sizeMax) then |m| else old(sizeMax)
    {
      m := InsertNew(m, k, v);
      if |m| > sizeMax {
        sizeMax := sizeMax + 1;
      }
    }

    method Find(k: K) returns (v: Option<V>)
      ensures v.Some? <==> k in m
      ensures v.Some? ==> v.value == m[k]
    {
      v := None;
      if k in m {
        v := Some(m[k]);
      }
    }

    method Erase(k: K) returns (count: nat)
      requires Valid()
      modifies `m
      ensures Valid() && m == old(m) - {k} && count == if k in old(m) then 1 else 0
    {
      count := if k in m then 1 else 0;
      Shrinks(m, k);
      m := m - {k};
    }
  }

  lemma Shrinks<K, V>(m: map<K, V>, k: K)
    ensures |m - {k}| <= |m|
  {
    assert (m - {k}).Keys == m.Keys - {k};
    assert |(m - {k}).Keys| <= |m.Keys|;
  }

  /** The packet pool. A unique_ptr with this deleter that lets go of its packet, because
      another one is moved in or because it goes out of scope, returns it to the pool. */
  class TlayerPacketRecycler {
    const pool: ThreadFriendlyQueue<nat>

    constructor (pool: ThreadFriendlyQueue<nat>)
      ensures this.pool == pool
    {
      this.pool := pool;
    }

    method Recycle(packet: Option<nat>)
      requires pool.Valid()
      modifies pool`queue, pool`sizeMax, pool`lengths
      ensures pool.Valid() && pool.queue == old(pool.queue) + if packet.Some? then [packet.value] else []
    {
      if packet.Some? {
        pool.Push(packet.value);
      }
    }
  }
}
