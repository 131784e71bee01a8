/**
 The threads that own packets are runs of the moves of PacketPool: one pass of the UDP worker
 (src/network/UdpHandler.cpp) and the decoding of one deque (src/audio/AudioHandler.cpp).
 */
module PoolMoves {
  import opened SipTypes
  import opened Containers
  import opened Objects
  import opened PacketPool
  import UdpHandlers
  import Pcm
  import Media

  function HandlesOf(q: seq<UdpHandlers.UdpPacket>): (r: seq<nat>)
    ensures |r| == |q|
  {
    seq(|q|, i requires 0 <= i < |q| => q[i].handle)
  }

  function HandleOf(p: Option<UdpHandlers.UdpPacket>): Option<nat> {
    if p.Some? then Some(p.value.handle) else None
  }

  /** The places the UDP worker works on are as in s, with each sink under its number. */
  ghost predicate Reflects(h: UdpHandlers.UdpHandler, s: Places)
    reads h, h.udpPacketQueue, h.sipPacketQueue, h.recycler.pool, h.rtpSinkMap.Values
  {
    && s.pool == h.recycler.pool.queue && s.udpHand == HandleOf(h.tlayerPacket)
    && s.udpQueue == HandlesOf(h.udpPacketQueue.queue) && s.sipQueue == HandlesOf(h.sipPacketQueue.queue)
    && (forall k <- h.rtpSinkMap.Values :: k.ref < |s.sinks| && s.sinks[k.ref] == k.Data().packets)
    && (forall k, k' | k in h.rtpSinkMap.Values && k' in h.rtpSinkMap.Values && k.ref == k'.ref :: k == k')
  }

  /** What is done with the packet once it is in the hand. */
  datatype Fate = ToSink(sink: nat, active: bool) | ToSip | Stays

  function MovesOf(f: Fate): seq<Move> {
    match f
    case ToSink(sink, active) => [UdpPop, UdpRoll(sink, active)]
    case ToSip => [UdpPop, UdpToSip]
    case Stays => [UdpPop]
  }

  lemma TwoMoves(s: Places, m: Move, m': Move)
    requires Possible(s, m) && Possible(Make(s, m), m')
    ensures Moves(s, [m, m']) == Make(Make(s, m), m')
  {
    assert [m, m'][1..] == [m'] && [m'][1..] == [];
    assert Moves(s, [m, m']) == Moves(Make(s, m), [m']) == Moves(Make(Make(s, m), m'), []);
  }

  /** The places after these moves. */
  lemma PassMoves(s: Places, f: Fate)
    requires s.udpQueue != [] && (f.ToSink? ==> f.sink < |s.sinks| && (f.active ==> s.sinks[f.sink].Some?))
    ensures var p := s.udpQueue[0];
      Moves(s, MovesOf(f)) == s.(
        udpQueue := s.udpQueue[1..],
        udpHand := if f == Stays then Some(p) else None,
        pool := s.pool + Held(s.udpHand) + (if f.ToSink? && !f.active then [p] else []),
        sipQueue := if f == ToSip then s.sipQueue + [p] else s.sipQueue,
        sinks := if f.ToSink? && f.active then s.sinks[f.sink := Some(s.sinks[f.sink].value + [p])] else s.sinks)
  {
    var s1 := Make(s, UdpPop);
    assert s1.pool + [] == s1.pool;
    match f
    case ToSink(sink, active) => TwoMoves(s, UdpPop, UdpRoll(sink, active));
    case ToSip => TwoMoves(s, UdpPop, UdpToSip);
    case Stays =>
      assert [UdpPop][1..] == [];
      assert Moves(s, [UdpPop]) == Moves(s1, []);
  }

  /** What the pass does with the packet that is first in the queue. */
  ghost function FateOf(h: UdpHandlers.UdpHandler, p: UdpHandlers.UdpPacket): Fate
    reads h`rtpSinkMap, h.rtpSinkMap.Values
  {
    if h.IsForSink(p) then ToSink(h.rtpSinkMap[p.dst].ref, h.rtpSinkMap[p.dst].active)
    else if h.IsForSip(p) then ToSip else Stays
  }

  /** The pass by what it does with the packet. */
  method PassAs(h: UdpHandlers.UdpHandler, now: int, ghost p: UdpHandlers.UdpPacket, ghost f: Fate)
    requires h.Valid() && h.udpPacketQueue.activated && h.udpPacketQueue.queue != []
    requires h.TestIsSafe(h.udpPacketQueue.queue[0])
    requires (h.recycler.pool as object) !in {h.udpPacketQueue as object, h.sipPacketQueue as object}
    requires p == h.udpPacketQueue.queue[0] && f == FateOf(h, p)
    requires forall k, k' | k in h.rtpSinkMap.Values && k' in h.rtpSinkMap.Values && k.ref == k'.ref :: k == k'
    modifies h`tlayerPacket, h.udpPacketQueue, h.sipPacketQueue, h.recycler.pool, h.rtpSinkMap.Values
    ensures h.Valid() && h.udpPacketQueue.queue == old(h.udpPacketQueue.queue)[1..]
    ensures h.sipPacketQueue.queue == old(h.sipPacketQueue.queue) + (if f == ToSip then [p] else [])
    ensures h.tlayerPacket == if f == Stays then Some(p) else None
    ensures h.recycler.pool.queue == old(h.recycler.pool.queue) + Held(HandleOf(old(h.tlayerPacket)))
                                     + (if f.ToSink? && !f.active then [p.handle] else [])
    ensures forall k <- h.rtpSinkMap.Values ::
      k.Data().packets == if f.ToSink? && f.active && k.ref == f.sink && old(k.Data()).packets.Some?
                          then Some(old(k.Data()).packets.value + [p.handle]) else old(k.Data()).packets
  {
    h.Pass(now);
  }

  /** One pass of the UDP worker, on the objects, is a run of moves. */
  method PassIsMoves(h: UdpHandlers.UdpHandler, now: int, ghost s: Places) returns (ghost f: Fate)
    requires h.Valid() && h.udpPacketQueue.activated && h.udpPacketQueue.queue != []
    requires h.TestIsSafe(h.udpPacketQueue.queue[0])
    requires (h.recycler.pool as object) !in {h.udpPacketQueue as object, h.sipPacketQueue as object}
    requires Reflects(h, s)
    modifies h`tlayerPacket, h.udpPacketQueue, h.sipPacketQueue, h.recycler.pool, h.rtpSinkMap.Values
    ensures h.Valid() && f == old(FateOf(h, h.udpPacketQueue.queue[0])) && Reflects(h, Moves(s, MovesOf(f)))
  {
    ghost var p := h.udpPacketQueue.queue[0];
    f := FateOf(h, p);
    PassMoves(s, f);
    PassAs(h, now, p, f);
  }

  lemma {:induction false} AllHandles(deque: seq<Pcm.RtpPacket>)
    ensures |Pcm.Handles(deque)| == |deque|
    decreases |deque|
  {
    if deque != [] { AllHandles(deque[..|deque| - 1]); }
  }

  /** The decoding of a deque is a run of the decoder's loop, whichever packets it decodes. */
  method DecodeIsMoves(a: Pcm.AudioHandler, deque: seq<Pcm.RtpPacket>, ghost s: Places, ghost decodes: seq<bool>)
    returns (exits: bool, chunkDeque: seq<Pcm.MemChunk>)
    requires Pcm.HasHeaders(deque) && a.recycler.pool.Valid() && |decodes| == |deque|
    requires s.pool == a.recycler.pool.queue && s.decodeDeque == Pcm.Handles(deque) && s.decodeHand == None
    modifies a.recycler.pool
    ensures a.recycler.pool.Valid()
    ensures !exits ==> Moves(s, DecodeLoop(decodes)) == s.(pool := a.recycler.pool.queue, decodeDeque := [])
  {
    AllHandles(deque);
    DecoderReturnsAll(s, decodes);
    ghost var contents;
    exits, chunkDeque, contents := a.DecodeRtpPacketDeque(deque);
    assert s.pool + [] == s.pool;
  }
}
