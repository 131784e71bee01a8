/**
 The UDP worker (src/network/UdpHandler.cpp): one pass of its loop routes a packet to an RTP
 sink, to the SIP queue or, in the end, back to the pool.
 */
module UdpHandlers {
  import opened SipTypes
  import opened Containers
  import opened Objects
  import Media

  /** A packet of the pool as the worker sees it after parsing the transport layer. */
  datatype UdpPacket = UdpPacket(handle: nat, parses: bool, dst: SocketAddress, payload: seq<byte>)

  const SIP_IDENT_STR: seq<byte> := [83, 73, 80, 47, 50, 46, 48]  // "SIP/2.0"

  /** RTP version 2 in the first byte. An empty payload has no first byte. */
  predicate LooksLikeRtp(p: UdpPacket) {
    p.payload != [] && p.payload[0] / 64 == 2
  }

  predicate IdentAt(payload: seq<byte>, i: nat) {
    i + |SIP_IDENT_STR| <= |payload| && payload[i..i + |SIP_IDENT_STR|] == SIP_IDENT_STR
  }

  predicate SiAt(payload: seq<byte>, i: nat) {
    i + 1 < |payload| && payload[i] == SIP_IDENT_STR[0] && payload[i + 1] == SIP_IDENT_STR[1]
  }

  /** What the SIP test accepts: the first two characters of the ident string, at a position
      from which the string would end before minSipSize. */
  predicate PassesSipTest(payload: seq<byte>, minSipSize: nat) {
    |payload| >= minSipSize && exists i | 0 <= i < minSipSize - |SIP_IDENT_STR| :: SiAt(payload, i)
  }

  /** The test never misses the ident string at such a position. */
  lemma SipIsNotMissed(payload: seq<byte>, minSipSize: nat, i: nat)
    requires |payload| >= minSipSize && i + |SIP_IDENT_STR| < minSipSize && IdentAt(payload, i)
    ensures PassesSipTest(payload, minSipSize)
  {
    assert payload[i..i + |SIP_IDENT_STR|][0] == payload[i] && payload[i..i + |SIP_IDENT_STR|][1] == payload[i + 1];
    assert SiAt(payload, i);
  }

  /** A payload that is not SIP passes, and one with the ident string right at the end of the
      first minSipSize bytes does not. */
  lemma SipTestFails()
    ensures PassesSipTest([83, 73, 0, 0, 0, 0, 0, 0], 8)
    ensures forall i :: 0 <= i ==> !IdentAt([83, 73, 0, 0, 0, 0, 0, 0], i)
    ensures IdentAt([0] + SIP_IDENT_STR, 1) && !PassesSipTest([0] + SIP_IDENT_STR, 8)
  {
    var junk: seq<byte> := [83, 73, 0, 0, 0, 0, 0, 0];
    assert SiAt(junk, 0);
    forall i | 0 <= i ensures !IdentAt(junk, i) {
      if i + 7 <= 8 {
        assert junk[i..i + 7][2] == 0;
      }
    }
    assert ([0] + SIP_IDENT_STR)[1..8] == SIP_IDENT_STR;
  }

  /** By the bytes: the test accepts exactly the payloads of minSipSize bytes at least with the
      letters S and I, one after the other, at a position less than minSipSize - 7. */
  lemma SipTestByBytes(payload: seq<byte>, minSipSize: nat)
    requires 7 <= minSipSize
    ensures |payload| < minSipSize ==> !PassesSipTest(payload, minSipSize)
    ensures |payload| >= minSipSize ==>
      (PassesSipTest(payload, minSipSize)
       <==> exists i | 0 <= i < minSipSize - 7 :: payload[i] == 0x53 && payload[i + 1] == 0x49)
  {
    if |payload| >= minSipSize {
      forall i | 0 <= i < minSipSize - 7
        ensures SiAt(payload, i) <==> payload[i] == 0x53 && payload[i + 1] == 0x49
      {
      }
    }
  }

  class UdpHandler {
    const minSipSize: nat
    const udpPacketQueue: ThreadFriendlyQueue<UdpPacket>
    const sipPacketQueue: ThreadFriendlyQueue<UdpPacket>
    const recycler: TlayerPacketRecycler
    var rtpSinkMap: map<SocketAddress, RtpSink>
    var tlayerPacket: Option<UdpPacket>

    constructor (minSipSize: nat, udpPacketQueue: ThreadFriendlyQueue<UdpPacket>,
                 sipPacketQueue: ThreadFriendlyQueue<UdpPacket>,
                 recycler: TlayerPacketRecycler)
      ensures this.minSipSize == minSipSize && this.udpPacketQueue == udpPacketQueue
      ensures this.sipPacketQueue == sipPacketQueue
      ensures this.recycler == recycler && rtpSinkMap == map[] && tlayerPacket == None
    {
      this.minSipSize := minSipSize;
      this.udpPacketQueue, this.sipPacketQueue, this.recycler := udpPacketQueue, sipPacketQueue, recycler;
      rtpSinkMap, tlayerPacket := map[], None;
    }

    /** The nested loops that search the ident string. */
    method IsSip(payload: seq<byte>) returns (isSip: bool)
      requires |SIP_IDENT_STR| <= minSipSize <= |payload|
      ensures isSip <==> PassesSipTest(payload, minSipSize)
    {
      isSip := false;
      var i := 0;
      while i < minSipSize - |SIP_IDENT_STR| && !isSip
        invariant 0 <= i <= minSipSize - |SIP_IDENT_STR|
        invariant isSip ==> PassesSipTest(payload, minSipSize)
        invariant !isSip ==> forall k | 0 <= k < i :: !SiAt(payload, k)
        decreases minSipSize - i, !isSip
      {
        if payload[i] == SIP_IDENT_STR[0] {
          isSip := true;
          var n := 1;
          var done := false;
          while n < |SIP_IDENT_STR| && !done
            invariant 1 <= n <= |SIP_IDENT_STR|
            invariant if done then isSip == SiAt(payload, i) else isSip && n == 1
            decreases |SIP_IDENT_STR| - n, !done
          {
            if payload[i + n] != SIP_IDENT_STR[n] {
              isSip := false;
              done := true;
            } else if isSip {
              done := true;
            } else {
              n := n + 1;
            }
          }
          assert isSip == SiAt(payload, i);
        }
        i := i + 1;
      }
    }

    /** The packet is for an RTP sink. */
    predicate IsForSink(p: UdpPacket)
      reads `rtpSinkMap
    {
      p.parses && LooksLikeRtp(p) && p.dst in rtpSinkMap
    }

    /** The packet is taken for SIP. */
    predicate IsForSip(p: UdpPacket)
      reads `rtpSinkMap
    {
      p.parses && !IsForSink(p) && PassesSipTest(p.payload, minSipSize)
    }

    /** Where a packet goes, by its bytes: to a sink if it parses, its first byte is from 0x80 to
        0xBF and its socket is known; else to SIP if it parses, has minSipSize bytes at least, and
        has S and I at a position less than minSipSize - 7. */
    lemma RoutedByBytes(p: UdpPacket)
      requires 7 <= minSipSize
      ensures IsForSink(p) <==> p.parses && p.payload != [] && 0x80 <= p.payload[0] <= 0xBF && p.dst in rtpSinkMap
      ensures IsForSip(p) ==> p.parses && !IsForSink(p) && |p.payload| >= minSipSize
      ensures p.parses && !IsForSink(p) && |p.payload| >= minSipSize ==>
        (IsForSip(p) <==> exists i | 0 <= i < minSipSize - 7 :: p.payload[i] == 0x53 && p.payload[i + 1] == 0x49)
    {
      SipTestByBytes(p.payload, minSipSize);
    }

    /** The test is made within the payload if minSipSize is not less than the ident string.
        The loop bound is unsigned and wraps around otherwise. */
    predicate TestIsSafe(p: UdpPacket)
      reads `rtpSinkMap
    {
      p.parses && !IsForSink(p) && |p.payload| >= minSipSize ==> |SIP_IDENT_STR| <= minSipSize
    }

    ghost predicate Valid()
      reads this, udpPacketQueue, sipPacketQueue, recycler.pool, rtpSinkMap.Values
    {
      && udpPacketQueue.Valid() && sipPacketQueue.Valid() && recycler.pool.Valid() && udpPacketQueue != sipPacketQueue
      && (forall s <- rtpSinkMap :: rtpSinkMap[s].active ==> rtpSinkMap[s].rtpPacketDeque.Some?)
    }

    /** An active sink stores the packet behind those it has, and any other leaves it to the pool. */
    ghost predicate IsRolledIn(p: UdpPacket, before: Media.SinkData, after: Media.SinkData, pool: seq<nat>) {
      if before.active
      then before.packets.Some? && after.packets == Some(before.packets.value + [p.handle])
      else after.packets == before.packets && pool != [] && pool[|pool| - 1] == p.handle
    }

    /** One pass of the worker loop for a packet that is waiting. The packet goes to its sink,
        to the SIP queue, or stays in the hand; the packet that was in the hand before, and a
        packet that an inactive sink turns away, go back to the pool. */
    method Pass(now: int)
      requires Valid() && udpPacketQueue.activated && udpPacketQueue.queue != [] && TestIsSafe(udpPacketQueue.queue[0])
      requires (recycler.pool as object) !in {udpPacketQueue as object, sipPacketQueue as object}
      modifies `tlayerPacket, udpPacketQueue, sipPacketQueue, recycler.pool, rtpSinkMap.Values
      ensures Valid()
      ensures var p := old(udpPacketQueue.queue)[0];
        && udpPacketQueue.queue == old(udpPacketQueue.queue)[1..]
        && sipPacketQueue.queue == old(sipPacketQueue.queue) + (if IsForSip(p) then [p] else [])
        && tlayerPacket == (if IsForSink(p) || IsForSip(p) then None else Some(p))
        && recycler.pool.queue == old(recycler.pool.queue)
             + (if old(tlayerPacket).Some? then [old(tlayerPacket).value.handle] else [])
             + (if IsForSink(p) && !old(rtpSinkMap[p.dst].active) then [p.handle] else [])
        && (forall k <- rtpSinkMap.Values :: k.Data() ==
              if IsForSink(p) && k == rtpSinkMap[p.dst] then Media.RollIn(old(k.Data()), p.handle, now)
                else old(k.Data()))
      // by the bytes: RTP version 2 is a first byte from 0x80 to 0xBF
      ensures var p := old(udpPacketQueue.queue)[0];
        if p.parses && p.payload != [] && 0x80 <= p.payload[0] <= 0xBF && p.dst in rtpSinkMap
        then IsRolledIn(p, old(rtpSinkMap[p.dst].Data()), rtpSinkMap[p.dst].Data(), recycler.pool.queue)
        else forall k <- rtpSinkMap.Values :: k.Data() == old(k.Data())
    {
      var next := udpPacketQueue.WaitAndPop();
      recycler.Recycle(if tlayerPacket.Some? then Some(tlayerPacket.value.handle) else None);
      tlayerPacket := next;
      Route(next.value, now);
    }

    /** The rest of the pass, with the packet in the hand. */
    method Route(p: UdpPacket, now: int)
      requires Valid() && tlayerPacket == Some(p) && TestIsSafe(p)
      requires (recycler.pool as object) != (sipPacketQueue as object)
      modifies `tlayerPacket, sipPacketQueue, recycler.pool, rtpSinkMap.Values
      ensures sipPacketQueue.Valid() && recycler.pool.Valid()
      ensures forall s <- rtpSinkMap :: rtpSinkMap[s].active ==> rtpSinkMap[s].rtpPacketDeque.Some?
      ensures sipPacketQueue.queue == old(sipPacketQueue.queue) + (if IsForSip(p) then [p] else [])
      ensures tlayerPacket == (if IsForSink(p) || IsForSip(p) then None else Some(p))
      ensures recycler.pool.queue ==
        old(recycler.pool.queue) + (if IsForSink(p) && !old(rtpSinkMap[p.dst].active) then [p.handle] else [])
      ensures forall k <- rtpSinkMap.Values ::
        k.Data() == if IsForSink(p) && k == rtpSinkMap[p.dst] then Media.RollIn(old(k.Data()), p.handle, now)
          else old(k.Data())
    {
      if !p.parses {
        return;
      }
      if p.payload != [] && p.payload[0] / 64 == 2 {
        if p.dst in rtpSinkMap {
          RollIn(rtpSinkMap[p.dst], p, now);
          return;
        }
      }
      if |p.payload| < minSipSize {
        return;
      }
      var isSip := IsSip(p.payload);
      if isSip {
        sipPacketQueue.Push(p);
        tlayerPacket := None;
      }
    }

    /** The packet moves into the sink, or from there to the pool. */
    method RollIn(rtpSink: RtpSink, p: UdpPacket, now: int)
      requires recycler.pool.Valid() && (rtpSink.active ==> rtpSink.rtpPacketDeque.Some?)
      modifies `tlayerPacket, recycler.pool, rtpSink
      ensures recycler.pool.Valid() && tlayerPacket == None
      ensures rtpSink.Data() == Media.RollIn(old(rtpSink.Data()), p.handle, now)
      ensures recycler.pool.queue == old(recycler.pool.queue) + (if old(rtpSink.active) then [] else [p.handle])
    {
      var recycled := rtpSink.RollIn(p.handle, now);
      tlayerPacket := None;
      recycler.Recycle(if recycled == [] then None else Some(recycled[0]));
    }
  }
}
