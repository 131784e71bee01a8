/**
 What a sink stores: in every interleaving, the deque of a sink is exactly the packets that came
 for it while it was active and the global map led to it, in the order in which they came, until
 the decoder takes it (src/audio/RtpSink.cpp, src/network/UdpHandler.cpp).
 */
module Arrivals {
  import opened SipTypes
  import opened Signalling
  import opened SipMachine
  import opened SystemModel
  import Media

  /** The RTP packet comes for sink k, which stores it. */
  predicate ComesFor(s: System, a: Action, k: nat) {
    && a.RtpPacket? && k < |s.w.media.sinks| && s.w.media.sinks[k].active
    && a.socket in s.w.media.global && s.w.media.global[a.socket] == k
  }

  function First(s: System, a: Action, k: nat): seq<nat> {
    if ComesFor(s, a, k) then [a.packet] else []
  }

  /** The packets that come for sink k and are stored, in the course of the run. */
  ghost function Coming(cfg: Config, s: System, acts: seq<Action>, k: nat): seq<nat>
    requires SystemWf(s)
    decreases |acts|
  {
    if acts == [] then []
    else First(s, acts[0], k) + Coming(cfg, Do(cfg, s, acts[0]), acts[1..], k)
  }

  /** The deque of sink k; a sink that is not made yet has nothing. */
  function DequeOf(m: Media.MediaState, k: nat): Option<seq<nat>> {
    if k < |m.sinks| then m.sinks[k].packets else Some([])
  }

  /** An RTP packet changes only the sink the global map has for its socket: it is counted there,
      the time is kept, and an active sink that has its deque stores it at the end. */
  lemma ReceiveEffect(cfg: Config, s: System, socket: SocketAddress, packet: nat, r: System, k: nat)
    requires SystemWf(s) && r == Do(cfg, s, RtpPacket(socket, packet)) && k < |s.w.media.sinks|
    ensures r == s.(w := s.w.(media := s.w.media.(sinks := r.w.media.sinks))) && k < |r.w.media.sinks|
    ensures var sink := s.w.media.sinks[k];
      r.w.media.sinks[k] ==
        if !(socket in s.w.media.global && s.w.media.global[socket] == k) then sink
        else sink.(packetCount := sink.packetCount + 1, lastActivity := s.now,
                   packets := if sink.active && sink.packets.Some? then Some(sink.packets.value + [packet])
                              else sink.packets)
  {
  }

  /** From m to r no deque changes, and new sinks have empty ones. */
  ghost predicate SameDeques(m: Media.MediaState, r: Media.MediaState) {
    && |m.sinks| <= |r.sinks|
    && forall k | 0 <= k < |r.sinks| :: r.sinks[k].packets == DequeOf(m, k)
  }

  lemma PacketKeepsDeques(m: Media.MediaState, c: nat, p: Packet, o: Outcome, now: int)
    requires c < |m.calls|
    ensures SameDeques(m, MediaAfter(m, c, p, o, now))
  {
    var m1 := OfferMedia(m, c, p, o, now);
    assert SameDeques(m, m1);
    assert SameDeques(m1, SettleMedia(m1, c, o));
  }

  lemma StepKeepsDeques(w: World, p: Packet, now: int, noRtp: bool)
    requires Wf(w)
    ensures SameDeques(w.media, Step(w, p, now, noRtp).media)
  {
    if Admits(w, p) {
      var v, c := Admit(w, p, now, noRtp), Target(w, p);
      AdmitWf(w, p, now, noRtp);
      PacketKeepsDeques(v.media, c, p, OnPacket(v.calls[c], c, p, v.nextTid, now), now);
    }
  }

  lemma CheckKeepsDeques(cfg: Config, s: System, c: nat)
    requires SystemWf(s) && Enabled(s, Check(c))
    ensures SameDeques(s.w.media, Do(cfg, s, Check(c)).w.media)
  {
    assert SameDeques(s.w.media, CheckRecording(cfg, s, c));
    assert SameDeques(CheckRecording(cfg, s, c), Media.PollSinks(CheckRecording(cfg, s, c), c, s.now));
  }

  /** What one action does to the deque of sink k: an RTP packet for it goes to its end, the
      decoder takes the deques of the call it gets, and nothing else changes it. */
  lemma DequeAfter(cfg: Config, s: System, a: Action, k: nat)
    requires SystemWf(s) && k < |Do(cfg, s, a).w.media.sinks|
    ensures var before, after := DequeOf(s.w.media, k), Do(cfg, s, a).w.media.sinks[k].packets;
      if ComesFor(s, a, k) && before.Some? then after == Some(before.value + [a.packet])
      else after == before || (a.Decode? && after == None)
  {
    if Enabled(s, a) {
      match a
      case SipPacket(p, noRtp) => StepKeepsDeques(s.w, p, s.now, noRtp);
      case Check(c) => CheckKeepsDeques(cfg, s, c);
      case Commit => CommitWf(s.w, s.dog.temp);
      case _ =>
    }
  }

  lemma SinksStay(cfg: Config, s: System, a: Action)
    requires SystemWf(s)
    ensures |s.w.media.sinks| <= |Do(cfg, s, a).w.media.sinks|
  {
    if Enabled(s, a) {
      match a
      case SipPacket(p, noRtp) => StepKeepsDeques(s.w, p, s.now, noRtp);
      case Check(c) => CheckKeepsDeques(cfg, s, c);
      case Commit => CommitWf(s.w, s.dog.temp);
      case _ =>
    }
  }

  /** The deque of sink k grew from before to after by this. */
  predicate Grew(before: Option<seq<nat>>, after: Option<seq<nat>>, more: seq<nat>) {
    after.Some? ==> before.Some? && after.value == before.value + more
  }

  lemma GrewTwice(before: Option<seq<nat>>, between: Option<seq<nat>>, after: Option<seq<nat>>, first: seq<nat>,
                  more: seq<nat>)
    requires Grew(before, between, first) && Grew(between, after, more)
    ensures Grew(before, after, first + more)
  {
  }

  /** In every continuation a deque that is still there grew by what came, in order. */
  lemma {:induction false} DequeGrows(cfg: Config, s: System, acts: seq<Action>, r: System, k: nat)
    requires SystemWf(s) && r == Run(cfg, s, acts)
    ensures |s.w.media.sinks| <= |r.w.media.sinks|
    ensures k < |r.w.media.sinks| ==> Grew(DequeOf(s.w.media, k), DequeOf(r.w.media, k), Coming(cfg, s, acts, k))
    decreases |acts|
  {
    if acts == [] {
      GrewNothing(s, k);
    } else {
      DequeGrowsOnce(cfg, s, acts, Do(cfg, s, acts[0]), k);
      DequeGrows(cfg, Do(cfg, s, acts[0]), acts[1..], r, k);
      if k < |r.w.media.sinks| {
        GrewTwice(DequeOf(s.w.media, k), DequeOf(Do(cfg, s, acts[0]).w.media, k), DequeOf(r.w.media, k),
          First(s, acts[0], k), Coming(cfg, Do(cfg, s, acts[0]), acts[1..], k));
      }
    }
  }

  lemma GrewNothing(s: System, k: nat)
    ensures Grew(DequeOf(s.w.media, k), DequeOf(s.w.media, k), [])
  {
  }

  lemma DequeGrowsOnce(cfg: Config, s: System, acts: seq<Action>, s1: System, k: nat)
    requires SystemWf(s) && acts != [] && s1 == Do(cfg, s, acts[0])
    ensures |s.w.media.sinks| <= |s1.w.media.sinks|
    ensures Grew(DequeOf(s.w.media, k), DequeOf(s1.w.media, k), First(s, acts[0], k))
    ensures Coming(cfg, s, acts, k) == First(s, acts[0], k) + Coming(cfg, s1, acts[1..], k)
  {
    SinksStay(cfg, s, acts[0]);
    if k < |s1.w.media.sinks| { DequeAfter(cfg, s, acts[0], k); }
  }

  /** In every run from the start: the deque of every sink, if the decoder has not taken it, is
      what came for it. */
  lemma DequeIsArrivals(cfg: Config, acts: seq<Action>, s: System, k: nat)
    requires s == Run(cfg, START, acts) && k < |s.w.media.sinks| && s.w.media.sinks[k].packets.Some?
    ensures s.w.media.sinks[k].packets == Some(Coming(cfg, START, acts, k))
  {
    DequeGrows(cfg, START, acts, s, k);
    assert [] + Coming(cfg, START, acts, k) == Coming(cfg, START, acts, k);
  }
}
