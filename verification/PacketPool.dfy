/**
 The fixed pool of packets: where a packet can be, and how the threads move packets about
 (src/network/PcapHandler.cpp, TlayerDispatcher.cpp, UdpHandler.cpp, src/sip/SipProcessor.cpp,
 src/audio/AudioHandler.cpp). A hand is a unique_ptr; moving a packet into a hand that holds
 one sends that one back to the pool.
 */
module PacketPool {
  import opened SipTypes
  import opened Containers

  datatype Places = Places(
    pool: seq<nat>,
    captureHand: Option<nat>,
    pcapQueue: seq<nat>,
    dispatchHand: Option<nat>,
    udpQueue: seq<nat>,
    udpHand: Option<nat>,
    sipQueue: seq<nat>,
    sipHand: Option<nat>,
    sinks: seq<Option<seq<nat>>>,
    decodeDeque: seq<nat>,
    decodeHand: Option<nat>)

  /** All packets in the pool, as at the start of the program. */
  function InPool(size: nat): Places {
    Places(seq(size, i => i), None, [], None, [], None, [], None, [], [], None)
  }

  function Deque(sink: Option<seq<nat>>): seq<nat> {
    if sink.Some? then sink.value else []
  }

  function Times(q: seq<nat>, p: nat): nat {
    multiset(q)[p]
  }

  function TimesHeld(hand: Option<nat>, p: nat): nat {
    if hand == Some(p) then 1 else 0
  }

  function TimesInSinks(sinks: seq<Option<seq<nat>>>, p: nat): nat {
    if sinks == [] then 0 else TimesInSinks(sinks[..|sinks| - 1], p) + Times(Deque(sinks[|sinks| - 1]), p)
  }

  /** How often a packet occurs in all places together. */
  function Everywhere(s: Places, p: nat): nat {
    Times(s.pool, p) + TimesHeld(s.captureHand, p) + Times(s.pcapQueue, p) + TimesHeld(s.dispatchHand, p)
    + Times(s.udpQueue, p) + TimesHeld(s.udpHand, p) + Times(s.sipQueue, p) + TimesHeld(s.sipHand, p)
    + TimesInSinks(s.sinks, p) + Times(s.decodeDeque, p) + TimesHeld(s.decodeHand, p)
  }

  datatype Move =
    | CapturePop | CapturePush          // PcapHandler::callback
    | DispatchPop | DispatchPush        // TlayerDispatcher::worker
    | UdpPop | UdpToSip                 // UdpHandler::worker
    | UdpRoll(sink: nat, active: bool)  // RtpSink::rollIn
    | SipPop                            // SipProcessor::worker
    | NewSink                           // SipProcessor::processSdp
    | DropSink(sink: nat)               // a sink is destroyed with its deque
    | TakeDeque(sink: nat)              // AudioHandler::worker
    | DecodeMove                        // decodeRtpPacketDeque: the next packet is moved in
    | DecodeReturn                      // decodeRtpPacketDeque: the packet was decoded
    | DecodeEnd                         // decodeRtpPacketDeque returns

  predicate Possible(s: Places, m: Move) {
    match m
    case CapturePop => s.pool != [] && s.captureHand == None
    case CapturePush => s.captureHand.Some?
    case DispatchPop => s.pcapQueue != []
    case DispatchPush => s.dispatchHand.Some?
    case UdpPop => s.udpQueue != []
    case UdpToSip => s.udpHand.Some?
    case UdpRoll(sink, active) => s.udpHand.Some? && sink < |s.sinks| && (active ==> s.sinks[sink].Some?)
    case SipPop => s.sipQueue != []
    case NewSink => true
    case DropSink(sink) => sink < |s.sinks|
    case TakeDeque(sink) => sink < |s.sinks| && s.sinks[sink].Some? && s.decodeDeque == [] && s.decodeHand == None
    case DecodeMove => s.decodeDeque != []
    case DecodeReturn => s.decodeHand.Some?
    case DecodeEnd => s.decodeDeque == []
  }

  function Make(s: Places, m: Move): Places
    requires Possible(s, m)
  {
    match m
    case CapturePop => s.(pool := s.pool[1..], captureHand := Some(s.pool[0]))
    case CapturePush => s.(pcapQueue := s.pcapQueue + [s.captureHand.value], captureHand := None)
    case DispatchPop =>
      s.(pcapQueue := s.pcapQueue[1..], dispatchHand := Some(s.pcapQueue[0]), pool := s.pool + Held(s.dispatchHand))
    case DispatchPush => s.(udpQueue := s.udpQueue + [s.dispatchHand.value], dispatchHand := None)
    case UdpPop => s.(udpQueue := s.udpQueue[1..], udpHand := Some(s.udpQueue[0]), pool := s.pool + Held(s.udpHand))
    case UdpToSip => s.(sipQueue := s.sipQueue + [s.udpHand.value], udpHand := None)
    case UdpRoll(k, active) =>
      if active then s.(sinks := s.sinks[k := Some(s.sinks[k].value + [s.udpHand.value])], udpHand := None)
      else s.(pool := s.pool + [s.udpHand.value], udpHand := None)
    case SipPop => s.(sipQueue := s.sipQueue[1..], sipHand := Some(s.sipQueue[0]), pool := s.pool + Held(s.sipHand))
    case NewSink => s.(sinks := s.sinks + [Some([])])
    case DropSink(k) => s.(pool := s.pool + Deque(s.sinks[k]), sinks := s.sinks[k := None])
    case TakeDeque(k) => s.(decodeDeque := s.sinks[k].value, sinks := s.sinks[k := None])
    case DecodeMove =>
      s.(decodeDeque := s.decodeDeque[1..], decodeHand := Some(s.decodeDeque[0]), pool := s.pool + Held(s.decodeHand))
    case DecodeReturn => s.(pool := s.pool + [s.decodeHand.value], decodeHand := None)
    case DecodeEnd => s.(pool := s.pool + Held(s.decodeHand), decodeHand := None)
  }

  /** The first is taken off the queue, or something is put behind it, or it stays. */
  predicate InTurn(q: seq<nat>, q': seq<nat>) {
    q <= q' || (q != [] && q' == q[1..])
  }

  /** Every move keeps the order of the pool and of every queue, and a sink keeps what it has and
      gets what comes behind that, or gives it away. */
  lemma QueuesAreFifo(s: Places, m: Move)
    requires Possible(s, m)
    ensures var r := Make(s, m);
      && InTurn(s.pool, r.pool) && InTurn(s.pcapQueue, r.pcapQueue) && InTurn(s.udpQueue, r.udpQueue)
      && InTurn(s.sipQueue, r.sipQueue) && |s.sinks| <= |r.sinks|
      && forall k | 0 <= k < |s.sinks| ::
           r.sinks[k] == None || (s.sinks[k].Some? && s.sinks[k].value <= r.sinks[k].value)
  {
  }

  /** A run of the threads; a move that is not possible is not made. */
  function Moves(s: Places, ms: seq<Move>): Places
    decreases |ms|
  {
    if ms == [] then s else Moves(if Possible(s, ms[0]) then Make(s, ms[0]) else s, ms[1..])
  }

  lemma {:induction false} SinksUpdate(sinks: seq<Option<seq<nat>>>, k: nat, sink: Option<seq<nat>>, p: nat)
    requires k < |sinks|
    ensures TimesInSinks(sinks[k := sink], p) + Times(Deque(sinks[k]), p) ==
      TimesInSinks(sinks, p) + Times(Deque(sink), p)
    decreases |sinks|
  {
    var n := |sinks| - 1;
    if k == n {
      assert sinks[k := sink][..n] == sinks[..n];
    } else {
      assert sinks[k := sink][..n] == sinks[..n][k := sink];
      SinksUpdate(sinks[..n], k, sink, p);
    }
  }

  lemma HeadAndTail(q: seq<nat>, p: nat)
    requires q != []
    ensures Times(q, p) == (if q[0] == p then 1 else 0) + Times(q[1..], p)
  {
    assert q == [q[0]] + q[1..];
  }

  lemma Append(q: seq<nat>, hand: Option<nat>, p: nat)
    ensures Times(q + Held(hand), p) == Times(q, p) + TimesHeld(hand, p)
  {
  }

  lemma Concat(q: seq<nat>, r: seq<nat>, p: nat)
    ensures Times(q + r, p) == Times(q, p) + Times(r, p)
  {
  }

  lemma CaptureKeepsPackets(s: Places, m: Move, p: nat)
    requires Possible(s, m) && (m.CapturePop? || m.CapturePush? || m.DispatchPop? || m.DispatchPush?)
    ensures Everywhere(Make(s, m), p) == Everywhere(s, p)
  {
    match m
    case CapturePop => HeadAndTail(s.pool, p);
    case CapturePush => Append(s.pcapQueue, s.captureHand, p);
    case DispatchPop => HeadAndTail(s.pcapQueue, p); Append(s.pool, s.dispatchHand, p);
    case DispatchPush => Append(s.udpQueue, s.dispatchHand, p);
  }

  lemma SipKeepsPackets(s: Places, m: Move, p: nat)
    requires Possible(s, m) && (m.UdpPop? || m.UdpToSip? || m.SipPop?)
    ensures Everywhere(Make(s, m), p) == Everywhere(s, p)
  {
    match m
    case UdpPop => HeadAndTail(s.udpQueue, p); Append(s.pool, s.udpHand, p);
    case UdpToSip => Append(s.sipQueue, s.udpHand, p);
    case SipPop => HeadAndTail(s.sipQueue, p); Append(s.pool, s.sipHand, p);
  }

  lemma SinksKeepPackets(s: Places, m: Move, p: nat)
    requires Possible(s, m) && (m.UdpRoll? || m.NewSink? || m.DropSink? || m.TakeDeque?)
    ensures Everywhere(Make(s, m), p) == Everywhere(s, p)
  {
    match m
    case UdpRoll(k, active) =>
      if active {
        SinksUpdate(s.sinks, k, Some(s.sinks[k].value + [s.udpHand.value]), p);
        Append(s.sinks[k].value, s.udpHand, p);
      } else {
        Append(s.pool, s.udpHand, p);
      }
    case NewSink => assert (s.sinks + [Some([])])[..|s.sinks|] == s.sinks;
    case DropSink(k) => SinksUpdate(s.sinks, k, None, p); Concat(s.pool, Deque(s.sinks[k]), p);
    case TakeDeque(k) => SinksUpdate(s.sinks, k, None, p);
  }

  lemma DecoderKeepsPackets(s: Places, m: Move, p: nat)
    requires Possible(s, m) && (m.DecodeMove? || m.DecodeReturn? || m.DecodeEnd?)
    ensures Everywhere(Make(s, m), p) == Everywhere(s, p)
  {
    Append(s.pool, s.decodeHand, p);
    if m.DecodeMove? {
      HeadAndTail(s.decodeDeque, p);
    }
  }

  lemma {:induction false} RunKeepsPackets(s: Places, ms: seq<Move>, p: nat)
    ensures Everywhere(Moves(s, ms), p) == Everywhere(s, p)
    decreases |ms|
  {
    if ms != [] {
      var m := ms[0];
      if Possible(s, m) {
        if m.UdpRoll? || m.NewSink? || m.DropSink? || m.TakeDeque? {
          SinksKeepPackets(s, m, p);
        } else if m.DecodeMove? || m.DecodeReturn? || m.DecodeEnd? {
          DecoderKeepsPackets(s, m, p);
        } else if m.UdpPop? || m.UdpToSip? || m.SipPop? {
          SipKeepsPackets(s, m, p);
        } else {
          CaptureKeepsPackets(s, m, p);
        }
        RunKeepsPackets(Make(s, m), ms[1..], p);
      } else {
        RunKeepsPackets(s, ms[1..], p);
      }
    }
  }

  lemma {:induction false} PoolHasEachOnce(size: nat, p: nat)
    ensures Times(seq(size, i => i), p) == if p < size then 1 else 0
  {
    var s: seq<nat> := seq(size, i => i);
    if size > 0 {
      var t: seq<nat> := seq(size - 1, i => i);
      assert s == t + [size - 1];
      PoolHasEachOnce(size - 1, p);
    }
  }

  /** In every state the threads reach, each packet of the pool is in exactly one place. */
  lemma EachPacketIsInOnePlace(size: nat, ms: seq<Move>, p: nat)
    ensures Everywhere(Moves(InPool(size), ms), p) == if p < size then 1 else 0
  {
    RunKeepsPackets(InPool(size), ms, p);
    PoolHasEachOnce(size, p);
  }

  /** The loop of decodeRtpPacketDeque, by which packets it decodes. */
  function DecodeLoop(decodes: seq<bool>): seq<Move> {
    if decodes == [] then [DecodeEnd]
    else [DecodeMove] + (if decodes[0] then [DecodeReturn] else []) + DecodeLoop(decodes[1..])
  }

  lemma MovesConcat(s: Places, ms: seq<Move>, ms': seq<Move>)
    ensures Moves(s, ms + ms') == Moves(Moves(s, ms), ms')
    decreases |ms|
  {
    if ms == [] {
      assert ms + ms' == ms';
    } else {
      assert (ms + ms')[0] == ms[0] && (ms + ms')[1..] == ms[1..] + ms';
    }
  }

  lemma OneRound(s: Places, decodes: bool)
    requires s.decodeDeque != []
    ensures var r := Moves(s, [DecodeMove] + (if decodes then [DecodeReturn] else []));
      && r == s.(pool := r.pool, decodeDeque := s.decodeDeque[1..], decodeHand := r.decodeHand)
      && r.pool + Held(r.decodeHand) == s.pool + Held(s.decodeHand) + [s.decodeDeque[0]]
  {
    var s1 := Make(s, DecodeMove);
    var ms := [DecodeMove] + (if decodes then [DecodeReturn] else []);
    if decodes {
      assert ms[1..] == [DecodeReturn] && ms[1..][1..] == [];
      assert Moves(s, ms) == Moves(s1, ms[1..]) == Moves(Make(s1, DecodeReturn), []);
    } else {
      assert ms[1..] == [];
      assert Moves(s, ms) == Moves(s1, []);
    }
  }

  lemma DecoderEnds(s: Places)
    requires s.decodeDeque == []
    ensures Moves(s, DecodeLoop([])) == s.(pool := s.pool + Held(s.decodeHand), decodeHand := None)
  {
    assert DecodeLoop([])[1..] == [];
    assert Moves(s, DecodeLoop([])) == Moves(Make(s, DecodeEnd), []);
  }

  lemma FirstRound(s: Places, decodes: seq<bool>) returns (r: Places)
    requires |decodes| == |s.decodeDeque| > 0
    ensures Moves(s, DecodeLoop(decodes)) == Moves(r, DecodeLoop(decodes[1..]))
    ensures r == s.(pool := r.pool, decodeDeque := s.decodeDeque[1..], decodeHand := r.decodeHand)
    ensures r.pool + Held(r.decodeHand) + r.decodeDeque == s.pool + Held(s.decodeHand) + s.decodeDeque
  {
    var first := [DecodeMove] + (if decodes[0] then [DecodeReturn] else []);
    MovesConcat(s, first, DecodeLoop(decodes[1..]));
    OneRound(s, decodes[0]);
    r := Moves(s, first);
    assert [s.decodeDeque[0]] + s.decodeDeque[1..] == s.decodeDeque;
  }

  /** The decoder returns every packet it takes exactly once and in order, including those
      it skips. */
  lemma {:induction false} DecoderReturnsAll(s: Places, decodes: seq<bool>)
    requires |decodes| == |s.decodeDeque|
    ensures Moves(s, DecodeLoop(decodes)) ==
      s.(pool := s.pool + Held(s.decodeHand) + s.decodeDeque, decodeDeque := [], decodeHand := None)
    decreases |decodes|
  {
    if decodes == [] {
      DecoderEnds(s);
    } else {
      var r := FirstRound(s, decodes);
      DecoderReturnsAll(r, decodes[1..]);
      assert r.pool + Held(r.decodeHand) + r.decodeDeque == s.pool + Held(s.decodeHand) + s.decodeDeque;
    }
  }
}
