/**
 Two runs that show what the watchdog (src/container/CallMap.cpp) leaves open when SIP
 packets come in between the stages of its round: the hypotheses of SinkSafety and HandOver
 are needed.
 */
module Races {
  import opened SipTypes
  import opened Signalling
  import opened SipMachine
  import opened SystemModel
  import opened HandOver
  import opened Completion
  import Media

  /** Ticks that make a call older than the maximum call age. */
  function TooOld(cfg: Config): nat {
    (if cfg.maxCallAge < 0 then 1 else cfg.maxCallAge + 1) * Media.SECOND
  }

  const INVITE := RequestOf(Invite, "1", 1)

  /** An INVITE comes, the call grows too old, and the watchdog looks at it. */
  function Overdue(cfg: Config): seq<Action> {
    [SipPacket(INVITE, false), Tick(TooOld(cfg)), Snapshot, Check(0)]
  }

  /** One call, in setup, without sinks. */
  ghost predicate OneCall(s: System) {
    && SystemWf(s) && s.w.callMap == map["id" := 0] && |s.w.calls| == 1
    && s.w.calls[0] == Ringing(NewCallData(INVITE, 0), "1", 1, 0)
    && s.w.media.calls[0].local == map[] && s.w.media.sinks == [] && s.w.media.global == map[]
    && s.w.decodeQueue == [] && s.popped == 0
  }

  lemma InviteComes(cfg: Config)
    ensures var r := Do(cfg, START, SipPacket(INVITE, false)); OneCall(r) && r.now == 0 && r.dog.Idle?
  {
    InviteOutcome(NewCallData(INVITE, 0), "1", 1, 0);
    assert CreatesCall(START.w, INVITE);
  }

  lemma TimePasses(cfg: Config, s: System)
    requires OneCall(s) && s.now == 0 && s.dog.Idle?
    ensures var r := Do(cfg, Do(cfg, s, Tick(TooOld(cfg))), Snapshot);
      OneCall(r) && r.dog == Checking({0}, []) && r.now == TooOld(cfg)
  {
    assert s.w.callMap.Values == {0} by { assert "id" in s.w.callMap; }
  }

  lemma WatchdogLooks(cfg: Config, s: System)
    requires OneCall(s) && s.dog == Checking({0}, []) && s.now == TooOld(cfg)
    ensures var r := Do(cfg, s, Check(0));
      OneCall(r) && r.dog.Checking? && r.dog.todo == {} && r.dog.temp != []
        && forall i | 0 <= i < |r.dog.temp| :: r.dog.temp[i] == 0
  {
    var m := CheckRecording(cfg, s, 0);
    assert m.sinks == [] && m.global == map[] && m.calls[0].local == map[];
    assert Age(s, 0) > cfg.maxCallAge;
    assert Retirements(cfg, s, 0) >= 1;
  }

  lemma CallIsOverdue(cfg: Config)
    ensures var s := Run(cfg, START, Overdue(cfg));
      OneCall(s) && s.dog.Checking? && s.dog.todo == {} && s.dog.temp != []
        && forall i | 0 <= i < |s.dog.temp| :: s.dog.temp[i] == 0
  {
    var acts := Overdue(cfg);
    RunFour(cfg, START, acts);
    InviteComes(cfg);
    var s1 := Do(cfg, START, acts[0]);
    TimePasses(cfg, s1);
    WatchdogLooks(cfg, Do(cfg, Do(cfg, s1, acts[1]), acts[2]));
  }

  lemma {:induction false} CommitOfOne(w: World, temp: seq<nat>)
    requires forall i | 0 <= i < |temp| :: temp[i] == 0
    requires |w.calls| > 0 && (temp == [] || w.calls[0].callId !in w.callMap)
    ensures CommitCalls(w, temp) == w
    decreases |temp|
  {
    if temp != [] {
      CommitOfOne(w, temp[1..]);
    }
  }

  // ---- a success response between the check and the commit ----

  const SOCKET := SocketAddress(1, 1)

  /** The success of the INVITE offers a socket after the watchdog has unregistered the
      sockets of the call; then the watchdog commits and the decoder takes the call. */
  function LateOffer(cfg: Config): seq<Action> {
    Overdue(cfg) + [SipPacket(OkOf("1").(sdp := Some(SOCKET)), false), Commit, Decode]
  }

  /** The global map leads to a sink whose packet deque is gone, of a call that has left the
      call map. */
  ghost predicate LeadsToDead(w: World) {
    && SOCKET in w.media.global && w.media.global[SOCKET] < |w.media.sinks|
    && w.media.sinks[w.media.global[SOCKET]].packets == None
    && w.media.sinks[w.media.global[SOCKET]].owner == 0 && !InMap(w, 0)
  }

  lemma {:induction false} LateOfferLeavesDeadSink(cfg: Config)
    ensures LeadsToDead(Run(cfg, START, LateOffer(cfg)).w)
  {
    var late := [SipPacket(OkOf("1").(sdp := Some(SOCKET)), false), Commit, Decode];
    RunConcat(cfg, START, Overdue(cfg), late);
    CallIsOverdue(cfg);
    LateOfferEnds(cfg, Run(cfg, START, Overdue(cfg)));
  }

  ghost predicate OffersLate(s: System) {
    && SystemWf(s) && s.w.callMap == map["id" := 0] && |s.w.calls| == 1 && s.w.calls[0].callId == "id"
    && |s.w.media.sinks| == 1 && s.w.media.sinks[0].owner == 0 && s.w.media.sinks[0].socket == SOCKET
    && s.w.media.calls[0].local == map[SOCKET := 0] && s.w.media.global == map[SOCKET := 0]
    && s.w.decodeQueue == [] && s.popped == 0
  }

  lemma SuccessOffers(cfg: Config, s: System)
    requires OneCall(s)
    ensures var r := Do(cfg, s, SipPacket(OkOf("1").(sdp := Some(SOCKET)), false)); OffersLate(r) && r.dog == s.dog
  {
    var call := NewCallData(INVITE, 0);
    SuccessOutcome(call, "1", 1, 0, s.w.nextTid);
    var o := OnPacket(s.w.calls[0], 0, OkOf("1"), s.w.nextTid, 0);
    var p := OkOf("1").(sdp := Some(SOCKET));
    assert OnPacket(s.w.calls[0], 0, p, s.w.nextTid, s.now).offer == Offer(false);
  }

  lemma LateOfferEnds(cfg: Config, s: System)
    requires OneCall(s) && s.dog.Checking? && s.dog.todo == {} && s.dog.temp != []
    requires forall i | 0 <= i < |s.dog.temp| :: s.dog.temp[i] == 0
    ensures LeadsToDead(Run(cfg, s, [SipPacket(OkOf("1").(sdp := Some(SOCKET)), false), Commit, Decode]).w)
  {
    RunThree(cfg, s, [SipPacket(OkOf("1").(sdp := Some(SOCKET)), false), Commit, Decode]);
    SuccessOffers(cfg, s);
    CommitAndDecode(cfg, Do(cfg, s, SipPacket(OkOf("1").(sdp := Some(SOCKET)), false)));
  }

  lemma CommitAndDecode(cfg: Config, s: System)
    requires OffersLate(s) && s.dog.Checking? && s.dog.todo == {} && s.dog.temp != []
    requires forall i | 0 <= i < |s.dog.temp| :: s.dog.temp[i] == 0
    ensures LeadsToDead(Do(cfg, Do(cfg, s, Commit), Decode).w)
  {
    var r := Do(cfg, s, Commit);
    CommitOfOne(CommitFirst(s.w, 0), s.dog.temp[1..]);
    assert r.w == CommitFirst(s.w, 0);
    assert r.w.decodeQueue == [0];
    assert Media.Holds(r.w.media, 0, 0);
  }

  // ---- a reused Call-ID between the check and the commit ----

  /** The call on the watchdog's queue is rejected and a new call takes over its Call-ID. */
  function Takeover(cfg: Config): seq<Action> {
    Overdue(cfg)
      + [SipPacket(Busy("1"), false), SipPacket(RequestOf(Ack, "1", 1), false), SipPacket(INVITE, false), Commit]
  }

  ghost predicate TakenOver(s: System) {
    && SystemWf(s) && s.w.callMap == map["id" := 1] && |s.w.calls| == 2 && s.w.decodeQueue == []
    && s.w.calls[0].callId == s.w.calls[1].callId == "id"
    && s.w.calls[0].dialog.state == DsTerminating && s.w.calls[1].dialog.state == DsInit
  }

  lemma CallIsRejected(cfg: Config, s: System)
    requires OneCall(s)
    ensures var r := Do(cfg, Do(cfg, s, SipPacket(Busy("1"), false)), SipPacket(RequestOf(Ack, "1", 1), false));
      && r.w.callMap == map[] && |r.w.calls| == 1 && r.w.decodeQueue == [] && r.dog == s.dog
      && r.w.calls[0].callId == "id" && r.w.calls[0].dialog.state == DsTerminating
  {
    var call, k := s.w.calls[0], TransactionId("1", Invite);
    var o1 := OnPacket(call, 0, Busy("1"), s.w.nextTid, s.now);
    assert o1 == OnNonSuccessOnInvite(call, 0, k, Busy("1"), s.now);
    var s1 := Do(cfg, s, SipPacket(Busy("1"), false));
    assert s1.w.calls[0] == o1.call && s1.w.callMap == s.w.callMap;
    var ack := RequestOf(Ack, "1", 1);
    assert OnPacket(o1.call, 0, ack, s1.w.nextTid, s1.now) == OnAckOnNonSuccess(o1.call, 0, k, s1.now);
  }

  lemma IdIsTaken(cfg: Config, s: System)
    requires SystemWf(s) && s.w.callMap == map[] && |s.w.calls| == 1 && s.w.decodeQueue == []
    requires s.w.calls[0].callId == "id" && s.w.calls[0].dialog.state == DsTerminating
    ensures var r := Do(cfg, s, SipPacket(INVITE, false)); TakenOver(r) && r.dog == s.dog
  {
    assert CreatesCall(s.w, INVITE);
    assert OnPacket(NewCallData(INVITE, s.now), 1, INVITE, s.w.nextTid, s.now) ==
      OnInvite(NewCallData(INVITE, s.now), 1, INVITE, s.w.nextTid, s.now);
  }

  /** The new call is lost: neither in the map nor queued nor rejected. The rejected call is
      handed to the decoder in its place. */
  lemma {:induction false} TakeoverLosesCall(cfg: Config)
    ensures var w := Run(cfg, START, Takeover(cfg)).w;
      |w.calls| == 2 && !Somewhere(w, 1) && w.decodeQueue == [0] && Rejected(w, 0)
  {
    var late := [SipPacket(Busy("1"), false), SipPacket(RequestOf(Ack, "1", 1), false), SipPacket(INVITE, false),
      Commit];
    RunConcat(cfg, START, Overdue(cfg), late);
    CallIsOverdue(cfg);
    TakeoverEnds(cfg, Run(cfg, START, Overdue(cfg)));
  }

  lemma TakeoverEnds(cfg: Config, s: System)
    requires OneCall(s) && s.dog.Checking? && s.dog.todo == {} && s.dog.temp != []
    requires forall i | 0 <= i < |s.dog.temp| :: s.dog.temp[i] == 0
    ensures var w := Run(cfg, s,
      [SipPacket(Busy("1"), false), SipPacket(RequestOf(Ack, "1", 1), false), SipPacket(INVITE, false), Commit]).w;
      |w.calls| == 2 && !Somewhere(w, 1) && w.decodeQueue == [0] && Rejected(w, 0)
  {
    var acts := [SipPacket(Busy("1"), false), SipPacket(RequestOf(Ack, "1", 1), false), SipPacket(INVITE, false),
      Commit];
    RunFour(cfg, s, acts);
    CallIsRejected(cfg, s);
    var s2 := Do(cfg, Do(cfg, s, acts[0]), acts[1]);
    IdIsTaken(cfg, s2);
    var s3 := Do(cfg, s2, acts[2]);
    CommitTakesOther(cfg, s3);
  }

  lemma CommitTakesOther(cfg: Config, s: System)
    requires TakenOver(s) && s.dog.Checking? && s.dog.todo == {} && s.dog.temp != []
    requires forall i | 0 <= i < |s.dog.temp| :: s.dog.temp[i] == 0
    ensures var w := Do(cfg, s, Commit).w;
      |w.calls| == 2 && !Somewhere(w, 1) && w.decodeQueue == [0] && Rejected(w, 0)
  {
    CommitOfOne(CommitFirst(s.w, 0), s.dog.temp[1..]);
  }
}
