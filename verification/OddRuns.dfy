/**
 Runs of the SIP thread that show what Reinvite, Retransmission and Recording have to allow
 for: a lost ACK keeps a later re-INVITE from being committed, or makes a retransmitted ACK
 terminate a confirmed socket, and a socket offered again leaves a sink that goes on storing
 after recording has stopped.
 */
module OddRuns {
  import opened SipTypes
  import opened Signalling
  import opened SipMachine
  import opened SystemModel
  import opened Completion
  import Media

  const SOCKET := SocketAddress(1, 1)

  /** The system holds one call, with this record, these sinks, and so many transactions. */
  ghost predicate Holding(s: System, call: CallData, m: Media.MediaState, tid: nat) {
    && SystemWf(s) && s.dog.Idle? && s.now == 0
    && s.w.callMap == map["id" := 0] && s.w.calls == [call] && call.callId == "id"
    && s.w.media == m && s.w.nextTid == tid
  }

  lemma HoldingStep(cfg: Config, s: System, call: CallData, m: Media.MediaState, tid: nat,
                    p: Packet, call': CallData, m': Media.MediaState, tid': nat)
    requires Holding(s, call, m, tid) && p.parses && p.callId == "id" && |m.calls| == 1
    requires var o := OnPacket(call, 0, p, tid, 0);
      o.exit == Stay && o.call == call' && tid + o.newTids == tid' && MediaAfter(m, 0, p, o, 0) == m'
    ensures Holding(Do(cfg, s, SipPacket(p, false)), call', m', tid')
  {
  }

  const FIRST := NewCallData(RequestOf(Invite, "1", 1), 0)
  const NO_SINKS := Media.MediaState([Media.CallMedia(map[], true)], [], map[])

  /** The first INVITE and its success, without descriptions. Its ACK is not seen. */
  lemma Unacknowledged(cfg: Config)
    ensures var s1 := Do(cfg, START, SipPacket(RequestOf(Invite, "1", 1), false));
      Holding(Do(cfg, s1, SipPacket(OkOf("1"), false)), Answered(FIRST, "1", 1, 0), NO_SINKS, 1)
  {
    var p := RequestOf(Invite, "1", 1);
    InviteOutcome(FIRST, "1", 1, 0);
    assert CreatesCall(START.w, p);
    var s1 := Do(cfg, START, SipPacket(p, false));
    assert Holding(s1, Ringing(FIRST, "1", 1, 0), NO_SINKS, 1);
    SuccessOutcome(FIRST, "1", 1, 0, 1);
    HoldingStep(cfg, s1, Ringing(FIRST, "1", 1, 0), NO_SINKS, 1, OkOf("1"), Answered(FIRST, "1", 1, 0), NO_SINKS, 1);
  }

  /** The call during a re-INVITE on branch "3". */
  function InReinvite(num: nat): CallData {
    Answered(FIRST, "1", 1, 0).(
      reinvite := true, dialog := Answered(FIRST, "1", 1, 0).dialog.(state := DsInit),
      trans := Answered(FIRST, "1", 1, 0).trans[TransactionId("3", Invite) := Waiting("3", num, 1)])
  }

  lemma ReinviteOutcome(num: nat, sdp: Option<SocketAddress>)
    ensures var o := OnPacket(Answered(FIRST, "1", 1, 0), 0, RequestOf(Invite, "3", num).(sdp := sdp), 1, 0);
      o.exit == Stay && o.call == InReinvite(num) && o.newTids == 1 && o.offer == Offer(true) && o.settle == Keep
  {
  }

  /** The first INVITE transaction is the one on branch "1". */
  lemma FirstIsOne(trans: map<TransactionId, TransactionData>)
    requires trans.Keys == {TransactionId("1", Invite), TransactionId("3", Invite)}
    ensures FindInvite(trans) == Some(TransactionId("1", Invite))
  {
    assert TransactionId("1", Invite) in trans && TransactionId("3", Invite) in trans;
    assert InviteBranches(trans) == {"1", "3"};
    assert Leq("1", "3") && Leq("1", "1");
    assert IsLeast("1", {"1", "3"});
  }

  // ---- the ACK of the first INVITE is lost ----

  const REINVITE_OK := OkOf("3").(sdp := Some(SOCKET))

  /** The call after the success of the re-INVITE. */
  function AfterReinvite(num: nat): CallData {
    InReinvite(num).(
      reinvite := false, dialog := WithCallee(InReinvite(num).dialog, REINVITE_OK).(state := DsConfirmed),
      trans := InReinvite(num).trans[TransactionId("3", Invite) := Accepted(num)])
  }

  function Accepted(num: nat): TransactionData {
    Waiting("3", num, 1).(state := TERMINATED_TERMINATED, finalCode := 200, finalReason := "OK")
  }

  const OFFERED := Media.OfferSocket(NO_SINKS, 0, SOCKET, true, IsCallerSink(AfterReinvite(1), REINVITE_OK), 0)

  lemma ReinviteOkOutcome(num: nat)
    ensures var o := OnPacket(InReinvite(num), 0, REINVITE_OK, 2, 0);
      && o.exit == Stay && o.call == AfterReinvite(num) && o.newTids == 0 && o.offer == Offer(true) && o.settle == Keep
      && MediaAfter(NO_SINKS, 0, REINVITE_OK, o, 0) == OFFERED
  {
    assert TransactionId("3", Invite) in InReinvite(num).trans;
  }

  lemma LaterAckIsLost(num: nat)
    requires num != 1
    ensures OnPacket(AfterReinvite(num), 0, RequestOf(Ack, "4", num), 2, 0) == Nothing(AfterReinvite(num))
  {
    FirstIsOne(AfterReinvite(num).trans);
  }

  /** INVITE and success, re-INVITE with this CSeq number, and its success with a description. */
  function TwoInvites(num: nat): seq<Action> {
    [SipPacket(RequestOf(Invite, "1", 1), false), SipPacket(OkOf("1"), false),
     SipPacket(RequestOf(Invite, "3", num), false), SipPacket(REINVITE_OK, false)]
  }

  lemma ReinviteAnswered(cfg: Config, s: System, num: nat)
    requires Holding(s, Answered(FIRST, "1", 1, 0), NO_SINKS, 1)
    ensures var r := Do(cfg, s, SipPacket(RequestOf(Invite, "3", num), false));
      Holding(Do(cfg, r, SipPacket(REINVITE_OK, false)), AfterReinvite(num), OFFERED, 2)
  {
    var p := RequestOf(Invite, "3", num);
    assert p == p.(sdp := None);
    ReinviteOutcome(num, None);
    HoldingStep(cfg, s, Answered(FIRST, "1", 1, 0), NO_SINKS, 1, p, InReinvite(num), NO_SINKS, 2);
    ReinviteOkOutcome(num);
    HoldingStep(cfg, Do(cfg, s, SipPacket(p, false)), InReinvite(num), NO_SINKS, 2, REINVITE_OK, AfterReinvite(num),
      OFFERED, 2);
  }

  /** The call holds the socket with status INIT, and the ACK of the re-INVITE changes nothing. */
  ghost predicate NotCommitted(s: System, num: nat) {
    && SystemWf(s) && s.w.calls == [AfterReinvite(num)] && |s.w.media.calls| == 1
    && s.w.media.calls[0].local == map[SOCKET := 0] && Media.StatusOf(s.w.media, 0) == RsInit
    && Step(s.w, RequestOf(Ack, "4", num), s.now, false) == s.w
  }

  lemma AckIsLost(s: System, num: nat)
    requires Holding(s, AfterReinvite(num), OFFERED, 2) && num != 1
    ensures NotCommitted(s, num)
  {
    LaterAckIsLost(num);
  }

  lemma {:induction false} AllAnswered(cfg: Config, num: nat)
    ensures Holding(Run(cfg, START, TwoInvites(num)), AfterReinvite(num), OFFERED, 2)
  {
    var acts := TwoInvites(num);
    RunFour(cfg, START, acts);
    Unacknowledged(cfg);
    ReinviteAnswered(cfg, Do(cfg, Do(cfg, START, acts[0]), acts[1]), num);
  }

  /** INVITE and success, whose ACK is not seen; re-INVITE and success with a description: the
      ACK of the re-INVITE changes nothing, and the socket is not confirmed by it. */
  lemma {:induction false} LostAckStopsCommit(cfg: Config, s: System, num: nat)
    requires s == Run(cfg, START, TwoInvites(num)) && num != 1
    ensures NotCommitted(s, num)
  {
    AllAnswered(cfg, num);
    AckIsLost(s, num);
  }

  // ---- the re-INVITE has the CSeq number of the first INVITE ----

  const REPEATED_ACK := RequestOf(Ack, "4", 1)

  /** The call after the ACK, and after the ACK was retransmitted. */
  const ACKED := AfterReinvite(1).(trans := map[TransactionId("3", Invite) := Accepted(1)])
  const ACKED_TWICE := AfterReinvite(1).(trans := map[])

  const CONFIRMED := Media.ConfirmSinks(OFFERED, 0)
  const TERMINATED := Media.ConfirmSinks(CONFIRMED, 0)

  lemma FirstAckOutcome()
    ensures var o := OnPacket(AfterReinvite(1), 0, REPEATED_ACK, 2, 0);
      o.exit == Stay && o.call == ACKED && o.newTids == 0 && o.settle == CommitSinks
  {
    FirstIsOne(AfterReinvite(1).trans);
    assert AfterReinvite(1).trans - {TransactionId("1", Invite)} - {REPEATED_ACK.Id()} == ACKED.trans;
  }

  lemma SecondAckOutcome()
    ensures var o := OnPacket(ACKED, 0, REPEATED_ACK, 2, 0);
      o.exit == Stay && o.call == ACKED_TWICE && o.newTids == 0 && o.settle == CommitSinks
  {
    var k := TransactionId("3", Invite);
    assert k in ACKED.trans;
    assert FindInvite(ACKED.trans) == Some(k);
    assert ACKED.trans - {k} - {REPEATED_ACK.Id()} == map[];
  }

  lemma SocketGoes()
    ensures |CONFIRMED.sinks| == 1 && CONFIRMED.sinks[0].status == RsConfirmed && SOCKET in CONFIRMED.global
    ensures |TERMINATED.sinks| == 1 && TERMINATED.sinks[0].status == RsTerminated && SOCKET !in TERMINATED.global
  {
    assert Media.Holds(OFFERED, 0, 0);
    assert Media.Holds(CONFIRMED, 0, 0);
  }

  lemma BothAcks(cfg: Config, s: System)
    requires Holding(s, AfterReinvite(1), OFFERED, 2)
    ensures var r := Do(cfg, s, SipPacket(REPEATED_ACK, false));
      Holding(r, ACKED, CONFIRMED, 2) && Holding(Do(cfg, r, SipPacket(REPEATED_ACK, false)), ACKED_TWICE, TERMINATED, 2)
  {
    FirstAckOutcome();
    HoldingStep(cfg, s, AfterReinvite(1), OFFERED, 2, REPEATED_ACK, ACKED, CONFIRMED, 2);
    SecondAckOutcome();
    HoldingStep(cfg, Do(cfg, s, SipPacket(REPEATED_ACK, false)), ACKED, CONFIRMED, 2, REPEATED_ACK, ACKED_TWICE,
      TERMINATED, 2);
  }

  /** INVITE and success, whose ACK is not seen; re-INVITE with the same CSeq number, success with
      a description, and its ACK, which confirms the socket. The same ACK once more finishes the
      second transaction and terminates the socket. */
  lemma {:induction false} RepeatedAckHitsTwice(cfg: Config, s: System, r: System, t: System)
    requires s == Run(cfg, START, TwoInvites(1))
    requires r == Do(cfg, s, SipPacket(REPEATED_ACK, false)) && t == Do(cfg, r, SipPacket(REPEATED_ACK, false))
    ensures r.w.calls == [ACKED] && t.w.calls == [ACKED_TWICE] && t.w != r.w
    ensures Media.StatusOf(r.w.media, 0) == RsConfirmed && SOCKET in r.w.media.global
    ensures Media.StatusOf(t.w.media, 0) == RsTerminated && SOCKET !in t.w.media.global
  {
    AllAnswered(cfg, 1);
    BothAcks(cfg, s);
    SocketGoes();
  }

  // ---- a sink that recording does not reach ----

  const REINVITE := RequestOf(Invite, "3", 2).(sdp := Some(SOCKET))
  const BUSY := Busy("3")
  const LATE_ACK := RequestOf(Ack, "4", 1).(sdp := Some(SOCKET))

  const REFUSED := InReinvite(2).(
    trans := InReinvite(2).trans[TransactionId("3", Invite) :=
               Waiting("3", 2, 1).(state := TERMINATED_COMPLETED, finalCode := 486, finalReason := "Busy")])

  const ONE_SINK := Media.OfferSocket(NO_SINKS, 0, SOCKET, true, IsCallerSink(InReinvite(2), REINVITE), 0)
  const ROLLED_BACK := Media.AnnulSinks(ONE_SINK, 0)

  const LATE_ACKED := REFUSED.(trans := map[TransactionId("3", Invite) := REFUSED.trans[TransactionId("3", Invite)]])
  const TWO_SINKS := Media.ConfirmSinks(Media.OfferSocket(ROLLED_BACK, 0, SOCKET, true,
    IsCallerSink(LATE_ACKED, LATE_ACK), 0), 0)

  lemma Refused()
    ensures var o := OnPacket(InReinvite(2), 0, BUSY, 2, 0);
      o.exit == Stay && o.call == REFUSED && o.newTids == 0 && o.offer == NoOffer && o.settle == RollbackSinks
  {
    assert TransactionId("3", Invite) in InReinvite(2).trans;
  }

  lemma LateAcked()
    ensures var o := OnPacket(REFUSED, 0, LATE_ACK, 2, 0);
      o.exit == Stay && o.call == LATE_ACKED && o.newTids == 0 && o.offer == Offer(true) && o.settle == CommitSinks
  {
    FirstIsOne(REFUSED.trans);
    assert REFUSED.trans - {TransactionId("1", Invite)} - {LATE_ACK.Id()} == LATE_ACKED.trans;
  }

  /** The configuration stops recording after a second, and keeps the call longer. */
  predicate Short(cfg: Config) { cfg.maxRecordingTime == 0 && cfg.maxRtpInactivity > 0 && cfg.maxCallAge > 0 }

  const STRAY := [
    SipPacket(RequestOf(Invite, "1", 1), false), SipPacket(OkOf("1"), false), SipPacket(REINVITE, false),
      SipPacket(BUSY, false)]
  const STOPPED := [SipPacket(LATE_ACK, false), Tick(Media.SECOND), Snapshot, Check(0)]

  lemma RolledBack()
    ensures ONE_SINK.calls[0].local == map[SOCKET := 0] && |ONE_SINK.sinks| == 1
    ensures ROLLED_BACK.global == map[] && ROLLED_BACK.calls == [Media.CallMedia(map[SOCKET := 0], true)]
    ensures |ROLLED_BACK.sinks| == 1 && ROLLED_BACK.sinks[0].socket == SOCKET
    ensures ROLLED_BACK.sinks[0].status == RsTerminated
  {
    assert Media.Holds(ONE_SINK, 0, 0);
  }

  lemma SecondSink()
    ensures TWO_SINKS.global == map[SOCKET := 1] && TWO_SINKS.calls == [Media.CallMedia(map[SOCKET := 0], true)]
    ensures |TWO_SINKS.sinks| == 2 && TWO_SINKS.sinks[0].socket == SOCKET
    ensures TWO_SINKS.sinks[1].socket == SOCKET && TWO_SINKS.sinks[1].active
            && TWO_SINKS.sinks[1].packets == Some([]) && TWO_SINKS.sinks[1].owner == 0
  {
    RolledBack();
  }

  /** The re-INVITE offers a socket and is refused, so the sink is TERMINATED. */
  lemma ReinviteRefused(cfg: Config, s: System)
    requires Holding(s, Answered(FIRST, "1", 1, 0), NO_SINKS, 1)
    ensures Holding(Do(cfg, Do(cfg, s, SipPacket(REINVITE, false)), SipPacket(BUSY, false)), REFUSED, ROLLED_BACK, 2)
  {
    ReinviteOutcome(2, Some(SOCKET));
    HoldingStep(cfg, s, Answered(FIRST, "1", 1, 0), NO_SINKS, 1, REINVITE, InReinvite(2), ONE_SINK, 2);
    Refused();
    HoldingStep(cfg, Do(cfg, s, SipPacket(REINVITE, false)), InReinvite(2), ONE_SINK, 2, BUSY, REFUSED, ROLLED_BACK, 2);
  }

  lemma {:induction false} AllRefused(cfg: Config)
    ensures Holding(Run(cfg, START, STRAY), REFUSED, ROLLED_BACK, 2)
  {
    RunFour(cfg, START, STRAY);
    Unacknowledged(cfg);
    ReinviteRefused(cfg, Do(cfg, Do(cfg, START, STRAY[0]), STRAY[1]));
  }

  /** A late ACK of the first INVITE offers the socket again. */
  lemma SocketComesBack(cfg: Config, s: System)
    requires Holding(s, REFUSED, ROLLED_BACK, 2)
    ensures Holding(Do(cfg, s, SipPacket(LATE_ACK, false)), LATE_ACKED, TWO_SINKS, 2)
  {
    LateAcked();
    HoldingStep(cfg, s, REFUSED, ROLLED_BACK, 2, LATE_ACK, LATE_ACKED, TWO_SINKS, 2);
  }

  lemma SecondPasses(cfg: Config, s: System)
    requires Holding(s, LATE_ACKED, TWO_SINKS, 2)
    ensures Do(cfg, s, Tick(Media.SECOND)) == s.(now := Media.SECOND)
  {
  }

  lemma SnapshotTaken(cfg: Config, s: System)
    requires SystemWf(s) && s.dog.Idle? && s.w.callMap == map["id" := 0]
    ensures Do(cfg, s, Snapshot) == s.(dog := Checking({0}, []))
  {
    assert s.w.callMap.Values == {0} by { assert "id" in s.w.callMap; }
  }

  /** The watchdog stops the recording of the call. */
  lemma RecordingEnds(cfg: Config, s: System)
    requires Short(cfg) && SystemWf(s) && s.dog.Checking? && 0 in s.dog.todo && s.now == Media.SECOND
    requires s.w.media == TWO_SINKS && s.w.calls == [LATE_ACKED]
    ensures HasStray(Do(cfg, s, Check(0)).w.media, [])
  {
    SecondSink();
    assert Age(s, 0) == 1;
    assert Retirements(cfg, s, 0) == 0;
    assert !Media.Holds(s.w.media, 0, 1);
  }

  /** The call does not record, and the global map has an active sink of it that it does not
      hold, with these packets. */
  ghost predicate HasStray(m: Media.MediaState, packets: seq<nat>) {
    && |m.calls| == 1 && !m.calls[0].recording && m.calls[0].local == map[SOCKET := 0] && m.global == map[SOCKET := 1]
    && |m.sinks| == 2 && m.sinks[1].active && m.sinks[1].packets == Some(packets) && m.sinks[1].owner == 0
  }

  lemma {:induction false} StoppedWithStray(cfg: Config, s: System)
    requires Short(cfg) && Holding(s, REFUSED, ROLLED_BACK, 2)
    ensures HasStray(Run(cfg, s, STOPPED).w.media, [])
  {
    RunFour(cfg, s, STOPPED);
    SocketComesBack(cfg, s);
    SecondPasses(cfg, Do(cfg, s, STOPPED[0]));
    SnapshotTaken(cfg, Do(cfg, Do(cfg, s, STOPPED[0]), STOPPED[1]));
    RecordingEnds(cfg, Do(cfg, Do(cfg, Do(cfg, s, STOPPED[0]), STOPPED[1]), STOPPED[2]));
  }

  lemma StrayStores(cfg: Config, s: System, packet: nat)
    requires SystemWf(s) && HasStray(s.w.media, [])
    ensures HasStray(Do(cfg, s, RtpPacket(SOCKET, packet)).w.media, [packet])
  {
    assert [] + [packet] == [packet];
  }

  /** A run after which a call does not record, and yet an RTP packet is stored for it: in a
      sink that only the global map holds. */
  lemma {:induction false} StraySinkGoesOn(cfg: Config, s: System, r: System, packet: nat)
    requires Short(cfg) && s == Run(cfg, START, STRAY) && r == Run(cfg, s, STOPPED)
    ensures HasStray(r.w.media, []) && HasStray(Do(cfg, r, RtpPacket(SOCKET, packet)).w.media, [packet])
  {
    AllRefused(cfg);
    StoppedWithStray(cfg, s);
    StrayStores(cfg, r, packet);
  }
}
