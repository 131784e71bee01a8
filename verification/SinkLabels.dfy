/**
 Whose audio a sink collects (src/sip/SipProcessor.cpp, processSdp): the party that sends a
 description names the socket it receives at, so the sink gets the audio of the other one. It
 is said when the label of a new sink is right, and that no sink ever changes its label.
 */
module SinkLabels {
  import opened SipTypes
  import opened Signalling
  import opened SipMachine
  import opened SystemModel
  import opened Reachable
  import opened Completion
  import opened OddRuns
  import Media

  // ---- what a description does ----

  /** A description in a re-INVITE with a socket that is global changes at most a CONFIRMED sink
      there, to CONFIRMED_INIT. Any other makes a sink, which is active if the call records, and
      is put into the maps under the socket if they have none there. Without description, or
      where none is asked for, nothing changes. */
  lemma OfferEffect(m: Media.MediaState, c: nat, p: Packet, o: Outcome, now: int, r: Media.MediaState)
    requires Media.Wf(m) && c < |m.calls| && r == OfferMedia(m, c, p, o, now)
    ensures if o.offer == NoOffer || p.sdp == None then r == m
      else
        var s := p.sdp.value;
        if o.offer.reinvite && s in m.global then
          && r.calls == m.calls && r.global == m.global && |r.sinks| == |m.sinks|
          && (forall k | 0 <= k < |m.sinks| :: r.sinks[k] ==
                if k == m.global[s] && m.sinks[k].status == RsConfirmed
                then m.sinks[k].(status := RsConfirmedInit) else m.sinks[k])
        else
          && r.sinks == m.sinks + [Media.SinkData(
               c, s, (p.kind == Response) != (p.to.tag == o.call.dialog.caller.tag), m.calls[c].recording,
               RsInit, Some([]), 0, now, now, now)]
          && r.global == (if s in m.global then m.global else m.global[s := |m.sinks|])
          && |r.calls| == |m.calls| && r.calls[c].recording == m.calls[c].recording
          && r.calls[c].local == (if s in m.calls[c].local then m.calls[c].local else m.calls[c].local[s := |m.sinks|])
          && (forall i | 0 <= i < |m.calls| && i != c :: r.calls[i] == m.calls[i])
  {
  }

  /** Confirming, and annulling, changes the status of the sinks in the local map of the call, and
      drops global entries; all else stays. */
  lemma SettleEffect(m: Media.MediaState, c: nat, s: SocketAddress)
    requires Media.Wf(m) && c < |m.calls| && s in m.calls[c].local
    ensures var k, confirmed, annulled := m.calls[c].local[s], Media.ConfirmSinks(m, c), Media.AnnulSinks(m, c);
      && k < |m.sinks| == |confirmed.sinks| == |annulled.sinks|
      && confirmed.sinks[k] == m.sinks[k].(status :=
           if m.sinks[k].status == RsInit || m.sinks[k].status == RsConfirmedInit then RsConfirmed else RsTerminated)
      && annulled.sinks[k] == m.sinks[k].(status :=
           if m.sinks[k].status == RsInit then RsTerminated
           else if m.sinks[k].status == RsConfirmedInit then RsConfirmed else m.sinks[k].status)
      && (s in confirmed.global <==> s in m.global && m.sinks[k].status != RsConfirmed)
      && (s in annulled.global <==> s in m.global && m.sinks[k].status != RsInit)
  {
    assert Media.WfLocal(m, c, s, m.calls[c].local[s]);
  }

  /** What the call does not hold is not settled. */
  lemma OthersAreNotSettled(m: Media.MediaState, c: nat, k: nat, s: SocketAddress)
    requires Media.Wf(m) && c < |m.calls| && s !in m.calls[c].local
    requires k < |m.sinks| && forall x <- m.calls[c].local :: m.calls[c].local[x] != k
    ensures Media.ConfirmSinks(m, c).sinks[k] == Media.AnnulSinks(m, c).sinks[k] == m.sinks[k]
    ensures s in Media.ConfirmSinks(m, c).global <==> s in m.global
    ensures s in Media.AnnulSinks(m, c).global <==> s in m.global
  {
  }

  /** A description in an ACK on a success is offered before the sinks are confirmed: a sink for a
      socket that is new to the call is confirmed at once. */
  lemma AckConfirmsItsOffer(w: World, c: nat, p: Packet, now: int, noRtp: bool, r: World, s: SocketAddress)
    requires Wf(w) && InMap(w, c) && w.calls[c].callId == p.callId && p.parses && r == Step(w, p, now, noRtp)
    requires p.IsRequest(Ack) && MatchTransaction(w.calls[c], p) == None && AckMatches(w.calls[c].trans, p)
    requires p.sdp == Some(s) && s !in w.media.calls[c].local && s !in w.media.global
    ensures c < |r.media.calls| && s in r.media.calls[c].local && r.media.calls[c].local[s] == |w.media.sinks|
    ensures |r.media.sinks| == |w.media.sinks| + 1 && r.media.sinks[|w.media.sinks|].status == RsConfirmed
    ensures s in r.media.global && r.media.global[s] == |w.media.sinks|
  {
    var o := OnPacket(w.calls[c], c, p, w.nextTid, now);
    assert o.offer.Offer? && o.settle == CommitSinks && o.exit == Stay;
    OfferedIsConfirmed(w.media, c, p, o, now, s);
  }

  lemma OfferedIsConfirmed(m: Media.MediaState, c: nat, p: Packet, o: Outcome, now: int, s: SocketAddress)
    requires Media.Wf(m) && c < |m.calls| && o.offer.Offer? && o.settle == CommitSinks && o.exit == Stay
    requires p.sdp == Some(s) && s !in m.calls[c].local && s !in m.global
    ensures var r, k := MediaAfter(m, c, p, o, now), |m.sinks|;
      && |r.calls| == |m.calls| && s in r.calls[c].local && r.calls[c].local[s] == k
      && |r.sinks| == k + 1 && r.sinks[k].status == RsConfirmed && s in r.global && r.global[s] == k
  {
    var m1 := OfferMedia(m, c, p, o, now);
    OfferEffect(m, c, p, o, now, m1);
    Media.OfferWf(m, c, s, o.offer.reinvite, IsCallerSink(o.call, p), now);
    SettleEffect(m1, c, s);
  }

  // ---- labels ----

  /** From m to r sinks keep owner, socket and label. */
  ghost predicate KeepsLabels(m: Media.MediaState, r: Media.MediaState) {
    && |m.sinks| <= |r.sinks|
    && forall k | 0 <= k < |m.sinks| ::
         r.sinks[k].isCaller == m.sinks[k].isCaller && r.sinks[k].owner == m.sinks[k].owner
         && r.sinks[k].socket == m.sinks[k].socket
  }

  lemma SettleKeepsLabels(m: Media.MediaState, c: nat, o: Outcome)
    requires c < |m.calls|
    ensures KeepsLabels(m, SettleMedia(m, c, o)) && |SettleMedia(m, c, o).sinks| == |m.sinks|
  {
  }

  /** The sender of the description. */
  function Sender(p: Packet): Party { if p.kind == Response then p.to else p.from }

  /** The sink is taken for one with the caller's audio exactly if the sender is not the caller. */
  predicate IsRight(k: Media.SinkData, p: Packet, caller: Party) {
    k.isCaller <==> Sender(p).tag != caller.tag
  }

  predicate IsOffered(k: Media.SinkData, c: nat, p: Packet, o: Outcome) {
    && p.sdp == Some(k.socket) && k.owner == c && o.offer.Offer?
    && k.isCaller == ((p.kind == Response) != (p.to.tag == o.call.dialog.caller.tag))
  }

  /** A description makes at most one sink. */
  lemma MediaLabels(m: Media.MediaState, c: nat, p: Packet, o: Outcome, now: int, r: Media.MediaState)
    requires Media.Wf(m) && c < |m.calls| && r == MediaAfter(m, c, p, o, now)
    ensures KeepsLabels(m, r) && |r.sinks| <= |m.sinks| + 1
    ensures |r.sinks| > |m.sinks| ==> IsOffered(r.sinks[|m.sinks|], c, p, o)
  {
    var m1 := OfferMedia(m, c, p, o, now);
    OfferEffect(m, c, p, o, now, m1);
    SettleKeepsLabels(m1, c, o);
  }

  /** A sink that a packet adds is one for the socket of its description, in the call of its
      Call-ID. The label is right if and only if the packet is a response, or exactly one of its
      From and To tags is that of the caller. */
  lemma LabelIsRightIff(w: World, p: Packet, now: int, noRtp: bool, r: World, k: nat)
    requires Wf(w) && r == Step(w, p, now, noRtp) && |w.media.sinks| <= k < |r.media.sinks|
    ensures var sink := r.media.sinks[k];
      && p.sdp == Some(sink.socket) && sink.owner < |r.calls| && r.calls[sink.owner].callId == p.callId
      && var caller := r.calls[sink.owner].dialog.caller;
      IsRight(sink, p, caller) <==>
        p.kind == Response || ((p.from.tag == caller.tag) != (p.to.tag == caller.tag))
  {
    if Admits(w, p) {
      AdmitWf(w, p, now, noRtp);
      DispatchLabels(Admit(w, p, now, noRtp), Target(w, p), p, now, r, k);
    }
  }

  /** The sink that the outcome adds in call c. */
  ghost predicate IsAdded(r: World, c: nat, p: Packet, k: nat) {
    && k < |r.media.sinks| && c < |r.calls| && r.calls[c].callId == p.callId && p.kind != Malformed
    && p.sdp == Some(r.media.sinks[k].socket) && r.media.sinks[k].owner == c
    && r.media.sinks[k].isCaller == ((p.kind == Response) != (p.to.tag == r.calls[c].dialog.caller.tag))
  }

  lemma NewSinkIsOffered(m: Media.MediaState, c: nat, p: Packet, o: Outcome, now: int, r: Media.MediaState, k: nat)
    requires Media.Wf(m) && c < |m.calls| && r == MediaAfter(m, c, p, o, now) && |m.sinks| <= k < |r.sinks|
    ensures IsOffered(r.sinks[k], c, p, o)
  {
    MediaLabels(m, c, p, o, now, r);
    assert k == |m.sinks|;
  }

  lemma OutcomeLabels(v: World, c: nat, p: Packet, o: Outcome, r: World, k: nat)
    requires c < |v.calls| && o.call.callId == p.callId && (o.offer.Offer? ==> p.kind != Malformed)
    requires r.calls == v.calls[c := o.call] && k < |r.media.sinks| && IsOffered(r.media.sinks[k], c, p, o)
    ensures IsAdded(r, c, p, k)
  {
  }

  lemma DispatchLabels(v: World, c: nat, p: Packet, now: int, r: World, k: nat)
    requires Wf(v) && Names(v, p.callId, c) && r == Dispatch(v, c, p, now) && |v.media.sinks| <= k < |r.media.sinks|
    ensures IsAdded(r, c, p, k)
  {
    var o := OnPacket(v.calls[c], c, p, v.nextTid, now);
    assert Follows(v.calls[c], o);
    OffersAreClear(v.calls[c], c, p, v.nextTid, now);
    NewSinkIsOffered(v.media, c, p, o, now, r.media, k);
    OutcomeLabels(v, c, p, o, r, k);
  }

  /** What is neither request nor response offers nothing. */
  lemma OffersAreClear(call: CallData, c: nat, p: Packet, tid: nat, now: int)
    ensures OnPacket(call, c, p, tid, now).offer.Offer? ==> p.kind != Malformed
  {
  }

  lemma DoKeepsLabels(cfg: Config, s: System, a: Action)
    requires SystemWf(s)
    ensures KeepsLabels(s.w.media, Do(cfg, s, a).w.media)
  {
    if Enabled(s, a) {
      match a
      case SipPacket(p, noRtp) => StepKeepsLabels(s.w, p, s.now, noRtp);
      case Check(c) => CheckKeepsLabels(cfg, s, c);
      case Commit => CommitOnlyErases(s.w, s.dog.temp);
      case _ =>
    }
  }

  lemma CheckKeepsLabels(cfg: Config, s: System, c: nat)
    requires SystemWf(s) && Enabled(s, Check(c))
    ensures KeepsLabels(s.w.media, Do(cfg, s, Check(c)).w.media)
  {
    assert KeepsLabels(s.w.media, CheckRecording(cfg, s, c));
    assert KeepsLabels(CheckRecording(cfg, s, c), Media.PollSinks(CheckRecording(cfg, s, c), c, s.now));
  }

  lemma StepKeepsLabels(w: World, p: Packet, now: int, noRtp: bool)
    requires Wf(w)
    ensures KeepsLabels(w.media, Step(w, p, now, noRtp).media)
  {
    if Admits(w, p) {
      var v, c := Admit(w, p, now, noRtp), Target(w, p);
      AdmitWf(w, p, now, noRtp);
      MediaLabels(v.media, c, p, OnPacket(v.calls[c], c, p, v.nextTid, now), now, Step(w, p, now, noRtp).media);
    }
  }

  /** In every continuation a sink keeps its label, with its call and its socket. */
  lemma {:induction false} LabelsStay(cfg: Config, s: System, acts: seq<Action>, r: System)
    requires SystemWf(s) && r == Run(cfg, s, acts)
    ensures KeepsLabels(s.w.media, r.w.media)
    decreases |acts|
  {
    if acts != [] {
      DoKeepsLabels(cfg, s, acts[0]);
      LabelsStay(cfg, Do(cfg, s, acts[0]), acts[1..], r);
    }
  }

  // ---- a call with two sinks ----

  const INVITE := RequestOf(Invite, "1", 1).(sdp := Some(SocketAddress(1, 1)))
  const OK := OkOf("1").(sdp := Some(SocketAddress(2, 2)))

  const AUDIO_OF_CALLEE := Media.SinkData(0, SocketAddress(1, 1), false, true, RsInit, Some([]), 0, 0, 0, 0)
  const AUDIO_OF_CALLER := Media.SinkData(0, SocketAddress(2, 2), true, true, RsInit, Some([]), 0, 0, 0, 0)

  const ONE_LABELLED := Media.MediaState(
    [Media.CallMedia(map[SocketAddress(1, 1) := 0], true)], [AUDIO_OF_CALLEE], map[SocketAddress(1, 1) := 0])

  const TWO_LABELLED := Media.MediaState(
    [Media.CallMedia(map[SocketAddress(1, 1) := 0, SocketAddress(2, 2) := 1], true)],
    [AUDIO_OF_CALLEE, AUDIO_OF_CALLER], map[SocketAddress(1, 1) := 0, SocketAddress(2, 2) := 1])

  lemma InviteLabels(cfg: Config)
    ensures Holding(Do(cfg, START, SipPacket(INVITE, false)), Ringing(FIRST, "1", 1, 0), ONE_LABELLED, 1)
  {
    var o := OnPacket(FIRST, 0, INVITE, 0, 0);
    assert o.call == Ringing(FIRST, "1", 1, 0) && o.exit == Stay && o.newTids == 1 && o.offer == Offer(false);
    OfferEffect(NO_SINKS, 0, INVITE, o, 0, OfferMedia(NO_SINKS, 0, INVITE, o, 0));
    assert MediaAfter(NO_SINKS, 0, INVITE, o, 0) == ONE_LABELLED;
    assert CreatesCall(START.w, INVITE);
  }

  lemma OkLabels(cfg: Config, s: System)
    requires Holding(s, Ringing(FIRST, "1", 1, 0), ONE_LABELLED, 1)
    ensures Holding(Do(cfg, s, SipPacket(OK, false)), Answered(FIRST, "1", 1, 0), TWO_LABELLED, 1)
  {
    var call := Ringing(FIRST, "1", 1, 0);
    assert TransactionId("1", Invite) in call.trans;
    var o := OnPacket(call, 0, OK, 1, 0);
    assert o.call == Answered(FIRST, "1", 1, 0) && o.exit == Stay && o.newTids == 0 && o.offer == Offer(false);
    OfferEffect(ONE_LABELLED, 0, OK, o, 0, OfferMedia(ONE_LABELLED, 0, OK, o, 0));
    assert MediaAfter(ONE_LABELLED, 0, OK, o, 0) == TWO_LABELLED;
    HoldingStep(cfg, s, call, ONE_LABELLED, 1, OK, Answered(FIRST, "1", 1, 0), TWO_LABELLED, 1);
  }

  /** An INVITE and its 2xx, each with a description: what comes to the caller's socket is the
      callee's audio, and what comes to the callee's is the caller's. */
  lemma {:induction false} BothAreLabelled(cfg: Config, s: System, r: System)
    requires s == Do(cfg, START, SipPacket(INVITE, false)) && r == Do(cfg, s, SipPacket(OK, false))
    ensures var sinks := r.w.media.sinks;
      && |sinks| == 2 && sinks[0].socket == SocketAddress(1, 1) && sinks[1].socket == SocketAddress(2, 2)
      && !sinks[0].isCaller && sinks[1].isCaller
  {
    InviteLabels(cfg);
    OkLabels(cfg, s);
  }
}
