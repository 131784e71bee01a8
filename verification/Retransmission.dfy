/**
 Retransmissions are absorbed (section 17 of RFC 3261): processing a packet a second time
 changes nothing at all, except for an ACK that reaches a further INVITE transaction.
 */
module Retransmission {
  import opened SipTypes
  import opened Signalling
  import opened SipMachine
  import opened CallInvariant
  import opened Reachable
  import Media

  /** The packet has no effect on the call, whenever it comes. */
  ghost predicate Absorbed(call: CallData, c: nat, p: Packet) {
    forall tid: nat, now: int :: OnPacket(call, c, p, tid, now) == Nothing(call)
  }

  /** The ACK finishes an INVITE transaction of a call that stays, and the next INVITE
      transaction of the call matches it too. */
  ghost predicate AckHitsAgain(call: CallData, p: Packet) {
    p.IsRequest(Ack) &&
    match MatchTransaction(call, p)
    case Some(k) => call.trans[k].state == TERMINATED_COMPLETED && call.reinvite && AckMatches(call.trans - {k}, p)
    case None => AckMatches(call.trans, p) && AckMatches(call.trans - {FindInvite(call.trans).value}, p)
  }

  lemma InitialRequestAbsorbed(call: CallData, c: nat, p: Packet, tid: nat, now: int)
    requires CallInv(call) && p.WellFormed() && MatchTransaction(call, p) == None
    requires p.kind == Request && p.requestMethod != Ack
    ensures Absorbed(OnInitialRequest(call, c, p, tid, now).call, c, p)
  {
    var o := OnInitialRequest(call, c, p, tid, now);
    if o.newTids == 1 {
      assert p.Id() in o.call.trans;
    } else {
      assert o.call == call;
    }
  }

  lemma AckAfterDeletion(call: CallData, c: nat, p: Packet, k: TransactionId)
    requires CallInv(call) && p.WellFormed() && p.IsRequest(Ack)
    requires k in call.trans && k.cseqMethod == Invite
    requires MatchTransaction(call, p) == Some(k) || MatchTransaction(call, p) == None
    ensures MatchTransaction(call.(trans := call.trans - {k}), p) == None
  {
  }

  lemma AckAbsorbed(call: CallData, c: nat, p: Packet, tid: nat, now: int)
    requires CallInv(call) && p.WellFormed() && p.IsRequest(Ack)
    requires OnPacket(call, c, p, tid, now).exit == Stay
    ensures Absorbed(OnPacket(call, c, p, tid, now).call, c, p) || AckHitsAgain(call, p)
  {
    var o := OnPacket(call, c, p, tid, now);
    match MatchTransaction(call, p)
    case Some(k) =>
      assert k.cseqMethod == Invite;
      if call.trans[k].state == TERMINATED_COMPLETED {
        AckAfterDeletion(call, c, p, k);
        assert o.call == call.(trans := call.trans - {k});
      } else {
        assert o.call == call;
      }
    case None =>
      if AckMatches(call.trans, p) {
        var k := FindInvite(call.trans).value;
        AckAfterDeletion(call, c, p, k);
        assert p.Id() !in call.trans;
        assert call.trans - {k} - {p.Id()} == call.trans - {k};
        assert o.call == call.(trans := call.trans - {k});
      } else {
        assert o.call == call;
      }
  }

  lemma ProvisionalIsIdempotent(call: CallData, k: TransactionId, p: Packet)
    requires k in call.trans
    ensures var call1 := OnProvisionalOnInvite(call, k, p).call;
      k in call1.trans && OnProvisionalOnInvite(call1, k, p) == Nothing(call1)
  {
    var call1 := OnProvisionalOnInvite(call, k, p).call;
    if InviteIsPending(call.trans[k].state) {
      assert call1.trans[k := call1.trans[k].(state := PROCEEDING_PROCEEDING)] == call1.trans;
    }
  }

  lemma FinalComesOnce(call: CallData, c: nat, k: TransactionId, p: Packet, now: int, now': int)
    requires k in call.trans
    ensures var call1 := OnSuccessOnInvite(call, c, k, p, now).call;
      k in call1.trans && OnSuccessOnInvite(call1, c, k, p, now') == Nothing(call1)
    ensures var call1 := OnNonSuccessOnInvite(call, c, k, p, now).call;
      k in call1.trans && OnNonSuccessOnInvite(call1, c, k, p, now') == Nothing(call1)
  {
  }

  lemma ResponseRepeats(call: CallData, c: nat, k: TransactionId, p: Packet, now: int, now': int)
    requires k in call.trans && k.cseqMethod == Invite && p.kind == Response
    ensures var call1 := OnResponse(call, c, k, p, now).call;
      && call1.trans.Keys == call.trans.Keys
      && OnResponse(call1, c, k, p, now') == Nothing(call1)
  {
    ProvisionalIsIdempotent(call, k, p);
    FinalComesOnce(call, c, k, p, now, now');
  }

  lemma InviteResponseAbsorbed(call: CallData, c: nat, k: TransactionId, p: Packet, now: int)
    requires p.kind == Response && MatchTransaction(call, p) == Some(k) && k.cseqMethod == Invite
    ensures Absorbed(OnResponse(call, c, k, p, now).call, c, p)
  {
    var call1 := OnResponse(call, c, k, p, now).call;
    forall tid: nat, now': int ensures OnPacket(call1, c, p, tid, now') == Nothing(call1) {
      ResponseRepeats(call, c, k, p, now, now');
      assert MatchTransaction(call1, p) == Some(k);
    }
  }

  lemma PlainResponseAbsorbed(call: CallData, c: nat, k: TransactionId, p: Packet, now: int)
    requires CallInv(call) && p.kind == Response && MatchTransaction(call, p) == Some(k) && k.cseqMethod != Invite
    ensures Absorbed(OnResponse(call, c, k, p, now).call, c, p)
  {
    var o := OnResponse(call, c, k, p, now);
    if p.IsProvisional() {
      assert o.call == call;
    } else {
      assert MatchTransaction(o.call, p) == None;
    }
  }

  lemma ResponseAbsorbed(call: CallData, c: nat, p: Packet, tid: nat, now: int)
    requires CallInv(call) && p.kind == Response
    ensures Absorbed(OnPacket(call, c, p, tid, now).call, c, p)
  {
    match MatchTransaction(call, p)
    case None =>
    case Some(k) =>
      if k.cseqMethod == Invite {
        InviteResponseAbsorbed(call, c, k, p, now);
      } else {
        PlainResponseAbsorbed(call, c, k, p, now);
      }
  }

  /** Only an ACK can have an effect twice, and only one that reaches a second INVITE transaction. */
  lemma PacketAbsorbed(call: CallData, c: nat, p: Packet, tid: nat, now: int)
    requires CallInv(call) && p.WellFormed() && OnPacket(call, c, p, tid, now).exit == Stay
    ensures Absorbed(OnPacket(call, c, p, tid, now).call, c, p) || AckHitsAgain(call, p)
  {
    match p.kind
    case Response => ResponseAbsorbed(call, c, p, tid, now);
    case Malformed =>
    case Request =>
      if p.requestMethod == Ack {
        AckAbsorbed(call, c, p, tid, now);
      } else if MatchTransaction(call, p) == None {
        InitialRequestAbsorbed(call, c, p, tid, now);
      }
  }

  lemma AckPushes(call: CallData, c: nat, p: Packet, tid: nat, now: int)
    requires Filed(call) && p.IsRequest(Ack) && MatchTransaction(call, p) == None && AckMatches(call.trans, p)
    ensures OnPacket(call, c, p, tid, now).events != [] && OnPacket(call, c, p, tid, now).call.dialog == call.dialog
  {
    var k := FindInvite(call.trans).value;
    assert call.trans[k].id == k;
  }

  lemma FirstHit(call: CallData, c: nat, p: Packet, tid: nat, now: int, k: TransactionId)
    requires CallInv(call) && p.WellFormed() && AckHitsAgain(call, p)
    requires k == if MatchTransaction(call, p).Some? then MatchTransaction(call, p).value
                  else FindInvite(call.trans).value
    ensures k in call.trans && k.cseqMethod == Invite
    ensures var o := OnPacket(call, c, p, tid, now); o.exit == Stay && o.call == call.(trans := call.trans - {k})
  {
    AckAfterDeletion(call, c, p, k);
    assert call.trans - {k} - {p.Id()} == call.trans - {k};
  }

  /** A second hit pushes another event. */
  lemma SecondHitPushes(call: CallData, c: nat, p: Packet, tid: nat, now: int, tid': nat, now': int)
    requires CallInv(call) && p.WellFormed() && AckHitsAgain(call, p)
    ensures var o := OnPacket(call, c, p, tid, now);
      && o.exit == Stay && OnPacket(o.call, c, p, tid', now').events != []
      && OnPacket(o.call, c, p, tid', now').call.dialog == o.call.dialog
  {
    var k := if MatchTransaction(call, p).Some? then MatchTransaction(call, p).value else FindInvite(call.trans).value;
    FirstHit(call, c, p, tid, now, k);
    AckAfterDeletion(call, c, p, k);
    AckPushes(call.(trans := call.trans - {k}), c, p, tid', now');
  }

  /** The call record a packet meets: that of its call, or of the call it creates. */
  function Meets(w: World, p: Packet, now: int): CallData {
    if p.callId in w.callMap && w.callMap[p.callId] < |w.calls| then w.calls[w.callMap[p.callId]]
      else NewCallData(p, now)
  }

  /** Processing a packet a second time, at any later time, changes neither calls,
      transactions, sinks, maps, queue nor event lists, if and only if it is not an ACK
      that hits a second INVITE transaction of its call. */
  lemma RetransmissionAbsorbedIff(w: World, p: Packet, now: int, noRtp: bool, now': int, noRtp': bool)
    requires CallsInv(w) && p.WellFormed()
    ensures var r := Step(w, p, now, noRtp);
      Step(r, p, now', noRtp') == r <==> !(Admits(w, p) && AckHitsAgain(Meets(w, p, now), p))
  {
    var r := Step(w, p, now, noRtp);
    if Admits(w, p) {
      var v, c := Admit(w, p, now, noRtp), Target(w, p);
      AdmitKeepsCalls(w, p, now, noRtp);
      var o := OnPacket(v.calls[c], c, p, v.nextTid, now);
      assert Follows(v.calls[c], o);
      assert v.calls[c] == Meets(w, p, now);
      assert r == Apply(v, c, p, o, now);
      if o.exit == Stay {
        StayingStep(v, c, p, o, now, now', noRtp');
      } else {
        assert p.callId !in r.callMap;
        LeavesByAckOrResponse(v.calls[c], c, p, v.nextTid, now);
      }
    }
  }

  lemma LeavesByAckOrResponse(call: CallData, c: nat, p: Packet, tid: nat, now: int)
    requires CallInv(call) && p.WellFormed() && OnPacket(call, c, p, tid, now).exit != Stay
    ensures p.IsRequest(Ack) || p.kind == Response
    ensures !AckHitsAgain(call, p)
  {
  }

  lemma StayingStep(v: World, c: nat, p: Packet, o: Outcome, now: int, now': int, noRtp': bool)
    requires CallsInv(v) && InMap(v, c) && Names(v, p.callId, c) && p.WellFormed() && p.parses
    requires o == OnPacket(v.calls[c], c, p, v.nextTid, now) && o.exit == Stay
    requires Wf(Apply(v, c, p, o, now))
    ensures var r := Apply(v, c, p, o, now);
      Step(r, p, now', noRtp') == r <==> !AckHitsAgain(v.calls[c], p)
  {
    var r := Apply(v, c, p, o, now);
    assert Follows(v.calls[c], o);
    var o' := OnPacket(o.call, c, p, r.nextTid, now');
    assert Step(r, p, now', noRtp') == Apply(r, c, p, o', now');
    if AckHitsAgain(v.calls[c], p) {
      SecondHitPushes(v.calls[c], c, p, v.nextTid, now, r.nextTid, now');
      var caller := o.call.dialog.caller.address;
      assert EventList(Apply(r, c, p, o', now'), caller) == EventList(r, caller) + o'.events;
    } else {
      PacketAbsorbed(v.calls[c], c, p, v.nextTid, now);
      assert o' == Nothing(r.calls[c]);
      ApplyNothing(r, c, p, now');
    }
  }

  /** A hypothesis that excludes a second hit: the INVITE transactions of a call have different
      CSeq numbers (each side numbers its own requests, section 12.2.1.1 of RFC 3261, so a
      re-INVITE of the callee may repeat one of the caller), and an ACK has the CSeq number of
      the INVITE it answers. */
  ghost predicate Orderly(call: CallData, p: Packet) {
    && (forall k, k' | k in call.trans && k' in call.trans && k.cseqMethod == k'.cseqMethod == Invite && k != k' ::
          call.trans[k].cseqNum != call.trans[k'].cseqNum)
    && (p.IsRequest(Ack) && TransactionId(p.branch, Invite) in call.trans ==>
          call.trans[TransactionId(p.branch, Invite)].cseqNum == p.cseqNum)
  }

  lemma OrderlyAcksHitOnce(call: CallData, p: Packet)
    requires CallInv(call) && p.WellFormed() && Orderly(call, p)
    ensures !AckHitsAgain(call, p)
  {
  }

  lemma OrderlyPacketsAreAbsorbed(w: World, p: Packet, now: int, noRtp: bool, now': int, noRtp': bool)
    requires CallsInv(w) && p.WellFormed() && Orderly(Meets(w, p, now), p)
    ensures var r := Step(w, p, now, noRtp); Step(r, p, now', noRtp') == r
  {
    RetransmissionAbsorbedIff(w, p, now, noRtp, now', noRtp');
    if Admits(w, p) {
      AdmitKeepsCalls(w, p, now, noRtp);
      assert CallInv(Meets(w, p, now)) by {
        assert Meets(w, p, now) == Admit(w, p, now, noRtp).calls[Target(w, p)];
      }
      OrderlyAcksHitOnce(Meets(w, p, now), p);
    }
  }
}
