/**
 What each kind of packet does, by the fields of packet, call and transaction alone
 (src/sip/SipProcessor.cpp): which calls, transactions and events it makes, what becomes of the
 dialog, and when it does nothing. Together these cases are all there are.
 */
module PacketEffects {
  import opened SipTypes
  import opened Signalling
  import opened SipMachine
  import Media

  /** The outcome of a packet that is ignored. */
  predicate IsIgnored(call: CallData, o: Outcome) {
    o == Outcome(call, [], NoOffer, Keep, Stay, 0)
  }

  // ---- calls ----

  /** A packet that does not parse, or with an unknown Call-ID and other than an INVITE or OPTIONS
      request, changes nothing. These two make a call, created now, that records unless told
      otherwise, and is in the map from then on. */
  lemma UnknownCallId(w: World, p: Packet, now: int, noRtp: bool, r: World)
    requires Wf(w) && r == Step(w, p, now, noRtp)
    ensures !p.parses ==> r == w
    ensures p.parses && p.callId !in w.callMap ==>
      if p.kind == Request && (p.requestMethod == Invite || p.requestMethod == Options) then
        var c := |w.calls|;
        && |r.calls| == c + 1 && r.calls[c].callId == p.callId && r.calls[c].created == now
        && r.callMap == w.callMap[p.callId := c]
        && |r.media.calls| == c + 1 && r.media.calls[c].recording == !noRtp
      else r == w
  {
    if Admits(w, p) && p.callId !in w.callMap {
      var v := Admit(w, p, now, noRtp);
      NewCallStays(v, |w.calls|, p, now);
    }
  }

  lemma NewCallStays(v: World, c: nat, p: Packet, now: int)
    requires c < |v.calls| == |v.media.calls| && v.calls[c] == NewCallData(p, now)
    requires p.kind == Request
    ensures var r := Dispatch(v, c, p, now);
      && r.callMap == v.callMap && |r.calls| == |v.calls| && r.calls[c].created == now && r.calls[c].callId == p.callId
      && |r.media.calls| == |v.media.calls| && r.media.calls[c].recording == v.media.calls[c].recording
  {
    var o := OnPacket(v.calls[c], c, p, v.nextTid, now);
    assert o == OnInitialRequest(v.calls[c], c, p, v.nextTid, now);
    assert o.exit == Stay;
    assert Follows(v.calls[c], o);
  }

  /** A packet changes its own call at most; what a call is called and when it was made stays. */
  lemma OtherCallsStay(w: World, p: Packet, now: int, noRtp: bool, r: World, c: nat)
    requires Wf(w) && r == Step(w, p, now, noRtp) && c < |w.calls|
    ensures c < |r.calls| && r.calls[c].callId == w.calls[c].callId && r.calls[c].created == w.calls[c].created
    ensures !(p.callId in w.callMap && w.callMap[p.callId] == c) ==> r.calls[c] == w.calls[c]
  {
    if Admits(w, p) {
      var v, t := Admit(w, p, now, noRtp), Target(w, p);
      assert Follows(v.calls[t], OnPacket(v.calls[t], t, p, v.nextTid, now));
    }
  }

  // ---- requests ----

  /** An INVITE that belongs to no stored transaction is taken in a call without dialog, and as a
      re-INVITE in a confirmed one without the flag; in any other call it is ignored. */
  lemma InviteEffect(call: CallData, c: nat, p: Packet, tid: nat, now: int)
    requires p.kind == Request && p.requestMethod == p.cseqMethod == Invite
    requires TransactionId(p.branch, Invite) !in call.trans
    ensures var o, d, k := OnPacket(call, c, p, tid, now), call.dialog, TransactionId(p.branch, Invite);
      if call.reinvite || !(d.state == DsUndefined || d.state == DsConfirmed) then IsIgnored(call, o)
      else
        && o.call.reinvite == (d.state == DsConfirmed) && o.call.dialog.state == DsInit
        && o.call.dialog.caller == (if d.state == DsConfirmed then d.caller else p.from)
        && o.call.dialog.callee == (if d.state == DsConfirmed then d.callee else p.to)
        && o.call.trans == call.trans[k := TransactionData(tid, k, p.from, p.sentBy, p.cseqNum,
                                                           State(Calling, Proceeding), 0, "", false, false)]
        && o.events == [InviteEvent(now, c, tid, call.callId, o.call.dialog.caller, p.from, 0, "",
                                    d.state == DsConfirmed, false, false)]
        && o.offer == Offer(d.state == DsConfirmed) && o.settle == Keep && o.exit == Stay && o.newTids == 1
  {
  }

  /** A BYE or OPTIONS request that belongs to no stored transaction is stored, with an event
      without final response, whatever the dialog is. */
  lemma PlainRequestEffect(call: CallData, c: nat, p: Packet, tid: nat, now: int)
    requires p.kind == Request && p.requestMethod == p.cseqMethod
    requires (p.requestMethod == Bye || p.requestMethod == Options)
    requires TransactionId(p.branch, p.requestMethod) !in call.trans
    ensures var o, k := OnPacket(call, c, p, tid, now), TransactionId(p.branch, p.requestMethod);
      && o.call == call.(trans := call.trans[k := TransactionData(tid, k, p.from, p.sentBy, p.cseqNum,
                                                                  State(Trying, Trying), 0, "", false, false)])
      && |o.events| == 1 && o.events[0] ==
        (if p.requestMethod == Bye
         then ByeEvent(now, c, tid, call.callId, call.dialog.caller, p.from, 0, "", (now - call.created) / 1_000_000)
         else OptionsEvent(now, c, tid, call.callId, call.dialog.caller, p.from, 0, ""))
      && o.offer == NoOffer && o.settle == Keep && o.exit == Stay && o.newTids == 1
  {
  }

  /** A CANCEL that belongs to no stored transaction is taken if and only if there is an INVITE
      transaction on its branch with its sent-by, whatever its CSeq number is. It is stored, and
      both transactions have an event. */
  lemma CancelEffect(call: CallData, c: nat, p: Packet, tid: nat, now: int)
    requires p.kind == Request && p.requestMethod == p.cseqMethod == Cancel
    requires TransactionId(p.branch, Cancel) !in call.trans && Filed(call)
    ensures var o, k, i := OnPacket(call, c, p, tid, now), TransactionId(p.branch, Cancel),
      TransactionId(p.branch, Invite);
      if i !in call.trans || call.trans[i].sentBy != p.sentBy then IsIgnored(call, o)
      else
        var t := call.trans[i];
        && o.call == call.(trans := call.trans[
             k := TransactionData(tid, k, p.from, p.sentBy, p.cseqNum, State(Trying, Trying), 0, "", false, false)][
             i := t.(cancelFlag := true)])
        && o.events == [
             CancelEvent(now, c, tid, call.callId, call.dialog.caller, p.from, 0, ""),
             InviteEvent(now, c, t.tid, call.callId, call.dialog.caller, t.initiator, t.finalCode, t.finalReason,
                         call.reinvite, true, t.ackFlag)]
        && o.offer == NoOffer && o.settle == Keep && o.exit == Stay && o.newTids == 1
  {
    assert TransactionId(p.branch, Invite) in call.trans ==>
      call.trans[TransactionId(p.branch, Invite)].id == TransactionId(p.branch, Invite);
  }

  /** The INVITE transaction whose branch is first in the order of strings. */
  predicate IsFirstInvite(trans: map<TransactionId, TransactionData>, i: TransactionId) {
    && i in trans && i.cseqMethod == Invite
    && forall x <- trans :: x.cseqMethod == Invite ==> Leq(i.branch, x.branch)
  }

  /** An ACK that belongs to no stored transaction acknowledges the first INVITE transaction if
      and only if that has its sent-by and CSeq number: the transaction goes, with an event, the
      description is offered, and the sinks are confirmed. Otherwise, and without any INVITE
      transaction, it is ignored. */
  lemma AckEffect(call: CallData, c: nat, p: Packet, tid: nat, now: int, i: TransactionId)
    requires p.kind == Request && p.requestMethod == p.cseqMethod == Ack && Filed(call)
    requires TransactionId(p.branch, Ack) !in call.trans && TransactionId(p.branch, Invite) !in call.trans
    requires IsFirstInvite(call.trans, i) || forall x <- call.trans :: x.cseqMethod != Invite
    ensures var o := OnPacket(call, c, p, tid, now);
      if i !in call.trans || i.cseqMethod != Invite
        || call.trans[i].sentBy != p.sentBy || call.trans[i].cseqNum != p.cseqNum then IsIgnored(call, o)
      else
        var t := call.trans[i];
        && o.call == call.(trans := call.trans - {i})
        && o.events == [InviteEvent(now, c, t.tid, call.callId, call.dialog.caller, t.initiator, t.finalCode,
                                    t.finalReason, call.reinvite, t.cancelFlag, true)]
        && o.offer == Offer(call.reinvite) && o.settle == CommitSinks && o.exit == Stay && o.newTids == 0
  {
    if IsFirstInvite(call.trans, i) {
      assert IsLeast(i.branch, InviteBranches(call.trans));
      assert call.trans[i].id == i;
      assert call.trans - {i} - {TransactionId(p.branch, Ack)} == call.trans - {i};
    }
  }

  /** An ACK on the branch of an INVITE transaction ends it if and only if it was refused: with an
      event, the sinks are rolled back, and the call is rejected unless the flag is set. */
  lemma AckOnRefusalEffect(call: CallData, c: nat, p: Packet, tid: nat, now: int)
    requires p.kind == Request && p.requestMethod == p.cseqMethod == Ack && Filed(call)
    requires TransactionId(p.branch, Ack) !in call.trans && TransactionId(p.branch, Invite) in call.trans
    ensures var o, i := OnPacket(call, c, p, tid, now), TransactionId(p.branch, Invite);
      var t := call.trans[i];
      if t.state != State(Terminated, Completed) then IsIgnored(call, o)
      else
        && o.call == call.(trans := call.trans - {i},
                           dialog := if call.reinvite then call.dialog else call.dialog.(state := DsTerminating))
        && o.events == [InviteEvent(now, c, t.tid, call.callId, call.dialog.caller, t.initiator, t.finalCode,
                                    t.finalReason, call.reinvite, t.cancelFlag, true)]
        && o.offer == NoOffer && o.settle == RollbackSinks && o.newTids == 0
        && o.exit == if call.reinvite then Stay else Reject
  {
    assert call.trans[TransactionId(p.branch, Invite)].id == TransactionId(p.branch, Invite);
  }

  /** All other requests are ignored: those of other methods, and those in a stored transaction. */
  lemma OtherRequestEffect(call: CallData, c: nat, p: Packet, tid: nat, now: int)
    requires p.kind == Request && p.requestMethod == p.cseqMethod
    requires (p.requestMethod != Ack && TransactionId(p.branch, p.requestMethod) in call.trans)
      || p.requestMethod == Register || p.requestMethod == Info || p.requestMethod == UndefinedMethod
    ensures IsIgnored(call, OnPacket(call, c, p, tid, now))
  {
  }

  // ---- responses ----

  /** A response to an INVITE that waits for its final one, by its code. 100 says that it proceeds;
      101 to 199 name the callee, and the dialog is early if the To header has a tag; 2xx names
      the callee, confirms the dialog, offers its description and clears the flag; any other
      refuses the INVITE and rolls the sinks back. Final ones make an event with code and
      reason, and the flag as it was before. A response with the CSeq method ACK counts as one. */
  lemma InviteResponseEffect(call: CallData, c: nat, p: Packet, tid: nat, now: int)
    requires p.kind == Response && Filed(call) && TransactionId(p.branch, Invite) in call.trans
    requires p.cseqMethod == Invite || (p.cseqMethod == Ack && TransactionId(p.branch, Ack) !in call.trans)
    requires var s := call.trans[TransactionId(p.branch, Invite)].state;
      s == State(Calling, Proceeding) || s == State(Proceeding, Proceeding)
    ensures var o, i, code := OnPacket(call, c, p, tid, now), TransactionId(p.branch, Invite), p.responseCode;
      var t, d := call.trans[i], call.dialog;
      var named := d.(callee := Party(p.to.tag, d.callee.address, p.to.displayname));
      var t1 := t.(state := o.call.trans[i].state, finalCode := code, finalReason := p.responseReason);
      var e := InviteEvent(now, c, t.tid, call.callId, d.caller, t.initiator, code, p.responseReason, call.reinvite,
                           t.cancelFlag, t.ackFlag);
      && i in o.call.trans && o.exit == Stay && o.newTids == 0
      && if 100 <= code <= 199 then
           && o.call.trans == call.trans[i := t.(state := State(Proceeding, Proceeding))]
           && o.call.reinvite == call.reinvite && o.events == [] && o.offer == NoOffer && o.settle == Keep
           && o.call.dialog == (if code == 100 then d
                                else if p.to.tag != "" then named.(state := DsEarly) else named)
         else if 200 <= code <= 299 then
           && o.call.trans == call.trans[i := t1] && t1.state == State(Terminated, Terminated)
           && !o.call.reinvite && o.events == [e] && o.offer == Offer(call.reinvite) && o.settle == Keep
           && o.call.dialog == named.(state := DsConfirmed)
         else
           && o.call.trans == call.trans[i := t1] && t1.state == State(Terminated, Completed)
           && o.call.reinvite == call.reinvite && o.events == [e] && o.offer == NoOffer && o.settle == RollbackSinks
           && o.call.dialog == d
  {
    assert call.trans[TransactionId(p.branch, Invite)].id == TransactionId(p.branch, Invite);
  }

  /** A final response to a BYE, CANCEL or OPTIONS request that waits for it removes the
      transaction and makes one event, with its code and reason; the one to a BYE hands the call
      over. A provisional one is ignored. */
  lemma PlainResponseEffect(call: CallData, c: nat, p: Packet, tid: nat, now: int)
    requires p.kind == Response && (p.cseqMethod == Bye || p.cseqMethod == Cancel || p.cseqMethod == Options)
    requires Filed(call) && TransactionId(p.branch, p.cseqMethod) in call.trans
    requires call.trans[TransactionId(p.branch, p.cseqMethod)].state == State(Trying, Trying)
    ensures var o, k, code := OnPacket(call, c, p, tid, now), TransactionId(p.branch, p.cseqMethod), p.responseCode;
      var t, id, caller := call.trans[k], call.callId, call.dialog.caller;
      if 100 <= code <= 199 then IsIgnored(call, o)
      else
        && o.call == call.(trans := call.trans - {k}) && |o.events| == 1
        && o.events[0] ==
           (match p.cseqMethod
            case Bye => ByeEvent(now, c, t.tid, id, caller, t.initiator, code, p.responseReason,
                                 (now - call.created) / 1_000_000)
            case Cancel => CancelEvent(now, c, t.tid, id, caller, t.initiator, code, p.responseReason)
            case _ => OptionsEvent(now, c, t.tid, id, caller, t.initiator, code, p.responseReason))
        && o.offer == NoOffer && o.settle == Keep && o.newTids == 0
        && o.exit == if p.cseqMethod == Bye then HandOff else Stay
  {
    assert call.trans[TransactionId(p.branch, p.cseqMethod)].id == TransactionId(p.branch, p.cseqMethod);
  }

  /** Responses without a stored transaction, or to an INVITE that has its final response, are
      ignored, and so is what is neither request nor response. */
  lemma OtherResponseEffect(call: CallData, c: nat, p: Packet, tid: nat, now: int)
    requires p.kind != Request
    requires p.kind == Malformed || (p.cseqMethod != Ack && TransactionId(p.branch, p.cseqMethod) !in call.trans)
      || (p.cseqMethod == Invite && TransactionId(p.branch, Invite) in call.trans
          && call.trans[TransactionId(p.branch, Invite)].state.client == Terminated)
    ensures IsIgnored(call, OnPacket(call, c, p, tid, now))
  {
  }
}
