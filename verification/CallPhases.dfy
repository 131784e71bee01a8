/**
 The two phases of a call's first offer, and how a packet moves a call between them.
 They decide which sinks the call may have in the global sink map.
 */
module CallPhases {
  import opened SipTypes
  import opened Signalling
  import opened CallInvariant

  /** The first INVITE of the call waits for its final response. */
  ghost predicate Offering(call: CallData) {
    !call.reinvite && exists k <- call.trans :: k.cseqMethod == Invite && InviteIsPending(call.trans[k].state)
  }

  /** The first INVITE of the call was answered by a failure and waits for the ACK. */
  ghost predicate Failed(call: CallData) {
    !call.reinvite && exists k <- call.trans :: k.cseqMethod == Invite && call.trans[k].state == TERMINATED_COMPLETED
  }

  ghost predicate Moves(call: CallData, o: Outcome) {
    && (Offering(o.call) ==>
          || (Offering(call) && o.offer == NoOffer && o.settle == Keep && o.exit == Stay)
          || (call.dialog.state == DsUndefined && o.offer == Offer(false) && o.settle == Keep && o.exit == Stay)
          || o.exit == HandOff)
    && (Failed(o.call) ==>
          || (Failed(call) && o.offer == NoOffer && o.settle == Keep && o.exit == Stay)
          || (Offering(call) && o.offer == NoOffer && o.settle == RollbackSinks && o.exit == Stay)
          || o.exit == HandOff)
    && (o.exit == Reject ==> Failed(call) && o.settle == RollbackSinks && o.call.dialog.state == DsTerminating)
    && (o.settle == CommitSinks ==> o.exit == Stay)
    && (o.settle == RollbackSinks ==> o.offer == NoOffer)
    && (o.exit == HandOff ==> o.offer == NoOffer && o.settle == Keep)
    && (o.call.dialog.state == DsUndefined ==> call.dialog.state == DsUndefined && o.offer == NoOffer)
  }

  lemma OnInviteMoves(call: CallData, c: nat, p: Packet, tid: nat, now: int)
    requires CallInv(call) && p.Id() !in call.trans && p.cseqMethod == Invite
    requires call.dialog.state != DsTerminating
    ensures Moves(call, OnInvite(call, c, p, tid, now))
  {
  }

  lemma OnRequestMoves(call: CallData, c: nat, p: Packet, tid: nat, now: int)
    requires CallInv(call)
    ensures p.cseqMethod in {Bye, Options} ==> Moves(call, OnPlainRequest(call, c, p, tid, now))
    ensures p.cseqMethod == Cancel ==> Moves(call, OnCancel(call, c, p, tid, now))
  {
  }

  lemma OnAckMoves(call: CallData, c: nat, p: Packet, now: int)
    requires CallInv(call)
    ensures Moves(call, OnAckOnSuccess(call, c, p, now))
  {
    if AckMatches(call.trans, p) {
      AcknowledgedIsOver(call, FindInvite(call.trans).value, p.Id());
    }
  }

  /** Without its first INVITE transaction a call neither offers nor has failed. */
  lemma AcknowledgedIsOver(call: CallData, k: TransactionId, k': TransactionId)
    requires CallInv(call) && k in call.trans && k.cseqMethod == Invite
    ensures var rest := call.(trans := call.trans - {k} - {k'}); !Offering(rest) && !Failed(rest)
  {
  }

  lemma OnAckOnNonSuccessMoves(call: CallData, c: nat, k: TransactionId, now: int)
    requires CallInv(call) && k in call.trans
    ensures Moves(call, OnAckOnNonSuccess(call, c, k, now))
  {
  }

  lemma OnProvisionalMoves(call: CallData, k: TransactionId, p: Packet)
    requires CallInv(call) && k in call.trans && k.cseqMethod == Invite
    ensures Moves(call, OnProvisionalOnInvite(call, k, p))
  {
  }

  lemma OnFinalMoves(call: CallData, c: nat, k: TransactionId, p: Packet, now: int)
    requires CallInv(call) && k in call.trans && k.cseqMethod == Invite
    ensures Moves(call, OnSuccessOnInvite(call, c, k, p, now))
    ensures Moves(call, OnNonSuccessOnInvite(call, c, k, p, now))
  {
  }

  lemma OnPlainResponseMoves(call: CallData, c: nat, k: TransactionId, p: Packet, now: int, leaves: bool)
    requires CallInv(call) && k in call.trans && k.cseqMethod != Invite
    ensures Moves(call, OnPlainResponse(call, c, k, p, now, leaves))
  {
  }

  lemma OnResponseMoves(call: CallData, c: nat, k: TransactionId, p: Packet, now: int)
    requires CallInv(call) && k in call.trans
    ensures Moves(call, OnResponse(call, c, k, p, now))
  {
    if k.cseqMethod == Invite {
      OnProvisionalMoves(call, k, p);
      OnFinalMoves(call, c, k, p, now);
    } else {
      OnPlainResponseMoves(call, c, k, p, now, k.cseqMethod == Bye);
    }
  }

  lemma OnInitialRequestMoves(call: CallData, c: nat, p: Packet, tid: nat, now: int)
    requires CallInv(call) && call.dialog.state != DsTerminating
    requires p.requestMethod == p.cseqMethod && p.Id() !in call.trans
    ensures Moves(call, OnInitialRequest(call, c, p, tid, now))
  {
    match p.requestMethod
    case Invite => OnInviteMoves(call, c, p, tid, now);
    case Cancel => OnRequestMoves(call, c, p, tid, now);
    case Ack => OnAckMoves(call, c, p, now);
    case Bye => OnRequestMoves(call, c, p, tid, now);
    case Options => OnRequestMoves(call, c, p, tid, now);
    case _ =>
  }

  lemma OnPacketMoves(call: CallData, c: nat, p: Packet, tid: nat, now: int)
    requires CallInv(call) && p.WellFormed() && call.dialog.state != DsTerminating
    ensures Moves(call, OnPacket(call, c, p, tid, now))
  {
    match MatchTransaction(call, p)
    case Some(k) =>
      OnAckOnNonSuccessMoves(call, c, k, now);
      OnResponseMoves(call, c, k, p, now);
    case None =>
      if p.kind == Request {
        OnInitialRequestMoves(call, c, p, tid, now);
      }
  }
}
