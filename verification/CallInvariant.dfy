/**
 What holds of the signalling of every call in every reachable state: how the dialog
 state, the re-INVITE flag and the stored transactions constrain each other.
 */
module CallInvariant {
  import opened SipTypes
  import opened Signalling

  /** An INVITE transaction that waits for its final response, or for the ACK on a failure. */
  predicate Live(t: TransactionData) {
    t.id.cseqMethod == Invite && t.state != TERMINATED_TERMINATED
  }

  predicate InSetup(call: CallData) {
    call.dialog.state == DsInit || call.dialog.state == DsEarly
  }

  predicate TransactionInv(t: TransactionData) {
    && !t.ackFlag
    && (t.id.cseqMethod == Invite ==>
          InviteIsPending(t.state) || t.state == TERMINATED_COMPLETED || t.state == TERMINATED_TERMINATED)
    && (t.id.cseqMethod != Invite ==> t.id.cseqMethod in {Bye, Cancel, Options} && t.state == TRYING_TRYING)
    && (InviteIsPending(t.state) || t.id.cseqMethod != Invite ==> t.finalCode == 0)
  }

  ghost predicate CallInv(call: CallData) {
    && Filed(call)
    && (forall k <- call.trans :: TransactionInv(call.trans[k]))
    // at most one live INVITE transaction, and only while the dialog is being set up
    && (forall k, k' | k in call.trans && k' in call.trans && Live(call.trans[k]) && Live(call.trans[k']) :: k == k')
    && (forall k | k in call.trans && Live(call.trans[k]) :: InSetup(call))
    && (call.reinvite ==> InSetup(call))
    && (call.dialog.state == DsUndefined ==> forall k <- call.trans :: k.cseqMethod != Invite)
    // the first INVITE of a call is its only one while it is live
    && (!call.reinvite ==>
      forall k, k' | k in call.trans && Live(call.trans[k]) && k' in call.trans && k'.cseqMethod == Invite :: k' == k)
  }

  /** The outcome keeps the invariant, and a call it leaves terminating is thrown out of the
      call map by the same packet. */
  ghost predicate Kept(call: CallData, o: Outcome) {
    && CallInv(o.call)
    && (o.call.dialog.state == DsTerminating ==> call.dialog.state == DsTerminating || o.exit == Reject)
  }

  lemma OnInviteKeeps(call: CallData, c: nat, p: Packet, tid: nat, now: int)
    requires CallInv(call) && p.Id() !in call.trans && p.cseqMethod == Invite
    ensures Kept(call, OnInvite(call, c, p, tid, now))
  {
  }

  lemma OnPlainRequestKeeps(call: CallData, c: nat, p: Packet, tid: nat, now: int)
    requires CallInv(call) && p.cseqMethod in {Bye, Options}
    ensures Kept(call, OnPlainRequest(call, c, p, tid, now))
  {
  }

  lemma OnCancelKeeps(call: CallData, c: nat, p: Packet, tid: nat, now: int)
    requires CallInv(call) && p.cseqMethod == Cancel
    ensures Kept(call, OnCancel(call, c, p, tid, now))
  {
  }

  lemma OnAckKeeps(call: CallData, c: nat, p: Packet, now: int)
    requires CallInv(call)
    ensures Kept(call, OnAckOnSuccess(call, c, p, now))
  {
  }

  lemma OnAckOnNonSuccessKeeps(call: CallData, c: nat, k: TransactionId, now: int)
    requires CallInv(call) && k in call.trans
    ensures Kept(call, OnAckOnNonSuccess(call, c, k, now))
  {
  }

  lemma OnProvisionalKeeps(call: CallData, k: TransactionId, p: Packet)
    requires CallInv(call) && k in call.trans && k.cseqMethod == Invite
    ensures Kept(call, OnProvisionalOnInvite(call, k, p))
  {
  }

  lemma OnSuccessKeeps(call: CallData, c: nat, k: TransactionId, p: Packet, now: int)
    requires CallInv(call) && k in call.trans && k.cseqMethod == Invite
    ensures Kept(call, OnSuccessOnInvite(call, c, k, p, now))
  {
  }

  lemma OnNonSuccessKeeps(call: CallData, c: nat, k: TransactionId, p: Packet, now: int)
    requires CallInv(call) && k in call.trans && k.cseqMethod == Invite
    ensures Kept(call, OnNonSuccessOnInvite(call, c, k, p, now))
  {
  }

  lemma OnPlainResponseKeeps(call: CallData, c: nat, k: TransactionId, p: Packet, now: int, leaves: bool)
    requires CallInv(call) && k in call.trans
    ensures Kept(call, OnPlainResponse(call, c, k, p, now, leaves))
  {
  }

  lemma OnResponseKeeps(call: CallData, c: nat, k: TransactionId, p: Packet, now: int)
    requires CallInv(call) && k in call.trans
    ensures Kept(call, OnResponse(call, c, k, p, now))
  {
    if k.cseqMethod == Invite {
      OnProvisionalKeeps(call, k, p);
      OnSuccessKeeps(call, c, k, p, now);
      OnNonSuccessKeeps(call, c, k, p, now);
    } else {
      OnPlainResponseKeeps(call, c, k, p, now, k.cseqMethod == Bye);
    }
  }

  lemma OnInitialRequestKeeps(call: CallData, c: nat, p: Packet, tid: nat, now: int)
    requires CallInv(call) && p.requestMethod == p.cseqMethod && p.Id() !in call.trans
    ensures Kept(call, OnInitialRequest(call, c, p, tid, now))
  {
    match p.requestMethod
    case Invite => OnInviteKeeps(call, c, p, tid, now);
    case Cancel => OnCancelKeeps(call, c, p, tid, now);
    case Ack => OnAckKeeps(call, c, p, now);
    case Bye => OnPlainRequestKeeps(call, c, p, tid, now);
    case Options => OnPlainRequestKeeps(call, c, p, tid, now);
    case _ =>
  }

  /** Every packet whose CSeq method is its method keeps the invariant. */
  lemma OnPacketKeeps(call: CallData, c: nat, p: Packet, tid: nat, now: int)
    requires CallInv(call) && p.WellFormed()
    ensures Kept(call, OnPacket(call, c, p, tid, now))
  {
    match MatchTransaction(call, p)
    case Some(k) =>
      OnAckOnNonSuccessKeeps(call, c, k, now);
      OnResponseKeeps(call, c, k, p, now);
    case None =>
      if p.kind == Request {
        OnInitialRequestKeeps(call, c, p, tid, now);
      }
  }
}
