/**
 The SIP signalling of one call: dialog, transactions and re-INVITE flag, and for every
 handler of src/sip/SipProcessor.cpp what it makes of them. A handler's outcome also says
 which events it pushes, whether it processes the session description, how it settles the
 sinks, and whether the call leaves the call map.
 */
module Signalling {
  import opened SipTypes

  /** A stored transaction; `tid` names the object. */
  datatype TransactionData = TransactionData(
    tid: nat,
    id: TransactionId,
    initiator: Party,
    sentBy: string,
    cseqNum: nat,
    state: TransactionState,
    finalCode: nat,
    finalReason: string,
    cancelFlag: bool,
    ackFlag: bool)

  datatype Dialog = Dialog(state: DialogState, caller: Party, callee: Party)

  datatype CallData = CallData(
    callId: string,
    created: int,
    dialog: Dialog,
    trans: map<TransactionId, TransactionData>,
    reinvite: bool)

  const NOBODY := Party("", "", "")

  /** An event for the signalling analysis; `call` and `tid` name the objects it is about. */
  datatype Event =
    | InviteEvent(ts: int, call: nat, tid: nat, callId: string, caller: Party, initiator: Party,
                  code: nat, reason: string, reinvite: bool, cancel: bool, ack: bool)
    | ByeEvent(ts: int, call: nat, tid: nat, callId: string, caller: Party, initiator: Party,
               code: nat, reason: string, duration: int)
    | CancelEvent(ts: int, call: nat, tid: nat, callId: string, caller: Party, initiator: Party,
                  code: nat, reason: string)
    | OptionsEvent(ts: int, call: nat, tid: nat, callId: string, caller: Party, initiator: Party,
                   code: nat, reason: string)

  /** A duration in clock ticks, cast to milliseconds. */
  function Milliseconds(d: int): int { d / 1_000_000 }

  /** The events Transaction::createAndPushEvent pushes: at most one. */
  function EventsOf(call: CallData, c: nat, t: TransactionData, now: int): (es: seq<Event>) {
    match t.id.cseqMethod
    case Invite => [InviteEvent(now, c, t.tid, call.callId, call.dialog.caller, t.initiator,
                                t.finalCode, t.finalReason, call.reinvite, t.cancelFlag, t.ackFlag)]
    case Bye => [ByeEvent(now, c, t.tid, call.callId, call.dialog.caller, t.initiator,
                          t.finalCode, t.finalReason, Milliseconds(now - call.created))]
    case Cancel => [CancelEvent(now, c, t.tid, call.callId, call.dialog.caller, t.initiator,
                                t.finalCode, t.finalReason)]
    case Options => [OptionsEvent(now, c, t.tid, call.callId, call.dialog.caller, t.initiator,
                                  t.finalCode, t.finalReason)]
    case _ => []
  }

  function NewCallData(p: Packet, now: int): CallData {
    CallData(p.callId, now, Dialog(DsUndefined, NOBODY, NOBODY), map[], false)
  }

  function NewTransaction(p: Packet, tid: nat): TransactionData {
    TransactionData(tid, p.Id(), p.from, p.sentBy, p.cseqNum, TERMINATED_TERMINATED, 0, "", false, false)
  }

  /** Whether the session description is processed, and with which re-INVITE flag. */
  datatype Offer = NoOffer | Offer(reinvite: bool)

  datatype Settlement = Keep | CommitSinks | RollbackSinks

  /** Reject: erased from the call map. HandOff: erased and pushed to the decode queue. */
  datatype Exit = Stay | Reject | HandOff

  datatype Outcome = Outcome(call: CallData, events: seq<Event>, offer: Offer, settle: Settlement, exit: Exit,
    newTids: nat)

  /** Every transaction is filed under its own id. */
  ghost predicate Filed(call: CallData) {
    forall k <- call.trans :: call.trans[k].id == k
  }

  /** The outcome is about the same call. */
  ghost predicate Follows(call: CallData, o: Outcome) {
    && o.call.callId == call.callId
    && o.call.created == call.created
    && (Filed(call) ==> Filed(o.call))
  }

  function Nothing(call: CallData): (o: Outcome)
    ensures Follows(call, o)
  {
    Outcome(call, [], NoOffer, Keep, Stay, 0)
  }

  // ---- finding transactions ----

  function InviteBranches(trans: map<TransactionId, TransactionData>): (bs: set<string>)
    ensures forall b :: b in bs <==> TransactionId(b, Invite) in trans
  {
    set k | k in trans && k.cseqMethod == Invite :: k.branch
  }

  /** Call::findInviteTransaction: the first INVITE transaction in map order. */
  ghost function FindInvite(trans: map<TransactionId, TransactionData>): (k: Option<TransactionId>)
    ensures k.Some? ==> k.value in trans && k.value.cseqMethod == Invite
    ensures k.None? <==> forall x <- trans :: x.cseqMethod != Invite
  {
    var bs := InviteBranches(trans);
    if bs == {} then
      assert forall x <- trans :: x.cseqMethod == Invite ==> x.branch in bs;
      None
    else Some(TransactionId(Least(bs), Invite))
  }

  /** An ACK on a success matches the first INVITE transaction. */
  ghost predicate AckMatches(trans: map<TransactionId, TransactionData>, p: Packet) {
    var k := FindInvite(trans);
    k.Some? && p.sentBy == trans[k.value].sentBy && p.cseqNum == trans[k.value].cseqNum
  }

  /** The transaction a packet belongs to: same branch and CSeq method, or an ACK on the
      branch of an INVITE. */
  function MatchTransaction(call: CallData, p: Packet): (k: Option<TransactionId>)
    ensures k.Some? ==> k.value in call.trans
  {
    if p.Id() in call.trans then Some(p.Id())
    else if p.cseqMethod == Ack && TransactionId(p.branch, Invite) in call.trans
    then Some(TransactionId(p.branch, Invite))
    else None
  }

  predicate InviteIsPending(s: TransactionState) {
    s == CALLING_PROCEEDING || s == PROCEEDING_PROCEEDING
  }

  predicate RequestIsPending(s: TransactionState) {
    s == TRYING_TRYING || s == PROCEEDING_PROCEEDING
  }

  // ---- requests that start a transaction ----

  function Store(call: CallData, t: TransactionData): CallData {
    call.(trans := InsertNew(call.trans, t.id, t))
  }

  function Used(call: CallData, t: TransactionData): nat {
    if t.id in call.trans then 0 else 1
  }

  /** The INVITE is refused: the call is dying, or another INVITE is under way. */
  predicate RefusesInvite(call: CallData) {
    call.dialog.state == DsTerminating || call.dialog.state == DsInit || call.dialog.state == DsEarly || call.reinvite
  }

  function InviteTransaction(p: Packet, tid: nat): TransactionData {
    NewTransaction(p, tid).(state := CALLING_PROCEEDING)
  }

  function OnInvite(call: CallData, c: nat, p: Packet, tid: nat, now: int): (o: Outcome)
    ensures Follows(call, o)
  {
    if RefusesInvite(call) then Nothing(call)
    else
      var call1 := if call.dialog.state == DsConfirmed
                   then call.(reinvite := true, dialog := call.dialog.(state := DsInit))
                   else call.(dialog := Dialog(DsInit, p.from, p.to));
      var t := InviteTransaction(p, tid);
      Outcome(Store(call1, t), EventsOf(call1, c, t, now), Offer(call1.reinvite), Keep, Stay, Used(call1, t))
  }

  /** handleBye and handleOptions. */
  function OnPlainRequest(call: CallData, c: nat, p: Packet, tid: nat, now: int): (o: Outcome)
    ensures Follows(call, o)
  {
    var t := NewTransaction(p, tid).(state := TRYING_TRYING);
    Outcome(Store(call, t), EventsOf(call, c, t, now), NoOffer, Keep, Stay, Used(call, t))
  }

  function OnCancel(call: CallData, c: nat, p: Packet, tid: nat, now: int): (o: Outcome)
    ensures Follows(call, o)
  {
    var k := TransactionId(p.branch, Invite);
    if k !in call.trans || p.sentBy != call.trans[k].sentBy then Nothing(call)
    else
      var t := NewTransaction(p, tid).(state := TRYING_TRYING);
      var it := call.trans[k].(cancelFlag := true);
      var call1 := Store(call, t);
      Outcome(call1.(trans := call1.trans[k := it]), EventsOf(call, c, t, now) + EventsOf(call, c, it, now),
              NoOffer, Keep, Stay, Used(call, t))
  }

  ghost function OnAckOnSuccess(call: CallData, c: nat, p: Packet, now: int): (o: Outcome)
    ensures Follows(call, o)
  {
    match FindInvite(call.trans)
    case None => Nothing(call)
    case Some(k) =>
      var t := call.trans[k];
      if p.sentBy != t.sentBy || p.cseqNum != t.cseqNum then Nothing(call)
      else Outcome(call.(trans := call.trans - {k} - {p.Id()}), EventsOf(call, c, t.(ackFlag := true), now),
                   Offer(call.reinvite), CommitSinks, Stay, 0)
  }

  ghost function OnInitialRequest(call: CallData, c: nat, p: Packet, tid: nat, now: int): (o: Outcome)
    ensures Follows(call, o)
  {
    match p.requestMethod
    case Invite => OnInvite(call, c, p, tid, now)
    case Cancel => OnCancel(call, c, p, tid, now)
    case Ack => OnAckOnSuccess(call, c, p, now)
    case Bye => OnPlainRequest(call, c, p, tid, now)
    case Options => OnPlainRequest(call, c, p, tid, now)
    case _ => Nothing(call)
  }

  // ---- packets within a transaction ----

  function OnAckOnNonSuccess(call: CallData, c: nat, k: TransactionId, now: int): (o: Outcome)
    requires k in call.trans
    ensures Follows(call, o)
  {
    var t := call.trans[k];
    if t.state != TERMINATED_COMPLETED then Nothing(call)
    else
      var call1 := call.(trans := call.trans - {k});
      var events := EventsOf(call, c, t.(state := TERMINATED_TERMINATED, ackFlag := true), now);
      if call.reinvite then Outcome(call1, events, NoOffer, RollbackSinks, Stay, 0)
      else Outcome(call1.(dialog := call.dialog.(state := DsTerminating)), events, NoOffer, RollbackSinks, Reject, 0)
  }

  function Answer(t: TransactionData, s: TransactionState, p: Packet): TransactionData {
    t.(state := s, finalCode := p.responseCode, finalReason := p.responseReason)
  }

  function WithCallee(d: Dialog, p: Packet): Dialog {
    d.(callee := d.callee.(tag := p.to.tag, displayname := p.to.displayname))
  }

  function OnProvisionalOnInvite(call: CallData, k: TransactionId, p: Packet): (o: Outcome)
    requires k in call.trans
    ensures Follows(call, o)
  {
    var t := call.trans[k];
    if !InviteIsPending(t.state) then Nothing(call)
    else
      var call1 := call.(trans := call.trans[k := t.(state := PROCEEDING_PROCEEDING)]);
      if p.responseCode <= 100 then Nothing(call1)
      else
        var d := WithCallee(call.dialog, p);
        Nothing(call1.(dialog := if p.to.tag != "" then d.(state := DsEarly) else d))
  }

  function OnSuccessOnInvite(call: CallData, c: nat, k: TransactionId, p: Packet, now: int): (o: Outcome)
    requires k in call.trans
    ensures Follows(call, o)
  {
    var t := call.trans[k];
    if !InviteIsPending(t.state) then Nothing(call)
    else
      var t1 := Answer(t, TERMINATED_TERMINATED, p);
      Outcome(call.(trans := call.trans[k := t1], dialog := WithCallee(call.dialog, p).(state := DsConfirmed),
        reinvite := false),
              EventsOf(call, c, t1, now), Offer(call.reinvite), Keep, Stay, 0)
  }

  function OnNonSuccessOnInvite(call: CallData, c: nat, k: TransactionId, p: Packet, now: int): (o: Outcome)
    requires k in call.trans
    ensures Follows(call, o)
  {
    var t := call.trans[k];
    if !InviteIsPending(t.state) then Nothing(call)
    else
      var t1 := Answer(t, TERMINATED_COMPLETED, p);
      Outcome(call.(trans := call.trans[k := t1]), EventsOf(call, c, t1, now), NoOffer, RollbackSinks, Stay, 0)
  }

  /** handleResponseOnOptions and handleResponseOnCancel (leaves == false), handleResponseOnBye. */
  function OnPlainResponse(call: CallData, c: nat, k: TransactionId, p: Packet, now: int, leaves: bool): (o: Outcome)
    requires k in call.trans
    ensures Follows(call, o)
  {
    var t := call.trans[k];
    if !RequestIsPending(t.state) then Nothing(call)
    else Outcome(call.(trans := call.trans - {k}), EventsOf(call, c, Answer(t, TERMINATED_TERMINATED, p), now),
                 NoOffer, Keep, if leaves then HandOff else Stay, 0)
  }

  function OnResponse(call: CallData, c: nat, k: TransactionId, p: Packet, now: int): (o: Outcome)
    requires k in call.trans
    ensures Follows(call, o)
  {
    match k.cseqMethod
    case Invite =>
      if p.IsProvisional() then OnProvisionalOnInvite(call, k, p)
      else if p.IsSuccess() then OnSuccessOnInvite(call, c, k, p, now)
      else OnNonSuccessOnInvite(call, c, k, p, now)
    case Bye => if p.IsProvisional() then Nothing(call) else OnPlainResponse(call, c, k, p, now, true)
    case Options => if p.IsProvisional() then Nothing(call) else OnPlainResponse(call, c, k, p, now, false)
    case Cancel => if p.IsProvisional() then Nothing(call) else OnPlainResponse(call, c, k, p, now, false)
    case _ => Nothing(call)
  }

  /** What a packet does to its call: the worker loop after the call is known. */
  ghost function OnPacket(call: CallData, c: nat, p: Packet, tid: nat, now: int): (o: Outcome)
    ensures Follows(call, o)
  {
    match MatchTransaction(call, p)
    case Some(k) =>
      if p.IsRequest(Ack) then OnAckOnNonSuccess(call, c, k, now)
      else if p.kind == Response then OnResponse(call, c, k, p, now)
      else Nothing(call)
    case None =>
      if p.kind == Request then OnInitialRequest(call, c, p, tid, now) else Nothing(call)
  }
}
