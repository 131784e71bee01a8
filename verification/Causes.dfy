/**
 Where the events come from: in every run, each event of the signalling analysis shows what
 packets of the run said. There is a request with its Call-ID and initiator, a response on the
 same branch with its code and reason, and an ACK and a CANCEL if it says so. It is in the list
 of its caller, in the order of time.
 */
module Causes {
  import opened SipTypes
  import opened Signalling
  import opened SipMachine
  import opened SystemModel
  import opened CallInvariant
  import opened Reachable
  import Analyser

  /** The SIP packets of a run. */
  function Packets(acts: seq<Action>): set<Packet> {
    set i | 0 <= i < |acts| && acts[i].SipPacket? :: acts[i].p
  }

  /** The packet is a request of this method in this call, from this party. */
  predicate Asks(p: Packet, m: Method, callId: string, from: Party) {
    p.kind == Request && p.requestMethod == m && p.callId == callId && p.from == from
  }

  /** The packet is a response in a transaction of this method. The program takes a response
      with the CSeq method ACK for one to the INVITE. */
  predicate Belongs(q: Packet, m: Method) {
    q.kind == Response && (q.cseqMethod == m || (m == Invite && q.cseqMethod == Ack))
  }

  /** The packet is a response in the transaction of the request p. */
  predicate Responds(q: Packet, p: Packet) {
    Belongs(q, p.requestMethod) && q.callId == p.callId && q.branch == p.branch
  }

  /** The packet is a final response in the transaction of p, with this code and reason. */
  predicate EndsWith(q: Packet, p: Packet, code: nat, reason: string) {
    Responds(q, p) && q.responseCode == code && q.responseReason == reason && !(100 <= code <= 199)
  }

  predicate Cancels(x: Packet, p: Packet) {
    && x.kind == Request && x.requestMethod == Cancel
    && x.callId == p.callId && x.branch == p.branch && x.sentBy == p.sentBy
  }

  /** The packet is an ACK of the INVITE p: on its branch, or with its sent-by and CSeq number. */
  predicate Acks(a: Packet, p: Packet) {
    && a.kind == Request && a.requestMethod == Ack && a.callId == p.callId
    && (a.branch == p.branch || (a.sentBy == p.sentBy && a.cseqNum == p.cseqNum))
  }

  predicate IsEnded(ps: set<Packet>, p: Packet, code: nat, reason: string) {
    (code == 0 && reason == "") || exists q <- ps :: EndsWith(q, p, code, reason)
  }

  predicate IsCancelled(ps: set<Packet>, p: Packet) {
    exists x <- ps :: Cancels(x, p)
  }

  predicate IsAcked(ps: set<Packet>, p: Packet) {
    exists a <- ps :: Acks(a, p)
  }

  /** The packets are the cause of a final response and, for an INVITE, of its flags. */
  predicate Shows(ps: set<Packet>, p: Packet, m: Method, callId: string, from: Party, code: nat, reason: string,
                  cancel: bool, ack: bool) {
    && Asks(p, m, callId, from) && IsEnded(ps, p, code, reason)
    && (cancel ==> IsCancelled(ps, p)) && (ack ==> IsAcked(ps, p))
  }

  /** The caller of a call is the sender of an INVITE of it, or nobody. */
  predicate IsCaller(ps: set<Packet>, callId: string, caller: Party) {
    caller == NOBODY || exists p <- ps :: Asks(p, Invite, callId, caller)
  }

  predicate EventCaused(ps: set<Packet>, e: Event) {
    && IsCaller(ps, e.callId, e.caller)
    && match e
       case InviteEvent(_, _, _, id, _, from, code, reason, _, cancel, ack) =>
         exists p <- ps :: Shows(ps, p, Invite, id, from, code, reason, cancel, ack)
       case ByeEvent(_, _, _, id, _, from, code, reason, _) =>
         exists p <- ps :: Shows(ps, p, Bye, id, from, code, reason, false, false)
       case CancelEvent(_, _, _, id, _, from, code, reason) =>
         exists p <- ps :: Shows(ps, p, Cancel, id, from, code, reason, false, false)
       case OptionsEvent(_, _, _, id, _, from, code, reason) =>
         exists p <- ps :: Shows(ps, p, Options, id, from, code, reason, false, false)
  }

  // ---- calls and transactions ----

  /** The request that a transaction was stored for. */
  predicate Opens(ps: set<Packet>, p: Packet, callId: string, t: TransactionData) {
    && Shows(ps, p, t.id.cseqMethod, callId, t.initiator, t.finalCode, t.finalReason, t.cancelFlag, t.ackFlag)
    && p.branch == t.id.branch && p.sentBy == t.sentBy && p.cseqNum == t.cseqNum
  }

  /** An INVITE was answered with 2xx, or refused, as its state says. */
  predicate CodeFits(t: TransactionData) {
    t.id.cseqMethod == Invite ==>
      && (t.state == State(Terminated, Terminated) ==> 200 <= t.finalCode <= 299)
      && (t.state == State(Terminated, Completed) ==> t.finalCode < 100 || t.finalCode >= 300)
  }

  predicate TransactionCaused(ps: set<Packet>, callId: string, t: TransactionData) {
    CodeFits(t) && exists p <- ps :: Opens(ps, p, callId, t)
  }

  /** A response to an INVITE of the call, with a code in this range. */
  predicate Answers(q: Packet, callId: string, least: nat, most: nat) {
    Belongs(q, Invite) && q.callId == callId && least <= q.responseCode <= most
  }

  predicate WasAnswered(ps: set<Packet>, callId: string, least: nat, most: nat) {
    exists q <- ps :: Answers(q, callId, least, most)
  }

  /** The callee: the To header of an INVITE, with tag and name of a later response if one came. */
  predicate IsCallee(ps: set<Packet>, callId: string, callee: Party) {
    exists p <- ps :: Asks(p, Invite, callId, p.from) && p.to.address == callee.address
                      && (p.to == callee || exists q <- ps :: Names(q, callId, callee))
  }

  predicate Names(q: Packet, callId: string, callee: Party) {
    Answers(q, callId, 101, 299) && q.to.tag == callee.tag && q.to.displayname == callee.displayname
  }

  predicate DialogCaused(ps: set<Packet>, callId: string, d: Dialog) {
    && (d.state == DsUndefined ==> d.caller == NOBODY && d.callee == NOBODY)
    && (d.state != DsUndefined ==>
          (exists p <- ps :: Asks(p, Invite, callId, d.caller)) && IsCallee(ps, callId, d.callee))
    && (d.state == DsConfirmed ==> WasAnswered(ps, callId, 200, 299))
    && (d.state == DsEarly ==> WasAnswered(ps, callId, 101, 199))
  }

  predicate CallCaused(ps: set<Packet>, call: CallData) {
    && DialogCaused(ps, call.callId, call.dialog)
    && forall k <- call.trans :: TransactionCaused(ps, call.callId, call.trans[k])
  }

  predicate OutcomeCaused(ps: set<Packet>, o: Outcome) {
    CallCaused(ps, o.call) && forall i | 0 <= i < |o.events| :: EventCaused(ps, o.events[i])
  }

  /** The call a packet of the run is handled in. */
  ghost predicate Handles(ps: set<Packet>, call: CallData, p: Packet) {
    CallInv(call) && CallCaused(ps, call) && p in ps && p.callId == call.callId && p.WellFormed()
  }

  // ---- more packets ----

  lemma ShowsStays(ps: set<Packet>, more: set<Packet>, p: Packet, m: Method, callId: string, from: Party, code: nat,
                   reason: string, cancel: bool, ack: bool)
    requires ps <= more && Shows(ps, p, m, callId, from, code, reason, cancel, ack)
    ensures Shows(more, p, m, callId, from, code, reason, cancel, ack)
  {
  }

  lemma EventStays(ps: set<Packet>, more: set<Packet>, e: Event)
    requires ps <= more && EventCaused(ps, e)
    ensures EventCaused(more, e)
  {
    match e
    case InviteEvent(_, _, _, id, _, from, code, reason, _, cancel, ack) =>
      var p :| p in ps && Shows(ps, p, Invite, id, from, code, reason, cancel, ack);
      ShowsStays(ps, more, p, Invite, id, from, code, reason, cancel, ack);
    case ByeEvent(_, _, _, id, _, from, code, reason, _) =>
      var p :| p in ps && Shows(ps, p, Bye, id, from, code, reason, false, false);
      ShowsStays(ps, more, p, Bye, id, from, code, reason, false, false);
    case CancelEvent(_, _, _, id, _, from, code, reason) =>
      var p :| p in ps && Shows(ps, p, Cancel, id, from, code, reason, false, false);
      ShowsStays(ps, more, p, Cancel, id, from, code, reason, false, false);
    case OptionsEvent(_, _, _, id, _, from, code, reason) =>
      var p :| p in ps && Shows(ps, p, Options, id, from, code, reason, false, false);
      ShowsStays(ps, more, p, Options, id, from, code, reason, false, false);
  }

  lemma TransactionStays(ps: set<Packet>, more: set<Packet>, callId: string, t: TransactionData)
    requires ps <= more && TransactionCaused(ps, callId, t)
    ensures TransactionCaused(more, callId, t)
  {
    var p :| p in ps && Opens(ps, p, callId, t);
    ShowsStays(ps, more, p, t.id.cseqMethod, callId, t.initiator, t.finalCode, t.finalReason, t.cancelFlag, t.ackFlag);
    assert Opens(more, p, callId, t);
  }

  lemma CallStays(ps: set<Packet>, more: set<Packet>, call: CallData)
    requires ps <= more && CallCaused(ps, call)
    ensures CallCaused(more, call)
  {
    forall k <- call.trans ensures TransactionCaused(more, call.callId, call.trans[k]) {
      TransactionStays(ps, more, call.callId, call.trans[k]);
    }
  }

  // ---- the handlers ----

  /** The event of a transaction shows what opened it. */
  lemma EventsAreCaused(ps: set<Packet>, call: CallData, c: nat, t: TransactionData, now: int)
    requires IsCaller(ps, call.callId, call.dialog.caller) && exists p <- ps :: Opens(ps, p, call.callId, t)
    ensures forall i | 0 <= i < |EventsOf(call, c, t, now)| :: EventCaused(ps, EventsOf(call, c, t, now)[i])
  {
    var p :| p in ps && Opens(ps, p, call.callId, t);
    var m, id, from := t.id.cseqMethod, call.callId, t.initiator;
    assert Shows(ps, p, m, id, from, t.finalCode, t.finalReason, t.cancelFlag, t.ackFlag);
    assert Shows(ps, p, m, id, from, t.finalCode, t.finalReason, false, false);
  }

  lemma NewIsOpened(ps: set<Packet>, p: Packet, t: TransactionData, tid: nat)
    requires p in ps && p.kind == Request && p.WellFormed()
    requires t == NewTransaction(p, tid).(state := t.state)
    requires t.state == State(Calling, Proceeding) || t.state == State(Trying, Trying)
    ensures Opens(ps, p, p.callId, t) && TransactionCaused(ps, p.callId, t)
  {
  }

  lemma InviteIsCaused(ps: set<Packet>, call: CallData, c: nat, p: Packet, tid: nat, now: int)
    requires Handles(ps, call, p) && p.IsRequest(Invite) && p.Id() !in call.trans
    ensures OutcomeCaused(ps, OnInvite(call, c, p, tid, now))
  {
    var o, t := OnInvite(call, c, p, tid, now), InviteTransaction(p, tid);
    NewIsOpened(ps, p, t, tid);
    assert Asks(p, Invite, call.callId, p.from);
    if !RefusesInvite(call) {
      EventsAreCaused(ps, o.call, c, t, now);
    }
  }

  lemma PlainRequestIsCaused(ps: set<Packet>, call: CallData, c: nat, p: Packet, tid: nat, now: int)
    requires Handles(ps, call, p) && p.kind == Request
    ensures OutcomeCaused(ps, OnPlainRequest(call, c, p, tid, now))
  {
    var t := NewTransaction(p, tid).(state := TRYING_TRYING);
    NewIsOpened(ps, p, t, tid);
    EventsAreCaused(ps, call, c, t, now);
  }

  lemma CancelledIsCaused(ps: set<Packet>, call: CallData, p: Packet, t: TransactionData)
    requires Handles(ps, call, p) && p.IsRequest(Cancel) && TransactionCaused(ps, call.callId, t)
    requires p.branch == t.id.branch && p.sentBy == t.sentBy
    ensures TransactionCaused(ps, call.callId, t.(cancelFlag := true))
  {
    var r :| r in ps && Opens(ps, r, call.callId, t);
    assert Cancels(p, r);
    assert Opens(ps, r, call.callId, t.(cancelFlag := true));
  }

  lemma CancelIsCaused(ps: set<Packet>, call: CallData, c: nat, p: Packet, tid: nat, now: int)
    requires Handles(ps, call, p) && p.IsRequest(Cancel)
    ensures OutcomeCaused(ps, OnCancel(call, c, p, tid, now))
  {
    var o, k := OnCancel(call, c, p, tid, now), TransactionId(p.branch, Invite);
    if k in call.trans && p.sentBy == call.trans[k].sentBy {
      var t, it := NewTransaction(p, tid).(state := TRYING_TRYING), call.trans[k].(cancelFlag := true);
      NewIsOpened(ps, p, t, tid);
      CancelledIsCaused(ps, call, p, call.trans[k]);
      EventsAreCaused(ps, call, c, t, now);
      EventsAreCaused(ps, call, c, it, now);
    }
  }

  lemma AckedIsCaused(ps: set<Packet>, call: CallData, p: Packet, t: TransactionData, s: TransactionState)
    requires Handles(ps, call, p) && p.IsRequest(Ack) && TransactionCaused(ps, call.callId, t)
    requires p.branch == t.id.branch || (p.sentBy == t.sentBy && p.cseqNum == t.cseqNum)
    ensures exists r <- ps :: Opens(ps, r, call.callId, t.(state := s, ackFlag := true))
  {
    var r :| r in ps && Opens(ps, r, call.callId, t);
    assert Acks(p, r);
    assert Opens(ps, r, call.callId, t.(state := s, ackFlag := true));
  }

  lemma AckIsCaused(ps: set<Packet>, call: CallData, c: nat, p: Packet, now: int)
    requires Handles(ps, call, p) && p.IsRequest(Ack)
    ensures OutcomeCaused(ps, OnAckOnSuccess(call, c, p, now))
  {
    if AckMatches(call.trans, p) {
      var t := call.trans[FindInvite(call.trans).value];
      AckedIsCaused(ps, call, p, t, t.state);
      assert t.(state := t.state, ackFlag := true) == t.(ackFlag := true);
      EventsAreCaused(ps, call, c, t.(ackFlag := true), now);
    }
  }

  lemma AckOnNonSuccessIsCaused(ps: set<Packet>, call: CallData, c: nat, k: TransactionId, p: Packet, now: int)
    requires Handles(ps, call, p) && p.IsRequest(Ack) && k in call.trans && k.branch == p.branch
    ensures OutcomeCaused(ps, OnAckOnNonSuccess(call, c, k, now))
  {
    var t := call.trans[k];
    if t.state == TERMINATED_COMPLETED {
      AckedIsCaused(ps, call, p, t, TERMINATED_TERMINATED);
      EventsAreCaused(ps, call, c, t.(state := TERMINATED_TERMINATED, ackFlag := true), now);
    }
  }

  /** The packet is a response for the transaction k of the call. */
  predicate IsFor(call: CallData, p: Packet, k: TransactionId) {
    p.kind == Response && MatchTransaction(call, p) == Some(k)
  }

  /** A final response in the transaction. */
  lemma AnswerIsCaused(ps: set<Packet>, call: CallData, k: TransactionId, p: Packet, s: TransactionState)
    requires Handles(ps, call, p) && IsFor(call, p, k) && !p.IsProvisional()
    ensures exists r <- ps :: Opens(ps, r, call.callId, Answer(call.trans[k], s, p))
  {
    var t := call.trans[k];
    assert TransactionCaused(ps, call.callId, t);
    var r :| r in ps && Opens(ps, r, call.callId, t);
    assert EndsWith(p, r, p.responseCode, p.responseReason);
    assert Opens(ps, r, call.callId, Answer(t, s, p));
  }

  /** The callee after a response with a code from 101 to 299. */
  lemma CalleeIsCaused(ps: set<Packet>, call: CallData, p: Packet)
    requires Handles(ps, call, p) && Answers(p, call.callId, 101, 299) && call.dialog.state != DsUndefined
    ensures IsCallee(ps, call.callId, WithCallee(call.dialog, p).callee)
  {
    var d := WithCallee(call.dialog, p);
    assert Names(p, call.callId, d.callee);
    var r :| r in ps && Asks(r, Invite, call.callId, r.from) && r.to.address == call.dialog.callee.address;
    assert r.to.address == d.callee.address;
  }

  lemma ProceedingIsCaused(ps: set<Packet>, callId: string, t: TransactionData)
    requires TransactionCaused(ps, callId, t)
    ensures TransactionCaused(ps, callId, t.(state := PROCEEDING_PROCEEDING))
  {
    var r :| r in ps && Opens(ps, r, callId, t);
    assert Opens(ps, r, callId, t.(state := PROCEEDING_PROCEEDING));
  }

  /** The call is caused if its dialog is and one transaction changed to a caused one. */
  lemma ChangedIsCaused(ps: set<Packet>, call: CallData, call': CallData, k: TransactionId)
    requires CallCaused(ps, call) && call'.callId == call.callId && DialogCaused(ps, call.callId, call'.dialog)
    requires k in call'.trans && call'.trans == call.trans[k := call'.trans[k]]
    requires TransactionCaused(ps, call.callId, call'.trans[k])
    ensures CallCaused(ps, call')
  {
  }

  lemma ProvisionalIsCaused(ps: set<Packet>, call: CallData, k: TransactionId, p: Packet)
    requires Handles(ps, call, p) && k.cseqMethod == Invite && IsFor(call, p, k) && p.IsProvisional()
    ensures OutcomeCaused(ps, OnProvisionalOnInvite(call, k, p))
  {
    var o, t := OnProvisionalOnInvite(call, k, p), call.trans[k];
    ProceedingIsCaused(ps, call.callId, t);
    if InviteIsPending(t.state) {
      if p.responseCode > 100 {
        assert Answers(p, call.callId, 101, 199);
        CalleeIsCaused(ps, call, p);
      }
      ChangedIsCaused(ps, call, o.call, k);
    }
  }

  lemma SuccessIsCaused(ps: set<Packet>, call: CallData, c: nat, k: TransactionId, p: Packet, now: int)
    requires Handles(ps, call, p) && k.cseqMethod == Invite && IsFor(call, p, k) && p.IsSuccess()
    ensures OutcomeCaused(ps, OnSuccessOnInvite(call, c, k, p, now))
  {
    var o, t1 := OnSuccessOnInvite(call, c, k, p, now), Answer(call.trans[k], TERMINATED_TERMINATED, p);
    AnswerIsCaused(ps, call, k, p, TERMINATED_TERMINATED);
    assert TransactionCaused(ps, call.callId, t1);
    assert Answers(p, call.callId, 200, 299);
    CalleeIsCaused(ps, call, p);
    EventsAreCaused(ps, call, c, t1, now);
  }

  lemma NonSuccessIsCaused(ps: set<Packet>, call: CallData, c: nat, k: TransactionId, p: Packet, now: int)
    requires Handles(ps, call, p) && k.cseqMethod == Invite && IsFor(call, p, k) && p.IsNonSuccess()
    ensures OutcomeCaused(ps, OnNonSuccessOnInvite(call, c, k, p, now))
  {
    var t1 := Answer(call.trans[k], TERMINATED_COMPLETED, p);
    AnswerIsCaused(ps, call, k, p, TERMINATED_COMPLETED);
    assert TransactionCaused(ps, call.callId, t1);
    EventsAreCaused(ps, call, c, t1, now);
  }

  lemma PlainResponseIsCaused(ps: set<Packet>, call: CallData, c: nat, k: TransactionId, p: Packet, now: int,
                              leaves: bool)
    requires Handles(ps, call, p) && IsFor(call, p, k) && !p.IsProvisional()
    ensures OutcomeCaused(ps, OnPlainResponse(call, c, k, p, now, leaves))
  {
    AnswerIsCaused(ps, call, k, p, TERMINATED_TERMINATED);
    EventsAreCaused(ps, call, c, Answer(call.trans[k], TERMINATED_TERMINATED, p), now);
  }

  lemma ResponseIsCaused(ps: set<Packet>, call: CallData, c: nat, k: TransactionId, p: Packet, now: int)
    requires Handles(ps, call, p) && IsFor(call, p, k)
    ensures OutcomeCaused(ps, OnResponse(call, c, k, p, now))
  {
    assert OutcomeCaused(ps, Nothing(call));
    if k.cseqMethod == Invite {
      if p.IsProvisional() {
        ProvisionalIsCaused(ps, call, k, p);
      } else if p.IsSuccess() {
        SuccessIsCaused(ps, call, c, k, p, now);
      } else {
        NonSuccessIsCaused(ps, call, c, k, p, now);
      }
    } else if !p.IsProvisional() {
      PlainResponseIsCaused(ps, call, c, k, p, now, k.cseqMethod == Bye);
    }
  }

  lemma RequestIsCaused(ps: set<Packet>, call: CallData, c: nat, p: Packet, tid: nat, now: int)
    requires Handles(ps, call, p) && p.kind == Request && p.Id() !in call.trans
    ensures OutcomeCaused(ps, OnInitialRequest(call, c, p, tid, now))
  {
    match p.requestMethod
    case Invite => InviteIsCaused(ps, call, c, p, tid, now);
    case Cancel => CancelIsCaused(ps, call, c, p, tid, now);
    case Ack => AckIsCaused(ps, call, c, p, now);
    case Bye => PlainRequestIsCaused(ps, call, c, p, tid, now);
    case Options => PlainRequestIsCaused(ps, call, c, p, tid, now);
    case _ =>
  }

  lemma PacketIsCaused(ps: set<Packet>, call: CallData, c: nat, p: Packet, tid: nat, now: int)
    requires Handles(ps, call, p)
    ensures OutcomeCaused(ps, OnPacket(call, c, p, tid, now))
  {
    assert OutcomeCaused(ps, Nothing(call));
    match MatchTransaction(call, p)
    case Some(k) =>
      if p.IsRequest(Ack) {
        AckOnNonSuccessIsCaused(ps, call, c, k, p, now);
      } else if p.kind == Response {
        ResponseIsCaused(ps, call, c, k, p, now);
      }
    case None =>
      if p.kind == Request { RequestIsCaused(ps, call, c, p, tid, now); }
  }

  // ---- time and place ----

  /** The event is made now, in this call, for its caller. */
  predicate Fresh(call: CallData, c: nat, caller: Party, e: Event, now: int) {
    && e.ts == now && e.call == c && e.callId == call.callId && e.caller == caller
    && (e.ByeEvent? ==> e.duration == (now - call.created) / 1_000_000)
  }

  predicate AreFresh(call: CallData, c: nat, o: Outcome, now: int) {
    forall i | 0 <= i < |o.events| :: Fresh(call, c, o.call.dialog.caller, o.events[i], now)
  }

  lemma EventsOfAreFresh(call: CallData, call': CallData, c: nat, t: TransactionData, now: int)
    requires call'.callId == call.callId && call'.created == call.created
    ensures forall i | 0 <= i < |EventsOf(call', c, t, now)| ::
      Fresh(call, c, call'.dialog.caller, EventsOf(call', c, t, now)[i], now)
  {
  }

  lemma InviteIsFresh(call: CallData, c: nat, p: Packet, tid: nat, now: int)
    ensures AreFresh(call, c, OnInvite(call, c, p, tid, now), now)
  {
    EventsOfAreFresh(call, OnInvite(call, c, p, tid, now).call, c, InviteTransaction(p, tid), now);
  }

  lemma OthersAreFresh(call: CallData, c: nat, p: Packet, tid: nat, now: int)
    ensures AreFresh(call, c, OnPlainRequest(call, c, p, tid, now), now)
    ensures AreFresh(call, c, OnCancel(call, c, p, tid, now), now)
  {
  }

  lemma AckIsFresh(call: CallData, c: nat, p: Packet, now: int)
    ensures AreFresh(call, c, OnAckOnSuccess(call, c, p, now), now)
  {
  }

  lemma RequestIsFresh(call: CallData, c: nat, p: Packet, tid: nat, now: int)
    ensures AreFresh(call, c, OnInitialRequest(call, c, p, tid, now), now)
  {
    InviteIsFresh(call, c, p, tid, now);
    OthersAreFresh(call, c, p, tid, now);
    AckIsFresh(call, c, p, now);
  }

  lemma AnswerIsFresh(call: CallData, c: nat, k: TransactionId, p: Packet, now: int)
    requires k in call.trans
    ensures AreFresh(call, c, OnProvisionalOnInvite(call, k, p), now)
    ensures AreFresh(call, c, OnSuccessOnInvite(call, c, k, p, now), now)
    ensures AreFresh(call, c, OnNonSuccessOnInvite(call, c, k, p, now), now)
  {
  }

  lemma ResponseIsFresh(call: CallData, c: nat, k: TransactionId, p: Packet, now: int)
    requires k in call.trans
    ensures AreFresh(call, c, OnResponse(call, c, k, p, now), now)
  {
    AnswerIsFresh(call, c, k, p, now);
    assert AreFresh(call, c, OnPlainResponse(call, c, k, p, now, k.cseqMethod == Bye), now);
  }

  /** All events a packet makes. */
  lemma PacketIsFresh(call: CallData, c: nat, p: Packet, tid: nat, now: int)
    ensures AreFresh(call, c, OnPacket(call, c, p, tid, now), now)
  {
    match MatchTransaction(call, p)
    case Some(k) =>
      assert AreFresh(call, c, OnAckOnNonSuccess(call, c, k, now), now);
      ResponseIsFresh(call, c, k, p, now);
    case None => RequestIsFresh(call, c, p, tid, now);
  }

  /** An event in the list of its caller, with the Call-ID of its call, not older than the call
      and not from the future. */
  predicate InPlace(w: World, caller: string, e: Event, now: int) {
    && e.caller.address == caller
    && e.call < |w.calls| && w.calls[e.call].callId == e.callId
    && w.calls[e.call].created <= e.ts <= now
    && (e.ByeEvent? ==> e.duration == (e.ts - w.calls[e.call].created) / 1_000_000)
  }

  predicate InTime(es: seq<Event>) {
    forall i, j | 0 <= i < j < |es| :: es[i].ts <= es[j].ts
  }

  /** Calls, events and their causes. */
  ghost predicate WorldCaused(w: World, ps: set<Packet>, now: int) {
    && (forall c | 0 <= c < |w.calls| :: CallCaused(ps, w.calls[c]) && w.calls[c].created <= now)
    && (forall a <- w.events, i | 0 <= i < |w.events[a]| ::
          EventCaused(ps, w.events[a][i]) && InPlace(w, a, w.events[a][i], now))
    && (forall a <- w.events :: InTime(w.events[a]))
  }

  /** An event of a list after the packet is one from before, or a new one. */
  lemma ListedIsCaused(w: World, c: nat, p: Packet, o: Outcome, ps: set<Packet>, now: int, a: string, i: nat)
    requires WorldCaused(w, ps, now) && c < |w.calls| == |w.media.calls| && OutcomeCaused(ps, o)
    requires Follows(w.calls[c], o) && AreFresh(w.calls[c], c, o, now)
    requires var r := Apply(w, c, p, o, now); a in r.events && i < |r.events[a]|
    ensures var r := Apply(w, c, p, o, now); EventCaused(ps, r.events[a][i]) && InPlace(r, a, r.events[a][i], now)
  {
    var r, es := Apply(w, c, p, o, now), EventList(w, a);
    if i < |es| {
      assert r.events[a][i] == w.events[a][i];
      assert InPlace(w, a, w.events[a][i], now);
    } else {
      assert r.events[a][i] == o.events[i - |es|];
      assert Fresh(w.calls[c], c, o.call.dialog.caller, o.events[i - |es|], now);
    }
  }

  lemma ListedInTime(w: World, c: nat, p: Packet, o: Outcome, now: int, a: string)
    requires c < |w.calls| == |w.media.calls| && AreFresh(w.calls[c], c, o, now)
    requires forall a <- w.events, i | 0 <= i < |w.events[a]| :: w.events[a][i].ts <= now
    requires forall a <- w.events :: InTime(w.events[a])
    ensures var r := Apply(w, c, p, o, now); a in r.events ==> InTime(r.events[a])
  {
    AppendedInTime(w, a, o.events, now);
  }

  lemma ApplyIsCaused(w: World, c: nat, p: Packet, o: Outcome, ps: set<Packet>, now: int)
    requires WorldCaused(w, ps, now) && c < |w.calls| == |w.media.calls| && OutcomeCaused(ps, o)
    requires Follows(w.calls[c], o) && AreFresh(w.calls[c], c, o, now)
    ensures WorldCaused(Apply(w, c, p, o, now), ps, now)
  {
    var r := Apply(w, c, p, o, now);
    forall a <- r.events, i | 0 <= i < |r.events[a]|
      ensures EventCaused(ps, r.events[a][i]) && InPlace(r, a, r.events[a][i], now)
    {
      ListedIsCaused(w, c, p, o, ps, now, a, i);
    }
    forall a <- w.events, i | 0 <= i < |w.events[a]| ensures w.events[a][i].ts <= now {
      assert InPlace(w, a, w.events[a][i], now);
    }
    forall a <- r.events ensures InTime(r.events[a]) {
      ListedInTime(w, c, p, o, now, a);
    }
  }

  lemma AppendedInTime(w: World, a: string, more: seq<Event>, now: int)
    requires forall a <- w.events, i | 0 <= i < |w.events[a]| :: w.events[a][i].ts <= now
    requires forall a <- w.events :: InTime(w.events[a])
    requires forall i | 0 <= i < |more| :: more[i].ts == now
    ensures InTime(EventList(w, a) + more) && (a in w.events ==> InTime(w.events[a]))
  {
  }

  lemma CreateIsCaused(w: World, p: Packet, ps: set<Packet>, now: int, noRtp: bool)
    requires WorldCaused(w, ps, now)
    ensures WorldCaused(Create(w, p, now, noRtp), ps, now)
  {
    var v := Create(w, p, now, noRtp);
    forall a <- v.events, i | 0 <= i < |v.events[a]| ensures InPlace(v, a, v.events[a][i], now) {
      assert InPlace(w, a, w.events[a][i], now);
    }
  }

  lemma DispatchIsCaused(w: World, c: nat, p: Packet, ps: set<Packet>, now: int)
    requires CallsInv(w) && WorldCaused(w, ps, now) && InMap(w, c) && w.calls[c].callId == p.callId
    requires p in ps && p.WellFormed()
    ensures WorldCaused(Dispatch(w, c, p, now), ps, now)
  {
    var call := w.calls[c];
    var o := OnPacket(call, c, p, w.nextTid, now);
    PacketIsCaused(ps, call, c, p, w.nextTid, now);
    PacketIsFresh(call, c, p, w.nextTid, now);
    assert Follows(call, o);
    ApplyIsCaused(w, c, p, o, ps, now);
  }

  lemma StepIsCaused(w: World, p: Packet, ps: set<Packet>, now: int, noRtp: bool)
    requires CallsInv(w) && WorldCaused(w, ps, now) && p in ps && p.WellFormed()
    ensures WorldCaused(Step(w, p, now, noRtp), ps, now)
  {
    if Admits(w, p) {
      AdmitKeepsCalls(w, p, now, noRtp);
      if CreatesCall(w, p) { CreateIsCaused(w, p, ps, now, noRtp); }
      DispatchIsCaused(Admit(w, p, now, noRtp), Target(w, p), p, ps, now);
    }
  }

  /** Later, after more packets. */
  lemma WorldStays(w: World, r: World, ps: set<Packet>, more: set<Packet>, now: int, later: int)
    requires WorldCaused(w, ps, now) && ps <= more && now <= later
    requires r.calls == w.calls && r.events == w.events
    ensures WorldCaused(r, more, later)
  {
    forall c | 0 <= c < |r.calls| ensures CallCaused(more, r.calls[c]) {
      CallStays(ps, more, w.calls[c]);
    }
    forall a <- r.events, i | 0 <= i < |r.events[a]|
      ensures EventCaused(more, r.events[a][i]) && InPlace(r, a, r.events[a][i], later)
    {
      EventStays(ps, more, w.events[a][i]);
      assert InPlace(w, a, w.events[a][i], now);
    }
  }

  lemma DoIsCaused(cfg: Config, s: System, a: Action, ps: set<Packet>)
    requires SystemWf(s) && CallsInv(s.w) && WorldCaused(s.w, ps, s.now) && (a.SipPacket? ==> a.p.WellFormed())
    ensures var r := Do(cfg, s, a); WorldCaused(r.w, ps + (if a.SipPacket? then {a.p} else {}), r.now)
  {
    if a.SipPacket? {
      WorldStays(s.w, s.w, ps, ps + {a.p}, s.now, s.now);
      StepIsCaused(s.w, a.p, ps + {a.p}, s.now, a.noRtp);
    } else {
      if a.Commit? && Enabled(s, a) { CommitOnlyErases(s.w, s.dog.temp); }
      WorldStays(s.w, Do(cfg, s, a).w, ps, ps + {}, s.now, Do(cfg, s, a).now);
    }
  }

  lemma {:induction false} RunIsCaused(cfg: Config, s: System, acts: seq<Action>, ps: set<Packet>)
    requires SystemWf(s) && CallsInv(s.w) && WorldCaused(s.w, ps, s.now) && WellFormedPackets(acts)
    ensures var r := Run(cfg, s, acts); WorldCaused(r.w, ps + Packets(acts), r.now)
    decreases |acts|
  {
    if acts == [] {
      assert ps + Packets(acts) == ps;
    } else {
      var a := acts[0];
      DoIsCaused(cfg, s, a, ps);
      DoKeepsCalls(cfg, s, a);
      PacketsSplit(acts);
      RunIsCaused(cfg, Do(cfg, s, a), acts[1..], ps + (if a.SipPacket? then {a.p} else {}));
      assert ps + (if a.SipPacket? then {a.p} else {}) + Packets(acts[1..]) == ps + Packets(acts);
    }
  }

  lemma PacketsSplit(acts: seq<Action>)
    requires acts != []
    ensures Packets(acts) == (if acts[0].SipPacket? then {acts[0].p} else {}) + Packets(acts[1..])
  {
    forall i | 0 < i < |acts| && acts[i].SipPacket? ensures acts[i].p in Packets(acts[1..]) {
      assert acts[1..][i - 1] == acts[i];
    }
    forall i | 0 <= i < |acts| - 1 && acts[1..][i].SipPacket? ensures acts[1..][i].p in Packets(acts) {
      assert acts[i + 1] == acts[1..][i];
    }
  }

  /** In every run: each event has its packets. It is in the list of its caller, who sent an INVITE
      of the call, or is nobody yet; a request of its kind with its Call-ID came from its
      initiator; it has no final response, or one with its code and reason came on the branch of
      the request; if it is cancelled or acknowledged, a CANCEL or an ACK came for the request.
      Lists are in the order of time, no event is older than its call or from the future, and a
      BYE shows the milliseconds since the call was made. */
  lemma {:induction false} EventsAreTrue(cfg: Config, acts: seq<Action>, s: System)
    requires WellFormedPackets(acts) && s == Run(cfg, START, acts)
    ensures forall a <- s.w.events, i | 0 <= i < |s.w.events[a]| ::
      EventCaused(Packets(acts), s.w.events[a][i]) && InPlace(s.w, a, s.w.events[a][i], s.now)
    ensures forall a <- s.w.events :: InTime(s.w.events[a])
  {
    RunIsCaused(cfg, START, acts, {});
    assert {} + Packets(acts) == Packets(acts);
  }

  /** In every run: what a call stores came in packets. The caller of its dialog sent an INVITE of
      the call and the callee is in the To header of one, or of a response; the dialog is
      CONFIRMED only after a 2xx, and EARLY after a response above 100 to an INVITE; and each
      transaction has the branch, sent-by, CSeq number and initiator of a request. */
  lemma {:induction false} CallsAreTrue(cfg: Config, acts: seq<Action>, s: System)
    requires WellFormedPackets(acts) && s == Run(cfg, START, acts)
    ensures forall c | 0 <= c < |s.w.calls| :: CallCaused(Packets(acts), s.w.calls[c]) && s.w.calls[c].created <= s.now
  {
    RunIsCaused(cfg, START, acts, {});
    assert {} + Packets(acts) == Packets(acts);
  }

  // ---- windows ----

  /** At least a second old, and less than so many minutes. */
  predicate Recent(analyzeTs: int, ts: int, period: int) {
    1_000_000_000 <= analyzeTs - ts < period * 60_000_000_000
  }

  /** The window is the part of the list from lo to hi, and these are the events of the period. */
  ghost predicate IsSlice(es: seq<Event>, analyzeTs: int, period: int, lo: nat, hi: nat) {
    && lo <= hi <= |es| && Analyser.Window(es, analyzeTs, period) == es[lo..hi]
    && forall i | 0 <= i < |es| :: lo <= i < hi <==> Recent(analyzeTs, es[i].ts, period)
  }

  /** What comes after an event behind the slice is too young. */
  lemma AfterSlice(es: seq<Event>, e: Event, analyzeTs: int, period: int, lo: nat, hi: nat)
    requires InTime(es + [e]) && IsSlice(es, analyzeTs, period, lo, hi) && lo < hi < |es|
    ensures !Recent(analyzeTs, e.ts, period)
  {
    var es' := es + [e];
    assert es'[lo].ts <= es'[hi].ts <= es'[|es|].ts;
    assert Recent(analyzeTs, es[lo].ts, period) && !Recent(analyzeTs, es[hi].ts, period);
  }

  /** One more event, after the slice of the list before it. */
  lemma SliceStep(es: seq<Event>, e: Event, analyzeTs: int, period: int, lo: nat, hi: nat)
    requires InTime(es + [e]) && IsSlice(es, analyzeTs, period, lo, hi)
    ensures var n := |es|;
      if !Recent(analyzeTs, e.ts, period) then IsSlice(es + [e], analyzeTs, period, lo, hi)
      else IsSlice(es + [e], analyzeTs, period, if lo < hi then lo else n, n + 1)
  {
    var es', n := es + [e], |es|;
    Analyser.PeriodIsAnInterval(analyzeTs, e.ts, period);
    assert es'[..n] == es && forall i | 0 <= i < n :: es'[i] == es[i];
    if lo < hi < n { AfterSlice(es, e, analyzeTs, period, lo, hi); }
    if Recent(analyzeTs, e.ts, period) {
      assert es'[lo..n + 1] == es[lo..n] + [e] && es'[n..n + 1] == [e];
    } else {
      assert es'[lo..hi] == es[lo..hi] + [];
    }
  }

  lemma {:induction false} WindowIsSlice(es: seq<Event>, analyzeTs: int, period: int) returns (lo: nat, hi: nat)
    requires InTime(es)
    ensures IsSlice(es, analyzeTs, period, lo, hi)
    decreases |es|
  {
    lo, hi := 0, 0;
    if es != [] {
      var n := |es| - 1;
      lo, hi := WindowIsSlice(es[..n], analyzeTs, period);
      assert es == es[..n] + [es[n]];
      SliceStep(es[..n], es[n], analyzeTs, period, lo, hi);
      if Recent(analyzeTs, es[n].ts, period) {
        lo, hi := if lo < hi then lo else n, n + 1;
      }
    }
  }

  /** In every run, what the analyses look at is a contiguous part of the caller's list. */
  lemma {:induction false} WindowsAreSlices(cfg: Config, acts: seq<Action>, s: System, caller: string, analyzeTs: int,
                                            period: int)
    requires WellFormedPackets(acts) && s == Run(cfg, START, acts)
    ensures exists lo, hi :: IsSlice(EventList(s.w, caller), analyzeTs, period, lo, hi)
  {
    EventsAreTrue(cfg, acts, s);
    var lo, hi := WindowIsSlice(EventList(s.w, caller), analyzeTs, period);
  }
}
