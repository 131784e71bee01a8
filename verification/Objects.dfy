/**
 The objects the threads share: RTP sinks, transactions and calls, with the methods that
 update them in place (src/audio/RtpSink.cpp, src/sip/Transaction.hpp, src/sip/Call.cpp).
 `Data` is the value of an object in terms of Media and Signalling.
 */
module Objects {
  import opened SipTypes
  import opened Signalling
  import Media

  /** What the decoder takes from a sink: whose audio it is, and the packets. */
  datatype Recorded = Recorded(isCallerSink: bool, packets: Option<seq<nat>>)

  class RtpSink {
    const isCallerSink: bool
    const packetCountOld: nat := 0
    var active: bool
    var activityTs: int
    var status: SinkStatus
    var rtpPacketDeque: Option<seq<nat>>
    var packetCount: nat
    ghost const ref: nat
    ghost const owner: nat
    ghost const socket: SocketAddress
    ghost var lastActivity: int
    ghost var polledAt: int

    ghost function Data(): Media.SinkData
      reads `active, `activityTs, `status, `rtpPacketDeque, `packetCount, `lastActivity, `polledAt
    {
      Media.SinkData(owner, socket, isCallerSink, active, status, rtpPacketDeque, packetCount, activityTs,
        lastActivity, polledAt)
    }

    constructor (isCallerSink: bool, now: int, ghost ref: nat, ghost owner: nat, ghost socket: SocketAddress)
      ensures Data() == Media.NewSink(owner, socket, isCallerSink, true, now)
      ensures this.ref == ref && this.isCallerSink == isCallerSink
    {
      this.isCallerSink := isCallerSink;
      active := true;
      activityTs := now;
      status := RsInit;
      rtpPacketDeque := Some([]);
      packetCount := 0;
      this.ref, this.owner, this.socket := ref, owner, socket;
      lastActivity, polledAt := now, now;
    }

    /** Stores the packet, or hands it back to the pool if the sink is not active. */
    method RollIn(packet: nat, now: int) returns (recycled: seq<nat>)
      requires active ==> rtpPacketDeque.Some?
      modifies `rtpPacketDeque, `packetCount, `lastActivity
      ensures Data() == Media.RollIn(old(Data()), packet, now)
      ensures recycled == if active then [] else [packet]
    {
      recycled := [];
      if active {
        rtpPacketDeque := Some(rtpPacketDeque.value + [packet]);
      } else {
        recycled := [packet];
      }
      packetCount := packetCount + 1;
      lastActivity := now;
    }

    method InactiveFor(now: int) returns (inactive: int)
      modifies `packetCount, `activityTs, `polledAt
      ensures inactive == Media.Reported(old(Data()), now)
      ensures Data() == Media.Polled(old(Data()), now)
    {
      polledAt := now;
      if packetCount > packetCountOld {
        packetCount := packetCountOld;
        activityTs := now;
        inactive := 0;
      } else {
        inactive := Media.Seconds(now - activityTs);
      }
    }

    method Deactivate()
      modifies this`active
      ensures Data() == old(Data()).(active := false)
    {
      active := false;
    }

    method GetTlayerDeque() returns (deque: Option<seq<nat>>)
      modifies this`rtpPacketDeque
      ensures deque == old(Data()).packets
      ensures Data() == old(Data()).(packets := None)
    {
      deque := rtpPacketDeque;
      rtpPacketDeque := None;
    }

    method SetStatus(status: SinkStatus)
      modifies this`status
      ensures Data() == old(Data()).(status := status)
    {
      this.status := status;
    }
  }

  class Transaction {
    const call: Call
    const initiator: Party
    const sentBy: string
    const cseqNum: nat
    const id: TransactionId
    var state: TransactionState
    var finalResponseCode: nat
    var finalResponseReason: string
    var cancelFlag: bool
    var ackFlag: bool
    var tid: nat

    ghost function Data(): TransactionData
      reads this
    {
      TransactionData(tid, id, initiator, sentBy, cseqNum, state, finalResponseCode, finalResponseReason, cancelFlag,
        ackFlag)
    }

    constructor (call: Call, p: Packet, tid: nat)
      ensures this.call == call
      ensures Data() == NewTransaction(p, tid)
    {
      this.call := call;
      initiator := p.from;
      sentBy := p.sentBy;
      cseqNum := p.cseqNum;
      id := TransactionId(p.branch, p.cseqMethod);
      state := TERMINATED_TERMINATED;
      finalResponseCode, finalResponseReason := 0, "";
      cancelFlag, ackFlag := false, false;
      this.tid := tid;
    }

    method SetState(state: TransactionState)
      modifies this`state
      ensures this.state == state
    {
      this.state := state;
    }

    method SetFinalResponse(p: Packet)
      modifies this`finalResponseCode, this`finalResponseReason
      ensures finalResponseCode == p.responseCode && finalResponseReason == p.responseReason
    {
      finalResponseCode := p.responseCode;
      finalResponseReason := p.responseReason;
    }
  }

  class Call {
    const callId: string
    const created: int
    var dialog: Dialog
    var transactionMap: map<TransactionId, Transaction>
    var localRtpSinkMap: map<SocketAddress, RtpSink>
    var reinviteFlag: bool
    var rtpSinksAreActivated: bool
    const ref: nat

    /** The stored transactions are this call's, each under its own id. */
    ghost predicate Valid()
      reads `transactionMap
    {
      forall k <- transactionMap :: transactionMap[k].id == k && transactionMap[k].call == this
    }

    ghost function Trans(): map<TransactionId, TransactionData>
      reads `transactionMap, transactionMap.Values
    {
      map k | k in transactionMap :: transactionMap[k].Data()
    }

    /** The signalling of the call. */
    ghost function Record(): CallData
      reads `dialog, `reinviteFlag, `transactionMap, transactionMap.Values
    {
      CallData(callId, created, dialog, Trans(), reinviteFlag)
    }

    /** The same as Record() == d, field by field. */
    ghost predicate Shows(d: CallData)
      reads `dialog, `transactionMap, `reinviteFlag, transactionMap.Values
    {
      && callId == d.callId && created == d.created && dialog == d.dialog && reinviteFlag == d.reinvite
      && transactionMap.Keys == d.trans.Keys
      && forall k <- transactionMap :: transactionMap[k].Data() == d.trans[k]
    }

    lemma ShowsRecord(d: CallData)
      ensures Shows(d) <==> Record() == d
    {
      if Shows(d) {
        assert Trans() == d.trans;
      }
    }

    constructor (p: Packet, now: int, ref: nat)
      ensures this.ref == ref && Valid() && Record() == NewCallData(p, now)
      ensures localRtpSinkMap == map[] && rtpSinksAreActivated
    {
      callId := p.callId;
      created := now;
      dialog := Dialog(DsUndefined, NOBODY, NOBODY);
      transactionMap := map[];
      localRtpSinkMap := map[];
      reinviteFlag := false;
      rtpSinksAreActivated := true;
      this.ref := ref;
    }

    method FindTransaction(id: TransactionId) returns (transaction: Transaction?)
      ensures if id in transactionMap then transaction == transactionMap[id] else transaction == null
    {
      transaction := null;
      if id in transactionMap {
        transaction := transactionMap[id];
      }
    }

    /** The first INVITE transaction in the order of the map: by branch. */
    method FindInviteTransaction() returns (transaction: Transaction?)
      ensures match FindInvite(Record().trans)
              case None => transaction == null
              case Some(k) => k in transactionMap && transaction == transactionMap[k]
    {
      transaction := null;
      var found := None;
      var todo := transactionMap.Keys;
      while todo != {}
        invariant todo <= transactionMap.Keys
        invariant found.Some? ==>
          found.value in transactionMap && found.value.cseqMethod == Invite
            && transaction == transactionMap[found.value]
        invariant found.None? ==> transaction == null
        invariant forall k <- transactionMap.Keys - todo ::
          k.cseqMethod == Invite ==> found.Some? && Leq(found.value.branch, k.branch)
        decreases |todo|
      {
        var k :| k in todo;
        todo := todo - {k};
        if k.cseqMethod == Invite {
          if found.None? || !Leq(found.value.branch, k.branch) {
            Prefer(found, k, transactionMap.Keys - todo - {k});
            found := Some(k);
            transaction := transactionMap[k];
          }
        }
      }
      FoundIsFirst(Trans(), found);
    }

    /** std::map::insert: a transaction with the same id is kept. */
    method InsertTransaction(t: Transaction)
      requires Valid() && t.call == this
      modifies `transactionMap
      ensures Valid() && Record() == Store(old(Record()), t.Data())
      ensures transactionMap == InsertNew(old(transactionMap), t.id, t)
    {
      transactionMap := InsertNew(transactionMap, t.id, t);
      assert Trans() == Store(old(Record()), t.Data()).trans;
    }

    method DelTransaction(id: TransactionId) returns (count: nat)
      requires Valid()
      modifies `transactionMap
      ensures Valid() && Record() == old(Record()).(trans := old(Record()).trans - {id})
      ensures count == if id in old(transactionMap) then 1 else 0
    {
      count := if id in transactionMap then 1 else 0;
      transactionMap := transactionMap - {id};
      assert Trans() == old(Record()).trans - {id};
    }

    /** t is the transaction stored under its id. */
    ghost predicate Stores(t: Transaction)
      reads `transactionMap
    {
      Valid() && t.id in transactionMap && transactionMap[t.id] == t
    }

    /** Transaction::setState on a stored transaction. */
    method SetState(t: Transaction, s: TransactionState)
      requires Stores(t)
      modifies t`state
      ensures t.Data() == old(t.Data()).(state := s)
      ensures Record() == old(Record()).(trans := old(Record()).trans[t.id := t.Data()])
    {
      t.SetState(s);
      assert Trans() == old(Record()).trans[t.id := t.Data()];
    }

    /** The setters for the final response, with the new state. */
    method SetAnswer(t: Transaction, s: TransactionState, p: Packet)
      requires Stores(t)
      modifies t`state, t`finalResponseCode, t`finalResponseReason
      ensures t.Data() == Answer(old(t.Data()), s, p)
      ensures Record() == old(Record()).(trans := old(Record()).trans[t.id := t.Data()])
    {
      t.SetState(s);
      t.SetFinalResponse(p);
      assert Trans() == old(Record()).trans[t.id := t.Data()];
    }

    /** Transaction::setCancelFlag on a stored transaction. */
    method SetCancelFlag(t: Transaction)
      requires Stores(t)
      modifies t`cancelFlag
      ensures t.Data() == old(t.Data()).(cancelFlag := true)
      ensures Record() == old(Record()).(trans := old(Record()).trans[t.id := t.Data()])
    {
      t.cancelFlag := true;
      assert Trans() == old(Record()).trans[t.id := t.Data()];
    }

    /** Transaction::setAckFlag on a stored transaction. */
    method SetAckFlag(t: Transaction)
      requires Stores(t)
      modifies t`ackFlag
      ensures t.Data() == old(t.Data()).(ackFlag := true)
      ensures Record() == old(Record()).(trans := old(Record()).trans[t.id := t.Data()])
    {
      t.ackFlag := true;
      assert Trans() == old(Record()).trans[t.id := t.Data()];
    }

    /** The callee's tag and display name from a response, with the dialog state s. */
    method SetCallee(p: Packet, s: DialogState)
      modifies `dialog
      ensures Record() == old(Record()).(dialog := WithCallee(old(dialog), p).(state := s))
    {
      dialog := dialog.(callee := dialog.callee.(tag := p.to.tag));
      dialog := dialog.(callee := dialog.callee.(displayname := p.to.displayname));
      dialog := dialog.(state := s);
      assert Trans() == old(Trans());
    }

    /** CheckRecordingTime: after maxSeconds the sinks in the local map are deactivated. */
    method CheckRecordingTime(now: int, maxSeconds: int)
      requires DistinctSinks()
      modifies this`rtpSinksAreActivated, localRtpSinkMap.Values`active
      ensures var stop := old(rtpSinksAreActivated) && Media.Seconds(now - created) > maxSeconds;
        && rtpSinksAreActivated == (old(rtpSinksAreActivated) && !stop)
        && forall s <- localRtpSinkMap ::
             localRtpSinkMap[s].Data() == if stop then old(localRtpSinkMap[s].Data()).(active := false)
               else old(localRtpSinkMap[s].Data())
    {
      var diff := Media.Seconds(now - created);
      if rtpSinksAreActivated && diff > maxSeconds {
        DeactivateEach();
        rtpSinksAreActivated := false;
      }
    }

    /** The loop over the sinks. */
    method DeactivateEach()
      requires DistinctSinks()
      modifies localRtpSinkMap.Values`active
      ensures forall s <- localRtpSinkMap ::
        localRtpSinkMap[s].Data() == old(localRtpSinkMap[s].Data()).(active := false)
    {
      var todo := localRtpSinkMap.Keys;
      while todo != {}
        invariant todo <= localRtpSinkMap.Keys
        invariant forall s <- localRtpSinkMap ::
          localRtpSinkMap[s].Data() == if s in todo then old(localRtpSinkMap[s].Data())
            else old(localRtpSinkMap[s].Data()).(active := false)
        decreases |todo|
      {
        var s :| s in todo;
        localRtpSinkMap[s].Deactivate();
        todo := todo - {s};
      }
    }

    /** AudioHandler::worker: each sink gives its deque away. */
    method TakeEach() returns (deques: map<SocketAddress, Recorded>)
      requires DistinctSinks()
      modifies localRtpSinkMap.Values`rtpPacketDeque
      ensures deques.Keys == localRtpSinkMap.Keys
      ensures forall s <- localRtpSinkMap ::
        deques[s] == Recorded(old(localRtpSinkMap[s].Data()).isCaller, old(localRtpSinkMap[s].Data()).packets)
        && localRtpSinkMap[s].Data() == old(localRtpSinkMap[s].Data()).(packets := None)
    {
      ghost var was := map s | s in localRtpSinkMap :: localRtpSinkMap[s].Data();
      deques := TakeAll(was);
    }

    /** The sinks but those in `todo` have given their deques away. */
    ghost predicate Given(was: map<SocketAddress, Media.SinkData>, todo: set<SocketAddress>,
                          deques: map<SocketAddress, Recorded>)
      reads this, localRtpSinkMap.Values
    {
      && was.Keys == localRtpSinkMap.Keys && deques.Keys == localRtpSinkMap.Keys - todo
      && (forall s <- deques :: deques[s] == Recorded(was[s].isCaller, was[s].packets))
      && forall s <- localRtpSinkMap ::
           localRtpSinkMap[s].Data() == if s in todo then was[s] else was[s].(packets := None)
    }

    /** The loop over the sinks. */
    method TakeAll(ghost was: map<SocketAddress, Media.SinkData>) returns (deques: map<SocketAddress, Recorded>)
      requires DistinctSinks() && Given(was, localRtpSinkMap.Keys, map[])
      modifies localRtpSinkMap.Values`rtpPacketDeque
      ensures Given(was, {}, deques)
    {
      deques := map[];
      var todo := localRtpSinkMap.Keys;
      while todo != {}
        invariant todo <= localRtpSinkMap.Keys && Given(was, todo, deques)
        decreases |todo|
      {
        var s :| s in todo;
        deques := TakeOne(s, localRtpSinkMap[s], was, todo, deques);
        todo := todo - {s};
      }
    }

    /** One more sink gives its deque away. */
    method TakeOne(s: SocketAddress, sink: RtpSink, ghost was: map<SocketAddress, Media.SinkData>,
                   ghost todo: set<SocketAddress>, deques: map<SocketAddress, Recorded>)
      returns (deques': map<SocketAddress, Recorded>)
      requires DistinctSinks() && s in todo && s in localRtpSinkMap && localRtpSinkMap[s] == sink
      requires Given(was, todo, deques)
      modifies sink`rtpPacketDeque
      ensures Given(was, todo - {s}, deques')
    {
      var deque := sink.GetTlayerDeque();
      deques' := deques[s := Recorded(sink.isCallerSink, deque)];
    }

    /** Each sink is filed under its own socket, so no sink is in the local map twice. */
    ghost predicate DistinctSinks()
      reads this
    {
      forall s <- localRtpSinkMap :: localRtpSinkMap[s].socket == s
    }

    /** The least of the call's age and the inactivity of its sinks, each of which is polled. */
    method GetRtpInactivityTime(now: int) returns (inactive: int)
      requires DistinctSinks()
      modifies localRtpSinkMap.Values`packetCount, localRtpSinkMap.Values`activityTs, localRtpSinkMap.Values`polledAt
      ensures forall s <- localRtpSinkMap ::
        localRtpSinkMap[s].Data() == Media.Polled(old(localRtpSinkMap[s].Data()), now)
      ensures inactive <= Media.Seconds(now - created)
      ensures forall s <- localRtpSinkMap :: inactive <= Media.Reported(old(localRtpSinkMap[s].Data()), now)
      ensures inactive == Media.Seconds(now - created)
              || exists s <- localRtpSinkMap :: inactive == Media.Reported(old(localRtpSinkMap[s].Data()), now)
    {
      inactive := Media.Seconds(now - created);
      var todo := localRtpSinkMap.Keys;
      while todo != {}
        invariant todo <= localRtpSinkMap.Keys
        invariant forall s <- localRtpSinkMap ::
          localRtpSinkMap[s].Data() == if s in todo then old(localRtpSinkMap[s].Data())
            else Media.Polled(old(localRtpSinkMap[s].Data()), now)
        invariant inactive <= Media.Seconds(now - created)
        invariant forall s <- localRtpSinkMap ::
          s !in todo ==> inactive <= Media.Reported(old(localRtpSinkMap[s].Data()), now)
        invariant inactive == Media.Seconds(now - created)
                  || exists s <- localRtpSinkMap :: inactive == Media.Reported(old(localRtpSinkMap[s].Data()), now)
        decreases |todo|
      {
        var s :| s in todo;
        var sinkInactivity := localRtpSinkMap[s].InactiveFor(now);
        if sinkInactivity < inactive {
          inactive := sinkInactivity;
        }
        todo := todo - {s};
      }
    }
  }

  /** A better candidate is at least as good for all that were seen. */
  lemma Prefer(found: Option<TransactionId>, k: TransactionId, seen: set<TransactionId>)
    requires found.None? || !Leq(found.value.branch, k.branch)
    requires forall x <- seen :: x.cseqMethod == Invite ==> found.Some? && Leq(found.value.branch, x.branch)
    ensures forall x <- seen + {k} :: x.cseqMethod == Invite ==> Leq(k.branch, x.branch)
  {
    LeqTotal(k.branch, k.branch);
    if found.Some? {
      LeqTotal(found.value.branch, k.branch);
      forall x <- seen | x.cseqMethod == Invite ensures Leq(k.branch, x.branch) {
        LeqTransitive(k.branch, found.value.branch, x.branch);
      }
    }
  }

  lemma FoundIsFirst(trans: map<TransactionId, TransactionData>, found: Option<TransactionId>)
    requires found.Some? ==> found.value in trans && found.value.cseqMethod == Invite
    requires forall k <- trans :: k.cseqMethod == Invite ==> found.Some? && Leq(found.value.branch, k.branch)
    ensures FindInvite(trans) == found
  {
    if found.Some? {
      assert IsLeast(found.value.branch, InviteBranches(trans));
      assert FindInvite(trans) == Some(TransactionId(found.value.branch, Invite));
    }
  }
}
