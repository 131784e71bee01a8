/**
 The SIP processor (src/sip/SipProcessor.cpp) as it runs: one method for each handler, on
 the objects of the current packet. Each handler is proved against its outcome in
 Signalling, and the worker loop's pass against SipMachine.Step.
 */
module SipProcessors {
  import opened SipTypes
  import opened Signalling
  import opened SipMachine
  import opened Objects
  import opened SharedState
  import Media

  /** One more socket dealt with by the loop of confirmRtpSinks: the sink moves on, and a sink
      that was CONFIRMED loses its global entry. */
  lemma ConfirmOne(m: Media.MediaState, c: nat, done: set<SocketAddress>, s: SocketAddress)
    requires Media.Wf(m) && c < |m.calls| && s in m.calls[c].local && s !in done
    ensures var k, m1, m2 := m.calls[c].local[s], Media.ConfirmSome(m, c, done), Media.ConfirmSome(m, c, done + {s});
      && k < |m.sinks| == |m1.sinks| && m1.sinks[k] == m.sinks[k]
      && m2.sinks == (match m.sinks[k].status
                      case RsConfirmed => m1.sinks[k := m1.sinks[k].(status := RsTerminated)]
                      case RsTerminated => m1.sinks
                      case _ => m1.sinks[k := m1.sinks[k].(status := RsConfirmed)])
      && m2.global == (if m1.sinks[k].status == RsConfirmed then m1.global - {s} else m1.global)
  {
    assert Media.WfLocal(m, c, s, m.calls[c].local[s]);
  }

  lemma AnnulOne(m: Media.MediaState, c: nat, done: set<SocketAddress>, s: SocketAddress)
    requires Media.Wf(m) && c < |m.calls| && s in m.calls[c].local && s !in done
    ensures var k, m1, m2 := m.calls[c].local[s], Media.AnnulSome(m, c, done), Media.AnnulSome(m, c, done + {s});
      && k < |m.sinks| == |m1.sinks| && m1.sinks[k] == m.sinks[k]
      && m2.sinks == (match m.sinks[k].status
                      case RsInit => m1.sinks[k := m1.sinks[k].(status := RsTerminated)]
                      case RsConfirmedInit => m1.sinks[k := m1.sinks[k].(status := RsConfirmed)]
                      case _ => m1.sinks)
      && m2.global == (if m1.sinks[k].status == RsInit then m1.global - {s} else m1.global)
  {
    assert Media.WfLocal(m, c, s, m.calls[c].local[s]);
  }

  lemma NothingDone(m: Media.MediaState, c: nat)
    requires c < |m.calls|
    ensures Media.ConfirmSome(m, c, {}) == m && Media.AnnulSome(m, c, {}) == m
  {
    assert Media.MapHeld(m, c, Media.CommitSink, {}) == m.sinks;
    assert Media.MapHeld(m, c, Media.RollbackSink, {}) == m.sinks;
  }

  /** r is w after the outcome, field by field. */
  ghost predicate Applied(w: World, r: World, c: nat, p: Packet, o: Outcome, now: int)
    requires c < |w.calls| == |w.media.calls|
  {
    && r.callMap == (if o.exit == Stay then w.callMap else w.callMap - {p.callId})
    && r.calls == w.calls[c := o.call]
    && r.media == MediaAfter(w.media, c, p, o, now)
    && r.decodeQueue == (if o.exit == HandOff then w.decodeQueue + [c] else w.decodeQueue)
    && r.events == (if o.events == [] then w.events
                    else w.events[o.call.dialog.caller.address := EventList(w, o.call.dialog.caller.address)
                      + o.events])
    && r.nextTid == w.nextTid + o.newTids
  }

  lemma AppliedIsApply(w: World, r: World, c: nat, p: Packet, o: Outcome, now: int)
    requires c < |w.calls| == |w.media.calls| && Applied(w, r, c, p, o, now)
    ensures r == Apply(w, c, p, o, now)
  {
  }

  /** Handlers of initial requests never take the call out of the map. */
  lemma InitialRequestStays(call: CallData, c: nat, p: Packet, tid: nat, now: int)
    ensures OnInitialRequest(call, c, p, tid, now).exit == Stay
  {
  }

  /** What a success does to a pending INVITE transaction. */
  lemma SuccessOutcome(call: CallData, c: nat, k: TransactionId, p: Packet, now: int)
    requires k in call.trans
    ensures var o := OnSuccessOnInvite(call, c, k, p, now);
      if InviteIsPending(call.trans[k].state)
      then var x := Answer(call.trans[k], TERMINATED_TERMINATED, p);
        && o.call == call.(trans := call.trans[k := x], dialog := WithCallee(call.dialog, p).(state := DsConfirmed),
          reinvite := false)
        && o.events == EventsOf(call, c, x, now) && o.offer == Offer(call.reinvite)
        && o.settle == Keep && o.exit == Stay && o.newTids == 0
      else o == Nothing(call)
  {
  }

  lemma NonSuccessOutcome(call: CallData, c: nat, k: TransactionId, p: Packet, now: int)
    requires k in call.trans
    ensures var o := OnNonSuccessOnInvite(call, c, k, p, now);
      if InviteIsPending(call.trans[k].state)
      then var x := Answer(call.trans[k], TERMINATED_COMPLETED, p);
        && o.call == call.(trans := call.trans[k := x]) && o.events == EventsOf(call, c, x, now)
        && o.offer == NoOffer && o.settle == RollbackSinks && o.exit == Stay && o.newTids == 0
      else o == Nothing(call)
  {
  }

  /** What an ACK on a success does, by the first INVITE transaction. */
  lemma AckOutcome(call: CallData, c: nat, p: Packet, now: int)
    ensures var o := OnAckOnSuccess(call, c, p, now);
      && o.exit == Stay && o.newTids == 0
      && if AckMatches(call.trans, p)
         then var k := FindInvite(call.trans).value;
           && o.events == EventsOf(call, c, call.trans[k].(ackFlag := true), now) && o.offer == Offer(call.reinvite)
           && o.settle == CommitSinks && o.call == call.(trans := call.trans - {k} - {p.Id()})
         else o == Nothing(call)
  {
  }

  lemma PlainResponseOutcome(call: CallData, c: nat, k: TransactionId, p: Packet, now: int, leaves: bool)
    requires k in call.trans
    ensures var o := OnPlainResponse(call, c, k, p, now, leaves);
      if RequestIsPending(call.trans[k].state)
      then && o.call == call.(trans := call.trans - {k})
           && o.events == EventsOf(call, c, Answer(call.trans[k], TERMINATED_TERMINATED, p), now)
           && o.offer == NoOffer && o.settle == Keep && o.exit == (if leaves then HandOff else Stay) && o.newTids == 0
      else o == Nothing(call)
  {
  }

  lemma ProvisionalParts(call: CallData, k: TransactionId, p: Packet)
    requires k in call.trans
    ensures var o := OnProvisionalOnInvite(call, k, p);
      o.offer == NoOffer && o.settle == Keep && o.newTids == 0 && o.exit == Stay && o.events == []
  {
  }

  lemma OtherRequestParts(call: CallData, c: nat, p: Packet, tid: nat, now: int)
    requires p.requestMethod != Invite && p.requestMethod != Ack
    ensures var o := OnInitialRequest(call, c, p, tid, now); o.offer == NoOffer && o.settle == Keep && o.exit == Stay
  {
  }

  /** An event does not show the stored transactions, nor the state of the dialog. */
  lemma SameEvents(call: CallData, call': CallData, c: nat, t: TransactionData, now: int)
    requires call' == call.(trans := call'.trans, dialog := call'.dialog) && call'.dialog.caller == call.dialog.caller
    ensures EventsOf(call', c, t, now) == EventsOf(call, c, t, now)
  {
  }

  lemma PushedTwice(events: map<string, seq<Event>>, call: CallData, es: seq<Event>, es': seq<Event>)
    ensures Pushed(Pushed(events, call, es), call, es') == Pushed(events, call, es + es')
  {
    var caller := call.dialog.caller.address;
    assert ListOf(events, caller) + es + es' == ListOf(events, caller) + (es + es');
    if es == [] { assert es + es' == es'; }
    if es' == [] { assert es + es' == es; }
  }

  lemma UpdateThenRemove<K, V>(m: map<K, V>, k: K, v: V)
    ensures m[k := v] - {k} == m - {k}
  {
  }

  /** Packets within a transaction store no transaction. */
  lemma NoNewTids(call: CallData, c: nat, k: TransactionId, p: Packet, now: int)
    requires k in call.trans
    ensures OnResponse(call, c, k, p, now).newTids == 0
    ensures OnAckOnNonSuccess(call, c, k, now).newTids == 0 && OnAckOnNonSuccess(call, c, k, now).exit != HandOff
  {
  }

  /** Which parts of the media change, by what the outcome says. */
  lemma MediaParts(m: Media.MediaState, c: nat, p: Packet, o: Outcome, now: int)
    requires c < |m.calls|
    ensures o.settle == Keep && o.exit != HandOff ==> MediaAfter(m, c, p, o, now) == OfferMedia(m, c, p, o, now)
    ensures o.offer == NoOffer && o.exit != HandOff ==> MediaAfter(m, c, p, o, now) == SettleMedia(m, c, o)
    ensures o.exit != HandOff ==> MediaAfter(m, c, p, o, now) == SettleMedia(OfferMedia(m, c, p, o, now), c, o)
    ensures o.offer == NoOffer && o.settle == Keep ==>
      MediaAfter(m, c, p, o, now) == if o.exit == HandOff then Media.Unregister(m, c) else m
  {
  }

  class SipProcessor {
    const maps: SharedMaps

    constructor (maps: SharedMaps)
      ensures this.maps == maps
    {
      this.maps := maps;
    }

    /** The body of the loop of confirmRtpSinks. */
    method ConfirmRtpSink(s: SocketAddress, sink: RtpSink, ghost m: Media.MediaState, ghost c: nat,
                          ghost done: set<SocketAddress>)
      requires Media.Wf(m) && c < |m.calls| && s in m.calls[c].local && s !in done
      requires m.calls[c].local[s] < |maps.sinkObjs| && sink == maps.sinkObjs[m.calls[c].local[s]]
      requires maps.ValidSinkObjs(Media.ConfirmSome(m, c, done).sinks)
      requires maps.ValidGlobals(Media.ConfirmSome(m, c, done).global)
      modifies maps`rtpSinkMap, sink`status
      ensures maps.ValidSinkObjs(Media.ConfirmSome(m, c, done + {s}).sinks)
      ensures maps.ValidGlobals(Media.ConfirmSome(m, c, done + {s}).global)
    {
      ghost var k, m1 := m.calls[c].local[s], Media.ConfirmSome(m, c, done);
      ConfirmOne(m, c, done, s);
      assert sink.Data() == m1.sinks[k] == m.sinks[k];
      if sink.status == RsConfirmed {
        maps.SetStatus(sink, RsTerminated, k, m1.sinks);
        maps.EraseSink(s, m1.global);
      } else if sink.status == RsInit || sink.status == RsConfirmedInit {
        maps.SetStatus(sink, RsConfirmed, k, m1.sinks);
      }
    }

    method ConfirmEachRtpSink(local: map<SocketAddress, RtpSink>, ghost m: Media.MediaState, ghost c: nat)
      requires Media.Wf(m) && c < |m.calls| && local.Keys == m.calls[c].local.Keys
      requires forall s <- local ::
        m.calls[c].local[s] < |maps.sinkObjs| && local[s] == maps.sinkObjs[m.calls[c].local[s]]
      requires maps.ValidSinkObjs(m.sinks) && maps.ValidGlobals(m.global)
      modifies maps`rtpSinkMap, maps.sinkObjs`status
      ensures maps.ValidSinkObjs(Media.ConfirmSinks(m, c).sinks) && maps.ValidGlobals(Media.ConfirmSinks(m, c).global)
    {
      NothingDone(m, c);
      var todo := local.Keys;
      ghost var done := {};
      while todo != {}
        invariant todo + done == local.Keys && todo !! done
        invariant maps.ValidSinkObjs(Media.ConfirmSome(m, c, done).sinks)
        invariant maps.ValidGlobals(Media.ConfirmSome(m, c, done).global)
        decreases |todo|
      {
        var s :| s in todo;
        ConfirmRtpSink(s, local[s], m, c, done);
        MoveOne(todo, done, s);
        todo, done := todo - {s}, done + {s};
      }
      assert done == m.calls[c].local.Keys;
    }

    method ConfirmRtpSinks(call: Call)
      requires maps.Knows(call) && maps.ValidSinks()
      modifies maps`rtpSinkMap, maps`media, maps.sinkObjs`status
      ensures maps.ValidSinks()
      ensures maps.media == Media.ConfirmSinks(old(maps.media), call.ref)
      ensures call.Record() == old(call.Record())
    {
      ghost var m, c := maps.media, call.ref;
      assert maps.ValidLocal(call, m.calls[c]);
      ConfirmEachRtpSink(call.localRtpSinkMap, m, c);
      Media.SettleWf(m, c);
      maps.media := Media.ConfirmSinks(m, c);
    }

    /** The body of the loop of annulRtpSinks. */
    method AnnulRtpSink(s: SocketAddress, sink: RtpSink, ghost m: Media.MediaState, ghost c: nat,
                        ghost done: set<SocketAddress>)
      requires Media.Wf(m) && c < |m.calls| && s in m.calls[c].local && s !in done
      requires m.calls[c].local[s] < |maps.sinkObjs| && sink == maps.sinkObjs[m.calls[c].local[s]]
      requires maps.ValidSinkObjs(Media.AnnulSome(m, c, done).sinks)
      requires maps.ValidGlobals(Media.AnnulSome(m, c, done).global)
      modifies maps`rtpSinkMap, sink`status
      ensures maps.ValidSinkObjs(Media.AnnulSome(m, c, done + {s}).sinks)
      ensures maps.ValidGlobals(Media.AnnulSome(m, c, done + {s}).global)
    {
      ghost var k, m1 := m.calls[c].local[s], Media.AnnulSome(m, c, done);
      AnnulOne(m, c, done, s);
      assert sink.Data() == m1.sinks[k] == m.sinks[k];
      if sink.status == RsInit {
        maps.SetStatus(sink, RsTerminated, k, m1.sinks);
        maps.EraseSink(s, m1.global);
      } else if sink.status == RsConfirmedInit {
        maps.SetStatus(sink, RsConfirmed, k, m1.sinks);
      }
    }

    method AnnulEachRtpSink(local: map<SocketAddress, RtpSink>, ghost m: Media.MediaState, ghost c: nat)
      requires Media.Wf(m) && c < |m.calls| && local.Keys == m.calls[c].local.Keys
      requires forall s <- local ::
        m.calls[c].local[s] < |maps.sinkObjs| && local[s] == maps.sinkObjs[m.calls[c].local[s]]
      requires maps.ValidSinkObjs(m.sinks) && maps.ValidGlobals(m.global)
      modifies maps`rtpSinkMap, maps.sinkObjs`status
      ensures maps.ValidSinkObjs(Media.AnnulSinks(m, c).sinks) && maps.ValidGlobals(Media.AnnulSinks(m, c).global)
    {
      NothingDone(m, c);
      var todo := local.Keys;
      ghost var done := {};
      while todo != {}
        invariant todo + done == local.Keys && todo !! done
        invariant maps.ValidSinkObjs(Media.AnnulSome(m, c, done).sinks)
        invariant maps.ValidGlobals(Media.AnnulSome(m, c, done).global)
        decreases |todo|
      {
        var s :| s in todo;
        AnnulRtpSink(s, local[s], m, c, done);
        MoveOne(todo, done, s);
        todo, done := todo - {s}, done + {s};
      }
      assert done == m.calls[c].local.Keys;
    }

    method AnnulRtpSinks(call: Call)
      requires maps.Knows(call) && maps.ValidSinks()
      modifies maps`rtpSinkMap, maps`media, maps.sinkObjs`status
      ensures maps.ValidSinks()
      ensures maps.media == Media.AnnulSinks(old(maps.media), call.ref)
      ensures call.Record() == old(call.Record())
    {
      ghost var m, c := maps.media, call.ref;
      assert maps.ValidLocal(call, m.calls[c]);
      AnnulEachRtpSink(call.localRtpSinkMap, m, c);
      Media.SettleWf(m, c);
      maps.media := Media.AnnulSinks(m, c);
    }

    /** The sinks grew by new objects only. */
    twostate predicate SinksGrew()
      reads maps`sinkObjs
    {
      && old(maps.sinkObjs) <= maps.sinkObjs
      && forall r | |old(maps.sinkObjs)| <= r < |maps.sinkObjs| :: fresh(maps.sinkObjs[r])
    }

    /** The call and the shared maps are as the outcome says. */
    twostate predicate Done(call: Call, p: Packet, now: int, o: Outcome)
      reads maps, call, call.transactionMap.Values, maps.callObjs, maps.sinkObjs
    {
      && call.Valid() && maps.ValidSinks() && SinksGrew() && call.Record() == o.call
      && maps.eventMap == Pushed(old(maps.eventMap), o.call, o.events) && maps.nextTid == old(maps.nextTid) + o.newTids
      && call.ref < |old(maps.media).calls| && maps.media == MediaAfter(old(maps.media), call.ref, p, o, now)
      && maps.callMap == (if o.exit == Stay then old(maps.callMap) else old(maps.callMap) - {p.callId})
      && maps.decodeQueue == (if o.exit == HandOff then old(maps.decodeQueue) + [call] else old(maps.decodeQueue))
    }

    /** The second half of processSdp: a new sink for the socket, put into both maps. */
    method InsertRtpSink(call: Call, rtpSocket: SocketAddress, isCallerSink: bool, now: int)
      requires maps.Knows(call) && maps.ValidSinks()
      modifies maps`rtpSinkMap, maps`media, maps`sinkObjs, call`localRtpSinkMap
      ensures maps.ValidSinks() && SinksGrew()
      ensures var m, c := old(maps.media), call.ref;
        c < |m.calls|
          && maps.media == Media.AddSink(m, c, Media.NewSink(c, rtpSocket, isCallerSink, m.calls[c].recording, now))
      ensures call.Record() == old(call.Record())
    {
      ghost var m, c := maps.media, call.ref;
      assert maps.ValidLocal(call, m.calls[c]);
      var rtpSink := MakeRtpSink(call, rtpSocket, isCallerSink, now);
      maps.AddRtpSink(call, rtpSocket, rtpSink);
    }

    /** A new sink, inactive if the call does not record. */
    method MakeRtpSink(call: Call, rtpSocket: SocketAddress, isCallerSink: bool, now: int) returns (rtpSink: RtpSink)
      ensures fresh(rtpSink) && rtpSink.ref == |maps.sinkObjs|
      ensures rtpSink.Data() == Media.NewSink(call.ref, rtpSocket, isCallerSink, call.rtpSinksAreActivated, now)
    {
      rtpSink := new RtpSink(isCallerSink, now, |maps.sinkObjs|, call.ref, rtpSocket);
      if !call.rtpSinksAreActivated {
        rtpSink.Deactivate();
      }
    }

    /** processSdp: the media after the offer of the packet, if it has a session description. */
    method ProcessSdp(call: Call, p: Packet, now: int)
      requires maps.Knows(call) && maps.ValidSinks()
      modifies maps`rtpSinkMap, maps`media, maps`sinkObjs, call`localRtpSinkMap, maps.sinkObjs`status
      ensures maps.ValidSinks() && SinksGrew()
      ensures call.ref < |old(maps.media).calls|
      ensures maps.media ==
        if p.sdp.Some?
        then Media.OfferSocket(old(maps.media), call.ref, p.sdp.value, call.reinviteFlag,
                               (p.kind == Response) != (call.dialog.caller.tag == p.to.tag), now)
        else old(maps.media)
      ensures call.Record() == old(call.Record())
    {
      if p.sdp == None {
        return;
      }
      var rtpSocket := p.sdp.value;
      if call.reinviteFlag {
        if rtpSocket in maps.rtpSinkMap {
          KeepRtpSink(call, rtpSocket, maps.rtpSinkMap[rtpSocket],
            (p.kind == Response) != (call.dialog.caller.tag == p.to.tag), now);
          return;
        }
      }
      var isCallerSink := p.kind == Response;
      if call.dialog.caller.tag == p.to.tag {
        isCallerSink := !isCallerSink;
      }
      InsertRtpSink(call, rtpSocket, isCallerSink, now);
    }

    /** The first half of processSdp: the socket has a sink, whose status may change. */
    method KeepRtpSink(call: Call, rtpSocket: SocketAddress, rtpSink: RtpSink, ghost isCaller: bool, ghost now: int)
      requires maps.Knows(call) && maps.ValidSinks()
      requires rtpSocket in maps.rtpSinkMap && rtpSink == maps.rtpSinkMap[rtpSocket]
      modifies maps`media, rtpSink`status
      ensures maps.ValidSinks()
      ensures call.ref < |old(maps.media).calls|
      ensures maps.media == Media.OfferSocket(old(maps.media), call.ref, rtpSocket, true, isCaller, now)
      ensures call.Record() == old(call.Record())
    {
      ghost var m, c := maps.media, call.ref;
      ghost var k := m.global[rtpSocket];
      Media.OfferWf(m, c, rtpSocket, true, isCaller, now);
      assert rtpSink.Data() == m.sinks[k];
      if rtpSink.status == RsConfirmed {
        maps.ChangeStatus(rtpSink, RsConfirmedInit, k);
      }
    }

    /** The transaction was made for the packet, and its call has not stored it. */
    ghost predicate IsNew(t: Transaction, p: Packet)
      reads t, t.call`transactionMap, maps`nextTid
    {
      t.call.Valid() && t.Data() == NewTransaction(p, maps.nextTid) && t !in t.call.transactionMap.Values
    }

    /** What handleBye, handleOptions and handleCancel have in common. */
    method StartRequest(call: Call, t: Transaction, p: Packet, now: int)
      requires t.call == call && IsNew(t, p)
      modifies maps`eventMap, maps`nextTid, call`transactionMap, t`state
      ensures call.Valid() && t.Data() == NewTransaction(p, old(maps.nextTid)).(state := TRYING_TRYING)
      ensures call.Record() == Store(old(call.Record()), t.Data())
      ensures call.transactionMap == InsertNew(old(call.transactionMap), t.id, t)
      ensures maps.nextTid == old(maps.nextTid) + Used(old(call.Record()), t.Data())
      ensures maps.eventMap ==
        Pushed(old(maps.eventMap), old(call.Record()), EventsOf(old(call.Record()), call.ref, t.Data(), now))
    {
      ghost var d := call.Record();
      t.SetState(TRYING_TRYING);
      assert call.Trans() == d.trans;
      maps.InsertTransaction(t);
      maps.CreateAndPushEvent(t, now, call.Record(), t.Data());
      SameEvents(d, call.Record(), call.ref, t.Data(), now);
    }

    /** handleBye and handleOptions. */
    method HandlePlainRequest(call: Call, t: Transaction, p: Packet, now: int, ghost o: Outcome)
      requires t.call == call && IsNew(t, p)
      requires o == OnPlainRequest(call.Record(), call.ref, p, maps.nextTid, now)
      modifies maps`eventMap, maps`nextTid, call`transactionMap, t`state
      ensures call.Valid() && call.Record() == o.call && maps.nextTid == old(maps.nextTid) + o.newTids
      ensures maps.eventMap == Pushed(old(maps.eventMap), o.call, o.events)
    {
      StartRequest(call, t, p, now);
    }

    /** The part of handleInvite that tells a re-INVITE from a new call. */
    method StartDialog(call: Call, p: Packet)
      modifies call`dialog, call`reinviteFlag
      ensures call.Record() == if old(call.dialog).state == DsConfirmed then old(call.Record()).(reinvite := true)
                               else old(call.Record()).(dialog := Dialog(DsInit, p.from, p.to))
    {
      ghost var d := call.Record();
      if call.dialog.state == DsConfirmed {
        call.reinviteFlag := true;
      } else {
        call.dialog := call.dialog.(state := DsInit);
        call.dialog := call.dialog.(caller := p.from);
        call.dialog := call.dialog.(callee := p.to);
      }
      assert call.Trans() == d.trans;
    }

    /** The first half of handleInvite: the dialog and the transaction. */
    method StartInvite(call: Call, t: Transaction, p: Packet, ghost now: int, ghost o: Outcome)
      requires t.call == call && IsNew(t, p) && !RefusesInvite(call.Record())
      requires o == OnInvite(call.Record(), call.ref, p, maps.nextTid, now)
      modifies maps`nextTid, call`dialog, call`reinviteFlag, call`transactionMap, t`state
      ensures call.Valid() && call.Record() == o.call && maps.nextTid == old(maps.nextTid) + o.newTids
      ensures o.offer == Offer(call.reinviteFlag) && o.events == EventsOf(o.call, call.ref, t.Data(), now)
    {
      StartDialog(call, p);
      ghost var d := call.Record();
      FileInvite(call, t);
      SameEvents(d, o.call, call.ref, t.Data(), now);
    }

    /** The transaction is stored, and the dialog is in setup. */
    method FileInvite(call: Call, t: Transaction)
      requires t.call == call && call.Valid() && t !in call.transactionMap.Values
      modifies maps`nextTid, call`dialog, call`transactionMap, t`state
      ensures call.Valid() && t.Data() == old(t.Data()).(state := CALLING_PROCEEDING)
      ensures call.Record() == Store(old(call.Record()), t.Data()).(dialog := old(call.dialog).(state := DsInit))
      ensures maps.nextTid == old(maps.nextTid) + Used(old(call.Record()), t.Data())
    {
      t.SetState(CALLING_PROCEEDING);
      assert call.Trans() == old(call.Trans());
      maps.InsertTransaction(t);
      ghost var d := call.Record();
      call.dialog := call.dialog.(state := DsInit);
      assert call.Trans() == d.trans;
    }

    /** The second half of handleInvite: session description and event. */
    method OfferInvite(call: Call, t: Transaction, p: Packet, now: int, ghost o: Outcome)
      requires t.call == call && maps.Knows(call) && maps.ValidSinks()
      requires call.Record() == o.call && o.events == EventsOf(o.call, call.ref, t.Data(), now)
      requires o.offer == Offer(call.reinviteFlag)
      modifies maps`eventMap, maps`rtpSinkMap, maps`media, maps`sinkObjs, maps.sinkObjs`status, call`localRtpSinkMap
      ensures maps.ValidSinks() && SinksGrew() && call.Record() == o.call
      ensures maps.eventMap == Pushed(old(maps.eventMap), o.call, o.events)
      ensures call.ref < |old(maps.media).calls| && maps.media == OfferMedia(old(maps.media), call.ref, p, o, now)
    {
      ProcessSdp(call, p, now);
      maps.CreateAndPushEvent(t, now, o.call, t.Data());
    }

    method HandleInvite(call: Call, t: Transaction, p: Packet, now: int, ghost o: Outcome)
      requires t.call == call && IsNew(t, p) && maps.Knows(call) && maps.ValidSinks()
      requires o == OnInvite(call.Record(), call.ref, p, maps.nextTid, now)
      modifies maps`eventMap, maps`nextTid, maps`rtpSinkMap, maps`media, maps`sinkObjs, maps.sinkObjs`status
      modifies call`dialog, call`reinviteFlag, call`transactionMap, call`localRtpSinkMap, t`state
      ensures Done(call, p, now, o)
    {
      if call.dialog.state == DsTerminating {
        NothingHappens(call, p, now, o);
        return;
      }
      if call.dialog.state == DsInit || call.dialog.state == DsEarly || call.reinviteFlag {
        NothingHappens(call, p, now, o);
        return;
      }
      AcceptInvite(call, t, p, now, o);
      MediaParts(old(maps.media), call.ref, p, o, now);
    }

    /** handleInvite for an INVITE that is not refused. */
    method AcceptInvite(call: Call, t: Transaction, p: Packet, now: int, ghost o: Outcome)
      requires t.call == call && IsNew(t, p) && maps.Knows(call) && maps.ValidSinks() && !RefusesInvite(call.Record())
      requires o == OnInvite(call.Record(), call.ref, p, maps.nextTid, now)
      modifies maps`eventMap, maps`nextTid, maps`rtpSinkMap, maps`media, maps`sinkObjs, maps.sinkObjs`status
      modifies call`dialog, call`reinviteFlag, call`transactionMap, call`localRtpSinkMap, t`state
      ensures call.Valid() && maps.ValidSinks() && SinksGrew()
      ensures call.Record() == o.call && maps.nextTid == old(maps.nextTid) + o.newTids
      ensures maps.eventMap == Pushed(old(maps.eventMap), o.call, o.events)
      ensures call.ref < |old(maps.media).calls| && maps.media == OfferMedia(old(maps.media), call.ref, p, o, now)
    {
      StartInvite(call, t, p, now, o);
      OfferInvite(call, t, p, now, o);
    }

    /** The last part of handleCancel: the INVITE transaction is informed. */
    method CancelInvite(call: Call, it: Transaction, now: int)
      requires call.Stores(it) && it.call == call
      modifies maps`eventMap, it`cancelFlag
      ensures it.Data() == old(it.Data()).(cancelFlag := true)
      ensures call.Record() == old(call.Record()).(trans := old(call.Record()).trans[it.id := it.Data()])
      ensures maps.eventMap ==
        Pushed(old(maps.eventMap), old(call.Record()), EventsOf(old(call.Record()), call.ref, it.Data(), now))
    {
      ghost var d := call.Record();
      call.SetCancelFlag(it);
      maps.CreateAndPushEvent(it, now, call.Record(), it.Data());
      SameEvents(d, call.Record(), call.ref, it.Data(), now);
    }

    method HandleCancel(call: Call, t: Transaction, p: Packet, now: int, ghost o: Outcome)
      requires t.call == call && IsNew(t, p)
      requires o == OnCancel(call.Record(), call.ref, p, maps.nextTid, now)
      modifies maps`eventMap, maps`nextTid, call`transactionMap, t`state, call.transactionMap.Values`cancelFlag
      ensures call.Valid() && call.Record() == o.call && maps.nextTid == old(maps.nextTid) + o.newTids
      ensures maps.eventMap == Pushed(old(maps.eventMap), o.call, o.events)
    {
      ghost var d := call.Record();
      var inviteTransactionId := TransactionId(t.id.branch, Invite);
      var inviteTransaction := call.FindTransaction(inviteTransactionId);
      if inviteTransaction == null {
        return;
      }
      if t.sentBy != inviteTransaction.sentBy {
        return;
      }
      // a mismatch of the CSeq numbers is logged here, and nothing else
      ghost var it := inviteTransaction.Data();
      StartRequest(call, t, p, now);
      assert inviteTransaction.Data() == it;
      CancelInvite(call, inviteTransaction, now);
      ghost var e1, e2 := EventsOf(d, call.ref, t.Data(), now), EventsOf(d, call.ref, inviteTransaction.Data(), now);
      SameEvents(d, Store(d, t.Data()), call.ref, inviteTransaction.Data(), now);
      PushedTwice(old(maps.eventMap), d, e1, e2);
    }

    // ---- responses ----

    method HandleProvisionalOnInvite(call: Call, t: Transaction, p: Packet, ghost o: Outcome)
      requires call.Stores(t) && o == OnProvisionalOnInvite(call.Record(), t.id, p)
      modifies call`dialog, t`state
      ensures call.Valid() && call.Record() == o.call
    {
      if t.state != CALLING_PROCEEDING && t.state != PROCEEDING_PROCEEDING {
        return;
      }
      call.SetState(t, PROCEEDING_PROCEEDING);
      if p.responseCode > 100 {
        call.SetCallee(p, if p.to.tag != "" then DsEarly else call.dialog.state);
      }
    }

    /** o is the outcome of a success for a pending INVITE transaction. */
    ghost predicate IsAnswer(call: Call, t: Transaction, p: Packet, now: int, o: Outcome)
      reads t, call`dialog, call`reinviteFlag, call`transactionMap, call.transactionMap.Values
    {
      var d, x := call.Record(), Answer(t.Data(), TERMINATED_TERMINATED, p);
      && o.call == d.(trans := d.trans[t.id := x], dialog := WithCallee(d.dialog, p).(state := DsConfirmed),
        reinvite := false)
      && o.events == EventsOf(d, call.ref, x, now) && o.offer == Offer(call.reinviteFlag)
      && o.settle == Keep && o.exit == Stay && o.newTids == 0
    }

    /** The first half of handleSuccessOnInvite: transaction, dialog and event. */
    method AnswerInvite(call: Call, t: Transaction, p: Packet, now: int, ghost o: Outcome)
      requires call.Stores(t) && t.call == call && IsAnswer(call, t, p, now, o)
      modifies maps`eventMap, call`dialog, t`state, t`finalResponseCode, t`finalResponseReason
      ensures call.Valid() && call.Record() == o.call.(reinvite := old(call.reinviteFlag))
      ensures maps.eventMap == Pushed(old(maps.eventMap), o.call, o.events)
    {
      ghost var d, x := call.Record(), Answer(t.Data(), TERMINATED_TERMINATED, p);
      call.SetAnswer(t, TERMINATED_TERMINATED, p);
      call.SetCallee(p, DsConfirmed);
      ghost var d1 := call.Record();
      maps.CreateAndPushEvent(t, now, d1, x);
      SameEvents(d, d1, call.ref, x, now);
    }

    /** This leaves the sinks alone. */
    method AnswerAside(call: Call, t: Transaction, p: Packet, now: int, ghost o: Outcome)
      requires call.Stores(t) && t.call == call && IsAnswer(call, t, p, now, o) && maps.ValidSinks()
      modifies maps`eventMap, call`dialog, t`state, t`finalResponseCode, t`finalResponseReason
      ensures call.Valid() && call.Record() == o.call.(reinvite := old(call.reinviteFlag)) && maps.ValidSinks()
      ensures maps.eventMap == Pushed(old(maps.eventMap), o.call, o.events)
    {
      AnswerInvite(call, t, p, now, o);
    }

    method HandleSuccessOnInvite(call: Call, t: Transaction, p: Packet, now: int, ghost o: Outcome)
      requires call.Stores(t) && t.call == call && maps.Knows(call) && maps.ValidSinks()
      requires o == OnSuccessOnInvite(call.Record(), call.ref, t.id, p, now)
      modifies maps`eventMap, maps`rtpSinkMap, maps`media, maps`sinkObjs, maps.sinkObjs`status
      modifies call`dialog, call`reinviteFlag, call`localRtpSinkMap, t`state, t`finalResponseCode, t`finalResponseReason
      ensures Done(call, p, now, o)
    {
      SuccessOutcome(call.Record(), call.ref, t.id, p, now);
      if t.state != CALLING_PROCEEDING && t.state != PROCEEDING_PROCEEDING {
        NothingHappens(call, p, now, o);
        return;
      }
      AcceptAnswer(call, t, p, now, o);
    }

    /** handleSuccessOnInvite once the state matches. */
    method AcceptAnswer(call: Call, t: Transaction, p: Packet, now: int, ghost o: Outcome)
      requires call.Stores(t) && t.call == call && maps.Knows(call) && maps.ValidSinks() && IsAnswer(call, t, p, now, o)
      modifies maps`eventMap, maps`rtpSinkMap, maps`media, maps`sinkObjs, maps.sinkObjs`status
      modifies call`dialog, call`reinviteFlag, call`localRtpSinkMap, t`state, t`finalResponseCode, t`finalResponseReason
      ensures Done(call, p, now, o)
    {
      AnswerAndOffer(call, t, p, now, o);
    }

    /** The parts of handleSuccessOnInvite. */
    method AnswerAndOffer(call: Call, t: Transaction, p: Packet, now: int, ghost o: Outcome)
      requires call.Stores(t) && t.call == call && maps.Knows(call) && maps.ValidSinks() && IsAnswer(call, t, p, now, o)
      modifies maps`eventMap, maps`rtpSinkMap, maps`media, maps`sinkObjs, maps.sinkObjs`status
      modifies call`dialog, call`reinviteFlag, call`localRtpSinkMap, t`state, t`finalResponseCode, t`finalResponseReason
      ensures call.Valid() && maps.ValidSinks() && SinksGrew() && call.Record() == o.call
      ensures maps.eventMap == Pushed(old(maps.eventMap), o.call, o.events)
      ensures call.ref < |old(maps.media).calls| && maps.media == MediaAfter(old(maps.media), call.ref, p, o, now)
    {
      AnswerAside(call, t, p, now, o);
      FinishSuccess(call, p, now, o);
    }

    /** The second half of handleSuccessOnInvite: session description and re-INVITE flag. */
    method FinishSuccess(call: Call, p: Packet, now: int, ghost o: Outcome)
      requires call.Valid() && maps.Knows(call) && maps.ValidSinks()
      requires call.Record() == o.call.(reinvite := call.reinviteFlag) && o.offer == Offer(call.reinviteFlag)
      requires !o.call.reinvite
      requires o.settle == Keep && o.exit == Stay
      modifies maps`rtpSinkMap, maps`media, maps`sinkObjs, maps.sinkObjs`status, call`reinviteFlag, call`localRtpSinkMap
      ensures call.Valid() && maps.ValidSinks() && SinksGrew() && call.Record() == o.call
      ensures call.ref < |old(maps.media).calls| && maps.media == MediaAfter(old(maps.media), call.ref, p, o, now)
    {
      ProcessSdp(call, p, now);
      call.reinviteFlag := false;
      assert call.Trans() == o.call.trans;
    }

    method HandleNonSuccessOnInvite(call: Call, t: Transaction, p: Packet, now: int, ghost o: Outcome)
      requires call.Stores(t) && t.call == call && maps.Knows(call) && maps.ValidSinks()
      requires o == OnNonSuccessOnInvite(call.Record(), call.ref, t.id, p, now)
      modifies maps`eventMap, maps`rtpSinkMap, maps`media, maps.sinkObjs`status
      modifies t`state, t`finalResponseCode, t`finalResponseReason
      ensures Done(call, p, now, o)
    {
      NonSuccessOutcome(call.Record(), call.ref, t.id, p, now);
      if t.state != CALLING_PROCEEDING && t.state != PROCEEDING_PROCEEDING {
        NothingHappens(call, p, now, o);
        return;
      }
      AcceptRefusal(call, t, p, now, Answer(t.Data(), TERMINATED_COMPLETED, p), o);
    }

    method AcceptRefusal(call: Call, t: Transaction, p: Packet, now: int, ghost x: TransactionData, ghost o: Outcome)
      requires call.Stores(t) && t.call == call && maps.Knows(call) && maps.ValidSinks()
      requires x == Answer(t.Data(), TERMINATED_COMPLETED, p)
      requires o.call == call.Record().(trans := call.Record().trans[t.id := x])
      requires o.events == EventsOf(call.Record(), call.ref, x, now)
      requires o.offer == NoOffer && o.settle == RollbackSinks && o.exit == Stay && o.newTids == 0
      modifies maps`eventMap, maps`rtpSinkMap, maps`media, maps.sinkObjs`status
      modifies t`state, t`finalResponseCode, t`finalResponseReason
      ensures Done(call, p, now, o)
    {
      RefuseInvite(call, t, p, now, x);
    }

    /** handleNonSuccessOnInvite once the state matches. */
    method RefuseInvite(call: Call, t: Transaction, p: Packet, now: int, ghost x: TransactionData)
      requires call.Stores(t) && t.call == call && maps.Knows(call) && maps.ValidSinks()
      requires x == Answer(t.Data(), TERMINATED_COMPLETED, p)
      modifies maps`eventMap, maps`rtpSinkMap, maps`media, maps.sinkObjs`status
      modifies t`state, t`finalResponseCode, t`finalResponseReason
      ensures call.Valid() && maps.ValidSinks()
      ensures call.Record() == old(call.Record()).(trans := old(call.Record()).trans[t.id := x])
      ensures maps.eventMap ==
        Pushed(old(maps.eventMap), old(call.Record()), EventsOf(old(call.Record()), call.ref, x, now))
      ensures call.ref < |old(maps.media).calls| && maps.media == Media.AnnulSinks(old(maps.media), call.ref)
    {
      AnswerRequest(call, t, TERMINATED_COMPLETED, p, now, x);
      AnnulRtpSinks(call);
    }

    /** What the handlers of final responses have in common: transaction and event. */
    method AnswerRequest(call: Call, t: Transaction, s: TransactionState, p: Packet, now: int, ghost x: TransactionData)
      requires call.Stores(t) && t.call == call && x == Answer(t.Data(), s, p)
      modifies maps`eventMap, t`state, t`finalResponseCode, t`finalResponseReason
      ensures call.Record() == old(call.Record()).(trans := old(call.Record()).trans[t.id := x])
      ensures maps.eventMap ==
        Pushed(old(maps.eventMap), old(call.Record()), EventsOf(old(call.Record()), call.ref, x, now))
    {
      ghost var d := call.Record();
      call.SetAnswer(t, s, p);
      maps.CreateAndPushEvent(t, now, call.Record(), x);
      SameEvents(d, call.Record(), call.ref, x, now);
    }

    /** o is the outcome of a final response for a pending request other than INVITE. */
    ghost predicate IsFinal(call: Call, t: Transaction, p: Packet, now: int, o: Outcome, leaves: bool)
      reads t, call`dialog, call`reinviteFlag, call`transactionMap, call.transactionMap.Values
    {
      var d := call.Record();
      && o.call == d.(trans := d.trans - {t.id})
      && o.events == EventsOf(d, call.ref, Answer(t.Data(), TERMINATED_TERMINATED, p), now)
      && o.offer == NoOffer && o.settle == Keep && o.exit == (if leaves then HandOff else Stay) && o.newTids == 0
    }

    /** What handleResponseOnBye, -Options and -Cancel have in common. */
    method FinishRequest(call: Call, t: Transaction, p: Packet, now: int, ghost o: Outcome, ghost leaves: bool)
      requires call.Stores(t) && t.call == call && IsFinal(call, t, p, now, o, leaves)
      modifies maps`eventMap, call`transactionMap, t`state, t`finalResponseCode, t`finalResponseReason
      ensures call.Valid() && call.Record() == o.call
      ensures maps.eventMap == Pushed(old(maps.eventMap), o.call, o.events)
    {
      ghost var d, x := call.Record(), Answer(t.Data(), TERMINATED_TERMINATED, p);
      AnswerRequest(call, t, TERMINATED_TERMINATED, p, now, x);
      UpdateThenRemove(d.trans, t.id, x);
      var _ := call.DelTransaction(t.id);
    }

    /** This leaves the sinks alone. */
    method FinishAside(call: Call, t: Transaction, p: Packet, now: int, ghost o: Outcome, ghost leaves: bool)
      requires call.Stores(t) && t.call == call && IsFinal(call, t, p, now, o, leaves) && maps.ValidSinks()
      modifies maps`eventMap, call`transactionMap, t`state, t`finalResponseCode, t`finalResponseReason
      ensures call.Valid() && call.Record() == o.call && maps.ValidSinks()
      ensures maps.eventMap == Pushed(old(maps.eventMap), o.call, o.events)
    {
      FinishRequest(call, t, p, now, o, leaves);
    }

    // ---- ACKs ----

    /** The first part of both ACK handlers: the INVITE transaction is acknowledged. */
    method AcknowledgeInvite(call: Call, it: Transaction, now: int)
      requires call.Stores(it) && it.call == call
      modifies maps`eventMap, it`ackFlag
      ensures it.Data() == old(it.Data()).(ackFlag := true)
      ensures call.Record() == old(call.Record()).(trans := old(call.Record()).trans[it.id := it.Data()])
      ensures maps.eventMap ==
        Pushed(old(maps.eventMap), old(call.Record()), EventsOf(old(call.Record()), call.ref, it.Data(), now))
    {
      ghost var d := call.Record();
      call.SetAckFlag(it);
      maps.CreateAndPushEvent(it, now, call.Record(), it.Data());
      SameEvents(d, call.Record(), call.ref, it.Data(), now);
    }

    /** The transaction part of handleAckOnNonSuccess. */
    method FinishFailedInvite(call: Call, t: Transaction, now: int, ghost x: TransactionData)
      requires call.Stores(t) && t.call == call && x == t.Data().(state := TERMINATED_TERMINATED, ackFlag := true)
      modifies maps`eventMap, t`state, t`ackFlag
      ensures call.Record() == old(call.Record()).(trans := old(call.Record()).trans[t.id := x])
      ensures maps.eventMap ==
        Pushed(old(maps.eventMap), old(call.Record()), EventsOf(old(call.Record()), call.ref, x, now))
    {
      ghost var d := call.Record();
      call.SetState(t, TERMINATED_TERMINATED);
      ghost var d1 := call.Record();
      AcknowledgeInvite(call, t, now);
      SameEvents(d, d1, call.ref, x, now);
    }

    /** The part of handleAckOnNonSuccess for a call without re-INVITE flag. */
    method CloseDialog(call: Call, p: Packet)
      modifies maps`callMap, call`dialog
      ensures call.Record() ==
        old(call.Record()).(dialog := if call.reinviteFlag then old(call.dialog)
          else old(call.dialog).(state := DsTerminating))
      ensures maps.callMap == if call.reinviteFlag then old(maps.callMap) else old(maps.callMap) - {p.callId}
    {
      ghost var d := call.Record();
      if !call.reinviteFlag {
        call.dialog := call.dialog.(state := DsTerminating);
        maps.callMap := maps.callMap - {p.callId};
      }
      assert call.Trans() == d.trans;
    }

    /** The first part of handleAckOnNonSuccess: transaction, event, dialog and call map. */
    method CloseFailedInvite(call: Call, t: Transaction, p: Packet, now: int, ghost o: Outcome)
      requires call.Stores(t) && t.call == call && t.state == TERMINATED_COMPLETED
      requires o == OnAckOnNonSuccess(call.Record(), call.ref, t.id, now)
      modifies maps`eventMap, maps`callMap, call`dialog, t`state, t`ackFlag
      ensures o.call == call.Record().(trans := call.Record().trans - {t.id})
      ensures maps.eventMap == Pushed(old(maps.eventMap), o.call, o.events)
      ensures maps.callMap == if o.exit == Stay then old(maps.callMap) else old(maps.callMap) - {p.callId}
    {
      ghost var d, x := call.Record(), t.Data().(state := TERMINATED_TERMINATED, ackFlag := true);
      FinishFailedInvite(call, t, now, x);
      UpdateThenRemove(d.trans, t.id, x);
      CloseDialog(call, p);
    }

    /** This leaves the sinks alone. */
    method CloseAside(call: Call, t: Transaction, p: Packet, now: int, ghost o: Outcome)
      requires call.Stores(t) && t.call == call && t.state == TERMINATED_COMPLETED && maps.ValidSinks()
      requires o == OnAckOnNonSuccess(call.Record(), call.ref, t.id, now)
      modifies maps`eventMap, maps`callMap, call`dialog, t`state, t`ackFlag
      ensures o.call == call.Record().(trans := call.Record().trans - {t.id}) && maps.ValidSinks()
      ensures maps.eventMap == Pushed(old(maps.eventMap), o.call, o.events)
      ensures maps.callMap == if o.exit == Stay then old(maps.callMap) else old(maps.callMap) - {p.callId}
    {
      CloseFailedInvite(call, t, p, now, o);
    }

    /** The rest of handleAckOnNonSuccess: sinks and transaction. */
    method AnnulTransaction(call: Call, k: TransactionId)
      requires call.Valid() && maps.Knows(call) && maps.ValidSinks()
      modifies maps`rtpSinkMap, maps`media, maps.sinkObjs`status, call`transactionMap
      ensures call.Valid() && maps.ValidSinks()
      ensures call.Record() == old(call.Record()).(trans := old(call.Record()).trans - {k})
      ensures call.ref < |old(maps.media).calls| && maps.media == Media.AnnulSinks(old(maps.media), call.ref)
    {
      AnnulRtpSinks(call);
      var _ := call.DelTransaction(k);
    }

    method HandleAckOnNonSuccess(call: Call, t: Transaction, p: Packet, now: int, ghost o: Outcome)
      requires call.Stores(t) && t.call == call && maps.Knows(call) && maps.ValidSinks()
      requires o == OnAckOnNonSuccess(call.Record(), call.ref, t.id, now)
      modifies maps`eventMap, maps`rtpSinkMap, maps`media, maps`callMap, maps.sinkObjs`status
      modifies call`dialog, call`transactionMap, t`state, t`ackFlag
      ensures Done(call, p, now, o)
    {
      if t.state != TERMINATED_COMPLETED {
        NothingHappens(call, p, now, o);
        return;
      }
      AbandonInvite(call, t, p, now, o);
      MediaParts(old(maps.media), call.ref, p, o, now);
    }

    /** handleAckOnNonSuccess once the state matches. */
    method AbandonInvite(call: Call, t: Transaction, p: Packet, now: int, ghost o: Outcome)
      requires call.Stores(t) && t.call == call && maps.Knows(call) && maps.ValidSinks()
      requires t.state == TERMINATED_COMPLETED
      requires o == OnAckOnNonSuccess(call.Record(), call.ref, t.id, now)
      modifies maps`eventMap, maps`rtpSinkMap, maps`media, maps`callMap, maps.sinkObjs`status
      modifies call`dialog, call`transactionMap, t`state, t`ackFlag
      ensures call.Valid() && maps.ValidSinks() && call.Record() == o.call
      ensures maps.eventMap == Pushed(old(maps.eventMap), o.call, o.events)
      ensures call.ref < |old(maps.media).calls| && maps.media == SettleMedia(old(maps.media), call.ref, o)
      ensures maps.callMap == if o.exit == Stay then old(maps.callMap) else old(maps.callMap) - {p.callId}
    {
      CloseAside(call, t, p, now, o);
      AnnulTransaction(call, t.id);
    }

    /** The part of handleAckOnSuccess about the sinks. */
    method OfferAndConfirm(call: Call, p: Packet, now: int, ghost o: Outcome)
      requires maps.Knows(call) && maps.ValidSinks()
      requires o.offer == Offer(call.reinviteFlag) && o.settle == CommitSinks && o.call.dialog == call.dialog
      modifies maps`rtpSinkMap, maps`media, maps`sinkObjs, maps.sinkObjs`status, call`localRtpSinkMap
      ensures maps.ValidSinks() && SinksGrew()
      ensures call.ref < |old(maps.media).calls|
      ensures maps.media == SettleMedia(OfferMedia(old(maps.media), call.ref, p, o, now), call.ref, o)
      ensures call.Record() == old(call.Record())
    {
      ProcessSdp(call, p, now);
      ConfirmRtpSinks(call);
    }

    /** The part of handleAckOnSuccess about the transactions, before the sinks. */
    method AcknowledgeSuccess(call: Call, it: Transaction, t: Transaction, now: int, ghost o: Outcome)
      requires call.Stores(it) && it.call == call && t !in call.transactionMap.Values
      requires o.events == EventsOf(call.Record(), call.ref, it.Data().(ackFlag := true), now)
      requires o.call == call.Record().(trans := call.Record().trans - {it.id} - {t.id})
      modifies maps`eventMap, it`ackFlag, t`state
      ensures o.call == call.Record().(trans := call.Record().trans - {it.id} - {t.id})
      ensures maps.eventMap == Pushed(old(maps.eventMap), o.call, o.events)
    {
      UpdateThenRemove(call.Record().trans, it.id, it.Data().(ackFlag := true));
      AcknowledgeInvite(call, it, now);
      ghost var d := call.Record();
      t.SetState(TERMINATED_TERMINATED);
      assert call.Trans() == d.trans;
    }

    /** The end of handleAckOnSuccess: both transactions are deleted. */
    method DelTransactions(call: Call, k: TransactionId, k': TransactionId)
      requires call.Valid()
      modifies call`transactionMap
      ensures call.Valid() && call.Record() == old(call.Record()).(trans := old(call.Record()).trans - {k} - {k'})
    {
      var _ := call.DelTransaction(k);
      var _ := call.DelTransaction(k');
    }

    /** The last part of handleAckOnSuccess: sinks and transactions. */
    method SettleHandshake(call: Call, k: TransactionId, k': TransactionId, p: Packet, now: int, ghost o: Outcome)
      requires call.Valid() && maps.Knows(call) && maps.ValidSinks()
      requires o.offer == Offer(call.reinviteFlag) && o.settle == CommitSinks && o.exit == Stay
      requires o.call.dialog == call.dialog
      modifies maps`rtpSinkMap, maps`media, maps`sinkObjs, maps.sinkObjs`status, call`localRtpSinkMap
      modifies call`transactionMap
      ensures call.Valid() && maps.ValidSinks() && SinksGrew()
      ensures call.Record() == old(call.Record()).(trans := old(call.Record()).trans - {k} - {k'})
      ensures call.ref < |old(maps.media).calls| && maps.media == MediaAfter(old(maps.media), call.ref, p, o, now)
    {
      OfferAndConfirm(call, p, now, o);
      DelTransactions(call, k, k');
    }

    /** handleAckOnSuccess for a matching INVITE transaction: transactions, event and sinks. */
    method FinishTransactions(call: Call, it: Transaction, t: Transaction, p: Packet, now: int, ghost o: Outcome)
      requires call.Stores(it) && it.call == call && t !in call.transactionMap.Values && maps.Knows(call)
      requires maps.ValidSinks()
      requires o.events == EventsOf(call.Record(), call.ref, it.Data().(ackFlag := true), now)
      requires o.call == call.Record().(trans := call.Record().trans - {it.id} - {t.id})
      requires o.offer == Offer(call.reinviteFlag) && o.settle == CommitSinks && o.exit == Stay && o.newTids == 0
      modifies maps`eventMap, maps`rtpSinkMap, maps`media, maps`sinkObjs, maps.sinkObjs`status
      modifies call`localRtpSinkMap, call`transactionMap, t`state, it`ackFlag
      ensures call.Valid() && maps.ValidSinks() && SinksGrew() && call.Record() == o.call
      ensures maps.eventMap == Pushed(old(maps.eventMap), o.call, o.events)
      ensures call.ref < |old(maps.media).calls| && maps.media == MediaAfter(old(maps.media), call.ref, p, o, now)
    {
      AcknowledgeSuccess(call, it, t, now, o);
      SettleHandshake(call, it.id, t.id, p, now, o);
    }

    /** handleAckOnSuccess once the INVITE transaction is found and matches. */
    method FinishHandshake(call: Call, it: Transaction, t: Transaction, p: Packet, now: int, ghost o: Outcome)
      requires call.Stores(it) && it.call == call && t !in call.transactionMap.Values && maps.Knows(call)
      requires maps.ValidSinks()
      requires o.events == EventsOf(call.Record(), call.ref, it.Data().(ackFlag := true), now)
      requires o.call == call.Record().(trans := call.Record().trans - {it.id} - {t.id})
      requires o.offer == Offer(call.reinviteFlag) && o.settle == CommitSinks && o.exit == Stay && o.newTids == 0
      modifies maps`eventMap, maps`rtpSinkMap, maps`media, maps`sinkObjs, maps.sinkObjs`status
      modifies call`localRtpSinkMap, call`transactionMap, t`state, it`ackFlag
      ensures Done(call, p, now, o)
    {
      FinishTransactions(call, it, t, p, now, o);
    }

    /** The first INVITE transaction, if sent-by and CSeq number are those of the ACK. */
    method FindAcknowledged(call: Call, t: Transaction, p: Packet) returns (it: Transaction?)
      requires t.call == call && IsNew(t, p)
      ensures it != null <==> AckMatches(call.Record().trans, p)
      ensures it != null ==> call.Stores(it) && it.call == call && Some(it.id) == FindInvite(call.Record().trans)
    {
      it := call.FindInviteTransaction();
      if it == null {
        return;
      }
      if t.sentBy != it.sentBy {
        return null;
      }
      if it.cseqNum != t.cseqNum {
        return null;
      }
    }

    method HandleAckOnSuccess(call: Call, t: Transaction, p: Packet, now: int, ghost o: Outcome)
      requires t.call == call && IsNew(t, p) && maps.Knows(call) && maps.ValidSinks()
      requires o == OnAckOnSuccess(call.Record(), call.ref, p, now)
      modifies maps`eventMap, maps`rtpSinkMap, maps`media, maps`sinkObjs, maps.sinkObjs`status
      modifies call`localRtpSinkMap, call`transactionMap, t`state, call.transactionMap.Values`ackFlag
      ensures Done(call, p, now, o)
    {
      AckOutcome(call.Record(), call.ref, p, now);
      var inviteTransaction := FindAcknowledged(call, t, p);
      if inviteTransaction == null {
        NothingHappens(call, p, now, o);
        return;
      }
      FinishHandshake(call, inviteTransaction, t, p, now, o);
    }

    method PrepareCallToDecode(call: Call, callId: string)
      requires maps.Knows(call) && maps.ValidSinks()
      modifies maps`rtpSinkMap, maps`media, maps`callMap, maps`decodeQueue
      ensures maps.ValidSinks() && call.ref < |old(maps.media).calls|
      ensures maps.media == Media.Unregister(old(maps.media), call.ref)
      ensures maps.callMap == old(maps.callMap) - {callId} && maps.decodeQueue == old(maps.decodeQueue) + [call]
    {
      maps.UnregisterRtpSinks(call);
      maps.callMap := maps.callMap - {callId};
      maps.decodeQueue := maps.decodeQueue + [call];
    }

    /** handleResponseOnBye once the state matches: transaction and event, then sinks and maps. */
    method EndCall(call: Call, t: Transaction, p: Packet, now: int, ghost o: Outcome)
      requires call.Stores(t) && t.call == call && maps.Knows(call) && maps.ValidSinks()
      requires IsFinal(call, t, p, now, o, true)
      modifies maps`eventMap, maps`rtpSinkMap, maps`media, maps`callMap, maps`decodeQueue
      modifies call`transactionMap, t`state, t`finalResponseCode, t`finalResponseReason
      ensures call.Valid() && maps.ValidSinks() && call.Record() == o.call
      ensures maps.eventMap == Pushed(old(maps.eventMap), o.call, o.events)
      ensures call.ref < |old(maps.media).calls| && maps.media == MediaAfter(old(maps.media), call.ref, p, o, now)
      ensures maps.callMap == old(maps.callMap) - {p.callId} && maps.decodeQueue == old(maps.decodeQueue) + [call]
    {
      FinishAside(call, t, p, now, o, true);
      PrepareCallToDecode(call, p.callId);
    }

    /** The outcome of that. */
    method EndCallDone(call: Call, t: Transaction, p: Packet, now: int, ghost o: Outcome)
      requires call.Stores(t) && t.call == call && maps.Knows(call) && maps.ValidSinks()
      requires IsFinal(call, t, p, now, o, true)
      modifies maps`eventMap, maps`rtpSinkMap, maps`media, maps`callMap, maps`decodeQueue
      modifies call`transactionMap, t`state, t`finalResponseCode, t`finalResponseReason
      ensures Done(call, p, now, o)
    {
      EndCall(call, t, p, now, o);
    }

    method HandleResponseOnBye(call: Call, t: Transaction, p: Packet, now: int, ghost o: Outcome)
      requires call.Stores(t) && t.call == call && maps.Knows(call) && maps.ValidSinks()
      requires o == OnPlainResponse(call.Record(), call.ref, t.id, p, now, true)
      modifies maps`eventMap, maps`rtpSinkMap, maps`media, maps`callMap, maps`decodeQueue
      modifies call`transactionMap, t`state, t`finalResponseCode, t`finalResponseReason
      ensures Done(call, p, now, o)
    {
      PlainResponseOutcome(call.Record(), call.ref, t.id, p, now, true);
      if t.state != TRYING_TRYING && t.state != PROCEEDING_PROCEEDING {
        NothingHappens(call, p, now, o);
        return;
      }
      EndCallDone(call, t, p, now, o);
    }

    /** handleResponseOnOptions and handleResponseOnCancel. */
    method HandleResponseOnOptions(call: Call, t: Transaction, p: Packet, now: int, ghost o: Outcome)
      requires call.Stores(t) && t.call == call && maps.Knows(call) && maps.ValidSinks()
      requires o == OnPlainResponse(call.Record(), call.ref, t.id, p, now, false)
      modifies maps`eventMap, call`transactionMap, t`state, t`finalResponseCode, t`finalResponseReason
      ensures Done(call, p, now, o)
    {
      PlainResponseOutcome(call.Record(), call.ref, t.id, p, now, false);
      if t.state != TRYING_TRYING && t.state != PROCEEDING_PROCEEDING {
        NothingHappens(call, p, now, o);
        return;
      }
      FinishRequestDone(call, t, p, now, o);
    }

    /** handleResponseOnOptions and handleResponseOnCancel once the state matches. */
    method FinishRequestDone(call: Call, t: Transaction, p: Packet, now: int, ghost o: Outcome)
      requires call.Stores(t) && t.call == call && maps.Knows(call) && maps.ValidSinks()
      requires IsFinal(call, t, p, now, o, false)
      modifies maps`eventMap, call`transactionMap, t`state, t`finalResponseCode, t`finalResponseReason
      ensures Done(call, p, now, o)
    {
      assert maps.ValidLocal(call, maps.media.calls[call.ref]);
      FinishRequest(call, t, p, now, o, false);
    }

    // ---- dispatch ----

    /** The branches of handleSuccess and handleNonSuccess for other requests than INVITE. */
    method HandleFinalOnNonInvite(call: Call, t: Transaction, p: Packet, now: int, ghost o: Outcome)
      requires call.Stores(t) && t.call == call && maps.Knows(call) && maps.ValidSinks()
      requires t.id.cseqMethod != Invite && p.kind == Response && !p.IsProvisional()
      requires o == OnResponse(call.Record(), call.ref, t.id, p, now)
      modifies maps`eventMap, maps`rtpSinkMap, maps`media, maps`callMap, maps`decodeQueue
      modifies call`transactionMap, t`state, t`finalResponseCode, t`finalResponseReason
      ensures Done(call, p, now, o)
    {
      if t.id.cseqMethod == Bye {
        HandleResponseOnBye(call, t, p, now, o);
      } else if t.id.cseqMethod == Options || t.id.cseqMethod == Cancel {
        HandleResponseOnOptions(call, t, p, now, o);
      } else {
        NothingHappens(call, p, now, o);
      }
    }

    /** Nothing to do. */
    method NothingHappens(call: Call, p: Packet, now: int, ghost o: Outcome)
      requires call.Valid() && maps.Knows(call) && maps.ValidSinks() && o == Nothing(call.Record())
      ensures Done(call, p, now, o)
    {
      assert maps.ValidLocal(call, maps.media.calls[call.ref]);
    }

    method HandleSuccess(call: Call, t: Transaction, p: Packet, now: int, ghost o: Outcome)
      requires call.Stores(t) && t.call == call && maps.Knows(call) && maps.ValidSinks()
      requires p.IsSuccess() && o == OnResponse(call.Record(), call.ref, t.id, p, now)
      modifies maps`eventMap, maps`rtpSinkMap, maps`media, maps`sinkObjs, maps`callMap, maps`decodeQueue
      modifies maps.sinkObjs`status
      modifies call`dialog, call`reinviteFlag, call`localRtpSinkMap, call`transactionMap
      modifies t`state, t`finalResponseCode, t`finalResponseReason
      ensures Done(call, p, now, o)
    {
      if t.id.cseqMethod == Invite {
        HandleSuccessOnInvite(call, t, p, now, o);
      } else {
        HandleFinalOnNonInvite(call, t, p, now, o);
      }
    }

    method HandleNonSuccess(call: Call, t: Transaction, p: Packet, now: int, ghost o: Outcome)
      requires call.Stores(t) && t.call == call && maps.Knows(call) && maps.ValidSinks()
      requires p.IsNonSuccess() && o == OnResponse(call.Record(), call.ref, t.id, p, now)
      modifies maps`eventMap, maps`rtpSinkMap, maps`media, maps`sinkObjs, maps`callMap, maps`decodeQueue
      modifies maps.sinkObjs`status
      modifies call`dialog, call`reinviteFlag, call`localRtpSinkMap, call`transactionMap
      modifies t`state, t`finalResponseCode, t`finalResponseReason
      ensures Done(call, p, now, o)
    {
      if t.id.cseqMethod == Invite {
        HandleNonSuccessOnInvite(call, t, p, now, o);
      } else {
        HandleFinalOnNonInvite(call, t, p, now, o);
      }
    }

    /** The outcome of handleProvisionalOnInvite. */
    method HandleProvisionalDone(call: Call, t: Transaction, p: Packet, now: int, ghost o: Outcome)
      requires call.Stores(t) && t.call == call && maps.Knows(call) && maps.ValidSinks()
      requires o == OnProvisionalOnInvite(call.Record(), t.id, p) && o.offer == NoOffer && o.settle == Keep
      requires o.exit == Stay
      requires o.events == [] && o.newTids == 0
      modifies call`dialog, t`state
      ensures Done(call, p, now, o)
    {
      assert maps.ValidLocal(call, maps.media.calls[call.ref]);
      HandleProvisionalOnInvite(call, t, p, o);
    }

    method HandleProvisional(call: Call, t: Transaction, p: Packet, now: int, ghost o: Outcome)
      requires call.Stores(t) && t.call == call && maps.Knows(call) && maps.ValidSinks()
      requires p.IsProvisional() && o == OnResponse(call.Record(), call.ref, t.id, p, now)
      modifies call`dialog, t`state
      ensures Done(call, p, now, o)
    {
      if t.id.cseqMethod == Invite {
        ProvisionalParts(call.Record(), t.id, p);
        HandleProvisionalDone(call, t, p, now, o);
      } else {
        NothingHappens(call, p, now, o);
      }
    }

    method HandleResponse(call: Call, t: Transaction, p: Packet, now: int, ghost o: Outcome)
      requires call.Stores(t) && t.call == call && maps.Knows(call) && maps.ValidSinks()
      requires p.kind == Response && o == OnResponse(call.Record(), call.ref, t.id, p, now)
      modifies maps`eventMap, maps`rtpSinkMap, maps`media, maps`sinkObjs, maps`callMap, maps`decodeQueue
      modifies maps.sinkObjs`status
      modifies call`dialog, call`reinviteFlag, call`localRtpSinkMap, call`transactionMap
      modifies t`state, t`finalResponseCode, t`finalResponseReason
      ensures Done(call, p, now, o)
    {
      if 100 <= p.responseCode <= 199 {
        HandleProvisional(call, t, p, now, o);
      } else if 200 <= p.responseCode <= 299 {
        HandleSuccess(call, t, p, now, o);
      } else {
        HandleNonSuccess(call, t, p, now, o);
      }
    }

    /** The branches of handleInitialRequest for CANCEL, BYE and OPTIONS, and the default. */
    method HandleOtherBranch(call: Call, t: Transaction, p: Packet, now: int, ghost o: Outcome)
      requires t.call == call && IsNew(t, p) && p.requestMethod != Invite && p.requestMethod != Ack
      requires o == OnInitialRequest(call.Record(), call.ref, p, maps.nextTid, now)
      modifies maps`eventMap, maps`nextTid, call`transactionMap, t`state, call.transactionMap.Values`cancelFlag
      ensures call.Valid() && call.Record() == o.call
      ensures maps.eventMap == Pushed(old(maps.eventMap), o.call, o.events)
      ensures maps.nextTid == old(maps.nextTid) + o.newTids
    {
      if p.requestMethod == Cancel {
        HandleCancel(call, t, p, now, o);
      } else if p.requestMethod == Bye || p.requestMethod == Options {
        HandlePlainRequest(call, t, p, now, o);
      }
    }

    /** They leave sinks and call map alone. */
    method HandleOtherRequest(call: Call, t: Transaction, p: Packet, now: int, ghost o: Outcome)
      requires t.call == call && IsNew(t, p) && maps.Knows(call) && maps.ValidSinks() && p.requestMethod != Invite
      requires p.requestMethod != Ack
      requires o == OnInitialRequest(call.Record(), call.ref, p, maps.nextTid, now)
      modifies maps`eventMap, maps`nextTid, call`transactionMap, t`state, call.transactionMap.Values`cancelFlag
      ensures Done(call, p, now, o)
    {
      assert maps.ValidLocal(call, maps.media.calls[call.ref]);
      OtherRequestParts(call.Record(), call.ref, p, maps.nextTid, now);
      assert o.offer == NoOffer && o.settle == Keep && o.exit == Stay;
      HandleOtherBranch(call, t, p, now, o);
    }

    /** handleInitialRequest, after the transaction is made. */
    method HandleNewTransaction(call: Call, t: Transaction, p: Packet, now: int, ghost o: Outcome)
      requires t.call == call && IsNew(t, p) && maps.Knows(call) && maps.ValidSinks()
      requires o == OnInitialRequest(call.Record(), call.ref, p, maps.nextTid, now)
      modifies maps`eventMap, maps`nextTid, maps`rtpSinkMap, maps`media, maps`sinkObjs, maps.sinkObjs`status, t`state
      modifies call`dialog, call`reinviteFlag, call`localRtpSinkMap, call`transactionMap
      modifies call.transactionMap.Values`ackFlag, call.transactionMap.Values`cancelFlag
      ensures Done(call, p, now, o)
    {
      if p.requestMethod == Invite {
        HandleInvite(call, t, p, now, o);
      } else if p.requestMethod == Ack {
        HandleAckOnSuccess(call, t, p, now, o);
      } else {
        HandleOtherRequest(call, t, p, now, o);
      }
    }

    method HandleInitialRequest(call: Call, p: Packet, now: int, ghost o: Outcome)
      requires call.Valid() && maps.Knows(call) && maps.ValidSinks()
      requires o == OnInitialRequest(call.Record(), call.ref, p, maps.nextTid, now)
      modifies maps`eventMap, maps`nextTid, maps`rtpSinkMap, maps`media, maps`sinkObjs, maps.sinkObjs`status
      modifies call`dialog, call`reinviteFlag, call`localRtpSinkMap, call`transactionMap
      modifies call.transactionMap.Values`ackFlag, call.transactionMap.Values`cancelFlag
      ensures Done(call, p, now, o) && o.exit == Stay
    {
      var t := new Transaction(call, p, maps.nextTid);
      assert call.Record() == old(call.Record()) && maps.ValidSinks();
      InitialRequestStays(call.Record(), call.ref, p, maps.nextTid, now);
      HandleNewTransaction(call, t, p, now, o);
    }

    method HandleRequestWithinTransaction(call: Call, t: Transaction, p: Packet, now: int, ghost o: Outcome)
      requires call.Stores(t) && t.call == call && maps.Knows(call) && maps.ValidSinks()
      requires o == if p.IsRequest(Ack) then OnAckOnNonSuccess(call.Record(), call.ref, t.id, now)
        else Nothing(call.Record())
      requires p.kind == Request
      modifies maps`eventMap, maps`rtpSinkMap, maps`media, maps`callMap, maps.sinkObjs`status
      modifies call`dialog, call`transactionMap, t`state, t`ackFlag
      ensures Done(call, p, now, o) && o.exit != HandOff
    {
      if p.requestMethod == Ack {
        HandleAckOnNonSuccess(call, t, p, now, o);
      } else {
        NothingHappens(call, p, now, o);
      }
    }

    /** The transaction handling of the worker. */
    method HandlePacket(call: Call, p: Packet, now: int, ghost o: Outcome)
      requires call.Valid() && maps.Knows(call) && maps.ValidSinks()
      requires o == OnPacket(call.Record(), call.ref, p, maps.nextTid, now)
      modifies maps`eventMap, maps`nextTid, maps`rtpSinkMap, maps`media, maps`sinkObjs, maps`callMap, maps`decodeQueue
      modifies maps.sinkObjs`status
      modifies call`dialog, call`reinviteFlag, call`localRtpSinkMap, call`transactionMap, call.transactionMap.Values
      ensures Done(call, p, now, o)
    {
      var t := MatchTransaction(call, p);
      HandleMatched(call, t, p, now, o);
    }

    /** The transaction the packet belongs to, if it is stored. */
    method MatchTransaction(call: Call, p: Packet) returns (t: Transaction?)
      requires call.Valid()
      ensures match Signalling.MatchTransaction(call.Record(), p)
              case None => t == null
              case Some(k) => t != null && call.Stores(t) && t.call == call && t.id == k
    {
      t := call.FindTransaction(TransactionId(p.branch, p.cseqMethod));
      if t == null && p.cseqMethod == Ack {
        t := call.FindTransaction(TransactionId(p.branch, Invite));
      }
    }

    method HandleMatched(call: Call, t: Transaction?, p: Packet, now: int, ghost o: Outcome)
      requires call.Valid() && maps.Knows(call) && maps.ValidSinks()
      requires t != null ==> call.Stores(t) && t.call == call
      requires t != null && p.kind == Response ==> o == OnResponse(call.Record(), call.ref, t.id, p, now)
      requires t != null && p.kind == Request ==>
        o == if p.IsRequest(Ack) then OnAckOnNonSuccess(call.Record(), call.ref, t.id, now) else Nothing(call.Record())
      requires t == null && p.kind == Request ==> o == OnInitialRequest(call.Record(), call.ref, p, maps.nextTid, now)
      requires p.kind == Malformed || (p.kind == Response && t == null) ==> o == Nothing(call.Record())
      modifies maps`eventMap, maps`nextTid, maps`rtpSinkMap, maps`media, maps`sinkObjs, maps`callMap, maps`decodeQueue
      modifies maps.sinkObjs`status
      modifies call`dialog, call`reinviteFlag, call`localRtpSinkMap, call`transactionMap, call.transactionMap.Values
      ensures Done(call, p, now, o)
    {
      if t != null && p.kind != Malformed {
        HandleWithin(call, t, p, now, o);
      } else if p.kind == Request {
        HandleInitialRequest(call, p, now, o);
      } else {
        NothingHappens(call, p, now, o);
      }
    }

    /** The part of the worker for a packet that belongs to a stored transaction. */
    method HandleWithin(call: Call, t: Transaction, p: Packet, now: int, ghost o: Outcome)
      requires call.Stores(t) && t.call == call && maps.Knows(call) && maps.ValidSinks() && p.kind != Malformed
      requires p.kind == Response ==> o == OnResponse(call.Record(), call.ref, t.id, p, now)
      requires p.kind == Request ==>
        o == if p.IsRequest(Ack) then OnAckOnNonSuccess(call.Record(), call.ref, t.id, now) else Nothing(call.Record())
      modifies maps`eventMap, maps`rtpSinkMap, maps`media, maps`sinkObjs, maps`callMap, maps`decodeQueue
      modifies maps.sinkObjs`status
      modifies call`dialog, call`reinviteFlag, call`localRtpSinkMap, call`transactionMap, t
      ensures Done(call, p, now, o)
    {
      NoNewTids(call.Record(), call.ref, t.id, p, now);
      if p.kind == Request {
        HandleRequestWithinTransaction(call, t, p, now, o);
      } else {
        HandleResponse(call, t, p, now, o);
      }
    }

    // ---- the worker ----

    /** The call handling of the worker: the call of the packet, created if need be. */
    method FindOrCreateCall(p: Packet, now: int, noRtp: bool) returns (call: Call?)
      requires maps.Valid() && p.parses
      modifies maps`callMap, maps`nextRef, maps`callObjs, maps`calls, maps`media, maps`ids
      ensures maps.Valid() && maps.World() == Admit(old(maps.World()), p, now, noRtp)
      ensures call != null <==> Admits(old(maps.World()), p)
      ensures call != null ==> maps.Knows(call) && call.ref == Target(old(maps.World()), p)
      ensures maps.callObjs == old(maps.callObjs)
        || (call != null && fresh(call) && maps.callObjs == old(maps.callObjs) + [call])
    {
      call := null;
      if p.callId in maps.callMap {
        call := maps.callMap[p.callId];
      } else if p.kind == Request && (p.requestMethod == Invite || p.requestMethod == Options) {
        call := CreateCall(p, now, noRtp);
      }
    }

    /** A new call, numbered and put into the call map. */
    method CreateCall(p: Packet, now: int, noRtp: bool) returns (call: Call)
      requires maps.Valid() && p.callId !in maps.callMap
      modifies maps`callMap, maps`nextRef, maps`callObjs, maps`calls, maps`media, maps`ids
      ensures maps.Valid() && fresh(call) && call.ref == |old(maps.callObjs)|
      ensures maps.callObjs == old(maps.callObjs) + [call]
      ensures maps.calls == old(maps.calls) + [NewCallData(p, now)] && maps.ids == old(maps.ids)[p.callId := call.ref]
      ensures maps.media == Media.NewCall(old(maps.media), !noRtp)
    {
      call := MakeCall(p, now, noRtp);
      maps.AddCall(call, p, now);
    }

    /** A new call, which records unless it is told not to. */
    method MakeCall(p: Packet, now: int, noRtp: bool) returns (call: Call)
      ensures fresh(call) && call.ref == maps.nextRef && call.Valid() && call.Shows(NewCallData(p, now))
      ensures call.localRtpSinkMap == map[] && call.rtpSinksAreActivated == !noRtp
    {
      call := new Call(p, now, maps.nextRef);
      if noRtp {
        call.rtpSinksAreActivated := false;
      }
      call.ShowsRecord(NewCallData(p, now));
    }

    /** The other calls and their transactions are other objects. */
    ghost predicate IsApart(call: Call)
      reads maps`callObjs, maps.callObjs`transactionMap, call`transactionMap
    {
      forall i | 0 <= i < |maps.callObjs| && i != call.ref ::
        maps.callObjs[i] != call && maps.callObjs[i].transactionMap.Values !! call.transactionMap.Values
    }

    lemma OthersAreApart(call: Call)
      requires maps.ValidCalls() && maps.Knows(call)
      ensures IsApart(call)
    {
      assert maps.callObjs[call.ref].Valid();
      forall i | 0 <= i < |maps.callObjs| && i != call.ref
        ensures maps.callObjs[i] != call && maps.callObjs[i].transactionMap.Values !! call.transactionMap.Values
      {
        assert maps.callObjs[i].Valid() && maps.callObjs[i].ref == i;
        forall t | t in maps.callObjs[i].transactionMap.Values ensures t !in call.transactionMap.Values {
          assert t.call == maps.callObjs[i];
        }
      }
    }

    /** The handlers leave the other calls alone. */
    method HandleAlone(call: Call, p: Packet, now: int, ghost o: Outcome, ghost d: seq<CallData>)
      requires maps.ValidSinks() && maps.Knows(call) && call.Valid() && maps.OthersValid(call.ref, d) && IsApart(call)
      requires o == OnPacket(call.Record(), call.ref, p, maps.nextTid, now)
      modifies maps`eventMap, maps`nextTid, maps`rtpSinkMap, maps`media, maps`sinkObjs, maps`callMap, maps`decodeQueue
      modifies maps.sinkObjs`status
      modifies call`dialog, call`reinviteFlag, call`localRtpSinkMap, call`transactionMap, call.transactionMap.Values
      ensures Done(call, p, now, o) && maps.OthersValid(call.ref, d)
    {
      HandlePacket(call, p, now, o);
      forall i | 0 <= i < |d| && i != call.ref
        ensures maps.callObjs[i].ref == i && maps.callObjs[i].Valid() && maps.callObjs[i].Shows(d[i])
      {
        assert old(maps.callObjs[i].Valid() && maps.callObjs[i].Shows(d[i]));
      }
    }

    /** The handlers, with the record of the call after them. */
    method HandleAndRecord(call: Call, p: Packet, now: int, ghost o: Outcome)
      requires maps.ValidCalls() && maps.ValidSinks() && maps.Knows(call)
      requires o == OnPacket(maps.calls[call.ref], call.ref, p, maps.nextTid, now)
      modifies maps`eventMap, maps`nextTid, maps`rtpSinkMap, maps`media, maps`sinkObjs, maps`callMap, maps`decodeQueue
      modifies maps`calls
      modifies maps.sinkObjs`status
      modifies call`dialog, call`reinviteFlag, call`localRtpSinkMap, call`transactionMap, call.transactionMap.Values
      ensures maps.ValidCalls() && maps.ValidSinks() && SinksGrew()
      ensures call.ref < |old(maps.calls)| && maps.calls == old(maps.calls)[call.ref := o.call]
      ensures maps.eventMap == Pushed(old(maps.eventMap), o.call, o.events)
      ensures maps.nextTid == old(maps.nextTid) + o.newTids
      ensures call.ref < |old(maps.media).calls| && maps.media == MediaAfter(old(maps.media), call.ref, p, o, now)
      ensures maps.callMap == if o.exit == Stay then old(maps.callMap) else old(maps.callMap) - {p.callId}
      ensures maps.decodeQueue == if o.exit == HandOff then old(maps.decodeQueue) + [call] else old(maps.decodeQueue)
    {
      OthersAreApart(call);
      call.ShowsRecord(maps.calls[call.ref]);
      HandleAlone(call, p, now, o, maps.calls);
      call.ShowsRecord(o.call);
      maps.SetRecord(call.ref, o.call);
    }

    /** The rest of the pass of the worker. */
    method DispatchPacket(call: Call, p: Packet, now: int)
      requires maps.Valid() && maps.Knows(call)
      modifies maps, maps.sinkObjs`status, call, call.transactionMap.Values
      ensures maps.Valid() && SinksGrew() && maps.callObjs == old(maps.callObjs)
      ensures call.ref < |old(maps.calls)| == |old(maps.media).calls|
      ensures maps.World() == Dispatch(old(maps.World()), call.ref, p, now)
    {
      ghost var w, c, o := maps.World(), call.ref, OnPacket(maps.calls[call.ref], call.ref, p, maps.nextTid, now);
      ghost var m, q := maps.callMap, maps.decodeQueue;
      HandleAndRecord(call, p, now, o);
      maps.SetExit(call, p, o, m, q);
      AppliedIsApply(w, maps.World(), c, p, o, now);
    }

    /** One pass of the worker loop. */
    method Step(p: Packet, now: int, noRtp: bool)
      requires maps.Valid() && Wf(maps.World())
      modifies maps, maps.sinkObjs`status, maps.callObjs, maps.Stored()
      ensures maps.Valid() && maps.World() == SipMachine.Step(old(maps.World()), p, now, noRtp)
      ensures SinksGrew()
    {
      if !p.parses {
        return;
      }
      var call := FindOrCreateCall(p, now, noRtp);
      if call != null {
        DispatchPacket(call, p, now);
      }
    }
  }
}
