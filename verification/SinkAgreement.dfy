/**
 When no two calls hold the same socket, the global sink map agrees with the local maps,
 a packet touches the sinks of its own call only, and sinks are unsettled only while an
 INVITE transaction is stored.
 */
module SinkAgreement {
  import opened SipTypes
  import opened Signalling
  import opened SipMachine
  import opened CallInvariant
  import opened CallPhases
  import opened Reachable
  import opened SinkSafety
  import Media

  /** Calls that are not destroyed hold different sockets. */
  ghost predicate NoSharing(m: Media.MediaState, gone: set<nat>) {
    forall c, d, s | 0 <= c < |m.calls| && 0 <= d < |m.calls| && c !in gone && d !in gone
                     && s in m.calls[c].local && s in m.calls[d].local :: c == d
  }

  /** No other call that is not destroyed holds the socket. */
  ghost predicate FreeFor(m: Media.MediaState, c: nat, s: SocketAddress, gone: set<nat>) {
    forall d | 0 <= d < |m.calls| && d != c && d !in gone :: s !in m.calls[d].local
  }

  /** The packet offers no socket that another call holds. */
  ghost predicate OffersOwn(w: World, p: Packet, gone: set<nat>) {
    p.sdp.Some? ==> FreeFor(w.media, Target(w, p), p.sdp.value, gone)
  }

  /** From m to r only call c, its sinks, and the global entries of its sockets may change. */
  ghost predicate TouchesOnly(m: Media.MediaState, r: Media.MediaState, c: nat) {
    && |r.calls| == |m.calls| && c < |m.calls| && |m.sinks| <= |r.sinks|
    && (forall d | 0 <= d < |m.calls| && d != c :: r.calls[d] == m.calls[d])
    && (forall s <- m.calls[c].local :: s in r.calls[c].local && r.calls[c].local[s] == m.calls[c].local[s])
    && (forall k | 0 <= k < |m.sinks| :: r.sinks[k] == m.sinks[k].(status := r.sinks[k].status))
    && (forall k | 0 <= k < |m.sinks| && m.sinks[k].owner != c :: r.sinks[k] == m.sinks[k])
    && (forall s | s !in r.calls[c].local && s in m.global :: s in r.global && r.global[s] == m.global[s])
    && (forall s | s !in r.calls[c].local && s in r.global :: s in m.global)
  }

  lemma OfferTouchesOnly(m: Media.MediaState, c: nat, p: Packet, o: Outcome, now: int)
    requires Media.Wf(m) && c < |m.calls|
    requires p.sdp.Some? && p.sdp.value in m.global ==> m.sinks[m.global[p.sdp.value]].owner == c
    ensures TouchesOnly(m, OfferMedia(m, c, p, o, now), c)
  {
  }

  lemma SettleTouchesOnly(m: Media.MediaState, c: nat, o: Outcome)
    requires Media.Wf(m) && c < |m.calls|
    ensures TouchesOnly(m, SettleMedia(m, c, o), c)
  {
  }

  lemma MediaAfterTouchesOnly(m: Media.MediaState, c: nat, p: Packet, o: Outcome, now: int)
    requires Media.Wf(m) && c < |m.calls|
    requires p.sdp.Some? && p.sdp.value in m.global ==> m.sinks[m.global[p.sdp.value]].owner == c
    ensures TouchesOnly(m, MediaAfter(m, c, p, o, now), c)
  {
    var m1 := OfferMedia(m, c, p, o, now);
    OfferTouchesOnly(m, c, p, o, now);
    assert Media.Wf(m1) by {
      if o.offer.Offer? && p.sdp.Some? {
        Media.OfferWf(m, c, p.sdp.value, o.offer.reinvite, IsCallerSink(o.call, p), now);
      }
    }
    SettleTouchesOnly(m1, c, o);
  }

  /** Destroyed calls are not in the map. */
  ghost predicate GoneFromMap(w: World, gone: set<nat>) {
    forall c <- gone :: !InMap(w, c)
  }

  /** Each sink in the global map belongs to a call that is not destroyed and holds the socket. */
  ghost predicate EntriesOwned(m: Media.MediaState, gone: set<nat>) {
    forall s <- m.global :: EntryOwned(m, s, gone)
  }

  ghost predicate EntryOwned(m: Media.MediaState, s: SocketAddress, gone: set<nat>)
    requires s in m.global
  {
    && m.global[s] < |m.sinks|
    && var o := m.sinks[m.global[s]].owner;
    o < |m.calls| && o !in gone && s in m.calls[o].local
  }

  lemma OfferedSinkIsOwn(m: Media.MediaState, c: nat, s: SocketAddress, gone: set<nat>)
    requires EntriesOwned(m, gone) && FreeFor(m, c, s, gone)
    ensures s in m.global ==>
      m.global[s] < |m.sinks| && m.sinks[m.global[s]].owner == c < |m.calls| && s in m.calls[c].local
  {
    if s in m.global {
      assert EntryOwned(m, s, gone);
    }
  }

  lemma OfferKeepsOwned(m: Media.MediaState, c: nat, p: Packet, o: Outcome, now: int, gone: set<nat>)
    requires EntriesOwned(m, gone) && c < |m.calls| && c !in gone
    ensures EntriesOwned(OfferMedia(m, c, p, o, now), gone)
  {
    var r := OfferMedia(m, c, p, o, now);
    forall s <- r.global ensures EntryOwned(r, s, gone) {
      if s in m.global { assert EntryOwned(m, s, gone); }
    }
  }

  /** Entries may be gone; the rest stays owned. */
  lemma DropsKeepOwned(m: Media.MediaState, r: Media.MediaState, gone: set<nat>)
    requires EntriesOwned(m, gone) && OnlyDrops(m, r)
    requires forall c | 0 <= c < |m.calls| :: r.calls[c].local == m.calls[c].local
    ensures EntriesOwned(r, gone)
  {
    forall s <- r.global ensures EntryOwned(r, s, gone) {
      assert EntryOwned(m, s, gone);
    }
  }

  lemma ApplyKeepsOwned(m: Media.MediaState, c: nat, p: Packet, o: Outcome, now: int, gone: set<nat>)
    requires EntriesOwned(m, gone) && c < |m.calls| && c !in gone
    ensures EntriesOwned(MediaAfter(m, c, p, o, now), gone)
  {
    var m1 := OfferMedia(m, c, p, o, now);
    OfferKeepsOwned(m, c, p, o, now, gone);
    SettleAddsNone(m1, c, o);
    DropsKeepOwned(m1, SettleMedia(m1, c, o), gone);
    DropsKeepOwned(SettleMedia(m1, c, o), MediaAfter(m, c, p, o, now), gone);
  }

  // ---- index agreement ----

  /** Every sink the call holds with a status other than TERMINATED is the very sink the
      global map holds for the socket. */
  ghost predicate Agrees(m: Media.MediaState, c: nat)
    requires c < |m.calls|
  {
    forall s <- m.calls[c].local :: Media.StatusOf(m, m.calls[c].local[s]) != RsTerminated ==>
      s in m.global && m.global[s] == m.calls[c].local[s]
  }

  lemma OfferKeepsAgreement(m: Media.MediaState, c: nat, p: Packet, o: Outcome, now: int)
    requires Media.Wf(m) && c < |m.calls| && Agrees(m, c)
    requires p.sdp.Some? && p.sdp.value in m.global ==> p.sdp.value in m.calls[c].local
    ensures Agrees(OfferMedia(m, c, p, o, now), c)
  {
  }

  lemma SettleKeepsAgreement(m: Media.MediaState, c: nat, o: Outcome)
    requires Media.Wf(m) && c < |m.calls| && Agrees(m, c)
    ensures Agrees(SettleMedia(m, c, o), c)
  {
  }

  lemma OthersKeepAgreement(m: Media.MediaState, r: Media.MediaState, c: nat, d: nat)
    requires Media.Wf(m) && TouchesOnly(m, r, c) && d < |m.calls| && d != c && Agrees(m, d)
    requires forall s <- m.calls[d].local :: s !in r.calls[c].local
    ensures Agrees(r, d)
  {
    forall s <- r.calls[d].local | Media.StatusOf(r, r.calls[d].local[s]) != RsTerminated
      ensures s in r.global && r.global[s] == r.calls[d].local[s]
    {
      assert Media.WfLocal(m, d, s, m.calls[d].local[s]);
    }
  }

  lemma ApplyKeepsSharing(m: Media.MediaState, c: nat, p: Packet, o: Outcome, now: int, gone: set<nat>)
    requires NoSharing(m, gone) && c < |m.calls|
    requires p.sdp.Some? ==> FreeFor(m, c, p.sdp.value, gone)
    ensures NoSharing(MediaAfter(m, c, p, o, now), gone)
  {
  }

  /** All calls of the map agree, except for those in `out`. */
  ghost predicate AllAgree(w: World, out: set<nat>) {
    forall c | 0 <= c < |w.calls| && c < |w.media.calls| && InMap(w, c) && c !in out :: Agrees(w.media, c)
  }

  lemma ApplyKeepsAgreement(w: World, c: nat, p: Packet, o: Outcome, now: int, gone: set<nat>, out: set<nat>)
    requires |w.media.calls| == |w.calls| && Media.Wf(w.media) && InMap(w, c) && c !in gone
    requires w.calls[c].callId == p.callId == o.call.callId
    requires NoSharing(w.media, gone) && AllAgree(w, out) && GoneFromMap(w, gone)
    requires p.sdp.Some? ==> FreeFor(w.media, c, p.sdp.value, gone)
    requires p.sdp.Some? && p.sdp.value in w.media.global ==>
      w.media.sinks[w.media.global[p.sdp.value]].owner == c && p.sdp.value in w.media.calls[c].local
    ensures AllAgree(Apply(w, c, p, o, now), out)
  {
    var r := Apply(w, c, p, o, now);
    MediaAfterTouchesOnly(w.media, c, p, o, now);
    ApplyKeepsSharing(w.media, c, p, o, now, gone);
    forall d | 0 <= d < |r.calls| && InMap(r, d) && d !in out ensures Agrees(r.media, d) {
      assert InMap(w, d);
      if d != c {
        OthersKeepAgreement(w.media, r.media, c, d);
      } else {
        assert o.exit == Stay;
        OwnAgreement(w.media, c, p, o, now);
      }
    }
  }

  lemma OwnAgreement(m: Media.MediaState, c: nat, p: Packet, o: Outcome, now: int)
    requires Media.Wf(m) && c < |m.calls| && Agrees(m, c) && o.exit == Stay
    requires p.sdp.Some? && p.sdp.value in m.global ==> p.sdp.value in m.calls[c].local
    ensures Agrees(MediaAfter(m, c, p, o, now), c)
  {
    OfferKeepsAgreement(m, c, p, o, now);
    if o.offer.Offer? && p.sdp.Some? {
      Media.OfferWf(m, c, p.sdp.value, o.offer.reinvite, IsCallerSink(o.call, p), now);
    }
    SettleKeepsAgreement(OfferMedia(m, c, p, o, now), c, o);
  }

  /** What a SIP packet keeps of the sinks when sockets are not shared. */
  ghost predicate Apart(w: World, gone: set<nat>, out: set<nat>) {
    && |w.media.calls| == |w.calls|
    && GoneFromMap(w, gone) && (forall c <- gone :: c < |w.calls|)
    && NoSharing(w.media, gone) && EntriesOwned(w.media, gone) && AllAgree(w, out)
  }

  ghost predicate Unshared(w: World, gone: set<nat>) {
    CallsInv(w) && Apart(w, gone, {})
  }

  lemma AdmitKeepsApart(w: World, p: Packet, now: int, noRtp: bool, gone: set<nat>, out: set<nat>)
    requires CallsInv(w) && Apart(w, gone, out) && Admits(w, p) && OffersOwn(w, p, gone)
    ensures var v, c := Admit(w, p, now, noRtp), Target(w, p);
      && CallsInv(v) && Apart(v, gone, out) && InMap(v, c) && c !in gone && v.calls[c].callId == p.callId
      && (p.sdp.Some? ==> FreeFor(v.media, c, p.sdp.value, gone))
  {
    AdmitKeepsCalls(w, p, now, noRtp);
    if CreatesCall(w, p) {
      CreateKeepsAgreement(w, p, now, noRtp, gone, out);
    }
  }

  lemma CreateKeepsAgreement(w: World, p: Packet, now: int, noRtp: bool, gone: set<nat>, out: set<nat>)
    requires CreatesCall(w, p) && OffersOwn(w, p, gone) && Apart(w, gone, out)
    ensures var v := Create(w, p, now, noRtp);
      Apart(v, gone, out) && (p.sdp.Some? ==> FreeFor(v.media, |w.calls|, p.sdp.value, gone))
  {
    var v := Create(w, p, now, noRtp);
    forall d | 0 <= d < |v.calls| && InMap(v, d) && d !in out ensures Agrees(v.media, d) {
      if d < |w.calls| {
        assert InMap(w, d) && v.media.calls[d] == w.media.calls[d];
        assert Agrees(w.media, d);
      }
    }
    forall s <- v.media.global ensures EntryOwned(v.media, s, gone) {
      assert EntryOwned(w.media, s, gone);
    }
  }

  lemma ApplyKeepsApart(w: World, c: nat, p: Packet, o: Outcome, now: int, gone: set<nat>, out: set<nat>)
    requires Apart(w, gone, out) && Media.Wf(w.media) && InMap(w, c) && c !in gone
    requires w.calls[c].callId == p.callId == o.call.callId
    requires p.sdp.Some? ==> FreeFor(w.media, c, p.sdp.value, gone)
    ensures Apart(Apply(w, c, p, o, now), gone, out)
  {
    if p.sdp.Some? {
      OfferedSinkIsOwn(w.media, c, p.sdp.value, gone);
    }
    ApplyKeepsAgreement(w, c, p, o, now, gone, out);
    ApplyKeepsSharing(w.media, c, p, o, now, gone);
    ApplyKeepsOwned(w.media, c, p, o, now, gone);
  }

  lemma DispatchKeepsApart(w: World, c: nat, p: Packet, now: int, gone: set<nat>, out: set<nat>)
    requires Apart(w, gone, out) && Media.Wf(w.media) && InMap(w, c) && c !in gone && w.calls[c].callId == p.callId
    requires p.sdp.Some? ==> FreeFor(w.media, c, p.sdp.value, gone)
    ensures Apart(Dispatch(w, c, p, now), gone, out)
  {
    var o := OnPacket(w.calls[c], c, p, w.nextTid, now);
    assert Follows(w.calls[c], o);
    ApplyKeepsApart(w, c, p, o, now, gone, out);
  }

  lemma StepKeepsApart(w: World, p: Packet, now: int, noRtp: bool, gone: set<nat>, out: set<nat>)
    requires CallsInv(w) && Apart(w, gone, out) && OffersOwn(w, p, gone)
    ensures Apart(Step(w, p, now, noRtp), gone, out)
  {
    if Admits(w, p) {
      AdmitKeepsApart(w, p, now, noRtp, gone, out);
      DispatchKeepsApart(Admit(w, p, now, noRtp), Target(w, p), p, now, gone, out);
    }
  }

  /** Index agreement: every SIP packet that offers no socket of another call keeps the
      global sink map in agreement with the local maps of the calls in the map. */
  lemma StepKeepsUnshared(w: World, p: Packet, now: int, noRtp: bool, gone: set<nat>)
    requires Unshared(w, gone) && p.WellFormed() && OffersOwn(w, p, gone)
    ensures Unshared(Step(w, p, now, noRtp), gone)
  {
    StepKeepsCalls(w, p, now, noRtp);
    StepKeepsApart(w, p, now, noRtp, gone, {});
  }

  // ---- sinks are unsettled only during a handshake ----

  predicate HasInvite(call: CallData) {
    exists k <- call.trans :: k.cseqMethod == Invite
  }

  ghost predicate Settled(m: Media.MediaState, c: nat)
    requires c < |m.calls|
  {
    forall s <- m.calls[c].local :: Media.StatusOf(m, m.calls[c].local[s]) in {RsConfirmed, RsTerminated}
  }

  /** A call without a stored INVITE transaction has all its sinks settled. */
  ghost predicate Handshakes(w: World) {
    forall c | 0 <= c < |w.calls| && c < |w.media.calls| && !HasInvite(w.calls[c]) :: Settled(w.media, c)
  }

  /** A handler leaves the call an INVITE transaction, or settles its sinks, or leaves the
      sinks alone. */
  ghost predicate SettlesInTime(call: CallData, o: Outcome) {
    !HasInvite(o.call) ==> o.settle != Keep || (!HasInvite(call) && o.offer == NoOffer)
  }

  lemma OnResponseSettles(call: CallData, c: nat, k: TransactionId, p: Packet, now: int)
    requires CallInv(call) && k in call.trans
    ensures SettlesInTime(call, OnResponse(call, c, k, p, now))
  {
    var o := OnResponse(call, c, k, p, now);
    if k.cseqMethod == Invite {
      assert k in o.call.trans;
    } else if x :| x in call.trans && x.cseqMethod == Invite {
      assert x in o.call.trans;
    }
  }

  lemma OnRequestSettles(call: CallData, c: nat, p: Packet, tid: nat, now: int)
    requires CallInv(call) && p.requestMethod == p.cseqMethod
    ensures SettlesInTime(call, OnInitialRequest(call, c, p, tid, now))
  {
    var o := OnInitialRequest(call, c, p, tid, now);
    if x :| x in call.trans && x.cseqMethod == Invite && o.settle == Keep {
      assert x in o.call.trans;
    } else if p.requestMethod == Invite && o.offer.Offer? {
      assert p.Id() in o.call.trans;
    }
  }

  lemma OnPacketSettles(call: CallData, c: nat, p: Packet, tid: nat, now: int)
    requires CallInv(call) && p.WellFormed()
    ensures SettlesInTime(call, OnPacket(call, c, p, tid, now))
  {
    match MatchTransaction(call, p)
    case Some(k) => OnResponseSettles(call, c, k, p, now);
    case None => if p.kind == Request { OnRequestSettles(call, c, p, tid, now); }
  }

  lemma SettlingSettles(m: Media.MediaState, c: nat, o: Outcome)
    requires Media.Wf(m) && c < |m.calls| && o.settle != Keep
    ensures Settled(SettleMedia(m, c, o), c)
  {
    var r := SettleMedia(m, c, o);
    forall s <- r.calls[c].local ensures Media.StatusOf(r, r.calls[c].local[s]) in {RsConfirmed, RsTerminated} {
      assert Media.WfLocal(m, c, s, m.calls[c].local[s]);
      assert Media.Holds(m, c, m.calls[c].local[s]);
    }
  }

  lemma OthersStaySettled(m: Media.MediaState, r: Media.MediaState, c: nat, d: nat)
    requires Media.Wf(m) && TouchesOnly(m, r, c) && d < |m.calls| && d != c && Settled(m, d)
    ensures Settled(r, d)
  {
    forall s <- r.calls[d].local ensures Media.StatusOf(r, r.calls[d].local[s]) in {RsConfirmed, RsTerminated} {
      assert Media.WfLocal(m, d, s, m.calls[d].local[s]);
    }
  }

  lemma OwnSinksSettle(m: Media.MediaState, c: nat, p: Packet, o: Outcome, now: int)
    requires Media.Wf(m) && c < |m.calls|
    requires o.settle != Keep || (o.offer == NoOffer && Settled(m, c))
    ensures Settled(MediaAfter(m, c, p, o, now), c)
  {
    if o.settle != Keep {
      if o.offer.Offer? && p.sdp.Some? {
        Media.OfferWf(m, c, p.sdp.value, o.offer.reinvite, IsCallerSink(o.call, p), now);
      }
      SettlingSettles(OfferMedia(m, c, p, o, now), c, o);
    }
  }

  lemma ApplyKeepsHandshakes(w: World, c: nat, p: Packet, o: Outcome, now: int)
    requires |w.media.calls| == |w.calls| && c < |w.calls| && Media.Wf(w.media) && Handshakes(w)
    requires p.sdp.Some? && p.sdp.value in w.media.global ==> w.media.sinks[w.media.global[p.sdp.value]].owner == c
    requires SettlesInTime(w.calls[c], o)
    ensures Handshakes(Apply(w, c, p, o, now))
  {
    var r := Apply(w, c, p, o, now);
    MediaAfterTouchesOnly(w.media, c, p, o, now);
    forall d | 0 <= d < |r.calls| && !HasInvite(r.calls[d]) ensures Settled(r.media, d) {
      if d != c {
        assert r.calls[d] == w.calls[d];
        OthersStaySettled(w.media, r.media, c, d);
      } else {
        OwnSinksSettle(w.media, c, p, o, now);
      }
    }
  }

  lemma AdmitKeepsHandshakes(w: World, p: Packet, now: int, noRtp: bool)
    requires |w.media.calls| == |w.calls| && Handshakes(w)
    ensures Handshakes(Admit(w, p, now, noRtp))
  {
    var v := Admit(w, p, now, noRtp);
    forall d | 0 <= d < |v.calls| && !HasInvite(v.calls[d]) ensures Settled(v.media, d) {
      if d < |w.calls| { assert v.calls[d] == w.calls[d]; assert Settled(w.media, d); }
    }
  }

  /** Given sockets are not shared, every SIP packet keeps this: a call with a sink in INIT
      or CONFIRMED_INIT stores an INVITE transaction. */
  lemma StepKeepsHandshakes(w: World, p: Packet, now: int, noRtp: bool, gone: set<nat>, out: set<nat>)
    requires CallsInv(w) && Apart(w, gone, out) && Handshakes(w) && p.WellFormed() && OffersOwn(w, p, gone)
    ensures Handshakes(Step(w, p, now, noRtp))
  {
    if Admits(w, p) {
      var v, c := Admit(w, p, now, noRtp), Target(w, p);
      AdmitKeepsApart(w, p, now, noRtp, gone, out);
      AdmitKeepsHandshakes(w, p, now, noRtp);
      if p.sdp.Some? {
        OfferedSinkIsOwn(v.media, c, p.sdp.value, gone);
      }
      DispatchKeepsHandshakes(v, c, p, now);
    }
  }

  lemma DispatchKeepsHandshakes(v: World, c: nat, p: Packet, now: int)
    requires |v.media.calls| == |v.calls| && c < |v.calls| && Media.Wf(v.media) && CallInv(v.calls[c]) && Handshakes(v)
    requires p.WellFormed()
    requires p.sdp.Some? && p.sdp.value in v.media.global ==>
      v.media.global[p.sdp.value] < |v.media.sinks| && v.media.sinks[v.media.global[p.sdp.value]].owner == c
    ensures Handshakes(Dispatch(v, c, p, now))
  {
    OnPacketSettles(v.calls[c], c, p, v.nextTid, now);
    ApplyKeepsHandshakes(v, c, p, OnPacket(v.calls[c], c, p, v.nextTid, now), now);
  }
}
