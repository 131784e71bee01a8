/**
 The two-phase protocol of the RTP sinks in a re-INVITE (section 14.1 of RFC 3261): an
 offer, then a commit when it succeeds or a rollback when it is rejected, with packets of
 other calls and provisional responses in between. And what a rejected re-INVITE leaves
 behind: a call that refuses every later INVITE.
 */
module Reinvite {
  import opened SipTypes
  import opened Signalling
  import opened SipMachine
  import opened SystemModel
  import opened CallInvariant
  import opened CallPhases
  import opened Reachable
  import opened SinkSafety
  import opened SinkAgreement
  import Media

  // ---- the sinks of one call between m0, when all were settled, and m1 ----

  function Status(m: Media.MediaState, c: nat, s: SocketAddress): SinkStatus
    requires c < |m.calls| && s in m.calls[c].local
  {
    Media.StatusOf(m, m.calls[c].local[s])
  }

  /** The sockets in `offered` were offered and nothing is decided yet. */
  ghost predicate Offered(m0: Media.MediaState, m1: Media.MediaState, c: nat, offered: set<SocketAddress>) {
    && c < |m0.calls| && c < |m1.calls|
    && m1.calls[c].local.Keys == m0.calls[c].local.Keys + offered
    && (forall s <- m0.calls[c].local :: m1.calls[c].local[s] == m0.calls[c].local[s])
    && (forall s <- m0.calls[c].local :: Status(m1, c, s) ==
          if s in offered && Status(m0, c, s) == RsConfirmed then RsConfirmedInit else Status(m0, c, s))
    && (forall s <- offered :: s !in m0.calls[c].local ==> Status(m1, c, s) == RsInit)
    && (forall s <- m0.calls[c].local :: GlobalKept(m0, m1, s, s in offered && Status(m0, c, s) == RsTerminated))
  }

  /** The global entry of the socket is as it was, or new if it may be. */
  predicate GlobalKept(m0: Media.MediaState, m1: Media.MediaState, s: SocketAddress, mayBeNew: bool) {
    && (s in m0.global ==> s in m1.global && m1.global[s] == m0.global[s])
    && (s in m1.global && s !in m0.global ==> mayBeNew)
  }

  /** Everything is as before the offer; the new sockets are TERMINATED and not global. */
  ghost predicate RolledBack(m0: Media.MediaState, m1: Media.MediaState, c: nat, offered: set<SocketAddress>) {
    && c < |m0.calls| && c < |m1.calls|
    && m1.calls[c].local.Keys == m0.calls[c].local.Keys + offered
    && (forall s <- m0.calls[c].local :: m1.calls[c].local[s] == m0.calls[c].local[s])
    && (forall s <- m0.calls[c].local :: Status(m1, c, s) == Status(m0, c, s))
    && (forall s <- offered :: s !in m0.calls[c].local ==> Status(m1, c, s) == RsTerminated && s !in m1.global)
    && (forall s <- m0.calls[c].local :: GlobalKept(m0, m1, s, s in offered && Status(m0, c, s) == RsTerminated))
  }

  /** Exactly the offered sockets are CONFIRMED, and global with the sinks held locally. All
      others are TERMINATED, and gone from the global map unless a sink for a socket that
      was TERMINATED before was left in it. */
  ghost predicate Committed(m0: Media.MediaState, m1: Media.MediaState, c: nat, offered: set<SocketAddress>) {
    && c < |m0.calls| && c < |m1.calls|
    && m1.calls[c].local.Keys == m0.calls[c].local.Keys + offered
    && (forall s <- m1.calls[c].local :: Status(m1, c, s) == if s in offered then RsConfirmed else RsTerminated)
    && (forall s <- offered :: s in m1.global && m1.global[s] == m1.calls[c].local[s])
    && (forall s <- m0.calls[c].local :: s in m1.global && s !in offered ==>
          Status(m0, c, s) == RsTerminated && s in m0.global && m1.global[s] == m0.global[s])
  }

  lemma NothingOffered(m: Media.MediaState, c: nat)
    requires c < |m.calls|
    ensures Offered(m, m, c, {})
  {
  }

  /** Offering a socket whose sink is known only marks a CONFIRMED sink. */
  ghost predicate Marked(m: Media.MediaState, r: Media.MediaState, c: nat, s: SocketAddress) {
    && r.calls == m.calls && r.global == m.global && c < |m.calls|
    && (forall x <- m.calls[c].local ::
          Status(r, c, x) == if x == s && Status(m, c, x) == RsConfirmed then RsConfirmedInit else Status(m, c, x))
  }

  lemma KnownSocketIsMarked(m: Media.MediaState, c: nat, s: SocketAddress, isCaller: bool, now: int)
    requires Media.Wf(m) && c < |m.calls| && Agrees(m, c) && s in m.global && s in m.calls[c].local
    ensures Marked(m, Media.OfferSocket(m, c, s, true, isCaller, now), c, s)
  {
    var r := Media.OfferSocket(m, c, s, true, isCaller, now);
    forall x <- m.calls[c].local
      ensures Status(r, c, x) == if x == s && Status(m, c, x) == RsConfirmed then RsConfirmedInit else Status(m, c, x)
    {
      assert Media.WfLocal(m, c, x, m.calls[c].local[x]);
    }
  }

  lemma MarkedIsOffered(m0: Media.MediaState, m: Media.MediaState, r: Media.MediaState, c: nat,
                        offered: set<SocketAddress>, s: SocketAddress)
    requires Marked(m, r, c, s) && s in m.calls[c].local
    requires Offered(m0, m, c, offered) && Settled(m0, c)
    ensures Offered(m0, r, c, offered + {s})
  {
  }

  /** Offering a socket without a sink adds one. */
  ghost predicate Added(m: Media.MediaState, r: Media.MediaState, c: nat, s: SocketAddress) {
    && c < |m.calls| && c < |r.calls|
    && r.calls[c].local.Keys == m.calls[c].local.Keys + {s}
    && (forall x <- m.calls[c].local ::
      r.calls[c].local[x] == m.calls[c].local[x] && Status(r, c, x) == Status(m, c, x))
    && (s !in m.calls[c].local ==> Status(r, c, s) == RsInit)
    && s in r.global && s !in m.global
    && (forall x <- m.global :: x in r.global && r.global[x] == m.global[x])
    && (forall x <- r.global :: x in m.global || x == s)
  }

  lemma NewSocketIsAdded(m: Media.MediaState, c: nat, s: SocketAddress, isCaller: bool, now: int)
    requires Media.Wf(m) && c < |m.calls| && s !in m.global
    ensures Added(m, Media.OfferSocket(m, c, s, true, isCaller, now), c, s)
  {
    var r := Media.OfferSocket(m, c, s, true, isCaller, now);
    forall x <- m.calls[c].local ensures r.calls[c].local[x] == m.calls[c].local[x]
      && Status(r, c, x) == Status(m, c, x) {
      assert Media.WfLocal(m, c, x, m.calls[c].local[x]);
    }
  }

  lemma AddedIsOffered(m0: Media.MediaState, m: Media.MediaState, r: Media.MediaState, c: nat,
                       offered: set<SocketAddress>, s: SocketAddress)
    requires Added(m, r, c, s) && Agrees(m, c)
    requires Offered(m0, m, c, offered) && Settled(m0, c)
    ensures Offered(m0, r, c, offered + {s})
  {
    if s in m.calls[c].local {
      assert Status(m, c, s) == RsTerminated;
      assert s in m0.calls[c].local && Status(m0, c, s) == RsTerminated;
    }
    forall x <- m0.calls[c].local
      ensures GlobalKept(m0, r, x, x in offered + {s} && Status(m0, c, x) == RsTerminated)
    {
      assert GlobalKept(m0, m, x, x in offered && Status(m0, c, x) == RsTerminated);
    }
  }

  lemma OfferExtends(m0: Media.MediaState, m: Media.MediaState, c: nat, offered: set<SocketAddress>,
                     s: SocketAddress, isCaller: bool, now: int)
    requires Media.Wf(m) && c < |m.calls| && Agrees(m, c)
    requires Offered(m0, m, c, offered) && Settled(m0, c)
    requires s in m.global ==> s in m.calls[c].local
    ensures Offered(m0, Media.OfferSocket(m, c, s, true, isCaller, now), c, offered + {s})
  {
    if s in m.global {
      KnownSocketIsMarked(m, c, s, isCaller, now);
      MarkedIsOffered(m0, m, Media.OfferSocket(m, c, s, true, isCaller, now), c, offered, s);
    } else {
      NewSocketIsAdded(m, c, s, isCaller, now);
      AddedIsOffered(m0, m, Media.OfferSocket(m, c, s, true, isCaller, now), c, offered, s);
    }
  }

  /** From m to r the sinks of the call are rolled back, socket by socket. */
  ghost predicate Annulled(m: Media.MediaState, r: Media.MediaState, c: nat)
    requires c < |m.calls|
  {
    && r.calls == m.calls
    && (forall s <- m.calls[c].local :: Status(r, c, s) == Media.Rollback(Status(m, c, s)))
    && (forall s <- m.calls[c].local :: s in r.global <==> s in m.global && Status(m, c, s) != RsInit)
    && (forall s <- r.global :: s in m.global && r.global[s] == m.global[s])
  }

  lemma AnnulSinksAnnuls(m: Media.MediaState, c: nat)
    requires Media.Wf(m) && c < |m.calls|
    ensures Annulled(m, Media.AnnulSinks(m, c), c)
  {
  }

  lemma RollbackRollsBack(m0: Media.MediaState, m: Media.MediaState, c: nat, offered: set<SocketAddress>)
    requires Media.Wf(m) && c < |m.calls| && Agrees(m, c)
    requires Offered(m0, m, c, offered) && Settled(m0, c)
    ensures RolledBack(m0, Media.AnnulSinks(m, c), c, offered)
  {
    AnnulSinksAnnuls(m, c);
    OfferAnnulled(m0, m, Media.AnnulSinks(m, c), c, offered);
  }

  lemma OfferAnnulled(m0: Media.MediaState, m: Media.MediaState, r: Media.MediaState, c: nat,
                      offered: set<SocketAddress>)
    requires c < |m.calls| && Agrees(m, c) && Annulled(m, r, c)
    requires Offered(m0, m, c, offered) && Settled(m0, c)
    ensures RolledBack(m0, r, c, offered)
  {
  }

  lemma RollbackIsFinal(m0: Media.MediaState, m: Media.MediaState, c: nat, offered: set<SocketAddress>)
    requires Media.Wf(m) && c < |m.calls|
    requires RolledBack(m0, m, c, offered) && Settled(m0, c)
    ensures RolledBack(m0, Media.AnnulSinks(m, c), c, offered)
  {
    AnnulSinksAnnuls(m, c);
    StaysRolledBack(m0, m, Media.AnnulSinks(m, c), c, offered);
  }

  lemma StaysRolledBack(m0: Media.MediaState, m: Media.MediaState, r: Media.MediaState, c: nat,
                        offered: set<SocketAddress>)
    requires c < |m.calls| && Annulled(m, r, c)
    requires RolledBack(m0, m, c, offered) && Settled(m0, c)
    ensures RolledBack(m0, r, c, offered)
  {
  }

  lemma CommitCommits(m0: Media.MediaState, m: Media.MediaState, c: nat, offered: set<SocketAddress>)
    requires Media.Wf(m) && c < |m.calls| && Agrees(m, c)
    requires Offered(m0, m, c, offered) && Settled(m0, c)
    requires forall s <- offered :: s in m0.calls[c].local ==> Status(m0, c, s) == RsConfirmed
    ensures Committed(m0, Media.ConfirmSinks(m, c), c, offered)
  {
  }

  // ---- packets that decide nothing ----

  /** The sinks of the call and their global entries are the same. */
  ghost predicate Untouched(m: Media.MediaState, r: Media.MediaState, c: nat) {
    && c < |m.calls| && c < |r.calls| && r.calls[c].local == m.calls[c].local
    && (forall s <- m.calls[c].local :: Status(r, c, s) == Status(m, c, s))
    && (forall s <- m.calls[c].local :: GlobalKept(m, r, s, false))
  }

  lemma UntouchedKeeps(m0: Media.MediaState, m: Media.MediaState, r: Media.MediaState, c: nat,
                       offered: set<SocketAddress>)
    requires Untouched(m, r, c)
    ensures Offered(m0, m, c, offered) ==> Offered(m0, r, c, offered)
    ensures RolledBack(m0, m, c, offered) ==> RolledBack(m0, r, c, offered)
  {
  }

  lemma OthersLeaveUntouched(m: Media.MediaState, r: Media.MediaState, c: nat, d: nat)
    requires Media.Wf(m) && TouchesOnly(m, r, d) && c < |m.calls| && c != d
    requires forall s <- m.calls[c].local :: s !in r.calls[d].local
    ensures Untouched(m, r, c)
  {
    forall s <- m.calls[c].local ensures Status(r, c, s) == Status(m, c, s) {
      assert Media.WfLocal(m, c, s, m.calls[c].local[s]);
    }
  }

  /** A packet of another call meets these conditions. */
  ghost predicate OtherCase(v: World, c: nat, d: nat, p: Packet, gone: set<nat>) {
    && |v.media.calls| == |v.calls| && Media.Wf(v.media) && NoSharing(v.media, gone)
    && InMap(v, c) && InMap(v, d) && c != d && c !in gone && d !in gone
    && v.calls[d].callId == p.callId
    && (p.sdp.Some? ==> FreeFor(v.media, d, p.sdp.value, gone))
    && (p.sdp.Some? && p.sdp.value in v.media.global ==>
          v.media.global[p.sdp.value] < |v.media.sinks| && v.media.sinks[v.media.global[p.sdp.value]].owner == d)
  }

  lemma OtherApply(v: World, c: nat, d: nat, p: Packet, o: Outcome, now: int, gone: set<nat>)
    requires OtherCase(v, c, d, p, gone) && o.call.callId == p.callId
    ensures var r := Apply(v, d, p, o, now);
      InMap(r, c) && r.calls[c] == v.calls[c] && Untouched(v.media, r.media, c)
  {
    MediaAfterTouchesOnly(v.media, d, p, o, now);
    ApplyKeepsSharing(v.media, d, p, o, now, gone);
    var m := MediaAfter(v.media, d, p, o, now);
    forall s <- v.media.calls[c].local ensures s !in m.calls[d].local {
      assert s in m.calls[c].local;
    }
    OthersLeaveUntouched(v.media, m, c, d);
  }

  lemma UnsharedCase(v: World, c: nat, d: nat, p: Packet, gone: set<nat>)
    requires Unshared(v, gone) && InMap(v, c) && InMap(v, d) && c != d && v.calls[d].callId == p.callId
    requires p.sdp.Some? ==> FreeFor(v.media, d, p.sdp.value, gone)
    ensures OtherCase(v, c, d, p, gone)
  {
    if p.sdp.Some? {
      OfferedSinkIsOwn(v.media, d, p.sdp.value, gone);
    }
  }

  lemma OtherPacketCase(w: World, c: nat, p: Packet, now: int, noRtp: bool, gone: set<nat>)
    requires Unshared(w, gone) && OffersOwn(w, p, gone) && Admits(w, p)
    requires InMap(w, c) && p.callId != w.calls[c].callId
    ensures OtherCase(Admit(w, p, now, noRtp), c, Target(w, p), p, gone)
  {
    var v, d := Admit(w, p, now, noRtp), Target(w, p);
    AdmitLeavesOthers(w, c, p, now, noRtp);
    AdmitKeepsApart(w, p, now, noRtp, gone, {});
    UnsharedCase(v, c, d, p, gone);
  }

  lemma AdmitLeavesOthers(w: World, c: nat, p: Packet, now: int, noRtp: bool)
    requires |w.media.calls| == |w.calls| && c < |w.calls|
    ensures var v := Admit(w, p, now, noRtp);
      && c < |v.calls| && c < |v.media.calls| && v.calls[c] == w.calls[c] && v.media.calls[c] == w.media.calls[c]
      && v.media.sinks == w.media.sinks && v.media.global == w.media.global
      && (InMap(w, c) && p.callId != w.calls[c].callId ==> InMap(v, c))
  {
  }

  lemma OtherDispatch(v: World, c: nat, d: nat, p: Packet, now: int, gone: set<nat>)
    requires OtherCase(v, c, d, p, gone)
    ensures var r := Dispatch(v, d, p, now);
      InMap(r, c) && r.calls[c] == v.calls[c] && Untouched(v.media, r.media, c)
  {
    var o := OnPacket(v.calls[d], d, p, v.nextTid, now);
    assert Follows(v.calls[d], o);
    OtherApply(v, c, d, p, o, now, gone);
  }

  lemma OtherAdmitted(w: World, c: nat, p: Packet, now: int, noRtp: bool, gone: set<nat>)
    requires Unshared(w, gone) && OffersOwn(w, p, gone) && Admits(w, p)
    requires InMap(w, c) && p.callId != w.calls[c].callId
    ensures Target(w, p) < |Admit(w, p, now, noRtp).calls| == |Admit(w, p, now, noRtp).media.calls|
    ensures var r := Dispatch(Admit(w, p, now, noRtp), Target(w, p), p, now);
      InMap(r, c) && r.calls[c] == w.calls[c] && Untouched(w.media, r.media, c)
  {
    OtherPacketCase(w, c, p, now, noRtp, gone);
    AdmitLeavesOthers(w, c, p, now, noRtp);
    OtherDispatch(Admit(w, p, now, noRtp), c, Target(w, p), p, now, gone);
  }

  lemma OtherPacketStep(w: World, c: nat, p: Packet, now: int, noRtp: bool, gone: set<nat>)
    requires Unshared(w, gone) && OffersOwn(w, p, gone)
    requires InMap(w, c) && p.callId != w.calls[c].callId
    ensures var r := Step(w, p, now, noRtp);
      InMap(r, c) && r.calls[c] == w.calls[c] && Untouched(w.media, r.media, c)
  {
    if Admits(w, p) {
      OtherAdmitted(w, c, p, now, noRtp, gone);
    }
  }

  predicate SameHeaders(t: TransactionData, t': TransactionData) {
    t.id == t'.id && t.sentBy == t'.sentBy && t.cseqNum == t'.cseqNum
  }

  predicate StaysPending(t: TransactionData, t': TransactionData) {
    if InviteIsPending(t.state) then InviteIsPending(t'.state) && SameHeaders(t', t) else t' == t
  }

  /** Pending INVITE transactions stay pending, everything else stays as it is. */
  ghost predicate StillWaiting(call: CallData, o: Outcome) {
    && o.offer == NoOffer && o.settle == Keep && o.exit == Stay
    && o.call.reinvite == call.reinvite && o.call.trans.Keys == call.trans.Keys
    && (forall k <- call.trans :: StaysPending(call.trans[k], o.call.trans[k]))
    && (InSetup(call) ==> InSetup(o.call))
  }

  lemma OneWaits(trans: map<TransactionId, TransactionData>, k: TransactionId, t: TransactionData)
    requires k in trans && StaysPending(trans[k], t)
    ensures trans[k := t].Keys == trans.Keys && forall x <- trans :: StaysPending(trans[x], trans[k := t][x])
  {
  }

  lemma ProvisionalOnInviteWaits(call: CallData, k: TransactionId, p: Packet)
    requires k in call.trans
    ensures StillWaiting(call, OnProvisionalOnInvite(call, k, p))
  {
    var o, t := OnProvisionalOnInvite(call, k, p), call.trans[k];
    if InviteIsPending(t.state) {
      OneWaits(call.trans, k, t.(state := PROCEEDING_PROCEEDING));
      assert o.call.trans == call.trans[k := t.(state := PROCEEDING_PROCEEDING)];
    }
  }

  lemma ProvisionalDecidesNothing(call: CallData, c: nat, p: Packet, tid: nat, now: int)
    requires p.IsProvisional()
    ensures StillWaiting(call, OnPacket(call, c, p, tid, now))
  {
    var k := MatchTransaction(call, p);
    assert StillWaiting(call, Nothing(call));
    if k.Some? {
      ProvisionalOnInviteWaits(call, k.value, p);
    }
  }

  lemma ConfirmedIgnoresProvisional(call: CallData, c: nat, p: Packet, tid: nat, now: int)
    requires CallInv(call) && call.dialog.state == DsConfirmed && p.IsProvisional()
    ensures OnPacket(call, c, p, tid, now) == Nothing(call)
  {
    var k := MatchTransaction(call, p);
    if k.Some? { assert !Live(call.trans[k.value]); }
  }

  lemma ProvisionalStep(w: World, c: nat, p: Packet, now: int, noRtp: bool)
    requires CallsInv(w) && InMap(w, c) && p.callId == w.calls[c].callId && p.IsProvisional()
    ensures var r := Step(w, p, now, noRtp);
      && r.media == w.media && InMap(r, c)
      && (r.calls[c] == w.calls[c] || r.calls[c] == OnPacket(w.calls[c], c, p, w.nextTid, now).call)
  {
    if Admits(w, p) {
      ProvisionalDecidesNothing(w.calls[c], c, p, w.nextTid, now);
      assert Follows(w.calls[c], OnPacket(w.calls[c], c, p, w.nextTid, now));
    }
  }

  // ---- the course of a re-INVITE ----

  datatype Input = Input(p: Packet, now: int, noRtp: bool)

  ghost function Steps(w: World, ins: seq<Input>): (r: World)
    requires Wf(w)
    ensures Wf(r)
    decreases |ins|
  {
    if ins == [] then w else Steps(Step(w, ins[0].p, ins[0].now, ins[0].noRtp), ins[1..])
  }

  /** Packets of other calls, and provisional responses in the call itself; no packet offers
      a socket of another call. */
  ghost predicate Quiet(w: World, ins: seq<Input>, callId: string, gone: set<nat>)
    requires Wf(w)
    decreases |ins|
  {
    ins == [] ||
    (var i := ins[0];
     && i.p.WellFormed() && OffersOwn(w, i.p, gone)
     && (i.p.callId == callId ==> i.p.IsProvisional())
     && Quiet(Step(w, i.p, i.now, i.noRtp), ins[1..], callId, gone))
  }

  function SdpSet(p: Packet): set<SocketAddress> {
    if p.sdp.Some? then {p.sdp.value} else {}
  }

  datatype Stage = Pending | Refused | Accepted

  /** The re-INVITE k of call c has reached the stage; the sinks have followed. */
  ghost predicate At(stage: Stage, w0: World, w: World, c: nat, k: TransactionId, offered: set<SocketAddress>,
                     gone: set<nat>) {
    && Unshared(w, gone) && InMap(w, c) && c < |w0.calls| && w.calls[c].callId == w0.calls[c].callId
    && k in w.calls[c].trans && k.cseqMethod == Invite
    && match stage {
         case Pending => w.calls[c].reinvite && InviteIsPending(w.calls[c].trans[k].state)
                         && Offered(w0.media, w.media, c, offered)
         case Refused => w.calls[c].reinvite && w.calls[c].trans[k].state == TERMINATED_COMPLETED
                         && RolledBack(w0.media, w.media, c, offered)
         case Accepted => w.calls[c].dialog.state == DsConfirmed && !w.calls[c].reinvite
                          && Offered(w0.media, w.media, c, offered)
       }
  }

  lemma ProvisionalOnConfirmed(w: World, c: nat, p: Packet, now: int, noRtp: bool)
    requires CallsInv(w) && InMap(w, c) && p.callId == w.calls[c].callId && p.IsProvisional()
    requires w.calls[c].dialog.state == DsConfirmed
    ensures var r := Step(w, p, now, noRtp); r.media == w.media && InMap(r, c) && r.calls[c] == w.calls[c]
  {
    ConfirmedIgnoresProvisional(w.calls[c], c, p, w.nextTid, now);
    ProvisionalStep(w, c, p, now, noRtp);
  }

  lemma ProvisionalOnLive(w: World, c: nat, k: TransactionId, p: Packet, now: int, noRtp: bool)
    requires CallsInv(w) && InMap(w, c) && p.callId == w.calls[c].callId && p.IsProvisional() && k in w.calls[c].trans
    ensures var r := Step(w, p, now, noRtp);
      && r.media == w.media && InMap(r, c) && r.calls[c].callId == w.calls[c].callId
        && r.calls[c].reinvite == w.calls[c].reinvite
      && k in r.calls[c].trans && StaysPending(w.calls[c].trans[k], r.calls[c].trans[k])
  {
    ProvisionalDecidesNothing(w.calls[c], c, p, w.nextTid, now);
    assert Follows(w.calls[c], OnPacket(w.calls[c], c, p, w.nextTid, now));
    ProvisionalStep(w, c, p, now, noRtp);
  }

  lemma ProvisionalKeepsStage(stage: Stage, w0: World, w: World, c: nat, k: TransactionId, offered: set<SocketAddress>,
                              gone: set<nat>, i: Input)
    requires At(stage, w0, w, c, k, offered, gone) && i.p.callId == w.calls[c].callId && i.p.IsProvisional()
    requires Unshared(Step(w, i.p, i.now, i.noRtp), gone)
    ensures At(stage, w0, Step(w, i.p, i.now, i.noRtp), c, k, offered, gone)
  {
    if stage == Accepted {
      ProvisionalOnConfirmed(w, c, i.p, i.now, i.noRtp);
    } else {
      ProvisionalOnLive(w, c, k, i.p, i.now, i.noRtp);
    }
  }

  lemma QuietStepKeepsStage(stage: Stage, w0: World, w: World, c: nat, k: TransactionId, offered: set<SocketAddress>,
                            gone: set<nat>, i: Input)
    requires At(stage, w0, w, c, k, offered, gone)
    requires i.p.WellFormed() && OffersOwn(w, i.p, gone)
    requires i.p.callId == w0.calls[c].callId ==> i.p.IsProvisional()
    ensures At(stage, w0, Step(w, i.p, i.now, i.noRtp), c, k, offered, gone)
  {
    var r := Step(w, i.p, i.now, i.noRtp);
    StepKeepsUnshared(w, i.p, i.now, i.noRtp, gone);
    if i.p.callId != w0.calls[c].callId {
      OtherPacketStep(w, c, i.p, i.now, i.noRtp, gone);
      UntouchedKeeps(w0.media, w.media, r.media, c, offered);
    } else {
      ProvisionalKeepsStage(stage, w0, w, c, k, offered, gone, i);
    }
  }

  lemma {:induction false} QuietKeepsStage(stage: Stage, w0: World, w: World, c: nat, k: TransactionId,
                                           offered: set<SocketAddress>, gone: set<nat>, ins: seq<Input>)
    requires At(stage, w0, w, c, k, offered, gone) && Quiet(w, ins, w0.calls[c].callId, gone)
    ensures At(stage, w0, Steps(w, ins), c, k, offered, gone)
    decreases |ins|
  {
    if ins != [] {
      QuietStepKeepsStage(stage, w0, w, c, k, offered, gone, ins[0]);
      QuietKeepsStage(stage, w0, Step(w, ins[0].p, ins[0].now, ins[0].noRtp), c, k, offered, gone, ins[1..]);
    }
  }

  /** A packet of call c itself. */
  ghost predicate Own(w: World, c: nat, p: Packet) {
    InMap(w, c) && p.parses && p.callId == w.calls[c].callId && p.WellFormed()
  }

  lemma OwnStep(w: World, c: nat, p: Packet, now: int, noRtp: bool)
    requires Wf(w) && Own(w, c, p)
    ensures Step(w, p, now, noRtp) == Apply(w, c, p, OnPacket(w.calls[c], c, p, w.nextTid, now), now)
  {
  }

  /** The packet is a re-INVITE: an INVITE on a new branch in a confirmed dialog. */
  predicate IsReinvite(call: CallData, p: Packet) {
    p.IsRequest(Invite) && p.Id() !in call.trans && call.dialog.state == DsConfirmed
  }

  lemma ReinviteOutcome(call: CallData, c: nat, p: Packet, tid: nat, now: int)
    requires CallInv(call) && IsReinvite(call, p) && p.WellFormed()
    ensures var o := OnPacket(call, c, p, tid, now);
      && o.offer == Offer(true) && o.settle == Keep && o.exit == Stay && o.call.reinvite
      && p.Id() in o.call.trans && o.call.trans[p.Id()].state == CALLING_PROCEEDING
  {
  }

  lemma OfferMediaExtends(w0: World, w: World, c: nat, p: Packet, o: Outcome, now: int, offered: set<SocketAddress>,
                          gone: set<nat>)
    requires Unshared(w, gone) && InMap(w, c) && (p.sdp.Some? ==> FreeFor(w.media, c, p.sdp.value, gone))
    requires Offered(w0.media, w.media, c, offered) && Settled(w0.media, c)
    requires o.offer == Offer(true)
    ensures Offered(w0.media, OfferMedia(w.media, c, p, o, now), c, offered + SdpSet(p))
  {
    if p.sdp.Some? {
      OfferedSinkIsOwn(w.media, c, p.sdp.value, gone);
      assert Agrees(w.media, c);
      OfferExtends(w0.media, w.media, c, offered, p.sdp.value, IsCallerSink(o.call, p), now);
    } else {
      assert offered + SdpSet(p) == offered;
    }
  }

  lemma FirstOffer(w: World, c: nat, p: Packet, o: Outcome, now: int, gone: set<nat>)
    requires Unshared(w, gone) && InMap(w, c) && (p.sdp.Some? ==> FreeFor(w.media, c, p.sdp.value, gone))
    requires o.offer == Offer(true) && o.settle == Keep && o.exit == Stay && Settled(w.media, c)
    ensures Offered(w.media, Apply(w, c, p, o, now).media, c, SdpSet(p))
  {
    NothingOffered(w.media, c);
    OfferMediaExtends(w, w, c, p, o, now, {}, gone);
    assert {} + SdpSet(p) == SdpSet(p);
  }

  lemma ReinviteApplied(w: World, c: nat, p: Packet, now: int, gone: set<nat>)
    requires Unshared(w, gone) && InMap(w, c) && (p.sdp.Some? ==> FreeFor(w.media, c, p.sdp.value, gone))
    requires IsReinvite(w.calls[c], p) && p.WellFormed() && p.callId == w.calls[c].callId && Settled(w.media, c)
    ensures var r := Apply(w, c, p, OnPacket(w.calls[c], c, p, w.nextTid, now), now);
      && InMap(r, c) && r.calls[c].callId == w.calls[c].callId && r.calls[c].reinvite
      && p.Id() in r.calls[c].trans && r.calls[c].trans[p.Id()].state == CALLING_PROCEEDING
      && Offered(w.media, r.media, c, SdpSet(p))
  {
    var o := OnPacket(w.calls[c], c, p, w.nextTid, now);
    ReinviteOutcome(w.calls[c], c, p, w.nextTid, now);
    FirstOffer(w, c, p, o, now, gone);
    assert Follows(w.calls[c], o);
  }

  lemma ReinviteStarts(w: World, c: nat, i: Input, gone: set<nat>)
    requires Unshared(w, gone) && Own(w, c, i.p) && OffersOwn(w, i.p, gone)
    requires IsReinvite(w.calls[c], i.p) && Settled(w.media, c)
    ensures At(Pending, w, Step(w, i.p, i.now, i.noRtp), c, i.p.Id(), SdpSet(i.p), gone)
  {
    StepKeepsUnshared(w, i.p, i.now, i.noRtp, gone);
    OwnStep(w, c, i.p, i.now, i.noRtp);
    ReinviteApplied(w, c, i.p, i.now, gone);
  }

  lemma RefusalOutcome(call: CallData, c: nat, k: TransactionId, p: Packet, tid: nat, now: int)
    requires k in call.trans && k.cseqMethod == Invite && InviteIsPending(call.trans[k].state)
    requires p.Id() == k && p.kind == Response && !p.IsProvisional()
    ensures var o := OnPacket(call, c, p, tid, now);
      && o.exit == Stay && k in o.call.trans && o.call.callId == call.callId
      && if p.IsSuccess()
         then o.offer == Offer(call.reinvite) && o.settle == Keep && o.call.dialog.state == DsConfirmed
           && !o.call.reinvite
         else o.offer == NoOffer && o.settle == RollbackSinks && o.call.reinvite == call.reinvite
              && o.call.trans[k].state == TERMINATED_COMPLETED
  {
  }

  lemma RefusalApplied(w0: World, w: World, c: nat, offered: set<SocketAddress>, gone: set<nat>, p: Packet, o: Outcome,
                       now: int)
    requires Unshared(w, gone) && InMap(w, c) && Offered(w0.media, w.media, c, offered) && Settled(w0.media, c)
    requires o.exit == Stay && o.offer == NoOffer && o.settle == RollbackSinks && o.call.callId == w.calls[c].callId
    ensures var r := Apply(w, c, p, o, now);
      InMap(r, c) && RolledBack(w0.media, r.media, c, offered) && r.calls[c] == o.call
  {
    assert Agrees(w.media, c);
    RollbackRollsBack(w0.media, w.media, c, offered);
  }

  lemma ReinviteRefused(w0: World, w: World, c: nat, k: TransactionId, offered: set<SocketAddress>, gone: set<nat>,
                        i: Input)
    requires At(Pending, w0, w, c, k, offered, gone) && Settled(w0.media, c)
    requires Own(w, c, i.p) && OffersOwn(w, i.p, gone) && i.p.Id() == k && i.p.IsNonSuccess()
    ensures At(Refused, w0, Step(w, i.p, i.now, i.noRtp), c, k, offered, gone)
  {
    StepKeepsUnshared(w, i.p, i.now, i.noRtp, gone);
    OwnStep(w, c, i.p, i.now, i.noRtp);
    RefusalOutcome(w.calls[c], c, k, i.p, w.nextTid, i.now);
    RefusalApplied(w0, w, c, offered, gone, i.p, OnPacket(w.calls[c], c, i.p, w.nextTid, i.now), i.now);
  }

  lemma ReinviteAccepted(w0: World, w: World, c: nat, k: TransactionId, offered: set<SocketAddress>, gone: set<nat>,
                         i: Input)
    requires At(Pending, w0, w, c, k, offered, gone) && Settled(w0.media, c)
    requires Own(w, c, i.p) && OffersOwn(w, i.p, gone) && i.p.Id() == k && i.p.IsSuccess()
    ensures At(Accepted, w0, Step(w, i.p, i.now, i.noRtp), c, k, offered + SdpSet(i.p), gone)
  {
    StepKeepsUnshared(w, i.p, i.now, i.noRtp, gone);
    OwnStep(w, c, i.p, i.now, i.noRtp);
    RefusalOutcome(w.calls[c], c, k, i.p, w.nextTid, i.now);
    var o := OnPacket(w.calls[c], c, i.p, w.nextTid, i.now);
    OfferMediaExtends(w0, w, c, i.p, o, i.now, offered, gone);
  }

  // ---- the whole course up to the ACK ----

  lemma ReinviteFinal(w0: World, w: World, c: nat, k: TransactionId, offered: set<SocketAddress>, gone: set<nat>,
                      i: Input)
    requires At(Pending, w0, w, c, k, offered, gone) && Settled(w0.media, c)
    requires Own(w, c, i.p) && OffersOwn(w, i.p, gone) && i.p.Id() == k && i.p.kind == Response && !i.p.IsProvisional()
    ensures if i.p.IsSuccess() then At(Accepted, w0, Step(w, i.p, i.now, i.noRtp), c, k, offered + SdpSet(i.p), gone)
            else At(Refused, w0, Step(w, i.p, i.now, i.noRtp), c, k, offered, gone)
  {
    if i.p.IsSuccess() {
      ReinviteAccepted(w0, w, c, k, offered, gone, i);
    } else {
      ReinviteRefused(w0, w, c, k, offered, gone, i);
    }
  }

  /** A re-INVITE for call c, its final response, and its ACK in the end, from a state with all
      sinks of the call settled and no shared sockets; with provisional responses and packets
      of other calls in between. */
  ghost predicate IsCourse(w: World, c: nat, invite: Input, early: seq<Input>, final: Input, late: seq<Input>,
                           gone: set<nat>) {
    && Unshared(w, gone) && Own(w, c, invite.p) && IsReinvite(w.calls[c], invite.p) && Settled(w.media, c)
    && OffersOwn(w, invite.p, gone)
    && var w1 := Step(w, invite.p, invite.now, invite.noRtp);
    && Quiet(w1, early, w.calls[c].callId, gone)
    && var w2 := Steps(w1, early);
    && Own(w2, c, final.p) && final.p.Id() == invite.p.Id() && final.p.kind == Response && !final.p.IsProvisional()
    && OffersOwn(w2, final.p, gone)
    && Quiet(Step(w2, final.p, final.now, final.noRtp), late, w.calls[c].callId, gone)
  }

  /** The state before the ACK. */
  ghost function AfterFinal(w: World, invite: Input, early: seq<Input>, final: Input, late: seq<Input>): World
    requires Wf(w)
  {
    Steps(Step(Steps(Step(w, invite.p, invite.now, invite.noRtp), early), final.p, final.now, final.noRtp), late)
  }

  function Reached(final: Packet): Stage { if final.IsSuccess() then Accepted else Refused }

  function OfferedBy(invite: Packet, final: Packet): set<SocketAddress> {
    if final.IsSuccess() then SdpSet(invite) + SdpSet(final) else SdpSet(invite)
  }

  lemma CourseReaches(w: World, c: nat, invite: Input, early: seq<Input>, final: Input, late: seq<Input>,
                      gone: set<nat>)
    requires IsCourse(w, c, invite, early, final, late, gone)
    ensures At(Reached(final.p), w, AfterFinal(w, invite, early, final, late), c, invite.p.Id(),
      OfferedBy(invite.p, final.p), gone)
  {
    var k, offered := invite.p.Id(), SdpSet(invite.p);
    var w1 := Step(w, invite.p, invite.now, invite.noRtp);
    ReinviteStarts(w, c, invite, gone);
    QuietKeepsStage(Pending, w, w1, c, k, offered, gone, early);
    var w2 := Steps(w1, early);
    ReinviteFinal(w, w2, c, k, offered, gone, final);
    QuietKeepsStage(Reached(final.p), w, Step(w2, final.p, final.now, final.noRtp), c, k,
      OfferedBy(invite.p, final.p), gone, late);
  }

  // ---- a rejected re-INVITE ----

  /** The call waits for the end of a re-INVITE that is over already. */
  ghost predicate Wedged(call: CallData) {
    call.reinvite && InSetup(call) && forall k <- call.trans :: !Live(call.trans[k])
  }

  lemma AckOutcome(call: CallData, c: nat, k: TransactionId, p: Packet, tid: nat, now: int)
    requires CallInv(call) && call.reinvite && k in call.trans && k.cseqMethod == Invite
    requires call.trans[k].state == TERMINATED_COMPLETED
    requires p.IsRequest(Ack) && p.WellFormed() && p.branch == k.branch
    ensures var o := OnPacket(call, c, p, tid, now);
      && o.exit == Stay && o.offer == NoOffer && o.settle == RollbackSinks && Wedged(o.call)
        && o.call.callId == call.callId
  {
    assert p.Id() !in call.trans;
    assert TransactionId(p.branch, Invite) == k;
    assert Live(call.trans[k]);
  }

  lemma RollbackApplied(w0: World, w: World, c: nat, offered: set<SocketAddress>, p: Packet, o: Outcome, now: int)
    requires Media.Wf(w.media) && InMap(w, c) && c < |w.media.calls| == |w.calls|
    requires RolledBack(w0.media, w.media, c, offered) && Settled(w0.media, c)
    requires o.exit == Stay && o.offer == NoOffer && o.settle == RollbackSinks && o.call.callId == w.calls[c].callId
    ensures var r := Apply(w, c, p, o, now);
      InMap(r, c) && RolledBack(w0.media, r.media, c, offered) && r.calls[c] == o.call
  {
    RollbackIsFinal(w0.media, w.media, c, offered);
  }

  lemma RefusalAcknowledged(w0: World, w: World, c: nat, k: TransactionId, offered: set<SocketAddress>, gone: set<nat>,
                            i: Input)
    requires At(Refused, w0, w, c, k, offered, gone) && Settled(w0.media, c)
    requires Own(w, c, i.p) && i.p.IsRequest(Ack) && i.p.branch == k.branch
    ensures var r := Step(w, i.p, i.now, i.noRtp);
      InMap(r, c) && RolledBack(w0.media, r.media, c, offered) && Wedged(r.calls[c])
  {
    OwnStep(w, c, i.p, i.now, i.noRtp);
    AckOutcome(w.calls[c], c, k, i.p, w.nextTid, i.now);
    RollbackApplied(w0, w, c, offered, i.p, OnPacket(w.calls[c], c, i.p, w.nextTid, i.now), i.now);
  }

  /** A re-INVITE, a failure response and its ACK leave every earlier socket with the status
      and the global entry it had, and a newly offered socket TERMINATED and not in the global
      map. Only a socket that was TERMINATED before can have gained a global entry. */
  lemma RejectedReinviteRollsBack(w: World, c: nat, invite: Input, early: seq<Input>, failure: Input, late: seq<Input>,
                                  ack: Input, gone: set<nat>)
    requires IsCourse(w, c, invite, early, failure, late, gone) && failure.p.IsNonSuccess()
    requires Own(AfterFinal(w, invite, early, failure, late), c, ack.p) && ack.p.IsRequest(Ack)
    requires ack.p.branch == invite.p.branch
    ensures var r := Step(AfterFinal(w, invite, early, failure, late), ack.p, ack.now, ack.noRtp);
      InMap(r, c) && RolledBack(w.media, r.media, c, SdpSet(invite.p)) && Wedged(r.calls[c])
  {
    CourseReaches(w, c, invite, early, failure, late, gone);
    RefusalAcknowledged(w, AfterFinal(w, invite, early, failure, late), c, invite.p.Id(), SdpSet(invite.p), gone, ack);
  }

  lemma WedgedStaysWedged(call: CallData, c: nat, p: Packet, tid: nat, now: int)
    requires CallInv(call) && Wedged(call) && p.WellFormed()
    ensures Wedged(OnPacket(call, c, p, tid, now).call)
    ensures p.IsRequest(Invite) ==> OnPacket(call, c, p, tid, now) == Nothing(call)
  {
    OnPacketKeeps(call, c, p, tid, now);
  }

  lemma DoKeepsWedged(cfg: Config, s: System, a: Action, c: nat)
    requires SystemWf(s) && CallsInv(s.w) && c < |s.w.calls| && Wedged(s.w.calls[c])
    requires a.SipPacket? ==> a.p.WellFormed()
    ensures c < |Do(cfg, s, a).w.calls| && Wedged(Do(cfg, s, a).w.calls[c])
  {
    if a.SipPacket? {
      if Admits(s.w, a.p) && Target(s.w, a.p) == c {
        WedgedStaysWedged(s.w.calls[c], c, a.p, s.w.nextTid, s.now);
      }
    } else if a.Commit? && Enabled(s, a) {
      CommitOnlyErases(s.w, s.dog.temp);
    }
  }

  /** After a rejected re-INVITE the call refuses every INVITE, in every continuation. */
  lemma {:induction false} WedgedForever(cfg: Config, s: System, acts: seq<Action>, c: nat, p: Packet, now: int,
                                         noRtp: bool)
    requires SystemWf(s) && CallsInv(s.w) && c < |s.w.calls| && Wedged(s.w.calls[c])
    requires WellFormedPackets(acts) && p.WellFormed() && p.IsRequest(Invite)
    ensures var r := Run(cfg, s, acts).w;
      c < |r.calls| && Wedged(r.calls[c])
        && (InMap(r, c) && p.callId == r.calls[c].callId ==> Step(r, p, now, noRtp) == r)
    decreases |acts|
  {
    if acts == [] {
      if InMap(s.w, c) && p.callId == s.w.calls[c].callId && p.parses {
        WedgedStaysWedged(s.w.calls[c], c, p, s.w.nextTid, now);
        OwnStep(s.w, c, p, now, noRtp);
      }
    } else {
      DoKeepsWedged(cfg, s, acts[0], c);
      DoKeepsCalls(cfg, s, acts[0]);
      WedgedForever(cfg, Do(cfg, s, acts[0]), acts[1..], c, p, now, noRtp);
    }
  }

  // ---- a successful re-INVITE ----

  /** The packet is taken for the ACK on a success. */
  ghost predicate IsAckOnSuccess(call: CallData, p: Packet) {
    p.IsRequest(Ack) && p.sdp == None && MatchTransaction(call, p) == None
  }

  lemma AckOnSuccessOutcome(call: CallData, c: nat, p: Packet, tid: nat, now: int)
    requires IsAckOnSuccess(call, p)
    ensures var o := OnPacket(call, c, p, tid, now);
      if AckMatches(call.trans, p)
      then o.exit == Stay && o.settle == CommitSinks
        && o.call == call.(trans := call.trans - {FindInvite(call.trans).value} - {p.Id()})
      else o == Nothing(call)
  {
  }

  lemma CommitApplied(w0: World, w: World, c: nat, offered: set<SocketAddress>, gone: set<nat>, p: Packet, o: Outcome,
                      now: int)
    requires Unshared(w, gone) && InMap(w, c) && Offered(w0.media, w.media, c, offered) && Settled(w0.media, c)
    requires o.exit == Stay && o.settle == CommitSinks && o.call.callId == w.calls[c].callId && p.sdp == None
    requires forall s <- offered :: s in w0.media.calls[c].local ==> Status(w0.media, c, s) == RsConfirmed
    ensures var r := Apply(w, c, p, o, now);
      InMap(r, c) && Committed(w0.media, r.media, c, offered) && r.calls[c] == o.call
  {
    assert Agrees(w.media, c);
    CommitCommits(w0.media, w.media, c, offered);
  }

  /** The ACK commits the offer exactly if it matches the first INVITE transaction the call
      stores; otherwise nothing changes. */
  lemma SuccessAcknowledged(w0: World, w: World, c: nat, k: TransactionId, offered: set<SocketAddress>, gone: set<nat>,
                            i: Input)
    requires At(Accepted, w0, w, c, k, offered, gone) && Settled(w0.media, c)
    requires Own(w, c, i.p) && IsAckOnSuccess(w.calls[c], i.p)
    requires forall s <- offered :: s in w0.media.calls[c].local ==> Status(w0.media, c, s) == RsConfirmed
    ensures var r := Step(w, i.p, i.now, i.noRtp);
      InMap(r, c) && if AckMatches(w.calls[c].trans, i.p) then Committed(w0.media, r.media, c, offered) else r == w
  {
    OwnStep(w, c, i.p, i.now, i.noRtp);
    AckOnSuccessOutcome(w.calls[c], c, i.p, w.nextTid, i.now);
    if AckMatches(w.calls[c].trans, i.p) {
      CommitApplied(w0, w, c, offered, gone, i.p, OnPacket(w.calls[c], c, i.p, w.nextTid, i.now), i.now);
    } else {
      ApplyNothing(w, c, i.p, i.now);
    }
  }

  /** A re-INVITE, a success response and its ACK, with session descriptions in the first two
      only and none of their sockets TERMINATED before, leave exactly the offered sockets
      CONFIRMED and all others TERMINATED and gone from the global map, if the ACK matches the
      first INVITE transaction stored. If it does not, because the ACK of an earlier INVITE
      was not seen, the ACK changes nothing. */
  lemma SuccessfulReinviteCommits(w: World, c: nat, invite: Input, early: seq<Input>, success: Input, late: seq<Input>,
                                  ack: Input, gone: set<nat>)
    requires IsCourse(w, c, invite, early, success, late, gone) && success.p.IsSuccess()
    requires forall s <- SdpSet(invite.p) + SdpSet(success.p) ::
      s in w.media.calls[c].local ==> Status(w.media, c, s) == RsConfirmed
    requires var v := AfterFinal(w, invite, early, success, late); Own(v, c, ack.p) && IsAckOnSuccess(v.calls[c], ack.p)
    ensures var v := AfterFinal(w, invite, early, success, late);
      var r := Step(v, ack.p, ack.now, ack.noRtp);
      InMap(r, c) && if AckMatches(v.calls[c].trans, ack.p)
                     then Committed(w.media, r.media, c, SdpSet(invite.p) + SdpSet(success.p))
                     else r == v
  {
    CourseReaches(w, c, invite, early, success, late, gone);
    SuccessAcknowledged(w, AfterFinal(w, invite, early, success, late), c, invite.p.Id(), SdpSet(invite.p)
      + SdpSet(success.p), gone, ack);
  }

  // ---- when the call takes INVITEs again ----

  /** The guard of the handler is all that keeps an INVITE on a new branch from being stored. */
  lemma StoredIff(call: CallData, c: nat, p: Packet, tid: nat, now: int)
    requires p.WellFormed() && p.IsRequest(Invite) && p.Id() !in call.trans
    ensures p.Id() in OnPacket(call, c, p, tid, now).call.trans <==> !RefusesInvite(call)
  {
  }

  /** The ACK on the final response to the re-INVITE. */
  ghost predicate IsItsAck(call: CallData, invite: Packet, final: Packet, ack: Packet) {
    if final.IsSuccess() then IsAckOnSuccess(call, ack) else ack.IsRequest(Ack) && ack.branch == invite.branch
  }

  lemma StageDecides(w0: World, w: World, c: nat, k: TransactionId, offered: set<SocketAddress>, gone: set<nat>,
                     stage: Stage)
    requires stage != Pending && At(stage, w0, w, c, k, offered, gone)
    ensures InMap(w, c) && (RefusesInvite(w.calls[c]) <==> stage == Refused)
  {
  }

  lemma ItsAckKeepsIt(w0: World, w: World, c: nat, k: TransactionId, offered: set<SocketAddress>, gone: set<nat>,
                      stage: Stage, i: Input)
    requires stage != Pending && At(stage, w0, w, c, k, offered, gone) && Settled(w0.media, c)
    requires Own(w, c, i.p)
    requires if stage == Accepted then IsAckOnSuccess(w.calls[c], i.p) else i.p.IsRequest(Ack) && i.p.branch == k.branch
    ensures var r := Step(w, i.p, i.now, i.noRtp); InMap(r, c) && (RefusesInvite(r.calls[c]) <==> stage == Refused)
  {
    OwnStep(w, c, i.p, i.now, i.noRtp);
    if stage == Accepted {
      AckOnSuccessOutcome(w.calls[c], c, i.p, w.nextTid, i.now);
      assert Follows(w.calls[c], OnPacket(w.calls[c], c, i.p, w.nextTid, i.now));
    } else {
      RefusalAcknowledged(w0, w, c, k, offered, gone, i);
    }
  }

  /** After a re-INVITE, once its final response was seen, and also after the ACK, the call
      takes further INVITEs if and only if the response was a success. */
  lemma ReopensIff(w: World, c: nat, invite: Input, early: seq<Input>, final: Input, late: seq<Input>, ack: Input,
                   gone: set<nat>)
    requires IsCourse(w, c, invite, early, final, late, gone)
    requires var v := AfterFinal(w, invite, early, final, late);
      Own(v, c, ack.p) && IsItsAck(v.calls[c], invite.p, final.p, ack.p)
    ensures var v := AfterFinal(w, invite, early, final, late);
      var r := Step(v, ack.p, ack.now, ack.noRtp);
      && InMap(v, c) && (RefusesInvite(v.calls[c]) <==> !final.p.IsSuccess())
      && InMap(r, c) && (RefusesInvite(r.calls[c]) <==> !final.p.IsSuccess())
  {
    CourseReaches(w, c, invite, early, final, late, gone);
    StageDecides(w, AfterFinal(w, invite, early, final, late), c, invite.p.Id(), OfferedBy(invite.p, final.p), gone,
      Reached(final.p));
    ItsAckKeepsIt(w, AfterFinal(w, invite, early, final, late), c, invite.p.Id(), OfferedBy(invite.p, final.p), gone,
      Reached(final.p), ack);
  }
}
