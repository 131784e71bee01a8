/**
 The events of one INVITE transaction form a well-shaped trace in its caller's list, and a
 call yields at most one BYE event with a final response (src/sip/Transaction.hpp).
 */
module EventTraces {
  import opened SipTypes
  import opened Signalling
  import opened SipMachine
  import opened SystemModel
  import opened CallInvariant
  import opened CallPhases
  import opened Reachable

  /** The last INVITE event of the transaction in the list. */
  function Last(es: seq<Event>, tid: nat): Option<Event> {
    if es == [] then None
    else if es[|es| - 1].InviteEvent? && es[|es| - 1].tid == tid then Some(es[|es| - 1])
    else Last(es[..|es| - 1], tid)
  }

  /** An event that may come after `e`: e is not acknowledged, its final code and its cancel
      flag are kept. */
  predicate MayFollow(e: Event, e': Event)
    requires e.InviteEvent? && e'.InviteEvent?
  {
    !e.ack && (e.code != 0 ==> e'.code == e.code) && (e.cancel ==> e'.cancel)
  }

  predicate IsFirst(e: Event)
    requires e.InviteEvent?
  {
    e.code == 0 && !e.ack && !e.cancel
  }

  predicate Fits(es: seq<Event>, e: Event) {
    e.InviteEvent? ==>
      match Last(es, e.tid)
      case None => IsFirst(e)
      case Some(l) => l.InviteEvent? && MayFollow(l, e)
  }

  /** Every INVITE event starts the trace of its transaction or fits its last event. */
  predicate Shaped(es: seq<Event>) {
    es == [] || (Shaped(es[..|es| - 1]) && Fits(es[..|es| - 1], es[|es| - 1]))
  }

  lemma LastAppend(es: seq<Event>, e: Event, tid: nat)
    ensures Last(es + [e], tid) == if e.InviteEvent? && e.tid == tid then Some(e) else Last(es, tid)
  {
    assert (es + [e])[..|es|] == es;
  }

  lemma ShapedAppend(es: seq<Event>, e: Event)
    ensures Shaped(es + [e]) <==> Shaped(es) && Fits(es, e)
  {
    assert (es + [e])[..|es|] == es;
  }

  lemma {:induction false} LastIsAnEvent(es: seq<Event>, tid: nat)
    ensures var l := Last(es, tid);
      if l.Some? then l.value.InviteEvent? && l.value.tid == tid && l.value in es
      else forall i | 0 <= i < |es| && es[i].InviteEvent? :: es[i].tid != tid
    decreases |es|
  {
    if es != [] {
      LastIsAnEvent(es[..|es| - 1], tid);
    }
  }

  lemma {:induction false} PrefixShaped(es: seq<Event>, n: nat)
    requires Shaped(es) && n <= |es|
    ensures Shaped(es[..n])
    decreases |es|
  {
    if n < |es| {
      PrefixShaped(es[..|es| - 1], n);
      assert es[..|es| - 1][..n] == es[..n];
    } else {
      assert es[..n] == es;
    }
  }

  /** The last event of a transaction is the given one or may follow it. */
  lemma {:induction false} LastFollows(es: seq<Event>, i: nat)
    requires Shaped(es) && i < |es| && es[i].InviteEvent?
    ensures var l := Last(es, es[i].tid);
      l.Some? && l.value.InviteEvent? && l.value.tid == es[i].tid && (es[i] == l.value || MayFollow(es[i], l.value))
    decreases |es|
  {
    var n := |es| - 1;
    if i < n {
      LastFollows(es[..n], i);
    }
  }

  /** What a shaped list means for any two INVITE events of one transaction: the final code
      is set at most once; the cancel flag never goes back; and an acknowledged event is the
      last of its transaction, so there is at most one. */
  lemma PairFollows(es: seq<Event>, i: nat, j: nat)
    requires Shaped(es) && i < j < |es| && es[i].InviteEvent? && es[j].InviteEvent? && es[i].tid == es[j].tid
    ensures MayFollow(es[i], es[j])
  {
    PrefixShaped(es, j + 1);
    assert es[..j + 1][..j] == es[..j];
    LastFollows(es[..j], i);
  }

  /** And for the first one: code 0, and neither acknowledged nor cancelled. */
  lemma FirstIsFirst(es: seq<Event>, j: nat)
    requires Shaped(es) && j < |es| && es[j].InviteEvent?
    requires forall i | 0 <= i < j && es[i].InviteEvent? :: es[i].tid != es[j].tid
    ensures IsFirst(es[j])
  {
    PrefixShaped(es, j + 1);
    assert es[..j + 1][..j] == es[..j];
    LastIsAnEvent(es[..j], es[j].tid);
  }

  // ---- what a handler pushes ----

  /** The event shows the state of the transaction. */
  predicate Shows(e: Event, t: TransactionData) {
    e.InviteEvent? && e.tid == t.tid && e.code == t.finalCode && e.cancel == t.cancelFlag && !e.ack
  }

  predicate SameTrace(t: TransactionData, t': TransactionData) {
    t'.tid == t.tid && t'.finalCode == t.finalCode && t'.cancelFlag == t.cancelFlag
  }

  /** The handler pushes no INVITE event. */
  ghost predicate Silent(call: CallData, tid: nat, o: Outcome) {
    && (forall i | 0 <= i < |o.events| :: !o.events[i].InviteEvent?)
    && (forall k <- o.call.trans :: if k in call.trans then SameTrace(call.trans[k], o.call.trans[k])
                                    else k.cseqMethod != Invite && o.call.trans[k].tid == tid && o.newTids == 1)
  }

  /** The last event pushed, and the only INVITE event, is about transaction k. */
  ghost predicate Speaks(call: CallData, tid: nat, o: Outcome, k: TransactionId) {
    && |o.events| >= 1 && (forall i | 0 <= i < |o.events| - 1 :: !o.events[i].InviteEvent?)
    && k.cseqMethod == Invite
    && var e := o.events[|o.events| - 1];
    && e.InviteEvent?
    && (if k in call.trans
        then e.tid == call.trans[k].tid
             && (call.trans[k].finalCode != 0 ==> e.code == call.trans[k].finalCode)
             && (call.trans[k].cancelFlag ==> e.cancel)
        else k in o.call.trans && e.tid == tid && o.newTids == 1 && IsFirst(e))
    && (k in o.call.trans ==> Shows(e, o.call.trans[k]))
    && (forall x <- o.call.trans | x != k ::
          if x in call.trans then SameTrace(call.trans[x], o.call.trans[x])
          else x.cseqMethod != Invite && k in call.trans && o.call.trans[x].tid == tid && o.newTids == 1)
  }

  ghost predicate Told(call: CallData, tid: nat, o: Outcome) {
    && (forall x, y | x in o.call.trans && y in o.call.trans && x !in call.trans && y !in call.trans :: x == y)
    && (Silent(call, tid, o) || exists k :: Speaks(call, tid, o, k))
    && ((exists k <- call.trans :: k.cseqMethod == Invite) ==> o.call.dialog.caller == call.dialog.caller)
  }

  lemma OnInviteTold(call: CallData, c: nat, p: Packet, tid: nat, now: int)
    requires CallInv(call) && p.cseqMethod == Invite && p.Id() !in call.trans
    ensures Told(call, tid, OnInvite(call, c, p, tid, now))
  {
    var o := OnInvite(call, c, p, tid, now);
    if RefusesInvite(call) {
      assert Silent(call, tid, o);
    } else {
      assert Speaks(call, tid, o, p.Id());
    }
  }

  lemma OnPlainRequestTold(call: CallData, c: nat, p: Packet, tid: nat, now: int)
    requires CallInv(call) && p.cseqMethod in {Bye, Options}
    ensures Told(call, tid, OnPlainRequest(call, c, p, tid, now))
  {
    assert Silent(call, tid, OnPlainRequest(call, c, p, tid, now));
  }

  lemma OnCancelTold(call: CallData, c: nat, p: Packet, tid: nat, now: int)
    requires CallInv(call) && p.cseqMethod == Cancel
    ensures Told(call, tid, OnCancel(call, c, p, tid, now))
  {
    var o := OnCancel(call, c, p, tid, now);
    var k := TransactionId(p.branch, Invite);
    if k !in call.trans || p.sentBy != call.trans[k].sentBy {
      assert Silent(call, tid, o);
    } else {
      assert Speaks(call, tid, o, k);
    }
  }

  lemma OnAckTold(call: CallData, c: nat, p: Packet, tid: nat, now: int)
    requires CallInv(call)
    ensures Told(call, tid, OnAckOnSuccess(call, c, p, now))
  {
    var o := OnAckOnSuccess(call, c, p, now);
    if o.events == [] {
      assert Silent(call, tid, o);
    } else {
      assert Speaks(call, tid, o, FindInvite(call.trans).value);
    }
  }

  lemma OnAckOnNonSuccessTold(call: CallData, c: nat, k: TransactionId, tid: nat, now: int)
    requires CallInv(call) && k in call.trans
    ensures Told(call, tid, OnAckOnNonSuccess(call, c, k, now))
  {
    var o := OnAckOnNonSuccess(call, c, k, now);
    if o.events == [] {
      assert Silent(call, tid, o);
    } else {
      assert Speaks(call, tid, o, k);
    }
  }

  lemma OnProvisionalTold(call: CallData, k: TransactionId, p: Packet, tid: nat)
    requires k in call.trans
    ensures Told(call, tid, OnProvisionalOnInvite(call, k, p))
  {
    var o := OnProvisionalOnInvite(call, k, p);
    if InviteIsPending(call.trans[k].state) {
      assert o.call.trans == call.trans[k := call.trans[k].(state := PROCEEDING_PROCEEDING)];
      assert o.events == [] && o.call.dialog.caller == call.dialog.caller;
    }
    assert Silent(call, tid, o);
  }

  lemma OnSuccessTold(call: CallData, c: nat, k: TransactionId, p: Packet, tid: nat, now: int)
    requires CallInv(call) && k in call.trans && k.cseqMethod == Invite
    ensures Told(call, tid, OnSuccessOnInvite(call, c, k, p, now))
  {
    if InviteIsPending(call.trans[k].state) {
      assert Speaks(call, tid, OnSuccessOnInvite(call, c, k, p, now), k);
    } else {
      assert Silent(call, tid, Nothing(call));
    }
  }

  lemma OnNonSuccessTold(call: CallData, c: nat, k: TransactionId, p: Packet, tid: nat, now: int)
    requires CallInv(call) && k in call.trans && k.cseqMethod == Invite
    ensures Told(call, tid, OnNonSuccessOnInvite(call, c, k, p, now))
  {
    if InviteIsPending(call.trans[k].state) {
      assert Speaks(call, tid, OnNonSuccessOnInvite(call, c, k, p, now), k);
    } else {
      assert Silent(call, tid, Nothing(call));
    }
  }

  lemma OnPlainResponseTold(call: CallData, c: nat, k: TransactionId, p: Packet, tid: nat, now: int, leaves: bool)
    requires CallInv(call) && k in call.trans && k.cseqMethod != Invite
    ensures Told(call, tid, OnPlainResponse(call, c, k, p, now, leaves))
  {
    assert Silent(call, tid, OnPlainResponse(call, c, k, p, now, leaves));
  }

  lemma NothingTold(call: CallData, tid: nat)
    ensures Told(call, tid, Nothing(call))
  {
    assert Silent(call, tid, Nothing(call));
  }

  lemma OnResponseTold(call: CallData, c: nat, k: TransactionId, p: Packet, tid: nat, now: int)
    requires CallInv(call) && k in call.trans
    ensures Told(call, tid, OnResponse(call, c, k, p, now))
  {
    NothingTold(call, tid);
    if k.cseqMethod == Invite {
      if p.IsProvisional() {
        OnProvisionalTold(call, k, p, tid);
      } else if p.IsSuccess() {
        OnSuccessTold(call, c, k, p, tid, now);
      } else {
        OnNonSuccessTold(call, c, k, p, tid, now);
      }
    } else {
      OnPlainResponseTold(call, c, k, p, tid, now, k.cseqMethod == Bye);
    }
  }

  lemma OnInitialRequestTold(call: CallData, c: nat, p: Packet, tid: nat, now: int)
    requires CallInv(call) && p.requestMethod == p.cseqMethod && p.Id() !in call.trans
    ensures Told(call, tid, OnInitialRequest(call, c, p, tid, now))
  {
    assert Silent(call, tid, Nothing(call));
    match p.requestMethod
    case Invite => OnInviteTold(call, c, p, tid, now);
    case Cancel => OnCancelTold(call, c, p, tid, now);
    case Ack => OnAckTold(call, c, p, tid, now);
    case Bye => OnPlainRequestTold(call, c, p, tid, now);
    case Options => OnPlainRequestTold(call, c, p, tid, now);
    case _ =>
  }

  lemma OnPacketTold(call: CallData, c: nat, p: Packet, tid: nat, now: int)
    requires CallInv(call) && p.WellFormed()
    ensures Told(call, tid, OnPacket(call, c, p, tid, now))
  {
    assert Silent(call, tid, Nothing(call));
    match MatchTransaction(call, p)
    case Some(k) =>
      OnAckOnNonSuccessTold(call, c, k, tid, now);
      OnResponseTold(call, c, k, p, tid, now);
    case None =>
      if p.kind == Request {
        OnInitialRequestTold(call, c, p, tid, now);
      }
  }

  // ---- the event lists ----

  /** The INVITE event among those pushed, if there is one. */
  function Spoken(events: seq<Event>): Option<Event> {
    if events != [] && events[|events| - 1].InviteEvent? then Some(events[|events| - 1]) else None
  }

  predicate OnlyLastIsInvite(events: seq<Event>) {
    forall i | 0 <= i < |events| - 1 :: !events[i].InviteEvent?
  }

  lemma {:induction false} PushPlain(es: seq<Event>, events: seq<Event>)
    requires forall i | 0 <= i < |events| :: !events[i].InviteEvent?
    ensures Shaped(es + events) <==> Shaped(es)
    ensures forall x: nat :: Last(es + events, x) == Last(es, x)
    decreases |events|
  {
    if events == [] {
      assert es + events == es;
    } else {
      var n := |events| - 1;
      PushPlain(es, events[..n]);
      assert es + events == (es + events[..n]) + [events[n]];
      ShapedAppend(es + events[..n], events[n]);
      forall x: nat ensures Last(es + events, x) == Last(es, x) { LastAppend(es + events[..n], events[n], x); }
    }
  }

  lemma PushEvents(es: seq<Event>, events: seq<Event>)
    requires OnlyLastIsInvite(events)
    ensures Shaped(es) && (Spoken(events).Some? ==> Fits(es, Spoken(events).value)) ==> Shaped(es + events)
    ensures forall x: nat ::
      Last(es + events, x) ==
        (if Spoken(events).Some? && Spoken(events).value.tid == x then Spoken(events) else Last(es, x))
  {
    if Spoken(events).Some? {
      var n := |events| - 1;
      PushPlain(es, events[..n]);
      assert es + events == (es + events[..n]) + [events[n]];
      ShapedAppend(es + events[..n], events[n]);
      forall x: nat ensures Last(es + events, x) == if events[n].tid == x then Some(events[n]) else Last(es, x) {
        LastAppend(es + events[..n], events[n], x);
      }
    } else {
      PushPlain(es, events);
    }
  }

  ghost predicate TidsInv(w: World) {
    Numbered(w.calls, w.nextTid)
  }

  /** The stored transactions have numbers of their own, below `next`. */
  ghost predicate Numbered(calls: seq<CallData>, next: nat) {
    && (forall c, k | 0 <= c < |calls| && k in calls[c].trans :: calls[c].trans[k].tid < next)
    && (forall c, k, c', k' | 0 <= c < |calls| && k in calls[c].trans && 0 <= c' < |calls| && k' in calls[c'].trans
          && calls[c].trans[k].tid == calls[c'].trans[k'].tid :: c == c' && k == k')
  }

  lemma StaysNumbered(calls: seq<CallData>, next: nat, c: nat, call: CallData, newTids: nat)
    requires Numbered(calls, next) && c < |calls|
    requires forall k <- call.trans :: if k in calls[c].trans then call.trans[k].tid == calls[c].trans[k].tid
                                       else call.trans[k].tid == next && newTids == 1
    requires forall x, y | x in call.trans && y in call.trans && x !in calls[c].trans && y !in calls[c].trans :: x == y
    ensures Numbered(calls[c := call], next + newTids)
  {
  }

  /** The events of a stored INVITE transaction are in the list of its caller, and the last
      one shows its state. */
  ghost predicate Linked(w: World, call: CallData, t: TransactionData) {
    && (var l := Last(EventList(w, call.dialog.caller.address), t.tid); l.Some? && Shows(l.value, t))
    && (forall a: string :: a != call.dialog.caller.address ==> Last(EventList(w, a), t.tid) == None)
  }

  ghost predicate ListsInv(w: World) {
    && (forall a: string :: Shaped(EventList(w, a)))
    && (forall a: string, x: nat :: x >= w.nextTid ==> Last(EventList(w, a), x) == None)
    && (forall a: string, b: string, x: nat ::
      a != b ==> Last(EventList(w, a), x) == None || Last(EventList(w, b), x) == None)
  }

  ghost predicate TraceInv(w: World) {
    && TidsInv(w) && ListsInv(w)
    && (forall c, k | 0 <= c < |w.calls| && k in w.calls[c].trans && k.cseqMethod == Invite ::
          Linked(w, w.calls[c], w.calls[c].trans[k]))
  }

  lemma ApplyKeepsTids(w: World, c: nat, p: Packet, o: Outcome, now: int)
    requires TidsInv(w) && c < |w.calls| == |w.media.calls| && Told(w.calls[c], w.nextTid, o)
    ensures TidsInv(Apply(w, c, p, o, now))
  {
    var call := w.calls[c];
    assert forall k <- o.call.trans ::
      if k in call.trans then o.call.trans[k].tid == call.trans[k].tid
      else o.call.trans[k].tid == w.nextTid && o.newTids == 1;
    StaysNumbered(w.calls, w.nextTid, c, o.call, o.newTids);
  }

  /** From w to r the INVITE event e, if any, was pushed to the list of a0. */
  ghost predicate Says(w: World, r: World, a0: string, e: Option<Event>) {
    && (e.Some? ==> e.value.InviteEvent?)
    && (forall a: string, x: nat :: Last(EventList(r, a), x) ==
          if a == a0 && e.Some? && e.value.tid == x then e else Last(EventList(w, a), x))
    && (forall a: string :: Shaped(EventList(w, a)) && (a == a0 && e.Some? ==> Fits(EventList(w, a), e.value))
          ==> Shaped(EventList(r, a)))
  }

  /** An event that fits and whose transaction no other list knows keeps the lists in order. */
  lemma SayingKeepsLists(w: World, r: World, a0: string, e: Option<Event>)
    requires ListsInv(w) && Says(w, r, a0, e) && w.nextTid <= r.nextTid
    requires e.Some? ==> Fits(EventList(w, a0), e.value) && e.value.tid < r.nextTid
                         && forall a: string :: a != a0 ==> Last(EventList(w, a), e.value.tid) == None
    ensures ListsInv(r)
  {
  }

  /** The lists after the push, seen through Last. */
  lemma ApplyPushes(w: World, c: nat, p: Packet, o: Outcome, now: int)
    requires c < |w.calls| == |w.media.calls| && OnlyLastIsInvite(o.events)
    ensures Says(w, Apply(w, c, p, o, now), o.call.dialog.caller.address, Spoken(o.events))
  {
    var r, a0 := Apply(w, c, p, o, now), o.call.dialog.caller.address;
    PushEvents(EventList(w, a0), o.events);
    assert EventList(r, a0) == EventList(w, a0) + o.events;
    assert forall a: string :: a != a0 ==> EventList(r, a) == EventList(w, a);
  }

  lemma ToldIsLast(call: CallData, tid: nat, o: Outcome)
    requires Told(call, tid, o)
    ensures OnlyLastIsInvite(o.events)
  {
  }

  /** What a handler says fits. */
  lemma SpokenFits(w: World, c: nat, o: Outcome, k: TransactionId)
    requires TraceInv(w) && c < |w.calls| && Told(w.calls[c], w.nextTid, o) && Speaks(w.calls[c], w.nextTid, o, k)
    ensures var e, a0 := Spoken(o.events), o.call.dialog.caller.address;
      && e.Some? && e.value.InviteEvent? && Fits(EventList(w, a0), e.value) && e.value.tid < w.nextTid + o.newTids
      && forall a: string :: a != a0 ==> Last(EventList(w, a), e.value.tid) == None
  {
    var call := w.calls[c];
    if k in call.trans {
      assert Linked(w, call, call.trans[k]);
      assert call.trans[k].tid < w.nextTid;
    }
  }

  lemma SilentSaysNothing(call: CallData, tid: nat, o: Outcome)
    requires Silent(call, tid, o)
    ensures Spoken(o.events) == None
  {
  }

  lemma ApplyKeepsLists(w: World, c: nat, p: Packet, o: Outcome, now: int)
    requires TraceInv(w) && c < |w.calls| == |w.media.calls| && Told(w.calls[c], w.nextTid, o)
    ensures ListsInv(Apply(w, c, p, o, now))
  {
    ToldIsLast(w.calls[c], w.nextTid, o);
    ApplyPushes(w, c, p, o, now);
    if k :| Speaks(w.calls[c], w.nextTid, o, k) {
      SpokenFits(w, c, o, k);
    } else {
      SilentSaysNothing(w.calls[c], w.nextTid, o);
    }
    SayingKeepsLists(w, Apply(w, c, p, o, now), o.call.dialog.caller.address, Spoken(o.events));
  }

  lemma ApplyKeepsLinks(w: World, c: nat, p: Packet, o: Outcome, now: int)
    requires TraceInv(w) && c < |w.calls| == |w.media.calls| && Told(w.calls[c], w.nextTid, o)
    ensures var r := Apply(w, c, p, o, now);
      forall d, k | 0 <= d < |r.calls| && k in r.calls[d].trans && k.cseqMethod == Invite ::
        Linked(r, r.calls[d], r.calls[d].trans[k])
  {
    ToldIsLast(w.calls[c], w.nextTid, o);
    ApplyPushes(w, c, p, o, now);
    var r := Apply(w, c, p, o, now);
    forall d, k | 0 <= d < |r.calls| && k in r.calls[d].trans && k.cseqMethod == Invite
      ensures Linked(r, r.calls[d], r.calls[d].trans[k])
    {
      if d != c || k in w.calls[c].trans {
        assert Linked(w, w.calls[d], w.calls[d].trans[k]);
      }
    }
  }

  lemma CreateKeepsTraces(w: World, p: Packet, now: int, noRtp: bool)
    requires TraceInv(w)
    ensures TraceInv(Create(w, p, now, noRtp))
  {
    var v := Create(w, p, now, noRtp);
    assert forall a: string :: EventList(v, a) == EventList(w, a);
    forall c, k | 0 <= c < |v.calls| && k in v.calls[c].trans && k.cseqMethod == Invite
      ensures Linked(v, v.calls[c], v.calls[c].trans[k])
    {
      assert Linked(w, w.calls[c], w.calls[c].trans[k]);
    }
  }

  lemma StepKeepsTraces(w: World, p: Packet, now: int, noRtp: bool)
    requires CallsInv(w) && TraceInv(w) && p.WellFormed()
    ensures TraceInv(Step(w, p, now, noRtp))
  {
    if Admits(w, p) {
      var v, c := Admit(w, p, now, noRtp), Target(w, p);
      AdmitKeepsCalls(w, p, now, noRtp);
      if CreatesCall(w, p) {
        CreateKeepsTraces(w, p, now, noRtp);
      }
      var o := OnPacket(v.calls[c], c, p, v.nextTid, now);
      OnPacketTold(v.calls[c], c, p, v.nextTid, now);
      ApplyKeepsTids(v, c, p, o, now);
      ApplyKeepsLists(v, c, p, o, now);
      ApplyKeepsLinks(v, c, p, o, now);
    }
  }

  // ---- BYE events ----

  /** A BYE event with a final response; the call it is about is not in the map any more. */
  predicate FinalBye(e: Event) {
    e.ByeEvent? && e.code != 0
  }

  ghost predicate ByesInv(w: World) {
    && (forall a <- w.events, i | 0 <= i < |w.events[a]| && FinalBye(w.events[a][i]) ::
          w.events[a][i].call < |w.calls| && !InMap(w, w.events[a][i].call))
    && (forall a, b, i, j | a in w.events && b in w.events && 0 <= i < |w.events[a]| && 0 <= j < |w.events[b]|
          && FinalBye(w.events[a][i]) && FinalBye(w.events[b][j]) && w.events[a][i].call == w.events[b][j].call ::
          a == b && i == j)
  }

  /** A handler pushes at most one final BYE event, alone, about its own call, and then the
      call is handed to the decoder. */
  ghost predicate ByesLeave(c: nat, o: Outcome) {
    forall i | 0 <= i < |o.events| && FinalBye(o.events[i]) ::
      |o.events| == 1 && o.events[i].call == c && o.exit == HandOff
  }

  lemma OnPacketByes(call: CallData, c: nat, p: Packet, tid: nat, now: int)
    requires CallInv(call) && p.WellFormed()
    ensures ByesLeave(c, OnPacket(call, c, p, tid, now))
  {
    assert ByesLeave(c, Nothing(call));
    match MatchTransaction(call, p)
    case Some(k) =>
      assert call.trans[k].id == k;
      assert ByesLeave(c, OnAckOnNonSuccess(call, c, k, now));
      OnResponseByes(call, c, k, p, now);
    case None =>
      if p.kind == Request { OnInitialRequestByes(call, c, p, tid, now); }
  }

  lemma OnResponseByes(call: CallData, c: nat, k: TransactionId, p: Packet, now: int)
    requires CallInv(call) && k in call.trans
    ensures ByesLeave(c, OnResponse(call, c, k, p, now))
  {
    assert call.trans[k].id == k;
  }

  lemma OnInitialRequestByes(call: CallData, c: nat, p: Packet, tid: nat, now: int)
    requires CallInv(call) && p.requestMethod == p.cseqMethod
    ensures ByesLeave(c, OnInitialRequest(call, c, p, tid, now))
  {
    NoByes(call, c, p, tid, now);
    if p.requestMethod == Cancel {
      CancelIsNoBye(call, c, p, tid, now);
    } else if p.requestMethod == Ack {
      AckIsNoBye(call, c, p, now);
    }
  }

  lemma NoByes(call: CallData, c: nat, p: Packet, tid: nat, now: int)
    ensures ByesLeave(c, Nothing(call)) && ByesLeave(c, OnPlainRequest(call, c, p, tid, now))
    ensures p.cseqMethod == Invite ==> ByesLeave(c, OnInvite(call, c, p, tid, now))
  {
  }

  lemma CancelIsNoBye(call: CallData, c: nat, p: Packet, tid: nat, now: int)
    requires CallInv(call) && p.cseqMethod == Cancel
    ensures ByesLeave(c, OnCancel(call, c, p, tid, now))
  {
    var k := TransactionId(p.branch, Invite);
    if k in call.trans { assert call.trans[k].id == k; }
  }

  lemma AckIsNoBye(call: CallData, c: nat, p: Packet, now: int)
    requires CallInv(call)
    ensures ByesLeave(c, OnAckOnSuccess(call, c, p, now))
  {
    var k := FindInvite(call.trans);
    if k.Some? { assert call.trans[k.value].id == k.value; }
  }

  lemma ApplyKeepsByes(w: World, c: nat, p: Packet, o: Outcome, now: int)
    requires ByesInv(w) && |w.media.calls| == |w.calls| && InMap(w, c)
    requires w.calls[c].callId == p.callId == o.call.callId && ByesLeave(c, o)
    ensures ByesInv(Apply(w, c, p, o, now))
  {
    var r, a0 := Apply(w, c, p, o, now), o.call.dialog.caller.address;
    assert EventList(r, a0) == EventList(w, a0) + o.events;
    assert forall d: nat :: InMap(r, d) ==> InMap(w, d);
  }

  lemma CreateKeepsByes(w: World, p: Packet, now: int, noRtp: bool)
    requires ByesInv(w) && CreatesCall(w, p)
    ensures ByesInv(Create(w, p, now, noRtp))
  {
    var v := Create(w, p, now, noRtp);
    assert forall d | 0 <= d < |w.calls| :: InMap(v, d) ==> InMap(w, d);
  }

  lemma DispatchKeepsByes(w: World, c: nat, p: Packet, now: int)
    requires CallsInv(w) && ByesInv(w) && p.WellFormed() && |w.media.calls| == |w.calls|
    requires InMap(w, c) && w.calls[c].callId == p.callId
    ensures ByesInv(Dispatch(w, c, p, now))
  {
    var o := OnPacket(w.calls[c], c, p, w.nextTid, now);
    OnPacketByes(w.calls[c], c, p, w.nextTid, now);
    assert Follows(w.calls[c], o);
    ApplyKeepsByes(w, c, p, o, now);
  }

  lemma AdmitKeepsByes(w: World, p: Packet, now: int, noRtp: bool)
    requires CallsInv(w) && ByesInv(w) && Admits(w, p)
    ensures var v := Admit(w, p, now, noRtp);
      CallsInv(v) && ByesInv(v) && |v.media.calls| == |v.calls| && InMap(v, Target(w, p))
        && v.calls[Target(w, p)].callId == p.callId
  {
    AdmitKeepsCalls(w, p, now, noRtp);
    if CreatesCall(w, p) {
      CreateKeepsByes(w, p, now, noRtp);
    }
  }

  lemma StepKeepsByes(w: World, p: Packet, now: int, noRtp: bool)
    requires CallsInv(w) && ByesInv(w) && p.WellFormed()
    ensures ByesInv(Step(w, p, now, noRtp))
  {
    if Admits(w, p) {
      AdmitKeepsByes(w, p, now, noRtp);
      DispatchKeepsByes(Admit(w, p, now, noRtp), Target(w, p), p, now);
    }
  }

  // ---- runs ----

  lemma SameEvents(w: World, r: World)
    requires TraceInv(w) && ByesInv(w)
    requires r.calls == w.calls && r.events == w.events && r.nextTid == w.nextTid
    requires forall d: nat :: InMap(r, d) ==> InMap(w, d)
    ensures TraceInv(r) && ByesInv(r)
  {
    assert forall a: string :: EventList(r, a) == EventList(w, a);
    forall c, k | 0 <= c < |r.calls| && k in r.calls[c].trans && k.cseqMethod == Invite
      ensures Linked(r, r.calls[c], r.calls[c].trans[k])
    {
      assert Linked(w, w.calls[c], w.calls[c].trans[k]);
    }
  }

  lemma DoKeepsTraces(cfg: Config, s: System, a: Action)
    requires SystemWf(s) && CallsInv(s.w) && TraceInv(s.w) && ByesInv(s.w) && (a.SipPacket? ==> a.p.WellFormed())
    ensures TraceInv(Do(cfg, s, a).w) && ByesInv(Do(cfg, s, a).w)
  {
    if a.SipPacket? {
      StepKeepsTraces(s.w, a.p, s.now, a.noRtp);
      StepKeepsByes(s.w, a.p, s.now, a.noRtp);
    } else {
      if a.Commit? && Enabled(s, a) {
        CommitOnlyErases(s.w, s.dog.temp);
      }
      SameEvents(s.w, Do(cfg, s, a).w);
    }
  }

  lemma {:induction false} RunKeepsTraces(cfg: Config, s: System, acts: seq<Action>)
    requires SystemWf(s) && CallsInv(s.w) && TraceInv(s.w) && ByesInv(s.w) && WellFormedPackets(acts)
    ensures TraceInv(Run(cfg, s, acts).w) && ByesInv(Run(cfg, s, acts).w)
    decreases |acts|
  {
    if acts != [] {
      DoKeepsTraces(cfg, s, acts[0]);
      DoKeepsCalls(cfg, s, acts[0]);
      RunKeepsTraces(cfg, Do(cfg, s, acts[0]), acts[1..]);
    }
  }

  lemma ListIsShaped(events: seq<Event>)
    requires Shaped(events)
    ensures forall i, j | 0 <= i < j < |events| ::
      events[i].InviteEvent? && events[j].InviteEvent? && events[i].tid == events[j].tid ==>
        MayFollow(events[i], events[j])
    ensures forall j | 0 <= j < |events| && events[j].InviteEvent? ::
      (forall i | 0 <= i < j && events[i].InviteEvent? :: events[i].tid != events[j].tid) ==> IsFirst(events[j])
  {
    forall i, j | 0 <= i < j < |events| && events[i].InviteEvent? && events[j].InviteEvent?
      && events[i].tid == events[j].tid
      ensures MayFollow(events[i], events[j])
    {
      PairFollows(events, i, j);
    }
    forall j | 0 <= j < |events| && events[j].InviteEvent?
               && (forall i | 0 <= i < j && events[i].InviteEvent? :: events[i].tid != events[j].tid)
      ensures IsFirst(events[j])
    {
      FirstIsFirst(events, j);
    }
  }

  /** The INVITE events of a transaction are in one list. */
  lemma OneListEach(w: World, a: string, b: string, i: nat, j: nat)
    requires ListsInv(w) && a in w.events && b in w.events && i < |w.events[a]| && j < |w.events[b]|
    requires w.events[a][i].InviteEvent? && w.events[b][j].InviteEvent? && w.events[a][i].tid == w.events[b][j].tid
    ensures a == b
  {
    LastIsAnEvent(w.events[a], w.events[a][i].tid);
    LastIsAnEvent(w.events[b], w.events[b][j].tid);
    assert EventList(w, a) == w.events[a] && EventList(w, b) == w.events[b];
  }

  /** The INVITE events of one transaction, in whatever state is reached: they are in one
      caller's list; the first has code 0 and is neither acknowledged nor cancelled; a final
      code once set stays; the cancel flag never goes back; an acknowledged event is the
      last. And a call has at most one BYE event with a final response. */
  lemma {:induction false} TracesAreShaped(cfg: Config, acts: seq<Action>)
    requires WellFormedPackets(acts)
    ensures var events := Run(cfg, START, acts).w.events;
      && (forall a <- events, i, j | 0 <= i < j < |events[a]| ::
            events[a][i].InviteEvent? && events[a][j].InviteEvent? && events[a][i].tid == events[a][j].tid ==>
              MayFollow(events[a][i], events[a][j]))
      && (forall a <- events, j | 0 <= j < |events[a]| && events[a][j].InviteEvent? ::
            (forall i | 0 <= i < j && events[a][i].InviteEvent? :: events[a][i].tid != events[a][j].tid) ==>
              IsFirst(events[a][j]))
      && (forall a, b, i, j | a in events && b in events && 0 <= i < |events[a]| && 0 <= j < |events[b]| ::
            events[a][i].InviteEvent? && events[b][j].InviteEvent? && events[a][i].tid == events[b][j].tid ==> a == b)
      && (forall a, b, i, j | a in events && b in events && 0 <= i < |events[a]| && 0 <= j < |events[b]| ::
            FinalBye(events[a][i]) && FinalBye(events[b][j]) && events[a][i].call == events[b][j].call ==>
              a == b && i == j)
  {
    RunKeepsTraces(cfg, START, acts);
    var w := Run(cfg, START, acts).w;
    forall a <- w.events ensures Shaped(w.events[a]) {
      assert Shaped(EventList(w, a));
    }
    forall a <- w.events, i, j | 0 <= i < j < |w.events[a]|
      ensures w.events[a][i].InviteEvent? && w.events[a][j].InviteEvent? && w.events[a][i].tid == w.events[a][j].tid ==>
        MayFollow(w.events[a][i], w.events[a][j])
    {
      ListIsShaped(w.events[a]);
    }
    forall a <- w.events, j | 0 <= j < |w.events[a]| && w.events[a][j].InviteEvent?
      ensures (forall i | 0 <= i < j && w.events[a][i].InviteEvent? :: w.events[a][i].tid != w.events[a][j].tid) ==>
        IsFirst(w.events[a][j])
    {
      ListIsShaped(w.events[a]);
    }
    forall a, b, i, j | a in w.events && b in w.events && 0 <= i < |w.events[a]| && 0 <= j < |w.events[b]|
      ensures w.events[a][i].InviteEvent? && w.events[b][j].InviteEvent? && w.events[a][i].tid == w.events[b][j].tid ==>
        a == b
    {
      if w.events[a][i].InviteEvent? && w.events[b][j].InviteEvent? && w.events[a][i].tid == w.events[b][j].tid {
        OneListEach(w, a, b, i, j);
      }
    }
  }
}
