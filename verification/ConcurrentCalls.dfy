/**
 The concurrent-calls sweep (src/sba/SigBasedAna.cpp) over the events the SIP core makes. In
 runs without reuse of Call-IDs every window ends each call at most once, so its result is
 right exactly if repeated starts do not carry the load beyond the greatest number of calls up;
 in runs without re-INVITEs no start is repeated.
 */
module ConcurrentCalls {
  import opened SipTypes
  import opened Signalling
  import opened SipMachine
  import opened SystemModel
  import opened CallInvariant
  import opened CallPhases
  import opened Reachable
  import opened HandOver
  import opened EventTraces
  import opened Completion
  import opened Analyser
  import Causes

  /** The event starts or ends a call for the sweep. */
  predicate Marks(e: Event) { Starts(e) || Ends(e) }

  ghost predicate OneInvite(call: CallData) {
    forall k, k' | k in call.trans && k' in call.trans && k.cseqMethod == Invite && k'.cseqMethod == Invite :: k == k'
  }

  /** The INVITE of the call is over. */
  ghost predicate Spent(call: CallData) {
    call.dialog.state != DsUndefined && forall k <- call.trans :: k.cseqMethod != Invite
  }

  /** No event but perhaps one starts or ends a call, which is call c. */
  ghost predicate MarksOnce(call: CallData, c: nat, es: seq<Event>) {
    && (forall i, j | 0 <= i < |es| && 0 <= j < |es| && Marks(es[i]) && Marks(es[j]) :: i == j)
    && (forall i | 0 <= i < |es| && Marks(es[i]) :: es[i].call == c && es[i].callId == call.callId)
  }

  /** A packet marks its own call at most once. If `once`, it keeps the call to one INVITE, which
      starts the call at most once, in the end. */
  ghost predicate MarksOwn(call: CallData, c: nat, o: Outcome, once: bool) {
    && MarksOnce(call, c, o.events)
    && (once ==>
          && OneInvite(o.call)
          && (Spent(call) ==> Spent(o.call) && forall i | 0 <= i < |o.events| :: !Starts(o.events[i]))
          && (forall i | 0 <= i < |o.events| && Starts(o.events[i]) :: Spent(o.call)))
  }

  lemma RequestMarksOwn(call: CallData, c: nat, p: Packet, tid: nat, now: int, once: bool)
    requires CallInv(call) && p.Id() !in call.trans && p.requestMethod == p.cseqMethod && p.requestMethod != Ack
    requires once ==> OneInvite(call) && (p.requestMethod == Invite ==> call.dialog.state != DsConfirmed)
    ensures MarksOwn(call, c, OnInitialRequest(call, c, p, tid, now), once)
  {
    assert MarksOwn(call, c, Nothing(call), once);
    if p.requestMethod == Invite {
      InviteMarksNone(call, c, p, tid, now, once);
    } else if p.requestMethod == Cancel {
      CancelMarksNone(call, c, p, tid, now, once);
    } else {
      PlainMarksNone(call, c, p, tid, now, once);
    }
  }

  lemma InviteMarksNone(call: CallData, c: nat, p: Packet, tid: nat, now: int, once: bool)
    requires CallInv(call) && p.cseqMethod == Invite
    requires once ==> OneInvite(call) && call.dialog.state != DsConfirmed
    ensures MarksOwn(call, c, OnInvite(call, c, p, tid, now), once)
  {
  }

  lemma PlainMarksNone(call: CallData, c: nat, p: Packet, tid: nat, now: int, once: bool)
    requires CallInv(call) && (once ==> OneInvite(call)) && p.cseqMethod != Invite
    ensures MarksOwn(call, c, OnPlainRequest(call, c, p, tid, now), once)
  {
  }

  lemma CancelMarksNone(call: CallData, c: nat, p: Packet, tid: nat, now: int, once: bool)
    requires CallInv(call) && (once ==> OneInvite(call)) && p.cseqMethod == Cancel
    ensures MarksOwn(call, c, OnCancel(call, c, p, tid, now), once)
  {
    var k := TransactionId(p.branch, Invite);
    if k in call.trans { assert call.trans[k].id == k; }
  }

  lemma AckMarksOwn(call: CallData, c: nat, p: Packet, now: int, once: bool)
    requires CallInv(call) && (once ==> OneInvite(call))
    ensures MarksOwn(call, c, OnAckOnSuccess(call, c, p, now), once)
  {
    var k := FindInvite(call.trans);
    if k.Some? { assert call.trans[k.value].id == k.value; }
  }

  lemma FailureMarksNone(call: CallData, c: nat, k: TransactionId, now: int, once: bool)
    requires CallInv(call) && (once ==> OneInvite(call)) && k in call.trans && k.cseqMethod == Invite
    ensures MarksOwn(call, c, OnAckOnNonSuccess(call, c, k, now), once)
  {
    assert call.trans[k].id == k;
  }

  lemma ResponseMarksOwn(call: CallData, c: nat, k: TransactionId, p: Packet, now: int, once: bool)
    requires CallInv(call) && (once ==> OneInvite(call)) && k in call.trans
    ensures MarksOwn(call, c, OnResponse(call, c, k, p, now), once)
  {
    assert MarksOwn(call, c, Nothing(call), once);
    if k.cseqMethod == Invite {
      if p.IsProvisional() {
        ProvisionalMarksNone(call, c, k, p, once);
      } else if p.IsSuccess() {
        SuccessMarksNone(call, c, k, p, now, once);
      } else {
        NonSuccessMarksNone(call, c, k, p, now, once);
      }
    } else {
      FinalMarksOwn(call, c, k, p, now, k.cseqMethod == Bye, once);
    }
  }

  lemma ProvisionalMarksNone(call: CallData, c: nat, k: TransactionId, p: Packet, once: bool)
    requires (once ==> OneInvite(call)) && k in call.trans && k.cseqMethod == Invite
    ensures MarksOwn(call, c, OnProvisionalOnInvite(call, k, p), once)
  {
  }

  lemma SuccessMarksNone(call: CallData, c: nat, k: TransactionId, p: Packet, now: int, once: bool)
    requires CallInv(call) && (once ==> OneInvite(call)) && k in call.trans && k.cseqMethod == Invite
    ensures MarksOwn(call, c, OnSuccessOnInvite(call, c, k, p, now), once)
  {
    assert call.trans[k].id == k;
  }

  lemma NonSuccessMarksNone(call: CallData, c: nat, k: TransactionId, p: Packet, now: int, once: bool)
    requires CallInv(call) && (once ==> OneInvite(call)) && k in call.trans && k.cseqMethod == Invite
    ensures MarksOwn(call, c, OnNonSuccessOnInvite(call, c, k, p, now), once)
  {
    assert call.trans[k].id == k;
  }

  lemma FinalMarksOwn(call: CallData, c: nat, k: TransactionId, p: Packet, now: int, leaves: bool, once: bool)
    requires CallInv(call) && (once ==> OneInvite(call)) && k in call.trans && k.cseqMethod != Invite
    ensures MarksOwn(call, c, OnPlainResponse(call, c, k, p, now, leaves), once)
  {
    assert call.trans[k].id == k;
  }

  lemma PacketMarksOwn(call: CallData, c: nat, p: Packet, tid: nat, now: int, once: bool)
    requires CallInv(call) && p.WellFormed()
    requires once ==>
      OneInvite(call) && (p.IsRequest(Invite) && call.dialog.state == DsConfirmed ==> MatchTransaction(call, p) != None)
    ensures MarksOwn(call, c, OnPacket(call, c, p, tid, now), once)
  {
    assert MarksOwn(call, c, Nothing(call), once);
    match MatchTransaction(call, p)
    case Some(k) =>
      if p.IsRequest(Ack) { FailureMarksNone(call, c, k, now, once); }
      if p.kind == Response { ResponseMarksOwn(call, c, k, p, now, once); }
    case None =>
      if p.IsRequest(Ack) {
        AckMarksOwn(call, c, p, now, once);
      } else if p.kind == Request {
        RequestMarksOwn(call, c, p, tid, now, once);
      }
  }

  // ---- all lists ----

  /** Marking events carry the Call-ID of their call; if `once`, one that starts it is the last
      of its INVITE. */
  ghost predicate Tied(w: World, e: Event, once: bool) {
    && (Marks(e) ==> e.call < |w.calls| && w.calls[e.call].callId == e.callId)
    && (once && Starts(e) ==> Spent(w.calls[e.call]))
  }

  ghost predicate InOrder(es: seq<Event>, once: bool) {
    EndsOnce(es) && (once ==> Orderly(es))
  }

  ghost predicate OrderInv(w: World, once: bool) {
    && DistinctIds(w) && (once ==> forall c | 0 <= c < |w.calls| :: OneInvite(w.calls[c]))
    && (forall a <- w.events, i | 0 <= i < |w.events[a]| :: Tied(w, w.events[a][i], once))
    && (forall a <- w.events :: InOrder(w.events[a], once))
  }

  /** New events that do not clash with the list keep it in order. */
  lemma AppendKeepsOrder(es: seq<Event>, more: seq<Event>, once: bool)
    requires InOrder(es, once)
    requires forall i, j | 0 <= i < |more| && 0 <= j < |more| && Marks(more[i]) && Marks(more[j]) :: i == j
    requires forall i, j | 0 <= i < |es| && 0 <= j < |more| && Marks(more[j])
      && Ends(es[i]) :: es[i].callId != more[j].callId
    requires once ==>
      forall i, j | 0 <= i < |es| && 0 <= j < |more| && Starts(more[j])
        && Starts(es[i]) :: es[i].callId != more[j].callId
    ensures InOrder(es + more, once)
  {
  }

  lemma NewEventsFit(w: World, c: nat, o: Outcome, a: string, once: bool)
    requires OrderInv(w, once) && ByesInv(w) && InMap(w, c) && MarksOwn(w.calls[c], c, o, once)
    ensures InOrder(EventList(w, a) + o.events, once)
  {
    var es := EventList(w, a);
    forall i, j | 0 <= i < |es| && 0 <= j < |o.events| && Marks(o.events[j]) && Marks(es[i])
                  && es[i].callId == o.events[j].callId
      ensures !Ends(es[i]) && !(once && Starts(o.events[j]))
    {
      assert Tied(w, w.events[a][i], once);
      assert es[i].call == c;
      assert FinalBye(w.events[a][i]) == Ends(es[i]);
    }
    AppendKeepsOrder(es, o.events, once);
  }

  lemma ApplyKeepsOrder(w: World, c: nat, p: Packet, o: Outcome, now: int, once: bool)
    requires OrderInv(w, once) && ByesInv(w) && InMap(w, c) && |w.media.calls| == |w.calls|
    requires MarksOwn(w.calls[c], c, o, once) && o.call.callId == w.calls[c].callId
    ensures OrderInv(Apply(w, c, p, o, now), once)
  {
    var r, a0 := Apply(w, c, p, o, now), o.call.dialog.caller.address;
    NewEventsFit(w, c, o, a0, once);
    forall a <- r.events, i | 0 <= i < |r.events[a]| ensures Tied(r, r.events[a][i], once) {
      TiedAfter(w, c, p, o, now, a, i, once);
    }
    forall a <- r.events ensures InOrder(r.events[a], once) {
      if a != a0 || o.events == [] { assert r.events[a] == w.events[a]; }
    }
  }

  lemma TiedAfter(w: World, c: nat, p: Packet, o: Outcome, now: int, a: string, i: nat, once: bool)
    requires OrderInv(w, once) && c < |w.calls| == |w.media.calls|
    requires MarksOwn(w.calls[c], c, o, once) && o.call.callId == w.calls[c].callId
    requires var r := Apply(w, c, p, o, now); a in r.events && i < |r.events[a]|
    ensures var r := Apply(w, c, p, o, now); Tied(r, r.events[a][i], once)
  {
    var es := EventList(w, a);
    if i < |es| {
      assert Tied(w, w.events[a][i], once);
    } else {
      assert Apply(w, c, p, o, now).events[a][i] == o.events[i - |es|];
    }
  }

  lemma CreateKeepsOrder(w: World, p: Packet, now: int, noRtp: bool, once: bool)
    requires OrderInv(w, once) && CreatesCall(w, p) && forall c | 0 <= c < |w.calls| :: w.calls[c].callId != p.callId
    ensures OrderInv(Create(w, p, now, noRtp), once)
  {
    var v := Create(w, p, now, noRtp);
    forall a <- v.events, i | 0 <= i < |v.events[a]| ensures Tied(v, v.events[a][i], once) {
      assert Tied(w, w.events[a][i], once);
    }
  }

  lemma DispatchKeepsOrder(w: World, c: nat, p: Packet, now: int, once: bool)
    requires CallsInv(w) && OrderInv(w, once) && ByesInv(w) && InMap(w, c) && p.WellFormed()
    requires once && p.IsRequest(Invite) && w.calls[c].dialog.state == DsConfirmed ==>
      MatchTransaction(w.calls[c], p) != None
    ensures OrderInv(Dispatch(w, c, p, now), once)
  {
    var o := OnPacket(w.calls[c], c, p, w.nextTid, now);
    PacketMarksOwn(w.calls[c], c, p, w.nextTid, now, once);
    assert Follows(w.calls[c], o);
    ApplyKeepsOrder(w, c, p, o, now, once);
  }

  lemma StepKeepsOrder(w: World, p: Packet, now: int, noRtp: bool, once: bool)
    requires CallsInv(w) && OrderInv(w, once) && ByesInv(w) && p.WellFormed() && (once ==> !StartsReinvite(w, p))
    requires CreatesCall(w, p) ==> forall c | 0 <= c < |w.calls| :: w.calls[c].callId != p.callId
    ensures OrderInv(Step(w, p, now, noRtp), once)
  {
    if Admits(w, p) {
      AdmitKeepsByes(w, p, now, noRtp);
      if CreatesCall(w, p) {
        CreateKeepsOrder(w, p, now, noRtp, once);
      }
      DispatchKeepsOrder(Admit(w, p, now, noRtp), Target(w, p), p, now, once);
    }
  }

  lemma OthersKeepOrder(w: World, r: World, once: bool)
    requires OrderInv(w, once) && r.calls == w.calls && r.events == w.events
    ensures OrderInv(r, once)
  {
    forall a <- r.events, i | 0 <= i < |r.events[a]| ensures Tied(r, r.events[a][i], once) {
      assert Tied(w, w.events[a][i], once);
    }
  }

  lemma DoKeepsOrder(cfg: SystemModel.Config, s: System, a: Action, once: bool)
    requires SystemWf(s) && CallsInv(s.w) && OrderInv(s.w, once) && ByesInv(s.w)
    requires a.SipPacket? ==> a.p.WellFormed() && (once ==> !StartsReinvite(s.w, a.p))
    requires a.SipPacket? && CreatesCall(s.w, a.p) ==>
      forall c | 0 <= c < |s.w.calls| :: s.w.calls[c].callId != a.p.callId
    ensures OrderInv(Do(cfg, s, a).w, once)
  {
    if a.SipPacket? {
      StepKeepsOrder(s.w, a.p, s.now, a.noRtp, once);
    } else {
      if a.Commit? && Enabled(s, a) { CommitOnlyErases(s.w, s.dog.temp); }
      OthersKeepOrder(s.w, Do(cfg, s, a).w, once);
    }
  }

  lemma {:induction false} RunKeepsOrder(cfg: SystemModel.Config, s: System, acts: seq<Action>, once: bool)
    requires SystemWf(s) && CallsInv(s.w) && OrderInv(s.w, once) && TraceInv(s.w) && ByesInv(s.w)
    requires WellFormedPackets(acts) && FreshCallIds(cfg, s, acts) && (once ==> NoReinvites(cfg, s, acts))
    ensures OrderInv(Run(cfg, s, acts).w, once)
    decreases |acts|
  {
    if acts != [] {
      DoKeepsOrder(cfg, s, acts[0], once);
      DoKeepsTraces(cfg, s, acts[0]);
      DoKeepsCalls(cfg, s, acts[0]);
      RunKeepsOrder(cfg, Do(cfg, s, acts[0]), acts[1..], once);
    }
  }

  // ---- windows ----

  lemma {:induction false} WindowIsInOrder(es: seq<Event>, analyzeTs: int, period: int, once: bool)
    requires InOrder(es, once)
    ensures InOrder(Window(es, analyzeTs, period), once)
    decreases |es|
  {
    if es != [] {
      var n := |es| - 1;
      WindowIsInOrder(es[..n], analyzeTs, period, once);
      WindowIsPart(es[..n], analyzeTs, period);
      if IsInPeriod(analyzeTs, es[n].ts, period) {
        forall e <- Window(es[..n], analyzeTs, period)
          ensures Marks(e) && Marks(es[n]) && e.callId == es[n].callId ==> Starts(e) && (once ==> Ends(es[n]))
        {
          var i :| 0 <= i < n && es[..n][i] == e;
          assert es[i] == e;
        }
        AppendKeepsOrder(Window(es[..n], analyzeTs, period), [es[n]], once);
      }
    }
  }

  /** In every run without reuse of Call-IDs, for every caller and window: after each event the
      load is the number of the caller's calls up and that of starts repeated; so no load is
      wrong if and only if no start is repeated, and the sweep finds the greatest number of calls
      up if and only if, with the starts repeated by then, the calls up never exceed it. */
  lemma {:induction false} SweepIsRightIff(cfg: SystemModel.Config, acts: seq<Action>, s: System, caller: string,
                                           analyzeTs: int, period: int, most: int)
    requires WellFormedPackets(acts) && FreshCallIds(cfg, START, acts) && s == Run(cfg, START, acts)
    requires IsMostUp(Window(EventList(s.w, caller), analyzeTs, period), most)
    ensures IsRightIff(Window(EventList(s.w, caller), analyzeTs, period), most)
  {
    RunKeepsOrder(cfg, START, acts, false);
    WindowIsInOrder(EventList(s.w, caller), analyzeTs, period, false);
    WindowIsRightIff(Window(EventList(s.w, caller), analyzeTs, period), most);
  }

  ghost predicate IsRightIff(es: seq<Event>, most: int) {
    && (forall i | 0 <= i <= |es| :: LoadAt(es, i) == |UpAt(es, i)| + Repeats(es[..i]))
    && ((forall i | 0 <= i <= |es| :: LoadAt(es, i) == |UpAt(es, i)|) <==> Repeats(es) == 0)
    && (IsPeak(es, most) <==> forall i | 0 <= i <= |es| :: |UpAt(es, i)| + Repeats(es[..i]) <= most)
  }

  lemma WindowIsRightIff(es: seq<Event>, most: int)
    requires EndsOnce(es) && IsMostUp(es, most)
    ensures IsRightIff(es, most)
  {
    forall i | 0 <= i <= |es| ensures LoadAt(es, i) == |UpAt(es, i)| + Repeats(es[..i]) {
      LoadIsCallsUp(es, i);
    }
    LoadsAreRightIff(es);
    PeakIsMostUpIff(es, most);
  }

  /** In every run without re-INVITEs and reuse of Call-IDs: for every caller and window no start
      is repeated, and the sweep's result is the greatest number of the caller's calls up. */
  lemma {:induction false} SweepCountsCallsUp(cfg: SystemModel.Config, acts: seq<Action>, s: System, caller: string,
                                              analyzeTs: int, period: int, peak: int)
    requires WellFormedPackets(acts) && FreshCallIds(cfg, START, acts) && NoReinvites(cfg, START, acts)
    requires s == Run(cfg, START, acts)
    ensures var es := Window(EventList(s.w, caller), analyzeTs, period);
      Repeats(es) == 0 && (IsPeak(es, peak) <==> IsMostUp(es, peak))
  {
    RunKeepsOrder(cfg, START, acts, true);
    var es := Window(EventList(s.w, caller), analyzeTs, period);
    WindowIsInOrder(EventList(s.w, caller), analyzeTs, period, true);
    OrderlyHasNoRepeats(es, |es|);
    assert es[..|es|] == es;
    PeakIsMostCallsUp(es, peak);
  }

  // ---- calls that are never up ----

  /** No packet of the run answers an INVITE of the call with 2xx, or a BYE finally. */
  predicate NeverAnswered(acts: seq<Action>, id: string) {
    forall q <- Causes.Packets(acts) :: q.kind == Response && q.callId == id ==>
      && (q.cseqMethod == Invite || q.cseqMethod == Ack ==> q.responseCode < 200 || q.responseCode >= 300)
      && (q.cseqMethod == Bye ==> q.responseCode == 0 || 100 <= q.responseCode <= 199)
  }

  /** The response to an INVITE that starts a call for the sweep, or the one to a BYE that ends it. */
  predicate Brings(q: Packet, e: Event) {
    && q.kind == Response && q.callId == e.callId
    && if e.InviteEvent? then (q.cseqMethod == Invite || q.cseqMethod == Ack) && 200 <= q.responseCode <= 299
       else q.cseqMethod == Bye && q.responseCode != 0 && !(100 <= q.responseCode <= 199)
  }

  lemma MarkHasPacket(ps: set<Packet>, e: Event)
    requires Causes.EventCaused(ps, e) && Marks(e)
    ensures exists q <- ps :: Brings(q, e)
  {
    if e.InviteEvent? {
      var p :| p in ps && Causes.Shows(ps, p, Invite, e.callId, e.initiator, e.code, e.reason, e.cancel, e.ack);
      var q :| q in ps && Causes.EndsWith(q, p, e.code, e.reason);
      assert Brings(q, e);
    } else {
      var p :| p in ps && Causes.Shows(ps, p, Bye, e.callId, e.initiator, e.code, e.reason, false, false);
      var q :| q in ps && Causes.EndsWith(q, p, e.code, e.reason);
      assert Brings(q, e);
    }
  }

  /** In every run: a call whose INVITEs were not answered with 2xx, in particular one that was
      refused, and which got no final response to a BYE, is not up at any time of any window. */
  lemma {:induction false} RefusedIsNeverUp(cfg: SystemModel.Config, acts: seq<Action>, s: System, caller: string,
                                            analyzeTs: int, period: int, i: nat, id: string)
    requires WellFormedPackets(acts) && s == Run(cfg, START, acts) && NeverAnswered(acts, id)
    requires i <= |Window(EventList(s.w, caller), analyzeTs, period)|
    ensures id !in UpAt(Window(EventList(s.w, caller), analyzeTs, period), i)
  {
    var w := Window(EventList(s.w, caller), analyzeTs, period);
    Causes.EventsAreTrue(cfg, acts, s);
    WindowIsPart(EventList(s.w, caller), analyzeTs, period);
    forall j | 0 <= j < |w| && Marks(w[j]) ensures w[j].callId != id {
      assert w[j] in EventList(s.w, caller);
      MarkHasPacket(Causes.Packets(acts), w[j]);
    }
  }

  // ---- a refused call with a BYE ----

  function ByeAnswered(branch: string): Packet {
    OkOf(branch).(cseqMethod := Bye)
  }

  const CLOSING_CALL := BUSY_CALL.(trans := BUSY_CALL.trans[
    TransactionId("2", Bye) := NewTransaction(RequestOf(Bye, "2", 2), 1).(state := TRYING_TRYING)])

  function ByeShown(code: nat, reason: string): Event {
    ByeEvent(0, 0, 1, "id", ANN, ANN, code, reason, 0)
  }

  lemma ClosingOutcome()
    ensures var o := OnPacket(BUSY_CALL, 0, RequestOf(Bye, "2", 2), 1, 0);
      o.exit == Stay && o.call == CLOSING_CALL && o.events == [ByeShown(0, "")]
  {
  }

  lemma ClosedOutcome(tid: nat)
    ensures var o := OnPacket(CLOSING_CALL, 0, ByeAnswered("2"), tid, 0);
      o.call.dialog.caller == ANN && o.events == [ByeShown(200, "OK")]
  {
    assert TransactionId("2", Bye) in CLOSING_CALL.trans;
  }

  lemma ClosedStep(cfg: SystemModel.Config, s: System, es: seq<Event>)
    requires Alone(s, CLOSING_CALL, es)
    ensures EventList(Do(cfg, s, SipPacket(ByeAnswered("2"), false)).w, "ann") == es + [ByeShown(200, "OK")]
  {
    ClosedOutcome(s.w.nextTid);
  }

  lemma Invited(cfg: SystemModel.Config, s1: System)
    requires s1 == Do(cfg, START, SipPacket(RequestOf(Invite, "1", 1), false))
    ensures s1.w.nextTid == 1
    ensures Alone(s1, Ringing(NewCallData(RequestOf(Invite, "1", 1), 0), "1", 1, 0),
      [InviteShown(0, 0, "", false, false)])
  {
    FirstInvite(cfg);
    FirstTid(cfg);
  }

  lemma ByeStep(cfg: SystemModel.Config, s: System)
    requires Alone(s, BUSY_CALL, Refusing()) && s.w.nextTid == 1
    ensures Alone(Do(cfg, s, SipPacket(RequestOf(Bye, "2", 2), false)), CLOSING_CALL, Closing())
  {
    ClosingOutcome();
    AloneStep(cfg, s, BUSY_CALL, Refusing(), RequestOf(Bye, "2", 2), CLOSING_CALL, Closing());
  }

  /** A window whose last event alone marks a call, by ending it. */
  lemma OnlyEndCounts(es: seq<Event>, e: Event)
    requires Analyser.Ends(e) && forall i | 0 <= i < |es| :: !Marks(es[i])
    ensures IsPeak(es + [e], 1) && e.callId in UpAt(es + [e], 0)
  {
    NoMarksNoPeak(es);
    PeakStep(es, e, 0);
    assert Analyser.Ends((es + [e])[|es|]);
  }

  lemma {:induction false} NoMarksNoPeak(es: seq<Event>)
    requires forall i | 0 <= i < |es| :: !Marks(es[i])
    ensures IsPeak(es, 0) && Ids(es) == {}
    decreases |es|
  {
    if es == [] {
      EmptyPeak();
    } else {
      var n := |es| - 1;
      NoMarksNoPeak(es[..n]);
      PeakStep(es[..n], es[n], 0);
      assert es[..n] + [es[n]] == es;
    }
  }

  function Closing(): seq<Event> {
    Refusing() + [ByeShown(0, "")]
  }

  lemma ClosingMarksNone(es: seq<Event>)
    requires es == Closing()
    ensures |es| == 3 && forall i | 0 <= i < |es| :: es[i].ts == 0 && !Marks(es[i])
  {
  }

  lemma PeakOfClosing(es: seq<Event>)
    requires es == Closing() + [ByeShown(200, "OK")]
    ensures var w := Window(es, SECOND_IN_TICKS, 1); IsPeak(w, 1) && "id" in UpAt(w, 0)
  {
    ClosingMarksNone(es[..3]);
    assert es == es[..3] + [es[3]] && es[..3] == Closing();
    WholeWindow(es, SECOND_IN_TICKS, 1);
    OnlyEndCounts(es[..3], ByeShown(200, "OK"));
  }

  /** INVITE, 486, BYE, 200: the call was refused, and the sweep counts it as up before the BYE. */
  lemma {:induction false} RefusedByeCounts(cfg: SystemModel.Config, s1: System, s2: System, s3: System, r: System)
    requires s1 == Do(cfg, START, SipPacket(RequestOf(Invite, "1", 1), false))
    requires s2 == Do(cfg, s1, SipPacket(Busy("1"), false))
    requires s3 == Do(cfg, s2, SipPacket(RequestOf(Bye, "2", 2), false))
    requires r == Do(cfg, s3, SipPacket(ByeAnswered("2"), false))
    ensures var w := Window(EventList(r.w, "ann"), SECOND_IN_TICKS, 1); IsPeak(w, 1) && "id" in UpAt(w, 0)
  {
    Invited(cfg, s1);
    BusyStep(cfg, s1);
    ByeStep(cfg, s2);
    ClosedStep(cfg, s3, Closing());
    PeakOfClosing(EventList(r.w, "ann"));
  }

  // ---- a re-INVITE is counted as a second call ----

  lemma {:induction false} WholeWindow(es: seq<Event>, analyzeTs: int, period: int)
    requires forall i | 0 <= i < |es| :: IsInPeriod(analyzeTs, es[i].ts, period)
    ensures Window(es, analyzeTs, period) == es
    decreases |es|
  {
    if es != [] { WholeWindow(es[..|es| - 1], analyzeTs, period); }
  }

  /** The third and the last of six events start the same call, and nothing ends it. */
  ghost predicate StartsTwice(es: seq<Event>) {
    && |es| == 6 && Starts(es[2]) && Starts(es[5]) && es[5].callId == es[2].callId
    && forall i | 0 <= i < 6 :: !Ends(es[i]) && (Starts(es[i]) ==> i == 2 || i == 5)
  }

  lemma {:induction false} RepeatsOfTwo(es: seq<Event>, i: nat)
    requires StartsTwice(es) && i <= 6
    ensures Ids(es[..i]) == (if i < 3 then {} else {es[2].callId}) && Repeats(es[..i]) == (if i < 6 then 0 else 1)
  {
    if i > 0 {
      RepeatsOfTwo(es, i - 1);
      assert es[..i][..i - 1] == es[..i - 1];
    }
  }

  lemma UpOfTwo(es: seq<Event>, i: nat)
    requires StartsTwice(es) && i <= 6
    ensures |UpAt(es, i)| == if i < 3 then 0 else 1
  {
    IdsAreUp(es, i);
    RepeatsOfTwo(es, i);
    assert UpAt(es, i) == Ids(es[..i]);
  }

  lemma PeakOfTwo(es: seq<Event>)
    requires StartsTwice(es)
    ensures IsPeak(es, 2) && IsMostUp(es, 1)
  {
    forall i | 0 <= i <= 6
      ensures |UpAt(es, i)| == (if i < 3 then 0 else 1) && LoadAt(es, i) == if i < 3 then 0 else if i < 6 then 1 else 2
    {
      UpOfTwo(es, i);
      RepeatsOfTwo(es, i);
      LoadIsCallsUp(es, i);
    }
    assert |UpAt(es, 3)| == 1 && LoadAt(es, 6) == 2;
  }

  /** The events of the two setups. */
  lemma SetUpsStartTwice(es: seq<Event>, es': seq<Event>, tid: nat)
    requires es == [] + [InviteShown(0, 0, "", false, false)] + [InviteShown(0, 200, "OK", false, false)]
                   + [InviteShown(0, 200, "OK", false, true)]
    requires es' == es + [InviteShown(tid, 0, "", true, false)] + [InviteShown(tid, 200, "OK", true, false)]
                    + [InviteShown(tid, 200, "OK", false, true)]
    ensures StartsTwice(es') && forall i | 0 <= i < |es'| :: es'[i].ts == 0
  {
  }

  /** All that was seen a second ago. */
  lemma PeakOfSetUps(es: seq<Event>)
    requires StartsTwice(es) && forall i | 0 <= i < |es| :: es[i].ts == 0
    ensures var w := Window(es, SECOND_IN_TICKS, 1); IsPeak(w, 2) && IsMostUp(w, 1)
  {
    WholeWindow(es, SECOND_IN_TICKS, 1);
    PeakOfTwo(es);
  }

  /** INVITE, success, ACK, re-INVITE, success, ACK: one call is up, and the sweep finds two. */
  lemma {:induction false} ReinviteCountsTwice(cfg: SystemModel.Config, s: System, r: System)
    requires s == Run(cfg, START, SetUp("1", "2", 1)) && r == Run(cfg, s, SetUp("3", "4", 2))
    ensures var es := Window(EventList(r.w, "ann"), SECOND_IN_TICKS, 1); IsPeak(es, 2) && IsMostUp(es, 1)
  {
    FirstSetUp(cfg);
    SecondSetUp(cfg, s, EventList(s.w, "ann"));
    SetUpsStartTwice(EventList(s.w, "ann"), EventList(r.w, "ann"), s.w.nextTid);
    PeakOfSetUps(EventList(r.w, "ann"));
  }
}
