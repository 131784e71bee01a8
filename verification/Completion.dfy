/**
 The call completion ratio (src/sba/SigBasedAna.cpp) over the events the SIP core makes:
 completed calls never exceed attempts as long as no re-INVITE was seen. With one they can,
 because the re-INVITE flag of a call is cleared before the ACK event is pushed.
 */
module Completion {
  import opened SipTypes
  import opened Signalling
  import opened SipMachine
  import opened SystemModel
  import opened CallInvariant
  import opened Reachable
  import opened EventTraces
  import Analyser

  /** The transactions with an INVITE event in the list. */
  function Begun(es: seq<Event>): set<nat> {
    set i | 0 <= i < |es| && es[i].InviteEvent? :: es[i].tid
  }

  /** The transactions with an acknowledged INVITE event in the list. */
  function Acked(es: seq<Event>): set<nat> {
    set i | 0 <= i < |es| && es[i].InviteEvent? && es[i].ack :: es[i].tid
  }

  /** How many transactions begin with an event that carries the re-INVITE flag. */
  function ReinvitesBegun(es: seq<Event>): nat {
    if es == [] then 0
    else
      var e, before := es[|es| - 1], es[..|es| - 1];
      ReinvitesBegun(before) + (if e.InviteEvent? && e.reinvite && e.tid !in Begun(before) then 1 else 0)
  }

  lemma BegunStep(es: seq<Event>, e: Event)
    ensures Begun(es + [e]) == Begun(es) + (if e.InviteEvent? then {e.tid} else {})
    ensures Acked(es + [e]) == Acked(es) + (if e.InviteEvent? && e.ack then {e.tid} else {})
    ensures Acked(es) <= Begun(es)
  {
    assert (es + [e])[|es|] == e;
    assert forall i | 0 <= i < |es| :: (es + [e])[i] == es[i];
  }

  /** Each transaction begins with an attempt or a re-INVITE, and is completed at most once. */
  lemma {:induction false} AttemptsAndCompletions(es: seq<Event>)
    requires Shaped(es)
    ensures |Begun(es)| <= Analyser.Attempts(es) + ReinvitesBegun(es)
    ensures Analyser.Completions(es) <= |Acked(es)|
    decreases |es|
  {
    if es == [] {
    } else {
      var n := |es| - 1;
      var front, e := es[..n], es[n];
      assert es == front + [e];
      AttemptsAndCompletions(front);
      BegunStep(front, e);
      Analyser.TallyStep(front, e);
      if e.InviteEvent? {
        LastIsAnEvent(front, e.tid);
        forall i | 0 <= i < n && front[i].InviteEvent? && front[i].tid == e.tid ensures !front[i].ack {
          PairFollows(es, i, n);
        }
      }
    }
  }

  /** Over the full list of a caller, completed calls exceed attempts at most by the number
      of transactions that began as re-INVITEs. */
  lemma CompletionsAreBounded(es: seq<Event>)
    requires Shaped(es)
    ensures Analyser.Completions(es) <= Analyser.Attempts(es) + ReinvitesBegun(es)
  {
    AttemptsAndCompletions(es);
    if es != [] {
      BegunStep(es[..|es| - 1], es[|es| - 1]);
      assert es == es[..|es| - 1] + [es[|es| - 1]];
      BegunStep(es, es[|es| - 1]);
    }
    SubsetSize(Acked(es), Begun(es));
  }

  lemma {:induction false} SubsetSize(a: set<nat>, b: set<nat>)
    requires a <= b
    ensures |a| <= |b|
    decreases a
  {
    if x :| x in a {
      SubsetSize(a - {x}, b - {x});
    }
  }

  // ---- runs without re-INVITEs ----

  /** An INVITE of a call whose dialog is CONFIRMED that belongs to no stored transaction. */
  predicate StartsReinvite(w: World, p: Packet) {
    && p.parses && p.callId in w.callMap && w.callMap[p.callId] < |w.calls|
    && var call := w.calls[w.callMap[p.callId]];
    p.IsRequest(Invite) && call.dialog.state == DsConfirmed && MatchTransaction(call, p) == None
  }

  ghost predicate NoReinvites(cfg: Config, s: System, acts: seq<Action>)
    requires SystemWf(s)
    decreases |acts|
  {
    acts == [] ||
    ((acts[0].SipPacket? ==> !StartsReinvite(s.w, acts[0].p)) && NoReinvites(cfg, Do(cfg, s, acts[0]), acts[1..]))
  }

  predicate Plain(events: seq<Event>) {
    forall i | 0 <= i < |events| && events[i].InviteEvent? :: !events[i].reinvite
  }

  ghost predicate NoFlags(w: World) {
    && (forall c | 0 <= c < |w.calls| :: !w.calls[c].reinvite)
    && (forall a <- w.events :: Plain(w.events[a]))
  }

  predicate KeepsPlain(o: Outcome) {
    !o.call.reinvite && Plain(o.events)
  }

  lemma RequestIsPlain(call: CallData, c: nat, p: Packet, tid: nat, now: int)
    requires !call.reinvite && (p.requestMethod == Invite ==> call.dialog.state != DsConfirmed)
    ensures KeepsPlain(OnInitialRequest(call, c, p, tid, now))
  {
    match p.requestMethod
    case Invite => assert KeepsPlain(OnInvite(call, c, p, tid, now));
    case Cancel => assert KeepsPlain(OnCancel(call, c, p, tid, now));
    case Ack => assert KeepsPlain(OnAckOnSuccess(call, c, p, now));
    case _ => assert KeepsPlain(OnPlainRequest(call, c, p, tid, now));
  }

  lemma ResponseIsPlain(call: CallData, c: nat, k: TransactionId, p: Packet, now: int)
    requires !call.reinvite && k in call.trans
    ensures KeepsPlain(OnResponse(call, c, k, p, now))
  {
    assert KeepsPlain(OnProvisionalOnInvite(call, k, p));
    assert KeepsPlain(OnSuccessOnInvite(call, c, k, p, now));
    assert KeepsPlain(OnNonSuccessOnInvite(call, c, k, p, now));
    assert KeepsPlain(OnPlainResponse(call, c, k, p, now, k.cseqMethod == Bye));
  }

  lemma OnPacketIsPlain(call: CallData, c: nat, p: Packet, tid: nat, now: int)
    requires !call.reinvite
    requires p.IsRequest(Invite) && call.dialog.state == DsConfirmed ==> MatchTransaction(call, p) != None
    ensures KeepsPlain(OnPacket(call, c, p, tid, now))
  {
    match MatchTransaction(call, p)
    case Some(k) =>
      assert KeepsPlain(OnAckOnNonSuccess(call, c, k, now));
      ResponseIsPlain(call, c, k, p, now);
    case None =>
      if p.kind == Request { RequestIsPlain(call, c, p, tid, now); }
  }

  lemma ApplyKeepsNoFlags(w: World, c: nat, p: Packet, o: Outcome, now: int)
    requires NoFlags(w) && c < |w.calls| == |w.media.calls| && !o.call.reinvite && Plain(o.events)
    ensures NoFlags(Apply(w, c, p, o, now))
  {
    var r, a0 := Apply(w, c, p, o, now), o.call.dialog.caller.address;
    assert Plain(EventList(w, a0) + o.events);
  }

  lemma DoKeepsNoFlags(cfg: Config, s: System, a: Action)
    requires SystemWf(s) && NoFlags(s.w) && (a.SipPacket? ==> !StartsReinvite(s.w, a.p))
    ensures NoFlags(Do(cfg, s, a).w)
  {
    if a.SipPacket? {
      var p, w := a.p, s.w;
      if Admits(w, p) {
        var v, c := Admit(w, p, s.now, a.noRtp), Target(w, p);
        AdmitWf(w, p, s.now, a.noRtp);
        OnPacketIsPlain(v.calls[c], c, p, v.nextTid, s.now);
        ApplyKeepsNoFlags(v, c, p, OnPacket(v.calls[c], c, p, v.nextTid, s.now), s.now);
      }
    } else if a.Commit? && Enabled(s, a) {
      CommitOnlyErases(s.w, s.dog.temp);
    }
  }

  lemma {:induction false} RunKeepsNoFlags(cfg: Config, s: System, acts: seq<Action>)
    requires SystemWf(s) && NoFlags(s.w) && NoReinvites(cfg, s, acts)
    ensures NoFlags(Run(cfg, s, acts).w)
    decreases |acts|
  {
    if acts != [] {
      DoKeepsNoFlags(cfg, s, acts[0]);
      RunKeepsNoFlags(cfg, Do(cfg, s, acts[0]), acts[1..]);
    }
  }

  lemma {:induction false} PlainHasNoReinvites(es: seq<Event>)
    requires Plain(es)
    ensures ReinvitesBegun(es) == 0
    decreases |es|
  {
    if es != [] {
      PlainHasNoReinvites(es[..|es| - 1]);
    }
  }

  /** Over the full event list of a caller from any run without re-INVITEs, completed calls
      never exceed attempts, so with at least one attempt the percentage is in 0..100 and
      within one half of the true ratio. */
  lemma {:induction false} CompletionIsAPercentage(cfg: Config, acts: seq<Action>, caller: string)
    requires WellFormedPackets(acts) && NoReinvites(cfg, START, acts)
    ensures var es := EventList(Run(cfg, START, acts).w, caller);
      var completed, attempts := Analyser.Completions(es), Analyser.Attempts(es);
      && completed <= attempts
      && (attempts > 0 ==>
            var percent := Analyser.Percent(completed, attempts);
            && 0 <= percent <= 100
            && percent as real - 0.5 <= completed as real / attempts as real * 100.0 < percent as real + 0.5)
  {
    RunKeepsTraces(cfg, START, acts);
    RunKeepsNoFlags(cfg, START, acts);
    var es := EventList(Run(cfg, START, acts).w, caller);
    assert Shaped(es);
    PlainHasNoReinvites(es);
    CompletionsAreBounded(es);
    if Analyser.Attempts(es) > 0 {
      Analyser.PercentIsRounded(Analyser.Completions(es), Analyser.Attempts(es));
    }
  }

  // ---- windows ----

  /** The transactions with an event in the list that counts as an attempt. */
  function Tried(es: seq<Event>): set<nat> {
    set i | 0 <= i < |es| && Analyser.IsAttempt(es[i]) :: es[i].tid
  }

  /** The transactions with an event in the list that counts as a completed call. */
  function Done(es: seq<Event>): set<nat> {
    set i | 0 <= i < |es| && Analyser.IsCompletion(es[i]) :: es[i].tid
  }

  /** Attempts of a transaction that was tried before in the list. */
  function Retried(es: seq<Event>): nat {
    if es == [] then 0
    else
      var e, before := es[|es| - 1], es[..|es| - 1];
      Retried(before) + (if Analyser.IsAttempt(e) && e.tid in Tried(before) then 1 else 0)
  }

  lemma TriedStep(es: seq<Event>, e: Event)
    ensures Tried(es + [e]) == Tried(es) + (if Analyser.IsAttempt(e) then {e.tid} else {})
    ensures Done(es + [e]) == Done(es) + (if Analyser.IsCompletion(e) then {e.tid} else {})
    ensures Retried(es + [e]) == Retried(es) + (if Analyser.IsAttempt(e) && e.tid in Tried(es) then 1 else 0)
  {
    assert (es + [e])[|es|] == e && (es + [e])[..|es|] == es;
    assert forall i | 0 <= i < |es| :: (es + [e])[i] == es[i];
  }

  /** In any list, attempts are the transactions tried, and those tried again. */
  lemma {:induction false} AttemptsAreTries(es: seq<Event>)
    ensures Analyser.Attempts(es) == |Tried(es)| + Retried(es)
    decreases |es|
  {
    if es != [] {
      var n := |es| - 1;
      AttemptsAreTries(es[..n]);
      assert es == es[..n] + [es[n]];
      TriedStep(es[..n], es[n]);
      Analyser.TallyStep(es[..n], es[n]);
      assert es[n].InviteEvent? && es[n].tid in Tried(es[..n]) ==> Tried(es[..n]) + {es[n].tid} == Tried(es[..n]);
    }
  }

  /** In a window of a shaped list each transaction is completed at most once. */
  lemma {:induction false} CompletedOnce(es: seq<Event>, analyzeTs: int, period: int)
    requires Shaped(es)
    ensures var w := Analyser.Window(es, analyzeTs, period); Analyser.Completions(w) == |Done(w)|
    decreases |es|
  {
    if es != [] {
      var n := |es| - 1;
      var w, e := Analyser.Window(es[..n], analyzeTs, period), es[n];
      CompletedOnce(es[..n], analyzeTs, period);
      if Analyser.IsInPeriod(analyzeTs, e.ts, period) {
        TriedStep(w, e);
        Analyser.TallyStep(w, e);
        if Analyser.IsCompletion(e) { NotDoneBefore(es, analyzeTs, period); }
      } else {
        assert w + [] == w;
      }
    }
  }

  lemma NotDoneBefore(es: seq<Event>, analyzeTs: int, period: int)
    requires Shaped(es) && es != [] && es[|es| - 1].InviteEvent?
    ensures es[|es| - 1].tid !in Done(Analyser.Window(es[..|es| - 1], analyzeTs, period))
  {
    var n := |es| - 1;
    var w := Analyser.Window(es[..n], analyzeTs, period);
    Analyser.WindowIsPart(es[..n], analyzeTs, period);
    forall i | 0 <= i < |w| && Analyser.IsCompletion(w[i]) ensures w[i].tid != es[n].tid {
      assert w[i] in es[..n];
      var j :| 0 <= j < n && es[..n][j] == w[i];
      if w[i].tid == es[n].tid { PairFollows(es, j, n); }
    }
  }

  lemma Differences(a: set<nat>, b: set<nat>)
    ensures |a| + |b - a| == |b| + |a - b|
  {
    assert a == (a - b) + (a * b) && b == (b - a) + (a * b);
  }

  /** What completed calls and attempts of a window differ by: the transactions completed in it
      but not tried, against those tried but not completed and those tried again. */
  ghost predicate Balanced(w: seq<Event>) {
    var completed, attempts := Analyser.Completions(w), Analyser.Attempts(w);
    && completed + |Tried(w) - Done(w)| + Retried(w) == attempts + |Done(w) - Tried(w)|
    && (completed <= attempts <==> |Done(w) - Tried(w)| <= |Tried(w) - Done(w)| + Retried(w))
  }

  lemma WindowIsBalanced(es: seq<Event>, analyzeTs: int, period: int)
    requires Shaped(es)
    ensures Balanced(Analyser.Window(es, analyzeTs, period))
  {
    var w := Analyser.Window(es, analyzeTs, period);
    CompletedOnce(es, analyzeTs, period);
    AttemptsAreTries(w);
    Differences(Tried(w), Done(w));
  }

  /** In every window of every run, completed calls do not exceed attempts if and only if the
      transactions completed in it but not tried (their attempt is before the window, or was a
      re-INVITE) are not more than those tried but not completed and those tried again. Then the
      percentage is in 0..100; it is within one half of the true ratio in any case, and above
      100 exactly if the ratio is at least 201 to 200. */
  lemma {:induction false} WindowIsAPercentage(cfg: Config, acts: seq<Action>, s: System, caller: string,
                                               analyzeTs: int, period: int)
    requires WellFormedPackets(acts) && s == Run(cfg, START, acts)
    ensures var w := Analyser.Window(EventList(s.w, caller), analyzeTs, period);
      Balanced(w) && (Analyser.Attempts(w) > 0 ==> IsRounded(Analyser.Completions(w), Analyser.Attempts(w)))
  {
    RunKeepsTraces(cfg, START, acts);
    var es := EventList(s.w, caller);
    assert Shaped(es);
    WindowIsBalanced(es, analyzeTs, period);
    var w := Analyser.Window(es, analyzeTs, period);
    if Analyser.Attempts(w) > 0 {
      Analyser.PercentIsRounded(Analyser.Completions(w), Analyser.Attempts(w));
    }
  }

  ghost predicate IsRounded(completed: nat, attempts: nat)
    requires attempts > 0
  {
    var percent := Analyser.Percent(completed, attempts);
    && percent as real - 0.5 <= completed as real / attempts as real * 100.0 < percent as real + 0.5
    && 0 <= percent && (percent <= 100 <==> 200 * completed < 201 * attempts)
  }

  function Seen(ts: int, tid: nat, code: nat, ack: bool): Event {
    InviteEvent(ts, 0, tid, "id", ANN, ANN, code, "", false, false, ack)
  }

  const LATE: int := 60 * Analyser.SECOND_IN_TICKS

  /** A window that cuts off the attempt of a call and keeps its completion: 200 percent. */
  lemma CutWindowExceeds()
    ensures var es := [Seen(0, 0, 0, false), Seen(LATE, 1, 0, false), Seen(LATE, 0, 200, true),
      Seen(LATE, 1, 200, true)];
      var w := Analyser.Window(es, LATE + Analyser.SECOND_IN_TICKS, 1);
      Shaped(es) && Analyser.Attempts(w) == 1 && Analyser.Completions(w) == 2
  {
    var e, a, b, c := Seen(0, 0, 0, false), Seen(LATE, 1, 0, false), Seen(LATE, 0, 200, true), Seen(LATE, 1, 200, true);
    CutIsShaped(e, a, b, c);
    CutWindow(e, a, b, c, LATE + Analyser.SECOND_IN_TICKS);
    Tally([], a, b, c);
  }

  lemma CutIsShaped(e: Event, a: Event, b: Event, c: Event)
    requires e.InviteEvent? && a.InviteEvent? && b.InviteEvent? && c.InviteEvent? && IsFirst(e) && IsFirst(a)
    requires e.tid == b.tid != a.tid == c.tid && !b.cancel && !c.cancel
    ensures Shaped([e, a, b, c])
  {
    assert Shaped([]);
    assert [] + [e] == [e] && [e] + [a] == [e, a] && [e, a] + [b] == [e, a, b] && [e, a, b] + [c] == [e, a, b, c];
    ShapedAppend([], e);
    LastAppend([], e, e.tid);
    LastAppend([], e, a.tid);
    ShapedAppend([e], a);
    LastAppend([e], a, e.tid);
    LastAppend([e], a, a.tid);
    ShapedAppend([e, a], b);
    LastAppend([e, a], b, a.tid);
    ShapedAppend([e, a, b], c);
  }

  lemma CutWindow(e: Event, a: Event, b: Event, c: Event, analyzeTs: int)
    requires e.ts == 0 && a.ts == b.ts == c.ts == 60 * Analyser.SECOND_IN_TICKS
    requires analyzeTs == 61 * Analyser.SECOND_IN_TICKS
    ensures Analyser.Window([e, a, b, c], analyzeTs, 1) == [] + [a] + [b] + [c]
  {
    var es := [e, a, b, c];
    Analyser.WindowStep(es, 0, analyzeTs, 1);
    Analyser.WindowStep(es, 1, analyzeTs, 1);
    Analyser.WindowStep(es, 2, analyzeTs, 1);
    Analyser.WindowStep(es, 3, analyzeTs, 1);
    assert es[..0] == [] && es[..4] == es;
  }

  // ---- one re-INVITE is enough ----

  const ANN := Party("a", "ann", "")
  const BOB := Party("b", "bob", "")

  function RequestOf(m: Method, branch: string, num: nat): Packet {
    Packet(true, Request, "id", ANN, BOB, branch, "", m, num, m, 0, "", None)
  }

  function OkOf(branch: string): Packet {
    Packet(true, Response, "id", ANN, BOB, branch, "", Invite, 0, UndefinedMethod, 200, "OK", None)
  }

  /** A call is set up: INVITE, success, ACK. */
  function SetUp(branch: string, ackBranch: string, num: nat): seq<Action> {
    [SipPacket(RequestOf(Invite, branch, num), false), SipPacket(OkOf(branch), false),
      SipPacket(RequestOf(Ack, ackBranch, num), false)]
  }

  /** The system holds one call, with this record and these events. */
  ghost predicate Alone(s: System, call: CallData, es: seq<Event>) {
    && SystemWf(s) && s.now == 0
    && s.w.callMap == map["id" := 0] && s.w.calls == [call] && call.callId == "id"
    && EventList(s.w, "ann") == es
  }

  lemma AloneStep(cfg: Config, s: System, call: CallData, es: seq<Event>, p: Packet, call': CallData, es': seq<Event>)
    requires Alone(s, call, es) && p.parses && p.callId == "id"
    requires var o := OnPacket(call, 0, p, s.w.nextTid, 0);
      o.exit == Stay && o.call == call' && es + o.events == es' && call'.dialog.caller.address == "ann"
    ensures Alone(Do(cfg, s, SipPacket(p, false)), call', es')
  {
  }

  function InviteShown(tid: nat, code: nat, reason: string, reinvite: bool, ack: bool): Event {
    InviteEvent(0, 0, tid, "id", ANN, ANN, code, reason, reinvite, false, ack)
  }

  function Waiting(b: string, num: nat, tid: nat): TransactionData {
    TransactionData(tid, TransactionId(b, Invite), ANN, "", num, CALLING_PROCEEDING, 0, "", false, false)
  }

  /** The call after an INVITE, after its success, and after the ACK. */
  function Ringing(call: CallData, b: string, num: nat, tid: nat): CallData {
    call.(dialog := if call.dialog.state == DsConfirmed then call.dialog.(state := DsInit)
      else Dialog(DsInit, ANN, BOB),
          reinvite := call.dialog.state == DsConfirmed,
          trans := map[TransactionId(b, Invite) := Waiting(b, num, tid)])
  }

  function Answered(call: CallData, b: string, num: nat, tid: nat): CallData {
    var d := Ringing(call, b, num, tid).dialog;
    call.(dialog := d.(state := DsConfirmed, callee := d.callee.(tag := "b", displayname := "")),
          trans := map[TransactionId(b, Invite) :=
                         Waiting(b, num, tid).(state := TERMINATED_TERMINATED, finalCode := 200, finalReason := "OK")])
  }

  ghost predicate Resting(call: CallData) {
    && call.trans == map[] && !call.reinvite && call.callId == "id"
    && (call.dialog.state == DsUndefined || (call.dialog.state == DsConfirmed && call.dialog.caller == ANN))
  }

  lemma InviteOutcome(call: CallData, b: string, num: nat, tid: nat)
    requires Resting(call)
    ensures var o := OnPacket(call, 0, RequestOf(Invite, b, num), tid, 0);
      && o.exit == Stay && o.call == Ringing(call, b, num, tid)
      && o.events == [InviteShown(tid, 0, "", call.dialog.state == DsConfirmed, false)]
  {
  }

  lemma SuccessOutcome(call: CallData, b: string, num: nat, tid: nat, tid': nat)
    requires Resting(call)
    ensures var o := OnPacket(Ringing(call, b, num, tid), 0, OkOf(b), tid', 0);
      && o.exit == Stay && o.call == Answered(call, b, num, tid)
      && o.events == [InviteShown(tid, 200, "OK", call.dialog.state == DsConfirmed, false)]
  {
  }

  lemma AckOutcome(call: CallData, b: string, a: string, num: nat, tid: nat, tid': nat)
    requires Resting(call) && a != b
    ensures var o := OnPacket(Answered(call, b, num, tid), 0, RequestOf(Ack, a, num), tid', 0);
      && o.exit == Stay && o.call == Answered(call, b, num, tid).(trans := map[])
      && o.events == [InviteShown(tid, 200, "OK", false, true)]
  {
    var call2 := Answered(call, b, num, tid);
    assert FindInvite(call2.trans) == Some(TransactionId(b, Invite)) by {
      assert TransactionId(b, Invite) in call2.trans;
    }
  }

  lemma AnswerAndAck(cfg: Config, s: System, call: CallData, es: seq<Event>, b: string, a: string, num: nat, tid: nat)
    requires Resting(call) && a != b
    requires Alone(s, Ringing(call, b, num, tid), es)
    ensures
      var s1 := Do(cfg, s, SipPacket(OkOf(b), false));
      var s2 := Do(cfg, s1, SipPacket(RequestOf(Ack, a, num), false));
      Alone(s2, Answered(call, b, num, tid).(trans := map[]),
            es + [InviteShown(tid, 200, "OK", call.dialog.state == DsConfirmed, false)]
              + [InviteShown(tid, 200, "OK", false, true)])
  {
    var flag := call.dialog.state == DsConfirmed;
    var s1 := Do(cfg, s, SipPacket(OkOf(b), false));
    var es1 := es + [InviteShown(tid, 200, "OK", flag, false)];
    SuccessOutcome(call, b, num, tid, s.w.nextTid);
    AloneStep(cfg, s, Ringing(call, b, num, tid), es, OkOf(b), Answered(call, b, num, tid), es1);
    AckOutcome(call, b, a, num, tid, s1.w.nextTid);
    AloneStep(cfg, s1, Answered(call, b, num, tid), es1, RequestOf(Ack, a, num),
      Answered(call, b, num, tid).(trans := map[]),
              es1 + [InviteShown(tid, 200, "OK", false, true)]);
  }

  lemma FirstInvite(cfg: Config)
    ensures var call := NewCallData(RequestOf(Invite, "1", 1), 0);
      Alone(Do(cfg, START, SipPacket(RequestOf(Invite, "1", 1), false)), Ringing(call, "1", 1, 0),
        [InviteShown(0, 0, "", false, false)])
  {
    var p := RequestOf(Invite, "1", 1);
    InviteOutcome(NewCallData(p, 0), "1", 1, 0);
    assert CreatesCall(START.w, p);
  }

  lemma Tally(es: seq<Event>, x: Event, y: Event, z: Event)
    ensures Analyser.Attempts(es + [x] + [y] + [z]) == Analyser.Attempts(es) +
      (if Analyser.IsAttempt(x) then 1 else 0) + (if Analyser.IsAttempt(y) then 1 else 0)
        + (if Analyser.IsAttempt(z) then 1 else 0)
    ensures Analyser.Completions(es + [x] + [y] + [z]) == Analyser.Completions(es) +
      (if Analyser.IsCompletion(x) then 1 else 0) + (if Analyser.IsCompletion(y) then 1 else 0)
        + (if Analyser.IsCompletion(z) then 1 else 0)
  {
    Analyser.TallyStep(es, x);
    Analyser.TallyStep(es + [x], y);
    Analyser.TallyStep(es + [x] + [y], z);
  }

  /** The call after its first setup. */
  const ONCE_SET_UP := Answered(NewCallData(RequestOf(Invite, "1", 1), 0), "1", 1, 0).(trans := map[])

  lemma FirstSetUp(cfg: Config)
    ensures Alone(Run(cfg, START, SetUp("1", "2", 1)), ONCE_SET_UP,
                  [] + [InviteShown(0, 0, "", false, false)] + [InviteShown(0, 200, "OK", false, false)]
                  + [InviteShown(0, 200, "OK", false, true)])
  {
    var acts := SetUp("1", "2", 1);
    var e1 := InviteShown(0, 0, "", false, false);
    RunThree(cfg, START, acts);
    FirstInvite(cfg);
    AnswerAndAck(cfg, Do(cfg, START, acts[0]), NewCallData(RequestOf(Invite, "1", 1), 0), [e1], "1", "2", 1, 0);
    assert [] + [e1] == [e1];
  }

  lemma SecondSetUp(cfg: Config, s: System, es: seq<Event>)
    requires Alone(s, ONCE_SET_UP, es)
    ensures
      var tid := s.w.nextTid;
      EventList(Run(cfg, s, SetUp("3", "4", 2)).w, "ann") ==
        es + [InviteShown(tid, 0, "", true, false)] + [InviteShown(tid, 200, "OK", true, false)]
          + [InviteShown(tid, 200, "OK", false, true)]
  {
    var tid, acts := s.w.nextTid, SetUp("3", "4", 2);
    var e4 := InviteShown(tid, 0, "", true, false);
    RunThree(cfg, s, acts);
    InviteOutcome(ONCE_SET_UP, "3", 2, tid);
    AloneStep(cfg, s, ONCE_SET_UP, es, RequestOf(Invite, "3", 2), Ringing(ONCE_SET_UP, "3", 2, tid), es + [e4]);
    AnswerAndAck(cfg, Do(cfg, s, acts[0]), ONCE_SET_UP, es + [e4], "3", "4", 2, tid);
  }

  /** INVITE, success, ACK, re-INVITE, success, ACK: one attempt, two completed calls. */
  lemma {:induction false} ReinviteCompletesTwice(cfg: Config)
    ensures var es := EventList(Run(cfg, START, SetUp("1", "2", 1) + SetUp("3", "4", 2)).w, "ann");
      Analyser.Attempts(es) == 1 && Analyser.Completions(es) == 2 && Analyser.Percent(2, 1) == 200
  {
    var first, second := SetUp("1", "2", 1), SetUp("3", "4", 2);
    RunConcat(cfg, START, first, second);
    var s3 := Run(cfg, START, first);
    FirstSetUp(cfg);
    CountsTwice(cfg, s3);
  }

  lemma CountsTwice(cfg: Config, s: System)
    requires Alone(s, ONCE_SET_UP, [] + [InviteShown(0, 0, "", false, false)]
      + [InviteShown(0, 200, "OK", false, false)]
                                   + [InviteShown(0, 200, "OK", false, true)])
    ensures var es := EventList(Run(cfg, s, SetUp("3", "4", 2)).w, "ann");
      Analyser.Attempts(es) == 1 && Analyser.Completions(es) == 2
  {
    var tid, es := s.w.nextTid, EventList(s.w, "ann");
    SecondSetUp(cfg, s, es);
    Tally([], InviteShown(0, 0, "", false, false), InviteShown(0, 200, "OK", false, false),
      InviteShown(0, 200, "OK", false, true));
    Tally(es, InviteShown(tid, 0, "", true, false), InviteShown(tid, 200, "OK", true, false),
      InviteShown(tid, 200, "OK", false, true));
  }

  // ---- a refused call ----

  function Busy(branch: string): Packet {
    OkOf(branch).(responseCode := 486, responseReason := "Busy")
  }

  /** The call after its INVITE was refused. */
  const BUSY_CALL := Ringing(NewCallData(RequestOf(Invite, "1", 1), 0), "1", 1, 0).(
    trans := map[TransactionId("1", Invite) := Waiting("1", 1, 0).(state := TERMINATED_COMPLETED, finalCode := 486,
                                                                   finalReason := "Busy")])

  lemma BusyOutcome(tid: nat)
    ensures var o := OnPacket(Ringing(NewCallData(RequestOf(Invite, "1", 1), 0), "1", 1, 0), 0, Busy("1"), tid, 0);
      o.exit == Stay && o.call == BUSY_CALL && o.events == [InviteShown(0, 486, "Busy", false, false)]
  {
  }

  lemma BusyAckOutcome(tid: nat)
    ensures var o := OnPacket(BUSY_CALL, 0, RequestOf(Ack, "1", 1), tid, 0);
      o.call.dialog.caller == ANN && o.events == [InviteShown(0, 486, "Busy", false, true)]
  {
  }

  lemma BusyAckStep(cfg: Config, s: System, es: seq<Event>)
    requires Alone(s, BUSY_CALL, es)
    ensures EventList(Do(cfg, s, SipPacket(RequestOf(Ack, "1", 1), false)).w, "ann") ==
      es + [InviteShown(0, 486, "Busy", false, true)]
  {
    BusyAckOutcome(s.w.nextTid);
  }

  lemma BusyStep(cfg: Config, s: System)
    requires Alone(s, Ringing(NewCallData(RequestOf(Invite, "1", 1), 0), "1", 1, 0),
      [InviteShown(0, 0, "", false, false)])
    ensures Alone(Do(cfg, s, SipPacket(Busy("1"), false)), BUSY_CALL, Refusing())
    ensures Do(cfg, s, SipPacket(Busy("1"), false)).w.nextTid == s.w.nextTid
  {
    BusyOutcome(s.w.nextTid);
    AloneStep(cfg, s, Ringing(NewCallData(RequestOf(Invite, "1", 1), 0), "1", 1, 0),
      [InviteShown(0, 0, "", false, false)], Busy("1"), BUSY_CALL, Refusing());
  }

  function Refusing(): seq<Event> {
    [InviteShown(0, 0, "", false, false)] + [InviteShown(0, 486, "Busy", false, false)]
  }

  lemma RefusalTallies(es: seq<Event>)
    requires es == Refusing() + [InviteShown(0, 486, "Busy", false, true)]
    ensures |es| == 3 && es[2].InviteEvent? && es[2].ack && es[2].code == 486
    ensures Analyser.Attempts(es) == 1 && Analyser.Completions(es) == 0 && Analyser.Percent(0, 1) == 0
  {
    Tally([], InviteShown(0, 0, "", false, false), InviteShown(0, 486, "Busy", false, false),
      InviteShown(0, 486, "Busy", false, true));
    assert [] + [InviteShown(0, 0, "", false, false)] == [InviteShown(0, 0, "", false, false)];
    Analyser.PercentIsRounded(0, 1);
  }

  /** INVITE, 486, ACK: one attempt, no completed call, 0 percent, although the refusal was acknowledged. */
  lemma {:induction false} RefusalIsNotCompleted(cfg: Config, s1: System, s2: System, s: System)
    requires s1 == Do(cfg, START, SipPacket(RequestOf(Invite, "1", 1), false))
    requires s2 == Do(cfg, s1, SipPacket(Busy("1"), false))
    requires s == Do(cfg, s2, SipPacket(RequestOf(Ack, "1", 1), false))
    ensures var es := EventList(s.w, "ann");
      && |es| == 3 && es[2].InviteEvent? && es[2].ack && es[2].code == 486
      && Analyser.Attempts(es) == 1 && Analyser.Completions(es) == 0 && Analyser.Percent(0, 1) == 0
  {
    FirstInvite(cfg);
    BusyStep(cfg, s1);
    BusyAckStep(cfg, s2, Refusing());
    RefusalTallies(EventList(s.w, "ann"));
  }

  // ---- a cancelled call is two attempts ----

  /** The CANCEL of an INVITE without final response makes a further event that counts as an
      attempt of the same transaction, unless the call is in a re-INVITE. */
  lemma CancelIsAnAttempt(call: CallData, c: nat, p: Packet, tid: nat, now: int)
    requires CallInv(call) && TransactionId(p.branch, Invite) in call.trans && p.cseqMethod == Cancel
    requires p.sentBy == call.trans[TransactionId(p.branch, Invite)].sentBy
    ensures var o, t := OnCancel(call, c, p, tid, now), call.trans[TransactionId(p.branch, Invite)];
      && |o.events| == 2 && o.events[1].InviteEvent? && o.events[1].tid == t.tid && !Analyser.IsAttempt(o.events[0])
      && (Analyser.IsAttempt(o.events[1]) <==> t.finalCode == 0 && !call.reinvite)
  {
    var k := TransactionId(p.branch, Invite);
    assert call.trans[k].id == k;
  }

  /** The call after the CANCEL of its INVITE. */
  const CANCELLED := Ringing(NewCallData(RequestOf(Invite, "1", 1), 0), "1", 1, 0).(
    trans := map[TransactionId("1", Invite) := Waiting("1", 1, 0).(cancelFlag := true),
                 TransactionId("1", Cancel) := NewTransaction(RequestOf(Cancel, "1", 1), 1).(state := TRYING_TRYING)])

  const CANCEL_SHOWN := CancelEvent(0, 0, 1, "id", ANN, ANN, 0, "")

  lemma CancelOutcome()
    ensures var call := Ringing(NewCallData(RequestOf(Invite, "1", 1), 0), "1", 1, 0);
      var o := OnPacket(call, 0, RequestOf(Cancel, "1", 1), 1, 0);
      && o.exit == Stay && o.call == CANCELLED
      && o.events == [CANCEL_SHOWN, InviteShown(0, 0, "", false, false).(cancel := true)]
  {
    var call := Ringing(NewCallData(RequestOf(Invite, "1", 1), 0), "1", 1, 0);
    var o := OnPacket(call, 0, RequestOf(Cancel, "1", 1), 1, 0);
    assert o.call.trans == CANCELLED.trans;
  }

  lemma TwoAttempts(es: seq<Event>)
    requires es ==
      [InviteShown(0, 0, "", false, false)] + [CANCEL_SHOWN, InviteShown(0, 0, "", false, false).(cancel := true)]
    ensures Analyser.Attempts(es) == 2 && Tried(es) == {0}
  {
    var a, b, c := es[0], es[1], es[2];
    assert es == [] + [a] + [b] + [c];
    Tally([], a, b, c);
    assert Analyser.IsAttempt(es[0]) && Analyser.IsAttempt(es[2]);
  }

  lemma FirstTid(cfg: Config)
    ensures Do(cfg, START, SipPacket(RequestOf(Invite, "1", 1), false)).w.nextTid == 1
  {
    InviteOutcome(NewCallData(RequestOf(Invite, "1", 1), 0), "1", 1, 0);
  }

  lemma CancelStep(cfg: Config, s: System)
    requires Alone(s, Ringing(NewCallData(RequestOf(Invite, "1", 1), 0), "1", 1, 0),
      [InviteShown(0, 0, "", false, false)])
    requires s.w.nextTid == 1
    ensures Alone(Do(cfg, s, SipPacket(RequestOf(Cancel, "1", 1), false)), CANCELLED,
                  [InviteShown(0, 0, "", false, false)]
                    + [CANCEL_SHOWN, InviteShown(0, 0, "", false, false).(cancel := true)])
  {
    CancelOutcome();
    AloneStep(cfg, s, Ringing(NewCallData(RequestOf(Invite, "1", 1), 0), "1", 1, 0),
      [InviteShown(0, 0, "", false, false)],
              RequestOf(Cancel, "1", 1), CANCELLED,
              [InviteShown(0, 0, "", false, false)]
                + [CANCEL_SHOWN, InviteShown(0, 0, "", false, false).(cancel := true)]);
  }

  /** INVITE, CANCEL: one call, and two attempts of one transaction. */
  lemma {:induction false} CancelCountsTwice(cfg: Config, s: System, r: System)
    requires s == Do(cfg, START, SipPacket(RequestOf(Invite, "1", 1), false))
    requires r == Do(cfg, s, SipPacket(RequestOf(Cancel, "1", 1), false))
    ensures |r.w.calls| == 1 && Analyser.Attempts(EventList(r.w, "ann")) == 2 && |Tried(EventList(r.w, "ann"))| == 1
  {
    FirstInvite(cfg);
    FirstTid(cfg);
    CancelStep(cfg, s);
    TwoAttempts(EventList(r.w, "ann"));
  }
}
