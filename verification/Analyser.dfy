/**
 The signalling-based analysis (src/sba/SigBasedAna.cpp): one-pass sweeps over the events
 of a caller. The sweep for concurrent calls is proved to compute an offline maximum.
 */
module Analyser {
  import opened SipTypes
  import opened Signalling

  // ---- the analysis window ----

  const MINUTE_IN_SECONDS := 60
  const SECOND_IN_TICKS: nat := 1_000_000_000

  /** boost::chrono::duration_cast truncates towards zero. */
  function Truncate(d: int, unit: nat): int
    requires unit > 0
  {
    if d >= 0 then d / unit else -(-d / unit)
  }

  predicate IsInPeriod(analyzeTs: int, eventTs: int, period: int) {
    && Truncate(analyzeTs - eventTs, MINUTE_IN_SECONDS * SECOND_IN_TICKS) < period
    && Truncate(analyzeTs - eventTs, SECOND_IN_TICKS) > 0
  }

  /** The window holds the events at least a second and less than `period` minutes old. */
  lemma PeriodIsAnInterval(analyzeTs: int, eventTs: int, period: int)
    ensures IsInPeriod(analyzeTs, eventTs, period) <==>
      SECOND_IN_TICKS <= analyzeTs - eventTs < period * MINUTE_IN_SECONDS * SECOND_IN_TICKS
  {
  }

  /** The events of the window, in order. */
  function Window(es: seq<Event>, analyzeTs: int, period: int): seq<Event> {
    if es == [] then []
    else
      var n := |es| - 1;
      Window(es[..n], analyzeTs, period) + (if IsInPeriod(analyzeTs, es[n].ts, period) then [es[n]] else [])
  }

  lemma {:induction false} WindowIsPart(es: seq<Event>, analyzeTs: int, period: int)
    ensures forall e <- Window(es, analyzeTs, period) :: e in es
    decreases |es|
  {
    if es != [] { WindowIsPart(es[..|es| - 1], analyzeTs, period); }
  }

  // ---- what is counted ----

  /** An acknowledged initial INVITE with a success response. */
  predicate Starts(e: Event) {
    e.InviteEvent? && !e.reinvite && e.ack && 200 <= e.code < 300
  }

  /** A BYE with a final response. */
  predicate Ends(e: Event) {
    e.ByeEvent? && e.code != 0
  }

  predicate IsAttempt(e: Event) {
    e.InviteEvent? && !e.reinvite && e.code == 0
  }

  predicate IsCompletion(e: Event) {
    e.InviteEvent? && !e.reinvite && e.ack && e.code == 200
  }

  function Attempts(es: seq<Event>): nat {
    if es == [] then 0 else Attempts(es[..|es| - 1]) + (if IsAttempt(es[|es| - 1]) then 1 else 0)
  }

  function Completions(es: seq<Event>): nat {
    if es == [] then 0 else Completions(es[..|es| - 1]) + (if IsCompletion(es[|es| - 1]) then 1 else 0)
  }

  lemma TallyStep(es: seq<Event>, e: Event)
    ensures Attempts(es + [e]) == Attempts(es) + (if IsAttempt(e) then 1 else 0)
    ensures Completions(es + [e]) == Completions(es) + (if IsCompletion(e) then 1 else 0)
  {
    assert (es + [e])[..|es|] == es;
  }

  /** By the fields of the event: an attempt is an INVITE, not in a re-INVITE, without final
      response; it is completed by the acknowledgement of a response 200. Nothing else counts. */
  lemma TallyByFields(es: seq<Event>, e: Event)
    ensures Attempts(es + [e]) == Attempts(es) + (if e.InviteEvent? && !e.reinvite && e.code == 0 then 1 else 0)
    ensures Completions(es + [e]) ==
      Completions(es) + (if e.InviteEvent? && !e.reinvite && e.ack && e.code == 200 then 1 else 0)
    ensures Attempts([]) == 0 && Completions([]) == 0
  {
    TallyStep(es, e);
  }

  // ---- the concurrent-calls sweep ----

  /** callIdSet after the events. */
  function Ids(es: seq<Event>): set<string> {
    if es == [] then {}
    else
      var e, ids := es[|es| - 1], Ids(es[..|es| - 1]);
      if Starts(e) then ids + {e.callId} else if Ends(e) then ids - {e.callId} else ids
  }

  /** The BYE ends a call whose INVITE is not in the events before it. */
  predicate Unmatched(before: seq<Event>, e: Event) {
    Ends(e) && e.callId !in Ids(before)
  }

  function UnmatchedByes(es: seq<Event>): nat {
    if es == [] then 0
    else UnmatchedByes(es[..|es| - 1]) + (if Unmatched(es[..|es| - 1], es[|es| - 1]) then 1 else 0)
  }

  /** Acknowledged INVITEs whose Call-ID is in callIdSet already. */
  function Repeats(es: seq<Event>): nat {
    if es == [] then 0
    else Repeats(es[..|es| - 1]) + (if Starts(es[|es| - 1]) && es[|es| - 1].callId in Ids(es[..|es| - 1]) then 1 else 0)
  }

  /** call_counter after the events. */
  function Counter(es: seq<Event>): int {
    |Ids(es)| + Repeats(es)
  }

  /** Calls counted after i events, with those whose unmatched BYE is still to come. */
  function LoadAt(es: seq<Event>, i: nat): int
    requires i <= |es|
  {
    Counter(es[..i]) + UnmatchedByes(es) - UnmatchedByes(es[..i])
  }

  ghost predicate IsPeak(es: seq<Event>, peak: int) {
    && (forall i | 0 <= i <= |es| :: LoadAt(es, i) <= peak)
    && (exists i | 0 <= i <= |es| :: LoadAt(es, i) == peak)
  }

  /** One more event moves every earlier load by what it adds to the unmatched BYEs. */
  lemma LoadExtends(es: seq<Event>, e: Event, i: nat)
    requires i <= |es|
    ensures LoadAt(es + [e], i) == LoadAt(es, i) + (if Unmatched(es, e) then 1 else 0)
    ensures LoadAt(es + [e], |es| + 1) == Counter(es + [e])
  {
    assert (es + [e])[..i] == es[..i];
    assert (es + [e])[..|es|] == es;
    assert (es + [e])[..|es| + 1] == es + [e];
  }

  lemma CounterStep(es: seq<Event>, e: Event)
    ensures Counter(es + [e]) ==
      Counter(es) + (if Starts(e) then 1 else if Ends(e) && e.callId in Ids(es) then -1 else 0)
  {
    assert (es + [e])[..|es|] == es;
    if e.callId in Ids(es) {
      assert Starts(e) ==> Ids(es + [e]) == Ids(es);
      assert Ids(es) == (Ids(es) - {e.callId}) + {e.callId};
    } else {
      assert Ids(es) - {e.callId} == Ids(es);
    }
  }

  lemma PeakStep(es: seq<Event>, e: Event, peak: int)
    requires IsPeak(es, peak)
    ensures IsPeak(es + [e], if Unmatched(es, e) then peak + 1
                             else if Starts(e) && Counter(es) + 1 > peak then peak + 1 else peak)
  {
    var es' := es + [e];
    var peak' := if Unmatched(es, e) then peak + 1 else if Starts(e) && Counter(es) + 1 > peak then peak + 1 else peak;
    CounterStep(es, e);
    LoadExtends(es, e, |es|);
    assert es[..|es|] == es;
    assert LoadAt(es, |es|) == Counter(es);
    forall i | 0 <= i <= |es'| ensures LoadAt(es', i) <= peak' {
      if i <= |es| { LoadExtends(es, e, i); }
    }
    if peak' == peak + 1 && !Unmatched(es, e) {
      assert LoadAt(es', |es'|) == peak';
    } else {
      var i :| 0 <= i <= |es| && LoadAt(es, i) == peak;
      LoadExtends(es, e, i);
      assert LoadAt(es', i) == peak';
    }
  }

  /** What one event of the window does to the variables of the sweep. */
  lemma SweepStep(es: seq<Event>, e: Event, peak: int)
    requires IsPeak(es, peak)
    ensures Ids(es + [e]) ==
      (if Starts(e) then Ids(es) + {e.callId} else if Ends(e) then Ids(es) - {e.callId} else Ids(es))
    ensures Counter(es + [e]) ==
      Counter(es) + (if Starts(e) then 1 else if Ends(e) && e.callId in Ids(es) then -1 else 0)
    ensures IsPeak(es + [e], if Ends(e) && e.callId !in Ids(es) then peak + 1
                             else if Starts(e) && Counter(es) + 1 > peak then peak + 1 else peak)
  {
    assert (es + [e])[..|es|] == es;
    CounterStep(es, e);
    PeakStep(es, e, peak);
  }

  /** By the fields of the event: an INVITE that is not acknowledged, or in a re-INVITE, or with
      another response than 2xx, a BYE without final response, and every event of another kind
      leave the counter and all loads as they are, and every call up or not. */
  lemma OthersCountNothing(es: seq<Event>, e: Event, i: nat)
    requires i <= |es|
    requires e.InviteEvent? ==> e.reinvite || !e.ack || e.code < 200 || e.code >= 300
    requires e.ByeEvent? ==> e.code == 0
    ensures Counter(es + [e]) == Counter(es) && LoadAt(es + [e], i) == LoadAt(es, i)
    ensures LoadAt(es + [e], |es| + 1) == LoadAt(es, |es|)
    ensures UpAt(es + [e], i) == UpAt(es, i) && UpAt(es + [e], |es| + 1) == UpAt(es, |es|)
  {
    CounterStep(es, e);
    LoadExtends(es, e, i);
    assert es[..|es|] == es;
    forall id ensures IsUp(es + [e], i, id) <==> IsUp(es, i, id) { UpWithOne(es, e, i, id); }
    forall id ensures IsUp(es + [e], |es| + 1, id) <==> IsUp(es, |es|, id) {
      UpWithOne(es, e, |es|, id);
      OthersStayUp(es + [e], |es|, id);
    }
  }

  lemma UpWithOne(es: seq<Event>, e: Event, i: nat, id: string)
    requires i <= |es| && !Starts(e) && !Ends(e)
    ensures IsUp(es + [e], i, id) <==> IsUp(es, i, id)
  {
    var es' := es + [e];
    assert forall j | 0 <= j < |es| :: es'[j] == es[j];
    assert StartsIn(es', 0, i, id) <==> StartsIn(es, 0, i, id);
    assert EndsIn(es', 0, i, id) <==> EndsIn(es, 0, i, id);
    assert EndsIn(es', i, |es'|, id) <==> EndsIn(es, i, |es|, id);
    assert StartsIn(es', 0, |es'|, id) <==> StartsIn(es, 0, |es|, id);
  }

  /** An acknowledged INVITE with a 2xx response, not in a re-INVITE, adds one from then on. */
  lemma StartCountsOne(es: seq<Event>, e: Event, i: nat)
    requires i <= |es| && e.InviteEvent? && !e.reinvite && e.ack && 200 <= e.code <= 299
    ensures Counter(es + [e]) == Counter(es) + 1 && LoadAt(es + [e], i) == LoadAt(es, i)
    ensures LoadAt(es + [e], |es| + 1) == LoadAt(es, |es|) + 1 && e.callId in Ids(es + [e])
  {
    CounterStep(es, e);
    LoadExtends(es, e, i);
    assert es[..|es|] == es && (es + [e])[..|es|] == es;
  }

  /** A BYE with a final response takes one off if its call was started in the list, and else
      adds one to all loads before it. */
  lemma EndCountsOne(es: seq<Event>, e: Event, i: nat)
    requires i <= |es| && e.ByeEvent? && e.code != 0
    ensures Counter(es + [e]) == Counter(es) - (if e.callId in Ids(es) then 1 else 0)
    ensures LoadAt(es + [e], i) == LoadAt(es, i) + (if e.callId in Ids(es) then 0 else 1)
    ensures e.callId !in Ids(es + [e])
  {
    CounterStep(es, e);
    LoadExtends(es, e, i);
    assert (es + [e])[..|es|] == es;
  }

  lemma WindowStep(es: seq<Event>, n: nat, analyzeTs: int, period: int)
    requires n < |es|
    ensures Window(es[..n + 1], analyzeTs, period) ==
      Window(es[..n], analyzeTs, period) + (if IsInPeriod(analyzeTs, es[n].ts, period) then [es[n]] else [])
  {
    assert es[..n + 1][..n] == es[..n];
  }

  lemma EmptyPeak()
    ensures IsPeak([], 0)
  {
    assert LoadAt([], 0) == 0;
  }

  // ---- what the peak means for calls ----

  /** Each Call-ID is ended at most once in the list, and not started after that. */
  ghost predicate EndsOnce(es: seq<Event>) {
    && (forall i, j | 0 <= i < j < |es| && Ends(es[i]) && Ends(es[j]) :: es[i].callId != es[j].callId)
    && (forall i, j | 0 <= i < j < |es| && Ends(es[i]) && Starts(es[j]) :: es[i].callId != es[j].callId)
  }

  /** And it is started at most once. */
  ghost predicate Orderly(es: seq<Event>) {
    && EndsOnce(es)
    && (forall i, j | 0 <= i < j < |es| && Starts(es[i]) && Starts(es[j]) :: es[i].callId != es[j].callId)
  }

  predicate StartsIn(es: seq<Event>, lo: nat, hi: nat, id: string)
    requires lo <= hi <= |es|
  {
    exists a | lo <= a < hi :: Starts(es[a]) && es[a].callId == id
  }

  predicate EndsIn(es: seq<Event>, lo: nat, hi: nat, id: string)
    requires lo <= hi <= |es|
  {
    exists b | lo <= b < hi :: Ends(es[b]) && es[b].callId == id
  }

  /** As far as the window shows, the call is up after i events of it: it was started in the
      window and has not ended, or it was started before the window and ends later in it. */
  predicate IsUp(es: seq<Event>, i: nat, id: string)
    requires i <= |es|
  {
    || (StartsIn(es, 0, i, id) && !EndsIn(es, 0, i, id))
    || (EndsIn(es, i, |es|, id) && !StartsIn(es, 0, |es|, id))
  }

  /** The calls that are up after i events. */
  function UpAt(es: seq<Event>, i: nat): (up: set<string>)
    requires i <= |es|
    ensures forall id :: id in up <==> IsUp(es, i, id)
  {
    set j | 0 <= j < |es| && IsUp(es, i, es[j].callId) :: es[j].callId
  }

  lemma OneMore(some: set<string>, more: set<string>, id: string)
    requires id in more && id !in some && forall x | x != id :: x in more <==> x in some
    ensures |more| == |some| + 1
  {
    assert more == some + {id};
  }

  /** A start makes the call come up if it is not in callIdSet, and an end makes it go. */
  lemma UpStep(es: seq<Event>, i: nat)
    requires EndsOnce(es) && i < |es|
    ensures |UpAt(es, i + 1)| ==
      |UpAt(es, i)| + (if Starts(es[i]) && es[i].callId !in Ids(es[..i]) then 1 else if Ends(es[i]) then -1 else 0)
  {
    var id, before, after := es[i].callId, UpAt(es, i), UpAt(es, i + 1);
    forall x | x != id || !(Starts(es[i]) || Ends(es[i])) ensures x in after <==> x in before {
      OthersStayUp(es, i, x);
    }
    IdsAreUp(es, i);
    if Starts(es[i]) {
      StartedIsUpAfter(es, i);
      if id in Ids(es[..i]) {
        assert after == before;
      } else {
        OneMore(before, after, id);
      }
    } else if Ends(es[i]) {
      EndedIsUpBefore(es, i);
      OneMore(after, before, id);
    } else {
      assert after == before;
    }
  }

  lemma OthersStayUp(es: seq<Event>, i: nat, id: string)
    requires i < |es| && (id != es[i].callId || !(Starts(es[i]) || Ends(es[i])))
    ensures IsUp(es, i + 1, id) <==> IsUp(es, i, id)
  {
    assert StartsIn(es, 0, i + 1, id) <==> StartsIn(es, 0, i, id);
    assert EndsIn(es, 0, i + 1, id) <==> EndsIn(es, 0, i, id);
    assert EndsIn(es, i, |es|, id) <==> EndsIn(es, i + 1, |es|, id);
  }

  lemma StartedIsUpAfter(es: seq<Event>, i: nat)
    requires EndsOnce(es) && i < |es| && Starts(es[i])
    ensures IsUp(es, i + 1, es[i].callId) && (IsUp(es, i, es[i].callId) <==> StartsIn(es, 0, i, es[i].callId))
    ensures !EndsIn(es, 0, i, es[i].callId)
  {
    assert StartsIn(es, 0, i + 1, es[i].callId) && StartsIn(es, 0, |es|, es[i].callId);
  }

  lemma EndedIsUpBefore(es: seq<Event>, i: nat)
    requires EndsOnce(es) && i < |es| && Ends(es[i])
    ensures IsUp(es, i, es[i].callId) && !IsUp(es, i + 1, es[i].callId)
  {
    var id := es[i].callId;
    assert EndsIn(es, 0, i + 1, id) && EndsIn(es, i, |es|, id);
    assert !EndsIn(es, i + 1, |es|, id) && !EndsIn(es, 0, i, id);
    if StartsIn(es, 0, |es|, id) {
      assert StartsIn(es, 0, i, id);
    }
  }

  /** callIdSet is the set of calls started and not ended. */
  lemma {:induction false} IdsAreUp(es: seq<Event>, i: nat)
    requires EndsOnce(es) && i <= |es|
    ensures forall id :: id in Ids(es[..i]) <==> StartsIn(es, 0, i, id) && !EndsIn(es, 0, i, id)
  {
    if i > 0 {
      var e := es[i - 1];
      IdsAreUp(es, i - 1);
      assert es[..i][..i - 1] == es[..i - 1];
      forall id ensures id in Ids(es[..i]) <==> StartsIn(es, 0, i, id) && !EndsIn(es, 0, i, id) {
        assert StartsIn(es, 0, i, id) <==> StartsIn(es, 0, i - 1, id) || (Starts(e) && e.callId == id);
        assert EndsIn(es, 0, i, id) <==> EndsIn(es, 0, i - 1, id) || (Ends(e) && e.callId == id);
      }
    }
  }

  /** No Call-ID of an orderly list is counted twice. */
  lemma {:induction false} OrderlyHasNoRepeats(es: seq<Event>, i: nat)
    requires Orderly(es) && i <= |es|
    ensures Repeats(es[..i]) == 0
  {
    if i > 0 {
      OrderlyHasNoRepeats(es, i - 1);
      IdsAreUp(es, i - 1);
      assert es[..i][..i - 1] == es[..i - 1];
    }
  }

  lemma RepeatsStep(es: seq<Event>, i: nat)
    requires i < |es|
    ensures Repeats(es[..i + 1]) == Repeats(es[..i]) + (if Starts(es[i]) && es[i].callId in Ids(es[..i]) then 1 else 0)
  {
    assert es[..i + 1][..i] == es[..i];
  }

  /** Repeats never go away. */
  lemma {:induction false} RepeatsGrow(es: seq<Event>, i: nat, j: nat)
    requires i <= j <= |es|
    ensures Repeats(es[..i]) <= Repeats(es[..j])
    decreases j - i
  {
    if i < j {
      RepeatsStep(es, j - 1);
      RepeatsGrow(es, i, j - 1);
    }
  }

  lemma LoadStep(es: seq<Event>, i: nat)
    requires i < |es|
    ensures LoadAt(es, i + 1) == LoadAt(es, i) + (if Starts(es[i]) then 1 else if Ends(es[i]) then -1 else 0)
  {
    assert es[..i + 1] == es[..i] + [es[i]] && es[..i + 1][..i] == es[..i];
    CounterStep(es[..i], es[i]);
  }

  /** The load after i events is the number of calls that are up then, and that of starts
      repeated until then, by which it is wrong from then on. */
  lemma {:induction false} LoadIsCallsUp(es: seq<Event>, i: nat)
    requires EndsOnce(es) && i <= |es|
    ensures LoadAt(es, i) == |UpAt(es, i)| + Repeats(es[..i])
    decreases |es| - i
  {
    if i == |es| {
      IdsAreUp(es, i);
      assert es[..i] == es;
      assert UpAt(es, i) == Ids(es);
    } else {
      LoadIsCallsUp(es, i + 1);
      LoadStep(es, i);
      UpStep(es, i);
      RepeatsStep(es, i);
    }
  }

  /** The greatest number of calls up at any time. */
  ghost predicate IsMostUp(es: seq<Event>, most: int) {
    && (forall i | 0 <= i <= |es| :: |UpAt(es, i)| <= most)
    && (exists i | 0 <= i <= |es| :: |UpAt(es, i)| == most)
  }

  lemma {:induction false} MostUpExists(es: seq<Event>, n: nat) returns (most: int)
    requires n <= |es|
    ensures forall i | 0 <= i <= n :: |UpAt(es, i)| <= most
    ensures exists i | 0 <= i <= n :: |UpAt(es, i)| == most
    ensures n == |es| ==> IsMostUp(es, most)
  {
    most := |UpAt(es, n)|;
    if n > 0 {
      var before := MostUpExists(es, n - 1);
      if before > most { most := before; }
    }
  }

  /** All loads are the numbers of calls up if and only if no start is repeated. */
  lemma LoadsAreRightIff(es: seq<Event>)
    requires EndsOnce(es)
    ensures (forall i | 0 <= i <= |es| :: LoadAt(es, i) == |UpAt(es, i)|) <==> Repeats(es) == 0
  {
    assert es[..|es|] == es;
    forall i | 0 <= i <= |es| ensures LoadAt(es, i) == |UpAt(es, i)| + Repeats(es[..i])
      && Repeats(es[..i]) <= Repeats(es) {
      LoadIsCallsUp(es, i);
      RepeatsGrow(es, i, |es|);
    }
    if forall i | 0 <= i <= |es| :: LoadAt(es, i) == |UpAt(es, i)| {
      assert LoadAt(es, |es|) == |UpAt(es, |es|)|;
    }
  }

  /** The sweep finds the greatest number of calls up if and only if, with the starts repeated
      by then, the calls up never exceed it. */
  lemma PeakIsMostUpIff(es: seq<Event>, most: int)
    requires EndsOnce(es) && IsMostUp(es, most)
    ensures IsPeak(es, most) <==> forall i | 0 <= i <= |es| :: |UpAt(es, i)| + Repeats(es[..i]) <= most
  {
    forall i | 0 <= i <= |es| ensures LoadAt(es, i) == |UpAt(es, i)| + Repeats(es[..i]) {
      LoadIsCallsUp(es, i);
    }
    if forall i | 0 <= i <= |es| :: |UpAt(es, i)| + Repeats(es[..i]) <= most {
      var i :| 0 <= i <= |es| && |UpAt(es, i)| == most;
      assert LoadAt(es, i) == most;
    }
  }

  /** In an orderly window the sweep finds the greatest number of calls up at any time. */
  lemma PeakIsMostCallsUp(es: seq<Event>, peak: int)
    requires Orderly(es)
    ensures IsPeak(es, peak) <==> IsMostUp(es, peak)
  {
    forall i | 0 <= i <= |es| ensures LoadAt(es, i) == |UpAt(es, i)| {
      LoadIsCallsUp(es, i);
      OrderlyHasNoRepeats(es, i);
    }
  }

  /** The ACK event of a re-INVITE does not carry the re-INVITE flag. A second such event
      of one call makes the sweep see two calls. */
  lemma RepeatedStartCountsTwice(e: Event, e': Event)
    requires Starts(e) && Starts(e') && e.callId == e'.callId
    ensures Counter([e, e']) == 2 && IsPeak([e, e'], 2) && |UpAt([e, e'], 2)| == 1
  {
    OneStart(e);
    SecondStart([e], e');
    assert [e] + [e'] == [e, e'];
    OneIsUp(e, e');
  }

  lemma OneStart(e: Event)
    requires Starts(e)
    ensures Counter([e]) == 1 && IsPeak([e], 1) && Ids([e]) == {e.callId}
  {
    EmptyPeak();
    SweepStep([], e, 0);
    assert [] + [e] == [e];
  }

  lemma SecondStart(es: seq<Event>, e: Event)
    requires Starts(e) && Counter(es) == 1 && IsPeak(es, 1)
    ensures Counter(es + [e]) == 2 && IsPeak(es + [e], 2)
  {
    SweepStep(es, e, 1);
  }

  lemma OneIsUp(e: Event, e': Event)
    requires Starts(e) && Starts(e') && e.callId == e'.callId
    ensures |UpAt([e, e'], 2)| == 1
  {
    var es := [e, e'];
    assert StartsIn(es, 0, 2, e.callId) by { assert Starts(es[0]); }
    assert !EndsIn(es, 0, 2, e.callId);
    assert UpAt(es, 2) == {e.callId};
  }

  // ---- rounding to per cent ----

  /** floor(part * 1.0 / whole * 100 + 0.5), without the rounding of doubles. */
  function Percent(part: nat, whole: nat): int
    requires whole > 0
  {
    (part as real / whole as real * 100.0 + 0.5).Floor
  }

  lemma PercentIsRounded(part: nat, whole: nat)
    requires whole > 0
    ensures var percent := Percent(part, whole) as real;
      percent - 0.5 <= part as real / whole as real * 100.0 < percent + 0.5
    ensures part <= whole ==> 0 <= Percent(part, whole) <= 100
    ensures 0 <= Percent(part, whole) && (Percent(part, whole) <= 100 <==> 200 * part < 201 * whole)
  {
    Ratio(part as real, whole as real, part as real / whole as real);
    assert (200 * part) as real == 200.0 * part as real && (201 * whole) as real == 201.0 * whole as real;
  }

  lemma Ratio(part: real, whole: real, ratio: real)
    requires part >= 0.0 && whole > 0.0 && ratio == part / whole
    ensures ratio >= 0.0 && (part <= whole ==> ratio <= 1.0) && (ratio < 1.005 <==> 200.0 * part < 201.0 * whole)
  {
    assert ratio * whole == part;
    RatioIs(part, whole, ratio);
  }

  lemma RatioIs(part: real, whole: real, ratio: real)
    requires part >= 0.0 && whole > 0.0 && part == ratio * whole
    ensures ratio >= 0.0 && (part <= whole ==> ratio <= 1.0) && (ratio < 1.005 <==> 200.0 * part < 201.0 * whole)
  {
    Less(ratio, 0.0, whole, part, 0.0);
    Less(1.0, ratio, whole, whole, part);
    Less(ratio, 1.005, whole, part, 1.005 * whole);
  }

  lemma Less(a: real, b: real, whole: real, part: real, part': real)
    requires whole > 0.0 && part == a * whole && part' == b * whole
    ensures a < b <==> part < part'
  {
    assert part' - part == (b - a) * whole;
  }

  // ---- the analyser ----

  datatype IncidentType = CallAttempts | CallsConcurrent | CallCompletion

  datatype Incident = Incident(kind: IncidentType, caller: string, period: int, value: int, higherIsEvil: bool)

  datatype Config = Config(
    callsConcurrentPeriod: int, callsConcurrentMax: int,
    callCompletionPeriod: int, callCompletionMin: int, callCompletionAttemptsMin: int,
    callAttemptsPeriod: int, callAttemptsMax: int)

  class SigBasedAna {
    const config: Config
    var analyzeTs: int
    /** The caller's set holds pointers to incidents, so equal incidents are kept apart. */
    var incidents: map<string, multiset<Incident>>

    constructor (config: Config)
      ensures this.config == config && incidents == map[]
    {
      this.config := config;
      analyzeTs := 0;
      incidents := map[];
    }

    /** The loop of analyzeCallsConcurrent. */
    method SweepCallsConcurrent(events: seq<Event>, period: int) returns (callsConcurrent: int, callCounter: int)
      ensures IsPeak(Window(events, analyzeTs, period), callsConcurrent)
      ensures callCounter == Counter(Window(events, analyzeTs, period))
    {
      var callIdSet: set<string> := {};
      callsConcurrent, callCounter := 0, 0;
      ghost var seen: seq<Event> := [];
      EmptyPeak();
      for n := 0 to |events|
        invariant seen == Window(events[..n], analyzeTs, period)
        invariant callIdSet == Ids(seen) && callCounter == Counter(seen) && IsPeak(seen, callsConcurrent)
      {
        var e := events[n];
        WindowStep(events, n, analyzeTs, period);
        if !IsInPeriod(analyzeTs, e.ts, period) {
          assert seen + [] == seen;
          continue;
        }
        SweepStep(seen, e, callsConcurrent);
        seen := seen + [e];
        if e.InviteEvent? {
          if !e.reinvite && e.ack && e.code >= 200 && e.code < 300 {
            callIdSet := callIdSet + {e.callId};
            callCounter := callCounter + 1;
            if callCounter > callsConcurrent {
              callsConcurrent := callsConcurrent + 1;
            }
          }
        } else if e.ByeEvent? {
          if e.code == 0 {
            continue;
          }
          if e.callId in callIdSet {
            callIdSet := callIdSet - {e.callId};
            callCounter := callCounter - 1;
          } else {
            callsConcurrent := callsConcurrent + 1;
          }
        }
      }
      assert events[..|events|] == events;
    }

    /** insertIncident: the caller's set gets the incident, other callers' sets stay. */
    method InsertIncident(incident: Incident)
      modifies this`incidents
      ensures incidents == old(incidents)[incident.caller :=
        (if incident.caller in old(incidents) then old(incidents)[incident.caller] else multiset{})
        + multiset{incident}]
    {
      var incidentSet := multiset{};
      if incident.caller in incidents {
        incidentSet := incidents[incident.caller];
      }
      incidents := incidents[incident.caller := incidentSet + multiset{incident}];
    }

    function IncidentsOf(caller: string): multiset<Incident>
      reads this`incidents
    {
      if caller in incidents then incidents[caller] else multiset{}
    }

    /** An incident is recorded exactly if the peak of the window exceeds the maximum. */
    method AnalyzeCallsConcurrent(caller: string, events: seq<Event>)
      modifies this`incidents
      ensures exists peak ::
        && IsPeak(Window(events, analyzeTs, config.callsConcurrentPeriod), peak)
        && incidents == (if peak > config.callsConcurrentMax
                         then old(incidents)[caller := old(IncidentsOf(caller)) +
                                multiset{Incident(CallsConcurrent, caller, config.callsConcurrentPeriod, peak, true)}]
                         else old(incidents))
    {
      var period := config.callsConcurrentPeriod;
      var callsConcurrent, _ := SweepCallsConcurrent(events, period);
      if callsConcurrent > config.callsConcurrentMax {
        InsertIncident(Incident(CallsConcurrent, caller, period, callsConcurrent, true));
      }
    }

    /** The loop of analyzeCallCompletion. */
    method SweepCallCompletion(events: seq<Event>, period: int) returns (callAttempts: nat, callsCompleted: nat)
      ensures callAttempts == Attempts(Window(events, analyzeTs, period))
      ensures callsCompleted == Completions(Window(events, analyzeTs, period))
    {
      callAttempts, callsCompleted := 0, 0;
      ghost var seen := [];
      for n := 0 to |events|
        invariant seen == Window(events[..n], analyzeTs, period)
        invariant callAttempts == Attempts(seen) && callsCompleted == Completions(seen)
      {
        var e := events[n];
        WindowStep(events, n, analyzeTs, period);
        if !IsInPeriod(analyzeTs, e.ts, period) {
          continue;
        }
        TallyStep(seen, e);
        seen := seen + [e];
        if e.InviteEvent? {
          if e.reinvite {
            continue;
          }
          if e.code == 0 {
            callAttempts := callAttempts + 1;
          }
          if e.ack && e.code == 200 {
            callsCompleted := callsCompleted + 1;
          }
        }
      }
      assert events[..|events|] == events;
    }

    /** An incident is recorded exactly if there are attempts enough and the rounded percentage
        of completed calls is below the minimum. The original converts a quotient by zero to an
        integer when it accepts a window without attempts; any ratio may come out then. */
    method AnalyzeCallCompletion(caller: string, events: seq<Event>)
      modifies this`incidents
      ensures var period := config.callCompletionPeriod;
        var w := Window(events, analyzeTs, period);
        exists ratio: int ::
          && (Attempts(w) > 0 ==> ratio == Percent(Completions(w), Attempts(w)))
          && incidents == if Attempts(w) >= config.callCompletionAttemptsMin && ratio < config.callCompletionMin
                          then old(incidents)[caller := old(IncidentsOf(caller)) +
                                 multiset{Incident(CallCompletion, caller, period, ratio, false)}]
                          else old(incidents)
    {
      var period := config.callCompletionPeriod;
      var callAttempts, callsCompleted := SweepCallCompletion(events, period);
      if callAttempts < config.callCompletionAttemptsMin {
        ghost var ratio := if callAttempts > 0 then Percent(callsCompleted, callAttempts) else 0;
        assert Incident(CallCompletion, caller, period, ratio, false).value == ratio;
        return;
      }
      var completionRatio: int := *;
      if callAttempts > 0 {
        completionRatio := Percent(callsCompleted, callAttempts);
      }
      if completionRatio < config.callCompletionMin {
        InsertIncident(Incident(CallCompletion, caller, period, completionRatio, false));
      }
      assert Incident(CallCompletion, caller, period, completionRatio, false).value == completionRatio;
    }

    /** The loop of analyzeCallAttempts: distinct Call-IDs of initial INVITEs that were answered. */
    method SweepCallAttempts(events: seq<Event>, period: int) returns (callAttempts: nat)
      ensures callAttempts == |set e | e in Window(events, analyzeTs, period)
        && e.InviteEvent? && !e.reinvite && e.code != 0 :: e.callId|
    {
      var callIdSet: set<string> := {};
      for n := 0 to |events|
        invariant forall id :: id in callIdSet <==> Answers(Window(events[..n], analyzeTs, period), id)
      {
        var e := events[n];
        ghost var seen := Window(events[..n], analyzeTs, period);
        WindowStep(events, n, analyzeTs, period);
        if !IsInPeriod(analyzeTs, e.ts, period) {
          assert seen + [] == seen;
          continue;
        }
        AnswersStep(seen, e);
        if e.InviteEvent? && !e.reinvite && e.code != 0 {
          callIdSet := callIdSet + {e.callId};
        }
      }
      assert events[..|events|] == events;
      callAttempts := |callIdSet|;
      AnswersByFields(Window(events, analyzeTs, period), callIdSet);
    }

    /** An incident is recorded exactly if the calls answered in the window exceed the maximum. */
    method AnalyzeCallAttempts(caller: string, events: seq<Event>)
      modifies this`incidents
      ensures var period := config.callAttemptsPeriod;
        var answered := set e | e in Window(events, analyzeTs, period)
                                && e.InviteEvent? && !e.reinvite && e.code != 0 :: e.callId;
        incidents == if |answered| > config.callAttemptsMax
                     then old(incidents)[caller := old(IncidentsOf(caller)) +
                            multiset{Incident(CallAttempts, caller, period, |answered|, true)}]
                     else old(incidents)
    {
      var period := config.callAttemptsPeriod;
      var callAttempts := SweepCallAttempts(events, period);
      if callAttempts > config.callAttemptsMax {
        InsertIncident(Incident(CallAttempts, caller, period, callAttempts, true));
      }
    }
  }

  predicate IsAnswered(e: Event) {
    e.InviteEvent? && !e.reinvite && e.code != 0
  }

  predicate Answers(es: seq<Event>, id: string) {
    exists i | 0 <= i < |es| :: IsAnswered(es[i]) && es[i].callId == id
  }

  lemma AnswersByFields(es: seq<Event>, ids: set<string>)
    requires forall id :: id in ids <==> Answers(es, id)
    ensures ids == set e | e in es && e.InviteEvent? && !e.reinvite && e.code != 0 :: e.callId
  {
    forall id | id in ids
      ensures exists e :: e in es && e.InviteEvent? && !e.reinvite && e.code != 0 && e.callId == id
    {
      var i :| 0 <= i < |es| && IsAnswered(es[i]) && es[i].callId == id;
      assert es[i] in es;
    }
    forall e | e in es && e.InviteEvent? && !e.reinvite && e.code != 0 ensures e.callId in ids {
      var i :| 0 <= i < |es| && es[i] == e;
      assert IsAnswered(es[i]);
    }
  }

  lemma AnswersStep(es: seq<Event>, e: Event)
    ensures forall id :: Answers(es + [e], id) <==> Answers(es, id) || (IsAnswered(e) && e.callId == id)
  {
    forall id ensures Answers(es + [e], id) <==> Answers(es, id) || (IsAnswered(e) && e.callId == id) {
      if Answers(es, id) {
        var i :| 0 <= i < |es| && IsAnswered(es[i]) && es[i].callId == id;
        assert (es + [e])[i] == es[i];
      }
      if IsAnswered(e) && e.callId == id {
        assert (es + [e])[|es|] == e;
      }
    }
  }
}
