/**
 The state shared by the SIP thread, the watchdog and the decoder, and one pass of the
 SIP worker loop over it (src/sip/SipProcessor.cpp).
 */
module SipMachine {
  import opened SipTypes
  import opened Signalling
  import Media

  /** The call map, every call ever created, the sinks, every call ever pushed to the decode
      queue, the events by caller, and the number of transactions stored so far. */
  datatype World = World(
    callMap: map<string, nat>,
    calls: seq<CallData>,
    media: Media.MediaState,
    decodeQueue: seq<nat>,
    events: map<string, seq<Event>>,
    nextTid: nat)

  const EMPTY := World(map[], [], Media.NO_MEDIA, [], map[], 0)

  ghost predicate Wf(w: World) {
    && |w.media.calls| == |w.calls|
    && Media.Wf(w.media)
    && (forall id <- w.callMap :: Names(w, id, w.callMap[id]))
    && (forall c, k | 0 <= c < |w.calls| && k in w.calls[c].trans :: w.calls[c].trans[k].id == k)
    && (forall i | 0 <= i < |w.decodeQueue| :: w.decodeQueue[i] < |w.calls|)
  }

  predicate Names(w: World, id: string, c: nat) {
    c < |w.calls| && w.calls[c].callId == id
  }

  predicate InMap(w: World, c: nat) {
    c < |w.calls| && w.calls[c].callId in w.callMap && w.callMap[w.calls[c].callId] == c
  }

  function ListOf(events: map<string, seq<Event>>, caller: string): seq<Event> {
    if caller in events then events[caller] else []
  }

  function EventList(w: World, caller: string): seq<Event> {
    ListOf(w.events, caller)
  }

  /** A socket in a response carries the caller's audio; a packet of the callee towards the
      caller turns this round. */
  predicate IsCallerSink(call: CallData, p: Packet) {
    (p.kind == Response) != (call.dialog.caller.tag == p.to.tag)
  }

  function OfferMedia(m: Media.MediaState, c: nat, p: Packet, o: Outcome, now: int): (r: Media.MediaState)
    requires c < |m.calls|
    ensures |r.calls| == |m.calls|
  {
    if o.offer.Offer? && p.sdp.Some?
    then Media.OfferSocket(m, c, p.sdp.value, o.offer.reinvite, IsCallerSink(o.call, p), now) else m
  }

  function SettleMedia(m: Media.MediaState, c: nat, o: Outcome): (r: Media.MediaState)
    requires c < |m.calls|
    ensures r.calls == m.calls
  {
    match o.settle
    case Keep => m
    case CommitSinks => Media.ConfirmSinks(m, c)
    case RollbackSinks => Media.AnnulSinks(m, c)
  }

  function MediaAfter(m: Media.MediaState, c: nat, p: Packet, o: Outcome, now: int): (r: Media.MediaState)
    requires c < |m.calls|
    ensures |r.calls| == |m.calls|
  {
    var m1 := SettleMedia(OfferMedia(m, c, p, o, now), c, o);
    if o.exit == HandOff then Media.Unregister(m1, c) else m1
  }

  function Apply(w: World, c: nat, p: Packet, o: Outcome, now: int): World
    requires c < |w.calls| == |w.media.calls|
  {
    var caller := o.call.dialog.caller.address;
    World(
      if o.exit == Stay then w.callMap else w.callMap - {p.callId},
      w.calls[c := o.call],
      MediaAfter(w.media, c, p, o, now),
      if o.exit == HandOff then w.decodeQueue + [c] else w.decodeQueue,
      if o.events == [] then w.events else w.events[caller := EventList(w, caller) + o.events],
      w.nextTid + o.newTids)
  }

  lemma ApplyNothing(w: World, c: nat, p: Packet, now: int)
    requires c < |w.calls| == |w.media.calls|
    ensures Apply(w, c, p, Nothing(w.calls[c]), now) == w
  {
  }

  predicate CreatesCall(w: World, p: Packet) {
    p.parses && p.callId !in w.callMap && (p.IsRequest(Invite) || p.IsRequest(Options))
  }

  /** A new call in the map. It records unless `noRtp`: only callers with an incident are
      recorded and this one has none. */
  function Create(w: World, p: Packet, now: int, noRtp: bool): World {
    w.(calls := w.calls + [NewCallData(p, now)],
       callMap := w.callMap[p.callId := |w.calls|],
       media := Media.NewCall(w.media, !noRtp))
  }

  ghost function Dispatch(w: World, c: nat, p: Packet, now: int): World
    requires c < |w.calls| == |w.media.calls|
  {
    Apply(w, c, p, OnPacket(w.calls[c], c, p, w.nextTid, now), now)
  }

  /** The call a packet ends up with. */
  function Target(w: World, p: Packet): nat {
    if p.callId in w.callMap then w.callMap[p.callId] else |w.calls|
  }

  /** The world in which the handlers run, with the call created if need be. */
  function Admit(w: World, p: Packet, now: int, noRtp: bool): World {
    if CreatesCall(w, p) then Create(w, p, now, noRtp) else w
  }

  predicate Admits(w: World, p: Packet) {
    p.parses && (p.callId in w.callMap || CreatesCall(w, p))
  }

  /** One pass of the worker loop. */
  ghost function Step(w: World, p: Packet, now: int, noRtp: bool): (r: World)
    requires Wf(w)
    ensures Wf(r)
  {
    if Admits(w, p) then
      AdmitWf(w, p, now, noRtp);
      DispatchWf(Admit(w, p, now, noRtp), Target(w, p), p, now);
      Dispatch(Admit(w, p, now, noRtp), Target(w, p), p, now)
    else w
  }

  lemma AdmitWf(w: World, p: Packet, now: int, noRtp: bool)
    requires Wf(w) && Admits(w, p)
    ensures Wf(Admit(w, p, now, noRtp))
    ensures Names(Admit(w, p, now, noRtp), p.callId, Target(w, p))
  {
  }

  lemma MediaAfterWf(m: Media.MediaState, c: nat, p: Packet, o: Outcome, now: int)
    requires Media.Wf(m) && c < |m.calls|
    ensures Media.Wf(MediaAfter(m, c, p, o, now))
  {
    if o.offer.Offer? && p.sdp.Some? {
      Media.OfferWf(m, c, p.sdp.value, o.offer.reinvite, IsCallerSink(o.call, p), now);
    }
    var m1 := OfferMedia(m, c, p, o, now);
    Media.SettleWf(m1, c);
    Media.UnregisterWf(SettleMedia(m1, c, o), c);
  }

  lemma DispatchWf(w: World, c: nat, p: Packet, now: int)
    requires Wf(w) && Names(w, p.callId, c)
    ensures Wf(Dispatch(w, c, p, now))
  {
    assert Filed(w.calls[c]);
    MediaAfterWf(w.media, c, p, OnPacket(w.calls[c], c, p, w.nextTid, now), now);
  }
}
