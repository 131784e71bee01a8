/**
 The singletons the threads share: call map, global sink map, call decode queue and event
 map. Calls and stored transactions are numbered in the order they come, and events carry
 these numbers. The registries of all calls, sinks and stored transactions are ghost state;
 `Valid` ties the objects to the values of SipMachine.
 */
module SharedState {
  import opened SipTypes
  import opened Signalling
  import opened SipMachine
  import opened Objects
  import Media

  /** The lists after events of the call were pushed. */
  function Pushed(events: map<string, seq<Event>>, call: CallData, es: seq<Event>): map<string, seq<Event>> {
    var caller := call.dialog.caller.address;
    if es == [] then events else events[caller := ListOf(events, caller) + es]
  }

  lemma RemoveTwice<K, V>(m: map<K, V>, done: set<K>, k: K)
    ensures m - done - {k} == m - (done + {k})
  {
  }

  lemma MoveOne<T>(todo: set<T>, done: set<T>, x: T)
    requires x in todo && todo !! done
    ensures (todo - {x}) + (done + {x}) == todo + done && (todo - {x}) !! (done + {x}) && |todo - {x}| < |todo|
  {
  }

  class SharedMaps {
    var callMap: map<string, Call>
    var rtpSinkMap: map<SocketAddress, RtpSink>
    var decodeQueue: seq<Call>
    var eventMap: map<string, seq<Event>>
    var nextRef: nat
    var nextTid: nat
    ghost var callObjs: seq<Call>
    ghost var sinkObjs: seq<RtpSink>
    ghost var calls: seq<CallData>
    ghost var media: Media.MediaState
    ghost var ids: map<string, nat>
    ghost var queue: seq<nat>

    constructor ()
      ensures Valid() && World() == EMPTY
      ensures callObjs == [] && sinkObjs == []
    {
      callMap, rtpSinkMap, decodeQueue, eventMap := map[], map[], [], map[];
      nextRef, nextTid := 0, 0;
      callObjs, sinkObjs := [], [];
      calls, media, ids, queue := [], Media.NO_MEDIA, map[], [];
    }

    ghost function World(): SipMachine.World
      reads this
    {
      SipMachine.World.World(ids, calls, media, queue, eventMap, nextTid)
    }

    /** The call is the one of its position. */
    ghost predicate Knows(call: Call)
      reads this`callObjs
    {
      call.ref < |callObjs| && callObjs[call.ref] == call
    }

    /** The stored transactions. */
    ghost function Stored(): set<Transaction>
      reads this`callObjs, callObjs`transactionMap
    {
      set c, t | c in callObjs && t in c.transactionMap.Values :: t
    }

    ghost predicate ValidCalls()
      reads this`callObjs, this`calls, this`nextRef
      reads callObjs`dialog, callObjs`reinviteFlag, callObjs`transactionMap, Stored()
    {
      && |callObjs| == |calls| == nextRef
      && forall i | 0 <= i < |calls| :: callObjs[i].ref == i && callObjs[i].Valid() && callObjs[i].Shows(calls[i])
    }

    /** ValidCalls for all calls but that at position c. */
    ghost predicate OthersValid(c: nat, d: seq<CallData>)
      reads this`callObjs
      reads callObjs`dialog, callObjs`reinviteFlag, callObjs`transactionMap, Stored()
    {
      && |callObjs| == |d|
      && forall i | 0 <= i < |d| && i != c :: callObjs[i].ref == i && callObjs[i].Valid() && callObjs[i].Shows(d[i])
    }

    ghost predicate ValidLocal(call: Call, d: Media.CallMedia)
      reads this`sinkObjs, call`localRtpSinkMap, call`rtpSinksAreActivated
    {
      && call.localRtpSinkMap.Keys == d.local.Keys && call.rtpSinksAreActivated == d.recording
      && forall s <- d.local :: d.local[s] < |sinkObjs| && call.localRtpSinkMap[s] == sinkObjs[d.local[s]]
    }

    ghost predicate ValidLocals(d: seq<Media.CallMedia>)
      reads this`callObjs, this`sinkObjs, callObjs`localRtpSinkMap, callObjs`rtpSinksAreActivated
    {
      |d| == |callObjs| && forall i | 0 <= i < |d| :: callObjs[i].ref == i && ValidLocal(callObjs[i], d[i])
    }

    ghost predicate ValidSinkObjs(d: seq<Media.SinkData>)
      reads this`sinkObjs, sinkObjs`active, sinkObjs`activityTs, sinkObjs`status, sinkObjs`rtpPacketDeque
      reads sinkObjs`packetCount, sinkObjs`lastActivity, sinkObjs`polledAt
    {
      |d| == |sinkObjs| && forall r | 0 <= r < |d| :: sinkObjs[r].ref == r && sinkObjs[r].Data() == d[r]
    }

    ghost predicate ValidGlobals(d: map<SocketAddress, nat>)
      reads this`sinkObjs, this`rtpSinkMap
    {
      rtpSinkMap.Keys == d.Keys && forall s <- d :: d[s] < |sinkObjs| && rtpSinkMap[s] == sinkObjs[d[s]]
    }

    ghost predicate ValidSinks()
      reads this`callObjs, this`sinkObjs, this`rtpSinkMap, this`media, sinkObjs`active, sinkObjs`activityTs,
        sinkObjs`status
      reads sinkObjs`rtpPacketDeque, sinkObjs`packetCount, sinkObjs`lastActivity, sinkObjs`polledAt
      reads callObjs`localRtpSinkMap, callObjs`rtpSinksAreActivated
    {
      Media.Wf(media) && ValidLocals(media.calls) && ValidSinkObjs(media.sinks) && ValidGlobals(media.global)
    }

    /** Call map and decode queue m and q are those of `ids` and `queue`. */
    ghost predicate MatchMaps(m: map<string, Call>, q: seq<Call>)
      reads this`callObjs, this`ids, this`queue
    {
      && m.Keys == ids.Keys
      && (forall id <- ids :: ids[id] < |callObjs| && m[id] == callObjs[ids[id]])
      && |q| == |queue|
      && (forall i | 0 <= i < |queue| :: queue[i] < |callObjs| && q[i] == callObjs[queue[i]])
    }

    ghost predicate ValidMaps()
      reads this`callObjs, this`callMap, this`decodeQueue, this`ids, this`queue
    {
      MatchMaps(callMap, decodeQueue)
    }

    ghost predicate Valid()
      reads this, callObjs, sinkObjs, Stored()
    {
      ValidCalls() && ValidSinks() && ValidMaps()
    }

    /** Sets the status of the sink at position r. */
    method SetStatus(sink: RtpSink, status: SinkStatus, ghost r: nat, ghost d: seq<Media.SinkData>)
      requires ValidSinkObjs(d) && r < |d| && sinkObjs[r] == sink
      modifies sink`status
      ensures ValidSinkObjs(d[r := d[r].(status := status)])
    {
      sink.SetStatus(status);
    }

    /** The same with the value of all sinks. */
    method ChangeStatus(sink: RtpSink, status: SinkStatus, ghost r: nat)
      requires ValidSinks() && r < |media.sinks| && sinkObjs[r] == sink
      requires Media.Wf(media.(sinks := media.sinks[r := media.sinks[r].(status := status)]))
      modifies this`media, sink`status
      ensures ValidSinks()
      ensures media == old(media).(sinks := old(media).sinks[r := old(media).sinks[r].(status := status)])
    {
      ghost var m := media;
      SetStatus(sink, status, r, m.sinks);
      media := m.(sinks := m.sinks[r := m.sinks[r].(status := status)]);
    }

    /** ThreadFriendlyMap::erase on the global sink map. */
    method EraseSink(s: SocketAddress, ghost d: map<SocketAddress, nat>)
      requires ValidGlobals(d)
      modifies this`rtpSinkMap
      ensures ValidGlobals(d - {s})
    {
      rtpSinkMap := rtpSinkMap - {s};
    }

    /** The local sink map of the call gets an entry, if it has none for the socket. */
    method FileLocally(call: Call, s: SocketAddress, sink: RtpSink, ghost r: nat, ghost d: seq<Media.CallMedia>)
      requires Knows(call) && ValidLocals(d) && r < |sinkObjs| && sinkObjs[r] == sink
      modifies call`localRtpSinkMap
      ensures ValidLocals(d[call.ref := d[call.ref].(local := InsertNew(d[call.ref].local, s, r))])
    {
      assert ValidLocal(call, d[call.ref]);
      call.localRtpSinkMap := InsertNew(call.localRtpSinkMap, s, sink);
    }

    /** ThreadFriendlyMap::insert on the global sink map. */
    method FileGlobally(s: SocketAddress, sink: RtpSink, ghost r: nat, ghost d: map<SocketAddress, nat>)
      requires ValidGlobals(d) && r < |sinkObjs| && sinkObjs[r] == sink
      modifies this`rtpSinkMap
      ensures ValidGlobals(InsertNew(d, s, r))
    {
      rtpSinkMap := InsertNew(rtpSinkMap, s, sink);
    }

    /** The registry of sinks gets a new sink. */
    ghost method Register(sink: RtpSink, m: Media.MediaState)
      requires ValidLocals(m.calls) && ValidSinkObjs(m.sinks) && ValidGlobals(m.global) && sink.ref == |sinkObjs|
      modifies this`sinkObjs
      ensures ValidLocals(m.calls) && ValidSinkObjs(m.sinks + [sink.Data()]) && ValidGlobals(m.global)
      ensures sinkObjs == old(sinkObjs) + [sink]
    {
      sinkObjs := sinkObjs + [sink];
      forall i | 0 <= i < |m.calls| ensures ValidLocal(callObjs[i], m.calls[i]) {
        assert old(ValidLocal(callObjs[i], m.calls[i]));
      }
    }

    /** The sink, registered already, is put into both maps. */
    method FileSink(call: Call, s: SocketAddress, sink: RtpSink, ghost r: nat, ghost m: Media.MediaState,
                    ghost d: seq<Media.SinkData>)
      requires Knows(call) && ValidLocals(m.calls) && ValidGlobals(m.global) && r < |sinkObjs| && sinkObjs[r] == sink
      requires ValidSinkObjs(d)
      modifies this`rtpSinkMap, call`localRtpSinkMap
      ensures ValidLocals(m.calls[call.ref := m.calls[call.ref].(local := InsertNew(m.calls[call.ref].local, s, r))])
      ensures ValidGlobals(InsertNew(m.global, s, r)) && ValidSinkObjs(d)
    {
      FileLocally(call, s, sink, r, m.calls);
      FileGlobally(s, sink, r, m.global);
    }

    /** A new sink for the socket is put into the local map of the call and the global map. */
    method AddRtpSink(call: Call, s: SocketAddress, sink: RtpSink)
      requires Knows(call) && ValidSinks() && sink.ref == |sinkObjs| && sink.owner == call.ref && sink.socket == s
      modifies this`rtpSinkMap, this`media, this`sinkObjs, call`localRtpSinkMap
      ensures ValidSinks() && sinkObjs == old(sinkObjs) + [sink]
      ensures call.ref < |old(media).calls| && media == Media.AddSink(old(media), call.ref, sink.Data())
    {
      ghost var m, c, r := media, call.ref, |sinkObjs|;
      Register(sink, m);
      FileSink(call, s, sink, r, m, m.sinks + [sink.Data()]);
      Media.AddWf(m, c, sink.Data());
      media := Media.AddSink(m, c, sink.Data());
    }

    /** Call::insertTransaction, and the number of the transaction if it is stored. */
    method InsertTransaction(t: Transaction)
      requires t.call.Valid()
      modifies t.call`transactionMap, this`nextTid
      ensures t.call.Valid() && t.call.Record() == Store(old(t.call.Record()), t.Data())
      ensures t.call.transactionMap == InsertNew(old(t.call.transactionMap), t.id, t)
      ensures nextTid == old(nextTid) + Used(old(t.call.Record()), t.Data())
    {
      if t.id !in t.call.transactionMap {
        nextTid := nextTid + 1;
      }
      t.call.InsertTransaction(t);
    }

    /** The loop of Call::unregisterRtpSinks. */
    method EraseEach(keys: set<SocketAddress>, ghost g: map<SocketAddress, nat>)
      requires ValidGlobals(g)
      modifies this`rtpSinkMap
      ensures ValidGlobals(g - keys)
    {
      var todo := keys;
      ghost var done := {};
      assert g - {} == g;
      while todo != {}
        invariant todo + done == keys && todo !! done
        invariant ValidGlobals(g - done)
        decreases |todo|
      {
        var s :| s in todo;
        EraseSink(s, g - done);
        RemoveTwice(g, done, s);
        MoveOne(todo, done, s);
        todo, done := todo - {s}, done + {s};
      }
      assert done == keys;
    }

    /** The registry of calls gets a new call. */
    ghost method Enroll(call: Call, d: CallData)
      requires Valid() && call.ref == |callObjs| && call.localRtpSinkMap == map[]
      modifies this`callObjs, this`media
      ensures ValidSinks() && ValidMaps() && callObjs == old(callObjs) + [call] && OthersValid(call.ref, calls + [d])
      ensures media == Media.NewCall(old(media), call.rtpSinksAreActivated)
    {
      callObjs := callObjs + [call];
      media := Media.NewCall(media, call.rtpSinksAreActivated);
    }

    /** ThreadFriendlyMap::insert on the call map, which has no call under the Call-ID. */
    method FileCall(id: string, call: Call)
      requires Valid() && Knows(call) && id !in callMap
      modifies this`callMap, this`ids
      ensures Valid() && ids == old(ids)[id := call.ref]
    {
      callMap := callMap[id := call];
      ids := ids[id := call.ref];
    }

    /** The number and the record of a new call. */
    method NumberCall(call: Call, ghost d: CallData)
      requires OthersValid(call.ref, calls + [d]) && call.ref == |calls| == nextRef && Knows(call) && call.Valid()
      requires call.Shows(d)
      requires ValidSinks() && ValidMaps()
      modifies this`nextRef, this`calls
      ensures Valid() && calls == old(calls) + [d]
    {
      nextRef := nextRef + 1;
      calls := calls + [d];
    }

    /** A new call is numbered and put into the call map, which has none under its Call-ID. */
    method AddCall(call: Call, p: Packet, now: int)
      requires Valid() && p.callId !in callMap && call !in callObjs
      requires call.ref == nextRef && call.Valid() && call.Shows(NewCallData(p, now)) && call.localRtpSinkMap == map[]
      modifies this`callMap, this`nextRef, this`callObjs, this`calls, this`media, this`ids
      ensures Valid() && callObjs == old(callObjs) + [call]
      ensures calls == old(calls) + [NewCallData(p, now)] && ids == old(ids)[p.callId := call.ref]
      ensures media == Media.NewCall(old(media), call.rtpSinksAreActivated)
    {
      Enroll(call, NewCallData(p, now));
      NumberCall(call, NewCallData(p, now));
      FileCall(p.callId, call);
    }

    /** The record of the call at position c, after handlers worked on it. */
    ghost method SetRecord(c: nat, d: CallData)
      requires OthersValid(c, calls) && c < |calls| == nextRef
      requires callObjs[c].ref == c && callObjs[c].Valid() && callObjs[c].Shows(d)
      modifies this`calls
      ensures ValidCalls() && calls == old(calls)[c := d]
    {
      calls := calls[c := d];
    }

    /** The positions in call map and decode queue, after the exit of the call. */
    ghost method SetExit(call: Call, p: Packet, o: Outcome, m: map<string, Call>, q: seq<Call>)
      requires MatchMaps(m, q) && Knows(call) && ValidCalls() && ValidSinks()
      requires callMap == (if o.exit == Stay then m else m - {p.callId})
      requires decodeQueue == (if o.exit == HandOff then q + [call] else q)
      modifies this`ids, this`queue
      ensures Valid()
      ensures ids == (if o.exit == Stay then old(ids) else old(ids) - {p.callId})
      ensures queue == (if o.exit == HandOff then old(queue) + [call.ref] else old(queue))
    {
      SetPlaces(call, p, o, m, q);
    }

    ghost method SetPlaces(call: Call, p: Packet, o: Outcome, m: map<string, Call>, q: seq<Call>)
      requires MatchMaps(m, q) && Knows(call)
      requires callMap == (if o.exit == Stay then m else m - {p.callId})
      requires decodeQueue == (if o.exit == HandOff then q + [call] else q)
      modifies this`ids, this`queue
      ensures ValidMaps()
      ensures ids == (if o.exit == Stay then old(ids) else old(ids) - {p.callId})
      ensures queue == (if o.exit == HandOff then old(queue) + [call.ref] else old(queue))
    {
      ids := if o.exit == Stay then ids else ids - {p.callId};
      queue := if o.exit == HandOff then queue + [call.ref] else queue;
    }

    /** The call leaves the call map, under this Call-ID, for the decode queue. */
    method MoveToDecodeQueue(id: string, call: Call)
      requires Valid() && Knows(call)
      modifies this`callMap, this`decodeQueue, this`ids, this`queue
      ensures Valid() && ids == old(ids) - {id} && queue == old(queue) + [call.ref]
    {
      MovePlaces(id, call);
    }

    method MovePlaces(id: string, call: Call)
      requires ValidMaps() && Knows(call)
      modifies this`callMap, this`decodeQueue, this`ids, this`queue
      ensures ValidMaps() && ids == old(ids) - {id} && queue == old(queue) + [call.ref]
    {
      callMap := callMap - {id};
      ids := ids - {id};
      decodeQueue := decodeQueue + [call];
      queue := queue + [call.ref];
    }

    /** Call::unregisterRtpSinks: the sockets of the local map leave the global map. */
    method UnregisterRtpSinks(call: Call)
      requires Knows(call) && ValidSinks()
      modifies this`rtpSinkMap, this`media
      ensures ValidSinks() && call.ref < |old(media).calls| && media == Media.Unregister(old(media), call.ref)
    {
      EraseLocals(call);
      Media.UnregisterWf(media, call.ref);
      media := Media.Unregister(media, call.ref);
    }

    method EraseLocals(call: Call)
      requires Knows(call) && ValidSinks()
      modifies this`rtpSinkMap
      ensures ValidLocals(media.calls) && ValidSinkObjs(media.sinks)
      ensures call.ref < |media.calls| && ValidGlobals(media.global - media.calls[call.ref].local.Keys)
    {
      assert ValidLocal(call, media.calls[call.ref]);
      EraseEach(call.localRtpSinkMap.Keys, media.global);
    }

    /** The sinks a call holds are the objects in its local map, each under its own socket. */
    lemma HeldSinks(call: Call)
      requires Knows(call) && ValidSinks()
      ensures call.DistinctSinks() && call.ref < |media.calls|
      ensures forall s <- call.localRtpSinkMap ::
        s in media.calls[call.ref].local && media.calls[call.ref].local[s] < |sinkObjs|
        && call.localRtpSinkMap[s] == sinkObjs[media.calls[call.ref].local[s]]
      ensures forall r | 0 <= r < |media.sinks| ::
        if Media.Holds(media, call.ref, r)
        then media.sinks[r].socket in call.localRtpSinkMap && call.localRtpSinkMap[media.sinks[r].socket] == sinkObjs[r]
        else sinkObjs[r] !in call.localRtpSinkMap.Values
    {
      var m, c := media, call.ref;
      assert ValidLocal(call, m.calls[c]);
      forall s <- call.localRtpSinkMap ensures call.localRtpSinkMap[s].socket == s {
        assert Media.WfLocal(m, c, s, m.calls[c].local[s]);
        assert sinkObjs[m.calls[c].local[s]].Data() == m.sinks[m.calls[c].local[s]];
      }
      forall r | 0 <= r < |m.sinks| && !Media.Holds(m, c, r) ensures sinkObjs[r] !in call.localRtpSinkMap.Values {
        forall s <- call.localRtpSinkMap ensures call.localRtpSinkMap[s] != sinkObjs[r] {
          assert Media.WfLocal(m, c, s, m.calls[c].local[s]);
          assert sinkObjs[m.calls[c].local[s]].ref == m.calls[c].local[s] && sinkObjs[r].ref == r;
        }
      }
    }

    /** The local sinks of a call are sinks of the registry. */
    lemma LocalSinks(call: Call)
      requires ValidSinks() && Knows(call)
      ensures forall k <- call.localRtpSinkMap.Values :: k in sinkObjs
    {
      assert ValidLocal(call, media.calls[call.ref]);
    }

    /** Transaction::pushEvent: creates the caller's list if there is none. */
    method PushEvent(caller: string, event: Event)
      modifies this`eventMap
      ensures eventMap == old(eventMap)[caller := ListOf(old(eventMap), caller) + [event]]
    {
      if caller !in eventMap {
        eventMap := eventMap[caller := []];
      }
      eventMap := eventMap[caller := eventMap[caller] + [event]];
    }

    /** Transaction::createAndPushEvent. */
    method CreateAndPushEvent(t: Transaction, now: int, ghost d: CallData, ghost x: TransactionData)
      requires t.call.Record() == d && t.Data() == x
      modifies this`eventMap
      ensures eventMap == Pushed(old(eventMap), d, EventsOf(d, t.call.ref, x, now))
    {
      var call := t.call;
      var dialog := call.dialog;
      match t.id.cseqMethod {
        case Invite =>
          PushEvent(dialog.caller.address,
            InviteEvent(now, call.ref, t.tid, call.callId, dialog.caller, t.initiator, t.finalResponseCode,
                        t.finalResponseReason, call.reinviteFlag, t.cancelFlag, t.ackFlag));
        case Bye =>
          PushEvent(dialog.caller.address,
            ByeEvent(now, call.ref, t.tid, call.callId, dialog.caller, t.initiator, t.finalResponseCode,
                     t.finalResponseReason, Milliseconds(now - call.created)));
        case Cancel =>
          PushEvent(dialog.caller.address,
            CancelEvent(now, call.ref, t.tid, call.callId, dialog.caller, t.initiator, t.finalResponseCode,
                        t.finalResponseReason));
        case Options =>
          PushEvent(dialog.caller.address,
            OptionsEvent(now, call.ref, t.tid, call.callId, dialog.caller, t.initiator, t.finalResponseCode,
                         t.finalResponseReason));
        case _ =>
      }
    }
  }
}
