/**
 The watchdog as it runs (src/container/CallMap.cpp): snapshot, check of each call, commit,
 on the shared objects. One round is proved to be a run of the three stages of SystemModel.
 */
module Watchdogs {
  import opened SipTypes
  import opened Signalling
  import opened SipMachine
  import opened SystemModel
  import opened HandOver
  import opened SinkSafety
  import opened Objects
  import opened SharedState
  import Media

  /** The sinks after the recording-time check of a call of this age. */
  function RecordingChecked(cfg: Config, m: Media.MediaState, c: nat, age: int): (r: Media.MediaState)
    requires c < |m.calls|
    ensures |r.calls| == |m.calls|
  {
    if m.calls[c].recording && age > cfg.maxRecordingTime then Media.StopRecording(m, c) else m
  }

  ghost function TimesRetired(cfg: Config, m: Media.MediaState, c: nat, age: int, now: int): nat
    requires c < |m.calls|
  {
    (if Media.Inactive(RecordingChecked(cfg, m, c, age), c, age, cfg.maxRtpInactivity, now) then 1 else 0)
    + (if age > cfg.maxCallAge then 1 else 0)
  }

  ghost function MediaChecked(cfg: Config, m: Media.MediaState, c: nat, age: int, now: int): Media.MediaState
    requires c < |m.calls|
  {
    var m1 := Media.PollSinks(RecordingChecked(cfg, m, c, age), c, now);
    if TimesRetired(cfg, m, c, age, now) > 0 then Media.Unregister(m1, c) else m1
  }

  /** The check of the watchdog, as SystemModel has it. */
  lemma CheckIs(cfg: Config, s: System, c: nat)
    requires SystemWf(s) && Enabled(s, Check(c)) && c < |s.w.calls|
    ensures var n := TimesRetired(cfg, s.w.media, c, Age(s, c), s.now);
      Do(cfg, s, Check(c)) == s.(w := s.w.(media := MediaChecked(cfg, s.w.media, c, Age(s, c), s.now)),
                                 dog := Checking(s.dog.todo - {c}, s.dog.temp + Copies(n, c)))
  {
  }

  class CallMapWatchdog {
    const maps: SharedMaps
    const cfg: Config

    constructor (maps: SharedMaps, cfg: Config)
      ensures this.maps == maps && this.cfg == cfg
    {
      this.maps, this.cfg := maps, cfg;
    }

    /** Call::checkRecordingTime for a call of the maps. */
    method CheckRecordingTime(call: Call, now: int)
      requires maps.Knows(call) && maps.ValidSinks()
      modifies maps`media, call`rtpSinksAreActivated, call.localRtpSinkMap.Values`active
      ensures maps.ValidSinks() && call.ref < |old(maps.media).calls|
      ensures maps.media == if old(maps.media).calls[call.ref].recording
        && Media.Seconds(now - call.created) > cfg.maxRecordingTime
                            then Media.StopRecording(old(maps.media), call.ref) else old(maps.media)
    {
      ghost var m, c := maps.media, call.ref;
      assert maps.ValidLocal(call, m.calls[c]);
      maps.HeldSinks(call);
      ghost var stop := call.rtpSinksAreActivated && Media.Seconds(now - call.created) > cfg.maxRecordingTime;
      call.CheckRecordingTime(now, cfg.maxRecordingTime);
      if stop {
        RecordStop(call, m);
      }
    }

    /** The sinks of the call are inactive now, and all others are as before. */
    ghost method RecordStop(call: Call, m: Media.MediaState)
      requires maps.Knows(call) && Media.Wf(m) && m == maps.media && call.ref < |m.calls|
      requires |m.sinks| == |maps.sinkObjs|
      requires !call.rtpSinksAreActivated && call.localRtpSinkMap.Keys == m.calls[call.ref].local.Keys
      requires forall s <- m.calls[call.ref].local ::
        m.calls[call.ref].local[s] < |maps.sinkObjs|
          && call.localRtpSinkMap[s] == maps.sinkObjs[m.calls[call.ref].local[s]]
      requires |m.calls| == |maps.callObjs| && maps.ValidGlobals(m.global)
      requires forall i | 0 <= i < |m.calls| ::
        maps.callObjs[i].ref == i && (i != call.ref ==> maps.ValidLocal(maps.callObjs[i], m.calls[i]))
      requires forall r | 0 <= r < |m.sinks| ::
        && maps.sinkObjs[r].ref == r
        && maps.sinkObjs[r].Data() == if Media.Holds(m, call.ref, r) then m.sinks[r].(active := false) else m.sinks[r]
      modifies maps`media
      ensures maps.ValidSinks() && maps.media == Media.StopRecording(m, call.ref)
    {
      Media.PollWf(m, call.ref, 0);
      maps.media := Media.StopRecording(m, call.ref);
    }

    /** Call::getRtpInactivityTime for a call of the maps. */
    method GetRtpInactivityTime(call: Call, now: int) returns (inactive: int)
      requires maps.Knows(call) && maps.ValidSinks()
      modifies maps`media, call.localRtpSinkMap.Values`packetCount, call.localRtpSinkMap.Values`activityTs
      modifies call.localRtpSinkMap.Values`polledAt
      ensures maps.ValidSinks() && call.ref < |old(maps.media).calls|
      ensures maps.media == Media.PollSinks(old(maps.media), call.ref, now)
      ensures inactive > cfg.maxRtpInactivity <==>
        Media.Inactive(old(maps.media), call.ref, Media.Seconds(now - call.created), cfg.maxRtpInactivity, now)
    {
      ghost var m, c := maps.media, call.ref;
      assert maps.ValidLocal(call, m.calls[c]);
      maps.HeldSinks(call);
      inactive := call.GetRtpInactivityTime(now);
      RecordPoll(call, m, now);
    }

    /** The sinks of the call are polled now, and all others are as before. */
    ghost method RecordPoll(call: Call, m: Media.MediaState, now: int)
      requires maps.Knows(call) && Media.Wf(m) && m == maps.media && call.ref < |m.calls|
      requires |m.sinks| == |maps.sinkObjs|
      requires maps.ValidLocals(m.calls) && maps.ValidGlobals(m.global)
      requires forall r | 0 <= r < |m.sinks| ::
        && maps.sinkObjs[r].ref == r
        && maps.sinkObjs[r].Data() == if Media.Holds(m, call.ref, r) then Media.Polled(m.sinks[r], now) else m.sinks[r]
      modifies maps`media
      ensures maps.ValidSinks() && maps.media == Media.PollSinks(m, call.ref, now)
    {
      Media.PollWf(m, call.ref, now);
      maps.media := Media.PollSinks(m, call.ref, now);
    }

    /** The sinks in a pass of the first loop of handleCallTimeouts. */
    method CheckSinks(call: Call, now: int, temp: seq<Call>) returns (temp': seq<Call>)
      requires maps.Knows(call) && maps.ValidSinks()
      modifies maps`media, maps`rtpSinkMap, call`rtpSinksAreActivated, call.localRtpSinkMap.Values`active
      modifies call.localRtpSinkMap.Values`packetCount, call.localRtpSinkMap.Values`activityTs
      modifies call.localRtpSinkMap.Values`polledAt
      ensures maps.ValidSinks() && call.ref < |old(maps.media).calls|
      ensures var m, c, age := old(maps.media), call.ref, Media.Seconds(now - call.created);
        maps.media == MediaChecked(cfg, m, c, age, now)
          && temp' == temp + Copies(TimesRetired(cfg, m, c, age, now), call)
    {
      CheckRecordingTime(call, now);
      var rtpInactivity := GetRtpInactivityTime(call, now);
      temp' := RetireCall(call, rtpInactivity, now, temp);
    }

    /** The part of the pass that retires the call, for inactivity and for age. */
    method RetireCall(call: Call, rtpInactivity: int, now: int, temp: seq<Call>) returns (temp': seq<Call>)
      requires maps.Knows(call) && maps.ValidSinks()
      modifies maps`media, maps`rtpSinkMap
      ensures maps.ValidSinks() && call.ref < |old(maps.media).calls|
      ensures var n := (if rtpInactivity > cfg.maxRtpInactivity then 1 else 0)
        + (if Media.Seconds(now - call.created) > cfg.maxCallAge then 1 else 0);
        maps.media == (if n > 0 then Media.Unregister(old(maps.media), call.ref) else old(maps.media))
          && temp' == temp + Copies(n, call)
    {
      ghost var m := maps.media;
      assert maps.ValidLocal(call, m.calls[call.ref]);
      temp' := temp;
      if rtpInactivity > cfg.maxRtpInactivity {
        maps.UnregisterRtpSinks(call);
        temp' := temp' + [call];
      }
      var callAge := Media.Seconds(now - call.created);
      if callAge > cfg.maxCallAge {
        maps.UnregisterRtpSinks(call);
        temp' := temp' + [call];
      }
      UnregisterTwice(m, call.ref);
    }

    /** The calls of a queue have these positions. */
    ghost predicate Named(q: seq<Call>, refs: seq<nat>)
      reads maps`callObjs
    {
      |q| == |refs| && forall i | 0 <= i < |q| :: refs[i] < |maps.callObjs| && q[i] == maps.callObjs[refs[i]]
    }

    /** One call of the temporary queue, under the lock of the call map. */
    method CommitCall(call: Call, ghost c: nat)
      requires maps.Valid() && c < |maps.callObjs| && call == maps.callObjs[c] && Wf(maps.World())
      modifies maps`callMap, maps`decodeQueue, maps`ids, maps`queue
      ensures maps.Valid() && Wf(maps.World()) && c < |old(maps.World()).calls|
      ensures maps.World() == CommitFirst(old(maps.World()), c)
    {
      assert call.Shows(maps.calls[c]);
      if call.callId in maps.callMap {
        maps.MoveToDecodeQueue(call.callId, call);
      }
    }

    /** The last loop of handleCallTimeouts. */
    method Commit(temp: seq<Call>, ghost refs: seq<nat>)
      requires maps.Valid() && Wf(maps.World()) && Named(temp, refs)
      modifies maps`callMap, maps`decodeQueue, maps`ids, maps`queue
      ensures maps.Valid() && (forall i | 0 <= i < |refs| :: refs[i] < |old(maps.World()).calls|)
      ensures maps.World() == CommitCalls(old(maps.World()), refs)
    {
      ghost var w := maps.World();
      for n := 0 to |temp|
        invariant maps.Valid() && Wf(maps.World()) && |maps.World().calls| == |w.calls|
        invariant CommitCalls(maps.World(), refs[n..]) == CommitCalls(w, refs)
      {
        CommitCall(temp[n], refs[n]);
        assert refs[n..][0] == refs[n] && refs[n..][1..] == refs[n + 1..];
      }
    }

    lemma NamedAppend(q: seq<Call>, refs: seq<nat>, call: Call, n: nat)
      requires Named(q, refs) && maps.Knows(call)
      ensures Named(q + Copies(n, call), refs + Copies(n, call.ref))
    {
    }

    // ---- the stages one by one, as other threads may come in between ----

    /** The first stage. */
    method TakeSnapshot(ghost s: System) returns (snapshot: map<string, Call>)
      requires maps.Valid() && SystemWf(s) && s.w == maps.World() && s.dog.Idle?
      ensures (set call | call in snapshot.Values :: call.ref) == Do(cfg, s, Snapshot).dog.todo
      ensures forall call <- snapshot.Values :: maps.Knows(call)
    {
      snapshot := maps.callMap;
      SnapshotRefs(snapshot, s);
    }

    lemma SnapshotRefs(snapshot: map<string, Call>, s: System)
      requires maps.Valid() && SystemWf(s) && s.w == maps.World() && s.dog.Idle? && snapshot == maps.callMap
      ensures (set call | call in snapshot.Values :: call.ref) == Do(cfg, s, Snapshot).dog.todo
      ensures forall call <- snapshot.Values :: maps.Knows(call)
    {
      forall id <- snapshot ensures snapshot[id].ref == s.w.callMap[id] && maps.Knows(snapshot[id]) {
        assert maps.callObjs[maps.ids[id]].ref == maps.ids[id];
      }
      forall c <- s.w.callMap.Values ensures exists call :: call in snapshot.Values && call.ref == c {
        var id :| id in s.w.callMap && s.w.callMap[id] == c;
        assert snapshot[id] in snapshot.Values;
      }
    }

    /** The check of one call, in whatever state the maps are by then. */
    method CheckStage(call: Call, now: int, temp: seq<Call>, ghost s: System,
                      ghost r: System) returns (temp': seq<Call>)
      requires maps.Valid() && SystemWf(s) && s.w == maps.World() && s.now == now
      requires maps.Knows(call) && Enabled(s, Check(call.ref)) && Named(temp, s.dog.temp)
      requires r == Do(cfg, s, Check(call.ref))
      modifies maps`media, maps`rtpSinkMap, maps.callObjs`rtpSinksAreActivated
      modifies maps.sinkObjs`active, maps.sinkObjs`packetCount, maps.sinkObjs`activityTs, maps.sinkObjs`polledAt
      ensures maps.Valid() && maps.World() == r.w && r.dog.Checking? && Named(temp', r.dog.temp)
    {
      CreatedIs(call);
      StageIs(cfg, s, r, call.ref, Media.Seconds(now - call.created));
      temp' := CheckValid(call, now, temp, s.dog.temp);
    }

    lemma CreatedIs(call: Call)
      requires maps.ValidCalls() && maps.Knows(call)
      ensures call.ref < |maps.calls| && maps.calls[call.ref].created == call.created
    {
      assert maps.callObjs[call.ref].Shows(maps.calls[call.ref]);
    }

    lemma StageIs(cfg: Config, s: System, r: System, c: nat, age: int)
      requires SystemWf(s) && Enabled(s, Check(c)) && r == Do(cfg, s, Check(c)) && age == Age(s, c)
      ensures c < |s.w.media.calls| && r.w == s.w.(media := MediaChecked(cfg, s.w.media, c, age, s.now))
      ensures r.dog.Checking?
      ensures r.dog.temp == s.dog.temp + Copies(TimesRetired(cfg, s.w.media, c, age, s.now), c)
    {
      CheckIs(cfg, s, c);
    }

    /** The call was checked. */
    twostate predicate WasChecked(call: Call, now: int, new temp': seq<Call>, refs: seq<nat>)
      reads maps, maps.callObjs, maps.sinkObjs
    {
      && maps.ValidSinks() && call.ref < |old(maps.media).calls|
      && var m, c, age := old(maps.media), call.ref, Media.Seconds(now - call.created);
      && maps.media == MediaChecked(cfg, m, c, age, now)
      && Named(temp', refs + Copies(TimesRetired(cfg, m, c, age, now), c))
    }

    /** This leaves calls, call map and decode queue alone. */
    method CheckValid(call: Call, now: int, temp: seq<Call>, ghost refs: seq<nat>) returns (temp': seq<Call>)
      requires maps.Knows(call) && maps.Valid() && Named(temp, refs)
      modifies maps`media, maps`rtpSinkMap, maps.callObjs`rtpSinksAreActivated
      modifies maps.sinkObjs`active, maps.sinkObjs`packetCount, maps.sinkObjs`activityTs, maps.sinkObjs`polledAt
      ensures WasChecked(call, now, temp', refs) && maps.ValidCalls() && maps.ValidMaps()
    {
      temp' := CheckMapped(call, now, temp, refs);
    }

    method CheckMapped(call: Call, now: int, temp: seq<Call>, ghost refs: seq<nat>) returns (temp': seq<Call>)
      requires maps.Knows(call) && maps.ValidSinks() && maps.ValidMaps() && Named(temp, refs)
      modifies maps`media, maps`rtpSinkMap, maps.callObjs`rtpSinksAreActivated
      modifies maps.sinkObjs`active, maps.sinkObjs`packetCount, maps.sinkObjs`activityTs, maps.sinkObjs`polledAt
      ensures WasChecked(call, now, temp', refs) && maps.ValidMaps()
    {
      temp' := CheckKnown(call, now, temp, refs);
    }

    method CheckKnown(call: Call, now: int, temp: seq<Call>, ghost refs: seq<nat>) returns (temp': seq<Call>)
      requires maps.Knows(call) && maps.ValidSinks() && Named(temp, refs)
      modifies maps`media, maps`rtpSinkMap, maps.callObjs`rtpSinksAreActivated
      modifies maps.sinkObjs`active, maps.sinkObjs`packetCount, maps.sinkObjs`activityTs, maps.sinkObjs`polledAt
      ensures WasChecked(call, now, temp', refs)
    {
      maps.LocalSinks(call);
      temp' := CheckNamed(call, now, temp, refs);
    }

    /** The last stage, in whatever state the maps are by then. */
    method CommitStage(temp: seq<Call>, ghost s: System)
      requires maps.Valid() && SystemWf(s) && s.w == maps.World() && Enabled(s, Action.Commit)
      requires Named(temp, s.dog.temp)
      modifies maps`callMap, maps`decodeQueue, maps`ids, maps`queue
      ensures maps.Valid() && maps.World() == Do(cfg, s, Action.Commit).w
    {
      Commit(temp, s.dog.temp);
    }

    /** The body of the first loop: the call is the next one of `order`. */
    method CheckNext(call: Call, now: int, temp: seq<Call>, ghost m: Media.MediaState, ghost calls: seq<CallData>,
                     ghost order: seq<nat>)
      returns (temp': seq<Call>)
      requires maps.Knows(call) && maps.ValidSinks() && call.ref < |calls| && calls[call.ref].created == call.created
      requires maps.media == CheckAll(cfg, m, calls, now, order) && Named(temp, Retired(cfg, m, calls, now, order))
      modifies maps`media, maps`rtpSinkMap, call`rtpSinksAreActivated, call.localRtpSinkMap.Values`active
      modifies call.localRtpSinkMap.Values`packetCount, call.localRtpSinkMap.Values`activityTs
      modifies call.localRtpSinkMap.Values`polledAt
      ensures maps.ValidSinks() && maps.media == CheckAll(cfg, m, calls, now, order + [call.ref])
      ensures Named(temp', Retired(cfg, m, calls, now, order + [call.ref]))
    {
      ghost var m1, refs := maps.media, Retired(cfg, m, calls, now, order);
      temp' := CheckNamed(call, now, temp, refs);
      CheckAllStep(cfg, m, calls, now, order, call.ref, m1, refs, maps.media);
    }

    /** CheckSinks, with the positions of the calls on the temporary queue. */
    method CheckNamed(call: Call, now: int, temp: seq<Call>, ghost refs: seq<nat>) returns (temp': seq<Call>)
      requires maps.Knows(call) && maps.ValidSinks() && Named(temp, refs)
      modifies maps`media, maps`rtpSinkMap, call`rtpSinksAreActivated, call.localRtpSinkMap.Values`active
      modifies call.localRtpSinkMap.Values`packetCount, call.localRtpSinkMap.Values`activityTs
      modifies call.localRtpSinkMap.Values`polledAt
      ensures maps.ValidSinks() && call.ref < |old(maps.media).calls|
      ensures var m, c, age := old(maps.media), call.ref, Media.Seconds(now - call.created);
        maps.media == MediaChecked(cfg, m, c, age, now)
          && Named(temp', refs + Copies(TimesRetired(cfg, m, c, age, now), c))
    {
      ghost var m, age := maps.media, Media.Seconds(now - call.created);
      temp' := CheckSinks(call, now, temp);
      NamedAppend(temp, refs, call, TimesRetired(cfg, m, call.ref, age, now));
    }

    /** The calls of the snapshot are those the world has under their Call-IDs. */
    ghost predicate IsSnapshot(snapshot: map<string, Call>, w: World)
      reads maps`callObjs
    {
      snapshot.Keys == w.callMap.Keys
      && forall id <- snapshot ::
           var c := w.callMap[id];
           c < |maps.callObjs| && c < |w.calls| && snapshot[id] == maps.callObjs[c] && snapshot[id].ref == c
           && snapshot[id].created == w.calls[c].created
    }

    /** The invariant of the first loop. */
    ghost predicate Checked(w: World, now: int, temp: seq<Call>, order: seq<nat>, todo: set<string>)
      reads maps`media, maps`callObjs
    {
      && Enumerates(order, Refs(w.callMap, w.callMap.Keys - todo))
      && maps.media == CheckAll(cfg, w.media, w.calls, now, order)
        && Named(temp, Retired(cfg, w.media, w.calls, now, order))
    }

    method CheckUnder(id: string, call: Call, now: int, temp: seq<Call>, ghost w: World, ghost order: seq<nat>,
                      ghost todo: set<string>)
      returns (temp': seq<Call>)
      requires Wf(w) && id in todo && todo <= w.callMap.Keys && Checked(w, now, temp, order, todo) && maps.ValidSinks()
      requires call.ref == w.callMap[id] && maps.Knows(call) && call.ref < |w.calls|
      requires call.created == w.calls[call.ref].created
      modifies maps`media, maps`rtpSinkMap, maps.callObjs`rtpSinksAreActivated
      modifies maps.sinkObjs`active, maps.sinkObjs`packetCount, maps.sinkObjs`activityTs, maps.sinkObjs`polledAt
      ensures maps.ValidSinks() && Checked(w, now, temp', order + [call.ref], todo - {id})
    {
      maps.LocalSinks(call);
      NextRef(w, order, w.callMap, todo, id);
      temp' := CheckNext(call, now, temp, w.media, w.calls, order);
    }

    /** The first loop of handleCallTimeouts, over a snapshot of the call map. */
    method CheckSnapshot(snapshot: map<string, Call>, now: int, ghost w: World) returns (temp: seq<Call>,
                         ghost order: seq<nat>)
      requires Wf(w) && IsSnapshot(snapshot, w) && maps.ValidSinks() && maps.media == w.media
      modifies maps`media, maps`rtpSinkMap, maps.callObjs`rtpSinksAreActivated
      modifies maps.sinkObjs`active, maps.sinkObjs`packetCount, maps.sinkObjs`activityTs, maps.sinkObjs`polledAt
      ensures maps.ValidSinks() && Checked(w, now, temp, order, {})
    {
      temp, order := [], [];
      var todo := snapshot.Keys;
      while todo != {}
        invariant todo <= snapshot.Keys && maps.ValidSinks() && Checked(w, now, temp, order, todo)
        decreases |todo|
      {
        var id :| id in todo;
        temp := CheckUnder(id, snapshot[id], now, temp, w, order, todo);
        order := order + [w.callMap[id]];
        todo := todo - {id};
      }
    }

    /** This leaves calls, call map and decode queue alone. */
    method CheckAside(snapshot: map<string, Call>, now: int, ghost w: World) returns (temp: seq<Call>,
                      ghost order: seq<nat>)
      requires Wf(w) && IsSnapshot(snapshot, w) && maps.Valid() && maps.media == w.media
      modifies maps`media, maps`rtpSinkMap, maps.callObjs`rtpSinksAreActivated
      modifies maps.sinkObjs`active, maps.sinkObjs`packetCount, maps.sinkObjs`activityTs, maps.sinkObjs`polledAt
      ensures maps.ValidCalls() && maps.ValidMaps() && maps.ValidSinks() && Checked(w, now, temp, order, {})
    {
      temp, order := CheckSnapshot(snapshot, now, w);
    }

    /** handleCallTimeouts. Without other threads in between it is the round of SystemModel
        over the calls of the map in some order. */
    method HandleCallTimeouts(now: int) returns (ghost order: seq<nat>)
      requires maps.Valid() && Wf(maps.World())
      modifies maps`callMap, maps`decodeQueue, maps`ids, maps`queue
      modifies maps`media, maps`rtpSinkMap, maps.callObjs`rtpSinksAreActivated
      modifies maps.sinkObjs`active, maps.sinkObjs`packetCount, maps.sinkObjs`activityTs, maps.sinkObjs`polledAt
      ensures maps.Valid() && SystemWf(Around(old(maps.World()), now))
      ensures Enumerates(order, old(maps.World()).callMap.Values)
      ensures maps.World() == Run(cfg, Around(old(maps.World()), now), Round(order)).w
    {
      ghost var w := maps.World();
      var temp;
      temp, order := CheckCalls(now);
      ghost var refs := Retired(cfg, w.media, w.calls, now, order);
      Commit(temp, refs);
      RoundIs(cfg, w, now, order, maps.World());
    }

    /** The first two stages of handleCallTimeouts. */
    method CheckCalls(now: int) returns (temp: seq<Call>, ghost order: seq<nat>)
      requires maps.Valid() && Wf(maps.World())
      modifies maps`media, maps`rtpSinkMap, maps.callObjs`rtpSinksAreActivated
      modifies maps.sinkObjs`active, maps.sinkObjs`packetCount, maps.sinkObjs`activityTs, maps.sinkObjs`polledAt
      ensures maps.Valid() && Wf(maps.World()) && Enumerates(order, old(maps.World()).callMap.Values)
      ensures var w := old(maps.World());
        && maps.World() == w.(media := CheckAll(cfg, w.media, w.calls, now, order))
        && Named(temp, Retired(cfg, w.media, w.calls, now, order))
    {
      ghost var w := maps.World();
      var snapshot := maps.callMap;
      assert IsSnapshot(snapshot, w);
      temp, order := CheckAside(snapshot, now, w);
      AllRefs(w.callMap);
    }
  }

  /** The sinks after the calls in `order` were checked one after the other. */
  ghost function CheckAll(cfg: Config, m: Media.MediaState, calls: seq<CallData>, now: int,
                          order: seq<nat>): (r: Media.MediaState)
    ensures |r.calls| == |m.calls|
  {
    if order == [] then m
    else
      var c, before := order[|order| - 1], CheckAll(cfg, m, calls, now, order[..|order| - 1]);
      if c < |calls| && c < |before.calls|
        then MediaChecked(cfg, before, c, Media.Seconds(now - calls[c].created), now) else before
  }

  /** The temporary queue after these checks. */
  ghost function Retired(cfg: Config, m: Media.MediaState, calls: seq<CallData>, now: int, order: seq<nat>): seq<nat> {
    if order == [] then []
    else
      var c, before := order[|order| - 1], order[..|order| - 1];
      var m1 := CheckAll(cfg, m, calls, now, before);
      Retired(cfg, m, calls, now, before) +
      if c < |calls| && c < |m1.calls|
        then Copies(TimesRetired(cfg, m1, c, Media.Seconds(now - calls[c].created), now), c) else []
  }

  lemma CheckAllStep(cfg: Config, m: Media.MediaState, calls: seq<CallData>, now: int, order: seq<nat>, c: nat,
                     m1: Media.MediaState, refs: seq<nat>, m2: Media.MediaState)
    requires c < |calls| && c < |m.calls| && m1 == CheckAll(cfg, m, calls, now, order)
    requires refs == Retired(cfg, m, calls, now, order)
    requires m2 == MediaChecked(cfg, m1, c, Media.Seconds(now - calls[c].created), now)
    ensures m2 == CheckAll(cfg, m, calls, now, order + [c])
    ensures Retired(cfg, m, calls, now, order + [c]) ==
      refs + Copies(TimesRetired(cfg, m1, c, Media.Seconds(now - calls[c].created), now), c)
  {
    assert (order + [c])[..|order|] == order;
  }

  /** The sequence has each of the calls once. */
  predicate Enumerates(order: seq<nat>, calls: set<nat>) {
    (set c | c in order) == calls && forall i, j | 0 <= i < j < |order| :: order[i] != order[j]
  }

  function Refs(ids: map<string, nat>, names: set<string>): set<nat> {
    set id | id in names && id in ids :: ids[id]
  }

  lemma AllRefs(ids: map<string, nat>)
    ensures Refs(ids, ids.Keys - {}) == ids.Values
  {
  }

  /** The shared state with no other thread at work. */
  function Around(w: World, now: int): System {
    System(w, Idle, now, 0, None, {})
  }

  lemma AppendCheck(cfg: Config, s: System, order: seq<nat>, c: nat)
    requires SystemWf(s)
    ensures Run(cfg, s, Checks(order + [c])) == Do(cfg, Run(cfg, s, Checks(order)), Check(c))
  {
    assert Checks(order + [c]) == Checks(order) + [Check(c)];
    RunConcat(cfg, s, Checks(order), [Check(c)]);
    var r := Run(cfg, s, Checks(order));
    assert Run(cfg, r, [Check(c)]) == Run(cfg, Do(cfg, r, Check(c)), []);
  }

  /** The state after calls of the snapshot were checked one after the other. */
  ghost function After(cfg: Config, s: System, order: seq<nat>): System
    requires s.dog.Checking?
  {
    s.(w := s.w.(media := CheckAll(cfg, s.w.media, s.w.calls, s.now, order)),
       dog := Checking(s.dog.todo - (set c | c in order), s.dog.temp
         + Retired(cfg, s.w.media, s.w.calls, s.now, order)))
  }

  lemma Appended(order: seq<nat>, c: nat, todo: set<nat>, temp: seq<nat>, before: seq<nat>, now: seq<nat>)
    ensures todo - (set x | x in order + [c]) == todo - (set x | x in order) - {c}
    ensures temp + before + now == temp + (before + now)
  {
  }

  lemma AfterStep(cfg: Config, s: System, order: seq<nat>, c: nat)
    requires s.dog.Checking? && c in s.dog.todo && c !in order && SystemWf(After(cfg, s, order))
    ensures Do(cfg, After(cfg, s, order), Check(c)) == After(cfg, s, order + [c])
  {
    var r := After(cfg, s, order);
    CheckIs(cfg, r, c);
    CheckAllStep(cfg, s.w.media, s.w.calls, s.now, order, c, r.w.media,
      Retired(cfg, s.w.media, s.w.calls, s.now, order),
                 MediaChecked(cfg, r.w.media, c, Age(r, c), s.now));
    Appended(order, c, s.dog.todo, s.dog.temp, Retired(cfg, s.w.media, s.w.calls, s.now, order),
             Copies(TimesRetired(cfg, r.w.media, c, Age(r, c), r.now), c));
  }

  ghost predicate AreChecked(cfg: Config, s: System, order: seq<nat>)
    requires SystemWf(s) && s.dog.Checking?
  {
    Run(cfg, s, Checks(order)) == After(cfg, s, order)
  }

  lemma NoChecks(cfg: Config, s: System)
    requires SystemWf(s) && s.dog.Checking?
    ensures AreChecked(cfg, s, [])
  {
    assert Checks([]) == [];
    assert s.dog.temp + [] == s.dog.temp;
  }

  lemma OneMoreCheck(cfg: Config, s: System, order: seq<nat>, c: nat, order': seq<nat>)
    requires SystemWf(s) && s.dog.Checking? && c in s.dog.todo && c !in order && order' == order + [c]
    requires AreChecked(cfg, s, order)
    ensures AreChecked(cfg, s, order')
  {
    AppendCheck(cfg, s, order, c);
    AfterStep(cfg, s, order, c);
  }

  lemma FrontAndLast(order: seq<nat>, front: seq<nat>, last: nat)
    requires order != [] && front == order[..|order| - 1] && last == order[|order| - 1]
    requires forall i, j | 0 <= i < j < |order| :: order[i] != order[j]
    ensures order == front + [last] && last in order && last !in front && |front| < |order|
    ensures forall i, j | 0 <= i < j < |front| :: front[i] != front[j]
    ensures forall c <- front :: c in order
  {
  }

  lemma {:induction false} ChecksAre(cfg: Config, s: System, order: seq<nat>)
    requires SystemWf(s) && s.dog.Checking?
    requires (forall c <- order :: c in s.dog.todo) && (forall i, j | 0 <= i < j < |order| :: order[i] != order[j])
    ensures AreChecked(cfg, s, order)
    decreases |order|
  {
    if order == [] {
      NoChecks(cfg, s);
    } else {
      var front, last := order[..|order| - 1], order[|order| - 1];
      FrontAndLast(order, front, last);
      ChecksAre(cfg, s, front);
      OneMoreCheck(cfg, s, front, last, order);
    }
  }

  lemma StartRound(cfg: Config, w: World, now: int)
    requires Wf(w)
    ensures SystemWf(Around(w, now))
    ensures Do(cfg, Around(w, now), Snapshot) == System(w, Checking(w.callMap.Values, []), now, 0, None, {})
  {
    forall c <- w.callMap.Values ensures c < |w.calls| {
      var id :| id in w.callMap && w.callMap[id] == c;
      assert Names(w, id, c);
    }
  }

  lemma EndRound(cfg: Config, s: System)
    requires SystemWf(s) && s.dog.Checking? && s.dog.todo == {}
    ensures (forall i | 0 <= i < |s.dog.temp| :: s.dog.temp[i] < |s.w.calls|)
    ensures Do(cfg, s, Commit).w == CommitCalls(s.w, s.dog.temp)
  {
  }

  lemma {:induction false} RoundIs(cfg: Config, w: World, now: int, order: seq<nat>, r: World)
    requires Wf(w) && Enumerates(order, w.callMap.Values)
    requires var refs := Retired(cfg, w.media, w.calls, now, order);
      && (forall i | 0 <= i < |refs| :: refs[i] < |w.calls|)
      && r == CommitCalls(w.(media := CheckAll(cfg, w.media, w.calls, now, order)), refs)
    ensures SystemWf(Around(w, now)) && r == Run(cfg, Around(w, now), Round(order)).w
  {
    StartRound(cfg, w, now);
    RoundInStages(cfg, Around(w, now), order);
    var s1 := System(w, Checking(w.callMap.Values, []), now, 0, None, {});
    ChecksAre(cfg, s1, order);
    EndRound(cfg, After(cfg, s1, order));
    assert [] + Retired(cfg, w.media, w.calls, now, order) == Retired(cfg, w.media, w.calls, now, order);
  }

  /** Different Call-IDs name different calls. */
  lemma NextRef(w: World, order: seq<nat>, ids: map<string, nat>, todo: set<string>, id: string)
    requires Wf(w) && w.callMap == ids && id in todo && todo <= ids.Keys
    requires Enumerates(order, Refs(ids, ids.Keys - todo))
    ensures Enumerates(order + [ids[id]], Refs(ids, ids.Keys - (todo - {id})))
  {
    forall x | x in ids.Keys - todo ensures ids[x] != ids[id] {
      assert Names(w, x, ids[x]) && Names(w, id, ids[id]);
    }
    assert (set c | c in order + [ids[id]]) == (set c | c in order) + {ids[id]};
    assert Refs(ids, ids.Keys - (todo - {id})) == Refs(ids, ids.Keys - todo) + {ids[id]};
  }

  lemma UnregisterTwice(m: Media.MediaState, c: nat)
    requires c < |m.calls|
    ensures Media.Unregister(Media.Unregister(m, c), c) == Media.Unregister(m, c)
  {
  }
}
