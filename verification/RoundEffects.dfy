/**
 What the watchdog and the decoder do with a call, in clock ticks and by the fields of call and
 sinks (src/container/CallMap.cpp, src/sip/Call.cpp, src/audio/AudioHandler.cpp).
 */
module RoundEffects {
  import opened SipTypes
  import opened Signalling
  import opened SipMachine
  import opened SystemModel
  import Media

  /** The call holds sink k. */
  predicate HoldsSink(m: Media.MediaState, c: nat, k: nat) {
    c < |m.calls| && exists s <- m.calls[c].local :: m.calls[c].local[s] == k
  }

  lemma HoldsIff(m: Media.MediaState, c: nat, k: nat)
    requires Media.Wf(m) && c < |m.calls| && k < |m.sinks|
    ensures Media.Holds(m, c, k) <==> HoldsSink(m, c, k)
  {
    if HoldsSink(m, c, k) {
      var s :| s in m.calls[c].local && m.calls[c].local[s] == k;
      assert Media.WfLocal(m, c, s, k);
    }
  }

  /** A round begins with the calls of the map. */
  lemma SnapshotEffect(cfg: Config, s: System, r: System)
    requires SystemWf(s) && s.dog == Idle && r == Do(cfg, s, Snapshot)
    ensures r.dog.Checking? && r.dog.temp == [] && r.w == s.w && r.now == s.now
    ensures forall c :: c in r.dog.todo <==> exists id <- s.w.callMap :: s.w.callMap[id] == c
  {
    assert r.dog.todo == s.w.callMap.Values;
    forall c ensures c in r.dog.todo <==> exists id <- s.w.callMap :: s.w.callMap[id] == c {
      if c in s.w.callMap.Values {
        var id :| id in s.w.callMap && s.w.callMap[id] == c;
      }
    }
  }

  /** The seconds without packets that the sink reports. */
  function Silence(k: Media.SinkData, now: int): int {
    if k.packetCount > 0 then 0 else (now - k.activityTs) / 1_000_000_000
  }

  /** The call is older than so many seconds, and each sink it holds is silent for longer. */
  predicate IsSilent(m: Media.MediaState, c: nat, age: int, limit: int, now: int)
    requires c < |m.calls|
  {
    && age > limit
    && forall s <- m.calls[c].local ::
      m.calls[c].local[s] < |m.sinks| ==> Silence(m.sinks[m.calls[c].local[s]], now) > limit
  }

  /** How often the check puts the call on the temporary queue: once if it is silent for more than
      the limit, and once if it is older than the maximum age. */
  lemma RetirementsAre(cfg: Config, s: System, c: nat)
    requires SystemWf(s) && c < |s.w.calls|
    ensures var age := (s.now - s.w.calls[c].created) / 1_000_000_000;
      Retirements(cfg, s, c) ==
        (if IsSilent(s.w.media, c, age, cfg.maxRtpInactivity, s.now) then 1 else 0)
        + (if age > cfg.maxCallAge then 1 else 0)
  {
    var m, age := CheckRecording(cfg, s, c), (s.now - s.w.calls[c].created) / 1_000_000_000;
    assert m.calls[c].local == s.w.media.calls[c].local && |m.sinks| == |s.w.media.sinks|;
    assert forall k | 0 <= k < |m.sinks| :: Media.Reported(m.sinks[k], s.now) == Silence(s.w.media.sinks[k], s.now);
    assert Media.Inactive(m, c, age, cfg.maxRtpInactivity, s.now)
      <==> IsSilent(s.w.media, c, age, cfg.maxRtpInactivity, s.now);
  }

  /** The check of a call: it comes on the temporary queue that often, and if it does its sockets
      leave the global map. */
  lemma CheckEffect(cfg: Config, s: System, c: nat, r: System)
    requires SystemWf(s) && s.dog.Checking? && c in s.dog.todo && c < |s.w.calls| && r == Do(cfg, s, Check(c))
    ensures var age := (s.now - s.w.calls[c].created) / 1_000_000_000;
      var silent, tooOld := IsSilent(s.w.media, c, age, cfg.maxRtpInactivity, s.now), age > cfg.maxCallAge;
      && r.dog == Checking(s.dog.todo - {c},
           s.dog.temp + (if silent && tooOld then [c, c] else if silent || tooOld then [c] else []))
      && r.w.media.global ==
           (if silent || tooOld then s.w.media.global - s.w.media.calls[c].local.Keys else s.w.media.global)
      && r.w.callMap == s.w.callMap && r.w.calls == s.w.calls && r.w.decodeQueue == s.w.decodeQueue
  {
    RetirementsAre(cfg, s, c);
    var n := Retirements(cfg, s, c);
    assert r.dog.temp == s.dog.temp + Copies(n, c);
    assert Copies(2, c) == [c, c] && Copies(1, c) == [c] && Copies(0, c) == [];
  }

  /** The sinks after the check of the call, before its sockets are unregistered. */
  lemma CheckedSink(cfg: Config, s: System, c: nat, q: Media.MediaState, k: nat)
    requires SystemWf(s) && c < |s.w.calls| && k < |s.w.media.sinks|
    requires q == Media.PollSinks(CheckRecording(cfg, s, c), c, s.now)
    ensures IsChecked(cfg, s, c, q, k)
  {
    HoldsIff(s.w.media, c, k);
    var m := CheckRecording(cfg, s, c);
    assert Media.Holds(m, c, k) <==> Media.Holds(s.w.media, c, k);
  }

  /** Recording of the call stops if and only if it is older than the maximum recording time, and
      then every sink it holds is inactive. Each sink it holds forgets the packets it counted. */
  ghost predicate IsChecked(cfg: Config, s: System, c: nat, q: Media.MediaState, k: nat)
    requires c < |s.w.calls| == |s.w.media.calls| && k < |s.w.media.sinks|
  {
    var age, m := (s.now - s.w.calls[c].created) / 1_000_000_000, s.w.media;
    && |q.calls| == |m.calls| && |q.sinks| == |m.sinks|
    && q.calls[c] == m.calls[c].(recording := m.calls[c].recording && age <= cfg.maxRecordingTime)
    && (forall d | 0 <= d < |m.calls| && d != c :: q.calls[d] == m.calls[d])
    && q.sinks[k] ==
       if !HoldsSink(m, c, k) then m.sinks[k]
       else m.sinks[k].(
         active := m.sinks[k].active && !(m.calls[c].recording && age > cfg.maxRecordingTime), packetCount := 0,
         activityTs := if m.sinks[k].packetCount > 0 then s.now else m.sinks[k].activityTs, polledAt := s.now)
  }

  /** What the check does to recording and to the sinks. */
  lemma CheckStopsRecording(cfg: Config, s: System, c: nat, r: System, k: nat)
    requires SystemWf(s) && s.dog.Checking? && c in s.dog.todo && c < |s.w.calls| && r == Do(cfg, s, Check(c))
    requires k < |s.w.media.sinks|
    ensures IsChecked(cfg, s, c, r.w.media, k)
  {
    CheckedSink(cfg, s, c, Media.PollSinks(CheckRecording(cfg, s, c), c, s.now), k);
  }

  /** The commit goes through the temporary queue in order: after one more call, that call is at the
      end of the decode queue and its Call-ID is gone from the map, if the Call-ID was still there. */
  lemma {:induction false} CommitStep(w: World, temp: seq<nat>, c: nat, v: World, r: World)
    requires (forall i | 0 <= i < |temp| :: temp[i] < |w.calls|) && c < |w.calls|
    requires v == CommitCalls(w, temp) && r == CommitCalls(w, temp + [c])
    ensures v.calls == w.calls
    ensures var id := w.calls[c].callId;
      r == if id in v.callMap then v.(callMap := v.callMap - {id}, decodeQueue := v.decodeQueue + [c]) else v
    decreases |temp|
  {
    var id := if temp == [] then "" else w.calls[temp[0]].callId;
    if temp == [] {
      assert [c][1..] == [];
      assert temp + [c] == [c];
    } else {
      var w1 := if id in w.callMap
        then w.(callMap := w.callMap - {id}, decodeQueue := w.decodeQueue + [temp[0]]) else w;
      assert (temp + [c])[0] == temp[0] && (temp + [c])[1..] == temp[1..] + [c];
      CommitStep(w1, temp[1..], c, v, r);
    }
  }

  /** The commit of an empty queue changes nothing, and the round is over in any case. */
  lemma CommitEffect(cfg: Config, s: System, r: System)
    requires SystemWf(s) && s.dog.Checking? && s.dog.todo == {} && r == Do(cfg, s, Commit)
    ensures r == s.(w := CommitCalls(s.w, s.dog.temp), dog := Idle)
    ensures s.dog.temp == [] ==> r.w == s.w
  {
  }

  /** A call is destroyed once nothing refers to it, and then its sockets leave the global map. */
  lemma DestroyEffect(cfg: Config, s: System, c: nat, r: System)
    requires SystemWf(s) && c < |s.w.calls| && c !in s.destroyed && r == Do(cfg, s, Destroy(c))
    ensures
      if Referenced(s, c) then r == s
      else
        && r.destroyed == s.destroyed + {c}
        && r.w == s.w.(media := s.w.media.(global := s.w.media.global - s.w.media.calls[c].local.Keys))
  {
  }

  /** The decoder takes the next call, and the deques of the sinks it holds, and nothing else. */
  lemma DecodeEffect(cfg: Config, s: System, r: System, k: nat)
    requires SystemWf(s) && s.popped < |s.w.decodeQueue| && r == Do(cfg, s, Decode) && k < |s.w.media.sinks|
    ensures r.popped == s.popped + 1 && r.decoding == Some(s.w.decodeQueue[s.popped])
    ensures r.w == s.w.(media := s.w.media.(sinks := r.w.media.sinks)) && k < |r.w.media.sinks|
    ensures r.w.media.sinks[k] ==
      if HoldsSink(s.w.media, s.w.decodeQueue[s.popped], k) then s.w.media.sinks[k].(packets := None)
      else s.w.media.sinks[k]
  {
    assert s.w.decodeQueue[s.popped] < |s.w.calls|;
    HoldsIff(s.w.media, s.w.decodeQueue[s.popped], k);
  }
}
