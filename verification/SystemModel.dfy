/**
 The threads of callx around the shared state, as interleaved atomic actions: the SIP
 worker, the UDP worker, the watchdog (src/container/CallMap.cpp) in its three stages,
 the decoder (src/audio/AudioHandler.cpp), the destruction of calls nobody refers to, and
 the clock.
 */
module SystemModel {
  import opened SipTypes
  import opened Signalling
  import opened SipMachine
  import Media

  datatype Config = Config(maxRecordingTime: int, maxRtpInactivity: int, maxCallAge: int)

  /** `todo` are the calls of the snapshot not looked at yet, `temp` is tempCallQueue. */
  datatype Watchdog = Idle | Checking(todo: set<nat>, temp: seq<nat>)

  /** `popped` counts the calls the decoder took off the decode queue; `decoding` is the last. */
  datatype System = System(
    w: World, dog: Watchdog, now: int, popped: nat, decoding: Option<nat>, destroyed: set<nat>)

  datatype Action =
    | SipPacket(p: Packet, noRtp: bool)
    | RtpPacket(socket: SocketAddress, packet: nat)
    | Snapshot
    | Check(c: nat)
    | Commit
    | Decode
    | Destroy(c: nat)
    | Tick(ticks: nat)

  const START := System(EMPTY, Idle, 0, 0, None, {})

  /** Some thread or container still holds a shared pointer to the call. */
  ghost predicate Referenced(s: System, c: nat) {
    || InMap(s.w, c)
    || (s.dog.Checking? && (c in s.dog.todo || c in s.dog.temp))
    || (exists i :: s.popped <= i < |s.w.decodeQueue| && s.w.decodeQueue[i] == c)
    || s.decoding == Some(c)
  }

  ghost predicate Enabled(s: System, a: Action) {
    match a
    case Snapshot => s.dog.Idle?
    case Check(c) => s.dog.Checking? && c in s.dog.todo
    case Commit => s.dog.Checking? && s.dog.todo == {}
    case Decode => s.popped < |s.w.decodeQueue|
    case Destroy(c) => c < |s.w.calls| && c !in s.destroyed && !Referenced(s, c)
    case _ => true
  }

  ghost predicate SystemWf(s: System) {
    && Wf(s.w)
    && (s.dog.Checking? ==>
      (forall c <- s.dog.todo :: c < |s.w.calls|) && (forall i | 0 <= i < |s.dog.temp| :: s.dog.temp[i] < |s.w.calls|))
    && (forall c <- s.destroyed :: c < |s.w.calls|)
    && (s.decoding.Some? ==> s.decoding.value < |s.w.calls|)
  }

  function Age(s: System, c: nat): int
    requires c < |s.w.calls|
  {
    Media.Seconds(s.now - s.w.calls[c].created)
  }

  /** The sinks after the recording-time check of one call. */
  function CheckRecording(cfg: Config, s: System, c: nat): (m: Media.MediaState)
    requires c < |s.w.calls| == |s.w.media.calls|
    ensures |m.calls| == |s.w.calls|
  {
    if s.w.media.calls[c].recording && Age(s, c) > cfg.maxRecordingTime
    then Media.StopRecording(s.w.media, c) else s.w.media
  }

  /** How often the per-call check of the watchdog puts the call on its temporary queue. */
  ghost function Retirements(cfg: Config, s: System, c: nat): (n: nat)
    requires c < |s.w.calls| == |s.w.media.calls|
    ensures n <= 2
  {
    (if Media.Inactive(CheckRecording(cfg, s, c), c, Age(s, c), cfg.maxRtpInactivity, s.now) then 1 else 0)
    + (if Age(s, c) > cfg.maxCallAge then 1 else 0)
  }

  function Copies<T>(n: nat, x: T): (q: seq<T>)
    ensures |q| == n && forall i | 0 <= i < n :: q[i] == x
  {
    seq(n, _ => x)
  }

  ghost function CheckCall(cfg: Config, s: System, c: nat): System
    requires SystemWf(s) && Enabled(s, Check(c))
  {
    var m := Media.PollSinks(CheckRecording(cfg, s, c), c, s.now);
    var n := Retirements(cfg, s, c);
    s.(w := s.w.(media := if n > 0 then Media.Unregister(m, c) else m),
       dog := Checking(s.dog.todo - {c}, s.dog.temp + Copies(n, c)))
  }

  /** The last loop of handleCallTimeouts, under the lock of the call map. */
  function CommitCalls(w: World, temp: seq<nat>): World
    requires forall i | 0 <= i < |temp| :: temp[i] < |w.calls|
    decreases |temp|
  {
    if temp == [] then w
    else
      var id := w.calls[temp[0]].callId;
      CommitCalls(if id in w.callMap
        then w.(callMap := w.callMap - {id}, decodeQueue := w.decodeQueue + [temp[0]]) else w,
                  temp[1..])
  }

  /** One action; an action that is not enabled does nothing. */
  ghost function Do(cfg: Config, s: System, a: Action): (r: System)
    requires SystemWf(s)
    ensures SystemWf(r)
  {
    if !Enabled(s, a) then s
    else
      DoWf(cfg, s, a);
      DoEnabled(cfg, s, a)
  }

  ghost function DoEnabled(cfg: Config, s: System, a: Action): System
    requires SystemWf(s) && Enabled(s, a)
  {
    match a
    case SipPacket(p, noRtp) => s.(w := Step(s.w, p, s.now, noRtp))
    case RtpPacket(socket, packet) => s.(w := s.w.(media := Media.Receive(s.w.media, socket, packet, s.now)))
    case Snapshot => s.(dog := Checking(s.w.callMap.Values, []))
    case Check(c) => CheckCall(cfg, s, c)
    case Commit => s.(w := CommitCalls(s.w, s.dog.temp), dog := Idle)
    case Decode =>
      var c := s.w.decodeQueue[s.popped];
      s.(w := s.w.(media := Media.TakeDeques(s.w.media, c)), popped := s.popped + 1, decoding := Some(c))
    case Destroy(c) => s.(w := s.w.(media := Media.Unregister(s.w.media, c)), destroyed := s.destroyed + {c})
    case Tick(ticks) => s.(now := s.now + ticks)
  }

  ghost function Run(cfg: Config, s: System, acts: seq<Action>): (r: System)
    requires SystemWf(s)
    ensures SystemWf(r)
    decreases |acts|
  {
    if acts == [] then s else Run(cfg, Do(cfg, s, acts[0]), acts[1..])
  }

  function Checks(order: seq<nat>): seq<Action> {
    seq(|order|, i requires 0 <= i < |order| => Check(order[i]))
  }

  /** A round of the watchdog over the calls of the map in some order. */
  function Round(order: seq<nat>): seq<Action> {
    [Snapshot] + Checks(order) + [Commit]
  }

  lemma {:induction false} RunConcat(cfg: Config, s: System, xs: seq<Action>, ys: seq<Action>)
    requires SystemWf(s)
    ensures Run(cfg, s, xs + ys) == Run(cfg, Run(cfg, s, xs), ys)
    decreases |xs|
  {
    if xs == [] {
      assert xs + ys == ys;
    } else {
      assert (xs + ys)[0] == xs[0] && (xs + ys)[1..] == xs[1..] + ys;
      RunConcat(cfg, Do(cfg, s, xs[0]), xs[1..], ys);
    }
  }

  lemma RunThree(cfg: Config, s: System, acts: seq<Action>)
    requires SystemWf(s) && |acts| == 3
    ensures Run(cfg, s, acts) == Do(cfg, Do(cfg, Do(cfg, s, acts[0]), acts[1]), acts[2])
  {
    var s1 := Do(cfg, s, acts[0]);
    var s2 := Do(cfg, s1, acts[1]);
    assert Run(cfg, s, acts) == Run(cfg, s1, acts[1..]);
    assert Run(cfg, s1, acts[1..]) == Run(cfg, s2, acts[2..]) by { assert acts[1..][1..] == acts[2..]; }
    assert Run(cfg, s2, acts[2..]) == Do(cfg, s2, acts[2]) by { assert acts[2..][1..] == []; }
  }

  lemma RunFour(cfg: Config, s: System, acts: seq<Action>)
    requires SystemWf(s) && |acts| == 4
    ensures Run(cfg, s, acts) == Do(cfg, Do(cfg, Do(cfg, Do(cfg, s, acts[0]), acts[1]), acts[2]), acts[3])
  {
    RunThree(cfg, Do(cfg, s, acts[0]), acts[1..]);
  }

  lemma RoundInStages(cfg: Config, s: System, order: seq<nat>)
    requires SystemWf(s)
    ensures Run(cfg, s, Round(order)) == Do(cfg, Run(cfg, Do(cfg, s, Snapshot), Checks(order)), Commit)
  {
    var s1 := Do(cfg, s, Snapshot);
    RunConcat(cfg, s, [Snapshot] + Checks(order), [Commit]);
    RunConcat(cfg, s, [Snapshot], Checks(order));
    assert Run(cfg, s, [Snapshot]) == Run(cfg, s1, []);
    var s2 := Run(cfg, s1, Checks(order));
    assert Run(cfg, s2, [Commit]) == Run(cfg, Do(cfg, s2, Commit), []);
  }

  lemma {:induction false} CommitWf(w: World, temp: seq<nat>)
    requires Wf(w) && forall i | 0 <= i < |temp| :: temp[i] < |w.calls|
    ensures Wf(CommitCalls(w, temp))
    ensures CommitCalls(w, temp).calls == w.calls && CommitCalls(w, temp).media == w.media
    decreases |temp|
  {
    if temp != [] {
      var id := w.calls[temp[0]].callId;
      CommitWf(if id in w.callMap then w.(callMap := w.callMap - {id}, decodeQueue := w.decodeQueue + [temp[0]])
        else w, temp[1..]);
    }
  }

  lemma StepGrows(w: World, p: Packet, now: int, noRtp: bool)
    requires Wf(w)
    ensures |Step(w, p, now, noRtp).calls| >= |w.calls|
  {
  }

  lemma DoWf(cfg: Config, s: System, a: Action)
    requires SystemWf(s) && Enabled(s, a)
    ensures SystemWf(DoEnabled(cfg, s, a))
  {
    match a
    case SipPacket(p, noRtp) => StepGrows(s.w, p, s.now, noRtp);
    case RtpPacket(socket, packet) =>
      Media.ReceiveWf(s.w.media, socket, packet, s.now);
    case Check(c) =>
      Media.PollWf(s.w.media, c, s.now);
      var m := CheckRecording(cfg, s, c);
      Media.PollWf(m, c, s.now);
      Media.UnregisterWf(Media.PollSinks(m, c, s.now), c);
    case Commit => CommitWf(s.w, s.dog.temp);
    case Decode => Media.PollWf(s.w.media, s.w.decodeQueue[s.popped], s.now);
    case Destroy(c) => Media.UnregisterWf(s.w.media, c);
    case _ =>
  }
}
