/**
 RTP inactivity over whole runs (src/audio/RtpSink.cpp, src/sip/Call.cpp): a sink's packet
 counter is reset when it is polled, so what it reports lags behind by at most one polling
 gap; and the watchdog retires a call for inactivity only when it may.
 */
module Inactivity {
  import opened SipTypes
  import opened Signalling
  import opened SipMachine
  import opened SystemModel
  import Media

  /** The duration is at most the gap; None stands for no bound. */
  predicate Within(d: int, gap: Option<nat>) {
    gap.Some? ==> d <= gap.value
  }

  /** How the clocks of a sink relate: a positive counter means a packet since the last poll,
      and otherwise the activity time stamp is at most one gap after the last packet. */
  predicate ClockOk(k: Media.SinkData, now: int, gap: Option<nat>) {
    && k.polledAt <= now && k.lastActivity <= now
    && (k.packetCount > 0 ==> k.polledAt <= k.lastActivity)
    && (k.packetCount == 0 ==> k.lastActivity <= k.activityTs <= now && Within(k.activityTs - k.lastActivity, gap))
  }

  /** What a sink reports is sound, and short of the truth by less than a second and a gap. */
  lemma ReportIsClose(k: Media.SinkData, now: int, gap: Option<nat>)
    requires ClockOk(k, now, gap)
    ensures var reported := Media.Reported(k, now);
      && reported * Media.SECOND <= now - k.lastActivity
      && (gap.Some? && Within(now - k.polledAt, gap) ==>
        now - k.lastActivity < (reported + 1) * Media.SECOND + gap.value)
  {
  }

  lemma ClockRuns(k: Media.SinkData, now: int, later: nat, gap: Option<nat>, packet: nat)
    requires ClockOk(k, now, gap)
    ensures ClockOk(k, now + later, gap)
    ensures ClockOk(Media.RollIn(k, packet, now), now, gap)
    ensures Within(now - k.polledAt, gap) ==> ClockOk(Media.Polled(k, now), now, gap)
  {
  }

  ghost predicate Clocks(m: Media.MediaState, now: int, gap: Option<nat>) {
    forall k | 0 <= k < |m.sinks| :: ClockOk(m.sinks[k], now, gap)
  }

  /** Every sink the call holds was polled, or made, at most a gap ago. */
  ghost predicate PolledLately(m: Media.MediaState, c: nat, now: int, gap: Option<nat>)
    requires c < |m.calls|
  {
    forall s <- m.calls[c].local ::
      m.calls[c].local[s] < |m.sinks| ==> Within(now - m.sinks[m.calls[c].local[s]].polledAt, gap)
  }

  /** Whenever the watchdog looks at a call of the run, it comes within a gap. */
  ghost predicate KeepsPolling(cfg: Config, s: System, acts: seq<Action>, gap: Option<nat>)
    requires SystemWf(s)
    decreases |acts|
  {
    acts == [] ||
    ((acts[0].Check? && Enabled(s, acts[0]) ==> PolledLately(s.w.media, acts[0].c, s.now, gap))
     && KeepsPolling(cfg, Do(cfg, s, acts[0]), acts[1..], gap))
  }

  /** From m to r no sink's clocks change, apart from new sinks with all clocks at `now`. */
  ghost predicate SameClocks(m: Media.MediaState, r: Media.MediaState, now: int) {
    && |m.sinks| <= |r.sinks|
    && (forall k | 0 <= k < |m.sinks| ::
          && r.sinks[k].polledAt == m.sinks[k].polledAt && r.sinks[k].lastActivity == m.sinks[k].lastActivity
          && r.sinks[k].packetCount == m.sinks[k].packetCount && r.sinks[k].activityTs == m.sinks[k].activityTs)
    && (forall k | |m.sinks| <= k < |r.sinks| ::
          r.sinks[k].polledAt == r.sinks[k].lastActivity == r.sinks[k].activityTs == now && r.sinks[k].packetCount == 0)
  }

  lemma SameClocksKeep(m: Media.MediaState, r: Media.MediaState, now: int, gap: Option<nat>)
    requires Clocks(m, now, gap) && SameClocks(m, r, now)
    ensures Clocks(r, now, gap)
  {
    forall k | 0 <= k < |r.sinks| ensures ClockOk(r.sinks[k], now, gap) {
      if k < |m.sinks| { assert ClockOk(m.sinks[k], now, gap); }
    }
  }

  lemma OfferKeepsClocks(m: Media.MediaState, c: nat, p: Packet, o: Outcome, now: int)
    requires c < |m.calls|
    ensures SameClocks(m, OfferMedia(m, c, p, o, now), now)
  {
  }

  lemma SettleKeepsClocks(m: Media.MediaState, c: nat, o: Outcome, now: int)
    requires c < |m.calls|
    ensures |SettleMedia(m, c, o).sinks| == |m.sinks| && SameClocks(m, SettleMedia(m, c, o), now)
  {
  }

  lemma PacketKeepsClocks(m: Media.MediaState, c: nat, p: Packet, o: Outcome, now: int)
    requires c < |m.calls|
    ensures SameClocks(m, MediaAfter(m, c, p, o, now), now)
  {
    var m1 := OfferMedia(m, c, p, o, now);
    OfferKeepsClocks(m, c, p, o, now);
    SettleKeepsClocks(m1, c, o, now);
  }

  lemma PollKeepsClocks(m: Media.MediaState, c: nat, now: int, gap: Option<nat>)
    requires Clocks(m, now, gap) && c < |m.calls| && PolledLately(m, c, now, gap)
    ensures Clocks(Media.PollSinks(m, c, now), now, gap)
  {
    var r := Media.PollSinks(m, c, now);
    forall k | 0 <= k < |r.sinks| ensures ClockOk(r.sinks[k], now, gap) {
      assert ClockOk(m.sinks[k], now, gap);
      if Media.Holds(m, c, k) {
        ClockRuns(m.sinks[k], now, 0, gap, 0);
      }
    }
  }

  lemma ReceiveKeepsClocks(m: Media.MediaState, s: SocketAddress, packet: nat, now: int, gap: Option<nat>)
    requires Clocks(m, now, gap)
    ensures Clocks(Media.Receive(m, s, packet, now), now, gap)
  {
    var r := Media.Receive(m, s, packet, now);
    forall k | 0 <= k < |r.sinks| ensures ClockOk(r.sinks[k], now, gap) {
      assert ClockOk(m.sinks[k], now, gap);
    }
  }

  lemma CheckKeepsClocks(cfg: Config, s: System, c: nat, gap: Option<nat>)
    requires SystemWf(s) && Enabled(s, Check(c)) && Clocks(s.w.media, s.now, gap)
    requires PolledLately(s.w.media, c, s.now, gap)
    ensures Clocks(Do(cfg, s, Check(c)).w.media, s.now, gap)
  {
    var m := CheckRecording(cfg, s, c);
    assert SameClocks(s.w.media, m, s.now);
    SameClocksKeep(s.w.media, m, s.now, gap);
    assert m.calls[c].local == s.w.media.calls[c].local;
    PollKeepsClocks(m, c, s.now, gap);
  }

  lemma DoKeepsClocks(cfg: Config, s: System, a: Action, gap: Option<nat>)
    requires SystemWf(s) && Clocks(s.w.media, s.now, gap)
    requires a.Check? && Enabled(s, a) ==> PolledLately(s.w.media, a.c, s.now, gap)
    ensures var r := Do(cfg, s, a); Clocks(r.w.media, r.now, gap)
  {
    var m := s.w.media;
    if Enabled(s, a) {
      match a
      case SipPacket(p, noRtp) =>
        if Admits(s.w, p) {
          var v, c := Admit(s.w, p, s.now, noRtp), Target(s.w, p);
          AdmitWf(s.w, p, s.now, noRtp);
          PacketKeepsClocks(v.media, c, p, OnPacket(v.calls[c], c, p, v.nextTid, s.now), s.now);
          SameClocksKeep(v.media, Step(s.w, p, s.now, noRtp).media, s.now, gap);
        }
      case RtpPacket(socket, packet) => ReceiveKeepsClocks(m, socket, packet, s.now, gap);
      case Check(c) => CheckKeepsClocks(cfg, s, c, gap);
      case Commit => CommitWf(s.w, s.dog.temp);
      case Decode => SameClocksKeep(m, Media.TakeDeques(m, s.w.decodeQueue[s.popped]), s.now, gap);
      case Tick(ticks) =>
        forall k | 0 <= k < |m.sinks| ensures ClockOk(m.sinks[k], s.now + ticks, gap) {
          ClockRuns(m.sinks[k], s.now, ticks, gap, 0);
        }
      case _ =>
    }
  }

  lemma {:induction false} RunKeepsClocks(cfg: Config, s: System, acts: seq<Action>, gap: Option<nat>)
    requires SystemWf(s) && Clocks(s.w.media, s.now, gap) && KeepsPolling(cfg, s, acts, gap)
    ensures var r := Run(cfg, s, acts); Clocks(r.w.media, r.now, gap)
    decreases |acts|
  {
    if acts != [] {
      DoKeepsClocks(cfg, s, acts[0], gap);
      RunKeepsClocks(cfg, Do(cfg, s, acts[0]), acts[1..], gap);
    }
  }

  /** The time since the last packet of the sink the call holds under the socket, or since
      the sink was made. */
  function Idleness(s: System, c: nat, socket: SocketAddress): int
    requires c < |s.w.media.calls| && socket in s.w.media.calls[c].local
    requires s.w.media.calls[c].local[socket] < |s.w.media.sinks|
  {
    s.now - s.w.media.sinks[s.w.media.calls[c].local[socket]].lastActivity
  }

  /** The watchdog is about to look at call c and finds it inactive. */
  ghost predicate RetiresForInactivity(cfg: Config, s: System, c: nat)
    requires c < |s.w.calls| == |s.w.media.calls|
  {
    Media.Inactive(CheckRecording(cfg, s, c), c, Age(s, c), cfg.maxRtpInactivity, s.now)
  }

  lemma CheckRecordingKeepsSinks(cfg: Config, s: System, c: nat, socket: SocketAddress)
    requires c < |s.w.calls| == |s.w.media.calls| && socket in s.w.media.calls[c].local
    ensures var m := CheckRecording(cfg, s, c);
      && m.calls[c].local == s.w.media.calls[c].local && |m.sinks| == |s.w.media.sinks|
      && (m.calls[c].local[socket] < |m.sinks| ==>
            Media.Reported(m.sinks[m.calls[c].local[socket]], s.now)
            == Media.Reported(s.w.media.sinks[m.calls[c].local[socket]], s.now))
  {
  }

  /** What the sinks of the call report, in a state in which their clocks are in order. */
  lemma ReportsAreClose(cfg: Config, s: System, c: nat, gap: Option<nat>)
    requires SystemWf(s) && Clocks(s.w.media, s.now, gap) && c < |s.w.calls| && PolledLately(s.w.media, c, s.now, gap)
    ensures forall socket <- s.w.media.calls[c].local ::
      && s.w.media.calls[c].local[socket] < |s.w.media.sinks|
      && var k := s.w.media.calls[c].local[socket];
      var reported := Media.Reported(s.w.media.sinks[k], s.now);
      && reported * Media.SECOND <= Idleness(s, c, socket)
      && (gap.Some? ==> Idleness(s, c, socket) < (reported + 1) * Media.SECOND + gap.value)
      && Media.Reported(CheckRecording(cfg, s, c).sinks[k], s.now) == reported
  {
    forall socket <- s.w.media.calls[c].local
      ensures s.w.media.calls[c].local[socket] < |s.w.media.sinks|
      ensures var k := s.w.media.calls[c].local[socket];
        var reported := Media.Reported(s.w.media.sinks[k], s.now);
        && reported * Media.SECOND <= Idleness(s, c, socket)
        && (gap.Some? ==> Idleness(s, c, socket) < (reported + 1) * Media.SECOND + gap.value)
        && Media.Reported(CheckRecording(cfg, s, c).sinks[k], s.now) == reported
    {
      var k := s.w.media.calls[c].local[socket];
      assert Media.WfLocal(s.w.media, c, socket, k);
      assert ClockOk(s.w.media.sinks[k], s.now, gap);
      ReportIsClose(s.w.media.sinks[k], s.now, gap);
      CheckRecordingKeepsSinks(cfg, s, c, socket);
    }
  }

  lemma {:induction false} AnyPollingWillDo(cfg: Config, s: System, acts: seq<Action>)
    requires SystemWf(s)
    ensures KeepsPolling(cfg, s, acts, None)
    decreases |acts|
  {
    if acts != [] {
      AnyPollingWillDo(cfg, Do(cfg, s, acts[0]), acts[1..]);
    }
  }

  ghost predicate HoldsSinks(s: System, c: nat) {
    c < |s.w.calls| == |s.w.media.calls|
    && forall socket <- s.w.media.calls[c].local :: s.w.media.calls[c].local[socket] < |s.w.media.sinks|
  }

  lemma JustRetirement(cfg: Config, s: System, c: nat)
    requires SystemWf(s) && Clocks(s.w.media, s.now, None) && c < |s.w.calls| && RetiresForInactivity(cfg, s, c)
    ensures HoldsSinks(s, c) && Age(s, c) > cfg.maxRtpInactivity
    ensures forall socket <- s.w.media.calls[c].local ::
      Idleness(s, c, socket) >= (cfg.maxRtpInactivity + 1) * Media.SECOND
  {
    ReportsAreClose(cfg, s, c, None);
    var m := CheckRecording(cfg, s, c);
    forall socket <- s.w.media.calls[c].local
      ensures Idleness(s, c, socket) >= (cfg.maxRtpInactivity + 1) * Media.SECOND
    {
      CheckRecordingKeepsSinks(cfg, s, c, socket);
      assert Media.Reported(m.sinks[m.calls[c].local[socket]], s.now) > cfg.maxRtpInactivity;
    }
  }

  lemma DueRetirement(cfg: Config, s: System, c: nat, gap: nat)
    requires SystemWf(s) && Clocks(s.w.media, s.now, Some(gap)) && HoldsSinks(s, c) && Age(s, c) > cfg.maxRtpInactivity
    requires PolledLately(s.w.media, c, s.now, Some(gap))
    requires forall socket <- s.w.media.calls[c].local ::
      Idleness(s, c, socket) >= (cfg.maxRtpInactivity + 1) * Media.SECOND + gap
    ensures RetiresForInactivity(cfg, s, c)
  {
    ReportsAreClose(cfg, s, c, Some(gap));
  }

  /** In every run: the watchdog retires a call for inactivity only if the call is older than
      the limit and so is the last packet of every sink it holds. */
  lemma {:induction false} RetiredOnlyIfInactive(cfg: Config, acts: seq<Action>, c: nat)
    requires var s := Run(cfg, START, acts); c < |s.w.calls| == |s.w.media.calls| && RetiresForInactivity(cfg, s, c)
    ensures var s := Run(cfg, START, acts);
      && HoldsSinks(s, c) && Age(s, c) > cfg.maxRtpInactivity
      && forall socket <- s.w.media.calls[c].local ::
        Idleness(s, c, socket) >= (cfg.maxRtpInactivity + 1) * Media.SECOND
  {
    AnyPollingWillDo(cfg, START, acts);
    RunKeepsClocks(cfg, START, acts, None);
    JustRetirement(cfg, Run(cfg, START, acts), c);
  }

  /** In every run in which the watchdog looks at each call within a gap of its last look: a
      call that is older than the limit is retired if the last packet of every sink it holds
      is older than the limit by a second and a gap. */
  lemma {:induction false} InactiveIsRetired(cfg: Config, acts: seq<Action>, c: nat, gap: nat)
    requires KeepsPolling(cfg, START, acts, Some(gap))
    requires var s := Run(cfg, START, acts); HoldsSinks(s, c) && PolledLately(s.w.media, c, s.now, Some(gap))
    ensures var s := Run(cfg, START, acts);
      (Age(s, c) > cfg.maxRtpInactivity
       && forall socket <- s.w.media.calls[c].local ::
         Idleness(s, c, socket) >= (cfg.maxRtpInactivity + 1) * Media.SECOND + gap) ==>
        RetiresForInactivity(cfg, s, c)
  {
    RunKeepsClocks(cfg, START, acts, Some(gap));
    var s := Run(cfg, START, acts);
    if Age(s, c) > cfg.maxRtpInactivity
       && forall socket <- s.w.media.calls[c].local ::
         Idleness(s, c, socket) >= (cfg.maxRtpInactivity + 1) * Media.SECOND + gap {
      DueRetirement(cfg, s, c, gap);
    }
  }
}
