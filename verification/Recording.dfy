/**
 Recording stops for good: once a call's rtpSinksAreActivated is false, every sink in its
 local map, there already or added later, is inactive and stores no more packets. A sink of
 the call that only the global map leads to may still grow, and it is said exactly when
 (src/sip/Call.cpp, src/audio/RtpSink.cpp).
 */
module Recording {
  import opened SipTypes
  import opened Signalling
  import opened SipMachine
  import opened SystemModel
  import Media

  /** The call does not record, and none of the sinks it holds is active. */
  ghost predicate Muted(m: Media.MediaState, c: nat) {
    && c < |m.calls| && !m.calls[c].recording
    && forall s <- m.calls[c].local :: m.calls[c].local[s] < |m.sinks| && !m.sinks[m.calls[c].local[s]].active
  }

  predicate NoMore(before: Option<seq<nat>>, after: Option<seq<nat>>) {
    after == before || after == None
  }

  /** From m to r call c keeps its sinks, none of them has more packets than before, and new
      ones have no packets. */
  ghost predicate StoresNoMore(m: Media.MediaState, r: Media.MediaState, c: nat) {
    && c < |m.calls| <= |r.calls| && |m.sinks| <= |r.sinks|
    && (forall s <- m.calls[c].local :: s in r.calls[c].local && r.calls[c].local[s] == m.calls[c].local[s] < |m.sinks|)
    && (forall s <- r.calls[c].local :: r.calls[c].local[s] < |r.sinks| &&
          if s in m.calls[c].local
          then m.calls[c].local[s] < |m.sinks|
               && NoMore(m.sinks[m.calls[c].local[s]].packets, r.sinks[r.calls[c].local[s]].packets)
          else NoMore(Some([]), r.sinks[r.calls[c].local[s]].packets))
  }

  ghost predicate StaysMuted(m: Media.MediaState, r: Media.MediaState, c: nat) {
    Muted(r, c) && StoresNoMore(m, r, c)
  }

  lemma StaysMutedTransitive(m: Media.MediaState, r: Media.MediaState, t: Media.MediaState, c: nat)
    requires StaysMuted(m, r, c) && StaysMuted(r, t, c)
    ensures StaysMuted(m, t, c)
  {
  }

  /** A call that does not record is muted. */
  ghost predicate Mutes(m: Media.MediaState) {
    forall c | 0 <= c < |m.calls| && !m.calls[c].recording :: Muted(m, c)
  }

  /** No sink becomes active and an inactive sink gets no packets; no local map changes and
      no call records that did not. */
  ghost predicate Softer(m: Media.MediaState, r: Media.MediaState) {
    && |r.calls| == |m.calls| && |r.sinks| == |m.sinks|
    && (forall c | 0 <= c < |m.calls| ::
          r.calls[c].local == m.calls[c].local && (r.calls[c].recording ==> m.calls[c].recording))
    && (forall k | 0 <= k < |m.sinks| ::
          !m.sinks[k].active ==> !r.sinks[k].active && NoMore(m.sinks[k].packets, r.sinks[k].packets))
  }

  lemma SofterKeeps(m: Media.MediaState, r: Media.MediaState)
    requires Softer(m, r)
    ensures forall c | 0 <= c < |m.calls| && Muted(m, c) :: StaysMuted(m, r, c)
  {
  }

  lemma SettlingIsSofter(m: Media.MediaState, c: nat, done: set<SocketAddress>)
    requires c < |m.calls|
    ensures Softer(m, Media.ConfirmSome(m, c, done)) && Softer(m, Media.AnnulSome(m, c, done))
    ensures Softer(m, Media.Unregister(m, c)) && Softer(m, Media.TakeDeques(m, c))
  {
  }

  lemma ReceivingIsSofter(m: Media.MediaState, s: SocketAddress, packet: nat, now: int)
    ensures Softer(m, Media.Receive(m, s, packet, now))
  {
  }

  lemma PollingIsSofter(m: Media.MediaState, c: nat, now: int)
    requires c < |m.calls|
    ensures Softer(m, Media.PollSinks(m, c, now)) && Softer(m, Media.StopRecording(m, c))
  {
  }

  lemma StoppingMutes(m: Media.MediaState, c: nat)
    requires Media.Wf(m) && c < |m.calls|
    ensures Muted(Media.StopRecording(m, c), c)
  {
    var r := Media.StopRecording(m, c);
    forall s <- r.calls[c].local ensures r.calls[c].local[s] < |r.sinks| && !r.sinks[r.calls[c].local[s]].active {
      assert Media.WfLocal(m, c, s, m.calls[c].local[s]);
      assert Media.Holds(m, c, m.calls[c].local[s]);
    }
  }

  lemma OfferingMutes(m: Media.MediaState, d: nat, s: SocketAddress, reinvite: bool, isCaller: bool, now: int)
    requires Mutes(m) && d < |m.calls|
    ensures var r := Media.OfferSocket(m, d, s, reinvite, isCaller, now);
      Mutes(r) && forall c | 0 <= c < |m.calls| && Muted(m, c) :: StaysMuted(m, r, c)
  {
    var r := Media.OfferSocket(m, d, s, reinvite, isCaller, now);
    forall c | 0 <= c < |m.calls| && Muted(m, c) ensures StaysMuted(m, r, c) {
    }
  }

  /** What every action keeps. */
  ghost predicate KeepsMuted(m: Media.MediaState, r: Media.MediaState) {
    Mutes(r) && forall c | 0 <= c < |m.calls| && Muted(m, c) :: StaysMuted(m, r, c)
  }

  lemma SofterKeepsMuted(m: Media.MediaState, r: Media.MediaState)
    requires Mutes(m) && Softer(m, r)
    requires forall c | 0 <= c < |m.calls| && m.calls[c].recording && !r.calls[c].recording :: Muted(r, c)
    ensures KeepsMuted(m, r)
  {
    SofterKeeps(m, r);
  }

  lemma KeepsMutedTransitive(m: Media.MediaState, r: Media.MediaState, t: Media.MediaState)
    requires KeepsMuted(m, r) && KeepsMuted(r, t) && |m.calls| <= |r.calls|
    ensures KeepsMuted(m, t)
  {
    forall c | 0 <= c < |m.calls| && Muted(m, c) ensures StaysMuted(m, t, c) {
      StaysMutedTransitive(m, r, t, c);
    }
  }

  lemma OfferKeepsMuted(m: Media.MediaState, d: nat, p: Packet, o: Outcome, now: int)
    requires Mutes(m) && Media.Wf(m) && d < |m.calls|
    ensures KeepsMuted(m, OfferMedia(m, d, p, o, now))
  {
    if o.offer.Offer? && p.sdp.Some? {
      OfferingMutes(m, d, p.sdp.value, o.offer.reinvite, IsCallerSink(o.call, p), now);
    } else {
      SofterKeepsMuted(m, OfferMedia(m, d, p, o, now));
    }
  }

  lemma PacketKeepsMuted(m: Media.MediaState, d: nat, p: Packet, o: Outcome, now: int)
    requires Mutes(m) && Media.Wf(m) && d < |m.calls|
    ensures KeepsMuted(m, MediaAfter(m, d, p, o, now))
  {
    var m1 := OfferMedia(m, d, p, o, now);
    OfferKeepsMuted(m, d, p, o, now);
    var m2 := SettleMedia(m1, d, o);
    SettlingIsSofter(m1, d, m1.calls[d].local.Keys);
    SofterKeepsMuted(m1, m2);
    KeepsMutedTransitive(m, m1, m2);
    var m3 := MediaAfter(m, d, p, o, now);
    SettlingIsSofter(m2, d, {});
    SofterKeepsMuted(m2, m3);
    KeepsMutedTransitive(m, m2, m3);
  }

  lemma StepKeepsMuted(w: World, p: Packet, now: int, noRtp: bool)
    requires Wf(w) && Mutes(w.media)
    ensures KeepsMuted(w.media, Step(w, p, now, noRtp).media)
  {
    if Admits(w, p) {
      var v, d := Admit(w, p, now, noRtp), Target(w, p);
      AdmitWf(w, p, now, noRtp);
      assert KeepsMuted(w.media, v.media);
      PacketKeepsMuted(v.media, d, p, OnPacket(v.calls[d], d, p, v.nextTid, now), now);
      KeepsMutedTransitive(w.media, v.media, Step(w, p, now, noRtp).media);
    } else {
      SofterKeepsMuted(w.media, w.media);
    }
  }

  lemma CheckKeepsMuted(cfg: Config, s: System, c: nat)
    requires SystemWf(s) && Enabled(s, Check(c)) && Mutes(s.w.media)
    ensures KeepsMuted(s.w.media, Do(cfg, s, Check(c)).w.media)
  {
    var m0, m1 := s.w.media, CheckRecording(cfg, s, c);
    PollingIsSofter(m0, c, s.now);
    StoppingMutes(m0, c);
    SofterKeepsMuted(m0, m1);
    var m2 := Media.PollSinks(m1, c, s.now);
    PollingIsSofter(m1, c, s.now);
    SofterKeepsMuted(m1, m2);
    KeepsMutedTransitive(m0, m1, m2);
    SettlingIsSofter(m2, c, {});
    SofterKeepsMuted(m2, Media.Unregister(m2, c));
    KeepsMutedTransitive(m0, m2, Media.Unregister(m2, c));
  }

  lemma DoKeepsMuted(cfg: Config, s: System, a: Action)
    requires SystemWf(s) && Mutes(s.w.media)
    ensures KeepsMuted(s.w.media, Do(cfg, s, a).w.media)
  {
    var m := s.w.media;
    SofterKeepsMuted(m, m);
    if Enabled(s, a) {
      match a
      case SipPacket(p, noRtp) => StepKeepsMuted(s.w, p, s.now, noRtp);
      case RtpPacket(socket, packet) =>
        ReceivingIsSofter(m, socket, packet, s.now);
        SofterKeepsMuted(m, Media.Receive(m, socket, packet, s.now));
      case Check(c) => CheckKeepsMuted(cfg, s, c);
      case Commit => CommitWf(s.w, s.dog.temp);
      case Decode =>
        SettlingIsSofter(m, s.w.decodeQueue[s.popped], {});
        SofterKeepsMuted(m, Media.TakeDeques(m, s.w.decodeQueue[s.popped]));
      case Destroy(c) =>
        SettlingIsSofter(m, c, {});
        SofterKeepsMuted(m, Media.Unregister(m, c));
      case _ =>
    }
  }

  lemma {:induction false} RunKeepsMuted(cfg: Config, s: System, acts: seq<Action>)
    requires SystemWf(s) && Mutes(s.w.media)
    ensures KeepsMuted(s.w.media, Run(cfg, s, acts).w.media)
    decreases |acts|
  {
    if acts == [] {
      SofterKeepsMuted(s.w.media, s.w.media);
    } else {
      var s1 := Do(cfg, s, acts[0]);
      DoKeepsMuted(cfg, s, acts[0]);
      DoGrows(cfg, s, acts[0]);
      RunKeepsMuted(cfg, s1, acts[1..]);
      KeepsMutedTransitive(s.w.media, s1.w.media, Run(cfg, s, acts).w.media);
    }
  }

  lemma DoGrows(cfg: Config, s: System, a: Action)
    requires SystemWf(s)
    ensures |s.w.media.calls| <= |Do(cfg, s, a).w.media.calls|
  {
    if a.SipPacket? {
      StepGrows(s.w, a.p, s.now, a.noRtp);
    } else if a.Commit? && Enabled(s, a) {
      CommitWf(s.w, s.dog.temp);
    }
  }

  // ---- sinks of the call that its local map does not hold ----

  /** The global map leads to the sink. */
  predicate IsGlobal(m: Media.MediaState, k: nat)
    requires k < |m.sinks|
  {
    m.sinks[k].socket in m.global && m.global[m.sinks[k].socket] == k
  }

  /** The UDP thread reaches the sink, and it stores what it gets. */
  predicate Loud(m: Media.MediaState, k: nat)
    requires k < |m.sinks|
  {
    m.sinks[k].active && IsGlobal(m, k)
  }

  /** From m to r no sink becomes loud, only loud sinks store packets, and sinks added for a
      call that does not record are not loud and empty. */
  ghost predicate Calms(m: Media.MediaState, r: Media.MediaState) {
    && |m.sinks| <= |r.sinks| && |m.calls| <= |r.calls|
    && (forall c | 0 <= c < |m.calls| && !m.calls[c].recording :: !r.calls[c].recording)
    && (forall k | 0 <= k < |m.sinks| :: r.sinks[k].owner == m.sinks[k].owner)
    && (forall k | 0 <= k < |m.sinks| && m.sinks[k].packets == None :: r.sinks[k].packets == None)
    && (forall k | 0 <= k < |m.sinks| && !Loud(m, k) :: !Loud(r, k) && NoMore(m.sinks[k].packets, r.sinks[k].packets))
    && (forall k | |m.sinks| <= k < |r.sinks| && r.sinks[k].owner < |m.calls| && !m.calls[r.sinks[k].owner].recording ::
          !Loud(r, k) && NoMore(Some([]), r.sinks[k].packets))
  }

  lemma CalmsTransitive(m: Media.MediaState, r: Media.MediaState, t: Media.MediaState)
    requires Calms(m, r) && Calms(r, t)
    ensures Calms(m, t)
  {
  }

  lemma OfferingCalms(m: Media.MediaState, c: nat, s: SocketAddress, reinvite: bool, isCaller: bool, now: int)
    requires c < |m.calls| && Media.Wf(m)
    ensures Calms(m, Media.OfferSocket(m, c, s, reinvite, isCaller, now))
  {
    assert forall x <- m.global :: Media.WfGlobal(m, x, m.global[x]);
  }

  lemma SettlingCalms(m: Media.MediaState, c: nat, o: Outcome)
    requires c < |m.calls|
    ensures Calms(m, SettleMedia(m, c, o))
  {
  }

  lemma LeavingCalms(m: Media.MediaState, c: nat)
    requires c < |m.calls|
    ensures Calms(m, Media.Unregister(m, c)) && Calms(m, Media.TakeDeques(m, c))
  {
  }

  lemma ReceivingCalms(m: Media.MediaState, s: SocketAddress, packet: nat, now: int)
    requires Media.Wf(m)
    ensures Calms(m, Media.Receive(m, s, packet, now))
  {
    if s in m.global { assert Media.WfGlobal(m, s, m.global[s]); }
  }

  lemma PollingCalms(m: Media.MediaState, c: nat, now: int)
    requires c < |m.calls|
    ensures Calms(m, Media.PollSinks(m, c, now)) && Calms(m, Media.StopRecording(m, c))
  {
  }

  lemma PacketCalms(m: Media.MediaState, c: nat, p: Packet, o: Outcome, now: int)
    requires c < |m.calls| && Media.Wf(m)
    ensures Calms(m, MediaAfter(m, c, p, o, now))
  {
    var m1 := OfferMedia(m, c, p, o, now);
    if o.offer.Offer? && p.sdp.Some? {
      OfferingCalms(m, c, p.sdp.value, o.offer.reinvite, IsCallerSink(o.call, p), now);
    }
    var m2 := SettleMedia(m1, c, o);
    SettlingCalms(m1, c, o);
    CalmsTransitive(m, m1, m2);
    LeavingCalms(m2, c);
    CalmsTransitive(m, m2, Media.Unregister(m2, c));
  }

  lemma StepCalms(w: World, p: Packet, now: int, noRtp: bool)
    requires Wf(w)
    ensures Calms(w.media, Step(w, p, now, noRtp).media)
  {
    if Admits(w, p) {
      AdmitWf(w, p, now, noRtp);
      var v, c := Admit(w, p, now, noRtp), Target(w, p);
      PacketCalms(v.media, c, p, OnPacket(v.calls[c], c, p, v.nextTid, now), now);
      CalmsTransitive(w.media, v.media, Step(w, p, now, noRtp).media);
    }
  }

  lemma CheckCalms(cfg: Config, s: System, c: nat)
    requires SystemWf(s) && Enabled(s, Check(c))
    ensures Calms(s.w.media, Do(cfg, s, Check(c)).w.media)
  {
    var m, m1 := s.w.media, CheckRecording(cfg, s, c);
    PollingCalms(m, c, s.now);
    PollingCalms(m1, c, s.now);
    var m2 := Media.PollSinks(m1, c, s.now);
    CalmsTransitive(m, m1, m2);
    LeavingCalms(m2, c);
    CalmsTransitive(m, m2, Media.Unregister(m2, c));
  }

  lemma DoCalms(cfg: Config, s: System, a: Action)
    requires SystemWf(s)
    ensures Calms(s.w.media, Do(cfg, s, a).w.media)
  {
    if Enabled(s, a) {
      match a
      case SipPacket(p, noRtp) => StepCalms(s.w, p, s.now, noRtp);
      case RtpPacket(socket, packet) => ReceivingCalms(s.w.media, socket, packet, s.now);
      case Check(c) => CheckCalms(cfg, s, c);
      case Commit => CommitWf(s.w, s.dog.temp);
      case Decode => LeavingCalms(s.w.media, s.w.decodeQueue[s.popped]);
      case Destroy(c) => LeavingCalms(s.w.media, c);
      case _ =>
    }
  }

  lemma {:induction false} RunCalms(cfg: Config, s: System, acts: seq<Action>)
    requires SystemWf(s)
    ensures Calms(s.w.media, Run(cfg, s, acts).w.media)
    decreases |acts|
  {
    if acts != [] {
      DoCalms(cfg, s, acts[0]);
      RunCalms(cfg, Do(cfg, s, acts[0]), acts[1..]);
      CalmsTransitive(s.w.media, Do(cfg, s, acts[0]).w.media, Run(cfg, s, acts).w.media);
    }
  }

  /** The sink stores more in r than in m. */
  predicate Grown(m: Media.MediaState, r: Media.MediaState, k: nat)
    requires k < |m.sinks|
  {
    k < |r.sinks| && r.sinks[k].packets.Some?
      && (m.sinks[k].packets.Some? ==> |r.sinks[k].packets.value| > |m.sinks[k].packets.value|)
  }

  lemma LoudGrows(cfg: Config, s: System, k: nat)
    requires SystemWf(s) && k < |s.w.media.sinks| && Loud(s.w.media, k) && s.w.media.sinks[k].packets.Some?
    ensures Grown(s.w.media, Run(cfg, s, [RtpPacket(s.w.media.sinks[k].socket, 0)]).w.media, k)
  {
    var a := RtpPacket(s.w.media.sinks[k].socket, 0);
    assert Run(cfg, s, [a]) == Run(cfg, Do(cfg, s, a), []);
  }

  /** In some continuation the sink stores more than now. */
  ghost predicate CanGrow(cfg: Config, s: System, k: nat)
    requires SystemWf(s) && k < |s.w.media.sinks|
  {
    exists after :: Grown(s.w.media, Run(cfg, s, after).w.media, k)
  }

  lemma CanGrowIff(cfg: Config, s: System, k: nat)
    requires SystemWf(s) && k < |s.w.media.sinks|
    ensures CanGrow(cfg, s, k) <==> Loud(s.w.media, k) && s.w.media.sinks[k].packets.Some?
  {
    if CanGrow(cfg, s, k) {
      var after :| Grown(s.w.media, Run(cfg, s, after).w.media, k);
      RunCalms(cfg, s, after);
    }
    if Loud(s.w.media, k) && s.w.media.sinks[k].packets.Some? {
      LoudGrows(cfg, s, k);
    }
  }

  /** Once a call does not record, a sink made for it can still grow if and only if the global
      map leads to it, it is active, its deque was not taken, and the call does not hold it:
      recording was stopped for the sinks in the local map only. */
  lemma {:induction false} GrowsIff(cfg: Config, before: seq<Action>, c: nat, k: nat)
    requires var m := Run(cfg, START, before).w.media;
      c < |m.calls| && !m.calls[c].recording && k < |m.sinks| && m.sinks[k].owner == c
    ensures var s := Run(cfg, START, before);
      var m := s.w.media;
      CanGrow(cfg, s, k) <==> IsGlobal(m, k) && m.sinks[k].active && m.sinks[k].packets.Some? && !Media.Holds(m, c, k)
  {
    RunKeepsMuted(cfg, START, before);
    assert Muted(Run(cfg, START, before).w.media, c);
    CanGrowIff(cfg, Run(cfg, START, before), k);
  }

  /** In every interleaving: once a call does not record, it never does again, none of the
      sinks it holds then or later is active, sinks held then store what they stored or have
      been emptied by the decoder, and sinks made later store nothing, whichever map they are
      in. */
  lemma RecordingStopsForGood(cfg: Config, before: seq<Action>, after: seq<Action>, c: nat)
    requires var m := Run(cfg, START, before).w.media; c < |m.calls| && !m.calls[c].recording
    ensures var m := Run(cfg, START, before).w.media;
      var r := Run(cfg, START, before + after).w.media;
      && c < |r.calls| && !r.calls[c].recording
      && (forall s <- r.calls[c].local :: r.calls[c].local[s] < |r.sinks| && !r.sinks[r.calls[c].local[s]].active)
      && StoresNoMore(m, r, c)
      && (forall k | |m.sinks| <= k < |r.sinks| && r.sinks[k].owner == c :: NoMore(Some([]), r.sinks[k].packets))
  {
    RunKeepsMuted(cfg, START, before);
    RunConcat(cfg, START, before, after);
    var s := Run(cfg, START, before);
    RunCalms(cfg, s, after);
    RunKeepsMuted(cfg, s, after);
    assert Muted(s.w.media, c);
  }
}
