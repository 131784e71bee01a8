/**
 The agreement of the global sink map with the local maps over whole runs of all threads, in
 every interleaving, when no packet offers a socket that another call holds. The calls the
 watchdog is about to retire are left out until its commit: it has unregistered their sinks.
 */
module IndexAgreement {
  import opened SipTypes
  import opened Signalling
  import opened SipMachine
  import opened SystemModel
  import opened Reachable
  import opened SinkSafety
  import opened SinkAgreement
  import Media

  /** No packet of the run offers a socket that another call, not destroyed, holds. */
  ghost predicate OwnSockets(cfg: Config, s: System, acts: seq<Action>)
    requires SystemWf(s)
    decreases |acts|
  {
    acts == [] ||
    ((acts[0].SipPacket? ==> OffersOwn(s.w, acts[0].p, s.destroyed)) && OwnSockets(cfg, Do(cfg, s, acts[0]), acts[1..]))
  }

  /** The local maps and the status of all sinks are as before, and entries may be gone. */
  ghost predicate SameStatus(m: Media.MediaState, r: Media.MediaState) {
    && OnlyDrops(m, r)
    && (forall c | 0 <= c < |m.calls| :: r.calls[c].local == m.calls[c].local)
    && (forall k | 0 <= k < |m.sinks| :: r.sinks[k].status == m.sinks[k].status)
  }

  /** The global entries for the sockets of call c are as before. */
  ghost predicate KeepsEntries(m: Media.MediaState, r: Media.MediaState, c: nat)
    requires c < |m.calls|
  {
    forall s <- m.calls[c].local :: s in m.global ==> s in r.global && r.global[s] == m.global[s]
  }

  lemma SameStatusKeeps(m: Media.MediaState, r: Media.MediaState, c: nat)
    requires SameStatus(m, r) && c < |m.calls|
    ensures Settled(m, c) ==> Settled(r, c)
    ensures Agrees(m, c) && KeepsEntries(m, r, c) ==> Agrees(r, c)
  {
    assert forall k: nat :: Media.StatusOf(r, k) == Media.StatusOf(m, k);
  }

  lemma SameStatusKeepsSharing(m: Media.MediaState, r: Media.MediaState, gone: set<nat>)
    requires SameStatus(m, r) && NoSharing(m, gone)
    ensures NoSharing(r, gone)
  {
  }

  /** The agreement, except for calls of the map that are in `out`. */
  ghost predicate AgreeBut(w: World, gone: set<nat>, out: set<nat>) {
    Apart(w, gone, out) && Handshakes(w)
  }

  /** Calls are as before, none comes into the map, and the global entries of all calls that
      are in the map but not in `out` stay. */
  lemma SameStatusAgrees(w: World, r: World, gone: set<nat>, out: set<nat>)
    requires AgreeBut(w, gone, out) && SameStatus(w.media, r.media)
    requires r.calls == w.calls
    requires forall c | 0 <= c < |w.calls| && InMap(r, c) :: InMap(w, c)
    requires forall c, s | 0 <= c < |w.calls| && InMap(w, c) && c !in out && s in w.media.calls[c].local
      && s in w.media.global ::
      s in r.media.global && r.media.global[s] == w.media.global[s]
    ensures AgreeBut(r, gone, out)
  {
    SameStatusKeepsSharing(w.media, r.media, gone);
    DropsKeepOwned(w.media, r.media, gone);
    forall c | 0 <= c < |r.calls| && InMap(r, c) && c !in out ensures Agrees(r.media, c) {
      assert InMap(w, c);
      SameStatusKeeps(w.media, r.media, c);
    }
    forall c | 0 <= c < |r.calls| && !HasInvite(r.calls[c]) ensures Settled(r.media, c) {
      SameStatusKeeps(w.media, r.media, c);
    }
  }

  /** Unregistering the sockets of a call that is not destroyed takes no entry of another
      call of the map. */
  lemma UnregisterSpares(w: World, c: nat, gone: set<nat>, out: set<nat>)
    requires AgreeBut(w, gone, out) && c < |w.calls| && c !in gone
    ensures AgreeBut(w.(media := Media.Unregister(w.media, c)), gone, out + {c})
  {
    var r := w.(media := Media.Unregister(w.media, c));
    assert AgreeBut(w, gone, out + {c});
    SameStatusAgrees(w, r, gone, out + {c});
  }

  /** A check polls the sinks of the call, and unregisters them if it retires the call. */
  lemma CheckedSinks(cfg: Config, s: System, c: nat)
    requires c < |s.w.calls| == |s.w.media.calls|
    ensures var m := Media.PollSinks(CheckRecording(cfg, s, c), c, s.now);
      SameStatus(s.w.media, m) && m.global == s.w.media.global
  {
  }

  /** From s to r call c was checked, with the sinks m before it may be retired. */
  ghost predicate Checked(s: System, r: System, m: Media.MediaState, c: nat)
    requires s.dog.Checking? && c < |m.calls|
  {
    && r.destroyed == s.destroyed && r.dog.Checking? && r.dog.todo <= s.dog.todo
    && (if r.dog.temp == s.dog.temp then r.w == s.w.(media := m)
        else r.w == s.w.(media := Media.Unregister(m, c))
             && (set x | x in r.dog.temp) == (set x | x in s.dog.temp) + {c})
  }

  lemma ChecksTemp(cfg: Config, s: System, c: nat)
    requires SystemWf(s) && Enabled(s, Check(c))
    ensures Checked(s, Do(cfg, s, Check(c)), Media.PollSinks(CheckRecording(cfg, s, c), c, s.now), c)
  {
    var r, n := Do(cfg, s, Check(c)), Retirements(cfg, s, c);
    assert r.dog.temp == s.dog.temp + Copies(n, c);
    if n > 0 {
      assert r.dog.temp[|s.dog.temp|] == c;
    } else {
      assert r.dog.temp == s.dog.temp;
    }
  }

  lemma CheckedAgrees(w: World, m: Media.MediaState, c: nat, gone: set<nat>, out: set<nat>)
    requires c < |w.calls| && c !in gone && AgreeBut(w, gone, out) && SameStatus(w.media, m)
    requires m.global == w.media.global
    ensures AgreeBut(w.(media := m), gone, out) && AgreeBut(w.(media := Media.Unregister(m, c)), gone, out + {c})
  {
    SameStatusAgrees(w, w.(media := m), gone, out);
    UnregisterSpares(w.(media := m), c, gone, out);
  }

  lemma CommitAgrees(w: World, temp: seq<nat>, gone: set<nat>)
    requires AgreeBut(w, gone, set c | c in temp)
    requires forall i | 0 <= i < |temp| :: temp[i] < |w.calls|
    ensures AgreeBut(CommitCalls(w, temp), gone, {})
  {
    var r := CommitCalls(w, temp);
    CommitErases(w, temp);
    CommitOnlyErases(w, temp);
    SameStatusAgrees(w, r, gone, set c | c in temp);
    forall c | 0 <= c < |r.calls| && InMap(r, c) ensures Agrees(r.media, c) {
      assert c !in temp;
    }
  }

  lemma DestroyAgrees(w: World, c: nat, gone: set<nat>, out: set<nat>)
    requires AgreeBut(w, gone, out) && c < |w.calls| && c !in gone && !InMap(w, c)
    ensures AgreeBut(w.(media := Media.Unregister(w.media, c)), gone + {c}, out)
  {
    var r := w.(media := Media.Unregister(w.media, c));
    UnregisterSpares(w, c, gone, out);
    forall s <- r.media.global ensures EntryOwned(r.media, s, gone + {c}) {
      assert EntryOwned(w.media, s, gone);
    }
  }

  // ---- runs ----

  /** The calls the watchdog is about to retire. */
  function Out(s: System): set<nat> {
    if s.dog.Checking? then set c | c in s.dog.temp else {}
  }

  /** A call in the watchdog's hands is not destroyed. */
  ghost predicate HoldsOn(s: System) {
    s.dog.Checking? ==> forall c <- s.dog.todo :: c !in s.destroyed
  }

  ghost predicate AgreeInv(s: System) {
    AgreeBut(s.w, s.destroyed, Out(s)) && HoldsOn(s)
  }

  lemma CheckedInv(s: System, r: System, m: Media.MediaState, c: nat)
    requires AgreeInv(s) && s.dog.Checking? && c in s.dog.todo && c < |s.w.calls|
    requires SameStatus(s.w.media, m) && m.global == s.w.media.global && Checked(s, r, m, c)
    ensures AgreeInv(r)
  {
    CheckedAgrees(s.w, m, c, s.destroyed, Out(s));
  }

  lemma CheckAgrees(cfg: Config, s: System, c: nat)
    requires SystemWf(s) && Enabled(s, Check(c)) && AgreeInv(s)
    ensures AgreeInv(Do(cfg, s, Check(c)))
  {
    CheckedSinks(cfg, s, c);
    ChecksTemp(cfg, s, c);
    CheckedInv(s, Do(cfg, s, Check(c)), Media.PollSinks(CheckRecording(cfg, s, c), c, s.now), c);
  }

  lemma StepAgrees(cfg: Config, s: System, p: Packet, noRtp: bool)
    requires SystemWf(s) && CallsInv(s.w) && AgreeInv(s) && p.WellFormed() && OffersOwn(s.w, p, s.destroyed)
    ensures AgreeInv(Do(cfg, s, SipPacket(p, noRtp)))
  {
    StepKeepsApart(s.w, p, s.now, noRtp, s.destroyed, Out(s));
    StepKeepsHandshakes(s.w, p, s.now, noRtp, s.destroyed, Out(s));
  }

  lemma SnapshotAgrees(cfg: Config, s: System)
    requires SystemWf(s) && s.dog.Idle? && AgreeInv(s)
    ensures AgreeInv(Do(cfg, s, Snapshot))
  {
    forall c <- s.w.callMap.Values ensures c !in s.destroyed {
      var id :| id in s.w.callMap && s.w.callMap[id] == c;
      assert Names(s.w, id, c) && InMap(s.w, c);
    }
    assert (set c | c in Do(cfg, s, Snapshot).dog.temp) == {};
  }

  lemma SinksAgree(w: World, m: Media.MediaState, gone: set<nat>, out: set<nat>)
    requires AgreeBut(w, gone, out) && SameStatus(w.media, m) && m.global == w.media.global
    ensures AgreeBut(w.(media := m), gone, out)
  {
    SameStatusAgrees(w, w.(media := m), gone, out);
  }

  /** The watchdog's commit, and the end of a call. */
  lemma LeavingAgrees(cfg: Config, s: System, a: Action)
    requires SystemWf(s) && AgreeInv(s) && Enabled(s, a) && (a.Commit? || a.Destroy?)
    ensures AgreeInv(Do(cfg, s, a))
  {
    if a.Commit? {
      CommitAgrees(s.w, s.dog.temp, s.destroyed);
    } else {
      DestroyAgrees(s.w, a.c, s.destroyed, Out(s));
    }
  }

  lemma ReceiveKeepsStatus(m: Media.MediaState, s: SocketAddress, packet: nat, now: int)
    ensures SameStatus(m, Media.Receive(m, s, packet, now)) && Media.Receive(m, s, packet, now).global == m.global
  {
  }

  lemma TakeKeepsStatus(m: Media.MediaState, c: nat)
    requires c < |m.calls|
    ensures SameStatus(m, Media.TakeDeques(m, c)) && Media.TakeDeques(m, c).global == m.global
  {
  }

  lemma MediaAgrees(cfg: Config, s: System, a: Action)
    requires SystemWf(s) && AgreeInv(s) && Enabled(s, a) && (a.RtpPacket? || a.Decode?)
    ensures AgreeInv(Do(cfg, s, a))
  {
    if a.RtpPacket? {
      ReceiveKeepsStatus(s.w.media, a.socket, a.packet, s.now);
      SinksAgree(s.w, Media.Receive(s.w.media, a.socket, a.packet, s.now), s.destroyed, Out(s));
    } else {
      TakeKeepsStatus(s.w.media, s.w.decodeQueue[s.popped]);
      SinksAgree(s.w, Media.TakeDeques(s.w.media, s.w.decodeQueue[s.popped]), s.destroyed, Out(s));
    }
  }

  lemma DoAgrees(cfg: Config, s: System, a: Action)
    requires SystemWf(s) && CallsInv(s.w) && AgreeInv(s)
    requires a.SipPacket? ==> a.p.WellFormed() && OffersOwn(s.w, a.p, s.destroyed)
    ensures AgreeInv(Do(cfg, s, a))
  {
    if Enabled(s, a) {
      match a
      case SipPacket(p, noRtp) => StepAgrees(cfg, s, p, noRtp);
      case Snapshot => SnapshotAgrees(cfg, s);
      case Check(c) => CheckAgrees(cfg, s, c);
      case Tick(_) =>
      case Commit => LeavingAgrees(cfg, s, a);
      case Destroy(_) => LeavingAgrees(cfg, s, a);
      case RtpPacket(_, _) => MediaAgrees(cfg, s, a);
      case Decode => MediaAgrees(cfg, s, a);
    }
  }

  lemma {:induction false} RunAgrees(cfg: Config, s: System, acts: seq<Action>)
    requires SystemWf(s) && CallsInv(s.w) && AgreeInv(s)
    requires WellFormedPackets(acts) && OwnSockets(cfg, s, acts)
    ensures AgreeInv(Run(cfg, s, acts))
    decreases |acts|
  {
    if acts != [] {
      DoAgrees(cfg, s, acts[0]);
      DoKeepsCalls(cfg, s, acts[0]);
      RunAgrees(cfg, Do(cfg, s, acts[0]), acts[1..]);
    }
  }

  /** In every state of every such run: a sink that a call of the map holds with a status
      other than TERMINATED is the very sink the global map holds for the socket, unless the
      watchdog is about to retire the call; and a call with a sink in INIT or CONFIRMED_INIT
      stores an INVITE transaction. */
  lemma {:induction false} SinksAgreeInEveryRun(cfg: Config, acts: seq<Action>, c: nat, s: SocketAddress)
    requires WellFormedPackets(acts) && OwnSockets(cfg, START, acts)
    requires var w := Run(cfg, START, acts).w; c < |w.calls| == |w.media.calls| && s in w.media.calls[c].local
    ensures var w := Run(cfg, START, acts).w;
      var status := Media.StatusOf(w.media, w.media.calls[c].local[s]);
      && (InMap(w, c) && c !in Out(Run(cfg, START, acts)) && status != RsTerminated ==>
            s in w.media.global && w.media.global[s] == w.media.calls[c].local[s])
      && (status in {RsInit, RsConfirmedInit} ==> HasInvite(w.calls[c]))
  {
    RunAgrees(cfg, START, acts);
    var r := Run(cfg, START, acts);
    if InMap(r.w, c) && c !in Out(r) { assert Agrees(r.w.media, c); }
    if !HasInvite(r.w.calls[c]) { assert Settled(r.w.media, c); }
  }
}
