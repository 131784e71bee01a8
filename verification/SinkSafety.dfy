/**
 The global sink map only leads to sinks of calls still in the call map, so the UDP thread
 never rolls a packet into a deque the decoder has taken (src/audio/RtpSink.cpp). Only a
 commit of the watchdog can break this, and it is said exactly when.
 */
module SinkSafety {
  import opened SipTypes
  import opened Signalling
  import opened SipMachine
  import opened SystemModel
  import opened CallInvariant
  import opened CallPhases
  import opened Reachable
  import Media

  /** The sink of a global entry belongs to a call of the map, which holds the socket
      locally, and still owns its packets. During the call's first offer it is the very
      sink offered, and after the failure of that offer there is none. */
  ghost predicate EntryOk(w: World, s: SocketAddress, k: nat)
    requires |w.media.calls| == |w.calls|
  {
    && k < |w.media.sinks|
    && var o := w.media.sinks[k].owner;
    && InMap(w, o)
    && s in w.media.calls[o].local
    && w.media.sinks[k].packets.Some?
    && (Offering(w.calls[o]) ==> w.media.calls[o].local[s] == k && w.media.sinks[k].status == RsInit)
    && !Failed(w.calls[o])
  }

  ghost predicate SinksInv(w: World) {
    && |w.media.calls| == |w.calls|
    && (forall s <- w.media.global :: EntryOk(w, s, w.media.global[s]))
    && (forall c | 0 <= c < |w.calls| && w.calls[c].dialog.state == DsUndefined :: w.media.calls[c].local == map[])
    && (forall i | 0 <= i < |w.decodeQueue| :: !InMap(w, w.decodeQueue[i]))
  }

  /** What is used of a handler's outcome. */
  ghost predicate Sound(w: World, c: nat, p: Packet, o: Outcome) {
    && SinksInv(w) && InMap(w, c) && w.calls[c].callId == p.callId == o.call.callId
    && Moves(w.calls[c], o)
  }

  lemma HandOffKeepsEntries(w: World, c: nat, p: Packet, o: Outcome, now: int)
    requires Sound(w, c, p, o) && o.exit == HandOff
    ensures var r := Apply(w, c, p, o, now); forall s <- r.media.global :: EntryOk(r, s, r.media.global[s])
  {
    var r := Apply(w, c, p, o, now);
    forall s <- r.media.global ensures EntryOk(r, s, r.media.global[s]) {
      assert EntryOk(w, s, w.media.global[s]);
    }
  }

  lemma OfferKeepsEntries(w: World, c: nat, p: Packet, o: Outcome, now: int)
    requires Sound(w, c, p, o) && o.offer.Offer? && o.settle == Keep
    ensures var r := Apply(w, c, p, o, now); forall s <- r.media.global :: EntryOk(r, s, r.media.global[s])
  {
    var r := Apply(w, c, p, o, now);
    forall s <- r.media.global ensures EntryOk(r, s, r.media.global[s]) {
      if s in w.media.global {
        assert EntryOk(w, s, w.media.global[s]);
      }
    }
  }

  /** Settling only drops global entries and only changes the status of sinks of the call. */
  ghost predicate SettlesOnly(m: Media.MediaState, r: Media.MediaState, c: nat) {
    && r.calls == m.calls
    && (forall s <- r.global :: s in m.global && r.global[s] == m.global[s])
    && |r.sinks| == |m.sinks|
    && (forall k | 0 <= k < |m.sinks| :: r.sinks[k] == m.sinks[k].(status := r.sinks[k].status))
    && (forall k | 0 <= k < |m.sinks| && m.sinks[k].owner != c :: r.sinks[k] == m.sinks[k])
  }

  lemma SettlingSettlesOnly(m: Media.MediaState, c: nat, done: set<SocketAddress>)
    requires Media.Wf(m) && c < |m.calls|
    ensures SettlesOnly(m, Media.ConfirmSome(m, c, done), c)
    ensures SettlesOnly(m, Media.AnnulSome(m, c, done), c)
  {
  }

  lemma KeepKeepsEntries(w: World, c: nat, p: Packet, o: Outcome, now: int)
    requires Sound(w, c, p, o) && o.offer == NoOffer && o.settle == Keep && o.exit == Stay
    ensures var r := Apply(w, c, p, o, now); forall s <- r.media.global :: EntryOk(r, s, r.media.global[s])
  {
    var r := Apply(w, c, p, o, now);
    forall s <- r.media.global ensures EntryOk(r, s, r.media.global[s]) {
      assert EntryOk(w, s, w.media.global[s]);
    }
  }

  /** Offering changes a sink that is there already at most from CONFIRMED to CONFIRMED_INIT. */
  predicate SameOrOffered(m: Media.MediaState, r: Media.MediaState, k: nat) {
    && k < |m.sinks| <= |r.sinks|
    && r.sinks[k] == m.sinks[k].(status := r.sinks[k].status)
    && (r.sinks[k].status == m.sinks[k].status || m.sinks[k].status == RsConfirmed)
  }

  /** w was left for r by offering, with the media m then, and settling in call c. */
  ghost predicate AfterSettling(w: World, m: Media.MediaState, r: World, c: nat) {
    && SinksInv(w) && InMap(w, c)
    && |r.calls| == |w.calls| == |m.calls| && r.calls[c].callId == w.calls[c].callId
    && (forall i | 0 <= i < |w.calls| && i != c :: r.calls[i] == w.calls[i])
    && (r.callMap == w.callMap || r.callMap == w.callMap - {w.calls[c].callId})
    && SettlesOnly(m, r.media, c)
    && (forall i | 0 <= i < |w.calls| :: w.media.calls[i].local.Keys <= m.calls[i].local.Keys)
    && (forall i | 0 <= i < |w.calls| && i != c :: w.media.calls[i] == m.calls[i])
    && |w.media.sinks| <= |m.sinks|
    && (forall s <- m.global :: m.global[s] < |m.sinks|)
  }

  lemma EntryOfOther(w: World, m: Media.MediaState, r: World, c: nat, s: SocketAddress)
    requires AfterSettling(w, m, r, c) && s in r.media.global && s in m.global && m.sinks[m.global[s]].owner != c
    requires s in w.media.global && w.media.global[s] == m.global[s] && SameOrOffered(w.media, m, m.global[s])
    ensures EntryOk(r, s, r.media.global[s])
  {
    assert EntryOk(w, s, w.media.global[s]);
  }

  lemma EntriesAfterSettling(w: World, m: Media.MediaState, r: World, c: nat)
    requires AfterSettling(w, m, r, c)
    requires forall s <- m.global | m.sinks[m.global[s]].owner != c ::
      s in w.media.global && w.media.global[s] == m.global[s] && SameOrOffered(w.media, m, m.global[s])
    requires forall s <- r.media.global | m.sinks[m.global[s]].owner == c ::
      && r.callMap == w.callMap && !Offering(r.calls[c]) && !Failed(r.calls[c])
      && m.sinks[m.global[s]].packets.Some? && s in m.calls[c].local
    ensures forall s <- r.media.global :: EntryOk(r, s, r.media.global[s])
  {
    forall s <- r.media.global ensures EntryOk(r, s, r.media.global[s]) {
      assert s in m.global;
      if m.sinks[m.global[s]].owner != c {
        EntryOfOther(w, m, r, c, s);
      }
    }
  }

  lemma RollbackKeepsEntries(w: World, c: nat, p: Packet, o: Outcome, now: int)
    requires Sound(w, c, p, o) && o.offer == NoOffer && o.settle == RollbackSinks && o.exit != HandOff
    requires Media.Wf(w.media)
    ensures var r := Apply(w, c, p, o, now); forall s <- r.media.global :: EntryOk(r, s, r.media.global[s])
  {
    var r := Apply(w, c, p, o, now);
    assert SettlesOnly(w.media, r.media, c) by {
      SettlingSettlesOnly(w.media, c, w.media.calls[c].local.Keys);
    }
    forall s <- r.media.global | w.media.sinks[w.media.global[s]].owner == c ensures !Offering(w.calls[c]) {
      assert EntryOk(w, s, w.media.global[s]);
    }
    forall s <- w.media.global ensures w.media.global[s] < |w.media.sinks| {
      assert EntryOk(w, s, w.media.global[s]);
    }
    EntriesAfterSettling(w, w.media, r, c);
  }

  /** Offering a socket adds at most an entry for a new sink of the call. */
  ghost predicate OffersOnly(m: Media.MediaState, r: Media.MediaState, c: nat) {
    && |r.calls| == |m.calls| && |m.sinks| <= |r.sinks|
    && (forall i | 0 <= i < |m.calls| :: m.calls[i].local.Keys <= r.calls[i].local.Keys)
    && (forall i | 0 <= i < |m.calls| && i != c :: m.calls[i] == r.calls[i])
    && (forall s <- r.global :: r.global[s] < |r.sinks| && c < |r.calls|
         && if s in m.global
            then r.global[s] == m.global[s] && SameOrOffered(m, r, m.global[s])
            else r.sinks[r.global[s]].owner == c && r.sinks[r.global[s]].packets.Some? && s in r.calls[c].local)
  }

  lemma OfferingOffersOnly(m: Media.MediaState, c: nat, p: Packet, o: Outcome, now: int)
    requires Media.Wf(m) && c < |m.calls|
    ensures OffersOnly(m, OfferMedia(m, c, p, o, now), c)
  {
  }

  lemma CommitKeepsEntries(w: World, c: nat, p: Packet, o: Outcome, now: int)
    requires Sound(w, c, p, o) && o.settle == CommitSinks && o.exit == Stay
    requires Media.Wf(w.media)
    ensures var r := Apply(w, c, p, o, now); forall s <- r.media.global :: EntryOk(r, s, r.media.global[s])
  {
    var r := Apply(w, c, p, o, now);
    var m := OfferMedia(w.media, c, p, o, now);
    assert SettlesOnly(m, r.media, c) by {
      if o.offer.Offer? && p.sdp.Some? {
        Media.OfferWf(w.media, c, p.sdp.value, o.offer.reinvite, IsCallerSink(o.call, p), now);
      }
      SettlingSettlesOnly(m, c, m.calls[c].local.Keys);
    }
    assert OffersOnly(w.media, m, c) by {
      OfferingOffersOnly(w.media, c, p, o, now);
    }
    forall s <- m.global ensures s in w.media.global ==> EntryOk(w, s, w.media.global[s]) {
    }
    EntriesAfterSettling(w, m, r, c);
  }

  lemma ApplyKeepsEntries(w: World, c: nat, p: Packet, o: Outcome, now: int)
    requires Sound(w, c, p, o) && Media.Wf(w.media)
    ensures var r := Apply(w, c, p, o, now); forall s <- r.media.global :: EntryOk(r, s, r.media.global[s])
  {
    if o.exit == HandOff {
      HandOffKeepsEntries(w, c, p, o, now);
    } else if o.settle == CommitSinks {
      CommitKeepsEntries(w, c, p, o, now);
    } else if o.settle == RollbackSinks {
      RollbackKeepsEntries(w, c, p, o, now);
    } else if o.offer.Offer? {
      OfferKeepsEntries(w, c, p, o, now);
    } else {
      KeepKeepsEntries(w, c, p, o, now);
    }
  }

  lemma ApplyKeepsSinks(w: World, c: nat, p: Packet, o: Outcome, now: int)
    requires Sound(w, c, p, o) && Media.Wf(w.media)
    requires forall i | 0 <= i < |w.decodeQueue| :: w.decodeQueue[i] < |w.calls|
    ensures SinksInv(Apply(w, c, p, o, now))
  {
    ApplyKeepsEntries(w, c, p, o, now);
  }

  lemma CreateKeepsSinks(w: World, p: Packet, now: int, noRtp: bool)
    requires SinksInv(w) && CreatesCall(w, p)
    requires forall i | 0 <= i < |w.decodeQueue| :: w.decodeQueue[i] < |w.calls|
    ensures SinksInv(Create(w, p, now, noRtp))
  {
    var r := Create(w, p, now, noRtp);
    assert r.media.global == w.media.global && r.media.sinks == w.media.sinks;
    forall s <- r.media.global ensures EntryOk(r, s, r.media.global[s]) {
      assert EntryOk(w, s, w.media.global[s]);
      var o := w.media.sinks[w.media.global[s]].owner;
      assert r.calls[o] == w.calls[o] && r.media.calls[o] == w.media.calls[o];
    }
  }

  lemma StepKeepsSinks(w: World, p: Packet, now: int, noRtp: bool)
    requires CallsInv(w) && SinksInv(w) && p.WellFormed()
    ensures SinksInv(Step(w, p, now, noRtp))
  {
    if Admits(w, p) {
      var v, c := Admit(w, p, now, noRtp), Target(w, p);
      AdmitKeepsCalls(w, p, now, noRtp);
      if CreatesCall(w, p) {
        CreateKeepsSinks(w, p, now, noRtp);
      }
      var o := OnPacket(v.calls[c], c, p, v.nextTid, now);
      OnPacketMoves(v.calls[c], c, p, v.nextTid, now);
      assert Follows(v.calls[c], o);
      ApplyKeepsSinks(v, c, p, o, now);
    }
  }

  // ---- the other threads ----

  /** The sinks changed in nothing the global map depends on, and entries may be gone. */
  ghost predicate Undisturbed(m: Media.MediaState, r: Media.MediaState) {
    && |r.calls| == |m.calls| && |r.sinks| == |m.sinks|
    && (forall i | 0 <= i < |m.calls| :: r.calls[i].local == m.calls[i].local)
    && (forall s <- r.global :: s in m.global && r.global[s] == m.global[s])
    && (forall k | 0 <= k < |m.sinks| ::
          && r.sinks[k].owner == m.sinks[k].owner && r.sinks[k].status == m.sinks[k].status
          && (m.sinks[k].packets.Some? ==> r.sinks[k].packets.Some?))
  }

  lemma UndisturbedKeepsSinks(w: World, m: Media.MediaState)
    requires SinksInv(w) && Undisturbed(w.media, m)
    ensures SinksInv(w.(media := m))
  {
    forall s <- m.global ensures EntryOk(w.(media := m), s, m.global[s]) {
      assert EntryOk(w, s, w.media.global[s]);
    }
  }

  lemma ReceiveUndisturbed(m: Media.MediaState, s: SocketAddress, packet: nat, now: int)
    ensures Undisturbed(m, Media.Receive(m, s, packet, now))
  {
  }

  lemma PollUndisturbed(m: Media.MediaState, c: nat, now: int)
    requires c < |m.calls|
    ensures Undisturbed(m, Media.PollSinks(m, c, now))
    ensures Undisturbed(m, Media.StopRecording(m, c))
    ensures Undisturbed(m, Media.Unregister(m, c))
  {
  }

  lemma DecodeKeepsSinks(w: World, c: nat)
    requires Media.Wf(w.media) && SinksInv(w) && c < |w.calls| && !InMap(w, c)
    ensures SinksInv(w.(media := Media.TakeDeques(w.media, c)))
  {
    var m := Media.TakeDeques(w.media, c);
    forall s <- m.global ensures EntryOk(w.(media := m), s, m.global[s]) {
      assert EntryOk(w, s, w.media.global[s]);
    }
  }

  lemma CheckUndisturbed(cfg: Config, s: System, c: nat)
    requires SystemWf(s) && c < |s.w.calls|
    ensures var m := Media.PollSinks(CheckRecording(cfg, s, c), c, s.now);
      Undisturbed(s.w.media, m) && Undisturbed(s.w.media, Media.Unregister(m, c))
  {
    var m1 := CheckRecording(cfg, s, c);
    PollUndisturbed(s.w.media, c, s.now);
    PollUndisturbed(m1, c, s.now);
    PollUndisturbed(Media.PollSinks(m1, c, s.now), c, s.now);
  }

  lemma CheckKeepsSinks(cfg: Config, s: System, c: nat)
    requires SystemWf(s) && SinksInv(s.w) && Enabled(s, Check(c))
    ensures SinksInv(Do(cfg, s, Check(c)).w)
  {
    CheckUndisturbed(cfg, s, c);
    var m := Media.PollSinks(CheckRecording(cfg, s, c), c, s.now);
    UndisturbedKeepsSinks(s.w, m);
    UndisturbedKeepsSinks(s.w, Media.Unregister(m, c));
  }

  /** Every action of every thread but the watchdog's commit keeps the sinks safe, in
      whatever stage the watchdog is. */
  lemma DoKeepsSinks(cfg: Config, s: System, a: Action)
    requires SystemWf(s) && CallsInv(s.w) && SinksInv(s.w) && !a.Commit?
    requires a.SipPacket? ==> a.p.WellFormed()
    ensures SinksInv(Do(cfg, s, a).w)
  {
    if Enabled(s, a) {
      match a
      case SipPacket(p, noRtp) => StepKeepsSinks(s.w, p, s.now, noRtp);
      case RtpPacket(socket, packet) =>
        ReceiveUndisturbed(s.w.media, socket, packet, s.now);
        UndisturbedKeepsSinks(s.w, Media.Receive(s.w.media, socket, packet, s.now));
      case Check(c) => CheckKeepsSinks(cfg, s, c);
      case Decode => DecodeKeepsSinks(s.w, s.w.decodeQueue[s.popped]);
      case Destroy(c) =>
        PollUndisturbed(s.w.media, c, s.now);
        UndisturbedKeepsSinks(s.w, Media.Unregister(s.w.media, c));
      case _ =>
    }
  }

  // ---- the commit of the watchdog ----

  /** The sink the global map has for the socket belongs to a call of the map, which holds
      the socket, and owns its packet deque. */
  ghost predicate Alive(w: World, s: SocketAddress)
    requires s in w.media.global
  {
    && w.media.global[s] < |w.media.sinks| && |w.media.calls| == |w.calls|
    && var k := w.media.sinks[w.media.global[s]];
    InMap(w, k.owner) && s in w.media.calls[k.owner].local && k.packets.Some?
  }

  ghost predicate AllAlive(w: World) {
    forall s <- w.media.global :: Alive(w, s)
  }

  lemma SafeIsAlive(w: World)
    requires SinksInv(w)
    ensures AllAlive(w)
  {
    forall s <- w.media.global ensures Alive(w, s) {
      assert EntryOk(w, s, w.media.global[s]);
    }
  }

  /** The global map has a sink of a call with this Call-ID for the socket. */
  predicate EntryUnder(w: World, s: SocketAddress, id: string) {
    && s in w.media.global && w.media.global[s] < |w.media.sinks|
    && var o := w.media.sinks[w.media.global[s]].owner;
    o < |w.calls| && w.calls[o].callId == id
  }

  /** The global map has no sink of a call with this Call-ID. */
  ghost predicate NoEntry(w: World, id: string) {
    forall s <- w.media.global :: !EntryUnder(w, s, id)
  }

  /** No sink in the global map belongs to a call with the Call-ID of a call in `temp`. */
  ghost predicate Spares(w: World, temp: seq<nat>)
    requires forall i | 0 <= i < |temp| :: temp[i] < |w.calls|
  {
    forall i | 0 <= i < |temp| :: NoEntry(w, w.calls[temp[i]].callId)
  }

  /** The commit pushes calls of `temp` only and leaves none of them in the map. */
  lemma {:induction false} CommitErases(w: World, temp: seq<nat>)
    requires forall i | 0 <= i < |temp| :: temp[i] < |w.calls|
    ensures var r := CommitCalls(w, temp);
      && (forall i | 0 <= i < |temp| :: w.calls[temp[i]].callId !in r.callMap)
      && (forall id <- w.callMap :: id in r.callMap || exists i :: 0 <= i < |temp| && w.calls[temp[i]].callId == id)
      && |r.decodeQueue| >= |w.decodeQueue|
      && (forall i | 0 <= i < |r.decodeQueue| ::
            if i < |w.decodeQueue| then r.decodeQueue[i] == w.decodeQueue[i] else r.decodeQueue[i] in temp)
    decreases |temp|
  {
    if temp != [] {
      var id := w.calls[temp[0]].callId;
      var w1 := if id in w.callMap then w.(callMap := w.callMap - {id}, decodeQueue := w.decodeQueue + [temp[0]])
        else w;
      CommitErases(w1, temp[1..]);
      CommitOnlyErases(w1, temp[1..]);
      assert temp == [temp[0]] + temp[1..];
      forall i | 0 <= i < |temp| ensures w.calls[temp[i]].callId !in CommitCalls(w, temp).callMap {
        if i > 0 { assert temp[i] == temp[1..][i - 1]; }
      }
      forall x <- w.callMap ensures x in CommitCalls(w, temp).callMap || exists i ::
        0 <= i < |temp| && w.calls[temp[i]].callId == x {
        if x == id {
          assert w.calls[temp[0]].callId == x;
        } else if x !in CommitCalls(w, temp).callMap {
          var i :| 0 <= i < |temp[1..]| && w.calls[temp[1..][i]].callId == x;
          assert temp[i + 1] == temp[1..][i];
        }
      }
    }
  }

  lemma CommitOfSpared(w: World, temp: seq<nat>)
    requires SinksInv(w) && (forall i | 0 <= i < |temp| :: temp[i] < |w.calls|) && Spares(w, temp)
    ensures SinksInv(CommitCalls(w, temp))
  {
    var r := CommitCalls(w, temp);
    CommitErases(w, temp);
    CommitOnlyErases(w, temp);
    forall s <- r.media.global ensures EntryOk(r, s, r.media.global[s]) {
      assert EntryOk(w, s, w.media.global[s]);
      assert EntryUnder(w, s, w.calls[w.media.sinks[w.media.global[s]].owner].callId);
    }
  }

  /** The commit leaves the global map with live sinks only if and only if it has no sink of
      a call with a Call-ID on the temporary queue before. */
  lemma CommitIsSafeIff(w: World, temp: seq<nat>)
    requires SinksInv(w) && forall i | 0 <= i < |temp| :: temp[i] < |w.calls|
    ensures AllAlive(CommitCalls(w, temp)) <==> Spares(w, temp)
    ensures SinksInv(CommitCalls(w, temp)) <==> Spares(w, temp)
  {
    var r := CommitCalls(w, temp);
    if Spares(w, temp) {
      CommitOfSpared(w, temp);
      SafeIsAlive(r);
    } else {
      var i :| 0 <= i < |temp| && !NoEntry(w, w.calls[temp[i]].callId);
      var s :| s in w.media.global && EntryUnder(w, s, w.calls[temp[i]].callId);
      CommitErases(w, temp);
      CommitOnlyErases(w, temp);
      assert !Alive(r, s);
      if SinksInv(r) { SafeIsAlive(r); }
    }
  }

  // ---- runs ----

  /** Every commit of the run meets the condition. */
  ghost predicate SparingCommits(cfg: Config, s: System, acts: seq<Action>)
    requires SystemWf(s)
    decreases |acts|
  {
    acts == [] ||
    ((acts[0].Commit? && Enabled(s, acts[0]) ==> Spares(s.w, s.dog.temp))
     && SparingCommits(cfg, Do(cfg, s, acts[0]), acts[1..]))
  }

  /** In every state of the run the global map leads to live sinks only. */
  ghost predicate AlwaysAlive(cfg: Config, s: System, acts: seq<Action>)
    requires SystemWf(s)
    decreases |acts|
  {
    AllAlive(s.w) && (acts == [] || AlwaysAlive(cfg, Do(cfg, s, acts[0]), acts[1..]))
  }

  lemma DoIsAliveIff(cfg: Config, s: System, a: Action)
    requires SystemWf(s) && CallsInv(s.w) && SinksInv(s.w) && (a.SipPacket? ==> a.p.WellFormed())
    ensures var r := Do(cfg, s, a).w;
      && CallsInv(r) && (SinksInv(r) <==> AllAlive(r))
      && (SinksInv(r) <==> (a.Commit? && Enabled(s, a) ==> Spares(s.w, s.dog.temp)))
  {
    DoKeepsCalls(cfg, s, a);
    if a.Commit? {
      if Enabled(s, a) { CommitIsSafeIff(s.w, s.dog.temp); } else { SafeIsAlive(s.w); }
    } else {
      DoKeepsSinks(cfg, s, a);
      SafeIsAlive(Do(cfg, s, a).w);
    }
  }

  /** In every interleaving of all threads: the global map leads to live sinks throughout if
      and only if each commit of the watchdog finds no sink of a Call-ID it erases. */
  lemma {:induction false} AliveIff(cfg: Config, s: System, acts: seq<Action>)
    requires SystemWf(s) && CallsInv(s.w) && SinksInv(s.w) && WellFormedPackets(acts)
    ensures AlwaysAlive(cfg, s, acts) <==> SparingCommits(cfg, s, acts)
    ensures SparingCommits(cfg, s, acts) ==> SinksInv(Run(cfg, s, acts).w)
    decreases |acts|
  {
    SafeIsAlive(s.w);
    if acts != [] {
      DoIsAliveIff(cfg, s, acts[0]);
      if SinksInv(Do(cfg, s, acts[0]).w) {
        AliveIff(cfg, Do(cfg, s, acts[0]), acts[1..]);
      }
    }
  }

  /** So UDP packets are never rolled into a deque the decoder has taken. */
  lemma {:induction false} GlobalSinksAreAlive(cfg: Config, acts: seq<Action>, s: SocketAddress)
    requires WellFormedPackets(acts) && SparingCommits(cfg, START, acts)
    requires s in Run(cfg, START, acts).w.media.global
    ensures Alive(Run(cfg, START, acts).w, s)
  {
    AliveIff(cfg, START, acts);
    SafeIsAlive(Run(cfg, START, acts).w);
  }

  // ---- when commits are sparing ----

  /** Between the check of a call and the commit, no SIP packet comes for the Call-ID of a
      call that is to be retired; and when a call is checked, no other call has taken its
      Call-ID over. */
  ghost predicate LeavesRetired(cfg: Config, s: System, acts: seq<Action>)
    requires SystemWf(s)
    decreases |acts|
  {
    acts == [] ||
    (&& (acts[0].SipPacket? && s.dog.Checking? ==>
           forall i | 0 <= i < |s.dog.temp| :: s.w.calls[s.dog.temp[i]].callId != acts[0].p.callId)
     && (acts[0].Check? && Enabled(s, acts[0]) && s.w.calls[acts[0].c].callId in s.w.callMap ==> InMap(s.w, acts[0].c))
     && LeavesRetired(cfg, Do(cfg, s, acts[0]), acts[1..]))
  }

  /** The calls to retire have no sinks in the global map. */
  ghost predicate RetiredInv(s: System)
    requires SystemWf(s)
  {
    s.dog.Checking? ==> Spares(s.w, s.dog.temp)
  }

  /** No new entries but those of a call with another Call-ID. */
  lemma FewerEntries(w: World, r: World, id: string)
    requires NoEntry(w, id) && |w.calls| <= |r.calls|
    requires forall c | 0 <= c < |w.calls| :: r.calls[c].callId == w.calls[c].callId
    requires forall s <- r.media.global :: SameEntry(w, r, s) || !EntryUnder(r, s, id)
    ensures NoEntry(r, id)
  {
    forall s <- r.media.global ensures !EntryUnder(r, s, id) {
      if SameEntry(w, r, s) { assert !EntryUnder(w, s, id); }
    }
  }

  predicate SameEntry(w: World, r: World, s: SocketAddress)
    requires s in r.media.global
  {
    && s in w.media.global && r.media.global[s] == w.media.global[s] < |w.media.sinks| <= |r.media.sinks|
    && r.media.sinks[r.media.global[s]].owner == w.media.sinks[w.media.global[s]].owner < |w.calls|
  }

  /** The entries of r are those of m, or lead to new sinks of call c. */
  ghost predicate AddsOwn(m: Media.MediaState, r: Media.MediaState, c: nat) {
    && |m.sinks| <= |r.sinks| && (forall k | 0 <= k < |m.sinks| :: r.sinks[k].owner == m.sinks[k].owner)
    && (forall s <- r.global :: (s in m.global && r.global[s] == m.global[s])
                                || (r.global[s] < |r.sinks| && r.sinks[r.global[s]].owner == c))
  }

  lemma OfferAddsOwn(m: Media.MediaState, c: nat, p: Packet, o: Outcome, now: int)
    requires c < |m.calls|
    ensures AddsOwn(m, OfferMedia(m, c, p, o, now), c)
  {
  }

  lemma SettleAddsNone(m: Media.MediaState, c: nat, o: Outcome)
    requires c < |m.calls|
    ensures var r := SettleMedia(m, c, o);
      && |r.sinks| == |m.sinks| && (forall k | 0 <= k < |m.sinks| :: r.sinks[k].owner == m.sinks[k].owner)
      && (forall s <- r.global :: s in m.global && r.global[s] == m.global[s])
  {
  }

  /** A packet makes global entries for its own call only. */
  lemma PacketAddsOwn(m: Media.MediaState, c: nat, p: Packet, o: Outcome, now: int)
    requires c < |m.calls|
    ensures AddsOwn(m, MediaAfter(m, c, p, o, now), c)
  {
    OfferAddsOwn(m, c, p, o, now);
    SettleAddsNone(OfferMedia(m, c, p, o, now), c, o);
  }

  lemma ApplyAddsNoEntry(w: World, c: nat, p: Packet, o: Outcome, now: int, id: string)
    requires NoEntry(w, id) && Media.Wf(w.media) && c < |w.calls| == |w.media.calls|
    requires o.call.callId == w.calls[c].callId != id
    ensures NoEntry(Apply(w, c, p, o, now), id)
  {
    var r := Apply(w, c, p, o, now);
    PacketAddsOwn(w.media, c, p, o, now);
    assert forall s <- w.media.global :: Media.WfGlobal(w.media, s, w.media.global[s]);
    FewerEntries(w, r, id);
  }

  lemma AdmitAddsNoEntry(w: World, p: Packet, now: int, noRtp: bool, id: string)
    requires Media.Wf(w.media) && |w.media.calls| == |w.calls| && NoEntry(w, id)
    ensures NoEntry(Admit(w, p, now, noRtp), id)
  {
    assert forall s <- w.media.global :: Media.WfGlobal(w.media, s, w.media.global[s]);
    FewerEntries(w, Admit(w, p, now, noRtp), id);
  }

  lemma DispatchAddsNoEntry(w: World, c: nat, p: Packet, now: int, id: string)
    requires NoEntry(w, id) && Media.Wf(w.media) && c < |w.calls| == |w.media.calls| && w.calls[c].callId != id
    ensures NoEntry(Dispatch(w, c, p, now), id)
  {
    var o := OnPacket(w.calls[c], c, p, w.nextTid, now);
    assert Follows(w.calls[c], o);
    ApplyAddsNoEntry(w, c, p, o, now, id);
  }

  lemma StepKeepsIds(w: World, p: Packet, now: int, noRtp: bool, c: nat)
    requires Wf(w) && c < |w.calls|
    ensures var r := Step(w, p, now, noRtp); c < |r.calls| && r.calls[c].callId == w.calls[c].callId
  {
    if Admits(w, p) {
      var v, d := Admit(w, p, now, noRtp), Target(w, p);
      assert Follows(v.calls[d], OnPacket(v.calls[d], d, p, v.nextTid, now));
    }
  }

  lemma StepAddsNoEntry(w: World, p: Packet, now: int, noRtp: bool, id: string)
    requires CallsInv(w) && NoEntry(w, id) && p.callId != id
    ensures NoEntry(Step(w, p, now, noRtp), id)
  {
    if Admits(w, p) {
      AdmitKeepsCalls(w, p, now, noRtp);
      AdmitAddsNoEntry(w, p, now, noRtp, id);
      DispatchAddsNoEntry(Admit(w, p, now, noRtp), Target(w, p), p, now, id);
    }
  }

  lemma UndisturbedAddsNoEntry(w: World, m: Media.MediaState, id: string)
    requires NoEntry(w, id) && Media.Wf(w.media) && Undisturbed(w.media, m) && |w.media.calls| == |w.calls|
    ensures NoEntry(w.(media := m), id)
  {
    forall s <- m.global ensures SameEntry(w, w.(media := m), s) {
      assert Media.WfGlobal(w.media, s, w.media.global[s]);
    }
    FewerEntries(w, w.(media := m), id);
  }

  /** Unregistering the only call with the Call-ID that has entries leaves none. */
  lemma UnregisterLeavesNoEntry(w: World, c: nat)
    requires SinksInv(w) && c < |w.calls| && (w.calls[c].callId in w.callMap ==> InMap(w, c))
    ensures NoEntry(w.(media := Media.Unregister(w.media, c)), w.calls[c].callId)
  {
    var m := Media.Unregister(w.media, c);
    forall s <- m.global ensures !EntryUnder(w.(media := m), s, w.calls[c].callId) {
      assert EntryOk(w, s, w.media.global[s]);
    }
  }

  lemma CheckKeepsRetired(cfg: Config, s: System, c: nat)
    requires SystemWf(s) && SinksInv(s.w) && Enabled(s, Check(c)) && Spares(s.w, s.dog.temp)
    requires s.w.calls[c].callId in s.w.callMap ==> InMap(s.w, c)
    ensures RetiredInv(Do(cfg, s, Check(c)))
  {
    var r := Do(cfg, s, Check(c));
    var m := Media.PollSinks(CheckRecording(cfg, s, c), c, s.now);
    CheckUndisturbed(cfg, s, c);
    UndisturbedKeepsSinks(s.w, m);
    UnregisterLeavesNoEntry(s.w.(media := m), c);
    forall i | 0 <= i < |r.dog.temp| ensures NoEntry(r.w, r.w.calls[r.dog.temp[i]].callId) {
      if i < |s.dog.temp| {
        assert r.dog.temp[i] == s.dog.temp[i];
        UndisturbedAddsNoEntry(s.w, r.w.media, s.w.calls[s.dog.temp[i]].callId);
      } else {
        assert r.dog.temp[i] == c;
      }
    }
  }

  lemma StepKeepsSpared(w: World, p: Packet, now: int, noRtp: bool, temp: seq<nat>)
    requires CallsInv(w) && (forall i | 0 <= i < |temp| :: temp[i] < |w.calls|) && Spares(w, temp)
    requires forall i | 0 <= i < |temp| :: w.calls[temp[i]].callId != p.callId
    ensures var r := Step(w, p, now, noRtp); (forall i | 0 <= i < |temp| :: temp[i] < |r.calls|) && Spares(r, temp)
  {
    var r := Step(w, p, now, noRtp);
    StepGrows(w, p, now, noRtp);
    forall i | 0 <= i < |temp| ensures NoEntry(r, r.calls[temp[i]].callId) {
      StepKeepsIds(w, p, now, noRtp, temp[i]);
      StepAddsNoEntry(w, p, now, noRtp, w.calls[temp[i]].callId);
    }
  }

  /** Sinks keep their owners, and entries may be gone. */
  ghost predicate OnlyDrops(m: Media.MediaState, r: Media.MediaState) {
    && |r.calls| == |m.calls| && |r.sinks| == |m.sinks|
    && (forall k | 0 <= k < |m.sinks| :: r.sinks[k].owner == m.sinks[k].owner)
    && (forall s <- r.global :: s in m.global && r.global[s] == m.global[s])
  }

  lemma DropsKeepSpared(w: World, m: Media.MediaState, temp: seq<nat>)
    requires Media.Wf(w.media) && |w.media.calls| == |w.calls| && OnlyDrops(w.media, m)
    requires (forall i | 0 <= i < |temp| :: temp[i] < |w.calls|) && Spares(w, temp)
    ensures Spares(w.(media := m), temp)
  {
    assert forall s <- w.media.global :: Media.WfGlobal(w.media, s, w.media.global[s]);
    forall i | 0 <= i < |temp| ensures NoEntry(w.(media := m), w.calls[temp[i]].callId) {
      FewerEntries(w, w.(media := m), w.calls[temp[i]].callId);
    }
  }

  lemma OthersOnlyDrop(m: Media.MediaState, c: nat)
    requires c < |m.calls|
    ensures OnlyDrops(m, Media.TakeDeques(m, c)) && OnlyDrops(m, Media.Unregister(m, c))
  {
  }

  lemma DoKeepsRetired(cfg: Config, s: System, a: Action)
    requires SystemWf(s) && CallsInv(s.w) && SinksInv(s.w) && RetiredInv(s) && LeavesRetired(cfg, s, [a])
    ensures RetiredInv(Do(cfg, s, a))
  {
    if s.dog.Checking? && Enabled(s, a) {
      match a
      case SipPacket(p, noRtp) => StepKeepsSpared(s.w, p, s.now, noRtp, s.dog.temp);
      case Check(c) => CheckKeepsRetired(cfg, s, c);
      case RtpPacket(socket, packet) =>
        assert OnlyDrops(s.w.media, Media.Receive(s.w.media, socket, packet, s.now));
        DropsKeepSpared(s.w, Media.Receive(s.w.media, socket, packet, s.now), s.dog.temp);
      case Decode =>
        OthersOnlyDrop(s.w.media, s.w.decodeQueue[s.popped]);
        DropsKeepSpared(s.w, Media.TakeDeques(s.w.media, s.w.decodeQueue[s.popped]), s.dog.temp);
      case Destroy(c) =>
        OthersOnlyDrop(s.w.media, c);
        DropsKeepSpared(s.w, Media.Unregister(s.w.media, c), s.dog.temp);
      case _ =>
    }
  }

  /** Runs that leave retired calls alone have sparing commits. */
  lemma {:induction false} RetiredAreSpared(cfg: Config, s: System, acts: seq<Action>)
    requires SystemWf(s) && CallsInv(s.w) && SinksInv(s.w) && RetiredInv(s)
    requires WellFormedPackets(acts) && LeavesRetired(cfg, s, acts)
    ensures SparingCommits(cfg, s, acts)
    decreases |acts|
  {
    if acts != [] {
      var a := acts[0];
      DoKeepsRetired(cfg, s, a);
      DoKeepsCalls(cfg, s, a);
      if a.Commit? && Enabled(s, a) {
        CommitIsSafeIff(s.w, s.dog.temp);
      } else if !a.Commit? {
        DoKeepsSinks(cfg, s, a);
      }
      RetiredAreSpared(cfg, Do(cfg, s, a), acts[1..]);
    }
  }

  /** No SIP packet comes between the stages of a round of the watchdog. */
  ghost predicate WholeRounds(cfg: Config, s: System, acts: seq<Action>)
    requires SystemWf(s)
    decreases |acts|
  {
    acts == [] ||
    ((acts[0].SipPacket? ==> s.dog.Idle?) && WholeRounds(cfg, Do(cfg, s, acts[0]), acts[1..]))
  }

  lemma SnapshotIsOfMap(w: World)
    requires Wf(w)
    ensures forall c <- w.callMap.Values :: InMap(w, c)
  {
    forall c <- w.callMap.Values ensures InMap(w, c) {
      var id :| id in w.callMap && w.callMap[id] == c;
      assert Names(w, id, c);
    }
  }

  lemma {:induction false} WholeRoundsLeaveRetired(cfg: Config, s: System, acts: seq<Action>)
    requires SystemWf(s) && CallsInv(s.w) && WholeRounds(cfg, s, acts) && WellFormedPackets(acts)
    requires s.dog.Checking? ==> forall c <- s.dog.todo :: InMap(s.w, c)
    ensures LeavesRetired(cfg, s, acts)
    decreases |acts|
  {
    if acts != [] {
      var a := acts[0];
      DoKeepsCalls(cfg, s, a);
      SnapshotIsOfMap(s.w);
      WholeRoundsLeaveRetired(cfg, Do(cfg, s, a), acts[1..]);
    }
  }

  /** In particular, all goes well if rounds of the watchdog are not interleaved with SIP
      packets. */
  lemma {:induction false} WholeRoundsAreSafe(cfg: Config, acts: seq<Action>)
    requires WellFormedPackets(acts) && WholeRounds(cfg, START, acts)
    ensures AlwaysAlive(cfg, START, acts)
  {
    WholeRoundsLeaveRetired(cfg, START, acts);
    RetiredAreSpared(cfg, START, acts);
    AliveIff(cfg, START, acts);
  }
}
