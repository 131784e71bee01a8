/**
 Every call leaves the call map exactly once: to the decoder, or rejected. The watchdog
 works on a snapshot and commits by Call-ID (src/container/CallMap.cpp), so this depends
 on Call-IDs not being reused while a round is under way.
 */
module HandOver {
  import opened SipTypes
  import opened Signalling
  import opened SipMachine
  import opened SystemModel
  import opened CallInvariant
  import opened CallPhases
  import opened Reachable

  ghost predicate Rejected(w: World, c: nat) {
    c < |w.calls| && w.calls[c].dialog.state == DsTerminating
  }

  /** Each call ever created is in exactly one place: in the map, once in the decode queue,
      or rejected. */
  ghost predicate Partition(w: World) {
    && (forall i, j | 0 <= i < j < |w.decodeQueue| :: w.decodeQueue[i] != w.decodeQueue[j])
    && (forall i | 0 <= i < |w.decodeQueue| :: !InMap(w, w.decodeQueue[i]) && !Rejected(w, w.decodeQueue[i]))
    && (forall c | 0 <= c < |w.calls| :: Somewhere(w, c))
  }

  ghost predicate Somewhere(w: World, c: nat) {
    && (InMap(w, c) || c in w.decodeQueue || Rejected(w, c))
    && !(InMap(w, c) && Rejected(w, c))
  }

  lemma CreateKeepsPartition(w: World, p: Packet, now: int, noRtp: bool)
    requires Partition(w) && CreatesCall(w, p)
    requires forall i | 0 <= i < |w.decodeQueue| :: w.decodeQueue[i] < |w.calls|
    ensures Partition(Create(w, p, now, noRtp))
  {
    var r := Create(w, p, now, noRtp);
    forall c | 0 <= c < |r.calls| ensures Somewhere(r, c) {
      if c < |w.calls| { assert Somewhere(w, c); }
    }
  }

  lemma ApplyKeepsPartition(w: World, c: nat, p: Packet, o: Outcome, now: int)
    requires Partition(w) && InMap(w, c) && |w.media.calls| == |w.calls|
    requires w.calls[c].callId == p.callId == o.call.callId
    requires Moves(w.calls[c], o)
    requires o.call.dialog.state == DsTerminating ==> w.calls[c].dialog.state == DsTerminating || o.exit == Reject
    ensures Partition(Apply(w, c, p, o, now))
  {
    var r := Apply(w, c, p, o, now);
    assert Somewhere(w, c);
    forall d | 0 <= d < |r.calls| ensures Somewhere(r, d) {
      assert Somewhere(w, d);
      if d == c && o.exit == HandOff {
        assert r.decodeQueue[|w.decodeQueue|] == d;
      }
    }
  }

  lemma StepKeepsPartition(w: World, p: Packet, now: int, noRtp: bool)
    requires CallsInv(w) && Partition(w) && p.WellFormed()
    ensures Partition(Step(w, p, now, noRtp))
  {
    if Admits(w, p) {
      var v, c := Admit(w, p, now, noRtp), Target(w, p);
      AdmitKeepsCalls(w, p, now, noRtp);
      if CreatesCall(w, p) {
        CreateKeepsPartition(w, p, now, noRtp);
      }
      var o := OnPacket(v.calls[c], c, p, v.nextTid, now);
      OnPacketMoves(v.calls[c], c, p, v.nextTid, now);
      OnPacketKeeps(v.calls[c], c, p, v.nextTid, now);
      assert Follows(v.calls[c], o);
      ApplyKeepsPartition(v, c, p, o, now);
    }
  }

  // ---- the commit of the watchdog ----

  /** For each Call-ID on the temporary queue that is still in the map, the first call
      queued under it is the call the map holds under it. */
  ghost predicate HoldsOwn(w: World, temp: seq<nat>)
    requires forall i | 0 <= i < |temp| :: temp[i] < |w.calls|
  {
    forall i | 0 <= i < |temp| && w.calls[temp[i]].callId in w.callMap
               && (forall j | 0 <= j < i :: w.calls[temp[j]].callId != w.calls[temp[i]].callId) ::
      InMap(w, temp[i])
  }

  /** The commit of the first call of the temporary queue. */
  function CommitFirst(w: World, c: nat): World
    requires c < |w.calls|
  {
    var id := w.calls[c].callId;
    if id in w.callMap then w.(callMap := w.callMap - {id}, decodeQueue := w.decodeQueue + [c]) else w
  }

  lemma HoldsOwnTail(w: World, temp: seq<nat>)
    requires temp != [] && forall i | 0 <= i < |temp| :: temp[i] < |w.calls|
    ensures HoldsOwn(w, temp) <==>
      (w.calls[temp[0]].callId in w.callMap ==> InMap(w, temp[0])) && HoldsOwn(CommitFirst(w, temp[0]), temp[1..])
  {
    var w1 := CommitFirst(w, temp[0]);
    if HoldsOwn(w, temp) {
      forall i | 0 <= i < |temp[1..]| && w1.calls[temp[1..][i]].callId in w1.callMap
                 && (forall j | 0 <= j < i :: w1.calls[temp[1..][j]].callId != w1.calls[temp[1..][i]].callId)
        ensures InMap(w1, temp[1..][i])
      {
        assert temp[1..][i] == temp[i + 1];
        forall j | 0 <= j < i + 1 ensures w.calls[temp[j]].callId != w.calls[temp[i + 1]].callId {
          if j > 0 { assert temp[j] == temp[1..][j - 1]; }
        }
      }
    }
    if (w.calls[temp[0]].callId in w.callMap ==> InMap(w, temp[0])) && HoldsOwn(w1, temp[1..]) {
      forall i | 0 <= i < |temp| && w.calls[temp[i]].callId in w.callMap
                 && (forall j | 0 <= j < i :: w.calls[temp[j]].callId != w.calls[temp[i]].callId)
        ensures InMap(w, temp[i])
      {
        if i > 0 {
          assert temp[1..][i - 1] == temp[i];
          forall j | 0 <= j < i - 1 ensures w1.calls[temp[1..][j]].callId != w1.calls[temp[1..][i - 1]].callId {
            assert temp[1..][j] == temp[j + 1];
          }
          assert w.calls[temp[0]].callId != w.calls[temp[i]].callId;
        }
      }
    }
  }

  lemma CommitFirstKeeps(w: World, c: nat)
    requires Partition(w) && c < |w.calls| && InMap(w, c)
    ensures Partition(CommitFirst(w, c))
  {
    var r := CommitFirst(w, c);
    assert Somewhere(w, c);
    forall d | 0 <= d < |r.calls| ensures Somewhere(r, d) {
      assert Somewhere(w, d);
      if d == c { assert r.decodeQueue[|w.decodeQueue|] == d; }
    }
  }

  /** A call that is lost stays lost through the rest of the commit. */
  lemma {:induction false} LostStaysLost(w: World, temp: seq<nat>, d: nat)
    requires forall i | 0 <= i < |temp| :: temp[i] < |w.calls|
    requires d < |w.calls| && !Somewhere(w, d) && w.calls[d].callId !in w.callMap
    ensures !Somewhere(CommitCalls(w, temp), d)
    decreases |temp|
  {
    if temp != [] {
      LostStaysLost(CommitFirst(w, temp[0]), temp[1..], d);
    }
  }

  /** The commit hands every call over exactly once if and only if the Call-IDs on the
      temporary queue still name the calls that were put there. */
  lemma {:induction false} CommitIsExactIff(w: World, temp: seq<nat>)
    requires Partition(w)
    requires forall id <- w.callMap :: Names(w, id, w.callMap[id])
    requires forall i | 0 <= i < |temp| :: temp[i] < |w.calls|
    ensures Partition(CommitCalls(w, temp)) <==> HoldsOwn(w, temp)
    decreases |temp|
  {
    if temp != [] {
      var c := temp[0];
      var id := w.calls[c].callId;
      var w1 := CommitFirst(w, c);
      HoldsOwnTail(w, temp);
      if id !in w.callMap {
        CommitIsExactIff(w1, temp[1..]);
      } else if InMap(w, c) {
        CommitFirstKeeps(w, c);
        CommitIsExactIff(w1, temp[1..]);
      } else {
        var d := w.callMap[id];
        assert Names(w, id, d) && InMap(w, d);
        assert Somewhere(w, d) && d !in w.decodeQueue;
        assert !Somewhere(w1, d) by {
          assert forall i | 0 <= i < |w1.decodeQueue| :: w1.decodeQueue[i] != d;
        }
        LostStaysLost(w1, temp[1..], d);
        CommitOnlyErases(w, temp);
        assert !Somewhere(CommitCalls(w, temp), d);
      }
    }
  }

  // ---- runs ----

  /** No commit of the run meets a Call-ID that was taken over by another call. */
  ghost predicate NoTakeover(cfg: Config, s: System, acts: seq<Action>)
    requires SystemWf(s)
    decreases |acts|
  {
    acts == [] ||
    ((acts[0].Commit? && Enabled(s, acts[0]) ==> HoldsOwn(s.w, s.dog.temp))
     && NoTakeover(cfg, Do(cfg, s, acts[0]), acts[1..]))
  }

  /** Section 8.1.1.4 of RFC 3261: a packet that creates a call has a Call-ID of its own. */
  ghost predicate FreshCallIds(cfg: Config, s: System, acts: seq<Action>)
    requires SystemWf(s)
    decreases |acts|
  {
    acts == [] ||
    ((acts[0].SipPacket? && CreatesCall(s.w, acts[0].p) ==>
        forall c | 0 <= c < |s.w.calls| :: s.w.calls[c].callId != acts[0].p.callId)
     && FreshCallIds(cfg, Do(cfg, s, acts[0]), acts[1..]))
  }

  lemma DoKeepsPartition(cfg: Config, s: System, a: Action)
    requires SystemWf(s) && CallsInv(s.w) && Partition(s.w) && (a.SipPacket? ==> a.p.WellFormed())
    requires a.Commit? && Enabled(s, a) ==> HoldsOwn(s.w, s.dog.temp)
    ensures Partition(Do(cfg, s, a).w)
  {
    if Enabled(s, a) {
      match a
      case SipPacket(p, noRtp) => StepKeepsPartition(s.w, p, s.now, noRtp);
      case Commit => CommitIsExactIff(s.w, s.dog.temp);
      case _ => SamePlaces(s.w, Do(cfg, s, a).w);
    }
  }

  lemma SamePlaces(w: World, r: World)
    requires Partition(w) && r == w.(media := r.media)
    ensures Partition(r)
  {
    forall c | 0 <= c < |r.calls| ensures Somewhere(r, c) { assert Somewhere(w, c); }
  }

  /** In every state of the run each call is in exactly one place. */
  ghost predicate AlwaysPartition(cfg: Config, s: System, acts: seq<Action>)
    requires SystemWf(s)
    decreases |acts|
  {
    Partition(s.w) && (acts == [] || AlwaysPartition(cfg, Do(cfg, s, acts[0]), acts[1..]))
  }

  lemma DoIsPartitionIff(cfg: Config, s: System, a: Action)
    requires SystemWf(s) && CallsInv(s.w) && Partition(s.w) && (a.SipPacket? ==> a.p.WellFormed())
    ensures Partition(Do(cfg, s, a).w) <==> (a.Commit? && Enabled(s, a) ==> HoldsOwn(s.w, s.dog.temp))
  {
    if a.Commit? && Enabled(s, a) {
      CommitIsExactIff(s.w, s.dog.temp);
    } else {
      DoKeepsPartition(cfg, s, a);
    }
  }

  /** In every interleaving: each call is in exactly one place throughout if and only if no
      commit meets a Call-ID that was taken over. */
  lemma {:induction false} PartitionIff(cfg: Config, s: System, acts: seq<Action>)
    requires SystemWf(s) && CallsInv(s.w) && Partition(s.w) && WellFormedPackets(acts)
    ensures AlwaysPartition(cfg, s, acts) <==> NoTakeover(cfg, s, acts)
    ensures NoTakeover(cfg, s, acts) ==> Partition(Run(cfg, s, acts).w)
    decreases |acts|
  {
    if acts != [] {
      DoIsPartitionIff(cfg, s, acts[0]);
      DoKeepsCalls(cfg, s, acts[0]);
      if Partition(Do(cfg, s, acts[0]).w) {
        PartitionIff(cfg, Do(cfg, s, acts[0]), acts[1..]);
      }
    }
  }

  ghost predicate DistinctIds(w: World) {
    forall c, d | 0 <= c < |w.calls| && 0 <= d < |w.calls| && w.calls[c].callId == w.calls[d].callId :: c == d
  }

  lemma DoKeepsDistinctIds(cfg: Config, s: System, a: Action)
    requires SystemWf(s) && CallsInv(s.w) && DistinctIds(s.w)
    requires a.SipPacket? && CreatesCall(s.w, a.p) ==>
      forall c | 0 <= c < |s.w.calls| :: s.w.calls[c].callId != a.p.callId
    ensures DistinctIds(Do(cfg, s, a).w)
  {
    if a.SipPacket? {
      var w := s.w;
      if Admits(w, a.p) {
        var v, c := Admit(w, a.p, s.now, a.noRtp), Target(w, a.p);
        assert Follows(v.calls[c], OnPacket(v.calls[c], c, a.p, v.nextTid, s.now));
      }
    } else if a.Commit? && Enabled(s, a) {
      CommitOnlyErases(s.w, s.dog.temp);
    }
  }

  lemma {:induction false} FreshRunsHaveNoTakeover(cfg: Config, s: System, acts: seq<Action>)
    requires SystemWf(s) && CallsInv(s.w) && DistinctIds(s.w)
    requires WellFormedPackets(acts) && FreshCallIds(cfg, s, acts)
    ensures NoTakeover(cfg, s, acts)
    decreases |acts|
  {
    if acts != [] {
      if acts[0].Commit? && Enabled(s, acts[0]) {
        forall i | 0 <= i < |s.dog.temp| && s.w.calls[s.dog.temp[i]].callId in s.w.callMap
          ensures InMap(s.w, s.dog.temp[i])
        {
          var id := s.w.calls[s.dog.temp[i]].callId;
          assert Names(s.w, id, s.w.callMap[id]);
        }
      }
      DoKeepsCalls(cfg, s, acts[0]);
      DoKeepsDistinctIds(cfg, s, acts[0]);
      FreshRunsHaveNoTakeover(cfg, Do(cfg, s, acts[0]), acts[1..]);
    }
  }

  /** In every interleaving of SIP packets with the stages of the watchdog, with Call-IDs
      never reused, each call is in exactly one place: in the map, once in the decode queue
      (even if age and inactivity both put it on the temporary queue), or rejected. */
  lemma EveryCallLeavesOnce(cfg: Config, acts: seq<Action>)
    requires WellFormedPackets(acts) && FreshCallIds(cfg, START, acts)
    ensures Partition(Run(cfg, START, acts).w)
  {
    FreshRunsHaveNoTakeover(cfg, START, acts);
    PartitionIff(cfg, START, acts);
  }

  // ---- a call found before it was committed ----

  /** The packet takes the call out of the call map: it is the ACK on a failed INVITE and no
      re-INVITE is under way, or a final response to a BYE. */
  predicate Leaves(call: CallData, p: Packet) {
    match MatchTransaction(call, p)
    case Some(k) =>
      || (p.IsRequest(Ack) && call.trans[k].state == TERMINATED_COMPLETED && !call.reinvite)
      || (p.kind == Response && !p.IsProvisional() && k.cseqMethod == Bye)
    case None => false
  }

  lemma LeavesIff(call: CallData, c: nat, p: Packet, tid: nat, now: int)
    requires CallInv(call) && p.WellFormed()
    ensures OnPacket(call, c, p, tid, now).exit != Stay <==> Leaves(call, p)
  {
  }

  /** The SIP worker finds the call of a packet before it locks it. If the watchdog commits the
      call in between, it is handed over exactly once if and only if the packet is not one
      that takes its call out of the call map. */
  lemma LateDispatchIff(w: World, c: nat, p: Packet, now: int)
    requires CallsInv(w) && Partition(w) && p.WellFormed()
    requires c < |w.calls| && w.calls[c].callId == p.callId && c in w.decodeQueue
    ensures Partition(Dispatch(w, c, p, now)) <==> !Leaves(w.calls[c], p)
  {
    var o := OnPacket(w.calls[c], c, p, w.nextTid, now);
    LeavesIff(w.calls[c], c, p, w.nextTid, now);
    OnPacketKeeps(w.calls[c], c, p, w.nextTid, now);
    var i :| 0 <= i < |w.decodeQueue| && w.decodeQueue[i] == c;
    assert !Rejected(w, c);
    OnPacketMoves(w.calls[c], c, p, w.nextTid, now);
    assert Follows(w.calls[c], o);
    LateApplyIff(w, c, p, o, now, i);
  }

  lemma LateApplyIff(w: World, c: nat, p: Packet, o: Outcome, now: int, i: nat)
    requires Partition(w) && |w.media.calls| == |w.calls| && c < |w.calls|
    requires w.calls[c].callId == p.callId == o.call.callId
    requires i < |w.decodeQueue| && w.decodeQueue[i] == c
    requires o.exit == Reject <==> o.call.dialog.state == DsTerminating
    ensures Partition(Apply(w, c, p, o, now)) <==> o.exit == Stay
  {
    var r := Apply(w, c, p, o, now);
    if o.exit == Stay {
      forall d | 0 <= d < |r.calls| ensures Somewhere(r, d) { assert Somewhere(w, d); }
    } else if o.exit == HandOff {
      assert r.decodeQueue[i] == r.decodeQueue[|w.decodeQueue|] == c;
    } else {
      assert Rejected(r, r.decodeQueue[i]);
    }
  }

  /** The call of a BYE that was answered only after the commit is decoded twice. */
  lemma LateResponseQueuesTwice(w: World, c: nat, k: TransactionId, p: Packet, now: int)
    requires |w.media.calls| == |w.calls| && c < |w.calls| && k in w.calls[c].trans && k.cseqMethod == Bye
    requires w.calls[c].trans[k].state == TRYING_TRYING && w.decodeQueue == [c]
    requires p.kind == Response && p.Id() == k && p.responseCode == 200
    ensures Dispatch(w, c, p, now).decodeQueue == [c, c]
  {
  }
}
