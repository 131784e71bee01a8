/**
 Runs of the whole system, and the signalling invariant in every state they reach.
 */
module Reachable {
  import opened SipTypes
  import opened Signalling
  import opened SipMachine
  import opened SystemModel
  import opened CallInvariant

  /** Section 8.1.1.5 of RFC 3261 for every packet of the run. */
  ghost predicate WellFormedPackets(acts: seq<Action>) {
    forall i | 0 <= i < |acts| && acts[i].SipPacket? :: acts[i].p.WellFormed()
  }

  ghost predicate CallsInv(w: World) {
    && Wf(w)
    && (forall c | 0 <= c < |w.calls| :: CallInv(w.calls[c]))
    && (forall c: nat | InMap(w, c) :: w.calls[c].dialog.state != DsTerminating)
  }

  lemma AdmitKeepsCalls(w: World, p: Packet, now: int, noRtp: bool)
    requires CallsInv(w) && Admits(w, p)
    ensures CallsInv(Admit(w, p, now, noRtp))
    ensures InMap(Admit(w, p, now, noRtp), Target(w, p))
  {
    AdmitWf(w, p, now, noRtp);
  }

  lemma DispatchKeepsCalls(w: World, c: nat, p: Packet, now: int)
    requires CallsInv(w) && InMap(w, c) && Names(w, p.callId, c) && p.WellFormed()
    ensures CallsInv(Dispatch(w, c, p, now))
  {
    DispatchWf(w, c, p, now);
    OnPacketKeeps(w.calls[c], c, p, w.nextTid, now);
  }

  lemma StepKeepsCalls(w: World, p: Packet, now: int, noRtp: bool)
    requires CallsInv(w) && p.WellFormed()
    ensures CallsInv(Step(w, p, now, noRtp))
  {
    if Admits(w, p) {
      AdmitKeepsCalls(w, p, now, noRtp);
      DispatchKeepsCalls(Admit(w, p, now, noRtp), Target(w, p), p, now);
    }
  }

  lemma {:induction false} CommitOnlyErases(w: World, temp: seq<nat>)
    requires forall i | 0 <= i < |temp| :: temp[i] < |w.calls|
    ensures var r := CommitCalls(w, temp);
      && r.callMap.Keys <= w.callMap.Keys
      && (forall id <- r.callMap :: r.callMap[id] == w.callMap[id])
      && r.(callMap := w.callMap, decodeQueue := w.decodeQueue) == w
    decreases |temp|
  {
    if temp != [] {
      var id := w.calls[temp[0]].callId;
      CommitOnlyErases(if id in w.callMap
        then w.(callMap := w.callMap - {id}, decodeQueue := w.decodeQueue + [temp[0]]) else w, temp[1..]);
    }
  }

  lemma DoKeepsCalls(cfg: Config, s: System, a: Action)
    requires SystemWf(s) && CallsInv(s.w) && (a.SipPacket? ==> a.p.WellFormed())
    ensures CallsInv(Do(cfg, s, a).w)
  {
    if a.SipPacket? {
      StepKeepsCalls(s.w, a.p, s.now, a.noRtp);
    } else if a.Commit? && Enabled(s, a) {
      CommitOnlyErases(s.w, s.dog.temp);
    }
  }

  lemma {:induction false} RunKeepsCalls(cfg: Config, s: System, acts: seq<Action>)
    requires SystemWf(s) && CallsInv(s.w) && WellFormedPackets(acts)
    ensures CallsInv(Run(cfg, s, acts).w)
    decreases |acts|
  {
    if acts != [] {
      DoKeepsCalls(cfg, s, acts[0]);
      RunKeepsCalls(cfg, Do(cfg, s, acts[0]), acts[1..]);
    }
  }

  /** In every reachable state: a call has at most one live INVITE transaction, its dialog
      is INIT or EARLY while it has one, the re-INVITE flag implies INIT or EARLY, stored
      non-INVITE transactions are exactly TRYING / TRYING, and no call of the map is
      TERMINATING. */
  lemma {:induction false} EveryCallIsInOrder(cfg: Config, acts: seq<Action>, c: nat)
    requires WellFormedPackets(acts)
    requires c < |Run(cfg, START, acts).w.calls|
    ensures var call := Run(cfg, START, acts).w.calls[c];
      && (forall k, k' | k in call.trans && k' in call.trans
            && k.cseqMethod == Invite && call.trans[k].state != TERMINATED_TERMINATED
            && k'.cseqMethod == Invite && call.trans[k'].state != TERMINATED_TERMINATED :: k == k')
      && (forall k | k in call.trans && k.cseqMethod == Invite && call.trans[k].state != TERMINATED_TERMINATED ::
            call.dialog.state in {DsInit, DsEarly})
      && (call.reinvite ==> call.dialog.state in {DsInit, DsEarly})
      && (forall k | k in call.trans && k.cseqMethod != Invite :: call.trans[k].state == TRYING_TRYING)
      && (InMap(Run(cfg, START, acts).w, c) ==> call.dialog.state != DsTerminating)
  {
    RunKeepsCalls(cfg, START, acts);
  }
}
