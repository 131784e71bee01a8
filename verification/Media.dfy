/**
 The RTP sinks: every sink object, the local sink map of each call and the global sink
 map (src/audio/RtpSink.hpp, src/container/RtpSinkMap.hpp), with the operations the SIP
 handlers, the watchdog, the UDP thread and the decoder perform on them. Calls and sinks
 are named by their position in the sequence of all objects ever created, so identity of
 objects is equality of positions.
 */
module Media {
  import opened SipTypes

  /** An RTP sink. `packets` is None once the decoder has taken the packet deque. The
      fields `owner`, `socket`, `lastActivity` and `polledAt` are bookkeeping: the call
      the sink was made for, the socket it was offered under, when its last RTP packet
      came (or it was made), and when its inactivity was last asked for. */
  datatype SinkData = SinkData(
    owner: nat,
    socket: SocketAddress,
    isCaller: bool,
    active: bool,
    status: SinkStatus,
    packets: Option<seq<nat>>,
    packetCount: nat,
    activityTs: int,
    lastActivity: int,
    polledAt: int)

  /** What a call holds: its local sink map and the flag rtpSinksAreActivated. */
  datatype CallMedia = CallMedia(local: map<SocketAddress, nat>, recording: bool)

  datatype MediaState = MediaState(calls: seq<CallMedia>, sinks: seq<SinkData>, global: map<SocketAddress, nat>)

  const NO_MEDIA := MediaState([], [], map[])

  /** References point at sinks, filed under their own socket and with their own call. */
  ghost predicate Wf(m: MediaState) {
    && (forall c, s | 0 <= c < |m.calls| && s in m.calls[c].local :: WfLocal(m, c, s, m.calls[c].local[s]))
    && (forall s <- m.global :: WfGlobal(m, s, m.global[s]))
  }

  predicate WfLocal(m: MediaState, c: nat, s: SocketAddress, r: nat) {
    r < |m.sinks| && m.sinks[r].socket == s && m.sinks[r].owner == c
  }

  predicate WfGlobal(m: MediaState, s: SocketAddress, r: nat) {
    r < |m.sinks| && m.sinks[r].socket == s && m.sinks[r].owner < |m.calls|
  }

  /** The sink is in the local map of call c. */
  predicate Holds(m: MediaState, c: nat, r: nat)
    requires c < |m.calls| && r < |m.sinks|
  {
    m.sinks[r].socket in m.calls[c].local && m.calls[c].local[m.sinks[r].socket] == r
  }

  function StatusOf(m: MediaState, r: nat): SinkStatus {
    if r < |m.sinks| then m.sinks[r].status else RsTerminated
  }

  function NewCall(m: MediaState, recording: bool): MediaState {
    m.(calls := m.calls + [CallMedia(map[], recording)])
  }

  function NewSink(owner: nat, socket: SocketAddress, isCaller: bool, active: bool, now: int): SinkData {
    SinkData(owner, socket, isCaller, active, RsInit, Some([]), 0, now, now, now)
  }

  /** processSdp for the socket s. In a re-INVITE a socket with a sink in the global map
      only has that sink's status changed, if at all. */
  function OfferSocket(m: MediaState, c: nat, s: SocketAddress, reinvite: bool, isCaller: bool,
                       now: int): (r: MediaState)
    requires c < |m.calls|
    ensures |r.calls| == |m.calls|
  {
    if reinvite && s in m.global then
      var k := m.global[s];
      if k < |m.sinks| && m.sinks[k].status == RsConfirmed
      then m.(sinks := m.sinks[k := m.sinks[k].(status := RsConfirmedInit)]) else m
    else
      AddSink(m, c, NewSink(c, s, isCaller, m.calls[c].recording, now))
  }

  function AddSink(m: MediaState, c: nat, sink: SinkData): (r: MediaState)
    requires c < |m.calls|
    ensures |r.calls| == |m.calls|
  {
    var k := |m.sinks|;
    MediaState(
      m.calls[c := m.calls[c].(local := InsertNew(m.calls[c].local, sink.socket, k))],
      m.sinks + [sink],
      InsertNew(m.global, sink.socket, k))
  }

  function CommitSink(k: SinkData): SinkData { k.(status := Commit(k.status)) }

  function RollbackSink(k: SinkData): SinkData { k.(status := Rollback(k.status)) }

  function Commit(s: SinkStatus): SinkStatus {
    match s
    case RsConfirmed => RsTerminated
    case RsTerminated => RsTerminated
    case _ => RsConfirmed
  }

  function Rollback(s: SinkStatus): SinkStatus {
    match s
    case RsInit => RsTerminated
    case RsConfirmedInit => RsConfirmed
    case _ => s
  }

  /** The sinks after f was applied to those held by c under `done`. */
  function MapHeld(m: MediaState, c: nat, f: SinkData -> SinkData, done: set<SocketAddress>): (sinks: seq<SinkData>)
    requires c < |m.calls|
    ensures |sinks| == |m.sinks|
    ensures forall r | 0 <= r < |sinks| ::
      sinks[r] == if Holds(m, c, r) && m.sinks[r].socket in done then f(m.sinks[r]) else m.sinks[r]
  {
    seq(|m.sinks|, r requires 0 <= r < |m.sinks| =>
      if Holds(m, c, r) && m.sinks[r].socket in done then f(m.sinks[r]) else m.sinks[r])
  }

  /** The global map without the sockets under `done` whose local sink has status `dropped`. */
  function DropSockets(m: MediaState, c: nat, dropped: SinkStatus, done: set<SocketAddress>): map<SocketAddress, nat>
    requires c < |m.calls|
  {
    var local := m.calls[c].local;
    map s | s in m.global && !(s in done && s in local && StatusOf(m, local[s]) == dropped) :: m.global[s]
  }

  /** confirmRtpSinks once its loop has dealt with the sockets in `done`. */
  function ConfirmSome(m: MediaState, c: nat, done: set<SocketAddress>): (r: MediaState)
    requires c < |m.calls|
    ensures r.calls == m.calls
  {
    m.(sinks := MapHeld(m, c, CommitSink, done), global := DropSockets(m, c, RsConfirmed, done))
  }

  function ConfirmSinks(m: MediaState, c: nat): (r: MediaState)
    requires c < |m.calls|
    ensures r.calls == m.calls
  {
    ConfirmSome(m, c, m.calls[c].local.Keys)
  }

  /** annulRtpSinks once its loop has dealt with the sockets in `done`. */
  function AnnulSome(m: MediaState, c: nat, done: set<SocketAddress>): (r: MediaState)
    requires c < |m.calls|
    ensures r.calls == m.calls
  {
    m.(sinks := MapHeld(m, c, RollbackSink, done), global := DropSockets(m, c, RsInit, done))
  }

  function AnnulSinks(m: MediaState, c: nat): (r: MediaState)
    requires c < |m.calls|
    ensures r.calls == m.calls
  {
    AnnulSome(m, c, m.calls[c].local.Keys)
  }

  /** Call::unregisterRtpSinks. */
  function Unregister(m: MediaState, c: nat): (r: MediaState)
    requires c < |m.calls|
    ensures r.calls == m.calls && r.sinks == m.sinks
  {
    m.(global := m.global - m.calls[c].local.Keys)
  }

  /** RtpSink::rollIn. A sink that is not active hands the packet back to the pool. Rolling
      into a deque that was taken away is undefined; SinkSafety says exactly when it cannot happen. */
  function RollIn(k: SinkData, packet: nat, now: int): SinkData {
    k.(packets := if k.active && k.packets.Some? then Some(k.packets.value + [packet]) else k.packets,
       packetCount := k.packetCount + 1,
       lastActivity := now)
  }

  /** UDP thread: an RTP packet for a socket of the global map. */
  function Receive(m: MediaState, s: SocketAddress, packet: nat, now: int): MediaState {
    if s in m.global && m.global[s] < |m.sinks|
    then m.(sinks := m.sinks[m.global[s] := RollIn(m.sinks[m.global[s]], packet, now)]) else m
  }

  /** Clock ticks per second. */
  const SECOND: nat := 1_000_000_000

  function Seconds(d: int): int { d / SECOND }

  /** RtpSink::inactiveFor: the seconds it reports. The old packet count never leaves 0. */
  function Reported(k: SinkData, now: int): int {
    if k.packetCount > 0 then 0 else Seconds(now - k.activityTs)
  }

  /** RtpSink::inactiveFor: what it does to the sink. */
  function Polled(k: SinkData, now: int): SinkData {
    if k.packetCount > 0 then k.(packetCount := 0, activityTs := now, polledAt := now) else k.(polledAt := now)
  }

  function PollSinks(m: MediaState, c: nat, now: int): (r: MediaState)
    requires c < |m.calls|
    ensures r.calls == m.calls && r.global == m.global
  {
    m.(sinks := MapHeld(m, c, (k: SinkData) => Polled(k, now), m.calls[c].local.Keys))
  }

  /** The call's RTP inactivity, the least of its age and what its sinks report, is over the limit. */
  ghost predicate Inactive(m: MediaState, c: nat, age: int, limit: int, now: int)
    requires c < |m.calls|
  {
    && age > limit
    && forall s <- m.calls[c].local ::
      m.calls[c].local[s] < |m.sinks| ==> Reported(m.sinks[m.calls[c].local[s]], now) > limit
  }

  /** The loop of Call::checkRecordingTime. */
  function StopRecording(m: MediaState, c: nat): (r: MediaState)
    requires c < |m.calls|
    ensures |r.calls| == |m.calls|
  {
    MediaState(m.calls[c := m.calls[c].(recording := false)],
               MapHeld(m, c, (k: SinkData) => k.(active := false), m.calls[c].local.Keys),
               m.global)
  }

  /** The decoder takes the packet deque of every sink of the call. */
  function TakeDeques(m: MediaState, c: nat): (r: MediaState)
    requires c < |m.calls|
    ensures r.calls == m.calls && r.global == m.global
  {
    m.(sinks := MapHeld(m, c, (k: SinkData) => k.(packets := None), m.calls[c].local.Keys))
  }

  lemma OfferWf(m: MediaState, c: nat, s: SocketAddress, reinvite: bool, isCaller: bool, now: int)
    requires Wf(m) && c < |m.calls|
    ensures Wf(OfferSocket(m, c, s, reinvite, isCaller, now))
  {
  }

  lemma AddWf(m: MediaState, c: nat, sink: SinkData)
    requires Wf(m) && c < |m.calls| && sink.owner == c
    ensures Wf(AddSink(m, c, sink))
  {
  }

  lemma SettleWf(m: MediaState, c: nat)
    requires Wf(m) && c < |m.calls|
    ensures Wf(ConfirmSinks(m, c)) && Wf(AnnulSinks(m, c))
  {
  }

  lemma UnregisterWf(m: MediaState, c: nat)
    requires Wf(m) && c < |m.calls|
    ensures Wf(Unregister(m, c))
  {
  }

  lemma ReceiveWf(m: MediaState, s: SocketAddress, packet: nat, now: int)
    requires Wf(m)
    ensures Wf(Receive(m, s, packet, now))
  {
  }

  lemma HeldWf(m: MediaState, c: nat, f: SinkData -> SinkData, done: set<SocketAddress>)
    requires Wf(m) && c < |m.calls|
    requires forall k :: f(k).owner == k.owner && f(k).socket == k.socket
    ensures Wf(m.(sinks := MapHeld(m, c, f, done)))
  {
  }

  lemma PollWf(m: MediaState, c: nat, now: int)
    requires Wf(m) && c < |m.calls|
    ensures Wf(PollSinks(m, c, now)) && Wf(StopRecording(m, c)) && Wf(TakeDeques(m, c))
  {
    HeldWf(m, c, (k: SinkData) => Polled(k, now), m.calls[c].local.Keys);
    HeldWf(m, c, (k: SinkData) => k.(packets := None), m.calls[c].local.Keys);
    HeldWf(m, c, (k: SinkData) => k.(active := false), m.calls[c].local.Keys);
  }
}
