/**
 The decoder takes the deques of a call (src/audio/AudioHandler.cpp), on the shared objects:
 this is the action Decode of SystemModel.
 */
module Decoders {
  import opened SipTypes
  import opened SipMachine
  import opened SystemModel
  import opened Objects
  import opened SharedState
  import Media

  class CallDecoder {
    const maps: SharedMaps
    /** How many calls were taken off the decode queue. */
    var popped: nat

    constructor (maps: SharedMaps)
      ensures this.maps == maps && popped == 0
    {
      this.maps := maps;
      popped := 0;
    }

    /** A pass of AudioHandler::worker: the next call of the queue, and what its sinks stored. */
    method DecodeNext(cfg: Config, ghost s: System, ghost r: System)
      returns (call: Call, deques: map<SocketAddress, Recorded>)
      requires maps.Valid() && SystemWf(s) && s.w == maps.World() && s.popped == popped < |maps.decodeQueue|
      requires r == Do(cfg, s, Decode)
      modifies `popped, maps`media, maps.sinkObjs`rtpPacketDeque
      ensures maps.Valid() && maps.World() == r.w && popped == r.popped && call == maps.decodeQueue[old(popped)]
      ensures IsTaken(old(maps.media), call.ref, deques)
    {
      DecodeIs(cfg, s, r);
      call, deques := PopNext();
    }

    lemma DecodeIs(cfg: Config, s: System, r: System)
      requires SystemWf(s) && s.popped < |s.w.decodeQueue| && r == Do(cfg, s, Decode)
      ensures s.w.decodeQueue[s.popped] < |s.w.media.calls| && r.popped == s.popped + 1
      ensures r.w == s.w.(media := Media.TakeDeques(s.w.media, s.w.decodeQueue[s.popped]))
    {
    }

    /** The same, by what it does to the maps. */
    method PopNext() returns (call: Call, deques: map<SocketAddress, Recorded>)
      requires maps.Valid() && popped < |maps.decodeQueue|
      modifies `popped, maps`media, maps.sinkObjs`rtpPacketDeque
      ensures maps.Valid() && popped == old(popped) + 1 && call == maps.decodeQueue[old(popped)]
      ensures call.ref == maps.queue[old(popped)] && IsTaken(old(maps.media), call.ref, deques)
      ensures maps.media == Media.TakeDeques(old(maps.media), call.ref)
    {
      call := maps.decodeQueue[popped];
      assert maps.callObjs[maps.queue[popped]].ref == maps.queue[popped];
      popped := popped + 1;
      deques := TakeValid(call);
    }

    /** The deques are those of the sinks of call c, by socket, with their labels. */
    ghost predicate IsTaken(m: Media.MediaState, c: nat, deques: map<SocketAddress, Recorded>) {
      && c < |m.calls| && deques.Keys == m.calls[c].local.Keys
      && forall s <- deques ::
           && m.calls[c].local[s] < |m.sinks|
           && deques[s] == Recorded(m.sinks[m.calls[c].local[s]].isCaller, m.sinks[m.calls[c].local[s]].packets)
    }

    /** The deques of the call were taken. */
    twostate predicate Took(call: Call, new deques: map<SocketAddress, Recorded>)
      reads maps, maps.callObjs, maps.sinkObjs
    {
      maps.ValidSinks() && IsTaken(old(maps.media), call.ref, deques)
        && maps.media == Media.TakeDeques(old(maps.media), call.ref)
    }

    /** Taking the deques leaves calls, call map and decode queue alone. */
    method TakeValid(call: Call) returns (deques: map<SocketAddress, Recorded>)
      requires maps.Valid() && maps.Knows(call)
      modifies maps`media, maps.sinkObjs`rtpPacketDeque
      ensures Took(call, deques) && maps.ValidCalls() && maps.ValidMaps()
    {
      deques := TakeDeques(call);
    }

    method TakeDeques(call: Call) returns (deques: map<SocketAddress, Recorded>)
      requires maps.ValidSinks() && maps.Knows(call)
      modifies maps`media, maps.sinkObjs`rtpPacketDeque
      ensures Took(call, deques)
    {
      ghost var m := maps.media;
      assert maps.ValidLocal(call, m.calls[call.ref]);
      maps.HeldSinks(call);
      maps.LocalSinks(call);
      deques := call.TakeEach();
      RecordTaken(call, m);
    }

    /** The sinks of the call have no deques now, and all others are as before. */
    ghost method RecordTaken(call: Call, m: Media.MediaState)
      requires maps.Knows(call) && Media.Wf(m) && m == maps.media && call.ref < |m.calls|
      requires |m.sinks| == |maps.sinkObjs|
      requires maps.ValidLocals(m.calls) && maps.ValidGlobals(m.global)
      requires forall r | 0 <= r < |m.sinks| ::
        && maps.sinkObjs[r].ref == r
        && maps.sinkObjs[r].Data() == if Media.Holds(m, call.ref, r) then m.sinks[r].(packets := None) else m.sinks[r]
      modifies maps`media
      ensures maps.ValidSinks() && maps.media == Media.TakeDeques(m, call.ref)
    {
      Media.PollWf(m, call.ref, 0);
      maps.media := Media.TakeDeques(m, call.ref);
    }
  }
}
