/**
 Decoding the RTP packets of a sink to PCM (src/audio/AudioHandler.cpp): G.711 frames are
 packed greedily into memory chunks of a fixed size (src/audio/MemChunk.hpp,
 src/audio/G711Decoder.cpp), and every packet goes back to the pool.
 */
module Pcm {
  import opened SipTypes
  import opened Containers

  type short = x: int | -0x8000 <= x < 0x8000

  /** A stored RTP packet: its handle in the pool and its UDP payload, a header of at least
      12 bytes and the coded audio. */
  datatype RtpPacket = RtpPacket(handle: nat, payload: seq<byte>)

  const HEADER_SIZE := 12
  const IN_BUF_SIZE := 160
  const OUT_BUF_SIZE := 320
  const PT_PCMU := 0
  const PT_GSM := 3
  const PT_PCMA := 8

  // ---- samples and bytes ----

  /** A 16-bit sample in memory, low byte first. */
  function Bytes(s: short): seq<byte> {
    [s % 256, s / 256 % 256]
  }

  function Sample(bs: seq<byte>): short
    requires |bs| == 2
  {
    var u: int := bs[0] as int + 256 * bs[1] as int;
    if u < 0x8000 then u else u - 0x10000
  }

  lemma SampleOfBytes(s: short)
    ensures Sample(Bytes(s)) == s
  {
  }

  /** The decoded frame: a sample for each of the first 160 bytes. */
  function Frame(table: byte -> short, coded: seq<byte>): (f: seq<byte>)
    requires |coded| >= IN_BUF_SIZE
    ensures |f| == OUT_BUF_SIZE
  {
    seq(OUT_BUF_SIZE, i requires 0 <= i < OUT_BUF_SIZE => Bytes(table(coded[i / 2]))[i % 2])
  }

  /** Read back as samples, a frame is the table applied to the coded bytes. */
  lemma FrameSamples(table: byte -> short, coded: seq<byte>, i: nat)
    requires |coded| >= IN_BUF_SIZE && i < IN_BUF_SIZE
    ensures Sample(Frame(table, coded)[2 * i..2 * i + 2]) == table(coded[i])
  {
    var f, s := Frame(table, coded), table(coded[i]);
    assert 2 * i / 2 == i && (2 * i + 1) / 2 == i && 2 * i % 2 == 0 && (2 * i + 1) % 2 == 1;
    assert f[2 * i..2 * i + 2] == Bytes(s);
    SampleOfBytes(s);
  }

  // ---- what is decoded ----

  /** The decoding tables for mu-law and A-law. */
  datatype Tables = Tables(ulaw: byte -> short, alaw: byte -> short)

  function PayloadType(p: RtpPacket): byte
    requires |p.payload| >= HEADER_SIZE
  {
    p.payload[1] % 128
  }

  predicate IsDecoded(p: RtpPacket)
    requires |p.payload| >= HEADER_SIZE
  {
    (PayloadType(p) == PT_PCMU || PayloadType(p) == PT_PCMA) && |p.payload| - HEADER_SIZE >= IN_BUF_SIZE
  }

  predicate HasHeaders(ps: seq<RtpPacket>) {
    forall i | 0 <= i < |ps| :: |ps[i].payload| >= HEADER_SIZE
  }

  function FrameOf(ts: Tables, p: RtpPacket): seq<byte>
    requires |p.payload| >= HEADER_SIZE && IsDecoded(p)
  {
    Frame(if PayloadType(p) == PT_PCMU then ts.ulaw else ts.alaw, p.payload[HEADER_SIZE..])
  }

  /** The frames of the packets that are decoded, in order. */
  function Frames(ts: Tables, ps: seq<RtpPacket>): (fs: seq<seq<byte>>)
    requires HasHeaders(ps)
    ensures forall i | 0 <= i < |fs| :: |fs[i]| == OUT_BUF_SIZE
  {
    if ps == [] then []
    else
      var p := ps[|ps| - 1];
      Frames(ts, ps[..|ps| - 1]) + if IsDecoded(p) then [FrameOf(ts, p)] else []
  }

  /** The packets with audio that can be decoded: payload type 0 (mu-law) or 8 (A-law), and 160
      bytes at least after the 12 of the header. */
  function Voice(ps: seq<RtpPacket>): (vs: seq<RtpPacket>)
    requires HasHeaders(ps)
    ensures forall v <- vs :: |v.payload| >= 172
  {
    if ps == [] then []
    else
      var p := ps[|ps| - 1];
      Voice(ps[..|ps| - 1])
      + if (p.payload[1] % 128 == 0 || p.payload[1] % 128 == 8) && |p.payload| >= 172 then [p] else []
  }

  /** Sample i of the packet's audio, from the table of its payload type. */
  function SampleOf(ts: Tables, p: RtpPacket, i: nat): short
    requires |p.payload| >= 172 && i < 160
  {
    if p.payload[1] % 128 == 0 then ts.ulaw(p.payload[12 + i]) else ts.alaw(p.payload[12 + i])
  }

  /** The frame is the audio of the packet, each sample as two bytes, the low one first. */
  predicate IsFrameOf(ts: Tables, p: RtpPacket, f: seq<byte>)
    requires |p.payload| >= 172
  {
    && |f| == 320
    && forall i | 0 <= i < 160 :: f[2 * i] == SampleOf(ts, p, i) % 256 && f[2 * i + 1] == SampleOf(ts, p, i) / 256 % 256
  }

  /** The stream is the audio of these packets, one frame each, in order, and nothing else. */
  predicate IsAudioOf(ts: Tables, vs: seq<RtpPacket>, stream: seq<byte>)
    requires forall v <- vs :: |v.payload| >= 172
  {
    && |stream| == 320 * |vs|
    && forall j | 0 <= j < |vs| :: IsFrameOf(ts, vs[j], stream[320 * j..320 * j + 320])
  }

  /** The frame of a packet is its audio, and a packet without a frame has none. */
  lemma FrameIsVoice(ts: Tables, p: RtpPacket)
    requires |p.payload| >= HEADER_SIZE
    ensures IsDecoded(p) <==> (p.payload[1] % 128 == 0 || p.payload[1] % 128 == 8) && |p.payload| >= 172
    ensures IsDecoded(p) ==> IsFrameOf(ts, p, FrameOf(ts, p))
  {
    if IsDecoded(p) {
      var f := FrameOf(ts, p);
      forall i | 0 <= i < 160
        ensures f[2 * i] == SampleOf(ts, p, i) % 256 && f[2 * i + 1] == SampleOf(ts, p, i) / 256 % 256
      {
        assert 2 * i / 2 == i && (2 * i + 1) / 2 == i && 2 * i % 2 == 0 && (2 * i + 1) % 2 == 1;
        assert p.payload[HEADER_SIZE..][i] == p.payload[12 + i];
      }
    }
  }

  /** The frames are the audio of the packets that have any. */
  lemma {:induction false} FramesAreVoice(ts: Tables, ps: seq<RtpPacket>)
    requires HasHeaders(ps)
    ensures |Frames(ts, ps)| == |Voice(ps)|
    ensures forall j | 0 <= j < |Voice(ps)| :: IsFrameOf(ts, Voice(ps)[j], Frames(ts, ps)[j])
    decreases |ps|
  {
    if ps != [] {
      FramesAreVoice(ts, ps[..|ps| - 1]);
      FrameIsVoice(ts, ps[|ps| - 1]);
    }
  }

  function Flatten(ss: seq<seq<byte>>): seq<byte> {
    if ss == [] then [] else Flatten(ss[..|ss| - 1]) + ss[|ss| - 1]
  }

  lemma FlattenAppend(ss: seq<seq<byte>>, s: seq<byte>)
    ensures Flatten(ss + [s]) == Flatten(ss) + s
  {
    assert (ss + [s])[..|ss|] == ss;
  }

  lemma {:induction false} FlattenConcat(ss: seq<seq<byte>>, ts: seq<seq<byte>>)
    ensures Flatten(ss + ts) == Flatten(ss) + Flatten(ts)
    decreases |ts|
  {
    if ts == [] {
      assert ss + ts == ss;
    } else {
      var n := |ts| - 1;
      FlattenConcat(ss, ts[..n]);
      assert ss + ts == (ss + ts[..n]) + [ts[n]];
      FlattenAppend(ss + ts[..n], ts[n]);
      assert Flatten(ss) + Flatten(ts[..n]) + ts[n] == Flatten(ss) + (Flatten(ts[..n]) + ts[n]);
    }
  }

  lemma {:induction false} FlattenLength(fs: seq<seq<byte>>)
    requires forall i | 0 <= i < |fs| :: |fs[i]| == OUT_BUF_SIZE
    ensures |Flatten(fs)| == OUT_BUF_SIZE * |fs|
    decreases |fs|
  {
    if fs != [] {
      FlattenLength(fs[..|fs| - 1]);
    }
  }

  /** In the stream of frames, frame j starts at byte OUT_BUF_SIZE * j. */
  lemma {:induction false} FrameInStream(fs: seq<seq<byte>>, j: nat)
    requires j < |fs| && forall i | 0 <= i < |fs| :: |fs[i]| == OUT_BUF_SIZE
    ensures OUT_BUF_SIZE * j + OUT_BUF_SIZE <= |Flatten(fs)|
    ensures Flatten(fs)[OUT_BUF_SIZE * j..OUT_BUF_SIZE * j + OUT_BUF_SIZE] == fs[j]
    decreases |fs|
  {
    var n := |fs| - 1;
    FlattenLength(fs[..n]);
    if j < n {
      FrameInStream(fs[..n], j);
    }
  }

  /** So is the stream of frames. */
  lemma StreamIsAudio(ts: Tables, ps: seq<RtpPacket>)
    requires HasHeaders(ps)
    ensures IsAudioOf(ts, Voice(ps), Flatten(Frames(ts, ps))) && (Frames(ts, ps) == [] <==> Voice(ps) == [])
  {
    var fs := Frames(ts, ps);
    FramesAreVoice(ts, ps);
    FlattenLength(fs);
    forall j | 0 <= j < |fs| ensures Flatten(fs)[320 * j..320 * j + 320] == fs[j] {
      FrameInStream(fs, j);
    }
  }

  // ---- greedy packing ----

  /** The number of frames in i chunks of k frames. */
  function Start(k: nat, i: nat): nat {
    if i == 0 then 0 else Start(k, i - 1) + k
  }

  lemma {:induction false} StartIsProduct(k: nat, i: nat)
    ensures Start(k, i) == i * k
  {
    if i > 0 {
      StartIsProduct(k, i - 1);
      assert i * k == (i - 1) * k + k;
    }
  }

  /** c holds the k frames that come after i chunks. */
  predicate IsChunk(fs: seq<seq<byte>>, k: nat, i: nat, c: seq<byte>) {
    var start := Start(k, i);
    start + k <= |fs| && c == Flatten(fs[start..start + k])
  }

  /** `full` are chunks of k frames each and `open` is the last, of at most k frames. */
  ghost predicate Packed(fs: seq<seq<byte>>, k: nat, full: seq<seq<byte>>, open: seq<byte>) {
    var start := Start(k, |full|);
    && start <= |fs| <= start + k
    && AreChunks(fs, k, full)
    && open == Flatten(fs[start..])
    && (full != [] ==> |fs| > start)
  }

  lemma IsChunkStays(fs: seq<seq<byte>>, k: nat, i: nat, c: seq<byte>, f: seq<byte>)
    requires IsChunk(fs, k, i, c)
    ensures IsChunk(fs + [f], k, i, c)
  {
    var start := Start(k, i);
    assert (fs + [f])[start..start + k] == fs[start..start + k];
  }

  predicate AreChunks(fs: seq<seq<byte>>, k: nat, full: seq<seq<byte>>) {
    forall i | 0 <= i < |full| :: IsChunk(fs, k, i, full[i])
  }

  lemma ChunksStay(fs: seq<seq<byte>>, k: nat, full: seq<seq<byte>>, f: seq<byte>)
    requires AreChunks(fs, k, full)
    ensures AreChunks(fs + [f], k, full)
  {
    forall i | 0 <= i < |full| ensures IsChunk(fs + [f], k, i, full[i]) {
      IsChunkStays(fs, k, i, full[i], f);
    }
  }

  /** A frame that fits goes to the open chunk. */
  lemma PackedGrows(fs: seq<seq<byte>>, k: nat, full: seq<seq<byte>>, open: seq<byte>, f: seq<byte>)
    requires Packed(fs, k, full, open) && |fs| < Start(k, |full|) + k
    ensures Packed(fs + [f], k, full, open + f)
  {
    var start := Start(k, |full|);
    ChunksStay(fs, k, full, f);
    assert (fs + [f])[start..] == fs[start..] + [f];
    FlattenAppend(fs[start..], f);
  }

  lemma OneFrame(f: seq<byte>)
    ensures Flatten([f]) == f
  {
    assert [f][..0] == [];
    assert [] + f == f;
  }

  lemma LastChunk(fs: seq<seq<byte>>, k: nat, full: seq<seq<byte>>, open: seq<byte>)
    requires AreChunks(fs, k, full) && Start(k, |full|) + k == |fs| && open == Flatten(fs[Start(k, |full|)..])
    ensures AreChunks(fs, k, full + [open])
  {
    var n, start := |full|, Start(k, |full|);
    assert fs[start..start + k] == fs[start..];
    assert IsChunk(fs, k, n, open);
    forall i | 0 <= i < n + 1 ensures IsChunk(fs, k, i, (full + [open])[i]) {
      if i < n { assert IsChunk(fs, k, i, full[i]); }
    }
  }

  /** A frame that does not fit closes the open chunk, which holds k frames then. */
  lemma PackedCloses(fs: seq<seq<byte>>, k: nat, full: seq<seq<byte>>, open: seq<byte>, f: seq<byte>)
    requires Packed(fs, k, full, open) && |fs| == Start(k, |full|) + k && k > 0
    ensures Packed(fs + [f], k, full + [open], f)
  {
    var full' := full + [open];
    LastChunk(fs, k, full, open);
    ChunksStay(fs, k, full', f);
    assert Start(k, |full'|) == |fs|;
    assert (fs + [f])[|fs|..] == [f];
    OneFrame(f);
  }

  /** Full chunks together are the frames they hold, in order. */
  lemma {:induction false} FullIsPrefix(fs: seq<seq<byte>>, k: nat, full: seq<seq<byte>>)
    requires AreChunks(fs, k, full)
    ensures Start(k, |full|) <= |fs| && Flatten(full) == Flatten(fs[..Start(k, |full|)])
    decreases |full|
  {
    if full == [] {
      assert fs[..0] == [];
    } else {
      var n := |full| - 1;
      var start := Start(k, n);
      FullIsPrefix(fs, k, full[..n]);
      assert IsChunk(fs, k, n, full[n]);
      assert fs[..start + k] == fs[..start] + fs[start..start + k];
      FlattenConcat(fs[..start], fs[start..start + k]);
    }
  }

  /** The chunks: all full ones, and the open one if it is not empty. */
  function Chunks(full: seq<seq<byte>>, open: seq<byte>): seq<seq<byte>> {
    if |open| > 0 then full + [open] else full
  }

  /** The chunks together are the frames in order; with n frames and room for k in a chunk,
      every chunk but the last holds exactly k, and there are n / k chunks, rounded up. */
  predicate ExactlyPacked(fs: seq<seq<byte>>, chunkSize: nat, chunks: seq<seq<byte>>) {
    && Flatten(chunks) == Flatten(fs)
    && (chunkSize >= OUT_BUF_SIZE ==>
          var k := chunkSize / OUT_BUF_SIZE;
          && (forall i | 0 <= i < |chunks| - 1 :: |chunks[i]| == OUT_BUF_SIZE * k)
          && |chunks| == (|fs| + k - 1) / k)
  }

  lemma ChunksAreFrames(fs: seq<seq<byte>>, k: nat, full: seq<seq<byte>>, open: seq<byte>)
    requires Packed(fs, k, full, open)
    ensures Flatten(Chunks(full, open)) == Flatten(fs)
  {
    var start := Start(k, |full|);
    FullIsPrefix(fs, k, full);
    assert fs == fs[..start] + fs[start..];
    FlattenConcat(fs[..start], fs[start..]);
    FlattenAppend(full, open);
  }

  lemma ChunkLength(fs: seq<seq<byte>>, k: nat, i: nat, c: seq<byte>)
    requires IsChunk(fs, k, i, c) && forall j | 0 <= j < |fs| :: |fs[j]| == OUT_BUF_SIZE
    ensures |c| == OUT_BUF_SIZE * k
  {
    FlattenLength(fs[Start(k, i)..Start(k, i) + k]);
  }

  /** Of the frames, with k to a chunk: the chunks together are the frames in order, every
      chunk but the last holds exactly k frames, and the number of chunks is the number of
      frames divided by k and rounded up. */
  lemma PackingIsExact(fs: seq<seq<byte>>, k: nat, full: seq<seq<byte>>, open: seq<byte>)
    requires Packed(fs, k, full, open) && k > 0
    requires forall i | 0 <= i < |fs| :: |fs[i]| == OUT_BUF_SIZE
    ensures var chunks := Chunks(full, open);
      && Flatten(chunks) == Flatten(fs)
      && (forall i | 0 <= i < |chunks| - 1 :: |chunks[i]| == OUT_BUF_SIZE * k)
      && |chunks| == (|fs| + k - 1) / k
  {
    ChunksAreFrames(fs, k, full, open);
    forall i | 0 <= i < |full| ensures |full[i]| == OUT_BUF_SIZE * k {
      ChunkLength(fs, k, i, full[i]);
    }
    FlattenLength(fs[Start(k, |full|)..]);
    StartIsProduct(k, |full|);
    if |open| > 0 {
      Ceiling(|fs|, k, |full|);
    } else if full == [] {
      Zero(k);
    }
  }

  /** The chunks at the end of the loop. */
  lemma EndIsExact(fs: seq<seq<byte>>, chunkSize: nat, full: seq<seq<byte>>, open: seq<byte>)
    requires Packed(fs, chunkSize / OUT_BUF_SIZE, full, open) && forall i | 0 <= i < |fs| :: |fs[i]| == OUT_BUF_SIZE
    ensures ExactlyPacked(fs, chunkSize, Chunks(full, open))
  {
    ChunksAreFrames(fs, chunkSize / OUT_BUF_SIZE, full, open);
    if chunkSize >= OUT_BUF_SIZE {
      PackingIsExact(fs, chunkSize / OUT_BUF_SIZE, full, open);
    }
  }

  lemma Zero(k: nat)
    requires k > 0
    ensures (0 + k - 1) / k == 0
  {
  }

  lemma ProductsGrow(a: nat, b: nat, k: nat)
    requires a <= b
    ensures a * k <= b * k
  {
  }

  lemma Ceiling(m: nat, k: nat, n: nat)
    requires k > 0 && n * k < m <= n * k + k
    ensures (m + k - 1) / k == n + 1
  {
    var q := (m + k - 1) / k;
    assert q * k <= m + k - 1 < q * k + k;
    if q <= n {
      ProductsGrow(q, n, k);
    } else {
      ProductsGrow(n + 1, q, k);
      if q > n + 1 {
        ProductsGrow(n + 2, q, k);
      }
    }
  }

  // ---- the objects ----

  class MemChunk {
    const size: nat
    const data: array<byte>
    var currDataPointer: nat
    var fillingLevel: nat

    ghost predicate Valid()
      reads this
    {
      data.Length == size && currDataPointer == fillingLevel <= size
    }

    ghost function Contents(): seq<byte>
      requires Valid()
      reads this, data
    {
      data[..fillingLevel]
    }

    constructor (size: nat)
      ensures Valid() && this.size == size && fillingLevel == 0 && fresh(data)
    {
      this.size := size;
      data := new byte[size];
      currDataPointer, fillingLevel := 0, 0;
    }

    /** Declares `amount` bytes as stored, if there is space, and says where they go. */
    method Declare(amount: nat) returns (ok: bool, buffer: nat)
      requires Valid()
      modifies this
      ensures Valid() && ok == (old(fillingLevel) + amount <= size)
      ensures ok ==> buffer == old(fillingLevel) && fillingLevel == old(fillingLevel) + amount
      ensures !ok ==> fillingLevel == old(fillingLevel)
    {
      buffer := 0;
      if fillingLevel + amount > size {
        return false, buffer;
      }
      buffer := currDataPointer;
      fillingLevel := fillingLevel + amount;
      currDataPointer := currDataPointer + amount;
      ok := true;
    }
  }

  class G711Decoder {
    const decodeTab: byte -> short
    const inBufSize := IN_BUF_SIZE

    constructor (decodeTab: byte -> short)
      ensures this.decodeTab == decodeTab
    {
      this.decodeTab := decodeTab;
    }

    /** Writes the samples of the first inBufSize bytes as 16-bit numbers from `at` on. */
    method Decode(inBuf: seq<byte>, outBuf: array<byte>, at: nat)
      requires |inBuf| >= IN_BUF_SIZE && at + OUT_BUF_SIZE <= outBuf.Length
      modifies outBuf
      ensures outBuf[at..at + OUT_BUF_SIZE] == Frame(decodeTab, inBuf)
      ensures outBuf[..at] == old(outBuf[..at]) && outBuf[at + OUT_BUF_SIZE..] == old(outBuf[at + OUT_BUF_SIZE..])
    {
      for i := 0 to IN_BUF_SIZE
        invariant forall j | 0 <= j < 2 * i :: outBuf[at + j] == Bytes(decodeTab(inBuf[j / 2]))[j % 2]
        invariant outBuf[..at] == old(outBuf[..at])
        invariant outBuf[at + OUT_BUF_SIZE..] == old(outBuf[at + OUT_BUF_SIZE..])
      {
        var bs := Bytes(decodeTab(inBuf[i]));
        outBuf[at + 2 * i], outBuf[at + 2 * i + 1] := bs[0], bs[1];
        assert 2 * i / 2 == i && (2 * i + 1) / 2 == i && 2 * i % 2 == 0 && (2 * i + 1) % 2 == 1;
      }
    }
  }

  /** The chunks hold these bytes. */
  ghost predicate Hold(chunks: seq<MemChunk>, contents: seq<seq<byte>>)
    reads chunks, set c | c in chunks :: c.data
  {
    |contents| == |chunks| && forall i | 0 <= i < |chunks| :: chunks[i].Valid() && chunks[i].Contents() == contents[i]
  }

  function Handles(ps: seq<RtpPacket>): seq<nat> {
    if ps == [] then [] else Handles(ps[..|ps| - 1]) + [ps[|ps| - 1].handle]
  }

  class AudioHandler {
    const memChunkSize: nat
    const ulaw: G711Decoder
    const alaw: G711Decoder
    const recycler: TlayerPacketRecycler

    constructor (memChunkSize: nat, ts: Tables, recycler: TlayerPacketRecycler)
      ensures this.memChunkSize == memChunkSize && this.recycler == recycler && DecoderTables() == ts
    {
      this.memChunkSize := memChunkSize;
      this.recycler := recycler;
      ulaw := new G711Decoder(ts.ulaw);
      alaw := new G711Decoder(ts.alaw);
    }

    function DecoderTables(): Tables {
      Tables(ulaw.decodeTab, alaw.decodeTab)
    }

    /** The chunks filled so far are valid and share nothing with the current one. */
    ghost predicate Separate(chunks: seq<MemChunk>, memChunk: MemChunk)
      reads chunks, memChunk
    {
      && memChunk.Valid() && memChunk.size == memChunkSize
      && forall i | 0 <= i < |chunks| :: chunks[i].Valid() && chunks[i] != memChunk && chunks[i].data != memChunk.data
    }

    /** The chunks before the current one hold `full`, and it holds `open`: these are the
        frames so far, packed. */
    ghost predicate Filled(chunks: seq<MemChunk>, memChunk: MemChunk, fs: seq<seq<byte>>, full: seq<seq<byte>>,
                           open: seq<byte>)
      reads chunks, (set c | c in chunks :: c.data), memChunk, memChunk.data
    {
      && Separate(chunks, memChunk) && Hold(chunks, full) && memChunk.Contents() == open
      && Packed(fs, memChunkSize / OUT_BUF_SIZE, full, open)
        && memChunk.fillingLevel == OUT_BUF_SIZE * (|fs| - Start(memChunkSize / OUT_BUF_SIZE, |full|))
    }

    /** `at` bytes of the current chunk are written, and then there is room for a frame. */
    ghost predicate HasRoom(chunks: seq<MemChunk>, memChunk: MemChunk, at: nat, full: seq<seq<byte>>,
                            written: seq<byte>)
      reads chunks, (set c | c in chunks :: c.data), memChunk, memChunk.data
    {
      && Separate(chunks, memChunk) && Hold(chunks, full)
      && at + OUT_BUF_SIZE == memChunk.fillingLevel && memChunk.data[..at] == written
    }

    /** The frames with one more are packed. */
    ghost predicate PackedWith(fs: seq<seq<byte>>, f: seq<byte>, full: seq<seq<byte>>, open: seq<byte>) {
      && Packed(fs + [f], memChunkSize / OUT_BUF_SIZE, full, open)
      && |open| == OUT_BUF_SIZE * (|fs| + 1 - Start(memChunkSize / OUT_BUF_SIZE, |full|))
    }

    /** Finds room for the frame f, in the current chunk or a new one. If not even a new chunk
        has room the program exits. */
    method FindRoom(chunks: seq<MemChunk>, memChunk: MemChunk, ghost f: seq<byte>, ghost fs: seq<seq<byte>>,
                    ghost full: seq<seq<byte>>, ghost open: seq<byte>)
      returns (exits: bool, chunks': seq<MemChunk>, memChunk': MemChunk, buffer: nat, ghost full': seq<seq<byte>>,
        ghost written: seq<byte>)
      requires |f| == OUT_BUF_SIZE && Filled(chunks, memChunk, fs, full, open)
      modifies memChunk
      ensures exits == (memChunkSize < OUT_BUF_SIZE)
      ensures !exits ==> HasRoom(chunks', memChunk', buffer, full', written) && PackedWith(fs, f, full', written + f)
      ensures !exits ==> (memChunk' == memChunk || (fresh(memChunk') && fresh(memChunk'.data)))
    {
      exits, chunks', memChunk', full', written := false, chunks, memChunk, full, open;
      Room(memChunkSize, |fs| - Start(memChunkSize / OUT_BUF_SIZE, |full|));
      var ok;
      ok, buffer := memChunk.Declare(OUT_BUF_SIZE);
      if ok {
        PackedGrows(fs, memChunkSize / OUT_BUF_SIZE, full, open, f);
      } else {
        chunks', full', written := chunks + [memChunk], full + [open], [];
        exits, memChunk', buffer := NextChunk(chunks');
        assert written + f == f;
        if !exits {
          PackedCloses(fs, memChunkSize / OUT_BUF_SIZE, full, open, f);
        }
      }
    }

    /** A new chunk with its first room, unless it is too small. */
    method NextChunk(chunks: seq<MemChunk>) returns (exits: bool, memChunk: MemChunk, buffer: nat)
      requires forall i | 0 <= i < |chunks| :: chunks[i].Valid()
      ensures exits == (memChunkSize < OUT_BUF_SIZE) && fresh(memChunk) && fresh(memChunk.data)
      ensures !exits ==> Separate(chunks, memChunk) && buffer == 0 && memChunk.fillingLevel == OUT_BUF_SIZE
    {
      memChunk := new MemChunk(memChunkSize);
      var ok;
      ok, buffer := memChunk.Declare(OUT_BUF_SIZE);
      exits := !ok;
    }

    /** Decodes one frame into the chunks. */
    method Store(decoder: G711Decoder, coded: seq<byte>, chunks: seq<MemChunk>, memChunk: MemChunk,
                 ghost fs: seq<seq<byte>>, ghost full: seq<seq<byte>>, ghost open: seq<byte>)
      returns (exits: bool, chunks': seq<MemChunk>, memChunk': MemChunk, ghost full': seq<seq<byte>>,
        ghost open': seq<byte>)
      requires |coded| >= IN_BUF_SIZE && Filled(chunks, memChunk, fs, full, open)
      modifies memChunk, memChunk.data
      ensures exits == (memChunkSize < OUT_BUF_SIZE)
      ensures !exits ==> Filled(chunks', memChunk', fs + [Frame(decoder.decodeTab, coded)], full', open')
      ensures !exits ==> (memChunk' == memChunk || (fresh(memChunk') && fresh(memChunk'.data)))
    {
      ghost var f := Frame(decoder.decodeTab, coded);
      var buffer;
      exits, chunks', memChunk', buffer, full', open' := FindRoom(chunks, memChunk, f, fs, full, open);
      if exits {
        return;
      }
      DecodeInto(decoder, coded, chunks', memChunk', buffer, full', open');
      open' := open' + f;
    }

    /** Decodes into the room that was found. */
    method DecodeInto(decoder: G711Decoder, coded: seq<byte>, chunks: seq<MemChunk>, memChunk: MemChunk, buffer: nat,
                      ghost full: seq<seq<byte>>, ghost written: seq<byte>)
      requires |coded| >= IN_BUF_SIZE && HasRoom(chunks, memChunk, buffer, full, written)
      modifies memChunk.data
      ensures Separate(chunks, memChunk) && Hold(chunks, full)
      ensures memChunk.Contents() == written + Frame(decoder.decodeTab, coded)
    {
      decoder.Decode(coded, memChunk.data, buffer);
      assert memChunk.Contents() == memChunk.data[..buffer] + memChunk.data[buffer..buffer + OUT_BUF_SIZE];
    }

    /** The decoding part of the loop body. The frames of the packets up to this one are packed,
        or the program exits. */
    method DecodePacket(p: RtpPacket, chunks: seq<MemChunk>, memChunk: MemChunk, ghost fs: seq<seq<byte>>,
                        ghost full: seq<seq<byte>>, ghost open: seq<byte>)
      returns (decoded: bool, exits: bool, chunks': seq<MemChunk>, memChunk': MemChunk, ghost full': seq<seq<byte>>,
        ghost open': seq<byte>)
      requires |p.payload| >= HEADER_SIZE && Filled(chunks, memChunk, fs, full, open)
      modifies memChunk, memChunk.data
      ensures decoded == IsDecoded(p) && exits == (decoded && memChunkSize < OUT_BUF_SIZE)
      ensures !exits ==>
        Filled(chunks', memChunk', fs + (if IsDecoded(p) then [FrameOf(DecoderTables(), p)] else []), full', open')
      ensures !exits ==> (memChunk' == memChunk || (fresh(memChunk') && fresh(memChunk'.data)))
    {
      decoded, exits, chunks', memChunk', full', open' := false, false, chunks, memChunk, full, open;
      assert fs + [] == fs;
      var rtpPayloadType := p.payload[1] % 128;
      if rtpPayloadType == PT_GSM {
        return;
      }
      if rtpPayloadType != PT_PCMU && rtpPayloadType != PT_PCMA && rtpPayloadType != PT_GSM {
        return;
      }
      var audioDecoder := if rtpPayloadType == PT_PCMU then ulaw else alaw;
      if audioDecoder.inBufSize > |p.payload| - HEADER_SIZE {
        return;
      }
      decoded := true;
      exits, chunks', memChunk', full',
        open' := Store(audioDecoder, p.payload[HEADER_SIZE..], chunks, memChunk, fs, full, open);
    }

    /** decodeRtpPacketDeque. Every packet goes back to the pool, in order; the chunks hold the
        audio of the packets that have any, packed. With chunks too small for a frame the
        program exits at the first packet that is decoded. */
    method DecodeRtpPacketDeque(deque: seq<RtpPacket>) returns (exits: bool, chunkDeque: seq<MemChunk>,
                                ghost contents: seq<seq<byte>>)
      requires HasHeaders(deque) && recycler.pool.Valid()
      modifies recycler.pool
      ensures recycler.pool.Valid()
      ensures exits == (memChunkSize < 320 && Voice(deque) != [])
      ensures !exits ==> recycler.pool.queue == old(recycler.pool.queue) + Handles(deque)
      ensures !exits ==>
        && Hold(chunkDeque, contents) && IsAudioOf(DecoderTables(), Voice(deque), Flatten(contents))
        && ExactlyPacked(Frames(DecoderTables(), deque), memChunkSize, contents)
    {
      var tlayerPacket: Option<nat> := None;
      var memChunk := new MemChunk(memChunkSize);
      exits, chunkDeque, contents := false, [], [];
      ghost var full: seq<seq<byte>>, open: seq<byte> := [], [];
      for n := 0 to |deque|
        invariant recycler.pool.Valid() && fresh(memChunk) && fresh(memChunk.data)
        invariant AtPacket(deque, n, chunkDeque, memChunk, full, open)
        invariant recycler.pool.queue + Held(tlayerPacket) == old(recycler.pool.queue) + Handles(deque[..n])
      {
        exits, tlayerPacket, chunkDeque, memChunk, full,
          open := DecodeNth(deque, n, tlayerPacket, chunkDeque, memChunk, full, open);
        if exits {
          StreamIsAudio(DecoderTables(), deque);
          return;
        }
      }
      assert deque[..|deque|] == deque;
      chunkDeque, contents := LastChunkToo(chunkDeque, memChunk, Frames(DecoderTables(), deque), full, open);
      StreamIsAudio(DecoderTables(), deque);
      recycler.Recycle(tlayerPacket);
    }

    /** The frames of the first n packets are packed into the chunks. */
    ghost predicate AtPacket(deque: seq<RtpPacket>, n: nat, chunks: seq<MemChunk>, memChunk: MemChunk,
                             full: seq<seq<byte>>, open: seq<byte>)
      requires HasHeaders(deque) && n <= |deque|
      reads chunks, (set c | c in chunks :: c.data), memChunk, memChunk.data
    {
      var fs := Frames(DecoderTables(), deque[..n]);
      Filled(chunks, memChunk, fs, full, open) && (memChunkSize < OUT_BUF_SIZE ==> fs == [])
    }

    /** The loop body for the n-th packet. */
    method DecodeNth(deque: seq<RtpPacket>, n: nat, hand: Option<nat>, chunks: seq<MemChunk>, memChunk: MemChunk,
                     ghost full: seq<seq<byte>>, ghost open: seq<byte>)
      returns (exits: bool, hand': Option<nat>, chunks': seq<MemChunk>, memChunk': MemChunk,
        ghost full': seq<seq<byte>>, ghost open': seq<byte>)
      requires HasHeaders(deque) && n < |deque| && AtPacket(deque, n, chunks, memChunk, full, open)
      requires recycler.pool.Valid()
      modifies recycler.pool, memChunk, memChunk.data
      ensures recycler.pool.Valid()
      ensures exits ==> memChunkSize < OUT_BUF_SIZE && Frames(DecoderTables(), deque) != []
      ensures !exits ==> recycler.pool.queue + Held(hand') == old(recycler.pool.queue) + Held(hand) + [deque[n].handle]
      ensures Handles(deque[..n + 1]) == Handles(deque[..n]) + [deque[n].handle]
      ensures !exits ==> AtPacket(deque, n + 1, chunks', memChunk', full', open')
      ensures !exits ==> (memChunk' == memChunk || (fresh(memChunk') && fresh(memChunk'.data)))
    {
      ghost var fs := Frames(DecoderTables(), deque[..n]);
      NextPacket(DecoderTables(), deque, n);
      exits, hand', chunks', memChunk', full', open' := DecodeNext(deque[n], hand, chunks, memChunk, fs, full, open);
    }

    /** The loop body: the packet is moved into the hand, decoded, and returned. A packet that
        is skipped stays in the hand. */
    method DecodeNext(p: RtpPacket, hand: Option<nat>, chunks: seq<MemChunk>, memChunk: MemChunk,
                      ghost fs: seq<seq<byte>>, ghost full: seq<seq<byte>>, ghost open: seq<byte>)
      returns (exits: bool, hand': Option<nat>, chunks': seq<MemChunk>, memChunk': MemChunk,
        ghost full': seq<seq<byte>>, ghost open': seq<byte>)
      requires |p.payload| >= HEADER_SIZE && Filled(chunks, memChunk, fs, full, open) && recycler.pool.Valid()
      modifies recycler.pool, memChunk, memChunk.data
      ensures recycler.pool.Valid() && exits == (IsDecoded(p) && memChunkSize < OUT_BUF_SIZE)
      ensures !exits ==> recycler.pool.queue + Held(hand') == old(recycler.pool.queue) + Held(hand) + [p.handle]
      ensures !exits ==>
        Filled(chunks', memChunk', fs + (if IsDecoded(p) then [FrameOf(DecoderTables(), p)] else []), full', open')
      ensures !exits ==> (memChunk' == memChunk || (fresh(memChunk') && fresh(memChunk'.data)))
    {
      ghost var returned := recycler.pool.queue + Held(hand);
      recycler.Recycle(hand);
      hand' := Some(p.handle);
      var decoded;
      decoded, exits, chunks', memChunk', full', open' := DecodePacket(p, chunks, memChunk, fs, full, open);
      if decoded && !exits {
        recycler.Recycle(hand');
        hand' := None;
      }
      assert !exits ==> recycler.pool.queue + Held(hand') == returned + [p.handle];
    }

    /** The end of decodeRtpPacketDeque: the last chunk, if it is not empty. */
    method LastChunkToo(chunks: seq<MemChunk>, memChunk: MemChunk, ghost fs: seq<seq<byte>>, ghost full: seq<seq<byte>>,
                        ghost open: seq<byte>)
      returns (chunkDeque: seq<MemChunk>, ghost contents: seq<seq<byte>>)
      requires Filled(chunks, memChunk, fs, full, open) && forall i | 0 <= i < |fs| :: |fs[i]| == OUT_BUF_SIZE
      ensures Hold(chunkDeque, contents) && ExactlyPacked(fs, memChunkSize, contents)
    {
      chunkDeque := chunks;
      if memChunk.fillingLevel > 0 {
        chunkDeque := chunkDeque + [memChunk];
      }
      contents := Chunks(full, open);
      EndIsExact(fs, memChunkSize, full, open);
    }
  }

  /** After `count` frames a chunk has room for another one as long as they are not all it holds. */
  lemma Room(size: nat, count: nat)
    ensures OUT_BUF_SIZE * count + OUT_BUF_SIZE <= size <==> count < size / OUT_BUF_SIZE
  {
  }

  lemma NextPacket(ts: Tables, ps: seq<RtpPacket>, n: nat)
    requires HasHeaders(ps) && n < |ps|
    ensures Frames(ts, ps[..n + 1]) == Frames(ts, ps[..n]) + (if IsDecoded(ps[n]) then [FrameOf(ts, ps[n])] else [])
    ensures Handles(ps[..n + 1]) == Handles(ps[..n]) + [ps[n].handle]
    ensures |Frames(ts, ps[..n + 1])| <= |Frames(ts, ps)|
  {
    assert ps[..n + 1][..n] == ps[..n];
    FramesGrow(ts, ps, n + 1);
  }

  /** Frames of a prefix are frames of the whole. */
  lemma {:induction false} FramesGrow(ts: Tables, ps: seq<RtpPacket>, n: nat)
    requires HasHeaders(ps) && n <= |ps|
    ensures |Frames(ts, ps[..n])| <= |Frames(ts, ps)|
    decreases |ps|
  {
    if n < |ps| {
      assert ps[..|ps| - 1][..n] == ps[..n];
      FramesGrow(ts, ps[..|ps| - 1], n);
    } else {
      assert ps[..n] == ps;
    }
  }
}
