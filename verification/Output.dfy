/**
 The output of PCM audio to a file and to a socket (src/output/OutputHandler.cpp). The
 socket gets at most a given number of bytes, whatever its partial writes are.
 */
module Output {
  import opened Containers
  import opened Pcm

  newtype uint32 = x: int | 0 <= x < 0x1_0000_0000

  class WaveFileWriter {
    var written: seq<byte>

    constructor ()
      ensures written == []
    {
      written := [];
    }

    method Write(data: array<byte>, size: nat)
      requires size <= data.Length
      modifies this
      ensures written == old(written) + data[..size]
    {
      written := written + data[..size];
    }
  }

  /** How a call of write_some ends: at most so many bytes are written, or there is an error. */
  datatype WriteResult = WriteResult(count: nat, error: bool)

  /** A socket whose partial writes and errors follow an arbitrary script. */
  class TcpSocket {
    const script: seq<WriteResult>
    var position: nat
    var sent: seq<byte>
    /** Every write so far took all the bytes it was given, without an error. */
    ghost var whole: bool

    constructor (script: seq<WriteResult>)
      ensures this.script == script && position == 0 && sent == [] && whole
    {
      this.script := script;
      position, sent, whole := 0, [], true;
    }

    method WriteSome(data: array<byte>, size: uint32) returns (count: uint32, error: bool)
      requires size as int <= data.Length
      modifies this
      ensures count <= size && sent == old(sent) + data[..count]
      ensures whole == (old(whole) && count == size && !error)
      ensures position == old(position) + 1
      ensures old(position) >= |script| ==> count == size && !error
      ensures old(position) < |script| ==>
        error == script[old(position)].error && count as int == Min(script[old(position)].count, size as int)
    {
      count, error := size, false;
      if position < |script| {
        if script[position].count < size as int {
          count := script[position].count as uint32;
        }
        error := script[position].error;
      }
      sent := sent + data[..count];
      position := position + 1;
      whole := whole && count == size && !error;
    }
  }

  function Min(a: int, b: int): int { if a < b then a else b }

  /** The first bytes of the stream, as many as there are up to a maximum. */
  function FirstBytes(stream: seq<byte>, maxBytes: nat): seq<byte> {
    if |stream| <= maxBytes then stream else stream[..maxBytes]
  }

  lemma {:induction false} PrefixOfStream(ss: seq<seq<byte>>, n: nat)
    requires n <= |ss|
    ensures |Flatten(ss[..n])| <= |Flatten(ss)| && Flatten(ss)[..|Flatten(ss[..n])|] == Flatten(ss[..n])
  {
    FlattenConcat(ss[..n], ss[n..]);
    assert ss == ss[..n] + ss[n..];
  }

  lemma OneMore(ss: seq<seq<byte>>, n: nat)
    requires n < |ss|
    ensures Flatten(ss[..n + 1]) == Flatten(ss[..n]) + ss[n]
  {
    assert ss[..n + 1] == ss[..n] + [ss[n]];
    FlattenAppend(ss[..n], ss[n]);
  }

  /** The chunk that reaches the maximum: all of the stream that may be sent is sent. */
  lemma Reached(ss: seq<seq<byte>>, n: nat, sent: seq<byte>, count: nat, maxBytes: nat)
    requires n < |ss| && sent == Flatten(ss[..n]) && count <= |ss[n]| && |sent| + count == maxBytes
    ensures sent + ss[n][..count] == FirstBytes(Flatten(ss), maxBytes)
  {
    OneMore(ss, n);
    PrefixOfStream(ss, n + 1);
    assert Flatten(ss[..n + 1])[..maxBytes] == sent + ss[n][..count];
    assert Flatten(ss)[..maxBytes] == Flatten(ss)[..|Flatten(ss[..n + 1])|][..maxBytes];
  }

  /** The first counts[i] bytes of each ss[i], as far as there are counts. */
  function Heads(ss: seq<seq<byte>>, counts: seq<nat>): seq<seq<byte>>
    requires AreHeads(ss, counts)
  {
    seq(|counts|, i requires 0 <= i < |counts| => ss[i][..counts[i]])
  }

  predicate AreHeads(ss: seq<seq<byte>>, counts: seq<nat>) {
    |counts| <= |ss| && forall i | 0 <= i < |counts| :: counts[i] <= |ss[i]|
  }

  /** The bytes are taken from the chunks in order, so many from the start of each. */
  predicate Taken(ss: seq<seq<byte>>, counts: seq<nat>, bytes: seq<byte>) {
    AreHeads(ss, counts) && bytes == Flatten(Heads(ss, counts))
  }

  lemma TakenMore(ss: seq<seq<byte>>, counts: seq<nat>, bytes: seq<byte>, count: nat)
    requires Taken(ss, counts, bytes) && |counts| < |ss| && count <= |ss[|counts|]|
    ensures Taken(ss, counts + [count], bytes + ss[|counts|][..count])
  {
    assert Heads(ss, counts + [count]) == Heads(ss, counts) + [ss[|counts|][..count]];
    FlattenAppend(Heads(ss, counts), ss[|counts|][..count]);
  }

  /** before[i] bytes are sent before chunk i. */
  ghost predicate AddsUp(counts: seq<nat>, before: seq<nat>) {
    |before| == |counts| + 1 && before[0] == 0 && forall i | 0 <= i < |counts| :: before[i + 1] == before[i] + counts[i]
  }

  /** What a write takes of `offered` bytes; once the script is at its end, all. */
  function TakenOf(script: seq<WriteResult>, position: nat, offered: nat): nat {
    if position < |script| then Min(script[position].count, offered) else offered
  }

  /** A chunk of this size was written: offered as far as the maximum allows, and taken as the
      script says. */
  predicate IsWritten(size: nat, before: nat, count: nat, script: seq<WriteResult>, position: nat, maxBytes: nat) {
    before <= maxBytes && count == TakenOf(script, position, Min(size, maxBytes - before))
  }

  /** The chunk was not cut, its write had no error, and there is room for more after it. */
  predicate GoesOn(size: nat, before: nat, count: nat, script: seq<WriteResult>, position: nat, maxBytes: nat) {
    before + size <= maxBytes && before + count != maxBytes && (position < |script| ==> !script[position].error)
  }

  /** All chunks were written by the script, and it went on after the first n of them. */
  ghost predicate FollowsScript(ss: seq<seq<byte>>, counts: seq<nat>, before: seq<nat>, script: seq<WriteResult>,
                                position: nat, maxBytes: nat, n: nat)
  {
    && n <= |counts| <= |ss| && AddsUp(counts, before)
    && (forall i | 0 <= i < |counts| :: IsWritten(|ss[i]|, before[i], counts[i], script, position + i, maxBytes))
    && (forall i | 0 <= i < n :: GoesOn(|ss[i]|, before[i], counts[i], script, position + i, maxBytes))
  }

  /** Sending ends with the last chunk, or at the first chunk after which it does not go on. */
  ghost predicate EndsRightly(ss: seq<seq<byte>>, counts: seq<nat>, before: seq<nat>, script: seq<WriteResult>,
                              position: nat, maxBytes: nat)
  {
    || (ss == [] && counts == [])
    || (counts != [] && var n := |counts| - 1;
        && FollowsScript(ss, counts, before, script, position, maxBytes, n)
        && (n == |ss| - 1 || !GoesOn(|ss[n]|, before[n], counts[n], script, position + n, maxBytes)))
  }

  /** What one more chunk adds, if `count` bytes of it were sent. */
  lemma OneMoreSent(ss: seq<seq<byte>>, n: nat, counts: seq<nat>, bytes: seq<byte>, count: nat, maxBytes: nat)
    requires n < |ss| && |counts| == n && Taken(ss, counts, bytes) && count <= |ss[n]|
    ensures Taken(ss, counts + [count], bytes + ss[n][..count])
    ensures bytes == Flatten(ss[..n]) && count == |ss[n]| ==> bytes + ss[n][..count] == Flatten(ss[..n + 1])
    ensures bytes == Flatten(ss[..n]) && |bytes| + count == maxBytes ==>
      bytes + ss[n][..count] == FirstBytes(Flatten(ss), maxBytes)
  {
    TakenMore(ss, counts, bytes, count);
    OneMore(ss, n);
    if bytes == Flatten(ss[..n]) && |bytes| + count == maxBytes {
      Reached(ss, n, bytes, count, maxBytes);
    }
  }

  /** The first n chunks were written, and it goes on. If all writes were full, all is sent. */
  ghost predicate Progress(ss: seq<seq<byte>>, counts: seq<nat>, before: seq<nat>, bytes: seq<byte>,
                           script: seq<WriteResult>, position: nat, maxBytes: nat, n: nat, whole: bool)
  {
    && |counts| == n && Taken(ss, counts, bytes) && FollowsScript(ss, counts, before, script, position, maxBytes, n)
    && before[n] == |bytes| <= maxBytes && (whole ==> bytes == Flatten(ss[..n]))
  }

  /** Sending is over. */
  ghost predicate IsOver(ss: seq<seq<byte>>, counts: seq<nat>, before: seq<nat>, bytes: seq<byte>,
                         script: seq<WriteResult>, position: nat, maxBytes: nat, whole: bool)
  {
    && Taken(ss, counts, bytes) && |bytes| <= maxBytes && EndsRightly(ss, counts, before, script, position, maxBytes)
    && (whole ==> bytes == FirstBytes(Flatten(ss), maxBytes))
  }

  /** One more chunk is written. */
  lemma ProgressStep(ss: seq<seq<byte>>, counts: seq<nat>, before: seq<nat>, bytes: seq<byte>,
                     script: seq<WriteResult>, position: nat, maxBytes: nat, n: nat, whole: bool, count: nat,
                     whole': bool)
    requires Progress(ss, counts, before, bytes, script, position, maxBytes, n, whole) && n < |ss|
    requires IsWritten(|ss[n]|, before[n], count, script, position + n, maxBytes) && count <= |ss[n]|
    requires whole' ==> whole && count == Min(|ss[n]|, maxBytes - before[n])
    requires whole' && position + n < |script| ==> !script[position + n].error
    ensures var counts', before', bytes' := counts + [count], before + [before[n] + count], bytes + ss[n][..count];
      if GoesOn(|ss[n]|, before[n], count, script, position + n, maxBytes)
      then Progress(ss, counts', before', bytes', script, position, maxBytes, n + 1, whole')
      else IsOver(ss, counts', before', bytes', script, position, maxBytes, whole')
  {
    OneMoreSent(ss, n, counts, bytes, count, maxBytes);
  }

  lemma AllWritten(ss: seq<seq<byte>>, counts: seq<nat>, before: seq<nat>, bytes: seq<byte>,
                   script: seq<WriteResult>, position: nat, maxBytes: nat, whole: bool)
    requires Progress(ss, counts, before, bytes, script, position, maxBytes, |ss|, whole)
    ensures IsOver(ss, counts, before, bytes, script, position, maxBytes, whole)
  {
    assert ss[..|ss|] == ss;
  }

  class OutputHandler {
    /** pushToFile: the file gets the bytes of all chunks in order. */
    method PushToFile(chunks: seq<MemChunk>, ghost contents: seq<seq<byte>>) returns (writer: WaveFileWriter)
      requires Hold(chunks, contents)
      ensures fresh(writer) && writer.written == Flatten(contents)
    {
      writer := new WaveFileWriter();
      for n := 0 to |chunks|
        invariant Hold(chunks, contents) && writer.written == Flatten(contents[..n])
      {
        OneMore(contents, n);
        assert chunks[n].Contents() == contents[n];
        writer.Write(chunks[n].data, chunks[n].fillingLevel);
      }
      assert contents[..|chunks|] == contents;
    }

    /** One chunk of the loop, cut at the maximum. */
    method SendChunk(socket: TcpSocket, memChunk: MemChunk, maxBytes: uint32, sentBytes: uint32,
                     ghost content: seq<byte>)
      returns (count: uint32, ec: bool, last: bool)
      requires memChunk.Valid() && memChunk.Contents() == content && sentBytes <= maxBytes
      modifies socket
      ensures count as int <= |content| && count <= maxBytes - sentBytes
      ensures socket.sent == old(socket.sent) + content[..count] && socket.position == old(socket.position) + 1
      ensures count as int ==
        TakenOf(socket.script, old(socket.position), Min(|content|, (maxBytes - sentBytes) as int))
      ensures last == (sentBytes as int + |content| > maxBytes as int)
      ensures ec == (old(socket.position) < |socket.script| && socket.script[old(socket.position)].error)
      ensures socket.whole ==
        (old(socket.whole) && count as int == Min(|content|, (maxBytes - sentBytes) as int) && !ec)
    {
      last := false;
      var bytesToSend: uint32;
      if memChunk.fillingLevel <= (maxBytes - sentBytes) as int {
        bytesToSend := memChunk.fillingLevel as uint32;
      } else {
        bytesToSend := maxBytes - sentBytes;
        last := true;
      }
      count, ec := socket.WriteSome(memChunk.data, bytesToSend);
      assert memChunk.data[..count] == content[..count];
    }

    /** The body of the loop, for chunk n. */
    method SendNext(socket: TcpSocket, memChunk: MemChunk, maxBytes: uint32, sentBytes: uint32, ghost n: nat,
                    ghost contents: seq<seq<byte>>, ghost counts: seq<nat>, ghost before: seq<nat>,
                    ghost bytes: seq<byte>, ghost from: nat)
      returns (sentBytes': uint32, stops: bool, ghost counts': seq<nat>, ghost before': seq<nat>,
               ghost bytes': seq<byte>)
      requires n < |contents| && memChunk.Valid() && memChunk.Contents() == contents[n] && |bytes| == sentBytes as int
      requires Progress(contents, counts, before, bytes, socket.script, from, maxBytes as nat, n, socket.whole)
      requires socket.position == from + n
      modifies socket
      ensures socket.position == from + n + 1 && |bytes'| == sentBytes' as int
      ensures bytes <= bytes' && socket.sent == old(socket.sent) + bytes'[|bytes|..]
      ensures
        if stops
        then IsOver(contents, counts', before', bytes', socket.script, from, maxBytes as nat, socket.whole)
        else Progress(contents, counts', before', bytes', socket.script, from, maxBytes as nat, n + 1, socket.whole)
    {
      ghost var whole := socket.whole;
      var count, ec, last := SendChunk(socket, memChunk, maxBytes, sentBytes, contents[n]);
      ProgressStep(contents, counts, before, bytes, socket.script, from, maxBytes as nat, n, whole, count as nat,
        socket.whole);
      sentBytes' := sentBytes + count;
      counts', before', bytes' := counts + [count as nat], before + [sentBytes' as nat], bytes + contents[n][..count];
      stops := ec || last || maxBytes - sentBytes' == 0;
    }

    /** The chunk loop of pushToSocket. `counts` says how many bytes of each chunk were sent, and
        `before` how many were sent before it. */
    method SendChunks(socket: TcpSocket, chunks: seq<MemChunk>, maxBytes: uint32, ghost contents: seq<seq<byte>>)
      returns (sentBytes: uint32, ghost counts: seq<nat>, ghost before: seq<nat>, ghost bytes: seq<byte>)
      requires Hold(chunks, contents)
      modifies socket
      ensures socket.sent == old(socket.sent) + bytes && |bytes| == sentBytes as int
      ensures IsOver(contents, counts, before, bytes, socket.script, old(socket.position), maxBytes as nat,
                     socket.whole)
    {
      sentBytes, counts, before, bytes := 0, [], [0], [];
      ghost var from := socket.position;
      for n := 0 to |chunks|
        invariant Hold(chunks, contents) && socket.position == from + n && |bytes| == sentBytes as int
        invariant socket.sent == old(socket.sent) + bytes
        invariant Progress(contents, counts, before, bytes, socket.script, from, maxBytes as nat, n, socket.whole)
      {
        ghost var soFar, sent := bytes, socket.sent;
        var stops: bool;
        sentBytes, stops, counts, before, bytes :=
          SendNext(socket, chunks[n], maxBytes, sentBytes, n, contents, counts, before, bytes, from);
        assert sent + bytes[|soFar|..] == old(socket.sent) + bytes;
        if stops {
          return;
        }
      }
      AllWritten(contents, counts, before, bytes, socket.script, from, maxBytes as nat, socket.whole);
    }
  }
}
