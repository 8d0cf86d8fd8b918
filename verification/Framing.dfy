/** Byte streams over the data channel: cutting into chunks, and strings sent as chunks
    closed by a delimiter. */
module Framing {
  import opened Common

  const CHUNK_SIZE: nat := 16 * 1024

  type Bytes = seq<Byte>

  /** One data channel message: a text message or a binary one. */
  datatype Frame = Text(body: Bytes) | Binary(data: Bytes)

  /** The text message "0". */
  const DELIMITER: Frame := Text([48])

  predicate IsDelimiter(f: Frame) {
    f.Text? && |f.body| <= 1
  }

  function Concat(pieces: seq<Bytes>): Bytes {
    if pieces == [] then [] else pieces[0] + Concat(pieces[1..])
  }

  /** `bytes` in pieces of exactly `CHUNK_SIZE`, the last one possibly shorter, none empty. */
  function Chunks(bytes: Bytes): seq<Bytes> {
    if bytes == [] then []
    else if |bytes| < CHUNK_SIZE then [bytes]
    else [bytes[..CHUNK_SIZE]] + Chunks(bytes[CHUNK_SIZE..])
  }

  /** What chunking promises about its output. */
  ghost predicate Chunked(chunks: seq<Bytes>) {
    && (forall i :: 0 <= i < |chunks| ==> 0 < |chunks[i]| <= 16384)
    && (forall i :: 0 <= i < |chunks| - 1 ==> |chunks[i]| == 16384)
  }

  lemma {:induction false} ChunksAreChunked(bytes: Bytes)
    ensures Chunked(Chunks(bytes)) && Concat(Chunks(bytes)) == bytes
    decreases |bytes|
  {
    if |bytes| >= CHUNK_SIZE {
      ChunksAreChunked(bytes[CHUNK_SIZE..]);
      var rest := Chunks(bytes[CHUNK_SIZE..]);
      assert ([bytes[..CHUNK_SIZE]] + rest)[1..] == rest;
      assert bytes[..CHUNK_SIZE] + bytes[CHUNK_SIZE..] == bytes;
    } else if bytes != [] {
      assert [bytes][1..] == [];
      assert Concat([bytes]) == bytes + Concat([]);
    }
  }

  /** There is only one way to chunk: any output that keeps the promise is `Chunks` of its bytes. */
  lemma {:induction false} ChunkingIsUnique(chunks: seq<Bytes>)
    requires Chunked(chunks)
    ensures chunks == Chunks(Concat(chunks))
  {
    if chunks != [] {
      var rest := chunks[1..];
      forall i | 0 <= i < |rest| - 1 ensures |rest[i]| == CHUNK_SIZE { assert rest[i] == chunks[i + 1]; }
      ChunkingIsUnique(rest);
      if rest == [] {
        assert Concat(chunks) == chunks[0];
        if |chunks[0]| == CHUNK_SIZE { assert chunks[0][CHUNK_SIZE..] == [] && chunks[0][..CHUNK_SIZE] == chunks[0]; }
      } else {
        assert |chunks[0]| == CHUNK_SIZE;
        assert Concat(chunks)[..CHUNK_SIZE] == chunks[0] && Concat(chunks)[CHUNK_SIZE..] == Concat(rest);
      }
    }
  }

  lemma Regroup<T>(a: seq<T>, b: seq<T>, c: seq<T>)
    ensures a + (b + c) == (a + b) + c
  {
  }

  /** The chunks handed to the callback depend only on the bytes received, not on how they were
      cut up on arrival. */
  method ProcessInChunks(pieces: seq<Bytes>) returns (chunks: seq<Bytes>)
    ensures chunks == Chunks(Concat(pieces))
  {
    chunks := [];
    var buffer: Bytes := [];
    var i := 0;
    assert pieces[0..] == pieces && buffer + Concat(pieces) == Concat(pieces);
    assert chunks + Chunks(Concat(pieces)) == Chunks(Concat(pieces));
    while i < |pieces|
      invariant 0 <= i <= |pieces|
      invariant chunks + Chunks(buffer + Concat(pieces[i..])) == Chunks(Concat(pieces))
      invariant |buffer| < CHUNK_SIZE
    {
      ghost var rest := Concat(pieces[i + 1..]);
      assert buffer + Concat(pieces[i..]) == (buffer + pieces[i]) + rest;
      buffer := buffer + pieces[i];
      i := i + 1;
      while |buffer| >= CHUNK_SIZE
        invariant chunks + Chunks(buffer + rest) == Chunks(Concat(pieces))
        decreases |buffer|
      {
        var chunk := buffer[..CHUNK_SIZE];
        assert (buffer + rest)[..CHUNK_SIZE] == chunk;
        assert (buffer + rest)[CHUNK_SIZE..] == buffer[CHUNK_SIZE..] + rest;
        assert chunks + ([chunk] + Chunks(buffer[CHUNK_SIZE..] + rest))
            == (chunks + [chunk]) + Chunks(buffer[CHUNK_SIZE..] + rest);
        buffer := buffer[CHUNK_SIZE..];
        chunks := chunks + [chunk];
      }
    }
    assert buffer + Concat(pieces[|pieces|..]) == buffer;
    if buffer != [] {
      chunks := chunks + [buffer];
    }
  }

  function Binaries(chunks: seq<Bytes>): (r: seq<Frame>)
    ensures |r| == |chunks|
    ensures forall i :: 0 <= i < |r| ==> r[i] == Binary(chunks[i])
  {
    seq(|chunks|, i requires 0 <= i < |chunks| => Binary(chunks[i]))
  }

  /** A string sent in chunks and closed by the delimiter. */
  function StringFrames(bytes: Bytes): seq<Frame> {
    Binaries(Chunks(bytes)) + [DELIMITER]
  }

  /** `receive_string_from_chunks`: binary messages up to the next text message, and the rest of
      the queue. A queue that ends first is a closed channel. */
  function ReceiveString(queue: seq<Frame>): (Bytes, seq<Frame>) {
    if queue == [] then ([], [])
    else if queue[0].Text? then ([], queue[1..])
    else
      var (bytes, rest) := ReceiveString(queue[1..]);
      (queue[0].data + bytes, rest)
  }

  method ReceiveStringFromChunks(queue: seq<Frame>) returns (bytes: Bytes, rest: seq<Frame>)
    ensures (bytes, rest) == ReceiveString(queue)
  {
    bytes := [];
    rest := queue;
    assert [] + ReceiveString(queue).0 == ReceiveString(queue).0;
    while rest != []
      invariant ReceiveString(queue) == (bytes + ReceiveString(rest).0, ReceiveString(rest).1)
      decreases |rest|
    {
      var msg := rest[0];
      if msg.Text? {
        assert bytes + [] == bytes;
        return bytes, rest[1..];
      }
      assert bytes + (msg.data + ReceiveString(rest[1..]).0) == (bytes + msg.data) + ReceiveString(rest[1..]).0;
      bytes := bytes + msg.data;
      rest := rest[1..];
    }
    assert bytes + [] == bytes;
  }

  lemma {:induction false} ReceiveBinaries(chunks: seq<Bytes>, stop: Frame, rest: seq<Frame>)
    requires stop.Text?
    ensures ReceiveString(Binaries(chunks) + [stop] + rest) == (Concat(chunks), rest)
  {
    var queue := Binaries(chunks) + [stop] + rest;
    if chunks == [] {
      assert queue[1..] == rest;
    } else {
      ReceiveBinaries(chunks[1..], stop, rest);
      assert queue[1..] == Binaries(chunks[1..]) + [stop] + rest;
    }
  }

  /** Main result: whatever follows in the queue, receiving returns exactly the string that was
      sent and leaves exactly what follows. */
  lemma StringRoundTrip(bytes: Bytes, rest: seq<Frame>)
    ensures ReceiveString(StringFrames(bytes) + rest) == (bytes, rest)
  {
    ChunksAreChunked(bytes);
    ReceiveBinaries(Chunks(bytes), DELIMITER, rest);
  }

  /** Several strings in a row come out one by one, in order. */
  lemma {:induction false} StringsRoundTrip(first: Bytes, second: Bytes, rest: seq<Frame>)
    ensures var (a, queue) := ReceiveString(StringFrames(first) + StringFrames(second) + rest);
      a == first && ReceiveString(queue) == (second, rest)
  {
    assert StringFrames(first) + StringFrames(second) + rest == StringFrames(first) + (StringFrames(second) + rest);
    StringRoundTrip(first, StringFrames(second) + rest);
    StringRoundTrip(second, rest);
  }
}
