/** Received pieces are collected into blocks of at least one mebibyte before they cross to
    the application. */
module Rebuffer {
  import opened Common
  import opened Framing

  const BUFFER_SIZE: nat := 1024 * 1024

  /** What arrives in the block that is open, given what it holds already. */
  function Blocks(buffer: Bytes, pieces: seq<Bytes>): seq<Bytes>
    decreases |pieces|
  {
    if pieces == [] then (if buffer == [] then [] else [buffer])
    else if |buffer + pieces[0]| >= BUFFER_SIZE then [buffer + pieces[0]] + Blocks([], pieces[1..])
    else Blocks(buffer + pieces[0], pieces[1..])
  }

  /** The blocks sent while the output receiver stays open. */
  method BufferReceiver(pieces: seq<Bytes>) returns (blocks: seq<Bytes>)
    ensures blocks == Blocks([], pieces)
    ensures Concat(blocks) == Concat(pieces)
    ensures forall i :: 0 <= i < |blocks| ==> blocks[i] != []
    ensures forall i :: 0 <= i < |blocks| - 1 ==> |blocks[i]| >= 1048576
  {
    blocks := [];
    var buffer: Bytes := [];
    for i := 0 to |pieces|
      invariant blocks + Blocks(buffer, pieces[i..]) == Blocks([], pieces)
    {
      var data := pieces[i];
      assert pieces[i..][1..] == pieces[i + 1..];
      buffer := buffer + data;
      if |buffer| >= BUFFER_SIZE {
        assert blocks + ([buffer] + Blocks([], pieces[i + 1..])) == (blocks + [buffer]) + Blocks([], pieces[i + 1..]);
        blocks := blocks + [buffer];
        buffer := [];
      }
    }
    if buffer != [] {
      blocks := blocks + [buffer];
    }
    BlocksConserve([], pieces);
    BlocksAreLarge([], pieces);
  }

  /** Conservation: no byte is lost, repeated or reordered. */
  lemma {:induction false} BlocksConserve(buffer: Bytes, pieces: seq<Bytes>)
    ensures Concat(Blocks(buffer, pieces)) == buffer + Concat(pieces)
    decreases |pieces|
  {
    if pieces == [] {
      if buffer != [] { assert [buffer][1..] == []; }
    } else if |buffer + pieces[0]| >= BUFFER_SIZE {
      BlocksConserve([], pieces[1..]);
      assert ([buffer + pieces[0]] + Blocks([], pieces[1..]))[1..] == Blocks([], pieces[1..]);
    } else {
      BlocksConserve(buffer + pieces[0], pieces[1..]);
    }
  }

  /** No block is empty, and only the last may be smaller than the buffer size. */
  lemma {:induction false} BlocksAreLarge(buffer: Bytes, pieces: seq<Bytes>)
    ensures forall i :: 0 <= i < |Blocks(buffer, pieces)| ==> Blocks(buffer, pieces)[i] != []
    ensures forall i :: 0 <= i < |Blocks(buffer, pieces)| - 1 ==> |Blocks(buffer, pieces)[i]| >= 1048576
    decreases |pieces|
  {
    if pieces != [] {
      if |buffer + pieces[0]| >= BUFFER_SIZE {
        BlocksAreLarge([], pieces[1..]);
      } else {
        BlocksAreLarge(buffer + pieces[0], pieces[1..]);
      }
    }
  }
}
