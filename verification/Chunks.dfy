/** Cutting a file into reads of one buffer each, and putting it together again. */
module Chunks {
  import opened Packets

  function Min(a: int, b: int): int {
    if a < b then a else b
  }

  /** `read(fd, buf, count)` at a file offset: as many bytes as remain, at most `count`. */
  function Read(file: seq<byte>, offset: nat, count: nat): (r: seq<byte>)
    ensures |r| == if offset < |file| then Min(count, |file| - offset) else 0
  {
    if offset < |file| then file[offset..offset + Min(count, |file| - offset)] else []
  }

  /** The k-th buffer of the file. */
  function Chunk(file: seq<byte>, size: nat, k: nat): seq<byte> {
    Read(file, k * size, size)
  }

  /** The first k buffers of the file. */
  function Prefix(file: seq<byte>, size: nat, k: nat): seq<byte> {
    file[..Min(k * size, |file|)]
  }

  /** The number of the final, short chunk. */
  function LastChunk(file: seq<byte>, size: nat): nat
    requires size > 0
  {
    |file| / size
  }

  /** `n` consecutive reads from an offset. */
  function Reads(file: seq<byte>, size: nat, offset: nat, n: nat): (r: seq<seq<byte>>)
    ensures |r| == n
    decreases n
  {
    if n == 0 then [] else
    var piece := Read(file, offset, size);
    [piece] + Reads(file, size, offset + |piece|, n - 1)
  }

  /** Append pieces up to and including the first short one, as the receiver does. */
  function Join(size: nat, pieces: seq<seq<byte>>): seq<byte> {
    if pieces == [] then []
    else if |pieces[0]| < size then pieces[0]
    else pieces[0] + Join(size, pieces[1..])
  }

  lemma MulLe(a: int, b: int, c: nat)
    requires a <= b
    ensures a * c <= b * c
  {
  }

  lemma LastChunkBounds(file: seq<byte>, size: nat)
    requires size > 0
    ensures LastChunk(file, size) * size <= |file| < (LastChunk(file, size) + 1) * size
  {
  }

  /** Chunk numbers from LastChunk on are the short ones, and only they. */
  lemma ShortFromLastChunk(file: seq<byte>, size: nat, k: nat)
    requires size > 0
    ensures |Chunk(file, size, k)| < size <==> LastChunk(file, size) <= k
    ensures |Chunk(file, size, k)| <= size
  {
    var last := LastChunk(file, size);
    LastChunkBounds(file, size);
    if last <= k {
      MulLe(last, k, size);
      assert (last + 1) * size == last * size + size;
    } else {
      MulLe(k + 1, last, size);
      assert (k + 1) * size == k * size + size;
    }
  }

  lemma PrefixStep(file: seq<byte>, size: nat, k: nat)
    ensures Prefix(file, size, k) + Chunk(file, size, k) == Prefix(file, size, k + 1)
  {
  }

  lemma PrefixMono(file: seq<byte>, size: nat, k: nat, m: nat)
    requires k <= m
    ensures Prefix(file, size, k) <= Prefix(file, size, m) <= file
  {
  }

  lemma PrefixAll(file: seq<byte>, size: nat, k: nat)
    requires size > 0 && LastChunk(file, size) < k
    ensures Prefix(file, size, k) == file
  {
    LastChunkBounds(file, size);
    MulLe(LastChunk(file, size) + 1, k, size);
  }

  /** An offset that agrees with chunk k up to the end of the file reads chunk k and moves to chunk k + 1. */
  lemma ReadAtChunk(file: seq<byte>, size: nat, offset: nat, k: nat)
    requires Min(offset, |file|) == Min(k * size, |file|)
    ensures Read(file, offset, size) == Chunk(file, size, k)
    ensures Min(offset + |Read(file, offset, size)|, |file|) == Min((k + 1) * size, |file|)
  {
  }

  lemma {:induction false} ReadsAreChunks(file: seq<byte>, size: nat, offset: nat, k: nat, n: nat, i: nat)
    requires Min(offset, |file|) == Min(k * size, |file|)
    requires i < n
    ensures Reads(file, size, offset, n)[i] == Chunk(file, size, k + i)
    decreases n
  {
    ReadAtChunk(file, size, offset, k);
    if i > 0 {
      ReadsAreChunks(file, size, offset + |Read(file, offset, size)|, k + 1, n - 1, i - 1);
    }
  }

  lemma {:induction false} JoinFrom(file: seq<byte>, size: nat, offset: nat, k: nat, n: nat)
    requires size > 0
    requires Min(offset, |file|) == Min(k * size, |file|)
    requires k <= LastChunk(file, size) < k + n
    ensures Prefix(file, size, k) + Join(size, Reads(file, size, offset, n)) == file
    decreases n
  {
    var piece := Read(file, offset, size);
    var rest := Reads(file, size, offset + |piece|, n - 1);
    ReadAtChunk(file, size, offset, k);
    ShortFromLastChunk(file, size, k);
    PrefixStep(file, size, k);
    assert Reads(file, size, offset, n)[1..] == rest;
    if |piece| < size {
      PrefixAll(file, size, k + 1);
    } else {
      JoinFrom(file, size, offset + |piece|, k + 1, n - 1);
      assert Prefix(file, size, k) + (piece + Join(size, rest)) == Prefix(file, size, k + 1) + Join(size, rest);
    }
  }

  /**
   * Round trip: a file of any length, cut into reads of any positive size and joined up to the first short
   * piece, is the file; the first short piece is piece LastChunk, also for the empty file and for exact multiples.
   */
  lemma SplitJoin(file: seq<byte>, size: nat, n: nat)
    requires size > 0
    requires LastChunk(file, size) < n
    ensures Join(size, Reads(file, size, 0, n)) == file
    ensures forall i :: 0 <= i < n ==>
      (|Reads(file, size, 0, n)[i]| < size <==> LastChunk(file, size) <= i)
  {
    JoinFrom(file, size, 0, 0, n);
    assert Prefix(file, size, 0) == [];
    forall i | 0 <= i < n
      ensures |Reads(file, size, 0, n)[i]| < size <==> LastChunk(file, size) <= i
    {
      ReadsAreChunks(file, size, 0, 0, n, i);
      ShortFromLastChunk(file, size, i);
    }
  }

  /** One piece too few and the file is not complete: nothing shorter than LastChunk + 1 pieces ends the transfer. */
  lemma {:induction false} JoinTooFew(file: seq<byte>, size: nat, n: nat)
    requires size > 0
    requires n <= LastChunk(file, size)
    ensures Join(size, Reads(file, size, 0, n)) == Prefix(file, size, n)
  {
    JoinTooFewFrom(file, size, 0, 0, n);
    assert Prefix(file, size, 0) == [];
  }

  lemma {:induction false} JoinTooFewFrom(file: seq<byte>, size: nat, offset: nat, k: nat, n: nat)
    requires size > 0
    requires Min(offset, |file|) == Min(k * size, |file|)
    requires k + n <= LastChunk(file, size)
    ensures Prefix(file, size, k) + Join(size, Reads(file, size, offset, n)) == Prefix(file, size, k + n)
    decreases n
  {
    if n > 0 {
      var piece := Read(file, offset, size);
      var rest := Reads(file, size, offset + |piece|, n - 1);
      ReadAtChunk(file, size, offset, k);
      ShortFromLastChunk(file, size, k);
      PrefixStep(file, size, k);
      assert Reads(file, size, offset, n)[1..] == rest;
      JoinTooFewFrom(file, size, offset + |piece|, k + 1, n - 1);
      assert Prefix(file, size, k) + (piece + Join(size, rest)) == Prefix(file, size, k + 1) + Join(size, rest);
    }
  }
}
