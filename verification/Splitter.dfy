/**
 Cutting data into chunks for writev. A Go slice may be cut beyond its length up to its capacity, so
 the data is a prefix of a larger block.
 */
module Splitter {
  import opened Bytes

  /** A slice: the first `length` bytes of what its capacity spans. */
  datatype Slice = Slice(block: seq<byte>, length: nat) {
    predicate Valid() {
      length <= |block|
    }

    function Bytes(): seq<byte>
      requires Valid()
    {
      block[..length]
    }
  }

  /** The chunks, a panic in a slice expression, or a loop that never ends. */
  datatype Outcome = Done(chunks: seq<seq<byte>>) | Panics | Endless

  /** Which lengths are split. */
  predicate Splits(length: nat, chunkSize: int) {
    length <= chunkSize || (chunkSize >= 1 && length % chunkSize <= 1) || (chunkSize == 0 && length == 1)
  }

  /** Where the n-th turn of the loop looks. */
  function IndexAt(chunkSize: int, n: nat): int {
    if n == 0 then 0 else IndexAt(chunkSize, n - 1) + chunkSize
  }

  /** With chunks of size 0 the loop does not move: every turn looks at the start and goes on. */
  lemma {:induction false} NeverMoves(length: nat, n: nat)
    requires length > 1
    ensures IndexAt(0, n) == 0 < length - 1
  {
    if n > 0 {
      NeverMoves(length, n - 1);
    }
  }

  lemma Quotient(x: nat, c: nat, q: int, r: nat)
    requires r < c && x == c * q + r
    ensures x % c == r
  {
    var d := q - x / c;
    assert c * (x / c) + x % c == x;
    assert c * d == c * q - c * (x / c);
    if d > 0 {
      assert c * d >= c by { Product(c, d - 1); }
    }
  }

  lemma Product(c: nat, d: nat)
    ensures c * d >= 0 && c * (d + 1) == c * d + c
  {
  }

  lemma OneChunkLess(x: nat, c: nat)
    requires 1 <= c <= x
    ensures (x - c) % c == x % c
  {
    assert x - c == c * (x / c - 1) + x % c;
    Quotient(x - c, c, x / c - 1, x % c);
  }

  /** `rest` bytes are left, a whole number of chunks fewer than `length`. */
  lemma Rest(length: nat, chunkSize: nat, rest: nat)
    requires chunkSize >= 1 && length > chunkSize && rest % chunkSize == length % chunkSize
    ensures Splits(length, chunkSize) && rest >= 2 ==> rest >= chunkSize
    ensures rest <= 1 ==> Splits(length, chunkSize)
    ensures rest >= chunkSize ==> (rest - chunkSize) % chunkSize == length % chunkSize
  {
    if rest < chunkSize {
      Quotient(rest, chunkSize, 0, rest);
    } else {
      OneChunkLess(rest, chunkSize);
      assert rest <= 1 ==> chunkSize == 1;
    }
  }

  /** Where data that is longer than a chunk is cut: every chunk but the last is full, and what is left for the
   last is at most one byte. */
  predicate CutRight(chunks: seq<seq<byte>>, length: nat, chunkSize: nat)
    requires chunkSize >= 1
  {
    && chunks != [] && (forall i :: 0 <= i < |chunks| - 1 ==> |chunks[i]| == chunkSize)
    && |chunks[|chunks| - 1]| == if chunkSize == 1 then 1 else length % chunkSize
  }

  /** What is left for the last chunk. */
  lemma LastChunk(length: nat, chunkSize: nat, rest: int)
    requires chunkSize >= 1 && length > chunkSize && 0 <= rest <= 1 && rest % chunkSize == length % chunkSize
    requires chunkSize == 1 ==> rest == 1
    ensures rest == (if chunkSize == 1 then 1 else length % chunkSize) && Splits(length, chunkSize)
  {
    if chunkSize > 1 {
      Quotient(rest, chunkSize, 0, rest);
    }
  }

  /** The chunks give the data back, cut at the multiples of the chunk size, if and only if the length splits. With
   chunk size 0 the loop never ends on more than one byte, and everything else panics. */
  method SplitDataForWritev(data: Slice, chunkSize: int) returns (r: Outcome)
    requires data.Valid()
    ensures r.Done? <==> Splits(data.length, chunkSize)
    ensures r.Endless? <==> chunkSize == 0 && data.length > 1
    ensures r.Done? ==> Concat(r.chunks) == data.Bytes()
    ensures r.Done? && 1 <= chunkSize < data.length ==> CutRight(r.chunks, data.length, chunkSize)
    ensures r.Done? && data.length <= chunkSize ==> r.chunks == [data.Bytes()]
    ensures r.Done? && chunkSize == 0 < data.length ==> r.chunks == [[], data.Bytes()]
  {
    var length := data.length;
    if length <= chunkSize {
      ConcatOne(data.Bytes());
      return Done([data.Bytes()]);
    }
    if chunkSize < 0 {
      return Panics;
    }
    if chunkSize == 0 && length > 1 {
      return Endless;
    }
    if chunkSize == 0 {
      ConcatOne([]);
      ConcatSnoc([[]], data.Bytes());
      assert [] + data.Bytes() == data.Bytes() && [[]] + [data.Bytes()] == [[], data.Bytes()];
      return Done([[], data.Bytes()]);
    }
    r := SplitLoop(data, chunkSize);
  }

  /** The loop, for chunks of at least one byte. */
  method SplitLoop(data: Slice, chunkSize: nat) returns (r: Outcome)
    requires data.Valid() && 1 <= chunkSize < data.length
    ensures r.Done? <==> Splits(data.length, chunkSize)
    ensures !r.Endless?
    ensures r.Done? ==> Concat(r.chunks) == data.Bytes() && CutRight(r.chunks, data.length, chunkSize)
  {
    var length := data.length;
    var idx := 0;
    var result := [data.block[..chunkSize]];
    ConcatOne(data.block[..chunkSize]);
    while true
      invariant idx < length - 1 && (length - idx) % chunkSize == length % chunkSize
      invariant idx + chunkSize > length ==> !Splits(length, chunkSize)
      invariant idx + chunkSize <= |data.block| && Concat(result) == data.block[..idx + chunkSize]
      invariant forall i :: 0 <= i < |result| ==> |result[i]| == chunkSize
      decreases length - idx
    {
      Rest(length, chunkSize, length - idx);
      idx := idx + chunkSize;
      if idx < length - 1 {
        if idx + chunkSize > |data.block| {
          Rest(length, chunkSize, length - idx);
          return Panics;
        }
        result := Add(result, data.block, idx, idx + chunkSize);
        Rest(length, chunkSize, length - idx);
      } else {
        if idx > length {
          return Panics;
        }
        LastChunk(length, chunkSize, length - idx);
        result := Add(result, data.block, idx, length);
        break;
      }
    }
    r := Done(result);
  }

  /** append(result, block[low:high]) */
  function Add(result: seq<seq<byte>>, block: seq<byte>, low: nat, high: nat): (r: seq<seq<byte>>)
    requires low <= high <= |block|
    ensures Concat(result) == block[..low] ==> Concat(r) == block[..high]
  {
    ConcatSnoc(result, block[low..high]);
    assert block[..high] == block[..low] + block[low..high];
    result + [block[low..high]]
  }
}
