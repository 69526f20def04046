/**
 The response's chunk writer against the reader of RFC 7230, section 4.1: what is framed piece by
 piece decodes to the concatenation of the pieces.
 */
module ChunkedCoding {
  import opened Bytes
  import opened Common
  import opened Rfc7230
  import opened ResponseSpec

  lemma {:induction false} HexParses(n: nat)
    ensures HexValue(Hex(n)) == n
  {
    if n >= 16 {
      HexParses(n / 16);
      assert Hex(n)[..|Hex(n)| - 1] == Hex(n / 16);
    } else {
      assert Hex(n)[..0] == [];
    }
  }

  lemma {:induction false} HexRunStops(h: seq<byte>, x: seq<byte>)
    requires forall i :: 0 <= i < |h| ==> IsHexDigit(h[i])
    requires x != [] && !IsHexDigit(x[0])
    ensures HexRun(h + x) == |h|
  {
    if h == [] {
      assert h + x == x;
    } else {
      HexRunStops(h[1..], x);
      assert (h + x)[1..] == h[1..] + x;
    }
  }

  lemma Assoc<T>(a: seq<T>, b: seq<T>, c: seq<T>)
    ensures a + b + c == a + (b + c)
  {
  }

  lemma {:induction false} FirstPiece(ps: seq<seq<byte>>)
    requires ps != []
    ensures Concat(ps) == ps[0] + Concat(ps[1..])
    ensures Chunks(ps) == Chunk(ps[0]) + Chunks(ps[1..])
  {
    ConcatFirst(ps);
    var m := |ps| - 1;
    var first, last := ps[0], ps[m];
    if m == 0 {
      assert ps == [] + [first] && ps[1..] == [];
      Snoc([], first);
    } else {
      var middle := ps[1..m];
      FirstPiece(ps[..m]);
      assert ps[..m][1..] == middle && ps[1..] == middle + [last] && ps == ps[..m] + [last];
      Snoc(ps[..m], last);
      Snoc(middle, last);
      Assoc(Chunk(first), Chunks(middle), Chunk(last));
    }
  }

  lemma LastChunkDecodes(rest: seq<byte>)
    ensures DecodeChunked(LAST_CHUNK + rest) == Complete([], rest)
  {
    var s := LAST_CHUNK + rest;
    HexRunStops([48], [13, 10, 13, 10] + rest);
    assert s == [48] + ([13, 10, 13, 10] + rest);
    assert s[..1] == [48] && s[1..3] == CRLF;
    assert HexValue([48]) == 0 by { assert [48 as byte][..0] == []; }
    assert s[3..][..2] == CRLF && s[3..][2..] == rest;
  }

  lemma Slices<T>(a: seq<T>, b: seq<T>, c: seq<T>, s: seq<T>)
    requires s == a + b + c
    ensures s[..|a|] == a && s[|a|..|a| + |b|] == b && s[|a| + |b|..] == c
  {
  }

  lemma DecodeStep(h: seq<byte>, t: seq<byte>, p: seq<byte>, x: seq<byte>, s: seq<byte>)
    requires HexRun(s) == |h| > 0 && |s| >= |h| + 2
    requires s[..|h|] == h && s[|h|..|h| + 2] == CRLF && s[|h| + 2..] == t && HexValue(h) == |p| > 0
    requires |t| >= |p| + 2 && t[..|p|] == p && t[|p|..|p| + 2] == CRLF && t[|p| + 2..] == x
    requires DecodeChunked(x).Complete?
    ensures DecodeChunked(s) == Complete(p + DecodeChunked(x).payload, DecodeChunked(x).rest)
  {
  }

  lemma OneChunkDecodes(h: seq<byte>, p: seq<byte>, x: seq<byte>, s: seq<byte>)
    requires p != [] && DecodeChunked(x).Complete? && h == Hex(|p|)
    requires s == h + CRLF + (p + CRLF + x)
    ensures DecodeChunked(s) == Complete(p + DecodeChunked(x).payload, DecodeChunked(x).rest)
  {
    var t := p + CRLF + x;
    Assoc(h, CRLF, t);
    HexRunStops(h, CRLF + t);
    HexParses(|p|);
    Slices(h, CRLF, t, s);
    Slices(p, CRLF, x, t);
    DecodeStep(h, t, p, x, s);
  }

  lemma Regroup<T>(a: seq<T>, p: seq<T>, c: seq<T>, x: seq<T>, y: seq<T>, z: seq<T>)
    ensures a + p + c + x + y + z == a + (p + c + (x + y + z))
  {
    var q := p + c;
    Assoc(a, p, c);
    Assoc(a, q, x);
    Assoc(a, q + x, y);
    Assoc(a, q + x + y, z);
    Assoc(q, x, y);
    Assoc(q, x + y, z);
  }

  /** Decoding undoes the framing, wherever the last chunk is followed by the next message. */
  lemma {:induction false} ChunksDecode(ps: seq<seq<byte>>, rest: seq<byte>)
    requires forall i :: 0 <= i < |ps| ==> ps[i] != []
    ensures DecodeChunked(Chunks(ps) + LAST_CHUNK + rest) == Complete(Concat(ps), rest)
  {
    if ps == [] {
      LastChunkDecodes(rest);
      assert [] + LAST_CHUNK + rest == LAST_CHUNK + rest;
    } else {
      var x := Chunks(ps[1..]) + LAST_CHUNK + rest;
      ChunksDecode(ps[1..], rest);
      FirstPiece(ps);
      Regroup(Hex(|ps[0]|) + CRLF, ps[0], CRLF, Chunks(ps[1..]), LAST_CHUNK, rest);
      OneChunkDecodes(Hex(|ps[0]|), ps[0], x, Chunks(ps) + LAST_CHUNK + rest);
    }
  }
}
