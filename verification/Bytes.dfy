/** Bytes, and sequences of bytes put together from pieces. */
module Bytes {
  type byte = x: int | 0 <= x < 256

  function Concat(pieces: seq<seq<byte>>): seq<byte> {
    if pieces == [] then [] else Concat(pieces[..|pieces| - 1]) + pieces[|pieces| - 1]
  }

  lemma ConcatSnoc(pieces: seq<seq<byte>>, p: seq<byte>)
    ensures Concat(pieces + [p]) == Concat(pieces) + p
  {
    assert (pieces + [p])[..|pieces|] == pieces;
  }

  lemma ConcatOne(p: seq<byte>)
    ensures Concat([p]) == p
  {
    ConcatSnoc([], p);
    assert [] + [p] == [p] && [] + p == p;
  }

  lemma {:induction false} ConcatSplit(pieces: seq<seq<byte>>, k: nat)
    requires k <= |pieces|
    ensures Concat(pieces) == Concat(pieces[..k]) + Concat(pieces[k..])
    decreases |pieces|
  {
    if k == |pieces| {
      assert pieces[..k] == pieces && pieces[k..] == [];
    } else {
      var m := |pieces| - 1;
      ConcatSplit(pieces[..m], k);
      assert pieces[..m][..k] == pieces[..k];
      assert pieces[k..][..|pieces[k..]| - 1] == pieces[..m][k..];
    }
  }

  lemma ConcatFirst(pieces: seq<seq<byte>>)
    requires pieces != []
    ensures Concat(pieces) == pieces[0] + Concat(pieces[1..])
  {
    ConcatSplit(pieces, 1);
    ConcatOne(pieces[0]);
    assert pieces[..1] == [pieces[0]];
  }
}
