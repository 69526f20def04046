/**
 The byte slice pool: 32 buckets of blocks by powers of two. A block comes back out with the capacity
 of its bucket, whatever it had when it went in, so a bucket must hold only blocks that are large
 enough. Which blocks a bucket still has, and which of them it returns, is up to the garbage
 collector; blocks are told apart by their identity.
 */
module ByteSlicePool {
  const MAX_INT32 := 0x7FFF_FFFF
  const UINT32 := 0x1_0000_0000

  function Pow2(k: nat): (r: nat)
    ensures r >= 1
  {
    if k == 0 then 1 else 2 * Pow2(k - 1)
  }

  /** bits.Len32: the number of bits needed for x. */
  function Len32(x: nat): nat {
    if x == 0 then 0 else 1 + Len32(x / 2)
  }

  /** The subtraction wraps around. */
  function Index(n: nat): nat
    requires n < UINT32
  {
    Len32((n + UINT32 - 1) % UINT32)
  }

  lemma {:induction false} LenBounds(x: nat)
    ensures x < Pow2(Len32(x))
    ensures x > 0 ==> Pow2(Len32(x) - 1) <= x
  {
    if x > 0 {
      LenBounds(x / 2);
    }
  }

  lemma {:induction false} Pow2Grows(a: nat, b: nat)
    requires a <= b
    ensures Pow2(a) <= Pow2(b)
    decreases b
  {
    if a < b {
      Pow2Grows(a, b - 1);
    }
  }

  lemma Pow2At31()
    ensures Pow2(31) == 0x8000_0000
  {
    assert Pow2(8) == 256;
    assert Pow2(16) == 65536;
    assert Pow2(24) == 0x100_0000;
  }

  /** The least power of two that holds n bytes; a fresh block of that size is less than twice as large. */
  lemma IndexIsLeast(n: nat)
    requires 1 <= n <= MAX_INT32
    ensures n <= Pow2(Index(n)) < 2 * n && Index(n) < 32
    ensures forall k: nat :: n <= Pow2(k) <==> k >= Index(n)
  {
    assert (n + UINT32 - 1) % UINT32 == n - 1;
    LenBounds(n - 1);
    forall k: nat ensures n <= Pow2(k) <==> k >= Index(n) {
      if k >= Index(n) {
        Pow2Grows(Index(n), k);
      } else {
        Pow2Grows(k, Index(n) - 1);
      }
    }
    Pow2At31();
  }

  /** Memory that was allocated once: `capacity` bytes from the start of the slice on. */
  datatype Block = Block(id: nat, capacity: nat)

  /** A slice at the start of a block, or the nil slice. */
  datatype Slice = Nil | Slice(block: Block, length: nat, cap: nat)

  predicate InMemory(s: Slice) {
    s.Slice? ==> s.length <= s.cap <= s.block.capacity
  }

  /** What Put keeps. */
  predicate Storable(s: Slice) {
    s.Slice? && 0 < s.cap <= MAX_INT32
  }

  class Pool {
    const pools: array<seq<Block>>
    var next: nat            // identities given out by the allocator

    ghost predicate At(i: nat, j: nat, b: Block)
      reads pools
    {
      i < pools.Length && j < |pools[i]| && pools[i][j] == b
    }

    ghost predicate Holds(id: nat)
      reads pools
    {
      exists i, j, b :: At(i, j, b) && b.id == id
    }

    /** Every block in bucket i is at least as large as the bucket says. */
    ghost predicate Valid()
      reads this, pools
    {
      && pools.Length == 32
      && (forall i, j, b :: At(i, j, b) ==> b.capacity >= Pow2(i) && b.id < next)
    }

    /** No block is in the pool twice. */
    ghost predicate Distinct()
      reads pools
    {
      forall i, j, b, i', j', b' :: At(i, j, b) && At(i', j', b') && b.id == b'.id ==> i == i' && j == j'
    }

    constructor ()
      ensures Valid() && Distinct() && fresh(pools) && next == 0 && forall id :: !Holds(id)
    {
      pools := new seq<Block>[32](_ => []);
      next := 0;
      new;
      assert forall i, j, b :: !At(i, j, b);
    }

    /** make([]byte, capacity) */
    method Allocate(capacity: nat) returns (b: Block)
      requires Valid()
      modifies this`next
      ensures Valid() && b == Block(old(next), capacity) && next == old(next) + 1 && !Holds(b.id)
    {
      b := Block(next, capacity);
      next := next + 1;
    }

    /** Takes block j out of bucket i. */
    method Remove(i: nat, j: nat) returns (b: Block)
      requires Valid() && i < 32 && j < |pools[i]|
      modifies pools
      ensures Valid() && b == old(pools[i][j])
      ensures forall id :: id != b.id ==> (Holds(id) <==> old(Holds(id)))
      ensures old(Distinct()) ==> Distinct() && !Holds(b.id)
    {
      b := pools[i][j];
      assert At(i, j, b);
      pools[i] := pools[i][..j] + pools[i][j + 1..];
      forall k: nat, m: nat, c: Block | At(k, m, c)
        ensures old(At(k, if k == i && m >= j then m + 1 else m, c))
      {
      }
      forall k: nat, m: nat, c: Block | old(At(k, m, c)) && (k != i || m != j)
        ensures At(k, if k == i && m > j then m - 1 else m, c)
      {
      }
    }

    /** Puts a block at the end of bucket i. */
    method Store(i: nat, b: Block)
      requires Valid() && i < 32 && b.capacity >= Pow2(i) && b.id < next
      modifies pools
      ensures Valid() && At(i, |old(pools[i])|, b)
      ensures forall id :: Holds(id) <==> old(Holds(id)) || id == b.id
      ensures Distinct() <==> old(Distinct()) && !old(Holds(b.id))
    {
      ghost var end := |pools[i]|;
      pools[i] := pools[i] + [b];
      assert At(i, end, b);
      assert forall k: nat, m: nat, c: Block :: At(k, m, c) <==> old(At(k, m, c)) || (k == i && m == end && c == b);
      if old(Holds(b.id)) {
        var k, m, c :| old(At(k, m, c)) && c.id == b.id;
        assert At(k, m, c) && (k != i || m != end);
      }
    }

    /** A slice of `size` bytes, from the pool when its bucket gives one. `choice` is the block it gives. */
    method Get(size: int, choice: nat) returns (s: Slice)
      requires Valid()
      modifies this`next, pools
      ensures Valid() && InMemory(s) && (s == Nil <==> size <= 0) && old(next) <= next
      ensures size > 0 ==> s.length == size && s.block.id < next
      ensures old(Distinct()) ==> Distinct() && (size > 0 ==> !Holds(s.block.id))
      ensures size > 0 ==> s.cap == if size <= MAX_INT32 then Pow2(Index(size)) else size
      ensures forall b :: 0 < size <= MAX_INT32 && old(At(Index(size), choice, b)) ==> s.block == b
      ensures s.Slice? && (size > MAX_INT32 || forall b :: !old(At(Index(size), choice, b))) ==>
                s.block == Block(old(next), s.cap)
      ensures forall id :: s == Nil || id != s.block.id ==> (Holds(id) <==> old(Holds(id)))
    {
      if size <= 0 {
        return Nil;
      }
      if size > MAX_INT32 {
        var b := Allocate(size);
        return Slice(b, size, size);
      }
      var idx := Index(size);
      IndexIsLeast(size);
      if choice >= |pools[idx]| {
        var b := Allocate(Pow2(idx));
        return Slice(b, size, Pow2(idx));
      }
      assert At(idx, choice, pools[idx][choice]);
      var b := Remove(idx, choice);
      s := Slice(b, size, Pow2(idx));
    }

    /** Gives a slice's block back, to the bucket of the largest power of two within the slice's capacity.
     Blocks stay apart if and only if the slice was not given back before. */
    method Put(buf: Slice)
      requires Valid() && InMemory(buf) && (buf.Slice? ==> buf.block.id < next)
      modifies pools
      ensures Valid()
      ensures forall id :: Holds(id) <==> old(Holds(id)) || (Storable(buf) && id == buf.block.id)
      ensures Distinct() <==> old(Distinct()) && !(Storable(buf) && old(Holds(buf.block.id)))
      ensures Storable(buf) ==>
                exists i :: 0 <= i < 31 && Pow2(i) <= buf.cap < Pow2(i + 1) && At(i, |old(pools[i])|, buf.block)
    {
      if buf == Nil {
        return;
      }
      var size := buf.cap;
      if size == 0 || size > MAX_INT32 {
        return;
      }
      var idx := Index(size);
      IndexIsLeast(size);
      Pow2At31();
      if size != Pow2(idx) {
        idx := idx - 1;
      }
      assert Pow2(idx) <= size < Pow2(idx + 1);
      Store(idx, buf.block);
    }
  }

  /** What users and the garbage collector do with the pool: get a slice, give held slice k back, cut to
   at most `cap`, give back a slice that did not come from the pool, or drop a block. */
  datatype Op =
    | GetOp(size: int, choice: nat)
    | PutOp(k: nat, cap: nat)
    | ForeignOp(capacity: nat)
    | DropOp(i: nat, j: nat)

  predicate InMemoryAll(held: seq<Slice>) {
    forall k :: 0 <= k < |held| ==> held[k].Slice? && InMemory(held[k])
  }

  /** No two slices share memory. */
  predicate Disjoint(held: seq<Slice>)
    requires InMemoryAll(held)
  {
    forall k, m :: 0 <= k < m < |held| ==> held[k].block.id != held[m].block.id
  }

  function Sizes(ops: seq<Op>): seq<int> {
    if ops == [] then [] else
    var last := ops[|ops| - 1];
    Sizes(ops[..|ops| - 1]) + if last.GetOp? && last.size > 0 then [last.size] else []
  }

  /** Any use of a pool: every slice that comes out has the length asked for and lies within its block,
   whatever went in before, and slices that are held at the same time never share a block. */
  method Use(ops: seq<Op>) returns (got: seq<Slice>, held: seq<Slice>)
    ensures InMemoryAll(got) && |got| == |Sizes(ops)| && forall k :: 0 <= k < |got| ==> got[k].length == Sizes(ops)[k]
    ensures InMemoryAll(held) && Disjoint(held) && forall k :: 0 <= k < |held| ==> held[k] in got
  {
    var p := new Pool();
    got, held := [], [];
    for n := 0 to |ops|
      invariant fresh(p) && fresh(p.pools) && p.Valid() && p.Distinct() && OutOf(p, held)
      invariant InMemoryAll(got) && |got| == |Sizes(ops[..n])|
      invariant forall k :: 0 <= k < |got| ==> got[k].length == Sizes(ops[..n])[k]
      invariant forall k :: 0 <= k < |held| ==> held[k] in got
    {
      assert ops[..n + 1][..n] == ops[..n];
      var s;
      s, held := UseOnce(p, ops[n], held);
      if s != Nil {
        got := got + [s];
      }
    }
    assert ops[..|ops|] == ops;
  }

  /** The held slices are apart from each other and from the pool. */
  ghost predicate OutOf(p: Pool, held: seq<Slice>)
    reads p, p.pools
  {
    && InMemoryAll(held) && Disjoint(held)
    && forall k :: 0 <= k < |held| ==> held[k].block.id < p.next && !p.Holds(held[k].block.id)
  }

  method UseOnce(p: Pool, op: Op, held: seq<Slice>) returns (s: Slice, held': seq<Slice>)
    requires p.Valid() && p.Distinct() && OutOf(p, held)
    modifies p, p.pools
    ensures p.Valid() && p.Distinct() && OutOf(p, held') && InMemory(s)
    ensures s != Nil <==> op.GetOp? && op.size > 0
    ensures s != Nil ==> s.length == op.size
    ensures forall k :: 0 <= k < |held'| ==> held'[k] in held || (held'[k] == s && s != Nil)
  {
    s, held' := Nil, held;
    match op {
      case GetOp(size, choice) =>
        s := p.Get(size, choice);
        if s != Nil {
          held' := held + [s];
        }
      case PutOp(k, cap) =>
        if k < |held| {
          var h := held[k];
          held' := held[..k] + held[k + 1..];
          p.Put(Slice(h.block, if h.length < cap then h.length else cap, if h.cap < cap then h.cap else cap));
        }
      case ForeignOp(capacity) =>
        var b := p.Allocate(capacity);
        p.Put(Slice(b, 0, capacity));
      case DropOp(i, j) =>
        if i < 32 && j < |p.pools[i]| {
          var b := p.Remove(i, j);
        }
    }
  }
}
