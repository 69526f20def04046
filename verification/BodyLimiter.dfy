/**
 The body of a request: reads from the connection's buffered reader, but never beyond the declared
 length, so that the next pipelined request starts at the right byte.
 */
module BodyLimiter {
  import opened Bytes
  import opened Common

  /** The chunk that io.Discard reads at a time. */
  const DISCARD_SIZE := 8192

  datatype Error = NoError | EOF | Failed

  /** What the underlying reader does: it gives k bytes, as far as there are so many, or fails. */
  datatype Answer = Gives(k: nat) | Fails

  /** The buffered reader of the connection. */
  class Reader {
    const input: seq<byte>
    var pos: nat

    ghost predicate Valid()
      reads this
    {
      pos <= |input|
    }

    constructor (input: seq<byte>)
      ensures Valid() && this.input == input && pos == 0
    {
      this.input, pos := input, 0;
    }

    /** Read(p[:m]): at the end of the input it says EOF. */
    method Read(p: array<byte>, m: nat, answer: Answer) returns (n: nat, err: Error)
      requires Valid() && m <= p.Length
      modifies this`pos, p
      ensures Valid() && pos == old(pos) + n && n <= m
      ensures p[..n] == input[old(pos)..pos] && p[n..] == old(p[n..])
      ensures n == if answer.Gives? then Min(answer.k, Min(m, |input| - old(pos))) else 0
      ensures err == if answer.Fails? then Failed else if m > 0 && old(pos) == |input| then EOF else NoError
    {
      if answer.Fails? {
        return 0, Failed;
      }
      n := Min(answer.k, Min(m, |input| - pos));
      err := if m > 0 && pos == |input| then EOF else NoError;
      forall j | 0 <= j < n {
        p[j] := input[pos + j];
      }
      pos := pos + n;
    }
  }

  function Max0(l: int): nat {
    if l < 0 then 0 else l
  }

  class Body {
    const b: Reader
    var i: int
    const l: int
    ghost const start: nat

    /** The reader is exactly as far in the body as the index says, and not beyond it. */
    ghost predicate Valid()
      reads this, b
    {
      b.Valid() && b.pos == start + i && 0 <= i <= Max0(l)
    }

    constructor (b: Reader, l: int)
      requires b.Valid()
      ensures Valid() && this.b == b && this.l == l && i == 0 && start == b.pos
    {
      this.b, this.l, i, start := b, l, 0, b.pos;
    }

    method Read(p: array<byte>, m: nat, answer: Answer) returns (n: nat, err: Error)
      requires Valid() && m <= p.Length
      modifies this`i, b`pos, p
      ensures Valid() && i == old(i) + n && n <= m && b.pos == old(b.pos) + n
      ensures p[..n] == b.input[old(b.pos)..b.pos] && p[n..] == old(p[n..])
      ensures old(i) >= l ==> err == EOF && n == 0
      ensures old(i) < l && answer.Fails? ==> err == Failed && n == 0
      ensures old(i) < l && answer.Gives? ==> n == Min(answer.k, Min(Min(m, l - old(i)), |b.input| - old(b.pos)))
      ensures old(i) < l && answer.Gives? ==> err == if m > 0 && old(b.pos) == |b.input| then EOF else NoError
    {
      if i >= l {
        return 0, EOF;
      }
      if i + m <= l {
        n, err := b.Read(p, m, answer);
        i := i + n;
        return;
      }
      n, err := b.Read(p, l - i, answer);
      i := i + n;
    }

    /** Reads and drops the rest, or what there is of it. */
    method Close(answers: seq<Answer>)
      requires Valid()
      modifies this`i, b`pos
      ensures Valid()
      ensures b.pos == old(b.pos) + Dropped(Max0(l) - old(i), |b.input| - old(b.pos), answers, 0)
      ensures KeepsGiving(answers, l - old(i)) ==> b.pos == Min(start + Max0(l), |b.input|)
    {
      if l <= 0 {
        return;
      }
      if i >= l {
        return;
      }
      var _ := CopyN(l - i, answers);
    }

    /** io.CopyN(ioutil.Discard, b, n): stops at the limit or at the first error. Answers that run out stand for one. */
    method CopyN(n: nat, answers: seq<Answer>) returns (err: Error)
      requires Valid() && n == l - i
      modifies this`i, b`pos
      ensures Valid() && b.pos == old(b.pos) + Dropped(n, |b.input| - old(b.pos), answers, 0)
      ensures err == NoError <==> i == l
      ensures KeepsGiving(answers, n) ==> b.pos == Min(start + l, |b.input|)
    {
      var p := new byte[DISCARD_SIZE];
      var left, turn := n, 0;
      KeptGiving(n, |b.input| - b.pos, answers, 0);
      while left > 0
        invariant Valid() && left == l - i && turn <= |answers| && old(b.pos) <= b.pos
        invariant Dropped(n, |b.input| - old(b.pos), answers, 0) ==
                    b.pos - old(b.pos) + Dropped(left, |b.input| - b.pos, answers, turn)
        decreases |answers| - turn
      {
        if turn == |answers| {
          return Failed;
        }
        var m, e := Read(p, Min(DISCARD_SIZE, left), answers[turn]);
        if e != NoError {
          return e;
        }
        left := left - m;
        turn := turn + 1;
      }
      err := NoError;
    }
  }

  /** How much is dropped when `left` bytes are due and `available` bytes arrive: turn by turn what the reader
   gives, until nothing is left of either or it fails. */
  function Dropped(left: nat, available: nat, answers: seq<Answer>, turn: nat): (n: nat)
    requires turn <= |answers|
    ensures n <= left && n <= available
    decreases |answers| - turn
  {
    if left == 0 || available == 0 || turn == |answers| || answers[turn].Fails? then 0 else
    var n := Min(answers[turn].k, Min(Min(DISCARD_SIZE, left), available));
    n + Dropped(left - n, available - n, answers, turn + 1)
  }

  lemma {:induction false} KeptGiving(left: nat, available: nat, answers: seq<Answer>, turn: nat)
    requires turn <= |answers|
    ensures KeepsGiving(answers[turn..], left) ==> Dropped(left, available, answers, turn) == Min(left, available)
    ensures answers[0..] == answers
    decreases |answers| - turn
  {
    if KeepsGiving(answers[turn..], left) && left > 0 && available > 0 {
      assert answers[turn] == answers[turn..][0];
      var n := Min(answers[turn].k, Min(Min(DISCARD_SIZE, left), available));
      assert answers[turn + 1..] == answers[turn..][1..];
      KeptGiving(left - n, available - n, answers, turn + 1);
    }
  }

  /** The reader never fails, and gives something at each of at least n turns. */
  predicate KeepsGiving(answers: seq<Answer>, n: int) {
    |answers| >= n && forall k :: 0 <= k < |answers| ==> answers[k].Gives? && answers[k].k > 0
  }

  /** A read of the handler: the size of its slice and the reader's answer. */
  datatype Call = Call(size: nat, answer: Answer)

  /** Where the handler's first k reads leave the reader. */
  function ReadUpTo(size: nat, l: int, calls: seq<Call>, k: nat): (n: nat)
    requires k <= |calls|
    ensures n <= Max0(l) && n <= size
  {
    if k == 0 then 0 else
    var n, call := ReadUpTo(size, l, calls, k - 1), calls[k - 1];
    if n >= l || call.answer.Fails? then n
    else n + Min(call.answer.k, Min(Min(call.size, l - n), size - n))
  }

  lemma OneReadMore(input: seq<byte>, at: nat, n: nat)
    requires at + n <= |input|
    ensures input[..at] + input[at..at + n] == input[..at + n]
  {
  }

  /** One read of the handler. */
  method ReadOnce(b: Body, call: Call) returns (data: seq<byte>)
    requires b.Valid() && b.start == 0
    modifies b`i, b.b`pos
    ensures b.Valid() && old(b.i) <= b.i && data == b.b.input[old(b.i)..b.i]
    ensures b.i == if old(b.i) >= b.l || call.answer.Fails? then old(b.i)
                   else old(b.i) + Min(call.answer.k, Min(Min(call.size, b.l - old(b.i)), |b.b.input| - old(b.i)))
  {
    var p := new byte[call.size];
    var n, err := b.Read(p, p.Length, call.answer);
    data := p[..n];
  }

  /** Any sequence of reads, then Close. The handler gets a prefix of the body, as much as its reads ask for and
   the reader gives. The reader stands at most at the end of the body, and exactly there, or at the end of what has
   arrived, unless it fails while the rest is dropped. */
  method Serve(input: seq<byte>, l: int, calls: seq<Call>, answers: seq<Answer>) returns (delivered: seq<byte>,
          consumed: nat)
    ensures delivered == input[..ReadUpTo(|input|, l, calls, |calls|)] && |delivered| <= consumed <= Max0(l)
    ensures consumed == |delivered| + Dropped(Max0(l) - |delivered|, |input| - |delivered|, answers, 0)
    ensures KeepsGiving(answers, l) ==> consumed == Min(Max0(l), |input|)
  {
    var r := new Reader(input);
    var b := new Body(r, l);
    delivered := ReadAll(b, calls);
    b.Close(answers);
    consumed := r.pos;
  }

  method ReadAll(b: Body, calls: seq<Call>) returns (delivered: seq<byte>)
    requires b.Valid() && b.start == 0 && b.i == 0
    modifies b`i, b.b`pos
    ensures b.Valid() && b.i == ReadUpTo(|b.b.input|, b.l, calls, |calls|) && delivered == b.b.input[..b.i]
  {
    delivered := [];
    for j := 0 to |calls|
      invariant b.Valid() && b.i == ReadUpTo(|b.b.input|, b.l, calls, j) && delivered == b.b.input[..b.i]
    {
      ghost var at := b.i;
      var data := ReadOnce(b, calls[j]);
      OneReadMore(b.b.input, at, b.i - at);
      delivered := delivered + data;
    }
  }
}
