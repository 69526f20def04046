/**
 What a response with an enforced length sends, for every sequence of calls. A rejected write is counted
 though it is not copied, so that the next flush sends in its place that many bytes of whatever the buffer held:
 data of earlier calls, or what the buffer's last user left.
 */
module ResponseSent {
  import opened Bytes
  import opened Common
  import opened Rfc7230
  import opened ResponseSpec
  import opened ResponseRuns
  import opened ResponseTheorems
  import opened ResponseLimits

  // ---------------------------------------------------------------- told from the calls

  /** The data of the writes that are not rejected. */
  function Kept(c: Setup, calls: seq<Call>): seq<byte>
    requires ModeOf(c.cl, c.te).ByLength?
  {
    if calls == [] then [] else
    var last := calls[|calls| - 1];
    Kept(c, calls[..|calls| - 1]) + if Writing(last) && !PassesLimit(c, calls) then last.data else []
  }

  /** How many bytes the rejected writes reserved in the buffer. */
  function Stale(c: Setup, calls: seq<Call>): nat
    requires ModeOf(c.cl, c.te).ByLength?
  {
    if calls == [] then 0 else
    Stale(c, calls[..|calls| - 1]) +
    if PassesLimit(c, calls) && !Overflowed(c, calls) then |calls[|calls| - 1].data| else 0
  }

  function Overwritten(b: seq<byte>, n: nat, data: seq<byte>): (b': seq<byte>)
    ensures |b'| == |b|
  {
    if n + |data| <= |b| then b[..n] + data + b[n + |data|..] else b
  }

  function Between(b: seq<byte>, i: nat, j: nat): seq<byte> {
    if i <= j <= |b| then b[i..j] else []
  }

  /** The buffer after a write of data at n: only an accepted write that stays in the buffer is copied. */
  function LeftNext(left: seq<byte>, n: nat, data: seq<byte>, passes: bool, over: bool): seq<byte> {
    if passes || over then left else Overwritten(left, n, data)
  }

  /** What a write of data at n puts into the output: its data, or, for a rejected one that reserves bytes
   in the buffer, what the buffer holds there. */
  function Yields(left: seq<byte>, n: nat, data: seq<byte>, passes: bool, over: bool): seq<byte> {
    if !passes then data else if over then [] else Between(left, n, n + |data|)
  }

  /** What the calls leave in the buffer. */
  function Left(c: Setup, calls: seq<Call>): (b: seq<byte>)
    requires ModeOf(c.cl, c.te).ByLength?
    ensures |b| == |c.buffer|
  {
    if calls == [] then c.buffer else
    var before, last := calls[..|calls| - 1], calls[|calls| - 1];
    if !Writing(last) then Left(c, before)
    else LeftNext(Left(c, before), Counted(c, before), last.data, PassesLimit(c, calls), Overflowed(c, calls))
  }

  /** What the calls send, up to what is still buffered. */
  function Output(c: Setup, calls: seq<Call>): seq<byte>
    requires ModeOf(c.cl, c.te).ByLength?
  {
    if calls == [] then [] else
    var before, last := calls[..|calls| - 1], calls[|calls| - 1];
    if !Writing(last) then Output(c, before)
    else Output(c, before) +
         Yields(Left(c, before), Counted(c, before), last.data, PassesLimit(c, calls), Overflowed(c, calls))
  }

  // ---------------------------------------------------------------- one call

  function Waiting(s: State): seq<byte>
    requires s.noCache || s.written <= |s.buffer|
  {
    if s.noCache then [] else s.buffer[..s.written]
  }

  /** The buffer holds what the calls left there, and what was sent and what waits is the output, unless more is
   counted than the buffer holds and the next flush will panic. */
  ghost predicate Balance(s: State, out: seq<byte>, left: seq<byte>) {
    s.buffer == left && (s.noCache || s.written <= |s.buffer| ==> s.bodyOut + Waiting(s) == out)
  }

  /** A response with a declared length, once its header is written. */
  ghost predicate Plain(t: State) {
    t.wroteHeader && !t.head && t.setCl != "" && !t.chunking && InBounds(t)
  }

  lemma SendPlain(t: State, p: seq<byte>, u: State)
    requires Plain(t) && Sends(t, p, u)
    ensures u.bodyOut == t.bodyOut + p && u.noCache == t.noCache && u.written == t.written && u.buffer == t.buffer
    ensures u.setCl == t.setCl && !u.chunking
  {
  }

  lemma Joined(a: seq<byte>, b: seq<byte>, d: seq<byte>, out: seq<byte>)
    requires a + b == out
    ensures a + (b + d) == out + d && a + b + d == out + d && a + b + [] == out
  {
  }

  lemma PassedBalance(t: State, data: seq<byte>, u: State, out: seq<byte>, left: seq<byte>)
    requires Plain(t) && t.noCache && Balance(t, out, left) && Sends(t.(written := t.written + |data|), data, u)
    ensures Balance(u, out + data, left)
  {
    SendPlain(t.(written := t.written + |data|), data, u);
    Joined(t.bodyOut, [], data, out);
    assert t.bodyOut + [] == t.bodyOut && u.bodyOut + [] == u.bodyOut;
  }

  lemma InBufferBalance(t: State, data: seq<byte>, u: State, out: seq<byte>, left: seq<byte>)
    requires Plain(t) && !t.noCache && Balance(t, out, left) && t.written + |data| <= |t.buffer|
    requires u == t.(written := t.written + |data|, buffer := Overwritten(t.buffer, t.written, data))
    ensures Balance(u, out + data, Overwritten(left, t.written, data))
  {
    Copied(t.buffer, t.written, data, u.buffer);
    Joined(t.bodyOut, t.buffer[..t.written], data, out);
  }

  lemma OverflowBalance(t: State, b: seq<byte>, data: seq<byte>, u1: State, u: State, out: seq<byte>, left: seq<byte>)
    requires Plain(t) && !t.noCache && Balance(t, out, left) && t.written <= |t.buffer| && b == t.buffer[..t.written]
    requires u1.bodyOut == t.bodyOut + b && u1.noCache && u1.buffer == t.buffer && Plain(u1) && Sends(u1, data, u)
    ensures Balance(u, out + data, left)
  {
    SendPlain(u1, data, u);
    Joined(t.bodyOut, b, data, out);
    assert u.bodyOut + [] == u.bodyOut;
  }

  lemma OverflowPlain(t: State, w: nat)
    requires Plain(t) && t.written <= |t.buffer|
    ensures var u := Overflow(t).(written := w);
      u.bodyOut == t.bodyOut + t.buffer[..t.written] && u.noCache && Plain(u)
          && u.buffer == t.buffer
  {
    if t.written > 0 {
      SendSends(t.(noCache := true), t.buffer[..t.written]);
      SendPlain(t.(noCache := true), t.buffer[..t.written], Overflow(t));
    } else {
      assert t.bodyOut + [] == t.bodyOut;
    }
  }

  lemma SpillBalance(t: State, data: seq<byte>, out: seq<byte>, left: seq<byte>)
    requires Plain(t) && Balance(t, out, left) && !t.noCache && t.written <= |t.buffer| < t.written + |data|
    ensures Balance(Accept(t, data), out + data, left)
  {
    var w := t.written + |data|;
    OverflowIs(t, data);
    OverflowPlain(t, w);
    SendSends(Overflow(t).(written := w), data);
    OverflowBalance(t, t.buffer[..t.written], data, Overflow(t).(written := w), Accept(t, data), out, left);
  }

  lemma AcceptBalance(t: State, data: seq<byte>, over: bool, out: seq<byte>, left: seq<byte>)
    requires Plain(t) && Balance(t, out, left) && (t.noCache || t.written <= |t.buffer|)
    requires over <==> t.noCache || t.written + |data| > |t.buffer|
    ensures Balance(Accept(t, data), out + data, LeftNext(left, t.written, data, false, over))
  {
    if t.noCache {
      SendSends(t.(written := t.written + |data|), data);
      PassedBalance(t, data, Accept(t, data), out, left);
    } else if t.written + |data| <= |t.buffer| {
      InBufferBalance(t, data, Accept(t, data), out, left);
    } else {
      SpillBalance(t, data, out, left);
    }
  }

  lemma Reserved(b: seq<byte>, i: nat, j: nat)
    requires i <= j <= |b|
    ensures b[..j] == b[..i] + Between(b, i, j)
  {
  }

  /** A rejected write takes what the buffer holds at its place into the output. */
  lemma RejectBalance(t: State, data: seq<byte>, out: seq<byte>, left: seq<byte>)
    requires Plain(t) && Balance(t, out, left)
    ensures Balance(t.(written := t.written + |data|), out + Yields(left, t.written, data, true, t.noCache), left)
  {
    var w := t.written + |data|;
    if t.noCache {
      assert out + [] == out;
    } else if w <= |t.buffer| {
      Reserved(t.buffer, t.written, w);
      Joined(t.bodyOut, t.buffer[..t.written], Between(t.buffer, t.written, w), out);
    }
  }

  lemma FlushBalance(t: State, u: State, out: seq<byte>, left: seq<byte>)
    requires Plain(t) && Balance(t, out, left) && Flushes(t, u)
    ensures Balance(u, out, left) && u.bodyOut == out
  {
    assert u.bodyOut + [] == u.bodyOut;
    assert t.bodyOut + [] == t.bodyOut;
  }

  // ---------------------------------------------------------------- over whole runs

  lemma WriteBalance(t: State, data: seq<byte>, limit: int, passes: bool, over: bool, out: seq<byte>, left: seq<byte>)
    requires Plain(t) && Balance(t, out, left) && Ready(t) == t && data != []
    requires t.contentLength == limit >= 0 && BodyAllowedForStatus(t.status)
    requires passes <==> t.written + |data| > limit
    requires over <==> t.noCache || |t.buffer| < t.written + |data| <= limit
    ensures Balance(Write(t, data), out + Yields(left, t.written, data, passes, over),
                    LeftNext(left, t.written, data, passes, over))
  {
    if passes {
      RejectBalance(t, data, out, left);
    } else {
      AcceptBalance(t, data, over, out, left);
    }
  }

  lemma OutputMoves(c: Setup, before: seq<Call>, call: Call, calls: seq<Call>)
    requires ModeOf(c.cl, c.te).ByLength? && calls == before + [call] && Writing(call)
    ensures var passes, over := PassesLimit(c, calls), Overflowed(c, calls);
      && Output(c, calls) == Output(c, before) + Yields(Left(c, before), Counted(c, before), call.data, passes, over)
      && Left(c, calls) == LeftNext(Left(c, before), Counted(c, before), call.data, passes, over)
  {
    assert calls[..|calls| - 1] == before;
  }

  lemma OutputStays(c: Setup, before: seq<Call>, call: Call, calls: seq<Call>)
    requires ModeOf(c.cl, c.te).ByLength? && calls == before + [call] && !Writing(call)
    ensures Output(c, calls) == Output(c, before) && Left(c, calls) == Left(c, before)
  {
    assert calls[..|calls| - 1] == before;
  }

  lemma WriteHeaderOut(s: State, code: int)
    ensures var t := WriteHeader(s, code);
      t.bodyOut == s.bodyOut && t.noCache == s.noCache && t.written == s.written && t.buffer == s.buffer
          && t.head == s.head
  {
  }

  lemma ReadyPlain(s: State, h: History, c: Setup, t: State, out: seq<byte>, left: seq<byte>)
    requires Inv(s, h, c.cl, c.te) && ModeOf(c.cl, c.te).ByLength? && !s.head && t == Ready(s)
    requires Balance(s, out, left)
    ensures Plain(t) && Balance(t, out, left)
  {
    ReadyKeeps(s, h, c.cl, c.te, 200);
    ReadyLimited(s, h, c, t);
    WriteHeaderOut(s, 200);
  }

  lemma HandleWriting(s: State, h: History, c: Setup, data: seq<byte>, x: Exchange, passes: bool, over: bool,
                      out: seq<byte>, left: seq<byte>)
    requires Inv(s, h, c.cl, c.te) && ModeOf(c.cl, c.te).ByLength? && !s.head && Balance(s, out, left) && data != []
    requires BodyAllowedForStatus(if s.wroteHeader then s.status else 200) && x == Handle(s, h, c, CallWrite(data))
    requires passes <==> s.written + |data| > Limit(c)
    requires over <==> s.noCache || |s.buffer| < s.written + |data| <= Limit(c)
    ensures x.Running? && Balance(x.s, out + Yields(left, s.written, data, passes, over),
                                  LeftNext(left, s.written, data, passes, over))
  {
    var t := Ready(s);
    ReadyLimited(s, h, c, t);
    ReadyPlain(s, h, c, t, out, left);
    WriteOfReady(s, h, t, data);
    WriteBalance(t, data, Limit(c), passes, over, out, left);
  }

  lemma HandleOther(s: State, h: History, c: Setup, call: Call, x: Exchange, out: seq<byte>, left: seq<byte>)
    requires Inv(s, h, c.cl, c.te) && ModeOf(c.cl, c.te).ByLength? && !s.head && Balance(s, out, left)
    requires !Writing(call) && x == Handle(s, h, c, call) && x.Running?
    ensures Balance(x.s, out, left)
  {
    var t := Ready(s);
    ReadyPlain(s, h, c, t, out, left);
    match call
    case CallWriteHeader(code) =>
      WriteHeaderOut(s, code);
    case CallWrite(data) =>
    case CallFlush =>
      FlushFlushes(s);
      FlushBalance(t, Flush(s), out, left);
  }

  ghost predicate Balanced(c: Setup, calls: seq<Call>) {
    Handled(c, calls).Running? && Limited(c, calls) && !c.head ==>
      Balance(Handled(c, calls).s, Output(c, calls), Left(c, calls))
  }

  lemma StartBalance(c: Setup)
    ensures Balanced(c, [])
  {
    assert [] + c.buffer[..0] == [];
  }

  lemma StepBalance(c: Setup, before: seq<Call>, call: Call, calls: seq<Call>, x: Exchange)
    requires calls == before + [call] && Balanced(c, before) && x == Handled(c, before)
    requires Handled(c, calls).Running? && Limited(c, calls) && !c.head && x.Running?
    requires Tally(x.s, x.h, CountOf(c, before)) && Tracks(x.s, x.h, c, before)
    requires Moves(Limit(c), |c.buffer|, CountOf(c, before), call, CountOf(c, calls)) && Limited(c, before)
    requires PassesLimit(c, calls) <==> Writing(call) && Counted(c, calls) > Limit(c)
    requires Handled(c, calls) == Handle(x.s, x.h, c, call)
    requires call.CallWrite? ==> BodyAllowedForStatus(if x.s.wroteHeader then x.s.status else 200)
    ensures Balanced(c, calls)
  {
    var out, left := Output(c, before), Left(c, before);
    if Writing(call) {
      OutputMoves(c, before, call, calls);
      HandleWriting(x.s, x.h, c, call.data, Handled(c, calls), PassesLimit(c, calls), Overflowed(c, calls), out, left);
    } else {
      OutputStays(c, before, call, calls);
      HandleOther(x.s, x.h, c, call, Handled(c, calls), out, left);
    }
  }

  lemma NextBalance(c: Setup, before: seq<Call>, call: Call, calls: seq<Call>)
    requires calls == before + [call] && Balanced(c, before)
    ensures Balanced(c, calls)
  {
    var x := Handled(c, before);
    HandledIs(c, before, call, calls, x);
    if Handled(c, calls).Running? && Limited(c, calls) && !c.head {
      HandledTracks(c, before);
      HandledTally(c, before);
      StatusKept(before, call);
      CountMoves(c, before, call, calls);
      assert calls[|calls| - 1] == call;
      StepBalance(c, before, call, calls, x);
    }
  }

  lemma {:induction false} HandledBalance(c: Setup, calls: seq<Call>)
    ensures Balanced(c, calls)
  {
    if calls == [] {
      StartBalance(c);
    } else {
      var before, call := calls[..|calls| - 1], calls[|calls| - 1];
      assert calls == before + [call];
      HandledBalance(c, before);
      NextBalance(c, before, call, calls);
    }
  }

  lemma FinishBalance(s: State, h: History, c: Setup, out: seq<byte>, left: seq<byte>)
    requires Inv(s, h, c.cl, c.te) && ModeOf(c.cl, c.te).ByLength? && !s.head && Balance(s, out, left)
    requires !FlushPanics(Ready(s.(handlerDone := true)))
    ensures Finish(s).bodyOut == out
  {
    var t, d := Ready(s), s.(handlerDone := true);
    ReadyPlain(s, h, c, t, out, left);
    ReadyDone(s);
    FlushFlushes(d);
    FlushBalance(t.(handlerDone := true), Flush(d), out, left);
  }

  // ---------------------------------------------------------------- how much of it nobody wrote

  lemma {:induction false} CountedIsSince(c: Setup, calls: seq<Call>)
    requires ModeOf(c.cl, c.te).ByLength? && !Overflowed(c, calls)
    ensures Counted(c, calls) == Since(calls)
    decreases |calls|
  {
    if calls != [] {
      CountedIsSince(c, calls[..|calls| - 1]);
    }
  }

  lemma {:induction false} OverrunPasses(c: Setup, calls: seq<Call>)
    requires ModeOf(c.cl, c.te).ByLength? && Overruns(c, calls)
    ensures Since(calls) > Limit(c)
    decreases |calls|
  {
    if calls != [] && !Writing(calls[|calls| - 1]) {
      OverrunPasses(c, calls[..|calls| - 1]);
    }
  }

  /** More counted than the buffer holds stays so until a flush. */
  lemma NoOverrunBefore(c: Setup, before: seq<Call>, call: Call, calls: seq<Call>)
    requires ModeOf(c.cl, c.te).ByLength? && calls == before + [call] && !Overruns(c, calls)
    requires !SomeFlushOverruns(c, calls)
    ensures !Overruns(c, before) && !SomeFlushOverruns(c, before)
  {
    assert calls[..|calls| - 1] == before;
    if Overruns(c, before) {
      OverrunPasses(c, before);
    }
  }

  lemma PutsCount(c: Setup, before: seq<Call>, call: Call, calls: seq<Call>)
    requires ModeOf(c.cl, c.te).ByLength? && calls == before + [call] && !Overruns(c, calls) && Writing(call)
    ensures var passes, over := PassesLimit(c, calls), Overflowed(c, calls);
      |Yields(Left(c, before), Counted(c, before), call.data, passes, over)| ==
      if passes && over then 0 else |call.data|
  {
    CountMoves(c, before, call, calls);
    if !Overflowed(c, calls) {
      CountedIsSince(c, calls);
    }
  }

  lemma KeptMoves(c: Setup, before: seq<Call>, call: Call, calls: seq<Call>)
    requires ModeOf(c.cl, c.te).ByLength? && calls == before + [call]
    ensures Kept(c, calls) == Kept(c, before) + if Writing(call) && !PassesLimit(c, calls) then call.data else []
    ensures Stale(c, calls) == Stale(c, before) +
              if PassesLimit(c, calls) && !Overflowed(c, calls) then |call.data| else 0
    ensures PassesLimit(c, calls) ==> Writing(call)
  {
    assert calls[..|calls| - 1] == before;
  }

  lemma {:induction false} OutputCounts(c: Setup, calls: seq<Call>)
    requires ModeOf(c.cl, c.te).ByLength? && !Overruns(c, calls) && !SomeFlushOverruns(c, calls)
    ensures |Output(c, calls)| == |Kept(c, calls)| + Stale(c, calls)
    ensures Stale(c, calls) == 0 ==> Output(c, calls) == Kept(c, calls)
    decreases |calls|
  {
    if calls != [] {
      var before, call := calls[..|calls| - 1], calls[|calls| - 1];
      assert calls == before + [call];
      NoOverrunBefore(c, before, call, calls);
      OutputCounts(c, before);
      KeptMoves(c, before, call, calls);
      if Writing(call) {
        OutputMoves(c, before, call, calls);
        PutsCount(c, before, call, calls);
      } else {
        OutputStays(c, before, call, calls);
      }
    }
  }

  /** A finished response with an enforced length has sent, call by call, the data of the writes that were not
   rejected and, for a rejected write that reserved bytes in the buffer, what earlier calls or the buffer's last
   user left at its place: what was sent is what the handler wrote if and only if there is none of these. */
  lemma SentExactly(c: Setup, calls: seq<Call>)
    requires Limited(c, calls) && !c.head && Served(c, calls).Running?
    ensures Served(c, calls).s.bodyOut == Output(c, calls)
    ensures |Output(c, calls)| == |Kept(c, calls)| + Stale(c, calls)
    ensures Output(c, calls) == Kept(c, calls) <==> Stale(c, calls) == 0
  {
    var x := Handled(c, calls);
    HandledBalance(c, calls);
    HandledTracks(c, calls);
    FinishBalance(x.s, x.h, c, Output(c, calls), Left(c, calls));
    PanicsExactly(c, calls);
    OutputCounts(c, calls);
  }

  /** For a single rejected write that fits the buffer these are the first bytes of the pooled buffer. */
  lemma StaleBytes(c: Setup, data: seq<byte>)
    requires TooLong(c, data) && |data| <= |c.buffer| && !c.head
    ensures Served(c, [CallWrite(data)]).Running? && Served(c, [CallWrite(data)]).s.bodyOut == c.buffer[..|data|]
  {
    var calls := [CallWrite(data)];
    OverlongWrite(c, data);
    OneCall(c, CallWrite(data));
    OutputMoves(c, [], CallWrite(data), calls);
    SentExactly(c, calls);
  }
}
