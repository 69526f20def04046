/**
 What happens to handlers that write more than they declared, for every sequence of calls: when a write
 is rejected, when the exchange panics, and what is sent when it does not. All of it is told from the
 calls alone.
 */
module ResponseLimits {
  import opened Bytes
  import opened Common
  import opened Rfc7230
  import opened ResponseSpec
  import opened ResponseRuns
  import opened ResponseTheorems

  // ---------------------------------------------------------------- told from the calls

  /** The declared length is enforced: it is usable, and the status allows a body. */
  predicate Limited(c: Setup, calls: seq<Call>) {
    ModeOf(c.cl, c.te).ByLength? && BodyAllowedForStatus(StatusOf(calls))
  }

  function Limit(c: Setup): int
    requires ModeOf(c.cl, c.te).ByLength?
  {
    ParseInt(c.cl).value
  }

  predicate Writing(call: Call) {
    call.CallWrite? && call.data != []
  }

  /** The bytes written after the last flush. */
  function Since(calls: seq<Call>): nat {
    if calls == [] then 0 else
    var last := calls[|calls| - 1];
    if last == CallFlush then 0
    else Since(calls[..|calls| - 1]) + if last.CallWrite? then |last.data| else 0
  }

  /** Some write passed the buffer's size without passing the limit: from then on nothing is buffered. */
  predicate Overflowed(c: Setup, calls: seq<Call>)
    requires ModeOf(c.cl, c.te).ByLength?
  {
    calls != [] &&
    (Overflowed(c, calls[..|calls| - 1]) || (Writing(calls[|calls| - 1]) && |c.buffer| < Since(calls) <= Limit(c)))
  }

  /** What the code compares with the limit: a flush forgets the bytes it sends, unless nothing is buffered any more. */
  function Counted(c: Setup, calls: seq<Call>): nat
    requires ModeOf(c.cl, c.te).ByLength?
  {
    if calls == [] then 0 else
    var before, last := calls[..|calls| - 1], calls[|calls| - 1];
    if last == CallFlush && !Overflowed(c, before) then 0
    else Counted(c, before) + if last.CallWrite? then |last.data| else 0
  }

  /** The write at the end of the calls passes the limit. */
  predicate PassesLimit(c: Setup, calls: seq<Call>)
    requires ModeOf(c.cl, c.te).ByLength?
  {
    calls != [] && Writing(calls[|calls| - 1]) && Counted(c, calls) > Limit(c)
  }

  /** Some write passed the limit. */
  predicate SomePasses(c: Setup, calls: seq<Call>)
    requires ModeOf(c.cl, c.te).ByLength?
  {
    calls != [] && (SomePasses(c, calls[..|calls| - 1]) || PassesLimit(c, calls))
  }

  /** More is counted than the buffer holds, and flushing would slice past its end. */
  predicate Overruns(c: Setup, calls: seq<Call>)
    requires ModeOf(c.cl, c.te).ByLength?
  {
    !Overflowed(c, calls) && Since(calls) > |c.buffer|
  }

  /** Some flush of the handler slices past the buffer. */
  predicate SomeFlushOverruns(c: Setup, calls: seq<Call>)
    requires ModeOf(c.cl, c.te).ByLength?
  {
    calls != [] &&
    var before := calls[..|calls| - 1];
    SomeFlushOverruns(c, before) || (calls[|calls| - 1] == CallFlush && Overruns(c, before))
  }

  // ---------------------------------------------------------------- the counters of a running response

  /** What the calls say about the counters. */
  datatype Count = Count(limited: bool, overflowed: bool, counted: nat, since: nat, passed: bool)

  function CountOf(c: Setup, calls: seq<Call>): Count {
    if ModeOf(c.cl, c.te).ByLength? then
      Count(Limited(c, calls), Overflowed(c, calls), Counted(c, calls), Since(calls), SomePasses(c, calls))
    else Count(false, false, 0, 0, false)
  }

  ghost predicate Tally(s: State, h: History, k: Count) {
    if k.limited then
      && (s.noCache <==> k.overflowed) && s.written == k.counted
      && (!k.overflowed ==> k.counted == k.since)
      && (h.rejected <==> k.passed)
    else !h.rejected
  }

  /** How one call moves the counters of a limited response. */
  predicate Moves(limit: int, size: nat, k: Count, call: Call, k': Count) {
    var n := if call.CallWrite? then |call.data| else 0;
    && k'.since == (if call == CallFlush then 0 else k.since + n)
    && (k'.overflowed <==> k.overflowed || (n > 0 && size < k'.since <= limit))
    && k'.counted == (if call == CallFlush && !k.overflowed then 0 else k.counted + n)
    && (k'.passed <==> k.passed || (n > 0 && k'.counted > limit))
  }

  lemma CountMoves(c: Setup, before: seq<Call>, call: Call, calls: seq<Call>)
    requires ModeOf(c.cl, c.te).ByLength? && calls == before + [call]
    ensures Moves(Limit(c), |c.buffer|, CountOf(c, before), call, CountOf(c, calls))
  {
    assert calls[..|calls| - 1] == before;
  }

  lemma SendCounts(t: State, p: seq<byte>)
    ensures Send(t, p).written == t.written && Send(t, p).noCache == t.noCache
  {
  }

  lemma OverflowCounts(t: State)
    requires t.written <= |t.buffer|
    ensures Overflow(t).noCache
  {
    if t.written > 0 {
      SendCounts(t.(noCache := true), t.buffer[..t.written]);
    }
  }

  lemma AcceptCounts(t: State, data: seq<byte>)
    requires !t.chunking && (t.noCache || t.written <= |t.buffer|)
    ensures var u, w := Accept(t, data), t.written + |data|;
      u.written == w && (u.noCache <==> t.noCache || w > |t.buffer|)
  {
    var w := t.written + |data|;
    if t.noCache {
      SendCounts(t.(written := w), data);
    } else if w > |t.buffer| {
      OverflowCounts(t);
      OverflowIs(t, data);
      SendCounts(Overflow(t).(written := w), data);
    }
  }

  /** What one Write does to the counters of a limited response whose header is written. */
  lemma WriteCounts(t: State, limit: int, data: seq<byte>)
    requires t.wroteHeader && !t.chunking && t.contentLength == limit >= 0 && BodyAllowedForStatus(t.status)
    requires InBounds(t) && data != []
    ensures var w := t.written + |data|;
      && Write(t, data).written == w
      && (Write(t, data).noCache <==> t.noCache || |t.buffer| < w <= limit)
      && (WriteOutcome(t, data) == if w > limit then ContentLength else NoError)
  {
    if t.written + |data| <= limit {
      AcceptCounts(t, data);
    }
  }

  /** A limited response, once its header is written. */
  lemma ReadyLimited(s: State, h: History, c: Setup, t: State)
    requires Inv(s, h, c.cl, c.te) && ModeOf(c.cl, c.te).ByLength? && t == Ready(s)
    ensures !t.chunking && t.contentLength == Limit(c) >= 0 && InBounds(t) && t.noCache == s.noCache
    ensures t.written == s.written
    ensures t.status == (if s.wroteHeader then s.status else 200) && t.buffer == s.buffer && Ready(t) == t
    ensures t.wroteHeader
  {
    ReadyKeeps(s, h, c.cl, c.te, 200);
  }

  lemma WriteOfReady(s: State, h: History, t: State, data: seq<byte>)
    requires t == Ready(s) && Ready(t) == t && InBounds(t)
    ensures Write(s, data) == Write(t, data) && WriteHistory(s, h, data) == WriteHistory(t, h, data)
  {
  }

  lemma WriteTally(s: State, h: History, k: Count, limit: int, data: seq<byte>, t: State, u: State, h': History,
          k': Count)
    requires Tally(s, h, k) && k.limited && k'.limited && Moves(limit, |t.buffer|, k, CallWrite(data), k')
    requires t.wroteHeader && !t.chunking && t.contentLength == limit >= 0 && BodyAllowedForStatus(t.status)
    requires InBounds(t)
    requires t.noCache == s.noCache && t.written == s.written
    requires u == Write(t, data) && Ready(t) == t && h' == WriteHistory(t, h, data)
    ensures Tally(u, h', k')
  {
    if data != [] {
      WriteCounts(t, limit, data);
    }
  }

  lemma FlushTally(s: State, h: History, k: Count, limit: int, size: nat, t: State, u: State, h': History, k': Count)
    requires Tally(s, h, k) && k.limited && k'.limited && Moves(limit, size, k, CallFlush, k')
    requires t.noCache == s.noCache && t.written == s.written && Flushes(t, u) && h'.rejected == h.rejected
    ensures Tally(u, h', k')
  {
  }

  lemma HeaderSteady(s: State, code: int)
    ensures WriteHeader(s, code).noCache == s.noCache && WriteHeader(s, code).written == s.written
  {
  }

  lemma LimitedTally(s: State, h: History, c: Setup, call: Call, x: Exchange, k: Count, k': Count)
    requires Inv(s, h, c.cl, c.te) && ModeOf(c.cl, c.te).ByLength? && |s.buffer| == |c.buffer|
    requires call.CallWrite? ==> BodyAllowedForStatus(if s.wroteHeader then s.status else 200)
    requires Tally(s, h, k) && k.limited && k'.limited && Moves(Limit(c), |c.buffer|, k, call, k')
    requires x == Handle(s, h, c, call) && x.Running?
    ensures Tally(x.s, x.h, k')
  {
    var t := Ready(s);
    ReadyLimited(s, h, c, t);
    match call
    case CallWriteHeader(code) =>
      HeaderSteady(s, code);
    case CallWrite(data) =>
      WriteTally(s, h, k, Limit(c), data, t, Write(t, data), WriteHistory(t, h, data), k');
      WriteOfReady(s, h, t, data);
    case CallFlush =>
      FlushFlushes(s);
      FlushTally(s, h, k, Limit(c), |c.buffer|, t, Flush(s), FlushHistory(s, h), k');
  }

  /** No write is rejected for its length where the status allows no body. */
  lemma BodilessTally(s: State, h: History, c: Setup, call: Call, x: Exchange)
    requires Inv(s, h, c.cl, c.te) && !h.rejected && x == Handle(s, h, c, call) && x.Running?
    requires call.CallWrite? ==> !BodyAllowedForStatus(if s.wroteHeader then s.status else 200)
    ensures !x.h.rejected
  {
    ReadySteady(s, 200);
  }

  lemma UnlimitedTally(s: State, h: History, c: Setup)
    requires Inv(s, h, c.cl, c.te) && !ModeOf(c.cl, c.te).ByLength?
    ensures !h.rejected
  {
  }

  lemma StatusKept(before: seq<Call>, call: Call)
    ensures before != [] ==> StatusOf(before + [call]) == StatusOf(before)
    ensures before == [] && !call.CallWriteHeader? ==> StatusOf(before + [call]) == 200
  {
  }

  lemma HandleTally(s: State, h: History, c: Setup, before: seq<Call>, call: Call, calls: seq<Call>, x: Exchange)
    requires Inv(s, h, c.cl, c.te) && Tracks(s, h, c, before) && (before == [] ==> h == NoHistory)
    requires Tally(s, h, CountOf(c, before)) && calls == before + [call] && x == Handle(s, h, c, call) && x.Running?
    ensures Tally(x.s, x.h, CountOf(c, calls))
  {
    StatusKept(before, call);
    if !ModeOf(c.cl, c.te).ByLength? {
      UnlimitedTally(x.s, x.h, c);
    } else if !BodyAllowedForStatus(StatusOf(calls)) {
      BodilessTally(s, h, c, call, x);
    } else {
      CountMoves(c, before, call, calls);
      LimitedTally(s, h, c, call, x, CountOf(c, before), CountOf(c, calls));
    }
  }

  lemma HandledIs(c: Setup, before: seq<Call>, call: Call, calls: seq<Call>, x: Exchange)
    requires calls == before + [call] && x == Handled(c, before)
    ensures Handled(c, calls) == if x.Panicked? then Panicked else Handle(x.s, x.h, c, call)
  {
    assert calls[..|calls| - 1] == before;
  }

  ghost predicate Tallied(c: Setup, calls: seq<Call>) {
    Handled(c, calls).Running? ==> Tally(Handled(c, calls).s, Handled(c, calls).h, CountOf(c, calls))
  }

  lemma StartTally(c: Setup)
    ensures Tallied(c, [])
  {
  }

  lemma StepTally(c: Setup, before: seq<Call>, call: Call, calls: seq<Call>)
    requires calls == before + [call] && Tallied(c, before)
    ensures Tallied(c, calls)
  {
    var x := Handled(c, before);
    HandledIs(c, before, call, calls, x);
    if Handled(c, calls).Running? {
      HandledTracks(c, before);
      HandleTally(x.s, x.h, c, before, call, calls, Handled(c, calls));
    }
  }

  lemma {:induction false} HandledTally(c: Setup, calls: seq<Call>)
    ensures Tallied(c, calls)
  {
    if calls == [] {
      StartTally(c);
    } else {
      var before, call := calls[..|calls| - 1], calls[|calls| - 1];
      assert calls == before + [call];
      HandledTally(c, before);
      StepTally(c, before, call, calls);
    }
  }

  // ---------------------------------------------------------------- rejected writes

  /** A write was rejected for its length if and only if the length is enforced and some write passed the
   limit as it is counted. */
  lemma RejectsExactly(c: Setup, calls: seq<Call>)
    requires Handled(c, calls).Running?
    ensures Handled(c, calls).h.rejected <==> Limited(c, calls) && SomePasses(c, calls)
  {
    HandledTally(c, calls);
  }

  /** What a Write reports, told from the calls. */
  function Report(c: Setup, calls: seq<Call>, data: seq<byte>): WriteError {
    var more := calls + [CallWrite(data)];
    if data == [] then NoError
    else if !BodyAllowedForStatus(StatusOf(more)) then BodyNotAllowed
    else if ModeOf(c.cl, c.te).ByLength? && PassesLimit(c, more) then ContentLength
    else NoError
  }

  lemma ReadyOutcome(s: State, h: History, c: Setup, t: State)
    requires Inv(s, h, c.cl, c.te) && t == Ready(s)
    ensures t.written == s.written && t.status == if s.wroteHeader then s.status else 200
    ensures if ModeOf(c.cl, c.te).ByLength? then !t.chunking && t.contentLength == Limit(c) >= 0
            else t.contentLength == -1
  {
    ReadyKeeps(s, h, c.cl, c.te, 200);
    ReadySteady(s, 200);
  }

  /** In every run each Write reports exactly this to the handler. */
  lemma WritesReport(c: Setup, calls: seq<Call>, data: seq<byte>)
    requires Handled(c, calls).Running?
    ensures WriteOutcome(Handled(c, calls).s, data) == Report(c, calls, data)
  {
    var x, more := Handled(c, calls), calls + [CallWrite(data)];
    HandledTracks(c, calls);
    HandledTally(c, calls);
    StatusKept(calls, CallWrite(data));
    ReadyOutcome(x.s, x.h, c, Ready(x.s));
    assert more[|more| - 1] == CallWrite(data);
    if ModeOf(c.cl, c.te).ByLength? {
      CountMoves(c, calls, CallWrite(data), more);
    }
  }

  // ---------------------------------------------------------------- panics

  /** When flushing a running response slices past its buffer. */
  lemma FlushOverruns(s: State, h: History, c: Setup, k: Count)
    requires Inv(s, h, c.cl, c.te) && |s.buffer| == |c.buffer| && Tally(s, h, k)
    ensures FlushPanics(Ready(s)) <==> k.limited && !k.overflowed && k.since > |c.buffer|
    ensures FlushPanics(Ready(s.(handlerDone := true))) <==> FlushPanics(Ready(s))
  {
    ReadyKeeps(s, h, c.cl, c.te, 200);
    ReadySteady(s, 200);
    HeaderSteady(s, 200);
    ReadyDone(s);
  }

  lemma HandlePanics(s: State, h: History, c: Setup, call: Call, k: Count)
    requires Inv(s, h, c.cl, c.te) && |s.buffer| == |c.buffer| && Tally(s, h, k)
    ensures Handle(s, h, c, call).Panicked? <==>
              InvalidCode(s, call) || (call == CallFlush && k.limited && !k.overflowed && k.since > |c.buffer|)
  {
    FlushOverruns(s, h, c, k);
  }

  lemma CallPanics(c: Setup, before: seq<Call>, call: Call, x: Exchange)
    requires x == Handled(c, before) && x.Running?
    ensures Handle(x.s, x.h, c, call).Panicked? <==>
              || (before == [] && call.CallWriteHeader? && !(100 <= call.code <= 999))
              || (call == CallFlush && Limited(c, before) && Overruns(c, before))
  {
    HandledTally(c, before);
    HandledTracks(c, before);
    HandlePanics(x.s, x.h, c, call, CountOf(c, before));
  }

  lemma OverrunMore(c: Setup, before: seq<Call>, call: Call, calls: seq<Call>)
    requires calls == before + [call]
    ensures Limited(c, calls) && SomeFlushOverruns(c, calls) <==>
              Limited(c, before) && (SomeFlushOverruns(c, before) || (call == CallFlush && Overruns(c, before)))
    ensures ValidStatus(calls) <==>
              ValidStatus(before) && !(before == [] && call.CallWriteHeader? && !(100 <= call.code <= 999))
  {
    assert calls[..|calls| - 1] == before;
    StatusKept(before, call);
  }

  ghost predicate PanicsRight(c: Setup, calls: seq<Call>) {
    Handled(c, calls).Panicked? <==> !ValidStatus(calls) || (Limited(c, calls) && SomeFlushOverruns(c, calls))
  }

  lemma StepPanics(c: Setup, before: seq<Call>, call: Call, calls: seq<Call>)
    requires calls == before + [call] && PanicsRight(c, before)
    ensures PanicsRight(c, calls)
  {
    var x := Handled(c, before);
    HandledIs(c, before, call, calls, x);
    OverrunMore(c, before, call, calls);
    if x.Running? {
      CallPanics(c, before, call, x);
    }
  }

  lemma StartPanics(c: Setup)
    ensures PanicsRight(c, [])
  {
  }

  lemma {:induction false} HandledPanics(c: Setup, calls: seq<Call>)
    ensures PanicsRight(c, calls)
  {
    if calls == [] {
      StartPanics(c);
    } else {
      var before, call := calls[..|calls| - 1], calls[|calls| - 1];
      assert calls == before + [call];
      HandledPanics(c, before);
      StepPanics(c, before, call, calls);
    }
  }

  lemma EndPanics(c: Setup, calls: seq<Call>)
    requires Handled(c, calls).Running?
    ensures Served(c, calls).Panicked? <==> Limited(c, calls) && Overruns(c, calls)
  {
    HandledTally(c, calls);
    HandledTracks(c, calls);
    FlushOverruns(Handled(c, calls).s, Handled(c, calls).h, c, CountOf(c, calls));
  }

  /** An exchange panics if and only if its first call sets an invalid status, or the length is enforced and
   the handler's end or one of its flushes finds more counted than the buffer holds. */
  lemma PanicsExactly(c: Setup, calls: seq<Call>)
    ensures Served(c, calls).Panicked? <==>
              !ValidStatus(calls) || (Limited(c, calls) && (Overruns(c, calls) || SomeFlushOverruns(c, calls)))
  {
    HandledPanics(c, calls);
    if Handled(c, calls).Running? {
      EndPanics(c, calls);
    }
  }

  // ---------------------------------------------------------------- statuses without a body

  /** Nothing was accepted, and nothing waits. */
  ghost predicate Bare(s: State, h: History) {
    s.written == 0 && h == NoHistory.(flushed := h.flushed)
  }

  ghost predicate StaysBare(c: Setup, calls: seq<Call>) {
    Handled(c, calls).Running? && !BodyAllowedForStatus(StatusOf(calls)) ==>
      Bare(Handled(c, calls).s, Handled(c, calls).h)
  }

  lemma HandleBare(s: State, h: History, c: Setup, call: Call, x: Exchange)
    requires Inv(s, h, c.cl, c.te) && Bare(s, h) && x == Handle(s, h, c, call) && x.Running?
    requires call.CallWrite? ==> !BodyAllowedForStatus(if s.wroteHeader then s.status else 200)
    ensures Bare(x.s, x.h)
  {
    var t := Ready(s);
    ReadyKeeps(s, h, c.cl, c.te, 200);
    HeaderSteady(s, 200);
    ReadySteady(s, 200);
    match call
    case CallWriteHeader(code) => HeaderSteady(s, code);
    case CallWrite(data) =>
    case CallFlush => FlushFlushes(s);
  }

  lemma StartBare(c: Setup)
    ensures StaysBare(c, []) && Bare(Start(c).s, Start(c).h)
  {
  }

  lemma StepBare(c: Setup, before: seq<Call>, call: Call, calls: seq<Call>)
    requires calls == before + [call] && StaysBare(c, before)
    ensures StaysBare(c, calls)
  {
    var x := Handled(c, before);
    HandledIs(c, before, call, calls, x);
    if Handled(c, calls).Running? && !BodyAllowedForStatus(StatusOf(calls)) {
      HandledTracks(c, before);
      StatusKept(before, call);
      StartBare(c);
      HandleBare(x.s, x.h, c, call, Handled(c, calls));
    }
  }

  lemma {:induction false} HandledBare(c: Setup, calls: seq<Call>)
    ensures StaysBare(c, calls)
  {
    if calls == [] {
      StartBare(c);
    } else {
      var before, call := calls[..|calls| - 1], calls[|calls| - 1];
      assert calls == before + [call];
      HandledBare(c, before);
      StepBare(c, before, call, calls);
    }
  }

  lemma BareFinish(s: State, h: History, u: State, c: Setup)
    requires Inv(s, h, c.cl, c.te) && Bare(s, h) && Finished(u, h, FlushedPieces(Ready(s), h), c.cl, c.te)
    ensures u.bodyOut == if ModeOf(c.cl, c.te).ByChunks? then LAST_CHUNK else []
  {
    HeaderSteady(s, 200);
    assert [] + LAST_CHUNK == LAST_CHUNK;
  }

  /** A response whose status allows no body, such as 204 or 304, always completes, and sends the last chunk
   after its header block if chunked was declared. */
  lemma BodilessBody(c: Setup, calls: seq<Call>)
    requires ValidStatus(calls) && !BodyAllowedForStatus(StatusOf(calls))
    ensures Served(c, calls).Running?
    ensures Served(c, calls).s.bodyOut == if ModeOf(c.cl, c.te).ByChunks? then LAST_CHUNK else []
  {
    var x := Handled(c, calls);
    PanicsExactly(c, calls);
    HandledBare(c, calls);
    ServedFinishes(c, calls);
    BareFinish(x.s, x.h, Served(c, calls).s, c);
  }

  // ---------------------------------------------------------------- instances

  lemma OneCall(c: Setup, call: Call)
    requires ModeOf(c.cl, c.te).ByLength? && Writing(call)
    ensures Since([call]) == Counted(c, [call]) == |call.data|
    ensures Overflowed(c, [call]) <==> |c.buffer| < |call.data| <= Limit(c)
    ensures SomePasses(c, [call]) <==> |call.data| > Limit(c)
    ensures !SomeFlushOverruns(c, [call])
  {
    assert [call][..0] == [];
  }

  /** A single write longer than declared is rejected, and finishing then panics exactly when it
   is also longer than the buffer. */
  lemma OverlongWrite(c: Setup, data: seq<byte>)
    requires TooLong(c, data)
    ensures Handled(c, [CallWrite(data)]).Running? && Handled(c, [CallWrite(data)]).h.rejected
    ensures Served(c, [CallWrite(data)]).Panicked? <==> |data| > |c.buffer|
  {
    var calls := [CallWrite(data)];
    OneCall(c, calls[0]);
    HandledPanics(c, calls);
    RejectsExactly(c, calls);
    PanicsExactly(c, calls);
  }

  lemma FlushBetween(c: Setup, a: seq<byte>, b: seq<byte>)
    requires ModeOf(c.cl, c.te).ByLength? && 0 < |a| <= Limit(c) && 0 < |b| <= Limit(c) < |a| + |b|
    ensures var calls := [CallWrite(a), CallFlush, CallWrite(b)];
      && (SomePasses(c, calls) <==> |a| > |c.buffer|) && !SomeFlushOverruns(c, calls)
  {
    var one, two, calls := [CallWrite(a)], [CallWrite(a), CallFlush], [CallWrite(a), CallFlush, CallWrite(b)];
    OneCall(c, CallWrite(a));
    assert two[..1] == one && calls[..2] == two;
    CountMoves(c, one, CallFlush, two);
    CountMoves(c, two, CallWrite(b), calls);
  }

  /** A flush of buffered data forgets how much was written: two writes that together pass the declared
   length, with a flush between them, are rejected only if the first had overflowed the buffer. */
  lemma FlushForgetsLength(c: Setup, a: seq<byte>, b: seq<byte>)
    requires ModeOf(c.cl, c.te).ByLength? && 0 < |a| <= Limit(c) && 0 < |b| <= Limit(c) < |a| + |b|
    ensures var x := Handled(c, [CallWrite(a), CallFlush, CallWrite(b)]);
      x.Running? && (x.h.rejected <==> |a| > |c.buffer|)
  {
    var calls := [CallWrite(a), CallFlush, CallWrite(b)];
    FlushBetween(c, a, b);
    HandledPanics(c, calls);
    RejectsExactly(c, calls);
  }
}
