/**
 What an exchange guarantees, for every declaration, buffer and sequence of handler calls: which
 exchanges a reader of RFC 7230 gets back, that the framing is fixed once, and that no byte is lost
 between the buffer and the chunk writer.
 */
module ResponseTheorems {
  import opened Bytes
  import opened Common
  import opened Decimal
  import opened Rfc7230
  import opened ResponseSpec
  import opened ChunkedCoding
  import opened ResponseRuns
  import opened ResponseWire

  // ---------------------------------------------------------------- panics

  lemma PrefixCalls(c: Setup, calls: seq<Call>)
    requires calls != []
    ensures var before := calls[..|calls| - 1];
      && (!TooLong(c, DataOf(calls)) ==> !TooLong(c, DataOf(before)))
      && (ValidStatus(calls) ==> ValidStatus(before))
  {
    assert |calls| > 1 ==> calls[..|calls| - 1][0] == calls[0];
  }

  lemma NotRejected(s: State, h: History, c: Setup, calls: seq<Call>)
    requires Inv(s, h, c.cl, c.te) && Tracks(s, h, c, calls) && !TooLong(c, DataOf(calls))
    ensures !h.rejected && !FlushPanics(Ready(s)) && !FlushPanics(Ready(s.(handlerDone := true)))
  {
    ReadyKeeps(s, h, c.cl, c.te, 200);
    ReadyDone(s);
  }

  /** A handler with a valid status panics only if it writes more than it declared. */
  lemma {:induction false} NeverPanics(c: Setup, calls: seq<Call>)
    requires ValidStatus(calls) && !TooLong(c, DataOf(calls))
    ensures Handled(c, calls).Running? && !Handled(c, calls).h.rejected && Served(c, calls).Running?
  {
    if calls != [] {
      var before, last := calls[..|calls| - 1], calls[|calls| - 1];
      PrefixCalls(c, calls);
      NeverPanics(c, before);
      var x := Handled(c, before);
      HandledTracks(c, before);
      NotRejected(x.s, x.h, c, before);
      assert Handle(x.s, x.h, c, last).Running?;
    }
    HandledTracks(c, calls);
    NotRejected(Handled(c, calls).s, Handled(c, calls).h, c, calls);
  }

  // ---------------------------------------------------------------- the round trip

  /** Which exchanges end in a body that the reader gets back. The header block must end up with a
   plain length equal to what was written, or with a final chunked coding. */
  predicate RoundTrips(c: Setup, calls: seq<Call>) {
    match ModeOf(c.cl, c.te)
    case ByLength => AllDigits(c.cl) && Value(c.cl) == |DataOf(calls)|
    case ByChunks => FinalCodingIsChunked(c.te)
    case Auto => EarlyOf(calls) > |c.buffer| || (CallFlush !in calls && EffectiveTe(c.cl, c.te) == "")
  }

  /** What follows the header block is a body that the receiver reads as data. */
  ghost predicate Reads(wire: seq<Item>, data: seq<byte>) {
    HeaderOf(wire).Some? && Delivers(HeaderOf(wire).value.te, HeaderOf(wire).value.cl, BodyOf(wire), data)
  }

  ghost predicate Received(u: State, data: seq<byte>) {
    Reads(u.wire, data)
  }

  lemma LengthDelivers(cl: string, body: seq<byte>, data: seq<byte>)
    requires cl != ""
    ensures Delivers("", cl, body, data) ==> AllDigits(cl) && Value(cl) == |data|
    ensures AllDigits(cl) && Value(cl) == |data| && body == data ==> Delivers("", cl, body, data)
  {
    if Delivers("", cl, body, data) {
      assert DecodeBody("", cl, body + []) == Complete(data, []);
    }
  }

  lemma ChunkedDelivers(te: string, cl: string, ps: seq<seq<byte>>, body: seq<byte>)
    requires te != "" && (forall i :: 0 <= i < |ps| ==> ps[i] != []) && body == Chunks(ps) + LAST_CHUNK
    ensures Delivers(te, cl, body, Concat(ps)) <==> FinalCodingIsChunked(te)
  {
    if FinalCodingIsChunked(te) {
      forall rest: seq<byte> ensures DecodeBody(te, cl, body + rest) == Complete(Concat(ps), rest) {
        ChunksDecode(ps, rest);
      }
    } else {
      assert DecodeBody(te, cl, body + []).UntilClose?;
    }
  }

  /** Raw payload under a transfer coding, or with no framing at all, does not end by itself. */
  lemma RawDoesNotDeliver(te: string, cl: string, data: seq<byte>)
    requires te != "" || cl == ""
    ensures !Delivers(te, cl, data, data)
  {
    assert data + [] == data;
    if Delivers(te, cl, data, data) {
      assert DecodeBody(te, cl, data + []) == Complete(data, []);
      ChunkedCosts(data);
    }
  }

  lemma DigitsParse(cl: string)
    requires AllDigits(cl) && Declares(cl)
    ensures ParseInt(cl).value == Value(cl)
  {
    assert IsDigit(cl[0]);
  }

  lemma WithChunkedIsFinal(cl: string, te: string)
    requires ModeOf(cl, te).Auto?
    ensures FinalCodingIsChunked(WithChunked(EffectiveTe(cl, te))) && WithChunked(EffectiveTe(cl, te)) != ""
  {
    PlainChunkedIsFinal();
    AppendedChunkedIsFinal(EffectiveTe(cl, te));
  }

  lemma FinishedReceived(u: State, h: History, ps: seq<seq<byte>>, c: Setup, calls: seq<Call>)
    requires Finished(u, h, ps, c.cl, c.te) && !u.head && |u.buffer| == |c.buffer| && BodyAllowedForStatus(u.status)
    requires h.accepted == DataOf(calls) && h.early == EarlyOf(calls) && (h.flushed <==> CallFlush in calls)
    ensures Received(u, DataOf(calls)) <==> RoundTrips(c, calls)
  {
    var hd, data := u.headerOut.value, DataOf(calls);
    assert Concat(ps) + [] == Concat(ps);
    if u.chunking {
      if ModeOf(c.cl, c.te).Auto? {
        WithChunkedIsFinal(c.cl, c.te);
      }
      assert hd.te != "" by {
        assert !Contains("", "chunked");
      }
      ChunkedDelivers(hd.te, hd.cl, ps, u.bodyOut);
    } else if hd.te != "" || hd.cl == "" {
      RawDoesNotDeliver(hd.te, hd.cl, data);
    } else {
      LengthDelivers(hd.cl, data, data);
      NumeralParses(|data|);
    }
  }

  /** After a rejected write the declared length still goes out. */
  lemma RejectedHeader(s: State, h: History, c: Setup)
    requires Inv(s, h, c.cl, c.te) && ModeOf(c.cl, c.te).ByLength? && !FlushPanics(Ready(s.(handlerDone := true)))
    ensures var u := Finish(s); u.headerOut.Some? && u.headerOut.value.cl == c.cl && u.headerOut.value.te == ""
  {
    ReadyKeeps(s, h, c.cl, c.te, 200);
    ReadyDone(s);
    FlushFlushes(s.(handlerDone := true));
  }

  /** The body decodes to the concatenation of all Writes exactly when the declaration and the calls round-trip. */
  lemma RoundTrip(c: Setup, calls: seq<Call>)
    requires !c.head && ValidStatus(calls) && BodyAllowedForStatus(StatusOf(calls))
    ensures Served(c, calls).Running? && Received(Served(c, calls).s, DataOf(calls)) <==> RoundTrips(c, calls)
  {
    var data := DataOf(calls);
    if !TooLong(c, data) {
      NeverPanics(c, calls);
    } else if AllDigits(c.cl) {
      DigitsParse(c.cl);
    }
    if Served(c, calls).Running? {
      var x := Handled(c, calls);
      HandledTracks(c, calls);
      if x.h.rejected {
        RejectedHeader(x.s, x.h, c);
        LengthDelivers(c.cl, Finish(x.s).bodyOut, data);
      } else {
        ServedFinishes(c, calls);
        FinishedReceived(Finish(x.s), x.h, FlushedPieces(Ready(x.s), x.h), c, calls);
      }
    }
  }

  /** A finished exchange without a rejected write. */
  lemma ServedFinishes(c: Setup, calls: seq<Call>)
    requires Handled(c, calls).Running? && !Handled(c, calls).h.rejected
    ensures var x := Handled(c, calls);
      var u := Finish(x.s);
      && Served(c, calls) == Running(u, x.h) && Finished(u, x.h, FlushedPieces(Ready(x.s), x.h), c.cl, c.te)
      && u.head == c.head && |u.buffer| == |c.buffer| && u.status == StatusOf(calls)
  {
    var x := Handled(c, calls);
    HandledTracks(c, calls);
    FinishFinishes(x.s, x.h, c.cl, c.te);
    ReadySteady(x.s, 200);
    ReadyDone(x.s);
    FlushFlushes(x.s.(handlerDone := true));
  }

  /** A declared length with a sign is accepted, and sent as it is: no reader takes it. */
  lemma SignedLength(te: string, buffer: seq<byte>, calls: seq<Call>)
    ensures Declares("+5") && !RoundTrips(Setup(false, "+5", te, buffer), calls)
  {
    assert AllDigits("5") && "+5"[1..] == "5" && !IsDigit("+5"[0]);
    assert Value("5") == 5 by { assert "5"[..0] == ""; }
  }

  /** A declared Transfer-Encoding that contains chunked but does not end in it is sent as it is. */
  lemma ChunkedNotLast(buffer: seq<byte>, calls: seq<Call>)
    ensures !RoundTrips(Setup(false, "", "chunked, gzip", buffer), calls)
  {
    GzipIsLast();
    assert "chunked, gzip"[..7] == "chunked";
  }

  /** A declared Transfer-Encoding that ends in `, chunked` is recognised, whatever comes before. */
  lemma EndsInChunked(te: string)
    ensures ModeOf("", te + ", chunked").ByChunks? && FinalCodingIsChunked(te + ", chunked")
    ensures ModeOf("", "chunked").ByChunks? && FinalCodingIsChunked("chunked")
  {
    AppendedChunkedIsFinal(te);
    PlainChunkedIsFinal();
    assert OccursAt(te + ", chunked", "chunked", |te| + 2);
    ContainsExactly(te + ", chunked", "chunked");
    assert OccursAt("chunked", "chunked", 0);
    ContainsExactly("chunked", "chunked");
  }

  /** So such a response always comes back, for every buffer and all calls. */
  lemma ChunkedLast(te: string, buffer: seq<byte>, calls: seq<Call>)
    requires ValidStatus(calls) && BodyAllowedForStatus(StatusOf(calls))
    ensures forall te' :: te' in {"chunked", te + ", chunked"} ==>
              var x := Served(Setup(false, "", te', buffer), calls);
              x.Running? && x.s.chunking && Received(x.s, DataOf(calls))
  {
    EndsInChunked(te);
    forall te' | te' in {"chunked", te + ", chunked"}
      ensures var x := Served(Setup(false, "", te', buffer), calls);
        x.Running? && x.s.chunking && Received(x.s, DataOf(calls))
    {
      var c := Setup(false, "", te', buffer);
      NeverPanics(c, calls);
      ServedFinishes(c, calls);
      RoundTrip(c, calls);
    }
  }

  /** The code's rule for statuses without a body is that of RFC 7230. */
  lemma BodyRuleAgrees(status: int)
    ensures BodyAllowedForStatus(status) <==> !NeverHasBody(status)
  {
  }

  predicate KeepsCodings(te: string, declared: string, chunking: bool) {
    te == if !chunking || Contains(declared, "chunked") then declared
          else if declared == "" then "chunked" else declared + ", chunked"
  }

  lemma FinishedCodings(u: State, h: History, ps: seq<seq<byte>>, cl: string, te: string)
    requires Finished(u, h, ps, cl, te)
    ensures u.headerOut.Some? && KeepsCodings(u.headerOut.value.te, EffectiveTe(cl, te), u.chunking)
  {
  }

  lemma RejectedCodings(s: State, h: History, c: Setup)
    requires Inv(s, h, c.cl, c.te) && h.rejected && !FlushPanics(Ready(s.(handlerDone := true)))
    ensures var u := Finish(s);
      u.headerOut.Some? && KeepsCodings(u.headerOut.value.te, EffectiveTe(c.cl, c.te), u.chunking)
  {
    ReadyKeeps(s, h, c.cl, c.te, 200);
    RejectedHeader(s, h, c);
    FinishOnlyChunks(s, h, c.cl, c.te);
  }

  /** The declared codings go out as they were declared, with chunked added at most, and only when chunking. */
  lemma CodingsKept(c: Setup, calls: seq<Call>)
    requires Served(c, calls).Running?
    ensures var u := Served(c, calls).s;
      u.headerOut.Some? && KeepsCodings(u.headerOut.value.te, EffectiveTe(c.cl, c.te), u.chunking)
  {
    var x := Handled(c, calls);
    if x.h.rejected {
      RejectedCodings(x.s, x.h, c);
    } else {
      ServedFinishes(c, calls);
      FinishedCodings(Served(c, calls).s, x.h, FlushedPieces(Ready(x.s), x.h), c.cl, c.te);
    }
  }

  /** strconv.ParseInt takes the digits of a 64-bit number, with or without a sign. */
  lemma ParsesDigits(digits: string, plus: string, minus: string)
    requires AllDigits(digits) && plus == "+" + digits && minus == "-" + digits
    ensures var n: int := Value(digits);
      && ParseInt(digits) == ParseInt(plus) == (if n < 0x8000_0000_0000_0000 then Some(n) else None)
      && ParseInt(minus) == if n <= 0x8000_0000_0000_0000 then Some(-n) else None
  {
    assert IsDigit(digits[0]);
    assert plus[1..] == digits && minus[1..] == digits;
  }

  /** And nothing else. */
  lemma ParsesOnlyDigits(s: string) returns (sign: string, digits: string)
    requires ParseInt(s).Some?
    ensures s == sign + digits && AllDigits(digits) && |sign| <= 1 && (sign == "" || sign == "+" || sign == "-")
  {
    sign, digits := "", s;
    if s[0] == '+' || s[0] == '-' {
      sign, digits := [s[0]], s[1..];
    }
  }

  // ---------------------------------------------------------------- HEAD

  /** For HEAD the last chunk of a chunked response is sent although no body may be. */
  lemma HeadBody(c: Setup, calls: seq<Call>)
    requires c.head && BodyAllowedForStatus(StatusOf(calls)) && Served(c, calls).Running?
    ensures Served(c, calls).s.bodyOut ==
              if ModeOf(c.cl, c.te).ByChunks? || (ModeOf(c.cl, c.te).Auto? && EarlyOf(calls) > |c.buffer|)
              then LAST_CHUNK else []
  {
    var x := Handled(c, calls);
    HandledTracks(c, calls);
    if x.h.rejected {
      RejectedHeadBody(x.s, x.h, c);
    } else {
      ServedFinishes(c, calls);
      assert [] + LAST_CHUNK == LAST_CHUNK;
    }
  }

  lemma RejectedHeadBody(s: State, h: History, c: Setup)
    requires Inv(s, h, c.cl, c.te) && h.rejected && s.head && !FlushPanics(Ready(s.(handlerDone := true)))
    ensures Finish(s).bodyOut == []
  {
    ReadyKeeps(s, h, c.cl, c.te, 200);
    ReadyDone(s);
    FlushFlushes(s.(handlerDone := true));
  }

  // ---------------------------------------------------------------- nothing is lost in between

  /** Between any two calls, what was passed to the chunk writer and what is buffered is all that was written. */
  lemma NothingLost(c: Setup, calls: seq<Call>)
    requires Handled(c, calls).Running? && !Handled(c, calls).h.rejected && BodyAllowedForStatus(StatusOf(calls))
    ensures var s, pieces := Handled(c, calls).s, Handled(c, calls).h.pieces;
      && (s.noCache || s.written <= |s.buffer|)
      && Concat(pieces) + (if s.noCache then [] else s.buffer[..s.written]) == DataOf(calls)
      && s.bodyOut == (if c.head then [] else Framed(s.chunking, pieces))
      && forall i :: 0 <= i < |pieces| ==> pieces[i] != []
  {
    HandledTracks(c, calls);
  }

  // ---------------------------------------------------------------- the framing is fixed

  /** The header block is out; it and the framing stay. */
  ghost predicate Fixed(s: State, u: State) {
    s.headerOut.Some? && u.headerOut == s.headerOut && u.chunking == s.chunking
  }

  /** What a send cannot change once the header block is out. */
  lemma SendFixed(t: State, p: seq<byte>, u: State)
    requires Sends(t, p, u) && t.cwWroteHeader && t.headerOut.Some?
    ensures Fixed(t, u) && u.cwWroteHeader
  {
  }

  lemma OverflowFixed(t: State, data: seq<byte>, u1: State, u: State)
    requires t.written <= |t.buffer| && t.cwWroteHeader && t.headerOut.Some?
    requires Sends(t.(noCache := true), t.buffer[..t.written], u1) && Sends(u1.(written := t.written + |data|), data, u)
    ensures Fixed(t, u)
  {
    SendFixed(t.(noCache := true), t.buffer[..t.written], u1);
    SendFixed(u1.(written := t.written + |data|), data, u);
  }

  lemma AcceptFixed(t: State, data: seq<byte>, u: State)
    requires Accepts(t, data, u) && t.cwWroteHeader && t.headerOut.Some?
    ensures Fixed(t, u)
  {
    if !t.chunking && !t.noCache && t.written + |data| > |t.buffer| && t.written != 0 {
      var u1 :| Sends(t.(noCache := true), t.buffer[..t.written], u1)
          && Sends(u1.(written := t.written + |data|), data, u);
      OverflowFixed(t, data, u1, u);
    }
  }

  lemma WriteFixed(s: State, data: seq<byte>)
    requires InBounds(s) && s.wroteHeader && s.cwWroteHeader && s.headerOut.Some?
    ensures Fixed(s, Write(s, data))
  {
    if WriteOutcome(s, data) == NoError && data != [] {
      AcceptAccepts(s, data);
      AcceptFixed(s, data, Accept(s, data));
    }
  }

  lemma HandleFixed(s: State, h: History, c: Setup, call: Call)
    requires Inv(s, h, c.cl, c.te) && Handle(s, h, c, call).Running? && s.headerOut.Some?
    ensures Fixed(s, Handle(s, h, c, call).s)
  {
    match call
    case CallWriteHeader(code) =>
    case CallWrite(data) =>
      WriteFixed(s, data);
    case CallFlush =>
      FlushFlushes(s);
  }

  lemma StepFixed(c: Setup, before: seq<Call>, calls: seq<Call>, x: Exchange, call: Call)
    requires calls == before + [call] && x == Handled(c, before) && Handled(c, calls).Running?
    ensures x.Running? && (x.s.headerOut.Some? ==> Fixed(x.s, Handled(c, calls).s))
  {
    assert calls[..|calls| - 1] == before;
    if x.s.headerOut.Some? {
      HandleFixed(x.s, x.h, c, call);
    }
  }

  /** From exchange x on, y is still running and has kept what x had emitted. */
  ghost predicate Keeps(x: Exchange, y: Exchange) {
    y.Running? ==> x.Running? && (x.s.headerOut.Some? ==> Fixed(x.s, y.s))
  }

  lemma KeepsTrans(x: Exchange, y: Exchange, z: Exchange)
    requires Keeps(x, y) && Keeps(y, z)
    ensures Keeps(x, z)
  {
  }

  /** Once emitted, the header block and the framing never change. */
  lemma {:induction false} FramingIsFixed(c: Setup, calls: seq<Call>, more: seq<Call>)
    ensures Keeps(Handled(c, calls), Handled(c, calls + more))
    decreases |more|
  {
    if more == [] {
      assert calls + more == calls;
    } else {
      var m := |more| - 1;
      var before := calls + more[..m];
      assert calls + more == before + [more[m]];
      FramingIsFixed(c, calls, more[..m]);
      if Handled(c, calls + more).Running? {
        StepFixed(c, before, calls + more, Handled(c, before), more[m]);
      }
      KeepsTrans(Handled(c, calls), Handled(c, before), Handled(c, calls + more));
    }
  }

  lemma CloseFixed(s: State, t: State, u: State)
    requires Flushes(t, u) && t.headerOut == s.headerOut && t.chunking == s.chunking
    requires s.headerOut.Some? ==> t.cwWroteHeader
    ensures Close(u).headerOut == u.headerOut && (s.headerOut.Some? ==> Fixed(s, Close(u)))
  {
    TwoItems(u.wire, Bytes([48, 13, 10]), Bytes(CRLF));
  }

  lemma FinishState(s: State, h: History, c: Setup)
    requires Inv(s, h, c.cl, c.te) && !FlushPanics(Ready(s.(handlerDone := true)))
    ensures Finish(s).headerOut.Some? && (s.headerOut.Some? ==> Fixed(s, Finish(s)))
  {
    ReadyKeeps(s, h, c.cl, c.te, 200);
    ReadyDone(s);
    FlushFlushes(s.(handlerDone := true));
    var t, u := Ready(s).(handlerDone := true), Flush(s.(handlerDone := true));
    TwoItems(u.wire, Bytes([48, 13, 10]), Bytes(CRLF));
    if s.headerOut.Some? {
      assert s.wroteHeader;
      CloseFixed(s, t, u);
    }
  }

  /** Finishing an exchange whose header block is out leaves it as it is. */
  lemma FinishFixed(c: Setup, calls: seq<Call>)
    requires Served(c, calls).Running?
    ensures Handled(c, calls).Running? && Served(c, calls).s.headerOut.Some?
    ensures Handled(c, calls).s.headerOut.Some? ==> Fixed(Handled(c, calls).s, Served(c, calls).s)
  {
    var x := Handled(c, calls);
    FinishState(x.s, x.h, c);
  }

  /** A response that chunks has emitted a coding and no length. */
  ghost predicate OnlyChunks(s: State) {
    s.headerOut.Some? && s.chunking ==> s.headerOut.value.cl == "" && s.headerOut.value.te != ""
  }

  lemma InvOnlyChunks(s: State, h: History, cl: string, te: string)
    requires Inv(s, h, cl, te)
    ensures OnlyChunks(s)
  {
    assert !Contains("", "chunked");
  }

  /** Flushing a response whose header block is not out: only a declared coding, or what overflowed, chunks. */
  lemma FlushOnlyChunks(t: State, h: History, cl: string, te: string, u: State)
    requires Inv(t, h, cl, te) && t.wroteHeader && Flushes(t.(handlerDone := true), u)
    ensures OnlyChunks(u)
  {
    InvOnlyChunks(t, h, cl, te);
    assert !Contains("", "chunked");
  }

  lemma FinishOnlyChunks(s: State, h: History, cl: string, te: string)
    requires Inv(s, h, cl, te) && !FlushPanics(Ready(s.(handlerDone := true)))
    ensures Finish(s).headerOut.Some? && OnlyChunks(Finish(s))
  {
    ReadyKeeps(s, h, cl, te, 200);
    ReadyDone(s);
    FlushFlushes(s.(handlerDone := true));
    var u := Flush(s.(handlerDone := true));
    FlushOnlyChunks(Ready(s), h, cl, te, u);
    TwoItems(u.wire, Bytes([48, 13, 10]), Bytes(CRLF));
  }

  /** Chunks never go with a Content-Length, neither in between nor at the end, whatever was rejected. */
  lemma ChunksWithoutLength(c: Setup, calls: seq<Call>)
    ensures Handled(c, calls).Running? ==> OnlyChunks(Handled(c, calls).s)
    ensures Served(c, calls).Running? ==> Served(c, calls).s.headerOut.Some? && OnlyChunks(Served(c, calls).s)
  {
    var x := Handled(c, calls);
    if x.Running? {
      InvOnlyChunks(x.s, x.h, c.cl, c.te);
      if Served(c, calls).Running? {
        FinishOnlyChunks(x.s, x.h, c.cl, c.te);
      }
    }
  }
}
