/**
 Whole exchanges: any sequence of WriteHeader, Write and Flush calls on a new response, then
 FinishRequest. The calls alone tell what was accepted, the status and the framing.
 */
module ResponseRuns {
  import opened Bytes
  import opened Common
  import opened Rfc7230
  import opened ResponseSpec

  /** A handler's call. */
  datatype Call = CallWriteHeader(code: int) | CallWrite(data: seq<byte>) | CallFlush

  /** A response so far with its history, or a panic: an invalid status code, or a slice past the buffer. */
  datatype Exchange = Running(s: State, h: History) | Panicked

  /** What the handler declared, and the request and buffer it got. */
  datatype Setup = Setup(head: bool, cl: string, te: string, buffer: seq<byte>)

  predicate InvalidCode(s: State, call: Call) {
    call.CallWriteHeader? && !s.wroteHeader && !(100 <= call.code <= 999)
  }

  ghost function Handle(s: State, h: History, c: Setup, call: Call): (x: Exchange)
    requires Inv(s, h, c.cl, c.te)
    ensures x.Running? ==> Inv(x.s, x.h, c.cl, c.te)
  {
    match call
    case CallWriteHeader(code) =>
      if InvalidCode(s, call) then Panicked else
      ReadyKeeps(s, h, c.cl, c.te, code);
      Running(WriteHeader(s, code), h)
    case CallWrite(data) =>
      WriteKeeps(s, h, c.cl, c.te, data);
      Running(Write(s, data), WriteHistory(s, h, data))
    case CallFlush =>
      if FlushPanics(Ready(s)) then Panicked else
      FlushKeeps(s, h, c.cl, c.te);
      Running(Flush(s), FlushHistory(s, h))
  }

  ghost function Start(c: Setup): (x: Exchange)
    ensures x.Running? && Inv(x.s, x.h, c.cl, c.te)
  {
    assert [] == Concat([]) + c.buffer[..0];
    Running(New(c.head, c.cl, c.te, c.buffer), NoHistory)
  }

  /** The handler's calls, in order. */
  ghost function Handled(c: Setup, calls: seq<Call>): (x: Exchange)
    ensures x.Running? ==> Inv(x.s, x.h, c.cl, c.te)
  {
    if calls == [] then Start(c) else
    var x := Handled(c, calls[..|calls| - 1]);
    if x.Panicked? then Panicked else Handle(x.s, x.h, c, calls[|calls| - 1])
  }

  /** The calls and then FinishRequest. */
  ghost function Served(c: Setup, calls: seq<Call>): Exchange {
    var x := Handled(c, calls);
    if x.Panicked? || FlushPanics(Ready(x.s.(handlerDone := true))) then Panicked
    else Running(Finish(x.s), x.h)
  }

  // ---------------------------------------------------------------- what the calls say by themselves

  /** All data of all Writes. */
  function DataOf(calls: seq<Call>): seq<byte> {
    if calls == [] then [] else
    var last := calls[|calls| - 1];
    DataOf(calls[..|calls| - 1]) + if last.CallWrite? then last.data else []
  }

  /** How much was written before the first Flush. */
  function EarlyOf(calls: seq<Call>): nat {
    if calls == [] then 0 else
    var before, last := calls[..|calls| - 1], calls[|calls| - 1];
    EarlyOf(before) + if last.CallWrite? && CallFlush !in before then |last.data| else 0
  }

  /** The first call settles the status. */
  function StatusOf(calls: seq<Call>): int {
    if calls != [] && calls[0].CallWriteHeader? then calls[0].code else 200
  }

  predicate ValidStatus(calls: seq<Call>) {
    100 <= StatusOf(calls) <= 999
  }

  /** The declared length is too short for the data. */
  predicate TooLong(c: Setup, data: seq<byte>) {
    ModeOf(c.cl, c.te).ByLength? && |data| > ParseInt(c.cl).value
  }

  /** The state and the history agree with the calls. */
  ghost predicate Tracks(s: State, h: History, c: Setup, calls: seq<Call>) {
    && s.head == c.head && |s.buffer| == |c.buffer| && (s.wroteHeader <==> calls != [])
    && (calls != [] ==> s.status == StatusOf(calls))
    && (h.flushed <==> CallFlush in calls)
    && s.written <= |DataOf(calls)|
    && (h.rejected ==> TooLong(c, DataOf(calls)))
    && (BodyAllowedForStatus(StatusOf(calls)) && !h.rejected ==>
        h.accepted == DataOf(calls) && h.early == EarlyOf(calls))
  }

  /** What no call changes about a response whose header was written. */
  ghost predicate Steady(t: State, u: State) {
    t.wroteHeader && u.wroteHeader && t.status == u.status && t.head == u.head && |t.buffer| == |u.buffer|
  }

  lemma ReadySteady(s: State, code: int)
    ensures var t := WriteHeader(s, code);
      && t.wroteHeader && t.head == s.head && t.buffer == s.buffer && t.written == s.written
      && t.status == if s.wroteHeader then s.status else code
  {
  }

  lemma AcceptSteady(t: State, data: seq<byte>, u: State)
    requires t.wroteHeader && Accepts(t, data, u)
    ensures Steady(t, u) && u.written <= t.written + |data|
  {
    if !t.chunking && !t.noCache && t.written + |data| > |t.buffer| && t.written != 0 {
      var u1 :| Sends(t.(noCache := true), t.buffer[..t.written], u1)
          && Sends(u1.(written := t.written + |data|), data, u);
    }
  }

  /** What a Write does to the counters. */
  lemma WriteSteady(s: State, data: seq<byte>)
    requires InBounds(Ready(s))
    ensures Steady(Ready(s), Write(s, data)) && Write(s, data).written <= s.written + |data|
  {
    ReadySteady(s, 200);
    var t := Ready(s);
    if WriteOutcome(s, data) == NoError && data != [] {
      AcceptAccepts(t, data);
      AcceptSteady(t, data, Accept(t, data));
    }
  }

  /** One more call. */
  lemma OneMore(calls: seq<Call>, call: Call)
    ensures var more := calls + [call];
      && DataOf(more) == DataOf(calls) + (if call.CallWrite? then call.data else [])
      && EarlyOf(more) == EarlyOf(calls) + (if call.CallWrite? && CallFlush !in calls then |call.data| else 0)
      && StatusOf(more) == (if calls == [] then StatusOf([call]) else StatusOf(calls))
      && (CallFlush in more <==> CallFlush in calls || call == CallFlush)
  {
    assert (calls + [call])[..|calls|] == calls;
  }

  /** What a Write did to the history of a response whose header is written. */
  ghost predicate WriteStep(t: State, h: History, c: Setup, data: seq<byte>, h': History) {
    || (h' == h && (data == [] || !BodyAllowedForStatus(t.status)))
    || (h' == h.(rejected := true) && ModeOf(c.cl, c.te).ByLength? && t.written + |data| > ParseInt(c.cl).value)
    || h' == Accepted(h, data, Sent(t, data))
  }

  lemma WriteSteps(s: State, h: History, c: Setup, data: seq<byte>)
    requires Inv(s, h, c.cl, c.te)
    ensures WriteStep(Ready(s), h, c, data, WriteHistory(s, h, data))
  {
    ReadyKeeps(s, h, c.cl, c.te, 200);
  }

  lemma WriteTracks(s: State, h: History, c: Setup, calls: seq<Call>, more: seq<Call>, data: seq<byte>, t: State,
          u: State, h': History)
    requires Tracks(s, h, c, calls) && (calls == [] ==> h == NoHistory)
    requires t.wroteHeader && t.status == (if s.wroteHeader then s.status else 200) && t.written == s.written
    requires t.head == s.head && t.buffer == s.buffer
    requires Steady(t, u) && u.written <= s.written + |data| && WriteStep(t, h, c, data, h')
    requires DataOf(more) == DataOf(calls) + data && (CallFlush in more <==> CallFlush in calls) && more != []
    requires EarlyOf(more) == EarlyOf(calls) + if CallFlush in calls then 0 else |data|
    requires StatusOf(more) == if calls == [] then 200 else StatusOf(calls)
    ensures Tracks(u, h', c, more)
  {
    assert DataOf(calls) + [] == DataOf(calls);
  }

  lemma FlushTracks(s: State, h: History, c: Setup, calls: seq<Call>, more: seq<Call>, t: State, u: State)
    requires Tracks(s, h, c, calls)
    requires t.status == (if s.wroteHeader then s.status else 200) && t.written == s.written
    requires t.wroteHeader && t.head == s.head && t.buffer == s.buffer && Flushes(t, u)
    requires DataOf(more) == DataOf(calls) && CallFlush in more && EarlyOf(more) == EarlyOf(calls)
    requires StatusOf(more) == if calls == [] then 200 else StatusOf(calls)
    ensures Tracks(u, h.(pieces := FlushedPieces(t, h), flushed := true), c, more)
  {
  }

  lemma WriteHeaderTracks(s: State, h: History, c: Setup, calls: seq<Call>, more: seq<Call>, code: int, u: State)
    requires Tracks(s, h, c, calls) && (calls == [] ==> h == NoHistory)
    requires u.wroteHeader && u.head == s.head && u.buffer == s.buffer && u.written == s.written
    requires u.status == (if s.wroteHeader then s.status else code)
    requires DataOf(more) == DataOf(calls) && (CallFlush in more <==> CallFlush in calls)
    requires EarlyOf(more) == EarlyOf(calls) && more != []
    requires StatusOf(more) == if calls == [] then code else StatusOf(calls)
    ensures Tracks(u, h, c, more)
  {
  }

  lemma HandleTracks(s: State, h: History, c: Setup, calls: seq<Call>, call: Call)
    requires Inv(s, h, c.cl, c.te) && Tracks(s, h, c, calls) && (calls == [] ==> h == NoHistory)
    requires Handle(s, h, c, call).Running?
    ensures Tracks(Handle(s, h, c, call).s, Handle(s, h, c, call).h, c, calls + [call])
  {
    var more := calls + [call];
    OneMore(calls, call);
    ReadySteady(s, 200);
    match call
    case CallWriteHeader(code) =>
      ReadySteady(s, code);
      WriteHeaderTracks(s, h, c, calls, more, code, WriteHeader(s, code));
    case CallWrite(data) =>
      ReadyKeeps(s, h, c.cl, c.te, 200);
      WriteSteady(s, data);
      WriteSteps(s, h, c, data);
      WriteTracks(s, h, c, calls, more, data, Ready(s), Write(s, data), WriteHistory(s, h, data));
    case CallFlush =>
      FlushFlushes(s);
      FlushTracks(s, h, c, calls, more, Ready(s), Flush(s));
  }

  lemma {:induction false} HandledTracks(c: Setup, calls: seq<Call>)
    requires Handled(c, calls).Running?
    ensures Tracks(Handled(c, calls).s, Handled(c, calls).h, c, calls)
    ensures calls == [] ==> Handled(c, calls).h == NoHistory
  {
    if calls != [] {
      var before, last := calls[..|calls| - 1], calls[|calls| - 1];
      HandledTracks(c, before);
      var x := Handled(c, before);
      HandleTracks(x.s, x.h, c, before, last);
      assert before + [last] == calls && Handled(c, calls) == Handle(x.s, x.h, c, last);
    }
  }
}
