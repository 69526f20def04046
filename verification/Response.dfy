/**
 The response writer as the object it is: its methods update its fields and its buffer step by step,
 and each is proved to do what `ResponseSpec` says. `Serve` drives a whole exchange.
 */
module Response {
  import opened Bytes
  import opened Common
  import opened Decimal
  import opened Rfc7230
  import opened ResponseSpec
  import opened ResponseRuns
  import opened ResponseTheorems
  import opened ResponseWire

  class Response {
    const head: bool
    const declaredTe: string        // Transfer-Encoding in the handler's header map
    var handlerCl: string           // Content-Length in the handler's header map
    var wroteHeader: bool
    var status: int
    var contentLength: int          // declared length, or -1
    var setCl: string               // framing fields of setHeader
    var setTe: string
    const buffer: array<byte>
    var written: nat
    var noCache: bool
    var handlerDone: bool
    // the chunk writer's
    var cwWroteHeader: bool
    var chunking: bool
    // what went out
    var wire: seq<Item>

    ghost function View(): State
      reads this, buffer
    {
      State(head, declaredTe, handlerCl, wroteHeader, status, contentLength, setCl, setTe, buffer[..], written, noCache,
            handlerDone, cwWroteHeader, chunking, wire)
    }

    /** `pooled` is the content of the buffer taken from the pool, whatever its last user left in it. */
    constructor (head: bool, cl: string, te: string, pooled: seq<byte>)
      ensures View() == New(head, cl, te, pooled) && fresh(buffer)
    {
      this.head, declaredTe, handlerCl := head, te, cl;
      wroteHeader, status, contentLength, setCl, setTe := false, 0, -1, "", "";
      buffer := new byte[|pooled|](i requires 0 <= i < |pooled| => pooled[i]);
      written, noCache, handlerDone := 0, false, false;
      cwWroteHeader, chunking, wire := false, false, [];
      new;
      assert buffer[..] == pooled;
    }

    /** The end of WriteHeader: takes over the declared framing. */
    method DeclareFraming()
      modifies this
      ensures View() == Declared(old(View()))
    {
      if handlerCl != "" {
        var v := ParseInt(handlerCl);
        if v.Some? && v.value >= 0 {
          contentLength := v.value;
          setCl := handlerCl;
        } else {
          handlerCl := "";
        }
      } else if declaredTe != "" {
        setTe := declaredTe;
        if Contains(declaredTe, "chunked") {
          chunking := true;
        }
      }
    }

    /** `ok` is false when the status code makes it panic. */
    method WriteHeader(code: int) returns (ok: bool)
      modifies this
      ensures ok <==> old(wroteHeader) || 100 <= code <= 999
      ensures ok ==> View() == ResponseSpec.WriteHeader(old(View()), code)
    {
      if wroteHeader {
        return true;
      }
      wroteHeader := true;
      if code < 100 || code > 999 {
        return false;
      }
      status := code;
      DeclareFraming();
      return true;
    }

    // -------------------------------------------------------------- chunk writer

    /** Emits the header block, once. */
    method CwWriteHeader(p: seq<byte>)
      modifies this
      ensures View() == Emit(old(View()), |p|)
    {
      if cwWroteHeader {
        return;
      }
      cwWroteHeader := true;
      if setCl != "" {
        chunking := false;
      } else if chunking {
      } else if noCache {
        chunking := true;
        if setTe != "" {
          if !Contains(setTe, "chunked") {
            setTe := setTe + ", chunked";
          }
        } else {
          setTe := "chunked";
        }
      } else if handlerDone && BodyAllowedForStatus(status) && handlerCl == "" && (!noCache || !head || |p| > 0) {
        contentLength := |p|;
        setCl := Numeral(|p|);
      }
      wire := wire + [Block(Header(status, setCl, setTe))];
    }

    /** Passes a piece of payload on, framed as a chunk when chunking; for HEAD it is eaten. */
    method CwWrite(p: seq<byte>)
      modifies this
      ensures View() == Send(old(View()), p)
    {
      CwWriteHeader(p);
      if head {
        return;
      }
      ghost var sent := wire;
      if chunking {
        wire := wire + [Bytes(Hex(|p|) + CRLF)];
      }
      wire := wire + [Bytes(p)];
      if chunking {
        wire := wire + [Bytes(CRLF)];
      }
      assert wire == sent + Writes(chunking, p);
    }

    method CwFlush()
      modifies this
      ensures View() == Emit(old(View()), 0)
    {
      CwWriteHeader([]);
    }

    method CwClose()
      modifies this
      ensures View() == Close(Emit(old(View()), 0))
    {
      CwWriteHeader([]);
      ghost var sent := wire;
      if chunking {
        wire := wire + [Bytes([48, 13, 10])];
        wire := wire + [Bytes(CRLF)];
        assert wire == sent + [Bytes([48, 13, 10]), Bytes(CRLF)];
      }
    }

    // -------------------------------------------------------------- handler calls

    /** The buffer is full: what it held before this write goes to the chunk writer, and from now on nothing is
     buffered. */
    method StopCaching(offset: nat, ghost t: State)
      requires offset <= buffer.Length && t.written == offset && View() == t.(written := written)
      modifies this
      ensures View() == Overflow(t).(written := old(written))
    {
      noCache := true;
      if offset > 0 {
        SendIgnoresWritten(t.(noCache := true), buffer[..offset], written);
        CwWrite(buffer[..offset]);
      }
    }

    /** copy(buffer[offset:offset + len(data)], data) */
    method CopyAt(offset: nat, data: seq<byte>)
      requires offset + |data| <= buffer.Length
      modifies buffer
      ensures buffer[..] == old(buffer[..offset]) + data + old(buffer[offset + |data|..])
    {
      forall i | 0 <= i < |data| {
        buffer[offset + i] := data[i];
      }
    }

    /** Counts data on a response that is not chunking, and buffers it if it fits: `done` says that
     nothing is left to pass on. */
    method Count(data: seq<byte>) returns (done: bool, err: WriteError)
      requires !chunking
      modifies this`written, buffer
      ensures written == old(written) + |data|
      ensures err == if Exceeds(old(View()), data) then ContentLength else NoError
      ensures done <==> err == ContentLength || InBuffer(old(View()), data)
      ensures buffer[..] ==
                if done && err == NoError then old(buffer[..written]) + data + old(buffer[written + |data|..])
                else old(buffer[..])
    {
      var offset := written;
      written := written + |data|;
      if contentLength != -1 && written > contentLength {
        return true, ContentLength;
      }
      if !noCache && written <= buffer.Length {
        CopyAt(offset, data);
        return true, NoError;
      }
      return false, NoError;
    }

    /** Passes data on that was counted from `offset` and does not go into the buffer. */
    method PassOn(offset: nat, data: seq<byte>, ghost t: State)
      requires offset == t.written && View() == if t.chunking then t else t.(written := t.written + |data|)
      requires t.chunking || (!InBuffer(t, data) && (t.noCache || t.written <= |t.buffer|))
      modifies this
      ensures View() == Accept(t, data)
    {
      PassingAccepts(t, data);
      if !chunking && !noCache {
        StopCaching(offset, t);
      }
      CwWrite(data);
    }

    /** The end of Write: data that passed the checks but may exceed the declared length. */
    method Append(data: seq<byte>) returns (n: nat, err: WriteError)
      requires wroteHeader && data != [] && InBounds(View())
      modifies this, buffer
      ensures err == if Exceeds(old(View()), data) then ContentLength else NoError
      ensures n == if err == NoError then |data| else 0
      ensures View() == if Exceeds(old(View()), data) then old(View()).(written := old(written) + |data|)
                        else Accept(old(View()), data)
    {
      ghost var t := View();
      var offset, done := written, false;
      err := NoError;
      if !chunking {
        done, err := Count(data);
        AcceptInBuffer(t, data, View());
      }
      if !done {
        PassOn(offset, data, t);
      }
      n := if err == NoError then |data| else 0;
    }

    /** Adds data to the payload; `n` and `err` are what the handler sees. */
    method Write(data: seq<byte>) returns (n: nat, err: WriteError)
      requires InBounds(Ready(View()))
      modifies this, buffer
      ensures err == WriteOutcome(old(View()), data) && n == if err == NoError then |data| else 0
      ensures View() == ResponseSpec.Write(old(View()), data)
    {
      if !wroteHeader {
        var _ := WriteHeader(200);
      }
      n, err := WriteReady(data, old(View()));
    }

    /** Write after the header was written; `s` is the state before. */
    method WriteReady(data: seq<byte>, ghost s: State) returns (n: nat, err: WriteError)
      requires View() == Ready(s) && wroteHeader && InBounds(View())
      modifies this, buffer
      ensures err == WriteOutcome(s, data) && n == if err == NoError then |data| else 0
      ensures View() == ResponseSpec.Write(s, data)
    {
      WriteIs(s, View(), data);
      if data == [] {
        return 0, NoError;
      }
      if !BodyAllowedForStatus(status) {
        return 0, BodyNotAllowed;
      }
      n, err := Append(data);
    }

    /** Sends what is buffered and the header block; `ok` is false when slicing the buffer panics. */
    method Flush() returns (ok: bool)
      modifies this
      ensures ok <==> !FlushPanics(Ready(old(View())))
      ensures ok ==> View() == ResponseSpec.Flush(old(View()))
    {
      if !wroteHeader {
        var _ := WriteHeader(200);
      }
      if !noCache {
        if written > 0 {
          if written > buffer.Length {
            return false;
          }
          CwWrite(buffer[..written]);
          written := 0;
        }
      }
      CwFlush();
      return true;
    }

    /** One handler call; `ok` is false when it panics. */
    method Perform(ghost h: History, ghost c: Setup, call: Call) returns (ok: bool)
      requires Inv(View(), h, c.cl, c.te)
      modifies this, buffer
      ensures ok <==> Handle(old(View()), h, c, call).Running?
      ensures ok ==> View() == Handle(old(View()), h, c, call).s
    {
      match call
      case CallWriteHeader(code) =>
        ok := WriteHeader(code);
      case CallWrite(data) =>
        WriteKeeps(View(), h, c.cl, c.te, data);
        var n, err := Write(data);
        ok := true;
      case CallFlush =>
        ok := Flush();
    }

    /** Ends the exchange, once. */
    method FinishRequest() returns (ok: bool)
      modifies this
      ensures old(handlerDone) ==> ok && View() == old(View())
      ensures !old(handlerDone) ==> (ok <==> !FlushPanics(Ready(old(View()).(handlerDone := true))))
      ensures !old(handlerDone) && ok ==> View() == Finish(old(View()))
    {
      if handlerDone {
        return true;
      }
      handlerDone := true;
      ok := Flush();
      if ok {
        CwClose();
      }
    }
  }

  lemma WriteIs(s: State, t: State, data: seq<byte>)
    requires t == Ready(s) && InBounds(t)
    ensures data == [] ==> WriteOutcome(s, data) == NoError && ResponseSpec.Write(s, data) == t
    ensures data != [] && !BodyAllowedForStatus(t.status) ==>
              WriteOutcome(s, data) == BodyNotAllowed && ResponseSpec.Write(s, data) == t
    ensures data != [] && BodyAllowedForStatus(t.status) ==>
              && WriteOutcome(s, data) == (if Exceeds(t, data) then ContentLength else NoError)
              && ResponseSpec.Write(s, data) == if Exceeds(t, data) then t.(written := t.written + |data|)
                else Accept(t, data)
  {
  }

  /** A write that would pass the declared length. */
  predicate Exceeds(t: State, data: seq<byte>) {
    !t.chunking && t.contentLength != -1 && t.written + |data| > t.contentLength
  }

  /** A write that fits the buffer. */
  predicate InBuffer(t: State, data: seq<byte>) {
    !t.noCache && t.written + |data| <= |t.buffer|
  }

  /** The state in which data that is not buffered is passed on. */
  function Passing(t: State, data: seq<byte>): State
    requires t.chunking || t.noCache || t.written <= |t.buffer|
  {
    if t.chunking then t
    else if t.noCache then t.(written := t.written + |data|)
    else Overflow(t).(written := t.written + |data|)
  }

  lemma AcceptInBuffer(t: State, data: seq<byte>, u: State)
    requires u == t.(written := t.written + |data|, buffer := u.buffer)
    ensures !t.chunking && InBuffer(t, data) && u.buffer == t.buffer[..t.written] + data + t.buffer[u.written..] ==>
              Accept(t, data) == u
  {
  }

  lemma PassingAccepts(t: State, data: seq<byte>)
    requires t.chunking || t.noCache || t.written <= |t.buffer|
    requires t.chunking || !InBuffer(t, data)
    ensures Accept(t, data) == Send(Passing(t, data), data)
  {
  }

  lemma SendIgnoresWritten(t: State, p: seq<byte>, w: nat)
    ensures Send(t.(written := w), p) == Send(t, p).(written := w)
  {
  }

  /** A handler's calls on a new response, then FinishRequest. What goes out is what the specification
   says, a header block and then the body, and the reader gets the handler's data back exactly when the
   declaration and the calls round-trip. */
  method Serve(c: Setup, calls: seq<Call>) returns (ok: bool, wire: seq<Item>)
    ensures ok <==> Served(c, calls).Running?
    ensures ok ==> wire == Served(c, calls).s.wire && wire != [] && BlockFirst(wire)
    ensures !c.head && ValidStatus(calls) && BodyAllowedForStatus(StatusOf(calls)) ==>
              (RoundTrips(c, calls) <==> ok && Reads(wire, DataOf(calls)))
  {
    wire := [];
    var w := new Response(c.head, c.cl, c.te, c.buffer);
    ok := PerformAll(w, c, calls);
    if ok {
      ok := w.FinishRequest();
      wire := w.wire;
    }
    ServedRight(c, calls);
  }

  /** What is known about the specification's exchange. */
  lemma ServedRight(c: Setup, calls: seq<Call>)
    ensures Served(c, calls).Running? ==> Served(c, calls).s.wire != [] && BlockFirst(Served(c, calls).s.wire)
    ensures !c.head && ValidStatus(calls) && BodyAllowedForStatus(StatusOf(calls)) ==>
              (RoundTrips(c, calls) <==> Served(c, calls).Running? && Reads(Served(c, calls).s.wire, DataOf(calls)))
  {
    if Served(c, calls).Running? {
      ServedWire(c, calls);
    }
    if !c.head && ValidStatus(calls) && BodyAllowedForStatus(StatusOf(calls)) {
      RoundTrip(c, calls);
    }
  }

  method PerformAll(w: Response, ghost c: Setup, calls: seq<Call>) returns (ok: bool)
    requires w.View() == New(c.head, c.cl, c.te, c.buffer)
    modifies w, w.buffer
    ensures ok <==> Handled(c, calls).Running?
    ensures ok ==> w.View() == Handled(c, calls).s
  {
    ok := true;
    var i := 0;
    assert calls[..0] == [];
    while i < |calls|
      invariant 0 <= i <= |calls| && ok
      invariant Handled(c, calls[..i]).Running? && Handled(c, calls[..i]).s == w.View()
    {
      ghost var x := Handled(c, calls[..i]);
      HandledStep(c, calls, i);
      ok := w.Perform(x.h, c, calls[i]);
      if !ok {
        PanicStays(c, calls, i + 1);
        return;
      }
      i := i + 1;
    }
    assert calls[..i] == calls;
  }

  lemma HandledStep(c: Setup, calls: seq<Call>, i: nat)
    requires i < |calls| && Handled(c, calls[..i]).Running?
    ensures Handled(c, calls[..i + 1]) == Handle(Handled(c, calls[..i]).s, Handled(c, calls[..i]).h, c, calls[i])
  {
    assert calls[..i + 1][..i] == calls[..i];
  }

  lemma {:induction false} PanicStays(c: Setup, calls: seq<Call>, i: nat)
    requires i <= |calls| && Handled(c, calls[..i]).Panicked?
    ensures Handled(c, calls).Panicked?
    decreases |calls|
  {
    if i == |calls| {
      assert calls[..i] == calls;
    } else {
      var before := calls[..|calls| - 1];
      assert before[..i] == calls[..i];
      PanicStays(c, before, i);
    }
  }
}
