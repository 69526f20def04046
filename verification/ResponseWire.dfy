/**
 The order of what goes out, over every run: nothing, or one header block and after it only bytes of
 the body. What went out is never taken back.
 */
module ResponseWire {
  import opened Bytes
  import opened Common
  import opened Rfc7230
  import opened ResponseSpec
  import opened ResponseRuns

  /** The header block comes first, and once. */
  predicate BlockFirst(wire: seq<Item>) {
    forall k :: 0 <= k < |wire| ==> (wire[k].Block? <==> k == 0)
  }

  predicate WireOk(s: State) {
    (s.cwWroteHeader <==> s.wire != []) && BlockFirst(s.wire)
  }

  /** Nothing is taken back, and the order is kept. */
  predicate Sequel(s: State, u: State) {
    WireOk(s) ==> WireOk(u) && s.wire <= u.wire
  }

  lemma SequelTrans(s: State, t: State, u: State)
    requires Sequel(s, t) && Sequel(t, u)
    ensures Sequel(s, u)
  {
  }

  lemma EmitWire(s: State, n: nat)
    ensures Sequel(s, Emit(s, n)) && Emit(s, n).cwWroteHeader
  {
  }

  lemma SendWire(s: State, p: seq<byte>)
    ensures Sequel(s, Send(s, p))
  {
    EmitWire(s, |p|);
    MoreBytes(Emit(s, |p|), Writes(Emit(s, |p|).chunking, p), Send(s, p));
  }

  lemma MoreBytes(e: State, items: seq<Item>, u: State)
    requires e.cwWroteHeader && u.cwWroteHeader && (u.wire == e.wire || u.wire == e.wire + items)
    requires forall k :: 0 <= k < |items| ==> items[k].Bytes?
    ensures Sequel(e, u)
  {
  }

  lemma OverflowWire(t: State)
    requires t.written <= |t.buffer|
    ensures Sequel(t, Overflow(t))
  {
    if t.written > 0 {
      SendWire(t.(noCache := true), t.buffer[..t.written]);
    }
  }

  lemma PassWire(t: State, v: State, data: seq<byte>)
    requires Sequel(t, v)
    ensures Sequel(t, Send(v, data))
  {
    SendWire(v, data);
    SequelTrans(t, v, Send(v, data));
  }

  lemma AcceptOverflowWire(t: State, data: seq<byte>)
    requires !t.chunking && !t.noCache && t.written <= |t.buffer| < t.written + |data|
    ensures Sequel(t, Accept(t, data))
  {
    OverflowWire(t);
    OverflowIs(t, data);
    PassWire(t, Overflow(t).(written := t.written + |data|), data);
  }

  lemma AcceptWire(t: State, data: seq<byte>)
    requires t.chunking || t.noCache || t.written <= |t.buffer|
    ensures Sequel(t, Accept(t, data))
  {
    if t.chunking {
      SendWire(t, data);
    } else if t.noCache {
      PassWire(t, t.(written := t.written + |data|), data);
    } else if t.written + |data| > |t.buffer| {
      AcceptOverflowWire(t, data);
    }
  }

  lemma WriteHeaderWire(s: State, code: int)
    ensures WriteHeader(s, code).wire == s.wire && WriteHeader(s, code).cwWroteHeader == s.cwWroteHeader
  {
  }

  lemma WriteWire(s: State, data: seq<byte>)
    requires InBounds(Ready(s))
    ensures Sequel(s, Write(s, data))
  {
    WriteHeaderWire(s, 200);
    if WriteOutcome(s, data) == NoError && data != [] {
      AcceptWire(Ready(s), data);
    }
  }

  lemma FlushWire(s: State)
    requires !FlushPanics(Ready(s))
    ensures Sequel(s, Flush(s)) && Flush(s).cwWroteHeader
  {
    WriteHeaderWire(s, 200);
    var t := Ready(s);
    var u := if !t.noCache && t.written > 0 then Send(t, t.buffer[..t.written]).(written := 0) else t;
    if !t.noCache && t.written > 0 {
      SendWire(t, t.buffer[..t.written]);
    }
    EmitWire(u, 0);
    SequelTrans(s, u, Flush(s));
  }

  lemma FinishWire(s: State)
    requires !FlushPanics(Ready(s.(handlerDone := true)))
    ensures Sequel(s, Finish(s)) && Finish(s).cwWroteHeader
  {
    var d := s.(handlerDone := true);
    FlushWire(d);
    MoreBytes(Flush(d), [Bytes([48, 13, 10]), Bytes(CRLF)], Finish(s));
    SequelTrans(s, Flush(d), Finish(s));
  }

  lemma HandleWire(s: State, h: History, c: Setup, call: Call)
    requires Inv(s, h, c.cl, c.te) && Handle(s, h, c, call).Running?
    ensures Sequel(s, Handle(s, h, c, call).s)
  {
    match call
    case CallWriteHeader(code) => WriteHeaderWire(s, code);
    case CallWrite(data) =>
      WriteKeeps(s, h, c.cl, c.te, data);
      WriteWire(s, data);
    case CallFlush => FlushWire(s);
  }

  /** In every run what went out starts with its only header block. */
  lemma {:induction false} HeaderFirst(c: Setup, calls: seq<Call>)
    requires Handled(c, calls).Running?
    ensures BlockFirst(Handled(c, calls).s.wire) && WireOk(Handled(c, calls).s)
  {
    if calls != [] {
      var x := Handled(c, calls[..|calls| - 1]);
      HeaderFirst(c, calls[..|calls| - 1]);
      HandleWire(x.s, x.h, c, calls[|calls| - 1]);
    }
  }

  /** And a finished exchange has sent it. */
  lemma ServedWire(c: Setup, calls: seq<Call>)
    requires Served(c, calls).Running?
    ensures Served(c, calls).s.wire != [] && BlockFirst(Served(c, calls).s.wire)
    ensures Handled(c, calls).s.wire <= Served(c, calls).s.wire
  {
    HeaderFirst(c, calls);
    FinishWire(Handled(c, calls).s);
  }

  /** From exchange x on, y is still running and has only sent more. */
  ghost predicate SendsMore(x: Exchange, y: Exchange) {
    y.Running? ==> x.Running? && x.s.wire <= y.s.wire
  }

  lemma SendsMoreTrans(x: Exchange, y: Exchange, z: Exchange)
    requires SendsMore(x, y) && SendsMore(y, z)
    ensures SendsMore(x, z)
  {
  }

  lemma OneCallSendsMore(c: Setup, before: seq<Call>, calls: seq<Call>, x: Exchange, call: Call)
    requires calls == before + [call] && x == Handled(c, before)
    ensures SendsMore(x, Handled(c, calls))
  {
    assert calls[..|calls| - 1] == before;
    if Handled(c, calls).Running? {
      HeaderFirst(c, before);
      HandleWire(x.s, x.h, c, call);
    }
  }

  /** More calls only add to what went out. */
  lemma {:induction false} WireGrows(c: Setup, calls: seq<Call>, more: seq<Call>)
    ensures SendsMore(Handled(c, calls), Handled(c, calls + more))
    decreases |more|
  {
    if more == [] {
      assert calls + more == calls;
    } else {
      var m := |more| - 1;
      var before := calls + more[..m];
      assert calls + more == before + [more[m]];
      WireGrows(c, calls, more[..m]);
      OneCallSendsMore(c, before, calls + more, Handled(c, before), more[m]);
      SendsMoreTrans(Handled(c, calls), Handled(c, before), Handled(c, calls + more));
    }
  }
}
