/**
 The HTTP/1.1 response writer as a function of the handler's calls: writes are buffered until they
 overflow the buffer or are flushed; the framing is fixed when the header block goes out. Hijacking
 and failing connections are not modelled; a header block is its status and framing fields.
 */
module ResponseSpec {
  import opened Bytes
  import opened Common
  import opened Decimal
  import opened Rfc7230

  const INT64_LIMIT := 0x8000_0000_0000_0000
  const LAST_CHUNK: seq<byte> := [48, 13, 10, 13, 10]

  /** The framing fields of an emitted header block; empty means absent. */
  datatype Header = Header(status: int, cl: string, te: string)

  datatype WriteError = NoError | BodyNotAllowed | ContentLength

  predicate BodyAllowedForStatus(status: int) {
    !(100 <= status <= 199) && status != 204 && status != 304
  }

  /** strings.Contains */
  predicate Contains(s: string, sub: string) {
    |sub| <= |s| && (s[..|sub|] == sub || (s != "" && Contains(s[1..], sub)))
  }

  predicate OccursAt(s: string, sub: string, i: nat) {
    i + |sub| <= |s| && s[i..i + |sub|] == sub
  }

  /** It is found wherever it occurs. */
  lemma {:induction false} ContainsExactly(s: string, sub: string)
    ensures Contains(s, sub) <==> exists i: nat :: OccursAt(s, sub, i)
    decreases |s|
  {
    if |sub| <= |s| && s[..|sub|] == sub {
      assert OccursAt(s, sub, 0);
    } else if s != [] {
      ContainsExactly(s[1..], sub);
      if i: nat :| OccursAt(s[1..], sub, i) {
        assert OccursAt(s, sub, i + 1);
      }
      if i: nat :| OccursAt(s, sub, i) {
        assert i > 0;
        assert OccursAt(s[1..], sub, i - 1);
      }
    }
  }

  /** strconv.ParseInt(s, 10, 64): an optional sign, digits, and the int64 range. */
  function ParseInt(s: string): Option<int> {
    var signed := s != "" && (s[0] == '+' || s[0] == '-');
    var digits := if signed then s[1..] else s;
    if !AllDigits(digits) then None else
    var v: int := Value(digits);
    if signed && s[0] == '-' then (if v <= INT64_LIMIT then Some(-v) else None)
    else if v < INT64_LIMIT then Some(v) else None
  }

  /** The declared Content-Length is usable. */
  predicate Declares(cl: string) {
    ParseInt(cl).Some? && ParseInt(cl).value >= 0
  }

  /** "%x" */
  function Hex(n: nat): (s: seq<byte>)
    ensures s != [] && forall i :: 0 <= i < |s| ==> IsHexDigit(s[i])
  {
    if n < 16 then [HexDigit(n)] else Hex(n / 16) + [HexDigit(n % 16)]
  }

  function HexDigit(d: nat): (b: byte)
    requires d < 16
    ensures IsHexDigit(b) && HexDigitValue(b) == d
  {
    if d < 10 then 48 + d else 87 + d
  }

  function Chunk(p: seq<byte>): seq<byte> {
    Hex(|p|) + CRLF + p + CRLF
  }

  function Chunks(pieces: seq<seq<byte>>): seq<byte> {
    if pieces == [] then [] else Chunks(pieces[..|pieces| - 1]) + Chunk(pieces[|pieces| - 1])
  }

  function Framed(chunking: bool, pieces: seq<seq<byte>>): seq<byte> {
    if chunking then Chunks(pieces) else Concat(pieces)
  }

  lemma Snoc(pieces: seq<seq<byte>>, p: seq<byte>)
    ensures Concat(pieces + [p]) == Concat(pieces) + p
    ensures Chunks(pieces + [p]) == Chunks(pieces) + Chunk(p)
  {
    assert (pieces + [p])[..|pieces|] == pieces;
  }

  /** What the handler declared decides the framing: a length, chunks, or whatever the output turns out to be. */
  datatype Mode = ByLength | ByChunks | Auto

  function ModeOf(cl: string, te: string): Mode {
    if cl != "" then (if Declares(cl) then ByLength else Auto)
    else if Contains(te, "chunked") then ByChunks else Auto
  }

  /** A declared Transfer-Encoding is looked at only if no Content-Length was declared. */
  function EffectiveTe(cl: string, te: string): string {
    if cl != "" then "" else te
  }

  function WithChunked(te: string): string {
    if te == "" then "chunked" else if Contains(te, "chunked") then te else te + ", chunked"
  }

  /** The framing fields and the chunking flag of a response. */
  datatype Framing = Framing(cl: string, te: string, chunking: bool)

  /** How writeHeader settles the framing when it emits the header block before n bytes of body:
   `auto` says that the handler is done and the length may be filled in. */
  function Settle(f: Framing, noCache: bool, auto: bool, n: nat): Framing {
    if f.cl != "" then f.(chunking := false)
    else if f.chunking then f
    else if noCache then Framing("", WithChunked(f.te), true)
    else if auto then f.(cl := Numeral(n))
    else f
  }

  /** What goes out, in the order of the writes. */
  datatype Item = Block(header: Header) | Bytes(bytes: seq<byte>)

  function HeaderOf(wire: seq<Item>): Option<Header> {
    if wire == [] then None else
    var last := wire[|wire| - 1];
    if last.Block? then Some(last.header) else HeaderOf(wire[..|wire| - 1])
  }

  function BodyOf(wire: seq<Item>): seq<byte> {
    if wire == [] then [] else
    var last := wire[|wire| - 1];
    BodyOf(wire[..|wire| - 1]) + if last.Bytes? then last.bytes else []
  }

  lemma OneItem(wire: seq<Item>, x: Item)
    ensures HeaderOf(wire + [x]) == if x.Block? then Some(x.header) else HeaderOf(wire)
    ensures BodyOf(wire + [x]) == BodyOf(wire) + if x.Bytes? then x.bytes else []
  {
    assert (wire + [x])[..|wire|] == wire;
  }

  /** The fields of a response and of its chunk writer, and what went out. */
  datatype State = State(
    head: bool, declaredTe: string, handlerCl: string, wroteHeader: bool, status: int, contentLength: int,
    setCl: string, setTe: string, buffer: seq<byte>, written: nat, noCache: bool, handlerDone: bool,
    cwWroteHeader: bool, chunking: bool, wire: seq<Item>)
  {
    const headerOut: Option<Header> := HeaderOf(wire)
    const bodyOut: seq<byte> := BodyOf(wire)
  }

  function New(head: bool, cl: string, te: string, buffer: seq<byte>): State {
    State(head, te, cl, false, 0, -1, "", "", buffer, 0, false, false, false, false, [])
  }

  function FramingOf(s: State): Framing {
    Framing(s.setCl, s.setTe, s.chunking)
  }

  /** What WriteHeader makes of the declared framing. */
  function Declared(t: State): State {
    if t.handlerCl != "" then
      if Declares(t.handlerCl) then t.(contentLength := ParseInt(t.handlerCl).value, setCl := t.handlerCl)
      else t.(handlerCl := "")
    else if t.declaredTe != "" then
      t.(setTe := t.declaredTe, chunking := t.chunking || Contains(t.declaredTe, "chunked"))
    else t
  }

  function WriteHeader(s: State, code: int): State {
    if s.wroteHeader then s else Declared(s.(wroteHeader := true, status := code))
  }

  /** The length may be filled in: the handler is done and declared none. */
  predicate AutoLength(s: State) {
    s.handlerDone && BodyAllowedForStatus(s.status) && s.handlerCl == ""
  }

  /** writeHeader, before n bytes of body. */
  function Emit(s: State, n: nat): State {
    if s.cwWroteHeader then s else
    var f := Settle(FramingOf(s), s.noCache, AutoLength(s), n);
    var length := if s.setCl == "" && f.cl != "" then n else s.contentLength;
    s.(cwWroteHeader := true, setCl := f.cl, setTe := f.te, chunking := f.chunking, contentLength := length,
       wire := s.wire + [Block(Header(s.status, f.cl, f.te))])
  }

  /** The writes for one piece. */
  function Writes(chunking: bool, p: seq<byte>): seq<Item> {
    if chunking then [Bytes(Hex(|p|) + CRLF), Bytes(p), Bytes(CRLF)] else [Bytes(p)]
  }

  lemma TwoItems(wire: seq<Item>, x: Item, y: Item)
    requires x.Bytes? && y.Bytes?
    ensures HeaderOf(wire + [x, y]) == HeaderOf(wire) && BodyOf(wire + [x, y]) == BodyOf(wire) + (x.bytes + y.bytes)
  {
    OneItem(wire, x);
    OneItem(wire + [x], y);
    assert wire + [x, y] == wire + [x] + [y];
  }

  lemma WritesGoOut(wire: seq<Item>, chunking: bool, p: seq<byte>)
    ensures HeaderOf(wire + Writes(chunking, p)) == HeaderOf(wire)
    ensures BodyOf(wire + Writes(chunking, p)) == BodyOf(wire) + if chunking then Chunk(p) else p
  {
    if chunking {
      var size, more := Hex(|p|) + CRLF, wire + [Bytes(Hex(|p|) + CRLF), Bytes(p)];
      TwoItems(wire, Bytes(size), Bytes(p));
      OneItem(more, Bytes(CRLF));
      assert wire + Writes(chunking, p) == more + [Bytes(CRLF)];
      assert BodyOf(wire) + (size + p) + CRLF == BodyOf(wire) + (size + p + CRLF);
    } else {
      OneItem(wire, Bytes(p));
    }
  }

  /** chunkWriter.Write */
  function Send(s: State, p: seq<byte>): State {
    var t := Emit(s, |p|);
    if t.head then t else t.(wire := t.wire + Writes(t.chunking, p))
  }

  function Ready(s: State): State {
    if s.wroteHeader then s else WriteHeader(s, 200)
  }

  function WriteOutcome(s: State, data: seq<byte>): WriteError {
    var t := Ready(s);
    if data == [] then NoError
    else if !BodyAllowedForStatus(t.status) then BodyNotAllowed
    else if !t.chunking && t.contentLength != -1 && t.written + |data| > t.contentLength then ContentLength
    else NoError
  }

  function Overflow(t: State): State
    requires t.written <= |t.buffer|
  {
    var u := t.(noCache := true);
    if t.written > 0 then Send(u, t.buffer[..t.written]) else u
  }

  /** Response.Write on a response whose header was written, for data that is accepted. */
  function Accept(t: State, data: seq<byte>): State
    requires t.chunking || t.noCache || t.written <= |t.buffer|
  {
    if t.chunking then Send(t, data)
    else
      var w := t.written + |data|;
      if t.noCache then Send(t.(written := w), data)
      else if w <= |t.buffer| then t.(written := w, buffer := t.buffer[..t.written] + data + t.buffer[w..])
      else Send(Overflow(t).(written := w), data)
  }

  /** The buffer is only overrun after a rejected write, and then every write is rejected. */
  predicate InBounds(s: State) {
    !s.noCache && s.written > |s.buffer| ==> !s.chunking && 0 <= s.contentLength < s.written
  }

  function Write(s: State, data: seq<byte>): State
    requires InBounds(Ready(s))
  {
    var t := Ready(s);
    match WriteOutcome(s, data)
    case BodyNotAllowed => t
    case ContentLength => t.(written := t.written + |data|)
    case NoError => if data == [] then t else Accept(t, data)
  }

  /** Slicing the buffer past its end panics. */
  predicate FlushPanics(s: State) {
    !s.noCache && s.written > |s.buffer|
  }

  function Flush(s: State): State
    requires !FlushPanics(Ready(s))
  {
    var t := Ready(s);
    var u := if !t.noCache && t.written > 0 then Send(t, t.buffer[..t.written]).(written := 0) else t;
    Emit(u, 0)
  }

  /** chunkWriter.close, whose header block is out. Note that HEAD is not looked at. */
  function Close(u: State): State {
    if u.chunking then u.(wire := u.wire + [Bytes([48, 13, 10]), Bytes(CRLF)]) else u
  }

  /** FinishRequest of a handler that has not finished. */
  function Finish(s: State): State
    requires !FlushPanics(Ready(s.(handlerDone := true)))
  {
    Close(Flush(s.(handlerDone := true)))
  }

  // ---------------------------------------------------------------- history and invariant

  /** What the handler did so far: accepted data, pieces passed to the chunk writer, whether a write
   was rejected for its length, whether the handler flushed, and the bytes accepted before it did. */
  datatype History = History(accepted: seq<byte>, pieces: seq<seq<byte>>, rejected: bool, flushed: bool, early: nat)

  const NoHistory: History := History([], [], false, false, 0)

  function Buffered(s: State): seq<byte> {
    if s.noCache || s.written > |s.buffer| then [] else s.buffer[..s.written]
  }

  ghost predicate PiecesOk(s: State, h: History) {
    && (forall i :: 0 <= i < |h.pieces| ==> h.pieces[i] != [])
    && s.bodyOut == (if s.head then [] else Framed(s.chunking, h.pieces))
  }

  /** Everything accepted went to the chunk writer or is still buffered. */
  ghost predicate BufferOk(s: State, h: History) {
    && (!h.rejected ==> s.noCache || s.written <= |s.buffer|)
    && (!h.rejected ==> h.accepted == Concat(h.pieces) + Buffered(s))
  }

  /** The header block goes out once, before any body, never with both a length and chunks. */
  ghost predicate HeaderOk(s: State, h: History) {
    && (s.cwWroteHeader <==> s.headerOut.Some?)
    && (s.headerOut.None? ==> h.pieces == [])
    && (s.headerOut.Some? ==>
          s.headerOut.value == Header(s.status, s.setCl, s.setTe) && (s.setCl != "" ==> !s.chunking))
    && (s.noCache ==> s.headerOut.Some?)
  }

  ghost predicate FramingOk(s: State, h: History, cl: string, te: string) {
    match ModeOf(cl, te)
    case ByLength => FramingOf(s) == Framing(cl, "", false) && s.contentLength == ParseInt(cl).value
    case ByChunks =>
      && FramingOf(s) == Framing("", te, true) && s.contentLength == -1
      && s.written == 0 && !s.noCache && !h.rejected
    case Auto =>
      && s.handlerCl == "" && s.contentLength == -1 && !h.rejected
      && FramingOf(s) == (if h.early > |s.buffer| then Framing("", WithChunked(EffectiveTe(cl, te)), true)
                          else Framing("", EffectiveTe(cl, te), false))
      && (s.headerOut.Some? <==> h.flushed || h.early > |s.buffer|)
      && (!h.flushed ==> h.early == |h.accepted|)
      && (h.early > |s.buffer| ==> s.noCache)
  }

  ghost predicate Untouched(s: State, h: History, cl: string, te: string) {
    && s == New(s.head, cl, te, s.buffer) && h == NoHistory
  }

  /** What holds between the handler's calls. */
  ghost predicate Inv(s: State, h: History, cl: string, te: string) {
    && s.declaredTe == te && !s.handlerDone
    && PiecesOk(s, h) && BufferOk(s, h) && HeaderOk(s, h) && InBounds(s)
    && if s.wroteHeader then FramingOk(s, h, cl, te) else Untouched(s, h, cl, te)
  }

  lemma WriteHeaderSettles(s: State, h: History, cl: string, te: string, code: int)
    requires Untouched(s, h, cl, te)
    ensures FramingOk(WriteHeader(s, code), h, cl, te)
  {
    if cl == "" {
      assert !Contains("", "chunked");
    }
  }

  lemma ReadyKeeps(s: State, h: History, cl: string, te: string, code: int)
    requires Inv(s, h, cl, te)
    ensures Inv(WriteHeader(s, code), h, cl, te) && WriteHeader(s, code).wroteHeader
  {
    if !s.wroteHeader {
      WriteHeaderSettles(s, h, cl, te, code);
      assert Concat([]) == [] == Chunks([]);
    }
  }

  /** The history after data was accepted; `sent` is what reached the chunk writer. */
  function Accepted(h: History, data: seq<byte>, sent: seq<seq<byte>>): History {
    h.(accepted := h.accepted + data, pieces := h.pieces + sent,
       early := if h.flushed then h.early else h.early + |data|)
  }

  function Sent(t: State, data: seq<byte>): seq<seq<byte>> {
    if t.chunking || t.noCache then [data]
    else if t.written + |data| <= |t.buffer| then []
    else if 0 < t.written <= |t.buffer| then [t.buffer[..t.written], data]
    else [data]
  }

  // ---------------------------------------------------------------- sending a piece

  /** What sending p does, component by component. */
  ghost predicate Sends(t: State, p: seq<byte>, u: State) {
    && u == t.(cwWroteHeader := true, setCl := u.setCl, setTe := u.setTe, chunking := u.chunking,
               contentLength := u.contentLength, wire := u.wire)
    && FramingOf(u) == (if t.cwWroteHeader then FramingOf(t) else Settle(FramingOf(t), t.noCache, AutoLength(t), |p|))
    && u.headerOut == (if t.cwWroteHeader then t.headerOut else Some(Header(t.status, u.setCl, u.setTe)))
    && (u.contentLength == t.contentLength || AutoLength(t))
    && u.bodyOut == (if t.head then t.bodyOut else t.bodyOut + if u.chunking then Chunk(p) else p)
  }

  /** What emitting the header block does, component by component. */
  ghost predicate Emits(t: State, n: nat, e: State) {
    && e == t.(cwWroteHeader := true, setCl := e.setCl, setTe := e.setTe, chunking := e.chunking,
               contentLength := e.contentLength, wire := e.wire)
    && FramingOf(e) == (if t.cwWroteHeader then FramingOf(t) else Settle(FramingOf(t), t.noCache, AutoLength(t), n))
    && e.headerOut == (if t.cwWroteHeader then t.headerOut else Some(Header(t.status, e.setCl, e.setTe)))
    && (e.contentLength == t.contentLength || AutoLength(t))
    && e.bodyOut == t.bodyOut
  }

  lemma EmitEmits(t: State, n: nat)
    ensures Emits(t, n, Emit(t, n))
  {
    if !t.cwWroteHeader {
      var e := Emit(t, n);
      OneItem(t.wire, Block(Header(t.status, e.setCl, e.setTe)));
    }
  }

  lemma SendAfter(t: State, p: seq<byte>, e: State, u: State)
    requires Emits(t, |p|, e) && u == if e.head then e else e.(wire := e.wire + Writes(e.chunking, p))
    ensures Sends(t, p, u)
  {
    WritesGoOut(e.wire, e.chunking, p);
  }

  lemma SendSends(t: State, p: seq<byte>)
    ensures Sends(t, p, Send(t, p))
  {
    EmitEmits(t, |p|);
    SendAfter(t, p, Emit(t, |p|), Send(t, p));
  }

  lemma SendPieces(t: State, h: History, p: seq<byte>, u: State, h': History)
    requires PiecesOk(t, h) && (t.cwWroteHeader || h.pieces == []) && p != [] && Sends(t, p, u)
    requires h'.pieces == h.pieces + [p]
    ensures PiecesOk(u, h') && Concat(h'.pieces) == Concat(h.pieces) + p
  {
    Snoc(h.pieces, p);
  }

  lemma SendHeader(t: State, h: History, p: seq<byte>, u: State, h': History)
    requires (t.cwWroteHeader <==> t.headerOut.Some?) && Sends(t, p, u)
    requires t.headerOut.Some? ==>
              t.headerOut.value == Header(t.status, t.setCl, t.setTe) && (t.setCl != "" ==> !t.chunking)
    ensures HeaderOk(u, h')
  {
  }

  lemma SendFraming(t: State, h: History, cl: string, te: string, p: seq<byte>, u: State, h': History)
    requires FramingOk(t, h, cl, te) && t.headerOut.Some? && t.cwWroteHeader && Sends(t, p, u) && !AutoLength(t)
    requires h'.rejected == h.rejected && h'.flushed == h.flushed
    requires ModeOf(cl, te).Auto? ==> h'.early == h.early && h'.flushed
    ensures FramingOk(u, h', cl, te)
  {
  }

  /** The payload part of the invariant. */
  ghost predicate PayloadOk(s: State, h: History) {
    PiecesOk(s, h) && BufferOk(s, h) && HeaderOk(s, h)
  }

  lemma Moved(accepted: seq<byte>, sent: seq<byte>, b: seq<byte>, data: seq<byte>, sent': seq<byte>)
    requires accepted == sent + b && b == [] && sent' == sent + data
    ensures accepted + data == sent' + b
  {
  }

  lemma PassedPayload(t: State, h: History, data: seq<byte>, u: State)
    requires PayloadOk(t, h) && (t.noCache || t.written == 0) && data != [] && Sends(t, data, u)
    ensures PayloadOk(u, Accepted(h, data, [data]))
  {
    var h' := Accepted(h, data, [data]);
    SendPieces(t, h, data, u, h');
    SendHeader(t, h, data, u, h');
    assert Buffered(t) == [] && Buffered(u) == [];
    if !h.rejected {
      Moved(h.accepted, Concat(h.pieces), Buffered(t), data, Concat(h'.pieces));
    }
  }

  lemma ChunkedAccept(t: State, h: History, cl: string, te: string, data: seq<byte>, u: State)
    requires Inv(t, h, cl, te) && t.wroteHeader && t.chunking && data != [] && Sends(t, data, u)
    ensures Inv(u, Accepted(h, data, [data]), cl, te)
  {
    PassedPayload(t, h, data, u);
  }

  /** Writing data behind the first n bytes of a buffer. */
  lemma Copied(b: seq<byte>, n: nat, data: seq<byte>, b': seq<byte>)
    requires n + |data| <= |b| && b' == b[..n] + data + b[n + |data|..]
    ensures |b'| == |b| && b'[..n + |data|] == b[..n] + data
  {
  }

  lemma Appended(accepted: seq<byte>, sent: seq<byte>, b: seq<byte>, data: seq<byte>)
    requires accepted == sent + b
    ensures accepted + data == sent + (b + data)
  {
  }

  lemma BufferedPayload(t: State, h: History, data: seq<byte>, u: State, h': History)
    requires PayloadOk(t, h) && !t.noCache && u.written <= |u.buffer| == |t.buffer| && Buffered(u) == Buffered(t) + data
    requires u == t.(written := u.written, buffer := u.buffer)
    requires h'.pieces == h.pieces && h'.accepted == h.accepted + data && h'.rejected == h.rejected
    ensures PayloadOk(u, h')
  {
    if !h.rejected {
      Appended(h.accepted, Concat(h.pieces), Buffered(t), data);
    }
  }

  lemma BufferedFraming(t: State, h: History, cl: string, te: string, data: seq<byte>, u: State, h': History)
    requires FramingOk(t, h, cl, te) && !t.chunking && !t.noCache && u.written <= |u.buffer| == |t.buffer|
    requires u == t.(written := u.written, buffer := u.buffer)
    requires h' == h.(accepted := h.accepted + data, early := if h.flushed then h.early else h.early + |data|)
    requires BufferOk(u, h') && HeaderOk(t, h)
    ensures FramingOk(u, h', cl, te)
  {
  }

  lemma BufferedAccept(t: State, h: History, cl: string, te: string, data: seq<byte>, u: State)
    requires Inv(t, h, cl, te) && t.wroteHeader && !t.chunking && !t.noCache && t.written + |data| <= |t.buffer|
    requires u == t.(written := t.written + |data|, buffer := u.buffer)
    requires |u.buffer| == |t.buffer| && u.buffer[..u.written] == t.buffer[..t.written] + data
    ensures Inv(u, Accepted(h, data, []), cl, te)
  {
    var h' := Accepted(h, data, []);
    assert h'.pieces == h.pieces;
    BufferedPayload(t, h, data, u, h');
    BufferedFraming(t, h, cl, te, data, u, h');
  }

  lemma PassedAccept(t: State, h: History, cl: string, te: string, data: seq<byte>, u: State)
    requires Inv(t, h, cl, te) && t.wroteHeader && !t.chunking && t.noCache && data != []
    requires Sends(t.(written := t.written + |data|), data, u)
    ensures Inv(u, Accepted(h, data, [data]), cl, te)
  {
    var w, h' := t.(written := t.written + |data|), Accepted(h, data, [data]);
    PassedPayload(w, h, data, u);
    SendFraming(w, h, cl, te, data, u, h');
  }

  /** The first piece of an overflow: what was buffered. */
  lemma OverflowPayload(t: State, h: History, b: seq<byte>, u: State)
    requires PayloadOk(t, h) && !t.noCache && 0 < t.written <= |t.buffer| && b == t.buffer[..t.written]
    requires Sends(t.(noCache := true), b, u)
    ensures PayloadOk(u, h.(pieces := h.pieces + [b]))
  {
    var h' := h.(pieces := h.pieces + [b]);
    SendPieces(t.(noCache := true), h, b, u, h');
    SendHeader(t.(noCache := true), h, b, u, h');
    assert Concat(h'.pieces) + [] == Concat(h'.pieces);
  }

  lemma OverflowFraming(t: State, h: History, cl: string, te: string, data: seq<byte>, t1: State, p: seq<byte>,
          u: State, h': History)
    requires FramingOk(t, h, cl, te) && HeaderOk(t, h) && BufferOk(t, h) && !t.handlerDone
    requires !t.chunking && !t.noCache && t.written <= |t.buffer| < t.written + |data|
    requires Sends(t1, p, u) && t1 == t.(noCache := true, written := t1.written)
    requires h'.rejected == h.rejected && h'.flushed == h.flushed && h'.accepted == h.accepted + data
    requires h'.early == if h.flushed then h.early else h.early + |data|
    ensures FramingOk(u, h', cl, te) && u.headerOut.Some? && u.cwWroteHeader
  {
  }

  /** Sending does not look at `written`. */
  lemma SendsWritten(t: State, p: seq<byte>, u: State, w: nat)
    requires Sends(t, p, u)
    ensures Sends(t.(written := w), p, u.(written := w))
  {
  }

  lemma SendKeepsFraming(t: State, h: History, cl: string, te: string, p: seq<byte>, u: State)
    requires FramingOk(t, h, cl, te) && Sends(t, p, u) && t.cwWroteHeader && t.headerOut.Some? && !AutoLength(t)
    ensures FramingOk(u, h, cl, te)
  {
  }

  lemma TwoPieces(h: History, b: seq<byte>, data: seq<byte>)
    ensures Accepted(h, data, [b, data]) == Accepted(h.(pieces := h.pieces + [b]), data, [data])
  {
    assert h.pieces + [b, data] == h.pieces + [b] + [data];
  }

  lemma TwoPiecesPayload(t: State, h: History, h1: History, b: seq<byte>, data: seq<byte>,
        u1: State, w: State, u: State)
    requires PayloadOk(t, h) && !t.noCache && 0 < t.written <= |t.buffer| && b == t.buffer[..t.written] && data != []
    requires Sends(t.(noCache := true), b, u1) && w == u1.(written := w.written) && Sends(w, data, u)
    requires h1 == h.(pieces := h.pieces + [b])
    ensures PayloadOk(u, Accepted(h1, data, [data]))
  {
    OverflowPayload(t, h, b, u1);
    WrittenPayload(u1, h1, w);
    PassedPayload(w, h1, data, u);
  }

  lemma WrittenPayload(s: State, h: History, w: State)
    requires PayloadOk(s, h) && s.noCache && w == s.(written := w.written)
    ensures PayloadOk(w, h)
  {
  }

  lemma OverflowBuffered(t: State, h: History, cl: string, te: string, b: seq<byte>, data: seq<byte>,
        u1: State, w: State, u: State, h': History)
    requires Inv(t, h, cl, te) && t.wroteHeader && !t.chunking && !t.noCache && PayloadOk(u, h')
    requires t.written <= |t.buffer| < t.written + |data|
    requires Sends(t.(noCache := true), b, u1) && w == u1.(written := t.written + |data|) && Sends(w, data, u)
    requires h' == h.(accepted := h.accepted + data, pieces := h'.pieces,
                      early := if h.flushed then h.early else h.early + |data|)
    ensures Inv(u, h', cl, te)
  {
    var t1 := t.(noCache := true, written := w.written);
    SendsWritten(t.(noCache := true), b, u1, w.written);
    OverflowFraming(t, h, cl, te, data, t1, b, w, h');
    SendKeepsFraming(w, h', cl, te, data, u);
  }

  lemma OverflowAtOncePayload(t: State, h: History, data: seq<byte>, w: State, u: State)
    requires PayloadOk(t, h) && !t.noCache && t.written == 0 && data != []
    requires w == t.(noCache := true, written := |data|) && Sends(w, data, u)
    ensures PayloadOk(u, Accepted(h, data, [data]))
  {
    var h' := Accepted(h, data, [data]);
    SendPieces(w, h, data, u, h');
    SendHeader(w, h, data, u, h');
    assert BufferOk(u, h') by {
      assert Buffered(t) == [] && Buffered(u) == [];
      assert Concat(h.pieces) + [] == Concat(h.pieces);
      assert Concat(h'.pieces) + [] == Concat(h'.pieces);
    }
  }

  lemma OverflowAtOnce(t: State, h: History, cl: string, te: string, data: seq<byte>, w: State, u: State, h': History)
    requires Inv(t, h, cl, te) && t.wroteHeader && !t.chunking && !t.noCache && PayloadOk(u, h')
    requires 0 == t.written && |t.buffer| < |data|
    requires w == t.(noCache := true, written := |data|) && Sends(w, data, u)
    requires h' == h.(accepted := h.accepted + data, pieces := h'.pieces,
                      early := if h.flushed then h.early else h.early + |data|)
    ensures Inv(u, h', cl, te)
  {
    OverflowFraming(t, h, cl, te, data, w, data, u, h');
  }

  /** The history of one Write. */
  function WriteHistory(s: State, h: History, data: seq<byte>): History {
    match WriteOutcome(s, data)
    case BodyNotAllowed => h
    case ContentLength => h.(rejected := true)
    case NoError => if data == [] then h else Accepted(h, data, Sent(Ready(s), data))
  }

  /** Which sends an accepted write amounts to. */
  ghost predicate Accepts(t: State, data: seq<byte>, u: State) {
    var w := t.written + |data|;
    if t.chunking then Sends(t, data, u)
    else if t.noCache then Sends(t.(written := w), data, u)
    else if w <= |t.buffer| then u == t.(written := w, buffer := t.buffer[..t.written] + data + t.buffer[w..])
    else if t.written == 0 then Sends(t.(noCache := true, written := w), data, u)
    else t.written <= |t.buffer| && exists u1 ::
           Sends(t.(noCache := true), t.buffer[..t.written], u1) && Sends(u1.(written := w), data, u)
  }

  lemma OverflowIs(t: State, data: seq<byte>)
    requires !t.chunking && !t.noCache && t.written <= |t.buffer| < t.written + |data|
    ensures Accept(t, data) == Send(Overflow(t).(written := t.written + |data|), data)
    ensures Overflow(t) == if t.written > 0 then Send(t.(noCache := true), t.buffer[..t.written])
        else t.(noCache := true)
  {
  }

  lemma OverflowAccepts(t: State, data: seq<byte>, u1: State, u: State)
    requires !t.chunking && !t.noCache && t.written <= |t.buffer| < t.written + |data|
    requires if t.written > 0 then Sends(t.(noCache := true), t.buffer[..t.written], u1) else u1 == t.(noCache := true)
    requires Sends(u1.(written := t.written + |data|), data, u)
    ensures Accepts(t, data, u)
  {
  }

  lemma OverflowSends(t: State, data: seq<byte>) returns (u1: State, u: State)
    requires !t.chunking && !t.noCache && t.written <= |t.buffer| < t.written + |data|
    ensures if t.written > 0 then Sends(t.(noCache := true), t.buffer[..t.written], u1) else u1 == t.(noCache := true)
    ensures Sends(u1.(written := t.written + |data|), data, u)
    ensures u == Accept(t, data)
  {
    OverflowIs(t, data);
    u1 := Overflow(t);
    if t.written > 0 {
      SendSends(t.(noCache := true), t.buffer[..t.written]);
    }
    u := Send(u1.(written := t.written + |data|), data);
    SendSends(u1.(written := t.written + |data|), data);
  }

  lemma AcceptAccepts(t: State, data: seq<byte>)
    requires t.chunking || t.noCache || t.written <= |t.buffer|
    ensures Accepts(t, data, Accept(t, data))
  {
    if t.chunking {
      SendSends(t, data);
    } else if t.noCache {
      SendSends(t.(written := t.written + |data|), data);
    } else if t.written + |data| > |t.buffer| {
      var u1, u := OverflowSends(t, data);
      OverflowAccepts(t, data, u1, u);
    }
  }

  lemma KeepsInBuffer(t: State, h: History, cl: string, te: string, data: seq<byte>, u: State)
    requires Inv(t, h, cl, te) && t.wroteHeader && Accepts(t, data, u)
    requires !t.chunking && !t.noCache && t.written + |data| <= |t.buffer|
    ensures Inv(u, Accepted(h, data, []), cl, te)
  {
    Copied(t.buffer, t.written, data, u.buffer);
    BufferedAccept(t, h, cl, te, data, u);
  }

  lemma KeepsOverflowingAtOnce(t: State, h: History, cl: string, te: string, data: seq<byte>, u: State)
    requires Inv(t, h, cl, te) && t.wroteHeader && data != [] && Accepts(t, data, u)
    requires !t.chunking && !t.noCache && 0 == t.written && |t.buffer| < |data|
    ensures Inv(u, Accepted(h, data, [data]), cl, te)
  {
    var w := t.(noCache := true, written := |data|);
    OverflowAtOncePayload(t, h, data, w, u);
    OverflowAtOnce(t, h, cl, te, data, w, u, Accepted(h, data, [data]));
  }

  lemma KeepsTwoPieces(t: State, h: History, cl: string, te: string, b: seq<byte>, data: seq<byte>,
        u1: State, w: State, u: State, h': History)
    requires Inv(t, h, cl, te) && t.wroteHeader && !t.chunking && !t.noCache && data != []
    requires 0 < t.written <= |t.buffer| < t.written + |data| && b == t.buffer[..t.written]
    requires Sends(t.(noCache := true), b, u1) && w == u1.(written := t.written + |data|) && Sends(w, data, u)
    requires h' == Accepted(h, data, [b, data])
    ensures Inv(u, h', cl, te)
  {
    TwoPieces(h, b, data);
    TwoPiecesPayload(t, h, h.(pieces := h.pieces + [b]), b, data, u1, w, u);
    OverflowBuffered(t, h, cl, te, b, data, u1, w, u, h');
  }

  lemma KeepsOverflowing(t: State, h: History, cl: string, te: string, b: seq<byte>, data: seq<byte>, u: State)
    requires Inv(t, h, cl, te) && t.wroteHeader && data != [] && Accepts(t, data, u)
    requires !t.chunking && !t.noCache && 0 < t.written <= |t.buffer| < t.written + |data| && b == t.buffer[..t.written]
    ensures Inv(u, Accepted(h, data, [b, data]), cl, te)
  {
    var u1 :| Sends(t.(noCache := true), b, u1) && Sends(u1.(written := t.written + |data|), data, u);
    KeepsTwoPieces(t, h, cl, te, b, data, u1, u1.(written := t.written + |data|), u, Accepted(h, data, [b, data]));
  }

  lemma AcceptKeeps(t: State, h: History, cl: string, te: string, data: seq<byte>, u: State)
    requires Inv(t, h, cl, te) && t.wroteHeader && data != [] && Accepts(t, data, u)
    requires t.chunking || t.noCache || t.written <= |t.buffer|
    ensures Inv(u, Accepted(h, data, Sent(t, data)), cl, te)
  {
    if t.chunking {
      ChunkedAccept(t, h, cl, te, data, u);
    } else if t.noCache {
      PassedAccept(t, h, cl, te, data, u);
    } else if t.written + |data| <= |t.buffer| {
      KeepsInBuffer(t, h, cl, te, data, u);
    } else if t.written == 0 {
      KeepsOverflowingAtOnce(t, h, cl, te, data, u);
    } else {
      KeepsOverflowing(t, h, cl, te, t.buffer[..t.written], data, u);
    }
  }

  lemma RejectKeeps(t: State, h: History, cl: string, te: string, data: seq<byte>)
    requires Inv(t, h, cl, te) && t.wroteHeader && !t.chunking && t.contentLength != -1
    requires t.written + |data| > t.contentLength
    ensures Inv(t.(written := t.written + |data|), h.(rejected := true), cl, te)
  {
  }

  /** A Write keeps the invariant, whatever its outcome. */
  lemma WriteKeeps(s: State, h: History, cl: string, te: string, data: seq<byte>)
    requires Inv(s, h, cl, te)
    ensures InBounds(Ready(s)) && Inv(Write(s, data), WriteHistory(s, h, data), cl, te)
  {
    ReadyKeeps(s, h, cl, te, 200);
    var t := Ready(s);
    if WriteOutcome(s, data) == ContentLength {
      RejectKeeps(t, h, cl, te, data);
    } else if WriteOutcome(s, data) == NoError && data != [] {
      AcceptAccepts(t, data);
      AcceptKeeps(t, h, cl, te, data, Accept(t, data));
    }
  }

  // ---------------------------------------------------------------- flushing

  /** What Flush does, component by component. */
  ghost predicate Flushes(t: State, u: State) {
    var n := if t.noCache then 0 else t.written;
    && (t.noCache || t.written <= |t.buffer|)
    && u == t.(cwWroteHeader := true, setCl := u.setCl, setTe := u.setTe, chunking := u.chunking,
               contentLength := u.contentLength,
               wire := u.wire, written := t.written - n)
    && FramingOf(u) == (if t.cwWroteHeader then FramingOf(t) else Settle(FramingOf(t), t.noCache, AutoLength(t), n))
    && u.headerOut == (if t.cwWroteHeader then t.headerOut else Some(Header(t.status, u.setCl, u.setTe)))
    && (u.contentLength == t.contentLength || AutoLength(t))
    && u.bodyOut == (if t.head || n == 0 then t.bodyOut
                     else t.bodyOut + if u.chunking then Chunk(t.buffer[..n]) else t.buffer[..n])
  }

  lemma FlushSent(t: State, v: State)
    requires !t.noCache && 0 < t.written <= |t.buffer| && Sends(t, t.buffer[..t.written], v)
    ensures Flushes(t, Emit(v.(written := 0), 0))
  {
  }

  lemma FlushNothing(t: State, e: State)
    requires (t.noCache || t.written == 0) && Emits(t, 0, e)
    ensures Flushes(t, e)
  {
  }

  lemma FlushFlushes(s: State)
    requires !FlushPanics(Ready(s))
    ensures Flushes(Ready(s), Flush(s))
  {
    var t := Ready(s);
    if !t.noCache && t.written > 0 {
      SendSends(t, t.buffer[..t.written]);
      FlushSent(t, Send(t, t.buffer[..t.written]));
    } else {
      EmitEmits(t, 0);
      FlushNothing(t, Emit(t, 0));
    }
  }

  /** The pieces after a flush. */
  function FlushedPieces(t: State, h: History): seq<seq<byte>> {
    if t.noCache || t.written == 0 || t.written > |t.buffer| then h.pieces else h.pieces + [t.buffer[..t.written]]
  }

  lemma Drained(accepted: seq<byte>, sent: seq<byte>, b: seq<byte>, sent': seq<byte>, rest: seq<byte>)
    requires accepted == sent + b && sent' == sent + b && rest == []
    ensures accepted == sent' + rest
  {
  }

  lemma OnePieceMore(pieces: seq<seq<byte>>, b: seq<byte>, more: seq<seq<byte>>)
    requires (forall i :: 0 <= i < |pieces| ==> pieces[i] != []) && b != [] && more == pieces + [b]
    ensures Concat(more) == Concat(pieces) + b && Chunks(more) == Chunks(pieces) + Chunk(b)
    ensures forall i :: 0 <= i < |more| ==> more[i] != []
  {
    Snoc(pieces, b);
  }

  lemma FlushPiece(t: State, h: History, b: seq<byte>, u: State, h': History)
    requires PayloadOk(t, h) && Flushes(t, u) && !t.noCache && t.written > 0
    requires b == t.buffer[..t.written] == Buffered(t) && Buffered(u) == []
    requires Concat(h'.pieces) == Concat(h.pieces) + b && Chunks(h'.pieces) == Chunks(h.pieces) + Chunk(b)
    requires forall i :: 0 <= i < |h'.pieces| ==> h'.pieces[i] != []
    requires h'.accepted == h.accepted && h'.rejected == h.rejected
    ensures PayloadOk(u, h')
  {
    if !h.rejected {
      Drained(h.accepted, Concat(h.pieces), b, Concat(h'.pieces), Buffered(u));
    }
  }

  lemma FlushNoPiece(t: State, h: History, u: State, h': History)
    requires PayloadOk(t, h) && Flushes(t, u) && (t.noCache || t.written == 0)
    requires h'.pieces == h.pieces && h'.accepted == h.accepted && h'.rejected == h.rejected
    ensures PayloadOk(u, h') && Buffered(u) == []
  {
    assert Buffered(t) == [] && Buffered(u) == [];
  }

  lemma FlushBuffered(t: State, h: History, b: seq<byte>, u: State, h': History)
    requires PayloadOk(t, h) && Flushes(t, u) && !t.noCache && t.written > 0 && b == t.buffer[..t.written]
    requires h'.pieces == h.pieces + [b] && h'.accepted == h.accepted && h'.rejected == h.rejected
    ensures PayloadOk(u, h') && Buffered(u) == []
  {
    OnePieceMore(h.pieces, b, h'.pieces);
    FlushPiece(t, h, b, u, h');
  }

  lemma FlushPayload(t: State, h: History, u: State, h': History)
    requires PayloadOk(t, h) && Flushes(t, u)
    requires h'.pieces == FlushedPieces(t, h) && h'.accepted == h.accepted && h'.rejected == h.rejected
    ensures PayloadOk(u, h') && Buffered(u) == []
  {
    if !t.noCache && t.written > 0 {
      FlushBuffered(t, h, t.buffer[..t.written], u, h');
    } else {
      FlushNoPiece(t, h, u, h');
    }
  }

  lemma FlushFraming(t: State, h: History, cl: string, te: string, u: State, h': History)
    requires FramingOk(t, h, cl, te) && HeaderOk(t, h) && Flushes(t, u) && !t.handlerDone
    requires h'.accepted == h.accepted && h'.rejected == h.rejected && h'.early == h.early && h'.flushed
    ensures FramingOk(u, h', cl, te)
  {
  }

  function FlushHistory(s: State, h: History): History {
    h.(pieces := FlushedPieces(Ready(s), h), flushed := true)
  }

  lemma FlushKeepsReady(t: State, h: History, cl: string, te: string, u: State)
    requires Inv(t, h, cl, te) && t.wroteHeader && Flushes(t, u)
    ensures Inv(u, h.(pieces := FlushedPieces(t, h), flushed := true), cl, te)
  {
    var h' := h.(pieces := FlushedPieces(t, h), flushed := true);
    FlushPayload(t, h, u, h');
    FlushFraming(t, h, cl, te, u, h');
  }

  /** A Flush in the middle of the handler keeps the invariant. */
  lemma FlushKeeps(s: State, h: History, cl: string, te: string)
    requires Inv(s, h, cl, te) && !FlushPanics(Ready(s))
    ensures Inv(Flush(s), FlushHistory(s, h), cl, te)
  {
    ReadyKeeps(s, h, cl, te, 200);
    FlushFlushes(s);
    FlushKeepsReady(Ready(s), h, cl, te, Flush(s));
  }

  // ---------------------------------------------------------------- finishing

  /** The framing of a finished response, by what was declared and done. */
  ghost predicate FinalFraming(u: State, h: History, cl: string, te: string) {
    u.headerOut.Some? &&
    match ModeOf(cl, te)
    case ByLength => u.headerOut.value == Header(u.status, cl, "") && !u.chunking
    case ByChunks => u.headerOut.value == Header(u.status, "", te) && u.chunking
    case Auto =>
      var te' := EffectiveTe(cl, te);
      if h.early > |u.buffer| then u.headerOut.value == Header(u.status, "", WithChunked(te')) && u.chunking
      else if h.flushed || !BodyAllowedForStatus(u.status) then
        u.headerOut.value == Header(u.status, "", te') && !u.chunking
      else u.headerOut.value == Header(u.status, Numeral(|h.accepted|), te') && !u.chunking
  }

  /** A finished response whose writes were all accepted. */
  ghost predicate Finished(u: State, h: History, ps: seq<seq<byte>>, cl: string, te: string) {
    && FinalFraming(u, h, cl, te)
    && (forall i :: 0 <= i < |ps| ==> ps[i] != []) && Concat(ps) == h.accepted
    && u.bodyOut == (if u.head then [] else Framed(u.chunking, ps)) + (if u.chunking then LAST_CHUNK else [])
  }

  lemma FinishFraming(t: State, h: History, cl: string, te: string, u: State)
    requires FramingOk(t.(handlerDone := false), h, cl, te) && HeaderOk(t, h) && BufferOk(t, h) && !h.rejected
    requires Flushes(t, u) && t.handlerDone
    ensures FinalFraming(u, h, cl, te)
  {
    assert [] + Buffered(t) == Buffered(t);
  }

  lemma WriteHeaderDone(s: State, d: State)
    requires d == s.(handlerDone := true) && !s.wroteHeader
    ensures WriteHeader(d, 200) == WriteHeader(s, 200).(handlerDone := true)
  {
    if s.handlerCl == "" {
      assert WriteHeader(d, 200).handlerDone;
    } else if Declares(s.handlerCl) {
      assert WriteHeader(d, 200).setCl == s.handlerCl;
    }
  }

  /** Ready does not look at handlerDone. */
  lemma ReadyDone(s: State)
    ensures Ready(s.(handlerDone := true)) == Ready(s).(handlerDone := true)
  {
    if !s.wroteHeader {
      WriteHeaderDone(s, s.(handlerDone := true));
    }
  }

  lemma CloseFinishes(u: State, h: History, ps: seq<seq<byte>>, cl: string, te: string)
    requires FinalFraming(u, h, cl, te) && PayloadOk(u, h.(pieces := ps)) && Buffered(u) == [] && !h.rejected
    ensures Finished(Close(u), h, ps, cl, te) && Close(u).status == u.status
  {
    assert Concat(ps) + [] == Concat(ps);
    assert u.bodyOut + [] == u.bodyOut;
    TwoItems(u.wire, Bytes([48, 13, 10]), Bytes(CRLF));
    assert [48, 13, 10] + CRLF == LAST_CHUNK;
  }

  lemma FlushFinishes(t: State, h: History, cl: string, te: string, u: State)
    requires Inv(t, h, cl, te) && t.wroteHeader && !h.rejected && Flushes(t.(handlerDone := true), u)
    ensures Finished(Close(u), h, FlushedPieces(t, h), cl, te) && Close(u).status == t.status
  {
    var d := t.(handlerDone := true);
    FlushPayload(d, h, u, h.(pieces := FlushedPieces(t, h)));
    FinishFraming(d, h, cl, te, u);
    CloseFinishes(u, h, FlushedPieces(t, h), cl, te);
  }

  /** Finishing delivers the rest of the payload and the final framing. */
  lemma FinishFinishes(s: State, h: History, cl: string, te: string)
    requires Inv(s, h, cl, te) && !h.rejected
    ensures !FlushPanics(Ready(s.(handlerDone := true)))
    ensures Finished(Finish(s), h, FlushedPieces(Ready(s), h), cl, te) && Finish(s).status == Ready(s).status
  {
    ReadyKeeps(s, h, cl, te, 200);
    ReadyDone(s);
    var d := s.(handlerDone := true);
    FlushFlushes(d);
    FlushFinishes(Ready(s), h, cl, te, Flush(d));
  }
}
