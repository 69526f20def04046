/**
 A reader of HTTP/1.1 message bodies, written from RFC 7230: the chunked coding of section 4.1
 (without extensions and trailers) and the body length rules of section 3.3.3 for a response to a
 request that is not HEAD and with a status that allows a body.
 */
module Rfc7230 {
  import opened Bytes
  import opened Decimal

  const CRLF: seq<byte> := [13, 10]

  /** A body read off the front of a connection's bytes; `UntilClose` never ends by itself. */
  datatype Decoded = Complete(payload: seq<byte>, rest: seq<byte>) | UntilClose(payload: seq<byte>) | Malformed

  // ---------------------------------------------------------------- chunk sizes

  /** HEXDIG, of either case. */
  predicate IsHexDigit(b: byte) {
    48 <= b <= 57 || 65 <= b <= 70 || 97 <= b <= 102
  }

  function HexDigitValue(b: byte): (v: nat)
    requires IsHexDigit(b)
    ensures v < 16
  {
    if b <= 57 then b - 48 else if b <= 70 then b - 55 else b - 87
  }

  /** The number of leading hex digits. */
  function HexRun(s: seq<byte>): (k: nat)
    ensures k <= |s| && forall i :: 0 <= i < k ==> IsHexDigit(s[i])
  {
    if s != [] && IsHexDigit(s[0]) then 1 + HexRun(s[1..]) else 0
  }

  function HexValue(s: seq<byte>): nat
    requires forall i :: 0 <= i < |s| ==> IsHexDigit(s[i])
  {
    if s == [] then 0 else 16 * HexValue(s[..|s| - 1]) + HexDigitValue(s[|s| - 1])
  }

  // ---------------------------------------------------------------- chunked coding

  function DecodeChunked(s: seq<byte>): Decoded
    decreases |s|
  {
    var k := HexRun(s);
    if k == 0 || |s| < k + 2 || s[k..k + 2] != CRLF then Malformed else
    var size, t := HexValue(s[..k]), s[k + 2..];
    if size == 0 then
      if |t| >= 2 && t[..2] == CRLF then Complete([], t[2..]) else Malformed
    else if |t| < size + 2 || t[size..size + 2] != CRLF then Malformed
    else
      match DecodeChunked(t[size + 2..])
      case Complete(payload, rest) => Complete(t[..size] + payload, rest)
      case _ => Malformed
  }

  /** The framing always costs bytes: a chunked body is longer than its payload. */
  lemma {:induction false} ChunkedCosts(s: seq<byte>)
    requires DecodeChunked(s).Complete?
    ensures |DecodeChunked(s).payload| + |DecodeChunked(s).rest| < |s|
    decreases |s|
  {
    var k := HexRun(s);
    var size, t := HexValue(s[..k]), s[k + 2..];
    if size != 0 {
      ChunkedCosts(t[size + 2..]);
    }
  }

  // ---------------------------------------------------------------- header fields

  function Lower(c: char): char {
    if 'A' <= c <= 'Z' then (c as int + 32) as char else c
  }

  function LowerAll(s: string): string {
    seq(|s|, i requires 0 <= i < |s| => Lower(s[i]))
  }

  /** What follows the last comma. */
  function LastElement(s: string): string {
    if s == [] then [] else if s[|s| - 1] == ',' then [] else LastElement(s[..|s| - 1]) + [s[|s| - 1]]
  }

  function TrimLeft(s: string): string {
    if s != [] && (s[0] == ' ' || s[0] == '\t') then TrimLeft(s[1..]) else s
  }

  function TrimRight(s: string): string {
    if s != [] && (s[|s| - 1] == ' ' || s[|s| - 1] == '\t') then TrimRight(s[..|s| - 1]) else s
  }

  /** Section 3.3.3, rule 3: whether chunked is the final transfer coding. Coding names are case-insensitive. */
  predicate FinalCodingIsChunked(te: string) {
    LowerAll(TrimRight(TrimLeft(LastElement(te)))) == "chunked"
  }

  /** Section 3.3.3, rule 1: responses that never have a body, whatever their framing fields say. */
  predicate NeverHasBody(status: int) {
    status / 100 == 1 || status in {204, 304}
  }

  /** The body that the framing fields announce, read off the front of `s`. Empty strings stand for absent fields. */
  function DecodeBody(te: string, cl: string, s: seq<byte>): Decoded {
    if te != "" then
      if FinalCodingIsChunked(te) then DecodeChunked(s) else UntilClose(s)
    else if cl != "" then
      if !AllDigits(cl) then Malformed
      else if |s| < Value(cl) then Malformed
      else Complete(s[..Value(cl)], s[Value(cl)..])
    else UntilClose(s)
  }

  /** The receiver ends the body by itself, with the payload meant, wherever the next message starts. */
  ghost predicate Delivers(te: string, cl: string, body: seq<byte>, payload: seq<byte>) {
    forall rest :: DecodeBody(te, cl, body + rest) == Complete(payload, rest)
  }

  lemma {:induction false} LastElementAppend(s: string, t: string)
    requires ',' !in t
    ensures LastElement(s + t) == LastElement(s) + t
    decreases |t|
  {
    if t == [] {
      assert s + t == s;
    } else {
      var m := |t| - 1;
      assert (s + t)[..|s + t| - 1] == s + t[..m];
      LastElementAppend(s, t[..m]);
      assert t[m] in t;
    }
  }

  lemma TrimmedChunked()
    ensures LowerAll(TrimRight(TrimLeft(" chunked"))) == "chunked"
    ensures LowerAll(TrimRight(TrimLeft("chunked"))) == "chunked"
  {
    assert " chunked"[1..] == "chunked";
    assert TrimLeft(" chunked") == "chunked";
    assert LowerAll("chunked") == "chunked";
  }

  lemma PlainChunkedIsFinal()
    ensures FinalCodingIsChunked("chunked")
  {
    TrimmedChunked();
    LastElementAppend("", "chunked");
    assert "" + "chunked" == "chunked";
  }

  /** Appending the chunked coding makes it final. */
  lemma AppendedChunkedIsFinal(te: string)
    ensures FinalCodingIsChunked(te + ", chunked")
  {
    TrimmedChunked();
    assert te + ", chunked" == (te + ",") + " chunked";
    LastElementAppend(te + ",", " chunked");
    assert LastElement(te + ",") == "";
    assert "" + " chunked" == " chunked";
  }

  lemma TrimmedGzip()
    ensures LowerAll(TrimRight(TrimLeft(" gzip"))) != "chunked"
  {
    assert " gzip"[1..] == "gzip";
    assert TrimLeft(" gzip") == "gzip" && TrimRight("gzip") == "gzip";
    assert |LowerAll("gzip")| == 4;
  }

  lemma GzipIsLast()
    ensures !FinalCodingIsChunked("chunked, gzip")
  {
    TrimmedGzip();
    assert "chunked, gzip" == "chunked," + " gzip";
    LastElementAppend("chunked,", " gzip");
    assert "" + " gzip" == " gzip";
  }
}
