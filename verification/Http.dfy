/**
 The HTTP/1.1 bytes the gateway exchanges with the inference server: the request
 that `Slot::build` writes and the incremental `parse_response`
 (services/rust-sync/src/inference.rs:157-171 and 586-626).
 */
module Http {
  import opened Octets
  import opened Stub

  const CR: Byte := 13
  const LF: Byte := 10
  const SPACE: Byte := 32
  const COLON: Byte := 58
  const PLUS: Byte := 43

  const CRLF: Bytes := [CR, LF]
  const BLANK_LINE: Bytes := [CR, LF, CR, LF]

  function Ascii(s: string): (b: Bytes)
    ensures |b| == |s|
  {
    seq(|s|, i requires 0 <= i < |s| => (s[i] as int % 256) as bv8)
  }

  // ---------------------------------------------------------------- requests

  datatype Request = Request(body: Bytes, passes: nat)

  datatype Target = Target(path: Bytes, host: Bytes)

  const DIGITS: Bytes := [48, 49, 50, 51, 52, 53, 54, 55, 56, 57]

  function Decimal(n: nat): Bytes
  {
    if n < 10 then [DIGITS[n]] else Decimal(n / 10) + [DIGITS[n % 10]]
  }

  /** Everything in front of the decimal pass count. */
  function Opening(t: Target): Bytes
  {
    Ascii("POST ") + t.path + Ascii(" HTTP/1.1") + CRLF + Ascii("Host: ") + t.host + CRLF + Ascii("x-cpu-passes: ")
  }

  const BEFORE_LENGTH: Bytes := CRLF + Ascii("Content-Length: ")
  const AFTER_LENGTH: Bytes := CRLF + Ascii("Connection: keep-alive") + BLANK_LINE

  function Encode(t: Target, r: Request): Bytes
  {
    Opening(t) + Decimal(r.passes) + BEFORE_LENGTH + Decimal(|r.body|) + AFTER_LENGTH + r.body
  }

  /** The octets of a list of whole requests written back to back. */
  function Wire(t: Target, rs: seq<Request>): Bytes
  {
    if rs == [] then [] else Encode(t, rs[0]) + Wire(t, rs[1..])
  }

  predicate IsDigit(b: Byte) { 48 <= b <= 57 }

  predicate AllDigits(d: Bytes) { forall i :: 0 <= i < |d| ==> IsDigit(d[i]) }

  lemma {:induction false} DecimalDigits(n: nat)
    ensures AllDigits(Decimal(n)) && Decimal(n) != []
  {
    if n >= 10 { DecimalDigits(n / 10); }
  }

  lemma DigitInjective(a: nat, b: nat)
    requires a < 10 && b < 10 && DIGITS[a] == DIGITS[b]
    ensures a == b
  {
    assert forall i, j :: 0 <= i < j < 10 ==> DIGITS[i] != DIGITS[j];
  }

  lemma DecimalLast(n: nat)
    requires n >= 10
    ensures Decimal(n)[..|Decimal(n)| - 1] == Decimal(n / 10)
    ensures Decimal(n)[|Decimal(n)| - 1] == DIGITS[n % 10]
    ensures |Decimal(n)| >= 2
  {
    DecimalDigits(n / 10);
  }

  lemma {:induction false} DecimalInjective(a: nat, b: nat)
    requires Decimal(a) == Decimal(b)
    ensures a == b
  {
    if a >= 10 { DecimalLast(a); }
    if b >= 10 { DecimalLast(b); }
    if a >= 10 && b >= 10 {
      DecimalInjective(a / 10, b / 10);
      DigitInjective(a % 10, b % 10);
    } else if a < 10 && b < 10 {
      assert Decimal(a)[0] == DIGITS[a] && Decimal(b)[0] == DIGITS[b];
      DigitInjective(a, b);
    }
  }

  lemma DigitRunNotLonger(d1: Bytes, r1: Bytes, d2: Bytes, r2: Bytes)
    requires d1 + r1 == d2 + r2
    requires AllDigits(d1) && r2 != [] && r2[0] == CR
    ensures |d1| <= |d2|
  {
    var w := d2 + r2;
    assert w[|d2|] == CR;
    assert !IsDigit(w[|d2|]);
    assert forall i :: 0 <= i < |d1| ==> w[i] == d1[i];
  }

  /** A run of digits that a CR ends can be read off in only one way. */
  lemma DigitRunUnique(d1: Bytes, r1: Bytes, d2: Bytes, r2: Bytes)
    requires d1 + r1 == d2 + r2
    requires AllDigits(d1) && AllDigits(d2)
    requires r1 != [] && r1[0] == CR && r2 != [] && r2[0] == CR
    ensures d1 == d2 && r1 == r2
  {
    DigitRunNotLonger(d1, r1, d2, r2);
    DigitRunNotLonger(d2, r2, d1, r1);
    assert d1 == (d1 + r1)[..|d1|] == d2;
    assert r1 == (d1 + r1)[|d1|..] == r2;
  }

  lemma CancelPrefix(p: Bytes, x: Bytes, y: Bytes)
    requires p + x == p + y
    ensures x == y
  {
    assert x == (p + x)[|p|..];
    assert y == (p + y)[|p|..];
  }

  lemma Regroup(a: Bytes, d: Bytes, b: Bytes, e: Bytes, c: Bytes, x: Bytes, s: Bytes)
    ensures a + d + b + e + c + x + s == a + (d + (b + (e + (c + (x + s)))))
  {
  }

  /** Two digit runs between fixed separators, then a rest: all readable in one way. */
  lemma FieldsUnique(a: Bytes, d1: Bytes, b: Bytes, e1: Bytes, c: Bytes, x1: Bytes, d2: Bytes, e2: Bytes, x2: Bytes)
    requires a + (d1 + (b + (e1 + (c + x1)))) == a + (d2 + (b + (e2 + (c + x2))))
    requires AllDigits(d1) && AllDigits(d2) && AllDigits(e1) && AllDigits(e2)
    requires b != [] && b[0] == CR && c != [] && c[0] == CR
    ensures d1 == d2 && e1 == e2 && x1 == x2
  {
    var m1, m2 := c + x1, c + x2;
    var l1, l2 := b + (e1 + m1), b + (e2 + m2);
    CancelPrefix(a, d1 + l1, d2 + l2);
    DigitRunUnique(d1, l1, d2, l2);
    CancelPrefix(b, e1 + m1, e2 + m2);
    DigitRunUnique(e1, m1, e2, m2);
    CancelPrefix(c, x1, x2);
  }

  /**
   Requests are self-delimiting: of all requests, at most one begins a given
   octet stream, because the Content-Length in front says where it ends.
   */
  lemma SelfDelimiting(t: Target, r1: Request, s1: Bytes, r2: Request, s2: Bytes)
    requires Encode(t, r1) + s1 == Encode(t, r2) + s2
    ensures r1 == r2 && s1 == s2
  {
    var d1, e1, d2, e2 := Decimal(r1.passes), Decimal(|r1.body|), Decimal(r2.passes), Decimal(|r2.body|);
    var a, b, c := Opening(t), BEFORE_LENGTH, AFTER_LENGTH;
    assert b[0] == CR && c[0] == CR;
    DecimalDigits(r1.passes);
    DecimalDigits(r2.passes);
    DecimalDigits(|r1.body|);
    DecimalDigits(|r2.body|);
    Regroup(a, d1, b, e1, c, r1.body, s1);
    Regroup(a, d2, b, e2, c, r2.body, s2);
    FieldsUnique(a, d1, b, e1, c, r1.body + s1, d2, e2, r2.body + s2);
    DecimalInjective(r1.passes, r2.passes);
    DecimalInjective(|r1.body|, |r2.body|);
    assert r1.body == (r1.body + s1)[..|r1.body|] == r2.body;
    CancelPrefix(r1.body, s1, s2);
  }

  /** `w` is the whole requests `rs` followed by a strict prefix of one more. */
  ghost predicate Segments(t: Target, w: Bytes, rs: seq<Request>, cur: Request, off: nat)
  {
    off < |Encode(t, cur)| && w == Wire(t, rs) + Encode(t, cur)[..off]
  }

  /** No octet stream splits into whole requests plus a remainder in two ways. */
  lemma {:induction false} SegmentsUnique(t: Target, w: Bytes,
                                          rs1: seq<Request>, c1: Request, o1: nat,
                                          rs2: seq<Request>, c2: Request, o2: nat)
    requires Segments(t, w, rs1, c1, o1) && Segments(t, w, rs2, c2, o2)
    ensures rs1 == rs2
    decreases |rs1|
  {
    var p1, p2 := Encode(t, c1)[..o1], Encode(t, c2)[..o2];
    if rs1 != [] && rs2 != [] {
      var t1 := WireHead(t, rs1, p1);
      var t2 := WireHead(t, rs2, p2);
      SelfDelimiting(t, rs1[0], t1, rs2[0], t2);
      SegmentsUnique(t, t1, rs1[1..], c1, o1, rs2[1..], c2, o2);
    } else {
      if rs1 != [] { WholeIsNotPartial(t, rs1, p1, c2, o2); }
      if rs2 != [] { WholeIsNotPartial(t, rs2, p2, c1, o1); }
      assert Wire(t, []) + p1 == p1 && Wire(t, []) + p2 == p2;
    }
  }

  lemma WireHead(t: Target, rs: seq<Request>, p: Bytes) returns (rest: Bytes)
    requires rs != []
    ensures rest == Wire(t, rs[1..]) + p
    ensures Wire(t, rs) + p == Encode(t, rs[0]) + rest
  {
    rest := Wire(t, rs[1..]) + p;
    Assoc(Encode(t, rs[0]), Wire(t, rs[1..]), p);
  }

  lemma Assoc(x: Bytes, y: Bytes, z: Bytes)
    ensures x + y + z == x + (y + z)
  {
  }

  lemma WholeIsNotPartial(t: Target, rs: seq<Request>, p: Bytes, cur: Request, off: nat)
    requires rs != [] && off < |Encode(t, cur)|
    ensures Wire(t, rs) + p != Encode(t, cur)[..off]
  {
    var e := Encode(t, cur);
    if Wire(t, rs) + p == e[..off] {
      var tail := WireHead(t, rs, p);
      assert e == e[..off] + e[off..];
      Assoc(Encode(t, rs[0]), tail, e[off..]);
      assert e + [] == e;
      SelfDelimiting(t, rs[0], tail + e[off..], cur, []);
    }
  }

  /** The whole requests a server finds in the octets `w` it has received. */
  ghost function Requests(t: Target, w: Bytes): seq<Request>
  {
    if exists rs, cur, off :: Segments(t, w, rs, cur, off)
    then var rs, cur, off :| Segments(t, w, rs, cur, off); rs
    else []
  }

  lemma RequestsOf(t: Target, rs: seq<Request>, cur: Request, off: nat)
    requires off < |Encode(t, cur)|
    ensures Requests(t, Wire(t, rs) + Encode(t, cur)[..off]) == rs
  {
    var w := Wire(t, rs) + Encode(t, cur)[..off];
    assert Segments(t, w, rs, cur, off);
    var rs', cur', off' :| Segments(t, w, rs', cur', off') && Requests(t, w) == rs';
    SegmentsUnique(t, w, rs', cur', off', rs, cur, off);
  }

  lemma {:induction false} WireSnoc(t: Target, rs: seq<Request>, r: Request)
    ensures Wire(t, rs + [r]) == Wire(t, rs) + Encode(t, r)
  {
    if rs == [] {
      assert rs + [r] == [r];
      assert Wire(t, [r]) == Encode(t, r) + Wire(t, []);
    } else {
      assert (rs + [r])[1..] == rs[1..] + [r];
      WireSnoc(t, rs[1..], r);
    }
  }

  // --------------------------------------------------------------- responses

  datatype InferError =
    | Timeout
    | ConnectionReset
    | HttpStatus(status: nat)
    | ParseError(status: nat)

  datatype Reply = Ok(infer: StubResult) | Err(error: InferError)

  /** The two decoders `parse_response` calls: UTF-8 validation and serde_json. */
  datatype Codec = Codec(utf8: Bytes -> bool, json: Bytes -> Option<StubResult>)

  function FindFrom(buf: Bytes, i: nat): Option<nat>
    decreases |buf| - i
  {
    if i + 4 > |buf| then None
    else if buf[i..i + 4] == BLANK_LINE then Some(i)
    else FindFrom(buf, i + 1)
  }

  function IndexOf(b: Bytes, x: Byte, i: nat): Option<nat>
    decreases |b| - i
  {
    if i >= |b| then None else if b[i] == x then Some(i) else IndexOf(b, x, i + 1)
  }

  /** `str::split("\r\n")`. */
  function Lines(b: Bytes, from: nat, i: nat): seq<Bytes>
    requires from <= i
    decreases |b| - i
  {
    if from > |b| then []
    else if i + 2 > |b| then [b[from..]]
    else if b[i..i + 2] == CRLF then [b[from..i]] + Lines(b, i + 2, i + 2)
    else Lines(b, from, i + 1)
  }

  function Lower(x: Byte): Byte { if 65 <= x <= 90 then x + 32 else x }

  predicate IsSpace(x: Byte) { x == SPACE || 9 <= x <= 13 }

  function TrimStart(b: Bytes): Bytes
  {
    if b != [] && IsSpace(b[0]) then TrimStart(b[1..]) else b
  }

  function Trim(b: Bytes): Bytes
    decreases |b|
  {
    if b != [] && IsSpace(b[|b| - 1]) then Trim(b[..|b| - 1]) else TrimStart(b)
  }

  /** `parse::<uN>()`: an optional plus sign, then digits, at most `max`. */
  function ParseUnsigned(b: Bytes, max: nat): Option<nat>
  {
    var d := if b != [] && b[0] == PLUS then b[1..] else b;
    if d == [] || !AllDigits(d) || Numeral(d) > max then None else Some(Numeral(d))
  }

  function Numeral(d: Bytes): nat
    requires AllDigits(d)
    decreases |d|
  {
    if d == [] then 0 else 10 * Numeral(d[..|d| - 1]) + (d[|d| - 1] - 48) as int
  }

  const U16_MAX: nat := 0xFFFF
  const USIZE_MAX: nat := 0xFFFF_FFFF_FFFF_FFFF

  /** Second space-separated word of the status line; 0 when unreadable. */
  function StatusOf(line: Bytes): nat
  {
    match IndexOf(line, SPACE, 0)
    case None => 0
    case Some(i) =>
      var rest := if i + 1 <= |line| then line[i + 1..] else [];
      var word := match IndexOf(rest, SPACE, 0)
                  case None => rest
                  case Some(j) => if j <= |rest| then rest[..j] else rest;
      match ParseUnsigned(word, U16_MAX)
      case None => 0
      case Some(n) => n
  }

  /** The value of the first header named Content-Length whose value is a number. */
  function ContentLength(lines: seq<Bytes>): nat
  {
    if lines == [] then 0 else
    match HeaderLength(lines[0])
    case Some(n) => n
    case None => ContentLength(lines[1..])
  }

  function HeaderLength(line: Bytes): Option<nat>
  {
    match IndexOf(line, COLON, 0)
    case None => None
    case Some(i) =>
      if i >= |line| then None else
      var key := Trim(line[..i]);
      if seq(|key|, k requires 0 <= k < |key| => Lower(key[k])) == Ascii("content-length")
      then ParseUnsigned(Trim(line[i + 1..]), USIZE_MAX)
      else None
  }

  /** Status and content length of a complete head. */
  datatype Head = Head(status: nat, length: nat)

  function HeadOf(c: Codec, head: Bytes): Option<Head>
  {
    if !c.utf8(head) then None else
    var lines := Lines(head, 0, 0);
    if lines == [] then None else Some(Head(StatusOf(lines[0]), ContentLength(lines[1..])))
  }

  function ReplyOf(c: Codec, status: nat, body: Bytes): Reply
  {
    if !(200 <= status < 300) then Err(HttpStatus(status))
    else match c.json(body)
      case Some(infer) => Ok(infer)
      case None => Err(ParseError(status))
  }

  /** The framing of a response: a head up to the blank line, then as many octets as it announces. */
  function Framed(headOf: Bytes -> Option<Head>, replyOf: (nat, Bytes) -> Reply, buf: Bytes): Option<Reply>
  {
    match FindFrom(buf, 0)
    case None => None
    case Some(i) =>
      if i + 4 > |buf| then None else
      match headOf(buf[..i + 4])
      case None => None
      case Some(h) =>
        if |buf| < i + 4 + h.length then None
        else Some(replyOf(h.status, buf[i + 4..i + 4 + h.length]))
  }

  /** `None` means "incomplete: read more". */
  function ParseResponse(c: Codec, buf: Bytes): Option<Reply>
  {
    Framed((head: Bytes) => HeadOf(c, head), (status: nat, body: Bytes) => ReplyOf(c, status, body), buf)
  }

  lemma {:induction false} FindStable(buf: Bytes, more: Bytes, i: nat)
    requires FindFrom(buf, i).Some?
    ensures FindFrom(buf + more, i) == FindFrom(buf, i)
    ensures FindFrom(buf, i).value + 4 <= |buf|
    decreases |buf| - i
  {
    assert (buf + more)[i..i + 4] == buf[i..i + 4];
    if buf[i..i + 4] != BLANK_LINE { FindStable(buf, more, i + 1); }
  }

  lemma FramedStable(headOf: Bytes -> Option<Head>, replyOf: (nat, Bytes) -> Reply, buf: Bytes, more: Bytes)
    requires Framed(headOf, replyOf, buf).Some?
    ensures Framed(headOf, replyOf, buf + more) == Framed(headOf, replyOf, buf)
  {
    FindStable(buf, more, 0);
    var i := FindFrom(buf, 0).value;
    var h := headOf(buf[..i + 4]).value;
    assert (buf + more)[..i + 4] == buf[..i + 4];
    assert (buf + more)[i + 4..i + 4 + h.length] == buf[i + 4..i + 4 + h.length];
  }

  /** Once the parser answers, no further octet changes its answer. */
  lemma ParseStable(c: Codec, buf: Bytes, more: Bytes)
    requires ParseResponse(c, buf).Some?
    ensures ParseResponse(c, buf + more) == ParseResponse(c, buf)
  {
    FramedStable((head: Bytes) => HeadOf(c, head), (status: nat, body: Bytes) => ReplyOf(c, status, body), buf, more);
  }

  /** A response parser: `None` while more octets are needed. */
  type Parser = Bytes -> Option<Reply>

  /** `parse_response` as a value. */
  function ParserOf(c: Codec): Parser
  {
    (buf: Bytes) => ParseResponse(c, buf)
  }

  /** More octets do not change an answer. */
  ghost predicate Stable(parse: Parser)
  {
    forall buf, more :: parse(buf).Some? ==> parse(buf + more) == parse(buf)
  }

  lemma ParserStable(c: Codec)
    ensures Stable(ParserOf(c))
  {
    forall buf, more | ParserOf(c)(buf).Some?
      ensures ParserOf(c)(buf + more) == ParserOf(c)(buf)
    {
      ParseStable(c, buf, more);
    }
  }

  /** A parser whose answers are final and are never transport errors. */
  ghost predicate Settled(parse: Parser)
  {
    Stable(parse) && forall buf :: parse(buf) != Some(Err(ConnectionReset))
  }

  lemma FramedReply(headOf: Bytes -> Option<Head>, replyOf: (nat, Bytes) -> Reply, buf: Bytes)
    requires forall status, body :: replyOf(status, body) != Err(ConnectionReset)
    ensures Framed(headOf, replyOf, buf) != Some(Err(ConnectionReset))
  {
  }

  lemma ParserSettled(c: Codec)
    ensures Settled(ParserOf(c))
  {
    ParserStable(c);
    forall buf
      ensures ParserOf(c)(buf) != Some(Err(ConnectionReset))
    {
      FramedReply((head: Bytes) => HeadOf(c, head), (status: nat, body: Bytes) => ReplyOf(c, status, body), buf);
    }
  }

  /** `b` is one response and nothing more: the parser answers at its last octet, not before. */
  ghost predicate ExactReply(parse: Parser, b: Bytes)
  {
    parse(b).Some? && forall n :: 0 <= n < |b| ==> parse(b[..n]).None?
  }
}
