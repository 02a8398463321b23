/**
 * Transparency of SMTP DATA (section 4.5.2 of RFC 5321): what the sender adds to a message, and
 * the receiver that undoes it. A sender that treats every LF as a line end is compared here with
 * a receiver that only knows CRLF.
 */
module DotStuffing {
  import opened Bytes

  /** One-shot dot-stuffing: a dot that opens a line is doubled. */
  function Stuff(s: seq<Byte>, atLineStart: bool): (r: seq<Byte>) {
    if s == [] then []
    else (if atLineStart && s[0] == DOT then [DOT, DOT] else [s[0]]) + Stuff(s[1..], s[0] == LF)
  }

  const TERMINATOR: seq<Byte> := [DOT, CR, LF]

  /** The message with the final CRLF the sender supplies when it is missing. */
  function Canonical(message: seq<Byte>): (r: seq<Byte>)
    ensures EndsWithCrlf(r) && message <= r
  {
    if EndsWithCrlf(message) then message else message + CRLF
  }

  /** The octets of one DATA section on the wire. */
  function DataSection(message: seq<Byte>): (r: seq<Byte>) {
    Stuff(Canonical(message), true) + TERMINATOR
  }

  datatype Line = Incomplete | Line(content: seq<Byte>, rest: seq<Byte>)
  datatype Received = NeedMore | Mail(content: seq<Byte>, rest: seq<Byte>)

  /** Splits off the octets before the first CRLF. */
  function ReadLine(wire: seq<Byte>): (r: Line)
    ensures r.Line? ==> wire == r.content + CRLF + r.rest
  {
    if |wire| < 2 then Incomplete
    else if wire[..2] == CRLF then Line([], wire[2..])
    else match ReadLine(wire[1..])
      case Incomplete => Incomplete
      case Line(content, rest) => Line([wire[0]] + content, rest)
  }

  /**
   * The receiving side of section 4.5.2: a line holding a single dot ends the mail, and any other
   * line loses its leading dot.
   */
  function Receive(wire: seq<Byte>): (r: Received)
    decreases |wire|
  {
    match ReadLine(wire)
    case Incomplete => NeedMore
    case Line(content, rest) =>
      if content == [DOT] then Mail([], rest)
      else match Receive(rest)
        case NeedMore => NeedMore
        case Mail(mail, beyond) => Mail(Unstuffed(content) + CRLF + mail, beyond)
  }

  function Unstuffed(content: seq<Byte>): (r: seq<Byte>) {
    if content != [] && content[0] == DOT then content[1..] else content
  }

  /** True when every LF of `s` follows a CR; `afterCr` says what precedes `s`. */
  predicate NoBareLf(s: seq<Byte>, afterCr: bool) {
    s == [] || ((s[0] == LF ==> afterCr) && NoBareLf(s[1..], s[0] == CR))
  }

  /** How many dots directly follow an LF that no CR precedes. */
  function BareDots(s: seq<Byte>, afterCr: bool, afterBareLf: bool): (n: nat) {
    if s == [] then 0
    else (if afterBareLf && s[0] == DOT then 1 else 0)
         + BareDots(s[1..], s[0] == CR, s[0] == LF && !afterCr)
  }

  /** What a CRLF receiver makes of `Stuff`: dots after a bare LF stay doubled. */
  function WithBareDots(s: seq<Byte>, afterCr: bool, afterBareLf: bool): (r: seq<Byte>) {
    if s == [] then []
    else (if afterBareLf && s[0] == DOT then [DOT, DOT] else [s[0]])
         + WithBareDots(s[1..], s[0] == CR, s[0] == LF && !afterCr)
  }

  lemma {:induction false} NoBareLfHasNoBareDots(s: seq<Byte>, afterCr: bool)
    requires NoBareLf(s, afterCr)
    ensures BareDots(s, afterCr, false) == 0
  {
    if s != [] { NoBareLfHasNoBareDots(s[1..], s[0] == CR); }
  }

  lemma {:induction false} BareDotsLength(s: seq<Byte>, afterCr: bool, afterBareLf: bool)
    ensures |WithBareDots(s, afterCr, afterBareLf)| == |s| + BareDots(s, afterCr, afterBareLf)
  {
    if s != [] { BareDotsLength(s[1..], s[0] == CR, s[0] == LF && !afterCr); }
  }

  lemma {:induction false} NoBareDotsIsIdentity(s: seq<Byte>, afterCr: bool, afterBareLf: bool)
    requires BareDots(s, afterCr, afterBareLf) == 0
    ensures WithBareDots(s, afterCr, afterBareLf) == s
  {
    if s != [] { NoBareDotsIsIdentity(s[1..], s[0] == CR, s[0] == LF && !afterCr); }
  }

  // ---- prefixes: the end of mail is found at one place only ----

  lemma {:induction false} ReadLinePrefix(p: seq<Byte>, more: seq<Byte>)
    requires ReadLine(p).Line?
    ensures ReadLine(p + more) == Line(ReadLine(p).content, ReadLine(p).rest + more)
  {
    assert (p + more)[..2] == p[..2];
    if p[..2] == CRLF {
      assert (p + more)[2..] == p[2..] + more;
    } else {
      assert (p + more)[1..] == p[1..] + more;
      ReadLinePrefix(p[1..], more);
    }
  }

  lemma {:induction false} ReceivePrefix(p: seq<Byte>, more: seq<Byte>)
    requires Receive(p).Mail?
    ensures Receive(p + more) == Mail(Receive(p).content, Receive(p).rest + more)
    decreases |p|
  {
    ReadLinePrefix(p, more);
    if ReadLine(p).content != [DOT] { ReceivePrefix(ReadLine(p).rest, more); }
  }

  // ---- recovery ----

  lemma {:induction false} StuffAppend(a: seq<Byte>, b: seq<Byte>, atLineStart: bool)
    ensures Stuff(a + b, atLineStart)
         == Stuff(a, atLineStart) + Stuff(b, if a == [] then atLineStart else a[|a| - 1] == LF)
  {
    if a == [] {
      assert a + b == b;
    } else {
      assert (a + b)[1..] == a[1..] + b;
      StuffAppend(a[1..], b, a[0] == LF);
    }
  }

  lemma BareDotsCrlf(rest: seq<Byte>, afterCr: bool, bare: bool)
    ensures WithBareDots(CRLF + rest, afterCr, bare) == CRLF + WithBareDots(rest, false, false)
  {
    assert (CRLF + rest)[1..] == [LF] + rest && ([LF] + rest)[1..] == rest;
    assert WithBareDots([LF] + rest, true, false) == [LF] + WithBareDots(rest, false, false);
  }

  lemma {:induction false} BareDotsLine(line: seq<Byte>, rest: seq<Byte>, afterCr: bool, bare: bool)
    ensures WithBareDots(line + (CRLF + rest), afterCr, bare)
         == WithBareDots(line, afterCr, bare) + (CRLF + WithBareDots(rest, false, false))
  {
    if line == [] {
      assert line + (CRLF + rest) == CRLF + rest;
      BareDotsCrlf(rest, afterCr, bare);
    } else {
      assert (line + (CRLF + rest))[1..] == line[1..] + (CRLF + rest);
      BareDotsLine(line[1..], rest, line[0] == CR, line[0] == LF && !afterCr);
    }
  }

  ghost predicate NoCrlfIn(s: seq<Byte>) {
    forall i :: 0 < i < |s| ==> !(s[i] == LF && s[i - 1] == CR)
  }

  lemma {:induction false} ReadLineFindsFirst(wire: seq<Byte>)
    ensures ReadLine(wire).Line? ==> NoCrlfIn(ReadLine(wire).content + [CR])
  {
    if ReadLine(wire).Line? && wire[..2] != CRLF {
      ReadLineFindsFirst(wire[1..]);
      var tail := ReadLine(wire[1..]);
      assert wire[1..] == tail.content + CRLF + tail.rest;
      assert ReadLine(wire).content + [CR] == [wire[0]] + (tail.content + [CR]);
    }
  }

  lemma {:induction false} ReadLineExact(content: seq<Byte>, rest: seq<Byte>)
    requires NoCrlfIn(content + [CR])
    ensures ReadLine(content + CRLF + rest) == Line(content, rest)
  {
    var wire := content + CRLF + rest;
    if content == [] {
      assert wire[..2] == CRLF && wire[2..] == rest;
    } else {
      assert wire[..2] == (content + [CR])[..2];
      assert wire[1..] == content[1..] + CRLF + rest;
      assert content[1..] + [CR] == (content + [CR])[1..];
      ReadLineExact(content[1..], rest);
    }
  }

  lemma {:induction false} StuffKeepsNoCrlf(s: seq<Byte>, atLineStart: bool)
    requires NoCrlfIn(s)
    ensures NoCrlfIn(Stuff(s, atLineStart))
    ensures s != [] ==> Stuff(s, atLineStart) != [] && Stuff(s, atLineStart)[0] == s[0]
  {
    if s != [] {
      StuffKeepsNoCrlf(s[1..], s[0] == LF);
      assert s[1..] != [] ==> s[1..][0] == s[1];
    }
  }

  lemma {:induction false} StuffInsideLine(s: seq<Byte>, afterCr: bool, afterLf: bool)
    requires NoCrlfIn(s) && (afterCr && s != [] ==> s[0] != LF)
    ensures Stuff(s, afterLf) == WithBareDots(s, afterCr, afterLf)
  {
    if s != [] { StuffInsideLine(s[1..], s[0] == CR, s[0] == LF); }
  }

  lemma StuffedHead(line: seq<Byte>)
    requires line != []
    ensures var tail := Stuff(line[1..], line[0] == LF);
            Stuff(line, true) == if line[0] == DOT then [DOT] + ([DOT] + tail) else [line[0]] + tail
  {
    var tail := Stuff(line[1..], line[0] == LF);
    assert [DOT] + ([DOT] + tail) == [DOT, DOT] + tail;
  }

  /** A stuffed line is never the single dot; stripped, it differs only after bare LFs. */
  lemma UnstuffStuffed(line: seq<Byte>)
    requires NoCrlfIn(line)
    ensures Stuff(line, true) != [DOT]
    ensures Unstuffed(Stuff(line, true)) == WithBareDots(line, false, false)
  {
    if line != [] {
      StuffedHead(line);
      StuffInsideLine(line[1..], line[0] == CR, line[0] == LF);
      hide Stuff;
      assert WithBareDots(line, false, false) == [line[0]] + Stuff(line[1..], line[0] == LF);
    }
  }

  lemma {:induction false} CrlfClosesLine(body: seq<Byte>)
    requires EndsWithCrlf(body)
    ensures ReadLine(body).Line?
    ensures ReadLine(body).rest == [] || EndsWithCrlf(ReadLine(body).rest)
  {
    if body[..2] != CRLF {
      CrlfClosesLine(body[1..]);
    } else if |body| > 3 {
      assert body[2..][|body| - 4..] == body[|body| - 2..];
    } else {
      assert body[|body| - 2] == CR && body[1] == LF;
    }
  }

  lemma StuffLine(line: seq<Byte>, rest: seq<Byte>)
    ensures Stuff(line + CRLF + rest, true) == Stuff(line, true) + CRLF + Stuff(rest, true)
    ensures WithBareDots(line + CRLF + rest, false, false)
         == WithBareDots(line, false, false) + CRLF + WithBareDots(rest, false, false)
  {
    var tail := CRLF + rest;
    assert line + CRLF + rest == line + tail;
    assert tail[1..] == [LF] + rest && tail[1..][1..] == rest;
    StuffAppend(line, tail, true);
    BareDotsLine(line, rest, false, false);
  }

  lemma StuffedLineReads(line: seq<Byte>, wire: seq<Byte>)
    requires NoCrlfIn(line + [CR])
    ensures ReadLine(Stuff(line, true) + CRLF + wire) == Line(Stuff(line, true), wire)
    ensures Stuff(line, true) != [DOT]
    ensures Unstuffed(Stuff(line, true)) == WithBareDots(line, false, false)
  {
    StuffKeepsNoCrlf(line + [CR], true);
    StuffAppend(line, [CR], true);
    assert Stuff(line + [CR], true) == Stuff(line, true) + [CR];
    ReadLineExact(Stuff(line, true), wire);
    assert line == (line + [CR])[..|line|];
    UnstuffStuffed(line);
  }

  lemma ReceiveStuffedLine(line: seq<Byte>, wire: seq<Byte>)
    requires NoCrlfIn(line + [CR]) && Receive(wire).Mail?
    ensures Receive(Stuff(line, true) + CRLF + wire)
         == Mail(WithBareDots(line, false, false) + CRLF + Receive(wire).content, Receive(wire).rest)
  {
    StuffedLineReads(line, wire);
  }

  lemma ReceiveTerminator(beyond: seq<Byte>)
    ensures Receive(TERMINATOR + beyond) == Mail([], beyond)
  {
    assert TERMINATOR + beyond == [DOT] + CRLF + beyond;
    ReadLineExact([DOT], beyond);
  }

  lemma StuffedWire(line: seq<Byte>, rest: seq<Byte>, beyond: seq<Byte>)
    ensures Stuff(line + CRLF + rest, true) + TERMINATOR + beyond
         == Stuff(line, true) + CRLF + (Stuff(rest, true) + TERMINATOR + beyond)
  {
    StuffLine(line, rest);
  }

  /** Reading back a stuffed body: everything returns, plus one dot for each dot after a bare LF. */
  lemma {:induction false} ReceiveStuffed(body: seq<Byte>, beyond: seq<Byte>)
    requires body == [] || EndsWithCrlf(body)
    ensures Receive(Stuff(body, true) + TERMINATOR + beyond) == Mail(WithBareDots(body, false, false), beyond)
    decreases |body|
  {
    if body == [] {
      assert Stuff(body, true) + TERMINATOR + beyond == TERMINATOR + beyond;
      ReceiveTerminator(beyond);
    } else {
      CrlfClosesLine(body);
      ReadLineFindsFirst(body);
      var line, rest := ReadLine(body).content, ReadLine(body).rest;
      StuffedWire(line, rest, beyond);
      ReceiveStuffed(rest, beyond);
      ReceiveStuffedLine(line, Stuff(rest, true) + TERMINATOR + beyond);
      StuffLine(line, rest);
    }
  }

  /**
   * The receiver recovers exactly the canonical message if and only if no dot of it directly
   * follows a bare LF.
   */
  lemma RecoveryExactlyWithoutBareDots(message: seq<Byte>, beyond: seq<Byte>)
    ensures Receive(DataSection(message) + beyond).Mail?
    ensures Receive(DataSection(message) + beyond).rest == beyond
    ensures Receive(DataSection(message) + beyond).content == Canonical(message)
            <==> BareDots(Canonical(message), false, false) == 0
  {
    ReceiveStuffed(Canonical(message), beyond);
    BareDotsLength(Canonical(message), false, false);
    if BareDots(Canonical(message), false, false) == 0 {
      NoBareDotsIsIdentity(Canonical(message), false, false);
    }
  }

  /** A dot after a bare LF reaches the receiver doubled. */
  lemma BareLfIsNotRecovered()
    ensures Receive(DataSection([LF, DOT, CR, LF])) == Mail([LF, DOT, DOT, CR, LF], [])
  {
    var message := [LF, DOT, CR, LF];
    assert message[1..] == [DOT, CR, LF] && message[1..][1..] == [CR, LF] && message[1..][1..][1..] == [LF];
    assert WithBareDots([LF], true, false) == [LF];
    assert WithBareDots([CR, LF], false, false) == [CR, LF];
    assert WithBareDots([DOT, CR, LF], false, true) == [DOT, DOT, CR, LF];
    ReceiveStuffed(message, []);
    assert DataSection(message) + [] == DataSection(message);
  }

  /** No proper prefix of a DATA section holds an end of mail: the terminator appears once, at the end. */
  lemma NoEarlyTerminator(message: seq<Byte>, p: seq<Byte>)
    requires p < DataSection(message)
    ensures Receive(p).NeedMore?
  {
    var wire := DataSection(message);
    var more := wire[|p|..];
    assert wire == p + more && more != [];
    assert wire + [] == wire;
    ReceiveStuffed(Canonical(message), []);
    if Receive(p).Mail? { ReceivePrefix(p, more); }
  }
}
