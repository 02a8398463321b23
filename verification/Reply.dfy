/** The bounded, octet-at-a-time reply parser of smtp/src/reply.rs (section 4.2 of RFC 5321). */
module SmtpReply {
  import opened Bytes

  const MAX_LINE: nat := 512
  const MAX_TOTAL: nat := 8 * 1024
  const MAX_LINES: nat := 32

  datatype Reply = Reply(code: nat, lines: seq<seq<Byte>>)

  datatype Parser = Parser(line: seq<Byte>, lines: seq<seq<Byte>>, code: Option<nat>, total: nat)

  const INITIAL: Parser := Parser([], [], None, 0)

  datatype Progress = Malformed | More | Complete(reply: Reply)

  /** Bounded summary kept with an outcome: the lines joined by LF. */
  datatype ReplySummary = ReplySummary(code: nat, text: seq<Byte>)

  function Summary(reply: Reply): (r: ReplySummary) { ReplySummary(reply.code, Join(reply.lines)) }

  function Join(lines: seq<seq<Byte>>): (r: seq<Byte>) {
    if |lines| == 0 then [] else if |lines| == 1 then lines[0] else lines[0] + [LF] + Join(lines[1..])
  }

  function FirstWord(line: seq<Byte>): (word: seq<Byte>) {
    if line == [] then []
    else if line[0] == SPACE || line[0] == TAB then FirstWord(line[1..])
    else WordPrefix(line)
  }

  function WordPrefix(line: seq<Byte>): (word: seq<Byte>) {
    if line == [] || line[0] == SPACE || line[0] == TAB then [] else [line[0]] + WordPrefix(line[1..])
  }

  function Upper(b: Byte): (r: Byte) { if 97 <= b <= 122 then b - 32 else b }

  predicate EqualsIgnoringCase(a: seq<Byte>, b: seq<Byte>) {
    |a| == |b| && forall i :: 0 <= i < |a| ==> Upper(a[i]) == Upper(b[i])
  }

  /** Whether a line after the first opens with the extension keyword. */
  predicate Advertises(reply: Reply, keyword: seq<Byte>) {
    exists k :: 1 <= k < |reply.lines| && FirstWord(reply.lines[k]) != []
                && EqualsIgnoringCase(FirstWord(reply.lines[k]), keyword)
  }

  // ---- the printed form ----

  /** Codes the parser knows: first digit 2 to 5, second 0 to 5. */
  predicate ValidCode(code: nat) { 200 <= code < 600 && code / 10 % 10 <= 5 }

  function Digits(code: nat): (r: seq<Byte>)
    requires ValidCode(code)
    ensures |r| == 3
  {
    [ZERO + (code / 100) as Byte, ZERO + (code / 10 % 10) as Byte, ZERO + (code % 10) as Byte]
  }

  /** How a line ends its reply: `-` continues it, a space or nothing at all closes it. */
  datatype Form = Continued(text: seq<Byte>) | Spaced(text: seq<Byte>) | Bare

  function TextOf(form: Form): (text: seq<Byte>) { if form.Bare? then [] else form.text }

  function PrintLine(code: nat, form: Form): (r: seq<Byte>)
    requires ValidCode(code)
  {
    Digits(code) + (match form
                    case Continued(text) => [DASH] + text
                    case Spaced(text) => [SPACE] + text
                    case Bare => []) + CRLF
  }

  ghost predicate ValidLine(code: nat, form: Form) {
    && ValidCode(code)
    && AllText(TextOf(form))
    && |PrintLine(code, form)| <= MAX_LINE
  }

  function PrintContinued(code: nat, texts: seq<seq<Byte>>): (r: seq<Byte>)
    requires ValidCode(code)
  {
    if texts == [] then []
    else PrintContinued(code, texts[..|texts| - 1]) + PrintLine(code, Continued(texts[|texts| - 1]))
  }

  /** A reply as it appears on the wire. */
  datatype Printed = Printed(code: nat, continued: seq<seq<Byte>>, last: Form)

  function Print(w: Printed): (r: seq<Byte>)
    requires ValidCode(w.code)
  {
    PrintContinued(w.code, w.continued) + PrintLine(w.code, w.last)
  }

  function Meaning(w: Printed): (reply: Reply) { Reply(w.code, w.continued + [TextOf(w.last)]) }

  /** The limits of the parser, said of the printed form. */
  ghost predicate WithinLimits(w: Printed) {
    && ValidCode(w.code) && ValidLine(w.code, w.last) && !w.last.Continued?
    && |w.continued| < MAX_LINES
    && (forall i :: 0 <= i < |w.continued| ==> ValidLine(w.code, Continued(w.continued[i])))
    && |Print(w)| <= MAX_TOTAL
  }

  // ---- the parser ----

  datatype Decoded = BadLine | GoodLine(code: nat, form: Form)

  /** The status code, and what separates it from the text. */
  predicate CodePrefix(line: seq<Byte>)
    requires |line| >= 5
  {
    && 50 <= line[0] <= 53 && ZERO <= line[1] <= 53 && IsDigit(line[2])
    && (|line| == 5 || line[3] == DASH || line[3] == SPACE)
  }

  function CodeOf(line: seq<Byte>): (code: nat)
    requires |line| >= 5 && CodePrefix(line)
  {
    (line[0] - ZERO) as nat * 100 + (line[1] - ZERO) as nat * 10 + (line[2] - ZERO) as nat
  }

  predicate AllText(text: seq<Byte>) { forall i :: 0 <= i < |text| ==> TextByte(text[i]) }

  /** Decodes one complete line, its CRLF included. */
  function DecodeLine(line: seq<Byte>): (r: Decoded)
    requires line != [] && line[|line| - 1] == LF
  {
    if |line| < 5 || line[|line| - 2] != CR || !CodePrefix(line) then BadLine
    else if |line| == 5 then GoodLine(CodeOf(line), Bare)
    else if !AllText(line[4..|line| - 2]) then BadLine
    else GoodLine(CodeOf(line), if line[3] == SPACE then Spaced(line[4..|line| - 2])
                                else Continued(line[4..|line| - 2]))
  }

  function EndLine(p: Parser): (r: (Parser, Progress))
    requires p.line != [] && p.line[|p.line| - 1] == LF
  {
    match DecodeLine(p.line)
    case BadLine => (p, Malformed)
    case GoodLine(code, form) =>
      if p.code.Some? && p.code.value != code then (p, Malformed)
      else if |p.lines| >= MAX_LINES then (p.(code := Some(code)), Malformed)
      else if form.Continued?
      then (Parser([], p.lines + [form.text], Some(code), p.total), More)
      else (INITIAL, Complete(Reply(code, p.lines + [TextOf(form)])))
  }

  function PushByte(p: Parser, byte: Byte): (r: (Parser, Progress)) {
    var counted := p.(total := p.total + 1);
    if counted.total > MAX_TOTAL || |p.line| >= MAX_LINE then (counted, Malformed)
    else
      var extended := counted.(line := p.line + [byte]);
      if byte == LF then EndLine(extended)
      else if byte != CR && !TextByte(byte) then (extended, Malformed)
      else (extended, More)
  }

  datatype Fed = Fed(parser: Parser, replies: seq<Reply>, ok: bool)

  function FeedOne(before: Fed, byte: Byte): (r: Fed) {
    if !before.ok then before
    else
      var (next, progress) := PushByte(before.parser, byte);
      Fed(next, if progress.Complete? then before.replies + [progress.reply] else before.replies, !progress.Malformed?)
  }

  /** Everything a parser makes of a run of octets. */
  function Feed(p: Parser, bytes: seq<Byte>): (r: Fed) {
    if bytes == [] then Fed(p, [], true)
    else FeedOne(Feed(p, bytes[..|bytes| - 1]), bytes[|bytes| - 1])
  }

  lemma FeedSnoc(p: Parser, bytes: seq<Byte>, byte: Byte)
    ensures Feed(p, bytes + [byte]) == FeedOne(Feed(p, bytes), byte)
  {
    assert (bytes + [byte])[..|bytes|] == bytes;
  }

  lemma {:induction false} FeedAppend(p: Parser, a: seq<Byte>, b: seq<Byte>)
    requires Feed(p, a).ok
    ensures Feed(p, a + b).parser == Feed(Feed(p, a).parser, b).parser
    ensures Feed(p, a + b).ok == Feed(Feed(p, a).parser, b).ok
    ensures Feed(p, a + b).replies == Feed(p, a).replies + Feed(Feed(p, a).parser, b).replies
  {
    if b == [] {
      assert a + b == a;
    } else {
      var init, last := b[..|b| - 1], b[|b| - 1];
      assert a + b == a + init + [last] && b == init + [last];
      FeedAppend(p, a, init);
      FeedSnoc(p, a + init, last);
      FeedSnoc(Feed(p, a).parser, init, last);
    }
  }

  class ReplyParser {
    var line: seq<Byte>
    var lines: seq<seq<Byte>>
    var code: Option<nat>
    var total: nat

    ghost function State(): (p: Parser)
      reads this
    {
      Parser(line, lines, code, total)
    }

    constructor ()
      ensures State() == INITIAL
    {
      line, lines, code, total := [], [], None, 0;
    }

    method Push(byte: Byte) returns (progress: Progress)
      modifies this
      ensures (State(), progress) == PushByte(old(State()), byte)
    {
      total := total + 1;
      if total > MAX_TOTAL || |line| >= MAX_LINE {
        return Malformed;
      }
      line := line + [byte];
      if byte != LF {
        if byte != CR && !TextByte(byte) {
          return Malformed;
        }
        return More;
      }
      progress := FinishLine();
    }

    /** The line just closed by LF, checked and added to the reply. */
    method FinishLine() returns (progress: Progress)
      requires line != [] && line[|line| - 1] == LF
      modifies this
      ensures (State(), progress) == EndLine(old(State()))
    {
      if |line| < 5 || line[|line| - 2] != CR {
        return Malformed;
      }
      var bareCode := |line| == 5;
      if !CodePrefix(line) {
        return Malformed;
      }
      if !bareCode && !AllText(line[4..|line| - 2]) {
        return Malformed;
      }
      var value := CodeOf(line);
      if code.Some? && code.value != value {
        return Malformed;
      }
      code := Some(value);
      if |lines| >= MAX_LINES {
        return Malformed;
      }
      lines := lines + [if bareCode then [] else line[4..|line| - 2]];
      var finalLine := bareCode || line[3] == SPACE;
      line := [];
      if !finalLine {
        return More;
      }
      var complete := lines;
      lines, code, total := [], None, 0;
      return Complete(Reply(value, complete));
    }
  }

  // ---- a line decodes exactly when it is printed ----

  lemma ThreeDigits(a: nat, b: nat, c: nat)
    requires a < 10 && b < 10 && c < 10
    ensures var code := a * 100 + b * 10 + c; code / 100 == a && code / 10 % 10 == b && code % 10 == c
  {
    var code := a * 100 + b * 10 + c;
    assert code / 10 == a * 10 + b;
  }

  lemma DigitsOfCode(line: seq<Byte>)
    requires |line| >= 5 && CodePrefix(line)
    ensures ValidCode(CodeOf(line)) && Digits(CodeOf(line)) == line[..3]
  {
    ThreeDigits((line[0] - ZERO) as nat, (line[1] - ZERO) as nat, (line[2] - ZERO) as nat);
  }

  lemma CodeOfDigits(code: nat, line: seq<Byte>)
    requires ValidCode(code) && |line| >= 5 && line[..3] == Digits(code)
    requires |line| == 5 || line[3] == DASH || line[3] == SPACE
    ensures CodePrefix(line) && CodeOf(line) == code
  {
    assert line[0] == Digits(code)[0] && line[1] == Digits(code)[1] && line[2] == Digits(code)[2];
    assert code == code / 100 * 100 + code / 10 % 10 * 10 + code % 10;
  }

  lemma DecodePrinted(code: nat, form: Form)
    requires ValidCode(code) && AllText(TextOf(form))
    ensures DecodeLine(PrintLine(code, form)) == GoodLine(code, form)
  {
    var line := PrintLine(code, form);
    assert line[..3] == Digits(code);
    CodeOfDigits(code, line);
    if !form.Bare? { assert line[4..|line| - 2] == form.text; }
  }

  lemma PrintDecoded(line: seq<Byte>)
    requires line != [] && line[|line| - 1] == LF && DecodeLine(line).GoodLine?
    requires |line| <= MAX_LINE
    ensures var d := DecodeLine(line); ValidLine(d.code, d.form) && PrintLine(d.code, d.form) == line
  {
    var d := DecodeLine(line);
    DigitsOfCode(line);
    if d.form.Bare? {
      assert line == line[..3] + CRLF;
    } else {
      assert line == line[..3] + ([line[3]] + d.form.text) + CRLF;
    }
  }

  // ---- printing then parsing ----

  /** Octets before the LF only accumulate. */
  lemma {:induction false} FeedText(p: Parser, t: seq<Byte>)
    requires forall i :: 0 <= i < |t| ==> t[i] == CR || TextByte(t[i])
    requires |p.line| + |t| <= MAX_LINE && p.total + |t| <= MAX_TOTAL
    ensures Feed(p, t) == Fed(p.(line := p.line + t, total := p.total + |t|), [], true)
  {
    if t == [] {
      assert p.line + t == p.line;
    } else {
      var init := t[..|t| - 1];
      FeedText(p, init);
      assert p.line + init + [t[|t| - 1]] == p.line + t;
    }
  }

  lemma PrintLineOctets(code: nat, form: Form)
    requires ValidLine(code, form)
    ensures var line := PrintLine(code, form);
            && |line| >= 5 && line[|line| - 1] == LF
            && forall i :: 0 <= i < |line| - 1 ==> line[i] == CR || TextByte(line[i])
  {
    var line, text := PrintLine(code, form), TextOf(form);
    assert forall i :: 0 <= i < 3 ==> line[i] == Digits(code)[i];
    if !form.Bare? {
      assert forall i :: 4 <= i < |line| - 2 ==> line[i] == text[i - 4];
    }
  }

  lemma FeedLinePrefix(p: Parser, code: nat, form: Form, k: nat)
    requires ValidLine(code, form) && k < |PrintLine(code, form)|
    requires p.line == [] && p.total + |PrintLine(code, form)| <= MAX_TOTAL
    ensures Feed(p, PrintLine(code, form)[..k])
         == Fed(p.(line := PrintLine(code, form)[..k], total := p.total + k), [], true)
  {
    PrintLineOctets(code, form);
    FeedText(p, PrintLine(code, form)[..k]);
  }

  /** A parser between lines, after a line of `size` octets that decodes to `code` and `form`. */
  function AfterLine(p: Parser, size: nat, code: nat, form: Form): (r: Fed) {
    if form.Continued?
    then Fed(Parser([], p.lines + [form.text], Some(code), p.total + size), [], true)
    else Fed(INITIAL, [Reply(code, p.lines + [TextOf(form)])], true)
  }

  lemma PushLf(p: Parser, line: seq<Byte>, code: nat, form: Form)
    requires 0 < |line| <= MAX_LINE && line[|line| - 1] == LF && DecodeLine(line) == GoodLine(code, form)
    requires p.total + |line| <= MAX_TOTAL && |p.lines| < MAX_LINES && (p.code.Some? ==> p.code.value == code)
    ensures var init := line[..|line| - 1];
            FeedOne(Fed(p.(line := init, total := p.total + |init|), [], true), LF) == AfterLine(p, |line|, code, form)
  {
    assert line[..|line| - 1] + [LF] == line;
    hide DecodeLine;
  }

  lemma FeedClosedLine(p: Parser, line: seq<Byte>, code: nat, form: Form)
    requires 0 < |line| <= MAX_LINE && line[|line| - 1] == LF && DecodeLine(line) == GoodLine(code, form)
    requires forall i :: 0 <= i < |line| - 1 ==> line[i] == CR || TextByte(line[i])
    requires p.line == [] && p.total + |line| <= MAX_TOTAL
    requires |p.lines| < MAX_LINES && (p.code.Some? ==> p.code.value == code)
    ensures Feed(p, line) == AfterLine(p, |line|, code, form)
  {
    hide Feed, FeedOne, DecodeLine, AfterLine, TextByte;
    var init := line[..|line| - 1];
    FeedText(p, init);
    assert p.line + init == init;
    assert init + [LF] == line;
    PushLf(p, line, code, form);
    FeedSnoc(p, init, LF);
  }

  /** A printed line enters a parser that is between lines. */
  lemma FeedLine(p: Parser, code: nat, form: Form)
    requires ValidLine(code, form)
    requires p.line == [] && p.total + |PrintLine(code, form)| <= MAX_TOTAL
    requires |p.lines| < MAX_LINES && (p.code.Some? ==> p.code.value == code)
    ensures Feed(p, PrintLine(code, form)) == AfterLine(p, |PrintLine(code, form)|, code, form)
  {
    PrintLineOctets(code, form);
    DecodePrinted(code, form);
    FeedClosedLine(p, PrintLine(code, form), code, form);
  }

  lemma {:induction false} FeedContinued(code: nat, texts: seq<seq<Byte>>)
    requires ValidCode(code) && |texts| < MAX_LINES
    requires forall i :: 0 <= i < |texts| ==> ValidLine(code, Continued(texts[i]))
    requires |PrintContinued(code, texts)| <= MAX_TOTAL
    ensures Feed(INITIAL, PrintContinued(code, texts))
         == Fed(Parser([], texts, if texts == [] then None else Some(code), |PrintContinued(code, texts)|), [], true)
  {
    hide FeedOne;
    if texts != [] {
      var init, text := texts[..|texts| - 1], texts[|texts| - 1];
      FeedContinued(code, init);
      FeedLine(Feed(INITIAL, PrintContinued(code, init)).parser, code, Continued(text));
      FeedAppend(INITIAL, PrintContinued(code, init), PrintLine(code, Continued(text)));
      assert init + [text] == texts;
    }
  }

  /** A printed reply is read back whole at its last octet, leaving the parser as it began. */
  lemma FeedReply(w: Printed)
    requires WithinLimits(w)
    ensures Feed(INITIAL, Print(w)) == Fed(INITIAL, [Meaning(w)], true)
  {
    hide FeedOne;
    FeedContinued(w.code, w.continued);
    var p := Feed(INITIAL, PrintContinued(w.code, w.continued)).parser;
    FeedLine(p, w.code, w.last);
    FeedAppend(INITIAL, PrintContinued(w.code, w.continued), PrintLine(w.code, w.last));
  }

  lemma FeedIntoLine(code: nat, texts: seq<seq<Byte>>, form: Form, k: nat)
    requires ValidLine(code, form) && k < |PrintLine(code, form)| && |texts| < MAX_LINES
    requires forall i :: 0 <= i < |texts| ==> ValidLine(code, Continued(texts[i]))
    requires |PrintContinued(code, texts)| + |PrintLine(code, form)| <= MAX_TOTAL
    ensures var fed := Feed(INITIAL, PrintContinued(code, texts) + PrintLine(code, form)[..k]);
            fed.ok && fed.replies == []
  {
    hide FeedOne, Feed, PrintLine;
    FeedContinued(code, texts);
    FeedLinePrefix(Feed(INITIAL, PrintContinued(code, texts)).parser, code, form, k);
    FeedAppend(INITIAL, PrintContinued(code, texts), PrintLine(code, form)[..k]);
  }

  /** Before its last octet a printed reply is neither rejected nor reported. */
  lemma FeedReplyEarly(w: Printed, k: nat)
    requires WithinLimits(w) && k < |Print(w)|
    ensures Feed(INITIAL, Print(w)[..k]).ok && Feed(INITIAL, Print(w)[..k]).replies == []
  {
    hide FeedOne, Feed, PrintLine;
    var head, last := PrintContinued(w.code, w.continued), PrintLine(w.code, w.last);
    if |head| <= k {
      FeedIntoLine(w.code, w.continued, w.last, k - |head|);
      assert Print(w)[..k] == head + last[..k - |head|];
    } else {
      FeedContinuedEarly(w.code, w.continued, k);
      assert Print(w)[..k] == head[..k];
    }
  }

  lemma {:induction false} FeedContinuedEarly(code: nat, texts: seq<seq<Byte>>, k: nat)
    requires ValidCode(code) && |texts| < MAX_LINES
    requires forall i :: 0 <= i < |texts| ==> ValidLine(code, Continued(texts[i]))
    requires k < |PrintContinued(code, texts)| <= MAX_TOTAL
    ensures Feed(INITIAL, PrintContinued(code, texts)[..k]).ok
    ensures Feed(INITIAL, PrintContinued(code, texts)[..k]).replies == []
  {
    hide FeedOne, Feed, PrintLine;
    var init, text := texts[..|texts| - 1], texts[|texts| - 1];
    var head, last := PrintContinued(code, init), PrintLine(code, Continued(text));
    if |head| <= k {
      FeedIntoLine(code, init, Continued(text), k - |head|);
      assert PrintContinued(code, texts)[..k] == head + last[..k - |head|];
    } else {
      FeedContinuedEarly(code, init, k);
      assert PrintContinued(code, texts)[..k] == head[..k];
    }
  }

  ghost predicate AllWithinLimits(ws: seq<Printed>) {
    forall i :: 0 <= i < |ws| ==> WithinLimits(ws[i])
  }

  ghost function PrintAll(ws: seq<Printed>): (r: seq<Byte>)
    requires AllWithinLimits(ws)
  {
    if ws == [] then [] else PrintAll(ws[..|ws| - 1]) + Print(ws[|ws| - 1])
  }

  function Meanings(ws: seq<Printed>): (r: seq<Reply>) {
    seq(|ws|, i requires 0 <= i < |ws| => Meaning(ws[i]))
  }

  /** Parsing inverts printing for every list of replies. */
  lemma {:induction false} ParsePrinted(ws: seq<Printed>)
    requires AllWithinLimits(ws)
    ensures Feed(INITIAL, PrintAll(ws)) == Fed(INITIAL, Meanings(ws), true)
  {
    hide FeedOne, Print, Meaning;
    if ws != [] {
      var init, w := ws[..|ws| - 1], ws[|ws| - 1];
      ParsePrinted(init);
      FeedReply(w);
      FeedAppend(INITIAL, PrintAll(init), Print(w));
      assert Meanings(ws) == Meanings(init) + [Meaning(w)];
    }
  }

  /** Each reply is reported at exactly its last octet: not one octet before. */
  lemma ParsePrintedEarly(ws: seq<Printed>, w: Printed, k: nat)
    requires AllWithinLimits(ws) && WithinLimits(w) && k < |Print(w)|
    ensures Feed(INITIAL, PrintAll(ws) + Print(w)[..k]).ok
    ensures Feed(INITIAL, PrintAll(ws) + Print(w)[..k]).replies == Meanings(ws)
  {
    hide FeedOne;
    ParsePrinted(ws);
    FeedReplyEarly(w, k);
    FeedAppend(INITIAL, PrintAll(ws), Print(w)[..k]);
  }

  // ---- parsing then printing ----

  /** `p` has consumed exactly `consumed` since the last reply, and holds no more than the limits allow. */
  ghost predicate Represents(p: Parser, consumed: seq<Byte>) {
    && p.total == |consumed| <= MAX_TOTAL
    && |p.line| <= MAX_LINE && |p.lines| <= MAX_LINES
    && (p.code.None? <==> p.lines == [])
    && (p.code.Some? ==> ValidCode(p.code.value))
    && (forall i :: 0 <= i < |p.lines| ==> ValidLine(p.code.value, Continued(p.lines[i])))
    && consumed == (if p.code.None? then [] else PrintContinued(p.code.value, p.lines)) + p.line
  }

  /**
   * One octet: the parser keeps representing what it consumed, and reports a reply only when the
   * octets consumed are a printed form of that reply within the limits.
   */
  lemma PushRepresents(p: Parser, consumed: seq<Byte>, byte: Byte)
    requires Represents(p, consumed)
    ensures match PushByte(p, byte).1
            case Malformed => true
            case More => Represents(PushByte(p, byte).0, consumed + [byte])
            case Complete(reply) =>
              && PushByte(p, byte).0 == INITIAL
              && exists w :: WithinLimits(w) && Meaning(w) == reply && Print(w) == consumed + [byte]
  {
    var line := p.line + [byte];
    if p.total + 1 <= MAX_TOTAL && |p.line| < MAX_LINE {
      if byte == LF && DecodeLine(line).GoodLine? {
        PrintDecoded(line);
        var code, form := DecodeLine(line).code, DecodeLine(line).form;
        if (p.code.Some? ==> p.code.value == code) && |p.lines| < MAX_LINES {
          EndRepresents(p, consumed, code, form);
        }
      } else {
        assert consumed + [byte] == (if p.code.None? then [] else PrintContinued(p.code.value, p.lines)) + line;
      }
    }
  }

  /** What was consumed, the line just ended included, in printed form. */
  lemma EndConsumed(p: Parser, consumed: seq<Byte>, code: nat, form: Form)
    requires Represents(p, consumed) && ValidLine(code, form) && PrintLine(code, form) == p.line + [LF]
    requires p.code.Some? ==> p.code.value == code
    ensures consumed + [LF] == PrintContinued(code, p.lines) + PrintLine(code, form)
  {
    hide PrintLine, ValidLine;
  }

  lemma EndContinues(p: Parser, consumed: seq<Byte>, code: nat, form: Form)
    requires Represents(p, consumed) && |consumed| < MAX_TOTAL && |p.lines| < MAX_LINES
    requires ValidLine(code, form) && PrintLine(code, form) == p.line + [LF] && form.Continued?
    requires p.code.Some? ==> p.code.value == code
    ensures Represents(Parser([], p.lines + [form.text], Some(code), p.total + 1), consumed + [LF])
  {
    hide PrintLine;
    EndConsumed(p, consumed, code, form);
    var lines := p.lines + [form.text];
    assert lines[..|lines| - 1] == p.lines;
    assert PrintContinued(code, lines) + [] == consumed + [LF];
  }

  lemma EndRepresents(p: Parser, consumed: seq<Byte>, code: nat, form: Form)
    requires Represents(p, consumed) && |consumed| < MAX_TOTAL && |p.lines| < MAX_LINES
    requires ValidLine(code, form) && PrintLine(code, form) == p.line + [LF]
    requires p.code.Some? ==> p.code.value == code
    ensures form.Continued? ==>
      Represents(Parser([], p.lines + [form.text], Some(code), p.total + 1), consumed + [LF])
    ensures !form.Continued? ==>
      var w := Printed(code, p.lines, form);
      WithinLimits(w) && Meaning(w) == Reply(code, p.lines + [TextOf(form)]) && Print(w) == consumed + [LF]
  {
    hide PrintLine, PrintContinued;
    EndConsumed(p, consumed, code, form);
    if form.Continued? { EndContinues(p, consumed, code, form); }
  }

  /** `bytes` are printed replies, reported one by one, and then `tail`, which the parser holds. */
  ghost predicate Explains(bytes: seq<Byte>, fed: Fed, ws: seq<Printed>, tail: seq<Byte>) {
    && AllWithinLimits(ws) && Meanings(ws) == fed.replies
    && bytes == PrintAll(ws) + tail && Represents(fed.parser, tail)
  }

  lemma ExplainsReply(bytes: seq<Byte>, fed: Fed, ws: seq<Printed>, tail: seq<Byte>, byte: Byte, w: Printed)
    requires Explains(bytes, fed, ws, tail)
    requires WithinLimits(w) && Print(w) == tail + [byte]
    ensures Explains(bytes + [byte], Fed(INITIAL, fed.replies + [Meaning(w)], true), ws + [w], [])
  {
    hide Print, Meaning, Represents, WithinLimits, PrintAll, Meanings;
    PrintAllSnoc(ws, w);
    NothingRepresented();
    assert bytes + [byte] == PrintAll(ws) + (tail + [byte]);
    assert PrintAll(ws + [w]) + [] == PrintAll(ws + [w]);
  }

  lemma PrintAllSnoc(ws: seq<Printed>, w: Printed)
    requires AllWithinLimits(ws) && WithinLimits(w)
    ensures AllWithinLimits(ws + [w]) && PrintAll(ws + [w]) == PrintAll(ws) + Print(w)
    ensures Meanings(ws + [w]) == Meanings(ws) + [Meaning(w)]
  {
    hide Print, Meaning, WithinLimits;
    var all := ws + [w];
    assert all[..|all| - 1] == ws;
  }

  lemma NothingRepresented()
    ensures Represents(INITIAL, [])
  {
    assert [] + INITIAL.line == [];
  }

  lemma ExplainsOne(bytes: seq<Byte>, fed: Fed, ws: seq<Printed>, tail: seq<Byte>, byte: Byte)
    returns (more: seq<Printed>, rest: seq<Byte>)
    requires Explains(bytes, fed, ws, tail) && fed.ok && FeedOne(fed, byte).ok
    ensures Explains(bytes + [byte], FeedOne(fed, byte), more, rest)
  {
    PushRepresents(fed.parser, tail, byte);
    hide PushByte, Represents, Print, Meaning;
    var progress := PushByte(fed.parser, byte).1;
    if progress.Complete? {
      var w :| WithinLimits(w) && Meaning(w) == progress.reply && Print(w) == tail + [byte];
      ExplainsReply(bytes, fed, ws, tail, byte, w);
      more, rest := ws + [w], [];
    } else {
      more, rest := ws, tail + [byte];
      assert bytes + [byte] == PrintAll(ws) + (tail + [byte]);
    }
  }

  lemma NothingExplained()
    ensures Feed(INITIAL, []) == Fed(INITIAL, [], true) && Explains([], Feed(INITIAL, []), [], [])
  {
    assert PrintAll([]) + [] == [];
  }

  lemma {:induction false} FeedExplained(bytes: seq<Byte>) returns (ws: seq<Printed>, tail: seq<Byte>)
    requires Feed(INITIAL, bytes).ok
    ensures Explains(bytes, Feed(INITIAL, bytes), ws, tail)
  {
    hide Feed, FeedOne, Explains;
    if bytes == [] {
      ws, tail := [], [];
      NothingExplained();
    } else {
      var init, byte := bytes[..|bytes| - 1], bytes[|bytes| - 1];
      assert init + [byte] == bytes;
      FeedSnoc(INITIAL, init, byte);
      FeedFailsForGood(Feed(INITIAL, init), byte);
      ws, tail := FeedExplained(init);
      ws, tail := ExplainsOne(init, Feed(INITIAL, init), ws, tail, byte);
    }
  }

  lemma FeedFailsForGood(fed: Fed, byte: Byte)
    ensures !fed.ok ==> FeedOne(fed, byte) == fed
  {
  }

  /**
   * Parsing is sound for any octets at all: those not rejected are printed replies within the
   * limits, reported in order, and an incomplete rest that fits the parser's bounds.
   */
  lemma ParsedIsPrinted(bytes: seq<Byte>)
    requires Feed(INITIAL, bytes).ok
    ensures exists ws, tail ::
      && AllWithinLimits(ws) && Feed(INITIAL, bytes).replies == Meanings(ws)
      && bytes == PrintAll(ws) + tail && Represents(Feed(INITIAL, bytes).parser, tail)
  {
    hide Feed;
    var ws, tail := FeedExplained(bytes);
    assert AllWithinLimits(ws) && Feed(INITIAL, bytes).replies == Meanings(ws)
      && bytes == PrintAll(ws) + tail && Represents(Feed(INITIAL, bytes).parser, tail);
  }

  // ---- what an EHLO reply advertises ----

  predicate Blank(b: Byte) { b == SPACE || b == TAB }

  /** The line opens with this word: blanks before it, none in it, and one after it unless the line ends. */
  predicate OpensWith(line: seq<Byte>, blanks: seq<Byte>, word: seq<Byte>, rest: seq<Byte>) {
    && line == blanks + word + rest && word != []
    && (forall i :: 0 <= i < |blanks| ==> Blank(blanks[i]))
    && (forall i :: 0 <= i < |word| ==> !Blank(word[i]))
    && (rest != [] ==> Blank(rest[0]))
  }

  /** The same octet, or the same letter in the other case. */
  predicate SameLetter(a: Byte, b: Byte) { a == b || (97 <= a <= 122 && b == a - 32) || (97 <= b <= 122 && a == b - 32) }

  lemma {:induction false} WordPrefixEnds(line: seq<Byte>)
    ensures var word := WordPrefix(line);
            && |word| <= |line| && line == word + line[|word|..]
            && (forall i :: 0 <= i < |word| ==> !Blank(word[i]))
            && (|word| < |line| ==> Blank(line[|word|]))
  {
    if line != [] && !Blank(line[0]) {
      WordPrefixEnds(line[1..]);
      var word := WordPrefix(line[1..]);
      assert [line[0]] + word + line[1..][|word|..] == line;
    }
  }

  lemma {:induction false} FirstWordOpens(line: seq<Byte>) returns (blanks: seq<Byte>, rest: seq<Byte>)
    ensures FirstWord(line) != [] ==> OpensWith(line, blanks, FirstWord(line), rest)
  {
    blanks, rest := [], [];
    if line != [] {
      if Blank(line[0]) {
        blanks, rest := FirstWordOpens(line[1..]);
        assert FirstWord(line) != [] ==> line == [line[0]] + blanks + FirstWord(line) + rest;
        blanks := [line[0]] + blanks;
      } else {
        WordPrefixEnds(line);
        rest := line[|WordPrefix(line)|..];
        assert line == [] + WordPrefix(line) + rest;
      }
    }
  }

  lemma {:induction false} WordPrefixOf(word: seq<Byte>, rest: seq<Byte>)
    requires (forall i :: 0 <= i < |word| ==> !Blank(word[i])) && (rest != [] ==> Blank(rest[0]))
    ensures WordPrefix(word + rest) == word
  {
    if word == [] {
      assert word + rest == rest;
    } else {
      assert (word + rest)[1..] == word[1..] + rest;
      WordPrefixOf(word[1..], rest);
    }
  }

  lemma {:induction false} OpeningIsFirstWord(line: seq<Byte>, blanks: seq<Byte>, word: seq<Byte>, rest: seq<Byte>)
    requires OpensWith(line, blanks, word, rest)
    ensures FirstWord(line) == word
    decreases |blanks|
  {
    if blanks == [] {
      assert line == word + rest && line[0] == word[0];
      WordPrefixOf(word, rest);
    } else {
      assert line[0] == blanks[0] && line[1..] == blanks[1..] + word + rest;
      OpeningIsFirstWord(line[1..], blanks[1..], word, rest);
    }
  }

  /** Line `k` opens with the keyword in whatever case. */
  ghost predicate Names(line: seq<Byte>, keyword: seq<Byte>) {
    exists blanks, word, rest :: OpensWith(line, blanks, word, rest) && |word| == |keyword|
                                 && forall i :: 0 <= i < |word| ==> SameLetter(word[i], keyword[i])
  }

  lemma NamesFirstWord(line: seq<Byte>, keyword: seq<Byte>)
    ensures Names(line, keyword) <==> FirstWord(line) != [] && EqualsIgnoringCase(FirstWord(line), keyword)
  {
    assert forall a: Byte, b: Byte :: Upper(a) == Upper(b) <==> SameLetter(a, b);
    if FirstWord(line) != [] && EqualsIgnoringCase(FirstWord(line), keyword) {
      var blanks, rest := FirstWordOpens(line);
      assert OpensWith(line, blanks, FirstWord(line), rest);
    }
    if Names(line, keyword) {
      var blanks, word, rest :| OpensWith(line, blanks, word, rest) && |word| == |keyword|
        && forall i :: 0 <= i < |word| ==> SameLetter(word[i], keyword[i]);
      OpeningIsFirstWord(line, blanks, word, rest);
    }
  }

  /** A reply advertises an extension exactly if a line after the first opens with its keyword, in whatever case. */
  lemma AdvertisesMeans(reply: Reply, keyword: seq<Byte>)
    ensures Advertises(reply, keyword) <==> exists k :: 1 <= k < |reply.lines| && Names(reply.lines[k], keyword)
  {
    hide Names, FirstWord, EqualsIgnoringCase;
    forall k | 1 <= k < |reply.lines|
      ensures Names(reply.lines[k], keyword)
         <==> FirstWord(reply.lines[k]) != [] && EqualsIgnoringCase(FirstWord(reply.lines[k]), keyword)
    {
      NamesFirstWord(reply.lines[k], keyword);
    }
  }

  // ---- what a summary tells ----

  /** The text cut at every LF. */
  function Lines(text: seq<Byte>): (lines: seq<seq<Byte>>)
    ensures lines != []
  {
    if text == [] then [[]]
    else
      var rest := Lines(text[1..]);
      if text[0] == LF then [[]] + rest else [[text[0]] + rest[0]] + rest[1..]
  }

  lemma {:induction false} LinesAfter(line: seq<Byte>, more: seq<Byte>)
    requires LF !in line
    ensures Lines(line) == [line]
    ensures Lines(line + [LF] + more) == [line] + Lines(more)
  {
    var all := line + [LF] + more;
    if line == [] {
      assert all[0] == LF && all[1..] == more;
    } else {
      assert all[0] == line[0] && all[1..] == line[1..] + [LF] + more;
      LinesAfter(line[1..], more);
      assert [line[0]] + line[1..] == line;
    }
  }

  lemma {:induction false} JoinIsUndone(lines: seq<seq<Byte>>)
    requires lines != [] && forall i :: 0 <= i < |lines| ==> LF !in lines[i]
    ensures Lines(Join(lines)) == lines
  {
    if |lines| == 1 {
      LinesAfter(lines[0], []);
    } else {
      JoinIsUndone(lines[1..]);
      LinesAfter(lines[0], Join(lines[1..]));
      assert lines == [lines[0]] + lines[1..];
    }
  }

  lemma {:induction false} JoinSnoc(lines: seq<seq<Byte>>, line: seq<Byte>)
    ensures |Join(lines + [line])| == |Join(lines)| + |line| + (if lines == [] then 0 else 1)
  {
    if lines == [] {
      assert lines + [line] == [line];
    } else {
      assert (lines + [line])[1..] == lines[1..] + [line];
      JoinSnoc(lines[1..], line);
    }
  }

  lemma {:induction false} JoinFits(code: nat, texts: seq<seq<Byte>>)
    requires ValidCode(code)
    ensures |Join(texts)| <= |PrintContinued(code, texts)|
  {
    if texts != [] {
      var init, last := texts[..|texts| - 1], texts[|texts| - 1];
      assert texts == init + [last];
      JoinSnoc(init, last);
      JoinFits(code, init);
    }
  }

  /** The summary kept of a reply within the limits has its code and all of its lines, and is bounded as the reply was. */
  lemma SummaryTells(w: Printed)
    requires WithinLimits(w)
    ensures var summary := Summary(Meaning(w));
            && summary.code == w.code && Lines(summary.text) == w.continued + [TextOf(w.last)]
            && |summary.text| <= MAX_TOTAL
  {
    var lines := w.continued + [TextOf(w.last)];
    forall i | 0 <= i < |lines| ensures LF !in lines[i] {
      if i < |w.continued| {
        assert AllText(TextOf(Continued(w.continued[i])));
      } else {
        assert AllText(TextOf(w.last));
      }
    }
    JoinIsUndone(lines);
    JoinFits(w.code, w.continued);
    JoinSnoc(w.continued, TextOf(w.last));
  }
}
