/** Admission checks of smtp/src/request.rs: prepared messages, mailboxes, domains and envelopes. */
module SmtpRequest {
  import opened Bytes
  import opened DotStuffing

  const MAX_MESSAGE_BYTES: nat := 8 * 1024 * 1024
  const MAX_RECIPIENTS: nat := 100
  const MAX_LINE_OCTETS: nat := 998

  datatype Verdict = Valid | Invalid(detail: string)

  // ---- prepared messages ----

  /** The lines of a message; octets after the last CRLF are a line of their own. */
  function SplitLines(m: seq<Byte>): (lines: seq<seq<Byte>>)
    decreases |m|
  {
    if m == [] then []
    else match ReadLine(m)
      case Incomplete => [m]
      case Line(content, rest) => [content] + SplitLines(rest)
  }

  /** Printable text or a tab; CR and LF only as the pair CRLF. */
  predicate ByteOk(m: seq<Byte>, i: nat)
    requires i < |m|
  {
    if m[i] == LF then i > 0 && m[i - 1] == CR
    else if m[i] == CR then i + 1 < |m| && m[i + 1] == LF
    else TextByte(m[i])
  }

  predicate IsContinuation(line: seq<Byte>) {
    line != [] && (line[0] == SPACE || line[0] == TAB)
  }

  predicate NameByte(b: Byte) { 33 <= b <= 126 && b != COLON }

  /** A nonempty name of printable octets, then a colon. */
  ghost predicate IsField(line: seq<Byte>) {
    exists c :: 0 < c < |line| && line[c] == COLON && forall i :: 0 <= i < c ==> NameByte(line[i])
  }

  /** Fields and continuations, opened by a field, then an empty line; no line over 998 octets. */
  ghost predicate HeadersThenBlank(lines: seq<seq<Byte>>, blank: nat) {
    && 0 < blank < |lines| && lines[blank] == []
    && IsField(lines[0])
    && (forall i :: 0 <= i < blank ==> IsField(lines[i]) || IsContinuation(lines[i]))
    && (forall i :: 0 <= i < |lines| ==> |lines[i]| <= MAX_LINE_OCTETS)
  }

  /** What the sender calls a prepared message. */
  ghost predicate Prepared(m: seq<Byte>) {
    && |Canonical(m)| <= MAX_MESSAGE_BYTES
    && (forall i :: 0 <= i < |m| ==> ByteOk(m, i))
    && exists blank: nat :: HeadersThenBlank(SplitLines(m), blank)
  }

  ghost predicate LineOk(content: seq<Byte>, inHeaders: bool, headers: nat) {
    && |content| <= MAX_LINE_OCTETS
    && (!inHeaders || content == [] || (IsContinuation(content) && headers > 0)
        || (!IsContinuation(content) && IsField(content)))
  }

  function HeadersAfter(content: seq<Byte>, inHeaders: bool, headers: nat): (n: nat) {
    if inHeaders && content != [] && !IsContinuation(content) then headers + 1 else headers
  }

  /** The header scan over the remaining lines, from a given scan state. */
  ghost predicate ScanAccepts(lines: seq<seq<Byte>>, inHeaders: bool, headers: nat) {
    if lines == [] then !inHeaders && headers != 0
    else LineOk(lines[0], inHeaders, headers)
         && ScanAccepts(lines[1..], inHeaders && lines[0] != [], HeadersAfter(lines[0], inHeaders, headers))
  }

  lemma {:induction false} ScanBody(lines: seq<seq<Byte>>, headers: nat)
    ensures ScanAccepts(lines, false, headers)
       <==> headers > 0 && forall i :: 0 <= i < |lines| ==> |lines[i]| <= MAX_LINE_OCTETS
  {
    if lines != [] {
      ScanBody(lines[1..], headers);
      assert forall i :: 0 < i < |lines| ==> lines[i] == lines[1..][i - 1];
    }
  }

  lemma FieldIsNoContinuation(line: seq<Byte>)
    requires IsField(line)
    ensures line != [] && !IsContinuation(line)
  {
    assert NameByte(line[0]);
  }

  /** After the first field, continuations and fields may follow in any order. */
  ghost predicate MoreHeaders(lines: seq<seq<Byte>>, blank: nat) {
    && blank < |lines| && lines[blank] == []
    && (forall i :: 0 <= i < blank ==> IsField(lines[i]) || IsContinuation(lines[i]))
    && (forall i :: 0 <= i < |lines| ==> |lines[i]| <= MAX_LINE_OCTETS)
  }

  lemma {:induction false} ScanHeaders(lines: seq<seq<Byte>>, headers: nat)
    requires headers > 0
    ensures ScanAccepts(lines, true, headers) <==> exists blank: nat :: MoreHeaders(lines, blank)
  {
    if lines != [] {
      var tail := lines[1..];
      assert forall i :: 0 < i < |lines| ==> lines[i] == tail[i - 1];
      if lines[0] == [] {
        ScanBody(tail, headers);
        if ScanAccepts(lines, true, headers) { assert MoreHeaders(lines, 0); }
      } else {
        ScanHeaders(tail, if IsContinuation(lines[0]) then headers else headers + 1);
        if ScanAccepts(lines, true, headers) {
          var blank: nat :| MoreHeaders(tail, blank);
          assert MoreHeaders(lines, blank + 1);
        }
        if blank: nat :| MoreHeaders(lines, blank) {
          assert blank > 0 && MoreHeaders(tail, blank - 1);
          if IsField(lines[0]) { FieldIsNoContinuation(lines[0]); }
        }
      }
    }
  }

  /** The scan accepts exactly the messages whose lines are headers, a blank line and a body. */
  lemma ScanMeansHeaders(lines: seq<seq<Byte>>)
    ensures ScanAccepts(lines, true, 0) <==> exists blank: nat :: HeadersThenBlank(lines, blank)
  {
    if lines != [] {
      var tail := lines[1..];
      assert forall i :: 0 < i < |lines| ==> lines[i] == tail[i - 1];
      if lines[0] == [] {
        ScanBody(tail, 0);
      } else {
        ScanHeaders(tail, 1);
        if ScanAccepts(lines, true, 0) {
          var blank: nat :| MoreHeaders(tail, blank);
          assert HeadersThenBlank(lines, blank + 1);
        }
        if blank: nat :| HeadersThenBlank(lines, blank) {
          assert MoreHeaders(tail, blank - 1);
          FieldIsNoContinuation(lines[0]);
        }
      }
    }
  }

  method ValidateLine(content: seq<Byte>, inHeaders: bool, headerCount: nat, lastHadHeader: bool)
    returns (verdict: Verdict, headers: nat, hadHeader: bool)
    requires lastHadHeader <==> headerCount > 0
    ensures hadHeader <==> headers > 0
    ensures verdict.Valid? <==> LineOk(content, inHeaders, headerCount)
    ensures verdict.Valid? ==> headers == HeadersAfter(content, inHeaders, headerCount)
  {
    headers, hadHeader := headerCount, lastHadHeader;
    if |content| > MAX_LINE_OCTETS {
      return Invalid("prepared SMTP line exceeds 998 octets"), headers, hadHeader;
    }
    if !inHeaders || content == [] {
      return Valid, headers, hadHeader;
    }
    if content[0] == SPACE || content[0] == TAB {
      if !lastHadHeader {
        return Invalid("SMTP header continuation has no preceding field"), headers, hadHeader;
      }
      return Valid, headers, hadHeader;
    }
    var colon := 0;
    while colon < |content| && content[colon] != COLON
      invariant colon <= |content|
      invariant forall i :: 0 <= i < colon ==> content[i] != COLON
    {
      colon := colon + 1;
    }
    if colon == |content| {
      return Invalid("SMTP header field lacks a colon"), headers, hadHeader;
    }
    if colon == 0 || exists i :: 0 <= i < colon && !NameByte(content[i]) {
      return Invalid("SMTP header field name is invalid"), headers, hadHeader;
    }
    return Valid, headerCount + 1, true;
  }

  lemma {:induction false} NoLfNoLine(m: seq<Byte>)
    requires forall i :: 0 <= i < |m| ==> m[i] != LF
    ensures ReadLine(m).Incomplete?
  {
    if |m| >= 2 {
      assert m[..2][1] == m[1];
      NoLfNoLine(m[1..]);
    }
  }

  /** The scan of the lines from `lineStart` on. */
  ghost predicate ScanFrom(m: seq<Byte>, lineStart: nat, inHeaders: bool, headers: nat)
    requires lineStart <= |m|
  {
    ScanAccepts(SplitLines(m[lineStart..]), inHeaders, headers)
  }

  /** One line at a time: the unread tail, split after the CRLF just met. */
  lemma ScanCrlf(m: seq<Byte>, lineStart: nat, index: nat, inHeaders: bool, headers: nat)
    requires lineStart < index < |m| && m[index] == LF && m[index - 1] == CR
    requires forall i :: lineStart <= i < index ==> m[i] != LF
    ensures var content := m[lineStart..index - 1];
            ScanFrom(m, lineStart, inHeaders, headers) <==>
              && LineOk(content, inHeaders, headers)
              && ScanFrom(m, index + 1, inHeaders && content != [], HeadersAfter(content, inHeaders, headers))
  {
    var content := m[lineStart..index - 1];
    assert m[lineStart..] == content + CRLF + m[index + 1..];
    assert NoCrlfIn(content + [CR]);
    ReadLineExact(content, m[index + 1..]);
    assert SplitLines(m[lineStart..]) == [content] + SplitLines(m[index + 1..]);
    assert SplitLines(m[lineStart..])[1..] == SplitLines(m[index + 1..]);
  }

  lemma ScanLast(m: seq<Byte>, lineStart: nat, inHeaders: bool, headers: nat)
    requires lineStart <= |m| && forall i :: lineStart <= i < |m| ==> m[i] != LF
    ensures ScanFrom(m, lineStart, inHeaders, headers) <==>
      if lineStart == |m| then !inHeaders && headers != 0
      else LineOk(m[lineStart..], inHeaders, headers) && !inHeaders && headers != 0
  {
    NoLfNoLine(m[lineStart..]);
    if lineStart < |m| {
      var lines := SplitLines(m[lineStart..]);
      assert lines == [m[lineStart..]] && lines[1..] == [];
      assert lines[0] != [];
      assert ScanAccepts([], inHeaders, HeadersAfter(lines[0], inHeaders, headers))
        <==> !inHeaders && HeadersAfter(lines[0], inHeaders, headers) != 0;
    } else {
      assert m[lineStart..] == [];
    }
  }

  lemma PreparedByScan(m: seq<Byte>)
    ensures Prepared(m) <==>
      && |Canonical(m)| <= MAX_MESSAGE_BYTES
      && (forall i :: 0 <= i < |m| ==> ByteOk(m, i))
      && ScanFrom(m, 0, true, 0)
  {
    assert m[0..] == m;
    ScanMeansHeaders(SplitLines(m));
  }

  /** The index loop accepts exactly the prepared messages whose allocation fits. */
  method ValidateMessage(message: seq<Byte>, capacity: nat) returns (verdict: Verdict)
    requires |message| <= capacity
    ensures verdict.Valid? <==> capacity <= MAX_MESSAGE_BYTES && Prepared(message)
  {
    PreparedByScan(message);
    var suffix := if EndsWithCrlf(message) then 0 else 2;
    if capacity > MAX_MESSAGE_BYTES || |message| + suffix > MAX_MESSAGE_BYTES {
      return Invalid("prepared SMTP message exceeds 8 MiB allocation or length");
    }
    if message == [] {
      ScanLast(message, 0, true, 0);
      return Invalid("prepared SMTP message must be seven-bit and nonempty");
    }
    var octets := CheckOctets(message);
    if octets.Invalid? {
      return octets;
    }
    verdict := ValidateLines(message);
  }

  /** The rejection of octets outside seven bits, and of NUL, that precedes the line scan. */
  method CheckOctets(message: seq<Byte>) returns (verdict: Verdict)
    ensures verdict.Valid? <==> forall i :: 0 <= i < |message| ==> 0 < message[i] < 128
    ensures verdict.Invalid? ==> exists i :: 0 <= i < |message| && !ByteOk(message, i)
  {
    for i := 0 to |message|
      invariant forall k :: 0 <= k < i ==> 0 < message[k] < 128
    {
      if message[i] >= 128 || message[i] == 0 {
        assert !ByteOk(message, i);
        return Invalid("prepared SMTP message must be seven-bit and nonempty");
      }
    }
    return Valid;
  }

  /** The line closed by the CRLF that ends at `index`. */
  method TakeLine(message: seq<Byte>, lineStart: nat, index: nat, inHeaders: bool, headerCount: nat, lastHadHeader: bool)
    returns (verdict: Verdict, stillInHeaders: bool, headers: nat, hadHeader: bool)
    requires lineStart < index < |message| && message[index] == LF && message[index - 1] == CR
    requires forall i :: lineStart <= i < index ==> message[i] != LF
    requires lastHadHeader <==> headerCount > 0
    ensures hadHeader <==> headers > 0
    ensures ScanFrom(message, lineStart, inHeaders, headerCount)
       <==> verdict.Valid? && ScanFrom(message, index + 1, stillInHeaders, headers)
  {
    var content := message[lineStart..index - 1];
    ScanCrlf(message, lineStart, index, inHeaders, headerCount);
    verdict, headers, hadHeader := ValidateLine(content, inHeaders, headerCount, lastHadHeader);
    stillInHeaders := inHeaders && content != [];
  }

  method ValidateLines(message: seq<Byte>) returns (verdict: Verdict)
    requires forall i :: 0 <= i < |message| ==> 0 < message[i] < 128
    ensures verdict.Valid? <==>
      (forall i :: 0 <= i < |message| ==> ByteOk(message, i)) && ScanFrom(message, 0, true, 0)
  {
    hide ScanFrom;
    var lineStart, headerCount, inHeaders, lastHadHeader, index := 0, 0, true, false, 0;
    while index < |message|
      invariant 0 <= lineStart <= index <= |message|
      invariant forall i :: 0 <= i < index ==> ByteOk(message, i)
      invariant forall i :: lineStart <= i < index ==> message[i] != LF
      invariant lineStart > 0 ==> message[lineStart - 1] == LF
      invariant lastHadHeader <==> headerCount > 0
      invariant ScanFrom(message, 0, true, 0) <==> ScanFrom(message, lineStart, inHeaders, headerCount)
    {
      var byte := message[index];
      if byte == LF {
        if index == 0 || message[index - 1] != CR {
          assert !ByteOk(message, index);
          return Invalid("prepared SMTP message requires CRLF lines");
        }
        var line;
        line, inHeaders, headerCount, lastHadHeader :=
          TakeLine(message, lineStart, index, inHeaders, headerCount, lastHadHeader);
        if line.Invalid? {
          return line;
        }
        lineStart := index + 1;
      } else if byte == CR {
        if index + 1 >= |message| || message[index + 1] != LF {
          assert !ByteOk(message, index);
          return Invalid("prepared SMTP message contains a bare CR");
        }
      } else if (byte < SPACE && byte != TAB) || byte == 127 {
        assert !ByteOk(message, index);
        return Invalid("prepared SMTP message contains a control byte");
      }
      index := index + 1;
    }
    ScanLast(message, lineStart, inHeaders, headerCount);
    if lineStart < |message| {
      var content := message[lineStart..];
      var line;
      line, headerCount, lastHadHeader := ValidateLine(content, inHeaders, headerCount, lastHadHeader);
      if line.Invalid? {
        return line;
      }
    }
    if inHeaders || headerCount == 0 {
      return Invalid("prepared SMTP message requires headers and a blank separator");
    }
    return Valid;
  }

  /** A prepared message survives the wire: an RFC 5321 receiver recovers its canonical form exactly. */
  lemma PreparedIsRecovered(message: seq<Byte>, beyond: seq<Byte>)
    requires Prepared(message)
    ensures Receive(DataSection(message) + beyond) == Mail(Canonical(message), beyond)
  {
    PreparedHasNoBareLf(message, 0);
    assert Canonical(message)[0..] == Canonical(message);
    NoBareLfHasNoBareDots(Canonical(message), false);
    RecoveryExactlyWithoutBareDots(message, beyond);
  }

  lemma {:induction false} PreparedHasNoBareLf(message: seq<Byte>, k: nat)
    requires Prepared(message) && k <= |Canonical(message)|
    ensures NoBareLf(Canonical(message)[k..], k > 0 && Canonical(message)[k - 1] == CR)
    decreases |Canonical(message)| - k
  {
    var m := Canonical(message);
    if k < |m| {
      assert m[k] == LF && k < |message| ==> ByteOk(message, k);
      assert m[k..][1..] == m[k + 1..];
      PreparedHasNoBareLf(message, k + 1);
    }
  }

  // ---- envelopes ----

  predicate AtomByte(b: Byte) {
    IsAlphanumeric(b) || b in Ascii("!#$%&'*+/=?^_`{|}~-")
  }

  /** Atoms of `AtomByte` joined by single dots. */
  ghost predicate DotAtom(local: seq<Byte>) {
    && local != []
    && (forall i :: 0 <= i < |local| ==> local[i] == DOT || AtomByte(local[i]))
    && (forall i :: 0 <= i < |local| && local[i] == DOT ==> 0 < i < |local| - 1 && local[i - 1] != DOT)
  }

  function SplitOn(s: seq<Byte>, separator: Byte): (parts: seq<seq<Byte>>)
    ensures parts != []
  {
    if s == [] then [[]]
    else
      var rest := SplitOn(s[1..], separator);
      if s[0] == separator then [[]] + rest else [[s[0]] + rest[0]] + rest[1..]
  }

  predicate LabelByte(b: Byte) { IsAlphanumeric(b) || b == DASH }

  predicate ValidLabel(name: seq<Byte>) {
    && 0 < |name| <= 63
    && IsAlphanumeric(name[0]) && IsAlphanumeric(name[|name| - 1])
    && forall i :: 0 <= i < |name| ==> LabelByte(name[i])
  }

  predicate ValidDomain(domain: seq<Byte>) {
    && 0 < |domain| <= 253
    && var labels := SplitOn(domain, DOT);
       forall k :: 0 <= k < |labels| ==> ValidLabel(labels[k])
  }

  /** A dot-atom local part of at most 64 octets, an at sign, and a DNS domain. */
  ghost predicate SplitsAt(address: seq<Byte>, at: nat) {
    && 0 < at <= 64 && at < |address| && address[at] == AT
    && DotAtom(address[..at]) && ValidDomain(address[at + 1..])
  }

  ghost predicate ValidMailbox(address: seq<Byte>) {
    |address| <= 254 && exists at: nat :: SplitsAt(address, at)
  }

  lemma {:induction false} DomainBytes(domain: seq<Byte>)
    requires forall k :: 0 <= k < |SplitOn(domain, DOT)| ==>
               forall i :: 0 <= i < |SplitOn(domain, DOT)[k]| ==> LabelByte(SplitOn(domain, DOT)[k][i])
    ensures forall i :: 0 <= i < |domain| ==> domain[i] == DOT || LabelByte(domain[i])
  {
    if domain != [] {
      var parts, rest := SplitOn(domain, DOT), SplitOn(domain[1..], DOT);
      if domain[0] == DOT {
        assert forall k :: 0 <= k < |rest| ==> rest[k] == parts[k + 1];
      } else {
        assert LabelByte(parts[0][0]);
        assert rest[0] == parts[0][1..] && forall k :: 0 < k < |rest| ==> rest[k] == parts[k];
      }
      DomainBytes(domain[1..]);
    }
  }

  lemma DomainOctets(address: seq<Byte>, at: nat)
    requires SplitsAt(address, at)
    ensures forall i :: at < i < |address| ==> address[i] == DOT || LabelByte(address[i])
  {
    DomainBytes(address[at + 1..]);
    forall i | at < i < |address| ensures address[i] == DOT || LabelByte(address[i]) {
      assert address[i] == address[at + 1..][i - at - 1];
    }
  }

  /** Only the last at sign can split a mailbox. */
  lemma MailboxSplitsAtLastAt(address: seq<Byte>, last: nat)
    requires last < |address| && address[last] == AT && forall i :: last < i < |address| ==> address[i] != AT
    ensures (exists at: nat :: SplitsAt(address, at)) <==> SplitsAt(address, last)
  {
    forall at: nat | SplitsAt(address, at) ensures at == last {
      DomainOctets(address, at);
    }
  }

  method ValidateLocal(local: seq<Byte>) returns (verdict: Verdict)
    ensures verdict.Valid? <==> |local| <= 64 && DotAtom(local)
  {
    if local == [] || |local| > 64 || local[0] == DOT || local[|local| - 1] == DOT {
      return Invalid("unsupported SMTP local part");
    }
    var previousDot := false;
    for i := 0 to |local|
      invariant previousDot <==> i > 0 && local[i - 1] == DOT
      invariant forall k :: 0 <= k < i ==> local[k] == DOT || AtomByte(local[k])
      invariant forall k :: 0 <= k < i && local[k] == DOT ==> 0 < k < |local| - 1 && local[k - 1] != DOT
    {
      if local[i] == DOT {
        if previousDot {
          return Invalid("unsupported SMTP local part");
        }
        previousDot := true;
      } else {
        previousDot := false;
        if !AtomByte(local[i]) {
          return Invalid("unsupported SMTP local part");
        }
      }
    }
    return Valid;
  }

  /** The last at sign splits the address; only a dot-atom before it and a domain after it pass. */
  method ValidateMailbox(address: seq<Byte>) returns (verdict: Verdict)
    ensures verdict.Valid? <==> ValidMailbox(address)
  {
    if address == [] || |address| > 254 {
      return Invalid("invalid SMTP mailbox length or encoding");
    }
    var at := |address|;
    while at > 0 && address[at - 1] != AT
      invariant 0 <= at <= |address|
      invariant forall i :: at <= i < |address| ==> address[i] != AT
    {
      at := at - 1;
    }
    if at == 0 {
      return Invalid("SMTP mailbox must contain one @");
    }
    at := at - 1;
    MailboxSplitsAtLastAt(address, at);
    verdict := ValidateLocal(address[..at]);
    if verdict.Valid? && !ValidDomain(address[at + 1..]) {
      verdict := Invalid("invalid SMTP domain");
    }
  }

  /** Octets that may stand inside a command argument without ending it. */
  predicate ArgumentByte(b: Byte) { 33 <= b <= 126 && b != 60 && b != 62 }

  /** A valid mailbox cannot break out of its command line or its angle brackets. */
  lemma MailboxStaysInLine(address: seq<Byte>)
    requires ValidMailbox(address)
    ensures forall i :: 0 <= i < |address| ==> ArgumentByte(address[i])
  {
    var at: nat :| SplitsAt(address, at);
    DomainOctets(address, at);
    forall i | 0 <= i < |address| ensures ArgumentByte(address[i]) {
      if i < at { assert address[i] == address[..at][i]; }
    }
  }

  /** Either a domain, or brackets around the alphabet of an IP address. */
  predicate ValidEhlo(name: seq<Byte>) {
    ValidDomain(name)
    || (2 <= |name| <= 255 && name[0] == 91 && name[|name| - 1] == 93 && forall i :: 0 <= i < |name| ==> ArgumentByte(name[i]))
  }

  lemma EhloStaysInLine(name: seq<Byte>)
    requires ValidEhlo(name)
    ensures forall i :: 0 <= i < |name| ==> ArgumentByte(name[i])
  {
    if ValidDomain(name) { DomainBytes(name); }
  }

  datatype TlsPolicy = Implicit | RequiredStartTls
  datatype RecipientPolicy = RequireAllRecipients | AcceptedRecipients

  datatype SendRequest = SendRequest(
    policy: TlsPolicy,
    ehloName: seq<Byte>,
    from: seq<Byte>,
    recipients: seq<seq<Byte>>,
    message: seq<Byte>,
    recipientPolicy: RecipientPolicy)

  /** What `Envelope::new` and `SendRequest::new` let through. */
  ghost predicate ValidRequest(r: SendRequest) {
    && ValidEhlo(r.ehloName)
    && (r.from == [] || ValidMailbox(r.from))
    && 1 <= |r.recipients| <= MAX_RECIPIENTS
    && (forall i :: 0 <= i < |r.recipients| ==> ValidMailbox(r.recipients[i]))
    && Prepared(r.message)
  }
}
