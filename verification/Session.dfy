/**
 * What a server makes of the octets a submission admits. The server is the receiving side of
 * RFC 5321: command lines end with CRLF, and after DATA it reads mail as in section 4.5.2.
 */
module SmtpSession {
  import opened Bytes
  import opened DotStuffing
  import opened SmtpReply
  import opened SmtpRequest
  import opened SmtpEngine
  import opened SmtpWire
  import opened SmtpProof
  import opened SmtpRuns
  import opened SmtpRuling

  /** The command lines up to DATA, and the mail that followed it. */
  datatype Session = Session(commands: seq<seq<Byte>>, mail: Received)

  function Serve(wire: seq<Byte>): (s: Session)
    decreases |wire|
  {
    match ReadLine(wire)
    case Incomplete => Session([], NeedMore)
    case Line(content, rest) =>
      if content == Ascii("DATA") then Session([content], Receive(rest))
      else var later := Serve(rest); Session([content] + later.commands, later.mail)
  }

  /** A server that has seen the whole mail learns nothing new from more octets. */
  lemma {:induction false} ServePrefix(p: seq<Byte>, more: seq<Byte>)
    requires Serve(p).mail.Mail?
    ensures Serve(p + more)
         == Session(Serve(p).commands, Mail(Serve(p).mail.content, Serve(p).mail.rest + more))
    decreases |p|
  {
    ReadLinePrefix(p, more);
    var line := ReadLine(p);
    if line.content == Ascii("DATA") { ReceivePrefix(line.rest, more); } else { ServePrefix(line.rest, more); }
  }

  // ---- the transcript read back ----

  function CommandLine(r: SendRequest, k: nat): (line: seq<Byte>)
    requires k < |r.recipients| + 3
  {
    if k == 0 then Ascii("EHLO ") + r.ehloName
    else if k == 1 then Ascii("MAIL FROM:<") + r.from + Ascii(">")
    else if k < |r.recipients| + 2 then Ascii("RCPT TO:<") + r.recipients[k - 2] + Ascii(">")
    else Ascii("DATA")
  }

  /** The command lines from the `k`-th on. */
  function CommandLines(r: SendRequest, k: nat): (lines: seq<seq<Byte>>)
    requires k <= |r.recipients| + 3
    decreases |r.recipients| + 3 - k
  {
    if k == |r.recipients| + 3 then [] else [CommandLine(r, k)] + CommandLines(r, k + 1)
  }

  /** Printable octets: none of them can end a line. */
  predicate Printable(s: seq<Byte>) { forall i :: 0 <= i < |s| ==> 32 <= s[i] <= 126 }

  lemma PrintableLine(line: seq<Byte>, rest: seq<Byte>)
    requires Printable(line)
    ensures ReadLine(line + CRLF + rest) == Line(line, rest)
  {
    ReadLineExact(line, rest);
  }

  lemma Surrounded(before: seq<Byte>, argument: seq<Byte>, after: seq<Byte>)
    requires Printable(before) && Printable(after)
    requires forall i :: 0 <= i < |argument| ==> ArgumentByte(argument[i])
    ensures Printable(before + argument + after)
  {
    hide Printable;
    forall i | 0 <= i < |before + argument + after| ensures 32 <= (before + argument + after)[i] <= 126 {
      PrintableAt(before, i);
      PrintableAt(after, i - |before| - |argument|);
    }
    PrintableFrom(before + argument + after);
  }

  lemma PrintableAt(s: seq<Byte>, i: int)
    requires Printable(s)
    ensures 0 <= i < |s| ==> 32 <= s[i] <= 126
  {
  }

  lemma PrintableFrom(s: seq<Byte>)
    requires forall i :: 0 <= i < |s| ==> 32 <= s[i] <= 126
    ensures Printable(s)
  {
  }

  /** No argument of a valid request can end its command line. */
  lemma ArgumentsArePrintable(r: SendRequest, k: nat)
    requires ValidRequest(r) && k < |r.recipients| + 3
    ensures Printable(CommandLine(r, k))
  {
    hide ValidEhlo, ValidMailbox, Prepared, Printable;
    VerbsArePrintable();
    if k == 0 {
      EhloStaysInLine(r.ehloName);
      Surrounded(Ascii("EHLO "), r.ehloName, []);
      assert Ascii("EHLO ") + r.ehloName + [] == Ascii("EHLO ") + r.ehloName;
    } else if k == 1 {
      if r.from != [] { MailboxStaysInLine(r.from); }
      Surrounded(Ascii("MAIL FROM:<"), r.from, Ascii(">"));
    } else if k < |r.recipients| + 2 {
      MailboxStaysInLine(r.recipients[k - 2]);
      Surrounded(Ascii("RCPT TO:<"), r.recipients[k - 2], Ascii(">"));
    }
  }

  lemma VerbsArePrintable()
    ensures Printable(Ascii("EHLO ")) && Printable(Ascii("MAIL FROM:<")) && Printable(Ascii("RCPT TO:<"))
    ensures Printable(Ascii(">")) && Printable(Ascii("DATA")) && Printable([])
  {
  }

  lemma CommandLineIsUnit(r: SendRequest, k: nat)
    requires k < |r.recipients| + 3
    ensures TlsScript(r)[k] == CommandLine(r, k) + CRLF
    ensures CommandLine(r, k) == Ascii("DATA") <==> k == |r.recipients| + 2
  {
    hide TlsScript;
    if 2 <= k < |r.recipients| + 2 { assert TlsScript(r)[2 + (k - 2)] == RcptCommand(r, k - 2); }
    assert k < |r.recipients| + 2 ==> CommandLine(r, k)[0] != Ascii("DATA")[0];
  }

  /** Everything from unit `k` to the terminator, and `beyond`. */
  function From(r: SendRequest, k: nat, beyond: seq<Byte>): (wire: seq<Byte>)
    requires k <= |r.recipients| + 3
    decreases |r.recipients| + 3 - k
  {
    if k == |r.recipients| + 3 then DataSection(r.message) + beyond
    else CommandLine(r, k) + CRLF + From(r, k + 1, beyond)
  }

  lemma {:induction false} FromIsScript(r: SendRequest, k: nat, beyond: seq<Byte>)
    requires k <= |r.recipients| + 3
    ensures UpTo(TlsScript(r), k) + From(r, k, beyond) == UpTo(TlsScript(r), |r.recipients| + 5) + beyond
    decreases |r.recipients| + 3 - k
  {
    hide TlsScript, UpTo, CommandLine, Stuff, Canonical;
    var units, n := TlsScript(r), |r.recipients|;
    if k == n + 3 {
      UpToNext(units, n + 3);
      UpToNext(units, n + 4);
      Regroup(UpTo(units, n + 3), units[n + 3], units[n + 4], beyond);
    } else {
      CommandLineIsUnit(r, k);
      UpToNext(units, k);
      Regroup(UpTo(units, k), units[k], From(r, k + 1, beyond), []);
      FromIsScript(r, k + 1, beyond);
    }
  }

  lemma {:induction false} ServeFrom(r: SendRequest, k: nat, beyond: seq<Byte>)
    requires ValidRequest(r) && k < |r.recipients| + 3
    ensures Serve(From(r, k, beyond)) == Session(CommandLines(r, k), Mail(Canonical(r.message), beyond))
    decreases |r.recipients| + 3 - k
  {
    hide TlsScript, DataSection, ValidRequest, CommandLine, ReadLine, Receive, Printable;
    ArgumentsArePrintable(r, k);
    CommandLineIsUnit(r, k);
    PrintableLine(CommandLine(r, k), From(r, k + 1, beyond));
    if k == |r.recipients| + 2 {
      PreparedIsRecovered(r.message, beyond) by { assert Prepared(r.message) by { ValidIsPrepared(r); } }
      assert CommandLines(r, k) == [CommandLine(r, k)];
    } else {
      ServeFrom(r, k + 1, beyond);
    }
  }

  lemma ValidIsPrepared(r: SendRequest)
    requires ValidRequest(r)
    ensures Prepared(r.message)
  {
  }

  /** A server reads the transcript as exactly the commands of the request and its message. */
  lemma TranscriptIsTheRequest(r: SendRequest, beyond: seq<Byte>)
    requires ValidRequest(r)
    ensures Serve(UpTo(TlsScript(r), |r.recipients| + 5) + beyond)
         == Session(CommandLines(r, 0), Mail(Canonical(r.message), beyond))
  {
    hide TlsScript, ValidRequest, Serve, CommandLines;
    FromIsScript(r, 0, beyond);
    assert UpTo(TlsScript(r), 0) + From(r, 0, beyond) == From(r, 0, beyond);
    ServeFrom(r, 0, beyond);
  }

  /** A log that stops before the end of the terminator never shows a server a whole mail. */
  lemma NoMailBeforeTerminator(r: SendRequest, log: seq<Byte>)
    requires ValidRequest(r)
    requires log < UpTo(TlsScript(r), |r.recipients| + 5)
    ensures Serve(log).mail.NeedMore?
  {
    hide TlsScript, ValidRequest, Serve, UpTo;
    var whole := UpTo(TlsScript(r), |r.recipients| + 5);
    var more := whole[|log|..];
    assert whole == log + more && whole == whole + [];
    TranscriptIsTheRequest(r, []);
    if Serve(log).mail.Mail? {
      ServePrefix(log, more);
    }
  }

  lemma PrefixesCompare(log: seq<Byte>, part: seq<Byte>, whole: seq<Byte>)
    requires log <= whole && part <= whole
    ensures part <= log || log < part
  {
  }

  /** Either the log holds the DATA section whole, or it is a proper prefix of what leads up to it. */
  lemma LogIsDecided(r: SendRequest, log: seq<Byte>)
    requires log <= UpTo(TlsScript(r), |TlsScript(r)|)
    ensures var whole := UpTo(TlsScript(r), |r.recipients| + 5); whole <= log || log < whole
  {
    hide TlsScript, UpTo;
    UpToGrows(TlsScript(r), |r.recipients| + 5, |TlsScript(r)|);
    PrefixesCompare(log, UpTo(TlsScript(r), |r.recipients| + 5), UpTo(TlsScript(r), |TlsScript(r)|));
  }

  /**
   * Honest outcome: in every run of a valid request, `Accepted` and `Uncertain` mean that a server
   * has read every command and recovers exactly the message, a missing final CRLF added;
   * `NotAccepted` means that no server has seen a whole mail; `Uncertain` is only ever reported
   * while the final answer is outstanding or unintelligible; `Accepted` repeats the server's own
   * final 2xx answer, and `Rejected` the last reply the server sent, at the stage it answers.
   */
  lemma HonestOutcome(r: SendRequest, limit: nat, events: seq<Event>)
    requires ValidRequest(r) && Submittable(r, limit)
    requires Run(r, limit, events).outcome.Some?
    ensures var op := Run(r, limit, events);
            var s := Serve(op.tls.sent);
            match op.outcome.value.delivery
            case Accepted(reply) =>
              && s.commands == CommandLines(r, 0) && s.mail.Mail? && s.mail.content == Canonical(r.message)
              && FinalReplyIndex(r) < |op.tls.replies|
              && var answer := op.tls.replies[FinalReplyIndex(r)];
                 Positive(answer.code) && reply == Summary(answer)
            case Uncertain(stage, _) =>
              && s.commands == CommandLines(r, 0) && s.mail.Mail? && s.mail.content == Canonical(r.message)
              && stage == AtDataResult
            case NotAccepted(_, _) => s.mail.NeedMore?
            case Rejected(stage, reply) =>
              Negative(reply.code) && Ruling(r, op.plain.replies, op.tls.replies) == Some(Rejected(stage, reply))
  {
    hide Ruling, Run, TlsScript, ValidRequest, Serve, UpTo, Feed, ReportShape, MaySendData, CommandLines;
    var op, whole := Run(r, limit, events), UpTo(TlsScript(r), |r.recipients| + 5);
    LogIsDecided(r, op.tls.sent);
    var delivery := op.outcome.value.delivery;
    if delivery.Rejected? { RejectedIffLastReplyRejects(r, limit, events, delivery.stage, delivery.reply); }
    if whole <= op.tls.sent {
      var beyond := op.tls.sent[|whole|..];
      assert op.tls.sent == whole + beyond;
      TranscriptIsTheRequest(r, beyond);
    } else {
      NoMailBeforeTerminator(r, op.tls.sent);
    }
  }
}
