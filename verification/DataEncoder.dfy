/** The incremental DATA encoder of smtp/src/data.rs, which never holds a full stuffed copy. */
module DataEncoding {
  import opened Bytes
  import opened DotStuffing

  /**
   * What an encoder at `cursor` still has to emit. With `extraDotPending` the added dot has gone
   * out and the dot it protects has not.
   */
  function Unsent(source: seq<Byte>, cursor: nat, atLineStart: bool, extraDotPending: bool): (r: seq<Byte>)
    requires cursor <= |source|
    decreases |source| - cursor, !extraDotPending
  {
    if cursor == |source| then []
    else if atLineStart && source[cursor] == DOT && !extraDotPending
    then [DOT] + Unsent(source, cursor, false, true)
    else [source[cursor]] + Unsent(source, cursor + 1, source[cursor] == LF, false)
  }

  /** From a clean state the encoder's output is the one-shot stuffing of what it has not read. */
  lemma {:induction false} UnsentIsStuffed(source: seq<Byte>, cursor: nat, atLineStart: bool)
    requires cursor <= |source|
    ensures Unsent(source, cursor, atLineStart, false) == Stuff(source[cursor..], atLineStart)
    decreases |source| - cursor
  {
    if cursor < |source| {
      UnsentIsStuffed(source, cursor + 1, source[cursor] == LF);
      assert source[cursor..][1..] == source[cursor + 1..];
      if atLineStart && source[cursor] == DOT {
        assert [DOT] + ([DOT] + Unsent(source, cursor + 1, false, false))
            == [DOT, DOT] + Unsent(source, cursor + 1, false, false);
      }
    }
  }

  /** One turn of the encoder: the octet it emits, and what is left after it. */
  lemma UnsentTurn(source: seq<Byte>, cursor: nat, atLineStart: bool, extraDotPending: bool)
    requires cursor < |source|
    ensures var rest := Unsent(source, cursor, atLineStart, extraDotPending);
            if atLineStart && source[cursor] == DOT && !extraDotPending
            then rest == [DOT] + Unsent(source, cursor, false, true) && rest[1..] == Unsent(source, cursor, false, true)
            else rest == [source[cursor]] + Unsent(source, cursor + 1, source[cursor] == LF, false)
                 && rest[1..] == Unsent(source, cursor + 1, source[cursor] == LF, false)
  {
  }

  /** The octet at `cursor` of the message followed by the CRLF it may lack. */
  lemma OctetAt(message: seq<Byte>, cursor: nat)
    requires cursor < |Canonical(message)|
    ensures Canonical(message)[cursor]
         == if cursor < |message| then message[cursor] else if cursor == |message| then CR else LF
  {
  }

  class DataEncoder {
    var cursor: nat
    var suffixLen: nat
    var atLineStart: bool
    var extraDotPending: bool

    ghost predicate Valid(message: seq<Byte>)
      reads this
    {
      && |message| + suffixLen == |Canonical(message)|
      && cursor <= |message| + suffixLen
      && (extraDotPending ==> cursor < |message| + suffixLen)
    }

    /** The stuffed octets that have not been handed out. */
    ghost function Rest(message: seq<Byte>): (r: seq<Byte>)
      requires Valid(message)
      reads this
    {
      Unsent(Canonical(message), cursor, atLineStart, extraDotPending)
    }

    /** Octets left to read twice over, less the one already answered by an added dot. */
    ghost function Remaining(message: seq<Byte>): (n: nat)
      requires Valid(message)
      reads this
    {
      2 * (|message| + suffixLen - cursor) - (if extraDotPending then 1 else 0)
    }

    constructor (message: seq<Byte>)
      ensures Valid(message) && Rest(message) == Stuff(Canonical(message), true)
    {
      cursor := 0;
      suffixLen := if EndsWithCrlf(message) then 0 else 2;
      atLineStart := true;
      extraDotPending := false;
      new;
      UnsentIsStuffed(Canonical(message), 0, true);
    }

    predicate Finished(message: seq<Byte>)
      requires Valid(message)
      reads this
      ensures Finished(message) <==> Rest(message) == []
    {
      cursor == |message| + suffixLen && !extraDotPending
    }

    /** Hands out as many of the remaining octets as `limit` allows, exactly and in order. */
    method NextChunk(message: seq<Byte>, limit: nat) returns (chunk: seq<Byte>)
      requires Valid(message)
      modifies this
      ensures Valid(message)
      ensures chunk + Rest(message) == old(Rest(message))
      ensures |chunk| <= limit && (|chunk| < limit ==> Rest(message) == [])
    {
      hide Unsent, Canonical;
      chunk := [];
      ghost var whole, rest := Rest(message), Rest(message);
      while |chunk| < limit && !Finished(message)
        invariant Valid(message) && |chunk| <= limit
        invariant Rest(message) == rest && chunk + rest == whole
        decreases Remaining(message)
      {
        OctetAt(message, cursor);
        UnsentTurn(Canonical(message), cursor, atLineStart, extraDotPending);
        var byte := if cursor < |message| then message[cursor] else if cursor == |message| then CR else LF;
        MoveHead(chunk, rest, whole);
        rest := rest[1..];
        if atLineStart && byte == DOT && !extraDotPending {
          chunk := chunk + [DOT];
          extraDotPending := true;
          atLineStart := false;
          continue;
        }
        chunk := chunk + [byte];
        cursor := cursor + 1;
        extraDotPending := false;
        atLineStart := byte == LF;
      }
    }
  }

  lemma ConcatNothing()
    ensures Concat<Byte>([]) == []
  {
  }

  /**
   * Whatever positive limits the chunks are cut to, a finished encoder has produced the one-shot
   * stuffed message, and an unfinished one a proper prefix of it.
   */
  method EncodeAll(message: seq<Byte>, limits: seq<nat>) returns (chunks: seq<seq<Byte>>, finished: bool)
    requires forall i :: 0 <= i < |limits| ==> limits[i] > 0
    ensures Concat(chunks) <= Stuff(Canonical(message), true)
    ensures finished <==> Concat(chunks) == Stuff(Canonical(message), true)
    ensures |chunks| <= |limits| && (!finished ==> |chunks| == |limits|)
    ensures forall i :: 0 <= i < |chunks| ==> 0 < |chunks[i]| <= limits[i]
  {
    hide DataEncoder.Rest, DataEncoder.Valid, Stuff, Canonical, Concat;
    var encoder := new DataEncoder(message);
    chunks := [];
    assert Concat<Byte>([]) == [] by { ConcatNothing(); }
    ghost var whole := Stuff(Canonical(message), true);
    while |chunks| < |limits| && !encoder.Finished(message)
      invariant fresh(encoder) && encoder.Valid(message)
      invariant Concat(chunks) + encoder.Rest(message) == whole
      invariant |chunks| <= |limits|
      invariant forall i :: 0 <= i < |chunks| ==> 0 < |chunks[i]| <= limits[i]
      decreases |limits| - |chunks|
    {
      var chunk := encoder.NextChunk(message, limits[|chunks|]);
      ConcatSnoc(chunks, chunk);
      assert Concat(chunks) + (chunk + encoder.Rest(message)) == Concat(chunks) + chunk + encoder.Rest(message);
      chunks := chunks + [chunk];
    }
    finished := encoder.Finished(message);
  }
}
