/** Octets, the ASCII characters the SMTP sender treats specially, and concatenation of chunks. */
module Bytes {

  newtype Byte = b: int | 0 <= b < 256

  const TAB: Byte := 9
  const LF: Byte := 10
  const CR: Byte := 13
  const SPACE: Byte := 32
  const DASH: Byte := 45
  const DOT: Byte := 46
  const ZERO: Byte := 48
  const COLON: Byte := 58
  const AT: Byte := 64
  const TILDE: Byte := 126
  const CRLF: seq<Byte> := [CR, LF]

  datatype Option<+T> = None | Some(value: T)

  /** The octets of an ASCII literal. */
  function Ascii(s: string): (r: seq<Byte>)
    requires forall i :: 0 <= i < |s| ==> s[i] < 128 as char
  {
    seq(|s|, i requires 0 <= i < |s| => s[i] as int as Byte)
  }

  predicate IsDigit(b: Byte) { ZERO <= b <= ZERO + 9 }

  function Bit(condition: bool): (n: nat) { if condition then 1 else 0 }

  /** Printable text or a tab. */
  predicate TextByte(b: Byte) { b == TAB || SPACE <= b <= TILDE }

  predicate IsAlphanumeric(b: Byte) {
    IsDigit(b) || 65 <= b <= 90 || 97 <= b <= 122
  }

  predicate EndsWithCrlf(s: seq<Byte>) {
    |s| >= 2 && s[|s| - 2..] == CRLF
  }

  /** Moves the head of what is left to the end of what is done. */
  lemma MoveHead<T>(done: seq<T>, left: seq<T>, whole: seq<T>)
    requires done + left == whole && left != []
    ensures done + [left[0]] + left[1..] == whole
  {
  }

  function Concat<T>(chunks: seq<seq<T>>): (r: seq<T>) {
    if chunks == [] then [] else chunks[0] + Concat(chunks[1..])
  }

  lemma {:induction false} ConcatAppend<T>(a: seq<seq<T>>, b: seq<seq<T>>)
    ensures Concat(a + b) == Concat(a) + Concat(b)
  {
    if a == [] {
      assert a + b == b;
    } else {
      assert (a + b)[1..] == a[1..] + b;
      ConcatAppend(a[1..], b);
    }
  }

  lemma ConcatSnoc<T>(a: seq<seq<T>>, x: seq<T>)
    ensures Concat(a + [x]) == Concat(a) + x
  {
    ConcatAppend(a, [x]);
    assert Concat([x]) == x + Concat([]);
  }
}
