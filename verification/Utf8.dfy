/** Well-formed UTF-8, as `str::from_utf8` accepts it (RFC 3629, section 4). */
module Utf8 {
  import opened Basics

  predicate Continuation(b: Byte) {
    0x80 <= b <= 0xbf
  }

  /** Length of the well-formed character at the head of `s`, or 0. */
  function Width(s: seq<Byte>): (w: nat)
    ensures w <= |s| && w <= 4
  {
    if |s| >= 1 && s[0] < 0x80 then 1
    else if |s| >= 2 && 0xc2 <= s[0] <= 0xdf && Continuation(s[1]) then 2
    else if |s| >= 3 && ThreeByteHead(s[0], s[1]) && Continuation(s[2]) then 3
    else if |s| >= 4 && FourByteHead(s[0], s[1]) && Continuation(s[2]) && Continuation(s[3]) then 4
    else 0
  }

  predicate ThreeByteHead(a: Byte, b: Byte) {
    || (a == 0xe0 && 0xa0 <= b <= 0xbf)
    || (a == 0xed && 0x80 <= b <= 0x9f)
    || ((0xe1 <= a <= 0xec || 0xee <= a <= 0xef) && Continuation(b))
  }

  predicate FourByteHead(a: Byte, b: Byte) {
    || (a == 0xf0 && 0x90 <= b <= 0xbf)
    || (a == 0xf4 && 0x80 <= b <= 0x8f)
    || (0xf1 <= a <= 0xf3 && Continuation(b))
  }

  predicate Valid(s: seq<Byte>) {
    s == [] || (Width(s) > 0 && Valid(s[Width(s)..]))
  }

  predicate Ascii(s: seq<Byte>) {
    forall i :: 0 <= i < |s| ==> s[i] < 0x80
  }

  lemma {:induction false} AsciiIsValid(s: seq<Byte>)
    requires Ascii(s)
    ensures Valid(s)
  {
    if s != [] {
      AsciiIsValid(s[1..]);
    }
  }
}
