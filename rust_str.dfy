/** The part of Rust's `str` that the crate's textual dispatch relies on.
    A Rust `str` is a sequence of bytes that is well-formed UTF-8 (the syntax of
    section 4 of RFC 3629); `starts_with`, `is_char_boundary` and slicing with
    `&s[i..]` are the operations the resolver uses on it. */
module RustStr {

  newtype byte = x: int | 0 <= x < 0x100

  /** A UTF-8 continuation byte, `10xxxxxx`. */
  predicate IsTail(b: byte) {
    0x80 <= b <= 0xBF
  }

  predicate IsAscii(s: seq<byte>) {
    forall i :: 0 <= i < |s| ==> s[i] < 0x80
  }

  /** The width of a character whose first byte is `b`, by the first column of
      the table in section 4 of RFC 3629; 0 for a byte no character starts with
      (a continuation byte, 0xC0, 0xC1, or 0xF5 and above). */
  function LeadWidth(b: byte): (n: nat)
    ensures n <= 4
    ensures n > 0 <==> !IsTail(b) && b != 0xC0 && b != 0xC1 && b < 0xF5
  {
    if b <= 0x7F then 1
    else if 0xC2 <= b <= 0xDF then 2
    else if 0xE0 <= b <= 0xEF then 3
    else if 0xF0 <= b <= 0xF4 then 4
    else 0
  }

  /** The range the second byte of a multi-byte character must lie in, given its
      first byte: narrower than a continuation byte after 0xE0, 0xED, 0xF0 and
      0xF4 (this excludes overlong forms, surrogates and code points above
      U+10FFFF). */
  predicate SecondOk(lead: byte, b: byte) {
    if lead == 0xE0 then 0xA0 <= b <= 0xBF
    else if lead == 0xED then 0x80 <= b <= 0x9F
    else if lead == 0xF0 then 0x90 <= b <= 0xBF
    else if lead == 0xF4 then 0x80 <= b <= 0x8F
    else IsTail(b)
  }

  /** The number of bytes of the character that `s` starts with; 0 when `s`
      does not start with a well-formed character. */
  function CharWidth(s: seq<byte>): (n: nat)
    ensures n <= 4 && n <= |s|
    ensures n > 0 ==> !IsTail(s[0])
    ensures forall k :: 1 <= k < n ==> IsTail(s[k])
    ensures |s| > 0 && s[0] < 0x80 ==> n == 1
  {
    if |s| == 0 then 0
    else
      var n := LeadWidth(s[0]);
      if 0 < n <= |s| && (n == 1 || (SecondOk(s[0], s[1]) && forall k :: 2 <= k < n ==> IsTail(s[k])))
      then n else 0
  }

  /** `s` is a sequence of well-formed UTF-8 characters. */
  predicate ValidUtf8(s: seq<byte>)
    decreases |s|
  {
    |s| == 0 || (CharWidth(s) > 0 && ValidUtf8(s[CharWidth(s)..]))
  }

  /** The bytes of a Rust `str`. */
  type Str = s: seq<byte> | ValidUtf8(s)

  /** `str::is_char_boundary`: index 0 and the length are boundaries; an index
      inside the string is one when the byte there is not a continuation byte. */
  predicate IsCharBoundary(s: seq<byte>, i: nat): (b: bool)
    ensures b <==> i <= |s| && (i == 0 || i == |s| || !IsTail(s[i]))
  {
    i == 0 || (if i < |s| then !IsTail(s[i]) else i == |s|)
  }

  /** `str::starts_with` with a `&str` pattern: a byte-wise comparison of the
      first `|needle|` bytes. */
  predicate StartsWith(s: seq<byte>, needle: seq<byte>): (b: bool)
    ensures b <==> |needle| <= |s| && forall k :: 0 <= k < |needle| ==> s[k] == needle[k]
  {
    |needle| <= |s| && s[..|needle|] == needle
  }

  /** `&s[i..]`. Rust panics unless `i` is a character boundary, so that is
      demanded here; the remainder is again a well-formed `str`. */
  function SliceFrom(s: Str, i: nat): (r: Str)
    requires IsCharBoundary(s, i)
    ensures i <= |s| && |r| == |s| - i
    ensures s[..i] + r == s
  {
    SuffixAtBoundary(s, i);
    s[i..]
  }

  /** A well-formed string never starts with a continuation byte. */
  lemma ValidStartsWithLead(s: seq<byte>)
    requires ValidUtf8(s) && |s| > 0
    ensures !IsTail(s[0])
  {
  }

  /** Cutting well-formed UTF-8 at a character boundary leaves well-formed
      UTF-8: this is why the slice `&s[i..]` yields a `str`. */
  lemma {:induction false} SuffixAtBoundary(s: seq<byte>, i: nat)
    requires ValidUtf8(s) && IsCharBoundary(s, i)
    ensures i <= |s| && ValidUtf8(s[i..])
    decreases |s|
  {
    if i == 0 {
      assert s[i..] == s;
    } else if i == |s| {
      assert s[i..] == [];
    } else {
      var n := CharWidth(s);
      FirstCharEndsBefore(s, i);
      var t := s[n..];
      assert t[i - n..] == s[i..];
      SuffixAtBoundary(t, i - n);
    }
  }

  /** A boundary inside a well-formed string lies at or after the end of its
      first character, and stays a boundary once that character is removed. */
  lemma FirstCharEndsBefore(s: seq<byte>, i: nat)
    requires ValidUtf8(s) && 0 < i < |s| && !IsTail(s[i])
    ensures 0 < CharWidth(s) <= i
    ensures ValidUtf8(s[CharWidth(s)..]) && IsCharBoundary(s[CharWidth(s)..], i - CharWidth(s))
  {
  }

  /** Stripping an ASCII prefix from well-formed UTF-8 leaves well-formed UTF-8. */
  lemma {:induction false} AsciiPrefixSuffix(p: seq<byte>, s: seq<byte>)
    requires IsAscii(p) && StartsWith(s, p) && ValidUtf8(s)
    ensures ValidUtf8(s[|p|..])
    decreases |p|
  {
    if |p| > 0 {
      assert CharWidth(s) == 1;
      assert s[1..][..|p| - 1] == p[1..];
      assert s[1..][|p| - 1..] == s[|p|..];
      AsciiPrefixSuffix(p[1..], s[1..]);
    }
  }

  /** The end of an ASCII prefix of well-formed UTF-8 is a character boundary. */
  lemma AsciiPrefixBoundary(p: seq<byte>, s: seq<byte>)
    requires IsAscii(p) && StartsWith(s, p) && ValidUtf8(s)
    ensures IsCharBoundary(s, |p|)
  {
    AsciiPrefixSuffix(p, s);
    if |p| < |s| {
      assert s[|p|..][0] == s[|p|];
      ValidStartsWithLead(s[|p|..]);
    }
  }

  /** An ASCII prefix followed by well-formed UTF-8 is well-formed UTF-8. */
  lemma {:induction false} AsciiConcat(p: seq<byte>, r: seq<byte>)
    requires IsAscii(p) && ValidUtf8(r)
    ensures ValidUtf8(p + r)
    decreases |p|
  {
    if |p| > 0 {
      AsciiConcat(p[1..], r);
      var s := p + r;
      assert CharWidth(s) == 1;
      assert s[1..] == p[1..] + r;
    } else {
      assert p + r == r;
    }
  }

  /** Every ASCII byte sequence is well-formed UTF-8. */
  lemma AsciiIsValid(s: seq<byte>)
    requires IsAscii(s)
    ensures ValidUtf8(s)
  {
    AsciiConcat(s, []);
  }

  /** The bytes of an ASCII string literal, as a `str`. */
  function Ascii(t: string): (r: Str)
    requires forall i :: 0 <= i < |t| ==> t[i] as int < 0x80
    ensures |r| == |t| && IsAscii(r)
    ensures forall i :: 0 <= i < |t| ==> r[i] as int == t[i] as int
  {
    var b := seq(|t|, i requires 0 <= i < |t| => t[i] as int as byte);
    AsciiIsValid(b);
    b
  }
}
