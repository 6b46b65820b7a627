/**
 * Well-formed UTF-8, as Rust's `String::from_utf8` checks it: the byte
 * sequences of Table 3-7 ("Well-Formed UTF-8 Byte Sequences") in section 3.9
 * of The Unicode Standard.
 */
module Utf8 {
  newtype byte = x: int | 0 <= x < 256

  /** Length of the well-formed sequence that starts `s`, or 0 if `s` does not start with one. */
  function LeadWidth(s: seq<byte>): (n: nat)
    requires |s| > 0
    ensures n <= 4 && n <= |s|
  {
    var b0 := s[0];
    if b0 <= 0x7F then 1
    else if 0xC2 <= b0 <= 0xDF then
      (if |s| >= 2 && IsCont(s[1]) then 2 else 0)
    else if 0xE0 <= b0 <= 0xEF then
      (if |s| >= 3 && InRange(s[1], Lo3(b0), Hi3(b0)) && IsCont(s[2]) then 3 else 0)
    else if 0xF0 <= b0 <= 0xF4 then
      (if |s| >= 4 && InRange(s[1], Lo4(b0), Hi4(b0)) && IsCont(s[2]) && IsCont(s[3]) then 4 else 0)
    else 0
  }

  predicate InRange(b: byte, lo: byte, hi: byte) { lo <= b <= hi }

  /** A continuation byte 10xxxxxx. */
  predicate IsCont(b: byte) { 0x80 <= b <= 0xBF }

  /** Bounds on the second byte of a three-byte sequence (no overlongs, no surrogates). */
  function Lo3(b0: byte): byte { if b0 == 0xE0 then 0xA0 else 0x80 }
  function Hi3(b0: byte): byte { if b0 == 0xED then 0x9F else 0xBF }

  /** Bounds on the second byte of a four-byte sequence (no overlongs, nothing above U+10FFFF). */
  function Lo4(b0: byte): byte { if b0 == 0xF0 then 0x90 else 0x80 }
  function Hi4(b0: byte): byte { if b0 == 0xF4 then 0x8F else 0xBF }

  /** `s` is a concatenation of well-formed UTF-8 sequences. */
  predicate Valid(s: seq<byte>)
    decreases |s|
  {
    s == [] || (LeadWidth(s) > 0 && Valid(s[LeadWidth(s)..]))
  }

  /** The width of a leading sequence depends only on its own bytes. */
  lemma LeadWidthPrefix(a: seq<byte>, b: seq<byte>)
    requires |a| > 0 && LeadWidth(a) > 0
    ensures LeadWidth(a + b) == LeadWidth(a)
  {
  }

  /** Concatenating two well-formed strings gives a well-formed string. */
  lemma {:induction false} ValidConcat(a: seq<byte>, b: seq<byte>)
    requires Valid(a) && Valid(b)
    ensures Valid(a + b)
  {
    if a == [] {
      assert a + b == b;
    } else {
      var n := LeadWidth(a);
      LeadWidthPrefix(a, b);
      assert (a + b)[n..] == a[n..] + b;
      ValidConcat(a[n..], b);
      assert Valid((a + b)[LeadWidth(a + b)..]);
    }
  }

  /** What follows a well-formed prefix of a well-formed string is well formed. */
  lemma {:induction false} ValidSuffix(a: seq<byte>, b: seq<byte>)
    requires Valid(a) && Valid(a + b)
    ensures Valid(b)
  {
    if a == [] {
      assert a + b == b;
    } else {
      var n := LeadWidth(a);
      LeadWidthPrefix(a, b);
      assert (a + b)[n..] == a[n..] + b;
      ValidSuffix(a[n..], b);
    }
  }

  /** Inside a well-formed character, every byte after the first is a continuation byte. */
  lemma InsideCharacterIsCont(s: seq<byte>, p: nat)
    requires 0 < p < |s|
    ensures p < LeadWidth(s) ==> IsCont(s[p])
  {
  }

  /**
   * Self-synchronisation: in a well-formed string, every byte that is not a
   * continuation byte starts a character, so what follows from it is well formed.
   */
  lemma {:induction false} ValidFromBoundary(s: seq<byte>, p: nat)
    requires Valid(s) && p < |s| && !IsCont(s[p])
    ensures Valid(s[p..])
    decreases |s|
  {
    if p > 0 {
      var n := LeadWidth(s);
      InsideCharacterIsCont(s, p);
      var t := s[n..];
      assert t[p - n] == s[p];
      ValidFromBoundary(t, p - n);
      assert t[p - n..] == s[p..];
    }
  }

  /** Every sequence of ASCII bytes is well formed. */
  lemma {:induction false} AsciiValid(s: seq<byte>)
    requires forall i :: 0 <= i < |s| ==> s[i] <= 0x7F
    ensures Valid(s)
  {
    if s != [] {
      assert LeadWidth(s) == 1;
      AsciiValid(s[1..]);
    }
  }

  /** A byte sequence that starts with a continuation byte is not well formed. */
  lemma StartsWithContinuationInvalid(s: seq<byte>)
    requires |s| > 0 && IsCont(s[0])
    ensures !Valid(s)
  {
  }

  /** A byte sequence that ends with the lead byte of a multi-byte sequence is not well formed. */
  lemma {:induction false} EndsWithLeadInvalid(s: seq<byte>)
    requires |s| > 0 && 0xC2 <= s[|s| - 1] <= 0xF4
    ensures !Valid(s)
  {
    var n := LeadWidth(s);
    if 0 < n < |s| {
      var t := s[n..];
      assert t[|t| - 1] == s[|s| - 1];
      EndsWithLeadInvalid(t);
    }
  }
}
