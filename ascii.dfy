/** ASCII case mapping on strings, as Rust's `str::to_ascii_lowercase` and
    `str::eq_ignore_ascii_case` define it: only the letters 'A' to 'Z' change,
    every other character (non-ASCII ones included) is kept as it is. */
module Ascii {

  predicate IsAsciiUpper(c: char) {
    'A' <= c <= 'Z'
  }

  /** `char::to_ascii_lowercase` */
  function LowerChar(c: char): (r: char)
    ensures !IsAsciiUpper(r)
    ensures r == c <==> !IsAsciiUpper(c)
  {
    if IsAsciiUpper(c) then (c as int + 32) as char else c
  }

  /** `str::to_ascii_lowercase`: the same length, each character lowered on its own. */
  function ToAsciiLowercase(s: string): (r: string)
    ensures |r| == |s|
    ensures forall i :: 0 <= i < |s| ==> r[i] == LowerChar(s[i])
  {
    if s == [] then [] else [LowerChar(s[0])] + ToAsciiLowercase(s[1..])
  }

  /** No character of `s` is an upper-case ASCII letter. */
  predicate IsAsciiLowercase(s: string) {
    forall i :: 0 <= i < |s| ==> !IsAsciiUpper(s[i])
  }

  /** `str::eq_ignore_ascii_case`: equal lengths and equal characters up to ASCII case. */
  predicate EqIgnoreAsciiCase(a: string, b: string) {
    |a| == |b| && forall i :: 0 <= i < |a| ==> LowerChar(a[i]) == LowerChar(b[i])
  }

  /** Lowering leaves no upper-case ASCII letter behind. */
  lemma LowercaseIsLowercase(s: string)
    ensures IsAsciiLowercase(ToAsciiLowercase(s))
  {
  }

  /** Lowering changes a string exactly when it holds an upper-case ASCII letter. */
  lemma LowercaseFixesExactlyLowercase(s: string)
    ensures ToAsciiLowercase(s) == s <==> IsAsciiLowercase(s)
  {
  }

  /** Lowering twice is lowering once. */
  lemma LowercaseIdempotent(s: string)
    ensures ToAsciiLowercase(ToAsciiLowercase(s)) == ToAsciiLowercase(s)
  {
  }

  /** Two strings lower to the same string exactly when they are equal up to ASCII case. */
  lemma LowercaseEqualIffEqIgnoreCase(a: string, b: string)
    ensures ToAsciiLowercase(a) == ToAsciiLowercase(b) <==> EqIgnoreAsciiCase(a, b)
  {
  }
}
