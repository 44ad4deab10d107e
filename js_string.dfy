/**
  The two JavaScript string built-ins that the truncation helper relies on,
  written with their JavaScript edge cases: a negative length given to
  `substr` is clamped to zero, a length past the end to the end, and
  `lastIndexOf` answers -1 when the character does not occur.

  JavaScript strings are sequences of UTF-16 code units, while a Dafny `char`
  is a Unicode scalar value. The model therefore covers strings made of
  characters of the Basic Multilingual Plane outside the surrogate range,
  each of which is one code unit.
 */
module JsString {

  /** `s.substr(0, length)`: the first `length` characters of `s`, where a
      negative length counts as zero and a length beyond the end stops at
      the end (section B.2.2.1 of ECMA-262, with start 0). */
  function SubstrFromStart(s: string, length: int): (r: string)
    ensures r <= s
    ensures |r| == if length <= 0 then 0 else if length <= |s| then length else |s|
  {
    if length <= 0 then "" else if length <= |s| then s[..length] else s
  }

  /** `s.lastIndexOf(c)` for a one-character search string: the position of
      the last occurrence of `c` in `s`, or -1 when there is none. */
  function LastIndexOf(s: string, c: char): (r: int)
    ensures -1 <= r < |s|
    ensures 0 <= r ==> s[r] == c
    ensures forall i :: r < i < |s| ==> s[i] != c
    ensures r == -1 <==> c !in s
  {
    if |s| == 0 then -1
    else if s[|s| - 1] == c then |s| - 1
    else LastIndexOf(s[..|s| - 1], c)
  }
}
