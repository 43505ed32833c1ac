/** C character strings as the firmware handles them: a `char` is one byte and a string
    ends at its first NUL. */
module CText {

  const NUL: char := '\0'

  /** A value of C's `unsigned char`. */
  type UChar = x: int | 0 <= x < 256

  /** The C string a char buffer holds: every character before the first NUL (or the
      whole buffer when it holds none). This is what `strcmp` compares and what a
      `while ((c = *str++))` loop visits. */
  function CStr(b: seq<char>): (s: seq<char>)
    ensures |s| <= |b| && s == b[..|s|]
    ensures NUL !in s
    ensures |s| < |b| ==> b[|s|] == NUL
  {
    if b == [] || b[0] == NUL then [] else [b[0]] + CStr(b[1..])
  }

  /** The byte a C `char` holds: its low eight bits. */
  function Byte(c: char): bv8
  {
    (c as int % 256) as bv8
  }

  /** The first NUL of a buffer fixes its C string: if the first `n` characters are not
      NUL and the next one is (or the buffer ends there), the string is exactly them. */
  lemma CStrUpTo(b: seq<char>, n: nat)
    requires n <= |b|
    requires forall i :: 0 <= i < n ==> b[i] != NUL
    requires n < |b| ==> b[n] == NUL
    ensures CStr(b) == b[..n]
  {
  }
}
