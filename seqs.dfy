/** Regrouping lemmas for sequence concatenation, which the record of everything sent to
    the display is built from. */
module Seqs {

  /** Appending two pieces one after the other is appending their concatenation. */
  lemma Associative<T>(s: seq<T>, a: seq<T>, b: seq<T>)
    ensures s + a + b == s + (a + b)
  {
  }

  /** Five single writes in a row extend the record by those five values. */
  lemma AppendFive<T>(w: seq<T>, a: T, b: T, c: T, d: T, e: T)
    ensures w + [a] + [b] + [c] + [d] + [e] == w + [a, b, c, d, e]
  {
  }
}
