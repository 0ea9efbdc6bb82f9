/** Facts about sequence concatenation, stated once for every element type. */
module Seqs {
  /** Concatenation is associative. */
  lemma AppendAssoc<T>(a: seq<T>, b: seq<T>, c: seq<T>)
    ensures a + b + c == a + (b + c)
  {
  }

  /** The empty sequence is a right unit of concatenation. */
  lemma AppendEmpty<T>(a: seq<T>)
    ensures a + [] == a
  {
  }

  /** Prepending one element to a display gives the longer display. */
  lemma PrependToSingleton<T>(x: T, y: T)
    ensures [x] + [y] == [x, y]
  {
  }

  lemma PrependToPair<T>(x: T, y: T, z: T)
    ensures [x] + [y, z] == [x, y, z]
  {
  }

  lemma PrependToTriple<T>(w: T, x: T, y: T, z: T)
    ensures [w] + [x, y, z] == [w, x, y, z]
  {
  }

  /** A sequence is a prefix of itself followed by anything. */
  lemma PrefixOfAppend<T>(p: seq<T>, q: seq<T>)
    ensures p <= p + q
  {
  }
}
