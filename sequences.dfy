/** Sequence helpers shared by the partitioner and the response decoder. */
module Sequences {

  /** The concatenation of a sequence of sequences, in order. */
  function Flatten<T>(c: seq<seq<T>>): seq<T>
  {
    if c == [] then [] else c[0] + Flatten(c[1..])
  }
}
