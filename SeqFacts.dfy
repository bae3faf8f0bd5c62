/** Indexing into concatenations, stated once for the decoders' proofs. */
module SeqFacts {
  lemma Concat3<T>(r0: seq<T>, r1: seq<T>, r2: seq<T>)
    ensures |r0 + r1 + r2| == |r0| + |r1| + |r2|
    ensures forall i :: |r0| <= i < |r0| + |r1| ==> (r0 + r1 + r2)[i] == r1[i - |r0|]
    ensures forall i :: |r0| + |r1| <= i < |r0| + |r1| + |r2| ==> (r0 + r1 + r2)[i] == r2[i - |r0| - |r1|]
  {
  }
}
