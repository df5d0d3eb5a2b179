/** Facts about sequences that several modules use. */
module Seqs {

  /** Appending is associative; stated once so loops need not rediscover it. */
  lemma AppendAssoc<T>(a: seq<T>, b: seq<T>, c: seq<T>)
    ensures a + (b + c) == (a + b) + c
  {
  }
}
