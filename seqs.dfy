/** Facts about sequence prefixes that the driver loops use. */
module Seqs {
  /** Extending a prefix by one element gives the next prefix. */
  lemma TakeSnoc<T>(s: seq<T>, i: nat)
    requires i < |s|
    ensures s[..i + 1] == s[..i] + [s[i]]
  {
  }
}
