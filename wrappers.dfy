/** Small helpers used across the model. */
module Wrappers {

  /** A value that may be absent: JavaScript's `null`/`undefined` for handles and lookups. */
  datatype Option<+T> = None | Some(value: T)

  /** A prefix one element longer is the shorter prefix followed by that element. */
  lemma PrefixGrows<T>(s: seq<T>, i: nat)
    requires i < |s|
    ensures s[..i + 1] == s[..i] + [s[i]]
  {
  }
}
