/** Facts about sequences with one element taken out. */
module Sequences {

  /** Position `i` of `s` without its element `k` holds the element of `s` it came from. */
  lemma RemovedAt<T>(s: seq<T>, k: nat, i: nat)
    requires k < |s| && i < |s| - 1
    ensures |s[..k] + s[k + 1..]| == |s| - 1
    ensures (s[..k] + s[k + 1..])[i] == s[if i < k then i else i + 1]
  {
    if i < k {
      assert (s[..k] + s[k + 1..])[i] == s[..k][i];
    } else {
      assert (s[..k] + s[k + 1..])[i] == s[k + 1..][i - k];
    }
  }
}
