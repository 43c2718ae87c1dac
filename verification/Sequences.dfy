module Sequences {
  /** `out` are the elements of `s` at the increasing positions `at`, in order. */
  ghost predicate Picks<T>(s: seq<T>, at: seq<nat>, out: seq<T>) {
    && |out| == |at|
    && (forall k | 0 <= k < |at| :: at[k] < |s| && out[k] == s[at[k]])
    && (forall j, k | 0 <= j < k < |at| :: at[j] < at[k])
  }

  /** One element more, which is picked or not. */
  lemma PicksNext<T>(s: seq<T>, i: nat, at: seq<nat>, out: seq<T>)
    requires i < |s| && Picks(s[..i], at, out)
    ensures Picks(s[..i + 1], at, out) && Picks(s[..i + 1], at + [i], out + [s[i]])
    ensures i !in at && forall k :: k in at + [i] <==> k in at || k == i
  {}
}
