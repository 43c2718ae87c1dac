module Strings {
  /** A string longer than all of these, and so none of them. */
  lemma {:induction false} LongerThanAll(used: set<string>) returns (u: string)
    ensures forall v <- used :: |v| < |u|
  {
    u := "x";
    if w :| w in used {
      var longer := LongerThanAll(used - {w});
      u := longer + w + "x";
    }
  }
}
