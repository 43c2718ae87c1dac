/** Go channels that are only ever closed, never sent on.

    A channel is a handle into a table of channels. Closing a closed channel
    panics in Go; here it raises a flag that the rest of the project proves
    is never raised. */
module Channels {
  type Chan = nat

  datatype Chans = Chans(next: nat, closed: set<Chan>, panicked: bool) {
    /** The table after make(chan struct{}); the new handle is the old `next`. */
    function Make(): Chans {
      this.(next := next + 1)
    }

    function Close(c: Chan): Chans {
      if c in closed then this.(panicked := true) else this.(closed := closed + {c})
    }

    /** Every channel of `cs` closed, one close each. */
    function CloseAll(cs: set<Chan>): Chans {
      Chans(next, closed + cs, panicked || cs * closed != {})
    }
  }

  /** `s` lists the set `ids`, each member once: one order in which ranging over
      a Go map may visit its keys. */
  ghost predicate Lists<T>(s: seq<T>, ids: set<T>) {
    && (forall i | 0 <= i < |s| :: s[i] in ids)
    && (forall id <- ids :: id in s)
    && NoRepeats(s)
  }

  ghost predicate NoRepeats<T>(s: seq<T>) {
    forall i, j | 0 <= i < j < |s| :: s[i] != s[j]
  }
}
