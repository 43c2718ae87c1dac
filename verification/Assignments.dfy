/** Assignments as the hub makes them from the discovered groups (buildAssignment
    in pkg/hub/server.go, assignmentTargetsEqual and emitNewAttaches in
    pkg/hub/watch.go). */
module Assignments {
  import opened Records
  import opened Discovery
  import opened Sequences
  import Strings

  /** What buildAssignment takes from the session and its capture spec. */
  datatype Spec = Spec(session: string, bpfFilter: string, tlsMode: TlsMode, snaplen: nat)

  function TargetFor(spec: Spec, ref: PodRef): Target {
    Target(ref, spec.bpfFilter, spec.tlsMode, spec.snaplen)
  }

  function TargetsOf(spec: Spec, refs: seq<PodRef>): seq<Target> {
    seq(|refs|, i requires 0 <= i < |refs| => TargetFor(spec, refs[i]))
  }

  function AssignmentOf(spec: Spec, group: NodeGroup, stream: string): Assignment {
    Assignment(spec.session, group.node, stream, TargetsOf(spec, group.targets))
  }

  method BuildAssignment(spec: Spec, group: NodeGroup, stream: string) returns (a: Assignment)
    ensures a == AssignmentOf(spec, group, stream)
    ensures a.session == spec.session && a.node == group.node && a.stream == stream
    ensures |a.targets| == |group.targets|
    ensures forall i | 0 <= i < |a.targets| ::
      a.targets[i] == Target(group.targets[i], spec.bpfFilter, spec.tlsMode, spec.snaplen)
  {
    var targets: seq<Target> := [];
    for i := 0 to |group.targets|
      invariant targets == TargetsOf(spec, group.targets)[..i]
    {
      targets := targets + [TargetFor(spec, group.targets[i])];
    }
    a := Assignment(spec.session, group.node, stream, targets);
  }

  function AssignedUids(a: Assignment): set<string> {
    UidsOf(a.targets)
  }

  function Uids(refs: seq<PodRef>): set<string> {
    set p | p in refs :: p.uid
  }

  /** What assignmentTargetsEqual computes: as many, and each of the group's there. */
  predicate TargetsEqual(a: Assignment, group: NodeGroup) {
    |a.targets| == |group.targets| && Uids(group.targets) <= AssignedUids(a)
  }

  lemma UidsCovered(targets: seq<Target>, refs: seq<PodRef>)
    ensures Uids(refs) <= UidsOf(targets) <==> forall p <- refs :: exists t <- targets :: t.pod.uid == p.uid
  {
    forall p | p in refs
      ensures p.uid in UidsOf(targets) <==> exists t <- targets :: t.pod.uid == p.uid
    {}
    if Uids(refs) <= UidsOf(targets) {
      assert forall p <- refs :: p.uid in Uids(refs);
    }
  }

  method AssignmentTargetsEqual(a: Option<Assignment>, group: NodeGroup) returns (equal: bool)
    ensures equal <==> a.Some? && TargetsEqual(a.value, group)
    ensures equal <==>
      && a.Some? && |a.value.targets| == |group.targets|
      && forall p <- group.targets :: exists t <- a.value.targets :: t.pod.uid == p.uid
  {
    if a.None? || |a.value.targets| != |group.targets| {
      return false;
    }
    UidsCovered(a.value.targets, group.targets);
    var targets := a.value.targets;
    var have: set<string> := {};
    for i := 0 to |targets|
      invariant have == set t | t in targets[..i] :: t.pod.uid
    {
      assert targets[..i + 1] == targets[..i] + [targets[i]];
      have := have + {targets[i].pod.uid};
    }
    assert targets[..|targets|] == targets;
    for i := 0 to |group.targets|
      invariant Uids(group.targets[..i]) <= have
    {
      assert group.targets[..i + 1] == group.targets[..i] + [group.targets[i]];
      if group.targets[i].uid !in have {
        assert group.targets[i] in group.targets;
        return false;
      }
    }
    assert group.targets[..|group.targets|] == group.targets;
    equal := true;
  }

  predicate AssignedDistinct(targets: seq<Target>) {
    forall i, j | 0 <= i < j < |targets| :: targets[i].pod.uid != targets[j].pod.uid
  }

  lemma UidsSnoc(front: seq<PodRef>, last: PodRef)
    ensures Uids(front + [last]) == Uids(front) + {last.uid}
    ensures RefsDistinct(front + [last]) <==> RefsDistinct(front) && last.uid !in Uids(front)
  {
    var refs := front + [last];
    if last.uid in Uids(front) {
      var i :| 0 <= i < |front| && front[i].uid == last.uid;
      assert refs[i].uid == refs[|front|].uid;
    } else {
      assert forall i | 0 <= i < |front| :: front[i] in front && refs[i] == front[i];
    }
    assert RefsDistinct(refs) ==> RefsDistinct(front) by {
      assert forall i | 0 <= i < |front| :: refs[i] == front[i];
    }
  }

  lemma {:induction false} UidCount(refs: seq<PodRef>)
    ensures |Uids(refs)| <= |refs|
    ensures |Uids(refs)| == |refs| <==> RefsDistinct(refs)
  {
    if refs == [] {
      assert Uids(refs) == {};
    } else {
      var front, last := refs[..|refs| - 1], refs[|refs| - 1];
      UidCount(front);
      UidsSnoc(front, last);
      assert refs == front + [last];
      if last.uid in Uids(front) {
        assert Uids(refs) == Uids(front);
      }
    }
  }

  function PodsOf(targets: seq<Target>): seq<PodRef> {
    seq(|targets|, i requires 0 <= i < |targets| => targets[i].pod)
  }

  lemma PodsOfUids(a: Assignment)
    ensures Uids(PodsOf(a.targets)) == AssignedUids(a)
    ensures RefsDistinct(PodsOf(a.targets)) <==> AssignedDistinct(a.targets)
  {
    var refs := PodsOf(a.targets);
    forall t | t in a.targets
      ensures t.pod in refs
    {
      var i :| 0 <= i < |a.targets| && a.targets[i] == t;
      assert refs[i] == t.pod;
    }
    forall p | p in refs
      ensures p.uid in AssignedUids(a)
    {
      var i :| 0 <= i < |refs| && refs[i] == p;
      assert a.targets[i] in a.targets;
    }
    assert forall i | 0 <= i < |refs| :: refs[i] == a.targets[i].pod;
  }

  lemma SubsetOfSameSize(xs: set<string>, ys: set<string>)
    requires xs <= ys && |ys| <= |xs|
    ensures xs == ys
  {
    assert ys == xs + (ys - xs);
    assert |ys - xs| == 0;
  }

  /** For a group without duplicates the test is equality of the UID sets of two
      lists without duplicates: a pigeonhole argument. */
  lemma TargetsEqualIsSetEquality(a: Assignment, group: NodeGroup)
    requires RefsDistinct(group.targets)
    ensures TargetsEqual(a, group) <==> AssignedUids(a) == Uids(group.targets) && AssignedDistinct(a.targets)
  {
    PodsOfUids(a);
    UidCount(PodsOf(a.targets));
    UidCount(group.targets);
    if TargetsEqual(a, group) {
      SubsetOfSameSize(Uids(group.targets), AssignedUids(a));
    }
  }

  /** In a group with a repeated UID, replacing one of the two by any other pod
      gives an assignment that passes the test although its UIDs differ. */
  lemma RepeatedUidHidesOther(spec: Spec, group: NodeGroup, i: nat, j: nat, q: PodRef) returns (a: Assignment)
    requires i < j < |group.targets| && group.targets[i].uid == group.targets[j].uid
    requires q.uid !in Uids(group.targets)
    ensures TargetsEqual(a, group) && q.uid in AssignedUids(a)
  {
    var refs := group.targets[j := q];
    a := AssignmentOf(spec, group.(targets := refs), "");
    PodsOfUids(a);
    assert PodsOf(a.targets) == refs;
    assert refs[j] in refs;
    forall p | p in group.targets
      ensures p.uid in Uids(refs)
    {
      var k :| 0 <= k < |group.targets| && group.targets[k] == p;
      assert refs[if k == j then i else k].uid == p.uid;
      assert refs[if k == j then i else k] in refs;
    }
  }

  /** So the test is set equality, for every assignment, exactly for the groups
      without duplicates. */
  lemma SetEqualityExactly(spec: Spec, group: NodeGroup)
    ensures (forall a :: TargetsEqual(a, group) ==> AssignedUids(a) == Uids(group.targets)) <==>
      RefsDistinct(group.targets)
  {
    if RefsDistinct(group.targets) {
      forall a | TargetsEqual(a, group)
        ensures AssignedUids(a) == Uids(group.targets)
      {
        TargetsEqualIsSetEquality(a, group);
      }
    } else {
      var i, j :| 0 <= i < j < |group.targets| && group.targets[i].uid == group.targets[j].uid;
      var unused := Strings.LongerThanAll(Uids(group.targets));
      assert unused !in Uids(group.targets);
      var a := RepeatedUidHidesOther(spec, group, i, j, PodRef("", "", unused, ""));
      assert AssignedUids(a) != Uids(group.targets);
    }
  }

  lemma BuiltIsEqual(spec: Spec, group: NodeGroup, stream: string)
    ensures TargetsEqual(AssignmentOf(spec, group, stream), group)
    ensures AssignedUids(AssignmentOf(spec, group, stream)) == Uids(group.targets)
  {
    var a := AssignmentOf(spec, group, stream);
    PodsOfUids(a);
    assert PodsOf(a.targets) == group.targets;
  }

  /** The UIDs that count as attached already. */
  function Had(prev: Option<Assignment>): set<string> {
    if prev.None? then {} else AssignedUids(prev.value) - {""}
  }

  /** The pods for which emitNewAttaches reports an attach, in group order. */
  function Attaches(had: set<string>, refs: seq<PodRef>): seq<PodRef> {
    if refs == [] then []
    else
      var last := refs[|refs| - 1];
      Attaches(had, refs[..|refs| - 1]) + if last.uid in had then [] else [last]
  }

  /** Some target of `prev` has that UID, and it is one. */
  predicate WasAssigned(prev: Option<Assignment>, uid: string) {
    prev.Some? && uid != "" && exists t <- prev.value.targets :: t.pod.uid == uid
  }

  lemma HadWasAssigned(prev: Option<Assignment>, uid: string)
    ensures uid in Had(prev) <==> WasAssigned(prev, uid)
  {}

  /** The pods reported are those at exactly the positions at which the UID is new,
      in order, so none twice. */
  lemma {:induction false} AttachesAreNew(prev: Option<Assignment>, refs: seq<PodRef>) returns (at: seq<nat>)
    ensures Picks(refs, at, Attaches(Had(prev), refs))
    ensures forall i | 0 <= i < |refs| :: i in at <==> !WasAssigned(prev, refs[i].uid)
  {
    hide Had, WasAssigned;
    if refs == [] {
      at := [];
    } else {
      var n := |refs| - 1;
      HadWasAssigned(prev, refs[n].uid);
      at := AttachesAreNew(prev, refs[..n]);
      PicksNext(refs, n, at, Attaches(Had(prev), refs[..n]));
      assert refs[..n + 1] == refs && forall i | 0 <= i < n :: refs[..n][i] == refs[i];
      if refs[n].uid !in Had(prev) {
        at := at + [n];
      }
    }
  }

  lemma AttachesSnoc(had: set<string>, refs: seq<PodRef>, i: nat)
    requires i < |refs|
    ensures Attaches(had, refs[..i + 1]) == Attaches(had, refs[..i]) + if refs[i].uid in had then [] else [refs[i]]
  {
    assert refs[..i + 1][..i] == refs[..i];
  }

  lemma BuiltTargets(spec: Spec, group: NodeGroup, stream: string)
    ensures PodsOf(AssignmentOf(spec, group, stream).targets) == group.targets
  {}
}
