/** Grouping of the discovered pods by node (pkg/hub/discovery/group.go). */
module Discovery {
  import opened Records

  /** A matched pod, as far as grouping looks at it. */
  datatype Pod = Pod(namespace: string, name: string, uid: string, nodeName: Node)

  datatype SkippedPod = SkippedPod(pod: PodRef, reason: string)

  datatype NodeGroup = NodeGroup(node: Node, targets: seq<PodRef>)

  const SKIP_REASON_NO_NODE := "pod has no nodeName assigned"

  function PodRefFromPod(p: Pod): PodRef {
    PodRef(p.namespace, p.name, p.uid, p.nodeName)
  }

  /** The pods on `node`, in input order. */
  function TargetsOn(pods: seq<Pod>, node: Node): seq<PodRef> {
    if pods == [] then []
    else
      var last := pods[|pods| - 1];
      TargetsOn(pods[..|pods| - 1], node) + if last.nodeName == node then [PodRefFromPod(last)] else []
  }

  /** The node names in first-seen order. */
  function NodesOf(pods: seq<Pod>): seq<Node> {
    if pods == [] then []
    else
      var nodes := NodesOf(pods[..|pods| - 1]);
      var node := pods[|pods| - 1].nodeName;
      if node == "" || node in nodes then nodes else nodes + [node]
  }

  function SkipOne(p: Pod): seq<SkippedPod> {
    if p.nodeName == "" then [SkippedPod(PodRefFromPod(p), SKIP_REASON_NO_NODE)] else []
  }

  function SkippedOf(pods: seq<Pod>): seq<SkippedPod> {
    if pods == [] then []
    else
      var last := pods[|pods| - 1];
      SkippedOf(pods[..|pods| - 1]) + SkipOne(last)
  }

  function GroupsOf(pods: seq<Pod>): seq<NodeGroup> {
    var nodes := NodesOf(pods);
    seq(|nodes|, i requires 0 <= i < |nodes| => NodeGroup(nodes[i], TargetsOn(pods, nodes[i])))
  }

  /** The state of the first loop: the order of nodes and their targets so far. */
  ghost predicate GroupedSoFar(pods: seq<Pod>, byNode: map<Node, seq<PodRef>>, order: seq<Node>) {
    && order == NodesOf(pods)
    && (forall n :: n in byNode <==> n in order)
    && forall n <- byNode :: byNode[n] == TargetsOn(pods, n)
  }

  lemma {:induction false} NodesOfAreSeen(pods: seq<Pod>, node: Node)
    ensures node in NodesOf(pods) <==> node != "" && exists i :: 0 <= i < |pods| && pods[i].nodeName == node
    ensures node !in NodesOf(pods) && node != "" ==> TargetsOn(pods, node) == []
  {
    if pods != [] {
      var n := |pods| - 1;
      NodesOfAreSeen(pods[..n], node);
      assert forall i | 0 <= i < n :: pods[..n][i] == pods[i];
      if node in NodesOf(pods[..n]) {
        var i :| 0 <= i < n && pods[..n][i].nodeName == node;
        assert pods[i].nodeName == node;
      }
      forall i | 0 <= i < |pods| && pods[i].nodeName == node
        ensures pods[n].nodeName == node || pods[..n][i].nodeName == node
      {}
    }
  }

  lemma GroupOne(pods: seq<Pod>, i: nat, byNode: map<Node, seq<PodRef>>, order: seq<Node>)
    requires i < |pods| && GroupedSoFar(pods[..i], byNode, order)
    ensures var pod := pods[i];
      if pod.nodeName == "" then GroupedSoFar(pods[..i + 1], byNode, order)
      else
        var before := if pod.nodeName in byNode then byNode[pod.nodeName] else [];
        GroupedSoFar(pods[..i + 1], byNode[pod.nodeName := before + [PodRefFromPod(pod)]],
                     if pod.nodeName in byNode then order else order + [pod.nodeName])
    ensures SkippedOf(pods[..i + 1]) ==
      SkippedOf(pods[..i]) + SkipOne(pods[i])
  {
    assert pods[..i + 1][..i] == pods[..i];
    NodesOfAreSeen(pods[..i], pods[i].nodeName);
    forall n | n in byNode
      ensures n != ""
    {
      NodesOfAreSeen(pods[..i], n);
    }
  }

  method GroupByNode(pods: seq<Pod>) returns (groups: seq<NodeGroup>, skipped: seq<SkippedPod>)
    ensures groups == GroupsOf(pods) && skipped == SkippedOf(pods)
  {
    var byNode: map<Node, seq<PodRef>> := map[];
    var order: seq<Node> := [];
    skipped := [];
    for i := 0 to |pods|
      invariant GroupedSoFar(pods[..i], byNode, order)
      invariant skipped == SkippedOf(pods[..i])
    {
      GroupOne(pods, i, byNode, order);
      var pod := pods[i];
      var ref := PodRefFromPod(pod);
      if pod.nodeName == "" {
        skipped := skipped + [SkippedPod(ref, SKIP_REASON_NO_NODE)];
      } else if pod.nodeName !in byNode {
        order := order + [pod.nodeName];
        byNode := byNode[pod.nodeName := [] + [ref]];
      } else {
        byNode := byNode[pod.nodeName := byNode[pod.nodeName] + [ref]];
      }
    }
    assert pods[..|pods|] == pods;
    groups := CollectGroups(pods, byNode, order);
  }

  /** The second loop: the groups in the order of their nodes. */
  method CollectGroups(pods: seq<Pod>, byNode: map<Node, seq<PodRef>>, order: seq<Node>)
      returns (groups: seq<NodeGroup>)
    requires GroupedSoFar(pods, byNode, order)
    ensures groups == GroupsOf(pods)
  {
    groups := [];
    for i := 0 to |order|
      invariant |groups| == i
      invariant forall k | 0 <= k < i :: groups[k] == NodeGroup(order[k], TargetsOn(pods, order[k]))
    {
      groups := groups + [NodeGroup(order[i], byNode[order[i]])];
    }
  }

  // ---- What the grouping guarantees ----

  /** Where a node is first seen. */
  function FirstIndex(pods: seq<Pod>, node: Node): nat {
    if pods == [] || pods[0].nodeName == node then 0 else 1 + FirstIndex(pods[1..], node)
  }

  lemma {:induction false} FirstIndexIsFirst(pods: seq<Pod>, node: Node)
    ensures FirstIndex(pods, node) <= |pods|
    ensures forall i | 0 <= i < FirstIndex(pods, node) :: pods[i].nodeName != node
    ensures FirstIndex(pods, node) < |pods| ==> pods[FirstIndex(pods, node)].nodeName == node
  {
    if pods != [] && pods[0].nodeName != node {
      FirstIndexIsFirst(pods[1..], node);
      forall i | 0 <= i < FirstIndex(pods, node)
        ensures pods[i].nodeName != node
      {
        assert i > 0 ==> pods[1..][i - 1] == pods[i];
      }
    }
  }

  /** Groups have distinct nodes, in the order in which the nodes are first seen. */
  lemma {:induction false} NodesInFirstSeenOrder(pods: seq<Pod>, a: nat, b: nat)
    requires a < b < |NodesOf(pods)|
    ensures NodesOf(pods)[a] != NodesOf(pods)[b]
    ensures FirstIndex(pods, NodesOf(pods)[a]) < FirstIndex(pods, NodesOf(pods)[b]) < |pods|
  {
    var n := |pods| - 1;
    var nodes := NodesOf(pods[..n]);
    var x, y := NodesOf(pods)[a], NodesOf(pods)[b];
    FirstIndexIsFirst(pods, x);
    FirstIndexIsFirst(pods, y);
    if b < |nodes| {
      NodesInFirstSeenOrder(pods[..n], a, b);
      FirstIndexIsFirst(pods[..n], x);
      FirstIndexIsFirst(pods[..n], y);
      assert forall i | 0 <= i < n :: pods[..n][i] == pods[i];
    } else {
      assert x in nodes && y == pods[n].nodeName && y !in nodes;
      NodesOfAreSeen(pods[..n], x);
      NodesOfAreSeen(pods[..n], y);
      var i :| 0 <= i < n && pods[..n][i].nodeName == x;
      assert pods[i].nodeName == x;
      assert forall k | 0 <= k < n :: pods[..n][k] == pods[k] && pods[k].nodeName != y;
    }
  }

  /** The positions of the pods on `node`, in order. */
  function PositionsOn(pods: seq<Pod>, node: Node): seq<nat> {
    if pods == [] then []
    else PositionsOn(pods[..|pods| - 1], node) + if pods[|pods| - 1].nodeName == node then [|pods| - 1] else []
  }

  /** `at` are positions of pods on `node`, in increasing order. */
  ghost predicate IncreasingOn(pods: seq<Pod>, node: Node, at: seq<nat>) {
    && (forall k | 0 <= k < |at| :: at[k] < |pods| && pods[at[k]].nodeName == node)
    && (forall j, k | 0 <= j < k < |at| :: at[j] < at[k])
  }

  lemma {:induction false} PositionsAreOn(pods: seq<Pod>, node: Node)
    ensures IncreasingOn(pods, node, PositionsOn(pods, node))
  {
    if pods != [] {
      PositionsAreOn(pods[..|pods| - 1], node);
    }
  }

  /** Each position is listed under its pod's node, and only there. */
  lemma {:induction false} PositionsAreAll(pods: seq<Pod>, node: Node, i: nat)
    requires i < |pods|
    ensures i in PositionsOn(pods, node) <==> pods[i].nodeName == node
  {
    var n := |pods| - 1;
    if i < n {
      PositionsAreAll(pods[..n], node, i);
    } else {
      PositionsAreOn(pods[..n], node);
    }
  }

  lemma {:induction false} TargetsAreAtPositions(pods: seq<Pod>, node: Node)
    ensures var at := PositionsOn(pods, node);
      && |TargetsOn(pods, node)| == |at|
      && forall k | 0 <= k < |at| :: at[k] < |pods| && TargetsOn(pods, node)[k] == PodRefFromPod(pods[at[k]])
  {
    if pods != [] {
      TargetsAreAtPositions(pods[..|pods| - 1], node);
    }
  }

  /** A group's targets are the input pods on its node, all of them, in order. */
  lemma {:induction false} TargetsKeepOrder(pods: seq<Pod>, node: Node)
    ensures var at := PositionsOn(pods, node);
      && |TargetsOn(pods, node)| == |at|
      && IncreasingOn(pods, node, at)
      && (forall k | 0 <= k < |at| ::
            var p := pods[at[k]]; TargetsOn(pods, node)[k] == PodRef(p.namespace, p.name, p.uid, node))
      && (forall i | 0 <= i < |pods| :: i in at <==> pods[i].nodeName == node)
  {
    PositionsAreOn(pods, node);
    TargetsAreAtPositions(pods, node);
    forall i | 0 <= i < |pods|
      ensures i in PositionsOn(pods, node) <==> pods[i].nodeName == node
    {
      PositionsAreAll(pods, node, i);
    }
  }

  lemma {:induction false} SkippedKeepOrder(pods: seq<Pod>)
    ensures var at := PositionsOn(pods, "");
      && |SkippedOf(pods)| == |at|
      && forall k | 0 <= k < |at| ::
           && at[k] < |pods|
           && (var p := pods[at[k]];
               SkippedOf(pods)[k] == SkippedPod(PodRef(p.namespace, p.name, p.uid, ""), SKIP_REASON_NO_NODE))
  {
    if pods != [] {
      SkippedKeepOrder(pods[..|pods| - 1]);
    }
  }

  /** Pod `i` lands in `at`, the positions of a group or of the skipped pods. */
  ghost predicate LandsOnce(at: seq<nat>, i: nat) {
    i in at && forall j, k | 0 <= j < k < |at| :: at[j] != at[k]
  }

  /** An order-preserving partition: every pod lands once, in the one group of
      its node or, without a node, among the skipped; no group is empty. */
  lemma {:induction false} Partition(pods: seq<Pod>, i: nat)
    requires i < |pods|
    ensures pods[i].nodeName == "" || pods[i].nodeName in NodesOf(pods)
    ensures LandsOnce(PositionsOn(pods, pods[i].nodeName), i)
    ensures forall node | node != pods[i].nodeName :: i !in PositionsOn(pods, node)
    ensures forall g <- GroupsOf(pods) :: g.targets != [] && g.node != ""
  {
    NodesOfAreSeen(pods, pods[i].nodeName);
    forall node: Node
      ensures node != pods[i].nodeName ==> i !in PositionsOn(pods, node)
    {
      PositionsAreAll(pods, node, i);
    }
    TargetsKeepOrder(pods, pods[i].nodeName);
    forall g | g in GroupsOf(pods)
      ensures g.targets != [] && g.node != ""
    {
      assert g.node in NodesOf(pods);
      NodesOfAreSeen(pods, g.node);
      TargetsKeepOrder(pods, g.node);
    }
  }

  /** What the rest of the hub relies on: well-formed groups with distinct nodes,
      each target on its group's node. */
  ghost predicate WellGrouped(groups: seq<NodeGroup>) {
    && (forall i, j | 0 <= i < j < |groups| :: groups[i].node != groups[j].node)
    && forall i | 0 <= i < |groups| :: GroupOk(groups[i])
  }

  ghost predicate GroupOk(g: NodeGroup) {
    forall k | 0 <= k < |g.targets| :: g.targets[k].node == g.node
  }

  /** The API server gives every pod its own UID. */
  ghost predicate DistinctUids(pods: seq<Pod>) {
    && (forall i, j | 0 <= i < j < |pods| :: pods[i].uid != pods[j].uid)
    && (forall i | 0 <= i < |pods| :: pods[i].uid != "")
  }

  predicate RefsDistinct(refs: seq<PodRef>) {
    forall i, j | 0 <= i < j < |refs| :: refs[i].uid != refs[j].uid
  }

  ghost predicate UidsDistinct(refs: seq<PodRef>) {
    && RefsDistinct(refs)
    && (forall i | 0 <= i < |refs| :: refs[i].uid != "")
  }

  lemma GroupsAreWellFormed(pods: seq<Pod>)
    ensures WellGrouped(GroupsOf(pods))
    ensures DistinctUids(pods) ==> forall g <- GroupsOf(pods) :: UidsDistinct(g.targets)
  {
    var groups := GroupsOf(pods);
    forall i, j | 0 <= i < j < |groups|
      ensures groups[i].node != groups[j].node
    {
      NodesInFirstSeenOrder(pods, i, j);
    }
    forall i | 0 <= i < |groups|
      ensures GroupOk(groups[i]) && (DistinctUids(pods) ==> UidsDistinct(groups[i].targets))
    {
      TargetsKeepOrder(pods, groups[i].node);
    }
  }
}
