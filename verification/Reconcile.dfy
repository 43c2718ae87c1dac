/** One reconcile pass (reconcileSession, ensureNodeAgent, abandonNodeAgent and
    removeNodeAgent in pkg/hub/watch.go).

    What a pass does to the assignments and the events is a function of the
    discovered pods and of the answers the API server gave; the class Reconciler
    below runs the pass in place and is proved against that function. */
module Reconcile {
  import opened Channels
  import opened Records
  import opened Discovery
  import opened Assignments
  import opened Sequences

  datatype AgentPhase = SCHEDULING | READY | CAPTURING | TERMINATING | GONE

  datatype SessionEvent =
    | PodAttached(pod: PodRef)
    | PodDetached(pod: PodRef)
    | AgentState(node: Node, phase: AgentPhase, targets: seq<PodRef>)
    | UpdateFailed(node: Node)

  /** The assignments, how often they have been announced, and the events so far. */
  datatype Plan = Plan(assigns: map<Node, Assignment>, gen: nat, events: seq<SessionEvent>) {
    function Emit(es: seq<SessionEvent>): Plan {
      this.(events := events + es)
    }

    function Assign(node: Node, a: Assignment): Plan {
      this.(assigns := assigns[node := a], gen := gen + 1)
    }

    function Drop(node: Node): Plan {
      this.(assigns := assigns - {node}, gen := gen + 1)
    }
  }

  /** How the path that creates an agent ended. Busy: another call was already
      creating one on the node. */
  datatype Creation = Inactive | Busy | NotCreated | Created(name: string, stream: string, ready: bool)

  /** What the API server answered while one node was looked after. */
  datatype Answer =
    | ListFailed
    | Listed(found: bool, creation: Creation)
    | Removal(deleted: bool)

  function AttachEvents(prev: Option<Assignment>, group: NodeGroup): seq<SessionEvent> {
    Attached(Attaches(Had(prev), group.targets))
  }

  function Attached(refs: seq<PodRef>): seq<SessionEvent> {
    seq(|refs|, i requires 0 <= i < |refs| => PodAttached(refs[i]))
  }

  function DetachEvents(refs: seq<PodRef>): seq<SessionEvent> {
    seq(|refs|, i requires 0 <= i < |refs| => PodDetached(refs[i]))
  }

  /** The agent is there and has an assignment: keep it if the targets are equal. */
  function UpdateNode(p: Plan, spec: Spec, group: NodeGroup): Plan
    requires group.node in p.assigns
  {
    var existing := p.assigns[group.node];
    if TargetsEqual(existing, group) then p
    else
      p.Assign(group.node, AssignmentOf(spec, group, existing.stream))
       .Emit([AgentState(group.node, CAPTURING, group.targets)] + AttachEvents(Some(existing), group))
  }

  /** recordAgent, and after the wait either its attaches or abandonNodeAgent. */
  function CreateNode(p: Plan, spec: Spec, group: NodeGroup, c: Creation): Plan {
    if !c.Created? then p
    else
      var q := p.Assign(group.node, AssignmentOf(spec, group, c.stream))
                .Emit([AgentState(group.node, SCHEDULING, group.targets)]);
      if c.ready then q.Emit([AgentState(group.node, READY, group.targets)] + AttachEvents(None, group))
      else q.Drop(group.node)
  }

  function EnsureNode(p: Plan, spec: Spec, group: NodeGroup, a: Answer): Plan {
    if !a.Listed? then p
    else if a.found && group.node in p.assigns then UpdateNode(p, spec, group)
    else CreateNode(if a.found then p else p.Drop(group.node), spec, group, a.creation)
  }

  /** ensureNodeAgent returns nil. */
  predicate EnsureOk(p: Plan, group: NodeGroup, a: Answer) {
    && a.Listed?
    && ((a.found && group.node in p.assigns) || a.creation.Busy? || (a.creation.Created? && a.creation.ready))
  }

  function RemoveNode(p: Plan, node: Node, a: Answer): Plan {
    if node !in p.assigns then p
    else
      var q := p.Emit([AgentState(node, TERMINATING, [])]);
      if a == Removal(true) then q.Drop(node).Emit([AgentState(node, GONE, [])]) else q
  }

  predicate RemoveOk(p: Plan, node: Node, a: Answer) {
    node in p.assigns ==> a == Removal(true)
  }

  /** The node has pods to capture from. */
  predicate Wanted(desired: map<Node, NodeGroup>, node: Node) {
    node in desired && desired[node].targets != []
  }

  function NodeStep(p: Plan, spec: Spec, desired: map<Node, NodeGroup>, node: Node, a: Answer): Plan {
    if !Wanted(desired, node) then RemoveNode(p, node, a)
    else
      var q := EnsureNode(p, spec, desired[node], a);
      if EnsureOk(p, desired[node], a) then q else q.Emit([UpdateFailed(node)])
  }

  predicate NodeOk(p: Plan, desired: map<Node, NodeGroup>, node: Node, a: Answer) {
    if Wanted(desired, node) then EnsureOk(p, desired[node], a) else RemoveOk(p, node, a)
  }

  /** The nodes are looked after in some order, one answer each. */
  function NodeSteps(p: Plan, spec: Spec, desired: map<Node, NodeGroup>, order: seq<Node>, answers: seq<Answer>): Plan
    requires |order| == |answers|
  {
    if order == [] then p
    else
      var n := |order| - 1;
      NodeStep(NodeSteps(p, spec, desired, order[..n], answers[..n]), spec, desired, order[n], answers[n])
  }

  predicate NodesOk(p: Plan, spec: Spec, desired: map<Node, NodeGroup>, order: seq<Node>, answers: seq<Answer>)
    requires |order| == |answers|
  {
    order != [] ==>
      var n := |order| - 1;
      && NodesOk(p, spec, desired, order[..n], answers[..n])
      && NodeOk(NodeSteps(p, spec, desired, order[..n], answers[..n]), desired, order[n], answers[n])
  }

  lemma NodeStepsSnoc(p: Plan, spec: Spec, desired: map<Node, NodeGroup>, order: seq<Node>, answers: seq<Answer>,
                      node: Node, a: Answer)
    requires |order| == |answers|
    ensures NodeSteps(p, spec, desired, order + [node], answers + [a]) ==
            NodeStep(NodeSteps(p, spec, desired, order, answers), spec, desired, node, a)
    ensures NodesOk(p, spec, desired, order + [node], answers + [a]) <==>
            NodesOk(p, spec, desired, order, answers)
            && NodeOk(NodeSteps(p, spec, desired, order, answers), desired, node, a)
  {
    assert (order + [node])[..|order|] == order && (answers + [a])[..|answers|] == answers;
  }

  function DesiredOf(groups: seq<NodeGroup>): map<Node, NodeGroup> {
    if groups == [] then map[]
    else
      var last := groups[|groups| - 1];
      DesiredOf(groups[..|groups| - 1])[last.node := last]
  }

  /** The UIDs currentTargets knows. */
  function CurrentUids(assigns: map<Node, Assignment>): set<string> {
    set node, t | node in assigns && t in assigns[node].targets && t.pod.uid != "" :: t.pod.uid
  }

  /** The pod is that of a target of some assignment. */
  predicate IsCurrent(assigns: map<Node, Assignment>, r: PodRef) {
    exists node <- assigns :: exists t <- assigns[node].targets :: t.pod == r
  }

  function DesiredUids(groups: seq<NodeGroup>): set<string> {
    set g, p | g in groups && p in g.targets :: p.uid
  }

  /** `refs` are the pods to detach: assigned ones, one for each current UID that is
      not desired. */
  ghost predicate Detaches(assigns: map<Node, Assignment>, groups: seq<NodeGroup>, refs: seq<PodRef>) {
    && RefsDistinct(refs)
    && (forall r <- refs :: IsCurrent(assigns, r))
    && Uids(refs) == CurrentUids(assigns) - DesiredUids(groups)
  }

  /** A pass over the listing: what was detached, then the nodes. A pass whose
      context is cancelled ends with the node `cut` that then failed. */
  datatype Pass = Pass(detached: seq<PodRef>, order: seq<Node>, answers: seq<Answer>, cut: Option<(Node, Answer)>)

  ghost predicate PassOf(p: Plan, groups: seq<NodeGroup>, pass: Pass) {
    && Detaches(p.assigns, groups, pass.detached)
    && |pass.order| == |pass.answers|
    && NoRepeats(pass.order)
    && forall node <- pass.order :: node in DesiredOf(groups).Keys + p.assigns.Keys
  }

  /** ... that was not cut short by a cancelled context. */
  ghost predicate WholePassOf(p: Plan, groups: seq<NodeGroup>, pass: Pass) {
    && PassOf(p, groups, pass) && pass.cut.None?
    && forall node <- DesiredOf(groups).Keys + p.assigns.Keys :: node in pass.order
  }

  function Start(p: Plan, pass: Pass): Plan {
    p.Emit(DetachEvents(pass.detached))
  }

  function AfterPass(p: Plan, spec: Spec, groups: seq<NodeGroup>, pass: Pass): Plan
    requires |pass.order| == |pass.answers|
  {
    var q := NodeSteps(Start(p, pass), spec, DesiredOf(groups), pass.order, pass.answers);
    if pass.cut.Some? && pass.cut.value.0 in DesiredOf(groups) then
      EnsureNode(q, spec, DesiredOf(groups)[pass.cut.value.0], pass.cut.value.1)
    else q
  }

  /** No node's step returned an error, and none was left to somebody else. */
  ghost predicate ErrorFree(p: Plan, spec: Spec, groups: seq<NodeGroup>, pass: Pass)
    requires |pass.order| == |pass.answers|
  {
    && pass.cut.None?
    && NodesOk(Start(p, pass), spec, DesiredOf(groups), pass.order, pass.answers)
    && NoneBusy(pass.answers)
  }

  /** Every agent that was looked for was there. */
  ghost predicate AllFound(pass: Pass) {
    forall a <- pass.answers :: a.Listed? ==> a.found
  }

  // ---- What a pass achieves ----

  predicate Settled(p: Plan, desired: map<Node, NodeGroup>, node: Node) {
    if Wanted(desired, node) then node in p.assigns && TargetsEqual(p.assigns[node], desired[node])
    else node !in p.assigns
  }

  /** The assignments are those of the groups. */
  ghost predicate Converged(p: Plan, groups: seq<NodeGroup>) {
    forall node: Node :: Settled(p, DesiredOf(groups), node)
  }

  lemma NodeStepIsLocal(p: Plan, spec: Spec, desired: map<Node, NodeGroup>, node: Node, a: Answer, other: Node)
    requires Wanted(desired, node) ==> desired[node].node == node
    requires other != node
    ensures var q := NodeStep(p, spec, desired, node, a);
      && (other in q.assigns <==> other in p.assigns)
      && (other in p.assigns ==> q.assigns[other] == p.assigns[other])
  {}

  lemma NodeStepSettles(p: Plan, spec: Spec, desired: map<Node, NodeGroup>, node: Node, a: Answer)
    requires Wanted(desired, node) ==> desired[node].node == node
    requires NodeOk(p, desired, node, a) && (a.Listed? ==> !a.creation.Busy?)
    ensures Settled(NodeStep(p, spec, desired, node, a), desired, node)
  {
    if Wanted(desired, node) {
      if a.found && node in p.assigns {
        BuiltIsEqual(spec, desired[node], p.assigns[node].stream);
      } else {
        BuiltIsEqual(spec, desired[node], a.creation.stream);
      }
    }
  }

  ghost predicate NodesMatch(desired: map<Node, NodeGroup>) {
    forall node <- desired :: desired[node].node == node
  }

  lemma {:induction false} DesiredIsGrouped(groups: seq<NodeGroup>)
    ensures NodesMatch(DesiredOf(groups))
    ensures forall node <- DesiredOf(groups) :: DesiredOf(groups)[node] in groups
    ensures forall g <- groups :: g.node in DesiredOf(groups)
    ensures WellGrouped(groups) ==> forall g <- groups :: DesiredOf(groups)[g.node] == g
  {
    if groups != [] {
      var n := |groups| - 1;
      DesiredIsGrouped(groups[..n]);
      assert groups == groups[..n] + [groups[n]];
      if WellGrouped(groups) {
        assert WellGrouped(groups[..n]);
        forall g | g in groups[..n]
          ensures g.node != groups[n].node
        {
          var i :| 0 <= i < n && groups[i] == g;
        }
      }
    }
  }

  lemma {:induction false} NodeStepsSettle(p: Plan, spec: Spec, desired: map<Node, NodeGroup>,
                                           order: seq<Node>, answers: seq<Answer>, node: Node)
    requires |order| == |answers| && NoRepeats(order) && NodesMatch(desired)
    requires NodesOk(p, spec, desired, order, answers)
    requires NoneBusy(answers)
    ensures var q := NodeSteps(p, spec, desired, order, answers);
      if node in order then Settled(q, desired, node)
      else (node in q.assigns <==> node in p.assigns) && (node in p.assigns ==> q.assigns[node] == p.assigns[node])
    decreases |order|
  {
    if order != [] {
      var n := |order| - 1;
      var q := NodeSteps(p, spec, desired, order[..n], answers[..n]);
      NodeStepsSettle(p, spec, desired, order[..n], answers[..n], node);
      assert answers[n] in answers;
      if node == order[n] {
        NodeStepSettles(q, spec, desired, node, answers[n]);
      } else {
        NodeStepIsLocal(q, spec, desired, order[n], answers[n], node);
        assert node in order <==> node in order[..n];
      }
    }
  }

  /** An error-free pass converges: exactly the nodes with something to capture
      have an assignment, and its UIDs are the group's. */
  lemma Converges(p: Plan, spec: Spec, groups: seq<NodeGroup>, pass: Pass)
    requires WholePassOf(p, groups, pass) && ErrorFree(p, spec, groups, pass)
    ensures Converged(AfterPass(p, spec, groups, pass), groups)
  {
    DesiredIsGrouped(groups);
    forall node: Node
      ensures Settled(AfterPass(p, spec, groups, pass), DesiredOf(groups), node)
    {
      NodeStepsSettle(Start(p, pass), spec, DesiredOf(groups), pass.order, pass.answers, node);
    }
  }

  /** What that means for the listing it was made from. */
  lemma ConvergedMeans(p: Plan, pods: seq<Discovery.Pod>, node: Node)
    requires DistinctUids(pods) && Converged(p, GroupsOf(pods))
    ensures node in p.assigns <==> node in NodesOf(pods)
    ensures node in p.assigns ==> AssignedUids(p.assigns[node]) == Uids(TargetsOn(pods, node))
  {
    var groups := GroupsOf(pods);
    DesiredIsGrouped(groups);
    GroupsAreWellFormed(pods);
    assert Settled(p, DesiredOf(groups), node);
    assert forall g <- groups :: g.node in NodesOf(pods);
    if node in NodesOf(pods) {
      var i :| 0 <= i < |NodesOf(pods)| && NodesOf(pods)[i] == node;
      assert groups[i] in groups;
      GroupsHaveTargets(pods, groups[i]);
      TargetsEqualIsSetEquality(p.assigns[node], groups[i]);
    }
  }

  lemma GroupsHaveTargets(pods: seq<Discovery.Pod>, g: NodeGroup)
    requires g in GroupsOf(pods)
    ensures g.targets != []
  {
    NodesOfAreSeen(pods, g.node);
    var i :| 0 <= i < |pods| && pods[i].nodeName == g.node;
    Partition(pods, i);
  }

  lemma NothingToDetach(p: Plan, groups: seq<NodeGroup>)
    requires WellGrouped(groups) && (forall g <- groups :: RefsDistinct(g.targets)) && Converged(p, groups)
    ensures CurrentUids(p.assigns) <= DesiredUids(groups)
  {
    DesiredIsGrouped(groups);
    forall node, t | node in p.assigns && t in p.assigns[node].targets
      ensures t.pod.uid in DesiredUids(groups)
    {
      assert Settled(p, DesiredOf(groups), node);
      var g := DesiredOf(groups)[node];
      TargetsEqualIsSetEquality(p.assigns[node], g);
      assert t.pod.uid in Uids(g.targets);
      var r :| r in g.targets && r.uid == t.pod.uid;
    }
  }

  lemma FirstUid(refs: seq<PodRef>)
    requires refs != []
    ensures Uids(refs) != {}
  {
    assert refs[0].uid in Uids(refs);
  }

  lemma {:induction false} NodeStepsStand(p: Plan, spec: Spec, desired: map<Node, NodeGroup>,
                                          order: seq<Node>, answers: seq<Answer>)
    requires |order| == |answers| && NodesMatch(desired)
    requires forall node <- order :: Settled(p, desired, node)
    requires NodesOk(p, spec, desired, order, answers)
    requires forall a <- answers :: a.Listed? ==> a.found
    ensures NodeSteps(p, spec, desired, order, answers) == p
    decreases |order|
  {
    if order != [] {
      var n := |order| - 1;
      assert order[n] in order && answers[n] in answers;
      NodeStepsStand(p, spec, desired, order[..n], answers[..n]);
    }
  }

  /** A converged plan is a fixpoint: a pass on the same groups that finds every
      agent changes no assignment, announces nothing and emits nothing. */
  lemma Fixpoint(p: Plan, spec: Spec, groups: seq<NodeGroup>, pass: Pass)
    requires WellGrouped(groups) && (forall g <- groups :: RefsDistinct(g.targets)) && Converged(p, groups)
    requires PassOf(p, groups, pass) && ErrorFree(p, spec, groups, pass) && AllFound(pass)
    ensures AfterPass(p, spec, groups, pass) == p
  {
    NothingToDetach(p, groups);
    DesiredIsGrouped(groups);
    assert Uids(pass.detached) == {};
    if pass.detached != [] {
      FirstUid(pass.detached);
    }
    assert Start(p, pass) == p;
    NodeStepsStand(p, spec, DesiredOf(groups), pass.order, pass.answers);
  }

  /** Both together, from the listing on. */
  lemma SecondPassIsQuiet(p: Plan, spec: Spec, pods: seq<Discovery.Pod>, first: Pass, second: Pass)
    requires DistinctUids(pods)
    requires WholePassOf(p, GroupsOf(pods), first) && ErrorFree(p, spec, GroupsOf(pods), first)
    requires PassOf(AfterPass(p, spec, GroupsOf(pods), first), GroupsOf(pods), second)
    requires ErrorFree(AfterPass(p, spec, GroupsOf(pods), first), spec, GroupsOf(pods), second) && AllFound(second)
    ensures AfterPass(AfterPass(p, spec, GroupsOf(pods), first), spec, GroupsOf(pods), second) ==
            AfterPass(p, spec, GroupsOf(pods), first)
  {
    GroupsAreWellFormed(pods);
    Converges(p, spec, GroupsOf(pods), first);
    Fixpoint(AfterPass(p, spec, GroupsOf(pods), first), spec, GroupsOf(pods), second);
  }

  // ---- The events of a pass ----

  /** `es` attach, in order, the pods at exactly those positions of `refs` whose UID
      is not the non-empty UID of a target of `prev`. */
  ghost predicate AttachesNew(prev: Option<Assignment>, refs: seq<PodRef>, es: seq<SessionEvent>) {
    exists at :: AttachesAt(prev, refs, at, es)
  }

  ghost predicate AttachesAt(prev: Option<Assignment>, refs: seq<PodRef>, at: seq<nat>, es: seq<SessionEvent>) {
    && |es| == |at|
    && (forall k | 0 <= k < |at| :: at[k] < |refs| && es[k] == PodAttached(refs[at[k]]))
    && (forall j, k | 0 <= j < k < |at| :: at[j] < at[k])
    && forall i | 0 <= i < |refs| :: i in at <==>
         !(prev.Some? && refs[i].uid != "" && exists t <- prev.value.targets :: t.pod.uid == refs[i].uid)
  }

  lemma AttachEventsAreNew(prev: Option<Assignment>, group: NodeGroup)
    ensures AttachesNew(prev, group.targets, AttachEvents(prev, group))
  {
    var at := AttachesAreNew(prev, group.targets);
    assert AttachesAt(prev, group.targets, at, AttachEvents(prev, group));
  }

  /** A node that has its agent and an assignment: nothing happens if the targets are
      the group's; else the group is announced as captured from, and exactly the pods
      that were not assigned are attached. */
  lemma HotUpdate(p: Plan, spec: Spec, desired: map<Node, NodeGroup>, node: Node, creation: Creation)
      returns (es: seq<SessionEvent>)
    requires Wanted(desired, node) && desired[node].node == node && node in p.assigns
    ensures var q := NodeStep(p, spec, desired, node, Listed(true, creation));
      if TargetsEqual(p.assigns[node], desired[node]) then q == p
      else
        && q.events == p.events + [AgentState(node, CAPTURING, desired[node].targets)] + es
        && AttachesNew(Some(p.assigns[node]), desired[node].targets, es)
        && q.gen == p.gen + 1 && node in q.assigns && q.assigns[node].stream == p.assigns[node].stream
        && PodsOf(q.assigns[node].targets) == desired[node].targets
  {
    hide AttachesNew, AttachEvents, TargetsEqual;
    es := AttachEvents(Some(p.assigns[node]), desired[node]);
    AttachEventsAreNew(Some(p.assigns[node]), desired[node]);
    BuiltTargets(spec, desired[node], p.assigns[node].stream);
  }

  /** A node that gets a new agent: it is announced as scheduled and, once ready, as
      such, and all its pods are attached; if it does not get ready the node is left
      without an assignment, and a failure is reported. */
  lemma NewAgent(p: Plan, spec: Spec, desired: map<Node, NodeGroup>, node: Node, name: string, stream: string,
                 ready: bool)
    requires Wanted(desired, node) && desired[node].node == node
    ensures var q := NodeStep(p, spec, desired, node, Listed(false, Created(name, stream, ready)));
      var refs := desired[node].targets;
      if ready then
        && q.events == p.events + [AgentState(node, SCHEDULING, refs), AgentState(node, READY, refs)] + Attached(refs)
        && node in q.assigns && q.assigns[node].stream == stream && PodsOf(q.assigns[node].targets) == refs
      else
        && q.events == p.events + [AgentState(node, SCHEDULING, refs), UpdateFailed(node)]
        && node !in q.assigns
  {
    AllAttach(desired[node].targets);
    BuiltTargets(spec, desired[node], stream);
  }

  lemma {:induction false} AllAttach(refs: seq<PodRef>)
    ensures Attaches(Had(None), refs) == refs
  {
    if refs != [] {
      AllAttach(refs[..|refs| - 1]);
    }
  }

  /** The UIDs that a client knows as attached who follows the events. */
  function Follow(known: set<string>, es: seq<SessionEvent>): set<string> {
    if es == [] then known
    else
      var before := Follow(known, es[..|es| - 1]);
      match es[|es| - 1]
      case PodAttached(pod) => before + {pod.uid}
      case PodDetached(pod) => before - {pod.uid}
      case _ => before
  }

  lemma {:induction false} FollowOn(known: set<string>, a: seq<SessionEvent>, b: seq<SessionEvent>)
    ensures Follow(known, a + b) == Follow(Follow(known, a), b)
  {
    if b == [] {
      assert a + b == a;
    } else {
      var n := |b| - 1;
      assert (a + b)[..|a| + n] == a + b[..n];
      FollowOn(known, a, b[..n]);
    }
  }

  lemma {:induction false} FollowDetached(known: set<string>, refs: seq<PodRef>)
    ensures Follow(known, DetachEvents(refs)) == known - Uids(refs)
  {
    if refs != [] {
      var n := |refs| - 1;
      FollowDetached(known, refs[..n]);
      assert DetachEvents(refs)[..n] == DetachEvents(refs[..n]);
      UidsSnoc(refs[..n], refs[n]);
      assert refs == refs[..n] + [refs[n]];
    }
  }

  lemma {:induction false} FollowAttached(known: set<string>, refs: seq<PodRef>)
    ensures Follow(known, Attached(refs)) == known + Uids(refs)
  {
    if refs != [] {
      var n := |refs| - 1;
      FollowAttached(known, refs[..n]);
      assert Attached(refs)[..n] == Attached(refs[..n]);
      UidsSnoc(refs[..n], refs[n]);
      assert refs == refs[..n] + [refs[n]];
    }
  }

  lemma FollowAgentState(known: set<string>, e: SessionEvent, es: seq<SessionEvent>)
    requires e.AgentState?
    ensures Follow(known, [e] + es) == Follow(known, es)
  {
    FollowOn(known, [e], es);
    assert Follow(known, [e][..0]) == known;
  }

  /** Attaching what is new leaves a client, who knew what was not, knowing all. */
  lemma FollowAttaches(known: set<string>, prev: Option<Assignment>, group: NodeGroup)
    requires prev.Some? ==> AssignedUids(prev.value) * Uids(group.targets) <= known
    ensures Follow(known, AttachEvents(prev, group)) == known + Uids(group.targets)
  {
    var refs := Attaches(Had(prev), group.targets);
    FollowAttached(known, refs);
    var at := AttachesAreNew(prev, group.targets);
    forall p | p in group.targets
      ensures p.uid in known + Uids(refs)
    {
      var i :| 0 <= i < |group.targets| && group.targets[i] == p;
      if i in at {
        var k :| 0 <= k < |at| && at[k] == i;
        assert refs[k] == p && refs[k] in refs;
      } else {
        assert p.uid in Uids(group.targets);
      }
    }
    forall r | r in refs
      ensures r.uid in Uids(group.targets)
    {
      var k :| 0 <= k < |refs| && refs[k] == r;
      assert group.targets[at[k]] in group.targets;
    }
  }

  function WantedUids(desired: map<Node, NodeGroup>, node: Node): set<string> {
    if Wanted(desired, node) then Uids(desired[node].targets) else {}
  }

  /** A client who knew those of a node's pods that were assigned and are still
      wanted knows, after the node has been looked after, all that are wanted. */
  lemma NodeFollowed(p: Plan, spec: Spec, desired: map<Node, NodeGroup>, node: Node, a: Answer, known: set<string>)
      returns (es: seq<SessionEvent>)
    requires Wanted(desired, node) ==> desired[node].node == node
    requires NodeOk(p, desired, node, a) && (a.Listed? ==> !a.creation.Busy?)
    requires node in p.assigns ==> AssignedUids(p.assigns[node]) * WantedUids(desired, node) <= known
    ensures NodeStep(p, spec, desired, node, a).events == p.events + es
    ensures Follow(known, es) == known + WantedUids(desired, node)
  {
    if !Wanted(desired, node) {
      es := if node in p.assigns then [AgentState(node, TERMINATING, [])] + [AgentState(node, GONE, [])] else [];
      if node in p.assigns {
        FollowAgentState(known, AgentState(node, TERMINATING, []), [AgentState(node, GONE, [])]);
      }
    } else if a.found && node in p.assigns {
      es := FoundFollowed(p, spec, desired, node, a, known);
    } else {
      var refs := desired[node].targets;
      es := [AgentState(node, READY, refs)] + AttachEvents(None, desired[node]);
      FollowAgentState(known, AgentState(node, SCHEDULING, refs), es);
      FollowAgentState(known, AgentState(node, READY, refs), AttachEvents(None, desired[node]));
      FollowAttaches(known, None, desired[node]);
      es := [AgentState(node, SCHEDULING, refs)] + es;
    }
  }

  lemma FoundFollowed(p: Plan, spec: Spec, desired: map<Node, NodeGroup>, node: Node, a: Answer, known: set<string>)
      returns (es: seq<SessionEvent>)
    requires Wanted(desired, node) && desired[node].node == node && a.Listed? && a.found && node in p.assigns
    requires AssignedUids(p.assigns[node]) * Uids(desired[node].targets) <= known
    ensures NodeStep(p, spec, desired, node, a).events == p.events + es
    ensures Follow(known, es) == known + Uids(desired[node].targets)
  {
    var existing, group := p.assigns[node], desired[node];
    if TargetsEqual(existing, group) {
      es := [];
      assert Uids(group.targets) == AssignedUids(existing) * Uids(group.targets);
    } else {
      es := [AgentState(node, CAPTURING, group.targets)] + AttachEvents(Some(existing), group);
      FollowAgentState(known, AgentState(node, CAPTURING, group.targets), AttachEvents(Some(existing), group));
      FollowAttaches(known, Some(existing), group);
    }
  }

  function AllWantedUids(desired: map<Node, NodeGroup>, order: seq<Node>): set<string> {
    if order == [] then {}
    else AllWantedUids(desired, order[..|order| - 1]) + WantedUids(desired, order[|order| - 1])
  }

  lemma {:induction false} NodesFollowed(p: Plan, spec: Spec, desired: map<Node, NodeGroup>, order: seq<Node>,
                                         answers: seq<Answer>, known: set<string>)
      returns (es: seq<SessionEvent>)
    requires |order| == |answers| && NoRepeats(order) && NodesMatch(desired)
    requires NodesOk(p, spec, desired, order, answers) && NoneBusy(answers)
    requires forall node <- order | node in p.assigns ::
      AssignedUids(p.assigns[node]) * WantedUids(desired, node) <= known
    ensures NodeSteps(p, spec, desired, order, answers).events == p.events + es
    ensures Follow(known, es) == known + AllWantedUids(desired, order)
    decreases |order|
  {
    hide NodeStep, NodeOk, WantedUids, Follow;
    es := [];
    if order == [] {
      assert Follow(known, es) == known by { FollowNothing(known); }
    } else {
      var n := |order| - 1;
      assert order[n] in order && answers[n] in answers && order[n] !in order[..n];
      es := NodesFollowed(p, spec, desired, order[..n], answers[..n], known);
      NodeStepsSettle(p, spec, desired, order[..n], answers[..n], order[n]);
      var q := NodeSteps(p, spec, desired, order[..n], answers[..n]);
      var more := NodeFollowed(q, spec, desired, order[n], answers[n], Follow(known, es));
      FollowOn(known, es, more);
      es := es + more;
    }
  }

  lemma FollowNothing(known: set<string>)
    ensures Follow(known, []) == known
  {}

  lemma {:induction false} AllWantedAre(desired: map<Node, NodeGroup>, order: seq<Node>, uid: string)
    ensures uid in AllWantedUids(desired, order) <==>
      exists node <- order :: uid in WantedUids(desired, node)
  {
    if order != [] {
      var n := |order| - 1;
      AllWantedAre(desired, order[..n], uid);
      assert order == order[..n] + [order[n]];
    }
  }

  lemma DesiredAreWanted(groups: seq<NodeGroup>, order: seq<Node>)
    requires WellGrouped(groups) && forall node <- DesiredOf(groups) :: node in order
    ensures AllWantedUids(DesiredOf(groups), order) == DesiredUids(groups)
  {
    DesiredIsGrouped(groups);
    forall uid: string
      ensures uid in AllWantedUids(DesiredOf(groups), order) <==> uid in DesiredUids(groups)
    {
      AllWantedAre(DesiredOf(groups), order, uid);
      if uid in DesiredUids(groups) {
        var g, p :| g in groups && p in g.targets && p.uid == uid;
        assert uid in WantedUids(DesiredOf(groups), g.node);
      }
    }
  }

  lemma CurrentIsDesired(p: Plan, groups: seq<NodeGroup>)
    requires WellGrouped(groups) && (forall g <- groups :: UidsDistinct(g.targets)) && Converged(p, groups)
    ensures CurrentUids(p.assigns) == DesiredUids(groups)
  {
    NothingToDetach(p, groups);
    DesiredIsGrouped(groups);
    forall uid | uid in DesiredUids(groups)
      ensures uid in CurrentUids(p.assigns)
    {
      var g, r :| g in groups && r in g.targets && r.uid == uid;
      var i :| 0 <= i < |g.targets| && g.targets[i] == r;
      assert Settled(p, DesiredOf(groups), g.node);
      assert uid in Uids(g.targets);
      var t :| t in p.assigns[g.node].targets && t.pod.uid == uid;
    }
  }

  lemma PassFollowed(p: Plan, spec: Spec, groups: seq<NodeGroup>, pass: Pass) returns (es: seq<SessionEvent>)
    requires WellGrouped(groups) && forall g <- groups :: UidsDistinct(g.targets)
    requires WholePassOf(p, groups, pass) && ErrorFree(p, spec, groups, pass)
    ensures AfterPass(p, spec, groups, pass).events == p.events + es
    ensures Follow(CurrentUids(p.assigns), es) == DesiredUids(groups)
  {
    hide UidsDistinct, NodesOk, NoneBusy, CurrentUids, DesiredUids, AllWantedUids, WantedUids;
    var current, detached := CurrentUids(p.assigns), DetachEvents(pass.detached);
    FollowDetached(current, pass.detached);
    var known := Follow(current, detached);
    assert known == current * DesiredUids(groups);
    forall node | node in pass.order && node in p.assigns
      ensures AssignedUids(p.assigns[node]) * WantedUids(DesiredOf(groups), node) <= known
    {
      StillKnown(p, groups, node);
    }
    DesiredIsGrouped(groups);
    var more := NodesFollowed(Start(p, pass), spec, DesiredOf(groups), pass.order, pass.answers, known);
    FollowOn(current, detached, more);
    es := detached + more;
    DesiredAreWanted(groups, pass.order);
  }

  /** The events tell the pods: a client who follows the attach and detach events of
      an error-free pass, and knew the pods assigned before it, knows the pods
      assigned after it. */
  lemma EventsTellThePods(p: Plan, spec: Spec, pods: seq<Discovery.Pod>, pass: Pass) returns (es: seq<SessionEvent>)
    requires DistinctUids(pods)
    requires WholePassOf(p, GroupsOf(pods), pass) && ErrorFree(p, spec, GroupsOf(pods), pass)
    ensures AfterPass(p, spec, GroupsOf(pods), pass).events == p.events + es
    ensures Follow(CurrentUids(p.assigns), es) == CurrentUids(AfterPass(p, spec, GroupsOf(pods), pass).assigns)
  {
    hide WellGrouped, UidsDistinct, AfterPass, Converged, CurrentUids, DesiredUids, Follow;
    GroupsAreWellFormed(pods);
    es := PassFollowed(p, spec, GroupsOf(pods), pass);
    Converges(p, spec, GroupsOf(pods), pass);
    CurrentIsDesired(AfterPass(p, spec, GroupsOf(pods), pass), GroupsOf(pods));
  }

  lemma StillKnown(p: Plan, groups: seq<NodeGroup>, node: Node)
    requires (forall g <- groups :: UidsDistinct(g.targets)) && node in p.assigns
    ensures AssignedUids(p.assigns[node]) * WantedUids(DesiredOf(groups), node) <=
            CurrentUids(p.assigns) * DesiredUids(groups)
  {
    DesiredIsGrouped(groups);
    forall uid | uid in AssignedUids(p.assigns[node]) && uid in WantedUids(DesiredOf(groups), node)
      ensures uid in CurrentUids(p.assigns) && uid in DesiredUids(groups)
    {
      var g := DesiredOf(groups)[node];
      var i :| 0 <= i < |g.targets| && g.targets[i].uid == uid;
      var t :| t in p.assigns[node].targets && t.pod.uid == uid;
    }
  }

  // ---- The loop over the nodes ----

  /** The nodes `seen` have been looked after, all without an error if `clean`. */
  ghost predicate Visited(p: Plan, spec: Spec, desired: map<Node, NodeGroup>, seen: set<Node>,
                          order: seq<Node>, answers: seq<Answer>, q: Plan, clean: bool)
  {
    && |order| == |answers| && Lists(order, seen)
    && q == NodeSteps(p, spec, desired, order, answers)
    && (clean <==> NodesOk(p, spec, desired, order, answers))
  }

  ghost predicate NoneBusy(answers: seq<Answer>) {
    forall a <- answers :: a.Listed? ==> !a.creation.Busy?
  }

  lemma VisitOne(p: Plan, spec: Spec, desired: map<Node, NodeGroup>, seen: set<Node>,
                 order: seq<Node>, answers: seq<Answer>, q: Plan, clean: bool, node: Node, a: Answer)
    requires Visited(p, spec, desired, seen, order, answers, q, clean) && node !in seen
    ensures Visited(p, spec, desired, seen + {node}, order + [node], answers + [a],
                    NodeStep(q, spec, desired, node, a), clean && NodeOk(q, desired, node, a))
    ensures NoneBusy(answers) && (a.Listed? ==> !a.creation.Busy?) ==> NoneBusy(answers + [a])
  {
    NodeStepsSnoc(p, spec, desired, order, answers, node, a);
  }

  lemma VisitedIsPass(p: Plan, spec: Spec, groups: seq<NodeGroup>, detached: seq<PodRef>, seen: set<Node>,
                      order: seq<Node>, answers: seq<Answer>, q: Plan, clean: bool)
    requires Detaches(p.assigns, groups, detached)
    requires Visited(p.Emit(DetachEvents(detached)), spec, DesiredOf(groups), seen, order, answers, q, clean)
    requires seen <= DesiredOf(groups).Keys + p.assigns.Keys
    ensures var pass := Pass(detached, order, answers, None);
      && PassOf(p, groups, pass) && q == AfterPass(p, spec, groups, pass)
      && (seen == DesiredOf(groups).Keys + p.assigns.Keys ==> WholePassOf(p, groups, pass))
      && (clean && NoneBusy(answers) ==> ErrorFree(p, spec, groups, pass))
  {
    var pass := Pass(detached, order, answers, None);
    assert Start(p, pass) == p.Emit(DetachEvents(detached));
  }
}
