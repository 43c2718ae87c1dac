/** The reconciler of one session (pkg/hub/watch.go), run in place: each method
    is proved against the functions of Reconcile. */
module Reconcilers {
  import opened Records
  import opened Discovery
  import opened Assignments
  import opened Reconcile
  import opened Sessions
  import Cluster
  import Pods

  datatype StepResult = Done | Failed | CutShort

  /** What the reconciler has been told, in the order in which it asked. */
  datatype Look =
    | SawState(st: SessionPhase)
    | SawContext(done: bool)
    | SawReady(ready: bool)
    | SawDeletion(deleted: bool)

  predicate Schedules(l: Look) {
    l == SawState(STARTING) || l == SawState(RUNNING)
  }

  datatype PassResult = Skipped | Cut | Finished(failures: nat)

  /** Ingest may have moved on, the incarnations are the same. */
  predicate SameIncarnations(agents: map<Node, AgentRecord>, agents': map<Node, AgentRecord>) {
    && agents'.Keys == agents.Keys
    && forall n <- agents ::
         agents'[n] == agents[n].(lastSequence := agents'[n].lastSequence, ingestActive := agents'[n].ingestActive)
  }

  class Reconciler {
    const spec: Spec
    const sess: SessionState
    const manager: Cluster.Manager
    var ensuring: set<Node>
    var events: seq<SessionEvent>
    ghost var seen: seq<Look>

    ghost function View(): Plan
      reads this, sess
    {
      Plan(sess.assigns, sess.assignGen, events)
    }

    ghost predicate Valid()
      reads this, sess
    {
      sess.Valid() && sess.Agrees()
    }

    ghost predicate OneAgentEach()
      reads this, manager
    {
      Pods.OnePerNode(manager.pods, spec.session)
    }

    /** The session's agent on `node` is the pod `pod`, which was seen ready. */
    ghost predicate RunsAs(node: Node, pod: Cluster.Ref)
      reads this, sess, manager
    {
      && node in sess.agents
      && sess.agents[node].podName == pod.name && sess.agents[node].stream == pod.stream
      && pod.name in manager.pods && Pods.PodReady(manager.pods[pod.name])
      && (manager.pods[pod.name].session == spec.session ==>
            manager.pods[pod.name].node == node && manager.pods[pod.name].stream == pod.stream)
    }

    constructor (spec: Spec, sess: SessionState, manager: Cluster.Manager)
      requires sess.Valid() && sess.Agrees()
      ensures Valid() && ensuring == {} && events == []
      ensures this.spec == spec && this.sess == sess && this.manager == manager
    {
      this.spec, this.sess, this.manager := spec, sess, manager;
      ensuring, events, seen := {}, [], [];
    }

    /** What others do without reconcileMu: move the session's state, ingest. */
    method Elsewhere()
      requires Valid()
      modifies sess
      ensures Valid() && View() == old(View()) && SameIncarnations(old(sess.agents), sess.agents)
    {
      var moves: bool := *;
      if moves {
        var st: SessionPhase := *;
        sess.SetState(st);
      }
      var agents: map<Node, AgentRecord> := *;
      if SameIncarnations(sess.agents, agents) {
        sess.agents := agents;
      }
      sess.packets, sess.bytes, sess.dropped, sess.perPod := *, *, *, *;
    }

    method ReadState() returns (st: SessionPhase)
      requires Valid()
      modifies sess, this`seen
      ensures Valid() && View() == old(View()) && st == sess.state
      ensures SameIncarnations(old(sess.agents), sess.agents)
      ensures seen == old(seen) + [SawState(st)]
    {
      Elsewhere();
      st := sess.state;
      seen := seen + [SawState(st)];
    }

    /** sess.context().Err() != nil */
    method ContextDone() returns (done: bool)
      modifies this`seen
      ensures seen == old(seen) + [SawContext(done)]
    {
      done := *;
      seen := seen + [SawContext(done)];
    }

    method AwaitReady(name: string) returns (ready: bool)
      modifies manager, this`seen
      ensures Pods.Drifts(old(manager.pods), manager.pods, spec.session)
      ensures ready ==> name in manager.pods && Pods.PodReady(manager.pods[name])
      ensures old(OneAgentEach()) ==> OneAgentEach()
      ensures seen == old(seen) + [SawReady(ready)]
    {
      ready := manager.WaitReady(spec.session, name);
      Pods.DriftsKeeps(old(manager.pods), manager.pods, spec.session);
      seen := seen + [SawReady(ready)];
    }

    method DeleteAgents(node: Node) returns (deleted: bool)
      modifies manager, this`seen
      ensures deleted ==> Pods.NoneOnNode(manager.pods, spec.session, node)
      ensures old(OneAgentEach()) ==> OneAgentEach()
      ensures seen == old(seen) + [SawDeletion(deleted)]
    {
      deleted := manager.DeleteAgentOnNode(spec.session, node);
      Pods.DriftsKeeps(old(manager.pods), manager.pods, spec.session);
      seen := seen + [SawDeletion(deleted)];
    }

    method Emit(e: SessionEvent)
      modifies this`events
      ensures events == old(events) + [e]
    {
      events := events + [e];
    }

    /** The UIDs of the assignment before, as emitNewAttaches collects them. */
    method UidsBefore(prev: Option<Assignment>) returns (had: set<string>)
      ensures had == Had(prev)
    {
      had := {};
      if prev.Some? {
        var targets := prev.value.targets;
        for i := 0 to |targets|
          invariant had == (set t | t in targets[..i] :: t.pod.uid) - {""}
        {
          assert targets[..i + 1] == targets[..i] + [targets[i]];
          if targets[i].pod.uid != "" {
            had := had + {targets[i].pod.uid};
          }
        }
        assert targets[..|targets|] == targets;
      }
    }

    /** Attaches, in group order, exactly the pods that were not assigned before. */
    method EmitNewAttaches(prev: Option<Assignment>, group: NodeGroup)
      modifies this`events
      ensures events == old(events) + AttachEvents(prev, group)
      ensures old(events) <= events && AttachesNew(prev, group.targets, events[|old(events)|..])
    {
      hide AttachesNew, Had;
      var had := UidsBefore(prev);
      for i := 0 to |group.targets|
        invariant events == old(events) + Attached(Attaches(had, group.targets[..i]))
      {
        AttachesSnoc(had, group.targets, i);
        if group.targets[i].uid !in had {
          Emit(PodAttached(group.targets[i]));
        }
      }
      assert group.targets[..|group.targets|] == group.targets;
      AttachEventsAreNew(prev, group);
      assert events[|old(events)|..] == AttachEvents(prev, group);
    }

    /** The agent is there with an assignment. */
    method UpdateAgent(group: NodeGroup)
      requires Valid() && GroupOk(group) && group.node in sess.assigns
      modifies this`events, sess
      ensures Valid() && View() == UpdateNode(old(View()), spec, group)
    {
      hide TargetsEqual, AttachesNew, AttachEvents;
      var existing := sess.assigns[group.node];
      var equal := AssignmentTargetsEqual(Some(existing), group);
      if equal {
        return;
      }
      var updated := BuildAssignment(spec, group, existing.stream);
      BuiltTargets(spec, group, existing.stream);
      assert AssignmentOk(existing, group.node, sess.agents[group.node]);
      sess.UpdateAssignment(group.node, updated);
      Emit(AgentState(group.node, CAPTURING, PodsOf(updated.targets)));
      EmitNewAttaches(Some(existing), group);
    }

    /** The session's context is not done, and it is being scheduled or runs. */
    method MayCreate() returns (may: bool)
      requires Valid()
      modifies this`seen, sess
      ensures Valid() && View() == old(View())
      ensures |seen| == |old(seen)| + 2 && old(seen) <= seen
      ensures seen[|old(seen)|].SawContext? && seen[|old(seen)| + 1].SawState?
      ensures may <==> !seen[|old(seen)|].done && Schedules(seen[|old(seen)| + 1])
    {
      var done := ContextDone();
      var st := ReadState();
      may := !done && SessionScheduling(st);
    }

    /** ensureNodeAgent from the first check of the context on. */
    method CreateAgent(group: NodeGroup) returns (ok: bool, ghost c: Creation)
      requires Valid() && GroupOk(group)
      modifies this, sess, manager
      ensures Valid() && View() == CreateNode(old(View()), spec, group, c)
      ensures ok <==> c.Busy? || (c.Created? && c.ready)
      ensures ensuring == old(ensuring) && (c.Busy? ==> group.node in ensuring)
      ensures c.Created? && c.ready ==> RunsAs(group.node, Cluster.Ref(c.name, c.stream))
      ensures c.Created? ==> c.stream != ""
      ensures old(OneAgentEach()) ==> OneAgentEach()
      ensures old(seen) <= seen && |seen| >= |old(seen)| + 2
      ensures seen[|old(seen)|].SawContext? && seen[|old(seen)| + 1].SawState?
      ensures c.Inactive? <==> seen[|old(seen)|].done || !Schedules(seen[|old(seen)| + 1])
    {
      var node := group.node;
      var may := MayCreate();
      if !may {
        return false, Inactive;
      }
      if node in ensuring {
        return true, Busy;
      }
      ensuring := ensuring + {node};
      var requested: string := *;
      var pod := manager.CreateForNode(spec.session, node, requested);
      Pods.AddingKeeps(old(manager.pods), manager.pods, spec.session, node);
      if pod.Err? || pod.value.stream == "" {
        ensuring := ensuring - {node};
        return false, NotCreated;
      }
      ok := RunAgent(group, pod.value);
      ensuring := ensuring - {node};
      c := Created(pod.value.name, pod.value.stream, ok);
    }

    /** From recordAgent on; reconcileMu is released during WaitReady. */
    method RunAgent(group: NodeGroup, pod: Cluster.Ref) returns (ready: bool)
      requires Valid() && GroupOk(group)
      requires Pods.Reusable(manager.pods, spec.session, group.node, pod.name)
               && pod.stream == manager.pods[pod.name].stream
      requires group.node in ensuring
      modifies this`events, this`seen, sess, manager
      ensures Valid() && View() == CreateNode(old(View()), spec, group, Created(pod.name, pod.stream, ready))
      ensures ready ==> RunsAs(group.node, pod)
      ensures old(OneAgentEach()) ==> OneAgentEach()
      ensures old(seen) <= seen && |seen| >= |old(seen)| + 2
      ensures seen[|old(seen)|].SawReady? && seen[|old(seen)| + 1].SawState?
      ensures ready <==> seen[|old(seen)|].ready && Schedules(seen[|old(seen)| + 1])
    {
      hide AttachEvents;
      Schedule(group, pod);
      ready := WaitForAgent(group.node, pod);
      if !ready {
        AbandonNodeAgent(group.node);
        return;
      }
      Announce(group);
    }

    /** WaitReady, and whether the session is still being scheduled then. */
    method WaitForAgent(node: Node, pod: Cluster.Ref) returns (ready: bool)
      requires Valid() && node in sess.agents && sess.agents[node] == AgentRecord(pod.name, pod.stream, 0, false)
      requires Pods.Reusable(manager.pods, spec.session, node, pod.name)
               && pod.stream == manager.pods[pod.name].stream
      modifies this`seen, sess, manager
      ensures Valid() && View() == old(View())
      ensures ready ==> RunsAs(node, pod)
      ensures old(OneAgentEach()) ==> OneAgentEach()
      ensures |seen| == |old(seen)| + 2 && old(seen) <= seen
      ensures seen[|old(seen)|].SawReady? && seen[|old(seen)| + 1].SawState?
      ensures ready <==> seen[|old(seen)|].ready && Schedules(seen[|old(seen)| + 1])
    {
      ready := AwaitReady(pod.name);
      var st := ReadState();
      ready := ready && SessionScheduling(st);
    }

    method Announce(group: NodeGroup)
      modifies this`events
      ensures events == old(events) + ([AgentState(group.node, READY, group.targets)] + AttachEvents(None, group))
    {
      Emit(AgentState(group.node, READY, group.targets));
      EmitNewAttaches(None, group);
    }

    method Schedule(group: NodeGroup, pod: Cluster.Ref)
      requires Valid() && GroupOk(group)
      modifies this`events, sess
      ensures Valid()
      ensures View() == old(View()).Assign(group.node, AssignmentOf(spec, group, pod.stream))
                                   .Emit([AgentState(group.node, SCHEDULING, group.targets)])
      ensures group.node in sess.agents && sess.agents[group.node] == AgentRecord(pod.name, pod.stream, 0, false)
    {
      var assignment := BuildAssignment(spec, group, pod.stream);
      BuiltTargets(spec, group, pod.stream);
      sess.RecordAgent(group.node, pod.name, pod.stream, assignment);
      Emit(AgentState(group.node, SCHEDULING, PodsOf(assignment.targets)));
    }

    method AbandonNodeAgent(node: Node)
      requires Valid()
      modifies sess, manager, this`seen
      ensures Valid() && View() == old(View()).Drop(node)
      ensures node !in sess.agents && node !in sess.assigns
      ensures |seen| == |old(seen)| + 1 && old(seen) <= seen && seen[|old(seen)|].SawDeletion?
      ensures old(OneAgentEach()) ==> OneAgentEach()
    {
      var _ := DeleteAgents(node);
      sess.RemoveAgent(node);
    }

    method EnsureNodeAgent(group: NodeGroup) returns (ok: bool, ghost a: Answer)
      requires Valid() && GroupOk(group)
      modifies this, sess, manager
      ensures Valid() && View() == EnsureNode(old(View()), spec, group, a)
      ensures ok <==> EnsureOk(old(View()), group, a)
      ensures a.ListFailed? || a.Listed?
      ensures ensuring == old(ensuring) && (a.Listed? && a.creation.Busy? ==> group.node in ensuring)
      ensures a.Listed? && a.creation.Created? && a.creation.ready ==>
                RunsAs(group.node, Cluster.Ref(a.creation.name, a.creation.stream))
      ensures old(seen) <= seen
      ensures old(OneAgentEach()) ==> OneAgentEach()
    {
      hide UpdateNode, CreateNode;
      var found := manager.AgentOnNode(spec.session, group.node);
      Pods.DriftsKeeps(old(manager.pods), manager.pods, spec.session);
      if found.Err? {
        return false, ListFailed;
      }
      if found.value.None? {
        sess.RemoveAgent(group.node);
      } else if group.node in sess.assigns {
        UpdateAgent(group);
        return true, Listed(true, Inactive);
      }
      ghost var c;
      ok, c := CreateAgent(group);
      a := Listed(found.value.Some?, c);
    }

    method RemoveNodeAgent(node: Node) returns (ok: bool, ghost a: Answer)
      requires Valid()
      modifies this`events, this`seen, sess, manager
      ensures Valid() && View() == RemoveNode(old(View()), node, a) && a.Removal?
      ensures ok <==> RemoveOk(old(View()), node, a)
      ensures node in old(sess.assigns) && ok ==>
        && node !in sess.assigns && node !in sess.agents
        && events == old(events) + [AgentState(node, TERMINATING, []), AgentState(node, GONE, [])]
      ensures node in old(sess.assigns) && !ok ==>
        sess.assigns == old(sess.assigns) && events == old(events) + [AgentState(node, TERMINATING, [])]
      ensures node !in old(sess.assigns) ==> sess.assigns == old(sess.assigns) && events == old(events)
      ensures node !in old(sess.assigns) ==> ok && seen == old(seen)
      ensures node in old(sess.assigns) ==>
        && old(seen) <= seen && |seen| == |old(seen)| + 2
        && seen[|old(seen)|].SawDeletion? && seen[|old(seen)| + 1].SawContext?
        && (ok <==> seen[|old(seen)|].deleted || seen[|old(seen)| + 1].done)
      ensures old(OneAgentEach()) ==> OneAgentEach()
    {
      if node !in sess.assigns {
        return true, Removal(false);
      }
      Emit(AgentState(node, TERMINATING, []));
      var deleted := DeleteAgents(node);
      var done := ContextDone();
      if !deleted && !done {
        return false, Removal(false);
      }
      sess.RemoveAgent(node);
      Emit(AgentState(node, GONE, []));
      return true, Removal(true);
    }

    /** currentTargets */
    method CurrentTargets() returns (current: map<string, PodRef>)
      requires Valid()
      ensures current.Keys == CurrentUids(sess.assigns)
      ensures forall uid <- current :: current[uid].uid == uid && IsCurrent(sess.assigns, current[uid])
    {
      current := map[];
      var rest := sess.assigns.Keys;
      while rest != {}
        invariant rest <= sess.assigns.Keys
        invariant current.Keys == set node, t |
            node in sess.assigns && node !in rest && t in sess.assigns[node].targets && t.pod.uid != "" :: t.pod.uid
        invariant forall uid <- current :: current[uid].uid == uid && IsCurrent(sess.assigns, current[uid])
        decreases rest
      {
        var node :| node in rest;
        current := AddTargets(current, sess.assigns[node].targets);
        rest := rest - {node};
      }
    }

    method AddTargets(current: map<string, PodRef>, targets: seq<Target>) returns (current': map<string, PodRef>)
      requires forall uid <- current :: current[uid].uid == uid
      ensures current'.Keys == current.Keys + set t | t in targets && t.pod.uid != "" :: t.pod.uid
      ensures forall uid <- current' :: current'[uid].uid == uid
      ensures forall uid <- current' ::
        (uid in current && current'[uid] == current[uid]) || exists t <- targets :: t.pod == current'[uid]
    {
      current' := current;
      for i := 0 to |targets|
        invariant current'.Keys == current.Keys + set t | t in targets[..i] && t.pod.uid != "" :: t.pod.uid
        invariant forall uid <- current' :: current'[uid].uid == uid
        invariant forall uid <- current' ::
          (uid in current && current'[uid] == current[uid]) || exists t <- targets :: t.pod == current'[uid]
      {
        assert targets[..i + 1] == targets[..i] + [targets[i]];
        if targets[i].pod.uid != "" {
          current' := current'[targets[i].pod.uid := targets[i].pod];
        }
      }
      assert targets[..|targets|] == targets;
    }

    /** The nodes' groups and the wanted UIDs. */
    method Desired(groups: seq<NodeGroup>) returns (desired: map<Node, NodeGroup>, uids: set<string>)
      ensures desired == DesiredOf(groups) && uids == DesiredUids(groups)
    {
      desired, uids := map[], {};
      for i := 0 to |groups|
        invariant desired == DesiredOf(groups[..i]) && uids == DesiredUids(groups[..i])
      {
        assert groups[..i + 1] == groups[..i] + [groups[i]] && groups[..i + 1][..i] == groups[..i];
        desired := desired[groups[i].node := groups[i]];
        var targets := groups[i].targets;
        for k := 0 to |targets|
          invariant uids == DesiredUids(groups[..i]) + Uids(targets[..k])
        {
          assert targets[..k + 1] == targets[..k] + [targets[k]];
          uids := uids + {targets[k].uid};
        }
        assert targets[..|targets|] == targets;
      }
      assert groups[..|groups|] == groups;
    }

    method DetachMissing(groups: seq<NodeGroup>, uids: set<string>) returns (ghost detached: seq<PodRef>)
      requires Valid() && uids == DesiredUids(groups)
      modifies this`events
      ensures Detaches(sess.assigns, groups, detached)
      ensures events == old(events) + DetachEvents(detached)
    {
      hide IsCurrent, CurrentUids, DesiredUids;
      var current := CurrentTargets();
      detached := [];
      var rest := current.Keys;
      while rest != {}
        invariant rest <= current.Keys
        invariant Uids(detached) == current.Keys - rest - uids && RefsDistinct(detached)
        invariant forall r <- detached :: IsCurrent(sess.assigns, r)
        invariant events == old(events) + DetachEvents(detached)
        decreases rest
      {
        var uid :| uid in rest;
        rest := rest - {uid};
        if uid !in uids {
          UidsSnoc(detached, current[uid]);
          detached := detached + [current[uid]];
          Emit(PodDetached(current[uid]));
        }
      }
    }

    /** The body of the loop over the nodes. */
    method LookAfter(node: Node, desired: map<Node, NodeGroup>) returns (r: StepResult, ghost a: Answer)
      requires Valid() && (node in desired ==> GroupOk(desired[node]) && desired[node].node == node)
      modifies this, sess, manager
      ensures Valid() && ensuring == old(ensuring) && (ensuring == {} && a.Listed? ==> !a.creation.Busy?)
      ensures r.CutShort? ==> node in desired && View() == EnsureNode(old(View()), spec, desired[node], a)
      ensures !r.CutShort? ==> View() == NodeStep(old(View()), spec, desired, node, a)
      ensures !r.CutShort? ==> (r.Done? <==> NodeOk(old(View()), desired, node, a))
      ensures old(seen) <= seen
      ensures r.CutShort? ==> seen != [] && seen[|seen| - 1] == SawContext(true)
      ensures r.Failed? ==> seen != [] && seen[|seen| - 1] == SawContext(false)
      ensures old(OneAgentEach()) ==> OneAgentEach()
    {
      var ok;
      if node !in desired || desired[node].targets == [] {
        ok, a := RemoveNodeAgent(node);
        return if ok then Done else Failed, a;
      }
      ok, a := EnsureNodeAgent(desired[node]);
      if ok {
        return Done, a;
      }
      var done := ContextDone();
      if done {
        return CutShort, a;
      }
      Emit(UpdateFailed(node));
      r := Failed;
    }

    /** One pass; `listing` is None when the pods could not be listed. */
    method ReconcileSession(listing: Option<seq<Pod>>) returns (r: PassResult, ghost pass: Pass)
      requires Valid()
      modifies this, sess, manager
      ensures Valid() && ensuring == old(ensuring)
      ensures old(seen) < seen && seen[|old(seen)|].SawState?
      ensures r.Skipped? <==> seen[|old(seen)|].st != RUNNING || listing.None?
      ensures r.Skipped? ==> View() == old(View())
      ensures !r.Skipped? ==> listing.Some? && PassOf(old(View()), GroupsOf(listing.value), pass)
                              && View() == AfterPass(old(View()), spec, GroupsOf(listing.value), pass)
      ensures r.Finished? ==> WholePassOf(old(View()), GroupsOf(listing.value), pass)
      ensures r == Finished(0) && ensuring == {} ==>
                ErrorFree(old(View()), spec, GroupsOf(listing.value), pass)
                && Converged(View(), GroupsOf(listing.value))
                && sess.agents.Keys == sess.assigns.Keys
      ensures r == Finished(0) && ensuring == {} && DistinctUids(listing.value) ==>
                old(events) <= events
                && Follow(CurrentUids(old(sess.assigns)), events[|old(events)|..]) == CurrentUids(sess.assigns)
      ensures old(OneAgentEach()) ==> OneAgentEach()
    {
      hide AfterPass, CurrentUids, Follow, Detaches, WellGrouped;
      pass := Pass([], [], [], None);
      var st := ReadState();
      if st != RUNNING || listing.None? {
        return Skipped, pass;
      }
      var groups, skipped := GroupByNode(listing.value);
      var desired, uids := Desired(groups);
      ghost var detached := DetachMissing(groups, uids);
      GroupsAreWellFormed(listing.value);
      DesiredIsGrouped(groups);
      r, pass := VisitNodes(groups, desired, detached, old(View()));
      if r == Finished(0) && ensuring == {} {
        Converges(old(View()), spec, groups, pass);
        if DistinctUids(listing.value) {
          ghost var es := EventsTellThePods(old(View()), spec, listing.value, pass);
          assert events[|old(events)|..] == es;
        }
      }
    }

    method VisitNodes(groups: seq<NodeGroup>, desired: map<Node, NodeGroup>, ghost detached: seq<PodRef>,
                      ghost before: Plan)
        returns (r: PassResult, ghost pass: Pass)
      requires Valid() && WellGrouped(groups) && desired == DesiredOf(groups) && NodesMatch(desired)
      requires forall node <- desired :: desired[node] in groups
      requires Detaches(before.assigns, groups, detached) && View() == before.Emit(DetachEvents(detached))
      modifies this, sess, manager
      ensures Valid() && ensuring == old(ensuring) && !r.Skipped? && old(seen) <= seen
      ensures PassOf(before, groups, pass) && View() == AfterPass(before, spec, groups, pass)
      ensures r.Finished? ==> WholePassOf(before, groups, pass)
      ensures r == Finished(0) && ensuring == {} ==> ErrorFree(before, spec, groups, pass)
      ensures old(OneAgentEach()) ==> OneAgentEach()
    {
      ghost var start := View();
      ghost var order, answers := [], [];
      var all := desired.Keys + sess.agents.Keys;
      var rest, failures := all, 0;
      while rest != {}
        invariant Valid() && ensuring == old(ensuring) && rest <= all && old(seen) <= seen
        invariant old(OneAgentEach()) ==> OneAgentEach()
        invariant Visited(start, spec, desired, all - rest, order, answers, View(), failures == 0)
        invariant ensuring == {} ==> NoneBusy(answers)
        decreases rest
      {
        var node :| node in rest;
        assert all - (rest - {node}) == all - rest + {node};
        if node in desired {
          GroupIsOk(groups, desired[node]);
        }
        ghost var a;
        ghost var q := View();
        var step;
        step, a := LookAfter(node, desired);
        if step.CutShort? {
          VisitedIsPass(before, spec, groups, detached, all - rest, order, answers, q, failures == 0);
          return Cut, Pass(detached, order, answers, Some((node, a)));
        }
        VisitOne(start, spec, desired, all - rest, order, answers, q, failures == 0, node, a);
        order, answers := order + [node], answers + [a];
        rest := rest - {node};
        if step.Failed? {
          failures := failures + 1;
        }
      }
      assert all - rest == all;
      VisitedIsPass(before, spec, groups, detached, all, order, answers, View(), failures == 0);
      return Finished(failures), Pass(detached, order, answers, None);
    }
  }

  lemma GroupIsOk(groups: seq<NodeGroup>, g: NodeGroup)
    requires WellGrouped(groups) && g in groups
    ensures GroupOk(g)
  {
    var i :| 0 <= i < |groups| && groups[i] == g;
  }
}
