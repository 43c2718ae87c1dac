/** The agent lifecycle manager (pkg/hub/agent/lifecycle.go) over an abstract set
    of labelled pods.

    The cluster changes the pods on its own before every call, and any call may
    fail; a call that fails may still have had its effect. Nobody else creates
    agents of the session meanwhile: the hub holds reconcileMu. */
module Cluster {
  import opened Records
  import opened Pods

  datatype ApiError = NotFound | Retriable | Refused

  datatype Ref = Ref(name: string, stream: string)

  datatype Verdict = IsReady | Hopeless | Waiting

  /** A call of the API server and what it answered: whether a listing was empty, how
      a pod looked that was got. */
  datatype Call =
    | ListCall(fault: Option<ApiError>, empty: bool)
    | DeleteCall(fault: Option<ApiError>)
    | DeleteCollectionCall(fault: Option<ApiError>)
    | CreateCall(fault: Option<ApiError>)
    | GetCall(fault: Option<ApiError>, verdict: Verdict)

  /** A deletion that succeeded or found nothing. */
  predicate IsFine(c: Call) {
    c.DeleteCall? || c.DeleteCollectionCall? ==> c.fault.None? || c.fault == Some(NotFound)
  }

  /** A poll after which polling goes on: a retriable fault, something still listed, or
      a pod that is neither ready nor hopeless. */
  predicate GoesOn(c: Call) {
    match c
    case ListCall(fault, empty) => if fault.None? then !empty else fault.value == Retriable
    case GetCall(fault, verdict) => if fault.None? then verdict == Waiting else fault.value == Retriable
    case _ => false
  }

  /** `calls` goes on from `before`, all deletions since were fine, and in the end a
      listing was empty. */
  predicate EndsEmpty(before: seq<Call>, calls: seq<Call>) {
    && before < calls
    && (forall k | |before| <= k < |calls| :: IsFine(calls[k]))
    && calls[|calls| - 1] == ListCall(None, true)
  }

  class Manager {
    var pods: PodSet
    ghost var calls: seq<Call>

    constructor (pods: PodSet)
      ensures this.pods == pods && calls == []
    {
      this.pods := pods;
      calls := [];
    }

    method Drift(session: string)
      modifies this`pods
      ensures Drifts(old(pods), pods, session)
    {
      var next: PodSet := *;
      if Drifts(pods, next, session) {
        pods := next;
      }
    }

    method Fault() returns (fault: Option<ApiError>)
    {
      fault := *;
    }

    /** The pods of the session, or those of it on one node. */
    method List(session: string, node: Option<Node>) returns (r: Result<seq<string>, ApiError>)
      modifies this
      ensures Drifts(old(pods), pods, session)
      ensures r.Ok? ==> forall n :: n in r.value <==> n in pods && Selects(pods[n], session, node)
      ensures calls == old(calls) + [ListCall(if r.Ok? then None else Some(r.error), r.Ok? && r.value == [])]
    {
      Drift(session);
      var fault := Fault();
      if fault.Some? {
        calls := calls + [ListCall(fault, false)];
        return Err(fault.value);
      }
      var items: seq<string> := [];
      var rest := pods.Keys;
      while rest != {}
        invariant rest <= pods.Keys
        invariant forall n :: n in items <==> n in pods && n !in rest && Selects(pods[n], session, node)
        decreases rest
      {
        var n :| n in rest;
        rest := rest - {n};
        if Selects(pods[n], session, node) {
          items := items + [n];
        }
      }
      calls := calls + [ListCall(None, items == [])];
      return Ok(items);
    }

    method Delete(session: string, name: string) returns (fault: Option<ApiError>)
      modifies this
      ensures Drifts(old(pods), pods, session)
      ensures calls == old(calls) + [DeleteCall(fault)]
    {
      Drift(session);
      if name !in pods {
        calls := calls + [DeleteCall(Some(NotFound))];
        return Some(NotFound);
      }
      var effective, immediate: bool := *, *;
      if effective {
        pods := if immediate then pods - {name} else pods[name := pods[name].(terminating := true)];
      }
      fault := Fault();
      calls := calls + [DeleteCall(fault)];
    }

    method DeleteCollection(session: string) returns (fault: Option<ApiError>)
      modifies this
      ensures Drifts(old(pods), pods, session)
      ensures calls == old(calls) + [DeleteCollectionCall(fault)]
    {
      Drift(session);
      fault := Fault();
      calls := calls + [DeleteCollectionCall(fault)];
    }

    method Create(session: string, node: Node, stream: string) returns (r: Result<Ref, ApiError>)
      requires NoneOnNode(pods, session, node)
      modifies this
      ensures AddsAtMostOne(old(pods), pods, session, node)
      ensures r.Ok? ==> Reusable(pods, session, node, r.value.name)
                        && pods[r.value.name] == Pod(session, node, stream, false, Pending, false, [])
                        && r.value.stream == stream
                        && forall n <- pods | OnNode(pods[n], session, node) :: n == r.value.name
      ensures calls == old(calls) + [CreateCall(if r.Ok? then None else Some(r.error))]
    {
      Drift(session);
      ghost var before := pods;
      DriftsKeeps(old(pods), before, session);
      assert AddsAtMostOne(old(pods), pods, session, node);
      var fault := Fault();
      var name: string := *;
      var effective: bool := *;
      if fault.Some? && !effective {
        calls := calls + [CreateCall(fault)];
        return Err(fault.value);
      }
      if name in pods {
        calls := calls + [CreateCall(Some(Refused))];
        return Err(Refused);
      }
      var pod := NewPod(session, node, stream);
      pods := pods[name := pod];
      assert name !in before && pods == before[name := pods[name]];
      assert Adds(before, pods, session, node);
      calls := calls + [CreateCall(fault)];
      if fault.Some? {
        return Err(fault.value);
      }
      return Ok(Ref(name, stream));
    }

    /** None: no agent on the node that can be kept. */
    method AgentOnNode(session: string, node: Node) returns (r: Result<Option<Ref>, ApiError>)
      modifies this
      ensures Drifts(old(pods), pods, session)
      ensures r.Ok? && r.value.Some? ==>
                Reusable(pods, session, node, r.value.value.name)
                && Keepable(pods[r.value.value.name], session, node)
                && r.value.value.stream == pods[r.value.value.name].stream
      ensures r.Ok? && r.value.None? ==> !FoundOnNode(pods, session, node)
      ensures r.Ok? && r.value.None? ==> forall n <- pods :: !Keepable(pods[n], session, node)
      ensures |calls| == |old(calls)| + 1 && old(calls) <= calls && calls[|old(calls)|].ListCall?
      ensures r.Err? <==> calls[|old(calls)|].fault.Some?
    {
      var list := List(session, Some(node));
      if list.Err? {
        return Err(list.error);
      }
      var items := list.value;
      for i := 0 to |items|
        invariant forall k | 0 <= k < i :: !PodReusable(pods[items[k]])
      {
        assert items[i] in items;
        if PodReusable(pods[items[i]]) {
          return Ok(Some(Ref(items[i], pods[items[i]].stream)));
        }
      }
      return Ok(None);
    }

    /** Deletes the listed pods one by one; false if a deletion failed for real. */
    method DeleteAll(session: string, names: seq<string>) returns (clean: bool)
      modifies this
      ensures Drifts(old(pods), pods, session)
      ensures |calls| == |old(calls)| + |names| && old(calls) <= calls
      ensures forall k | |old(calls)| <= k < |calls| :: calls[k].DeleteCall?
      ensures clean <==> forall k | |old(calls)| <= k < |calls| :: IsFine(calls[k])
    {
      Drift(session);
      clean := true;
      for i := 0 to |names|
        invariant Drifts(old(pods), pods, session)
        invariant |calls| == |old(calls)| + i && old(calls) <= calls
        invariant forall k | |old(calls)| <= k < |calls| :: calls[k].DeleteCall?
        invariant clean ==> forall k | |old(calls)| <= k < |calls| :: IsFine(calls[k])
        invariant !clean ==> exists k :: |old(calls)| <= k < |calls| && !IsFine(calls[k])
      {
        ghost var before, made := pods, calls;
        var fault := Delete(session, names[i]);
        assert calls[|made|] == DeleteCall(fault) && forall k | 0 <= k < |made| :: calls[k] == made[k];
        DriftsOn(old(pods), before, pods, session);
        if fault.Some? && fault != Some(NotFound) {
          clean := false;
        }
      }
    }

    /** Polls until the selector matches nothing, a listing fails for good, or
        the time is up. */
    method WaitGone(session: string, node: Option<Node>) returns (ok: bool)
      modifies this
      ensures Drifts(old(pods), pods, session)
      ensures ok ==> forall n <- pods :: !Selects(pods[n], session, node)
      ensures old(calls) < calls && (ok <==> calls[|calls| - 1] == ListCall(None, true))
      ensures forall k | |old(calls)| <= k < |calls| :: calls[k].ListCall?
      ensures forall k | |old(calls)| <= k < |calls| - 1 :: GoesOn(calls[k])
      ensures ok ==> forall n <- pods :: pods[n].session == session ==> node.Some? && pods[n].node != node.value
    {
      Drift(session);
      var polls: int := *;
      polls := if polls < 1 then 1 else polls;
      while polls > 0
        invariant Drifts(old(pods), pods, session) && old(calls) <= calls
        invariant polls >= 0 && (polls == 0 ==> old(calls) < calls)
        invariant forall k | |old(calls)| <= k < |calls| :: calls[k].ListCall? && GoesOn(calls[k])
      {
        ghost var before := pods;
        var list := List(session, node);
        DriftsOn(old(pods), before, pods, session);
        if list.Ok? && list.value == [] {
          assert forall n <- pods :: n !in list.value;
          return true;
        }
        if list.Err? && list.error != Retriable {
          return false;
        }
        polls := polls - 1;
      }
      ok := false;
    }

    method DeleteAgentOnNode(session: string, node: Node) returns (ok: bool)
      modifies this
      ensures Drifts(old(pods), pods, session)
      ensures ok ==> NoneOnNode(pods, session, node)
      ensures old(calls) < calls && (ok <==> EndsEmpty(old(calls), calls))
      ensures ok ==> forall n <- pods :: pods[n].session == session ==> pods[n].node != node
    {
      var list := List(session, Some(node));
      if list.Err? {
        return false;
      }
      ghost var listed := pods;
      var clean := DeleteAll(session, list.value);
      DriftsOn(old(pods), listed, pods, session);
      if !clean {
        return false;
      }
      ghost var deleted := pods;
      ok := WaitGone(session, Some(node));
      DriftsOn(old(pods), deleted, pods, session);
    }

    /** An agent pod on the node: the one that is there, or a new one where the
        old ones are gone. */
    method CreateForNode(session: string, node: Node, stream: string) returns (r: Result<Ref, ApiError>)
      modifies this
      ensures AddsAtMostOne(old(pods), pods, session, node)
      ensures r.Ok? ==> Reusable(pods, session, node, r.value.name) && r.value.stream == pods[r.value.name].stream
      ensures r.Ok? ==> Keepable(pods[r.value.name], session, node)
      ensures if stream == "" then r.Err? && calls == old(calls) else old(calls) < calls
    {
      Drift(session);
      assert AddsAtMostOne(old(pods), pods, session, node);
      if stream == "" {
        return Err(Refused);
      }
      ghost var p0 := pods;
      var found := AgentOnNode(session, node);
      DriftsOn(old(pods), p0, pods, session);
      if found.Err? {
        return Err(found.error);
      }
      if found.value.Some? {
        return Ok(found.value.value);
      }
      ghost var p1 := pods;
      var ok := DeleteAgentOnNode(session, node);
      DriftsOn(old(pods), p1, pods, session);
      if !ok {
        return Err(Refused);
      }
      ghost var p2 := pods;
      r := Create(session, node, stream);
      AfterDrift(old(pods), p2, pods, session, node);
    }

    /** Removes all agents of the session: when it returns nil none is left. */
    method DeleteSessionAgents(session: string) returns (ok: bool)
      modifies this
      ensures Drifts(old(pods), pods, session)
      ensures ok ==> NoneOfSession(pods, session)
      ensures old(calls) < calls && calls[|old(calls)|].DeleteCollectionCall?
      ensures ok <==> EndsEmpty(old(calls), calls)
      ensures ok ==> forall n <- pods :: pods[n].session != session
    {
      var fault := DeleteCollection(session);
      ghost var p0 := pods;
      if fault.None? {
        var remaining := List(session, None);
        DriftsOn(old(pods), p0, pods, session);
        if remaining.Err? {
          return false;
        }
        if remaining.value == [] {
          assert forall n <- pods :: n !in remaining.value;
          return true;
        }
      }
      ghost var p1 := pods;
      var list := List(session, None);
      DriftsOn(old(pods), p1, pods, session);
      if list.Err? {
        return false;
      }
      ghost var p2 := pods;
      var clean := DeleteAll(session, list.value);
      DriftsOn(old(pods), p2, pods, session);
      if !clean || (fault.Some? && fault != Some(NotFound)) {
        return false;
      }
      ghost var p3 := pods;
      ok := WaitGone(session, None);
      DriftsOn(old(pods), p3, pods, session);
    }

    /** Polls until the pod is ready, gone or hopeless, a Get fails for good, or
        the time is up. */
    method WaitReady(session: string, name: string) returns (ok: bool)
      modifies this
      ensures Drifts(old(pods), pods, session)
      ensures ok ==> name in pods && PodReady(pods[name])
      ensures ok ==>
        && pods[name].phase == Running && !pods[name].condemned && pods[name].containers != []
        && forall c <- pods[name].containers :: c.ready && !c.terminal
      ensures old(calls) < calls && (ok <==> calls[|calls| - 1] == GetCall(None, IsReady))
      ensures forall k | |old(calls)| <= k < |calls| - 1 :: GoesOn(calls[k])
    {
      Drift(session);
      var polls: int := *;
      polls := if polls < 1 then 1 else polls;
      while polls > 0
        invariant Drifts(old(pods), pods, session) && old(calls) <= calls
        invariant polls >= 0 && (polls == 0 ==> old(calls) < calls)
        invariant forall k | |old(calls)| <= k < |calls| :: GoesOn(calls[k])
      {
        ghost var before := pods;
        Drift(session);
        DriftsOn(old(pods), before, pods, session);
        var fault := Fault();
        if fault.Some? {
          calls := calls + [GetCall(fault, Waiting)];
        }
        if fault.Some? && fault.value != Retriable {
          return false;
        }
        if fault.None? {
          if name !in pods {
            calls := calls + [GetCall(Some(NotFound), Waiting)];
            return false;
          }
          var verdict := Judge(pods[name]);
          calls := calls + [GetCall(None, verdict)];
          if verdict != Waiting {
            return verdict == IsReady;
          }
        }
        polls := polls - 1;
      }
      ok := false;
    }
  }

  /** One look at a pod. */
  method Judge(pod: Pod) returns (v: Verdict)
    ensures v == IsReady <==> PodReady(pod)
    ensures v == IsReady <==>
      && pod.phase == Running && !pod.condemned && pod.containers != []
      && forall c <- pod.containers :: c.ready && !c.terminal
    ensures v == Hopeless <==>
      pod.condemned || (exists c <- pod.containers :: c.terminal) || pod.phase == Failed || pod.phase == Succeeded
  {
    var terminal := pod.condemned;
    for i := 0 to |pod.containers|
      invariant terminal <==> pod.condemned || exists k :: 0 <= k < i && pod.containers[k].terminal
    {
      terminal := terminal || pod.containers[i].terminal;
    }
    assert terminal <==> PodTerminal(pod);
    if terminal || pod.phase == Failed || pod.phase == Succeeded {
      return Hopeless;
    }
    if pod.phase != Running || pod.containers == [] {
      return Waiting;
    }
    for i := 0 to |pod.containers|
      invariant forall k | 0 <= k < i :: pod.containers[k].ready
    {
      if !pod.containers[i].ready {
        assert pod.containers[i] in pod.containers;
        return Waiting;
      }
    }
    return IsReady;
  }

  /** An agent pod of the session on the node that neither terminates nor has ended. */
  predicate Keepable(p: Pod, session: string, node: Node) {
    && p.session == session && p.node == node
    && !p.terminating && (p.phase == Pending || p.phase == Running || p.phase == Unknown)
  }

  predicate Selects(p: Pod, session: string, node: Option<Node>) {
    p.session == session && (node.Some? ==> p.node == node.value)
  }

  lemma AfterDrift(a: PodSet, b: PodSet, c: PodSet, session: string, node: Node)
    requires Drifts(a, b, session) && AddsAtMostOne(b, c, session, node)
    ensures AddsAtMostOne(a, c, session, node)
  {
    var before: PodSet :| Drifts(b, before, session) && (c == before || Adds(before, c, session, node));
    DriftsOn(a, b, before, session);
  }

  /** At most one agent, so at most one reusable one, for a session and a node:
      no call of the manager brings a second. */
  lemma OneAgentPerNode(pods: PodSet, pods': PodSet, session: string, node: Node, on: Node, m: string, n: string)
    requires OnePerNode(pods, session) && AddsAtMostOne(pods, pods', session, on)
    requires Reusable(pods', session, node, m) && Reusable(pods', session, node, n)
    ensures m == n
  {
    AddingKeeps(pods, pods', session, on);
  }
}
