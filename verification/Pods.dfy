/** Agent pods as the lifecycle manager sees them (pkg/hub/agent/lifecycle.go):
    an abstract set of labelled pods. */
module Pods {
  import opened Records

  datatype Phase = Pending | Running | Succeeded | Failed | Unknown

  /** A container's status: `terminal` if containerTerminalReason finds a reason. */
  datatype Container = Container(ready: bool, terminal: bool)

  /** `session` and `node` are the pod's labels, `stream` the id in its environment;
      `condemned` says that a condition is terminal (unschedulable, disrupted). */
  datatype Pod = Pod(
    session: string,
    node: Node,
    stream: string,
    terminating: bool,
    phase: Phase,
    condemned: bool,
    containers: seq<Container>)

  function NewPod(session: string, node: Node, stream: string): Pod {
    Pod(session, node, stream, false, Pending, false, [])
  }

  /** podTerminalReason finds a reason. */
  predicate PodTerminal(p: Pod) {
    p.condemned || exists c :: c in p.containers && c.terminal
  }

  /** Running, with containers, all of them ready, and nothing terminal. */
  predicate PodReady(p: Pod) {
    && p.phase == Running && !PodTerminal(p)
    && p.containers != [] && forall c <- p.containers :: c.ready
  }

  /** Pods by name. */
  type PodSet = map<string, Pod>

  predicate PodReusable(p: Pod) {
    !p.terminating && p.phase != Failed && p.phase != Succeeded
  }

  predicate OnNode(p: Pod, session: string, node: Node) {
    p.session == session && p.node == node
  }

  ghost predicate NoneOnNode(pods: PodSet, session: string, node: Node) {
    forall n <- pods :: !OnNode(pods[n], session, node)
  }

  ghost predicate NoneOfSession(pods: PodSet, session: string) {
    forall n <- pods :: pods[n].session != session
  }

  /** At most one agent pod of the session on each node. */
  ghost predicate OnePerNode(pods: PodSet, session: string) {
    forall m, n | m in pods && n in pods && OnNode(pods[m], session, pods[n].node) && pods[n].session == session ::
      m == n
  }

  /** What the cluster may do to a pod on its own: change its phase, begin to
      terminate it. A pod that is not reusable never becomes so again. */
  predicate Ages(p: Pod, p': Pod) {
    && p' == p.(terminating := p'.terminating, phase := p'.phase,
                condemned := p'.condemned, containers := p'.containers)
    && (PodReusable(p') ==> PodReusable(p))
  }

  /** ... and to all of them: the session's pods age and vanish, none appears;
      other sessions' pods do as they please. */
  predicate Drifts(pods: PodSet, pods': PodSet, session: string) {
    forall n <- pods' | pods'[n].session == session :: n in pods && Ages(pods[n], pods'[n])
  }

  lemma DriftsKeeps(pods: PodSet, pods': PodSet, session: string)
    requires Drifts(pods, pods', session)
    ensures OnePerNode(pods, session) ==> OnePerNode(pods', session)
    ensures NoneOfSession(pods, session) ==> NoneOfSession(pods', session)
    ensures forall node | NoneOnNode(pods, session, node) :: NoneOnNode(pods', session, node)
  {}

  lemma DriftsOn(a: PodSet, b: PodSet, c: PodSet, session: string)
    requires Drifts(a, b, session) && Drifts(b, c, session)
    ensures Drifts(a, c, session)
  {}

  /** `name` is an agent pod of the session on `node` that can be kept. */
  predicate Reusable(pods: PodSet, session: string, node: Node, name: string) {
    name in pods && OnNode(pods[name], session, node) && PodReusable(pods[name])
  }

  ghost predicate FoundOnNode(pods: PodSet, session: string, node: Node) {
    exists n :: Reusable(pods, session, node, n)
  }

  /** One agent was made on a node that had none. */
  ghost predicate Adds(pods: PodSet, pods': PodSet, session: string, node: Node) {
    && NoneOnNode(pods, session, node)
    && exists name ::
         name !in pods && name in pods' && OnNode(pods'[name], session, node) && pods' == pods[name := pods'[name]]
  }

  /** The pods drifted, and then perhaps one agent was made. */
  ghost predicate AddsAtMostOne(pods: PodSet, pods': PodSet, session: string, node: Node) {
    exists before: PodSet :: Drifts(pods, before, session) && (pods' == before || Adds(before, pods', session, node))
  }

  lemma AddingKeeps(pods: PodSet, pods': PodSet, session: string, node: Node)
    requires AddsAtMostOne(pods, pods', session, node)
    ensures OnePerNode(pods, session) ==> OnePerNode(pods', session)
  {
    var before: PodSet :| Drifts(pods, before, session) && (pods' == before || Adds(before, pods', session, node));
    DriftsKeeps(pods, before, session);
  }
}
