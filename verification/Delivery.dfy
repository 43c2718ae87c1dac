/** From the hub's listing to the agent's captures: the reconciler, the
    WatchTargets stream and the agent's apply taken together. */
module Delivery {
  import opened Records
  import opened Discovery
  import opened Assignments
  import opened Reconcile
  import opened WatchProtocol
  import opened Captures

  /** What the stream sent, as the agent receives it. */
  function Received(sent: seq<Assignment>): seq<Option<Assignment>> {
    seq(|sent|, i requires 0 <= i < |sent| => Some(sent[i]))
  }

  lemma CapturedAfterLast(cfg: Config, sent: seq<Assignment>)
    requires sent != [] && Acceptable(cfg, Some(sent[0])) && Acceptable(cfg, Some(sent[|sent| - 1]))
    ensures CapturedUids(cfg, Received(sent)) == AssignedUids(sent[|sent| - 1])
  {
    var got := Received(sent);
    assert got[|got| - 1] == Some(sent[|sent| - 1]);
  }

  /** Once reconciliation has converged on a listing and an agent's stream is parked
      on an open channel, the agent that has applied everything it was sent captures
      exactly the matched pods of its node, if it accepts the first assignment, without
      which it does not start, and the last. */
  lemma CapturesTheListing(run: seq<State>, id: string, i: nat, w: nat, plan: Plan, pods: seq<Discovery.Pod>,
                           cfg: Config)
    requires IsRun(run, id) && i < |run| && w in run[i].watchers
    requires run[i].watchers[w].pc.ParkedChange? && run[i].watchers[w].pc.on !in run[i].sess.chans.closed
    requires plan.assigns == run[i].sess.maps.assigns && DistinctUids(pods) && Converged(plan, GroupsOf(pods))
    requires var sent := run[i].watchers[w].sent;
      sent != [] && Acceptable(cfg, Some(sent[0])) && Acceptable(cfg, Some(sent[|sent| - 1]))
    ensures CapturedUids(cfg, Received(run[i].watchers[w].sent)) == Uids(TargetsOn(pods, run[i].watchers[w].node))
    ensures run[i].watchers[w].node in NodesOf(pods)
  {
    NeverStale(run, id, i, w);
    CapturedAfterLast(cfg, run[i].watchers[w].sent);
    ConvergedMeans(plan, pods, run[i].watchers[w].node);
  }
}
