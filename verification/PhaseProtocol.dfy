/** What the phases of a session tell (StopProtocol): what CreateSession's success
    means, what a session shows while it is stopped, and how much can still appear
    after a stop. */
module PhaseProtocol {
  import opened Records
  import opened Pods
  import opened StopProtocol

  // ---- Success ----

  /** CreateSession has scheduled the agents. */
  predicate HasSucceeded(th: Thread) {
    th.StartSucceeded? || th == StartUnlockLife(true) || th == Live(true)
  }

  lemma SuccessPath(s: State, th: Thread, c: Choice)
    ensures HasSucceeded(ThreadAfter(s, th, c)) ==> HasSucceeded(th) || StateAfter(s, th) == RUNNING
  {}

  lemma SuccessNext(s: State, s': State, t: nat)
    requires Next(s, s') && t in s'.threads && HasSucceeded(s'.threads[t])
    ensures t in s.threads && (HasSucceeded(s.threads[t]) || s'.state == RUNNING)
  {
    hide ThreadAfter, StateAfter;
    var step :| Enabled(s, step) && s' == Apply(s, step);
    if step.Act? {
      SuccessPath(s, s.threads[step.t], step.c);
      StateOfAct(s, step.t, step.c);
    }
  }

  /** A CreateSession that has succeeded has set the session RUNNING; one that has
      failed to schedule an agent cannot come to succeed. */
  lemma {:induction false} SucceedsOnlyByRunning(run: seq<State>, i: nat, t: nat) returns (j: nat)
    requires IsRun(run) && i < |run| && t in run[i].threads && HasSucceeded(run[i].threads[t])
    ensures j <= i && run[j].state == RUNNING
  {
    assert i > 0;
    assert StepAt(run, i);
    SuccessNext(run[i - 1], run[i], t);
    j := i;
    if HasSucceeded(run[i - 1].threads[t]) {
      j := SucceedsOnlyByRunning(run, i - 1, t);
    }
  }

  // ---- Passes ----

  predicate IsPass(th: Thread) {
    || th.ReconWantRec? || th.ReconCheck? || th.ReconList? || th.ReconUnlock? || th.ReconDone?
    || ((th.Loop? || th.Work?) && th.owner.ByReconcile?)
  }

  ghost predicate FollowOk(s: State) {
    forall t <- s.threads | IsPass(s.threads[t]) :: 0 in s.threads && s.threads[0] == Live(true)
  }

  lemma PassOf(s: State, th: Thread, c: Choice)
    ensures IsPass(ThreadAfter(s, th, c)) ==> IsPass(th)
    ensures th.Live? ==> ThreadAfter(s, th, c) == th
  {}

  lemma FollowNext(s: State, s': State)
    requires RunningInv(s) && FollowOk(s) && Next(s, s')
    ensures FollowOk(s')
  {
    hide ThreadAfter, StateAfter;
    var step :| Enabled(s, step) && s' == Apply(s, step);
    if step.Act? {
      PassOf(s, s.threads[step.t], step.c);
      StateOfAct(s, step.t, step.c);
    }
  }

  // ---- Stopping ----

  /** stopSession is between saying STOPPING and saying STOPPED. */
  predicate IsStopping(th: Thread) {
    th.StopCancel? || th.StopWantRec? || th.StopDelete? || th.StopDeleted?
  }

  predicate HasFailed(th: Thread) {
    th.FailCancel? || th == Live(false)
  }

  /** Meanwhile the session shows it, unless failSession has said FAILED. */
  ghost predicate ShowsStopping(s: State) {
    forall t <- s.threads | IsStopping(s.threads[t]) ::
      s.state == STOPPING || (s.state == FAILED && 0 in s.threads && HasFailed(s.threads[0]))
  }

  lemma StoppingPath(s: State, th: Thread, c: Choice)
    ensures IsStopping(ThreadAfter(s, th, c)) ==> IsStopping(th) || th.StopSetState?
    ensures IsStopping(th) ==> HoldsLife(th)
    ensures StateAfter(s, th) != s.state && !HoldsLife(th) ==> th.FailSetState? && StateAfter(s, th) == FAILED
    ensures th.FailSetState? ==> ThreadAfter(s, th, c) == FailCancel && IsCreator(th)
    ensures HasFailed(th) ==> HasFailed(ThreadAfter(s, th, c))
    ensures IsStopping(ThreadAfter(s, th, c)) && StateAfter(s, th) != s.state ==> StateAfter(s, th) == STOPPING
  {}

  lemma ShowsAct(s: State, t: nat, c: Choice)
    requires MutexInv(s) && RunningInv(s) && ShowsStopping(s) && Enabled(s, Act(t, c))
    ensures ShowsStopping(Apply(s, Act(t, c)))
  {
    var s' := Apply(s, Act(t, c));
    StateOfAct(s, t, c);
    StoppingPath(s, s.threads[t], c);
    forall u | u in s'.threads && IsStopping(s'.threads[u])
      ensures s'.state == STOPPING || (s'.state == FAILED && 0 in s'.threads && HasFailed(s'.threads[0]))
    {
      StoppingPath(s, s.threads[u], c);
    }
  }

  lemma OthersShow(s: State, step: Step)
    requires ShowsStopping(s) && Enabled(s, step) && !step.Act?
    ensures ShowsStopping(Apply(s, step))
  {}

  lemma ShowsNext(s: State, s': State)
    requires MutexInv(s) && RunningInv(s) && ShowsStopping(s) && Next(s, s')
    ensures ShowsStopping(s')
  {
    var step :| Enabled(s, step) && s' == Apply(s, step);
    if step.Act? {
      ShowsAct(s, step.t, step.c);
    } else {
      OthersShow(s, step);
    }
  }

  lemma PhasesNextAt(run: seq<State>, i: nat)
    requires IsRun(run) && 0 < i < |run| && FollowOk(run[i - 1]) && ShowsStopping(run[i - 1])
    ensures FollowOk(run[i]) && ShowsStopping(run[i])
  {
    hide FollowOk, ShowsStopping;
    RunInv(run, i - 1);
    LocksExclude(run[i - 1]);
    assert StepAt(run, i);
    FollowNext(run[i - 1], run[i]);
    ShowsNext(run[i - 1], run[i]);
  }

  lemma {:induction false} RunPhases(run: seq<State>, i: nat)
    requires IsRun(run) && i < |run|
    ensures FollowOk(run[i]) && ShowsStopping(run[i])
  {
    if i > 0 {
      RunPhases(run, i - 1);
      PhasesNextAt(run, i);
    }
  }

  /** No reconcile pass begins before CreateSession has succeeded. */
  lemma PassesFollowSuccess(run: seq<State>, i: nat, t: nat)
    requires IsRun(run) && i < |run| && t in run[i].threads && IsPass(run[i].threads[t])
    ensures 0 in run[i].threads && run[i].threads[0] == Live(true)
  {
    RunPhases(run, i);
  }

  /** From its decision to stop until it says STOPPED a stopSession leaves the session
      STOPPING, unless failSession says FAILED meanwhile. */
  lemma StopShowsStopping(run: seq<State>, i: nat, t: nat)
    requires IsRun(run) && i < |run| && t in run[i].threads && IsStopping(run[i].threads[t])
    ensures run[i].state == STOPPING ||
      (run[i].state == FAILED && 0 in run[i].threads
       && (run[i].threads[0].FailCancel? || run[i].threads[0] == Live(false)))
  {
    RunPhases(run, i);
  }

  // ---- After a stop ----

  function PodsOfSession(s: State): set<string> {
    set n | n in s.pods && s.pods[n].session == s.spec.session
  }

  /** The pods there are and those that may still land. */
  function Present(s: State): nat {
    |PodsOfSession(s)| + |s.inflight|
  }

  lemma SubsetIsSmaller(xs: set<string>, ys: set<string>)
    requires xs <= ys
    ensures |xs| <= |ys|
  {
    assert ys == xs + (ys - xs);
  }

  lemma PresentAct(s: State, t: nat, c: Choice)
    requires Barred(s) && Enabled(s, Act(t, c))
    ensures Present(Apply(s, Act(t, c))) == Present(s)
  {
    assert !CanCreate(s.threads[t]);
  }

  lemma PresentLand(s: State, name: string, pod: Pods.Pod)
    requires InflightInv(s) && Enabled(s, Land(name, pod))
    ensures Present(Apply(s, Land(name, pod))) == Present(s)
  {
    var s' := Apply(s, Land(name, pod));
    var before, pending := PodsOfSession(s), s'.inflight;
    assert PodsOfSession(s') == before + {name} && name !in before;
    assert s.inflight == pending + multiset{pod};
    assert |PodsOfSession(s')| == |before| + 1 && |s.inflight| == |pending| + 1;
  }

  lemma PresentNext(s: State, s': State)
    requires Barred(s) && InflightInv(s) && Next(s, s')
    ensures Present(s') <= Present(s)
  {
    var step :| Enabled(s, step) && s' == Apply(s, step);
    match step
    case Act(t, c) => PresentAct(s, t, c);
    case Cluster(_) => SubsetIsSmaller(PodsOfSession(s'), PodsOfSession(s));
    case Land(name, pod) => PresentLand(s, name, pod);
    case _ => assert s'.pods == s.pods && s'.inflight == s.inflight && s'.spec == s.spec;
  }

  lemma PresentNextAt(run: seq<State>, j: nat)
    requires IsRun(run) && 0 < j < |run| && Barred(run[j - 1])
    ensures Present(run[j]) <= Present(run[j - 1]) && Barred(run[j])
  {
    RunInv(run, j - 1);
    assert StepAt(run, j);
    PresentNext(run[j - 1], run[j]);
    BarredNext(run[j - 1], run[j]);
  }

  lemma {:induction false} PresentOnward(run: seq<State>, i: nat, j: nat)
    requires IsRun(run) && i <= j < |run| && Barred(run[i])
    ensures Present(run[j]) <= Present(run[i]) && Barred(run[j])
    decreases j
  {
    if i < j {
      PresentOnward(run, i, j - 1);
      PresentNextAt(run, j);
    }
  }

  /** After a stop's deletion there are never more pods of the session than abandoned
      Creates were pending then: each takes effect at most once. */
  lemma AtMostPending(run: seq<State>, i: nat, j: nat, t: nat)
    requires IsRun(run) && 0 < i <= j < |run| && Deletes(run[i - 1], run[i], t)
    ensures |set n | n in run[j].pods && run[j].pods[n].session == run[j].spec.session| <= |run[i].inflight|
  {
    DeletedAt(run, i, t);
    PresentOnward(run, i, j);
    assert PodsOfSession(run[i]) == {};
    assert PodsOfSession(run[j]) == set n | n in run[j].pods && run[j].pods[n].session == run[j].spec.session;
  }
}
