/** No deadlock in the session's control plane (StopProtocol): lifecycleMu is taken
    before reconcileMu by all who take both, and ensureNodeAgent lets go of
    reconcileMu only to take it again, so every call can come to its end. */
module StopProgress {
  import opened Records
  import opened Discovery
  import opened Assignments
  import opened Sessions
  import opened Pods
  import opened StopProtocol
  import Strings

  predicate IsEnd(th: Thread) {
    th.Live? || th.ReconDone? || th.StopDone?
  }

  /** How far ensureNodeAgent or removeNodeAgent is from its end. */
  function PcRank(pc: EnsurePc): nat {
    match pc
    case Look => 19
    case Forget => 18
    case Known => 18
    case Check => 17
    case Begin => 16
    case Find => 15
    case Clear => 14
    case Create => 13
    case Record(_, _) => 12
    case Unlock => 11
    case Parked => 10
    case Relock(_) => 9
    case After(_) => 8
    case Abandon => 7
    case AbandonForget => 6
    case Update(_) => 5
    case Remove => 4
    case RemoveDelete => 3
    case RemoveForget => 2
    case Finished(_) => 1
  }

  /** How far a call is from its end, when its listings fail. */
  function Rank(th: Thread): nat {
    match th
    case StartWantLife => 9
    case StartSetState => 8
    case StartList => 7
    case StartWantRec(groups) => 25 * |groups| + 8
    case Loop(_, todo) => 25 * |todo| + 7
    case Work(_, todo, _, pc) => 25 * |todo| + 7 + PcRank(pc)
    case StartSucceeded => 5
    case StartFailed => 5
    case StartUnlockLife(_) => 4
    case FailDelete => 3
    case FailSetState => 2
    case FailCancel => 1
    case ReconWantRec => 5
    case ReconCheck => 4
    case ReconList => 3
    case ReconUnlock => 2
    case StopWantLife => 9
    case StopCheck => 8
    case StopSetState => 7
    case StopCancel => 6
    case StopWantRec => 5
    case StopDelete => 4
    case StopDeleted => 3
    case StopUnlockRec(_) => 2
    case StopUnlockLife(_) => 1
    case _ => 0
  }

  lemma PcDescends(s: State, group: NodeGroup, pc: EnsurePc, c: Choice)
    requires !pc.Finished?
    ensures PcRank(EnsureAfter(s, group, pc, c)) < PcRank(pc)
  {}

  lemma Descends(s: State, th: Thread, c: Choice)
    requires !IsEnd(th) && (th.StartList? || th.ReconList? ==> !c.ok)
    ensures Rank(ThreadAfter(s, th, c)) < Rank(th)
  {
    if th.Work? && !th.pc.Finished? {
      PcDescends(s, th.group, th.pc, c);
    }
  }

  /** No call needs a mutex that it holds, and none waits for lifecycleMu with
      reconcileMu in its hands. */
  lemma TakenInOrder(th: Thread)
    ensures LocksRec(th) ==> !HoldsRec(th) && !LocksLife(th)
    ensures LocksLife(th) ==> !HoldsLife(th) && !HoldsRec(th)
  {}

  ghost predicate OthersStand(s: State, s': State, u: nat) {
    s'.threads.Keys == s.threads.Keys && forall v <- s.threads | v != u :: s'.threads[v] == s.threads[v]
  }

  /** What the thread waits for is free. */
  predicate CanMove(s: State, th: Thread) {
    (LocksRec(th) ==> s.rec.None?) && (LocksLife(th) ==> s.life.None?)
  }

  lemma FreeIfNobodyHolds(run: seq<State>, u: nat)
    requires IsRun(run) && u in Last(run).threads && CanMove(Last(run), Last(run).threads[u])
    ensures Free(Last(run), u)
  {
    RunInv(run, |run| - 1);
    assert forall v <- Last(run).threads :: HoldsRec(Last(run).threads[v]) <==> Last(run).rec == Some(v);
    assert forall v <- Last(run).threads :: HoldsLife(Last(run).threads[v]) <==> Last(run).life == Some(v);
  }

  /** The session's pods vanish. */
  lemma PodsVanish(run: seq<State>) returns (run': seq<State>)
    requires IsRun(run)
    ensures IsRun(run') && run <= run' && Last(run') == Last(run).(pods := Last(run').pods)
    ensures NoneOfSession(Last(run').pods, Last(run).spec.session)
  {
    var s := Last(run);
    var left := map n | n in s.pods && s.pods[n].session != s.spec.session :: s.pods[n];
    assert Enabled(s, Cluster(left));
    var s' := Apply(s, Cluster(left));
    Append(run, s');
    run' := run + [s'];
  }

  /** What is left open can be chosen so. */
  lemma ChosenIsOk(s: State, th: Thread, c: Choice)
    requires c == Choice(th.StopDelete?, false, false, c.name, "", []) && c.name !in s.pods
    requires th.StopDelete? ==> NoneOfSession(s.pods, s.spec.session)
    ensures ChoiceOk(s, th, c)
  {}

  /** Where a deletion leads does not depend on the pods. */
  lemma VanishedDoesNotMatter(s: State, s': State, th: Thread, c: Choice)
    requires s' == s.(pods := s'.pods) && th.StopDelete?
    ensures ThreadAfter(s', th, c) == ThreadAfter(s, th, c) && StateAfter(s', th) == StateAfter(s, th)
  {}

  /** One move: a listing or another API call fails, but a stop's deletion succeeds
      once the pods are gone. */
  lemma OneMove(run: seq<State>, u: nat) returns (run': seq<State>, c: Choice)
    requires IsRun(run) && u in Last(run).threads && !IsEnd(Last(run).threads[u])
    requires CanMove(Last(run), Last(run).threads[u])
    ensures IsRun(run') && run <= run' && OthersStand(Last(run), Last(run'), u)
    ensures Rank(Last(run').threads[u]) < Rank(Last(run).threads[u])
    ensures Last(run').state == StateAfter(Last(run), Last(run).threads[u])
    ensures Last(run').threads[u] == ThreadAfter(Last(run), Last(run).threads[u], c)
    ensures Last(run).threads[u].StopDelete? ==> c.ok
  {
    hide ThreadAfter, StateAfter, Rank, ChoiceOk, Free, CanMove, HoldsRec, HoldsLife;
    var th := Last(run).threads[u];
    run' := run;
    if th.StopDelete? {
      run' := PodsVanish(run);
      assert CanMove(Last(run'), th) by { CanMoveStill(Last(run), Last(run'), th); }
    }
    var s := Last(run');
    var name := Strings.LongerThanAll(s.pods.Keys);
    c := Choice(th.StopDelete?, false, false, name, "", []);
    FreeIfNobodyHolds(run', u);
    ChosenIsOk(s, th, c);
    Descends(s, th, c);
    if th.StopDelete? {
      VanishedDoesNotMatter(Last(run), s, th, c);
    }
    run' := Take(run', u, c);
  }

  lemma CanMoveStill(s: State, s': State, th: Thread)
    requires CanMove(s, th) && s'.rec == s.rec && s'.life == s.life
    ensures CanMove(s', th)
  {}

  /** Who holds what, at the end of a run. */
  lemma Holders(run: seq<State>)
    requires IsRun(run)
    ensures var s := Last(run);
      && (forall v <- s.threads :: HoldsRec(s.threads[v]) <==> s.rec == Some(v))
      && (forall v <- s.threads :: HoldsLife(s.threads[v]) <==> s.life == Some(v))
      && (s.rec.Some? ==> s.rec.value in s.threads) && (s.life.Some? ==> s.life.value in s.threads)
  {
    RunInv(run, |run| - 1);
  }

  /** The holder of reconcileMu comes to let go of it; nobody else moves. */
  lemma {:induction false} ReleasesRec(run: seq<State>, u: nat) returns (run': seq<State>)
    requires IsRun(run) && u in Last(run).threads && HoldsRec(Last(run).threads[u])
    ensures IsRun(run') && run <= run' && OthersStand(Last(run), Last(run'), u) && Last(run').rec.None?
    decreases Rank(Last(run).threads[u])
  {
    Holders(run);
    TakenInOrder(Last(run).threads[u]);
    var next, c := OneMove(run, u);
    Holders(next);
    if HoldsRec(Last(next).threads[u]) {
      run' := ReleasesRec(next, u);
    } else {
      run' := next;
      assert forall v <- Last(run).threads | v != u :: !HoldsRec(Last(run).threads[v]);
    }
  }

  /** reconcileMu becomes free, and whoever did not hold it stands where it stood. */
  lemma FreesRec(run: seq<State>) returns (run': seq<State>)
    requires IsRun(run)
    ensures IsRun(run') && run <= run' && Last(run').rec.None?
    ensures Last(run').threads.Keys == Last(run).threads.Keys
    ensures forall v <- Last(run).threads | !HoldsRec(Last(run).threads[v]) ::
      Last(run').threads[v] == Last(run).threads[v]
  {
    Holders(run);
    run' := run;
    if Last(run).rec.Some? {
      run' := ReleasesRec(run, Last(run).rec.value);
    }
  }

  /** The holder of lifecycleMu comes to let go of it, past reconcileMu if need be. */
  lemma {:induction false} ReleasesLife(run: seq<State>, u: nat) returns (run': seq<State>)
    requires IsRun(run) && u in Last(run).threads && HoldsLife(Last(run).threads[u])
    ensures IsRun(run') && run <= run' && Last(run').life.None?
    ensures Last(run').threads.Keys == Last(run).threads.Keys
    ensures forall v <- Last(run).threads | v != u && !HoldsRec(Last(run).threads[v]) ::
      Last(run').threads[v] == Last(run).threads[v]
    decreases Rank(Last(run).threads[u])
  {
    TakenInOrder(Last(run).threads[u]);
    var free := run;
    if LocksRec(Last(run).threads[u]) {
      free := FreesRec(run);
    }
    var next, c := OneMove(free, u);
    Holders(next);
    run' := next;
    if HoldsLife(Last(next).threads[u]) {
      run' := ReleasesLife(next, u);
    } else if Last(next).life.Some? {
      LifeWasFree(free, next, u);
    }
  }

  lemma LifeWasFree(run: seq<State>, next: seq<State>, u: nat)
    requires IsRun(run) && IsRun(next) && u in Last(run).threads && HoldsLife(Last(run).threads[u])
    requires OthersStand(Last(run), Last(next), u) && !HoldsLife(Last(next).threads[u])
    ensures Last(next).life.None?
  {
    Holders(run);
    Holders(next);
    assert forall v <- Last(run).threads | v != u :: !HoldsLife(Last(run).threads[v]);
  }

  /** What the call waits for becomes free, while it stands. */
  lemma BecomesFree(run: seq<State>, u: nat) returns (run': seq<State>)
    requires IsRun(run) && u in Last(run).threads
    ensures IsRun(run') && run <= run' && u in Last(run').threads
    ensures Last(run').threads[u] == Last(run).threads[u] && CanMove(Last(run'), Last(run').threads[u])
  {
    TakenInOrder(Last(run).threads[u]);
    Holders(run);
    run' := run;
    if LocksRec(Last(run).threads[u]) {
      run' := FreesRec(run);
    } else if LocksLife(Last(run).threads[u]) && Last(run).life.Some? {
      run' := ReleasesLife(run, Last(run).life.value);
    }
  }

  /** No deadlock: from every reachable state every call, of CreateSession, of a
      reconcile pass or of stopSession, can come to its end. */
  lemma {:induction false} NoDeadlock(run: seq<State>, u: nat) returns (run': seq<State>)
    requires IsRun(run) && u in Last(run).threads
    ensures IsRun(run') && run <= run' && u in Last(run').threads && IsEnd(Last(run').threads[u])
    decreases Rank(Last(run).threads[u])
  {
    run' := run;
    if !IsEnd(Last(run).threads[u]) {
      var free := BecomesFree(run, u);
      var next, c := OneMove(free, u);
      run' := NoDeadlock(next, u);
    }
  }

  /** stopSession has decided to stop the session, and has not failed to. */
  predicate WillStop(s: State, th: Thread) {
    || th.StopSetState? || th.StopCancel? || th.StopWantRec? || th.StopDelete? || th.StopDeleted?
    || ((th == StopUnlockRec(true) || th == StopUnlockLife(true)) && s.state == STOPPED)
  }

  lemma {:induction false} StopsFrom(run: seq<State>, u: nat) returns (run': seq<State>)
    requires IsRun(run) && u in Last(run).threads && WillStop(Last(run), Last(run).threads[u])
    ensures IsRun(run') && run <= run' && u in Last(run').threads
    ensures Last(run').threads[u] == StopDone(true) && Last(run').state == STOPPED
    decreases Rank(Last(run).threads[u])
  {
    run' := StopsOnce(run, u);
    if Last(run').threads[u] != StopDone(true) {
      run' := StopsFrom(run', u);
    }
  }

  lemma WillStopOn(s: State, s': State, th: Thread, c: Choice)
    requires WillStop(s, th) && (th.StopDelete? ==> c.ok) && s'.state == StateAfter(s, th)
    ensures ThreadAfter(s, th, c) == StopDone(true) ==> s'.state == STOPPED
    ensures ThreadAfter(s, th, c) != StopDone(true) ==> WillStop(s', ThreadAfter(s, th, c))
    ensures !IsEnd(th) && !LocksLife(th) && (LocksRec(th) ==> th.StopWantRec?)
  {}

  lemma StopsOnce(run: seq<State>, u: nat) returns (run': seq<State>)
    requires IsRun(run) && u in Last(run).threads && WillStop(Last(run), Last(run).threads[u])
    ensures IsRun(run') && run <= run' && u in Last(run').threads
    ensures if Last(run').threads[u] == StopDone(true) then Last(run').state == STOPPED
            else WillStop(Last(run'), Last(run').threads[u])
    ensures Rank(Last(run').threads[u]) < Rank(Last(run).threads[u])
  {
    hide ThreadAfter, StateAfter, Rank, LocksRec, LocksLife, WillStop;
    var th := Last(run).threads[u];
    WillStopOn(Last(run), Last(run).(state := StateAfter(Last(run), th)), th, PLAIN);
    var free := run;
    if th.StopWantRec? {
      free := BecomesFree(run, u);
    }
    assert WillStop(Last(free), th) by { WillStopStill(Last(run), Last(free), th); }
    ghost var c;
    run', c := OneMove(free, u);
    WillStopOn(Last(free), Last(run'), th, c);
  }

  lemma WillStopStill(s: State, s': State, th: Thread)
    requires WillStop(s, th) && (s' == s || th.StopWantRec?)
    ensures WillStop(s', th)
  {}

  /** From every reachable state a stopSession that is about to begin can end, with the
      session in a terminal state: STOPPED by its own doing unless it found the
      session over already. */
  lemma StopCanStop(run: seq<State>, u: nat) returns (run': seq<State>)
    requires IsRun(run) && u in Last(run).threads && Last(run).threads[u].StopWantLife?
    ensures IsRun(run') && run <= run' && u in Last(run').threads
    ensures Last(run').threads[u].StopDone? && IsTerminalState(Last(run').state)
    ensures Last(run').threads[u].stopped ==> Last(run').state == STOPPED
  {
    run' := Decides(run, u);
    if Last(run').threads[u].StopSetState? {
      run' := StopsFrom(run', u);
    } else {
      ghost var c;
      run', c := OneMove(run', u);
    }
  }

  /** It comes to its check and goes on, or finds the session over. */
  lemma Decides(run: seq<State>, u: nat) returns (run': seq<State>)
    requires IsRun(run) && u in Last(run).threads && Last(run).threads[u].StopWantLife?
    ensures IsRun(run') && run <= run' && u in Last(run').threads
    ensures Last(run').threads[u].StopSetState?
            || (Last(run').threads[u] == StopUnlockLife(false) && IsTerminalState(Last(run').state))
  {
    ghost var c;
    run' := BecomesFree(run, u);
    run', c := OneMove(run', u);
    run', c := OneMove(run', u);
  }

  /** removeNodeAgent can come to forget its node: its deletion succeeds once the pods
      are gone. */
  lemma RemovalCanSucceed(run: seq<State>, u: nat) returns (run': seq<State>)
    requires IsRun(run) && u in Last(run).threads
    requires Last(run).threads[u].Work? && Last(run).threads[u].pc.RemoveDelete?
    ensures IsRun(run') && run <= run' && u in Last(run').threads
    ensures Last(run').threads[u].Work? && Last(run').threads[u].pc == Finished(true)
    ensures Last(run').maps == Last(run).maps.RemoveAgent(Last(run).threads[u].group.node)
  {
    var forgetting := DeletesAgents(run, u);
    FreeIfNobodyHolds(forgetting, u);
    run' := Take(forgetting, u, PLAIN);
  }

  lemma DeletesAgents(run: seq<State>, u: nat) returns (run': seq<State>)
    requires IsRun(run) && u in Last(run).threads
    requires Last(run).threads[u].Work? && Last(run).threads[u].pc.RemoveDelete?
    ensures IsRun(run') && run <= run' && Last(run').maps == Last(run).maps && u in Last(run').threads
    ensures Last(run').threads[u] == Last(run).threads[u].(pc := RemoveForget)
  {
    var gone := PodsVanish(run);
    FreeIfNobodyHolds(gone, u);
    run' := Take(gone, u, PLAIN);
  }

  /** An agent that can be kept can be taken over, under its own stream id. */
  lemma AgentCanBeReused(run: seq<State>, u: nat, name: string) returns (run': seq<State>)
    requires IsRun(run) && u in Last(run).threads && Last(run).threads[u].Work? && Last(run).threads[u].pc.Find?
    requires Reusable(Last(run).pods, Last(run).spec.session, Last(run).threads[u].group.node, name)
    ensures IsRun(run') && run <= run' && u in Last(run').threads && Last(run').threads[u].Work?
    ensures Last(run').threads[u].pc == Record(name, Last(run).pods[name].stream)
  {
    FreeIfNobodyHolds(run, u);
    run' := Take(run, u, PLAIN.(name := name));
  }
}
