/** How many agents of a session a node can have (pkg/hub/agent/lifecycle.go
    CreateForNode under the control plane of StopProtocol): one, unless a Create
    takes effect late, after its client has given up on it. */
module AgentPods {
  import opened Records
  import opened Discovery
  import opened Assignments
  import opened Pods
  import opened StopProtocol

  // ---- One agent per node ----

  /** One agent pod at most on each node, and none where one is about to be created. */
  ghost predicate OneOk(s: State) {
    && OnePerNode(s.pods, s.spec.session)
    && forall t <- s.threads | IsCreating(s.threads[t]) :: NoneOnNode(s.pods, s.spec.session, s.threads[t].group.node)
  }

  predicate IsCreating(th: Thread) {
    th.Work? && th.pc.Create?
  }

  /** An abandoned Create lands only on a node that has no agent and on which none
      is about to be created. */
  ghost predicate Harmless(s: State, step: Step) {
    step.Land? ==>
      && NoneOnNode(s.pods, s.spec.session, step.pod.node)
      && forall t <- s.threads | IsCreating(s.threads[t]) :: s.threads[t].group.node != step.pod.node
  }

  ghost predicate HarmlessNext(s: State, s': State) {
    exists step :: Enabled(s, step) && Harmless(s, step) && s' == Apply(s, step)
  }

  ghost predicate HarmlessStepAt(run: seq<State>, i: nat)
    requires 0 < i < |run|
  {
    HarmlessNext(run[i - 1], run[i])
  }

  lemma CreatePath(s: State, th: Thread, c: Choice)
    requires ChoiceOk(s, th, c)
    ensures var th' := ThreadAfter(s, th, c);
      th'.Work? && th'.pc.Create? ==>
        th.Work? && th.pc.Clear? && th.group == th'.group && NoneOnNode(s.pods, s.spec.session, th.group.node)
  {}

  lemma OneAct(s: State, t: nat, c: Choice)
    requires MutexInv(s) && OneOk(s) && Enabled(s, Act(t, c))
    ensures OneOk(Apply(s, Act(t, c)))
  {
    var th := s.threads[t];
    CreatePath(s, th, c);
    if CanCreate(th) {
      NobodyElseCreates(s, t);
    }
  }

  lemma OneLands(s: State, name: string, pod: Pods.Pod)
    requires OneOk(s) && InflightInv(s) && Enabled(s, Land(name, pod))
    ensures OneOk(Apply(s, Land(name, pod))) <==> Harmless(s, Land(name, pod))
  {
    var s' := Apply(s, Land(name, pod));
    assert name in s'.pods && OnNode(s'.pods[name], s.spec.session, pod.node);
    if OneOk(s') {
      forall n | n in s.pods
        ensures !OnNode(s.pods[n], s.spec.session, pod.node)
      {
        assert n in s'.pods && n != name;
      }
    }
  }

  /** A step keeps one agent per node exactly if it is harmless. */
  lemma OneStep(s: State, step: Step)
    requires OneOk(s) && InflightInv(s) && MutexInv(s) && Enabled(s, step)
    ensures OneOk(Apply(s, step)) <==> Harmless(s, step)
  {
    match step
    case Act(t, c) => OneAct(s, t, c);
    case Cluster(pods) => DriftsKeeps(s.pods, pods, s.spec.session);
    case Land(name, pod) => OneLands(s, name, pod);
    case _ =>
  }

  lemma OneNext(s: State, s': State)
    requires OneOk(s) && InflightInv(s) && MutexInv(s) && Next(s, s')
    ensures OneOk(s') <==> HarmlessNext(s, s')
  {
    if HarmlessNext(s, s') {
      var step :| Enabled(s, step) && Harmless(s, step) && s' == Apply(s, step);
      OneStep(s, step);
    } else {
      var step :| Enabled(s, step) && s' == Apply(s, step);
      OneStep(s, step);
    }
  }

  lemma OneNextAt(run: seq<State>, i: nat)
    requires IsRun(run) && 0 < i < |run| && OneOk(run[i - 1])
    ensures OneOk(run[i]) <==> HarmlessStepAt(run, i)
  {
    RunInv(run, i - 1);
    LocksExclude(run[i - 1]);
    assert StepAt(run, i);
    OneNext(run[i - 1], run[i]);
  }

  lemma {:induction false} OneUpTo(run: seq<State>, i: nat)
    requires IsRun(run) && i < |run| && forall k | 0 < k <= i :: HarmlessStepAt(run, k)
    ensures OneOk(run[i])
  {
    if i > 0 {
      OneUpTo(run, i - 1);
      OneNextAt(run, i);
    }
  }

  /** There is one agent pod at most on each node, and none where one is about to be
      created, all along, exactly in the runs in which every Create that lands after
      its client gave up does so harmlessly. */
  lemma OneAgentExactly(run: seq<State>)
    requires IsRun(run)
    ensures (forall i | 0 <= i < |run| :: OneOk(run[i])) <==> (forall i | 0 < i < |run| :: HarmlessStepAt(run, i))
  {
    if forall i | 0 < i < |run| :: HarmlessStepAt(run, i) {
      forall i | 0 <= i < |run|
        ensures OneOk(run[i])
      {
        OneUpTo(run, i);
      }
    } else {
      var i :| 0 < i < |run| && !HarmlessStepAt(run, i);
      if OneOk(run[i - 1]) {
        OneNextAt(run, i);
      }
    }
  }

  /** At most one agent pod, so at most one reusable one, on each node, as long as
      every landing so far was harmless. */
  lemma OneAgentPod(run: seq<State>, i: nat, m: string, n: string, node: Node)
    requires IsRun(run) && i < |run| && forall k | 0 < k <= i :: HarmlessStepAt(run, k)
    requires m in run[i].pods && n in run[i].pods
    requires OnNode(run[i].pods[m], run[i].spec.session, node) && OnNode(run[i].pods[n], run[i].spec.session, node)
    ensures m == n
  {
    OneUpTo(run, i);
  }

  // ---- A run with two agents on a node ----

  const GROUP_A := NodeGroup("a", [PodRef("", "", "u", "a")])
  const GROUP_B := NodeGroup("b", [PodRef("", "", "v", "b")])

  /** The group that CreateSession finds, and the one that later passes find. */
  function GroupOf(owner: Owner): NodeGroup {
    if owner.ByStart? then GROUP_A else GROUP_B
  }

  /** How CreateSession and a pass go on when all goes well, up to a Create, whose
      answer is left open, and to their end. */
  function Script(th: Thread): Thread {
    match th
    case StartList => StartWantRec([GROUP_A])
    case StartWantRec(_) => Loop(ByStart, [GROUP_A])
    case StartSucceeded => StartUnlockLife(true)
    case StartUnlockLife(_) => Live(true)
    case ReconWantRec => ReconCheck
    case ReconCheck => ReconList
    case ReconList => Loop(ByReconcile, [GROUP_B])
    case ReconUnlock => ReconDone
    case Loop(owner, todo) =>
      if todo != [] then Work(owner, [], todo[0], Look) else if owner.ByStart? then StartSucceeded else ReconUnlock
    case Work(owner, _, group, pc) =>
      (match pc
       case Look => Work(owner, [], group, Forget)
       case Forget => Work(owner, [], group, Check)
       case Check => Work(owner, [], group, Begin)
       case Begin => Work(owner, [], group, Find)
       case Find => Work(owner, [], group, Clear)
       case Clear => Work(owner, [], group, Create)
       case Record(_, _) => Work(owner, [], group, Unlock)
       case Unlock => Work(owner, [], group, Parked)
       case Parked => Work(owner, [], group, Relock(true))
       case Relock(_) => Work(owner, [], group, After(true))
       case After(_) => Work(owner, [], group, Finished(true))
       case _ => Loop(owner, []))
    case _ => th
  }

  /** How many moves of the script are left before the next Create. */
  function BeforeCreate(th: Thread): nat {
    match th
    case StartList => 9
    case StartWantRec(_) => 8
    case ReconWantRec => 10
    case ReconCheck => 9
    case ReconList => 8
    case Loop(_, todo) => if todo != [] then 7 else 0
    case Work(_, _, _, pc) =>
      (match pc
       case Look => 6
       case Forget => 5
       case Check => 4
       case Begin => 3
       case Find => 2
       case Clear => 1
       case _ => 0)
    case _ => 0
  }

  /** ... and how many after it, up to the end. */
  function BeforeEnd(th: Thread): nat {
    match th
    case Work(_, _, _, pc) =>
      (match pc
       case Record(_, _) => 9
       case Unlock => 8
       case Parked => 7
       case Relock(_) => 6
       case After(_) => 5
       case Finished(_) => 4
       case _ => 0)
    case Loop(_, todo) => if todo == [] then 3 else 0
    case StartSucceeded => 2
    case StartUnlockLife(_) => 1
    case ReconUnlock => 2
    case _ => 0
  }

  function OwnerOf(th: Thread): Owner {
    match th
    case Loop(owner, _) => owner
    case Work(owner, _, _, _) => owner
    case _ => if IsCreator(th) then ByStart else ByReconcile
  }

  /** `th` is a position of the script. */
  predicate Scripted(th: Thread) {
    match th
    case StartWantRec(groups) => groups == [GROUP_A]
    case StartUnlockLife(ok) => ok
    case Live(ok) => ok
    case Loop(owner, todo) => todo == [] || todo == [GroupOf(owner)]
    case Work(owner, todo, group, pc) =>
      && todo == [] && group == GroupOf(owner)
      && (pc.Relock? || pc.After? ==> pc.ready)
      && (owner.ByStart? && pc.Finished? ==> pc.ok)
    case _ => true
  }

  function Answer(th: Thread): Choice {
    PLAIN.(groups := [GroupOf(OwnerOf(th))])
  }

  /** The state lets the script go on: no agent on the node before a Create. */
  ghost predicate Goes(s: State, th: Thread) {
    && !s.cancelled && SessionScheduling(s.state) && Scripted(th)
    && (OwnerOf(th).ByReconcile? || th.StartSucceeded? || th.StartUnlockLife? || th.Live? ==> s.state == RUNNING)
    && (BeforeCreate(th) > 0 ==> NoneOnNode(s.pods, s.spec.session, GroupOf(OwnerOf(th)).node))
    && (BeforeCreate(th) >= 3 ==> GroupOf(OwnerOf(th)).node !in s.ensuring)
  }

  lemma ScriptIsRight(s: State, th: Thread)
    requires Goes(s, th) && BeforeCreate(th) + BeforeEnd(th) > 0
    ensures ChoiceOk(s, th, Answer(th)) && ThreadAfter(s, th, Answer(th)) == Script(th)
  {}

  lemma ScriptDescends(th: Thread)
    requires Scripted(th) && BeforeCreate(th) + BeforeEnd(th) > 0
    ensures Scripted(Script(th)) && OwnerOf(Script(th)) == OwnerOf(th)
    ensures BeforeCreate(th) > 0 ==> BeforeCreate(Script(th)) == BeforeCreate(th) - 1 && BeforeEnd(Script(th)) == 0
    ensures BeforeEnd(th) > 0 ==> BeforeEnd(Script(th)) < BeforeEnd(th) && BeforeCreate(Script(th)) == 0
    ensures BeforeCreate(th) == 1 ==> Script(th) == Work(OwnerOf(th), [], GroupOf(OwnerOf(th)), Create)
    ensures BeforeEnd(th) > 0 && BeforeEnd(Script(th)) == 0 ==>
      Script(th) == if OwnerOf(th).ByStart? then Live(true) else ReconDone
  {}

  /** Nothing but thread `t` and the maps, and perhaps `ensuring` and the state, has changed. */
  predicate SameButThread(s: State, s': State, t: nat) {
    s'.spec == s.spec && s'.pods == s.pods && s'.inflight == s.inflight && s'.threads - {t} == s.threads - {t}
  }

  lemma ScriptEffect(s: State, t: nat, th: Thread)
    requires Goes(s, th) && BeforeCreate(th) + BeforeEnd(th) > 0
    ensures var s' := ActApply(s, t, th, Answer(th));
      && SameButThread(s, s', t) && !s'.cancelled
      && s'.state == (if th == Loop(ByStart, []) then RUNNING else s.state)
      && s'.ensuring <= s.ensuring + (if BeforeCreate(th) == 3 then {GroupOf(OwnerOf(th)).node} else {})
  {
    ScriptIsRight(s, th);
    assert ActApply(s, t, th, Answer(th)).threads - {t} == s.threads - {t};
  }

  lemma ScriptGoes(s: State, t: nat, th: Thread)
    requires Goes(s, th) && BeforeCreate(th) + BeforeEnd(th) > 0
    ensures Goes(ActApply(s, t, th, Answer(th)), Script(th))
  {
    ScriptEffect(s, t, th);
    ScriptDescends(th);
  }

  /** Only thread `t` is anywhere near a mutex. */
  ghost predicate Alone(run: seq<State>, t: nat, th: Thread) {
    && IsRun(run) && t in Last(run).threads && Last(run).threads[t] == th
    && forall u <- Last(run).threads | u != t :: !HoldsRec(Last(run).threads[u]) && !HoldsLife(Last(run).threads[u])
  }

  lemma AloneTake(run: seq<State>, t: nat, th: Thread, c: Choice) returns (run': seq<State>)
    requires Alone(run, t, th) && ChoiceOk(Last(run), th, c)
    ensures Alone(run', t, ThreadAfter(Last(run), th, c)) && Last(run') == ActApply(Last(run), t, th, c)
  {
    run' := Take(run, t, c);
  }

  /** Thread `t` follows the script, to its Create or to its end. */
  lemma {:induction false} Walk(run: seq<State>, t: nat, th: Thread) returns (run': seq<State>, th': Thread)
    requires Alone(run, t, th) && Goes(Last(run), th)
    ensures Alone(run', t, th') && Goes(Last(run'), th') && OwnerOf(th') == OwnerOf(th)
    ensures BeforeCreate(th) > 0 ==> th' == Work(OwnerOf(th), [], GroupOf(OwnerOf(th)), Create)
    ensures BeforeEnd(th) > 0 ==> th' == if OwnerOf(th).ByStart? then Live(true) else ReconDone
    ensures BeforeCreate(th) + BeforeEnd(th) == 0 ==> th' == th
    ensures SameButThread(Last(run), Last(run'), t)
    ensures Last(run').ensuring <=
      Last(run).ensuring + if BeforeCreate(th) >= 3 then {GroupOf(OwnerOf(th)).node} else {}
    decreases BeforeCreate(th) + BeforeEnd(th)
  {
    run', th' := run, th;
    if BeforeCreate(th) + BeforeEnd(th) > 0 {
      ScriptIsRight(Last(run), th);
      ScriptDescends(th);
      ScriptEffect(Last(run), t, th);
      ScriptGoes(Last(run), t, th);
      var next := AloneTake(run, t, th, Answer(th));
      run', th' := Walk(next, t, Script(th));
    }
  }

  /** A Create that makes its pod. */
  lemma CreateMakes(run: seq<State>, t: nat, owner: Owner, name: string) returns (run': seq<State>)
    requires Alone(run, t, Work(owner, [], GroupOf(owner), Create)) && name !in Last(run).pods
    ensures Alone(run', t, Work(owner, [], GroupOf(owner), Record(name, "")))
    ensures var s, s' := Last(run), Last(run');
      && SameButThread(s.(pods := s.pods[name := NewPod(s.spec.session, GroupOf(owner).node, "")]), s', t)
      && s'.state == s.state && s'.ensuring == s.ensuring && s'.cancelled == s.cancelled
  {
    run' := AloneTake(run, t, Work(owner, [], GroupOf(owner), Create), PLAIN.(name := name));
    assert Last(run').threads - {t} == Last(run).threads - {t};
  }

  /** A Create whose client gives up before it takes effect. */
  lemma CreatePends(run: seq<State>, t: nat, name: string) returns (run': seq<State>)
    requires Alone(run, t, Work(ByReconcile, [], GROUP_B, Create)) && name !in Last(run).pods
    requires !Last(run).cancelled && Last(run).state == RUNNING
    ensures Alone(run', t, Work(ByReconcile, [], GROUP_B, Finished(false)))
    ensures Goes(Last(run'), Work(ByReconcile, [], GROUP_B, Finished(false))) && "b" !in Last(run').ensuring
    ensures var s := Last(run);
      SameButThread(s.(inflight := s.inflight + multiset{NewPod(s.spec.session, "b", "")}), Last(run'), t)
  {
    run' := AloneTake(run, t, Work(ByReconcile, [], GROUP_B, Create), Choice(false, false, true, name, "", []));
    assert Last(run').threads - {t} == Last(run).threads - {t};
  }

  lemma Locked(spec: Spec) returns (run: seq<State>)
    ensures Alone(run, 0, StartSetState) && !Last(run).cancelled && Last(run).threads - {0} == map[]
    ensures Last(run).spec == spec && Last(run).pods == map[] && Last(run).ensuring == {}
  {
    run := Take([InitialState(spec, map[])], 0, PLAIN);
  }

  lemma Listing(spec: Spec) returns (run: seq<State>)
    ensures Alone(run, 0, StartList) && Last(run).state == STARTING && !Last(run).cancelled
    ensures Last(run).spec == spec && Last(run).pods == map[] && Last(run).ensuring == {}
    ensures Last(run).threads - {0} == map[]
  {
    var locked := Locked(spec);
    run := AloneTake(locked, 0, StartSetState, PLAIN);
    assert Last(run).threads - {0} == Last(locked).threads - {0};
  }

  /** CreateSession has returned, no pod of the session is on node b, and no thread
      but `t` has been near a mutex since. */
  ghost predicate Running(run: seq<State>, t: nat, th: Thread) {
    && Alone(run, t, th) && !HoldsRec(th) && !HoldsLife(th)
    && 0 in Last(run).threads && Last(run).threads[0] == Live(true)
    && Last(run).state == RUNNING && !Last(run).cancelled
    && Last(run).pods == map["p" := NewPod(Last(run).spec.session, "a", "")] && "b" !in Last(run).ensuring
  }

  lemma StartIsCreating(spec: Spec) returns (run: seq<State>)
    ensures var th := Work(ByStart, [], GROUP_A, Create); Alone(run, 0, th) && Goes(Last(run), th)
    ensures Last(run).spec == spec && Last(run).threads - {0} == map[]
    ensures Last(run).pods == map[] && "b" !in Last(run).ensuring
  {
    var listing := Listing(spec);
    var th;
    run, th := Walk(listing, 0, StartList);
  }

  lemma StartCreates(spec: Spec) returns (run: seq<State>)
    ensures var th := Work(ByStart, [], GROUP_A, Record("p", "")); Alone(run, 0, th) && Goes(Last(run), th)
    ensures Last(run).spec == spec && Last(run).threads - {0} == map[]
    ensures Last(run).pods == map["p" := NewPod(spec.session, "a", "")] && "b" !in Last(run).ensuring
  {
    var creating := StartIsCreating(spec);
    run := CreateMakes(creating, 0, ByStart, "p");
  }

  lemma StartsOnA(spec: Spec) returns (run: seq<State>)
    ensures Running(run, 0, Live(true)) && Last(run).spec == spec && Last(run).threads - {0} == map[]
  {
    var created := StartCreates(spec);
    var live;
    run, live := Walk(created, 0, Work(ByStart, [], GROUP_A, Record("p", "")));
  }

  lemma PassBegins(run: seq<State>, t: nat, th: Thread, u: nat) returns (run': seq<State>)
    requires Running(run, t, th) && u !in Last(run).threads
    ensures Alone(run', u, ReconWantRec) && Last(run') == Last(run).(threads := Last(run').threads)
    ensures Last(run').threads - {u} == Last(run).threads
  {
    assert Enabled(Last(run), SpawnReconcile(u, 0));
    var s' := Apply(Last(run), SpawnReconcile(u, 0));
    Append(run, s');
    run' := run + [s'];
    assert s'.threads - {u} == Last(run).threads;
  }

  /** The next pass finds a pod on node b and gets to its Create there. */
  lemma PassCreates(run: seq<State>, t: nat, th: Thread, u: nat) returns (run': seq<State>)
    requires Running(run, t, th) && u !in Last(run).threads
    ensures Alone(run', u, Work(ByReconcile, [], GROUP_B, Create))
    ensures Goes(Last(run'), Work(ByReconcile, [], GROUP_B, Create))
    ensures Last(run').spec == Last(run).spec && Last(run').pods == Last(run).pods
    ensures Last(run').inflight == Last(run).inflight && Last(run').threads - {u} == Last(run).threads
    ensures Last(run').ensuring <= Last(run).ensuring + {"b"}
  {
    var begun := PassBegins(run, t, th, u);
    var th';
    run', th' := Walk(begun, u, ReconWantRec);
  }

  /** The client of its Create gives up, and the pass ends. */
  lemma PassGivesUp(run: seq<State>) returns (run': seq<State>)
    requires Alone(run, 1, Work(ByReconcile, [], GROUP_B, Create))
    requires Goes(Last(run), Work(ByReconcile, [], GROUP_B, Create)) && "q" !in Last(run).pods
    ensures Alone(run', 1, ReconDone) && Goes(Last(run'), ReconDone) && "b" !in Last(run').ensuring
    ensures Last(run').threads - {1} == Last(run).threads - {1} && Last(run').pods == Last(run).pods
    ensures Last(run').spec == Last(run).spec && NewPod(Last(run).spec.session, "b", "") in Last(run').inflight
  {
    var pending := CreatePends(run, 1, "q");
    var th';
    run', th' := Walk(pending, 1, Work(ByReconcile, [], GROUP_B, Finished(false)));
  }

  lemma StillRunning(run: seq<State>, run': seq<State>)
    requires Running(run, 0, Live(true)) && Alone(run', 1, ReconDone) && Goes(Last(run'), ReconDone)
    requires Last(run').threads - {1} == Last(run).threads && Last(run').pods == Last(run).pods
    requires Last(run').spec == Last(run).spec && "b" !in Last(run').ensuring
    ensures Running(run', 1, ReconDone)
  {
    assert (Last(run').threads - {1})[0] == Live(true);
  }

  lemma AbandonedLands(run: seq<State>) returns (run': seq<State>)
    requires IsRun(run) && NewPod(Last(run).spec.session, "b", "") in Last(run).inflight && "r" !in Last(run).pods
    ensures IsRun(run') && Last(run').spec == Last(run).spec
    ensures Last(run').pods == Last(run).pods["r" := NewPod(Last(run).spec.session, "b", "")]
  {
    var step := Land("r", NewPod(Last(run).spec.session, "b", ""));
    assert Enabled(Last(run), step);
    var s' := Apply(Last(run), step);
    Append(run, s');
    run' := run + [s'];
  }

  lemma FirstPass(spec: Spec) returns (run: seq<State>)
    ensures Running(run, 1, ReconDone) && Last(run).spec == spec && 2 !in Last(run).threads
    ensures NewPod(spec.session, "b", "") in Last(run).inflight
  {
    var started := StartsOnA(spec);
    assert 1 !in Last(started).threads - {0} && 2 !in Last(started).threads - {0};
    var creating := PassCreates(started, 0, Live(true), 1);
    run := PassGivesUp(creating);
    StillRunning(started, run);
    assert 2 !in Last(run).threads - {1};
  }

  /** The client of a pass's Create gives up, the next pass creates an agent, and
      then the first Create takes effect as well. */
  lemma TwoAgentsOnANode(spec: Spec) returns (run: seq<State>)
    ensures IsRun(run) && Last(run).spec == spec
    ensures "q" in Last(run).pods && "r" in Last(run).pods
    ensures OnNode(Last(run).pods["q"], spec.session, "b") && OnNode(Last(run).pods["r"], spec.session, "b")
  {
    var gaveUp := FirstPass(spec);
    var creating := PassCreates(gaveUp, 1, ReconDone, 2);
    var created := CreateMakes(creating, 2, ByReconcile, "q");
    run := AbandonedLands(created);
  }
}
