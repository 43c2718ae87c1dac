/** One session's control plane under concurrency: CreateSession with its
    startSession, any number of reconcile passes, any number of stopSession
    calls, failSession and the cluster interleave (pkg/hub/server.go,
    pkg/hub/watch.go).

    A step is one lock operation, one lock region of the session state, or one
    API call. Every API call may fail; a failed Create may have created its pod,
    or may still do so later. ensureNodeAgent releases reconcileMu while it waits
    for readiness. */
module StopProtocol {
  import opened Records
  import opened Discovery
  import opened Assignments
  import opened Sessions
  import opened Pods
  import Strings

  /** Where ensureNodeAgent (or removeNodeAgent, the Remove pcs) stands. */
  datatype EnsurePc =
    | Look                              // AgentOnNode
    | Forget                            // not found: removeAgent
    | Known                             // found: is there an assignment?
    | Update(stream: string)          // updateAssignment
    | Check                             // context and state still allow a create
    | Begin                             // beginEnsure
    | Find                              // CreateForNode: AgentOnNode again
    | Clear                             // CreateForNode: DeleteAgentOnNode
    | Create                            // CreateForNode: Create
    | Record(pod: string, stream: string)
    | Unlock                            // reconcileMu.Unlock
    | Parked                            // WaitReady, without reconcileMu
    | Relock(ready: bool)
    | After(ready: bool)
    | Abandon                           // abandonNodeAgent: DeleteAgentOnNode
    | AbandonForget                     // abandonNodeAgent: removeAgent
    | Remove                            // removeNodeAgent: is there an assignment?
    | RemoveDelete
    | RemoveForget
    | Finished(ok: bool)

  datatype Owner = ByStart | ByReconcile

  datatype Thread =
    // CreateSession
    | StartWantLife
    | StartSetState
    | StartList
    | StartWantRec(groups: seq<NodeGroup>)
    | StartSucceeded                    // about to release reconcileMu
    | StartUnlockLife(ok: bool)
    | FailDelete                        // failSession, outside lifecycleMu
    | FailSetState
    | FailCancel
    | Live(ok: bool)
    // reconcileSession
    | ReconWantRec
    | ReconCheck
    | ReconList
    | ReconUnlock
    | ReconDone
    // the loop over groups, in startSession or in reconcileSession
    | Loop(owner: Owner, todo: seq<NodeGroup>)
    | StartFailed                       // startSession returns an error holding reconcileMu
    | Work(owner: Owner, todo: seq<NodeGroup>, group: NodeGroup, pc: EnsurePc)
    // stopSession
    | StopWantLife
    | StopCheck
    | StopSetState
    | StopCancel
    | StopWantRec
    | StopDelete
    | StopDeleted
    | StopUnlockRec(stopped: bool)
    | StopUnlockLife(stopped: bool)
    | StopDone(stopped: bool)

  /** `rec` and `life` are the holders of reconcileMu and lifecycleMu. `inflight`
      are the pods of Create requests whose client has given up and that the API
      server has not carried out. */
  datatype State = State(
    spec: Spec,
    pods: PodSet,
    inflight: multiset<Pods.Pod>,
    state: SessionPhase,
    cancelled: bool,
    ensuring: set<Node>,
    maps: Maps,
    rec: Option<nat>,
    life: Option<nat>,
    threads: map<nat, Thread>)

  /** What a step leaves open: whether a call succeeds, whether a Create took
      effect or is still pending, which pod it made or found, which groups a
      listing gave. */
  datatype Choice = Choice(ok: bool, created: bool, pending: bool, name: string, stream: string, groups: seq<NodeGroup>)

  datatype Step =
    | Act(t: nat, c: Choice)
    | SpawnReconcile(t: nat, creator: nat)
    | SpawnStop(t: nat)
    | Cluster(pods: PodSet)
    | Land(name: string, pod: Pods.Pod)

  // ---- The mutexes ----

  predicate LocksRec(th: Thread) {
    th.StartWantRec? || th.ReconWantRec? || th.StopWantRec? || (th.Work? && th.pc.Relock?)
  }

  predicate UnlocksRec(th: Thread) {
    th.StartSucceeded? || th.StartFailed? || th.ReconUnlock? || th.StopUnlockRec? || (th.Work? && th.pc.Unlock?)
  }

  predicate LocksLife(th: Thread) {
    th.StartWantLife? || th.StopWantLife?
  }

  predicate UnlocksLife(th: Thread) {
    th.StartUnlockLife? || th.StopUnlockLife?
  }

  /** The positions between a thread's Lock and its Unlock. */
  predicate HoldsRec(th: Thread) {
    match th
    case StartSucceeded => true
    case StartFailed => true
    case ReconCheck => true
    case ReconList => true
    case ReconUnlock => true
    case Loop(_, _) => true
    case Work(_, _, _, pc) => !pc.Parked? && !pc.Relock?
    case StopDelete => true
    case StopDeleted => true
    case StopUnlockRec(_) => true
    case _ => false
  }

  predicate HoldsLife(th: Thread) {
    match th
    case StartSetState => true
    case StartList => true
    case StartWantRec(_) => true
    case StartSucceeded => true
    case StartFailed => true
    case StartUnlockLife(_) => true
    case Loop(owner, _) => owner.ByStart?
    case Work(owner, _, _, _) => owner.ByStart?
    case StopCheck => true
    case StopSetState => true
    case StopCancel => true
    case StopWantRec => true
    case StopDelete => true
    case StopDeleted => true
    case StopUnlockRec(_) => true
    case StopUnlockLife(_) => true
    case _ => false
  }

  // ---- Where a thread goes next ----

  ghost function EnsureAfter(s: State, group: NodeGroup, pc: EnsurePc, c: Choice): EnsurePc {
    var node := group.node;
    match pc
    case Look => if !c.ok then Finished(false) else if FoundOnNode(s.pods, s.spec.session, node) then Known else Forget
    case Forget => Check
    case Known =>
      if node !in s.maps.assigns then Check
      else if TargetsEqual(s.maps.assigns[node], group) then Finished(true)
      else Update(s.maps.assigns[node].stream)
    case Update(_) => Finished(true)
    case Check => if s.cancelled || !SessionScheduling(s.state) then Finished(false) else Begin
    case Begin => if node in s.ensuring then Finished(true) else Find
    case Find =>
      if !c.ok then Finished(false)
      else if FoundOnNode(s.pods, s.spec.session, node) then
        if c.name in s.pods then Record(c.name, s.pods[c.name].stream) else Finished(false)
      else Clear
    case Clear => if c.ok then Create else Finished(false)
    case Create => if c.ok then Record(c.name, c.stream) else Finished(false)
    case Record(_, _) => Unlock
    case Unlock => Parked
    case Parked => Relock(c.ok)
    case Relock(ready) => After(ready)
    case After(ready) => if !ready || !SessionScheduling(s.state) then Abandon else Finished(true)
    case Abandon => AbandonForget
    case AbandonForget => Finished(false)
    case Remove => if node in s.maps.assigns then RemoveDelete else Finished(true)
    case RemoveDelete => if !c.ok && !s.cancelled then Finished(false) else RemoveForget
    case RemoveForget => Finished(true)
    case Finished(ok) => Finished(ok)
  }

  ghost function DriveAfter(s: State, th: Thread, c: Choice): Thread {
    match th
    case StartWantLife => StartSetState
    case StartSetState => StartList
    case StartList => if c.ok && c.groups != [] then StartWantRec(c.groups) else StartUnlockLife(false)
    case StartWantRec(groups) => Loop(ByStart, groups)
    case StartSucceeded => StartUnlockLife(true)
    case StartFailed => StartUnlockLife(false)
    case StartUnlockLife(ok) => if ok then Live(true) else FailDelete
    case FailDelete => FailSetState
    case FailSetState => FailCancel
    case FailCancel => Live(false)
    case ReconWantRec => ReconCheck
    case ReconCheck => if s.state == RUNNING then ReconList else ReconUnlock
    case ReconList => if c.ok then Loop(ByReconcile, c.groups) else ReconUnlock
    case ReconUnlock => ReconDone
    case StopWantLife => StopCheck
    case StopCheck => if IsTerminalState(s.state) then StopUnlockLife(false) else StopSetState
    case StopSetState => StopCancel
    case StopCancel => StopWantRec
    case StopWantRec => StopDelete
    case StopDelete => if c.ok then StopDeleted else StopUnlockRec(false)
    case StopDeleted => StopUnlockRec(true)
    case StopUnlockRec(stopped) => StopUnlockLife(stopped)
    case StopUnlockLife(stopped) => StopDone(stopped)
    case _ => th
  }

  /** The loops of startSession and of reconcileSession over their groups. */
  ghost function LoopAfter(s: State, owner: Owner, todo: seq<NodeGroup>): Thread {
    if todo == [] then if owner.ByStart? then StartSucceeded else ReconUnlock
    else if owner.ByStart? && s.cancelled then StartFailed
    else Work(owner, todo[1..], todo[0], if owner.ByReconcile? && todo[0].targets == [] then Remove else Look)
  }

  ghost function ResultAfter(s: State, owner: Owner, todo: seq<NodeGroup>, ok: bool): Thread {
    if ok then Loop(owner, todo)
    else if owner.ByStart? then StartFailed
    else if s.cancelled then ReconUnlock
    else Loop(owner, todo)
  }

  ghost function ThreadAfter(s: State, th: Thread, c: Choice): Thread {
    match th
    case Loop(owner, todo) => LoopAfter(s, owner, todo)
    case Work(owner, todo, group, pc) =>
      if pc.Finished? then ResultAfter(s, owner, todo, pc.ok)
      else Work(owner, todo, group, EnsureAfter(s, group, pc, c))
    case _ => DriveAfter(s, th, c)
  }

  // ---- What its move does ----

  function StateAfter(s: State, th: Thread): SessionPhase {
    match th
    case StartSetState => STARTING
    case Loop(owner, todo) => if owner.ByStart? && todo == [] then RUNNING else s.state
    case FailSetState => FAILED
    case StopSetState => STOPPING
    case StopDeleted => STOPPED
    case _ => s.state
  }

  predicate Cancels(th: Thread) {
    th.StopCancel? || th.FailCancel?
  }

  function PodsAfter(s: State, th: Thread, c: Choice): PodSet {
    if th.Work? && th.pc.Create? && c.created then
      s.pods[c.name := NewPod(s.spec.session, th.group.node, c.stream)]
    else s.pods
  }

  function InflightAfter(s: State, th: Thread, c: Choice): multiset<Pods.Pod> {
    if th.Work? && th.pc.Create? && c.pending then
      s.inflight + multiset{NewPod(s.spec.session, th.group.node, c.stream)}
    else s.inflight
  }

  function HolderAfter(holder: Option<nat>, t: nat, locks: bool, unlocks: bool): Option<nat> {
    if locks then Some(t) else if unlocks then None else holder
  }

  /** beginEnsure, and endEnsure on every way out of the path that follows it. */
  function EnsuringAfter(s: State, th: Thread, th': Thread): set<Node> {
    if !th.Work? || !th'.Work? then s.ensuring
    else if th.pc.Begin? && th'.pc.Find? then s.ensuring + {th.group.node}
    else if (th.pc.Find? || th.pc.Clear? || th.pc.Create? || th.pc.After? || th.pc.AbandonForget?) && th'.pc.Finished?
    then s.ensuring - {th.group.node}
    else s.ensuring
  }

  /** recordAgent, updateAssignment, removeAgent. */
  function MapsAfter(s: State, th: Thread): Maps {
    if !th.Work? then s.maps
    else
      var node := th.group.node;
      match th.pc
      case Record(pod, stream) => s.maps.RecordAgent(node, pod, stream, AssignmentOf(s.spec, th.group, stream))
      case Update(stream) => s.maps.UpdateAssignment(node, AssignmentOf(s.spec, th.group, stream))
      case Forget => s.maps.RemoveAgent(node)
      case AbandonForget => s.maps.RemoveAgent(node)
      case RemoveForget => s.maps.RemoveAgent(node)
      case _ => s.maps
  }

  // ---- Steps and runs ----

  /** The choice is one the cluster and the discovery can make. */
  ghost predicate ChoiceOk(s: State, th: Thread, c: Choice) {
    match th
    case StartList => WellGrouped(c.groups)
    case ReconList => WellGrouped(c.groups)
    case StopDelete => c.ok ==> NoneOfSession(s.pods, s.spec.session)
    case Work(_, _, group, pc) =>
      (match pc
       case Find =>
         c.ok && FoundOnNode(s.pods, s.spec.session, group.node) ==>
           Reusable(s.pods, s.spec.session, group.node, c.name)
       case Clear => c.ok ==> NoneOnNode(s.pods, s.spec.session, group.node)
       case Abandon => c.ok ==> NoneOnNode(s.pods, s.spec.session, group.node)
       case RemoveDelete => c.ok ==> NoneOnNode(s.pods, s.spec.session, group.node)
       case Create => c.name !in s.pods && (c.ok ==> c.created) && (c.created ==> !c.pending)
       case _ => true)
    case _ => true
  }

  ghost predicate Enabled(s: State, step: Step) {
    match step
    case Act(t, c) =>
      && t in s.threads
      && ChoiceOk(s, s.threads[t], c)
      && (LocksRec(s.threads[t]) ==> s.rec.None?)
      && (LocksLife(s.threads[t]) ==> s.life.None?)
    case SpawnReconcile(t, creator) => t !in s.threads && creator in s.threads && s.threads[creator] == Live(true)
    case SpawnStop(t) => t !in s.threads
    case Cluster(pods) => Drifts(s.pods, pods, s.spec.session)
    case Land(name, pod) => pod in s.inflight && name !in s.pods
  }

  ghost function ActApply(s: State, t: nat, th: Thread, c: Choice): State {
    var th' := ThreadAfter(s, th, c);
    State(s.spec, PodsAfter(s, th, c), InflightAfter(s, th, c), StateAfter(s, th), s.cancelled || Cancels(th),
          EnsuringAfter(s, th, th'), MapsAfter(s, th),
          HolderAfter(s.rec, t, LocksRec(th), UnlocksRec(th)), HolderAfter(s.life, t, LocksLife(th), UnlocksLife(th)),
          s.threads[t := th'])
  }

  ghost function Apply(s: State, step: Step): State
    requires Enabled(s, step)
  {
    match step
    case Act(t, c) => ActApply(s, t, s.threads[t], c)
    case SpawnReconcile(t, _) => s.(threads := s.threads[t := ReconWantRec])
    case SpawnStop(t) => s.(threads := s.threads[t := StopWantLife])
    case Cluster(pods) => s.(pods := pods)
    case Land(name, pod) => s.(pods := s.pods[name := pod], inflight := s.inflight - multiset{pod})
  }

  function InitialState(spec: Spec, pods: PodSet): State {
    State(spec, pods, multiset{}, PENDING, false, {}, Maps(map[], map[]), None, None, map[0 := StartWantLife])
  }

  /** A new session: one creator, no pod of the session yet. */
  ghost predicate Init(s: State) {
    && NoneOfSession(s.pods, s.spec.session)
    && s == InitialState(s.spec, s.pods)
  }

  ghost predicate Next(s: State, s': State) {
    exists step :: Enabled(s, step) && s' == Apply(s, step)
  }

  ghost predicate StepAt(run: seq<State>, i: nat)
    requires 0 < i < |run|
  {
    Next(run[i - 1], run[i])
  }

  ghost predicate IsRun(run: seq<State>) {
    && |run| > 0
    && Init(run[0])
    && forall i | 0 < i < |run| :: StepAt(run, i)
  }

  // ---- The inductive invariant ----

  /** A mutex is held exactly by the thread that is between its Lock and Unlock. */
  ghost predicate LockInv(s: State) {
    && (forall t <- s.threads :: HoldsRec(s.threads[t]) <==> s.rec == Some(t))
    && (forall t <- s.threads :: HoldsLife(s.threads[t]) <==> s.life == Some(t))
    && (s.rec.Some? ==> s.rec.value in s.threads)
    && (s.life.Some? ==> s.life.value in s.threads)
  }

  ghost predicate MutexInv(s: State) {
    && (forall t, u | t in s.threads && u in s.threads && HoldsRec(s.threads[t]) && HoldsRec(s.threads[u]) :: t == u)
    && (forall t, u | t in s.threads && u in s.threads && HoldsLife(s.threads[t]) && HoldsLife(s.threads[u]) :: t == u)
  }

  predicate CanCreate(th: Thread) {
    th.Work? && (th.pc.Begin? || th.pc.Find? || th.pc.Clear? || th.pc.Create?)
  }

  /** Nobody creates agents any more. */
  ghost predicate Barred(s: State) {
    s.cancelled && forall t <- s.threads :: !CanCreate(s.threads[t])
  }

  predicate StopCancelled(th: Thread) {
    th.StopWantRec? || th.StopDelete? || HasStopped(th)
  }

  predicate HasStopped(th: Thread) {
    th == StopDeleted || th == StopUnlockRec(true) || th == StopUnlockLife(true) || th == StopDone(true)
  }

  ghost predicate StopInv(s: State) {
    && (forall t <- s.threads | StopCancelled(s.threads[t]) :: s.cancelled)
    && (forall t <- s.threads | HasStopped(s.threads[t]) :: Barred(s))
  }

  ghost predicate InflightInv(s: State) {
    forall p <- s.inflight :: p.session == s.spec.session
  }

  ghost predicate ThreadOk(s: State, th: Thread) {
    match th
    case StartWantRec(groups) => WellGrouped(groups)
    case Loop(_, todo) => WellGrouped(todo)
    case Work(_, todo, group, pc) =>
      && WellGrouped(todo) && GroupOk(group)
      && (pc.Update? ==> group.node in s.maps.assigns && s.maps.assigns[group.node].stream == pc.stream)
    case _ => true
  }

  ghost predicate MapsInv(s: State) {
    && MapsAgree(s.maps)
    && forall t <- s.threads :: ThreadOk(s, s.threads[t])
  }

  predicate IsCreator(th: Thread) {
    match th
    case Loop(owner, _) => owner.ByStart?
    case Work(owner, _, _, _) => owner.ByStart?
    case _ =>
      th.StartWantLife? || th.StartSetState? || th.StartList? || th.StartWantRec? || th.StartSucceeded? ||
      th.StartFailed? || th.StartUnlockLife? || th.FailDelete? || th.FailSetState? || th.FailCancel? || th.Live?
  }

  /** startSession is past the last point at which a cancelled context stops it. */
  predicate PastCancel(th: Thread) {
    (th.Loop? && th.owner.ByStart? && th.todo == []) || (th.Work? && th.owner.ByStart?)
  }

  predicate AboutToCancel(th: Thread) {
    th.StopCancel? || th.FailCancel?
  }

  /** Once the context is cancelled, or just before, nothing sets RUNNING again. */
  ghost predicate RunningInv(s: State) {
    && (forall t <- s.threads | IsCreator(s.threads[t]) :: t == 0)
    && (s.cancelled ==> s.state != RUNNING && forall t <- s.threads :: !PastCancel(s.threads[t]))
    && (forall t <- s.threads | AboutToCancel(s.threads[t]) :: s.state != RUNNING)
    && (forall t <- s.threads | s.threads[t].StartWantRec? :: s.threads[t].groups != [])
  }

  ghost predicate Inv(s: State) {
    LockInv(s) && StopInv(s) && InflightInv(s) && MapsInv(s) && RunningInv(s)
  }

  /** A thread locks only what it does not hold, unlocks only what it holds, and
      holds a mutex exactly from its Lock to its Unlock. */
  lemma RecPairs(s: State, th: Thread, c: Choice)
    ensures LocksRec(th) ==> !HoldsRec(th)
    ensures UnlocksRec(th) ==> HoldsRec(th)
    ensures HoldsRec(ThreadAfter(s, th, c)) <==> LocksRec(th) || (HoldsRec(th) && !UnlocksRec(th))
  {}

  lemma LifePairs(s: State, th: Thread, c: Choice)
    ensures LocksLife(th) ==> !HoldsLife(th)
    ensures UnlocksLife(th) ==> HoldsLife(th)
    ensures HoldsLife(ThreadAfter(s, th, c)) <==> LocksLife(th) || (HoldsLife(th) && !UnlocksLife(th))
  {}

  lemma LockAct(s: State, t: nat, c: Choice)
    requires LockInv(s) && Enabled(s, Act(t, c))
    ensures LockInv(Apply(s, Act(t, c)))
  {
    var s' := Apply(s, Act(t, c));
    RecPairs(s, s.threads[t], c);
    LifePairs(s, s.threads[t], c);
    assert s'.threads[t] == ThreadAfter(s, s.threads[t], c);
    assert forall u <- s.threads | u != t :: s'.threads[u] == s.threads[u];
  }

  lemma LocksExclude(s: State)
    requires LockInv(s)
    ensures MutexInv(s)
  {}

  /** Whoever could create holds reconcileMu. */
  lemma NobodyElseCreates(s: State, t: nat)
    requires MutexInv(s) && t in s.threads && HoldsRec(s.threads[t])
    ensures forall u <- s.threads | u != t :: !CanCreate(s.threads[u])
  {}

  /** A move into or along the create path is not possible once all is final. */
  lemma NoNewCreator(s: State, th: Thread, c: Choice)
    requires s.cancelled && !CanCreate(th)
    ensures !CanCreate(ThreadAfter(s, th, c))
  {}

  lemma StopPath(s: State, th: Thread, c: Choice)
    ensures StopCancelled(ThreadAfter(s, th, c)) ==> StopCancelled(th) || Cancels(th)
    ensures HasStopped(ThreadAfter(s, th, c)) ==> HasStopped(th) || (th.StopDelete? && c.ok)
  {}

  lemma StopAct(s: State, t: nat, c: Choice)
    requires MutexInv(s) && StopInv(s) && Enabled(s, Act(t, c))
    ensures StopInv(Apply(s, Act(t, c)))
  {
    var th := s.threads[t];
    StopPath(s, th, c);
    if Barred(s) {
      NoNewCreator(s, th, c);
    } else if th.StopDelete? && c.ok {
      NobodyElseCreates(s, t);
    }
  }

  /** The maps change only under reconcileMu, so nobody else is about to update. */
  lemma OthersOk(s: State, s': State, t: nat)
    requires MapsInv(s) && MutexInv(s) && t in s.threads
    requires s'.maps.assigns == s.maps.assigns || HoldsRec(s.threads[t])
    ensures forall u <- s.threads | u != t :: ThreadOk(s', s.threads[u])
  {
    forall u | u in s.threads && u != t
      ensures ThreadOk(s', s.threads[u])
    {
      assert ThreadOk(s, s.threads[u]);
      assert HoldsRec(s.threads[t]) ==> !HoldsRec(s.threads[u]);
    }
  }

  lemma MapsKeep(s: State, th: Thread)
    requires MapsAgree(s.maps) && ThreadOk(s, th)
    ensures MapsAgree(MapsAfter(s, th))
    ensures MapsAfter(s, th).assigns == s.maps.assigns || (th.Work? && HoldsRec(th))
  {}

  lemma ThreadKeeps(s: State, th: Thread, c: Choice, s': State)
    requires ThreadOk(s, th) && ChoiceOk(s, th, c) && s'.maps == MapsAfter(s, th)
    ensures ThreadOk(s', ThreadAfter(s, th, c))
  {}

  lemma MapsAct(s: State, t: nat, c: Choice)
    requires MutexInv(s) && MapsInv(s) && Enabled(s, Act(t, c))
    ensures MapsInv(Apply(s, Act(t, c)))
  {
    var s' := Apply(s, Act(t, c));
    MapsKeep(s, s.threads[t]);
    OthersOk(s, s', t);
    ThreadKeeps(s, s.threads[t], c, s');
  }

  lemma CreatorPath(s: State, th: Thread, c: Choice)
    ensures IsCreator(ThreadAfter(s, th, c)) ==> IsCreator(th)
    ensures var th' := ThreadAfter(s, th, c);
      PastCancel(th') ==> IsCreator(th) && (PastCancel(th) || !s.cancelled || (th.StartWantRec? && th.groups == []))
    ensures th.StartWantRec? ==> ThreadAfter(s, th, c) == Loop(ByStart, th.groups)
    ensures ThreadAfter(s, th, c).StartWantRec? ==> th.StartWantRec? || ThreadAfter(s, th, c).groups != []
    ensures AboutToCancel(ThreadAfter(s, th, c)) ==> AboutToCancel(th) || th.StopSetState? || th.FailSetState?
    ensures Cancels(th) ==> !PastCancel(ThreadAfter(s, th, c))
  {}

  lemma RunningPath(s: State, th: Thread)
    ensures StateAfter(s, th) == RUNNING ==> s.state == RUNNING || PastCancel(th)
    ensures th.StopSetState? || th.FailSetState? ==> StateAfter(s, th) != RUNNING
    ensures PastCancel(th) ==> HoldsLife(th) && IsCreator(th)
    ensures AboutToCancel(th) ==> HoldsLife(th) || IsCreator(th)
  {}

  /** Only startSession, under lifecycleMu, can be past the cancellation point. */
  lemma NoneIsPast(s: State, t: nat)
    requires MutexInv(s) && RunningInv(s) && t in s.threads && AboutToCancel(s.threads[t])
    ensures forall u <- s.threads :: !PastCancel(s.threads[u])
  {
    forall u | u in s.threads
      ensures !PastCancel(s.threads[u])
    {
      RunningPath(s, s.threads[u]);
      RunningPath(s, s.threads[t]);
    }
  }

  lemma RunningAct(s: State, t: nat, c: Choice)
    requires MutexInv(s) && RunningInv(s) && Enabled(s, Act(t, c))
    ensures RunningInv(Apply(s, Act(t, c)))
  {
    var th, s' := s.threads[t], Apply(s, Act(t, c));
    CreatorPath(s, th, c);
    RunningPath(s, th);
    if Cancels(th) {
      NoneIsPast(s, t);
    }
    forall u | u in s'.threads && AboutToCancel(s'.threads[u])
      ensures s'.state != RUNNING
    {
      if u != t {
        NoneIsPast(s, u);
      } else if AboutToCancel(th) {
        NoneIsPast(s, t);
      }
    }
  }

  predicate IsSpawned(th: Thread) {
    th.ReconWantRec? || th.StopWantLife?
  }

  lemma SpawnLocks(s: State, t: nat, th: Thread)
    requires LockInv(s) && RunningInv(s) && t !in s.threads && IsSpawned(th)
    ensures var s' := s.(threads := s.threads[t := th]); LockInv(s') && RunningInv(s')
  {}

  lemma SpawnRest(s: State, t: nat, th: Thread)
    requires StopInv(s) && MapsInv(s) && t !in s.threads && IsSpawned(th)
    ensures var s' := s.(threads := s.threads[t := th]); StopInv(s') && MapsInv(s')
  {
    var s' := s.(threads := s.threads[t := th]);
    assert Barred(s) ==> Barred(s');
    forall u | u in s.threads
      ensures ThreadOk(s', s.threads[u])
    {
      assert ThreadOk(s, s.threads[u]);
    }
  }

  lemma PodsChange(s: State, s': State)
    requires Inv(s) && s' == s.(pods := s'.pods, inflight := s'.inflight) && s'.inflight <= s.inflight
    ensures Inv(s')
  {
    assert Barred(s) ==> Barred(s');
    forall u | u in s.threads
      ensures ThreadOk(s', s.threads[u])
    {
      assert ThreadOk(s, s.threads[u]);
    }
  }

  lemma InflightAct(s: State, t: nat, c: Choice)
    requires InflightInv(s) && Enabled(s, Act(t, c))
    ensures InflightInv(Apply(s, Act(t, c)))
  {}

  lemma ActInv(s: State, t: nat, c: Choice)
    requires Inv(s) && Enabled(s, Act(t, c))
    ensures Inv(Apply(s, Act(t, c)))
  {
    LocksExclude(s);
    LockAct(s, t, c);
    StopAct(s, t, c);
    InflightAct(s, t, c);
    MapsAct(s, t, c);
    RunningAct(s, t, c);
  }

  lemma OtherInv(s: State, step: Step)
    requires Inv(s) && Enabled(s, step) && !step.Act?
    ensures Inv(Apply(s, step))
  {
    match step
    case SpawnReconcile(t, _) =>
      SpawnLocks(s, t, ReconWantRec);
      SpawnRest(s, t, ReconWantRec);
    case SpawnStop(t) =>
      SpawnLocks(s, t, StopWantLife);
      SpawnRest(s, t, StopWantLife);
    case Cluster(_) => PodsChange(s, Apply(s, step));
    case Land(_, _) => PodsChange(s, Apply(s, step));
  }

  lemma NextInv(s: State, s': State)
    requires Inv(s) && Next(s, s')
    ensures Inv(s')
  {
    var step :| Enabled(s, step) && s' == Apply(s, step);
    if step.Act? {
      ActInv(s, step.t, step.c);
    } else {
      OtherInv(s, step);
    }
  }

  lemma NextInvAt(run: seq<State>, i: nat)
    requires IsRun(run) && 0 < i < |run| && Inv(run[i - 1])
    ensures Inv(run[i])
  {
    assert StepAt(run, i);
    NextInv(run[i - 1], run[i]);
  }

  lemma {:induction false} RunInv(run: seq<State>, i: nat)
    requires IsRun(run) && i < |run|
    ensures Inv(run[i])
  {
    if i > 0 {
      RunInv(run, i - 1);
      NextInvAt(run, i);
    }
  }

  // ---- What every run guarantees ----

  ghost predicate Stopped(s: State, t: nat) {
    t in s.threads && HasStopped(s.threads[t])
  }

  /** Nothing of the session is left, and nothing can come any more. */
  ghost predicate Quiet(s: State) {
    Barred(s) && NoneOfSession(s.pods, s.spec.session) && s.inflight == multiset{}
  }

  lemma BarredAct(s: State, t: nat, c: Choice)
    requires Barred(s) && Enabled(s, Act(t, c))
    ensures Barred(Apply(s, Act(t, c)))
    ensures Quiet(s) ==> Quiet(Apply(s, Act(t, c)))
  {
    assert !CanCreate(s.threads[t]);
    NoNewCreator(s, s.threads[t], c);
  }

  lemma BarredOther(s: State, step: Step)
    requires Barred(s) && Enabled(s, step) && !step.Act?
    ensures Barred(Apply(s, step)) && Apply(s, step).spec == s.spec
    ensures Quiet(s) ==> Quiet(Apply(s, step))
  {
    if step.Cluster? {
      DriftsKeeps(s.pods, step.pods, s.spec.session);
    }
  }

  lemma BarredNext(s: State, s': State)
    requires Barred(s) && Next(s, s')
    ensures Barred(s') && s'.spec == s.spec
    ensures Quiet(s) ==> Quiet(s')
  {
    var step :| Enabled(s, step) && s' == Apply(s, step);
    if step.Act? {
      BarredAct(s, step.t, step.c);
    } else {
      BarredOther(s, step);
    }
  }

  lemma {:induction false} BarredOnward(run: seq<State>, i: nat, j: nat)
    requires IsRun(run) && i <= j < |run| && Barred(run[i])
    ensures Barred(run[j]) && run[j].spec == run[i].spec
    ensures Quiet(run[i]) ==> Quiet(run[j])
    decreases j
  {
    if i < j {
      BarredOnward(run, i, j - 1);
      assert StepAt(run, j);
      BarredNext(run[j - 1], run[j]);
    }
  }

  /** In this step stopSession's DeleteSessionAgents returns nil. */
  predicate Deletes(s: State, s': State, t: nat) {
    && t in s.threads && s.threads[t] == StopDelete
    && t in s'.threads && s'.threads[t] == StopDeleted
  }

  lemma OnlyItsActDeletes(s: State, step: Step, t: nat)
    requires Enabled(s, step) && Deletes(s, Apply(s, step), t)
    ensures step.Act? && step.t == t && step.c.ok
  {}

  lemma DeleteAct(s: State, t: nat, c: Choice)
    requires Enabled(s, Act(t, c)) && s.threads[t] == StopDelete && c.ok
    ensures var s' := Apply(s, Act(t, c));
      && NoneOfSession(s'.pods, s'.spec.session) && s'.inflight == s.inflight && s'.spec == s.spec
      && t in s'.threads && HasStopped(s'.threads[t])
  {}

  lemma DeleteLeavesNone(s: State, s': State, t: nat)
    requires MutexInv(s) && StopInv(s) && Next(s, s') && Deletes(s, s', t)
    ensures Barred(s') && NoneOfSession(s'.pods, s'.spec.session) && s'.inflight == s.inflight && s'.spec == s.spec
  {
    var step :| Enabled(s, step) && s' == Apply(s, step);
    OnlyItsActDeletes(s, step, t);
    DeleteAct(s, t, step.c);
    StopAct(s, t, step.c);
  }

  lemma DeletedAt(run: seq<State>, i: nat, t: nat)
    requires IsRun(run) && 0 < i < |run| && Deletes(run[i - 1], run[i], t)
    ensures Barred(run[i]) && NoneOfSession(run[i].pods, run[i].spec.session)
    ensures run[i].inflight == run[i - 1].inflight && run[i].spec == run[i - 1].spec
  {
    RunInv(run, i - 1);
    LocksExclude(run[i - 1]);
    assert StepAt(run, i);
    DeleteLeavesNone(run[i - 1], run[i], t);
  }

  /** Stop is final: from the step in which the DeleteSessionAgents of a stopSession
      returns nil, through STOPPED and for ever after, no thread, parked in WaitReady
      or not, can come to create an agent; and if no abandoned Create is pending
      then, no pod labelled with the session ever exists again. */
  lemma StopIsFinal(run: seq<State>, i: nat, j: nat, t: nat)
    requires IsRun(run) && 0 < i <= j < |run| && Deletes(run[i - 1], run[i], t)
    ensures run[j].spec == run[i].spec
    ensures run[j].cancelled && forall u <- run[j].threads :: !CanCreate(run[j].threads[u])
    ensures run[i].inflight == multiset{} ==> NoneOfSession(run[j].pods, run[i].spec.session)
  {
    DeletedAt(run, i, t);
    BarredOnward(run, i, j);
  }

  ghost predicate AlwaysNone(run: seq<State>)
    requires run != []
  {
    forall run' | IsRun(run') && run <= run' :: NoneOfSession(Last(run').pods, Last(run).spec.session)
  }

  lemma PendingLands(run: seq<State>)
    requires IsRun(run) && Last(run).inflight != multiset{}
    ensures !AlwaysNone(run)
  {
    var s := Last(run);
    RunInv(run, |run| - 1);
    var pod :| pod in s.inflight;
    var name := Strings.LongerThanAll(s.pods.Keys);
    assert Enabled(s, Land(name, pod));
    var s' := Apply(s, Land(name, pod));
    Append(run, s');
    assert name in s'.pods && Last(run + [s']) == s';
  }

  /** ... and exactly then: what is still pending may land after the stop. */
  lemma StopIsFinalExactly(run: seq<State>, t: nat)
    requires IsRun(run) && |run| >= 2 && Deletes(run[|run| - 2], Last(run), t)
    ensures AlwaysNone(run) <==> Last(run).inflight == multiset{}
  {
    if Last(run).inflight == multiset{} {
      forall run' | IsRun(run') && run <= run'
        ensures NoneOfSession(Last(run').pods, Last(run).spec.session)
      {
        var i := |run| - 1;
        assert run'[i] == run[i] && run'[i - 1] == run[i - 1];
        StopIsFinal(run', i, |run'| - 1, t);
      }
    } else {
      PendingLands(run);
    }
  }

  /** A cancelled session never shows RUNNING again, even when a stop overtakes
      CreateSession before it has taken lifecycleMu, so no pass reconciles it. */
  lemma CancelledNeverRuns(run: seq<State>, i: nat)
    requires IsRun(run) && i < |run| && run[i].cancelled
    ensures run[i].state != RUNNING
  {
    RunInv(run, i);
  }

  /** The session's maps have the same keys, agree on stream ids and nodes, and
      place every target on its assignment's node. */
  lemma SessionMapsAgree(run: seq<State>, i: nat)
    requires IsRun(run) && i < |run|
    ensures run[i].maps.agents.Keys == run[i].maps.assigns.Keys
    ensures forall n | n in run[i].maps.agents && n in run[i].maps.assigns ::
      && run[i].maps.assigns[n].node == n
      && run[i].maps.assigns[n].stream == run[i].maps.agents[n].stream
      && forall k | 0 <= k < |run[i].maps.assigns[n].targets| :: run[i].maps.assigns[n].targets[k].pod.node == n
  {
    RunInv(run, i);
    assert forall n | n in run[i].maps.agents && n in run[i].maps.assigns ::
      AssignmentOk(run[i].maps.assigns[n], n, run[i].maps.agents[n]);
  }

  /** reconcileMu and lifecycleMu are each held exactly by the thread between its
      Lock and its Unlock, although ensureNodeAgent lets go of reconcileMu half
      way; so no thread unlocks a mutex it does not hold, and no two are inside. */
  lemma MutualExclusion(run: seq<State>, i: nat, t: nat)
    requires IsRun(run) && i < |run| && t in run[i].threads
    ensures HoldsRec(run[i].threads[t]) <==> run[i].rec == Some(t)
    ensures HoldsLife(run[i].threads[t]) <==> run[i].life == Some(t)
    ensures UnlocksRec(run[i].threads[t]) ==> run[i].rec == Some(t)
    ensures UnlocksLife(run[i].threads[t]) ==> run[i].life == Some(t)
  {
    RunInv(run, i);
    RecPairs(run[i], run[i].threads[t], PLAIN);
    LifePairs(run[i], run[i].threads[t], PLAIN);
  }

  // ---- How long STOPPED lasts ----

  /** CreateSession will not set the state any more. */
  predicate PastSetting(th: Thread) {
    th.Live? || th.FailCancel?
  }

  ghost predicate CreatorPast(s: State) {
    0 in s.threads && PastSetting(s.threads[0])
  }

  /** A stop that is about to say STOPPING has seen a state that is not terminal,
      under lifecycleMu, so no other stop can have reached STOPPED since. */
  ghost predicate StoppingInv(s: State) {
    && (forall t <- s.threads | s.threads[t].StopSetState? :: s.state != STOPPED)
    && (s.state == STOPPED ==> s.cancelled)
  }

  lemma StateOfAct(s: State, t: nat, c: Choice)
    requires Enabled(s, Act(t, c))
    ensures Apply(s, Act(t, c)).state == StateAfter(s, s.threads[t])
    ensures Apply(s, Act(t, c)).threads == s.threads[t := ThreadAfter(s, s.threads[t], c)]
    ensures Apply(s, Act(t, c)).cancelled == (s.cancelled || Cancels(s.threads[t]))
    ensures ThreadAfter(s, s.threads[t], c).StopSetState? ==> !IsTerminalState(s.state) && s.threads[t].StopCheck?
    ensures PastSetting(s.threads[t]) ==> PastSetting(ThreadAfter(s, s.threads[t], c))
  {}

  lemma StoppingAct(s: State, t: nat, c: Choice)
    requires MutexInv(s) && StopInv(s) && StoppingInv(s) && Enabled(s, Act(t, c))
    ensures StoppingInv(Apply(s, Act(t, c)))
  {
    StateOfAct(s, t, c);
  }

  lemma StoppingNext(s: State, s': State)
    requires MutexInv(s) && StopInv(s) && StoppingInv(s) && Next(s, s')
    ensures StoppingInv(s')
  {
    var step :| Enabled(s, step) && s' == Apply(s, step);
    if step.Act? {
      StoppingAct(s, step.t, step.c);
    } else {
      assert s'.state == s.state && s'.cancelled == s.cancelled;
    }
  }

  lemma StoppingNextAt(run: seq<State>, i: nat)
    requires IsRun(run) && 0 < i < |run| && StoppingInv(run[i - 1])
    ensures StoppingInv(run[i])
  {
    RunInv(run, i - 1);
    LocksExclude(run[i - 1]);
    assert StepAt(run, i);
    StoppingNext(run[i - 1], run[i]);
  }

  lemma {:induction false} StoppingAlways(run: seq<State>, i: nat)
    requires IsRun(run) && i < |run|
    ensures StoppingInv(run[i])
  {
    if i > 0 {
      StoppingAlways(run, i - 1);
      StoppingNextAt(run, i);
    }
  }

  /** Who can set another state once it is STOPPED: only CreateSession. */
  lemma LeavesStopped(s: State, t: nat, c: Choice)
    requires RunningInv(s) && StoppingInv(s) && Enabled(s, Act(t, c)) && s.state == STOPPED
    ensures Apply(s, Act(t, c)).state != STOPPED <==>
      t == 0 && (s.threads[0].StartSetState? || s.threads[0].FailSetState?)
  {
    StateOfAct(s, t, c);
    assert IsCreator(s.threads[t]) ==> t == 0;
  }

  lemma StoppedOnward(s: State, s': State)
    requires RunningInv(s) && StoppingInv(s) && Next(s, s') && s.state == STOPPED && CreatorPast(s)
    ensures s'.state == STOPPED && CreatorPast(s')
  {
    var step :| Enabled(s, step) && s' == Apply(s, step);
    if step.Act? {
      StateOfAct(s, step.t, step.c);
      LeavesStopped(s, step.t, step.c);
    }
  }

  lemma RunningAt(run: seq<State>, i: nat)
    requires IsRun(run) && i < |run|
    ensures RunningInv(run[i]) && StoppingInv(run[i])
  {
    RunInv(run, i);
    StoppingAlways(run, i);
  }

  lemma StoppedOnwardAt(run: seq<State>, j: nat)
    requires IsRun(run) && 0 < j < |run| && run[j - 1].state == STOPPED && CreatorPast(run[j - 1])
    ensures run[j].state == STOPPED && CreatorPast(run[j])
  {
    RunningAt(run, j - 1);
    assert StepAt(run, j);
    StoppedOnward(run[j - 1], run[j]);
  }

  /** STOPPED is absorbing from the moment CreateSession is done setting states. */
  lemma {:induction false} StoppedIsAbsorbing(run: seq<State>, i: nat, j: nat)
    requires IsRun(run) && i <= j < |run| && run[i].state == STOPPED && CreatorPast(run[i])
    ensures run[j].state == STOPPED && CreatorPast(run[j])
    decreases j
  {
    if i < j {
      StoppedIsAbsorbing(run, i, j - 1);
      StoppedOnwardAt(run, j);
    }
  }

  function Last(run: seq<State>): State
    requires run != []
  {
    run[|run| - 1]
  }

  const PLAIN := Choice(true, true, false, "", "", [])

  /** A run of CreateSession (thread 0) and one stopSession (thread 1), on a
      cluster without agents, with the positions of both. */
  ghost predicate Duel(run: seq<State>, th0: Thread, th1: Thread) {
    && IsRun(run)
    && Last(run).threads.Keys == {0, 1} && Last(run).threads[0] == th0 && Last(run).threads[1] == th1
    && Last(run).pods == map[]
  }

  predicate Drives(th: Thread) {
    !th.Loop? && !th.Work?
  }

  lemma Append(run: seq<State>, s: State)
    requires IsRun(run) && Next(Last(run), s)
    ensures IsRun(run + [s])
  {
    var run' := run + [s];
    forall i | 0 < i < |run'|
      ensures StepAt(run', i)
    {
      assert i < |run| ==> StepAt(run, i);
    }
  }

  /** No other thread is in the way of thread `t`. */
  ghost predicate Free(s: State, t: nat)
    requires t in s.threads
  {
    forall u <- s.threads | u != t ::
      !(LocksRec(s.threads[t]) && HoldsRec(s.threads[u])) && !(LocksLife(s.threads[t]) && HoldsLife(s.threads[u]))
  }

  lemma Take(run: seq<State>, t: nat, c: Choice) returns (run': seq<State>)
    requires IsRun(run) && t in Last(run).threads && Free(Last(run), t) && ChoiceOk(Last(run), Last(run).threads[t], c)
    ensures IsRun(run') && run' == run + [ActApply(Last(run), t, Last(run).threads[t], c)]
  {
    var s := Last(run);
    RunInv(run, |run| - 1);
    RecPairs(s, s.threads[t], c);
    LifePairs(s, s.threads[t], c);
    assert Enabled(s, Act(t, c));
    var s' := Apply(s, Act(t, c));
    Append(run, s');
    run' := run + [s'];
  }

  lemma Drive(run: seq<State>, t: nat, th0: Thread, th1: Thread) returns (run': seq<State>)
    requires Duel(run, th0, th1) && t < 2
    requires Drives(if t == 0 then th0 else th1)
    requires var th, other := if t == 0 then th0 else th1, if t == 0 then th1 else th0;
      !(LocksRec(th) && HoldsRec(other)) && !(LocksLife(th) && HoldsLife(other))
    ensures |run'| == |run| + 1 && run'[|run| - 1] == Last(run)
    ensures Duel(run', if t == 0 then DriveAfter(Last(run), th0, PLAIN) else th0,
                       if t == 1 then DriveAfter(Last(run), th1, PLAIN) else th1)
    ensures Last(run').state == StateAfter(Last(run), if t == 0 then th0 else th1)
  {
    run' := Take(run, t, PLAIN);
  }

  lemma BeginDuel(spec: Spec) returns (run: seq<State>)
    ensures Duel(run, StartWantLife, StopWantLife) && Last(run).state == PENDING
  {
    var s := InitialState(spec, map[]);
    assert Enabled(s, SpawnStop(1));
    var s' := Apply(s, SpawnStop(1));
    Append([s], s');
    run := [s] + [s'];
  }

  function FailRank(th: Thread): nat {
    match th
    case StartWantLife => 4
    case StartSetState => 3
    case StartList => 2
    case StartUnlockLife(ok) => if ok then 0 else 1
    case _ => 0
  }

  /** CreateSession finds no pods and gives up, up to its clean-up. */
  lemma {:induction false} FailToStart(run: seq<State>, th: Thread) returns (run': seq<State>)
    requires Duel(run, th, StopWantLife) && (FailRank(th) > 0 || th == FailDelete)
    requires th.StartWantLife? || th.StartSetState? || Last(run).state == STARTING
    ensures Duel(run', FailDelete, StopWantLife) && Last(run').state == STARTING
    decreases FailRank(th)
  {
    run' := run;
    if th != FailDelete {
      var next := Drive(run, 0, th, StopWantLife);
      run' := FailToStart(next, DriveAfter(Last(run), th, PLAIN));
    }
  }

  function StopRank(th: Thread): nat {
    match th
    case StopWantLife => 7
    case StopCheck => 6
    case StopSetState => 5
    case StopCancel => 4
    case StopWantRec => 3
    case StopDelete => 2
    case StopDeleted => 1
    case _ => 0
  }

  /** stopSession, from any of its positions, reaches STOPPED. */
  lemma {:induction false} StopThrough(run: seq<State>, th: Thread) returns (run': seq<State>)
    requires Duel(run, FailDelete, th)
    requires StopRank(th) > 0 || (th == StopUnlockRec(true) && Last(run).state == STOPPED)
    requires th.StopWantLife? || th.StopCheck? ==> !IsTerminalState(Last(run).state)
    ensures Duel(run', FailDelete, StopUnlockRec(true)) && Last(run').state == STOPPED
    decreases StopRank(th)
  {
    run' := run;
    if StopRank(th) > 0 {
      var next := Drive(run, 1, FailDelete, th);
      run' := StopThrough(next, DriveAfter(Last(run), th, PLAIN));
    }
  }

  /** Before that it is not: failSession does not hold lifecycleMu, so a start that
      failed may say FAILED after a stop has said STOPPED. */
  lemma FailedAfterStopped(spec: Spec) returns (run: seq<State>)
    ensures IsRun(run) && |run| >= 2 && run[|run| - 2].state == STOPPED && Last(run).state == FAILED
    ensures Stopped(Last(run), 1)
  {
    run := BeginDuel(spec);
    run := FailToStart(run, StartWantLife);
    run := StopThrough(run, StopWantLife);
    run := Drive(run, 0, FailDelete, StopUnlockRec(true));
    run := Drive(run, 0, FailSetState, StopUnlockRec(true));
  }
}
