/** ensureNodeAgent and removeNodeAgent step by step, among everything else that
    runs (StopProtocol), against what a reconcile pass says they do (Reconcile). */
module EnsureProtocol {
  import opened Records
  import opened Discovery
  import opened Assignments
  import opened Sessions
  import opened Pods
  import opened StopProtocol
  import R = Reconcile

  // ---- beginEnsure and endEnsure ----

  /** The thread is between beginEnsure and endEnsure for `node`. */
  predicate IsEnsuring(th: Thread, node: Node) {
    && th.Work? && th.group.node == node
    && match th.pc
       case Find => true
       case Clear => true
       case Create => true
       case Record(_, _) => true
       case Unlock => true
       case Parked => true
       case Relock(_) => true
       case After(_) => true
       case Abandon => true
       case AbandonForget => true
       case _ => false
  }

  ghost predicate Ensurer(s: State, t: nat, node: Node) {
    t in s.threads && IsEnsuring(s.threads[t], node)
  }

  ghost predicate Ensured(s: State, node: Node) {
    exists t :: Ensurer(s, t, node)
  }

  /** The node is marked exactly while a thread ensures it, and only one does. */
  ghost predicate EnsuringAt(s: State, node: Node) {
    && (node in s.ensuring <==> Ensured(s, node))
    && forall t, u | Ensurer(s, t, node) && Ensurer(s, u, node) :: t == u
  }

  ghost predicate EnsuringOk(s: State) {
    forall node :: EnsuringAt(s, node)
  }

  /** A move begins to ensure, ends it, or does neither. */
  lemma EnsuringPath(s: State, th: Thread, c: Choice, node: Node)
    ensures var th' := ThreadAfter(s, th, c);
      var ensuring' := EnsuringAfter(s, th, th');
      && (IsEnsuring(th', node) ==> IsEnsuring(th, node) || (node !in s.ensuring && node in ensuring'))
      && (node in ensuring' <==>
            (node in s.ensuring && !(IsEnsuring(th, node) && !IsEnsuring(th', node)))
            || (IsEnsuring(th', node) && !IsEnsuring(th, node)))
  {}

  lemma EnsurersAfter(s: State, t: nat, c: Choice, node: Node)
    requires Enabled(s, Act(t, c))
    ensures var s' := Apply(s, Act(t, c));
      && s'.ensuring == EnsuringAfter(s, s.threads[t], ThreadAfter(s, s.threads[t], c))
      && (Ensurer(s', t, node) <==> IsEnsuring(ThreadAfter(s, s.threads[t], c), node))
      && forall u | u != t :: Ensurer(s', u, node) <==> Ensurer(s, u, node)
  {}

  lemma EnsuringActAt(s: State, t: nat, c: Choice, node: Node)
    requires EnsuringAt(s, node) && Enabled(s, Act(t, c))
    ensures EnsuringAt(Apply(s, Act(t, c)), node)
  {
    var s' := Apply(s, Act(t, c));
    EnsuringPath(s, s.threads[t], c, node);
    EnsurersAfter(s, t, c, node);
    hide EnsuringAfter, IsEnsuring, ThreadAfter;
    assert Ensurer(s, t, node) <==> IsEnsuring(s.threads[t], node);
    if Ensurer(s', t, node) {
      assert Ensured(s', node);
    } else if u :| Ensurer(s, u, node) {
      assert u != t ==> Ensurer(s', u, node);
      assert u == t ==> !Ensured(s', node);
    } else {
      assert !Ensured(s', node);
    }
  }

  lemma OthersEnsure(s: State, step: Step)
    requires EnsuringOk(s) && Enabled(s, step) && !step.Act?
    ensures EnsuringOk(Apply(s, step))
  {
    var s' := Apply(s, step);
    forall node
      ensures EnsuringAt(s', node)
    {
      assert EnsuringAt(s, node);
      assert forall t :: Ensurer(s', t, node) <==> Ensurer(s, t, node);
    }
  }

  lemma EnsuringNextAt(run: seq<State>, i: nat)
    requires IsRun(run) && 0 < i < |run| && EnsuringOk(run[i - 1])
    ensures EnsuringOk(run[i])
  {
    assert StepAt(run, i);
    var step :| Enabled(run[i - 1], step) && run[i] == Apply(run[i - 1], step);
    if step.Act? {
      forall node
        ensures EnsuringAt(run[i], node)
      {
        EnsuringActAt(run[i - 1], step.t, step.c, node);
      }
    } else {
      OthersEnsure(run[i - 1], step);
    }
  }

  lemma {:induction false} RunEnsuring(run: seq<State>, i: nat)
    requires IsRun(run) && i < |run|
    ensures EnsuringOk(run[i])
  {
    if i > 0 {
      RunEnsuring(run, i - 1);
      EnsuringNextAt(run, i);
    }
  }

  /** A node is marked as being ensured exactly while one thread is between its
      beginEnsure and its endEnsure, also while that has let go of reconcileMu; so
      no two ever create an agent on the same node. */
  lemma OneEnsuresEach(run: seq<State>, i: nat, node: Node)
    requires IsRun(run) && i < |run|
    ensures node in run[i].ensuring <==> exists t :: t in run[i].threads && IsEnsuring(run[i].threads[t], node)
    ensures forall t, u | t in run[i].threads && u in run[i].threads
              && IsEnsuring(run[i].threads[t], node) && IsEnsuring(run[i].threads[u], node) :: t == u
  {
    RunEnsuring(run, i);
    assert EnsuringAt(run[i], node);
    assert forall t :: Ensurer(run[i], t, node) <==> t in run[i].threads && IsEnsuring(run[i].threads[t], node);
  }

  // ---- The steps do what the pass function says ----

  /** The maps with which an agent is created: without the node's if none was found. */
  function Base(m: Maps, node: Node, found: bool): Maps {
    if found then m else m.RemoveAgent(node)
  }

  /** The pass's plan, as far as the assignments go. */
  function PlanOf(m: Maps): R.Plan {
    R.Plan(m.assigns, 0, [])
  }

  /** ensureNodeAgent has a reason to create an agent. */
  predicate Creates(m: Maps, node: Node, a: R.Answer) {
    a.Listed? && !(a.found && node in m.assigns)
  }

  /** What holds at `pc` of a call that began with the maps `m` and to which the API
      server has answered `a` so far. */
  ghost predicate Along(s: State, m: Maps, group: NodeGroup, pc: EnsurePc, a: R.Answer) {
    var node := group.node;
    match pc
    case Look => s.maps == m && !a.Removal?
    case Forget => s.maps == m && a == R.Listed(false, R.Inactive)
    case Known => s.maps == m && a == R.Listed(true, R.Inactive)
    case Update(stream) =>
      && s.maps == m && a == R.Listed(true, R.Inactive)
      && node in m.assigns && !TargetsEqual(m.assigns[node], group) && stream == m.assigns[node].stream
    case Record(pod, stream) =>
      Creates(m, node, a) && s.maps == Base(m, node, a.found) && a.creation == R.Created(pod, stream, false)
    case Unlock => Recorded(s, m, group, a)
    case Parked => Recorded(s, m, group, a)
    case Relock(_) => Recorded(s, m, group, a)
    case After(_) => Recorded(s, m, group, a)
    case Abandon => Recorded(s, m, group, a)
    case AbandonForget => Recorded(s, m, group, a)
    case Remove => s.maps == m && a.Removal?
    case RemoveDelete => s.maps == m && node in m.assigns && a.Removal?
    case RemoveForget => s.maps == m && node in m.assigns && a == R.Removal(true)
    case Finished(ok) => IsDone(s, m, group, a, ok)
    case _ => Creates(m, node, a) && a.creation == R.Inactive && s.maps == Base(m, node, a.found)
  }

  /** The agent has been recorded, and is not ready yet. */
  ghost predicate Recorded(s: State, m: Maps, group: NodeGroup, a: R.Answer) {
    && Creates(m, group.node, a) && a.creation.Created? && !a.creation.ready
    && s.maps == Base(m, group.node, a.found).RecordAgent(group.node, a.creation.name, a.creation.stream,
                   AssignmentOf(s.spec, group, a.creation.stream))
  }

  /** The call has done to the assignments, and returned, what the pass function says. */
  ghost predicate IsDone(s: State, m: Maps, group: NodeGroup, a: R.Answer, ok: bool) {
    if a.Removal? then
      && s.maps.assigns == R.RemoveNode(PlanOf(m), group.node, a).assigns
      && (ok <==> R.RemoveOk(PlanOf(m), group.node, a))
    else
      && s.maps.assigns == R.EnsureNode(PlanOf(m), s.spec, group, a).assigns
      && (ok <==> R.EnsureOk(PlanOf(m), group, a))
  }

  /** What the API server has answered after a move. */
  ghost function AnswerAfter(s: State, group: NodeGroup, pc: EnsurePc, c: Choice, a: R.Answer): R.Answer {
    var pc' := EnsureAfter(s, group, pc, c);
    match pc
    case Look => if c.ok then R.Listed(pc'.Known?, R.Inactive) else R.ListFailed
    case Begin => if a.Listed? && pc'.Finished? then R.Listed(a.found, R.Busy) else a
    case Find => Obtained(a, pc')
    case Create => Obtained(a, pc')
    case After(_) =>
      if a.Listed? && a.creation.Created? && pc'.Finished? then
        R.Listed(a.found, R.Created(a.creation.name, a.creation.stream, true))
      else a
    case Remove => R.Removal(false)
    case RemoveDelete => R.Removal(pc'.RemoveForget?)
    case _ => a
  }

  ghost function Obtained(a: R.Answer, pc: EnsurePc): R.Answer {
    if a.Listed? && pc.Record? then R.Listed(a.found, R.Created(pc.pod, pc.stream, false)) else a
  }

  /** The move keeps what `Along` says. */
  ghost predicate MovesAlong(s: State, th: Thread, c: Choice, m: Maps, a: R.Answer)
    requires th.Work?
  {
    && Along(s.(maps := MapsAfter(s, th)), m, th.group, EnsureAfter(s, th.group, th.pc, c),
             AnswerAfter(s, th.group, th.pc, c, a))
    && (AnswerAfter(s, th.group, th.pc, c, a).Removal? <==> a.Removal?)
  }

  lemma LookingMove(s: State, th: Thread, c: Choice, m: Maps, a: R.Answer)
    requires th.Work? && Along(s, m, th.group, th.pc, a)
    requires th.pc.Look? || th.pc.Forget? || th.pc.Known? || th.pc.Update?
    ensures MovesAlong(s, th, c, m, a)
  {}

  lemma CreatingMove(s: State, th: Thread, c: Choice, m: Maps, a: R.Answer)
    requires th.Work? && Along(s, m, th.group, th.pc, a)
    requires th.pc.Check? || th.pc.Begin? || th.pc.Find? || th.pc.Clear? || th.pc.Create? || th.pc.Record?
    ensures MovesAlong(s, th, c, m, a)
  {}

  lemma WaitingMove(s: State, th: Thread, c: Choice, m: Maps, a: R.Answer)
    requires th.Work? && Along(s, m, th.group, th.pc, a)
    requires th.pc.Unlock? || th.pc.Parked? || th.pc.Relock? || th.pc.After? || th.pc.Abandon? || th.pc.AbandonForget?
    ensures MovesAlong(s, th, c, m, a)
  {}

  lemma RemovingMove(s: State, th: Thread, c: Choice, m: Maps, a: R.Answer)
    requires th.Work? && Along(s, m, th.group, th.pc, a)
    requires th.pc.Remove? || th.pc.RemoveDelete? || th.pc.RemoveForget? || th.pc.Finished?
    ensures MovesAlong(s, th, c, m, a)
  {}

  lemma MoveIsAlong(s: State, th: Thread, c: Choice, m: Maps, a: R.Answer)
    requires th.Work? && Along(s, m, th.group, th.pc, a)
    ensures MovesAlong(s, th, c, m, a)
  {
    if th.pc.Look? || th.pc.Forget? || th.pc.Known? || th.pc.Update? {
      LookingMove(s, th, c, m, a);
    } else if th.pc.Check? || th.pc.Begin? || th.pc.Find? || th.pc.Clear? || th.pc.Create? || th.pc.Record? {
      CreatingMove(s, th, c, m, a);
    } else if th.pc.Remove? || th.pc.RemoveDelete? || th.pc.RemoveForget? || th.pc.Finished? {
      RemovingMove(s, th, c, m, a);
    } else {
      WaitingMove(s, th, c, m, a);
    }
  }

  /** Only the maps and the spec matter. */
  lemma AlongIsOfMaps(s: State, s': State, m: Maps, group: NodeGroup, pc: EnsurePc, a: R.Answer)
    requires Along(s, m, group, pc, a) && s'.maps == s.maps && s'.spec == s.spec
    ensures Along(s', m, group, pc, a)
  {}

  /** The call that thread `t` is in. */
  predicate InCall(s: State, t: nat, owner: Owner, todo: seq<NodeGroup>, group: NodeGroup) {
    t in s.threads && s.threads[t].Work? && s.threads[t].owner == owner && s.threads[t].todo == todo
    && s.threads[t].group == group
  }

  /** ... which has let go of reconcileMu. */
  predicate LetsGo(th: Thread) {
    th.Work? && (th.pc.Parked? || th.pc.Relock?)
  }

  lemma OwnMove(s: State, t: nat, c: Choice, owner: Owner, todo: seq<NodeGroup>, group: NodeGroup)
    requires Enabled(s, Act(t, c)) && InCall(s, t, owner, todo, group)
    requires InCall(Apply(s, Act(t, c)), t, owner, todo, group)
    ensures var s' := Apply(s, Act(t, c));
      && s'.spec == s.spec && s'.maps == MapsAfter(s, s.threads[t])
      && s'.threads[t].pc == EnsureAfter(s, group, s.threads[t].pc, c)
  {}

  /** While a thread holds reconcileMu nobody else changes the maps. */
  lemma OtherMove(s: State, step: Step, t: nat)
    requires MutexInv(s) && MapsInv(s) && Enabled(s, step) && t in s.threads && !(step.Act? && step.t == t)
    ensures var s' := Apply(s, step);
      && s'.spec == s.spec && t in s'.threads && s'.threads[t] == s.threads[t]
      && (HoldsRec(s.threads[t]) ==> s'.maps == s.maps)
  {
    if step.Act? {
      OtherActMaps(s, step.t, step.c);
    }
  }

  lemma OtherActMaps(s: State, u: nat, c: Choice)
    requires Enabled(s, Act(u, c))
    ensures Apply(s, Act(u, c)).maps == s.maps || HoldsRec(s.threads[u])
    ensures Apply(s, Act(u, c)).spec == s.spec
    ensures Apply(s, Act(u, c)).threads == s.threads[u := ThreadAfter(s, s.threads[u], c)]
  {}

  lemma CallNext(s: State, s': State, t: nat, owner: Owner, todo: seq<NodeGroup>, group: NodeGroup, m: Maps,
                 a: R.Answer)
      returns (a': R.Answer)
    requires MutexInv(s) && MapsInv(s) && Next(s, s') && InCall(s, t, owner, todo, group)
    requires InCall(s', t, owner, todo, group) && (LetsGo(s.threads[t]) ==> s'.maps == s.maps)
    requires Along(s, m, group, s.threads[t].pc, a)
    ensures Along(s', m, group, s'.threads[t].pc, a') && (a'.Removal? <==> a.Removal?)
  {
    hide MutexInv, MapsInv, Along, MapsAfter, EnsureAfter, AnswerAfter;
    var step :| Enabled(s, step) && s' == Apply(s, step);
    if step.Act? && step.t == t {
      a' := AnswerAfter(s, group, s.threads[t].pc, step.c, a);
      OwnMove(s, t, step.c, owner, todo, group);
      MoveIsAlong(s, s.threads[t], step.c, m, a);
      AlongIsOfMaps(s.(maps := MapsAfter(s, s.threads[t])), s', m, group, s'.threads[t].pc, a');
    } else {
      a' := a;
      OtherMove(s, step, t);
      AlongIsOfMaps(s, s', m, group, s.threads[t].pc, a);
    }
  }

  /** From `i` to `j` thread `t` is in one call, and nobody changes the maps while it
      has let go of reconcileMu. */
  ghost predicate OneCall(run: seq<State>, i: nat, j: nat, t: nat, owner: Owner, todo: seq<NodeGroup>,
                          group: NodeGroup)
  {
    && i <= j < |run|
    && (forall k | i <= k <= j :: InCall(run[k], t, owner, todo, group))
    && (forall k | i <= k < j && LetsGo(run[k].threads[t]) :: run[k + 1].maps == run[k].maps)
  }

  lemma {:induction false} CallIsAlong(run: seq<State>, i: nat, j: nat, t: nat, owner: Owner, todo: seq<NodeGroup>,
                                       group: NodeGroup)
      returns (a: R.Answer)
    requires IsRun(run) && OneCall(run, i, j, t, owner, todo, group)
    requires run[i].threads[t].pc.Look? || run[i].threads[t].pc.Remove?
    ensures Along(run[j], run[i].maps, group, run[j].threads[t].pc, a)
    ensures a.Removal? <==> run[i].threads[t].pc.Remove?
    decreases j
  {
    if i == j {
      a := if run[i].threads[t].pc.Remove? then R.Removal(false) else R.ListFailed;
    } else {
      a := CallIsAlong(run, i, j - 1, t, owner, todo, group);
      a := CallNextAt(run, j, t, owner, todo, group, run[i].maps, a);
    }
  }

  lemma CallNextAt(run: seq<State>, j: nat, t: nat, owner: Owner, todo: seq<NodeGroup>, group: NodeGroup, m: Maps,
                   a: R.Answer)
      returns (a': R.Answer)
    requires IsRun(run) && 0 < j < |run|
    requires InCall(run[j - 1], t, owner, todo, group) && InCall(run[j], t, owner, todo, group)
    requires LetsGo(run[j - 1].threads[t]) ==> run[j].maps == run[j - 1].maps
    requires Along(run[j - 1], m, group, run[j - 1].threads[t].pc, a)
    ensures Along(run[j], m, group, run[j].threads[t].pc, a') && (a'.Removal? <==> a.Removal?)
  {
    hide Along, MapsInv, MutexInv;
    RunInv(run, j - 1);
    LocksExclude(run[j - 1]);
    assert StepAt(run, j);
    a' := CallNext(run[j - 1], run[j], t, owner, todo, group, m, a);
  }

  /** Step by step, and whatever runs in between, ensureNodeAgent does to the
      assignments what the pass function EnsureNode says for some answers of the API
      server, and returns nil exactly if that says so; likewise removeNodeAgent. Only
      the assignments must not change while it waits without reconcileMu. */
  lemma StepsRefinePass(run: seq<State>, i: nat, j: nat, t: nat, owner: Owner, todo: seq<NodeGroup>,
                        group: NodeGroup)
      returns (a: R.Answer)
    requires IsRun(run) && OneCall(run, i, j, t, owner, todo, group)
    requires run[i].threads[t].pc.Look? || run[i].threads[t].pc.Remove?
    requires run[j].threads[t].pc.Finished?
    ensures a.Removal? <==> run[i].threads[t].pc.Remove?
    ensures var before := R.Plan(run[i].maps.assigns, 0, []);
      if a.Removal? then
        && run[j].maps.assigns == R.RemoveNode(before, group.node, a).assigns
        && (run[j].threads[t].pc.ok <==> R.RemoveOk(before, group.node, a))
      else
        && run[j].maps.assigns == R.EnsureNode(before, run[j].spec, group, a).assigns
        && (run[j].threads[t].pc.ok <==> R.EnsureOk(before, group, a))
  {
    a := CallIsAlong(run, i, j, t, owner, todo, group);
  }

  // ---- What is seen before anything is done ----

  /** A pass past its look at the session's state. */
  predicate PassWorks(th: Thread) {
    th.ReconList? || ((th.Loop? || th.Work?) && th.owner.ByReconcile?)
  }

  lemma PassPath(s: State, th: Thread, c: Choice)
    ensures PassWorks(ThreadAfter(s, th, c)) ==> PassWorks(th) || (th.ReconCheck? && s.state == RUNNING)
    ensures CanCreate(ThreadAfter(s, th, c)) ==>
      CanCreate(th) || (th.Work? && th.pc.Check? && !s.cancelled && SessionScheduling(s.state))
  {}

  lemma PassNext(s: State, s': State, t: nat)
    requires Next(s, s') && t in s'.threads && (PassWorks(s'.threads[t]) || CanCreate(s'.threads[t]))
    ensures t in s.threads
    ensures PassWorks(s'.threads[t]) ==>
      PassWorks(s.threads[t]) || (s.threads[t].ReconCheck? && s.state == RUNNING)
    ensures CanCreate(s'.threads[t]) ==>
      CanCreate(s.threads[t]) || (!s.cancelled && SessionScheduling(s.state))
  {
    var step :| Enabled(s, step) && s' == Apply(s, step);
    if step.Act? {
      PassPath(s, s.threads[step.t], step.c);
      OtherActMaps(s, step.t, step.c);
    }
  }

  /** A reconcile pass works only after it has seen the session RUNNING. */
  lemma {:induction false} PassesWorkWhileRunning(run: seq<State>, i: nat, t: nat) returns (j: nat)
    requires IsRun(run) && i < |run| && t in run[i].threads && PassWorks(run[i].threads[t])
    ensures j < i && t in run[j].threads && run[j].threads[t].ReconCheck? && run[j].state == RUNNING
  {
    assert i > 0;
    assert StepAt(run, i);
    PassNext(run[i - 1], run[i], t);
    j := i - 1;
    if PassWorks(run[i - 1].threads[t]) {
      j := PassesWorkWhileRunning(run, i - 1, t);
    }
  }

  /** Whoever is about to create an agent has seen the session STARTING or RUNNING and
      not cancelled. */
  lemma {:induction false} CreatesWhileScheduling(run: seq<State>, i: nat, t: nat) returns (j: nat)
    requires IsRun(run) && i < |run| && t in run[i].threads && CanCreate(run[i].threads[t])
    ensures j < i && (run[j].state == STARTING || run[j].state == RUNNING) && !run[j].cancelled
  {
    assert i > 0;
    assert StepAt(run, i);
    PassNext(run[i - 1], run[i], t);
    j := i - 1;
    if CanCreate(run[i - 1].threads[t]) {
      j := CreatesWhileScheduling(run, i - 1, t);
    }
  }

  /** The thread moves in this step. */
  predicate Moves(s: State, s': State, t: nat) {
    t in s.threads && t in s'.threads && s'.threads[t] != s.threads[t]
  }

  lemma MovesByItsAct(s: State, step: Step, t: nat)
    requires Enabled(s, step) && Moves(s, Apply(s, step), t)
    ensures step.Act? && step.t == t && Apply(s, step).threads[t] == ThreadAfter(s, s.threads[t], step.c)
    ensures Apply(s, step).pods == PodsAfter(s, s.threads[t], step.c)
  {}

  /** When the wait for a new agent is over, the agent is kept exactly if it got ready
      and the session is still STARTING or RUNNING; else it is abandoned. */
  lemma KeptIfReadyAndScheduling(run: seq<State>, i: nat, t: nat)
    requires IsRun(run) && 0 < i < |run| && Moves(run[i - 1], run[i], t)
    requires run[i - 1].threads[t].Work? && run[i - 1].threads[t].pc.After?
    ensures run[i].threads[t].Work? && (run[i].threads[t].pc == Finished(true) || run[i].threads[t].pc.Abandon?)
    ensures run[i].threads[t].pc == Finished(true) <==>
      run[i - 1].threads[t].pc.ready && (run[i - 1].state == STARTING || run[i - 1].state == RUNNING)
  {
    assert StepAt(run, i);
    var step :| Enabled(run[i - 1], step) && run[i] == Apply(run[i - 1], step);
    MovesByItsAct(run[i - 1], step, t);
  }

  /** When removeNodeAgent forgets a node in a session that is not cancelled, no agent
      pod of the session is left there. */
  lemma ForgetsOnlyIfGone(run: seq<State>, i: nat, t: nat)
    requires IsRun(run) && 0 < i < |run| && Moves(run[i - 1], run[i], t)
    requires run[i - 1].threads[t].Work? && run[i - 1].threads[t].pc.RemoveDelete? && !run[i - 1].cancelled
    requires run[i].threads[t].Work? && run[i].threads[t].pc.RemoveForget?
    ensures NoneOnNode(run[i].pods, run[i].spec.session, run[i].threads[t].group.node)
  {
    assert StepAt(run, i);
    var step :| Enabled(run[i - 1], step) && run[i] == Apply(run[i - 1], step);
    MovesByItsAct(run[i - 1], step, t);
  }
}
