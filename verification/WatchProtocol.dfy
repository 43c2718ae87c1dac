/** The WatchTargets streams of one session (pkg/hub/server.go) against everything
    that changes what they wait for: the session's state, its agents and
    assignments (pkg/hub/session.go), and its packet subscribers
    (pkg/hub/packets.go).

    A step is one lock region, one choice of a select, or one send. The three
    waits of a stream are on close-and-replace broadcasts; the regions are those
    of Sessions and PacketLogs. */
module WatchProtocol {
  import opened Channels
  import opened Records
  import opened Sessions
  import PacketLogs

  type Log = PacketLogs.Log

  datatype Pc =
    | Admit                                 // assignmentFor, before anything else
    | PollState                             // waitUntilRunning's lock region
    | ParkedState(seen: SessionPhase, on: Chan)
    | PollSubscriber                        // waitForSubscriber's lock region
    | ParkedSubscriber(on: Chan)
    | ReadGen                               // assignmentGeneration
    | ReadAssignment(gen: nat)              // assignmentFor
    | Sending(gen: nat, assignment: Assignment)
    | PollChange(gen: nat)                  // waitAssignChange's lock region
    | ParkedChange(gen: nat, on: Chan)
    | Returned

  /** `sent` is the history of assignments sent on the stream. */
  datatype Watcher = Watcher(node: Node, podName: string, stream: string, sent: seq<Assignment>, pc: Pc)

  datatype State = State(sess: Session, log: Log, watchers: map<nat, Watcher>)

  datatype HubStep =
    | SetState(st: SessionPhase)
    | RecordAgent(node: Node, podName: string, stream: string, a: Assignment)
    | UpdateAssignment(node: Node, a: Assignment)
    | RemoveAgent(node: Node)
    | Ingest(node: Node, lastSequence: nat, ingestActive: bool)

  datatype LogStep = Subscribe | Unsubscribe(id: nat) | BeginClose | CloseSubscribers | Enter | FinishPublish

  /** In Move, `ok` is false when the stream's context is done or its send fails. */
  datatype Step =
    | Call(w: nat, node: Node, podName: string, stream: string)
    | Move(w: nat, ok: bool)
    | Hub(hub: HubStep)
    | Packets(packets: LogStep)

  // ---- What a step does ----

  ghost predicate HubEnabled(s: Session, step: HubStep) {
    match step
    case RecordAgent(node, podName, stream, a) => AssignmentOk(a, node, AgentRecord(podName, stream, 0, false))
    case UpdateAssignment(node, a) => node in s.maps.agents && AssignmentOk(a, node, s.maps.agents[node])
    case Ingest(node, _, _) => node in s.maps.agents
    case _ => true
  }

  ghost function HubApply(s: Session, step: HubStep): Session
    requires HubEnabled(s, step)
  {
    match step
    case SetState(st) => s.SetState(st)
    case RecordAgent(node, podName, stream, a) => s.RecordAgent(node, podName, stream, a)
    case UpdateAssignment(node, a) => s.UpdateAssignment(node, a)
    case RemoveAgent(node) => s.RemoveAgent(node)
    case Ingest(node, lastSequence, ingestActive) =>
      s.WithAgent(node, s.maps.agents[node].(lastSequence := lastSequence, ingestActive := ingestActive))
  }

  predicate LogEnabled(l: Log, step: LogStep) {
    match step
    case Subscribe => !l.closed
    case BeginClose => !l.closed
    case FinishPublish => l.active > 0
    case _ => true
  }

  function LogApply(l: Log, step: LogStep): Log {
    match step
    case Subscribe => l.Subscribe()
    case Unsubscribe(id) => l.Unsubscribe(id)
    case BeginClose => l.BeginClose()
    case CloseSubscribers => l.CloseSubscribers()
    case Enter => l.Enter()
    case FinishPublish => l.FinishPublish()
  }

  predicate MoveEnabled(s: State, pc: Pc, ok: bool) {
    match pc
    case ParkedState(_, on) => ok ==> on in s.sess.chans.closed
    case ParkedSubscriber(on) => ok ==> on in s.log.chans.closed
    case ParkedChange(_, on) => ok ==> on in s.sess.chans.closed
    case Sending(_, _) => true
    case Returned => false
    case _ => ok
  }

  function PcAfter(s: State, w: Watcher, ok: bool): Pc {
    if !ok then Returned
    else
      match w.pc
      case Admit => if s.sess.AssignmentFor(w.node, w.podName, w.stream).Some? then PollState else Returned
      case PollState =>
        if s.sess.state == RUNNING then PollSubscriber
        else if s.sess.state == STOPPING || IsTerminalState(s.sess.state) then Returned
        else ParkedState(s.sess.state, s.sess.stateChange)
      case ParkedState(_, _) => PollState
      case PollSubscriber =>
        if s.log.closed then Returned
        else if s.log.subs != map[] then ReadGen
        else ParkedSubscriber(s.log.changed)
      case ParkedSubscriber(_) => PollSubscriber
      case ReadGen => ReadAssignment(s.sess.gen)
      case ReadAssignment(gen) =>
        var a := s.sess.AssignmentFor(w.node, w.podName, w.stream);
        if a.Some? then Sending(gen, a.value) else Returned
      case Sending(gen, _) => PollChange(gen)
      case PollChange(gen) =>
        if IsTerminalState(s.sess.state) || s.sess.state == STOPPING || w.node !in s.sess.maps.agents then Returned
        else if s.sess.gen != gen then ReadGen
        else ParkedChange(gen, s.sess.assignChange)
      case ParkedChange(gen, _) => PollChange(gen)
      case Returned => Returned
  }

  function WatcherAfter(s: State, w: Watcher, ok: bool): Watcher {
    w.(pc := PcAfter(s, w, ok), sent := if w.pc.Sending? && ok then w.sent + [w.pc.assignment] else w.sent)
  }

  ghost predicate Enabled(s: State, step: Step) {
    match step
    case Call(w, _, _, _) => w !in s.watchers
    case Move(w, ok) => w in s.watchers && MoveEnabled(s, s.watchers[w].pc, ok)
    case Hub(h) => HubEnabled(s.sess, h)
    case Packets(l) => LogEnabled(s.log, l)
  }

  ghost function Apply(s: State, step: Step): State
    requires Enabled(s, step)
  {
    match step
    case Call(w, node, podName, stream) =>
      s.(watchers := s.watchers[w := Watcher(node, podName, stream, [], Admit)])
    case Move(w, ok) => s.(watchers := s.watchers[w := WatcherAfter(s, s.watchers[w], ok)])
    case Hub(h) => s.(sess := HubApply(s.sess, h))
    case Packets(l) => s.(log := LogApply(s.log, l))
  }

  ghost predicate Next(s: State, s': State) {
    exists step :: Enabled(s, step) && s' == Apply(s, step)
  }

  ghost predicate StepAt(run: seq<State>, i: nat)
    requires 0 < i < |run|
  {
    Next(run[i - 1], run[i])
  }

  ghost predicate IsRun(run: seq<State>, id: string) {
    && |run| > 0
    && run[0] == State(NewSession(id), PacketLogs.NewLog(), map[])
    && forall i | 0 < i < |run| :: StepAt(run, i)
  }

  // ---- The inductive invariant ----

  /** While a stream holds the current broadcast channel, what it saw still is so. */
  predicate ParkOk(s: State, w: Watcher) {
    match w.pc
    case ParkedState(seen, on) =>
      on !in s.sess.chans.closed ==>
        && on == s.sess.stateChange && seen == s.sess.state
        && seen != RUNNING && seen != STOPPING && !IsTerminalState(seen)
    case ParkedSubscriber(on) =>
      on !in s.log.chans.closed ==> on == s.log.changed && s.log.subs == map[] && !s.log.closed
    case ParkedChange(gen, on) =>
      on !in s.sess.chans.closed ==> on == s.sess.assignChange && gen == s.sess.gen && w.node in s.sess.maps.agents
    case _ => true
  }

  predicate Current(s: State, w: Watcher, a: Assignment) {
    w.node in s.sess.maps.assigns && s.sess.maps.assigns[w.node] == a
  }

  /** A generation is read before the assignment, so while it is current, so is
      the assignment. */
  predicate FreshOk(s: State, w: Watcher) {
    match w.pc
    case ReadAssignment(gen) => gen <= s.sess.gen
    case Sending(gen, a) => gen <= s.sess.gen && (gen == s.sess.gen ==> Current(s, w, a))
    case PollChange(gen) => LastIsCurrent(s, w, gen)
    case ParkedChange(gen, _) => LastIsCurrent(s, w, gen)
    case _ => true
  }

  predicate LastIsCurrent(s: State, w: Watcher, gen: nat) {
    && w.sent != [] && gen <= s.sess.gen
    && (gen == s.sess.gen ==> Current(s, w, w.sent[|w.sent| - 1]))
  }

  ghost predicate Addressed(w: Watcher, a: Assignment) {
    && a.node == w.node && a.stream == w.stream
    && forall i | 0 <= i < |a.targets| :: a.targets[i].pod.node == w.node
  }

  ghost predicate AddressOk(w: Watcher) {
    && (forall i | 0 <= i < |w.sent| :: Addressed(w, w.sent[i]))
    && (w.pc.Sending? ==> Addressed(w, w.pc.assignment))
  }

  ghost predicate Inv(s: State) {
    && SessionOk(s.sess) && PacketLogs.Disciplined(s.log)
    && (forall w <- s.watchers :: ParkOk(s, s.watchers[w]))
    && (forall w <- s.watchers :: FreshOk(s, s.watchers[w]))
    && forall w <- s.watchers :: AddressOk(s.watchers[w])
  }

  /** A step of the hub leaves a broadcast alone, and what it stands for, or
      closes its channel; the assignments change only with the generation. */
  ghost predicate Announced(s: Session, s': Session) {
    && s.chans.closed <= s'.chans.closed
    && (s.stateChange in s'.chans.closed || (s'.stateChange == s.stateChange && s'.state == s.state))
    && (s.assignChange in s'.chans.closed || (s'.assignChange == s.assignChange && s'.gen == s.gen))
    && s.gen <= s'.gen
    && (s'.gen == s.gen ==> s'.maps.assigns == s.maps.assigns && s'.maps.agents.Keys == s.maps.agents.Keys)
  }

  lemma HubAnnounces(s: Session, step: HubStep)
    requires SessionOk(s) && HubEnabled(s, step)
    ensures SessionOk(HubApply(s, step)) && Announced(s, HubApply(s, step))
  {}

  ghost predicate LogAnnounced(l: Log, l': Log) {
    && l.chans.closed <= l'.chans.closed
    && (l.changed in l'.chans.closed || (l'.changed == l.changed && l'.subs == l.subs && l'.closed == l.closed))
  }

  lemma LogAnnounces(l: Log, step: LogStep)
    requires PacketLogs.Disciplined(l) && LogEnabled(l, step)
    ensures PacketLogs.Disciplined(LogApply(l, step)) && LogAnnounced(l, LogApply(l, step))
  {
    match step
    case Subscribe => PacketLogs.SubscribeDisciplined(l);
    case Unsubscribe(id) => PacketLogs.UnsubscribeDisciplined(l, id);
    case BeginClose => PacketLogs.BeginCloseDisciplined(l);
    case CloseSubscribers => PacketLogs.CloseSubscribersDisciplined(l);
    case Enter => PacketLogs.EnterDisciplined(l);
    case FinishPublish => PacketLogs.FinishPublishDisciplined(l);
  }

  lemma OthersMove(s: State, s': State, w: Watcher)
    requires Announced(s.sess, s'.sess) && LogAnnounced(s.log, s'.log) && ParkOk(s, w) && FreshOk(s, w)
    ensures ParkOk(s', w) && FreshOk(s', w)
  {}

  lemma WatcherMoves(s: State, w: Watcher, ok: bool)
    requires SessionOk(s.sess) && MoveEnabled(s, w.pc, ok) && ParkOk(s, w) && FreshOk(s, w) && AddressOk(w)
    ensures ParkOk(s, WatcherAfter(s, w, ok)) && FreshOk(s, WatcherAfter(s, w, ok)) && AddressOk(WatcherAfter(s, w, ok))
  {}

  /** Each stream has moved, is new, or has stood still while others moved. */
  lemma StayInv(s: State, s': State)
    requires Inv(s) && Announced(s.sess, s'.sess) && LogAnnounced(s.log, s'.log)
    requires SessionOk(s'.sess) && PacketLogs.Disciplined(s'.log)
    requires forall w <- s'.watchers ::
      (w in s.watchers && s'.watchers[w] == s.watchers[w]) ||
      (ParkOk(s', s'.watchers[w]) && FreshOk(s', s'.watchers[w]) && AddressOk(s'.watchers[w]))
    ensures Inv(s')
  {
    forall w | w in s'.watchers
      ensures ParkOk(s', s'.watchers[w]) && FreshOk(s', s'.watchers[w]) && AddressOk(s'.watchers[w])
    {
      if w in s.watchers && s'.watchers[w] == s.watchers[w] {
        OthersMove(s, s', s.watchers[w]);
      }
    }
  }

  lemma MoveInv(s: State, w: nat, ok: bool)
    requires Inv(s) && Enabled(s, Move(w, ok))
    ensures Inv(Apply(s, Move(w, ok)))
  {
    WatcherMoves(s, s.watchers[w], ok);
    StayInv(s, Apply(s, Move(w, ok)));
  }

  lemma HubInv(s: State, h: HubStep)
    requires Inv(s) && Enabled(s, Hub(h))
    ensures Inv(Apply(s, Hub(h)))
  {
    HubAnnounces(s.sess, h);
    StayInv(s, Apply(s, Hub(h)));
  }

  lemma NextInv(s: State, s': State)
    requires Inv(s) && Next(s, s')
    ensures Inv(s')
  {
    var step :| Enabled(s, step) && s' == Apply(s, step);
    match step
    case Call(_, _, _, _) => StayInv(s, s');
    case Move(w, ok) => MoveInv(s, w, ok);
    case Hub(h) => HubInv(s, h);
    case Packets(l) =>
      LogAnnounces(s.log, l);
      StayInv(s, s');
  }

  lemma {:induction false} RunInv(run: seq<State>, id: string, i: nat)
    requires IsRun(run, id) && i < |run|
    ensures Inv(run[i])
  {
    if i > 0 {
      RunInv(run, id, i - 1);
      assert StepAt(run, i);
      NextInv(run[i - 1], run[i]);
    } else {
      PacketLogs.NewLogDisciplined();
    }
  }

  // ---- What every run guarantees ----

  /** No lost wakeup on any of the three broadcasts: a stream parked on a channel
      that nobody has closed is parked on the current one, and what it waits for
      has not happened: the state is as it read it, neither RUNNING nor ending;
      nobody subscribes to packets and the log is open; the generation is the
      one it read and its agent is there. */
  lemma NoLostWakeup(run: seq<State>, id: string, i: nat, w: nat)
    requires IsRun(run, id) && i < |run| && w in run[i].watchers
    ensures var s, pc := run[i], run[i].watchers[w].pc;
      && (pc.ParkedState? && pc.on !in s.sess.chans.closed ==>
            pc.on == s.sess.stateChange && pc.seen == s.sess.state
            && (s.sess.state == PENDING || s.sess.state == STARTING))
      && (pc.ParkedSubscriber? && pc.on !in s.log.chans.closed ==>
            pc.on == s.log.changed && s.log.subs == map[] && !s.log.closed)
      && (pc.ParkedChange? && pc.on !in s.sess.chans.closed ==>
            pc.on == s.sess.assignChange && pc.gen == s.sess.gen && run[i].watchers[w].node in s.sess.maps.agents)
  {
    RunInv(run, id, i);
    assert ParkOk(run[i], run[i].watchers[w]);
  }

  /** Assignments are never stale: while a stream is parked in waitAssignChange on
      an open channel, the last assignment it sent is the node's current one. */
  lemma NeverStale(run: seq<State>, id: string, i: nat, w: nat)
    requires IsRun(run, id) && i < |run| && w in run[i].watchers
    requires run[i].watchers[w].pc.ParkedChange? && run[i].watchers[w].pc.on !in run[i].sess.chans.closed
    ensures var watcher := run[i].watchers[w];
      && watcher.sent != []
      && watcher.node in run[i].sess.maps.assigns
      && watcher.sent[|watcher.sent| - 1] == run[i].sess.maps.assigns[watcher.node]
  {
    RunInv(run, id, i);
    assert ParkOk(run[i], run[i].watchers[w]) && FreshOk(run[i], run[i].watchers[w]);
  }

  /** Everything a stream sends is addressed to its node and its incarnation,
      with every target on that node. */
  lemma SentToItsIncarnation(run: seq<State>, id: string, i: nat, w: nat, k: nat)
    requires IsRun(run, id) && i < |run| && w in run[i].watchers && k < |run[i].watchers[w].sent|
    ensures run[i].watchers[w].sent[k].node == run[i].watchers[w].node
    ensures run[i].watchers[w].sent[k].stream == run[i].watchers[w].stream
    ensures forall t <- run[i].watchers[w].sent[k].targets :: t.pod.node == run[i].watchers[w].node
  {
    RunInv(run, id, i);
    assert AddressOk(run[i].watchers[w]);
    assert Addressed(run[i].watchers[w], run[i].watchers[w].sent[k]);
  }

  predicate PastRunning(pc: Pc) {
    pc.PollSubscriber? || pc.ParkedSubscriber? || PastSubscriber(pc)
  }

  predicate PastSubscriber(pc: Pc) {
    pc.ReadGen? || pc.ReadAssignment? || pc.Sending? || pc.PollChange? || pc.ParkedChange?
  }

  /** The stream was past the wait already, or its wait has just ended well. */
  lemma HowPast(s: State, s': State, w: nat)
    requires Next(s, s') && w in s'.watchers && PastRunning(s'.watchers[w].pc)
    ensures w in s.watchers
    ensures PastRunning(s.watchers[w].pc) || s.sess.state == RUNNING
    ensures PastSubscriber(s'.watchers[w].pc) ==>
      PastSubscriber(s.watchers[w].pc) || (s.log.subs != map[] && PastRunning(s.watchers[w].pc))
  {
    var step :| Enabled(s, step) && s' == Apply(s, step);
  }

  lemma {:induction false} RanBefore(run: seq<State>, id: string, i: nat, w: nat) returns (a: nat)
    requires IsRun(run, id) && i < |run| && w in run[i].watchers && PastRunning(run[i].watchers[w].pc)
    ensures a < i && run[a].sess.state == RUNNING
  {
    assert i > 0;
    assert StepAt(run, i);
    HowPast(run[i - 1], run[i], w);
    a := i - 1;
    if PastRunning(run[i - 1].watchers[w].pc) {
      a := RanBefore(run, id, i - 1, w);
    }
  }

  /** Every send is preceded by a RUNNING state and, after it, by one in which
      somebody subscribed to the packets. */
  lemma {:induction false} SentAfterRunningThenSubscriber(run: seq<State>, id: string, i: nat, w: nat)
      returns (a: nat, b: nat)
    requires IsRun(run, id) && i < |run| && w in run[i].watchers && PastSubscriber(run[i].watchers[w].pc)
    ensures a < b < i
    ensures run[a].sess.state == RUNNING && run[b].log.subs != map[]
  {
    assert i > 0;
    assert StepAt(run, i);
    HowPast(run[i - 1], run[i], w);
    if PastSubscriber(run[i - 1].watchers[w].pc) {
      a, b := SentAfterRunningThenSubscriber(run, id, i - 1, w);
    } else {
      b := i - 1;
      a := RanBefore(run, id, i - 1, w);
    }
  }

  // ---- Who is sent what ----

  /** The pod and stream id are those of the agent recorded on the node. */
  predicate IsAgent(s: State, node: Node, podName: string, stream: string) {
    && node != "" && podName != "" && stream != ""
    && node in s.sess.maps.agents && s.sess.maps.agents[node].podName == podName
    && s.sess.maps.agents[node].stream == stream
    && node in s.sess.maps.assigns
  }

  /** In an earlier state they were, and `a`, if any is asked for, was the node's assignment. */
  ghost predicate WasAgent(run: seq<State>, i: nat, w: Watcher, a: Option<Assignment>) {
    exists j :: 0 <= j < i && j < |run| && IsAgent(run[j], w.node, w.podName, w.stream)
      && (a.Some? ==> run[j].sess.maps.assigns[w.node] == a.value)
  }

  ghost predicate ReadOk(run: seq<State>, i: nat, w: Watcher) {
    && (!w.pc.Admit? && !w.pc.Returned? ==> WasAgent(run, i, w, None))
    && (w.pc.Sending? ==> WasAgent(run, i, w, Some(w.pc.assignment)))
    && (forall k | 0 <= k < |w.sent| :: WasAgent(run, i, w, Some(w.sent[k])))
  }

  predicate SameStream(w: Watcher, w': Watcher) {
    w'.node == w.node && w'.podName == w.podName && w'.stream == w.stream
  }

  lemma WasAgentStays(run: seq<State>, i: nat, w: Watcher, w': Watcher, a: Option<Assignment>)
    requires WasAgent(run, i, w, a) && SameStream(w, w')
    ensures WasAgent(run, i + 1, w', a)
  {
    var j :| 0 <= j < i && j < |run| && IsAgent(run[j], w.node, w.podName, w.stream)
      && (a.Some? ==> run[j].sess.maps.assigns[w.node] == a.value);
    assert IsAgent(run[j], w'.node, w'.podName, w'.stream);
  }

  lemma ReadStays(run: seq<State>, i: nat, w: Watcher)
    requires ReadOk(run, i, w)
    ensures ReadOk(run, i + 1, w)
  {
    if WasAgent(run, i, w, None) {
      WasAgentStays(run, i, w, w, None);
    }
    if w.pc.Sending? {
      WasAgentStays(run, i, w, w, Some(w.pc.assignment));
    }
    forall k | 0 <= k < |w.sent|
      ensures WasAgent(run, i + 1, w, Some(w.sent[k]))
    {
      WasAgentStays(run, i, w, w, Some(w.sent[k]));
    }
  }

  lemma AdmitsOnlyAgents(s: State, w: Watcher, ok: bool)
    requires (w.pc.Admit? && !WatcherAfter(s, w, ok).pc.Returned?) || WatcherAfter(s, w, ok).pc.Sending?
    ensures IsAgent(s, w.node, w.podName, w.stream)
    ensures WatcherAfter(s, w, ok).pc.Sending? ==>
      s.sess.maps.assigns[w.node] == WatcherAfter(s, w, ok).pc.assignment
  {}

  lemma ReadAfter(run: seq<State>, i: nat, w: Watcher, ok: bool)
    requires i < |run| && ReadOk(run, i, w) && !w.pc.Returned?
    ensures ReadOk(run, i + 1, WatcherAfter(run[i], w, ok))
  {
    var w' := WatcherAfter(run[i], w, ok);
    if (w.pc.Admit? && !w'.pc.Returned?) || w'.pc.Sending? {
      AdmitsOnlyAgents(run[i], w, ok);
      assert IsAgent(run[i], w'.node, w'.podName, w'.stream);
    } else if WasAgent(run, i, w, None) {
      WasAgentStays(run, i, w, w', None);
    }
    forall k | 0 <= k < |w'.sent|
      ensures WasAgent(run, i + 1, w', Some(w'.sent[k]))
    {
      WasAgentStays(run, i, w, w', Some(w'.sent[k]));
    }
  }

  /** A stream has moved, is new, or is as it was. */
  lemma WatchersMove(s: State, s': State) returns (w: nat, ok: bool)
    requires Next(s, s')
    ensures forall v <- s'.watchers ::
      if v !in s.watchers then s'.watchers[v].pc.Admit? && s'.watchers[v].sent == []
      else || s'.watchers[v] == s.watchers[v]
           || (v == w && !s.watchers[v].pc.Returned? && s'.watchers[v] == WatcherAfter(s, s.watchers[v], ok))
  {
    var step :| Enabled(s, step) && s' == Apply(s, step);
    w, ok := 0, true;
    if step.Move? {
      w, ok := step.w, step.ok;
    }
  }

  ghost predicate AllReadOk(run: seq<State>, i: nat) {
    i < |run| && forall w <- run[i].watchers :: ReadOk(run, i, run[i].watchers[w])
  }

  lemma ReadNext(run: seq<State>, id: string, i: nat)
    requires IsRun(run, id) && 0 < i < |run| && AllReadOk(run, i - 1)
    ensures AllReadOk(run, i)
  {
    assert StepAt(run, i);
    var w, ok := WatchersMove(run[i - 1], run[i]);
    forall v | v in run[i].watchers
      ensures ReadOk(run, i, run[i].watchers[v])
    {
      if v in run[i - 1].watchers {
        ReadStays(run, i - 1, run[i - 1].watchers[v]);
        if !run[i - 1].watchers[v].pc.Returned? {
          ReadAfter(run, i - 1, run[i - 1].watchers[v], ok);
        }
      }
    }
  }

  lemma {:induction false} RunReads(run: seq<State>, id: string, i: nat)
    requires IsRun(run, id) && i < |run|
    ensures AllReadOk(run, i)
  {
    if i > 0 {
      RunReads(run, id, i - 1);
      ReadNext(run, id, i);
    }
  }

  /** Whatever a stream is sent is what was the node's assignment in an earlier state
      in which the agent recorded there was the stream's own, by pod and by stream id. */
  lemma SentToTheAgent(run: seq<State>, id: string, i: nat, w: nat, k: nat) returns (j: nat)
    requires IsRun(run, id) && i < |run| && w in run[i].watchers && k < |run[i].watchers[w].sent|
    ensures j < i
    ensures var watcher, maps := run[i].watchers[w], run[j].sess.maps;
      && watcher.node in maps.agents && watcher.node in maps.assigns
      && maps.agents[watcher.node].podName == watcher.podName
      && maps.agents[watcher.node].stream == watcher.stream
      && maps.assigns[watcher.node] == watcher.sent[k]
  {
    RunReads(run, id, i);
    var watcher := run[i].watchers[w];
    assert WasAgent(run, i, watcher, Some(watcher.sent[k]));
    j :| 0 <= j < i && j < |run| && IsAgent(run[j], watcher.node, watcher.podName, watcher.stream)
      && run[j].sess.maps.assigns[watcher.node] == watcher.sent[k];
  }

  /** A stream that waits for anything has been admitted as the recorded agent's. */
  lemma AdmittedAsTheAgent(run: seq<State>, id: string, i: nat, w: nat) returns (j: nat)
    requires IsRun(run, id) && i < |run| && w in run[i].watchers
    requires !run[i].watchers[w].pc.Admit? && !run[i].watchers[w].pc.Returned?
    ensures j < i
    ensures var watcher, agents := run[i].watchers[w], run[j].sess.maps.agents;
      && watcher.node in agents && agents[watcher.node].podName == watcher.podName
      && agents[watcher.node].stream == watcher.stream
  {
    RunReads(run, id, i);
    var watcher := run[i].watchers[w];
    assert WasAgent(run, i, watcher, None);
    j :| 0 <= j < i && j < |run| && IsAgent(run[j], watcher.node, watcher.podName, watcher.stream);
  }

  // ---- How often a stream is sent anything ----

  /** No more has been sent than generations have been read, and none is read twice. */
  predicate SendsOk(gen: nat, w: Watcher) {
    match w.pc
    case ReadGen => |w.sent| <= gen
    case ReadAssignment(g) => |w.sent| <= g <= gen
    case Sending(g, _) => |w.sent| <= g <= gen
    case PollChange(g) => |w.sent| <= g + 1 && g <= gen
    case ParkedChange(g, _) => |w.sent| <= g + 1 && g <= gen
    case Returned => |w.sent| <= gen + 1
    case _ => w.sent == []
  }

  ghost predicate AllSendsOk(s: State) {
    forall w <- s.watchers :: SendsOk(s.sess.gen, s.watchers[w])
  }

  lemma SendsMove(s: State, w: Watcher, ok: bool)
    requires SendsOk(s.sess.gen, w)
    ensures SendsOk(s.sess.gen, WatcherAfter(s, w, ok))
  {}

  lemma SendsNext(run: seq<State>, id: string, i: nat)
    requires IsRun(run, id) && 0 < i < |run| && AllSendsOk(run[i - 1])
    ensures AllSendsOk(run[i])
  {
    RunInv(run, id, i - 1);
    assert StepAt(run, i);
    var step :| Enabled(run[i - 1], step) && run[i] == Apply(run[i - 1], step);
    match step
    case Move(w, ok) => SendsMove(run[i - 1], run[i - 1].watchers[w], ok);
    case Hub(h) => HubAnnounces(run[i - 1].sess, h);
    case _ =>
  }

  lemma {:induction false} RunSends(run: seq<State>, id: string, i: nat)
    requires IsRun(run, id) && i < |run|
    ensures AllSendsOk(run[i])
  {
    if i > 0 {
      RunSends(run, id, i - 1);
      SendsNext(run, id, i);
    }
  }

  /** A stream is sent an assignment again only after the assignments have changed:
      never more often than once, and once for each change. */
  lemma SentOnlyOnChange(run: seq<State>, id: string, i: nat, w: nat)
    requires IsRun(run, id) && i < |run| && w in run[i].watchers
    ensures |run[i].watchers[w].sent| <= run[i].sess.gen + 1
  {
    RunSends(run, id, i);
  }

  // ---- The agent's stream is sent its assignment ----

  function Last(run: seq<State>): State
    requires run != []
  {
    run[|run| - 1]
  }

  /** Stream `w` is the recorded agent's and open, the session runs, and somebody
      subscribes to its packets. */
  ghost predicate IsServed(run: seq<State>, id: string, w: nat) {
    && IsRun(run, id) && w in Last(run).watchers && !Last(run).watchers[w].pc.Returned?
    && (var watcher := Last(run).watchers[w]; IsAgent(Last(run), watcher.node, watcher.podName, watcher.stream))
    && Last(run).sess.state == RUNNING && !Last(run).log.closed && Last(run).log.subs != map[]
  }

  /** The stream moves, and nothing else does. */
  lemma MovesOn(run: seq<State>, id: string, w: nat) returns (run': seq<State>)
    requires IsServed(run, id, w) && MoveEnabled(Last(run), Last(run).watchers[w].pc, true)
    ensures IsRun(run', id) && run <= run' && w in Last(run').watchers
    ensures Last(run').sess == Last(run).sess && Last(run').log == Last(run).log
    ensures Last(run').watchers[w] == WatcherAfter(Last(run), Last(run).watchers[w], true)
  {
    run' := Extend(run, id, Move(w, true));
  }

  /** Whoever is parked on a channel has been woken, unless it is up to date. */
  lemma ParkedIsWoken(run: seq<State>, id: string, w: nat)
    requires IsServed(run, id, w)
    ensures MoveEnabled(Last(run), Last(run).watchers[w].pc, true) || UpToDate(Last(run), w)
    ensures Last(run).watchers[w].pc.PollChange? && Last(run).watchers[w].pc.gen == Last(run).sess.gen ==>
      UpToDate(Last(run), w)
  {
    RunInv(run, id, |run| - 1);
    assert ParkOk(Last(run), Last(run).watchers[w]) && FreshOk(Last(run), Last(run).watchers[w]);
  }

  /** The last assignment sent on stream `w` is the node's current one. */
  predicate UpToDate(s: State, w: nat) {
    && w in s.watchers && s.watchers[w].sent != []
    && s.watchers[w].node in s.sess.maps.assigns
    && s.watchers[w].sent[|s.watchers[w].sent| - 1] == s.sess.maps.assigns[s.watchers[w].node]
  }

  /** How many moves are left until the stream is sent the current assignment. */
  function ToSend(s: State, pc: Pc): nat {
    match pc
    case Admit => 7
    case ParkedState(_, _) => 7
    case PollState => 6
    case ParkedSubscriber(_) => 6
    case PollSubscriber => 5
    case ParkedChange(_, _) => 6
    case PollChange(_) => 5
    case Sending(gen, _) => if gen == s.sess.gen then 1 else 6
    case ReadGen => 4
    case ReadAssignment(gen) => if gen == s.sess.gen then 2 else 7
    case Returned => 0
  }

  lemma ToSendDescends(s: State, w: Watcher)
    requires MoveEnabled(s, w.pc, true) && IsAgent(s, w.node, w.podName, w.stream)
    requires s.sess.state == RUNNING && !s.log.closed && s.log.subs != map[]
    requires w.pc.Sending? ==> w.pc.gen != s.sess.gen
    requires w.pc.PollChange? ==> w.pc.gen != s.sess.gen
    ensures var w' := WatcherAfter(s, w, true);
      !w'.pc.Returned? && SameStream(w, w') && ToSend(s, w'.pc) < ToSend(s, w.pc)
  {}

  lemma SendsCurrent(run: seq<State>, id: string, w: nat) returns (run': seq<State>)
    requires IsServed(run, id, w) && Last(run).watchers[w].pc.Sending?
    requires Last(run).watchers[w].pc.gen == Last(run).sess.gen
    ensures IsRun(run', id) && run <= run' && Last(run').sess == Last(run).sess && UpToDate(Last(run'), w)
    ensures SameStream(Last(run).watchers[w], Last(run').watchers[w])
  {
    RunInv(run, id, |run| - 1);
    assert FreshOk(Last(run), Last(run).watchers[w]);
    run' := MovesOn(run, id, w);
  }

  /** From every reachable state in which the recorded agent's stream is open, the
      session runs and somebody subscribes to its packets, the stream can be sent the
      node's current assignment. */
  lemma {:induction false} AgentCanBeSent(run: seq<State>, id: string, w: nat) returns (run': seq<State>)
    requires IsServed(run, id, w)
    ensures IsRun(run', id) && run <= run' && Last(run').sess == Last(run).sess
    ensures var node := Last(run).watchers[w].node;
      && w in Last(run').watchers && SameStream(Last(run).watchers[w], Last(run').watchers[w])
      && Last(run').watchers[w].sent != []
      && node in Last(run).sess.maps.assigns
      && Last(run').watchers[w].sent[|Last(run').watchers[w].sent| - 1] == Last(run).sess.maps.assigns[node]
    decreases ToSend(Last(run), Last(run).watchers[w].pc)
  {
    ParkedIsWoken(run, id, w);
    if UpToDate(Last(run), w) {
      run' := run;
    } else if Last(run).watchers[w].pc.Sending? && Last(run).watchers[w].pc.gen == Last(run).sess.gen {
      run' := SendsCurrent(run, id, w);
    } else {
      ToSendDescends(Last(run), Last(run).watchers[w]);
      var next := MovesOn(run, id, w);
      run' := AgentCanBeSent(next, id, w);
    }
  }

  lemma Extend(run: seq<State>, id: string, step: Step) returns (run': seq<State>)
    requires IsRun(run, id) && Enabled(Last(run), step)
    ensures IsRun(run', id) && run <= run' && Last(run') == Apply(Last(run), step)
  {
    run' := run + [Apply(Last(run), step)];
    forall i | 0 < i < |run'|
      ensures StepAt(run', i)
    {
      assert i < |run| ==> StepAt(run, i);
    }
  }

  /** So a hot update reaches the agent: after it the stream can be sent the new
      assignment. */
  lemma UpdateReaches(run: seq<State>, id: string, w: nat, a: Assignment) returns (run': seq<State>)
    requires IsServed(run, id, w)
    requires var node := Last(run).watchers[w].node; AssignmentOk(a, node, Last(run).sess.maps.agents[node])
    ensures IsRun(run', id) && run <= run' && w in Last(run').watchers && Last(run').watchers[w].sent != []
    ensures Last(run').watchers[w].sent[|Last(run').watchers[w].sent| - 1] == a
  {
    var updated := Extend(run, id, Hub(UpdateAssignment(Last(run).watchers[w].node, a)));
    run' := AgentCanBeSent(updated, id, w);
  }

  /** And from the beginning of a session: its agent recorded, the session RUNNING and
      a subscriber there, the agent's stream can be sent its first assignment. */
  lemma FirstAssignmentReaches(id: string, node: Node, podName: string, stream: string, a: Assignment)
      returns (run: seq<State>)
    requires node != "" && podName != "" && stream != ""
    requires AssignmentOk(a, node, AgentRecord(podName, stream, 0, false))
    ensures IsRun(run, id) && 0 in Last(run).watchers
    ensures Last(run).watchers[0].node == node && Last(run).watchers[0].podName == podName
    ensures Last(run).watchers[0].sent != [] && Last(run).watchers[0].sent[|Last(run).watchers[0].sent| - 1] == a
  {
    run := [State(NewSession(id), PacketLogs.NewLog(), map[])];
    run := Extend(run, id, Hub(RecordAgent(node, podName, stream, a)));
    run := Extend(run, id, Hub(SetState(RUNNING)));
    run := Extend(run, id, Packets(Subscribe));
    assert 0 in Last(run).log.subs;
    run := Extend(run, id, Call(0, node, podName, stream));
    run := AgentCanBeSent(run, id, 0);
  }
}
