/** Capture ingest under concurrency (pkg/hub/server.go StreamCapture over
    pkg/hub/session.go): any number of stream handlers, on any nodes, interleave
    with each other and with the changes reconciliation makes to the session.

    A step is one Recv, one lock region of the session, or one publish, whose
    result is left open here and studied in PacketProtocol. */
module IngestProtocol {
  import opened Records
  import opened Sessions

  datatype Pc =
    | Receiving
    | Claiming(b: CaptureBatch)
    | Validating(b: CaptureBatch)
    | Reading(b: CaptureBatch)                                    // assignmentForNode
    | Handling(b: CaptureBatch, i: nat, a: Option<Assignment>)    // record i: skip it or publish it
    | Committing(b: CaptureBatch, i: nat, a: Option<Assignment>, counted: bool)
    | Dropping(b: CaptureBatch)                                   // addDropped
    | Leaving                                                     // the deferred release
    | Done

  /** A record accepted, and the assignment that was read for its batch. */
  datatype Taken = Taken(record: CaptureRecord, assignment: Option<Assignment>)

  /** A StreamCapture call. `pod` and `stream` are its metadata, `claim` the node
      it claimed; `base` is the incarnation's lastSequence when it did, and
      `first` whether nobody had claimed that stream before. `received` is the
      history of completely handled batches, `taken` that of accepted records. */
  datatype Handler = Handler(
    pod: string,
    stream: string,
    claim: Option<Node>,
    base: nat,
    first: bool,
    received: seq<CaptureBatch>,
    accepted: nat,
    taken: seq<Taken>,
    pc: Pc)

  /** The frame of handler `h`'s record number `k`, counted into the statistics. */
  datatype Entry = Entry(h: nat, k: nat, frame: WireFrame)

  /** `claimed` are the stream ids ever claimed. `published`, `counted` and `drops`
      are histories. */
  datatype State = State(
    sess: Session,
    claimed: set<string>,
    handlers: map<nat, Handler>,
    published: map<(nat, nat), CaptureRecord>,
    counted: seq<Entry>,
    drops: seq<nat>)

  /** What Recv returned (None: end of stream, an error, or the session is gone),
      and whether publish returned nil. */
  datatype Choice = Choice(batch: Option<CaptureBatch>, taken: bool)

  datatype Step =
    | Act(h: nat, c: Choice)
    | Arrive(h: nat, pod: string, stream: string)
    | NewAgent(node: Node, podName: string, stream: string, a: Assignment)
    | NewAssignment(node: Node, a: Assignment)
    | DropAgent(node: Node)
    | ChangeState(st: SessionPhase)

  // ---- One handler ----

  /** The record belongs to no target of the assignment read for its batch. */
  predicate Skipped(pc: Pc)
    requires pc.Handling? && pc.i < |pc.b.records|
  {
    AssignedTarget(pc.a, CaptureRecordPod(pc.b.records[pc.i])).None?
  }

  predicate CommitOk(sess: Session, pc: Pc)
    requires pc.Committing?
  {
    pc.i < |pc.b.records| &&
    (pc.b.records[pc.i].Wire? ==> sess.MayCommit(pc.b.node, pc.b.stream, pc.b.records[pc.i].frame))
  }

  predicate CommitsFrame(sess: Session, pc: Pc) {
    pc.Committing? && CommitOk(sess, pc) && pc.b.records[pc.i].Wire?
  }

  ghost function HandlerAfter(s: State, hd: Handler, c: Choice): Handler {
    match hd.pc
    case Receiving =>
      if c.batch.None? || c.batch.value.session != s.sess.id then hd.(pc := Leaving)
      else
        var b := c.batch.value;
        if hd.claim.None? then hd.(pc := if b.stream != hd.stream then Leaving else Claiming(b))
        else hd.(pc := if Some(b.node) != hd.claim || b.stream != hd.stream then Leaving else Validating(b))
    case Claiming(b) =>
      if s.sess.MayClaim(b.node, hd.pod, hd.stream) then
        hd.(claim := Some(b.node), base := s.sess.maps.agents[b.node].lastSequence,
            first := hd.stream !in s.claimed, pc := Validating(b))
      else hd.(pc := Leaving)
    case Validating(b) => hd.(pc := if BatchAcceptable(s.sess, b) then Reading(b) else Leaving)
    case Reading(b) => hd.(pc := Handling(b, 0, s.sess.AssignmentOn(b.node)))
    case Handling(b, i, a) =>
      if i >= |b.records| then hd.(pc := Dropping(b))
      else if Skipped(hd.pc) then hd.(pc := Committing(b, i, a, false))
      else if c.taken then hd.(pc := Committing(b, i, a, true))
      else hd.(pc := Leaving)
    case Committing(b, i, a, _) =>
      if CommitOk(s.sess, hd.pc) then
        hd.(accepted := hd.accepted + 1, taken := hd.taken + [Taken(b.records[i], a)], pc := Handling(b, i + 1, a))
      else hd.(pc := Leaving)
    case Dropping(b) => hd.(received := hd.received + [b], pc := Receiving)
    case Leaving => hd.(pc := Done)
    case Done => hd
  }

  function SessAfter(s: State, hd: Handler): Session {
    match hd.pc
    case Claiming(b) => if s.sess.MayClaim(b.node, hd.pod, hd.stream) then s.sess.Claim(b.node) else s.sess
    case Committing(b, i, _, counted) =>
      if CommitsFrame(s.sess, hd.pc) then s.sess.Commit(b.node, b.records[i].frame, counted) else s.sess
    case Dropping(b) => s.sess.AddDropped(b.dropped, None)
    case Leaving => if hd.claim.Some? then s.sess.Release(hd.claim.value, hd.stream) else s.sess
    case _ => s.sess
  }

  function PublishedAfter(s: State, h: nat, hd: Handler, c: Choice): map<(nat, nat), CaptureRecord> {
    if hd.pc.Handling? && hd.pc.i < |hd.pc.b.records| && !Skipped(hd.pc) && c.taken then
      s.published[(h, hd.accepted) := hd.pc.b.records[hd.pc.i]]
    else s.published
  }

  function CountedAfter(s: State, h: nat, hd: Handler): seq<Entry> {
    if CommitsFrame(s.sess, hd.pc) && hd.pc.counted then
      s.counted + [Entry(h, hd.accepted, hd.pc.b.records[hd.pc.i].frame)]
    else s.counted
  }

  ghost function ActApply(s: State, h: nat, hd: Handler, c: Choice): State {
    State(SessAfter(s, hd),
          if Claims(s, hd) then s.claimed + {hd.stream} else s.claimed,
          s.handlers[h := HandlerAfter(s, hd, c)],
          PublishedAfter(s, h, hd, c), CountedAfter(s, h, hd),
          if hd.pc.Dropping? then s.drops + [hd.pc.b.dropped] else s.drops)
  }

  // ---- Steps and runs ----

  ghost predicate Enabled(s: State, step: Step) {
    match step
    case Act(h, _) => h in s.handlers
    case Arrive(h, _, _) => h !in s.handlers
    case _ => true
  }

  ghost function Apply(s: State, step: Step): State
    requires Enabled(s, step)
  {
    match step
    case Act(h, c) => ActApply(s, h, s.handlers[h], c)
    case Arrive(h, pod, stream) =>
      s.(handlers := s.handlers[h := Handler(pod, stream, None, 0, false, [], 0, [], Receiving)])
    case NewAgent(node, podName, stream, a) =>
      s.(sess := s.sess.RecordAgent(node, podName, stream, a))
    case NewAssignment(node, a) => s.(sess := s.sess.UpdateAssignment(node, a))
    case DropAgent(node) => s.(sess := s.sess.RemoveAgent(node))
    case ChangeState(st) => s.(sess := s.sess.SetState(st))
  }

  ghost predicate Init(s: State) {
    s == State(NewSession(s.sess.id), {}, map[], map[], [], [])
  }

  ghost predicate Next(s: State, s': State) {
    exists step :: Enabled(s, step) && s' == Apply(s, step)
  }

  ghost predicate StepAt(run: seq<State>, i: nat)
    requires 0 < i < |run|
  {
    Next(run[i - 1], run[i])
  }

  ghost predicate IsRun(run: seq<State>) {
    && |run| > 0
    && Init(run[0])
    && forall i | 0 < i < |run| :: StepAt(run, i)
  }

  /** Handler `h` is live and has claimed that stream on that node. */
  predicate IsClaimant(s: State, h: nat, node: Node, stream: string) {
    && h in s.handlers
    && s.handlers[h].claim == Some(node)
    && !s.handlers[h].pc.Done?
    && s.handlers[h].stream == stream
  }

  ghost predicate HasClaimant(s: State, node: Node, stream: string) {
    exists h :: IsClaimant(s, h, node, stream)
  }

  /** No agent is recorded under a stream id that a live handler has claimed on
      its node. A new stream id is never claimed; that of a surviving pod, which
      CreateForNode may hand back, is not once its handler has gone. */
  ghost predicate IsOrderly(s: State, step: Step) {
    step.NewAgent? ==> !HasClaimant(s, step.node, step.stream)
  }

  ghost predicate OrderlyNext(s: State, s': State) {
    exists step :: Enabled(s, step) && IsOrderly(s, step) && s' == Apply(s, step)
  }

  ghost predicate OrderlyStepAt(run: seq<State>, i: nat)
    requires 0 < i < |run|
  {
    OrderlyNext(run[i - 1], run[i])
  }

  ghost predicate IsOrderlyRun(run: seq<State>) {
    && |run| > 0
    && Init(run[0])
    && forall i | 0 < i < |run| :: OrderlyStepAt(run, i)
  }

  // ---- The single claim ----

  /** Handler `h` is live and holds the claim on the current agent of `node`. */
  ghost predicate Holds(s: State, h: nat, node: Node) {
    node in s.sess.maps.agents && IsClaimant(s, h, node, s.sess.maps.agents[node].stream)
  }

  ghost predicate Held(s: State, node: Node) {
    exists h :: Holds(s, h, node)
  }

  /** The claim is single, and the flag says whether there is one. */
  ghost predicate ClaimOk(s: State) {
    && (forall h, h', node | Holds(s, h, node) && Holds(s, h', node) :: h == h')
    && (forall node <- s.sess.maps.agents :: s.sess.maps.agents[node].ingestActive <==> Held(s, node))
  }

  /** A batch in progress is addressed to what its handler claimed. */
  predicate Addressed(hd: Handler) {
    && (hd.pc.Claiming? ==> hd.pc.b.stream == hd.stream && hd.claim.None?)
    && (hd.claim.None? ==> hd.received == [])
    && (hd.pc.Validating? || hd.pc.Reading? || hd.pc.Handling? || hd.pc.Committing? || hd.pc.Dropping? ==>
          hd.pc.b.stream == hd.stream && hd.claim == Some(hd.pc.b.node))
    && (hd.pc.Handling? ==> hd.pc.i <= |hd.pc.b.records|)
    && (hd.pc.Committing? ==> hd.pc.i < |hd.pc.b.records|)
  }

  // ---- Sequence numbers ----

  function InBatch(pc: Pc): nat {
    match pc
    case Handling(b, i, _) => if i <= |b.records| then WireCount(b.records[..i]) else 0
    case Committing(b, i, _, _) => if i <= |b.records| then WireCount(b.records[..i]) else 0
    case Dropping(b) => WireCount(b.records)
    case _ => 0
  }

  /** Until it leaves, a handler's numbers are in step with its agent's. */
  ghost predicate InStep(hd: Handler, lastSequence: nat) {
    !hd.pc.Leaving? ==>
      && lastSequence == hd.base + WireTotal(hd.received) + InBatch(hd.pc)
      && (hd.pc.Reading? || hd.pc.Handling? || hd.pc.Committing? ==>
            Consecutive(hd.pc.b.records, hd.base + WireTotal(hd.received)))
  }

  /** What holds of handlers and numbers in every run: an agent whose stream nobody
      ever claimed is at zero, so the first to claim it starts there. */
  ghost predicate HandlersOk(s: State) {
    && (forall h <- s.handlers :: Addressed(s.handlers[h]))
    && (forall h <- s.handlers | s.handlers[h].claim.Some? :: s.handlers[h].stream in s.claimed)
    && (forall h <- s.handlers | s.handlers[h].first :: s.handlers[h].base == 0)
    && (forall node <- s.sess.maps.agents | s.sess.maps.agents[node].stream !in s.claimed ::
          s.sess.maps.agents[node].lastSequence == 0)
  }

  // ---- Counters ----

  function Bytes(es: seq<Entry>): nat {
    if es == [] then 0 else Bytes(es[..|es| - 1]) + FrameSize(es[|es| - 1].frame)
  }

  function Sum(ns: seq<nat>): nat {
    if ns == [] then 0 else Sum(ns[..|ns| - 1]) + ns[|ns| - 1]
  }

  function UidOf(f: WireFrame): string {
    if f.pod.None? then "" else f.pod.value.uid
  }

  function PacketsOf(es: seq<Entry>, uid: string): nat {
    if es == [] then 0
    else PacketsOf(es[..|es| - 1], uid) + if UidOf(es[|es| - 1].frame) == uid then 1 else 0
  }

  function BytesOf(es: seq<Entry>, uid: string): nat {
    if es == [] then 0
    else BytesOf(es[..|es| - 1], uid) + if UidOf(es[|es| - 1].frame) == uid then FrameSize(es[|es| - 1].frame) else 0
  }

  ghost predicate Conserved(st: Counters, es: seq<Entry>, drops: seq<nat>) {
    && st.packets == |es|
    && st.bytes == Bytes(es)
    && st.dropped == Sum(drops)
    && st.packets == Total(st.perPod).packets + PacketsOf(es, "")
    && st.bytes == Total(st.perPod).bytes + BytesOf(es, "")
    && PodsConserved(st, es)
  }

  ghost predicate PodsConserved(st: Counters, es: seq<Entry>) {
    forall uid | uid != "" ::
      st.PodStatOf(uid).packets == PacketsOf(es, uid) && st.PodStatOf(uid).bytes == BytesOf(es, uid)
  }

  predicate MayHavePublished(pc: Pc) {
    (pc.Committing? && pc.counted) || pc.Leaving? || pc.Done?
  }

  predicate Claims(s: State, hd: Handler) {
    hd.pc.Claiming? && s.sess.MayClaim(hd.pc.b.node, hd.pod, hd.stream)
  }

  /** A handler's step leaves the set of agents and their stream ids alone; it
      moves lastSequence by a commit ... */
  lemma NumbersAfter(s: State, hd: Handler)
    ensures var agents, agents' := s.sess.maps.agents, SessAfter(s, hd).maps.agents;
      && agents'.Keys == agents.Keys
      && forall node <- agents ::
           && agents'[node].stream == agents[node].stream
           && agents'[node].lastSequence ==
                (if CommitsFrame(s.sess, hd.pc) && node == hd.pc.b.node then hd.pc.b.records[hd.pc.i].frame.sequence
                 else agents[node].lastSequence)
  {}

  /** ... and ingestActive by a claim or a release. */
  lemma FlagsAfter(s: State, hd: Handler)
    ensures var agents, agents' := s.sess.maps.agents, SessAfter(s, hd).maps.agents;
      && agents'.Keys == agents.Keys
      && forall node <- agents ::
           agents'[node].ingestActive ==
             (if Claims(s, hd) && node == hd.pc.b.node then true
              else if hd.pc.Leaving? && hd.claim == Some(node) && agents[node].stream == hd.stream then false
              else agents[node].ingestActive)
  {}

  lemma ClaimAfter(s: State, hd: Handler, c: Choice)
    ensures var hd' := HandlerAfter(s, hd, c);
      && hd'.stream == hd.stream
      && hd'.claim == (if Claims(s, hd) then Some(hd.pc.b.node) else hd.claim)
      && (hd'.pc.Done? <==> hd.pc.Leaving? || hd.pc.Done?)
  {}

  lemma HoldsAct(s: State, h: nat, c: Choice)
    requires HandlersOk(s) && h in s.handlers
    ensures var s' := Apply(s, Act(h, c));
      forall h', node :: Holds(s', h', node) <==>
        || (Holds(s, h', node) && !(h' == h && s.handlers[h].pc.Leaving?))
        || (h' == h && Claims(s, s.handlers[h]) && node == s.handlers[h].pc.b.node)
  {
    NumbersAfter(s, s.handlers[h]);
    ClaimAfter(s, s.handlers[h], c);
    assert Addressed(s.handlers[h]);
  }

  /** The claim flag and its holder appear and disappear together. */
  lemma FlagAct(s: State, h: nat, c: Choice, node: Node)
    requires ClaimOk(s) && HandlersOk(s) && h in s.handlers && node in s.sess.maps.agents
    ensures var s' := Apply(s, Act(h, c));
      node in s'.sess.maps.agents && (s'.sess.maps.agents[node].ingestActive <==> Held(s', node))
  {
    var hd, s' := s.handlers[h], Apply(s, Act(h, c));
    NumbersAfter(s, hd);
    FlagsAfter(s, hd);
    HoldsAct(s, h, c);
    assert Addressed(hd);
    if Claims(s, hd) && node == hd.pc.b.node {
      assert Holds(s', h, node);
    } else if Holds(s, h, node) && hd.pc.Leaving? {
      assert !Held(s', node);
    } else if h' :| Holds(s, h', node) {
      assert Holds(s', h', node);
    } else {
      assert !Held(s', node);
    }
  }

  lemma ClaimAct(s: State, h: nat, c: Choice)
    requires ClaimOk(s) && HandlersOk(s) && h in s.handlers
    ensures ClaimOk(Apply(s, Act(h, c)))
  {
    var hd, s' := s.handlers[h], Apply(s, Act(h, c));
    NumbersAfter(s, hd);
    FlagsAfter(s, hd);
    ClaimAfter(s, hd, c);
    HoldsAct(s, h, c);
    assert Claims(s, hd) ==> !Held(s, hd.pc.b.node);
    forall node | node in s'.sess.maps.agents
      ensures s'.sess.maps.agents[node].ingestActive <==> Held(s', node)
    {
      FlagAct(s, h, c, node);
    }
  }

  /** A change from outside: the agents of some nodes are replaced or removed,
      every other agent, and every handler already there, stays as it is. */
  ghost predicate Reassigned(s: State, s': State) {
    && (forall node | node in s'.sess.maps.agents ::
          (node in s.sess.maps.agents && s'.sess.maps.agents[node] == s.sess.maps.agents[node])
          || IsNew(s, node, s'.sess.maps.agents[node]))
    && (forall h <- s.handlers :: h in s'.handlers && s'.handlers[h] == s.handlers[h])
    && (forall h | h in s'.handlers && h !in s.handlers :: s'.handlers[h].claim == None)
  }

  ghost predicate IsNew(s: State, node: Node, rec: AgentRecord) {
    !HasClaimant(s, node, rec.stream) && !rec.ingestActive
  }

  lemma OtherReassigns(s: State, step: Step)
    requires Enabled(s, step) && IsOrderly(s, step) && !step.Act?
    ensures Reassigned(s, Apply(s, step))
  {}

  lemma HoldsReassigned(s: State, s': State, h: nat, node: Node)
    requires Reassigned(s, s')
    ensures Holds(s', h, node) <==>
      Holds(s, h, node) && node in s'.sess.maps.agents && !IsNew(s, node, s'.sess.maps.agents[node])
    ensures Holds(s', h, node) ==> s'.sess.maps.agents[node] == s.sess.maps.agents[node]
  {
    if Holds(s, h, node) && node in s'.sess.maps.agents && s'.sess.maps.agents[node] == s.sess.maps.agents[node] {
      assert HasClaimant(s, node, s'.sess.maps.agents[node].stream);
    }
    if Holds(s', h, node) {
      assert IsClaimant(s, h, node, s'.sess.maps.agents[node].stream);
    }
  }

  lemma ClaimReassigned(s: State, s': State)
    requires ClaimOk(s) && Reassigned(s, s')
    ensures ClaimOk(s')
  {
    forall h, node
      ensures Holds(s', h, node) <==>
        Holds(s, h, node) && node in s'.sess.maps.agents && !IsNew(s, node, s'.sess.maps.agents[node])
    {
      HoldsReassigned(s, s', h, node);
    }
    forall node | node in s'.sess.maps.agents
      ensures s'.sess.maps.agents[node].ingestActive <==> Held(s', node)
    {
      if !IsNew(s, node, s'.sess.maps.agents[node]) {
        if h :| Holds(s, h, node) {
          assert Holds(s', h, node);
        }
      }
    }
  }

  /** Recording an agent keeps the claim single exactly when no live handler has
      claimed that stream on that node. */
  lemma ReadoptionExactly(s: State, node: Node, podName: string, stream: string, a: Assignment)
    requires ClaimOk(s)
    ensures ClaimOk(Apply(s, NewAgent(node, podName, stream, a))) <==> !HasClaimant(s, node, stream)
  {
    var s' := Apply(s, NewAgent(node, podName, stream, a));
    if h :| IsClaimant(s, h, node, stream) {
      assert Holds(s', h, node);
      assert !s'.sess.maps.agents[node].ingestActive;
    } else {
      forall h, n
        ensures Holds(s', h, n) <==> n != node && Holds(s, h, n)
      {
        assert !IsClaimant(s, h, node, stream);
      }
      forall n | n in s'.sess.maps.agents
        ensures s'.sess.maps.agents[n].ingestActive <==> Held(s', n)
      {
        if n != node && Held(s, n) {
          var h :| Holds(s, h, n);
          assert Holds(s', h, n);
        }
      }
    }
  }

  // ---- Sequence numbers, step by step ----

  lemma AddressedAfter(s: State, hd: Handler, c: Choice)
    requires Addressed(hd)
    ensures Addressed(HandlerAfter(s, hd, c))
  {}

  ghost predicate Acts(s: State, hd: Handler, node: Node) {
    && Addressed(hd) && hd.claim == Some(node) && node in s.sess.maps.agents
    && s.sess.maps.agents[node].stream == hd.stream
    && InStep(hd, s.sess.maps.agents[node].lastSequence)
  }

  lemma InStepValidating(s: State, hd: Handler, c: Choice, node: Node)
    requires Acts(s, hd, node) && hd.pc.Validating?
    ensures InStep(HandlerAfter(s, hd, c), s.sess.maps.agents[node].lastSequence)
  {}

  lemma InStepCommitting(s: State, hd: Handler, c: Choice, node: Node)
    requires Acts(s, hd, node) && hd.pc.Committing? && CommitOk(s.sess, hd.pc)
    ensures node in SessAfter(s, hd).maps.agents
    ensures InStep(HandlerAfter(s, hd, c), SessAfter(s, hd).maps.agents[node].lastSequence)
  {
    WireCountSnoc(hd.pc.b.records, hd.pc.i);
  }

  lemma InStepDropping(s: State, hd: Handler, c: Choice, node: Node)
    requires Acts(s, hd, node) && hd.pc.Dropping?
    ensures InStep(HandlerAfter(s, hd, c), s.sess.maps.agents[node].lastSequence)
  {
    WireTotalSnoc(hd.received, hd.pc.b);
  }

  lemma InStepMoving(s: State, hd: Handler, c: Choice, node: Node)
    requires Acts(s, hd, node)
    requires !hd.pc.Leaving? && !hd.pc.Validating? && !hd.pc.Committing? && !hd.pc.Dropping?
    ensures InStep(HandlerAfter(s, hd, c), s.sess.maps.agents[node].lastSequence)
  {
    if hd.pc.Handling? && hd.pc.i == |hd.pc.b.records| {
      assert hd.pc.b.records[..hd.pc.i] == hd.pc.b.records;
    }
  }

  /** The acting handler keeps its numbers in step with its agent. */
  lemma InStepAct(s: State, hd: Handler, c: Choice, node: Node)
    requires Acts(s, hd, node) && !hd.pc.Leaving?
    ensures node in SessAfter(s, hd).maps.agents
    ensures InStep(HandlerAfter(s, hd, c), SessAfter(s, hd).maps.agents[node].lastSequence)
  {
    NumbersAfter(s, hd);
    if hd.pc.Validating? {
      InStepValidating(s, hd, c, node);
    } else if hd.pc.Committing? {
      if CommitOk(s.sess, hd.pc) {
        InStepCommitting(s, hd, c, node);
      }
    } else if hd.pc.Dropping? {
      InStepDropping(s, hd, c, node);
    } else {
      InStepMoving(s, hd, c, node);
    }
  }

  lemma HandlersAct(s: State, h: nat, c: Choice)
    requires HandlersOk(s) && h in s.handlers
    ensures HandlersOk(Apply(s, Act(h, c)))
  {
    var hd := s.handlers[h];
    NumbersAfter(s, hd);
    ClaimAfter(s, hd, c);
    AddressedAfter(s, hd, c);
  }

  lemma HandlersOther(s: State, step: Step)
    requires HandlersOk(s) && Enabled(s, step) && !step.Act?
    ensures HandlersOk(Apply(s, step))
  {}

  lemma HandlersNext(s: State, s': State)
    requires HandlersOk(s) && Next(s, s')
    ensures HandlersOk(s')
  {
    var step :| Enabled(s, step) && s' == Apply(s, step);
    if step.Act? {
      HandlersAct(s, step.h, step.c);
    } else {
      HandlersOther(s, step);
    }
  }

  /** The only live handler that holds the claim on the agent of `node`. */
  ghost predicate HoldsAlone(s: State, h: nat, node: Node) {
    Holds(s, h, node) && forall h' | Holds(s, h', node) :: h' == h
  }

  /** A step that records no agent on `node`. */
  ghost predicate Undisturbed(s: State, s': State, node: Node) {
    exists step ::
      Enabled(s, step) && !(step.NewAgent? && step.node == node) && s' == Apply(s, step)
  }

  ghost predicate UndisturbedAt(run: seq<State>, i: nat, node: Node)
    requires 0 < i < |run|
  {
    Undisturbed(run[i - 1], run[i], node)
  }

  /** The step to state `i` is the one in which the handler claims `node`. */
  ghost predicate ClaimsAt(run: seq<State>, i: nat, h: nat, node: Node) {
    && 0 < i < |run|
    && h in run[i - 1].handlers && run[i - 1].handlers[h].claim.None?
    && Holds(run[i], h, node)
  }

  /** From its claim at `i` up to `j` the handler alone holds `node`, whose agent is
      not recorded again meanwhile. */
  ghost predicate HoldsSince(run: seq<State>, i: nat, j: nat, h: nat, node: Node) {
    && ClaimsAt(run, i, h, node) && i <= j < |run|
    && (forall k | i <= k <= j :: HoldsAlone(run[k], h, node))
    && (forall k | i < k <= j :: UndisturbedAt(run, k, node))
  }

  ghost predicate HolderInStep(s: State, h: nat, node: Node) {
    Holds(s, h, node) && InStep(s.handlers[h], s.sess.maps.agents[node].lastSequence)
  }

  /** Another handler's step leaves the numbers of this one's agent alone. */
  lemma OthersInStep(s: State, h: nat, c: Choice, h': nat, node: Node)
    requires HandlersOk(s) && h in s.handlers && h' != h && HoldsAlone(s, h', node) && HolderInStep(s, h', node)
    ensures HolderInStep(Apply(s, Act(h, c)), h', node)
  {
    NumbersAfter(s, s.handlers[h]);
    assert Addressed(s.handlers[h]);
    assert CommitsFrame(s.sess, s.handlers[h].pc) && node == s.handlers[h].pc.b.node ==> Holds(s, h, node);
  }

  lemma OwnInStep(s: State, h: nat, c: Choice, node: Node)
    requires HandlersOk(s) && HolderInStep(s, h, node) && Holds(Apply(s, Act(h, c)), h, node)
    ensures HolderInStep(Apply(s, Act(h, c)), h, node)
  {
    HoldsAct(s, h, c);
    InStepAct(s, s.handlers[h], c, node);
  }

  /** A claim starts the handler's count at the agent's last number. */
  lemma ClaimInStep(s: State, s': State, h: nat, node: Node)
    requires HandlersOk(s) && Next(s, s') && h in s.handlers && s.handlers[h].claim.None? && Holds(s', h, node)
    ensures HolderInStep(s', h, node)
  {
    var step :| Enabled(s, step) && s' == Apply(s, step);
    assert step.Act? && step.h == h;
    ClaimAfter(s, s.handlers[h], step.c);
    NumbersAfter(s, s.handlers[h]);
    assert Addressed(s.handlers[h]) && Claims(s, s.handlers[h]);
  }

  lemma StillInStep(s: State, step: Step, h: nat, node: Node)
    requires HolderInStep(s, h, node) && Enabled(s, step) && !step.Act? && !(step.NewAgent? && step.node == node)
    requires Holds(Apply(s, step), h, node)
    ensures HolderInStep(Apply(s, step), h, node)
  {}

  lemma InStepNext(s: State, s': State, h: nat, node: Node)
    requires HandlersOk(s) && HoldsAlone(s, h, node) && HolderInStep(s, h, node)
    requires Undisturbed(s, s', node) && Holds(s', h, node)
    ensures HolderInStep(s', h, node)
  {
    var step :| Enabled(s, step) && !(step.NewAgent? && step.node == node) && s' == Apply(s, step);
    if step.Act? && step.h != h {
      OthersInStep(s, step.h, step.c, h, node);
    } else if step.Act? {
      OwnInStep(s, h, step.c, node);
    } else {
      StillInStep(s, step, h, node);
    }
  }

  // ---- Counters, step by step ----

  lemma BytesSnoc(es: seq<Entry>, e: Entry)
    ensures Bytes(es + [e]) == Bytes(es) + FrameSize(e.frame)
    ensures forall uid :: PacketsOf(es + [e], uid) == PacketsOf(es, uid) + if UidOf(e.frame) == uid then 1 else 0
    ensures forall uid ::
      BytesOf(es + [e], uid) == BytesOf(es, uid) + if UidOf(e.frame) == uid then FrameSize(e.frame) else 0
  {
    assert (es + [e])[..|es|] == es;
  }

  lemma SumSnoc(ns: seq<nat>, n: nat)
    ensures Sum(ns + [n]) == Sum(ns) + n
  {
    assert (ns + [n])[..|ns|] == ns;
  }

  lemma CountFramePerPod(st: Counters, es: seq<Entry>, e: Entry)
    requires PodsConserved(st, es)
    ensures PodsConserved(st.AddPacket(e.frame.pod, FrameSize(e.frame)), es + [e])
  {
    BytesSnoc(es, e);
  }

  lemma CountFrame(st: Counters, es: seq<Entry>, drops: seq<nat>, e: Entry)
    requires Conserved(st, es, drops)
    ensures Conserved(st.AddPacket(e.frame.pod, FrameSize(e.frame)), es + [e], drops)
  {
    BytesSnoc(es, e);
    CountFramePerPod(st, es, e);
    if UidOf(e.frame) != "" {
      TotalUpdate(st.perPod, UidOf(e.frame),
        Plus(st.PodStatOf(UidOf(e.frame)), PodStat(1, FrameSize(e.frame), 0)));
    }
  }

  lemma CountDrop(st: Counters, es: seq<Entry>, drops: seq<nat>, n: nat)
    requires Conserved(st, es, drops)
    ensures Conserved(if n == 0 then st else st.AddDropped(n, None), es, drops + [n])
  {
    SumSnoc(drops, n);
  }

  lemma StatsAfter(s: State, hd: Handler)
    ensures SessAfter(s, hd).stats ==
      if CommitsFrame(s.sess, hd.pc) && hd.pc.counted then
        s.sess.stats.AddPacket(hd.pc.b.records[hd.pc.i].frame.pod, FrameSize(hd.pc.b.records[hd.pc.i].frame))
      else if hd.pc.Dropping? && hd.pc.b.dropped > 0 then s.sess.stats.AddDropped(hd.pc.b.dropped, None)
      else s.sess.stats
  {}

  lemma CountAct(s: State, h: nat, c: Choice)
    requires Conserved(s.sess.stats, s.counted, s.drops) && h in s.handlers
    ensures var s' := Apply(s, Act(h, c)); Conserved(s'.sess.stats, s'.counted, s'.drops)
  {
    var hd := s.handlers[h];
    StatsAfter(s, hd);
    if CommitsFrame(s.sess, hd.pc) && hd.pc.counted {
      CountFrame(s.sess.stats, s.counted, s.drops, Entry(h, hd.accepted, hd.pc.b.records[hd.pc.i].frame));
    } else if hd.pc.Dropping? {
      CountDrop(s.sess.stats, s.counted, s.drops, hd.pc.b.dropped);
    }
  }

  // ---- Published and counted, step by step ----

  ghost predicate EntryOk(s: State, e: Entry) {
    && e.h in s.handlers && e.k < s.handlers[e.h].accepted
    && (e.h, e.k) in s.published && s.published[(e.h, e.k)] == Wire(e.frame)
  }

  ghost predicate TagOk(s: State, t: (nat, nat)) {
    t in s.published ==>
      && t.0 in s.handlers && t.1 <= s.handlers[t.0].accepted
      && (t.1 < s.handlers[t.0].accepted && s.published[t].Wire? ==> Entry(t.0, t.1, s.published[t].frame) in s.counted)
      && (t.1 == s.handlers[t.0].accepted ==> MayHavePublished(s.handlers[t.0].pc))
  }

  /** A commit under way for a counted record follows the record's publication. */
  ghost predicate PendingOk(s: State, h: nat) {
    h in s.handlers && s.handlers[h].pc.Committing? && s.handlers[h].pc.counted ==>
      && (h, s.handlers[h].accepted) in s.published
      && s.handlers[h].pc.i < |s.handlers[h].pc.b.records|
      && s.published[(h, s.handlers[h].accepted)] == s.handlers[h].pc.b.records[s.handlers[h].pc.i]
  }

  ghost predicate InOrder(es: seq<Entry>) {
    forall i, j | 0 <= i < j < |es| && es[i].h == es[j].h :: es[i].k < es[j].k
  }

  /** Each counted frame is a published record, counted once, and each published
      wire frame whose commit succeeded is counted. */
  ghost predicate TagsInv(s: State) {
    && (forall e <- s.counted :: EntryOk(s, e))
    && InOrder(s.counted)
    && (forall t <- s.published :: TagOk(s, t))
    && (forall h <- s.handlers :: PendingOk(s, h))
  }

  predicate Publishes(hd: Handler, c: Choice) {
    hd.pc.Handling? && hd.pc.i < |hd.pc.b.records| && !Skipped(hd.pc) && c.taken
  }

  /** What a step does to a handler's count of accepted records. */
  lemma AcceptedAfter(s: State, hd: Handler, c: Choice)
    ensures var hd' := HandlerAfter(s, hd, c);
      && hd'.accepted == (if hd.pc.Committing? && CommitOk(s.sess, hd.pc) then hd.accepted + 1 else hd.accepted)
      && (MayHavePublished(hd.pc) && !(hd.pc.Committing? && CommitOk(s.sess, hd.pc)) ==> MayHavePublished(hd'.pc))
      && (hd'.pc.Committing? && hd'.pc.counted ==> Publishes(hd, c) && hd'.pc.b == hd.pc.b && hd'.pc.i == hd.pc.i)
      && (Publishes(hd, c) ==> MayHavePublished(hd'.pc))
  {}

  lemma OrderAct(s: State, h: nat, c: Choice)
    requires TagsInv(s) && h in s.handlers
    ensures InOrder(Apply(s, Act(h, c)).counted)
  {
    forall i | 0 <= i < |s.counted| && s.counted[i].h == h
      ensures s.counted[i].k < s.handlers[h].accepted
    {
      assert EntryOk(s, s.counted[i]);
    }
  }

  lemma EntriesAct(s: State, h: nat, c: Choice, e: Entry)
    requires TagsInv(s) && h in s.handlers && e in Apply(s, Act(h, c)).counted
    ensures EntryOk(Apply(s, Act(h, c)), e)
  {
    AcceptedAfter(s, s.handlers[h], c);
    assert PendingOk(s, h);
    if e in s.counted {
      assert EntryOk(s, e);
    }
  }

  lemma PublishedAct(s: State, h: nat, c: Choice, t: (nat, nat))
    requires TagsInv(s) && h in s.handlers
    ensures TagOk(Apply(s, Act(h, c)), t)
  {
    AcceptedAfter(s, s.handlers[h], c);
    assert PendingOk(s, h);
    assert t in s.published ==> TagOk(s, t);
  }

  lemma TagsAct(s: State, h: nat, c: Choice)
    requires TagsInv(s) && h in s.handlers
    ensures TagsInv(Apply(s, Act(h, c)))
  {
    var s' := Apply(s, Act(h, c));
    OrderAct(s, h, c);
    AcceptedAfter(s, s.handlers[h], c);
    forall e | e in s'.counted
      ensures EntryOk(s', e)
    {
      EntriesAct(s, h, c, e);
    }
    forall t | t in s'.published
      ensures TagOk(s', t)
    {
      PublishedAct(s, h, c, t);
    }
    forall h' | h' in s'.handlers
      ensures PendingOk(s', h')
    {
      assert h' in s.handlers ==> PendingOk(s, h');
    }
  }

  // ---- The invariants in every run ----

  ghost predicate CountInv(s: State) {
    Conserved(s.sess.stats, s.counted, s.drops) && TagsInv(s)
  }

  /** Only the agents, the handlers' arrivals and the state change from outside. */
  lemma OtherKeeps(s: State, step: Step)
    requires CountInv(s) && Enabled(s, step) && !step.Act?
    ensures CountInv(Apply(s, step))
  {
    var s' := Apply(s, step);
    forall e | e in s'.counted
      ensures EntryOk(s', e)
    {
      assert EntryOk(s, e);
    }
    forall t | t in s'.published
      ensures TagOk(s', t)
    {
      assert TagOk(s, t);
    }
    forall h | h in s'.handlers
      ensures PendingOk(s', h)
    {
      assert h in s.handlers ==> PendingOk(s, h);
    }
  }

  lemma CountNext(s: State, s': State)
    requires CountInv(s) && Next(s, s')
    ensures CountInv(s')
  {
    var step :| Enabled(s, step) && s' == Apply(s, step);
    if step.Act? {
      CountAct(s, step.h, step.c);
      TagsAct(s, step.h, step.c);
    } else {
      OtherKeeps(s, step);
    }
  }

  lemma CountNextAt(run: seq<State>, i: nat)
    requires IsRun(run) && 0 < i < |run| && CountInv(run[i - 1])
    ensures CountInv(run[i])
  {
    assert StepAt(run, i);
    CountNext(run[i - 1], run[i]);
  }

  lemma CountInit(s: State)
    requires Init(s)
    ensures CountInv(s)
  {}

  lemma {:induction false} RunCounts(run: seq<State>, i: nat)
    requires IsRun(run) && i < |run|
    ensures CountInv(run[i])
  {
    hide CountInv;
    if i == 0 {
      CountInit(run[0]);
    } else {
      RunCounts(run, i - 1);
      CountNextAt(run, i);
    }
  }

  lemma HandlersNextAt(run: seq<State>, i: nat)
    requires IsRun(run) && 0 < i < |run| && HandlersOk(run[i - 1])
    ensures HandlersOk(run[i])
  {
    assert StepAt(run, i);
    HandlersNext(run[i - 1], run[i]);
  }

  lemma {:induction false} RunHandlers(run: seq<State>, i: nat)
    requires IsRun(run) && i < |run|
    ensures HandlersOk(run[i])
  {
    if i > 0 {
      RunHandlers(run, i - 1);
      HandlersNextAt(run, i);
    }
  }

  // ---- What every orderly run guarantees ----

  lemma OrderlyIsRun(run: seq<State>)
    requires IsOrderlyRun(run)
    ensures IsRun(run)
  {
    forall i | 0 < i < |run|
      ensures StepAt(run, i)
    {
      assert OrderlyStepAt(run, i);
    }
  }

  lemma ClaimNext(s: State, s': State)
    requires ClaimOk(s) && HandlersOk(s) && OrderlyNext(s, s')
    ensures ClaimOk(s')
  {
    var step :| Enabled(s, step) && IsOrderly(s, step) && s' == Apply(s, step);
    if step.Act? {
      ClaimAct(s, step.h, step.c);
    } else {
      OtherReassigns(s, step);
      ClaimReassigned(s, s');
    }
  }

  lemma ClaimNextAt(run: seq<State>, i: nat)
    requires IsOrderlyRun(run) && 0 < i < |run| && ClaimOk(run[i - 1])
    ensures ClaimOk(run[i])
  {
    assert OrderlyStepAt(run, i);
    OrderlyIsRun(run);
    RunHandlers(run, i - 1);
    ClaimNext(run[i - 1], run[i]);
  }

  lemma {:induction false} RunClaims(run: seq<State>, i: nat)
    requires IsOrderlyRun(run) && i < |run|
    ensures ClaimOk(run[i])
  {
    if i > 0 {
      RunClaims(run, i - 1);
      ClaimNextAt(run, i);
    }
  }

  /** Single ingest claim: an agent's ingestActive holds exactly when one live
      handler holds the claim on that node and stream, and only one can. So a
      superseded handler's release never clears its replacement's claim. */
  lemma SingleClaim(run: seq<State>, i: nat, node: Node)
    requires IsOrderlyRun(run) && i < |run| && node in run[i].sess.maps.agents
    ensures run[i].sess.maps.agents[node].ingestActive <==> exists h :: Holds(run[i], h, node)
    ensures forall h, h' | Holds(run[i], h, node) && Holds(run[i], h', node) :: h == h'
  {
    RunClaims(run, i);
    assert run[i].sess.maps.agents[node].ingestActive <==> Held(run[i], node);
  }

  lemma KeptMeansOrderly(s: State, s': State)
    requires ClaimOk(s) && ClaimOk(s') && Next(s, s')
    ensures OrderlyNext(s, s')
  {
    var step :| Enabled(s, step) && s' == Apply(s, step);
    if step.NewAgent? {
      ReadoptionExactly(s, step.node, step.podName, step.stream, step.a);
    }
    assert IsOrderly(s, step);
  }

  /** The claims are single and the flags tell them, all along, exactly in the
      orderly runs. */
  lemma SingleClaimExactly(run: seq<State>)
    requires IsRun(run)
    ensures (forall i | 0 <= i < |run| :: ClaimOk(run[i])) <==> IsOrderlyRun(run)
  {
    if IsOrderlyRun(run) {
      forall i | 0 <= i < |run|
        ensures ClaimOk(run[i])
      {
        RunClaims(run, i);
      }
    } else {
      var i :| 0 < i < |run| && !OrderlyStepAt(run, i);
      assert StepAt(run, i);
      if ClaimOk(run[i - 1]) && ClaimOk(run[i]) {
        KeptMeansOrderly(run[i - 1], run[i]);
        assert false;
      }
    }
  }

  /** A handler that holds a node in an orderly run either claimed it just now or
      held it before, undisturbed. */
  lemma HeldBefore(s: State, s': State, h: nat, node: Node)
    requires HandlersOk(s) && OrderlyNext(s, s') && Holds(s', h, node)
    ensures h in s.handlers && (s.handlers[h].claim.None? || (Holds(s, h, node) && Undisturbed(s, s', node)))
  {
    var step :| Enabled(s, step) && IsOrderly(s, step) && s' == Apply(s, step);
    if step.Act? {
      HoldsAct(s, step.h, step.c);
      assert Addressed(s.handlers[step.h]);
    } else {
      OtherReassigns(s, step);
      HoldsReassigned(s, s', h, node);
      assert IsClaimant(s, h, node, s'.sess.maps.agents[node].stream);
    }
  }

  lemma HeldBeforeAt(run: seq<State>, j: nat, h: nat, node: Node)
    requires IsOrderlyRun(run) && j < |run| && Holds(run[j], h, node)
    ensures j > 0 && h in run[j - 1].handlers && HoldsAlone(run[j], h, node)
    ensures run[j - 1].handlers[h].claim.None? || (Holds(run[j - 1], h, node) && UndisturbedAt(run, j, node))
  {
    RunClaims(run, j);
    assert OrderlyStepAt(run, j);
    OrderlyIsRun(run);
    RunHandlers(run, j - 1);
    HeldBefore(run[j - 1], run[j], h, node);
  }

  /** In an orderly run every holder has held its node alone since its claim. */
  lemma {:induction false} OrderlyHolds(run: seq<State>, j: nat, h: nat, node: Node) returns (i: nat)
    requires IsOrderlyRun(run) && j < |run| && Holds(run[j], h, node)
    ensures HoldsSince(run, i, j, h, node)
  {
    HeldBeforeAt(run, j, h, node);
    if run[j - 1].handlers[h].claim.None? {
      i := j;
    } else {
      i := OrderlyHolds(run, j - 1, h, node);
    }
  }

  // ---- What every run guarantees ----

  lemma InStepNextAt(run: seq<State>, i: nat, j: nat, h: nat, node: Node)
    requires IsRun(run) && HoldsSince(run, i, j, h, node)
    requires i < j ==> HolderInStep(run[j - 1], h, node)
    ensures HolderInStep(run[j], h, node)
  {
    RunHandlers(run, j - 1);
    assert HoldsAlone(run[j], h, node);
    if i == j {
      assert StepAt(run, j);
      ClaimInStep(run[j - 1], run[j], h, node);
    } else {
      assert HoldsAlone(run[j - 1], h, node) && UndisturbedAt(run, j, node);
      InStepNext(run[j - 1], run[j], h, node);
    }
  }

  lemma {:induction false} RunInStep(run: seq<State>, i: nat, j: nat, h: nat, node: Node)
    requires IsRun(run) && HoldsSince(run, i, j, h, node)
    ensures HolderInStep(run[j], h, node)
    decreases j
  {
    if i < j {
      RunInStep(run, i, j - 1, h, node);
    }
    InStepNextAt(run, i, j, h, node);
  }

  /** Validated batches commit: a handler that has held its incarnation alone since
      its claim cannot fail at a commit, whatever ran in between, and has advanced
      lastSequence by the wire frames of the batch so far, skipped ones included. */
  lemma ValidatedBatchCommits(run: seq<State>, i: nat, j: nat, h: nat, node: Node)
    requires IsRun(run) && HoldsSince(run, i, j, h, node) && run[j].handlers[h].pc.Committing?
    ensures CommitOk(run[j].sess, run[j].handlers[h].pc)
    ensures var hd := run[j].handlers[h];
      run[j].sess.maps.agents[node].lastSequence ==
        hd.base + WireTotal(hd.received) + WireCount(hd.pc.b.records[..hd.pc.i])
  {
    RunHandlers(run, j);
    RunInStep(run, i, j, h, node);
    assert Addressed(run[j].handlers[h]);
  }

  /** ... so between batches it has advanced by exactly the wire frames received. */
  lemma AdvancedByBatches(run: seq<State>, i: nat, j: nat, h: nat, node: Node)
    requires IsRun(run) && HoldsSince(run, i, j, h, node)
    requires run[j].handlers[h].pc.Receiving? || run[j].handlers[h].pc.Validating?
    ensures run[j].sess.maps.agents[node].lastSequence ==
      run[j].handlers[h].base + WireTotal(run[j].handlers[h].received)
  {
    RunInStep(run, i, j, h, node);
  }

  /** For the first handler of its stream, the agent's last number is the count of
      all wire frames received on the stream so far. */
  lemma SequenceExpected(run: seq<State>, i: nat, j: nat, h: nat, node: Node)
    requires IsRun(run) && HoldsSince(run, i, j, h, node) && run[j].handlers[h].first
    requires run[j].handlers[h].pc.Receiving? || run[j].handlers[h].pc.Validating?
    ensures run[j].sess.maps.agents[node].lastSequence == WireTotal(run[j].handlers[h].received)
  {
    RunHandlers(run, j);
    AdvancedByBatches(run, i, j, h, node);
  }

  /** Counter conservation: the session's packets, bytes and drops are the sums
      over the frames counted and the batches' drop counts, each pod's counters
      the sums over its own frames, and together with the frames of no pod the
      pods' counters add up to the session's. */
  lemma CountersConserved(run: seq<State>, i: nat)
    requires IsRun(run) && i < |run|
    ensures Conserved(run[i].sess.stats, run[i].counted, run[i].drops)
  {
    RunCounts(run, i);
  }

  /** What is counted was published before, what was published and committed is
      counted, and nothing is counted twice. */
  lemma CountedMeansPublished(run: seq<State>, i: nat)
    requires IsRun(run) && i < |run|
    ensures forall e <- run[i].counted ::
      (e.h, e.k) in run[i].published && run[i].published[(e.h, e.k)] == Wire(e.frame)
    ensures forall h, k | (h, k) in run[i].published && h in run[i].handlers && k < run[i].handlers[h].accepted
              && run[i].published[(h, k)].Wire? ::
              Entry(h, k, run[i].published[(h, k)].frame) in run[i].counted
    ensures forall a, b | 0 <= a < b < |run[i].counted| ::
              (run[i].counted[a].h, run[i].counted[a].k) != (run[i].counted[b].h, run[i].counted[b].k)
  {
    RunCounts(run, i);
    assert forall e <- run[i].counted :: EntryOk(run[i], e);
    assert forall t <- run[i].published :: TagOk(run[i], t);
  }

  // ---- A run that is not orderly ----

  function Last(run: seq<State>): State
    requires run != []
  {
    run[|run| - 1]
  }

  lemma Extend(run: seq<State>, step: Step) returns (run': seq<State>)
    requires IsRun(run) && Enabled(Last(run), step)
    ensures IsRun(run') && run <= run' && Last(run') == Apply(Last(run), step)
  {
    run' := run + [Apply(Last(run), step)];
    forall i | 0 < i < |run'|
      ensures StepAt(run', i)
    {
      assert i < |run| ==> StepAt(run, i);
    }
  }

  /** A new handler claims the stream of an unclaimed agent. */
  lemma ClaimIt(run0: seq<State>, h: nat, node: Node) returns (run: seq<State>)
    requires IsRun(run0) && h !in Last(run0).handlers && node in Last(run0).sess.maps.agents
    requires Last(run0).sess.maps.agents[node] == AgentRecord("pod", "stream", 0, false)
    ensures IsRun(run) && Holds(Last(run), h, node) && Last(run).handlers[h].stream == "stream"
    ensures Last(run).handlers.Keys == Last(run0).handlers.Keys + {h}
    ensures forall g <- Last(run0).handlers ::
      g in Last(run).handlers && Last(run).handlers[g] == Last(run0).handlers[g]
  {
    var b := CaptureBatch(Last(run0).sess.id, node, "stream", [], 0);
    run := Extend(run0, Arrive(h, "pod", "stream"));
    run := Extend(run, Act(h, Choice(Some(b), false)));
    run := Extend(run, Act(h, Choice(None, false)));
  }

  /** Recording a surviving pod again while its handler is live forgets the claim
      on it, and a second live handler may then hold it. */
  lemma ReadoptedAgentClaimedTwice(id: string, node: Node, a: Assignment) returns (run: seq<State>)
    ensures IsRun(run) && Holds(Last(run), 0, node) && Holds(Last(run), 1, node)
  {
    run := [State(NewSession(id), {}, map[], map[], [], [])];
    run := Extend(run, NewAgent(node, "pod", "stream", a));
    run := ClaimIt(run, 0, node);
    run := Extend(run, NewAgent(node, "pod", "stream", a));
    run := ClaimIt(run, 1, node);
  }
}
