/** sessionState (pkg/hub/session.go): the hub's state for one capture session.

    The datatype Session holds the fields guarded by its mutex and one function
    for each lock region; the class SessionState runs the regions in place. */
module Sessions {
  import opened Channels
  import opened Records

  const MAX_BATCH_RECORDS := 64
  const MAX_BATCH_PAYLOAD_BYTES := 4 * 0x10_0000

  datatype AgentRecord = AgentRecord(podName: string, stream: string, lastSequence: nat, ingestActive: bool)

  datatype PodStat = PodStat(packets: nat, bytes: nat, dropped: nat)

  datatype Counters = Counters(packets: nat, bytes: nat, dropped: nat, perPod: map<string, PodStat>)
  {
    /** addPacketLocked */
    function AddPacket(pod: Option<PodRef>, n: nat): Counters {
      this.(packets := packets + 1, bytes := bytes + n, perPod := Bumped(pod, perPod, PodStat(1, n, 0)))
    }

    function AddDropped(n: nat, pod: Option<PodRef>): Counters {
      this.(dropped := dropped + n, perPod := Bumped(pod, perPod, PodStat(0, 0, n)))
    }

    function PodStatOf(uid: string): PodStat {
      StatOf(perPod, uid)
    }
  }

  function StatOf(m: map<string, PodStat>, uid: string): PodStat {
    if uid in m then m[uid] else PodStat(0, 0, 0)
  }

  function Plus(a: PodStat, b: PodStat): PodStat {
    PodStat(a.packets + b.packets, a.bytes + b.bytes, a.dropped + b.dropped)
  }

  /** `d` is counted for `pod`, if it has a UID. */
  function Bumped(pod: Option<PodRef>, m: map<string, PodStat>, d: PodStat): map<string, PodStat> {
    if pod.None? || pod.value.uid == "" then m
    else m[pod.value.uid := Plus(StatOf(m, pod.value.uid), d)]
  }

  /** The sum of all pods' counters. */
  ghost function Total(m: map<string, PodStat>): PodStat {
    if m == map[] then PodStat(0, 0, 0)
    else
      var uid :| uid in m;
      Plus(m[uid], Total(m - {uid}))
  }

  /** ... which does not depend on the order of summation. */
  lemma {:induction false} TotalWithout(m: map<string, PodStat>, uid: string)
    requires uid in m
    ensures Total(m) == Plus(m[uid], Total(m - {uid}))
    decreases |m|
  {
    var first :| first in m && Total(m) == Plus(m[first], Total(m - {first}));
    if first != uid {
      var rest := m - {first, uid};
      TotalWithout(m - {first}, uid);
      TotalWithout(m - {uid}, first);
      assert m - {first} - {uid} == rest && m - {uid} - {first} == rest;
      assert Total(m) == Plus(m[first], Plus(m[uid], Total(rest)));
    }
  }

  lemma {:induction false} TotalUpdate(m: map<string, PodStat>, uid: string, st: PodStat)
    ensures var before := if uid in m then m[uid] else PodStat(0, 0, 0);
      Plus(Total(m[uid := st]), before) == Plus(Total(m), st)
  {
    var m' := m[uid := st];
    TotalWithout(m', uid);
    assert m' - {uid} == m - {uid};
    if uid in m {
      TotalWithout(m, uid);
    } else {
      assert m - {uid} == m;
    }
  }

  /** One event of size `d` has been counted for `pod`: into its own counters and
      so into the sum of all, not at all for no pod or one without a UID; every
      other pod's counters stand. */
  ghost predicate Counts(pod: Option<PodRef>, m: map<string, PodStat>, m': map<string, PodStat>, d: PodStat) {
    if pod.None? || pod.value.uid == "" then m' == m
    else
      && Total(m') == Plus(Total(m), d)
      && m'.Keys == m.Keys + {pod.value.uid}
      && forall uid <- m | uid != pod.value.uid :: m'[uid] == m[uid]
  }

  lemma BumpedCounts(pod: Option<PodRef>, m: map<string, PodStat>, d: PodStat)
    ensures Counts(pod, m, Bumped(pod, m, d), d)
  {
    if pod.Some? && pod.value.uid != "" {
      TotalUpdate(m, pod.value.uid, Plus(StatOf(m, pod.value.uid), d));
    }
  }

  /** The agents and their assignments, by node. */
  datatype Maps = Maps(agents: map<Node, AgentRecord>, assigns: map<Node, Assignment>)
  {
    function RecordAgent(node: Node, podName: string, stream: string, a: Assignment): Maps {
      Maps(agents[node := AgentRecord(podName, stream, 0, false)], assigns[node := a])
    }

    function UpdateAssignment(node: Node, a: Assignment): Maps {
      this.(assigns := assigns[node := a])
    }

    function RemoveAgent(node: Node): Maps {
      Maps(agents - {node}, assigns - {node})
    }
  }

  ghost predicate AssignmentOk(a: Assignment, node: Node, rec: AgentRecord) {
    && a.node == node
    && a.stream == rec.stream
    && forall i | 0 <= i < |a.targets| :: a.targets[i].pod.node == node
  }

  /** The two maps agree: same keys, same stream ids, targets on their nodes. */
  ghost predicate MapsAgree(m: Maps) {
    && m.agents.Keys == m.assigns.Keys
    && forall n | n in m.agents && n in m.assigns :: AssignmentOk(m.assigns[n], n, m.agents[n])
  }

  /** `gen` is the assignment generation; the two channels are closed and
      replaced on every change of the state and of the assignments. */
  datatype Session = Session(
    id: string,
    state: SessionPhase,
    maps: Maps,
    gen: nat,
    stateChange: Chan,
    assignChange: Chan,
    chans: Chans,
    stats: Counters)
  {
    function SetState(st: SessionPhase): Session {
      this.(state := st, stateChange := chans.next, chans := chans.Close(stateChange).Make())
    }

    /** notifyAssignLocked */
    function NotifyAssign(): Session {
      this.(gen := gen + 1, assignChange := chans.next, chans := chans.Close(assignChange).Make())
    }

    function RecordAgent(node: Node, podName: string, stream: string, a: Assignment): Session {
      this.(maps := maps.RecordAgent(node, podName, stream, a)).NotifyAssign()
    }

    function UpdateAssignment(node: Node, a: Assignment): Session {
      this.(maps := maps.UpdateAssignment(node, a)).NotifyAssign()
    }

    function RemoveAgent(node: Node): Session {
      this.(maps := maps.RemoveAgent(node)).NotifyAssign()
    }

    function AssignmentFor(node: Node, podName: string, stream: string): Option<Assignment> {
      if node == "" || podName == "" || stream == "" || node !in maps.agents then None
      else if maps.agents[node].podName != podName || maps.agents[node].stream != stream then None
      else AssignmentOn(node)
    }

    function AssignmentOn(node: Node): Option<Assignment> {
      if node in maps.assigns then Some(maps.assigns[node]) else None
    }

    predicate MayClaim(node: Node, podName: string, stream: string) {
      && node in maps.agents
      && podName != "" && podName == maps.agents[node].podName
      && stream != "" && stream == maps.agents[node].stream
      && !maps.agents[node].ingestActive
    }

    function WithAgent(node: Node, rec: AgentRecord): Session {
      this.(maps := maps.(agents := maps.agents[node := rec]))
    }

    function Claim(node: Node): Session
      requires node in maps.agents
    {
      WithAgent(node, maps.agents[node].(ingestActive := true))
    }

    function Release(node: Node, stream: string): Session {
      if node in maps.agents && maps.agents[node].stream == stream then
        WithAgent(node, maps.agents[node].(ingestActive := false))
      else
        this
    }

    /** Committing a frame needs the incarnation and the next number. */
    predicate MayCommit(node: Node, stream: string, frame: WireFrame) {
      && node in maps.agents
      && maps.agents[node].stream == stream
      && frame.sequence == maps.agents[node].lastSequence + 1
    }

    function Commit(node: Node, frame: WireFrame, countPacket: bool): Session
      requires node in maps.agents
    {
      var s := WithAgent(node, maps.agents[node].(lastSequence := frame.sequence));
      if countPacket then s.(stats := stats.AddPacket(frame.pod, FrameSize(frame))) else s
    }

    function AddDropped(n: nat, pod: Option<PodRef>): Session {
      if n == 0 then this else this.(stats := stats.AddDropped(n, pod))
    }
  }

  function FrameSize(f: WireFrame): nat {
    if f.originalLength == 0 then |f.payload| else f.originalLength
  }

  // ---- validateCaptureRecord and validateCaptureBatch ----

  datatype RecordError =
    | RecordRequired
    | InvalidSource
    | InvalidTime
    | PayloadExceedsLength
    | PayloadRequired
    | TlsDisabled

  datatype BatchError =
    | SessionMismatch
    | StateRefuses
    | NoAgent
    | StreamMismatch
    | TooManyRecords
    | BadRecord(i: nat, error: RecordError)
    | BadSequence(i: nat)
    | PayloadTooLarge(i: nat)

  /** What makes a record acceptable, without saying in which order the code looks. */
  predicate RecordAcceptable(r: CaptureRecord, a: Option<Assignment>) {
    match r
    case Wire(f) =>
      f.source == SourceWire && f.timestamp == ValidTimestamp && |f.payload| % 0x1_0000_0000 <= f.originalLength
    case Tls(e) => AssignedTarget(a, e.pod).None? || AssignedTarget(a, e.pod).value.tlsMode != TlsOff
    case _ => false
  }

  function ValidateCaptureRecord(r: CaptureRecord, a: Option<Assignment>): (res: Result<nat, RecordError>)
    ensures res.Ok? <==> RecordAcceptable(r, a)
    ensures res.Ok? ==> res.value == PayloadLength(r)
  {
    if r.NilRecord? then Err(RecordRequired)
    else if r.Wire? then
      if r.frame.source != SourceWire then Err(InvalidSource)
      else if r.frame.timestamp != ValidTimestamp then Err(InvalidTime)
      else if r.frame.originalLength < |r.frame.payload| % 0x1_0000_0000 then Err(PayloadExceedsLength)
      else Ok(|r.frame.payload|)
    else if r.Tls? then
      var target := AssignedTarget(a, r.event.pod);
      if target.None? then Ok(|r.event.payload|)
      else if target.value.tlsMode == TlsOff then Err(TlsDisabled)
      else Ok(|r.event.payload|)
    else Err(PayloadRequired)
  }

  predicate Accepting(s: SessionPhase) {
    s == STARTING || s == RUNNING || s == STOPPING
  }

  /** The batch is addressed to a live incarnation and not too long. */
  predicate WellAddressed(s: Session, b: CaptureBatch) {
    && b.session != "" && b.session == s.id
    && Accepting(s.state)
    && b.node in s.maps.agents
    && b.stream != "" && s.maps.agents[b.node].stream == b.stream
    && |b.records| <= MAX_BATCH_RECORDS
  }

  /** The batch is one the hub takes in state `s`. */
  ghost predicate BatchAcceptable(s: Session, b: CaptureBatch) {
    && WellAddressed(s, b)
    && (forall i | 0 <= i < |b.records| :: RecordAcceptable(b.records[i], s.AssignmentOn(b.node)))
    && Consecutive(b.records, s.maps.agents[b.node].lastSequence)
    && PayloadBytes(b.records) <= MAX_BATCH_PAYLOAD_BYTES
  }

  /** The first `i` records pass. */
  ghost predicate PrefixAcceptable(s: Session, b: CaptureBatch, i: nat)
    requires i <= |b.records|
  {
    && WellAddressed(s, b)
    && (forall k | 0 <= k < i :: RecordAcceptable(b.records[k], s.AssignmentOn(b.node)))
    && (forall k | 0 <= k < i && b.records[k].Wire? ::
          b.records[k].frame.sequence == s.maps.agents[b.node].lastSequence + WireCount(b.records[..k]) + 1)
    && PayloadBytes(b.records[..i]) <= MAX_BATCH_PAYLOAD_BYTES
  }

  /** Record `i` is a wire frame that does not carry the number due to it. */
  predicate OutOfSequence(rs: seq<CaptureRecord>, last: nat, i: nat)
    requires i < |rs|
  {
    rs[i].Wire? && rs[i].frame.sequence != last + WireCount(rs[..i]) + 1
  }

  lemma AcceptableIsPrefixAcceptable(s: Session, b: CaptureBatch)
    ensures PrefixAcceptable(s, b, |b.records|) <==> BatchAcceptable(s, b)
  {
    assert b.records[..|b.records|] == b.records;
  }

  /** One more record: exactly these three tests extend the acceptable prefix,
      and one that fails spoils the whole batch. */
  lemma ExtendPrefix(s: Session, b: CaptureBatch, i: nat)
    requires i < |b.records| && PrefixAcceptable(s, b, i)
    ensures PrefixAcceptable(s, b, i + 1) <==>
      && RecordAcceptable(b.records[i], s.AssignmentOn(b.node))
      && (b.records[i].Wire? ==>
            b.records[i].frame.sequence == s.maps.agents[b.node].lastSequence + WireCount(b.records[..i]) + 1)
      && PayloadBytes(b.records[..i]) + PayloadLength(b.records[i]) <= MAX_BATCH_PAYLOAD_BYTES
    ensures !PrefixAcceptable(s, b, i + 1) ==> !BatchAcceptable(s, b)
    ensures PayloadBytes(b.records[..i + 1]) == PayloadBytes(b.records[..i]) + PayloadLength(b.records[i])
    ensures WireCount(b.records[..i + 1]) == WireCount(b.records[..i]) + if b.records[i].Wire? then 1 else 0
  {
    PayloadBytesSnoc(b.records, i);
    WireCountSnoc(b.records, i);
    PayloadBytesGrow(b.records, i + 1);
  }

  // ---- The object ----

  function NewSession(id: string): Session {
    Session(id, PENDING, Maps(map[], map[]), 0, 0, 1, Chans(2, {}, false), Counters(0, 0, 0, map[]))
  }

  /** Both broadcast channels are open and distinct, and none was closed twice. */
  ghost predicate BroadcastsOk(s: Session) {
    && !s.chans.panicked
    && (forall c <- s.chans.closed :: c < s.chans.next)
    && s.stateChange < s.chans.next && s.stateChange !in s.chans.closed
    && s.assignChange < s.chans.next && s.assignChange !in s.chans.closed
    && s.stateChange != s.assignChange
  }

  ghost predicate SessionOk(s: Session) {
    MapsAgree(s.maps) && BroadcastsOk(s)
  }

  datatype AssignPoll = Stopping | AgentRemoved | Changed | Wait(on: Chan)
  datatype RunPoll = IsRunning | Ended | WaitState(seen: SessionPhase, on: Chan)

  class SessionState {
    const id: string
    var state: SessionPhase
    var agents: map<Node, AgentRecord>
    var assigns: map<Node, Assignment>
    var assignGen: nat
    var stateChange: Chan
    var assignChange: Chan
    var chans: Chans
    var packets: nat
    var bytes: nat
    var dropped: nat
    var perPod: map<string, PodStat>

    ghost function View(): Session
      reads this
    {
      Session(id, state, Maps(agents, assigns), assignGen, stateChange, assignChange, chans,
              Counters(packets, bytes, dropped, perPod))
    }

    ghost predicate Valid()
      reads this
    {
      BroadcastsOk(View())
    }

    ghost predicate Agrees()
      reads this
    {
      MapsAgree(View().maps)
    }

    constructor (id: string)
      ensures Valid() && Agrees() && View() == NewSession(id)
      ensures this.id == id && state == PENDING && agents == map[] && assigns == map[]
      ensures packets == bytes == dropped == 0 && perPod == map[]
    {
      this.id := id;
      state := PENDING;
      agents, assigns, assignGen := map[], map[], 0;
      stateChange, assignChange, chans := 0, 1, Chans(2, {}, false);
      packets, bytes, dropped, perPod := 0, 0, 0, map[];
    }

    method SetState(st: SessionPhase)
      requires Valid()
      modifies this`state, this`stateChange, this`chans
      ensures Valid() && View() == old(View()).SetState(st)
      ensures state == st && old(stateChange) in chans.closed && stateChange !in chans.closed
    {
      state := st;
      chans := chans.Close(stateChange);
      stateChange := chans.next;
      chans := chans.Make();
    }

    /** Wakes everybody who waits on the old channel; nobody waits on the new one. */
    method NotifyAssignLocked()
      modifies this`assignGen, this`assignChange, this`chans
      ensures View() == old(View()).NotifyAssign()
      ensures assignGen == old(assignGen) + 1 && old(assignChange) in chans.closed
      ensures old(Valid()) ==> Valid()
    {
      assignGen := assignGen + 1;
      chans := chans.Close(assignChange);
      assignChange := chans.next;
      chans := chans.Make();
    }

    method RecordAgent(node: Node, podName: string, stream: string, assignment: Assignment)
      requires Valid()
      modifies this`agents, this`assigns, this`assignGen, this`assignChange, this`chans
      ensures Valid() && View() == old(View()).RecordAgent(node, podName, stream, assignment)
      ensures agents == old(agents)[node := AgentRecord(podName, stream, 0, false)]
      ensures assigns == old(assigns)[node := assignment]
      ensures assignGen == old(assignGen) + 1 && old(assignChange) in chans.closed
      ensures old(Agrees()) && AssignmentOk(assignment, node, agents[node]) ==> Agrees()
    {
      agents := agents[node := AgentRecord(podName, stream, 0, false)];
      assigns := assigns[node := assignment];
      NotifyAssignLocked();
    }

    method UpdateAssignment(node: Node, assignment: Assignment)
      requires Valid()
      modifies this`assigns, this`assignGen, this`assignChange, this`chans
      ensures Valid() && View() == old(View()).UpdateAssignment(node, assignment)
      ensures assigns == old(assigns)[node := assignment]
      ensures assignGen == old(assignGen) + 1 && old(assignChange) in chans.closed
      ensures old(Agrees()) && node in agents && AssignmentOk(assignment, node, agents[node]) ==> Agrees()
    {
      assigns := assigns[node := assignment];
      NotifyAssignLocked();
    }

    method RemoveAgent(node: Node)
      requires Valid()
      modifies this`agents, this`assigns, this`assignGen, this`assignChange, this`chans
      ensures Valid() && View() == old(View()).RemoveAgent(node)
      ensures agents == old(agents) - {node} && assigns == old(assigns) - {node}
      ensures assignGen == old(assignGen) + 1 && old(assignChange) in chans.closed
      ensures old(Agrees()) ==> Agrees()
    {
      agents := agents - {node};
      assigns := assigns - {node};
      NotifyAssignLocked();
    }

    /** assignmentFor: the node's assignment, for its recorded agent alone. */
    method AssignmentFor(node: Node, podName: string, stream: string) returns (a: Option<Assignment>)
      ensures a == View().AssignmentFor(node, podName, stream)
      ensures a.Some? <==>
        && node != "" && podName != "" && stream != ""
        && node in agents && agents[node].podName == podName && agents[node].stream == stream
        && node in assigns
      ensures a.Some? ==> a.value == assigns[node]
    {
      if node == "" || podName == "" || stream == "" {
        return None;
      }
      if node !in agents {
        return None;
      }
      var rec := agents[node];
      if rec.podName != podName || rec.stream != stream {
        return None;
      }
      if node !in assigns {
        return None;
      }
      return Some(assigns[node]);
    }

    /** The lock region of waitUntilRunning. */
    method PollRunning() returns (p: RunPoll)
      ensures p.IsRunning? <==> state == RUNNING
      ensures p.Ended? <==> state == STOPPING || IsTerminalState(state)
      ensures p.WaitState? ==> p.seen == state && p.on == stateChange
    {
      if state == RUNNING {
        return IsRunning;
      }
      if state == STOPPING || state == STOPPED || state == FAILED {
        return Ended;
      }
      return WaitState(state, stateChange);
    }

    /** The lock region of waitAssignChange. */
    method PollAssign(node: Node, gen: nat) returns (p: AssignPoll)
      ensures p.Stopping? <==> IsTerminalState(state) || state == STOPPING
      ensures p.AgentRemoved? <==> !IsTerminalState(state) && state != STOPPING && node !in agents
      ensures p.Changed? ==> assignGen != gen
      ensures p.Wait? ==> p.on == assignChange && assignGen == gen && node in agents
    {
      if IsTerminalState(state) || state == STOPPING {
        return Stopping;
      }
      if node !in agents {
        return AgentRemoved;
      }
      if assignGen != gen {
        return Changed;
      }
      return Wait(assignChange);
    }

    method ClaimCaptureStream(node: Node, podName: string, stream: string) returns (ok: bool)
      requires Valid()
      modifies this`agents
      ensures Valid() && ok == old(View()).MayClaim(node, podName, stream)
      ensures View() == if ok then old(View()).Claim(node) else old(View())
      ensures ok <==>
        && podName != "" && stream != "" && node in old(agents)
        && old(agents)[node].podName == podName && old(agents)[node].stream == stream
        && !old(agents)[node].ingestActive
      ensures agents == if ok then old(agents)[node := old(agents)[node].(ingestActive := true)] else old(agents)
      ensures old(Agrees()) ==> Agrees()
    {
      if node !in agents || podName == "" || podName != agents[node].podName ||
         stream == "" || stream != agents[node].stream {
        return false;
      }
      var rec := agents[node];
      if rec.ingestActive {
        return false;
      }
      agents := agents[node := rec.(ingestActive := true)];
      ok := true;
    }

    method ReleaseCaptureStream(node: Node, stream: string)
      requires Valid()
      modifies this`agents
      ensures Valid() && View() == old(View()).Release(node, stream)
      ensures agents == if node in old(agents) && old(agents)[node].stream == stream then
                          old(agents)[node := old(agents)[node].(ingestActive := false)] else old(agents)
      ensures old(Agrees()) ==> Agrees()
    {
      if node !in agents || agents[node].stream != stream {
        return;
      }
      agents := agents[node := agents[node].(ingestActive := false)];
    }

    method ValidateCaptureBatch(b: CaptureBatch) returns (error: Option<BatchError>)
      requires Valid()
      ensures error.None? <==> BatchAcceptable(View(), b)
      ensures error == Some(SessionMismatch) <==> b.session == "" || b.session != id
      ensures error == Some(StateRefuses) ==> state != STARTING && state != RUNNING && state != STOPPING
      ensures error == Some(NoAgent) ==> b.node !in agents
      ensures error == Some(StreamMismatch) ==>
                b.node in agents && (b.stream == "" || agents[b.node].stream != b.stream)
      ensures error == Some(TooManyRecords) ==> |b.records| > 64
      ensures error.None? ==>
        && (state == STARTING || state == RUNNING || state == STOPPING)
        && b.node in agents && b.stream != "" && agents[b.node].stream == b.stream && |b.records| <= 64
        && Consecutive(b.records, agents[b.node].lastSequence) && PayloadBytes(b.records) <= 4 * 0x10_0000
      ensures error.Some? && error.value.BadRecord? ==>
                error.value.i < |b.records| && PrefixAcceptable(View(), b, error.value.i)
                && ValidateCaptureRecord(b.records[error.value.i], View().AssignmentOn(b.node))
                   == Err(error.value.error)
      ensures error.Some? && error.value.BadSequence? ==>
                error.value.i < |b.records| && PrefixAcceptable(View(), b, error.value.i)
                && OutOfSequence(b.records, agents[b.node].lastSequence, error.value.i)
    {
      if b.session == "" || b.session != id {
        return Some(SessionMismatch);
      }
      if state != STARTING && state != RUNNING && state != STOPPING {
        return Some(StateRefuses);
      }
      if b.node !in agents {
        return Some(NoAgent);
      }
      var rec := agents[b.node];
      if b.stream == "" || rec.stream != b.stream {
        return Some(StreamMismatch);
      }
      if |b.records| > MAX_BATCH_RECORDS {
        return Some(TooManyRecords);
      }
      assert PrefixAcceptable(View(), b, 0);
      error := ValidateRecords(b, rec.lastSequence);
    }

    /** The loop of validateCaptureBatch. */
    method ValidateRecords(b: CaptureBatch, last: nat) returns (error: Option<BatchError>)
      requires PrefixAcceptable(View(), b, 0) && last == agents[b.node].lastSequence
      ensures error.Some? ==> error.value.BadRecord? || error.value.BadSequence? || error.value.PayloadTooLarge?
      ensures error.None? <==> BatchAcceptable(View(), b)
      ensures error.Some? && error.value.BadRecord? ==>
                error.value.i < |b.records| && PrefixAcceptable(View(), b, error.value.i)
                && ValidateCaptureRecord(b.records[error.value.i], View().AssignmentOn(b.node))
                   == Err(error.value.error)
      ensures error.Some? && error.value.BadSequence? ==>
                error.value.i < |b.records| && PrefixAcceptable(View(), b, error.value.i)
                && OutOfSequence(b.records, agents[b.node].lastSequence, error.value.i)
    {
      var assignment := if b.node in assigns then Some(assigns[b.node]) else None;
      var payloadBytes, lastSequence := 0, last;
      for i := 0 to |b.records|
        invariant PrefixAcceptable(View(), b, i)
        invariant payloadBytes == PayloadBytes(b.records[..i])
        invariant lastSequence == last + WireCount(b.records[..i])
      {
        var record := b.records[i];
        ExtendPrefix(View(), b, i);
        var n := ValidateCaptureRecord(record, assignment);
        if n.Err? {
          return Some(BadRecord(i, n.error));
        }
        if record.Wire? {
          if record.frame.sequence != lastSequence + 1 {
            return Some(BadSequence(i));
          }
          lastSequence := record.frame.sequence;
        }
        payloadBytes := payloadBytes + n.value;
        if payloadBytes > MAX_BATCH_PAYLOAD_BYTES {
          return Some(PayloadTooLarge(i));
        }
      }
      AcceptableIsPrefixAcceptable(View(), b);
      return None;
    }

    /** The counters of the event's own pod, made when it is first seen. */
    method CountPod(pod: Option<PodRef>, d: PodStat)
      modifies this`perPod
      ensures perPod == Bumped(pod, old(perPod), d)
      ensures Counts(pod, old(perPod), perPod, d)
    {
      BumpedCounts(pod, perPod, d);
      if pod.None? || pod.value.uid == "" {
        return;
      }
      var uid := pod.value.uid;
      var st := if uid in perPod then perPod[uid] else PodStat(0, 0, 0);
      perPod := perPod[uid := PodStat(st.packets + d.packets, st.bytes + d.bytes, st.dropped + d.dropped)];
    }

    method AddPacketLocked(pod: Option<PodRef>, n: nat)
      modifies this`packets, this`bytes, this`perPod
      ensures View() == old(View()).(stats := old(View()).stats.AddPacket(pod, n))
      ensures packets == old(packets) + 1 && bytes == old(bytes) + n
      ensures Counts(pod, old(perPod), perPod, PodStat(1, n, 0))
    {
      packets := packets + 1;
      bytes := bytes + n;
      CountPod(pod, PodStat(1, n, 0));
    }

    method CommitCaptureRecord(node: Node, stream: string, record: CaptureRecord, countPacket: bool) returns (ok: bool)
      requires Valid()
      modifies this`agents, this`packets, this`bytes, this`perPod
      ensures Valid()
      ensures ok == (record.Wire? ==> old(View()).MayCommit(node, stream, record.frame))
      ensures View() == if ok && record.Wire? then old(View()).Commit(node, record.frame, countPacket) else old(View())
      ensures record.Wire? ==> (ok <==> node in old(agents) && old(agents)[node].stream == stream
                                        && record.frame.sequence == old(agents)[node].lastSequence + 1)
      ensures agents == if !record.Wire? || !ok then old(agents)
                        else old(agents)[node := old(agents)[node].(lastSequence := record.frame.sequence)]
      ensures packets == old(packets) + if record.Wire? && ok && countPacket then 1 else 0
      ensures bytes == old(bytes) + if !record.Wire? || !ok || !countPacket then 0
                                    else if record.frame.originalLength > 0 then record.frame.originalLength
                                    else |record.frame.payload|
      ensures if record.Wire? && ok && countPacket then
                Counts(record.frame.pod, old(perPod), perPod, PodStat(1, bytes - old(bytes), 0))
              else perPod == old(perPod)
      ensures old(Agrees()) ==> Agrees()
    {
      if !record.Wire? {
        return true;
      }
      var frame := record.frame;
      if node !in agents || agents[node].stream != stream {
        return false;
      }
      var rec := agents[node];
      if frame.sequence != rec.lastSequence + 1 {
        return false;
      }
      agents := agents[node := rec.(lastSequence := frame.sequence)];
      if !countPacket {
        return true;
      }
      var n := frame.originalLength;
      if n == 0 {
        n := |frame.payload|;
      }
      AddPacketLocked(frame.pod, n);
      ok := true;
    }

    method AddDropped(n: nat, pod: Option<PodRef>)
      modifies this`dropped, this`perPod
      ensures View() == old(View()).AddDropped(n, pod)
      ensures dropped == old(dropped) + n
      ensures Counts(pod, old(perPod), perPod, PodStat(0, 0, n)) || (n == 0 && perPod == old(perPod))
    {
      if n == 0 {
        return;
      }
      dropped := dropped + n;
      CountPod(pod, PodStat(0, 0, n));
    }

    /** waitCaptureStreamsIdle returns at once exactly when nobody claims a stream. */
    method ActiveCaptureStreams() returns (n: nat)
      ensures n == |set node | node in agents && agents[node].ingestActive|
    {
      n := 0;
      var rest := agents.Keys;
      ghost var seen: set<Node> := {};
      while rest != {}
        invariant rest <= agents.Keys && seen == agents.Keys - rest
        invariant n == |set node | node in seen && agents[node].ingestActive|
        decreases rest
      {
        var node :| node in rest;
        ghost var before := set x | x in seen && agents[x].ingestActive;
        rest, seen := rest - {node}, seen + {node};
        if agents[node].ingestActive {
          n := n + 1;
          assert (set x | x in seen && agents[x].ingestActive) == before + {node};
        } else {
          assert (set x | x in seen && agents[x].ingestActive) == before;
        }
      }
      assert seen == agents.Keys;
    }
  }
}
