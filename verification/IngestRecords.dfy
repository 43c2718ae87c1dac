/** What StreamCapture does with the records of its batches (pkg/hub/server.go):
    which it publishes and counts, that it leaves none out, and that it takes
    every acceptable batch. */
module IngestRecords {
  import opened Records
  import opened Sessions
  import opened IngestProtocol

  // ---- Published and counted, or skipped ----

  /** The record's own pod is that of a target of the assignment. */
  ghost predicate IsAssigned(r: CaptureRecord, a: Option<Assignment>) {
    && a.Some?
    && exists t <- a.value.targets :: (r.Wire? && r.frame.pod == Some(t.pod)) || (r.Tls? && r.event.pod == Some(t.pod))
  }

  lemma SkippedIsUnassigned(pc: Pc)
    requires pc.Handling? && pc.i < |pc.b.records|
    ensures Skipped(pc) <==> !IsAssigned(pc.b.records[pc.i], pc.a)
  {
    var r := pc.b.records[pc.i];
    var t := AssignedTarget(pc.a, CaptureRecordPod(r));
    if t.Some? {
      assert t.value in pc.a.value.targets;
    }
  }

  /** The handler's `k`-th accepted record was published exactly if it is assigned. */
  ghost predicate DealtAsAssigned(s: State, h: nat, k: nat)
    requires h in s.handlers && k < |s.handlers[h].taken|
  {
    var Taken(record, assignment) := s.handlers[h].taken[k];
    && ((h, k) in s.published <==> IsAssigned(record, assignment))
    && ((h, k) in s.published ==> s.published[(h, k)] == record)
  }

  ghost predicate TakenOk(s: State, h: nat)
    requires h in s.handlers
  {
    var hd := s.handlers[h];
    && |hd.taken| == hd.accepted
    && (hd.pc.Committing? ==>
          hd.pc.i < |hd.pc.b.records| && (hd.pc.counted <==> IsAssigned(hd.pc.b.records[hd.pc.i], hd.pc.a)))
    && forall k | 0 <= k < |hd.taken| :: DealtAsAssigned(s, h, k)
  }

  ghost predicate AllTakenOk(s: State) {
    forall h <- s.handlers :: TakenOk(s, h)
  }

  /** What a step does to the history of accepted records. */
  lemma TakenAfter(s: State, hd: Handler, c: Choice)
    ensures var hd' := HandlerAfter(s, hd, c);
      && hd'.taken == (if hd.pc.Committing? && CommitOk(s.sess, hd.pc)
                       then hd.taken + [Taken(hd.pc.b.records[hd.pc.i], hd.pc.a)] else hd.taken)
      && (hd'.pc.Committing? ==>
            hd.pc.Handling? && hd.pc.i < |hd.pc.b.records|
            && hd'.pc == Committing(hd.pc.b, hd.pc.i, hd.pc.a, !Skipped(hd.pc)))
  {}

  lemma DealtOther(s: State, h: nat, c: Choice, g: nat, k: nat)
    requires TagsInv(s) && AllTakenOk(s) && h in s.handlers && g in s.handlers && k < |s.handlers[g].taken|
    requires k < |Apply(s, Act(h, c)).handlers[g].taken|
    requires Apply(s, Act(h, c)).handlers[g].taken[k] == s.handlers[g].taken[k]
    ensures DealtAsAssigned(Apply(s, Act(h, c)), g, k)
  {
    assert TakenOk(s, g) && DealtAsAssigned(s, g, k);
    assert TakenOk(s, h);
  }

  lemma DealtNew(s: State, h: nat, c: Choice)
    requires TagsInv(s) && AllTakenOk(s) && h in s.handlers
    requires s.handlers[h].pc.Committing? && CommitOk(s.sess, s.handlers[h].pc)
    ensures var s' := Apply(s, Act(h, c));
      |s'.handlers[h].taken| == |s.handlers[h].taken| + 1 && DealtAsAssigned(s', h, |s.handlers[h].taken|)
  {
    assert TakenOk(s, h) && PendingOk(s, h);
    assert (h, s.handlers[h].accepted) in s.published ==> TagOk(s, (h, s.handlers[h].accepted));
  }

  lemma TakenAct(s: State, h: nat, c: Choice)
    requires TagsInv(s) && AllTakenOk(s) && h in s.handlers
    ensures AllTakenOk(Apply(s, Act(h, c)))
  {
    var s' := Apply(s, Act(h, c));
    TakenAfter(s, s.handlers[h], c);
    AcceptedAfter(s, s.handlers[h], c);
    assert TakenOk(s, h);
    if s'.handlers[h].pc.Committing? {
      SkippedIsUnassigned(s.handlers[h].pc);
    }
    forall g, k | g in s'.handlers && 0 <= k < |s'.handlers[g].taken|
      ensures DealtAsAssigned(s', g, k)
    {
      if g == h && k == |s.handlers[h].taken| {
        DealtNew(s, h, c);
      } else {
        DealtOther(s, h, c, g, k);
      }
    }
    forall g | g in s'.handlers
      ensures TakenOk(s', g)
    {
      assert TakenOk(s, g);
    }
  }

  lemma TakenNext(s: State, s': State)
    requires CountInv(s) && AllTakenOk(s) && Next(s, s')
    ensures AllTakenOk(s')
  {
    var step :| Enabled(s, step) && s' == Apply(s, step);
    if step.Act? {
      TakenAct(s, step.h, step.c);
    } else {
      TakenStays(s, step);
    }
  }

  lemma TakenStays(s: State, step: Step)
    requires AllTakenOk(s) && Enabled(s, step) && !step.Act?
    ensures AllTakenOk(Apply(s, step))
  {
    var s' := Apply(s, step);
    forall g, k | g in s'.handlers && 0 <= k < |s'.handlers[g].taken|
      ensures DealtAsAssigned(s', g, k)
    {
      assert TakenOk(s, g) && DealtAsAssigned(s, g, k);
    }
    forall g | g in s'.handlers
      ensures TakenOk(s', g)
    {
      assert g in s.handlers ==> TakenOk(s, g);
    }
  }

  lemma TakenNextAt(run: seq<State>, i: nat)
    requires IsRun(run) && 0 < i < |run| && AllTakenOk(run[i - 1])
    ensures AllTakenOk(run[i])
  {
    hide CountInv, AllTakenOk;
    RunCounts(run, i - 1);
    assert StepAt(run, i);
    TakenNext(run[i - 1], run[i]);
  }

  lemma {:induction false} RunTaken(run: seq<State>, i: nat)
    requires IsRun(run) && i < |run|
    ensures AllTakenOk(run[i])
  {
    if i > 0 {
      RunTaken(run, i - 1);
      TakenNextAt(run, i);
    }
  }

  /** In every run each accepted record was published, as it came, exactly if the
      assignment read for its batch has a target of the record's own pod, and a
      wire frame was counted exactly then; the others were skipped. */
  lemma PublishedIfAssigned(run: seq<State>, i: nat, h: nat, k: nat)
    requires IsRun(run) && i < |run| && h in run[i].handlers && k < |run[i].handlers[h].taken|
    ensures |run[i].handlers[h].taken| == run[i].handlers[h].accepted
    ensures var Taken(record, a) := run[i].handlers[h].taken[k];
      && ((h, k) in run[i].published <==> IsAssigned(record, a))
      && ((h, k) in run[i].published ==> run[i].published[(h, k)] == record)
      && (record.Wire? ==> (Entry(h, k, record.frame) in run[i].counted <==> IsAssigned(record, a)))
  {
    RunTaken(run, i);
    RunCounts(run, i);
    var Taken(record, a) := run[i].handlers[h].taken[k];
    assert TakenOk(run[i], h) && DealtAsAssigned(run[i], h, k);
    if (h, k) in run[i].published {
      assert TagOk(run[i], (h, k));
    }
    if record.Wire? && Entry(h, k, record.frame) in run[i].counted {
      assert EntryOk(run[i], Entry(h, k, record.frame));
    }
  }

  /** Nothing is received, and a record is published if it comes to that. */
  const TAKE := Choice(None, true)

  // ---- No record is left out ----

  function RecordsOf(taken: seq<Taken>): seq<CaptureRecord> {
    seq(|taken|, k requires 0 <= k < |taken| => taken[k].record)
  }

  function AllRecords(bs: seq<CaptureBatch>): seq<CaptureRecord> {
    if bs == [] then [] else AllRecords(bs[..|bs| - 1]) + bs[|bs| - 1].records
  }

  /** The records of the batch in progress that have been accepted. */
  function Progress(pc: Pc): seq<CaptureRecord> {
    match pc
    case Handling(b, i, _) => if i <= |b.records| then b.records[..i] else []
    case Committing(b, i, _, _) => if i <= |b.records| then b.records[..i] else []
    case Dropping(b) => b.records
    case _ => []
  }

  ghost predicate InTurn(hd: Handler) {
    && AllRecords(hd.received) <= RecordsOf(hd.taken)
    && (!IsOver(hd.pc) ==> RecordsOf(hd.taken) == AllRecords(hd.received) + Progress(hd.pc))
  }

  lemma InTurnCommitting(s: State, hd: Handler, c: Choice)
    requires Addressed(hd) && InTurn(hd) && hd.pc.Committing?
    ensures InTurn(HandlerAfter(s, hd, c))
  {
    var Committing(b, i, a, _) := hd.pc;
    assert b.records[..i + 1] == b.records[..i] + [b.records[i]];
    assert RecordsOf(hd.taken + [Taken(b.records[i], a)]) == RecordsOf(hd.taken) + [b.records[i]];
  }

  lemma InTurnDropping(s: State, hd: Handler, c: Choice)
    requires InTurn(hd) && hd.pc.Dropping?
    ensures InTurn(HandlerAfter(s, hd, c))
  {
    assert (hd.received + [hd.pc.b])[..|hd.received|] == hd.received;
  }

  predicate IsOver(pc: Pc) {
    pc.Leaving? || pc.Done?
  }

  lemma MovingAfter(s: State, hd: Handler, c: Choice)
    requires Addressed(hd) && !hd.pc.Committing? && !hd.pc.Dropping?
    ensures var hd' := HandlerAfter(s, hd, c);
      && hd'.received == hd.received && hd'.taken == hd.taken
      && (!IsOver(hd'.pc) ==> !IsOver(hd.pc) && Progress(hd'.pc) == Progress(hd.pc))
  {
    if hd.pc.Handling? && hd.pc.i == |hd.pc.b.records| {
      assert hd.pc.b.records[..hd.pc.i] == hd.pc.b.records;
    }
  }

  lemma InTurnAfter(s: State, hd: Handler, c: Choice)
    requires Addressed(hd) && InTurn(hd)
    ensures InTurn(HandlerAfter(s, hd, c))
  {
    if hd.pc.Committing? {
      InTurnCommitting(s, hd, c);
    } else if hd.pc.Dropping? {
      InTurnDropping(s, hd, c);
    } else {
      MovingAfter(s, hd, c);
    }
  }

  /** The assignment of `node` is `a`. */
  predicate AssignmentIs(s: State, node: Node, a: Option<Assignment>) {
    a == if node in s.sess.maps.assigns then Some(s.sess.maps.assigns[node]) else None
  }

  ghost predicate WasRead(run: seq<State>, i: nat, node: Node, a: Option<Assignment>) {
    exists j :: 0 <= j < i && j < |run| && AssignmentIs(run[j], node, a)
  }

  /** The assignments of all accepted records, and of the batch in progress, were
      once those of the node claimed. */
  ghost predicate ReadOk(run: seq<State>, i: nat, hd: Handler) {
    && (hd.taken != [] ==> hd.claim.Some?)
    && (forall k | 0 <= k < |hd.taken| && hd.claim.Some? :: WasRead(run, i, hd.claim.value, hd.taken[k].assignment))
    && (hd.pc.Handling? || hd.pc.Committing? ==> WasRead(run, i, hd.pc.b.node, hd.pc.a))
  }

  lemma ReadAfter(run: seq<State>, i: nat, hd: Handler, c: Choice)
    requires i < |run| && Addressed(hd) && ReadOk(run, i, hd)
    ensures ReadOk(run, i + 1, HandlerAfter(run[i], hd, c))
  {
    var hd' := HandlerAfter(run[i], hd, c);
    TakenAfter(run[i], hd, c);
    ClaimAfter(run[i], hd, c);
    ReadStays(run, i, hd);
    if hd.pc.Reading? {
      assert AssignmentIs(run[i], hd.pc.b.node, hd'.pc.a);
    }
    forall k | 0 <= k < |hd'.taken| && hd'.claim.Some?
      ensures WasRead(run, i + 1, hd'.claim.value, hd'.taken[k].assignment)
    {
      assert k < |hd.taken| ==> WasRead(run, i + 1, hd.claim.value, hd.taken[k].assignment);
    }
  }

  /** What is kept of each handler's dealings. */
  ghost predicate DealingsOk(run: seq<State>, i: nat) {
    i < |run| && forall h <- run[i].handlers :: InTurn(run[i].handlers[h]) && ReadOk(run, i, run[i].handlers[h])
  }

  predicate IsNew(hd: Handler) {
    hd.pc.Receiving? && hd.received == [] && hd.taken == []
  }

  lemma OthersHandlers(s: State, step: Step)
    requires Enabled(s, step) && !step.Act?
    ensures forall g <- Apply(s, step).handlers ::
      if g in s.handlers then Apply(s, step).handlers[g] == s.handlers[g] else IsNew(Apply(s, step).handlers[g])
  {}

  /** A handler has moved, is new, or is as it was. */
  lemma HandlersMove(s: State, s': State) returns (h: nat, c: Choice)
    requires Next(s, s')
    ensures forall g <- s'.handlers ::
      if g !in s.handlers then IsNew(s'.handlers[g])
      else s'.handlers[g] == s.handlers[g] || (g == h && s'.handlers[g] == HandlerAfter(s, s.handlers[g], c))
  {
    var step :| Enabled(s, step) && s' == Apply(s, step);
    h, c := 0, TAKE;
    if step.Act? {
      h, c := step.h, step.c;
    } else {
      OthersHandlers(s, step);
    }
  }

  lemma DealingsAfter(run: seq<State>, i: nat, hd: Handler, c: Choice)
    requires i < |run| && Addressed(hd) && InTurn(hd) && ReadOk(run, i, hd)
    ensures var hd' := HandlerAfter(run[i], hd, c); InTurn(hd') && ReadOk(run, i + 1, hd')
    ensures ReadOk(run, i + 1, hd)
  {
    InTurnAfter(run[i], hd, c);
    ReadAfter(run, i, hd, c);
    ReadStays(run, i, hd);
  }

  lemma DealingsOfNew(run: seq<State>, i: nat, hd: Handler)
    requires IsNew(hd)
    ensures InTurn(hd) && ReadOk(run, i, hd)
  {}

  lemma DealingsNext(run: seq<State>, i: nat)
    requires IsRun(run) && 0 < i < |run| && DealingsOk(run, i - 1)
    ensures DealingsOk(run, i)
  {
    hide InTurn, ReadOk, Addressed;
    RunHandlers(run, i - 1);
    assert StepAt(run, i);
    var h, c := HandlersMove(run[i - 1], run[i]);
    forall g | g in run[i].handlers
      ensures InTurn(run[i].handlers[g]) && ReadOk(run, i, run[i].handlers[g])
    {
      if g in run[i - 1].handlers {
        DealingsAfter(run, i - 1, run[i - 1].handlers[g], c);
      } else {
        DealingsOfNew(run, i, run[i].handlers[g]);
      }
    }
  }

  lemma WasReadStays(run: seq<State>, i: nat, node: Node, a: Option<Assignment>)
    requires WasRead(run, i, node, a)
    ensures WasRead(run, i + 1, node, a)
  {
    var j :| 0 <= j < i && j < |run| && AssignmentIs(run[j], node, a);
  }

  lemma ReadStays(run: seq<State>, i: nat, hd: Handler)
    requires ReadOk(run, i, hd)
    ensures ReadOk(run, i + 1, hd)
  {
    if hd.pc.Handling? || hd.pc.Committing? {
      WasReadStays(run, i, hd.pc.b.node, hd.pc.a);
    }
    forall k | 0 <= k < |hd.taken| && hd.claim.Some?
      ensures WasRead(run, i + 1, hd.claim.value, hd.taken[k].assignment)
    {
      WasReadStays(run, i, hd.claim.value, hd.taken[k].assignment);
    }
  }

  lemma {:induction false} RunDealings(run: seq<State>, i: nat)
    requires IsRun(run) && i < |run|
    ensures DealingsOk(run, i)
  {
    if i > 0 {
      RunDealings(run, i - 1);
      DealingsNext(run, i);
    }
  }

  /** In every run a handler accepts the records of its batches one after the other
      and leaves none out. */
  lemma NoRecordLeftOut(run: seq<State>, i: nat, h: nat)
    requires IsRun(run) && i < |run| && h in run[i].handlers
    ensures var hd := run[i].handlers[h];
      && AllRecords(hd.received) <= RecordsOf(hd.taken)
      && (hd.pc.Receiving? ==> RecordsOf(hd.taken) == AllRecords(hd.received))
  {
    RunDealings(run, i);
  }

  /** The assignment by which a record is judged is one the handler's node has had
      in the run, or none if it had none. */
  lemma JudgedByItsNode(run: seq<State>, i: nat, h: nat, k: nat) returns (j: nat)
    requires IsRun(run) && i < |run| && h in run[i].handlers && k < |run[i].handlers[h].taken|
    ensures j < i && run[i].handlers[h].claim.Some?
    ensures var node, a := run[i].handlers[h].claim.value, run[i].handlers[h].taken[k].assignment;
      a == if node in run[j].sess.maps.assigns then Some(run[j].sess.maps.assigns[node]) else None
  {
    RunDealings(run, i);
    var hd := run[i].handlers[h];
    assert WasRead(run, i, hd.claim.value, hd.taken[k].assignment);
    j :| 0 <= j < i && j < |run| && AssignmentIs(run[j], hd.claim.value, hd.taken[k].assignment);
  }

  // ---- Every acceptable batch can be taken ----

  /** Handler `h` moves on, and publishes if it comes to that. */
  lemma Move(run: seq<State>, h: nat, c: Choice) returns (run': seq<State>)
    requires IsRun(run) && h in Last(run).handlers
    ensures IsRun(run') && run <= run' && h in Last(run').handlers
    ensures Last(run').handlers[h] == HandlerAfter(Last(run), Last(run).handlers[h], c)
    ensures Last(run').sess == SessAfter(Last(run), Last(run).handlers[h])
  {
    run' := Extend(run, Act(h, c));
  }

  /** The handler is at record `i` of `b`, and its agent's numbers are where `last`
      and the records before that have brought them. */
  ghost predicate Midway(run: seq<State>, h: nat, b: CaptureBatch, i: nat, last: nat, before: Handler) {
    && IsRun(run) && h in Last(run).handlers && i <= |b.records|
    && Last(run).handlers[h].received == before.received && Last(run).handlers[h].pod == before.pod
    && Last(run).handlers[h].claim == Some(b.node)
    && Last(run).handlers[h].pc.Handling? && Last(run).handlers[h].pc.b == b && Last(run).handlers[h].pc.i == i
    && b.node in Last(run).sess.maps.agents && Last(run).sess.maps.agents[b.node].stream == b.stream
    && Last(run).sess.maps.agents[b.node].lastSequence == last + WireCount(b.records[..i])
    && Consecutive(b.records, last)
  }

  lemma TakesOne(run: seq<State>, h: nat, b: CaptureBatch, i: nat, last: nat, before: Handler)
      returns (run': seq<State>)
    requires Midway(run, h, b, i, last, before) && i < |b.records|
    ensures run <= run' && Midway(run', h, b, i + 1, last, before)
  {
    WireCountSnoc(b.records, i);
    var published := Move(run, h, TAKE);
    assert CommitOk(Last(published).sess, Last(published).handlers[h].pc);
    run' := Move(published, h, TAKE);
  }

  lemma {:induction false} TakesRest(run: seq<State>, h: nat, b: CaptureBatch, i: nat, last: nat, before: Handler)
      returns (run': seq<State>)
    requires Midway(run, h, b, i, last, before)
    ensures IsRun(run') && run <= run' && h in Last(run').handlers
    ensures Last(run').handlers[h].pc.Receiving? && Last(run').handlers[h].received == before.received + [b]
    ensures Last(run').handlers[h].pod == before.pod && Last(run').handlers[h].claim == Some(b.node)
    decreases |b.records| - i
  {
    if i < |b.records| {
      var next := TakesOne(run, h, b, i, last, before);
      run' := TakesRest(next, h, b, i + 1, last, before);
    } else {
      var dropping := Move(run, h, TAKE);
      run' := Move(dropping, h, TAKE);
    }
  }

  /** A handler that waits for a batch, and has claimed the batch's stream or may
      claim it, can take every acceptable batch to its end. */
  lemma AcceptableBatchIsTaken(run: seq<State>, h: nat, b: CaptureBatch) returns (run': seq<State>)
    requires IsRun(run) && h in Last(run).handlers && BatchAcceptable(Last(run).sess, b)
    requires var hd := Last(run).handlers[h];
      && hd.pc.Receiving? && hd.stream == b.stream
      && (hd.claim == Some(b.node) || (hd.claim.None? && Last(run).sess.MayClaim(b.node, hd.pod, hd.stream)))
    ensures IsRun(run') && run <= run' && h in Last(run').handlers && Last(run').handlers[h].pc.Receiving?
    ensures Last(run').handlers[h].received == Last(run).handlers[h].received + [b]
    ensures Last(run').handlers[h].pod == Last(run).handlers[h].pod && Last(run').handlers[h].claim == Some(b.node)
  {
    var hd, last := Last(run).handlers[h], Last(run).sess.maps.agents[b.node].lastSequence;
    var validating := ReceivesBatch(run, h, b);
    run' := Move(validating, h, TAKE);
    run' := Move(run', h, TAKE);
    run' := TakesRest(run', h, b, 0, last, hd);
  }

  /** Up to the validation, past the claim if that is still to be made. */
  lemma ReceivesBatch(run: seq<State>, h: nat, b: CaptureBatch) returns (run': seq<State>)
    requires IsRun(run) && h in Last(run).handlers && BatchAcceptable(Last(run).sess, b)
    requires var hd := Last(run).handlers[h];
      && hd.pc.Receiving? && hd.stream == b.stream
      && (hd.claim == Some(b.node) || (hd.claim.None? && Last(run).sess.MayClaim(b.node, hd.pod, hd.stream)))
    ensures IsRun(run') && run <= run' && h in Last(run').handlers && BatchAcceptable(Last(run').sess, b)
    ensures Last(run').sess.maps.agents[b.node].lastSequence == Last(run).sess.maps.agents[b.node].lastSequence
    ensures var hd, hd' := Last(run).handlers[h], Last(run').handlers[h];
      hd'.pc == Validating(b) && hd'.pod == hd.pod && hd'.received == hd.received && hd'.claim == Some(b.node)
  {
    run' := Move(run, h, Choice(Some(b), true));
    if Last(run).handlers[h].claim.None? {
      run' := Move(run', h, TAKE);
    }
  }

  /** From a new session: its agent recorded, the session RUNNING, a handler there, and
      the agent's first acceptable batch can be taken. */
  lemma FirstBatchIsTaken(id: string, podName: string, a: Assignment, b: CaptureBatch) returns (run: seq<State>)
    requires id != "" && b.session == id && podName != "" && b.stream != "" && |b.records| <= MAX_BATCH_RECORDS
    requires forall r <- b.records :: RecordAcceptable(r, Some(a))
    requires Consecutive(b.records, 0) && PayloadBytes(b.records) <= MAX_BATCH_PAYLOAD_BYTES
    ensures IsRun(run) && 0 in Last(run).handlers && Last(run).handlers[0].received == [b]
    ensures Last(run).handlers[0].pod == podName && Last(run).handlers[0].claim == Some(b.node)
  {
    run := [State(NewSession(id), {}, map[], map[], [], [])];
    run := Extend(run, NewAgent(b.node, podName, b.stream, a));
    run := Extend(run, ChangeState(RUNNING));
    run := Extend(run, Arrive(0, podName, b.stream));
    run := AcceptableBatchIsTaken(run, 0, b);
  }

  // ---- Every handler can come to its end ----

  function LeftToDo(b: CaptureBatch, i: nat): nat {
    if i <= |b.records| then 2 * (|b.records| - i) else 0
  }

  /** How far a handler is from its end, when no further batch comes. */
  function ToEnd(pc: Pc): nat {
    match pc
    case Claiming(b) => LeftToDo(b, 0) + 8
    case Validating(b) => LeftToDo(b, 0) + 7
    case Reading(b) => LeftToDo(b, 0) + 6
    case Handling(b, i, _) => LeftToDo(b, i) + 5
    case Committing(b, i, _, _) => LeftToDo(b, i) + 4
    case Dropping(_) => 3
    case Receiving => 2
    case Leaving => 1
    case Done => 0
  }

  lemma ToEndDescends(s: State, hd: Handler, c: Choice)
    requires Addressed(hd) && !hd.pc.Done? && c.batch.None?
    ensures ToEnd(HandlerAfter(s, hd, c).pc) < ToEnd(hd.pc)
    ensures HandlerAfter(s, hd, c).stream == hd.stream
    ensures HandlerAfter(s, hd, c).pc.Done? ==> hd.pc.Leaving? && HandlerAfter(s, hd, c).claim == hd.claim
  {}

  /** Every handler can come to its end, and when it does it leaves no claim of its own
      behind on the agent whose stream it had claimed. */
  lemma {:induction false} HandlerCanEnd(run: seq<State>, h: nat) returns (run': seq<State>)
    requires IsRun(run) && h in Last(run).handlers && !Last(run).handlers[h].pc.Done?
    ensures IsRun(run') && run <= run' && h in Last(run').handlers && Last(run').handlers[h].pc.Done?
    ensures var hd, agents := Last(run').handlers[h], Last(run').sess.maps.agents;
      hd.claim.Some? && hd.claim.value in agents && agents[hd.claim.value].stream == hd.stream ==>
        !agents[hd.claim.value].ingestActive
    decreases ToEnd(Last(run).handlers[h].pc)
  {
    RunHandlers(run, |run| - 1);
    ToEndDescends(Last(run), Last(run).handlers[h], TAKE);
    run' := Move(run, h, TAKE);
    if !Last(run').handlers[h].pc.Done? {
      run' := HandlerCanEnd(run', h);
    }
  }
}
