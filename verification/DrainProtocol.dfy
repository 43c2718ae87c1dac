/** Closing a packetLog, exactly: which sweeps lose nothing, and that a close can
    always complete (pkg/hub/packets.go close, with the drain loop of
    SubscribePackets in pkg/hub/server.go). */
module DrainProtocol {
  import opened PacketProtocol

  // ---- Continuations ----

  /** Nobody gives up: no context is cancelled or times out, and no send fails. */
  predicate Patient(step: Step) {
    match step
    case Pub(_, st) => !st.CancelParked? && st != Finish(true)
    case Con(_, st) => !st.Leave? && st != Receive(false)
    case Close(_, st) => !st.TimeOut?
  }

  ghost predicate PatientNext(s: State, s': State) {
    exists step :: Enabled(s, step) && Patient(step) && s' == Apply(s, step)
  }

  ghost predicate PatientStepAt(run: seq<State>, i: nat)
    requires 0 < i < |run|
  {
    PatientNext(run[i - 1], run[i])
  }

  /** `run'` goes on from `run`, and nobody gives up. */
  ghost predicate Continues(run: seq<State>, run': seq<State>) {
    && run != [] && run <= run' && IsRun(run')
    && forall i | |run| <= i < |run'| :: PatientStepAt(run', i)
  }

  lemma Go(run: seq<State>, step: Step) returns (run': seq<State>)
    requires IsRun(run) && Enabled(Last(run), step) && Patient(step)
    ensures Continues(run, run') && |run'| == |run| + 1 && Last(run') == Apply(Last(run), step)
  {
    var s' := Apply(Last(run), step);
    run' := run + [s'];
    assert PatientNext(Last(run), s') && Next(Last(run), s');
    forall i | 0 < i < |run'|
      ensures StepAt(run', i) && (i == |run| ==> PatientStepAt(run', i))
    {
      assert i < |run| ==> StepAt(run, i);
    }
  }

  lemma GoOn(a: seq<State>, b: seq<State>, c: seq<State>)
    requires Continues(a, b) && Continues(b, c)
    ensures Continues(a, c)
  {
    forall i | |a| <= i < |c|
      ensures PatientStepAt(c, i)
    {
      assert i < |b| ==> PatientStepAt(b, i);
    }
  }

  // ---- More that every reachable state keeps ----

  ghost predicate Swept(s: State) {
    exists k :: k in s.closers && (s.closers[k].Drained? || s.closers[k].OverrunSwept? || s.closers[k].TimedOut?)
  }

  predicate SweepsNext(s: State, k: nat) {
    k in s.closers && (s.closers[k].Sweeping? || s.closers[k].Overrun?)
  }

  /** Publishers send to known consumers; a consumer that is gone has left `subs`,
      and before the sweep only such consumers have. */
  ghost predicate ListInv(s: State) {
    && (forall p <- s.pubs | s.pubs[p].pc.Sending? :: forall c <- s.pubs[p].pc.todo :: c in s.cons)
    && (forall c <- s.cons | s.cons[c].pc.Gone? :: c !in s.log.subs)
    && (!Swept(s) ==> forall c <- s.cons | c !in s.log.subs :: s.cons[c].pc == Gone(false))
  }

  predicate IsCloser(s: State, k: nat) {
    k in s.closers && !s.closers[k].Refused?
  }

  /** The sweep leaves no subscriber; a closed log has been closed by somebody. */
  ghost predicate SweepInv(s: State) {
    && (Swept(s) ==> s.log.closed && s.log.subs == map[])
    && (s.log.closed ==> exists k :: IsCloser(s, k))
  }

  ghost predicate Good(s: State) {
    Inv(s) && ListInv(s) && SweepInv(s)
  }

  lemma SweepCon(s: State, c: nat, step: ConStep)
    requires SweepInv(s) && ConEnabled(s, c, step)
    ensures SweepInv(ConApply(s, c, step))
  {
    var s' := ConApply(s, c, step);
    assert s'.closers == s.closers && s'.log.closed == s.log.closed;
    assert s.log.closed && s.log.subs == map[] ==> s'.log.subs == map[];
    assert Swept(s') ==> Swept(s);
    assert forall k :: IsCloser(s, k) ==> IsCloser(s', k);
  }

  lemma SweepClose(s: State, k: nat, step: CloseStep)
    requires SweepInv(s) && CloseInv(s) && CloseEnabled(s, k, step)
    ensures SweepInv(CloseApply(s, k, step))
  {
    var s' := CloseApply(s, k, step);
    if step.Sweep? {
      assert IsCloser(s', k);
    } else {
      assert s'.log.subs == s.log.subs;
      assert Swept(s') ==> Swept(s) || step.ReturnTimedOut?;
      assert step.ReturnTimedOut? ==> Swept(s);
      assert forall i :: IsCloser(s, i) ==> IsCloser(s', i);
      assert !s.log.closed && s'.log.closed ==> IsCloser(s', k);
    }
  }

  lemma SweepNext(s: State, s': State)
    requires SweepInv(s) && CloseInv(s) && Next(s, s')
    ensures SweepInv(s')
  {
    var step :| Enabled(s, step) && s' == Apply(s, step);
    match step
    case Pub(p, st) =>
      ConsAfterPub(s, p, st);
      assert Swept(s') ==> Swept(s);
      assert forall k :: IsCloser(s, k) ==> IsCloser(s', k);
    case Con(c, st) => SweepCon(s, c, st);
    case Close(k, st) => SweepClose(s, k, st);
  }

  lemma TodoAfter(s: State, p: nat, step: PubStep)
    requires ChanInv(s) && ListInv(s) && PubEnabled(s, p, step)
    ensures var pc := PubApply(s, p, step).pubs[p].pc; pc.Sending? ==> forall c <- pc.todo :: c in s.cons
  {}

  lemma ConsAfterPub(s: State, p: nat, step: PubStep)
    requires PubEnabled(s, p, step)
    ensures var s' := PubApply(s, p, step);
      && s'.closers == s.closers && s'.log.subs == s.log.subs && s'.log.closed == s.log.closed
      && s'.cons.Keys == s.cons.Keys
      && (forall c <- s.cons :: s'.cons[c].pc == s.cons[c].pc)
      && p in s'.pubs && forall q <- s'.pubs | q != p :: q in s.pubs && s'.pubs[q] == s.pubs[q]
  {}

  lemma ListPub(s: State, p: nat, step: PubStep)
    requires ChanInv(s) && ListInv(s) && PubEnabled(s, p, step)
    ensures ListInv(PubApply(s, p, step))
  {
    TodoAfter(s, p, step);
    ConsAfterPub(s, p, step);
  }

  lemma ListUnsubscribe(s: State, c: nat)
    requires ListInv(s) && DrainInv(s) && ConEnabled(s, c, Unsubscribe)
    ensures ListInv(ConApply(s, c, Unsubscribe))
  {
    assert ViaDone(s.cons[c].pc) ==> c !in s.log.subs;
  }

  lemma ListSeeDone(s: State, c: nat)
    requires ListInv(s) && ChanInv(s) && ConEnabled(s, c, SeeDone)
    ensures ListInv(ConApply(s, c, SeeDone))
  {
    assert c !in s.log.subs;
  }

  lemma ListCon(s: State, c: nat, step: ConStep)
    requires ListInv(s) && ChanInv(s) && DrainInv(s) && ConEnabled(s, c, step)
    ensures ListInv(ConApply(s, c, step))
  {
    if step.Unsubscribe? {
      ListUnsubscribe(s, c);
    } else if step.SeeDone? {
      ListSeeDone(s, c);
    } else {
      ListStay(s, c, step);
    }
  }

  lemma ListStay(s: State, c: nat, step: ConStep)
    requires ListInv(s) && ChanInv(s) && DrainInv(s) && ConEnabled(s, c, step)
    requires !step.Unsubscribe? && !step.SeeDone?
    ensures ListInv(ConApply(s, c, step))
  {
    var s' := ConApply(s, c, step);
    assert s'.closers == s.closers && s'.pubs == s.pubs;
    assert c in s.cons && ViaDone(s.cons[c].pc) ==> c !in s.log.subs;
  }

  lemma ListClose(s: State, k: nat, step: CloseStep)
    requires ListInv(s) && CloseEnabled(s, k, step)
    ensures ListInv(CloseApply(s, k, step))
  {
    var s' := CloseApply(s, k, step);
    if Swept(s) {
      var k' :| k' in s.closers && (s.closers[k'].Drained? || s.closers[k'].OverrunSwept? || s.closers[k'].TimedOut?);
      assert k' in s'.closers;
    } else if step.Sweep? {
      assert k in s'.closers;
    }
  }

  lemma ListNext(s: State, s': State)
    requires Inv(s) && ListInv(s) && Next(s, s')
    ensures ListInv(s')
  {
    var step :| Enabled(s, step) && s' == Apply(s, step);
    match step
    case Pub(p, st) => ListPub(s, p, st);
    case Con(c, st) => ListCon(s, c, st);
    case Close(k, st) => ListClose(s, k, st);
  }

  lemma GoodNextAt(run: seq<State>, i: nat)
    requires IsRun(run) && 0 < i < |run| && ListInv(run[i - 1]) && SweepInv(run[i - 1])
    ensures ListInv(run[i]) && SweepInv(run[i])
  {
    RunInv(run, i - 1);
    assert StepAt(run, i);
    ListNext(run[i - 1], run[i]);
    SweepNext(run[i - 1], run[i]);
  }

  lemma {:induction false} RunList(run: seq<State>, i: nat)
    requires IsRun(run) && i < |run|
    ensures ListInv(run[i]) && SweepInv(run[i])
  {
    if i > 0 {
      RunList(run, i - 1);
      GoodNextAt(run, i);
    }
  }

  lemma RunGood(run: seq<State>, i: nat)
    requires IsRun(run) && i < |run|
    ensures Good(run[i])
  {
    RunInv(run, i);
    RunList(run, i);
  }

  /** What the last state of a run keeps, as far as it is needed here. */
  lemma Kept(run: seq<State>, c: nat)
    requires IsRun(run) && c in Last(run).cons
    ensures BoxInv(Last(run).cons[c])
    ensures c !in Last(run).log.subs <==> Last(run).cons[c].done in Last(run).log.chans.closed
    ensures Last(run).cons[c].done !in Last(run).log.chans.closed ==>
      Last(run).cons[c].pc.Looping? || Last(run).cons[c].pc == Left(false)
  {
    RunGood(run, |run| - 1);
    assert ViaDone(Last(run).cons[c].pc) ==> c !in Last(run).log.subs;
  }

  lemma KnownHead(run: seq<State>, p: nat)
    requires IsRun(run) && IsSending(Last(run), p)
    ensures forall c <- Last(run).pubs[p].pc.todo :: c in Last(run).cons
  {
    RunGood(run, |run| - 1);
  }

  // ---- Losing nothing ----

  predicate LeftByDone(pc: ConPc) {
    pc == Left(true) || pc == Gone(true)
  }

  /** Whoever has left through its done channel has handled all it was ever sent. */
  ghost predicate Lossless(s: State) {
    forall c <- s.cons | LeftByDone(s.cons[c].pc) :: s.cons[c].handled == s.cons[c].enqueued
  }

  /** ... in every continuation of the run. */
  ghost predicate AlwaysLossless(run: seq<State>) {
    forall run' | IsRun(run') && run <= run' :: Lossless(Last(run'))
  }

  predicate IsSending(s: State, p: nat) {
    p in s.pubs && s.pubs[p].pc.Sending?
  }

  /** Publisher `p` is still to send to a consumer that is in its main loop. */
  predicate Owes(s: State, p: nat, c: nat) {
    IsSending(s, p) && c in s.pubs[p].pc.todo && c in s.cons && s.cons[c].pc.Looping?
  }

  ghost predicate NobodyOwes(s: State) {
    forall p, c :: !Owes(s, p, c)
  }

  predicate GaveUp(pc: ConPc) {
    pc == Left(false) || pc == Gone(false)
  }

  /** Publishers still sending do so to consumers that gave up only. */
  ghost predicate SendsToNobody(s: State) {
    forall p, c | IsSending(s, p) && c in s.pubs[p].pc.todo && c in s.cons :: GaveUp(s.cons[c].pc)
  }

  /** ... the log is closed, and who left through its done channel left an empty queue. */
  ghost predicate Settled(s: State) {
    && s.log.closed && SendsToNobody(s)
    && (forall c <- s.cons | LeftByDone(s.cons[c].pc) :: s.cons[c].queue == [])
  }

  lemma SettledPub(s: State, p: nat, step: PubStep)
    requires Settled(s) && PubEnabled(s, p, step)
    ensures Settled(PubApply(s, p, step))
  {}

  lemma SettledCon(s: State, c: nat, step: ConStep)
    requires Settled(s) && ConEnabled(s, c, step)
    ensures Settled(ConApply(s, c, step))
  {}

  lemma SettledClose(s: State, k: nat, step: CloseStep)
    requires Settled(s) && CloseEnabled(s, k, step)
    ensures Settled(CloseApply(s, k, step))
  {}

  lemma SettledNext(s: State, s': State)
    requires Settled(s) && Next(s, s')
    ensures Settled(s')
  {
    var step :| Enabled(s, step) && s' == Apply(s, step);
    match step
    case Pub(p, st) => SettledPub(s, p, st);
    case Con(c, st) => SettledCon(s, c, st);
    case Close(k, st) => SettledClose(s, k, st);
  }

  lemma {:induction false} SettledOnward(run: seq<State>, i: nat, j: nat)
    requires IsRun(run) && i <= j < |run| && Settled(run[i])
    ensures Settled(run[j])
    decreases j
  {
    if i < j {
      SettledOnward(run, i, j - 1);
      assert StepAt(run, j);
      SettledNext(run[j - 1], run[j]);
    }
  }

  lemma SettledIsLossless(run: seq<State>)
    requires IsRun(run) && Settled(Last(run))
    ensures Lossless(Last(run))
  {
    forall c | c in Last(run).cons && LeftByDone(Last(run).cons[c].pc)
      ensures Last(run).cons[c].handled == Last(run).cons[c].enqueued
    {
      Kept(run, c);
      assert Last(run).cons[c].handled + [] == Last(run).cons[c].handled;
    }
  }

  lemma EmptyIfLossless(run: seq<State>, c: nat)
    requires IsRun(run) && Lossless(Last(run)) && c in Last(run).cons && LeftByDone(Last(run).cons[c].pc)
    ensures Last(run).cons[c].queue == []
  {
    Kept(run, c);
    assert |Last(run).cons[c].enqueued| == |Last(run).cons[c].handled| + |Last(run).cons[c].queue|;
  }

  lemma SettledLosesNothing(run: seq<State>)
    requires IsRun(run) && Last(run).log.closed && Lossless(Last(run)) && SendsToNobody(Last(run))
    ensures AlwaysLossless(run)
  {
    forall c | c in Last(run).cons && LeftByDone(Last(run).cons[c].pc)
      ensures Last(run).cons[c].queue == []
    {
      EmptyIfLossless(run, c);
    }
    forall run' | IsRun(run') && run <= run'
      ensures Lossless(Last(run'))
    {
      assert run'[|run| - 1] == Last(run);
      SettledOnward(run', |run| - 1, |run'| - 1);
      SettledIsLossless(run');
    }
  }

  // ---- Losing something ----

  /** Closers and the other publishers stand where they stood. */
  predicate SameButPub(s: State, s': State, p: nat) {
    s'.closers == s.closers && s'.pubs.Keys == s.pubs.Keys && forall q <- s.pubs | q != p :: s'.pubs[q] == s.pubs[q]
  }

  /** Consumer `c` is registered and in its main loop. */
  predicate Listens(s: State, c: nat) {
    c in s.log.subs && c in s.cons && s.cons[c].pc.Looping?
  }

  /** Who listens still does, and an open log is open. */
  ghost predicate StillListen(s: State, s': State) {
    s'.log.closed == s.log.closed && forall c | Listens(s, c) :: Listens(s', c)
  }

  /** Publisher `p` is past the head of its list, which has taken the record if it
      listens; its call is the same. */
  ghost predicate Advances(s: State, s': State, p: nat)
    requires IsSending(s, p) && s.pubs[p].pc.todo != []
  {
    && SameButPub(s, s', p) && StillListen(s, s')
    && IsSending(s', p) && s'.pubs[p].pc.todo == s.pubs[p].pc.todo[1..]
    && s'.pubs[p].call == s.pubs[p].call
    && s'.pubs[p].pc.delivered >= s.pubs[p].pc.delivered + if Listens(s, s.pubs[p].pc.todo[0]) then 1 else 0
  }

  lemma GoReceive(run: seq<State>, c: nat) returns (run': seq<State>)
    requires IsRun(run) && c in Last(run).cons && Last(run).cons[c].queue != []
    requires Last(run).cons[c].pc.Looping? || Last(run).cons[c].pc.Draining?
    ensures Continues(run, run') && |run'| == |run| + 1
    ensures var s, s' := Last(run), Last(run');
      && s'.pubs == s.pubs && s'.closers == s.closers && s'.log == s.log && s'.cons.Keys == s.cons.Keys
      && s'.cons[c].queue == s.cons[c].queue[1..] && forall d <- s.cons :: s'.cons[d].pc == s.cons[d].pc
  {
    run' := Go(run, Con(c, Receive(true)));
  }

  lemma GoDeliver(run: seq<State>, p: nat) returns (run': seq<State>)
    requires IsRun(run) && IsSending(Last(run), p) && Last(run).pubs[p].pc.todo != []
    requires var c := Last(run).pubs[p].pc.todo[0]; c in Last(run).cons && |Last(run).cons[c].queue| < QUEUE_CAPACITY
    ensures Continues(run, run') && |run'| == |run| + 1 && Advances(Last(run), Last(run'), p)
    ensures var c := Last(run).pubs[p].pc.todo[0];
      c in Last(run').cons && |Last(run').cons[c].enqueued| == |Last(run).cons[c].enqueued| + 1
      && Last(run').cons[c].handled == Last(run).cons[c].handled && Last(run').cons[c].pc == Last(run).cons[c].pc
  {
    run' := Go(run, Pub(p, Deliver));
  }

  lemma GoSkip(run: seq<State>, p: nat) returns (run': seq<State>)
    requires IsRun(run) && IsSending(Last(run), p) && Last(run).pubs[p].pc.todo != []
    requires var c := Last(run).pubs[p].pc.todo[0];
      c in Last(run).cons && Last(run).cons[c].done in Last(run).log.chans.closed
    ensures Continues(run, run') && |run'| == |run| + 1 && Advances(Last(run), Last(run'), p)
    ensures Last(run').cons == Last(run).cons && Last(run').log == Last(run).log
  {
    Kept(run, Last(run).pubs[p].pc.todo[0]);
    run' := Go(run, Pub(p, Skip));
  }

  /** Consumer `c` has seen its done channel closed and receives until it is done. */
  lemma {:induction false} DrainAll(run: seq<State>, c: nat) returns (run': seq<State>)
    requires IsRun(run) && c in Last(run).cons && Last(run).cons[c].pc.Draining?
    ensures Continues(run, run') && Last(run').pubs == Last(run).pubs && Last(run').log == Last(run).log
    ensures c in Last(run').cons && Last(run').cons[c].pc == Left(true) && Last(run').cons[c].queue == []
    decreases |Last(run).cons[c].queue|
  {
    if Last(run).cons[c].queue == [] {
      run' := Go(run, Con(c, DrainEmpty));
    } else {
      var next := GoReceive(run, c);
      run' := DrainAll(next, c);
      GoOn(run, next, run');
    }
  }

  /** After the sweep, publisher `p` skips the consumers before `c` and delivers to `c`. */
  lemma {:induction false} DeliverLate(run: seq<State>, p: nat, c: nat) returns (run': seq<State>)
    requires IsRun(run) && Last(run).log.subs == map[] && IsSending(Last(run), p) && c in Last(run).pubs[p].pc.todo
    requires c in Last(run).cons && LeftByDone(Last(run).cons[c].pc) && Last(run).cons[c].queue == []
    ensures Continues(run, run') && !Lossless(Last(run'))
    decreases |Last(run).pubs[p].pc.todo|
  {
    var s := Last(run);
    var to := s.pubs[p].pc.todo[0];
    KnownHead(run, p);
    Kept(run, to);
    if to == c {
      run' := GoDeliver(run, p);
      assert |s.cons[c].enqueued| == |s.cons[c].handled|;
    } else {
      var next := GoSkip(run, p);
      run' := DeliverLate(next, p, c);
      GoOn(run, next, run');
    }
  }

  lemma SweepClears(run: seq<State>, k: nat) returns (run': seq<State>)
    requires IsRun(run) && SweepsNext(Last(run), k)
    ensures Continues(run, run') && Last(run').log.subs == map[]
    ensures Last(run').pubs == Last(run).pubs && Last(run').cons == Last(run).cons
  {
    run' := Go(run, Close(k, Sweep));
  }

  lemma SeesDone(run: seq<State>, c: nat) returns (run': seq<State>)
    requires IsRun(run) && Last(run).log.subs == map[] && c in Last(run).cons && Last(run).cons[c].pc.Looping?
    ensures Continues(run, run') && Last(run').pubs == Last(run).pubs && Last(run').log == Last(run).log
    ensures c in Last(run').cons && Last(run').cons[c].pc.Draining?
  {
    Kept(run, c);
    run' := Go(run, Con(c, SeeDone));
  }

  /** Consumer `c`, that has not given up, leaves through its done channel. */
  lemma LeavesByDone(run: seq<State>, c: nat) returns (run': seq<State>)
    requires IsRun(run) && Last(run).log.subs == map[] && Lossless(Last(run))
    requires c in Last(run).cons && !GaveUp(Last(run).cons[c].pc)
    ensures Continues(run, run') && Last(run').pubs == Last(run).pubs && Last(run').log == Last(run).log
    ensures c in Last(run').cons && LeftByDone(Last(run').cons[c].pc) && Last(run').cons[c].queue == []
  {
    if LeftByDone(Last(run).cons[c].pc) {
      EmptyIfLossless(run, c);
      run' := run;
    } else {
      var seen := run;
      if Last(run).cons[c].pc.Looping? {
        seen := SeesDone(run, c);
      }
      run' := DrainAll(seen, c);
      GoOn(run, seen, run');
    }
  }

  /** However the log was closed, its subscribers have been or can be swept. */
  lemma SweepComes(run: seq<State>) returns (run': seq<State>)
    requires IsRun(run) && Last(run).log.closed
    ensures IsRun(run') && run <= run' && Last(run').log.subs == map[]
    ensures Last(run').pubs == Last(run).pubs && Last(run').cons == Last(run).cons
  {
    RunGood(run, |run| - 1);
    run' := run;
    if !Swept(Last(run)) {
      var k :| IsCloser(Last(run), k);
      if Last(run).closers[k].Awaiting? {
        run' := Extend(run, Close(k, TimeOut));
      }
      assert SweepsNext(Last(run'), k);
      run' := SweepClears(run', k);
    }
  }

  lemma LosesRecord(run: seq<State>, p: nat, c: nat) returns (run': seq<State>)
    requires IsRun(run) && Last(run).log.closed && Lossless(Last(run))
    requires IsSending(Last(run), p) && c in Last(run).pubs[p].pc.todo
    requires c in Last(run).cons && !GaveUp(Last(run).cons[c].pc)
    ensures IsRun(run') && run <= run' && !Lossless(Last(run'))
  {
    var swept := SweepComes(run);
    var left := LeavesByDone(swept, c);
    run' := DeliverLate(left, p, c);
  }

  /** The exact condition for a graceful drain, in every state of a closed log, by
      whichever close and however that has returned: every continuation is lossless
      for the subscribers that leave through their done channel if and only if the
      state is, and no publisher is still to send to a subscriber that has not
      given up. */
  lemma LosslessOnceClosedExactly(run: seq<State>)
    requires IsRun(run) && Last(run).log.closed
    ensures AlwaysLossless(run) <==> Lossless(Last(run)) && SendsToNobody(Last(run))
  {
    if Lossless(Last(run)) {
      if SendsToNobody(Last(run)) {
        SettledLosesNothing(run);
      } else {
        var p, c :| IsSending(Last(run), p) && c in Last(run).pubs[p].pc.todo
          && c in Last(run).cons && !GaveUp(Last(run).cons[c].pc);
        var run' := LosesRecord(run, p, c);
      }
    }
  }

  /** When a sweep comes next, the log is closed and nobody has seen it yet. */
  lemma NotYetSwept(s: State, k: nat)
    requires Good(s) && SweepsNext(s, k)
    ensures s.log.closed
    ensures forall c <- s.cons :: s.cons[c].pc.Looping? || GaveUp(s.cons[c].pc)
  {
    assert !Swept(s);
    forall c | c in s.cons
      ensures s.cons[c].pc.Looping? || GaveUp(s.cons[c].pc)
    {
      assert ViaDone(s.cons[c].pc) ==> c !in s.log.subs;
    }
  }

  lemma OwedBeforeSweep(s: State)
    requires forall c <- s.cons :: s.cons[c].pc.Looping? || GaveUp(s.cons[c].pc)
    ensures Lossless(s) && (SendsToNobody(s) <==> NobodyOwes(s))
  {
    forall p, c | NobodyOwes(s) && IsSending(s, p) && c in s.pubs[p].pc.todo && c in s.cons
      ensures GaveUp(s.cons[c].pc)
    {
      assert !Owes(s, p, c);
    }
  }

  /** In particular, when a close is about to sweep, by the end of its wait or by its
      timeout: if and only if no publisher is still to send to a subscriber in its
      main loop. */
  lemma LosslessExactly(run: seq<State>, k: nat)
    requires IsRun(run) && SweepsNext(Last(run), k)
    ensures AlwaysLossless(run) <==> NobodyOwes(Last(run))
  {
    RunGood(run, |run| - 1);
    NotYetSwept(Last(run), k);
    OwedBeforeSweep(Last(run));
    LosslessOnceClosedExactly(run);
  }

  lemma NoneActive(run: seq<State>)
    requires IsRun(run) && Last(run).log.active == 0
    ensures NobodyOwes(Last(run))
  {
    RunGood(run, |run| - 1);
    forall p
      ensures !IsSending(Last(run), p)
    {
      assert p in Active(Last(run)) <==> IsSending(Last(run), p);
    }
  }

  /** No active publisher is sufficient, even after a timeout. */
  lemma LosslessIfIdle(run: seq<State>, k: nat)
    requires IsRun(run) && SweepsNext(Last(run), k) && Last(run).log.active == 0
    ensures AlwaysLossless(run)
  {
    NoneActive(run);
    LosslessExactly(run, k);
  }

  // ---- A close can complete ----

  /** The consumer at the head has left: it unsubscribes and is skipped. */
  lemma LetGo(run: seq<State>, p: nat) returns (run': seq<State>)
    requires IsRun(run) && IsSending(Last(run), p) && Last(run).pubs[p].pc.todo != []
    requires var c := Last(run).pubs[p].pc.todo[0]; c in Last(run).cons && Last(run).cons[c].pc == Left(false)
    ensures Continues(run, run') && |run'| == |run| + 2 && Advances(Last(run), Last(run'), p)
  {
    var c := Last(run).pubs[p].pc.todo[0];
    var next := Go(run, Con(c, Unsubscribe));
    Kept(next, c);
    run' := GoSkip(next, p);
    GoOn(run, next, run');
  }

  lemma MakeRoom(run: seq<State>, p: nat) returns (run': seq<State>)
    requires IsRun(run) && IsSending(Last(run), p) && Last(run).pubs[p].pc.todo != []
    requires var c := Last(run).pubs[p].pc.todo[0];
      c in Last(run).cons && Last(run).cons[c].pc.Looping? && |Last(run).cons[c].queue| == QUEUE_CAPACITY
    ensures Continues(run, run') && |run'| == |run| + 2 && Advances(Last(run), Last(run'), p)
  {
    var next := GoReceive(run, Last(run).pubs[p].pc.todo[0]);
    run' := GoDeliver(next, p);
    GoOn(run, next, run');
  }

  /** Publisher `p` gets past the consumer at the head of its list, perhaps after
      that consumer has moved once: it can deliver, or skip. */
  lemma ServeOne(run: seq<State>, p: nat) returns (run': seq<State>)
    requires IsRun(run) && IsSending(Last(run), p) && Last(run).pubs[p].pc.todo != []
    ensures Continues(run, run') && |run'| <= |run| + 2 && Advances(Last(run), Last(run'), p)
  {
    var s := Last(run);
    var c := s.pubs[p].pc.todo[0];
    KnownHead(run, p);
    Kept(run, c);
    if s.cons[c].done in s.log.chans.closed {
      run' := GoSkip(run, p);
    } else if |s.cons[c].queue| < QUEUE_CAPACITY {
      run' := GoDeliver(run, p);
    } else if s.cons[c].pc.Looping? {
      run' := MakeRoom(run, p);
    } else {
      run' := LetGo(run, p);
    }
  }

  lemma GoFinish(run: seq<State>, p: nat) returns (run': seq<State>)
    requires IsRun(run) && IsSending(Last(run), p) && Last(run).pubs[p].pc.todo == []
    ensures Continues(run, run') && SameButPub(Last(run), Last(run'), p) && !IsSending(Last(run'), p)
  {
    run' := Go(run, Pub(p, Finish(false)));
  }

  lemma {:induction false} ServeAll(run: seq<State>, p: nat) returns (run': seq<State>)
    requires IsRun(run) && IsSending(Last(run), p)
    ensures Continues(run, run') && SameButPub(Last(run), Last(run'), p) && !IsSending(Last(run'), p)
    decreases |Last(run).pubs[p].pc.todo|
  {
    if Last(run).pubs[p].pc.todo == [] {
      run' := GoFinish(run, p);
    } else {
      var next := ServeOne(run, p);
      run' := ServeAll(next, p);
      GoOn(run, next, run');
    }
  }

  lemma {:induction false} ServeEveryone(run: seq<State>) returns (run': seq<State>)
    requires IsRun(run)
    ensures Continues(run, run') && Last(run').closers == Last(run).closers && Active(Last(run')) == {}
    decreases Active(Last(run))
  {
    if p :| p in Active(Last(run)) {
      var next := ServeAll(run, p);
      assert Active(Last(next)) == Active(Last(run)) - {p};
      run' := ServeEveryone(next);
      GoOn(run, next, run');
    } else {
      run' := run;
    }
  }

  lemma IdleIsClosed(run: seq<State>, k: nat)
    requires IsRun(run) && Active(Last(run)) == {} && k in Last(run).closers && Last(run).closers[k].Awaiting?
    ensures CloseEnabled(Last(run), k, SeeIdle)
  {
    RunGood(run, |run| - 1);
    assert Last(run).log.active == 0;
  }

  /** From every reachable state in which a close waits for the publishers, it can
      complete although nobody gives up: no publisher is stuck. */
  lemma CloseCanComplete(run: seq<State>, k: nat) returns (run': seq<State>)
    requires IsRun(run) && k in Last(run).closers && Last(run).closers[k].Awaiting?
    ensures Continues(run, run') && k in Last(run').closers && Last(run').closers[k] == Drained
  {
    var served := ServeEveryone(run);
    IdleIsClosed(served, k);
    var idle := Go(served, Close(k, SeeIdle));
    GoOn(run, served, idle);
    run' := Go(idle, Close(k, Sweep));
    GoOn(run, idle, run');
  }
}
