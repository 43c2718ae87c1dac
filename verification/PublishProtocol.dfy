/** How a publish ends (pkg/hub/packets.go publish): which outcome it may return
    when, and that it keeps trying until some subscriber has taken its record. */
module PublishProtocol {
  import opened Channels
  import opened PacketProtocol
  import opened DrainProtocol

  // ---- Refused and cancelled calls ----

  /** errPacketLogClosed is returned only once the log is closed. */
  ghost predicate RefusalOk(s: State) {
    forall p <- s.pubs | s.pubs[p].pc == Returned(LogClosed) :: s.log.closed
  }

  lemma RefusalPub(s: State, p: nat, step: PubStep)
    requires RefusalOk(s) && PubEnabled(s, p, step)
    ensures RefusalOk(PubApply(s, p, step))
  {}

  lemma OthersRefuseNobody(s: State, step: Step)
    requires Enabled(s, step) && !step.Pub?
    ensures Apply(s, step).pubs == s.pubs && (s.log.closed ==> Apply(s, step).log.closed)
  {}

  lemma RefusalNext(s: State, s': State)
    requires RefusalOk(s) && Next(s, s')
    ensures RefusalOk(s')
  {
    var step :| Enabled(s, step) && s' == Apply(s, step);
    if step.Pub? {
      RefusalPub(s, step.who, step.pub);
    } else {
      OthersRefuseNobody(s, step);
    }
  }

  /** A publish that has returned errPacketLogClosed found the log closed. */
  lemma {:induction false} RefusedOnlyByClosed(run: seq<State>, i: nat)
    requires IsRun(run) && i < |run|
    ensures forall p <- run[i].pubs | run[i].pubs[p].pc == Returned(LogClosed) :: run[i].log.closed
  {
    if i > 0 {
      RefusedOnlyByClosed(run, i - 1);
      assert StepAt(run, i);
      RefusalNext(run[i - 1], run[i]);
    }
  }

  /** Publisher `p` has given up, in waitForSubscriber or between two sends. */
  ghost predicate Cancels(s: State, s': State, p: nat) {
    || (PubEnabled(s, p, CancelParked) && s' == PubApply(s, p, CancelParked))
    || (PubEnabled(s, p, Finish(true)) && s' == PubApply(s, p, Finish(true)))
  }

  lemma CancelledPub(s: State, q: nat, step: PubStep, p: nat)
    requires PubEnabled(s, q, step) && p in PubApply(s, q, step).pubs
    requires PubApply(s, q, step).pubs[p].pc == Returned(Cancelled)
    ensures (p in s.pubs && s.pubs[p] == PubApply(s, q, step).pubs[p])
            || (p == q && (step == CancelParked || step == Finish(true)))
  {}

  lemma CancelledNext(s: State, s': State, p: nat)
    requires Next(s, s') && p in s'.pubs && s'.pubs[p].pc == Returned(Cancelled)
    ensures (p in s.pubs && s.pubs[p] == s'.pubs[p]) || Cancels(s, s', p)
  {
    var step :| Enabled(s, step) && s' == Apply(s, step);
    if step.Pub? {
      CancelledPub(s, step.who, step.pub, p);
    } else {
      OthersRefuseNobody(s, step);
    }
  }

  /** A publish that has returned ctx.Err() did so in a select that saw its context
      done, in this call and no other. */
  lemma {:induction false} CancelledOnlyByContext(run: seq<State>, i: nat, p: nat) returns (j: nat)
    requires IsRun(run) && i < |run| && p in run[i].pubs && run[i].pubs[p].pc == Returned(Cancelled)
    ensures 0 < j <= i && Cancels(run[j - 1], run[j], p) && run[j].pubs[p] == run[i].pubs[p]
  {
    assert StepAt(run, i);
    CancelledNext(run[i - 1], run[i], p);
    if p in run[i - 1].pubs && run[i - 1].pubs[p] == run[i].pubs[p] {
      j := CancelledOnlyByContext(run, i - 1, p);
    } else {
      j := i;
    }
  }

  /** Wherever a publish waits, for a subscriber or for room in a queue, its context
      can end it, and it then counts as a publisher no more. */
  lemma ContextEndsEveryWait(run: seq<State>, p: nat) returns (run': seq<State>)
    requires IsRun(run) && p in Last(run).pubs
    requires Last(run).pubs[p].pc.Parked? || (IsSending(Last(run), p) && Last(run).pubs[p].pc.todo != [])
    ensures IsRun(run') && |run'| == |run| + 1 && run <= run' && p in Last(run').pubs
    ensures Last(run').pubs[p].pc == Returned(Cancelled) && Last(run').pubs[p].call == Last(run).pubs[p].call
    ensures Last(run').log.active == Last(run).log.active - if IsSending(Last(run), p) then 1 else 0
  {
    run' := Extend(run, Pub(p, if Last(run).pubs[p].pc.Parked? then CancelParked else Finish(true)));
  }

  // ---- A call delivers if anybody listens ----

  /** Publisher `p` is in call `call`, the log is open, and consumer `c` listens. */
  ghost predicate Hopeful(run: seq<State>, p: nat, call: nat, c: nat) {
    && IsRun(run)
    && p in Last(run).pubs && Last(run).pubs[p].call == call && !Last(run).pubs[p].pc.Returned?
    && !Last(run).log.closed && Listens(Last(run), c)
  }

  lemma {:induction false} SomeOrder(ids: set<nat>) returns (order: seq<nat>)
    ensures Lists(order, ids)
  {
    order := [];
    if id :| id in ids {
      order := SomeOrder(ids - {id});
      order := order + [id];
    }
  }

  /** It comes to send to a list on which `c` is. */
  lemma StartsSending(run: seq<State>, p: nat, call: nat, c: nat) returns (run': seq<State>)
    requires Hopeful(run, p, call, c) && !IsSending(Last(run), p)
    ensures Continues(run, run') && Hopeful(run', p, call, c)
    ensures IsSending(Last(run'), p) && c in Last(run').pubs[p].pc.todo
  {
    run' := run;
    if Last(run').pubs[p].pc.Parked? {
      run' := Wakes(run', p, call, c);
    }
    if Last(run').pubs[p].pc.Polling? {
      var next := Go(run', Pub(p, Poll));
      GoOn(run, run', next);
      run' := next;
    }
    var order := SomeOrder(Last(run').log.subs.Keys);
    var next := Go(run', Pub(p, Enter(order)));
    GoOn(run, run', next);
    run' := next;
  }

  /** A parked publisher has been woken already, since somebody listens. */
  lemma Wakes(run: seq<State>, p: nat, call: nat, c: nat) returns (run': seq<State>)
    requires Hopeful(run, p, call, c) && Last(run).pubs[p].pc.Parked?
    ensures Continues(run, run') && Hopeful(run', p, call, c) && Last(run').pubs[p].pc.Polling?
  {
    if Last(run).pubs[p].pc.on !in Last(run).log.chans.closed {
      NoLostWakeup(run, |run| - 1, p);
      assert false;
    }
    run' := Go(run, Pub(p, Wake));
  }

  /** It serves its list; if `c` is on it, or somebody was served before, then the
      record has been taken at the end. */
  lemma {:induction false} ServesList(run: seq<State>, p: nat, call: nat, c: nat) returns (run': seq<State>)
    requires Hopeful(run, p, call, c) && IsSending(Last(run), p)
    ensures Continues(run, run') && Hopeful(run', p, call, c)
    ensures IsSending(Last(run'), p) && Last(run').pubs[p].pc.todo == []
    ensures c in Last(run).pubs[p].pc.todo || Last(run).pubs[p].pc.delivered > 0 ==>
      Last(run').pubs[p].pc.delivered > 0
    decreases |Last(run).pubs[p].pc.todo|
  {
    if Last(run).pubs[p].pc.todo == [] {
      run' := run;
    } else {
      var next := ServeOne(run, p);
      run' := ServesList(next, p, call, c);
      GoOn(run, next, run');
    }
  }

  lemma Finishes(run: seq<State>, p: nat, call: nat, c: nat) returns (run': seq<State>)
    requires Hopeful(run, p, call, c) && IsSending(Last(run), p) && Last(run).pubs[p].pc.todo == []
    ensures Continues(run, run') && p in Last(run').pubs && Last(run').pubs[p].call == call
    ensures if Last(run).pubs[p].pc.delivered > 0 then Last(run').pubs[p].pc == Returned(Delivered)
            else Hopeful(run', p, call, c) && !IsSending(Last(run'), p)
  {
    run' := Go(run, Pub(p, Finish(false)));
  }

  /** From its list on which `c` is, the call returns nil. */
  lemma ServesAndReturns(run: seq<State>, p: nat, call: nat, c: nat) returns (run': seq<State>)
    requires Hopeful(run, p, call, c) && IsSending(Last(run), p) && c in Last(run).pubs[p].pc.todo
    ensures Continues(run, run') && p in Last(run').pubs && Last(run').pubs[p].call == call
    ensures Last(run').pubs[p].pc == Returned(Delivered)
  {
    var served := ServesList(run, p, call, c);
    run' := Finishes(served, p, call, c);
    GoOn(run, served, run');
  }

  /** A publish that nobody has taken tries again: while the log is open and some
      subscriber is in its main loop, the call in progress can return nil although
      nobody gives up, wherever it is and whoever has left meanwhile. */
  lemma PublishCanDeliver(run: seq<State>, p: nat, c: nat) returns (run': seq<State>)
    requires IsRun(run) && p in Last(run).pubs && !Last(run).pubs[p].pc.Returned?
    requires !Last(run).log.closed && Listens(Last(run), c)
    ensures Continues(run, run') && p in Last(run').pubs && Last(run').pubs[p].call == Last(run).pubs[p].call
    ensures Last(run').pubs[p].pc == Returned(Delivered)
  {
    var call := Last(run).pubs[p].call;
    var idle := run;
    if IsSending(Last(run), p) {
      var served := ServesList(run, p, call, c);
      idle := Finishes(served, p, call, c);
      GoOn(run, served, idle);
    }
    run' := idle;
    if !Last(idle).pubs[p].pc.Returned? {
      var sending := StartsSending(idle, p, call, c);
      GoOn(run, idle, sending);
      run' := ServesAndReturns(sending, p, call, c);
      GoOn(run, sending, run');
    }
  }

  // ---- Every subscriber can leave ----

  /** A subscriber whose context is done leaves, and one that has seen its done channel
      closed drains its queue and leaves; either way it is registered no more. */
  lemma SubscriberCanLeave(run: seq<State>, c: nat) returns (run': seq<State>)
    requires IsRun(run) && c in Last(run).cons && !Last(run).cons[c].pc.Gone?
    ensures IsRun(run') && run <= run' && c in Last(run').cons && c !in Last(run').log.subs
    ensures Last(run').cons[c].pc ==
      Gone(match Last(run).cons[c].pc
           case Looping => false
           case Draining => true
           case Left(drained) => drained)
  {
    run' := run;
    match Last(run).cons[c].pc {
      case Looping => run' := Extend(run, Con(c, Leave));
      case Draining => run' := DrainAll(run, c);
      case Left(_) =>
    }
    run' := Extend(run', Con(c, Unsubscribe));
    RunGood(run', |run'| - 1);
  }
}
