/** packetLog under concurrency (pkg/hub/packets.go with the subscriber loop of
    pkg/hub/server.go).

    Any number of publishers, subscribers and closers interleave. A step is one
    lock region, one channel operation, or one choice of a select. The guarded
    state and its lock regions are those of PacketLogs. */
module PacketProtocol {
  import opened Channels
  import opened PacketLogs
  import opened Sequences

  const QUEUE_CAPACITY := 256

  datatype RecordKind = Unspecified | WireFrame | TlsEvent

  /** A record on its way to the subscribers: which publisher publishes it and
      in which of its calls. */
  datatype Msg = Msg(pub: nat, call: nat, kind: RecordKind)

  datatype Outcome = Delivered | LogClosed | Cancelled

  datatype PubPc =
    | Polling                                    // about to run waitForSubscriber's lock region
    | Parked(on: Chan)                           // in its select
    | Ready                                      // waitForSubscriber returned nil
    | Sending(todo: seq<nat>, delivered: nat)    // registered, sending outside the lock
    | Returned(outcome: Outcome)

  /** `call` numbers the publisher's current (or last) call from 0; `joined`
      records how many subscribers had ever registered when it began. */
  datatype Publisher = Publisher(call: nat, kind: RecordKind, joined: nat, pc: PubPc)

  /** Left: out of its loop, `drained` if through the done channel.
      Gone: its deferred unsubscribe has run as well. */
  datatype ConPc = Looping | Draining | Left(drained: bool) | Gone(drained: bool)

  /** `enqueued`, `handled` and `sent` are histories: what ever entered the
      queue, what the loop dealt with, and what it passed to stream.Send. */
  datatype Consumer = Consumer(
    done: Chan,
    kinds: seq<RecordKind>,
    queue: seq<Msg>,
    enqueued: seq<Msg>,
    handled: seq<Msg>,
    sent: seq<Msg>,
    pc: ConPc)

  /** Refused: found the log closed and returned nil at once.
      Drained: returned nil after the idle wait.
      TimedOut: swept on a cancelled context, then returned its error. */
  datatype Closer =
    | Refused
    | Awaiting(on: Chan)
    | Sweeping
    | Drained
    | Overrun(on: Chan)
    | OverrunSwept(on: Chan)
    | TimedOut

  datatype State = State(
    log: Log,
    pubs: map<nat, Publisher>,
    cons: map<nat, Consumer>,
    closers: map<nat, Closer>)

  const INIT := State(NewLog(), map[], map[], map[])

  datatype PubStep =
    | CallPublish(kind: RecordKind)
    | Poll
    | Wake
    | CancelParked
    | Enter(order: seq<nat>)
    | Deliver
    | Skip
    | Finish(cancelled: bool)

  datatype ConStep =
    | Subscribe(kinds: seq<RecordKind>)
    | Receive(sendOk: bool)
    | SeeDone
    | DrainEmpty
    | Leave
    | Unsubscribe

  datatype CloseStep =
    | CallClose
    | SeeIdle
    | TimeOut
    | Sweep
    | ReturnTimedOut

  /** A step of publisher, consumer or closer `who`; Subscribe ignores `who`. */
  datatype Step =
    | Pub(who: nat, pub: PubStep)
    | Con(who: nat, con: ConStep)
    | Close(who: nat, close: CloseStep)

  predicate RecordMatchesFilter(m: Msg, kinds: seq<RecordKind>) {
    kinds == [] || (m.kind != Unspecified && m.kind in kinds)
  }

  /** recordMatchesFilter, as the loop it is. */
  method MatchesFilter(m: Msg, kinds: seq<RecordKind>) returns (ok: bool)
    ensures ok <==> Wants(kinds, m.kind)
    ensures ok <==> RecordMatchesFilter(m, kinds)
  {
    if kinds == [] {
      return true;
    }
    for i := 0 to |kinds|
      invariant forall k | 0 <= k < i :: kinds[k].Unspecified? || kinds[k] != m.kind
    {
      match kinds[i]
      case WireFrame =>
        if m.kind.WireFrame? {
          return true;
        }
      case TlsEvent =>
        if m.kind.TlsEvent? {
          return true;
        }
      case Unspecified =>
    }
    return false;
  }

  /** What a subscriber asks for: wire frames, TLS events, or, listing no kind, anything. */
  predicate Wants(kinds: seq<RecordKind>, kind: RecordKind) {
    || |kinds| == 0
    || (kind.WireFrame? && WireFrame in kinds)
    || (kind.TlsEvent? && TlsEvent in kinds)
  }

  /** `sent` are the records of `ms`, in order, at exactly the positions whose kind
      is asked for. */
  ghost predicate SentAsAsked(ms: seq<Msg>, kinds: seq<RecordKind>, sent: seq<Msg>) {
    exists at ::
      Picks(ms, at, sent) && forall i | 0 <= i < |ms| :: i in at <==> Wants(kinds, ms[i].kind)
  }

  function Filtered(ms: seq<Msg>, kinds: seq<RecordKind>): seq<Msg> {
    if ms == [] then []
    else
      var last := ms[|ms| - 1];
      Filtered(ms[..|ms| - 1], kinds) + if RecordMatchesFilter(last, kinds) then [last] else []
  }

  ghost predicate PubEnabled(s: State, p: nat, step: PubStep) {
    if step.CallPublish? then p in s.pubs ==> s.pubs[p].pc.Returned?
    else
      && p in s.pubs
      && var pc := s.pubs[p].pc;
         match step
         case CallPublish(_) => pc.Returned?
         case Poll => pc.Polling?
         case Wake => pc.Parked? && pc.on in s.log.chans.closed
         case CancelParked => pc.Parked?
         case Enter(order) => pc.Ready? && Lists(order, s.log.subs.Keys)
         case Deliver =>
           && pc.Sending? && pc.todo != [] && pc.todo[0] in s.cons
           && |s.cons[pc.todo[0]].queue| < QUEUE_CAPACITY
         case Skip =>
           && pc.Sending? && pc.todo != [] && pc.todo[0] in s.cons
           && s.cons[pc.todo[0]].done in s.log.chans.closed
         case Finish(cancelled) => pc.Sending? && (cancelled <==> pc.todo != [])
  }

  ghost predicate ConEnabled(s: State, c: nat, step: ConStep) {
    if step.Subscribe? then true
    else
      && c in s.cons
      && var con := s.cons[c];
         match step
         case Subscribe(_) => true
         case Receive(_) => (con.pc.Looping? || con.pc.Draining?) && con.queue != []
         case SeeDone => con.pc.Looping? && con.done in s.log.chans.closed
         case DrainEmpty => con.pc.Draining? && con.queue == []
         case Leave => con.pc.Looping?
         case Unsubscribe => con.pc.Left?
  }

  ghost predicate CloseEnabled(s: State, k: nat, step: CloseStep) {
    if step.CallClose? then k !in s.closers
    else
      && k in s.closers
      && var closer := s.closers[k];
         match step
         case CallClose => false
         case SeeIdle => closer.Awaiting? && closer.on in s.log.chans.closed
         case TimeOut => closer.Awaiting?
         case Sweep => closer.Sweeping? || closer.Overrun?
         case ReturnTimedOut => closer.OverrunSwept? && closer.on in s.log.chans.closed
  }

  ghost predicate Enabled(s: State, step: Step) {
    match step
    case Pub(p, st) => PubEnabled(s, p, st)
    case Con(c, st) => ConEnabled(s, c, st)
    case Close(k, st) => CloseEnabled(s, k, st)
  }

  function MsgOf(p: nat, pub: Publisher): Msg {
    Msg(p, pub.call, pub.kind)
  }

  function WithPub(s: State, p: nat, pc: PubPc): State
    requires p in s.pubs
  {
    s.(pubs := s.pubs[p := s.pubs[p].(pc := pc)])
  }

  function WithCon(s: State, c: nat, con: Consumer): State {
    s.(cons := s.cons[c := con])
  }

  function Put(con: Consumer, m: Msg): Consumer {
    con.(queue := con.queue + [m], enqueued := con.enqueued + [m])
  }

  /** The head of the queue is received; it is dealt with unless it must be
      sent and the send fails, which ends the loop. */
  function Take(con: Consumer, sendOk: bool): Consumer
    requires con.queue != []
  {
    var m := con.queue[0];
    var rest := con.(queue := con.queue[1..]);
    if !RecordMatchesFilter(m, con.kinds) then
      rest.(handled := con.handled + [m])
    else if sendOk then
      rest.(handled := con.handled + [m], sent := con.sent + [m])
    else
      rest.(pc := Left(false))
  }

  ghost function PubApply(s: State, p: nat, step: PubStep): State
    requires PubEnabled(s, p, step)
  {
    match step
    case CallPublish(kind) =>
      var call := if p in s.pubs then s.pubs[p].call + 1 else 0;
      s.(pubs := s.pubs[p := Publisher(call, kind, s.log.nextID, Polling)])
    case Poll =>
      WithPub(s, p,
        if s.log.closed then Returned(LogClosed)
        else if s.log.subs.Keys != {} then Ready
        else Parked(s.log.changed))
    case Wake => WithPub(s, p, Polling)
    case CancelParked => WithPub(s, p, Returned(Cancelled))
    case Enter(order) =>
      if s.log.closed then WithPub(s, p, Returned(LogClosed))
      else WithPub(s.(log := s.log.Enter()), p, Sending(order, 0))
    case Deliver =>
      var pub := s.pubs[p];
      var c := pub.pc.todo[0];
      WithPub(WithCon(s, c, Put(s.cons[c], MsgOf(p, pub))), p,
        Sending(pub.pc.todo[1..], pub.pc.delivered + 1))
    case Skip =>
      var pc := s.pubs[p].pc;
      WithPub(s, p, Sending(pc.todo[1..], pc.delivered))
    case Finish(cancelled) =>
      WithPub(s.(log := s.log.FinishPublish()), p,
        if cancelled then Returned(Cancelled)
        else if s.pubs[p].pc.delivered > 0 then Returned(Delivered)
        else Polling)
  }

  ghost function ConApply(s: State, c: nat, step: ConStep): State
    requires ConEnabled(s, c, step)
  {
    match step
    case Subscribe(kinds) =>
      if s.log.closed then s
      else WithCon(s.(log := s.log.Subscribe()), s.log.nextID,
        Consumer(s.log.chans.next, kinds, [], [], [], [], Looping))
    case Receive(sendOk) => WithCon(s, c, Take(s.cons[c], sendOk))
    case SeeDone => WithCon(s, c, s.cons[c].(pc := Draining))
    case DrainEmpty => WithCon(s, c, s.cons[c].(pc := Left(true)))
    case Leave => WithCon(s, c, s.cons[c].(pc := Left(false)))
    case Unsubscribe =>
      WithCon(s.(log := s.log.Unsubscribe(c)), c, s.cons[c].(pc := Gone(s.cons[c].pc.drained)))
  }

  ghost function CloseApply(s: State, k: nat, step: CloseStep): State
    requires CloseEnabled(s, k, step)
  {
    match step
    case CallClose =>
      if s.log.closed then s.(closers := s.closers[k := Refused])
      else s.(log := s.log.BeginClose(), closers := s.closers[k := Awaiting(s.log.idle)])
    case SeeIdle => s.(closers := s.closers[k := Sweeping])
    case TimeOut => s.(closers := s.closers[k := Overrun(s.closers[k].on)])
    case Sweep =>
      s.(log := s.log.CloseSubscribers(),
        closers := s.closers[k := if s.closers[k].Sweeping? then Drained else OverrunSwept(s.closers[k].on)])
    case ReturnTimedOut => s.(closers := s.closers[k := TimedOut])
  }

  ghost function Apply(s: State, step: Step): State
    requires Enabled(s, step)
  {
    match step
    case Pub(p, st) => PubApply(s, p, st)
    case Con(c, st) => ConApply(s, c, st)
    case Close(k, st) => CloseApply(s, k, st)
  }

  ghost predicate Next(s: State, s': State) {
    exists step :: Enabled(s, step) && s' == Apply(s, step)
  }

  ghost predicate StepAt(run: seq<State>, i: nat)
    requires 0 < i < |run|
  {
    Next(run[i - 1], run[i])
  }

  ghost predicate IsRun(run: seq<State>) {
    && |run| > 0
    && run[0] == INIT
    && forall i | 0 < i < |run| :: StepAt(run, i)
  }

  // ---- The inductive invariant ----

  /** Channels and identities: one consumer record for each id ever handed out,
      its done channel open exactly while it is registered. */
  ghost predicate ChanInv(s: State) {
    && Disciplined(s.log)
    && (forall c: nat :: c in s.cons <==> c < s.log.nextID)
    && (forall c <- s.cons ::
          && s.cons[c].done < s.log.chans.next
          && (c in s.log.subs ==> s.log.subs[c] == s.cons[c].done)
          && (c !in s.log.subs ==> s.cons[c].done in s.log.chans.closed))
  }

  ghost function Active(s: State): set<nat> {
    set p | p in s.pubs && s.pubs[p].pc.Sending?
  }

  ghost predicate ActiveInv(s: State) {
    s.log.active == |Active(s)|
  }

  /** No lost wakeup: whoever still waits on an open channel waits for good reason. */
  ghost predicate ParkInv(s: State) {
    forall p <- s.pubs | s.pubs[p].pc.Parked? && s.pubs[p].pc.on !in s.log.chans.closed ::
      s.pubs[p].pc.on == s.log.changed && s.log.subs.Keys == {} && !s.log.closed
  }

  predicate Waits(k: Closer) {
    k.Awaiting? || k.Overrun? || k.OverrunSwept?
  }

  predicate Overran(k: Closer) {
    k.OverrunSwept? || k.TimedOut?
  }

  /** The closing call is unique, waits for the current idle channel, and passes
      it only when no publisher is or will be active. */
  ghost predicate CloseInv(s: State) {
    && (forall k <- s.closers :: s.log.closed)
    && (forall k <- s.closers | Waits(s.closers[k]) :: s.closers[k].on == s.log.idle)
    && (forall k <- s.closers | s.closers[k].Sweeping? || s.closers[k].Drained? :: s.log.active == 0)
    && (forall k, k' | k in s.closers && k' in s.closers && !s.closers[k].Refused? && !s.closers[k'].Refused? ::
          k == k')
  }

  ghost predicate OverrunSweepHappened(s: State) {
    exists k :: k in s.closers && Overran(s.closers[k])
  }

  predicate ViaDone(pc: ConPc) {
    pc.Draining? || pc == Left(true) || pc == Gone(true)
  }

  /** Each queue is what its consumer has not handled yet, and fits. */
  ghost predicate BoxInv(c: Consumer) {
    && |c.queue| <= QUEUE_CAPACITY
    && (c.pc != Left(false) && c.pc != Gone(false) ==>
          c.enqueued == c.handled + c.queue && c.sent == Filtered(c.handled, c.kinds))
  }

  /** Unless a close timed out, a consumer is unregistered only by itself or by
      a sweep after the last publisher, and drains to an empty queue. */
  ghost predicate DrainInv(s: State) {
    && (forall c <- s.cons | ViaDone(s.cons[c].pc) :: c !in s.log.subs)
    && (forall c <- s.cons | c !in s.log.subs && s.cons[c].pc != Gone(false) && !OverrunSweepHappened(s) ::
          && s.log.closed && s.log.active == 0
          && (s.cons[c].pc == Left(true) || s.cons[c].pc == Gone(true) ==> s.cons[c].queue == []))
  }

  /** Every record of publisher `p` in `ms` is from a call before `k`. */
  ghost predicate Before(ms: seq<Msg>, p: nat, k: nat) {
    forall i | 0 <= i < |ms| && ms[i].pub == p :: ms[i].call < k
  }

  /** Each publisher's records are in the order of its calls, none twice. */
  ghost predicate Ordered(ms: seq<Msg>) {
    forall i, j | 0 <= i < j < |ms| && ms[i].pub == ms[j].pub :: ms[i].call < ms[j].call
  }

  ghost predicate Taken(s: State, m: Msg) {
    exists c :: c in s.cons && m in s.cons[c].enqueued
  }

  /** The call's record cannot have reached consumer `c`. */
  predicate Fresh(pc: PubPc, c: nat) {
    pc.Polling? || pc.Parked? || pc.Ready? || pc == Returned(LogClosed) ||
    (pc.Sending? && (pc.delivered == 0 || c in pc.todo))
  }

  ghost predicate FromKnown(ms: seq<Msg>, pubs: set<nat>) {
    forall i | 0 <= i < |ms| :: ms[i].pub in pubs
  }

  /** Consumer `c` has nothing of publisher `p` beyond its current call, which
      it has only if it can. */
  ghost predicate UpToDate(ms: seq<Msg>, c: nat, p: nat, pub: Publisher) {
    Before(ms, p, if Fresh(pub.pc, c) then pub.call else pub.call + 1)
  }

  ghost predicate OrderInv(s: State) {
    && (forall c <- s.cons :: Ordered(s.cons[c].enqueued))
    && (forall c <- s.cons :: FromKnown(s.cons[c].enqueued, s.pubs.Keys))
    && (forall c, p | c in s.cons && p in s.pubs :: UpToDate(s.cons[c].enqueued, c, p, s.pubs[p]))
    && (forall p <- s.pubs | s.pubs[p].pc.Sending? :: NoRepeats(s.pubs[p].pc.todo))
  }

  /** A call that delivered reached someone, and everyone registered since
      before it began; a call still sending has the others on its list. */
  ghost predicate ReachInv(s: State) {
    && (forall p <- s.pubs :: s.pubs[p].joined <= s.log.nextID)
    && (forall p <- s.pubs
          | (s.pubs[p].pc.Sending? && s.pubs[p].pc.delivered > 0) || s.pubs[p].pc == Returned(Delivered) ::
          Taken(s, MsgOf(p, s.pubs[p])))
    && (forall p, c | p in s.pubs && c in s.log.subs && c in s.cons && c < s.pubs[p].joined ::
          && (s.pubs[p].pc == Returned(Delivered) ==> MsgOf(p, s.pubs[p]) in s.cons[c].enqueued)
          && (s.pubs[p].pc.Sending? ==>
                c in s.pubs[p].pc.todo || MsgOf(p, s.pubs[p]) in s.cons[c].enqueued))
  }

  ghost predicate LockInv(s: State) {
    && ChanInv(s)
    && ActiveInv(s)
    && ParkInv(s)
    && CloseInv(s)
  }

  ghost predicate FlowInv(s: State) {
    && (forall c <- s.cons :: BoxInv(s.cons[c]))
    && DrainInv(s)
    && OrderInv(s)
    && ReachInv(s)
  }

  ghost predicate Inv(s: State) {
    LockInv(s) && FlowInv(s)
  }

  lemma SenderIsActive(s: State, p: nat)
    requires ActiveInv(s) && p in s.pubs && s.pubs[p].pc.Sending?
    ensures s.log.active > 0
  {
    assert p in Active(s);
  }

  lemma ChanPub(s: State, p: nat, step: PubStep)
    requires ChanInv(s) && ActiveInv(s) && PubEnabled(s, p, step)
    ensures ChanInv(PubApply(s, p, step))
  {
    match step
    case Finish(_) =>
      SenderIsActive(s, p);
      FinishPublishDisciplined(s.log);
    case Enter(_) => EnterDisciplined(s.log);
    case _ =>
  }

  lemma ChanCon(s: State, c: nat, step: ConStep)
    requires ChanInv(s) && ConEnabled(s, c, step)
    ensures ChanInv(ConApply(s, c, step))
  {
    match step
    case Subscribe(_) => SubscribeDisciplined(s.log);
    case Unsubscribe => UnsubscribeDisciplined(s.log, c);
    case _ =>
  }

  lemma ChanClose(s: State, k: nat, step: CloseStep)
    requires ChanInv(s) && CloseEnabled(s, k, step)
    ensures ChanInv(CloseApply(s, k, step))
  {
    match step
    case CallClose => BeginCloseDisciplined(s.log);
    case Sweep => CloseSubscribersDisciplined(s.log);
    case _ =>
  }

  lemma ActiveOther(s: State, s': State)
    requires ActiveInv(s) && s'.log.active == s.log.active
    requires forall p :: p in s'.pubs && s'.pubs[p].pc.Sending? <==> p in s.pubs && s.pubs[p].pc.Sending?
    ensures ActiveInv(s')
  {
    assert Active(s') == Active(s);
  }

  lemma ActiveEnters(s: State, p: nat, order: seq<nat>)
    requires ActiveInv(s) && PubEnabled(s, p, Enter(order)) && !s.log.closed
    ensures ActiveInv(PubApply(s, p, Enter(order)))
  {
    assert p !in Active(s);
    assert Active(PubApply(s, p, Enter(order))) == Active(s) + {p};
  }

  lemma ActiveLeaves(s: State, p: nat, cancelled: bool)
    requires ActiveInv(s) && PubEnabled(s, p, Finish(cancelled))
    ensures ActiveInv(PubApply(s, p, Finish(cancelled)))
  {
    assert p in Active(s);
    assert Active(PubApply(s, p, Finish(cancelled))) == Active(s) - {p};
  }

  lemma ActivePub(s: State, p: nat, step: PubStep)
    requires ActiveInv(s) && PubEnabled(s, p, step)
    ensures ActiveInv(PubApply(s, p, step))
  {
    if step.Enter? && !s.log.closed {
      ActiveEnters(s, p, step.order);
    } else if step.Finish? {
      ActiveLeaves(s, p, step.cancelled);
    } else {
      ActiveOther(s, PubApply(s, p, step));
    }
  }

  lemma ParkPub(s: State, p: nat, step: PubStep)
    requires ParkInv(s) && PubEnabled(s, p, step)
    ensures ParkInv(PubApply(s, p, step))
  {}

  lemma ParkCon(s: State, c: nat, step: ConStep)
    requires ParkInv(s) && ConEnabled(s, c, step)
    ensures ParkInv(ConApply(s, c, step))
  {}

  lemma ParkClose(s: State, k: nat, step: CloseStep)
    requires ParkInv(s) && CloseEnabled(s, k, step)
    ensures ParkInv(CloseApply(s, k, step))
  {}

  lemma ClosePub(s: State, p: nat, step: PubStep)
    requires CloseInv(s) && ActiveInv(s) && ChanInv(s) && PubEnabled(s, p, step)
    ensures CloseInv(PubApply(s, p, step))
  {
    if step.Finish? {
      SenderIsActive(s, p);
    }
  }

  lemma CloseCon(s: State, c: nat, step: ConStep)
    requires CloseInv(s) && ConEnabled(s, c, step)
    ensures CloseInv(ConApply(s, c, step))
  {}

  lemma CloseClose(s: State, k: nat, step: CloseStep)
    requires CloseInv(s) && ChanInv(s) && CloseEnabled(s, k, step)
    ensures CloseInv(CloseApply(s, k, step))
  {}

  lemma FilteredSnoc(ms: seq<Msg>, m: Msg, kinds: seq<RecordKind>)
    ensures Filtered(ms + [m], kinds) == Filtered(ms, kinds) + if RecordMatchesFilter(m, kinds) then [m] else []
  {
    assert (ms + [m])[..|ms|] == ms;
  }

  lemma {:induction false} FilteredPicks(ms: seq<Msg>, kinds: seq<RecordKind>) returns (at: seq<nat>)
    ensures Picks(ms, at, Filtered(ms, kinds))
    ensures forall i | 0 <= i < |ms| :: i in at <==> Wants(kinds, ms[i].kind)
  {
    if ms == [] {
      at := [];
    } else {
      var n := |ms| - 1;
      at := FilteredPicks(ms[..n], kinds);
      PicksNext(ms, n, at, Filtered(ms[..n], kinds));
      assert ms[..n + 1] == ms && forall i | 0 <= i < n :: ms[..n][i] == ms[i];
      if RecordMatchesFilter(ms[n], kinds) {
        at := at + [n];
      }
    }
  }

  lemma BoxPub(s: State, p: nat, step: PubStep)
    requires (forall c <- s.cons :: BoxInv(s.cons[c])) && PubEnabled(s, p, step)
    ensures forall c <- PubApply(s, p, step).cons :: BoxInv(PubApply(s, p, step).cons[c])
  {
    if step.Deliver? {
      var con := s.cons[s.pubs[p].pc.todo[0]];
      var m := MsgOf(p, s.pubs[p]);
      assert con.handled + (con.queue + [m]) == con.handled + con.queue + [m];
      assert BoxInv(Put(con, m));
    }
  }

  lemma BoxCon(s: State, c: nat, step: ConStep)
    requires (forall i <- s.cons :: BoxInv(s.cons[i])) && ConEnabled(s, c, step)
    ensures forall i <- ConApply(s, c, step).cons :: BoxInv(ConApply(s, c, step).cons[i])
  {
    if step.Receive? {
      var con := s.cons[c];
      FilteredSnoc(con.handled, con.queue[0], con.kinds);
      assert con.handled + con.queue == con.handled + [con.queue[0]] + con.queue[1..];
      assert BoxInv(Take(con, step.sendOk));
    }
  }

  lemma DrainPub(s: State, p: nat, step: PubStep)
    requires DrainInv(s) && ActiveInv(s) && PubEnabled(s, p, step)
    ensures DrainInv(PubApply(s, p, step))
  {
    if step.Finish? || step.Deliver? {
      SenderIsActive(s, p);
    }
    assert PubApply(s, p, step).closers == s.closers;
  }

  lemma DrainCon(s: State, c: nat, step: ConStep)
    requires DrainInv(s) && ChanInv(s) && ConEnabled(s, c, step)
    ensures DrainInv(ConApply(s, c, step))
  {
    assert ConApply(s, c, step).closers == s.closers;
  }

  lemma DrainClose(s: State, k: nat, step: CloseStep)
    requires DrainInv(s) && CloseInv(s) && CloseEnabled(s, k, step)
    ensures DrainInv(CloseApply(s, k, step))
  {
    var s' := CloseApply(s, k, step);
    assert k in s'.closers;
    if OverrunSweepHappened(s) {
      var k' :| k' in s.closers && Overran(s.closers[k']);
      assert k' in s'.closers && Overran(s'.closers[k']);
    }
  }

  /** Delivering a call's record to a consumer it is fresh for. */
  lemma OrderedPut(con: Consumer, m: Msg)
    requires Ordered(con.enqueued) && Before(con.enqueued, m.pub, m.call)
    ensures Ordered(Put(con, m).enqueued) && Before(Put(con, m).enqueued, m.pub, m.call + 1)
    ensures forall p, k | p != m.pub && Before(con.enqueued, p, k) :: Before(Put(con, m).enqueued, p, k)
  {}

  lemma OrderDeliver(s: State, p: nat)
    requires OrderInv(s) && PubEnabled(s, p, Deliver)
    ensures OrderInv(PubApply(s, p, Deliver))
  {
    var pub, s' := s.pubs[p], PubApply(s, p, Deliver);
    var c, pub' := pub.pc.todo[0], s'.pubs[p];
    assert UpToDate(s.cons[c].enqueued, c, p, pub) && Fresh(pub.pc, c);
    OrderedPut(s.cons[c], MsgOf(p, pub));
    assert c !in pub'.pc.todo;
    assert UpToDate(s'.cons[c].enqueued, c, p, pub');
    forall i, q | i in s.cons && q in s.pubs
      ensures UpToDate(s'.cons[i].enqueued, i, q, s'.pubs[q])
    {
      assert UpToDate(s.cons[i].enqueued, i, q, s.pubs[q]);
      if q == p && i != c {
        assert Fresh(pub'.pc, i) ==> Fresh(pub.pc, i);
      }
    }
  }

  /** A publisher moves without delivering, and no record of an older call
      becomes fresh again. */
  lemma OrderQuiet(s: State, p: nat, pub: Publisher, s': State)
    requires OrderInv(s) && s'.cons == s.cons && s'.pubs == s.pubs[p := pub]
    requires p in s.pubs && pub.call == s.pubs[p].call ==> forall c :: Fresh(pub.pc, c) ==> Fresh(s.pubs[p].pc, c)
    requires p in s.pubs ==> s.pubs[p].call <= pub.call
    requires pub.pc.Sending? ==> NoRepeats(pub.pc.todo)
    ensures OrderInv(s')
  {
    forall c | c in s.cons
      ensures UpToDate(s.cons[c].enqueued, c, p, pub)
    {
      assert FromKnown(s.cons[c].enqueued, s.pubs.Keys);
      assert p in s.pubs ==> UpToDate(s.cons[c].enqueued, c, p, s.pubs[p]);
    }
  }

  lemma OrderPub(s: State, p: nat, step: PubStep)
    requires OrderInv(s) && PubEnabled(s, p, step)
    ensures OrderInv(PubApply(s, p, step))
  {
    if step.Deliver? {
      OrderDeliver(s, p);
    } else {
      var s' := PubApply(s, p, step);
      if step.Skip? {
        assert forall c | c in s'.pubs[p].pc.todo :: c in s.pubs[p].pc.todo;
      }
      OrderQuiet(s, p, s'.pubs[p], s');
    }
  }

  lemma OrderCon(s: State, c: nat, step: ConStep)
    requires OrderInv(s) && ConEnabled(s, c, step)
    ensures OrderInv(ConApply(s, c, step))
  {}

  lemma TakenStays(s: State, s': State)
    requires forall c <- s.cons :: c in s'.cons && s.cons[c].enqueued <= s'.cons[c].enqueued
    ensures forall m | Taken(s, m) :: Taken(s', m)
  {}

  lemma ReachDeliver(s: State, p: nat)
    requires ReachInv(s) && PubEnabled(s, p, Deliver)
    ensures ReachInv(PubApply(s, p, Deliver))
  {
    var s' := PubApply(s, p, Deliver);
    var c := s.pubs[p].pc.todo[0];
    var m := MsgOf(p, s.pubs[p]);
    assert s'.cons[c].enqueued[|s.cons[c].enqueued|] == m;
    TakenStays(s, s');
    assert Taken(s', m);
  }

  /** A publisher moves without delivering: what it then claims must hold. */
  lemma ReachQuiet(s: State, p: nat, pub: Publisher, s': State)
    requires ReachInv(s) && s'.cons == s.cons && s'.pubs == s.pubs[p := pub]
    requires s'.log.subs == s.log.subs && s'.log.nextID == s.log.nextID && pub.joined <= s.log.nextID
    requires (pub.pc.Sending? && pub.pc.delivered > 0) || pub.pc == Returned(Delivered) ==> Taken(s, MsgOf(p, pub))
    requires forall c | c in s.log.subs && c in s.cons && c < pub.joined ::
      && (pub.pc == Returned(Delivered) ==> MsgOf(p, pub) in s.cons[c].enqueued)
      && (pub.pc.Sending? ==> c in pub.pc.todo || MsgOf(p, pub) in s.cons[c].enqueued)
    ensures ReachInv(s')
  {
    TakenStays(s, s');
  }

  lemma ReachPub(s: State, p: nat, step: PubStep)
    requires ReachInv(s) && ChanInv(s) && PubEnabled(s, p, step)
    ensures ReachInv(PubApply(s, p, step))
  {
    if step.Deliver? {
      ReachDeliver(s, p);
    } else {
      var s' := PubApply(s, p, step);
      if step.Skip? {
        var todo := s.pubs[p].pc.todo;
        assert todo[0] !in s.log.subs;
        assert forall c | c in todo && c != todo[0] :: c in todo[1..];
      }
      ReachQuiet(s, p, s'.pubs[p], s');
    }
  }

  lemma ReachOther(s: State, s': State)
    requires ReachInv(s) && s'.pubs == s.pubs && s.log.nextID <= s'.log.nextID
    requires forall c <- s.cons :: c in s'.cons && s.cons[c].enqueued <= s'.cons[c].enqueued
    requires forall c | c in s'.log.subs && c < s.log.nextID :: c in s.log.subs && c in s.cons
    ensures ReachInv(s')
  {
    TakenStays(s, s');
  }

  lemma ReachCon(s: State, c: nat, step: ConStep)
    requires ReachInv(s) && ChanInv(s) && ConEnabled(s, c, step)
    ensures ReachInv(ConApply(s, c, step))
  {
    var s' := ConApply(s, c, step);
    assert forall i <- s.cons :: i in s'.cons && s'.cons[i].enqueued == s.cons[i].enqueued;
    ReachOther(s, s');
  }

  lemma PubInv(s: State, p: nat, step: PubStep)
    requires Inv(s) && PubEnabled(s, p, step)
    ensures Inv(PubApply(s, p, step))
  {
    ChanPub(s, p, step);
    ActivePub(s, p, step);
    ParkPub(s, p, step);
    ClosePub(s, p, step);
    BoxPub(s, p, step);
    DrainPub(s, p, step);
    OrderPub(s, p, step);
    ReachPub(s, p, step);
  }

  lemma ConInv(s: State, c: nat, step: ConStep)
    requires Inv(s) && ConEnabled(s, c, step)
    ensures Inv(ConApply(s, c, step))
  {
    assert LockInv(ConApply(s, c, step)) by {
      ChanCon(s, c, step);
      ActiveOther(s, ConApply(s, c, step));
      ParkCon(s, c, step);
      CloseCon(s, c, step);
    }
    assert FlowInv(ConApply(s, c, step)) by {
      BoxCon(s, c, step);
      DrainCon(s, c, step);
      OrderCon(s, c, step);
      ReachCon(s, c, step);
    }
  }

  lemma CloserLockInv(s: State, k: nat, step: CloseStep)
    requires Inv(s) && CloseEnabled(s, k, step)
    ensures LockInv(CloseApply(s, k, step))
  {
    ChanClose(s, k, step);
    ActiveOther(s, CloseApply(s, k, step));
    ParkClose(s, k, step);
    CloseClose(s, k, step);
  }

  lemma CloserFlowInv(s: State, k: nat, step: CloseStep)
    requires Inv(s) && CloseEnabled(s, k, step)
    ensures FlowInv(CloseApply(s, k, step))
  {
    DrainClose(s, k, step);
    ReachOther(s, CloseApply(s, k, step));
  }

  lemma StepInv(s: State, step: Step)
    requires Inv(s) && Enabled(s, step)
    ensures Inv(Apply(s, step))
  {
    match step
    case Pub(p, st) => PubInv(s, p, st);
    case Con(c, st) => ConInv(s, c, st);
    case Close(k, st) =>
      CloserLockInv(s, k, st);
      CloserFlowInv(s, k, st);
  }

  lemma NextInv(s: State, s': State)
    requires Inv(s) && Next(s, s')
    ensures Inv(s')
  {
    var step :| Enabled(s, step) && s' == Apply(s, step);
    StepInv(s, step);
  }

  lemma InitInv()
    ensures Inv(INIT)
  {
    assert Active(INIT) == {};
  }

  lemma {:induction false} RunInv(run: seq<State>, i: nat)
    requires IsRun(run) && i < |run|
    ensures Inv(run[i])
  {
    if i > 0 {
      RunInv(run, i - 1);
      assert StepAt(run, i);
      NextInv(run[i - 1], run[i]);
    } else {
      InitInv();
    }
  }

  // ---- What every run guarantees ----

  /** Channel discipline: `active` counts the publishers between registration
      and finishPublish, idle is closed exactly when there are none, done is
      closed exactly after leaving `subs`, queues fit, nothing is closed twice. */
  lemma ChannelDiscipline(run: seq<State>, i: nat)
    requires IsRun(run) && i < |run|
    ensures !run[i].log.chans.panicked
    ensures run[i].log.active == |set p | p in run[i].pubs && run[i].pubs[p].pc.Sending?|
    ensures run[i].log.idle in run[i].log.chans.closed <==> run[i].log.active == 0
    ensures run[i].log.changed !in run[i].log.chans.closed
    ensures forall c <- run[i].cons ::
      && |run[i].cons[c].queue| <= 256
      && (run[i].cons[c].done in run[i].log.chans.closed <==> c !in run[i].log.subs)
  {
    RunInv(run, i);
    assert Active(run[i]) == set p | p in run[i].pubs && run[i].pubs[p].pc.Sending?;
  }

  /** No lost wakeup: a publisher parked on a channel nobody has closed waits
      on the current one, and indeed has no subscriber and no closed log. */
  lemma NoLostWakeup(run: seq<State>, i: nat, p: nat)
    requires IsRun(run) && i < |run| && p in run[i].pubs && run[i].pubs[p].pc.Parked?
    requires run[i].pubs[p].pc.on !in run[i].log.chans.closed
    ensures run[i].pubs[p].pc.on == run[i].log.changed
    ensures run[i].log.subs == map[] && !run[i].log.closed
  {
    RunInv(run, i);
  }

  lemma {:induction false} NeverTwice(ms: seq<Msg>, m: Msg)
    requires Ordered(ms)
    ensures multiset(ms)[m] <= 1
  {
    if ms != [] {
      var last := |ms| - 1;
      NeverTwice(ms[..last], m);
      assert ms == ms[..last] + [ms[last]];
      if ms[last] == m {
        assert forall i | 0 <= i < last :: ms[i] != m;
      }
    }
  }

  /** Fan-out in every reachable state: no queue ever took a record twice, each
      publisher's order is kept, a publish that returned nil was taken by some
      queue, and one that returned errPacketLogClosed by none. */
  lemma FanOut(run: seq<State>, i: nat, p: nat)
    requires IsRun(run) && i < |run| && p in run[i].pubs
    ensures forall c <- run[i].cons :: multiset(run[i].cons[c].enqueued)[MsgOf(p, run[i].pubs[p])] <= 1
    ensures forall c, a, b | c in run[i].cons && 0 <= a < b < |run[i].cons[c].enqueued|
              && run[i].cons[c].enqueued[a].pub == run[i].cons[c].enqueued[b].pub ::
              run[i].cons[c].enqueued[a].call < run[i].cons[c].enqueued[b].call
    ensures run[i].pubs[p].pc == Returned(Delivered) ==>
              exists c :: c in run[i].cons && MsgOf(p, run[i].pubs[p]) in run[i].cons[c].enqueued
    ensures run[i].pubs[p].pc == Returned(LogClosed) ==>
              forall c <- run[i].cons :: MsgOf(p, run[i].pubs[p]) !in run[i].cons[c].enqueued
  {
    RunInv(run, i);
    var s := run[i];
    forall c | c in s.cons
      ensures multiset(s.cons[c].enqueued)[MsgOf(p, s.pubs[p])] <= 1
      ensures s.pubs[p].pc == Returned(LogClosed) ==> MsgOf(p, s.pubs[p]) !in s.cons[c].enqueued
    {
      NeverTwice(s.cons[c].enqueued, MsgOf(p, s.pubs[p]));
      assert UpToDate(s.cons[c].enqueued, c, p, s.pubs[p]);
    }
    if s.pubs[p].pc == Returned(Delivered) {
      assert Taken(s, MsgOf(p, s.pubs[p]));
    }
  }

  /** What may happen to publisher `p` in one step: its call keeps its number,
      record and starting point, or a later one has begun. */
  ghost predicate CallGoesOn(s: State, s': State, p: nat) {
    p in s.pubs ==>
      && p in s'.pubs
      && s.pubs[p].call <= s'.pubs[p].call
      && (s'.pubs[p].call == s.pubs[p].call ==>
            s'.pubs[p].joined == s.pubs[p].joined && s'.pubs[p].kind == s.pubs[p].kind)
  }

  lemma CallKeptByPub(s: State, q: nat, step: PubStep, p: nat)
    requires PubEnabled(s, q, step)
    ensures CallGoesOn(s, PubApply(s, q, step), p)
  {}

  lemma CallKeptByNext(s: State, s': State, p: nat)
    requires Next(s, s')
    ensures CallGoesOn(s, s', p)
  {
    var step :| Enabled(s, step) && s' == Apply(s, step);
    match step
    case Pub(q, st) => CallKeptByPub(s, q, st, p);
    case Con(_, _) => assert s'.pubs == s.pubs;
    case Close(_, _) => assert s'.pubs == s.pubs;
  }

  lemma {:induction false} CallKept(run: seq<State>, i: nat, j: nat, p: nat)
    requires IsRun(run) && i <= j < |run|
    ensures CallGoesOn(run[i], run[j], p)
    decreases j
  {
    if i < j {
      CallKept(run, i, j - 1, p);
      assert StepAt(run, j);
      CallKeptByNext(run[j - 1], run[j], p);
    }
  }

  lemma IdsAreCounted(run: seq<State>, i: nat)
    requires IsRun(run) && i < |run|
    ensures forall c <- run[i].log.subs :: c < run[i].log.nextID
  {
    RunInv(run, i);
  }

  lemma DeliveredToAll(s: State, p: nat, c: nat)
    requires Inv(s) && p in s.pubs && s.pubs[p].pc == Returned(Delivered)
    requires c in s.log.subs && c < s.pubs[p].joined
    ensures c in s.cons && multiset(s.cons[c].enqueued)[MsgOf(p, s.pubs[p])] == 1
  {
    var m := MsgOf(p, s.pubs[p]);
    assert m in s.cons[c].enqueued;
    NeverTwice(s.cons[c].enqueued, m);
  }

  /** Exactly once: a publish begun in step i that has returned nil by step j
      put its record exactly once into the queue of every subscriber that was
      registered before it began and still is. */
  lemma ExactlyOnce(run: seq<State>, i: nat, j: nat, p: nat, kind: RecordKind, c: nat)
    requires IsRun(run) && i < j < |run|
    requires PubEnabled(run[i], p, CallPublish(kind)) && run[i + 1] == PubApply(run[i], p, CallPublish(kind))
    requires p in run[j].pubs && run[j].pubs[p].call == run[i + 1].pubs[p].call
    requires run[j].pubs[p].pc == Returned(Delivered)
    requires c in run[i].log.subs && c in run[j].log.subs
    ensures c in run[j].cons
    ensures multiset(run[j].cons[c].enqueued)[Msg(p, run[i + 1].pubs[p].call, kind)] == 1
  {
    IdsAreCounted(run, i);
    RunInv(run, j);
    CallKept(run, i + 1, j, p);
    DeliveredToAll(run[j], p, c);
  }

  /** Nothing enters a queue between `s` and `s'`, and nobody joins. */
  ghost predicate Frozen(s: State, s': State) {
    && s'.cons.Keys == s.cons.Keys
    && forall c <- s.cons :: s'.cons[c].enqueued == s.cons[c].enqueued
  }

  ghost predicate IsDrained(s: State, k: nat) {
    k in s.closers && s.closers[k].Drained?
  }

  lemma DrainedPub(s: State, p: nat, step: PubStep, k: nat)
    requires LockInv(s) && PubEnabled(s, p, step) && IsDrained(s, k)
    ensures IsDrained(PubApply(s, p, step), k) && Frozen(s, PubApply(s, p, step))
  {
    if step.Deliver? {
      SenderIsActive(s, p);
    }
  }

  lemma DrainedCon(s: State, c: nat, step: ConStep, k: nat)
    requires LockInv(s) && ConEnabled(s, c, step) && IsDrained(s, k)
    ensures IsDrained(ConApply(s, c, step), k) && Frozen(s, ConApply(s, c, step))
  {
    assert s.log.closed;
  }

  lemma DrainedNext(s: State, s': State, k: nat)
    requires LockInv(s) && Next(s, s') && IsDrained(s, k)
    ensures IsDrained(s', k) && Frozen(s, s')
  {
    var step :| Enabled(s, step) && s' == Apply(s, step);
    match step
    case Pub(p, st) => DrainedPub(s, p, st, k);
    case Con(c, st) => DrainedCon(s, c, st, k);
    case Close(_, _) =>
  }

  lemma FrozenAt(run: seq<State>, j: nat, k: nat)
    requires IsRun(run) && 0 < j < |run| && IsDrained(run[j - 1], k)
    ensures IsDrained(run[j], k) && Frozen(run[j - 1], run[j])
  {
    RunInv(run, j - 1);
    assert StepAt(run, j);
    DrainedNext(run[j - 1], run[j], k);
  }

  lemma {:induction false} FrozenAfterDrain(run: seq<State>, i: nat, j: nat, k: nat)
    requires IsRun(run) && i <= j < |run| && IsDrained(run[i], k)
    ensures IsDrained(run[j], k) && Frozen(run[i], run[j])
    decreases j
  {
    if i < j {
      FrozenAfterDrain(run, i, j - 1, k);
      FrozenAt(run, j, k);
    }
  }

  /** Lossless graceful drain: once the closing call has swept after its idle
      wait and returned nil, no queue ever takes another record, no subscriber
      joins, and every subscriber that left through its done channel handled
      exactly the records ever enqueued to it, in order, and sent exactly those
      of the kinds it asked for. */
  lemma LosslessDrain(run: seq<State>, i: nat, j: nat, k: nat)
    requires IsRun(run) && i <= j < |run| && IsDrained(run[i], k)
    ensures Frozen(run[i], run[j])
    ensures forall c <- run[j].cons | run[j].cons[c].pc == Left(true) || run[j].cons[c].pc == Gone(true) ::
      && run[j].cons[c].handled == run[j].cons[c].enqueued
      && SentAsAsked(run[j].cons[c].enqueued, run[j].cons[c].kinds, run[j].cons[c].sent)
  {
    FrozenAfterDrain(run, i, j, k);
    RunInv(run, j);
    assert !OverrunSweepHappened(run[j]);
    forall c | c in run[j].cons && (run[j].cons[c].pc == Left(true) || run[j].cons[c].pc == Gone(true))
      ensures run[j].cons[c].handled == run[j].cons[c].enqueued
      ensures SentAsAsked(run[j].cons[c].enqueued, run[j].cons[c].kinds, run[j].cons[c].sent)
    {
      assert ViaDone(run[j].cons[c].pc);
      assert BoxInv(run[j].cons[c]);
      var at := FilteredPicks(run[j].cons[c].enqueued, run[j].cons[c].kinds);
    }
  }

  ghost predicate SameKinds(s: State, s': State) {
    forall c <- s.cons :: c in s'.cons && s'.cons[c].kinds == s.cons[c].kinds
  }

  lemma KindsPub(s: State, p: nat, step: PubStep)
    requires PubEnabled(s, p, step)
    ensures SameKinds(s, PubApply(s, p, step))
  {}

  lemma KindsCon(s: State, c: nat, step: ConStep)
    requires ChanInv(s) && ConEnabled(s, c, step)
    ensures SameKinds(s, ConApply(s, c, step))
  {}

  lemma KindsNext(s: State, s': State)
    requires Next(s, s') && ChanInv(s)
    ensures SameKinds(s, s')
  {
    var step :| Enabled(s, step) && s' == Apply(s, step);
    match step
    case Pub(p, st) => KindsPub(s, p, st);
    case Con(c, st) => KindsCon(s, c, st);
    case Close(_, _) => assert s'.cons == s.cons;
  }

  /** A subscriber is registered with the kinds it asked for, and keeps them. */
  lemma {:induction false} KindsKept(run: seq<State>, i: nat, j: nat, kinds: seq<RecordKind>)
    requires IsRun(run) && i < j < |run| && !run[i].log.closed
    requires run[i + 1] == ConApply(run[i], 0, Subscribe(kinds))
    ensures var c := run[i].log.nextID;
      && c in run[i + 1].log.subs && c in run[j].cons && run[j].cons[c].kinds == kinds
    decreases j
  {
    if i + 1 < j {
      KindsKept(run, i, j - 1, kinds);
      RunInv(run, j - 1);
      assert StepAt(run, j);
      KindsNext(run[j - 1], run[j]);
    }
  }

  function Last(run: seq<State>): State
    requires run != []
  {
    run[|run| - 1]
  }

  lemma Extend(run: seq<State>, step: Step) returns (run': seq<State>)
    requires IsRun(run) && Enabled(Last(run), step)
    ensures IsRun(run') && |run'| == |run| + 1 && run <= run' && Last(run') == Apply(Last(run), step)
  {
    run' := run + [Apply(Last(run), step)];
    forall i | 0 < i < |run'|
      ensures StepAt(run', i)
    {
      assert i < |run| ==> StepAt(run, i);
    }
  }

  /** A close that times out gives no such guarantee: the select of a publisher
      still sending may pick the queue of a subscriber that has already left,
      and publish then returns nil for a record nobody handles. */
  lemma TimedOutCloseLosesRecord() returns (run: seq<State>)
    ensures IsRun(run) && LosesRecord(Last(run))
    ensures 0 in Last(run).closers && Last(run).closers[0] == TimedOut
  {
    run := StartSending();
    run := CloseEarly(run);
    run := LoseRecord(run);
    run := Extend(run, Close(0, ReturnTimedOut));
  }

  /** Nor does a close that finds the log closed already and returns nil: another
      close may be under way and time out, and the record is lost afterwards. */
  lemma RefusedCloseLosesRecord() returns (run: seq<State>, i: nat)
    ensures IsRun(run) && LosesRecord(Last(run))
    ensures i < |run| && 1 in run[i].closers && run[i].closers[1] == Refused
    ensures 0 in run[i].cons && run[i].cons[0].enqueued == []
  {
    run := StartSending();
    run := CloseEarly(run);
    run := Extend(run, Close(1, CallClose));
    i := |run| - 1;
    run := LoseRecord(run);
  }

  /** Publisher 0's record was delivered, and consumer 0, which has left through its
      done channel, has not handled it. */
  predicate LosesRecord(s: State) {
    && 0 in s.pubs && s.pubs[0].pc == Returned(Delivered)
    && 0 in s.cons && s.cons[0].pc == Left(true)
    && s.cons[0].enqueued == [MsgOf(0, s.pubs[0])] && s.cons[0].handled == []
  }

  lemma StartSending() returns (run: seq<State>)
    ensures IsRun(run)
    ensures Last(run).closers == map[] && Last(run).log.subs == map[0 := 2] && !Last(run).log.closed
    ensures Last(run).log.active == 1
    ensures Last(run).pubs == map[0 := Publisher(0, WireFrame, 1, Sending([0], 0))]
    ensures Last(run).cons == map[0 := Consumer(2, [], [], [], [], [], Looping)]
  {
    run := [INIT];
    run := Extend(run, Con(0, Subscribe([])));
    run := Extend(run, Pub(0, CallPublish(WireFrame)));
    run := Extend(run, Pub(0, Poll));
    run := Extend(run, Pub(0, Enter([0])));
  }

  /** ... in which the log is closed and swept while publisher 0 still has
      consumer 0 to serve. */
  lemma CloseEarly(run0: seq<State>) returns (run: seq<State>)
    requires IsRun(run0)
    requires Last(run0).closers == map[] && Last(run0).log.subs == map[0 := 2] && !Last(run0).log.closed
    requires Last(run0).log.active == 1
    ensures IsRun(run)
    ensures Last(run).pubs == Last(run0).pubs && Last(run).cons == Last(run0).cons
    ensures 2 in Last(run).log.chans.closed
    ensures Last(run).log.closed && Last(run).log.active == Last(run0).log.active == 1
    ensures Last(run).closers == map[0 := OverrunSwept(Last(run).log.idle)]
  {
    run := Extend(run0, Close(0, CallClose));
    run := Extend(run, Close(0, TimeOut));
    assert Last(run).log.subs[0] in Last(run).log.subs.Values;
    run := Extend(run, Close(0, Sweep));
  }

  lemma LoseRecord(run0: seq<State>) returns (run: seq<State>)
    requires IsRun(run0)
    requires Last(run0).pubs == map[0 := Publisher(0, WireFrame, 1, Sending([0], 0))]
    requires Last(run0).cons == map[0 := Consumer(2, [], [], [], [], [], Looping)]
    requires 2 in Last(run0).log.chans.closed && Last(run0).log.active == 1
    ensures IsRun(run) && run0 <= run && LosesRecord(Last(run)) && Last(run).closers == Last(run0).closers
    ensures Last(run).log.closed == Last(run0).log.closed && Last(run0).log.idle in Last(run).log.chans.closed
  {
    run := Extend(run0, Con(0, SeeDone));
    run := Extend(run, Con(0, DrainEmpty));
    run := Extend(run, Pub(0, Deliver));
    run := Extend(run, Pub(0, Finish(false)));
  }
}
