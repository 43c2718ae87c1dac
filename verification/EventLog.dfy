/** eventLog (pkg/hub/events.go): the state its mutex guards, one function for
    each lock region, and the class whose methods run the regions in place. */
module EventLogs {
  import opened Channels

  datatype Event = Event(session: string, message: string)

  /** A subscriber's channel goes by the subscriber's id; `shut` are the closed ones. */
  datatype Log = Log(events: seq<Event>, subs: set<nat>, nextID: nat, closed: bool, shut: set<nat>)
  {
    function Append(ev: Event): Log {
      this.(events := events + [ev])
    }

    function Subscribe(): Log {
      this.(subs := subs + {nextID}, nextID := nextID + 1)
    }

    /** The subscribers `ids` leave, and their channels are closed. */
    function Leave(ids: set<nat>): Log {
      this.(subs := subs - ids, shut := shut + ids)
    }

    function Unsubscribe(id: nat): Log {
      if id in subs then Leave({id}) else this
    }

    function Close(): Log {
      this.(closed := true, subs := {}, shut := shut + subs)
    }
  }

  const NEW_LOG := Log([], {}, 0, false, {})

  /** A channel is closed exactly when its subscriber has left. */
  ghost predicate LogOk(l: Log) {
    && l.subs !! l.shut
    && forall id: nat :: id in l.subs || id in l.shut <==> id < l.nextID
  }

  class EventLog {
    var events: seq<Event>
    var subs: set<nat>
    var nextID: nat
    var closed: bool
    var shut: set<nat>

    ghost function View(): Log
      reads this
    {
      Log(events, subs, nextID, closed, shut)
    }

    ghost predicate Valid()
      reads this
    {
      LogOk(View())
    }

    constructor ()
      ensures Valid() && View() == NEW_LOG
    {
      events, subs, nextID, closed, shut := [], {}, 0, false, {};
    }

    /** close(ch): a channel is closed at most once. */
    method CloseChan(id: nat)
      requires id !in shut
      modifies this`shut
      ensures shut == old(shut) + {id}
    {
      shut := shut + {id};
    }

    /** The lock region of append: where the event went, and to whom it must
        still be sent, in some order; None of it once the log is closed. */
    method BeginAppend(ev: Event) returns (ok: bool, at: nat, todo: seq<nat>)
      requires Valid()
      modifies this`events
      ensures Valid() && ok == !closed
      ensures View() == if ok then old(View()).Append(ev) else old(View())
      ensures ok ==> Lists(todo, subs) && at == |old(events)|
      ensures events == if ok then old(events) + [ev] else old(events)
    {
      at, todo := |events|, [];
      if closed {
        return false, at, todo;
      }
      events := events + [ev];
      var rest := subs;
      while rest != {}
        invariant rest <= subs
        invariant Lists(todo, subs - rest)
        decreases rest
      {
        var id :| id in rest;
        todo, rest := todo + [id], rest - {id};
      }
      assert subs - rest == subs;
      ok := true;
    }

    method SubscribeWithReplay() returns (id: nat, history: seq<Event>)
      requires Valid()
      modifies this`nextID, this`subs
      ensures Valid() && View() == old(View()).Subscribe()
      ensures id == old(nextID) && history == events && id !in old(subs) && subs == old(subs) + {id}
    {
      history := events;
      id := nextID;
      nextID := nextID + 1;
      subs := subs + {id};
    }

    method Unsubscribe(id: nat)
      requires Valid()
      modifies this`subs, this`shut
      ensures Valid() && View() == old(View()).Unsubscribe(id)
      ensures subs == old(subs) - {id} && shut == old(shut) + (if id in old(subs) then {id} else {})
    {
      if id in subs {
        subs := subs - {id};
        CloseChan(id);
      }
    }

    method Close()
      requires Valid()
      modifies this`closed, this`subs, this`shut
      ensures Valid() && View() == if old(closed) then old(View()) else old(View()).Close()
      ensures closed && (!old(closed) ==> subs == {} && shut == old(shut) + old(subs))
    {
      if closed {
        return;
      }
      closed := true;
      ghost var left: set<nat> := {};
      while subs != {}
        invariant closed && left !! subs && left + subs == old(subs)
        invariant shut == old(shut) + left
        decreases subs
      {
        var id :| id in subs;
        subs, left := subs - {id}, left + {id};
        CloseChan(id);
      }
      assert left == old(subs);
    }
  }
}

/** eventLog under concurrency: any number of appenders, which send outside the
    lock to the subscribers they found under it, and of subscribers that come
    and go. */
module EventProtocol {
  import opened Channels
  import opened EventLogs
  import opened Records

  const QUEUE_CAPACITY := 64

  /** `live` are the positions in the log of the events ever sent to the
      subscriber's channel; it has received the first `received` of them.
      `end` is the length of the log when the channel was closed. */
  datatype Subscriber = Subscriber(history: seq<Event>, live: seq<nat>, received: nat, end: Option<nat>)

  /** The position of the event being sent, and to whom still. */
  datatype Appender = Idle | Sending(at: nat, todo: seq<nat>)

  /** Sending on a closed channel panics, which ends the process. */
  datatype State = State(log: Log, subs: map<nat, Subscriber>, appenders: map<nat, Appender>, panicked: bool)

  const INIT := State(NEW_LOG, map[], map[], false)

  datatype Step =
    | Append(a: nat, ev: Event, order: seq<nat>)
    | Send(a: nat)
    | Return(a: nat)
    | Subscribe
    | Receive(c: nat)
    | Unsubscribe(c: nat)
    | Close

  predicate IsSending(s: State, a: nat) {
    a in s.appenders && s.appenders[a].Sending?
  }

  predicate Closed(s: State, c: nat) {
    c in s.subs && s.subs[c].end.Some?
  }

  ghost predicate Enabled(s: State, step: Step) {
    && !s.panicked
    && match step
       case Append(a, _, order) => !IsSending(s, a) && Lists(order, s.log.subs)
       case Send(a) =>
         && IsSending(s, a) && s.appenders[a].todo != [] && s.appenders[a].todo[0] in s.subs
         && var c := s.appenders[a].todo[0];
            Closed(s, c) || |s.subs[c].live| - s.subs[c].received < QUEUE_CAPACITY
       case Return(a) => IsSending(s, a) && s.appenders[a].todo == []
       case Subscribe => true
       case Receive(c) => c in s.subs && s.subs[c].received < |s.subs[c].live|
       case Unsubscribe(_) => true
       case Close => true
  }

  /** Subscribers `ids` have their channels closed. */
  function Shut(subs: map<nat, Subscriber>, ids: set<nat>, end: nat): map<nat, Subscriber> {
    map c | c in subs :: if c in ids then subs[c].(end := Some(end)) else subs[c]
  }

  function SendTo(s: State, a: nat): State
    requires IsSending(s, a) && s.appenders[a].todo != [] && s.appenders[a].todo[0] in s.subs
  {
    var Sending(at, todo) := s.appenders[a];
    var c := todo[0];
    if Closed(s, c) then s.(panicked := true)
    else
      s.(subs := s.subs[c := s.subs[c].(live := s.subs[c].live + [at])],
         appenders := s.appenders[a := Sending(at, todo[1..])])
  }

  ghost function Apply(s: State, step: Step): State
    requires Enabled(s, step)
  {
    match step
    case Append(a, ev, order) =>
      if s.log.closed then s
      else s.(log := s.log.Append(ev), appenders := s.appenders[a := Sending(|s.log.events|, order)])
    case Send(a) => SendTo(s, a)
    case Return(a) => s.(appenders := s.appenders[a := Idle])
    case Subscribe =>
      s.(log := s.log.Subscribe(), subs := s.subs[s.log.nextID := Subscriber(s.log.events, [], 0, None)])
    case Receive(c) => s.(subs := s.subs[c := s.subs[c].(received := s.subs[c].received + 1)])
    case Unsubscribe(c) =>
      s.(log := s.log.Unsubscribe(c), subs := Shut(s.subs, s.log.subs * {c}, |s.log.events|))
    case Close =>
      if s.log.closed then s
      else s.(log := s.log.Close(), subs := Shut(s.subs, s.log.subs, |s.log.events|))
  }

  ghost predicate Next(s: State, s': State) {
    exists step :: Enabled(s, step) && s' == Apply(s, step)
  }

  ghost predicate StepAt(run: seq<State>, i: nat)
    requires 0 < i < |run|
  {
    Next(run[i - 1], run[i])
  }

  ghost predicate IsRun(run: seq<State>) {
    && |run| > 0
    && run[0] == INIT
    && forall i | 0 < i < |run| :: StepAt(run, i)
  }

  // ---- The inductive invariant ----

  /** What was logged while the subscriber was subscribed ends here. */
  function Horizon(s: State, c: nat): nat
    requires c in s.subs
  {
    if s.subs[c].end.Some? then s.subs[c].end.value else |s.log.events|
  }

  ghost predicate IdInv(s: State) {
    && LogOk(s.log)
    && s.subs.Keys == s.log.subs + s.log.shut
    && forall c <- s.subs :: Closed(s, c) <==> c in s.log.shut
  }

  /** Appender `a` is still to send event `k` to subscriber `c`. */
  predicate Owes(s: State, a: nat, k: nat, c: nat) {
    IsSending(s, a) && s.appenders[a].at == k && c in s.appenders[a].todo
  }

  ghost predicate OwedOk(s: State, a: nat, c: nat)
    requires IsSending(s, a)
  {
    && c in s.subs
    && |s.subs[c].history| <= s.appenders[a].at < Horizon(s, c)
    && s.appenders[a].at !in s.subs[c].live
  }

  ghost predicate AppenderOk(s: State, a: nat)
    requires IsSending(s, a)
  {
    && s.appenders[a].at < |s.log.events|
    && NoRepeats(s.appenders[a].todo)
    && forall c <- s.appenders[a].todo :: c in s.subs && OwedOk(s, a, c)
  }

  ghost predicate SendInv(s: State) {
    && (forall a | IsSending(s, a) :: AppenderOk(s, a))
    && forall a, b | IsSending(s, a) && IsSending(s, b) && s.appenders[a].at == s.appenders[b].at :: a == b
  }

  /** History is a prefix of the log; live events come after it, none twice. */
  ghost predicate SubOk(sub: Subscriber, events: seq<Event>, horizon: nat) {
    && |sub.history| <= horizon <= |events|
    && sub.history == events[..|sub.history|]
    && (forall i | 0 <= i < |sub.live| :: |sub.history| <= sub.live[i] < horizon)
    && NoRepeats(sub.live)
    && sub.received <= |sub.live| <= sub.received + QUEUE_CAPACITY
  }

  ghost predicate Owed(s: State, k: nat, c: nat) {
    exists a :: Owes(s, a, k, c)
  }

  /** Nothing after the history is missing: it was sent, or will be. */
  ghost predicate Covered(s: State, c: nat)
    requires c in s.subs
  {
    forall k | |s.subs[c].history| <= k < Horizon(s, c) :: k in s.subs[c].live || Owed(s, k, c)
  }

  ghost predicate SubInv(s: State) {
    && (forall c <- s.subs :: SubOk(s.subs[c], s.log.events, Horizon(s, c)))
    && forall c <- s.subs :: Covered(s, c)
  }

  ghost predicate Inv(s: State) {
    IdInv(s) && SendInv(s) && SubInv(s)
  }

  lemma AppendInv(s: State, a: nat, ev: Event, order: seq<nat>)
    requires Inv(s) && Enabled(s, Append(a, ev, order)) && !s.log.closed
    ensures Inv(Apply(s, Append(a, ev, order)))
  {
    var s' := Apply(s, Append(a, ev, order));
    forall b | IsSending(s', b)
      ensures AppenderOk(s', b) && (b != a ==> IsSending(s, b) && s.appenders[b].at < |s.log.events|)
    {
      if b != a {
        assert AppenderOk(s, b);
      }
    }
    forall c | c in s.subs
      ensures SubOk(s'.subs[c], s'.log.events, Horizon(s', c)) && Covered(s', c)
    {
      assert SubOk(s.subs[c], s.log.events, Horizon(s, c)) && Covered(s, c);
      forall k | |s.subs[c].history| <= k < Horizon(s', c)
        ensures k in s.subs[c].live || Owed(s', k, c)
      {
        if k == |s.log.events| {
          assert Owes(s', a, k, c);
        } else if k !in s.subs[c].live {
          var b :| Owes(s, b, k, c);
          assert Owes(s', b, k, c);
        }
      }
    }
  }

  lemma SendKeeps(s: State, a: nat)
    requires Inv(s) && Enabled(s, Send(a)) && !Closed(s, s.appenders[a].todo[0])
    ensures IdInv(SendTo(s, a)) && SendInv(SendTo(s, a))
  {
    var s' := SendTo(s, a);
    assert AppenderOk(s, a);
    forall b | IsSending(s', b)
      ensures AppenderOk(s', b)
    {
      assert AppenderOk(s, b);
    }
  }

  lemma SendCovers(s: State, a: nat)
    requires Inv(s) && Enabled(s, Send(a)) && !Closed(s, s.appenders[a].todo[0])
    ensures SubInv(SendTo(s, a))
  {
    var s' := SendTo(s, a);
    var to, at := s.appenders[a].todo[0], s.appenders[a].at;
    assert AppenderOk(s, a) && OwedOk(s, a, to);
    forall c | c in s'.subs
      ensures SubOk(s'.subs[c], s'.log.events, Horizon(s', c)) && Covered(s', c)
    {
      assert SubOk(s.subs[c], s.log.events, Horizon(s, c)) && Covered(s, c);
      forall k | |s'.subs[c].history| <= k < Horizon(s', c)
        ensures k in s'.subs[c].live || Owed(s', k, c)
      {
        if k !in s.subs[c].live {
          var b :| Owes(s, b, k, c);
          if b == a && c == to {
            assert s'.subs[c].live[|s.subs[c].live|] == k;
          } else {
            assert Owes(s', b, k, c);
          }
        } else {
          var i :| 0 <= i < |s.subs[c].live| && s.subs[c].live[i] == k;
          assert s'.subs[c].live[i] == k;
        }
      }
    }
  }

  lemma ReturnInv(s: State, a: nat)
    requires Inv(s) && Enabled(s, Return(a))
    ensures Inv(Apply(s, Return(a)))
  {
    var s' := Apply(s, Return(a));
    forall b | IsSending(s', b)
      ensures AppenderOk(s', b)
    {
      assert AppenderOk(s, b);
    }
    StillCovered(s, s');
  }

  /** What was owed is owed still, and nothing else changed. */
  lemma StillCovered(s: State, s': State)
    requires SubInv(s) && s'.subs.Keys >= s.subs.Keys
    requires forall c <- s.subs :: s'.subs[c].history == s.subs[c].history && s'.subs[c].live == s.subs[c].live
    requires forall c <- s.subs :: Horizon(s', c) == Horizon(s, c)
    requires forall a, k, c | Owes(s, a, k, c) :: Owes(s', a, k, c)
    ensures forall c <- s.subs :: Covered(s', c)
  {
    forall c, k | c in s.subs && |s.subs[c].history| <= k < Horizon(s, c)
      ensures k in s'.subs[c].live || Owed(s', k, c)
    {
      assert Covered(s, c);
      if k !in s.subs[c].live {
        var a :| Owes(s, a, k, c);
        assert Owes(s', a, k, c);
      }
    }
  }

  lemma SubscribeInv(s: State)
    requires Inv(s) && Enabled(s, Subscribe)
    ensures Inv(Apply(s, Subscribe))
  {
    var s' := Apply(s, Subscribe);
    forall b | IsSending(s', b)
      ensures AppenderOk(s', b)
    {
      assert AppenderOk(s, b);
    }
    StillCovered(s, s');
  }

  lemma ReceiveInv(s: State, c: nat)
    requires Inv(s) && Enabled(s, Receive(c))
    ensures Inv(Apply(s, Receive(c)))
  {
    var s' := Apply(s, Receive(c));
    forall b | IsSending(s', b)
      ensures AppenderOk(s', b)
    {
      assert AppenderOk(s, b);
    }
    StillCovered(s, s');
  }

  lemma LeaveInv(s: State, ids: set<nat>, s': State)
    requires Inv(s) && ids <= s.log.subs
    requires s' == s.(log := s.log.Leave(ids).(closed := s'.log.closed), subs := Shut(s.subs, ids, |s.log.events|))
    ensures Inv(s')
  {
    assert s'.subs.Keys == s.subs.Keys;
    assert forall c <- s.subs :: Horizon(s', c) == Horizon(s, c);
    forall b | IsSending(s', b)
      ensures AppenderOk(s', b)
    {
      assert AppenderOk(s, b);
    }
    StillCovered(s, s');
  }

  lemma NextInv(s: State, s': State)
    requires Inv(s) && Next(s, s') && !s'.panicked
    ensures Inv(s')
  {
    var step :| Enabled(s, step) && s' == Apply(s, step);
    match step
    case Append(a, ev, order) =>
      if !s.log.closed {
        AppendInv(s, a, ev, order);
      }
    case Send(a) =>
      SendKeeps(s, a);
      SendCovers(s, a);
    case Return(a) => ReturnInv(s, a);
    case Subscribe => SubscribeInv(s);
    case Receive(c) => ReceiveInv(s, c);
    case Unsubscribe(c) =>
      assert s.log.subs * {c} == if c in s.log.subs then {c} else {};
      LeaveInv(s, s.log.subs * {c}, s');
    case Close =>
      if !s.log.closed {
        assert s.log.subs - s.log.subs == {};
        LeaveInv(s, s.log.subs, s');
      }
  }

  lemma {:induction false} RunInv(run: seq<State>, i: nat)
    requires IsRun(run) && i < |run| && !run[i].panicked
    ensures Inv(run[i])
  {
    if i > 0 {
      assert StepAt(run, i);
      RunInv(run, i - 1);
      NextInv(run[i - 1], run[i]);
    }
  }

  // ---- What every run guarantees ----

  /** Every event logged before the subscriber's channel was closed is in its
      history, or was sent to it once, or is owed to it by one appender: in
      exactly one of the three. */
  lemma ReplayOrLive(run: seq<State>, i: nat, c: nat, k: nat)
    requires IsRun(run) && i < |run| && !run[i].panicked && c in run[i].subs && k < Horizon(run[i], c)
    ensures var sub := run[i].subs[c];
      && sub.history <= run[i].log.events
      && (k < |sub.history| ==> k !in sub.live && !Owed(run[i], k, c))
      && (k >= |sub.history| ==> (k in sub.live <==> !Owed(run[i], k, c)))
      && multiset(sub.live)[k] <= 1
      && forall a, b | Owes(run[i], a, k, c) && Owes(run[i], b, k, c) :: a == b
    ensures c in run[i].log.subs ==> Horizon(run[i], c) == |run[i].log.events|
  {
    RunInv(run, i);
    var s := run[i];
    var sub := s.subs[c];
    assert SubOk(sub, s.log.events, Horizon(s, c)) && Covered(s, c);
    OnceInLive(sub.live, k);
    forall a | Owes(s, a, k, c)
      ensures k !in sub.live && k >= |sub.history|
    {
      assert AppenderOk(s, a) && OwedOk(s, a, c);
    }
  }

  lemma {:induction false} OnceInLive(live: seq<nat>, k: nat)
    requires NoRepeats(live)
    ensures multiset(live)[k] == if k in live then 1 else 0
  {
    if live != [] {
      var n := |live| - 1;
      OnceInLive(live[..n], k);
      assert live == live[..n] + [live[n]];
      assert live[n] == k ==> forall i | 0 <= i < n :: live[i] != k;
    }
  }

  lemma ClosedNext(s: State, s': State)
    requires Next(s, s') && s.log.closed
    ensures s'.log.closed && s'.log.events == s.log.events
  {
    var step :| Enabled(s, step) && s' == Apply(s, step);
  }

  /** A closed log takes no more events, whoever still appends. */
  lemma {:induction false} ClosedLogIsFixed(run: seq<State>, i: nat, j: nat)
    requires IsRun(run) && i <= j < |run| && run[i].log.closed
    ensures run[j].log.closed && run[j].log.events == run[i].log.events
    decreases j
  {
    if i < j {
      ClosedLogIsFixed(run, i, j - 1);
      assert StepAt(run, j);
      ClosedNext(run[j - 1], run[j]);
    }
  }

  predicate InOrder(sub: Subscriber) {
    forall i | 0 <= i < |sub.live| :: sub.live[i] == |sub.history| + i
  }

  ghost predicate AllInOrder(s: State) {
    forall c <- s.subs :: InOrder(s.subs[c])
  }

  /** Appender `a` is about to send to a subscriber who is owed an earlier event. */
  ghost predicate Overtakes(s: State, a: nat) {
    && IsSending(s, a) && s.appenders[a].todo != []
    && !Closed(s, s.appenders[a].todo[0])
    && exists k: nat :: k < s.appenders[a].at && Owed(s, k, s.appenders[a].todo[0])
  }

  lemma {:induction false} EndsBefore(live: seq<nat>, h: nat, n: nat)
    requires forall i | 0 <= i < |live| :: live[i] == h + i
    requires h <= n && n !in live
    ensures |live| <= n - h
  {
    if live != [] {
      EndsBefore(live[..|live| - 1], h, n);
      assert live[|live| - 1] != n;
    }
  }

  /** `live`, in order from `h`, has everything in [h, n) and not n: it ends at n. */
  lemma EndsAt(live: seq<nat>, h: nat, n: nat)
    requires forall i | 0 <= i < |live| :: live[i] == h + i
    requires h <= n && n !in live && forall k | h <= k < n :: k in live
    ensures |live| == n - h
  {
    EndsBefore(live, h, n);
    if h < n {
      assert n - 1 in live;
    }
  }

  /** A send keeps its subscriber's events in order exactly if it overtakes no
      event still owed to that subscriber. */
  lemma SendInOrderExactly(s: State, a: nat)
    requires Inv(s) && Enabled(s, Send(a)) && !Closed(s, s.appenders[a].todo[0])
    requires InOrder(s.subs[s.appenders[a].todo[0]])
    ensures InOrder(SendTo(s, a).subs[s.appenders[a].todo[0]]) <==> !Overtakes(s, a)
  {
    var Sending(at, todo) := s.appenders[a];
    var c := todo[0];
    var live, h := s.subs[c].live, |s.subs[c].history|;
    assert AppenderOk(s, a) && OwedOk(s, a, c) && Covered(s, c);
    if k: nat :| k < at && Owed(s, k, c) {
      var b :| Owes(s, b, k, c);
      assert AppenderOk(s, b) && OwedOk(s, b, c);
      EndsBefore(live, h, k);
      assert SendTo(s, a).subs[c].live[|live|] == at;
    } else {
      EndsAt(live, h, at);
    }
  }

  lemma OnlySendsAreLive(s: State, step: Step, c: nat)
    requires IdInv(s) && Enabled(s, step) && !step.Send? && c in Apply(s, step).subs
    ensures var sub' := Apply(s, step).subs[c];
      sub'.live == [] || (c in s.subs && sub'.live == s.subs[c].live && sub'.history == s.subs[c].history)
  {}

  /** No send overtakes. */
  ghost predicate IsOrderly(s: State, step: Step) {
    step.Send? ==> !Overtakes(s, step.a)
  }

  ghost predicate OrderlyNext(s: State, s': State) {
    exists step :: Enabled(s, step) && IsOrderly(s, step) && s' == Apply(s, step)
  }

  ghost predicate OrderlyStepAt(run: seq<State>, i: nat)
    requires 0 < i < |run|
  {
    OrderlyNext(run[i - 1], run[i])
  }

  /** A run in which no send overtakes. */
  ghost predicate IsOrderlyRun(run: seq<State>) {
    IsRun(run) && forall i | 0 < i < |run| :: OrderlyStepAt(run, i)
  }

  lemma OrderKept(s: State, step: Step)
    requires Inv(s) && AllInOrder(s) && Enabled(s, step)
    ensures IsOrderly(s, step) ==> AllInOrder(Apply(s, step))
    ensures AllInOrder(Apply(s, step)) ==> IsOrderly(s, step)
  {
    if step.Send? {
      if !Closed(s, s.appenders[step.a].todo[0]) {
        SendInOrderExactly(s, step.a);
      }
    } else {
      forall c | c in Apply(s, step).subs
        ensures InOrder(Apply(s, step).subs[c])
      {
        OnlySendsAreLive(s, step, c);
      }
    }
  }

  lemma OrderNext(s: State, s': State)
    requires Inv(s) && AllInOrder(s) && Next(s, s')
    ensures AllInOrder(s') <==> OrderlyNext(s, s')
  {
    if OrderlyNext(s, s') {
      var step :| Enabled(s, step) && IsOrderly(s, step) && s' == Apply(s, step);
      OrderKept(s, step);
    } else {
      var step :| Enabled(s, step) && s' == Apply(s, step);
      OrderKept(s, step);
    }
  }

  lemma OrderNextAt(run: seq<State>, i: nat)
    requires IsRun(run) && 0 < i < |run| && AllInOrder(run[i - 1])
    ensures AllInOrder(run[i]) <==> OrderlyStepAt(run, i)
  {
    assert StepAt(run, i);
    RunInv(run, i - 1);
    OrderNext(run[i - 1], run[i]);
  }

  lemma {:induction false} OrderlyRunInOrder(run: seq<State>, i: nat)
    requires IsOrderlyRun(run) && i < |run|
    ensures AllInOrder(run[i])
  {
    if i > 0 {
      OrderlyRunInOrder(run, i - 1);
      assert OrderlyStepAt(run, i);
      OrderNextAt(run, i);
    }
  }

  /** Every subscriber has its live events in order, all along, exactly in the
      runs without overtaking. */
  lemma InOrderExactly(run: seq<State>)
    requires IsRun(run)
    ensures (forall i | 0 <= i < |run| :: AllInOrder(run[i])) <==> IsOrderlyRun(run)
  {
    if IsOrderlyRun(run) {
      forall i | 0 <= i < |run|
        ensures AllInOrder(run[i])
      {
        OrderlyRunInOrder(run, i);
      }
    } else {
      var i :| 0 < i < |run| && !OrderlyStepAt(run, i);
      if AllInOrder(run[i - 1]) {
        OrderNextAt(run, i);
      }
    }
  }

  function EventsAt(events: seq<Event>, at: seq<nat>): seq<Event>
    requires forall i | 0 <= i < |at| :: at[i] < |events|
  {
    seq(|at|, i requires 0 <= i < |at| => events[at[i]])
  }

  /** Without overtaking, a subscriber to whom nothing is owed has had the log in
      order: first its history, then its live events. */
  lemma ReplayThenLive(run: seq<State>, i: nat, c: nat)
    requires IsOrderlyRun(run) && i < |run| && !run[i].panicked && c in run[i].subs
    requires forall k | 0 <= k < Horizon(run[i], c) :: !Owed(run[i], k, c)
    ensures Horizon(run[i], c) <= |run[i].log.events|
    ensures forall j | 0 <= j < |run[i].subs[c].live| :: run[i].subs[c].live[j] < |run[i].log.events|
    ensures run[i].subs[c].history + EventsAt(run[i].log.events, run[i].subs[c].live) ==
            run[i].log.events[..Horizon(run[i], c)]
  {
    RunInv(run, i);
    OrderlyRunInOrder(run, i);
    var s := run[i];
    var sub := s.subs[c];
    assert SubOk(sub, s.log.events, Horizon(s, c)) && Covered(s, c) && InOrder(sub);
    assert Horizon(s, c) !in sub.live;
    EndsAt(sub.live, |sub.history|, Horizon(s, c));
  }

  /** Nobody is sending while somebody else is. */
  ghost predicate Serial(s: State) {
    forall a, b | IsSending(s, a) && IsSending(s, b) :: a == b
  }

  lemma SerialIsOrderly(s: State, s': State)
    requires Serial(s) && Next(s, s')
    ensures OrderlyNext(s, s')
  {
    var step :| Enabled(s, step) && s' == Apply(s, step);
    assert IsOrderly(s, step);
  }

  /** Serialized appenders never overtake. */
  lemma SerialRunIsOrderly(run: seq<State>)
    requires IsRun(run) && forall i | 0 <= i < |run| :: Serial(run[i])
    ensures IsOrderlyRun(run)
  {
    forall i | 0 < i < |run|
      ensures OrderlyStepAt(run, i)
    {
      assert StepAt(run, i);
      SerialIsOrderly(run[i - 1], run[i]);
    }
  }

  /** A send panics exactly when its subscriber has left since the snapshot. */
  lemma SendPanics(run: seq<State>, i: nat, a: nat)
    requires IsRun(run) && i < |run| && Enabled(run[i], Send(a))
    ensures Apply(run[i], Send(a)).panicked <==> run[i].appenders[a].todo[0] !in run[i].log.subs
    ensures run[i].appenders[a].todo[0] in run[i].log.subs + run[i].log.shut
  {
    RunInv(run, i);
  }

  function Last(run: seq<State>): State
    requires run != []
  {
    run[|run| - 1]
  }

  lemma Extend(run: seq<State>, step: Step) returns (run': seq<State>)
    requires IsRun(run) && Enabled(Last(run), step)
    ensures IsRun(run') && run' == run + [Apply(Last(run), step)] && Last(run') == Apply(Last(run), step)
  {
    run' := run + [Apply(Last(run), step)];
    forall i | 0 < i < |run'|
      ensures StepAt(run', i)
    {
      assert i < |run| ==> StepAt(run, i);
    }
  }

  /** A subscriber who has left is still owed an event. */
  ghost predicate OwedToLeft(s: State) {
    exists a, k, c :: Owes(s, a, k, c) && Closed(s, c)
  }

  lemma NoneOwedNext(s: State, s': State)
    requires Inv(s) && Next(s, s')
    ensures s.log.shut <= s'.log.shut
    ensures s'.log.shut == s.log.shut && !OwedToLeft(s) ==> !OwedToLeft(s') && !s'.panicked
  {
    var step :| Enabled(s, step) && s' == Apply(s, step);
    forall a, k, c | Owes(s', a, k, c) && Closed(s', c) && s'.log.shut == s.log.shut
      ensures Owes(s, a, k, c) && Closed(s, c)
    {
      assert c in s.log.shut <==> Closed(s, c);
    }
    if step.Send? {
      assert Owes(s, step.a, s.appenders[step.a].at, s.appenders[step.a].todo[0]);
    }
  }

  lemma {:induction false} NoneOwedUpTo(run: seq<State>, n: nat, i: nat)
    requires IsRun(run) && n <= i < |run| && !run[n].panicked && !OwedToLeft(run[n])
    ensures run[n].log.shut <= run[i].log.shut
    ensures run[i].log.shut == run[n].log.shut ==> !OwedToLeft(run[i]) && !run[i].panicked
  {
    if n < i {
      NoneOwedUpTo(run, n, i - 1);
      assert StepAt(run, i);
      if !run[i - 1].panicked {
        RunInv(run, i - 1);
        NoneOwedNext(run[i - 1], run[i]);
      }
    }
  }

  /** Serving the subscribers before it, the appender comes to the one who has left. */
  lemma {:induction false} SendsOn(run: seq<State>, a: nat, c: nat) returns (run': seq<State>)
    requires IsRun(run) && !Last(run).panicked && Closed(Last(run), c)
    requires IsSending(Last(run), a) && c in Last(run).appenders[a].todo
    ensures IsRun(run') && run <= run' && Last(run').panicked && Last(run').log == Last(run).log
    decreases |Last(run).appenders[a].todo|
  {
    var s := Last(run);
    var to := s.appenders[a].todo[0];
    RunInv(run, |run| - 1);
    assert AppenderOk(s, a) && to in s.subs && SubOk(s.subs[to], s.log.events, Horizon(s, to));
    run' := run;
    if !Closed(s, to) && !Enabled(s, Send(a)) {
      run' := Extend(run', Receive(to));
    }
    run' := Extend(run', Send(a));
    if !Closed(s, to) {
      run' := SendsOn(run', a, c);
    }
  }

  /** While no further channel is closed, a panic lies ahead exactly if a subscriber
      who has left is still owed an event. */
  lemma PanicsExactly(run: seq<State>)
    requires IsRun(run) && !Last(run).panicked
    ensures OwedToLeft(Last(run)) <==>
      exists run' :: IsRun(run') && run <= run' && Last(run').panicked && Last(run').log.shut == Last(run).log.shut
  {
    if OwedToLeft(Last(run)) {
      var a, k, c :| Owes(Last(run), a, k, c) && Closed(Last(run), c);
      var run' := SendsOn(run, a, c);
    } else {
      forall run' | IsRun(run') && run <= run' && Last(run').log.shut == Last(run).log.shut
        ensures !Last(run').panicked
      {
        NoneOwedUpTo(run', |run| - 1, |run'| - 1);
      }
    }
  }

  /** ... which an unsubscribe in that window brings about. */
  lemma UnsubscribeInTheWindow(ev: Event) returns (run: seq<State>)
    ensures IsRun(run) && Last(run).panicked
  {
    run := Extend([INIT], Subscribe);
    run := Extend(run, Append(0, ev, [0]));
    run := Extend(run, Unsubscribe(0));
    run := Extend(run, Send(0));
  }

  /** Appenders that overlap may reach a subscriber out of order. */
  lemma OverlapReorders(first: Event, second: Event) returns (run: seq<State>)
    ensures IsRun(run) && !Last(run).panicked
    ensures Last(run).log.events == [first, second]
    ensures 0 in Last(run).subs && Last(run).subs[0].history == [] && Last(run).subs[0].live == [1, 0]
  {
    run := Extend([INIT], Subscribe);
    run := Extend(run, Append(0, first, [0]));
    run := Extend(run, Append(1, second, [0]));
    run := Extend(run, Send(1));
    run := Extend(run, Send(0));
  }

  /** ... or a close. */
  lemma CloseInTheWindow(ev: Event) returns (run: seq<State>)
    ensures IsRun(run) && Last(run).panicked
  {
    run := Extend([INIT], Subscribe);
    run := Extend(run, Append(0, ev, [0]));
    run := Extend(run, Close);
    run := Extend(run, Send(0));
  }

  /** An append none of whose subscribers has left can return, all of them served. */
  lemma {:induction false} AppendCanReturn(run: seq<State>, a: nat) returns (run': seq<State>)
    requires IsRun(run) && !Last(run).panicked && IsSending(Last(run), a)
    requires forall c <- Last(run).appenders[a].todo :: !Closed(Last(run), c)
    ensures IsRun(run') && run <= run' && !Last(run').panicked
    ensures a in Last(run').appenders && Last(run').appenders[a].Idle?
    ensures forall c <- Last(run).subs :: c in Last(run').subs && Last(run).subs[c].live <= Last(run').subs[c].live
    ensures forall c <- Last(run).appenders[a].todo ::
      c in Last(run').subs && Last(run).appenders[a].at in Last(run').subs[c].live
    decreases |Last(run).appenders[a].todo|
  {
    var s := Last(run);
    RunInv(run, |run| - 1);
    assert AppenderOk(s, a);
    if s.appenders[a].todo == [] {
      run' := Extend(run, Return(a));
    } else {
      run' := SendsOne(run, a);
      run' := AppendCanReturn(run', a);
    }
  }

  /** It serves the subscriber at the head of its list, perhaps after that has received. */
  lemma SendsOne(run: seq<State>, a: nat) returns (run': seq<State>)
    requires IsRun(run) && !Last(run).panicked && IsSending(Last(run), a) && Last(run).appenders[a].todo != []
    requires !Closed(Last(run), Last(run).appenders[a].todo[0])
    ensures IsRun(run') && run <= run' && !Last(run').panicked
    ensures var Sending(at, todo) := Last(run).appenders[a];
      Last(run').appenders == Last(run).appenders[a := Sending(at, todo[1..])]
    ensures forall c <- Last(run).subs :: c in Last(run').subs && Last(run).subs[c].live <= Last(run').subs[c].live
    ensures forall c <- Last(run).subs :: Closed(Last(run'), c) <==> Closed(Last(run), c)
    ensures var to := Last(run).appenders[a].todo[0];
      to in Last(run').subs && Last(run).appenders[a].at in Last(run').subs[to].live
  {
    var s := Last(run);
    var to := s.appenders[a].todo[0];
    RunInv(run, |run| - 1);
    assert AppenderOk(s, a) && SubOk(s.subs[to], s.log.events, Horizon(s, to));
    run' := run;
    if !Enabled(s, Send(a)) {
      run' := Extend(run', Receive(to));
    }
    run' := Extend(run', Send(a));
    assert Last(run').subs[to].live[|s.subs[to].live|] == s.appenders[a].at;
  }
}
