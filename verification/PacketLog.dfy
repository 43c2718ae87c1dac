/** The hub's packetLog (pkg/hub/packets.go): the part of its state guarded by
    its mutex, one function for each lock region, and the class whose methods
    run those regions in place. What the regions guarantee together, under any
    interleaving, is proved in PacketProtocol. */
module PacketLogs {
  import opened Channels

  /** The fields of packetLog. A subscriber is its `done` channel; its record
      channel, which is used outside the lock, belongs to PacketProtocol. */
  datatype Log = Log(
    subs: map<nat, Chan>,
    nextID: nat,
    closed: bool,
    changed: Chan,
    active: int,
    idle: Chan,
    chans: Chans)
  {
    function Notify(): Log {
      this.(changed := chans.next, chans := chans.Close(changed).Make())
    }

    function Subscribe(): Log {
      this.(subs := subs[nextID := chans.next], nextID := nextID + 1, chans := chans.Make()).Notify()
    }

    function Unsubscribe(id: nat): Log {
      if id in subs then
        this.(subs := subs - {id}, chans := chans.Close(subs[id])).Notify()
      else
        this
    }

    /** A publisher enters: the first one in replaces the closed idle channel. */
    function Enter(): Log {
      if active == 0 then
        this.(active := 1, idle := chans.next, chans := chans.Make())
      else
        this.(active := active + 1)
    }

    function FinishPublish(): Log {
      var l := this.(active := active - 1);
      if l.active == 0 then l.(chans := chans.Close(idle)) else l
    }

    function BeginClose(): Log {
      this.(closed := true).Notify()
    }

    function CloseSubscribers(): Log {
      this.(subs := map[], chans := chans.CloseAll(subs.Values)).Notify()
    }
  }

  function NewLog(): Log {
    Log(map[], 0, false, 1, 0, 0, Chans(2, {0}, false))
  }

  /** The channel discipline of the guarded state. */
  ghost predicate Disciplined(l: Log) {
    && !l.chans.panicked
    && (forall c <- l.chans.closed :: c < l.chans.next)
    && l.changed < l.chans.next && l.changed !in l.chans.closed
    && l.idle < l.chans.next && l.idle != l.changed
    && 0 <= l.active && (l.idle in l.chans.closed <==> l.active == 0)
    && (forall id <- l.subs ::
          && id < l.nextID
          && l.subs[id] < l.chans.next
          && l.subs[id] !in l.chans.closed
          && l.subs[id] != l.changed
          && l.subs[id] != l.idle)
    && (forall id, id' | id in l.subs && id' in l.subs && l.subs[id] == l.subs[id'] :: id == id')
  }

  lemma NewLogDisciplined()
    ensures Disciplined(NewLog())
  {}

  lemma SubscribeDisciplined(l: Log)
    requires Disciplined(l)
    ensures Disciplined(l.Subscribe())
  {}

  lemma UnsubscribeDisciplined(l: Log, id: nat)
    requires Disciplined(l)
    ensures Disciplined(l.Unsubscribe(id))
  {}

  lemma EnterDisciplined(l: Log)
    requires Disciplined(l)
    ensures Disciplined(l.Enter())
  {}

  lemma FinishPublishDisciplined(l: Log)
    requires Disciplined(l) && l.active > 0
    ensures Disciplined(l.FinishPublish())
  {}

  lemma BeginCloseDisciplined(l: Log)
    requires Disciplined(l)
    ensures Disciplined(l.BeginClose())
  {}

  lemma CloseSubscribersDisciplined(l: Log)
    requires Disciplined(l)
    ensures Disciplined(l.CloseSubscribers())
  {}

  datatype Poll = PollClosed | PollReady | PollWait(on: Chan)

  class PacketLog {
    var subs: map<nat, Chan>
    var nextID: nat
    var closed: bool
    var changed: Chan
    var active: int
    var idle: Chan
    var chans: Chans

    ghost function View(): Log
      reads this
    {
      Log(subs, nextID, closed, changed, active, idle, chans)
    }

    ghost predicate Valid()
      reads this
    {
      Disciplined(View())
    }

    constructor ()
      ensures Valid() && View() == NewLog()
      ensures subs == map[] && !closed && active == 0 && idle in chans.closed && changed !in chans.closed
    {
      var table := Chans(0, {}, false);
      idle := table.next;
      table := table.Make();
      table := table.Close(0);
      subs, nextID, closed, active := map[], 0, false, 0;
      changed := table.next;
      chans := table.Make();
    }

    /** Closing a channel; the caller must hold one that is still open. */
    method CloseChan(c: Chan)
      requires c !in chans.closed
      modifies this`chans
      ensures chans == old(chans).Close(c) && chans.panicked == old(chans.panicked)
    {
      chans := chans.Close(c);
    }

    method MakeChan() returns (c: Chan)
      modifies this`chans
      ensures c == old(chans.next) && chans == old(chans).Make()
    {
      c := chans.next;
      chans := chans.Make();
    }

    method NotifyLocked()
      requires changed !in chans.closed
      modifies this`chans, this`changed
      ensures View() == old(View()).Notify()
      ensures old(changed) in chans.closed && chans.panicked == old(chans.panicked)
      ensures old(changed < chans.next && forall c <- chans.closed :: c < chans.next) ==> changed !in chans.closed
    {
      CloseChan(changed);
      changed := MakeChan();
    }

    /** The lock region of waitForSubscriber. */
    method PollSubscriber() returns (p: Poll)
      ensures p.PollClosed? <==> closed
      ensures p.PollReady? <==> !closed && |subs| > 0
      ensures p.PollWait? ==> p.on == changed
    {
      if closed {
        return PollClosed;
      }
      if |subs| > 0 {
        return PollReady;
      }
      return PollWait(changed);
    }

    /** The first lock region of publish: None when the log is closed, else the
        subscribers to send to, in some order. */
    method EnterPublish() returns (ok: bool, targets: seq<nat>)
      requires Valid()
      modifies this
      ensures Valid()
      ensures ok == !old(closed)
      ensures View() == if ok then old(View()).Enter() else old(View())
      ensures ok ==> Lists(targets, old(subs).Keys)
      ensures ok ==> active == old(active) + 1 && idle !in chans.closed && (old(active) > 0 ==> idle == old(idle))
      ensures subs == old(subs) && closed == old(closed)
    {
      targets := [];
      if closed {
        return false, targets;
      }
      var rest := subs.Keys;
      while rest != {}
        invariant rest <= subs.Keys
        invariant Lists(targets, subs.Keys - rest)
        decreases rest
      {
        var id :| id in rest;
        targets, rest := targets + [id], rest - {id};
      }
      assert subs.Keys - rest == subs.Keys;
      if active == 0 {
        idle := MakeChan();
      }
      active := active + 1;
      EnterDisciplined(old(View()));
      return true, targets;
    }

    method FinishPublish()
      requires Valid() && active > 0
      modifies this
      ensures Valid() && View() == old(View()).FinishPublish()
      ensures active == old(active) - 1 && idle == old(idle) && (idle in chans.closed <==> active == 0)
    {
      FinishPublishDisciplined(View());
      active := active - 1;
      if active == 0 {
        CloseChan(idle);
      }
    }

    method Subscribe() returns (ok: bool, id: nat)
      requires Valid()
      modifies this
      ensures Valid()
      ensures ok == !old(closed) && (ok ==> id == old(nextID))
      ensures View() == if ok then old(View()).Subscribe() else old(View())
      ensures ok ==> id !in old(subs) && id in subs && subs == old(subs)[id := subs[id]]
                     && subs[id] >= old(chans).next && subs[id] !in chans.closed && old(changed) in chans.closed
    {
      if closed {
        return false, 0;
      }
      SubscribeDisciplined(View());
      var done := MakeChan();
      id := nextID;
      nextID := nextID + 1;
      subs := subs[id := done];
      NotifyLocked();
      ok := true;
    }

    method Unsubscribe(id: nat)
      requires Valid()
      modifies this
      ensures Valid() && View() == old(View()).Unsubscribe(id)
      ensures subs == old(subs) - {id}
      ensures id in old(subs) ==> old(subs)[id] in chans.closed && old(changed) in chans.closed
    {
      UnsubscribeDisciplined(View(), id);
      if id in subs {
        var done := subs[id];
        subs := subs - {id};
        CloseChan(done);
        NotifyLocked();
      }
    }

    /** The first lock region of close: whether this call is the one that
        closed the log, and the idle channel it must then wait for. */
    method BeginClose() returns (won: bool, on: Chan)
      requires Valid()
      modifies this
      ensures Valid()
      ensures won == !old(closed) && on == old(idle)
      ensures View() == if won then old(View()).BeginClose() else old(View())
      ensures closed && subs == old(subs) && (won ==> old(changed) in chans.closed)
    {
      on := idle;
      if closed {
        return false, on;
      }
      BeginCloseDisciplined(View());
      closed := true;
      NotifyLocked();
      won := true;
    }

    method CloseSubscribers()
      requires Valid()
      modifies this
      ensures Valid() && View() == old(View()).CloseSubscribers()
      ensures subs == map[] && old(subs).Values <= chans.closed && old(changed) in chans.closed
    {
      ghost var before, swept: set<Chan> := View(), {};
      SweepNone(before);
      while subs.Keys != {}
        invariant SweptSoFar(before, View(), swept)
        decreases subs.Keys
      {
        var id :| id in subs.Keys;
        swept := CloseOne(id, before, swept);
      }
      SweepAll(before, View(), swept);
      NotifyLocked();
    }

    /** The body of the loop of closeSubscribers. */
    method CloseOne(id: nat, ghost before: Log, ghost swept: set<Chan>) returns (ghost swept': set<Chan>)
      requires id in subs && SweptSoFar(before, View(), swept)
      modifies this
      ensures SweptSoFar(before, View(), swept') && subs == old(subs) - {id}
    {
      SweepOne(before, View(), swept, id);
      swept' := swept + {subs[id]};
      var done := subs[id];
      subs := subs - {id};
      CloseChan(done);
    }
  }

  /** `l` is `before` after closing and forgetting the subscribers whose done
      channels are `swept`. */
  ghost predicate SweptSoFar(before: Log, l: Log, swept: set<Chan>) {
    && Disciplined(before)
    && l == before.(subs := l.subs, chans := before.chans.CloseAll(swept))
    && (forall id <- l.subs :: id in before.subs && l.subs[id] == before.subs[id] && l.subs[id] !in swept)
    && (forall id <- before.subs :: id in l.subs || before.subs[id] in swept)
    && swept <= before.subs.Values
    && !l.chans.panicked
  }

  lemma SweepNone(before: Log)
    requires Disciplined(before)
    ensures SweptSoFar(before, before, {})
  {
    assert before.chans.closed + {} == before.chans.closed;
  }

  lemma SweepAll(before: Log, l: Log, swept: set<Chan>)
    requires SweptSoFar(before, l, swept) && l.subs.Keys == {}
    ensures l.Notify() == before.CloseSubscribers() && l.changed !in l.chans.closed
    ensures Disciplined(l.Notify())
  {
    assert swept == before.subs.Values;
    assert l.subs == map[];
    CloseSubscribersDisciplined(before);
  }

  lemma SweepOne(before: Log, l: Log, swept: set<Chan>, id: nat)
    requires SweptSoFar(before, l, swept) && id in l.subs
    ensures l.subs[id] !in l.chans.closed
    ensures SweptSoFar(before, l.(subs := l.subs - {id}, chans := l.chans.Close(l.subs[id])), swept + {l.subs[id]})
  {
    var done := l.subs[id];
    assert done in before.subs.Values;
    assert done !in before.chans.closed;
    assert before.chans.closed + swept + {done} == before.chans.closed + (swept + {done});
    assert before.chans.closed * (swept + {done}) == {};
  }
}
