/** The Decider, the reconnect timeout scheduler and the message handlers as objects over
    one cached log. */
module StatusHandlers {
  import opened Events
  import EventLog
  import opened StatusMessages
  import opened StatusSync

  /** The cache is dense and its next clock is its length plus one. */
  ghost predicate LogReady(log: EventLog.CachingDecorator)
    reads log, log.decorated
  {
    EventLog.Dense(log.events) && log.decorated.cursor == |log.events|
  }

  method AppendTo(log: EventLog.CachingDecorator, accountId: string, at: int, data: Data)
    requires LogReady(log)
    modifies log, log.decorated, log.decorated.disk
    ensures LogReady(log)
    ensures log.events == old(log.events) + [Event(|old(log.events)| + 1, accountId, at, data)]
  {
    var _ := log.Append(accountId, at, data);
  }

  class Decider {
    const log: EventLog.CachingDecorator
    var cursor: nat
    var connectedKeySet: set<string>
    var disconnectedKeySet: set<string>

    ghost predicate Known(key: string, events: seq<Event>)
      reads this
    {
      && (key in connectedKeySet <==> CountConnects(events, key) > 0)
      && (key in disconnectedKeySet <==> CountDisconnects(events, key) > 0)
    }

    /** The key sets are those of the log up to the cursor. */
    ghost predicate Valid()
      reads this, log, log.decorated
    {
      && LogReady(log) && cursor <= |log.events|
      && forall key :: Known(key, log.events[..cursor])
    }

    constructor (log: EventLog.CachingDecorator)
      requires LogReady(log)
      ensures Valid() && this.log == log
    {
      this.log, cursor := log, 0;
      connectedKeySet, disconnectedKeySet := {}, {};
      new;
      forall key ensures Known(key, log.events[..cursor]) {}
    }

    method Apply(e: Event, ghost before: seq<Event>)
      requires forall key :: Known(key, before)
      modifies this
      ensures forall key :: Known(key, before + [e])
      ensures cursor == if e.data.ClientConnected? || e.data.ClientDisconnected? then e.clock else old(cursor)
      requires e.clock >= 0
    {
      ghost var (connected, disconnected) := (connectedKeySet, disconnectedKeySet);
      match e.data {
        case ClientConnected(_, _, _) =>
          connectedKeySet := connectedKeySet + {GetKey(MessageOf(e))};
          cursor := e.clock;
        case ClientDisconnected(_, _, _, _, _) =>
          disconnectedKeySet := disconnectedKeySet + {GetKey(MessageOf(e))};
          cursor := e.clock;
        case _ =>
      }
      forall key ensures Known(key, before + [e]) {
        assert key in connected <==> CountConnects(before, key) > 0 by { assert old(Known(key, before)); }
        assert key in disconnected <==> CountDisconnects(before, key) > 0 by { assert old(Known(key, before)); }
        CountOneMore(before, e, key);
      }
    }

    /** Reads from the cursor on. Unrelated events at the end do not move the cursor and are
        read again the next time. */
    method CatchUp()
      requires Valid()
      modifies this
      ensures LogReady(log) && cursor <= |log.events|
      ensures forall key :: Known(key, log.events)
      ensures Valid()
    {
      var index := cursor;
      while index < |log.events|
        invariant cursor <= index <= |log.events|
        invariant forall key :: Known(key, log.events[..index])
        invariant forall k :: cursor <= k < index ==>
          !log.events[k].data.ClientConnected? && !log.events[k].data.ClientDisconnected?
      {
        assert log.events[..index + 1] == log.events[..index] + [log.events[index]];
        Apply(log.events[index], log.events[..index]);
        index := index + 1;
      }
      assert log.events[..index] == log.events;
      forall key ensures Known(key, log.events[..cursor]) {
        assert Known(key, log.events);
        NothingSince(log.events, cursor, |log.events|, key);
      }
    }

    method Put(m: Message, at: int) returns (duplicate: bool)
      requires Valid()
      modifies this, log, log.decorated, log.decorated.disk
      ensures Valid() && log.events == LogConnected(old(log.events), m, at)
      ensures duplicate <==> CountConnects(old(log.events), GetKey(m)) > 0
    {
      CatchUp();
      assert Known(GetKey(m), log.events);
      if GetKey(m) in connectedKeySet {
        return true;
      }
      AppendAfter(m.account, at, ClientConnected(m.client, m.connection, m.request));
      return false;
    }

    method Delete(m: Message, reason: string, at: int) returns (duplicate: bool)
      requires Valid()
      modifies this, log, log.decorated, log.decorated.disk
      ensures Valid() && log.events == LogDisconnected(old(log.events), m, reason, at)
      ensures duplicate <==> CountDisconnects(old(log.events), GetKey(m)) > 0
    {
      CatchUp();
      assert Known(GetKey(m), log.events);
      if GetKey(m) in disconnectedKeySet {
        return true;
      }
      AppendAfter(m.account, at, ClientDisconnected(m.client, m.connection, m.request, reason, 0));
      return false;
    }

    method AppendAfter(accountId: string, at: int, data: Data)
      requires Valid()
      modifies log, log.decorated, log.decorated.disk
      ensures Valid()
      ensures log.events == old(log.events) + [Event(|old(log.events)| + 1, accountId, at, data)]
    {
      ghost var known := log.events[..cursor];
      AppendTo(log, accountId, at, data);
      assert log.events[..cursor] == known;
    }
  }

  lemma {:induction false} NothingSince(log: seq<Event>, start: nat, end: nat, key: string)
    requires start <= end <= |log|
    requires forall k :: start <= k < end ==> !log[k].data.ClientConnected? && !log[k].data.ClientDisconnected?
    ensures CountConnects(log[..end], key) == CountConnects(log[..start], key)
    ensures CountDisconnects(log[..end], key) == CountDisconnects(log[..start], key)
    decreases end - start
  {
    if start < end {
      assert log[..end] == log[..end - 1] + [log[end - 1]];
      CountOneMore(log[..end - 1], log[end - 1], key);
      NothingSince(log, start, end - 1, key);
    }
  }

  class ReconnectTimeoutScheduler {
    const log: EventLog.CachingDecorator
    var timerByClientKey: map<ClientKey, Timer>
    var goroutines: seq<Goroutine>
    var finished: set<nat>
    ghost var notes: Notes

    ghost function Model(): Backend
      reads this, log
    {
      Backend(log.events, timerByClientKey, goroutines, finished, notes)
    }

    constructor (log: EventLog.CachingDecorator)
      ensures this.log == log && Model() == START.(log := log.events)
    {
      this.log := log;
      timerByClientKey, goroutines, finished, notes := map[], [], {}, Blank;
    }

    method CancelClient(key: ClientKey)
      modifies this
      ensures Model() == Step(old(Model()), Act.CancelClient(key))
    {
      if key in timerByClientKey {
        timerByClientKey := timerByClientKey - {key};
      }
      notes := Then(notes, Cancelled(key));
    }

    /** Replaces the client's timer, if it has one, and starts a goroutine for the new one. */
    method Schedule(key: ClientKey, timer: Timer)
      modifies this
      ensures Model() == Step(old(Model()), Act.Schedule(key, timer))
    {
      if key in timerByClientKey {
        timerByClientKey := timerByClientKey - {key};
      }
      timerByClientKey := timerByClientKey[key := timer];
      goroutines := goroutines + [Goroutine(key, timer)];
      notes := Then(notes, Scheduled(key, timer));
    }

    /** A goroutine whose wait is over, cancelled meanwhile or not. */
    method PublishReconnectTimeout(i: nat, at: int)
      requires LogReady(log) && i < |goroutines| && i !in finished
      modifies this, log, log.decorated, log.decorated.disk
      ensures LogReady(log) && Model() == Step(old(Model()), Fire(i, at))
    {
      var g := goroutines[i];
      finished := finished + {i};
      if g.key !in timerByClientKey || timerByClientKey[g.key].connection != g.timer.connection
         || timerByClientKey[g.key].request != g.timer.request {
        return;
      }
      timerByClientKey := timerByClientKey - {g.key};
      AppendTo(log, g.key.account, at, ReconnectTimeout(g.key.client, g.timer.connection, g.timer.request));
      notes := Then(notes, TimedOut(g.key, g.timer));
    }
  }

  lemma StepsOf(b: Backend, x: Act, y: Act)
    ensures Steps(b, [x]) == Step(b, x)
    ensures Steps(b, [x, y]) == Step(Step(b, x), y)
  {
    assert [x][..0] == [] && [x, y][..1] == [x];
  }

  /** A message that is not a duplicate cancels or schedules like one that is. */
  class StatusHandler {
    const decider: Decider
    const scheduler: ReconnectTimeoutScheduler

    constructor (decider: Decider, scheduler: ReconnectTimeoutScheduler)
      ensures this.decider == decider && this.scheduler == scheduler
    {
      this.decider, this.scheduler := decider, scheduler;
    }

    method HandleConnectedMessage(m: Message, at: int)
      requires decider.Valid() && decider.log == scheduler.log
      modifies decider, scheduler, decider.log, decider.log.decorated, decider.log.decorated.disk
      ensures decider.Valid()
      ensures scheduler.Model() == Steps(old(scheduler.Model()), HandleConnected(m, at))
    {
      StepsOf(scheduler.Model(), Act.CancelClient(KeyOf(m)), PutConnected(m, at));
      scheduler.CancelClient(KeyOf(m));
      var _ := decider.Put(m, at);
    }

    method HandleDisconnectedMessage(m: Message, reason: string, at: int)
      requires decider.Valid() && decider.log == scheduler.log
      modifies decider, scheduler, decider.log, decider.log.decorated, decider.log.decorated.disk
      ensures decider.Valid()
      ensures scheduler.Model() == Steps(old(scheduler.Model()), HandleDisconnected(m, reason, at))
    {
      var timer := Timer(m.connection, m.request);
      StepsOf(scheduler.Model(), PutDisconnected(m, reason, at), Act.Schedule(KeyOf(m), timer));
      assert HandleDisconnected(m, reason, at) == if reason == "clean" then [PutDisconnected(m, reason, at)]
        else [PutDisconnected(m, reason, at), Act.Schedule(KeyOf(m), timer)];
      var _ := decider.Delete(m, reason, at);
      if reason != "clean" {
        scheduler.Schedule(KeyOf(m), timer);
      }
    }

    method HandleAnnouncementMessage(account: string, client: string, session: Data, at: int)
      requires decider.Valid() && decider.log == scheduler.log && session.SessionStarted?
      modifies decider, scheduler, decider.log, decider.log.decorated, decider.log.decorated.disk
      ensures decider.Valid()
      ensures scheduler.Model() == Steps(old(scheduler.Model()), HandleAnnouncement(account, client, session, at))
    {
      StepsOf(scheduler.Model(), Act.CancelClient(ClientKey(account, client)), OtherAppend(account, at, session));
      scheduler.CancelClient(ClientKey(account, client));
      decider.AppendAfter(account, at, session);
    }
  }
}
