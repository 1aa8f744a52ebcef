/** UsageStats as an object: the maps it changes in place, the loops that search its queues,
    and the catch-up that feeds it the log. */
module UsageStats {
  import opened Options
  import opened Events
  import opened DroppedQueues
  import opened Sums
  import opened UsageLedger
  import opened UsageTables

  /** The trace is of the first events of the log. */
  ghost predicate Traces(trace: seq<Visit>, log: seq<Event>) {
    |trace| <= |log| && forall i :: 0 <= i < |trace| ==> trace[i].event == log[i]
  }

  ghost predicate VisitedAllAt(trace: seq<Visit>, i: nat)
    requires i < |trace|
  {
    trace[i].event.data.ServerStarted? ==> VisitsAll(RunTables(trace[..i]), trace[i].order)
  }

  ghost predicate VisitedAll(trace: seq<Visit>) {
    forall i :: 0 <= i < |trace| ==> VisitedAllAt(trace, i)
  }

  lemma OneMoreVisit(trace: seq<Visit>, v: Visit)
    requires VisitedAll(trace) && (v.event.data.ServerStarted? ==> VisitsAll(RunTables(trace), v.order))
    ensures VisitedAll(trace + [v])
    ensures RunTables(trace + [v]) == ApplyTables(RunTables(trace), v.event, v.order)
  {
    var longer := trace + [v];
    assert longer[..|trace|] == trace;
    forall i | 0 <= i < |longer| ensures VisitedAllAt(longer, i) {
      if i < |trace| {
        assert VisitedAllAt(trace, i);
        assert longer[..i] == trace[..i];
      }
    }
  }

  class UsageStats {
    var cursor: nat
    var sessionInfoById: map<string, Info>
    var sessionInfoByConnectionId: map<string, Info>
    var disconnectedSessionById: map<string, Span>
    var disconnectedSessionByConnectionId: map<string, Parked>
    var disconnectedSessionsByAccountId: map<string, seq<Parked>>
    var durationByAccountId: map<string, int>
    ghost var trace: seq<Visit> // what has been applied

    ghost function Model(): Tables
      reads this
    {
      Tables(sessionInfoById, sessionInfoByConnectionId, disconnectedSessionById,
             disconnectedSessionByConnectionId, disconnectedSessionsByAccountId, durationByAccountId)
    }

    /** The tables are the fold of the events applied so far, and each server.started visited
        every active connection. */
    ghost predicate Valid()
      reads this
    {
      Model() == RunTables(trace) && |trace| == cursor && VisitedAll(trace)
    }

    constructor ()
      ensures Valid() && trace == []
    {
      cursor, trace := 0, [];
      sessionInfoById, sessionInfoByConnectionId := map[], map[];
      disconnectedSessionById, disconnectedSessionByConnectionId := map[], map[];
      disconnectedSessionsByAccountId, durationByAccountId := map[], map[];
    }

    method RemoveActiveSession(info: Info)
      modifies this`sessionInfoById, this`sessionInfoByConnectionId
      ensures Model() == RemoveActive(old(Model()), info)
    {
      sessionInfoById := sessionInfoById - {info.id};
      sessionInfoByConnectionId := sessionInfoByConnectionId - {info.connection};
    }

    method StoreQueue(account: string, queue: seq<Parked>)
      modifies this`disconnectedSessionsByAccountId
      ensures disconnectedSessionsByAccountId == PutQueue(old(disconnectedSessionsByAccountId), account, queue)
    {
      if |queue| == 0 {
        disconnectedSessionsByAccountId := disconnectedSessionsByAccountId - {account};
      } else {
        disconnectedSessionsByAccountId := disconnectedSessionsByAccountId[account := queue];
      }
    }

    method RemoveDisconnectedSessionByConnectionId(c: string) returns (removed: Option<Parked>)
      modifies this`disconnectedSessionByConnectionId, this`disconnectedSessionsByAccountId
      ensures Model() == RemoveHeldOn(old(Model()), c)
      ensures removed == if c in old(disconnectedSessionByConnectionId)
                         then Some(old(disconnectedSessionByConnectionId)[c]) else None
    {
      if c !in disconnectedSessionByConnectionId {
        return None;
      }
      var session := disconnectedSessionByConnectionId[c];
      disconnectedSessionByConnectionId := disconnectedSessionByConnectionId - {c};
      var account := session.info.account;
      var queue := QueueOf(disconnectedSessionsByAccountId, account);
      var i := 0;
      while i < |queue|
        invariant i <= |queue|
        invariant forall j :: 0 <= j < i ==> queue[j].info.connection != c
        invariant Model() == old(Model()).(heldByConnection := old(disconnectedSessionByConnectionId) - {c})
      {
        if queue[i].info.connection == c {
          RemoveFirstAt(queue, ConnectionOf, c, i);
          StoreQueue(account, queue[..i] + queue[i + 1..]);
          return Some(session);
        }
        i := i + 1;
      }
      RemoveFirstAt(queue, ConnectionOf, c, i);
      return Some(session);
    }

    method RemoveDisconnectedSessionById(account: string, id: string)
      modifies this`disconnectedSessionByConnectionId, this`disconnectedSessionsByAccountId
      ensures Model() == RemoveHeldId(old(Model()), account, id)
    {
      var queue := QueueOf(disconnectedSessionsByAccountId, account);
      var i := 0;
      while i < |queue|
        invariant i <= |queue|
        invariant forall j :: 0 <= j < i ==> queue[j].info.id != id
        invariant Model() == old(Model())
      {
        if queue[i].info.id == id {
          assert IndexOf(queue, IdOf, id) == i;
          disconnectedSessionByConnectionId := disconnectedSessionByConnectionId - {queue[i].info.connection};
          StoreQueue(account, queue[..i] + queue[i + 1..]);
          return;
        }
        i := i + 1;
      }
    }

    method TrackDisconnectedSession(info: Info, at: int)
      modifies this
      ensures Model() == Track(old(Model()), info, at) && trace == old(trace) && cursor == old(cursor)
    {
      RemoveActiveSession(info);
      var _ := RemoveDisconnectedSessionByConnectionId(info.connection);
      disconnectedSessionById := disconnectedSessionById[info.id := Span(info.id, info.account, info.start, at)];
      var session := Parked(info, at);
      var queue := QueueOf(disconnectedSessionsByAccountId, info.account) + [session];
      if |queue| > HELD_PER_ACCOUNT {
        disconnectedSessionByConnectionId := disconnectedSessionByConnectionId - {queue[0].info.connection};
        queue := queue[1..];
      }
      disconnectedSessionsByAccountId := disconnectedSessionsByAccountId[info.account := queue];
      disconnectedSessionByConnectionId := disconnectedSessionByConnectionId[info.connection := session];
    }

    method AddDuration(account: string, duration: int)
      modifies this`durationByAccountId
      ensures Model() == Credit(old(Model()), account, duration)
    {
      var was := if account in durationByAccountId then durationByAccountId[account] else 0;
      durationByAccountId := durationByAccountId[account := was + duration];
    }

    // -------------------------------------------------------------- events

    method ApplySessionStarted(info: Info)
      modifies this
      ensures Model() == StartTables(old(Model()), info) && trace == old(trace) && cursor == old(cursor)
    {
      if info.connection in sessionInfoByConnectionId {
        RemoveActiveSession(sessionInfoByConnectionId[info.connection]);
      }
      var removed := RemoveDisconnectedSessionByConnectionId(info.connection);
      if removed.Some? {
        disconnectedSessionById := disconnectedSessionById - {removed.value.info.id};
      }
      sessionInfoById := sessionInfoById[info.id := info];
      sessionInfoByConnectionId := sessionInfoByConnectionId[info.connection := info];
    }

    method ApplySessionEnded(id: string, account: string, at: int)
      modifies this
      ensures Model() == EndTables(old(Model()), id, account, at) && trace == old(trace) && cursor == old(cursor)
    {
      if id in sessionInfoById {
        var info := sessionInfoById[id];
        AddDuration(info.account, at - info.start);
        RemoveActiveSession(info);
        return;
      }
      if id !in disconnectedSessionById {
        return;
      }
      var span := disconnectedSessionById[id];
      AddDuration(span.account, at - span.start);
      disconnectedSessionById := disconnectedSessionById - {id};
      RemoveDisconnectedSessionById(account, id);
    }

    method ApplyClientConnected(c: string)
      modifies this
      ensures Model() == ReconnectTables(old(Model()), c) && trace == old(trace) && cursor == old(cursor)
    {
      var removed := RemoveDisconnectedSessionByConnectionId(c);
      if removed.None? {
        return;
      }
      var info := removed.value.info;
      disconnectedSessionById := disconnectedSessionById - {info.id};
      sessionInfoById := sessionInfoById[info.id := info];
      sessionInfoByConnectionId := sessionInfoByConnectionId[info.connection := info];
    }

    method ApplyClientDisconnected(account: string, c: string, closeCode: int, at: int)
      modifies this
      ensures Model() == DisconnectTables(old(Model()), account, c, Clean(closeCode), at)
      ensures trace == old(trace) && cursor == old(cursor)
    {
      if c !in sessionInfoByConnectionId {
        return;
      }
      var info := sessionInfoByConnectionId[c];
      if closeCode == 1000 || closeCode == 1001 {
        AddDuration(account, at - info.start);
        RemoveActiveSession(info);
        return;
      }
      TrackDisconnectedSession(info, at);
    }

    /** Visits the active connections in whatever order the map yields them, and reports
        the order it took. */
    method ApplyServerStarted(at: int) returns (ghost order: seq<string>)
      requires KeyedSeats(Model())
      modifies this
      ensures Model() == TrackAll(old(Model()), order, at) && VisitsAll(old(Model()), order)
      ensures trace == old(trace) && cursor == old(cursor)
    {
      order := [];
      var infos := sessionInfoByConnectionId;
      var left := infos.Keys;
      ghost var start := Model();
      while left != {}
        invariant left <= infos.Keys
        invariant forall c :: c in infos && c !in left ==> c in order
        invariant forall c :: c in order ==> c in infos && c !in left
        invariant Model() == TrackAll(start, order, at)
        invariant forall c :: c in left ==> c in sessionInfoByConnectionId && sessionInfoByConnectionId[c] == infos[c]
        invariant forall c :: c in infos ==> infos[c].connection == c
        invariant trace == old(trace) && cursor == old(cursor)
        decreases left
      {
        var c :| c in left;
        left := left - {c};
        assert (order + [c])[..|order|] == order;
        TrackDisconnectedSession(infos[c], at);
        order := order + [c];
      }
    }

    method Apply(e: Event) returns (ghost order: seq<string>)
      requires KeyedSeats(Model())
      modifies this
      ensures Model() == ApplyTables(old(Model()), e, order) && trace == old(trace) && cursor == old(cursor)
      ensures e.data.ServerStarted? ==> VisitsAll(old(Model()), order)
    {
      order := [];
      match e.data {
        case ServerStarted => order := ApplyServerStarted(e.at);
        case SessionStarted(id, _, c, start) => ApplySessionStarted(Info(id, e.accountId, c, start));
        case SessionEnded(id) => ApplySessionEnded(id, e.accountId, e.at);
        case ClientConnected(_, c, _) => ApplyClientConnected(c);
        case ClientDisconnected(_, c, _, _, code) => ApplyClientDisconnected(e.accountId, c, code, e.at);
        case _ =>
      }
    }

    /** Applies what the log holds past the cursor; the events' clocks are dense. */
    method CatchUp(log: seq<Event>)
      requires Valid() && Traces(trace, log) && forall i :: 0 <= i < |log| ==> log[i].clock == i + 1
      modifies this
      ensures Valid() && Traces(trace, log) && cursor == |log| && old(trace) <= trace
    {
      var index := cursor;
      while index < |log|
        invariant Valid() && cursor == index <= |log| && Traces(trace, log) && old(trace) <= trace
      {
        Advance(log[index]);
        index := index + 1;
      }
    }

    /** Applies the next event of the log. */
    method Advance(e: Event)
      requires Valid() && e.clock == cursor + 1
      modifies this
      ensures Valid() && cursor == e.clock
      ensures |trace| == |old(trace)| + 1 && old(trace) <= trace && trace[|old(trace)|].event == e
    {
      ghost var before := trace;
      RunKeyed(before);
      ghost var order := Apply(e);
      OneMoreVisit(before, Visit(e, order));
      trace := before + [Visit(e, order)];
      cursor := e.clock;
    }

    /** Adds up a map's values in whatever order the map yields them. */
    static method AddUp(values: map<string, int>, ghost f: string -> int) returns (total: int)
      requires forall k :: k in values ==> f(k) == values[k]
      ensures total == Sum(values.Keys, f)
    {
      total := 0;
      var left := values.Keys;
      while left != {}
        invariant left <= values.Keys
        invariant total + Sum(left, f) == Sum(values.Keys, f)
        decreases left
      {
        var k :| k in left;
        SumTake(left, f, k);
        total := total + values[k];
        left := left - {k};
      }
    }

    /** The three maps added up. */
    method AddMaps(now: int) returns (total: int)
      ensures total == TotalDuration(Model(), now)
    {
      var credited := AddUp(durationByAccountId, DurationOf(durationByAccountId));
      var sinceStart := map id | id in sessionInfoById :: now - sessionInfoById[id].start;
      var active := AddUp(sinceStart, ActiveDuration(Model(), now));
      var untilDrop := map id | id in disconnectedSessionById ::
        disconnectedSessionById[id].at - disconnectedSessionById[id].start;
      var frozen := AddUp(untilDrop, FrozenDuration(Model()));
      assert sinceStart.Keys == sessionInfoById.Keys && untilDrop.Keys == disconnectedSessionById.Keys;
      total := credited + active + frozen;
    }

    /** The total over the tables, which is the ledger's if ids keep to A1 and A3. */
    method GetTotalDuration(log: seq<Event>, now: int, ghost homes: Homes) returns (total: int)
      requires Valid() && Traces(trace, log) && forall i :: 0 <= i < |log| ==> log[i].clock == i + 1
      modifies this
      ensures Valid() && Traces(trace, log) && cursor == |log| && old(trace) <= trace
      ensures total == TotalDuration(RunTables(trace), now) && VisitedAll(trace)
      ensures ProperHomes(homes) && ExpectedTrace(homes, trace) ==> total == Total(homes, RunLedger(homes, trace), now)
    {
      CatchUp(log);
      total := AddMaps(now);
      if ProperHomes(homes) && ExpectedTrace(homes, trace) { UsageLedgerHolds(homes, trace, now); }
    }
  }
}
