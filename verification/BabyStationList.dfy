/** BabyStationList as objects: one mutable snapshot per account, and the list that routes
    events to them. */
module BabyStationList {
  import opened Options
  import opened Events
  import opened BabyStations

  class AccountSnapshot {
    var sessionById: map<string, Session>
    var sessionIdByConnectionId: map<string, string>
    var connectionById: map<string, Connection>
    var disconnectedSessionByConnectionId: map<string, Parked>

    ghost function Model(): Snapshot
      reads this
    {
      Snapshot(sessionById, sessionIdByConnectionId, connectionById, disconnectedSessionByConnectionId)
    }

    constructor ()
      ensures Model() == EMPTY
    {
      sessionById, sessionIdByConnectionId := map[], map[];
      connectionById, disconnectedSessionByConnectionId := map[], map[];
    }

    method Clear()
      modifies this
      ensures Model() == EMPTY
    {
      sessionById, sessionIdByConnectionId := map[], map[];
      connectionById, disconnectedSessionByConnectionId := map[], map[];
    }

    method DeleteSession(session: Session)
      modifies this
      ensures Model() == BabyStations.DeleteSession(old(Model()), session)
    {
      sessionById := sessionById - {session.id};
      sessionIdByConnectionId := sessionIdByConnectionId - {session.connection};
      connectionById := connectionById - {session.connection};
      disconnectedSessionByConnectionId := disconnectedSessionByConnectionId - {session.connection};
    }

    /** Visits the connections in whatever order the map yields them; an entry deleted on
        the way is not visited any more. */
    method DeleteConnectionsForClient(client: string)
      requires SingleOwner(Model())
      modifies this
      ensures Model() == ForgetConnectionOf(old(Model()), client)
    {
      ghost var s := Model();
      ghost var found := None;
      var left := connectionById.Keys;
      while left != {}
        invariant found.None? ==> Model() == s && forall c :: OwnsConnection(s, client, c) ==> c in left
        invariant found.Some? ==> OwnsConnection(s, client, found.value) && Model() == ForgetConnection(s, found.value)
        decreases left
      {
        var c :| c in left;
        left := left - {c};
        if c in connectionById && connectionById[c].client == client {
          assert found.None? by {
            if found.Some? { OnlyConnection(s, client, found.value, c); }
          }
          if c in sessionIdByConnectionId {
            var id := sessionIdByConnectionId[c];
            if id in sessionById {
              DeleteSession(sessionById[id]);
            }
          }
          connectionById := connectionById - {c};
          found := Some(c);
        }
      }
      if found.Some? { OnlyConnectionOf(s, client, found.value); }
    }

    method DeleteParkedForClient(client: string)
      requires SingleOwner(Model())
      modifies this
      ensures Model() == ForgetParkedOf(old(Model()), client)
    {
      ghost var s := Model();
      ghost var found := None;
      var left := disconnectedSessionByConnectionId.Keys;
      while left != {}
        invariant found.None? ==> Model() == s && forall c :: OwnsParked(s, client, c) ==> c in left
        invariant found.Some? ==> OwnsParked(s, client, found.value) && Model() == ForgetParked(s, found.value)
        decreases left
      {
        var c :| c in left;
        left := left - {c};
        if c in disconnectedSessionByConnectionId && disconnectedSessionByConnectionId[c].client == client {
          if found.Some? {
            OnlyParked(s, client, found.value, c);
            assert false;
          }
          var id := disconnectedSessionByConnectionId[c].session;
          if id in sessionById {
            DeleteSession(sessionById[id]);
          }
          disconnectedSessionByConnectionId := disconnectedSessionByConnectionId - {c};
          found := Some(c);
        }
      }
      if found.Some? {
        forall d ensures OwnsParked(s, client, d) ==> d == found.value { assert OwnsOnce(s, found.value, d); }
      }
    }

    method DeleteSessionsAndConnectionsForClient(client: string)
      requires SingleOwner(Model())
      modifies this
      ensures Model() == Forget(old(Model()), client)
    {
      WithinOwner(ForgetConnectionOf(Model(), client), Model());
      DeleteConnectionsForClient(client);
      DeleteParkedForClient(client);
    }

    // -------------------------------------------------------------- events

    method ApplySessionStarted(session: Session)
      modifies this
      ensures Model() == Start(old(Model()), session)
    {
      sessionById := sessionById[session.id := session];
      sessionIdByConnectionId := sessionIdByConnectionId[session.connection := session.id];
    }

    method ApplySessionEnded(id: string)
      modifies this
      ensures Model() == DeleteById(old(Model()), id)
    {
      if id !in sessionById {
        return;
      }
      DeleteSession(sessionById[id]);
    }

    method ApplyConnected(client: string, c: string, requestId: string)
      requires SingleOwner(Model())
      modifies this
      ensures Model() == Connect(old(Model()), client, c, requestId)
    {
      if c in disconnectedSessionByConnectionId && disconnectedSessionByConnectionId[c].client == client {
        disconnectedSessionByConnectionId := disconnectedSessionByConnectionId - {c};
      } else {
        DeleteSessionsAndConnectionsForClient(client);
      }
      connectionById := connectionById[c := Connection(client, c, requestId)];
    }

    method ApplyDisconnected(c: string, requestId: string, reason: string)
      modifies this
      ensures Model() == Disconnect(old(Model()), c, requestId, reason)
    {
      if c in connectionById && connectionById[c].requestId == requestId && c in sessionIdByConnectionId {
        var id := sessionIdByConnectionId[c];
        if reason == "clean" {
          ApplySessionEnded(id);
        } else if reason == "" || reason == "unexpected" {
          var parked := Parked(connectionById[c].client, id, c);
          disconnectedSessionByConnectionId := disconnectedSessionByConnectionId[c := parked];
        }
      }
      connectionById := connectionById - {c};
    }

    method Apply(e: Event)
      requires SingleOwner(Model()) && !e.data.ServerStarted?
      modifies this
      ensures Model() == ApplySnapshot(old(Model()), e)
    {
      match e.data {
        case SessionStarted(id, name, c, startedAt) => ApplySessionStarted(Session(id, name, c, startedAt));
        case SessionEnded(id) => ApplySessionEnded(id);
        case ClientConnected(client, c, requestId) => ApplyConnected(client, c, requestId);
        case ClientDisconnected(_, c, requestId, reason, _) => ApplyDisconnected(c, requestId, reason);
        case ReconnectTimeout(client, _, _) => DeleteSessionsAndConnectionsForClient(client);
        case Unrelated(_) =>
      }
    }

    /** Every station shown, once, in whatever order the map yields the connections. */
    method List() returns (stations: seq<Station>, ghost at: seq<string>)
      ensures |at| == |stations|
      ensures forall i :: 0 <= i < |at| ==> Shows(Model(), at[i]) && stations[i] == StationAt(Model(), at[i])
      ensures forall c :: Shows(Model(), c) ==> c in at
      ensures SingleOwner(Model()) ==>
        forall i, j :: 0 <= i < j < |stations| ==> stations[i].client != stations[j].client
    {
      stations, at := [], [];
      var left := connectionById.Keys;
      while left != {}
        invariant left <= connectionById.Keys && |at| == |stations|
        invariant forall i :: 0 <= i < |at| ==>
          at[i] !in left && Shows(Model(), at[i]) && stations[i] == StationAt(Model(), at[i])
        invariant forall i, j :: 0 <= i < j < |at| ==> at[i] != at[j]
        invariant forall c :: Shows(Model(), c) ==> c in left || c in at
        decreases left
      {
        var c :| c in left;
        left := left - {c};
        if c in sessionIdByConnectionId && sessionIdByConnectionId[c] in sessionById {
          var (session, connection) := (sessionById[sessionIdByConnectionId[c]], connectionById[c]);
          stations := stations + [Station(session.name, connection.client, connection.id, connection.requestId, session.startedAt)];
          at := at + [c];
        }
      }
      if SingleOwner(Model()) {
        forall i, j | 0 <= i < j < |stations| ensures stations[i].client != stations[j].client {
          assert OwnsOnce(Model(), at[i], at[j]);
        }
      }
    }
  }

  lemma OnlyConnection(s: Snapshot, client: string, c: string, d: string)
    requires SingleOwner(s) && OwnsConnection(s, client, c)
    ensures !OwnsConnection(ForgetConnection(s, c), client, d)
  {
    assert OwnsOnce(s, c, d);
  }

  lemma OnlyParked(s: Snapshot, client: string, c: string, d: string)
    requires SingleOwner(s) && OwnsParked(s, client, c)
    ensures !OwnsParked(ForgetParked(s, c), client, d)
  {
    assert OwnsOnce(s, c, d);
  }

  lemma OnlyConnectionOf(s: Snapshot, client: string, c: string)
    requires SingleOwner(s) && OwnsConnection(s, client, c)
    ensures ForgetConnectionOf(s, client) == ForgetConnection(s, c)
  {
    forall d ensures OwnsConnection(s, client, d) ==> d == c { assert OwnsOnce(s, c, d); }
  }

  class BabyStationList {
    var cursor: nat
    var snapshotByAccountId: map<string, AccountSnapshot>
    ghost var applied: seq<Event>

    ghost function Model(): Snapshots
      reads this, snapshotByAccountId.Values
    {
      map a | a in snapshotByAccountId :: snapshotByAccountId[a].Model()
    }

    /** No two accounts share a snapshot. */
    ghost predicate Separate()
      reads this
    {
      forall a, b :: a in snapshotByAccountId && b in snapshotByAccountId && snapshotByAccountId[a] == snapshotByAccountId[b] ==> a == b
    }

    ghost predicate Valid()
      reads this, snapshotByAccountId.Values
    {
      Separate() && |applied| == cursor && Model() == Run(applied)
    }

    constructor ()
      ensures Valid() && applied == [] && snapshotByAccountId == map[]
    {
      cursor, snapshotByAccountId, applied := 0, map[], [];
    }

    method GetOrCreateSnapshot(account: string) returns (snapshot: AccountSnapshot)
      requires Separate()
      modifies this`snapshotByAccountId
      ensures Separate() && account in snapshotByAccountId && snapshotByAccountId[account] == snapshot
      ensures snapshot.Model() == SnapshotOf(old(Model()), account)
      ensures fresh(snapshotByAccountId.Values - old(snapshotByAccountId.Values))
      ensures Model() == old(Model())[account := snapshot.Model()]
    {
      if account in snapshotByAccountId {
        snapshot := snapshotByAccountId[account];
      } else {
        snapshot := new AccountSnapshot();
        snapshotByAccountId := snapshotByAccountId[account := snapshot];
      }
    }

    method ApplyServerStarted()
      requires Separate()
      modifies snapshotByAccountId.Values
      ensures Model() == map a | a in old(Model()) :: EMPTY
    {
      var left := snapshotByAccountId.Keys;
      while left != {}
        invariant left <= snapshotByAccountId.Keys
        invariant forall a :: a in snapshotByAccountId && a !in left ==> snapshotByAccountId[a].Model() == EMPTY
        decreases left
      {
        var account :| account in left;
        left := left - {account};
        snapshotByAccountId[account].Clear();
      }
    }

    method ApplyToAccount(e: Event)
      requires Separate() && SingleOwner(SnapshotOf(Model(), e.accountId)) && !e.data.ServerStarted?
      modifies this`snapshotByAccountId, snapshotByAccountId.Values
      ensures Separate() && fresh(snapshotByAccountId.Values - old(snapshotByAccountId.Values))
      ensures Model() == old(Model())[e.accountId := ApplySnapshot(SnapshotOf(old(Model()), e.accountId), e)]
    {
      var snapshot := GetOrCreateSnapshot(e.accountId);
      UpdateSnapshot(e, snapshot);
    }

    /** The event changes the one snapshot, and the account's alone. */
    method UpdateSnapshot(e: Event, snapshot: AccountSnapshot)
      requires Separate() && SingleOwner(snapshot.Model()) && !e.data.ServerStarted?
      requires e.accountId in snapshotByAccountId && snapshotByAccountId[e.accountId] == snapshot
      modifies snapshot
      ensures Model() == old(Model())[e.accountId := ApplySnapshot(old(snapshot.Model()), e)]
    {
      ghost var before := Model();
      snapshot.Apply(e);
      forall a | a in snapshotByAccountId && a != e.accountId ensures snapshotByAccountId[a].Model() == before[a] {
        assert snapshotByAccountId[a] != snapshot;
      }
    }

    method Apply(e: Event)
      requires Separate() && SingleOwner(SnapshotOf(Model(), e.accountId))
      modifies this`snapshotByAccountId, snapshotByAccountId.Values
      ensures Separate() && fresh(snapshotByAccountId.Values - old(snapshotByAccountId.Values))
      ensures Model() == BabyStations.Apply(old(Model()), e)
    {
      match e.data {
        case ServerStarted => ApplyServerStarted();
        case Unrelated(_) =>
        case _ => ApplyToAccount(e);
      }
    }

    /** Applies what the log holds past the cursor. */
    method CatchUp(log: seq<Event>)
      requires Valid() && applied <= log && forall i :: 0 <= i < |log| ==> log[i].clock == i + 1
      modifies this, snapshotByAccountId.Values
      ensures Valid() && applied == log && cursor == |log|
      ensures fresh(snapshotByAccountId.Values - old(snapshotByAccountId.Values))
    {
      var index := cursor;
      while index < |log|
        invariant Valid() && index == cursor <= |log| && applied == log[..cursor]
        invariant fresh(snapshotByAccountId.Values - old(snapshotByAccountId.Values))
      {
        Advance(log[index]);
        index := index + 1;
      }
    }

    /** Applies the next event of the log. */
    method Advance(e: Event)
      requires Valid() && e.clock == cursor + 1
      modifies this, snapshotByAccountId.Values
      ensures Valid() && cursor == e.clock && applied == old(applied) + [e]
      ensures fresh(snapshotByAccountId.Values - old(snapshotByAccountId.Values))
    {
      assert SingleOwner(SnapshotOf(Model(), e.accountId)) by { RunOwner(applied, e.accountId); }
      Apply(e);
      assert Run(applied + [e]) == BabyStations.Apply(Run(applied), e) by { RunStep(applied, e); }
      applied := applied + [e];
      cursor := e.clock;
    }
  }
}
