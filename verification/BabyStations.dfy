/** The baby station list: per account, the sessions, the connections, and the sessions
    whose connection dropped and may come back. */
module BabyStations {
  import opened Events

  datatype Session = Session(id: string, name: string, connection: string, startedAt: int)

  datatype Connection = Connection(client: string, id: string, requestId: string)

  datatype Parked = Parked(client: string, session: string, connection: string)

  datatype Snapshot = Snapshot(
    sessions: map<string, Session>,
    sessionAt: map<string, string>,
    connections: map<string, Connection>,
    parked: map<string, Parked>)

  const EMPTY := Snapshot(map[], map[], map[], map[])

  datatype Station = Station(name: string, client: string, connection: string, requestId: string, startedAt: int)

  // ---------------------------------------------------------------- building blocks

  function DeleteSession(s: Snapshot, session: Session): Snapshot {
    Snapshot(s.sessions - {session.id}, s.sessionAt - {session.connection},
             s.connections - {session.connection}, s.parked - {session.connection})
  }

  function DeleteById(s: Snapshot, id: string): Snapshot {
    if id in s.sessions then DeleteSession(s, s.sessions[id]) else s
  }

  /** A connection goes, with the session it hosts. */
  function ForgetConnection(s: Snapshot, c: string): Snapshot {
    var without := if c in s.sessionAt then DeleteById(s, s.sessionAt[c]) else s;
    without.(connections := without.connections - {c})
  }

  /** A parked session goes, and its entry with it. */
  function ForgetParked(s: Snapshot, c: string): Snapshot
    requires c in s.parked
  {
    var without := DeleteById(s, s.parked[c].session);
    without.(parked := without.parked - {c})
  }

  predicate OwnsConnection(s: Snapshot, client: string, c: string) {
    c in s.connections && s.connections[c].client == client
  }

  predicate OwnsParked(s: Snapshot, client: string, c: string) {
    c in s.parked && s.parked[c].client == client
  }

  ghost function ForgetConnectionOf(s: Snapshot, client: string): Snapshot {
    if exists c :: OwnsConnection(s, client, c) then
      var c :| OwnsConnection(s, client, c);
      ForgetConnection(s, c)
    else s
  }

  ghost function ForgetParkedOf(s: Snapshot, client: string): Snapshot {
    if exists c :: OwnsParked(s, client, c) then
      var c :| OwnsParked(s, client, c);
      ForgetParked(s, c)
    else s
  }

  /** Whatever the client owns, given that it owns one entry at most; see OwnsOnce. */
  ghost function Forget(s: Snapshot, client: string): Snapshot {
    ForgetParkedOf(ForgetConnectionOf(s, client), client)
  }

  // ---------------------------------------------------------------- events

  function Start(s: Snapshot, session: Session): Snapshot {
    s.(sessions := s.sessions[session.id := session], sessionAt := s.sessionAt[session.connection := session.id])
  }

  ghost function Connect(s: Snapshot, client: string, c: string, requestId: string): Snapshot {
    var ready := if OwnsParked(s, client, c) then s.(parked := s.parked - {c}) else Forget(s, client);
    ready.(connections := ready.connections[c := Connection(client, c, requestId)])
  }

  function Disconnect(s: Snapshot, c: string, requestId: string, reason: string): Snapshot {
    var kept :=
      if c in s.connections && s.connections[c].requestId == requestId && c in s.sessionAt then
        if reason == "clean" then DeleteById(s, s.sessionAt[c])
        else if reason == "" || reason == "unexpected" then
          s.(parked := s.parked[c := Parked(s.connections[c].client, s.sessionAt[c], c)])
        else s
      else s;
    kept.(connections := kept.connections - {c})
  }

  ghost function ApplySnapshot(s: Snapshot, e: Event): Snapshot {
    match e.data
    case ServerStarted => EMPTY
    case SessionStarted(id, name, c, startedAt) => Start(s, Session(id, name, c, startedAt))
    case SessionEnded(id) => DeleteById(s, id)
    case ClientConnected(client, c, requestId) => Connect(s, client, c, requestId)
    case ClientDisconnected(_, c, requestId, reason, _) => Disconnect(s, c, requestId, reason)
    case ReconnectTimeout(client, _, _) => Forget(s, client)
    case Unrelated(_) => s
  }

  type Snapshots = map<string, Snapshot>

  function SnapshotOf(all: Snapshots, account: string): Snapshot {
    if account in all then all[account] else EMPTY
  }

  /** server.started empties every snapshot; any other event concerns its own account. */
  ghost function Apply(all: Snapshots, e: Event): Snapshots {
    match e.data
    case ServerStarted => map a | a in all :: EMPTY
    case Unrelated(_) => all
    case _ => all[e.accountId := ApplySnapshot(SnapshotOf(all, e.accountId), e)]
  }

  ghost function Run(events: seq<Event>): Snapshots
    decreases |events|
  {
    if events == [] then map[] else Apply(Run(events[..|events| - 1]), events[|events| - 1])
  }

  // ---------------------------------------------------------------- the list

  predicate Shows(s: Snapshot, c: string) {
    c in s.connections && c in s.sessionAt && s.sessionAt[c] in s.sessions
  }

  function StationAt(s: Snapshot, c: string): Station
    requires Shows(s, c)
  {
    var (session, connection) := (s.sessions[s.sessionAt[c]], s.connections[c]);
    Station(session.name, connection.client, connection.id, connection.requestId, session.startedAt)
  }

  // ---------------------------------------------------------------- single ownership

  /** A client owns at most one entry, over its connections and its parked sessions. */
  ghost predicate OwnsOnce(s: Snapshot, c: string, d: string) {
    && (c in s.connections && d in s.connections && s.connections[c].client == s.connections[d].client ==> c == d)
    && (c in s.parked && d in s.parked && s.parked[c].client == s.parked[d].client ==> c == d)
    && (c in s.connections && d in s.parked ==> s.connections[c].client != s.parked[d].client)
  }

  ghost predicate SingleOwner(s: Snapshot) {
    forall c, d :: OwnsOnce(s, c, d)
  }

  predicate Within(s: Snapshot, t: Snapshot) {
    && (forall c :: c in s.connections ==> c in t.connections && s.connections[c] == t.connections[c])
    && (forall c :: c in s.parked ==> c in t.parked && s.parked[c] == t.parked[c])
  }

  lemma WithinOwner(s: Snapshot, t: Snapshot)
    requires SingleOwner(t) && Within(s, t)
    ensures SingleOwner(s)
  {
    forall c, d ensures OwnsOnce(s, c, d) { assert OwnsOnce(t, c, d); }
  }

  lemma OneConnection(s: Snapshot, client: string, c: string)
    requires SingleOwner(s) && OwnsConnection(s, client, c)
    ensures Forget(s, client) == ForgetConnection(s, c)
    ensures forall d :: OwnsConnection(s, client, d) ==> d == c
    ensures forall d :: !OwnsParked(s, client, d)
  {
    forall d ensures (OwnsConnection(s, client, d) ==> d == c) && !OwnsParked(s, client, d) {
      assert OwnsOnce(s, c, d);
    }
    var first := ForgetConnection(s, c);
    assert ForgetConnectionOf(s, client) == first;
    forall d ensures !OwnsParked(first, client, d) { assert !OwnsParked(s, client, d); }
  }

  lemma OneParked(s: Snapshot, client: string, c: string)
    requires SingleOwner(s) && OwnsParked(s, client, c)
    ensures Forget(s, client) == ForgetParked(s, c)
    ensures forall d :: OwnsParked(s, client, d) ==> d == c
    ensures forall d :: !OwnsConnection(s, client, d)
  {
    forall d ensures (OwnsParked(s, client, d) ==> d == c) && !OwnsConnection(s, client, d) {
      assert OwnsOnce(s, c, d) && OwnsOnce(s, d, c);
    }
    assert ForgetConnectionOf(s, client) == s;
  }

  /** Forgetting leaves the client nothing and gives nobody anything. */
  lemma ForgetLeavesNothing(s: Snapshot, client: string)
    requires SingleOwner(s)
    ensures Within(Forget(s, client), s)
    ensures forall c :: !OwnsConnection(Forget(s, client), client, c) && !OwnsParked(Forget(s, client), client, c)
  {
    if c :| OwnsConnection(s, client, c) {
      OneConnection(s, client, c);
      forall d ensures !OwnsConnection(Forget(s, client), client, d) && !OwnsParked(Forget(s, client), client, d) {
        assert !OwnsParked(s, client, d) && (OwnsConnection(s, client, d) ==> d == c);
      }
    } else if c :| OwnsParked(s, client, c) {
      OneParked(s, client, c);
      forall d ensures !OwnsConnection(Forget(s, client), client, d) && !OwnsParked(Forget(s, client), client, d) {
        assert !OwnsConnection(s, client, d) && (OwnsParked(s, client, d) ==> d == c);
      }
    } else {
      forall d ensures !OwnsConnection(s, client, d) && !OwnsParked(s, client, d) {}
      assert Forget(s, client) == s;
    }
  }

  lemma ApplyOwner(s: Snapshot, e: Event)
    requires SingleOwner(s)
    ensures SingleOwner(ApplySnapshot(s, e))
  {
    match e.data
    case ClientConnected(client, c, requestId) => ConnectOwner(s, client, c, requestId);
    case ClientDisconnected(_, c, requestId, reason, _) => DisconnectOwner(s, c, requestId, reason);
    case ReconnectTimeout(client, _, _) =>
      ForgetLeavesNothing(s, client);
      WithinOwner(Forget(s, client), s);
    case _ =>
      WithinOwner(ApplySnapshot(s, e), s);
  }

  lemma ConnectOwner(s: Snapshot, client: string, c: string, requestId: string)
    requires SingleOwner(s)
    ensures SingleOwner(Connect(s, client, c, requestId))
  {
    var ready := if OwnsParked(s, client, c) then s.(parked := s.parked - {c}) else Forget(s, client);
    var t := Connect(s, client, c, requestId);
    if OwnsParked(s, client, c) {
      forall x ensures !OwnsConnection(ready, client, x) && !OwnsParked(ready, client, x) {
        assert OwnsOnce(s, x, c);
      }
    } else {
      ForgetLeavesNothing(s, client);
    }
    WithinOwner(ready, s);
    forall x, y ensures OwnsOnce(t, x, y) {
      assert OwnsOnce(ready, x, y);
      assert !OwnsConnection(ready, client, x) && !OwnsConnection(ready, client, y) && !OwnsParked(ready, client, y);
    }
  }

  lemma DisconnectOwner(s: Snapshot, c: string, requestId: string, reason: string)
    requires SingleOwner(s)
    ensures SingleOwner(Disconnect(s, c, requestId, reason))
  {
    var t := Disconnect(s, c, requestId, reason);
    forall x, y ensures OwnsOnce(t, x, y) {
      assert OwnsOnce(s, x, y);
      assert OwnsOnce(s, x, c) && OwnsOnce(s, c, y) && OwnsOnce(s, c, x);
    }
  }

  lemma {:induction false} RunOwner(events: seq<Event>, account: string)
    ensures SingleOwner(SnapshotOf(Run(events), account))
    decreases |events|
  {
    if events != [] {
      var (front, e) := (events[..|events| - 1], events[|events| - 1]);
      RunOwner(front, account);
      ApplyOwner(SnapshotOf(Run(front), account), e);
      EmptyOwner();
    } else {
      EmptyOwner();
    }
  }

  lemma EmptyOwner()
    ensures SingleOwner(EMPTY)
  {
    forall c, d ensures OwnsOnce(EMPTY, c, d) {}
  }

  /** Single ownership: after any events whatever, a client shows at most one station. */
  lemma OneStationPerClient(events: seq<Event>, account: string, c: string, d: string)
    ensures var s := SnapshotOf(Run(events), account);
      Shows(s, c) && Shows(s, d) && StationAt(s, c).client == StationAt(s, d).client ==> c == d
  {
    RunOwner(events, account);
    assert OwnsOnce(SnapshotOf(Run(events), account), c, d);
  }

  // ---------------------------------------------------------------- reconnecting

  /** Assumptions A1 and A2 for one account: the connection each session id is hosted on,
      and no two sessions hosted on one connection. */
  type Homes = map<string, string>

  ghost predicate OneSessionEach(homes: Homes) {
    forall x, y :: x in homes && y in homes && homes[x] == homes[y] ==> x == y
  }

  ghost predicate Homed(homes: Homes, account: string, e: Event) {
    e.accountId == account && e.data.SessionStarted? ==> e.data.id in homes && homes[e.data.id] == e.data.hostConnectionId
  }

  ghost predicate AllHomed(homes: Homes, account: string, events: seq<Event>) {
    forall i :: 0 <= i < |events| ==> Homed(homes, account, events[i])
  }

  ghost predicate SessionHome(homes: Homes, s: Snapshot, id: string) {
    id in s.sessions ==> s.sessions[id].id == id && id in homes && homes[id] == s.sessions[id].connection
  }

  ghost predicate SeatHome(homes: Homes, s: Snapshot, c: string) {
    && (c in s.sessionAt ==> s.sessionAt[c] in homes && homes[s.sessionAt[c]] == c)
    && (c in s.parked ==> s.parked[c].session in homes && homes[s.parked[c].session] == c)
    && (c in s.connections ==> s.connections[c].id == c)
  }

  ghost predicate AtHome(homes: Homes, s: Snapshot) {
    (forall id :: SessionHome(homes, s, id)) && (forall c :: SeatHome(homes, s, c))
  }

  lemma SmallerAtHome(homes: Homes, s: Snapshot, t: Snapshot)
    requires AtHome(homes, t) && Within(s, t)
    requires forall id :: id in s.sessions ==> id in t.sessions && s.sessions[id] == t.sessions[id]
    requires forall c :: c in s.sessionAt ==> c in t.sessionAt && s.sessionAt[c] == t.sessionAt[c]
    ensures AtHome(homes, s)
  {
    forall id ensures SessionHome(homes, s, id) { assert SessionHome(homes, t, id); }
    forall c ensures SeatHome(homes, s, c) { assert SeatHome(homes, t, c); }
  }

  lemma StartAtHome(homes: Homes, s: Snapshot, session: Session)
    requires AtHome(homes, s) && session.id in homes && homes[session.id] == session.connection
    ensures AtHome(homes, Start(s, session))
  {
    var t := Start(s, session);
    forall id ensures SessionHome(homes, t, id) { assert SessionHome(homes, s, id); }
    forall c ensures SeatHome(homes, t, c) { assert SeatHome(homes, s, c); }
  }

  lemma ForgetAtHome(homes: Homes, s: Snapshot, client: string)
    requires AtHome(homes, s)
    ensures AtHome(homes, Forget(s, client))
  {
    ForgetConnectionAtHome(homes, s, client);
    ForgetParkedAtHome(homes, ForgetConnectionOf(s, client), client);
  }

  lemma ForgetConnectionAtHome(homes: Homes, s: Snapshot, client: string)
    requires AtHome(homes, s)
    ensures AtHome(homes, ForgetConnectionOf(s, client))
  {
    SmallerAtHome(homes, ForgetConnectionOf(s, client), s);
  }

  lemma ForgetParkedAtHome(homes: Homes, s: Snapshot, client: string)
    requires AtHome(homes, s)
    ensures AtHome(homes, ForgetParkedOf(s, client))
  {
    SmallerAtHome(homes, ForgetParkedOf(s, client), s);
  }

  lemma ConnectAtHome(homes: Homes, s: Snapshot, client: string, c: string, requestId: string)
    requires AtHome(homes, s)
    ensures AtHome(homes, Connect(s, client, c, requestId))
  {
    var t := Connect(s, client, c, requestId);
    var ready := if OwnsParked(s, client, c) then s.(parked := s.parked - {c}) else Forget(s, client);
    if OwnsParked(s, client, c) { SmallerAtHome(homes, ready, s); } else { ForgetAtHome(homes, s, client); }
    forall id ensures SessionHome(homes, t, id) { assert SessionHome(homes, ready, id); }
    forall x ensures SeatHome(homes, t, x) { assert SeatHome(homes, ready, x); }
  }

  lemma DisconnectAtHome(homes: Homes, s: Snapshot, c: string, requestId: string, reason: string)
    requires AtHome(homes, s)
    ensures AtHome(homes, Disconnect(s, c, requestId, reason))
  {
    var t := Disconnect(s, c, requestId, reason);
    forall id ensures SessionHome(homes, t, id) { assert SessionHome(homes, s, id); }
    forall x ensures SeatHome(homes, t, x) { assert SeatHome(homes, s, x) && SeatHome(homes, s, c); }
  }

  lemma ApplyAtHome(homes: Homes, account: string, s: Snapshot, e: Event)
    requires AtHome(homes, s) && e.accountId == account && Homed(homes, account, e)
    ensures AtHome(homes, ApplySnapshot(s, e))
  {
    match e.data
    case ServerStarted => EmptyAtHome(homes);
    case SessionStarted(id, name, c, startedAt) => StartAtHome(homes, s, Session(id, name, c, startedAt));
    case SessionEnded(id) => SmallerAtHome(homes, DeleteById(s, id), s);
    case ClientConnected(client, c, requestId) => ConnectAtHome(homes, s, client, c, requestId);
    case ClientDisconnected(_, c, requestId, reason, _) => DisconnectAtHome(homes, s, c, requestId, reason);
    case ReconnectTimeout(client, _, _) => ForgetAtHome(homes, s, client);
    case Unrelated(_) =>
  }

  lemma {:induction false} RunAtHome(homes: Homes, account: string, events: seq<Event>)
    requires AllHomed(homes, account, events)
    ensures AtHome(homes, SnapshotOf(Run(events), account))
    decreases |events|
  {
    EmptyAtHome(homes);
    if events != [] {
      var (front, e) := (events[..|events| - 1], events[|events| - 1]);
      RunAtHome(homes, account, front);
      if e.accountId == account { ApplyAtHome(homes, account, SnapshotOf(Run(front), account), e); }
    }
  }

  lemma EmptyAtHome(homes: Homes)
    ensures AtHome(homes, EMPTY)
  {
    forall id ensures SessionHome(homes, EMPTY, id) {}
    forall c ensures SeatHome(homes, EMPTY, c) {}
  }

  /** An event about other clients, other connections and other sessions, or another
      account; not a server start. */
  ghost predicate Elsewhere(e: Event, account: string, client: string, c: string, id: string) {
    !e.data.ServerStarted? && (e.accountId == account ==>
      match e.data
      case SessionStarted(other, _, d, _) => other != id && d != c
      case SessionEnded(other) => other != id
      case ClientConnected(other, d, _) => other != client && d != c
      case ClientDisconnected(_, d, _, _, _) => d != c
      case ReconnectTimeout(other, _, _) => other != client
      case _ => true)
  }

  /** The client's session is parked on its connection. */
  ghost predicate Waiting(s: Snapshot, client: string, c: string, session: Session) {
    && c in s.parked && s.parked[c] == Parked(client, session.id, c) && c !in s.connections
    && c in s.sessionAt && s.sessionAt[c] == session.id
    && session.id in s.sessions && s.sessions[session.id] == session
  }

  /** Deleting a session hosted elsewhere leaves the waiting one alone. */
  lemma DeleteElsewhere(homes: Homes, s: Snapshot, client: string, c: string, session: Session, other: string)
    requires AtHome(homes, s) && OneSessionEach(homes) && Waiting(s, client, c, session) && other != session.id
    ensures Waiting(DeleteById(s, other), client, c, session)
  {
    assert SessionHome(homes, s, other) && SessionHome(homes, s, session.id) && SeatHome(homes, s, c);
  }

  lemma ForgetElsewhere(homes: Homes, s: Snapshot, client: string, c: string, session: Session, other: string)
    requires AtHome(homes, s) && OneSessionEach(homes) && Waiting(s, client, c, session) && other != client
    requires SingleOwner(s)
    ensures Waiting(Forget(s, other), client, c, session)
  {
    assert SeatHome(homes, s, c);
    if d :| OwnsConnection(s, other, d) {
      OneConnection(s, other, d);
      assert SeatHome(homes, s, d);
      if d in s.sessionAt { DeleteElsewhere(homes, s, client, c, session, s.sessionAt[d]); }
    } else if d :| OwnsParked(s, other, d) {
      OneParked(s, other, d);
      assert SeatHome(homes, s, d);
      DeleteElsewhere(homes, s, client, c, session, s.parked[d].session);
    } else {
      assert ForgetConnectionOf(s, other) == s && Forget(s, other) == s;
    }
  }

  lemma StillWaiting(homes: Homes, s: Snapshot, account: string, client: string, c: string, session: Session, e: Event)
    requires AtHome(homes, s) && OneSessionEach(homes) && SingleOwner(s) && Waiting(s, client, c, session)
    requires Elsewhere(e, account, client, c, session.id) && e.accountId == account
    ensures Waiting(ApplySnapshot(s, e), client, c, session)
  {
    match e.data
    case SessionEnded(other) => DeleteElsewhere(homes, s, client, c, session, other);
    case ClientConnected(other, _, _) => ForgetElsewhere(homes, s, client, c, session, other);
    case ClientDisconnected(_, d, _, _, _) =>
      assert SeatHome(homes, s, c) && SeatHome(homes, s, d);
      if d in s.sessionAt { DeleteElsewhere(homes, s, client, c, session, s.sessionAt[d]); }
    case ReconnectTimeout(other, _, _) => ForgetElsewhere(homes, s, client, c, session, other);
    case _ =>
  }

  lemma {:induction false} WaitingThroughout(homes: Homes, account: string, before: seq<Event>, between: seq<Event>,
                                             client: string, c: string, session: Session)
    requires AllHomed(homes, account, before + between) && OneSessionEach(homes)
    requires Waiting(SnapshotOf(Run(before), account), client, c, session)
    requires forall i :: 0 <= i < |between| ==> Elsewhere(between[i], account, client, c, session.id)
    ensures Waiting(SnapshotOf(Run(before + between), account), client, c, session)
    decreases |between|
  {
    if between == [] {
      assert before + between == before;
    } else {
      var (front, e) := (between[..|between| - 1], between[|between| - 1]);
      var events := before + front;
      assert (before + between)[..|before + between| - 1] == events;
      assert AllHomed(homes, account, events);
      WaitingThroughout(homes, account, before, front, client, c, session);
      if e.accountId == account {
        RunAtHome(homes, account, events);
        RunOwner(events, account);
        StillWaiting(homes, SnapshotOf(Run(events), account), account, client, c, session, e);
      }
    }
  }

  /** The station's connection drops unexpectedly with its current request id. */
  lemma DropWaits(homes: Homes, s: Snapshot, c: string, reason: string)
    requires AtHome(homes, s) && Shows(s, c) && reason in {"", "unexpected"}
    ensures Waiting(Disconnect(s, c, s.connections[c].requestId, reason), s.connections[c].client, c, s.sessions[s.sessionAt[c]])
  {
    assert SessionHome(homes, s, s.sessionAt[c]);
  }

  lemma ReconnectShows(homes: Homes, s: Snapshot, client: string, c: string, requestId: string, session: Session)
    requires Waiting(s, client, c, session)
    ensures var t := Connect(s, client, c, requestId);
      Shows(t, c) && StationAt(t, c) == Station(session.name, client, c, requestId, session.startedAt)
  {
  }

  lemma PrefixHomed(homes: Homes, account: string, before: seq<Event>, after: seq<Event>)
    requires AllHomed(homes, account, before + after)
    ensures AllHomed(homes, account, before)
  {
    forall i | 0 <= i < |before| ensures Homed(homes, account, before[i]) {
      assert (before + after)[i] == before[i];
    }
  }

  lemma RunStep(events: seq<Event>, e: Event)
    ensures Run(events + [e]) == Apply(Run(events), e)
  {
    assert (events + [e])[..|events|] == events;
  }

  /** A drop of the station shown on `c` with its current request id, and a reconnect of its
      client on `c`. */
  ghost predicate DropAndBack(s: Snapshot, account: string, c: string, drop: Event, back: Event) {
    && Shows(s, c)
    && drop.accountId == back.accountId == account
    && drop.data.ClientDisconnected? && drop.data.connectionId == c && drop.data.reason in {"", "unexpected"}
    && drop.data.requestId == s.connections[c].requestId
    && back.data.ClientConnected? && back.data.connectionId == c && back.data.clientId == s.connections[c].client
  }

  lemma DroppedWaits(homes: Homes, account: string, before: seq<Event>, drop: Event, back: Event, c: string)
    requires AllHomed(homes, account, before) && DropAndBack(SnapshotOf(Run(before), account), account, c, drop, back)
    ensures var s := SnapshotOf(Run(before), account);
      && Waiting(SnapshotOf(Run(before + [drop]), account), back.data.clientId, c, s.sessions[s.sessionAt[c]])
      && s.sessions[s.sessionAt[c]].id == s.sessionAt[c] && s.connections[c].id == c
  {
    var s := SnapshotOf(Run(before), account);
    RunAtHome(homes, account, before);
    assert SessionHome(homes, s, s.sessionAt[c]) && SeatHome(homes, s, c);
    RunStep(before, drop);
    DropWaits(homes, s, c, drop.data.reason);
  }

  /** Reconnect round trip: a station whose connection drops unexpectedly, and whose client
      comes back on it after any events elsewhere, is listed as before but for its new
      request id. */
  lemma ReconnectRoundTrip(homes: Homes, account: string, c: string, before: seq<Event>, drop: Event,
                           between: seq<Event>, back: Event)
    requires OneSessionEach(homes) && AllHomed(homes, account, before + [drop] + between)
    requires DropAndBack(SnapshotOf(Run(before), account), account, c, drop, back)
    requires forall i :: 0 <= i < |between| ==>
      Elsewhere(between[i], account, back.data.clientId, c, SnapshotOf(Run(before), account).sessionAt[c])
    ensures Shows(SnapshotOf(Run(before + [drop] + between + [back]), account), c)
    ensures StationAt(SnapshotOf(Run(before + [drop] + between + [back]), account), c)
      == StationAt(SnapshotOf(Run(before), account), c).(requestId := back.data.requestId)
  {
    var s := SnapshotOf(Run(before), account);
    var session := s.sessions[s.sessionAt[c]];
    var events := before + [drop] + between;
    assert before + ([drop] + between) == events;
    PrefixHomed(homes, account, before, [drop] + between);
    DroppedWaits(homes, account, before, drop, back, c);
    WaitingThroughout(homes, account, before + [drop], between, back.data.clientId, c, session);
    RunStep(events, back);
    ReconnectShows(homes, SnapshotOf(Run(events), account), back.data.clientId, c, back.data.requestId, session);
  }
}
