/** What the baby station list shows, told from the log's events alone: when a station appears
    and with what, and what takes it off the list until when. */
module StationStories {
  import opened Events
  import opened BabyStations

  ghost function After(events: seq<Event>, account: string): Snapshot {
    SnapshotOf(Run(events), account)
  }

  /** Session `id` is shown on connection `c`. */
  predicate ShowsSession(s: Snapshot, c: string, id: string) {
    Shows(s, c) && s.sessionAt[c] == id
  }

  predicate Starts(e: Event, account: string, id: string) {
    e.accountId == account && e.data.SessionStarted? && e.data.id == id
  }

  predicate ConnectsOn(e: Event, account: string, c: string) {
    e.accountId == account && e.data.ClientConnected? && e.data.connectionId == c
  }

  predicate ConnectsAs(e: Event, account: string, client: string) {
    e.accountId == account && e.data.ClientConnected? && e.data.clientId == client
  }

  ghost predicate NeverStarts(events: seq<Event>, account: string, id: string) {
    forall i :: 0 <= i < |events| ==> !Starts(events[i], account, id)
  }

  ghost predicate NeverConnectsOn(events: seq<Event>, account: string, c: string) {
    forall i :: 0 <= i < |events| ==> !ConnectsOn(events[i], account, c)
  }

  ghost predicate NeverConnectsAs(events: seq<Event>, account: string, client: string) {
    forall i :: 0 <= i < |events| ==> !ConnectsAs(events[i], account, client)
  }

  lemma {:induction false} AfterEvent(events: seq<Event>, e: Event, account: string)
    ensures After(events + [e], account) ==
      if e.data.ServerStarted? then EMPTY
      else if e.accountId == account then ApplySnapshot(After(events, account), e)
      else After(events, account)
  {
    RunStep(events, e);
  }

  /** An event of another account changes nothing, unless the server starts. */
  lemma {:induction false} OtherAccounts(events: seq<Event>, e: Event, account: string)
    requires e.accountId != account && !e.data.ServerStarted?
    ensures After(events + [e], account) == After(events, account)
  {
    AfterEvent(events, e, account);
  }

  // ---------------------------------------------------------------- what stays away

  /** Sessions are kept under their own ids. */
  ghost predicate Keyed(s: Snapshot) {
    forall id :: id in s.sessions ==> s.sessions[id].id == id
  }

  lemma {:induction false} ForgetFewer(s: Snapshot, client: string)
    ensures Forget(s, client).sessions.Keys <= s.sessions.Keys
    ensures Forget(s, client).connections.Keys <= s.connections.Keys
    ensures forall id :: id in Forget(s, client).sessions ==> Forget(s, client).sessions[id] == s.sessions[id]
  {
    var first := ForgetConnectionOf(s, client);
    assert first.sessions.Keys <= s.sessions.Keys && first.connections.Keys <= s.connections.Keys;
  }

  lemma {:induction false} ApplyKeyed(s: Snapshot, e: Event)
    requires Keyed(s)
    ensures Keyed(ApplySnapshot(s, e))
  {
    match e.data
    case ReconnectTimeout(client, _, _) => ForgetFewer(s, client);
    case ClientConnected(client, _, _) => ForgetFewer(s, client);
    case _ =>
  }

  lemma {:induction false} RunKeyed(events: seq<Event>, account: string)
    ensures Keyed(After(events, account))
    decreases |events|
  {
    if events != [] {
      var (front, e) := (events[..|events| - 1], events[|events| - 1]);
      assert events == front + [e];
      RunKeyed(front, account);
      AfterEvent(front, e, account);
      ApplyKeyed(After(front, account), e);
    }
  }

  /** A session comes by starting, and a connection by connecting. */
  lemma {:induction false} ApplyComes(s: Snapshot, e: Event, account: string, id: string, c: string)
    requires e.accountId == account
    ensures id in ApplySnapshot(s, e).sessions ==> id in s.sessions || Starts(e, account, id)
    ensures c in ApplySnapshot(s, e).connections ==> c in s.connections || ConnectsOn(e, account, c)
  {
    match e.data
    case ReconnectTimeout(client, _, _) => ForgetFewer(s, client);
    case ClientConnected(client, _, _) => ForgetFewer(s, client);
    case _ =>
  }

  lemma {:induction false} StaysUnstarted(events: seq<Event>, after: seq<Event>, account: string, id: string)
    requires id !in After(events, account).sessions && NeverStarts(after, account, id)
    ensures id !in After(events + after, account).sessions
    decreases |after|
  {
    if after == [] {
      assert events + after == events;
    } else {
      var (front, e) := (after[..|after| - 1], after[|after| - 1]);
      assert events + after == events + front + [e];
      StaysUnstarted(events, front, account, id);
      AfterEvent(events + front, e, account);
      if e.accountId == account { ApplyComes(After(events + front, account), e, account, id, ""); }
    }
  }

  lemma {:induction false} StaysUnconnected(events: seq<Event>, after: seq<Event>, account: string, c: string)
    requires c !in After(events, account).connections && NeverConnectsOn(after, account, c)
    ensures c !in After(events + after, account).connections
    decreases |after|
  {
    if after == [] {
      assert events + after == events;
    } else {
      var (front, e) := (after[..|after| - 1], after[|after| - 1]);
      assert events + after == events + front + [e];
      StaysUnconnected(events, front, account, c);
      AfterEvent(events + front, e, account);
      if e.accountId == account { ApplyComes(After(events + front, account), e, account, "", c); }
    }
  }

  /** The client has neither a connection nor a session whose connection dropped. */
  ghost predicate OwnsNothing(s: Snapshot, client: string) {
    forall c :: !OwnsConnection(s, client, c) && !OwnsParked(s, client, c)
  }

  lemma {:induction false} ApplyOwnsNothing(s: Snapshot, e: Event, account: string, client: string)
    requires SingleOwner(s) && OwnsNothing(s, client) && e.accountId == account && !ConnectsAs(e, account, client)
    ensures OwnsNothing(ApplySnapshot(s, e), client)
  {
    var t := ApplySnapshot(s, e);
    forall c ensures !OwnsConnection(t, client, c) && !OwnsParked(t, client, c) {
      GainsNothing(s, e, account, client, c);
    }
  }

  lemma {:induction false} GainsNothing(s: Snapshot, e: Event, account: string, client: string, c: string)
    requires SingleOwner(s) && OwnsNothing(s, client) && e.accountId == account && !ConnectsAs(e, account, client)
    ensures !OwnsConnection(ApplySnapshot(s, e), client, c) && !OwnsParked(ApplySnapshot(s, e), client, c)
  {
    assert !OwnsConnection(s, client, c) && !OwnsParked(s, client, c);
    match e.data
    case ReconnectTimeout(other, _, _) => ForgetLeavesNothing(s, other);
    case ClientConnected(other, _, _) => ForgetLeavesNothing(s, other);
    case _ =>
  }

  lemma {:induction false} StaysOwnless(events: seq<Event>, after: seq<Event>, account: string, client: string)
    requires OwnsNothing(After(events, account), client) && NeverConnectsAs(after, account, client)
    ensures OwnsNothing(After(events + after, account), client)
    decreases |after|
  {
    if after == [] {
      assert events + after == events;
    } else {
      var (front, e) := (after[..|after| - 1], after[|after| - 1]);
      assert events + after == events + front + [e];
      StaysOwnless(events, front, account, client);
      AfterEvent(events + front, e, account);
      RunOwner(events + front, account);
      if e.accountId == account { ApplyOwnsNothing(After(events + front, account), e, account, client); }
    }
  }

  // ---------------------------------------------------------------- what takes a station off

  /** An ended session is not shown until it is started again. */
  lemma {:induction false} EndedIsGone(events: seq<Event>, e: Event, after: seq<Event>, account: string, id: string,
                                       c: string)
    requires e.accountId == account && e.data == SessionEnded(id) && NeverStarts(after, account, id)
    ensures !ShowsSession(After(events + [e] + after, account), c, id)
  {
    RunKeyed(events, account);
    AfterEvent(events, e, account);
    StaysUnstarted(events + [e], after, account, id);
  }

  /** Nor is one whose connection was closed cleanly with its current request id. */
  lemma {:induction false} ClosedIsGone(events: seq<Event>, e: Event, after: seq<Event>, account: string, id: string,
                                        c: string, d: string)
    requires ShowsSession(After(events, account), c, id) && e.accountId == account && NeverStarts(after, account, id)
    requires e.data.ClientDisconnected? && e.data.connectionId == c && e.data.reason == "clean"
    requires e.data.requestId == StationAt(After(events, account), c).requestId
    ensures !ShowsSession(After(events + [e] + after, account), d, id)
  {
    RunKeyed(events, account);
    AfterEvent(events, e, account);
    StaysUnstarted(events + [e], after, account, id);
  }

  /** Whatever the reason and the request id of a disconnect, nothing is shown on its connection
      until a client connects on it. */
  lemma {:induction false} DisconnectedIsHidden(events: seq<Event>, e: Event, after: seq<Event>, account: string, c: string)
    requires e.accountId == account && e.data.ClientDisconnected?
    requires e.data.connectionId == c && NeverConnectsOn(after, account, c)
    ensures !Shows(After(events + [e] + after, account), c)
  {
    AfterEvent(events, e, account);
    StaysUnconnected(events + [e], after, account, c);
  }

  /** After a restart of the server no session is shown that was not started, on no connection
      on which no client connected. */
  lemma {:induction false} RestartHides(events: seq<Event>, e: Event, after: seq<Event>, account: string, c: string,
                                        id: string)
    requires e.data.ServerStarted?
    ensures NeverConnectsOn(after, account, c) ==> !Shows(After(events + [e] + after, account), c)
    ensures NeverStarts(after, account, id) ==> !ShowsSession(After(events + [e] + after, account), c, id)
  {
    AfterEvent(events, e, account);
    if NeverConnectsOn(after, account, c) { StaysUnconnected(events + [e], after, account, c); }
    if NeverStarts(after, account, id) { StaysUnstarted(events + [e], after, account, id); }
  }

  /** A client that timed out is not shown until it connects again, nor is the session with
      which it was shown until that is started again. */
  lemma {:induction false} TimedOutIsGone(events: seq<Event>, e: Event, after: seq<Event>, account: string,
                                          client: string, c: string, d: string)
    requires e.accountId == account && e.data.ReconnectTimeout? && e.data.clientId == client
    ensures var s := After(events + [e] + after, account);
      NeverConnectsAs(after, account, client) && Shows(s, d) ==> StationAt(s, d).client != client
    ensures var (s, t) := (After(events, account), After(events + [e] + after, account));
      Shows(s, c) && StationAt(s, c).client == client && NeverStarts(after, account, s.sessionAt[c]) ==> !ShowsSession(t, d, s.sessionAt[c])
  {
    var (s, t) := (After(events, account), After(events + [e] + after, account));
    AfterEvent(events, e, account);
    RunOwner(events, account);
    ForgetLeavesNothing(s, client);
    if NeverConnectsAs(after, account, client) {
      StaysOwnless(events + [e], after, account, client);
      assert !OwnsConnection(t, client, d);
    }
    if Shows(s, c) && StationAt(s, c).client == client {
      ShownIsForgotten(events, account, client, c);
      if NeverStarts(after, account, s.sessionAt[c]) { StaysUnstarted(events + [e], after, account, s.sessionAt[c]); }
    }
  }

  lemma {:induction false} ShownIsForgotten(events: seq<Event>, account: string, client: string, c: string)
    requires Shows(After(events, account), c) && After(events, account).connections[c].client == client
    ensures After(events, account).sessionAt[c] !in Forget(After(events, account), client).sessions
  {
    RunKeyed(events, account);
    RunOwner(events, account);
    OneConnection(After(events, account), client, c);
  }

  /** So is a client that connects while it is shown: the session it was shown with goes. */
  lemma {:induction false} ConnectedAnewIsGone(events: seq<Event>, e: Event, after: seq<Event>, account: string,
                                               client: string, c: string, d: string)
    requires Shows(After(events, account), c) && StationAt(After(events, account), c).client == client
    requires ConnectsAs(e, account, client) && NeverStarts(after, account, After(events, account).sessionAt[c])
    ensures !ShowsSession(After(events + [e] + after, account), d, After(events, account).sessionAt[c])
  {
    var s := After(events, account);
    AfterEvent(events, e, account);
    RunOwner(events, account);
    OneConnection(s, client, c);
    assert !OwnsParked(s, client, e.data.connectionId);
    ShownIsForgotten(events, account, client, c);
    StaysUnstarted(events + [e], after, account, s.sessionAt[c]);
  }

  /** A station whose connection dropped unexpectedly and whose client times out before coming
      back is gone until its session is started again, wherever the client connects. */
  lemma {:induction false} DroppedIsGone(homes: Homes, account: string, c: string, before: seq<Event>, drop: Event,
                                         between: seq<Event>,
                                         timeout: Event, after: seq<Event>, d: string)
    requires OneSessionEach(homes) && AllHomed(homes, account, before + [drop] + between)
    requires Shows(After(before, account), c) && drop.accountId == timeout.accountId == account
    requires drop.data.ClientDisconnected? && drop.data.connectionId == c && drop.data.reason in {"", "unexpected"}
    requires drop.data.requestId == StationAt(After(before, account), c).requestId
    requires timeout.data.ReconnectTimeout? && timeout.data.clientId == StationAt(After(before, account), c).client
    requires forall i :: 0 <= i < |between| ==>
      Elsewhere(between[i], account, timeout.data.clientId, c, After(before, account).sessionAt[c])
    requires NeverStarts(after, account, After(before, account).sessionAt[c])
    ensures !ShowsSession(After(before + [drop] + between + [timeout] + after, account), d, After(before, account).sessionAt[c])
  {
    var (s, client) := (After(before, account), timeout.data.clientId);
    var (id, waiting) := (s.sessionAt[c], before + [drop] + between);
    DroppedWaitsOn(homes, account, c, before, drop, between, client);
    WaitingIsForgotten(waiting, account, client, c, s.sessions[id]);
    AfterEvent(waiting, timeout, account);
    StaysUnstarted(waiting + [timeout], after, account, id);
  }

  lemma {:induction false} DroppedWaitsOn(homes: Homes, account: string, c: string, before: seq<Event>, drop: Event,
                                          between: seq<Event>, client: string)
    requires OneSessionEach(homes) && AllHomed(homes, account, before + [drop] + between)
    requires Shows(After(before, account), c) && drop.accountId == account
    requires client == StationAt(After(before, account), c).client
    requires drop.data.ClientDisconnected? && drop.data.connectionId == c && drop.data.reason in {"", "unexpected"}
    requires drop.data.requestId == StationAt(After(before, account), c).requestId
    requires forall i :: 0 <= i < |between| ==> Elsewhere(between[i], account, client, c, After(before, account).sessionAt[c])
    ensures var session := After(before, account).sessions[After(before, account).sessionAt[c]];
      Waiting(After(before + [drop] + between, account), client, c, session) && session.id == After(before, account).sessionAt[c]
  {
    var s := After(before, account);
    assert before + ([drop] + between) == before + [drop] + between;
    PrefixHomed(homes, account, before, [drop] + between);
    DroppedWaits(homes, account, before, drop, drop.(data := ClientConnected(client, c, "")), c);
    WaitingThroughout(homes, account, before + [drop], between, client, c, s.sessions[s.sessionAt[c]]);
  }

  lemma {:induction false} WaitingIsForgotten(events: seq<Event>, account: string, client: string, c: string,
                                              session: Session)
    requires Waiting(After(events, account), client, c, session)
    ensures session.id !in Forget(After(events, account), client).sessions
  {
    RunOwner(events, account);
    OneParked(After(events, account), client, c);
  }

  // ---------------------------------------------------------------- what puts a station on

  /** Connection `c` is this client's, if anybody's. */
  predicate Mine(s: Snapshot, client: string, c: string) {
    (c in s.connections ==> s.connections[c].client == client) && (c in s.parked ==> s.parked[c].client == client)
  }

  /** What is at connection `c` and session `id`, which is at home there, is the same. */
  predicate SameAt(s: Snapshot, t: Snapshot, c: string, id: string) {
    && (c in s.connections <==> c in t.connections) && (c in s.connections ==> s.connections[c] == t.connections[c])
    && (c in s.parked <==> c in t.parked) && (c in s.parked ==> s.parked[c] == t.parked[c])
    && (c in s.sessionAt <==> c in t.sessionAt) && (c in s.sessionAt ==> s.sessionAt[c] == t.sessionAt[c])
    && (id in s.sessions <==> id in t.sessions) && (id in s.sessions ==> s.sessions[id] == t.sessions[id])
  }

  lemma {:induction false} DeleteSame(homes: Homes, s: Snapshot, c: string, id: string, other: string)
    requires AtHome(homes, s) && OneSessionEach(homes) && id in homes && homes[id] == c && other != id
    ensures SameAt(s, DeleteById(s, other), c, id)
  {
    assert SessionHome(homes, s, other);
  }

  lemma {:induction false} ForgetSame(homes: Homes, s: Snapshot, client: string, c: string, id: string, other: string)
    requires AtHome(homes, s) && OneSessionEach(homes) && id in homes && homes[id] == c && SingleOwner(s)
    requires Mine(s, client, c) && other != client
    ensures SameAt(s, Forget(s, other), c, id)
  {
    if d :| OwnsConnection(s, other, d) {
      OneConnection(s, other, d);
      assert SeatHome(homes, s, d);
      if d in s.sessionAt { DeleteSame(homes, s, c, id, s.sessionAt[d]); }
    } else if d :| OwnsParked(s, other, d) {
      OneParked(s, other, d);
      assert SeatHome(homes, s, d);
      DeleteSame(homes, s, c, id, s.parked[d].session);
    } else {
      assert ForgetConnectionOf(s, other) == s && Forget(s, other) == s;
    }
  }

  lemma {:induction false} ApplySame(homes: Homes, s: Snapshot, e: Event, account: string, client: string, c: string,
                                     id: string)
    requires AtHome(homes, s) && OneSessionEach(homes) && id in homes && homes[id] == c && SingleOwner(s)
    requires Mine(s, client, c) && e.accountId == account && Elsewhere(e, account, client, c, id)
    ensures SameAt(s, ApplySnapshot(s, e), c, id)
  {
    match e.data
    case SessionEnded(other) => DeleteSame(homes, s, c, id, other);
    case ClientConnected(other, d, requestId) => ConnectSame(homes, s, client, c, id, other, d, requestId);
    case ReconnectTimeout(other, _, _) => ForgetSame(homes, s, client, c, id, other);
    case ClientDisconnected(_, d, requestId, reason, _) => DisconnectSame(homes, s, c, id, d, requestId, reason);
    case _ =>
  }

  lemma {:induction false} ConnectSame(homes: Homes, s: Snapshot, client: string, c: string, id: string, other: string,
                                       d: string, requestId: string)
    requires AtHome(homes, s) && OneSessionEach(homes) && id in homes && homes[id] == c && SingleOwner(s)
    requires Mine(s, client, c) && other != client && d != c
    ensures SameAt(s, Connect(s, other, d, requestId), c, id)
  {
    ForgetSame(homes, s, client, c, id, other);
  }

  lemma {:induction false} DisconnectSame(homes: Homes, s: Snapshot, c: string, id: string, d: string, requestId: string,
                                          reason: string)
    requires AtHome(homes, s) && OneSessionEach(homes) && id in homes && homes[id] == c && d != c
    ensures SameAt(s, Disconnect(s, d, requestId, reason), c, id)
  {
    assert SeatHome(homes, s, d);
    if d in s.sessionAt { DeleteSame(homes, s, c, id, s.sessionAt[d]); }
  }

  ghost predicate AllElsewhere(events: seq<Event>, account: string, client: string, c: string, id: string) {
    forall i :: 0 <= i < |events| ==> Elsewhere(events[i], account, client, c, id)
  }

  /** Whatever happens elsewhere leaves what is at `c` and `id` alone. */
  lemma {:induction false} ElsewhereSame(homes: Homes, account: string, before: seq<Event>, between: seq<Event>,
                                         client: string, c: string, id: string)
    requires AllHomed(homes, account, before + between) && OneSessionEach(homes) && id in homes && homes[id] == c
    requires Mine(After(before, account), client, c) && AllElsewhere(between, account, client, c, id)
    ensures SameAt(After(before, account), After(before + between, account), c, id)
    decreases |between|
  {
    if between == [] {
      assert before + between == before;
    } else {
      var (front, e) := (between[..|between| - 1], between[|between| - 1]);
      assert before + between == before + front + [e];
      PrefixHomed(homes, account, before + front, [e]);
      ElsewhereSame(homes, account, before, front, client, c, id);
      var s := After(before + front, account);
      assert Elsewhere(e, account, client, c, id);
      RunAtHome(homes, account, before + front);
      RunOwner(before + front, account);
      AfterEvent(before + front, e, account);
      if e.accountId == account { ApplySame(homes, s, e, account, client, c, id); }
    }
  }

  /** Connection ids name their clients: whoever connects on `c` is `client`. */
  ghost predicate OnlyClientOn(events: seq<Event>, account: string, client: string, c: string) {
    forall i :: 0 <= i < |events| ==> OnlyBy(events[i], account, client, c)
  }

  predicate OnlyBy(e: Event, account: string, client: string, c: string) {
    ConnectsOn(e, account, c) ==> e.data.clientId == client
  }

  lemma {:induction false} ForgetWithin(s: Snapshot, client: string)
    ensures Within(Forget(s, client), s)
  {
    var first := ForgetConnectionOf(s, client);
    assert Within(first, s);
  }

  lemma {:induction false} ApplyMine(s: Snapshot, e: Event, account: string, client: string, c: string)
    requires Mine(s, client, c) && e.accountId == account && OnlyBy(e, account, client, c)
    ensures Mine(ApplySnapshot(s, e), client, c)
  {
    match e.data
    case ReconnectTimeout(other, _, _) => ForgetWithin(s, other);
    case ClientConnected(other, _, _) => ForgetWithin(s, other);
    case ClientDisconnected(_, d, requestId, reason, _) => DisconnectMine(s, d, requestId, reason, client, c);
    case _ =>
  }

  lemma {:induction false} DisconnectMine(s: Snapshot, d: string, requestId: string, reason: string, client: string,
                                          c: string)
    requires Mine(s, client, c)
    ensures Mine(Disconnect(s, d, requestId, reason), client, c)
  {
  }

  lemma {:induction false} RunMine(events: seq<Event>, account: string, client: string, c: string)
    requires OnlyClientOn(events, account, client, c)
    ensures Mine(After(events, account), client, c)
    decreases |events|
  {
    if events != [] {
      var (front, e) := (events[..|events| - 1], events[|events| - 1]);
      assert events == front + [e];
      RunMine(front, account, client, c);
      assert OnlyBy(e, account, client, c);
      AfterEvent(front, e, account);
      if e.accountId == account { ApplyMine(After(front, account), e, account, client, c); }
    }
  }

  /** The session is the one at its connection. */
  predicate Hosted(s: Snapshot, session: Session) {
    && session.connection in s.sessionAt && s.sessionAt[session.connection] == session.id
    && session.id in s.sessions && s.sessions[session.id] == session
  }

  predicate Linked(s: Snapshot, client: string, c: string, requestId: string) {
    c in s.connections && s.connections[c] == Connection(client, c, requestId)
  }

  /** A session started on the connection of a connected client is shown, with the name and
      the start that its event gives and the client and request id of its connection, and
      stays so whatever happens elsewhere. */
  lemma {:induction false} StartedIsShown(homes: Homes, account: string, before: seq<Event>, connect: Event,
                                          between: seq<Event>, start: Event,
                                          after: seq<Event>, client: string, c: string, requestId: string, id: string, name: string, startedAt: int)
    requires OneSessionEach(homes) && AllHomed(homes, account, before + [connect] + between + [start] + after)
    requires connect.accountId == account && connect.data == ClientConnected(client, c, requestId)
    requires start.accountId == account && start.data == SessionStarted(id, name, c, startedAt)
    requires OnlyClientOn(before, account, client, c)
    requires AllElsewhere(between, account, client, c, id) && AllElsewhere(after, account, client, c, id)
    ensures var s := After(before + [connect] + between + [start] + after, account);
      Shows(s, c) && StationAt(s, c) == Station(name, client, c, requestId, startedAt)
  {
    var connected := before + [connect];
    var waiting := connected + between;
    var started := waiting + [start];
    PrefixHomed(homes, account, started, after);
    PrefixHomed(homes, account, waiting, [start]);
    assert Homed(homes, account, started[|waiting|]);
    RunMine(before, account, client, c);
    AfterEvent(before, connect, account);
    ApplyMine(After(before, account), connect, account, client, c);
    ElsewhereSame(homes, account, connected, between, client, c, id);
    AfterEvent(waiting, start, account);
    ElsewhereSame(homes, account, started, after, client, c, id);
    assert Linked(After(started, account), client, c, requestId);
    assert Hosted(After(started, account), Session(id, name, c, startedAt));
  }

  /** A session whose start was logged before its client connected is shown once it has, if
      the client has not connected since the server started. */
  lemma {:induction false} ConnectedIsShown(homes: Homes, account: string, before: seq<Event>, restart: Event,
                                            between: seq<Event>, start: Event,
                                            rest: seq<Event>, connect: Event, client: string, c: string, requestId: string,
                                            id: string, name: string, startedAt: int)
    requires OneSessionEach(homes) && AllHomed(homes, account, before + [restart] + between + [start] + rest)
    requires restart.data.ServerStarted?
    requires start.accountId == account && start.data == SessionStarted(id, name, c, startedAt)
    requires connect.accountId == account && connect.data == ClientConnected(client, c, requestId)
    requires NeverConnectsAs(between + [start] + rest, account, client)
    requires NeverConnectsOn(between + [start] + rest, account, c)
    requires AllElsewhere(rest, account, client, c, id)
    ensures var s := After(before + [restart] + between + [start] + rest + [connect], account);
      Shows(s, c) && StationAt(s, c) == Station(name, client, c, requestId, startedAt)
  {
    var restarted := before + [restart];
    var started := restarted + between + [start];
    var waiting := started + rest;
    assert waiting == restarted + (between + [start] + rest);
    AfterEvent(before, restart, account);
    StaysOwnless(restarted, between + [start] + rest, account, client);
    HostedThroughout(homes, account, restarted, between, start, rest, client, c, id);
    AfterEvent(waiting, connect, account);
    NothingToForget(After(waiting, account), client);
    assert !OwnsParked(After(waiting, account), client, c);
  }

  lemma {:induction false} NothingToForget(s: Snapshot, client: string)
    requires OwnsNothing(s, client)
    ensures Forget(s, client) == s
  {
    forall d ensures !OwnsConnection(s, client, d) && !OwnsParked(s, client, d) {}
  }

  /** Nobody has connected on `c`, so nothing there is anybody's. */
  lemma {:induction false} HostedThroughout(homes: Homes, account: string, restarted: seq<Event>, between: seq<Event>,
                                            start: Event,
                                            rest: seq<Event>, client: string, c: string, id: string)
    requires OneSessionEach(homes) && AllHomed(homes, account, restarted + between + [start] + rest)
    requires start.accountId == account && start.data.SessionStarted?
    requires start.data.id == id && start.data.hostConnectionId == c
    requires After(restarted, account) == EMPTY && NeverConnectsOn(between + [start] + rest, account, c)
    requires AllElsewhere(rest, account, client, c, id)
    ensures Hosted(After(restarted + between + [start] + rest, account), Session(id, start.data.name, c, start.data.startedAt))
  {
    var started := restarted + between + [start];
    PrefixHomed(homes, account, started, rest);
    assert Homed(homes, account, started[|restarted + between|]);
    forall i | 0 <= i < |between + [start]| ensures !ConnectsOn((between + [start])[i], account, c) {
      assert !ConnectsOn((between + [start] + rest)[i], account, c);
    }
    StaysVacant(restarted, between + [start], account, c);
    assert restarted + (between + [start]) == started;
    AfterEvent(restarted + between, start, account);
    ElsewhereSame(homes, account, started, rest, client, c, id);
    assert Hosted(After(started, account), Session(id, start.data.name, c, start.data.startedAt));
  }

  predicate Vacant(s: Snapshot, c: string) { c !in s.connections && c !in s.parked }

  lemma {:induction false} ApplyVacant(s: Snapshot, e: Event, account: string, c: string)
    requires Vacant(s, c) && e.accountId == account && !ConnectsOn(e, account, c)
    ensures Vacant(ApplySnapshot(s, e), c)
  {
    match e.data
    case ReconnectTimeout(other, _, _) => ForgetWithin(s, other);
    case ClientConnected(other, _, _) => ForgetWithin(s, other);
    case _ =>
  }

  lemma {:induction false} StaysVacant(events: seq<Event>, after: seq<Event>, account: string, c: string)
    requires Vacant(After(events, account), c) && NeverConnectsOn(after, account, c)
    ensures Vacant(After(events + after, account), c)
    decreases |after|
  {
    if after == [] {
      assert events + after == events;
    } else {
      var (front, e) := (after[..|after| - 1], after[|after| - 1]);
      assert events + after == events + front + [e];
      StaysVacant(events, front, account, c);
      AfterEvent(events + front, e, account);
      if e.accountId == account { ApplyVacant(After(events + front, account), e, account, c); }
    }
  }

  /** A disconnect that names another request id than the current one, or a reason of its own,
      only hides the station: its client brings it back by connecting again. */
  lemma {:induction false} HiddenComesBack(homes: Homes, account: string, c: string, before: seq<Event>, drop: Event,
                                           between: seq<Event>,
                                           back: Event, client: string)
    requires OneSessionEach(homes) && AllHomed(homes, account, before + [drop] + between)
    requires OnlyClientOn(before, account, client, c)
    requires Shows(After(before, account), c) && drop.accountId == back.accountId == account
    requires drop.data.ClientDisconnected? && drop.data.connectionId == c
    requires drop.data.requestId != StationAt(After(before, account), c).requestId || drop.data.reason !in {"clean", "", "unexpected"}
    requires AllElsewhere(between, account, client, c, After(before, account).sessionAt[c])
    requires back.data.ClientConnected? && back.data.clientId == client && back.data.connectionId == c
    ensures var t := After(before + [drop] + between + [back], account);
      Shows(t, c) && StationAt(t, c) == StationAt(After(before, account), c).(requestId := back.data.requestId)
  {
    var (s, waiting) := (After(before, account), before + [drop] + between);
    HiddenWaits(homes, account, c, before, drop, between, client);
    AfterEvent(waiting, back, account);
    NothingToForget(After(waiting, account), client);
    assert !OwnsParked(After(waiting, account), client, c);
  }

  lemma {:induction false} HiddenNow(s: Snapshot, client: string, c: string, requestId: string, reason: string)
    requires SingleOwner(s) && Mine(s, client, c) && Shows(s, c)
    requires requestId != s.connections[c].requestId || reason !in {"clean", "", "unexpected"}
    ensures var t := Disconnect(s, c, requestId, reason);
      t == s.(connections := s.connections - {c}) && Mine(t, client, c) && OwnsNothing(t, client)
  {
    var t := Disconnect(s, c, requestId, reason);
    forall d ensures !OwnsConnection(t, client, d) && !OwnsParked(t, client, d) {
      assert OwnsOnce(s, c, d);
    }
  }

  lemma {:induction false} HiddenWaits(homes: Homes, account: string, c: string, before: seq<Event>, drop: Event,
                                       between: seq<Event>, client: string)
    requires OneSessionEach(homes) && AllHomed(homes, account, before + [drop] + between)
    requires OnlyClientOn(before, account, client, c)
    requires Shows(After(before, account), c) && drop.accountId == account
    requires drop.data.ClientDisconnected? && drop.data.connectionId == c
    requires drop.data.requestId != StationAt(After(before, account), c).requestId || drop.data.reason !in {"clean", "", "unexpected"}
    requires AllElsewhere(between, account, client, c, After(before, account).sessionAt[c])
    ensures var (s, t) := (After(before, account), After(before + [drop] + between, account));
      && s.connections[c].client == client && s.connections[c].id == c
      && OwnsNothing(t, client) && s.sessions[s.sessionAt[c]].connection == c
      && s.sessions[s.sessionAt[c]].id == s.sessionAt[c] && Hosted(t, s.sessions[s.sessionAt[c]])
  {
    var (s, id) := (After(before, account), After(before, account).sessionAt[c]);
    assert before + ([drop] + between) == before + [drop] + between;
    PrefixHomed(homes, account, before, [drop] + between);
    RunAtHome(homes, account, before);
    assert SessionHome(homes, s, id) && SeatHome(homes, s, c);
    RunOwner(before, account);
    RunMine(before, account, client, c);
    AfterEvent(before, drop, account);
    HiddenNow(s, client, c, drop.data.requestId, drop.data.reason);
    forall i | 0 <= i < |between| ensures !ConnectsAs(between[i], account, client) {
      assert Elsewhere(between[i], account, client, c, id);
    }
    StaysOwnless(before + [drop], between, account, client);
    ElsewhereSame(homes, account, before + [drop], between, client, c, id);
  }
}
