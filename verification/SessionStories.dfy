/** What SessionList lists, told from the log's events alone: which connections it takes for
    live, with which request id a session is listed, and what takes a session off the list and
    brings it back. */
module SessionStories {
  import opened Events
  import opened DroppedQueues
  import opened SessionBoard
  import opened SessionRoster

  // ---------------------------------------------------------------- which connections are live

  predicate ConnectsAt(e: Event, seat: Seat) {
    e.accountId == seat.account && e.data.ClientConnected? && e.data.connectionId == seat.connection
  }

  /** A disconnect of the connection, whatever its request id, or a start of the server. */
  predicate CutsOff(e: Event, seat: Seat) {
    e.data.ServerStarted? || (e.accountId == seat.account && e.data.ClientDisconnected? && e.data.connectionId == seat.connection)
  }

  /** Event `k` is the latest connect of the connection, and nothing has cut it off since. */
  ghost predicate LinkedSince(events: seq<Event>, k: nat, seat: Seat) {
    && k < |events| && ConnectsAt(events[k], seat)
    && forall j :: k < j < |events| ==> Untouched(events[j], seat)
  }

  predicate Untouched(e: Event, seat: Seat) { !ConnectsAt(e, seat) && !CutsOff(e, seat) }

  lemma {:induction false} TrackAllLive(r: Roster, snapshot: seq<Session>, at: int)
    ensures TrackAll(r, snapshot, at).live == r.live
    decreases |snapshot|
  {
    if snapshot != [] { TrackAllLive(r, snapshot[..|snapshot| - 1], at); }
  }

  lemma {:induction false} TrackLive(r: Roster, s: Session)
    ensures Track(r, s).live == r.live
  {
  }

  lemma {:induction false} RemoveLive(r: Roster, seat: Seat, account: string, id: string)
    ensures RemoveHeldOn(r, seat).live == r.live && RemoveHeldId(r, account, id).live == r.live
  {
  }

  lemma {:induction false} StartLive(r: Roster, s: Session)
    ensures StartRoster(r, s).live == r.live
  {
  }

  lemma {:induction false} ReconnectLive(r: Roster, seat: Seat, requestId: string, at: int)
    ensures ReconnectRoster(r, seat, requestId, at).live == r.live[seat := Live(requestId, at)]
  {
    RemoveLive(r.(live := r.live[seat := Live(requestId, at)]), seat, "", "");
  }

  lemma {:induction false} DropLive(r: Roster, seat: Seat, requestId: string, at: int)
    ensures DropRoster(r, seat, requestId, at).live == r.live - {seat}
  {
    var i := FindConnection(r.sessions, seat.account, seat.connection);
    if i < |r.sessions| { TrackLive(r.(live := r.live - {seat}), r.sessions[i].(host := Gone(at))); }
  }

  /** What each event makes of the live connections. */
  lemma {:induction false} LiveAfter(r: Roster, e: Event)
    ensures ApplyRoster(r, e).live ==
      match e.data
      case ServerStarted => map[]
      case ClientConnected(_, c, requestId) => r.live[Seat(e.accountId, c) := Live(requestId, e.at)]
      case ClientDisconnected(_, c, _, _, _) => r.live - {Seat(e.accountId, c)}
      case _ => r.live
  {
    match e.data
    case ServerStarted => TrackAllLive(r.(live := map[]), r.sessions, e.at);
    case SessionStarted(id, name, c, startedAt) =>
      StartLive(r, Session(e.accountId, id, name, c, startedAt, LiveState(r.live, Seat(e.accountId, c), e.at)));
    case SessionEnded(id) => RemoveLive(r.(sessions := Delete(r.sessions, e.accountId, id)), Seat("", ""), e.accountId, id);
    case ClientConnected(_, c, requestId) => ReconnectLive(r, Seat(e.accountId, c), requestId, e.at);
    case ClientDisconnected(_, c, requestId, _, _) => DropLive(r, Seat(e.accountId, c), requestId, e.at);
    case _ =>
  }

  lemma {:induction false} LiveStep(r: Roster, e: Event, seat: Seat)
    ensures var live := ApplyRoster(r, e).live;
      && (ConnectsAt(e, seat) ==> seat in live && live[seat] == Live(e.data.requestId, e.at))
      && (CutsOff(e, seat) ==> seat !in live)
      && (Untouched(e, seat) ==> (seat in live <==> seat in r.live) && (seat in live ==> live[seat] == r.live[seat]))
  {
    var live := ApplyRoster(r, e).live;
    LiveAfter(r, e);
  }

  ghost predicate LinkedFrom(events: seq<Event>, seat: Seat) {
    exists k: nat :: LinkedSince(events, k, seat)
  }

  lemma {:induction false} LinkedOneMore(events: seq<Event>, e: Event, seat: Seat)
    ensures ConnectsAt(e, seat) ==> LinkedSince(events + [e], |events|, seat)
    ensures forall k: nat :: k != |events| ==> (LinkedSince(events + [e], k, seat) <==> LinkedSince(events, k, seat) && Untouched(e, seat))
    ensures LinkedSince(events + [e], |events|, seat) <==> ConnectsAt(e, seat)
  {
    var longer := events + [e];
    forall k: nat | k != |events| ensures LinkedSince(longer, k, seat) <==> LinkedSince(events, k, seat) && Untouched(e, seat) {
      if LinkedSince(longer, k, seat) {
        assert Untouched(longer[|events|], seat);
        forall j | k < j < |events| ensures Untouched(events[j], seat) { assert Untouched(longer[j], seat); }
      }
    }
  }

  /** Live connections, for every event sequence whatever: a connection is taken for live
      exactly if it has a connect that nothing has cut off since, and what is kept of it is
      that connect's request id and time. */
  lemma {:induction false} LiveIsLatest(events: seq<Event>, seat: Seat)
    ensures var live := RunRoster(events).live;
      && (seat in live <==> LinkedFrom(events, seat))
      && (forall k: nat :: LinkedSince(events, k, seat) ==> seat in live && live[seat] == Live(events[k].data.requestId, events[k].at))
    decreases |events|
  {
    if events != [] {
      var (front, e) := (events[..|events| - 1], events[|events| - 1]);
      assert events == front + [e];
      LiveIsLatest(front, seat);
      LinkedOneMore(front, e, seat);
      RunStep(front, e);
      LiveStep(RunRoster(front), e, seat);
      LinkedFromStep(front, e, seat);
    }
  }

  lemma {:induction false} LinkedFromStep(events: seq<Event>, e: Event, seat: Seat)
    ensures LinkedFrom(events + [e], seat) <==> ConnectsAt(e, seat) || (LinkedFrom(events, seat) && Untouched(e, seat))
  {
    LinkedOneMore(events, e, seat);
    if LinkedFrom(events, seat) && Untouched(e, seat) {
      var k: nat :| LinkedSince(events, k, seat);
      assert LinkedSince(events + [e], k, seat);
    }
    if LinkedFrom(events + [e], seat) && !ConnectsAt(e, seat) {
      var k: nat :| LinkedSince(events + [e], k, seat);
      assert LinkedSince(events, k, seat);
    }
  }

  // ---------------------------------------------------------------- with which request id

  /** A session on a live connection carries its request id. */
  ghost predicate HostIsLive(b: Board, s: Session) {
    s in b.active && SeatOf(s) in b.live ==> s.host == Online(b.live[SeatOf(s)].since, b.live[SeatOf(s)].requestId)
  }

  ghost predicate HostsLive(b: Board) {
    forall s :: HostIsLive(b, s)
  }

  lemma {:induction false} ReconnectHosts(homes: Homes, b: Board, r: Roster, seat: Seat, requestId: string, at: int)
    requires Tied(homes, b, r) && HostsLive(b)
    ensures HostsLive(Reconnect(b, seat, requestId, at))
  {
    ReconnectBoard(homes, b, r, seat, requestId, at);
    Found(homes, b, r, seat);
    FoundHeld(homes, r.queues, r.held, seat);
    forall s ensures HostIsLive(Reconnect(b, seat, requestId, at), s) { assert HostIsLive(b, s); }
  }

  lemma {:induction false} DropHosts(homes: Homes, b: Board, r: Roster, seat: Seat, requestId: string, at: int)
    requires Tied(homes, b, r) && HostsLive(b)
    ensures HostsLive(Drop(b, seat, requestId, at))
  {
    DropBoard(homes, b, r, seat, requestId, at);
    forall s ensures HostIsLive(Drop(b, seat, requestId, at), s) { assert HostIsLive(b, s); }
  }

  lemma {:induction false} ApplyHosts(homes: Homes, b: Board, r: Roster, e: Event)
    requires Tied(homes, b, r) && HostsLive(b)
    ensures HostsLive(SessionBoard.Apply(b, e))
  {
    match e.data
    case ClientConnected(_, c, requestId) => ReconnectHosts(homes, b, r, Seat(e.accountId, c), requestId, e.at);
    case ClientDisconnected(_, c, requestId, _, _) => DropHosts(homes, b, r, Seat(e.accountId, c), requestId, e.at);
    case _ =>
      forall s ensures HostIsLive(SessionBoard.Apply(b, e), s) { assert HostIsLive(b, s); }
  }

  lemma {:induction false} RunHosts(homes: Homes, events: seq<Event>)
    requires ExpectedAll(homes, events)
    ensures HostsLive(Run(events))
    decreases |events|
  {
    if events != [] {
      var front := events[..|events| - 1];
      RunHosts(homes, front);
      RunTied(homes, front);
      ApplyHosts(homes, Run(front), RunRoster(front), events[|events| - 1]);
    }
  }

  /** A session listed on a live connection is listed with the request id and the time of the
      connection's latest connect, whether the session or the connect came first. */
  lemma {:induction false} ListedAsConnected(homes: Homes, events: seq<Event>, s: Session, k: nat)
    requires ExpectedAll(homes, events) && s in RunRoster(events).sessions && LinkedSince(events, k, SeatOf(s))
    ensures s.host == Online(events[k].at, events[k].data.requestId)
  {
    RunTied(homes, events);
    RunHosts(homes, events);
    LiveIsLatest(events, SeatOf(s));
    assert HostIsLive(Run(events), s);
  }

  // ---------------------------------------------------------------- one more event

  lemma {:induction false} OneMore(homes: Homes, events: seq<Event>, e: Event)
    requires ExpectedAll(homes, events + [e])
    ensures ExpectedAll(homes, events) && Expected(homes, e)
    ensures Tied(homes, Run(events), RunRoster(events)) && Tied(homes, Run(events + [e]), RunRoster(events + [e]))
    ensures Run(events + [e]) == SessionBoard.Apply(Run(events), e)
  {
    assert (events + [e])[..|events|] == events;
    assert Expected(homes, (events + [e])[|events|]);
    forall i | 0 <= i < |events| ensures Expected(homes, events[i]) { assert Expected(homes, (events + [e])[i]); }
    RunTied(homes, events);
    RunTied(homes, events + [e]);
  }

  lemma {:induction false} Front(homes: Homes, events: seq<Event>, after: seq<Event>)
    requires ExpectedAll(homes, events + after)
    ensures ExpectedAll(homes, events)
  {
    forall i | 0 <= i < |events| ensures Expected(homes, events[i]) { assert Expected(homes, (events + after)[i]); }
  }

  // ---------------------------------------------------------------- what puts a session on

  /** A started session is listed with what its event says, on a live connection with the
      request id and time of its latest connect, else with the placeholder. */
  lemma {:induction false} StartIsListed(homes: Homes, events: seq<Event>, e: Event, id: string, name: string, c: string,
                                         startedAt: int)
    requires ExpectedAll(homes, events + [e]) && e.data == SessionStarted(id, name, c, startedAt)
    ensures var sessions := RunRoster(events + [e]).sessions;
      && (forall k: nat :: LinkedSince(events, k, Seat(e.accountId, c)) ==>
            Session(e.accountId, id, name, c, startedAt, Online(events[k].at, events[k].data.requestId)) in sessions)
      && (!LinkedFrom(events, Seat(e.accountId, c)) ==> Session(e.accountId, id, name, c, startedAt, Online(e.at, "TODO")) in sessions)
  {
    OneMore(homes, events, e);
    LiveIsLatest(events, Seat(e.accountId, c));
    assert forall s :: s in Run(events + [e]).active <==> s in RunRoster(events + [e]).sessions;
  }

  /** It is then the only one on its connection and the only one with its id, and none is held
      on its connection. */
  lemma {:induction false} StartReplaces(homes: Homes, events: seq<Event>, e: Event, s: Session, t: Session)
    requires ExpectedAll(homes, events + [e]) && e.data.SessionStarted?
    requires s in RunRoster(events + [e]).sessions && s.Is(e.accountId, e.data.id)
    requires SeatOf(s) == Seat(e.accountId, e.data.hostConnectionId)
    requires SeatOf(t) == SeatOf(s) || t.id == s.id
    ensures t in RunRoster(events + [e]).sessions ==> t == s
    ensures SeatOf(t) == SeatOf(s) ==> !InQueue(RunRoster(events + [e]).queues, t)
  {
    OneMore(homes, events, e);
    RosterKept(homes, events + [e], s, t);
    assert forall x :: x in Run(events + [e]).active <==> x in RunRoster(events + [e]).sessions;
  }

  // ---------------------------------------------------------------- disconnects

  predicate Carries(s: Session, requestId: string) { s.host.Online? && s.host.requestId == requestId }

  predicate DisconnectsAt(e: Event, seat: Seat) {
    e.accountId == seat.account && e.data.ClientDisconnected? && e.data.connectionId == seat.connection
  }

  lemma {:induction false} ListedAt(homes: Homes, events: seq<Event>, s: Session)
    requires ExpectedAll(homes, events) && s in RunRoster(events).sessions
    ensures s in Run(events).active && s.host.Online?
    ensures var i := FindConnection(RunRoster(events).sessions, s.account, s.connection);
      i < |RunRoster(events).sessions| && RunRoster(events).sessions[i] == s
    ensures forall x :: x in Run(events).active && x.Is(s.account, s.id) ==> x == s
  {
    var (b, r) := (Run(events), RunRoster(events));
    RunTied(homes, events);
    HomeOf(homes, b, r, s);
    Found(homes, b, r, SeatOf(s));
    OnlyOneKey(r.sessions, b.active, s);
  }

  /** A disconnect with the request id a session is listed with takes it off the list, and
      holds it as gone since. */
  lemma {:induction false} DisconnectDelists(homes: Homes, events: seq<Event>, s: Session, e: Event)
    requires ExpectedAll(homes, events + [e]) && s in RunRoster(events).sessions
    requires DisconnectsAt(e, SeatOf(s)) && Carries(s, e.data.requestId)
    ensures var r := RunRoster(events + [e]);
      && (forall x :: x in r.sessions ==> !x.Is(s.account, s.id))
      && HeldBefore(QueueOf(r.queues, s.account), s.(host := Gone(e.at)), 0)
  {
    var (b, r) := (Run(events), RunRoster(events));
    OneMore(homes, events, e);
    ListedAt(homes, events, s);
    DropBoard(homes, b, r, SeatOf(s), e.data.requestId, e.at);
    JoinedLast(QueueOf(b.queues, s.account), s.(host := Gone(e.at)));
    assert forall x :: x in Run(events + [e]).active <==> x in RunRoster(events + [e]).sessions;
  }

  /** So does a disconnect with the request id of the latest connect of its connection. */
  lemma {:induction false} LatestDisconnectDelists(homes: Homes, events: seq<Event>, s: Session, k: nat, e: Event)
    requires ExpectedAll(homes, events + [e]) && s in RunRoster(events).sessions && LinkedSince(events, k, SeatOf(s))
    requires DisconnectsAt(e, SeatOf(s)) && e.data.requestId == events[k].data.requestId
    ensures forall x :: x in RunRoster(events + [e]).sessions ==> !x.Is(s.account, s.id)
  {
    Front(homes, events, [e]);
    ListedAsConnected(homes, events, s, k);
    DisconnectDelists(homes, events, s, e);
  }

  /** One with another request id leaves it listed as it was. */
  lemma {:induction false} OtherDisconnectKeeps(homes: Homes, events: seq<Event>, s: Session, e: Event)
    requires ExpectedAll(homes, events + [e]) && s in RunRoster(events).sessions
    requires e.data.ClientDisconnected? && (DisconnectsAt(e, SeatOf(s)) ==> !Carries(s, e.data.requestId))
    ensures s in RunRoster(events + [e]).sessions
  {
    var (b, r, seat) := (Run(events), RunRoster(events), Seat(e.accountId, e.data.connectionId));
    OneMore(homes, events, e);
    ListedAt(homes, events, s);
    Found(homes, b, r, seat);
    DropBoard(homes, b, r, seat, e.data.requestId, e.at);
    assert s in Run(events + [e]).active;
  }

  // ---------------------------------------------------------------- where sessions come from

  ghost predicate Occurs(b: Board, s: Session) {
    s in b.active || s in QueueOf(b.queues, s.account)
  }

  predicate SameButHost(s: Session, t: Session) { s.(host := t.host) == t }

  ghost predicate Descends(b: Board, s: Session) {
    exists t :: Occurs(b, t) && SameButHost(t, s)
  }

  predicate StartsAs(e: Event, s: Session) {
    e.accountId == s.account && e.data == SessionStarted(s.id, s.name, s.connection, s.startedAt)
  }

  lemma {:induction false} HeldLast(queue: seq<Session>, d: Session, s: Session)
    requires s in LastHeld(queue + [d])
    ensures s in queue || s == d
  {
  }

  lemma {:induction false} HoldAllFrom(queues: Queues, sessions: seq<Session>, at: int, s: Session)
    requires s in QueueOf(HoldAll(queues, sessions, at), s.account)
    ensures s in QueueOf(queues, s.account) || exists t :: t in sessions && SameButHost(t, s)
    decreases |sessions|
  {
    if sessions != [] {
      var (front, last) := (sessions[..|sessions| - 1], sessions[|sessions| - 1]);
      if s in QueueOf(HoldAll(queues, front, at), s.account) {
        HoldAllFrom(queues, front, at, s);
      } else {
        HeldLast(QueueOf(HoldAll(queues, front, at), last.account), last.(host := Gone(at)), s);
        assert last in sessions && SameButHost(last, s);
      }
    }
  }

  lemma {:induction false} RestartDescends(homes: Homes, b: Board, r: Roster, at: int, s: Session)
    requires Tied(homes, b, r) && Occurs(Restart(b, at), s)
    ensures Descends(b, s)
  {
    assert Lists(r.sessions, b.active);
    HoldAllFrom(b.queues, InOrder(b.active), at, s);
    if s in QueueOf(b.queues, s.account) {
      assert Occurs(b, s) && SameButHost(s, s);
    } else {
      var t :| t in InOrder(b.active) && SameButHost(t, s);
      assert Occurs(b, t);
    }
  }

  lemma {:induction false} ReconnectDescends(homes: Homes, b: Board, r: Roster, seat: Seat, requestId: string, at: int,
                                             s: Session)
    requires Tied(homes, b, r) && Occurs(Reconnect(b, seat, requestId, at), s)
    ensures Descends(b, s)
  {
    var i := FindConnection(r.sessions, seat.account, seat.connection);
    ReconnectBoard(homes, b, r, seat, requestId, at);
    Found(homes, b, r, seat);
    FoundHeld(homes, r.queues, r.held, seat);
    OffKeeps(QueueOf(b.queues, seat.account), ConnectionOf, seat.connection);
    if Occurs(b, s) {
      assert SameButHost(s, s);
    } else if i < |r.sessions| {
      assert Occurs(b, r.sessions[i]) && SameButHost(r.sessions[i], s);
    } else {
      assert Occurs(b, r.held[seat]) && SameButHost(r.held[seat], s);
    }
  }

  lemma {:induction false} DropDescends(homes: Homes, b: Board, r: Roster, seat: Seat, requestId: string, at: int,
                                        s: Session)
    requires Tied(homes, b, r) && Occurs(Drop(b, seat, requestId, at), s)
    ensures Descends(b, s)
  {
    var i := FindConnection(r.sessions, seat.account, seat.connection);
    DropBoard(homes, b, r, seat, requestId, at);
    Found(homes, b, r, seat);
    if Occurs(b, s) {
      assert SameButHost(s, s);
    } else {
      var d := r.sessions[i].(host := Gone(at));
      HeldLast(QueueOf(b.queues, d.account), d, s);
      assert Occurs(b, r.sessions[i]) && SameButHost(r.sessions[i], s);
    }
  }

  lemma {:induction false} RemoveFirstFrom(queue: seq<Session>, id: string, s: Session)
    requires s in RemoveFirst(queue, IdOf, id)
    ensures s in queue
  {
    RemoveFirstAt(queue, IdOf, id, IndexOf(queue, IdOf, id));
  }

  /** A session listed or held after an event was so before, or the event starts it. */
  lemma {:induction false} ApplyDescends(homes: Homes, b: Board, r: Roster, e: Event, s: Session)
    requires Tied(homes, b, r) && Occurs(SessionBoard.Apply(b, e), s)
    ensures StartsAs(e, s) || Descends(b, s)
  {
    match e.data
    case ServerStarted => RestartDescends(homes, b, r, e.at, s);
    case ClientConnected(_, c, requestId) => ReconnectDescends(homes, b, r, Seat(e.accountId, c), requestId, e.at, s);
    case ClientDisconnected(_, c, requestId, _, _) => DropDescends(homes, b, r, Seat(e.accountId, c), requestId, e.at, s);
    case SessionStarted(_, _, c, _) =>
      OffKeeps(QueueOf(b.queues, e.accountId), ConnectionOf, c);
      if Occurs(b, s) { assert SameButHost(s, s); }
    case SessionEnded(id) =>
      if s !in b.active && s !in QueueOf(b.queues, s.account) { RemoveFirstFrom(QueueOf(b.queues, e.accountId), id, s); }
      assert Occurs(b, s) && SameButHost(s, s);
    case _ => assert SameButHost(s, s);
  }

  ghost predicate From(events: seq<Event>, s: Session) {
    exists i :: 0 <= i < |events| && StartsAs(events[i], s)
  }

  lemma {:induction false} OccursFrom(homes: Homes, events: seq<Event>, s: Session)
    requires ExpectedAll(homes, events) && Occurs(Run(events), s)
    ensures From(events, s)
    decreases |events|
  {
    if events != [] {
      var (front, e) := (events[..|events| - 1], events[|events| - 1]);
      assert events == front + [e];
      OneMore(homes, front, e);
      ApplyDescends(homes, Run(front), RunRoster(front), e, s);
      if StartsAs(e, s) {
        assert StartsAs(events[|front|], s);
      } else {
        var t :| Occurs(Run(front), t) && SameButHost(t, s);
        OccursFrom(homes, front, t);
        var i :| 0 <= i < |front| && StartsAs(front[i], t);
        assert StartsAs(events[i], s);
      }
    }
  }

  /** Nothing is made up: whatever is listed or held has the account, id, name, connection and
      start of a session.started event. */
  lemma {:induction false} ListedWasStarted(homes: Homes, events: seq<Event>, s: Session)
    requires ExpectedAll(homes, events)
    requires s in RunRoster(events).sessions || s in QueueOf(RunRoster(events).queues, s.account)
    ensures From(events, s)
  {
    RunTied(homes, events);
    OccursFrom(homes, events, s);
  }

  // ---------------------------------------------------------------- the end of a session

  /** Assumption A1 for one id: it is only ever started on this connection of this account. */
  ghost predicate OnlyOn(events: seq<Event>, id: string, seat: Seat) {
    forall i :: 0 <= i < |events| ==> StartsOn(events[i], id, seat)
  }

  predicate StartsOn(e: Event, id: string, seat: Seat) {
    e.data.SessionStarted? && e.data.id == id ==> Seat(e.accountId, e.data.hostConnectionId) == seat
  }

  lemma {:induction false} SeatOfId(homes: Homes, events: seq<Event>, s: Session, id: string, seat: Seat)
    requires ExpectedAll(homes, events) && OnlyOn(events, id, seat) && Occurs(Run(events), s) && s.id == id
    ensures SeatOf(s) == seat
  {
    OccursFrom(homes, events, s);
    var i :| 0 <= i < |events| && StartsAs(events[i], s);
    assert StartsOn(events[i], id, seat);
  }

  predicate Starts(e: Event, account: string, id: string) {
    e.accountId == account && e.data.SessionStarted? && e.data.id == id
  }

  ghost predicate Absent(b: Board, account: string, id: string) {
    forall s :: Occurs(b, s) ==> !s.Is(account, id)
  }

  lemma {:induction false} StaysAbsent(homes: Homes, events: seq<Event>, after: seq<Event>, account: string, id: string)
    requires ExpectedAll(homes, events + after) && Absent(Run(events), account, id)
    requires forall i :: 0 <= i < |after| ==> !Starts(after[i], account, id)
    ensures Absent(Run(events + after), account, id)
    decreases |after|
  {
    if after == [] {
      assert events + after == events;
    } else {
      var (front, e) := (after[..|after| - 1], after[|after| - 1]);
      assert events + after == events + front + [e];
      OneMore(homes, events + front, e);
      StaysAbsent(homes, events, front, account, id);
      var b := Run(events + front);
      forall s | Occurs(SessionBoard.Apply(b, e), s) ensures !s.Is(account, id) {
        ApplyDescends(homes, b, RunRoster(events + front), e, s);
        if Descends(b, s) {
          var t :| Occurs(b, t) && SameButHost(t, s);
          assert !t.Is(account, id);
        }
      }
    }
  }

  lemma {:induction false} QueueWithout(homes: Homes, events: seq<Event>, seat: Seat, id: string, x: Session)
    requires ExpectedAll(homes, events) && OnlyOn(events, id, seat)
    requires x in RemoveFirst(QueueOf(Run(events).queues, seat.account), IdOf, id)
    ensures x.id != id
  {
    var queue := QueueOf(Run(events).queues, seat.account);
    var i := IndexOf(queue, IdOf, id);
    RunTied(homes, events);
    RemoveFirstAt(queue, IdOf, id, i);
    assert QueueTied(homes, RunRoster(events).queues, seat.account);
    assert EntryTied(homes, seat.account, x);
    if i < |queue| {
      assert EntryTied(homes, seat.account, queue[i]);
      SeatOfId(homes, events, queue[i], id, seat);
      CutIsOff(queue, ConnectionOf, i);
      OffKeeps(queue, ConnectionOf, seat.connection);
      if x.id == id { SeatOfId(homes, events, x, id, seat); }
    }
  }

  lemma {:induction false} EndRemoves(homes: Homes, events: seq<Event>, seat: Seat, id: string, s: Session)
    requires ExpectedAll(homes, events) && OnlyOn(events, id, seat) && Occurs(End(Run(events), seat.account, id), s)
    ensures !s.Is(seat.account, id)
  {
    var b := Run(events);
    if s !in End(b, seat.account, id).active && s.account == seat.account { QueueWithout(homes, events, seat, id, s); }
  }

  /** An ended session is neither listed nor held until it is started again, whoever connects. */
  lemma {:induction false} EndedIsGone(homes: Homes, events: seq<Event>, e: Event, after: seq<Event>, seat: Seat,
                                       id: string, s: Session)
    requires ExpectedAll(homes, events + [e] + after) && OnlyOn(events, id, seat)
    requires e.accountId == seat.account && e.data == SessionEnded(id)
    requires forall i :: 0 <= i < |after| ==> !Starts(after[i], seat.account, id)
    requires s.Is(seat.account, id)
    ensures s !in RunRoster(events + [e] + after).sessions && s !in QueueOf(RunRoster(events + [e] + after).queues, seat.account)
  {
    Front(homes, events + [e], after);
    OneMore(homes, events, e);
    forall t | Occurs(Run(events + [e]), t) ensures !t.Is(seat.account, id) { EndRemoves(homes, events, seat, id, t); }
    StaysAbsent(homes, events + [e], after, seat.account, id);
    RunTied(homes, events + [e] + after);
    assert !Occurs(Run(events + [e] + after), s);
  }

  // ---------------------------------------------------------------- what leaves a session alone

  /** An event that is not about this session or its connection; a disconnect of its connection
      with another request id is not about it either. */
  predicate Elsewhere(s: Session, e: Event) {
    match e.data
    case ServerStarted => false
    case SessionStarted(id, _, c, _) => id != s.id && Seat(e.accountId, c) != SeatOf(s)
    case SessionEnded(id) => !s.Is(e.accountId, id)
    case ClientConnected(_, c, _) => Seat(e.accountId, c) != SeatOf(s)
    case ClientDisconnected(_, c, requestId, _, _) => Seat(e.accountId, c) == SeatOf(s) ==> !Carries(s, requestId)
    case _ => true
  }

  ghost predicate AllElsewhere(s: Session, between: seq<Event>) {
    forall i :: 0 <= i < |between| ==> Elsewhere(s, between[i])
  }

  lemma {:induction false} ConnectKeeps(homes: Homes, events: seq<Event>, s: Session, seat: Seat, requestId: string, at: int)
    requires ExpectedAll(homes, events) && OnlyOn(events, s.id, SeatOf(s)) && s in Run(events).active && seat != SeatOf(s)
    ensures s in Reconnect(Run(events), seat, requestId, at).active
  {
    var (b, r) := (Run(events), RunRoster(events));
    RunTied(homes, events);
    ReconnectBoard(homes, b, r, seat, requestId, at);
    Found(homes, b, r, seat);
    FoundHeld(homes, r.queues, r.held, seat);
    if seat in r.held && r.held[seat].id == s.id {
      SeatOfId(homes, events, r.held[seat], s.id, SeatOf(s));
    }
  }

  lemma {:induction false} EventKeeps(homes: Homes, events: seq<Event>, s: Session, e: Event)
    requires ExpectedAll(homes, events + [e]) && OnlyOn(events, s.id, SeatOf(s))
    requires s in RunRoster(events).sessions && Elsewhere(s, e)
    ensures s in RunRoster(events + [e]).sessions
  {
    OneMore(homes, events, e);
    match e.data
    case ClientConnected(_, c, requestId) =>
      ConnectKeeps(homes, events, s, Seat(e.accountId, c), requestId, e.at);
      assert s in Run(events + [e]).active;
    case ClientDisconnected(_, _, _, _, _) => OtherDisconnectKeeps(homes, events, s, e);
    case SessionStarted(_, _, _, _) => assert s in Run(events + [e]).active;
    case SessionEnded(_) => assert s in Run(events + [e]).active;
    case ReconnectTimeout(_, _, _) => assert s in Run(events + [e]).active;
    case Unrelated(_) => assert s in Run(events + [e]).active;
  }

  /** A listed session stays listed, as it is, whatever happens elsewhere. */
  lemma {:induction false} StaysListed(homes: Homes, events: seq<Event>, between: seq<Event>, s: Session)
    requires ExpectedAll(homes, events + between) && OnlyOn(events + between, s.id, SeatOf(s))
    requires s in RunRoster(events).sessions && AllElsewhere(s, between)
    ensures s in RunRoster(events + between).sessions
    decreases |between|
  {
    if between == [] {
      assert events + between == events;
    } else {
      var (front, e) := (between[..|between| - 1], between[|between| - 1]);
      assert events + between == events + front + [e];
      Front(homes, events + front, [e]);
      forall i | 0 <= i < |events + front| ensures StartsOn((events + front)[i], s.id, SeatOf(s)) {
        assert StartsOn((events + between)[i], s.id, SeatOf(s));
      }
      StaysListed(homes, events, front, s);
      assert Elsewhere(s, e);
      EventKeeps(homes, events + front, s, e);
    }
  }

  // ---------------------------------------------------------------- drop and back

  function Drops(events: seq<Event>): nat
    decreases |events|
  {
    if events == [] then 0
    else Drops(events[..|events| - 1]) + (if events[|events| - 1].data.ClientDisconnected? then 1 else 0)
  }

  ghost predicate Held(queues: Queues, d: Session, later: nat) {
    HeldBefore(QueueOf(queues, d.account), d, later)
  }

  lemma {:induction false} ReleaseHeld(queues: Queues, seat: Seat, d: Session, later: nat)
    requires Held(queues, d, later) && seat != SeatOf(d)
    ensures Held(Release(queues, seat.account, seat.connection), d, later)
  {
    if seat.account == d.account { OffHeld(QueueOf(queues, d.account), ConnectionOf, seat.connection, d, later); }
  }

  lemma {:induction false} DropHeld(homes: Homes, b: Board, r: Roster, seat: Seat, requestId: string, at: int, d: Session,
                                    later: nat)
    requires Tied(homes, b, r) && Held(b.queues, d, later) && later < 3
    ensures Held(Drop(b, seat, requestId, at).queues, d, later + 1)
  {
    var i := FindConnection(r.sessions, seat.account, seat.connection);
    DropBoard(homes, b, r, seat, requestId, at);
    Weaker(QueueOf(b.queues, d.account), d, later, later + 1);
    assert QueueTied(homes, r.queues, d.account);
    if i < |r.sessions| { JoinHeld(QueueOf(b.queues, d.account), r.sessions[i].(host := Gone(at)), d, later); }
  }

  lemma {:induction false} EventHeld(homes: Homes, b: Board, r: Roster, e: Event, d: Session, later: nat)
    requires Tied(homes, b, r) && Held(b.queues, d, later) && Elsewhere(d, e) && (e.data.ClientDisconnected? ==> later < 3)
    ensures Held(SessionBoard.Apply(b, e).queues, d, later + (if e.data.ClientDisconnected? then 1 else 0))
  {
    match e.data
    case SessionStarted(_, _, c, _) => ReleaseHeld(b.queues, Seat(e.accountId, c), d, later);
    case SessionEnded(id) =>
      if e.accountId == d.account { RemoveFirstHeld(QueueOf(b.queues, d.account), IdOf, id, d, later); }
    case ClientConnected(_, c, requestId) =>
      ReconnectBoard(homes, b, r, Seat(e.accountId, c), requestId, e.at);
      ReleaseHeld(b.queues, Seat(e.accountId, c), d, later);
    case ClientDisconnected(_, c, requestId, _, _) => DropHeld(homes, b, r, Seat(e.accountId, c), requestId, e.at, d, later);
    case _ =>
  }

  /** A held session stays held through fewer than four disconnects. */
  lemma {:induction false} StaysHeld(homes: Homes, events: seq<Event>, between: seq<Event>, d: Session)
    requires ExpectedAll(homes, events + between) && Held(RunRoster(events).queues, d, 0)
    requires AllElsewhere(d, between) && Drops(between) < 4
    ensures Held(RunRoster(events + between).queues, d, Drops(between))
    decreases |between|
  {
    if between == [] {
      assert events + between == events;
    } else {
      var (front, e) := (between[..|between| - 1], between[|between| - 1]);
      assert events + between == events + front + [e];
      OneMore(homes, events + front, e);
      StaysHeld(homes, events, front, d);
      assert Elsewhere(d, e);
      EventHeld(homes, Run(events + front), RunRoster(events + front), e, d, Drops(front));
    }
  }

  /** A client that connects on the connection of a held session puts it back on the list, with
      the new request id. */
  lemma {:induction false} BackLists(homes: Homes, events: seq<Event>, e: Event, d: Session, later: nat)
    requires ExpectedAll(homes, events + [e]) && Held(RunRoster(events).queues, d, later) && ConnectsAt(e, SeatOf(d))
    ensures d.(host := Online(e.at, e.data.requestId)) in RunRoster(events + [e]).sessions
  {
    var (b, r, seat) := (Run(events), RunRoster(events), SeatOf(d));
    OneMore(homes, events, e);
    var i: nat :| Behind(QueueOf(r.queues, d.account), i, d, later);
    FoundHeld(homes, r.queues, r.held, seat);
    Found(homes, b, r, seat);
    forall x | x in b.active ensures SeatOf(x) != seat { HomeOf(homes, b, r, x); }
    ReconnectBoard(homes, b, r, seat, e.data.requestId, e.at);
    assert d.(host := Online(e.at, e.data.requestId)) in Run(events + [e]).active;
  }

  /** Drop and back: a session whose client's current request disconnects, and whose client is
      back before four other disconnects, is listed as before but for its new request id and
      time. */
  lemma {:induction false} DropAndBack(homes: Homes, events: seq<Event>, s: Session, drop: Event, between: seq<Event>,
                                       back: Event)
    requires ExpectedAll(homes, events + [drop] + between + [back]) && s in RunRoster(events).sessions
    requires DisconnectsAt(drop, SeatOf(s)) && Carries(s, drop.data.requestId)
    requires AllElsewhere(s.(host := Gone(drop.at)), between) && Drops(between) < 4 && ConnectsAt(back, SeatOf(s))
    ensures s.(host := Online(back.at, back.data.requestId)) in RunRoster(events + [drop] + between + [back]).sessions
  {
    var d := s.(host := Gone(drop.at));
    Front(homes, events + [drop] + between, [back]);
    Front(homes, events + [drop], between);
    DisconnectDelists(homes, events, s, drop);
    StaysHeld(homes, events + [drop], between, d);
    BackLists(homes, events + [drop] + between, back, d, Drops(between));
  }

  // ---------------------------------------------------------------- a restart

  lemma {:induction false} DroppedHas(sessions: seq<Session>, at: int, s: Session)
    requires s in sessions
    ensures s.(host := Gone(at)) in DroppedOf(sessions, s.account, at)
    decreases |sessions|
  {
    var (front, last) := (sessions[..|sessions| - 1], sessions[|sessions| - 1]);
    assert sessions == front + [last];
    if s in front { DroppedHas(front, at, s); }
  }

  lemma {:induction false} RestartHolds(homes: Homes, events: seq<Event>, s: Session, restart: Event)
    requires ExpectedAll(homes, events + [restart]) && s in RunRoster(events).sessions && restart.data.ServerStarted?
    requires |QueueOf(RunRoster(events).queues, s.account) + DroppedOf(RunRoster(events).sessions, s.account, restart.at)| <= 4
    ensures Held(RunRoster(events + [restart]).queues, s.(host := Gone(restart.at)), 4)
  {
    var (r, d) := (RunRoster(events), s.(host := Gone(restart.at)));
    var queue := QueueOf(r.queues, s.account) + DroppedOf(r.sessions, s.account, restart.at);
    assert QueueOf(RunRoster(events + [restart]).queues, s.account) == queue by {
      Front(homes, events, [restart]);
      AfterRestart(homes, events, restart, s.account);
    }
    DroppedHas(r.sessions, restart.at, s);
    assert d in queue;
    var i: nat :| i < |queue| && queue[i] == d;
    assert Behind(queue, i, d, 4);
  }

  /** A restart of the server takes every session off the list; if its account had no more than
      four sessions listed or held, a client that comes back brings its session back. */
  lemma {:induction false} RestartAndBack(homes: Homes, events: seq<Event>, s: Session, restart: Event, back: Event)
    requires ExpectedAll(homes, events + [restart] + [back]) && s in RunRoster(events).sessions
    requires restart.data.ServerStarted? && ConnectsAt(back, SeatOf(s))
    ensures RunRoster(events + [restart]).sessions == []
    ensures |QueueOf(RunRoster(events).queues, s.account) + DroppedOf(RunRoster(events).sessions, s.account, restart.at)| <= 4 ==>
      s.(host := Online(back.at, back.data.requestId)) in RunRoster(events + [restart] + [back]).sessions
  {
    Front(homes, events + [restart], [back]);
    Front(homes, events, [restart]);
    AfterRestart(homes, events, restart, s.account);
    if |QueueOf(RunRoster(events).queues, s.account) + DroppedOf(RunRoster(events).sessions, s.account, restart.at)| <= 4 {
      RestartHolds(homes, events, s, restart);
      BackLists(homes, events + [restart], back, s.(host := Gone(restart.at)), 4);
    }
  }
}
