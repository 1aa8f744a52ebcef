/** The simple form of SessionList: a set of active sessions, the connections known to be
    live, and for each account the last four sessions whose connection dropped. */
module SessionBoard {
  import opened Events
  import opened Lexicographic
  import opened DroppedQueues

  datatype HostState = Online(since: int, requestId: string) | Gone(since: int)

  datatype Session = Session(account: string, id: string, name: string, connection: string, startedAt: int, host: HostState)
  {
    predicate IsAt(account: string, connection: string) {
      this.account == account && this.connection == connection
    }

    predicate Is(account: string, id: string) {
      this.account == account && this.id == id
    }
  }

  datatype Seat = Seat(account: string, connection: string)

  datatype Live = Live(requestId: string, since: int)

  type Queues = map<string, seq<Session>>

  datatype Board = Board(active: set<Session>, live: map<Seat, Live>, queues: Queues)

  /** Assumption A1, as far as the list needs it: the account each session id belongs to. */
  type Homes = map<string, string>

  // ---------------------------------------------------------------- queues

  function ConnectionOf(s: Session): string { s.connection }

  function IdOf(s: Session): string { s.id }

  function Hold(queues: Queues, s: Session): Queues {
    queues[s.account := LastHeld(QueueOf(queues, s.account) + [s])]
  }

  function Release(queues: Queues, account: string, connection: string): Queues {
    PutQueue(queues, account, Off(QueueOf(queues, account), ConnectionOf, connection))
  }

  // ---------------------------------------------------------------- events

  function LiveState(live: map<Seat, Live>, seat: Seat, at: int): HostState {
    if seat in live then Online(live[seat].since, live[seat].requestId) else Online(at, "TODO")
  }

  /** The new session takes its connection and its id from whoever had them. */
  function Start(b: Board, s: Session): Board {
    Board((set x | x in b.active && !x.IsAt(s.account, s.connection) && x.id != s.id) + {s},
          b.live, Release(b.queues, s.account, s.connection))
  }

  function End(b: Board, account: string, id: string): Board {
    Board((set x | x in b.active && !x.Is(account, id)), b.live,
          PutQueue(b.queues, account, RemoveFirst(QueueOf(b.queues, account), IdOf, id)))
  }

  /** The session on a connection that comes back gets its new request id; a held one
      becomes active again. */
  ghost function Reconnect(b: Board, seat: Seat, requestId: string, at: int): Board {
    var live := b.live[seat := Live(requestId, at)];
    if exists s :: s in b.active && s.IsAt(seat.account, seat.connection) then
      var s :| s in b.active && s.IsAt(seat.account, seat.connection);
      Board(b.active - {s} + {s.(host := Online(at, requestId))}, live, b.queues)
    else if exists s :: s in QueueOf(b.queues, seat.account) && s.connection == seat.connection then
      var s :| s in QueueOf(b.queues, seat.account) && s.connection == seat.connection;
      Board((set x | x in b.active && x.id != s.id) + {s.(host := Online(at, requestId))}, live,
            Release(b.queues, seat.account, seat.connection))
    else b.(live := live)
  }

  /** Only the disconnect of a session's current request takes it off the board. */
  ghost function Drop(b: Board, seat: Seat, requestId: string, at: int): Board {
    var live := b.live - {seat};
    if exists s :: s in b.active && s.IsAt(seat.account, seat.connection) && s.host.Online? && s.host.requestId == requestId then
      var s :| s in b.active && s.IsAt(seat.account, seat.connection) && s.host.Online? && s.host.requestId == requestId;
      Board(b.active - {s}, live, Hold(b.queues, s.(host := Gone(at))))
    else b.(live := live)
  }

  predicate Before(a: Session, b: Session) {
    Below(a.account, b.account) || (a.account == b.account && Below(a.id, b.id))
  }

  predicate Sorted(sessions: seq<Session>) {
    forall i, j :: 0 <= i < j < |sessions| ==> Before(sessions[i], sessions[j])
  }

  ghost predicate Lists(sessions: seq<Session>, active: set<Session>) {
    Sorted(sessions) && active == set s | s in sessions
  }

  /** The sessions by account, then id; see ListingUnique. */
  ghost function InOrder(active: set<Session>): seq<Session> {
    if exists sessions :: Lists(sessions, active) then var sessions :| Lists(sessions, active); sessions else []
  }

  function HoldAll(queues: Queues, sessions: seq<Session>, at: int): Queues
    decreases |sessions|
  {
    if sessions == [] then queues
    else
      Hold(HoldAll(queues, sessions[..|sessions| - 1], at), sessions[|sessions| - 1].(host := Gone(at)))
  }

  ghost function Restart(b: Board, at: int): Board {
    Board({}, map[], HoldAll(b.queues, InOrder(b.active), at))
  }

  ghost function Apply(b: Board, e: Event): Board {
    match e.data
    case ServerStarted => Restart(b, e.at)
    case SessionStarted(id, name, c, startedAt) =>
      Start(b, Session(e.accountId, id, name, c, startedAt, LiveState(b.live, Seat(e.accountId, c), e.at)))
    case SessionEnded(id) => End(b, e.accountId, id)
    case ClientConnected(_, c, requestId) => Reconnect(b, Seat(e.accountId, c), requestId, e.at)
    case ClientDisconnected(_, c, requestId, _, _) => Drop(b, Seat(e.accountId, c), requestId, e.at)
    case _ => b
  }

  ghost predicate Expected(homes: Homes, e: Event) {
    e.data.SessionStarted? ==> e.data.id in homes && homes[e.data.id] == e.accountId
  }

  ghost function Run(events: seq<Event>): Board
    decreases |events|
  {
    if events == [] then Board({}, map[], map[])
    else Apply(Run(events[..|events| - 1]), events[|events| - 1])
  }

  // ---------------------------------------------------------------- the order of sessions

  lemma BeforeStrict(a: Session, b: Session)
    requires Before(a, b)
    ensures !Before(b, a) && a != b
  {
    if Below(b.account, a.account) && Below(a.account, b.account) { BelowTransitive(a.account, b.account, a.account); }
    if Below(b.id, a.id) && Below(a.id, b.id) { BelowTransitive(a.id, b.id, a.id); }
    BelowIrreflexive(a.account);
    BelowIrreflexive(a.id);
  }

  lemma BeforeTransitive(a: Session, b: Session, c: Session)
    requires Before(a, b) && Before(b, c)
    ensures Before(a, c)
  {
    if Below(a.account, b.account) && Below(b.account, c.account) { BelowTransitive(a.account, b.account, c.account); }
    if Below(a.id, b.id) && Below(b.id, c.id) { BelowTransitive(a.id, b.id, c.id); }
  }

  lemma BeforeTotal(a: Session, b: Session)
    ensures Before(a, b) || Before(b, a) || (a.account == b.account && a.id == b.id)
  {
    BelowTotal(a.account, b.account);
    BelowTotal(a.id, b.id);
  }

  /** A set of sessions has at most one listing. */
  lemma {:induction false} ListingUnique(p: seq<Session>, q: seq<Session>)
    requires Sorted(p) && Sorted(q) && (forall s :: s in p <==> s in q)
    ensures p == q
    decreases |p|
  {
    assert q == [] || q[0] in q;
    if p != [] {
      assert p[0] in q;
      FirstUnique(p, q);
      assert Sorted(p[1..]) && Sorted(q[1..]);
      forall s ensures s in p[1..] <==> s in q[1..] {
        RestOf(p, s);
        RestOf(q, s);
      }
      ListingUnique(p[1..], q[1..]);
      assert p == [p[0]] + p[1..] && q == [q[0]] + q[1..];
    }
  }

  lemma RestOf(p: seq<Session>, s: Session)
    requires Sorted(p) && p != []
    ensures s in p[1..] <==> s in p && s != p[0]
  {
    assert p == [p[0]] + p[1..];
    if s in p[1..] {
      var i :| 0 <= i < |p[1..]| && p[1..][i] == s;
      assert p[i + 1] == s;
      BeforeStrict(p[0], s);
    }
  }

  lemma FirstUnique(p: seq<Session>, q: seq<Session>)
    requires p != [] && q != [] && Sorted(p) && Sorted(q) && p[0] in q && q[0] in p
    ensures p[0] == q[0]
  {
    var i :| 0 <= i < |q| && q[i] == p[0];
    var j :| 0 <= j < |p| && p[j] == q[0];
    if i > 0 && j > 0 {
      BeforeStrict(q[0], q[i]);
    }
  }
}
