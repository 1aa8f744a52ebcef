/** SessionList's own data: a sorted slice of the active sessions, a queue of dropped ones
    per account with an index by connection, changed the way its functions change them; and
    why they always show the board. */
module SessionRoster {
  import opened Events
  import opened Lexicographic
  import opened DroppedQueues
  import opened SessionBoard

  datatype Roster = Roster(sessions: seq<Session>, held: map<Seat, Session>, queues: Queues, live: map<Seat, Live>)

  const EMPTY := Roster([], map[], map[], map[])

  function SeatOf(s: Session): Seat { Seat(s.account, s.connection) }

  // ---------------------------------------------------------------- the sorted slice

  predicate Precedes(s: Session, account: string, id: string) {
    Below(s.account, account) || (s.account == account && Below(s.id, id))
  }

  /** The first position at or after (account, id). */
  function LowerBound(sessions: seq<Session>, account: string, id: string): (i: nat)
    ensures i <= |sessions|
    ensures forall j :: 0 <= j < i ==> Precedes(sessions[j], account, id)
    ensures i < |sessions| ==> !Precedes(sessions[i], account, id)
  {
    if sessions == [] || !Precedes(sessions[0], account, id) then 0
    else 1 + LowerBound(sessions[1..], account, id)
  }

  /** Replaces whatever has the same id at the session's position, comparing ids only. */
  function Put(sessions: seq<Session>, s: Session): seq<Session> {
    var i := LowerBound(sessions, s.account, s.id);
    if i == |sessions| then sessions + [s]
    else if sessions[i].id == s.id then sessions[i := s]
    else sessions[..i] + [s] + sessions[i..]
  }

  function Delete(sessions: seq<Session>, account: string, id: string): seq<Session> {
    var i := LowerBound(sessions, account, id);
    if i == |sessions| || !sessions[i].Is(account, id) then sessions
    else sessions[..i] + sessions[i + 1..]
  }

  function FindConnection(sessions: seq<Session>, account: string, c: string): (i: nat)
    ensures i <= |sessions|
    ensures forall j :: 0 <= j < i ==> !sessions[j].IsAt(account, c)
    ensures i < |sessions| ==> sessions[i].IsAt(account, c)
  {
    if sessions == [] || sessions[0].IsAt(account, c) then 0 else 1 + FindConnection(sessions[1..], account, c)
  }

  // ---------------------------------------------------------------- the dropped sessions

  function RemoveHeldOn(r: Roster, seat: Seat): Roster {
    if seat !in r.held then r
    else
      var queue := QueueOf(r.queues, seat.account);
      var shorter := RemoveFirst(queue, ConnectionOf, seat.connection);
      r.(held := r.held - {seat},
         queues := if |shorter| < |queue| then PutQueue(r.queues, seat.account, shorter) else r.queues)
  }

  function RemoveHeldId(r: Roster, account: string, id: string): Roster {
    var queue := QueueOf(r.queues, account);
    var i := IndexOf(queue, IdOf, id);
    if i == |queue| then r
    else r.(held := r.held - {Seat(account, queue[i].connection)},
            queues := PutQueue(r.queues, account, queue[..i] + queue[i + 1..]))
  }

  function Track(r: Roster, s: Session): Roster {
    var freed := RemoveHeldOn(r.(sessions := Delete(r.sessions, s.account, s.id)), SeatOf(s));
    var queue := QueueOf(freed.queues, s.account) + [s];
    var evicts := |queue| > HELD_PER_ACCOUNT;
    freed.(queues := freed.queues[s.account := if evicts then queue[1..] else queue],
           held := (if evicts then freed.held - {SeatOf(queue[0])} else freed.held)[SeatOf(s) := s])
  }

  // ---------------------------------------------------------------- events

  function StartRoster(r: Roster, s: Session): Roster {
    var i := FindConnection(r.sessions, s.account, s.connection);
    var seated := if i < |r.sessions| then r.(sessions := Delete(r.sessions, s.account, r.sessions[i].id)) else r;
    var freed := RemoveHeldOn(seated, SeatOf(s));
    freed.(sessions := Put(freed.sessions, s))
  }

  function EndRoster(r: Roster, account: string, id: string): Roster {
    RemoveHeldId(r.(sessions := Delete(r.sessions, account, id)), account, id)
  }

  function ReconnectRoster(r: Roster, seat: Seat, requestId: string, at: int): Roster {
    var known := r.(live := r.live[seat := Live(requestId, at)]);
    var i := FindConnection(r.sessions, seat.account, seat.connection);
    if i < |r.sessions| then
      known.(sessions := r.sessions[i := r.sessions[i].(host := Online(at, requestId))])
    else if seat in r.held then
      var freed := RemoveHeldOn(known, seat);
      freed.(sessions := Put(freed.sessions, r.held[seat].(host := Online(at, requestId))))
    else known
  }

  function DropRoster(r: Roster, seat: Seat, requestId: string, at: int): Roster {
    var gone := r.(live := r.live - {seat});
    var i := FindConnection(r.sessions, seat.account, seat.connection);
    if i < |r.sessions| && r.sessions[i].host.Online? && r.sessions[i].host.requestId == requestId
    then Track(gone, r.sessions[i].(host := Gone(at)))
    else gone
  }

  /** Tracks the sessions of a snapshot, one after the other. */
  function TrackAll(r: Roster, snapshot: seq<Session>, at: int): Roster
    decreases |snapshot|
  {
    if snapshot == [] then r
    else
      var (before, s) := (TrackAll(r, snapshot[..|snapshot| - 1], at), snapshot[|snapshot| - 1]);
      if s.host.Gone? then before else Track(before, s.(host := Gone(at)))
  }

  function RestartRoster(r: Roster, at: int): Roster {
    TrackAll(r.(live := map[]), r.sessions, at)
  }

  function ApplyRoster(r: Roster, e: Event): Roster {
    match e.data
    case ServerStarted => RestartRoster(r, e.at)
    case SessionStarted(id, name, c, startedAt) =>
      StartRoster(r, Session(e.accountId, id, name, c, startedAt, LiveState(r.live, Seat(e.accountId, c), e.at)))
    case SessionEnded(id) => EndRoster(r, e.accountId, id)
    case ClientConnected(_, c, requestId) => ReconnectRoster(r, Seat(e.accountId, c), requestId, e.at)
    case ClientDisconnected(_, c, requestId, _, _) => DropRoster(r, Seat(e.accountId, c), requestId, e.at)
    case _ => r
  }

  function RunRoster(events: seq<Event>): Roster
    decreases |events|
  {
    if events == [] then EMPTY else ApplyRoster(RunRoster(events[..|events| - 1]), events[|events| - 1])
  }

  // ---------------------------------------------------------------- the two tied together

  ghost function Members(sessions: seq<Session>): set<Session> { set s | s in sessions }

  /** A listed session is at home and connected, and its connection is not also held. */
  ghost predicate Listed(homes: Homes, active: set<Session>, held: map<Seat, Session>, s: Session) {
    s in active ==> s.id in homes && homes[s.id] == s.account && s.host.Online? && SeatOf(s) !in held
  }

  /** No two active sessions share a connection of an account. */
  ghost predicate Apart(active: set<Session>, s: Session, t: Session) {
    s in active && t in active && SeatOf(s) == SeatOf(t) ==> s == t
  }

  ghost predicate EntryTied(homes: Homes, account: string, d: Session) {
    d.account == account && d.id in homes && homes[d.id] == account && d.host.Gone?
  }

  ghost predicate QueueTied(homes: Homes, queues: Queues, a: string) {
    a in queues ==>
      && 0 < |queues[a]| <= HELD_PER_ACCOUNT && Distinct(queues[a], ConnectionOf)
      && (forall d {:trigger EntryTied(homes, a, d)} :: d in queues[a] ==> EntryTied(homes, a, d))
  }

  predicate At(held: map<Seat, Session>, d: Session) {
    SeatOf(d) in held && held[SeatOf(d)] == d
  }

  predicate InQueue(queues: Queues, d: Session) {
    d in QueueOf(queues, d.account)
  }

  ghost predicate EntryIndexed(held: map<Seat, Session>, queues: Queues, d: Session) {
    At(held, d) <==> InQueue(queues, d)
  }

  ghost predicate KeyTied(held: map<Seat, Session>, seat: Seat) {
    seat in held ==> SeatOf(held[seat]) == seat
  }

  ghost predicate HeldTied(homes: Homes, queues: Queues, held: map<Seat, Session>) {
    && (forall a :: QueueTied(homes, queues, a))
    && (forall d :: EntryIndexed(held, queues, d))
    && (forall seat :: KeyTied(held, seat))
  }

  ghost predicate ActiveTied(homes: Homes, active: set<Session>, held: map<Seat, Session>) {
    && (forall s :: Listed(homes, active, held, s))
    && (forall s, t :: Apart(active, s, t))
  }

  ghost predicate Tied(homes: Homes, b: Board, r: Roster) {
    && Lists(r.sessions, b.active) && b.live == r.live && b.queues == r.queues
    && ActiveTied(homes, b.active, r.held)
    && HeldTied(homes, r.queues, r.held)
  }

  // ---------------------------------------------------------------- slice lemmas

  /** In a sorted slice, nothing from the lower bound on precedes. */
  lemma AfterLowerBound(sessions: seq<Session>, account: string, id: string, j: nat)
    requires Sorted(sessions) && LowerBound(sessions, account, id) <= j < |sessions|
    ensures !Precedes(sessions[j], account, id)
  {
    var i := LowerBound(sessions, account, id);
    var key := Session(account, id, "", "", 0, Gone(0));
    if i < j && Before(sessions[j], key) {
      BeforeTransitive(sessions[i], sessions[j], key);
    }
  }

  /** The lower bound is the only place a session with this account and id can be. */
  lemma OnlyAtLowerBound(sessions: seq<Session>, account: string, id: string, j: nat)
    requires Sorted(sessions) && j < |sessions| && sessions[j].Is(account, id)
    ensures j == LowerBound(sessions, account, id)
  {
    var i := LowerBound(sessions, account, id);
    BelowIrreflexive(account);
    BelowIrreflexive(id);
    if i < j {
      assert false;
    }
  }

  lemma DeleteLists(sessions: seq<Session>, active: set<Session>, account: string, id: string)
    requires Lists(sessions, active)
    ensures Lists(Delete(sessions, account, id), set x | x in active && !x.Is(account, id))
  {
    var i := LowerBound(sessions, account, id);
    var kept := Delete(sessions, account, id);
    forall x ensures x in kept <==> x in sessions && !x.Is(account, id) {
      if x in sessions {
        var j :| 0 <= j < |sessions| && sessions[j] == x;
        if x.Is(account, id) {
          OnlyAtLowerBound(sessions, account, id, j);
          DeletedGone(sessions, i);
        } else if kept != sessions {
          assert kept[if j < i then j else j - 1] == x;
        }
      }
    }
  }

  lemma DeletedGone(sessions: seq<Session>, i: nat)
    requires Sorted(sessions) && i < |sessions|
    ensures sessions[i] !in sessions[..i] + sessions[i + 1..]
  {
    var rest := sessions[..i] + sessions[i + 1..];
    forall j | 0 <= j < |rest| ensures rest[j] != sessions[i] {
      if j < i { BeforeStrict(sessions[j], sessions[i]); } else { BeforeStrict(sessions[i], sessions[j + 1]); }
    }
  }

  lemma InsertSorted(sessions: seq<Session>, s: Session, i: nat)
    requires Sorted(sessions) && i <= |sessions|
    requires forall j :: 0 <= j < i ==> Before(sessions[j], s)
    requires i < |sessions| ==> Before(s, sessions[i])
    ensures Sorted(sessions[..i] + [s] + sessions[i..])
  {
    var longer := sessions[..i] + [s] + sessions[i..];
    forall j, k | 0 <= j < k < |longer| ensures Before(longer[j], longer[k]) {
      if j == i && k > i + 1 { BeforeTransitive(s, sessions[i], sessions[k - 1]); }
    }
  }

  lemma ReplaceSorted(sessions: seq<Session>, s: Session, i: nat)
    requires Sorted(sessions) && i < |sessions| && sessions[i].Is(s.account, s.id)
    ensures Sorted(sessions[i := s])
    ensures forall x :: x in sessions[i := s] <==> x == s || (x in sessions && !x.Is(s.account, s.id))
  {
    var changed := sessions[i := s];
    forall j, k | 0 <= j < k < |changed| ensures Before(changed[j], changed[k]) {
      assert Before(sessions[j], sessions[k]);
    }
    forall x ensures x in sessions[i := s] <==> x == s || (x in sessions && !x.Is(s.account, s.id)) {
      assert sessions[i := s][i] == s;
      if x in sessions && !x.Is(s.account, s.id) {
        var j :| 0 <= j < |sessions| && sessions[j] == x;
        assert sessions[i := s][j] == x;
      }
      if x in sessions[i := s] && x != s {
        var j :| 0 <= j < |sessions| && sessions[i := s][j] == x;
        SameKeyOnce(sessions, i, j);
      }
    }
  }

  lemma SameKeyOnce(sessions: seq<Session>, i: nat, j: nat)
    requires Sorted(sessions) && i < |sessions| && j < |sessions| && i != j
    ensures !sessions[j].Is(sessions[i].account, sessions[i].id)
  {
    if sessions[j].Is(sessions[i].account, sessions[i].id) {
      OnlyAtLowerBound(sessions, sessions[i].account, sessions[i].id, j);
      OnlyAtLowerBound(sessions, sessions[i].account, sessions[i].id, i);
    }
  }

  lemma PutLists(sessions: seq<Session>, active: set<Session>, s: Session)
    requires Lists(sessions, active)
    requires forall x :: x in active && x.id == s.id ==> x.account == s.account
    ensures Lists(Put(sessions, s), (set x | x in active && x.id != s.id) + {s})
  {
    var i := LowerBound(sessions, s.account, s.id);
    forall x | x in sessions && x.id == s.id ensures i < |sessions| && sessions[i] == x {
      var j :| 0 <= j < |sessions| && sessions[j] == x;
      OnlyAtLowerBound(sessions, s.account, s.id, j);
    }
    if i < |sessions| && sessions[i].id == s.id {
      ReplaceSorted(sessions, s, i);
    } else {
      if i < |sessions| { BeforeTotal(sessions[i], s); }
      InsertSorted(sessions, s, i);
      var longer := sessions[..i] + [s] + sessions[i..];
      assert i == |sessions| ==> longer == sessions + [s];
      forall x ensures x in longer <==> x == s || x in sessions {
        assert sessions == sessions[..i] + sessions[i..];
      }
    }
  }

  /** Overwriting loses what was there. */
  lemma OverwrittenGone(sessions: seq<Session>, s: Session, i: nat)
    requires Sorted(sessions) && i < |sessions| && sessions[i] != s
    ensures sessions[i] !in sessions[i := s]
  {
    var (lost, changed) := (sessions[i], sessions[i := s]);
    forall j | 0 <= j < |changed| ensures changed[j] != lost {
      if j < i { BeforeStrict(sessions[j], lost); } else if j > i { BeforeStrict(lost, sessions[j]); }
    }
  }

  lemma InsertKeeps(sessions: seq<Session>, s: Session, i: nat, x: Session)
    requires i <= |sessions| && x in sessions
    ensures x in sessions[..i] + [s] + sessions[i..]
  {
    assert sessions == sessions[..i] + sessions[i..];
  }

  predicate Kept(sessions: seq<Session>, s: Session, x: Session) {
    x in sessions && !x.Is(s.account, s.id) ==> x in Put(sessions, s)
  }

  /** A1 is exactly what `Put` needs: it keeps every other session unless the one at its
      position has the same id in another account. */
  lemma PutKeepsOthers(sessions: seq<Session>, s: Session)
    requires Sorted(sessions)
    ensures var i := LowerBound(sessions, s.account, s.id);
      (forall x :: Kept(sessions, s, x)) <==>
      !(i < |sessions| && sessions[i].id == s.id && sessions[i].account != s.account)
  {
    var i := LowerBound(sessions, s.account, s.id);
    if i < |sessions| && sessions[i].id == s.id && sessions[i].account != s.account {
      OverwrittenGone(sessions, s, i);
      assert !Kept(sessions, s, sessions[i]);
    } else {
      forall x ensures Kept(sessions, s, x) {
        if x in sessions && !x.Is(s.account, s.id) { PutKeeps(sessions, s, x); }
      }
    }
  }

  lemma PutKeeps(sessions: seq<Session>, s: Session, x: Session)
    requires Sorted(sessions) && x in sessions && !x.Is(s.account, s.id)
    requires var i := LowerBound(sessions, s.account, s.id);
      i < |sessions| && sessions[i].id == s.id ==> sessions[i].account == s.account
    ensures x in Put(sessions, s)
  {
    var i := LowerBound(sessions, s.account, s.id);
    if i < |sessions| && sessions[i].id == s.id {
      ReplaceSorted(sessions, s, i);
    } else {
      InsertKeeps(sessions, s, i, x);
    }
  }

  // ---------------------------------------------------------------- queue lemmas

  lemma QueuedIsIndexed(homes: Homes, queues: Queues, held: map<Seat, Session>, a: string, d: Session)
    requires HeldTied(homes, queues, held) && a in queues && d in queues[a]
    ensures EntryTied(homes, a, d) && At(held, d)
  {
    assert QueueTied(homes, queues, a);
    assert EntryTied(homes, a, d);
    assert EntryIndexed(held, queues, d);
  }

  lemma IndexedIsQueued(homes: Homes, queues: Queues, held: map<Seat, Session>, seat: Seat)
    requires HeldTied(homes, queues, held) && seat in held
    ensures var d := held[seat];
      SeatOf(d) == seat && seat.account in queues && d in queues[seat.account] && EntryTied(homes, seat.account, d)
  {
    assert KeyTied(held, seat) && EntryIndexed(held, queues, held[seat]);
    assert QueueTied(homes, queues, seat.account) && EntryTied(homes, seat.account, held[seat]);
  }

  /** Removing the indexed entry from the index and from its queue releases the connection. */
  lemma RemoveHeldIsRelease(homes: Homes, r: Roster, seat: Seat)
    requires HeldTied(homes, r.queues, r.held)
    ensures RemoveHeldOn(r, seat) == r.(held := r.held - {seat}, queues := Release(r.queues, seat.account, seat.connection))
  {
    var (a, c) := (seat.account, seat.connection);
    var queue := QueueOf(r.queues, a);
    assert QueueTied(homes, r.queues, a);
    RemoveFirstIsOff(queue, ConnectionOf, c);
    OffKeeps(queue, ConnectionOf, c);
    if seat in r.held {
      IndexedIsQueued(homes, r.queues, r.held, seat);
      OffShorter(queue, ConnectionOf, r.held[seat]);
    } else {
      forall d | d in queue ensures d.connection != c { QueuedIsIndexed(homes, r.queues, r.held, a, d); }
      OffNothing(queue, ConnectionOf, c);
      assert r.held - {seat} == r.held;
    }
  }

  lemma ReleaseTied(homes: Homes, queues: Queues, held: map<Seat, Session>, seat: Seat)
    requires HeldTied(homes, queues, held)
    ensures HeldTied(homes, Release(queues, seat.account, seat.connection), held - {seat})
  {
    var released := Release(queues, seat.account, seat.connection);
    forall a ensures QueueTied(homes, released, a) { ReleasedQueue(homes, queues, seat, a); }
    forall d ensures EntryIndexed(held - {seat}, released, d) {
      assert EntryIndexed(held, queues, d);
      OffKeeps(QueueOf(queues, seat.account), ConnectionOf, seat.connection);
    }
    forall other ensures KeyTied(held - {seat}, other) { assert KeyTied(held, other); }
  }

  lemma ReleasedQueue(homes: Homes, queues: Queues, seat: Seat, a: string)
    requires QueueTied(homes, queues, a)
    ensures QueueTied(homes, Release(queues, seat.account, seat.connection), a)
  {
    var (queue, released) := (QueueOf(queues, a), Release(queues, seat.account, seat.connection));
    OffKeeps(queue, ConnectionOf, seat.connection);
    if a in released {
      forall d | d in released[a] ensures EntryTied(homes, a, d) {
        assert d in queue;
        assert EntryTied(homes, a, d);
      }
    }
  }

  lemma HoldMembers(queues: Queues, d: Session, x: Session)
    requires Distinct(QueueOf(queues, d.account) + [d], ConnectionOf)
    requires |QueueOf(queues, d.account)| <= HELD_PER_ACCOUNT
    requires forall y :: y in QueueOf(queues, d.account) ==> y.account == d.account
    ensures var queue := QueueOf(queues, d.account) + [d];
      InQueue(Hold(queues, d), x) <==> (InQueue(queues, x) || x == d) && (|queue| > HELD_PER_ACCOUNT ==> x != queue[0])
  {
    JoinedMembers(QueueOf(queues, d.account), ConnectionOf, d, x);
  }

  lemma MayJoin(homes: Homes, queues: Queues, held: map<Seat, Session>, d: Session)
    requires HeldTied(homes, queues, held) && SeatOf(d) !in held
    ensures Distinct(QueueOf(queues, d.account) + [d], ConnectionOf)
    ensures |QueueOf(queues, d.account)| <= HELD_PER_ACCOUNT
    ensures forall y :: y in QueueOf(queues, d.account) ==> y.account == d.account
  {
    forall y | y in QueueOf(queues, d.account) ensures y.connection != d.connection && y.account == d.account {
      QueuedIsIndexed(homes, queues, held, d.account, y);
    }
    assert QueueTied(homes, queues, d.account);
  }

  function IndexAfterHold(queues: Queues, held: map<Seat, Session>, d: Session): map<Seat, Session> {
    var queue := QueueOf(queues, d.account) + [d];
    (if |queue| > HELD_PER_ACCOUNT then held - {SeatOf(queue[0])} else held)[SeatOf(d) := d]
  }

  lemma HoldIndexed(homes: Homes, queues: Queues, held: map<Seat, Session>, d: Session, x: Session)
    requires HeldTied(homes, queues, held) && SeatOf(d) !in held
    ensures EntryIndexed(IndexAfterHold(queues, held, d), Hold(queues, d), x)
  {
    var queue := QueueOf(queues, d.account) + [d];
    MayJoin(homes, queues, held, d);
    HoldMembers(queues, d, x);
    assert EntryIndexed(held, queues, x);
    if |queue| > HELD_PER_ACCOUNT {
      assert EntryIndexed(held, queues, queue[0]);
      assert InQueue(queues, queue[0]);
    }
  }

  lemma HoldTied(homes: Homes, queues: Queues, held: map<Seat, Session>, d: Session)
    requires HeldTied(homes, queues, held) && SeatOf(d) !in held
    requires d.id in homes && homes[d.id] == d.account && d.host.Gone?
    ensures HeldTied(homes, Hold(queues, d), IndexAfterHold(queues, held, d))
  {
    var (queues', held') := (Hold(queues, d), IndexAfterHold(queues, held, d));
    forall x ensures EntryIndexed(held', queues', x) { HoldIndexed(homes, queues, held, d, x); }
    forall seat ensures KeyTied(held', seat) { assert KeyTied(held, seat); }
    MayJoin(homes, queues, held, d);
    forall b ensures QueueTied(homes, queues', b) {
      assert QueueTied(homes, queues, b);
      if b in queues' {
        forall x | x in queues'[b] ensures EntryTied(homes, b, x) {
          if x in QueueOf(queues, b) { QueuedIsIndexed(homes, queues, held, b, x); }
        }
      }
    }
  }

  /** Track is the board's Hold once the session has left the slice. */
  lemma TrackIsHold(homes: Homes, r: Roster, s: Session)
    requires HeldTied(homes, r.queues, r.held) && SeatOf(s) !in r.held
    ensures Track(r, s) == Roster(Delete(r.sessions, s.account, s.id), IndexAfterHold(r.queues, r.held, s),
                                  Hold(r.queues, s), r.live)
  {
    assert QueueTied(homes, r.queues, s.account);
    var queue := QueueOf(r.queues, s.account) + [s];
    if |queue| > HELD_PER_ACCOUNT {
      assert LastHeld(queue) == queue[1..];
      assert EntryTied(homes, s.account, queue[0]);
    }
  }

  // ---------------------------------------------------------------- each event

  /** The position found is the only active session on the connection. */
  lemma Found(homes: Homes, b: Board, r: Roster, seat: Seat)
    requires Tied(homes, b, r)
    ensures var i := FindConnection(r.sessions, seat.account, seat.connection);
      && (i < |r.sessions| ==> r.sessions[i] in b.active && SeatOf(r.sessions[i]) == seat)
      && (forall x :: x in b.active && x.IsAt(seat.account, seat.connection) ==> i < |r.sessions| && x == r.sessions[i])
  {
    var i := FindConnection(r.sessions, seat.account, seat.connection);
    forall x | x in b.active && x.IsAt(seat.account, seat.connection) ensures i < |r.sessions| && x == r.sessions[i] {
      var j :| 0 <= j < |r.sessions| && r.sessions[j] == x;
      assert Apart(b.active, x, r.sessions[i]);
    }
  }

  lemma HomeOf(homes: Homes, b: Board, r: Roster, s: Session)
    requires Tied(homes, b, r) && s in b.active
    ensures s.id in homes && homes[s.id] == s.account && s.host.Online? && SeatOf(s) !in r.held
  {
    assert Listed(homes, b.active, r.held, s);
  }

  /** Sessions leaving, and seats no longer held, keep the rest tied. */
  lemma FewerActive(homes: Homes, active: set<Session>, held: map<Seat, Session>, active': set<Session>, held': map<Seat, Session>)
    requires ActiveTied(homes, active, held) && active' <= active && held'.Keys <= held.Keys
    ensures ActiveTied(homes, active', held')
  {
    forall s ensures Listed(homes, active', held', s) { assert Listed(homes, active, held, s); }
    forall s, t ensures Apart(active', s, t) { assert Apart(active, s, t); }
  }

  lemma OneMoreActive(homes: Homes, active: set<Session>, held: map<Seat, Session>, s: Session)
    requires ActiveTied(homes, active, held)
    requires s.id in homes && homes[s.id] == s.account && s.host.Online? && SeatOf(s) !in held
    requires forall x :: x in active ==> SeatOf(x) != SeatOf(s)
    ensures ActiveTied(homes, active + {s}, held)
  {
    forall x ensures Listed(homes, active + {s}, held, x) { assert Listed(homes, active, held, x); }
    forall x, y ensures Apart(active + {s}, x, y) { assert Apart(active, x, y); }
  }

  /** Putting a session at home in its account replaces only its own id. */
  lemma PutTied(homes: Homes, sessions: seq<Session>, active: set<Session>, held: map<Seat, Session>, s: Session)
    requires Lists(sessions, active) && ActiveTied(homes, active, held)
    requires s.id in homes && homes[s.id] == s.account && s.host.Online? && SeatOf(s) !in held
    requires forall x :: x in active ==> SeatOf(x) != SeatOf(s)
    ensures var after := (set x | x in active && x.id != s.id) + {s};
      Lists(Put(sessions, s), after) && ActiveTied(homes, after, held)
  {
    forall x | x in active && x.id == s.id ensures x.account == s.account { assert Listed(homes, active, held, x); }
    PutLists(sessions, active, s);
    var others := set x | x in active && x.id != s.id;
    FewerActive(homes, active, held, others, held);
    OneMoreActive(homes, others, held, s);
  }

  /** The slice without the session on the newcomer's connection. */
  lemma ClearedLists(homes: Homes, b: Board, r: Roster, s: Session)
    requires Tied(homes, b, r)
    ensures var i := FindConnection(r.sessions, s.account, s.connection);
      Lists(if i < |r.sessions| then Delete(r.sessions, s.account, r.sessions[i].id) else r.sessions,
            set x | x in b.active && !x.IsAt(s.account, s.connection))
  {
    var i := FindConnection(r.sessions, s.account, s.connection);
    var cleared := set x | x in b.active && !x.IsAt(s.account, s.connection);
    Found(homes, b, r, SeatOf(s));
    if i < |r.sessions| {
      DeleteLists(r.sessions, b.active, s.account, r.sessions[i].id);
      OnlyOneKey(r.sessions, b.active, r.sessions[i]);
      assert (set x | x in b.active && !x.Is(s.account, r.sessions[i].id)) == cleared;
    } else {
      assert cleared == b.active;
    }
  }

  lemma StartTied(homes: Homes, b: Board, r: Roster, s: Session)
    requires Tied(homes, b, r) && s.id in homes && homes[s.id] == s.account && s.host.Online?
    ensures Tied(homes, Start(b, s), StartRoster(r, s))
  {
    var seat := SeatOf(s);
    var i := FindConnection(r.sessions, s.account, s.connection);
    Found(homes, b, r, seat);
    var cleared := set x | x in b.active && !x.IsAt(s.account, s.connection);
    var seated := if i < |r.sessions| then r.(sessions := Delete(r.sessions, s.account, r.sessions[i].id)) else r;
    assert Lists(seated.sessions, cleared) by { ClearedLists(homes, b, r, s); }
    RemoveHeldIsRelease(homes, seated, seat);
    ReleaseTied(homes, r.queues, r.held, seat);
    FewerActive(homes, b.active, r.held, cleared, r.held - {seat});
    PutTied(homes, seated.sessions, cleared, r.held - {seat}, s);
    assert (set x | x in cleared && x.id != s.id) + {s} == Start(b, s).active;
  }

  lemma OnlyOneKey(sessions: seq<Session>, active: set<Session>, s: Session)
    requires Lists(sessions, active) && s in active
    ensures forall x :: x in active && x.Is(s.account, s.id) ==> x == s
  {
    forall x | x in active && x.Is(s.account, s.id) ensures x == s {
      var i :| 0 <= i < |sessions| && sessions[i] == s;
      var j :| 0 <= j < |sessions| && sessions[j] == x;
      OnlyAtLowerBound(sessions, s.account, s.id, i);
      OnlyAtLowerBound(sessions, s.account, s.id, j);
    }
  }

  lemma RemoveHeldIdTied(homes: Homes, r: Roster, account: string, id: string)
    requires HeldTied(homes, r.queues, r.held)
    ensures var r' := RemoveHeldId(r, account, id);
      && r' == r.(queues := PutQueue(r.queues, account, RemoveFirst(QueueOf(r.queues, account), IdOf, id)), held := r'.held)
      && r'.held.Keys <= r.held.Keys && HeldTied(homes, r'.queues, r'.held)
  {
    var queue := QueueOf(r.queues, account);
    var i := IndexOf(queue, IdOf, id);
    RemoveFirstAt(queue, IdOf, id, IndexOf(queue, IdOf, id));
    if i < |queue| {
      var seat := Seat(account, queue[i].connection);
      assert Distinct(queue, ConnectionOf) by { assert QueueTied(homes, r.queues, account); }
      assert SeatOf(queue[i]) == seat by { QueuedIsIndexed(homes, r.queues, r.held, account, queue[i]); }
      CutIsOff(queue, ConnectionOf, i);
      assert RemoveHeldId(r, account, id) == r.(queues := Release(r.queues, account, seat.connection), held := r.held - {seat});
      ReleaseTied(homes, r.queues, r.held, seat);
    } else {
      assert PutQueue(r.queues, account, queue) == r.queues by { assert QueueTied(homes, r.queues, account); }
    }
  }

  lemma EndTied(homes: Homes, b: Board, r: Roster, account: string, id: string)
    requires Tied(homes, b, r)
    ensures Tied(homes, End(b, account, id), EndRoster(r, account, id))
  {
    var left := r.(sessions := Delete(r.sessions, account, id));
    DeleteLists(r.sessions, b.active, account, id);
    RemoveHeldIdTied(homes, left, account, id);
    FewerActive(homes, b.active, r.held, End(b, account, id).active, EndRoster(r, account, id).held);
  }

  /** The session held on a connection is the one the index gives. */
  lemma FoundHeld(homes: Homes, queues: Queues, held: map<Seat, Session>, seat: Seat)
    requires HeldTied(homes, queues, held)
    ensures seat in held ==>
      held[seat] in QueueOf(queues, seat.account) && held[seat].connection == seat.connection
      && held[seat].account == seat.account && held[seat].id in homes && homes[held[seat].id] == seat.account
    ensures forall s :: s in QueueOf(queues, seat.account) && s.connection == seat.connection ==> seat in held && s == held[seat]
  {
    if seat in held { IndexedIsQueued(homes, queues, held, seat); }
    forall s | s in QueueOf(queues, seat.account) && s.connection == seat.connection ensures seat in held && s == held[seat] {
      QueuedIsIndexed(homes, queues, held, seat.account, s);
    }
  }

  /** What the board does on a reconnect, in terms of the positions found. */
  lemma ReconnectBoard(homes: Homes, b: Board, r: Roster, seat: Seat, requestId: string, at: int)
    requires Tied(homes, b, r)
    ensures var i := FindConnection(r.sessions, seat.account, seat.connection);
      var live := b.live[seat := Live(requestId, at)];
      Reconnect(b, seat, requestId, at) ==
        if i < |r.sessions| then
          Board(b.active - {r.sessions[i]} + {r.sessions[i].(host := Online(at, requestId))}, live, b.queues)
        else if seat in r.held then
          Board((set x | x in b.active && x.id != r.held[seat].id) + {r.held[seat].(host := Online(at, requestId))}, live,
                Release(b.queues, seat.account, seat.connection))
        else b.(live := live)
  {
    var i := FindConnection(r.sessions, seat.account, seat.connection);
    Found(homes, b, r, seat);
    FoundHeld(homes, r.queues, r.held, seat);
    if i < |r.sessions| {
      assert r.sessions[i] in b.active && r.sessions[i].IsAt(seat.account, seat.connection);
    } else if seat in r.held {
      assert r.held[seat] in QueueOf(b.queues, seat.account) && r.held[seat].connection == seat.connection;
    }
  }

  lemma RefreshTied(homes: Homes, b: Board, r: Roster, i: nat, s: Session)
    requires Tied(homes, b, r) && i < |r.sessions| && s.host.Online? && s.(host := r.sessions[i].host) == r.sessions[i]
    ensures var active := b.active - {r.sessions[i]} + {s};
      Lists(r.sessions[i := s], active) && ActiveTied(homes, active, r.held)
  {
    var was := r.sessions[i];
    ReplaceSorted(r.sessions, s, i);
    OnlyOneKey(r.sessions, b.active, was);
    HomeOf(homes, b, r, was);
    FewerActive(homes, b.active, r.held, b.active - {was}, r.held);
    forall x | x in b.active - {was} ensures SeatOf(x) != SeatOf(s) { assert Apart(b.active, x, was); }
    OneMoreActive(homes, b.active - {was}, r.held, s);
  }

  lemma ReconnectTied(homes: Homes, b: Board, r: Roster, seat: Seat, requestId: string, at: int)
    requires Tied(homes, b, r)
    ensures Tied(homes, Reconnect(b, seat, requestId, at), ReconnectRoster(r, seat, requestId, at))
  {
    var i := FindConnection(r.sessions, seat.account, seat.connection);
    ReconnectBoard(homes, b, r, seat, requestId, at);
    if i < |r.sessions| {
      RefreshTied(homes, b, r, i, r.sessions[i].(host := Online(at, requestId)));
    } else if seat in r.held {
      ReviveTied(homes, b, r, seat, requestId, at);
    }
  }

  lemma ReviveTied(homes: Homes, b: Board, r: Roster, seat: Seat, requestId: string, at: int)
    requires Tied(homes, b, r) && seat in r.held
    requires FindConnection(r.sessions, seat.account, seat.connection) == |r.sessions|
    ensures Tied(homes, Reconnect(b, seat, requestId, at), ReconnectRoster(r, seat, requestId, at))
  {
    var s := r.held[seat].(host := Online(at, requestId));
    assert s.id in homes && homes[s.id] == s.account && SeatOf(s) == seat by {
      FoundHeld(homes, r.queues, r.held, seat);
    }
    ReconnectBoard(homes, b, r, seat, requestId, at);
    RemoveHeldIsRelease(homes, r.(live := r.live[seat := Live(requestId, at)]), seat);
    ReleaseTied(homes, r.queues, r.held, seat);
    forall x | x in b.active ensures SeatOf(x) != seat { Found(homes, b, r, seat); }
    FewerActive(homes, b.active, r.held, b.active, r.held - {seat});
    PutTied(homes, r.sessions, b.active, r.held - {seat}, s);
  }

  lemma DropBoard(homes: Homes, b: Board, r: Roster, seat: Seat, requestId: string, at: int)
    requires Tied(homes, b, r)
    ensures var i := FindConnection(r.sessions, seat.account, seat.connection);
      Drop(b, seat, requestId, at) ==
        if i < |r.sessions| && r.sessions[i].host.Online? && r.sessions[i].host.requestId == requestId
        then Board(b.active - {r.sessions[i]}, b.live - {seat}, Hold(b.queues, r.sessions[i].(host := Gone(at))))
        else b.(live := b.live - {seat})
  {
    var i := FindConnection(r.sessions, seat.account, seat.connection);
    Found(homes, b, r, seat);
    if i < |r.sessions| && r.sessions[i].host.Online? && r.sessions[i].host.requestId == requestId {
      assert r.sessions[i] in b.active && r.sessions[i].IsAt(seat.account, seat.connection);
    }
  }

  /** An active session that drops leaves the slice and joins its queue. */
  lemma TrackTied(homes: Homes, b: Board, r: Roster, s: Session, at: int)
    requires Tied(homes, b, r) && s in b.active
    ensures Tied(homes, Board(b.active - {s}, b.live, Hold(b.queues, s.(host := Gone(at)))), Track(r, s.(host := Gone(at))))
  {
    var d := s.(host := Gone(at));
    HomeOf(homes, b, r, s);
    TrackIsHold(homes, r, d);
    DeleteLists(r.sessions, b.active, s.account, s.id);
    OnlyOneKey(r.sessions, b.active, s);
    assert (set x | x in b.active && !x.Is(s.account, s.id)) == b.active - {s};
    HoldTied(homes, r.queues, r.held, d);
    forall x ensures Listed(homes, b.active - {s}, IndexAfterHold(r.queues, r.held, d), x) {
      assert Listed(homes, b.active, r.held, x);
      assert Apart(b.active, x, s);
    }
    forall x, y ensures Apart(b.active - {s}, x, y) { assert Apart(b.active, x, y); }
  }

  lemma DropTied(homes: Homes, b: Board, r: Roster, seat: Seat, requestId: string, at: int)
    requires Tied(homes, b, r)
    ensures Tied(homes, Drop(b, seat, requestId, at), DropRoster(r, seat, requestId, at))
  {
    var i := FindConnection(r.sessions, seat.account, seat.connection);
    DropBoard(homes, b, r, seat, requestId, at);
    if i < |r.sessions| && r.sessions[i].host.Online? && r.sessions[i].host.requestId == requestId {
      TrackTied(homes, b.(live := b.live - {seat}), r.(live := r.live - {seat}), r.sessions[i], at);
    }
  }

  /** While a snapshot of the slice is tracked, what is left active is what is left of it. */
  lemma {:induction false} TrackAllTied(homes: Homes, b: Board, r: Roster, n: nat, at: int)
    requires Tied(homes, b, r) && n <= |r.sessions|
    ensures var done := r.sessions[..n];
      Tied(homes, Board(Members(r.sessions[n..]), b.live, HoldAll(b.queues, done, at)), TrackAll(r, done, at))
  {
    if n == 0 {
      assert r.sessions[0..] == r.sessions;
    } else {
      var (front, s, left) := (r.sessions[..n - 1], r.sessions[n - 1], Members(r.sessions[n - 1..]));
      var (board, roster) := (Board(left, b.live, HoldAll(b.queues, front, at)), TrackAll(r, front, at));
      assert Tied(homes, board, roster) by { TrackAllTied(homes, b, r, n - 1, at); }
      NextOfSlice(r.sessions, n);
      TrackOneMore(homes, b, r, n, at);
      TrackTied(homes, board, roster, s, at);
    }
  }

  /** What one more session adds to the two folds. */
  lemma TrackOneMore(homes: Homes, b: Board, r: Roster, n: nat, at: int)
    requires Tied(homes, b, r) && 0 < n <= |r.sessions|
    ensures var (front, d) := (r.sessions[..n - 1], r.sessions[n - 1].(host := Gone(at)));
      && TrackAll(r, r.sessions[..n], at) == Track(TrackAll(r, front, at), d)
      && HoldAll(b.queues, r.sessions[..n], at) == Hold(HoldAll(b.queues, front, at), d)
  {
    assert r.sessions[..n][..n - 1] == r.sessions[..n - 1];
    assert r.sessions[n - 1].host.Online? by { HomeOf(homes, b, r, r.sessions[n - 1]); }
  }

  lemma NextOfSlice(sessions: seq<Session>, n: nat)
    requires Sorted(sessions) && 0 < n <= |sessions|
    ensures sessions[..n][..n - 1] == sessions[..n - 1]
    ensures sessions[n - 1] in Members(sessions[n - 1..])
    ensures Members(sessions[n - 1..]) - {sessions[n - 1]} == Members(sessions[n..])
  {
    var (s, rest) := (sessions[n - 1], sessions[n..]);
    assert sessions[n - 1..] == [s] + rest;
    forall j | 0 <= j < |rest| ensures rest[j] != s {
      BeforeStrict(s, sessions[n + j]);
    }
  }

  lemma RestartTied(homes: Homes, b: Board, r: Roster, at: int)
    requires Tied(homes, b, r)
    ensures Tied(homes, Restart(b, at), RestartRoster(r, at))
  {
    var (b0, r0) := (b.(live := map[]), r.(live := map[]));
    TrackAllTied(homes, b0, r0, |r.sessions|, at);
    assert r.sessions[..|r.sessions|] == r.sessions && Members(r.sessions[|r.sessions|..]) == {};
    assert InOrder(b.active) == r.sessions by {
      var chosen := InOrder(b.active);
      assert Lists(r.sessions, b.active) && Lists(chosen, b.active);
      SameMembers(chosen, r.sessions, b.active);
    }
  }

  lemma SameMembers(p: seq<Session>, q: seq<Session>, active: set<Session>)
    requires Lists(p, active) && Lists(q, active)
    ensures p == q
  {
    forall s ensures s in p <==> s in q { assert s in active <==> s in p; assert s in active <==> s in q; }
    ListingUnique(p, q);
  }

  lemma ApplyTied(homes: Homes, b: Board, r: Roster, e: Event)
    requires Tied(homes, b, r) && Expected(homes, e)
    ensures Tied(homes, SessionBoard.Apply(b, e), ApplyRoster(r, e))
  {
    match e.data
    case ServerStarted => RestartTied(homes, b, r, e.at);
    case SessionStarted(id, name, c, startedAt) =>
      StartTied(homes, b, r, Session(e.accountId, id, name, c, startedAt, LiveState(r.live, Seat(e.accountId, c), e.at)));
    case SessionEnded(id) => EndTied(homes, b, r, e.accountId, id);
    case ClientConnected(_, c, requestId) => ReconnectTied(homes, b, r, Seat(e.accountId, c), requestId, e.at);
    case ClientDisconnected(_, c, requestId, _, _) => DropTied(homes, b, r, Seat(e.accountId, c), requestId, e.at);
    case _ =>
  }

  // ---------------------------------------------------------------- every run

  ghost predicate ExpectedAll(homes: Homes, events: seq<Event>) {
    forall i :: 0 <= i < |events| ==> Expected(homes, events[i])
  }

  /** SessionList refines the board: after any events in which an id keeps to its account. */
  lemma {:induction false} RunTied(homes: Homes, events: seq<Event>)
    requires ExpectedAll(homes, events)
    ensures Tied(homes, Run(events), RunRoster(events))
    decreases |events|
  {
    if events == [] {
      EmptyTied(homes);
    } else {
      var front := events[..|events| - 1];
      RunTied(homes, front);
      ApplyTied(homes, Run(front), RunRoster(front), events[|events| - 1]);
    }
  }

  // ---------------------------------------------------------------- sorted whatever happens

  lemma PutSorted(sessions: seq<Session>, s: Session)
    requires Sorted(sessions)
    ensures Sorted(Put(sessions, s))
  {
    var i := LowerBound(sessions, s.account, s.id);
    if i < |sessions| { BeforeTotal(sessions[i], s); }
    if i < |sessions| && sessions[i].id == s.id {
      var changed := sessions[i := s];
      forall j, k | 0 <= j < k < |changed| ensures Before(changed[j], changed[k]) {
        assert Before(sessions[j], sessions[k]);
        if j == i && sessions[i].account != s.account { BeforeTransitive(s, sessions[i], sessions[k]); }
      }
    } else {
      InsertSorted(sessions, s, i);
      assert i == |sessions| ==> sessions[..i] + [s] + sessions[i..] == sessions + [s];
    }
  }

  lemma DeleteSorted(sessions: seq<Session>, account: string, id: string)
    requires Sorted(sessions)
    ensures Sorted(Delete(sessions, account, id))
  {
    DeleteLists(sessions, (set s | s in sessions), account, id);
  }

  lemma TrackSorted(r: Roster, s: Session)
    requires Sorted(r.sessions)
    ensures Sorted(Track(r, s).sessions)
  {
    DeleteSorted(r.sessions, s.account, s.id);
  }

  lemma {:induction false} TrackAllSorted(r: Roster, snapshot: seq<Session>, at: int)
    requires Sorted(r.sessions)
    ensures Sorted(TrackAll(r, snapshot, at).sessions)
    decreases |snapshot|
  {
    if snapshot != [] {
      TrackAllSorted(r, snapshot[..|snapshot| - 1], at);
      TrackSorted(TrackAll(r, snapshot[..|snapshot| - 1], at), snapshot[|snapshot| - 1].(host := Gone(at)));
    }
  }

  lemma StartSorted(r: Roster, s: Session)
    requires Sorted(r.sessions)
    ensures Sorted(StartRoster(r, s).sessions)
  {
    var i := FindConnection(r.sessions, s.account, s.connection);
    if i < |r.sessions| {
      DeleteSorted(r.sessions, s.account, r.sessions[i].id);
      PutSorted(Delete(r.sessions, s.account, r.sessions[i].id), s);
    } else {
      PutSorted(r.sessions, s);
    }
  }

  lemma ReconnectSorted(r: Roster, seat: Seat, requestId: string, at: int)
    requires Sorted(r.sessions)
    ensures Sorted(ReconnectRoster(r, seat, requestId, at).sessions)
  {
    var i := FindConnection(r.sessions, seat.account, seat.connection);
    if i < |r.sessions| {
      ReplaceSorted(r.sessions, r.sessions[i].(host := Online(at, requestId)), i);
    } else if seat in r.held {
      PutSorted(r.sessions, r.held[seat].(host := Online(at, requestId)));
    }
  }

  lemma DropSorted(r: Roster, seat: Seat, requestId: string, at: int)
    requires Sorted(r.sessions)
    ensures Sorted(DropRoster(r, seat, requestId, at).sessions)
  {
    var i := FindConnection(r.sessions, seat.account, seat.connection);
    if i < |r.sessions| { TrackSorted(r.(live := r.live - {seat}), r.sessions[i].(host := Gone(at))); }
  }

  lemma ApplySorted(r: Roster, e: Event)
    requires Sorted(r.sessions)
    ensures Sorted(ApplyRoster(r, e).sessions)
  {
    match e.data
    case ServerStarted => TrackAllSorted(r.(live := map[]), r.sessions, e.at);
    case SessionStarted(id, name, c, startedAt) =>
      StartSorted(r, Session(e.accountId, id, name, c, startedAt, LiveState(r.live, Seat(e.accountId, c), e.at)));
    case SessionEnded(id) => DeleteSorted(r.sessions, e.accountId, id);
    case ClientConnected(_, c, requestId) => ReconnectSorted(r, Seat(e.accountId, c), requestId, e.at);
    case ClientDisconnected(_, c, requestId, _, _) => DropSorted(r, Seat(e.accountId, c), requestId, e.at);
    case _ =>
  }

  /** The slice stays strictly sorted for every event sequence, with no assumption on ids,
      so the binary searches are always right. */
  lemma {:induction false} RunSorted(events: seq<Event>)
    ensures Sorted(RunRoster(events).sessions)
    decreases |events|
  {
    if events != [] {
      RunSorted(events[..|events| - 1]);
      ApplySorted(RunRoster(events[..|events| - 1]), events[|events| - 1]);
    }
  }

  lemma RunStep(events: seq<Event>, e: Event)
    ensures RunRoster(events + [e]) == ApplyRoster(RunRoster(events), e)
  {
    assert (events + [e])[..|events|] == events;
  }

  lemma EmptyTied(homes: Homes)
    ensures Tied(homes, Board({}, map[], map[]), EMPTY)
  {
    forall s ensures Listed(homes, {}, map[], s) {}
    forall s, t ensures Apart({}, s, t) {}
    forall a ensures QueueTied(homes, EMPTY.queues, a) {}
    forall d ensures EntryIndexed(EMPTY.held, EMPTY.queues, d) {}
    forall seat ensures KeyTied(EMPTY.held, seat) {}
  }

  /** What every run of SessionList keeps: the slice lists the board's active sessions in
      strict order, all of them connected; an account's connection occurs at most once over
      the slice and the queues together; no queue exceeds four; and the index has exactly
      the queued sessions. */
  lemma RosterKept(homes: Homes, events: seq<Event>, s: Session, t: Session)
    requires ExpectedAll(homes, events)
    ensures var (b, r) := (Run(events), RunRoster(events));
      && Sorted(r.sessions) && Members(r.sessions) == b.active && r.queues == b.queues && r.live == b.live
      && (s in r.sessions ==> s.host.Online?)
      && (InQueue(r.queues, s) ==> s.host.Gone?)
      && (SeatOf(s) == SeatOf(t) && (s in r.sessions || InQueue(r.queues, s)) && (t in r.sessions || InQueue(r.queues, t)) ==> s == t)
      && |QueueOf(r.queues, s.account)| <= HELD_PER_ACCOUNT
      && (At(r.held, s) <==> InQueue(r.queues, s))
  {
    var (b, r) := (Run(events), RunRoster(events));
    RunTied(homes, events);
    assert Listed(homes, b.active, r.held, s) && Listed(homes, b.active, r.held, t);
    assert Apart(b.active, s, t);
    assert QueueTied(homes, r.queues, s.account);
    assert EntryIndexed(r.held, r.queues, s) && EntryIndexed(r.held, r.queues, t);
    if InQueue(r.queues, s) { QueuedIsIndexed(homes, r.queues, r.held, s.account, s); }
  }

  // ---------------------------------------------------------------- server.started

  /** The sessions of an account, as they are once dropped at `at`. */
  function DroppedOf(sessions: seq<Session>, account: string, at: int): seq<Session>
    decreases |sessions|
  {
    if sessions == [] then []
    else
      var last := sessions[|sessions| - 1];
      DroppedOf(sessions[..|sessions| - 1], account, at) + (if last.account == account then [last.(host := Gone(at))] else [])
  }

  lemma LastHeldTwice(queue: seq<Session>, s: Session)
    ensures LastHeld(LastHeld(queue) + [s]) == LastHeld(queue + [s])
  {
  }

  lemma {:induction false} HoldAllQueues(queues: Queues, sessions: seq<Session>, at: int, a: string)
    requires |QueueOf(queues, a)| <= HELD_PER_ACCOUNT
    ensures QueueOf(HoldAll(queues, sessions, at), a) == LastHeld(QueueOf(queues, a) + DroppedOf(sessions, a, at))
    decreases |sessions|
  {
    if sessions != [] {
      var (front, last) := (sessions[..|sessions| - 1], sessions[|sessions| - 1]);
      HoldAllQueues(queues, front, at, a);
      var queue := QueueOf(queues, a) + DroppedOf(front, a, at);
      if last.account == a {
        LastHeldTwice(queue, last.(host := Gone(at)));
        assert queue + [last.(host := Gone(at))] == QueueOf(queues, a) + DroppedOf(sessions, a, at);
      } else {
        assert queue == QueueOf(queues, a) + DroppedOf(sessions, a, at);
      }
    } else {
      assert QueueOf(queues, a) + [] == QueueOf(queues, a);
    }
  }

  lemma FirstListed(sessions: seq<Session>, active: set<Session>)
    requires Lists(sessions, active)
    ensures sessions == [] || sessions[0] in active
  {
  }

  /** After server.started nothing is active, and each account's queue is the last four of
      its old queue followed by its active sessions in id order. */
  lemma AfterRestart(homes: Homes, events: seq<Event>, e: Event, a: string)
    requires ExpectedAll(homes, events) && e.data.ServerStarted?
    ensures var (r, r') := (RunRoster(events), RunRoster(events + [e]));
      && r'.sessions == [] && r'.live == map[]
      && QueueOf(r'.queues, a) == LastHeld(QueueOf(r.queues, a) + DroppedOf(r.sessions, a, e.at))
  {
    var (b, r) := (Run(events), RunRoster(events));
    assert (events + [e])[..|events|] == events;
    RunTied(homes, events);
    RestartTied(homes, b, r, e.at);
    FirstListed(RestartRoster(r, e.at).sessions, Restart(b, e.at).active);
    assert QueueTied(homes, r.queues, a);
    SameMembers(InOrder(b.active), r.sessions, b.active);
    HoldAllQueues(b.queues, r.sessions, e.at, a);
  }
}
