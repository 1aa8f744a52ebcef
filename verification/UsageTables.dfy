/** The five linked maps of UsageStats and the per-account totals, changed the way its
    event functions change them, and why they always tell the same story as the ledger. */
module UsageTables {
  import opened Events
  import opened DroppedQueues
  import opened Sums
  import opened UsageLedger

  datatype Span = Span(id: string, account: string, start: int, at: int)

  datatype Tables = Tables(
    active: map<string, Info>,
    activeByConnection: map<string, Info>,
    frozen: map<string, Span>,
    heldByConnection: map<string, Parked>,
    queues: map<string, seq<Parked>>,
    durations: map<string, int>)

  const EMPTY := Tables(map[], map[], map[], map[], map[], map[])

  // ---------------------------------------------------------------- building blocks

  function RemoveActive(t: Tables, info: Info): Tables {
    t.(active := t.active - {info.id}, activeByConnection := t.activeByConnection - {info.connection})
  }

  function RemoveHeldOn(t: Tables, c: string): Tables {
    if c !in t.heldByConnection then t
    else
      var account := t.heldByConnection[c].info.account;
      var queue := QueueOf(t.queues, account);
      var shorter := RemoveFirst(queue, ConnectionOf, c);
      t.(heldByConnection := t.heldByConnection - {c},
         queues := if |shorter| < |queue| then PutQueue(t.queues, account, shorter) else t.queues)
  }

  function RemoveHeldId(t: Tables, account: string, id: string): Tables {
    var queue := QueueOf(t.queues, account);
    var i := IndexOf(queue, IdOf, id);
    if i == |queue| then t
    else t.(heldByConnection := t.heldByConnection - {queue[i].info.connection},
            queues := PutQueue(t.queues, account, queue[..i] + queue[i + 1..]))
  }

  function Track(t: Tables, info: Info, at: int): Tables {
    var freed := RemoveHeldOn(RemoveActive(t, info), info.connection);
    var parked := Parked(info, at);
    var queue := QueueOf(freed.queues, info.account) + [parked];
    var evicts := |queue| > HELD_PER_ACCOUNT;
    freed.(
      frozen := freed.frozen[info.id := SpanOf(info, at)],
      queues := freed.queues[info.account := if evicts then queue[1..] else queue],
      heldByConnection :=
        (if evicts then freed.heldByConnection - {queue[0].info.connection} else freed.heldByConnection)
          [info.connection := parked])
  }

  function Credit(t: Tables, account: string, duration: int): Tables {
    t.(durations := t.durations[account := (if account in t.durations then t.durations[account] else 0) + duration])
  }

  // ---------------------------------------------------------------- events

  function VacateTables(t: Tables, c: string): Tables {
    var seated := if c in t.activeByConnection then RemoveActive(t, t.activeByConnection[c]) else t;
    var freed := RemoveHeldOn(seated, c);
    if c in seated.heldByConnection
    then freed.(frozen := freed.frozen - {seated.heldByConnection[c].info.id})
    else freed
  }

  function Seat(t: Tables, info: Info): Tables {
    t.(active := t.active[info.id := info], activeByConnection := t.activeByConnection[info.connection := info])
  }

  function StartTables(t: Tables, info: Info): Tables {
    Seat(VacateTables(t, info.connection), info)
  }

  function EndTables(t: Tables, id: string, account: string, at: int): Tables {
    if id in t.active then
      RemoveActive(Credit(t, t.active[id].account, at - t.active[id].start), t.active[id])
    else if id in t.frozen then
      var credited := Credit(t, t.frozen[id].account, at - t.frozen[id].start);
      RemoveHeldId(credited.(frozen := credited.frozen - {id}), account, id)
    else t
  }

  function ReconnectTables(t: Tables, c: string): Tables {
    if c !in t.heldByConnection then t
    else
      var info := t.heldByConnection[c].info;
      var freed := RemoveHeldOn(t, c);
      Seat(freed.(frozen := freed.frozen - {info.id}), info)
  }

  function DisconnectTables(t: Tables, account: string, c: string, clean: bool, at: int): Tables {
    if c !in t.activeByConnection then t
    else
      var info := t.activeByConnection[c];
      if clean then RemoveActive(Credit(t, account, at - info.start), info) else Track(t, info, at)
  }

  /** server.started, visiting the active connections in the order the map yields them. */
  function TrackAll(t: Tables, order: seq<string>, at: int): Tables
    decreases |order|
  {
    if order == [] then t
    else
      var (before, c) := (TrackAll(t, order[..|order| - 1], at), order[|order| - 1]);
      if c in before.activeByConnection then Track(before, before.activeByConnection[c], at) else before
  }

  function ApplyTables(t: Tables, e: Event, order: seq<string>): Tables {
    match e.data
    case ServerStarted => TrackAll(t, order, e.at)
    case SessionStarted(id, _, c, start) => StartTables(t, Info(id, e.accountId, c, start))
    case SessionEnded(id) => EndTables(t, id, e.accountId, e.at)
    case ClientConnected(_, c, _) => ReconnectTables(t, c)
    case ClientDisconnected(_, c, _, _, code) => DisconnectTables(t, e.accountId, c, Clean(code), e.at)
    case _ => t
  }

  // ---------------------------------------------------------------- the two tied together

  /** Both indexes of the active sessions list `info`. */
  predicate Seated(active: map<string, Info>, seats: map<string, Info>, info: Info) {
    && info.id in active && active[info.id] == info
    && info.connection in seats && seats[info.connection] == info
  }

  function SpanOf(info: Info, at: int): Span {
    Span(info.id, info.account, info.start, at)
  }

  /** Session `id` is where its fate says it is, and nowhere else. */
  ghost predicate IdTied(homes: Homes, fates: map<string, Fate>, t: Tables, id: string) {
    && (id in t.active <==> id in fates && fates[id].Active?)
    && (id in t.active ==> id in homes && Seated(t.active, t.activeByConnection, homes[id]))
    && (id in t.frozen <==> id in fates && fates[id].Frozen?)
    && (id in t.frozen ==> id in homes && t.frozen[id] == SpanOf(homes[id], fates[id].at))
  }

  /** Connection `c` has a seated session, or a held one, or neither. */
  ghost predicate ConnectionTied(t: Tables, c: string) {
    && (c in t.activeByConnection ==>
        t.activeByConnection[c].connection == c && Seated(t.active, t.activeByConnection, t.activeByConnection[c]))
    && (c in t.heldByConnection ==> t.heldByConnection[c].info.connection == c)
    && !(c in t.activeByConnection && c in t.heldByConnection)
  }

  ghost predicate EntryTied(homes: Homes, fates: map<string, Fate>, account: string, d: Parked) {
    && d.info.account == account
    && d.info.id in homes && homes[d.info.id] == d.info
    && d.info.id in fates && fates[d.info.id] == Frozen(d.at)
  }

  /** A queue is non-empty, of at most four entries on different connections, and each
      entry is a frozen session at home in that account. */
  ghost predicate QueueTied(homes: Homes, fates: map<string, Fate>, queues: map<string, seq<Parked>>, a: string) {
    a in queues ==>
      && 0 < |queues[a]| <= HELD_PER_ACCOUNT && Distinct(queues[a], ConnectionOf)
      && (forall d {:trigger EntryTied(homes, fates, a, d)} :: d in queues[a] ==> EntryTied(homes, fates, a, d))
  }

  predicate InQueue(queues: map<string, seq<Parked>>, d: Parked) {
    d in QueueOf(queues, d.info.account)
  }

  predicate At(held: map<string, Parked>, d: Parked) {
    d.info.connection in held && held[d.info.connection] == d
  }

  /** The connection index lists entry `d` exactly if it is queued. */
  ghost predicate EntryIndexed(held: map<string, Parked>, queues: map<string, seq<Parked>>, d: Parked) {
    At(held, d) <==> InQueue(queues, d)
  }

  ghost predicate QueuesTied(homes: Homes, fates: map<string, Fate>, queues: map<string, seq<Parked>>, held: map<string, Parked>) {
    && (forall a :: QueueTied(homes, fates, queues, a))
    && (forall d :: EntryIndexed(held, queues, d))
  }

  ghost function ClosedWorth(homes: Homes, fates: map<string, Fate>): string -> int {
    (id: string) => if id in fates && id in homes && fates[id].Closed? then fates[id].end - homes[id].start else 0
  }

  ghost function DurationOf(durations: map<string, int>): string -> int {
    (a: string) => if a in durations then durations[a] else 0
  }

  ghost function CreditTotal(durations: map<string, int>): int {
    Sum(durations.Keys, DurationOf(durations))
  }

  ghost function ClosedTotal(homes: Homes, fates: map<string, Fate>): int {
    Sum(fates.Keys, ClosedWorth(homes, fates))
  }

  ghost predicate Credited(homes: Homes, fates: map<string, Fate>, durations: map<string, int>) {
    CreditTotal(durations) == ClosedTotal(homes, fates)
  }

  ghost predicate Tied(homes: Homes, l: Ledger, t: Tables) {
    && ProperHomes(homes) && l.fates.Keys <= homes.Keys
    && (forall id :: IdTied(homes, l.fates, t, id))
    && (forall c :: ConnectionTied(t, c))
    && t.queues == l.queues
    && QueuesTied(homes, l.fates, t.queues, t.heldByConnection)
    && Credited(homes, l.fates, t.durations)
  }

  // ---------------------------------------------------------------- queues

  /** An entry found in any queue is in its own account's, and so indexed. */
  lemma QueuedIsIndexed(homes: Homes, fates: map<string, Fate>, queues: map<string, seq<Parked>>,
                        held: map<string, Parked>, a: string, d: Parked)
    requires QueuesTied(homes, fates, queues, held) && a in queues && d in queues[a]
    ensures EntryTied(homes, fates, a, d) && At(held, d)
  {
    assert QueueTied(homes, fates, queues, a);
    assert EntryTied(homes, fates, a, d);
    assert EntryIndexed(held, queues, d);
  }

  lemma IndexedIsQueued(homes: Homes, fates: map<string, Fate>, queues: map<string, seq<Parked>>,
                        held: map<string, Parked>, d: Parked)
    requires QueuesTied(homes, fates, queues, held) && At(held, d)
    ensures InQueue(queues, d) && d.info.account in queues && EntryTied(homes, fates, d.info.account, d)
  {
    assert EntryIndexed(held, queues, d);
    assert QueueTied(homes, fates, queues, d.info.account);
    assert EntryTied(homes, fates, d.info.account, d);
  }

  /** Queue `b` has no entry on `c`. */
  ghost predicate Untouched(queues: map<string, seq<Parked>>, c: string, b: string) {
    b in queues ==> Off(queues[b], ConnectionOf, c) == queues[b] != []
  }

  lemma OthersUntouched(homes: Homes, fates: map<string, Fate>, queues: map<string, seq<Parked>>,
                        held: map<string, Parked>, c: string, b: string)
    requires QueuesTied(homes, fates, queues, held)
    requires c in held ==> b != held[c].info.account
    ensures Untouched(queues, c, b)
  {
    if b in queues {
      forall d | d in queues[b] ensures d.info.connection != c {
        QueuedIsIndexed(homes, fates, queues, held, b, d);
      }
      OffNothing(queues[b], ConnectionOf, c);
      assert QueueTied(homes, fates, queues, b);
    }
  }

  lemma PutIsRelease(queues: map<string, seq<Parked>>, account: string, c: string)
    requires forall b :: b != account ==> Untouched(queues, c, b)
    ensures PutQueue(queues, account, Off(QueueOf(queues, account), ConnectionOf, c)) == Release(queues, c)
  {
    forall b | b in queues && b != account ensures b in Release(queues, c) && Release(queues, c)[b] == queues[b] {
      assert Untouched(queues, c, b);
    }
  }

  lemma ReleaseUnindexed(homes: Homes, fates: map<string, Fate>, queues: map<string, seq<Parked>>,
                         held: map<string, Parked>, c: string)
    requires QueuesTied(homes, fates, queues, held) && c !in held
    ensures Release(queues, c) == queues
  {
    forall b | b in queues ensures b in Release(queues, c) && Release(queues, c)[b] == queues[b] {
      OthersUntouched(homes, fates, queues, held, c, b);
    }
  }

  /** Taking the first entry on `c` out of its own queue takes every entry on `c` out of
      every queue. */
  lemma RemoveHeldIsRelease(homes: Homes, fates: map<string, Fate>, t: Tables, c: string)
    requires QueuesTied(homes, fates, t.queues, t.heldByConnection)
    requires c in t.heldByConnection ==> t.heldByConnection[c].info.connection == c
    ensures RemoveHeldOn(t, c) == t.(heldByConnection := t.heldByConnection - {c}, queues := Release(t.queues, c))
  {
    var held := t.heldByConnection;
    if c in held {
      var account := held[c].info.account;
      IndexedIsQueued(homes, fates, t.queues, held, held[c]);
      assert QueueTied(homes, fates, t.queues, account);
      forall b | b != account ensures Untouched(t.queues, c, b) {
        OthersUntouched(homes, fates, t.queues, held, c, b);
      }
      RemoveFirstIsOff(t.queues[account], ConnectionOf, c);
      OffShorter(t.queues[account], ConnectionOf, held[c]);
      PutIsRelease(t.queues, account, c);
    } else {
      ReleaseUnindexed(homes, fates, t.queues, held, c);
      assert held - {c} == held;
    }
  }

  lemma ReleaseTied(homes: Homes, fates: map<string, Fate>, after: map<string, Fate>,
                    queues: map<string, seq<Parked>>, held: map<string, Parked>, c: string)
    requires QueuesTied(homes, fates, queues, held)
    requires forall id :: id in fates && id in homes && homes[id].connection != c ==> id in after && after[id] == fates[id]
    ensures QueuesTied(homes, after, Release(queues, c), held - {c})
  {
    var released := Release(queues, c);
    forall a ensures QueueTied(homes, after, released, a) {
      if a in released {
        OffKeeps(queues[a], ConnectionOf, c);
        assert QueueTied(homes, fates, queues, a);
        forall d | d in released[a] ensures EntryTied(homes, after, a, d) {
          assert EntryTied(homes, fates, a, d);
        }
      }
    }
    forall d ensures EntryIndexed(held - {c}, released, d) {
      OffKeeps(QueueOf(queues, d.info.account), ConnectionOf, c);
      assert EntryIndexed(held, queues, d);
    }
  }

  /** Fates that no held session has may change freely. */
  lemma QueuesAfter(homes: Homes, fates: map<string, Fate>, after: map<string, Fate>,
                    queues: map<string, seq<Parked>>, held: map<string, Parked>)
    requires QueuesTied(homes, fates, queues, held)
    requires forall id :: id in fates && fates[id].Frozen? ==> id in after && after[id] == fates[id]
    ensures QueuesTied(homes, after, queues, held)
  {
    forall a ensures QueueTied(homes, after, queues, a) {
      assert QueueTied(homes, fates, queues, a);
      if a in queues {
        forall d | d in queues[a] ensures EntryTied(homes, after, a, d) {
          assert EntryTied(homes, fates, a, d);
        }
      }
    }
  }

  lemma HoldMembers(queues: map<string, seq<Parked>>, d: Parked, x: Parked)
    requires Distinct(QueueOf(queues, d.info.account) + [d], ConnectionOf)
    requires |QueueOf(queues, d.info.account)| <= HELD_PER_ACCOUNT
    requires forall y :: y in QueueOf(queues, d.info.account) ==> y.info.account == d.info.account
    ensures var queue := QueueOf(queues, d.info.account) + [d];
      InQueue(Hold(queues, d), x) <==>
        (InQueue(queues, x) || x == d) && (|queue| > HELD_PER_ACCOUNT ==> x != queue[0])
  {
    JoinedMembers(QueueOf(queues, d.info.account), ConnectionOf, d, x);
  }

  /** What may join its queue. */
  lemma MayJoin(homes: Homes, fates: map<string, Fate>, queues: map<string, seq<Parked>>,
                held: map<string, Parked>, d: Parked)
    requires QueuesTied(homes, fates, queues, held) && d.info.connection !in held
    ensures Distinct(QueueOf(queues, d.info.account) + [d], ConnectionOf)
    ensures |QueueOf(queues, d.info.account)| <= HELD_PER_ACCOUNT
    ensures forall y :: y in QueueOf(queues, d.info.account) ==> y.info.account == d.info.account
  {
    var a := d.info.account;
    forall y | y in QueueOf(queues, a) ensures y.info.connection != d.info.connection && y.info.account == a {
      QueuedIsIndexed(homes, fates, queues, held, a, y);
    }
    assert QueueTied(homes, fates, queues, a);
  }

  function IndexAfterHold(queues: map<string, seq<Parked>>, held: map<string, Parked>, d: Parked): map<string, Parked> {
    var queue := QueueOf(queues, d.info.account) + [d];
    (if |queue| > HELD_PER_ACCOUNT then held - {queue[0].info.connection} else held)[d.info.connection := d]
  }

  lemma HoldIndexed(homes: Homes, fates: map<string, Fate>, queues: map<string, seq<Parked>>,
                    held: map<string, Parked>, d: Parked, x: Parked)
    requires QueuesTied(homes, fates, queues, held) && d.info.connection !in held
    ensures EntryIndexed(IndexAfterHold(queues, held, d), Hold(queues, d), x)
  {
    var queue := QueueOf(queues, d.info.account) + [d];
    MayJoin(homes, fates, queues, held, d);
    HoldMembers(queues, d, x);
    assert EntryIndexed(held, queues, x);
    if |queue| > HELD_PER_ACCOUNT {
      assert EntryIndexed(held, queues, queue[0]);
      assert InQueue(queues, queue[0]);
    }
  }

  lemma HoldTied(homes: Homes, fates: map<string, Fate>, queues: map<string, seq<Parked>>,
                 held: map<string, Parked>, d: Parked)
    requires QueuesTied(homes, fates, queues, held) && d.info.connection !in held
    requires d.info.id in homes && homes[d.info.id] == d.info
    ensures QueuesTied(homes, fates[d.info.id := Frozen(d.at)], Hold(queues, d), IndexAfterHold(queues, held, d))
  {
    var after := fates[d.info.id := Frozen(d.at)];
    forall x ensures EntryIndexed(IndexAfterHold(queues, held, d), Hold(queues, d), x) {
      HoldIndexed(homes, fates, queues, held, d, x);
    }
    MayJoin(homes, fates, queues, held, d);
    forall b ensures QueueTied(homes, after, Hold(queues, d), b) {
      assert QueueTied(homes, fates, queues, b);
      if b in Hold(queues, d) {
        forall x | x in Hold(queues, d)[b] ensures EntryTied(homes, after, b, x) {
          if x in QueueOf(queues, b) {
            QueuedIsIndexed(homes, fates, queues, held, b, x);
          }
        }
      }
    }
  }

  // ---------------------------------------------------------------- who is on a connection

  lemma ActiveAt(homes: Homes, l: Ledger, t: Tables, c: string, id: string)
    requires Tied(homes, l, t)
    ensures ActiveOn(homes, l, id, c) <==> c in t.activeByConnection && t.activeByConnection[c].id == id
  {
    assert IdTied(homes, l.fates, t, id);
    assert ConnectionTied(t, c);
  }

  lemma HeldAt(homes: Homes, l: Ledger, t: Tables, c: string, id: string)
    requires Tied(homes, l, t)
    ensures (id in l.fates && homes[id].connection == c && Holds(l.queues, homes[id].account, id)) <==>
      (c in t.heldByConnection && t.heldByConnection[c].info.id == id)
  {
    assert ConnectionTied(t, c);
    if c in t.heldByConnection {
      IndexedIsQueued(homes, l.fates, l.queues, t.heldByConnection, t.heldByConnection[c]);
    }
    if id in l.fates && homes[id].connection == c && Holds(l.queues, homes[id].account, id) {
      var d :| d in QueueOf(l.queues, homes[id].account) && d.info.id == id;
      QueuedIsIndexed(homes, l.fates, l.queues, t.heldByConnection, homes[id].account, d);
    }
  }

  /** The session held on `c`. */
  lemma HeldSession(homes: Homes, l: Ledger, t: Tables, c: string)
    requires Tied(homes, l, t) && c in t.heldByConnection
    ensures var d := t.heldByConnection[c];
      && d.info.connection == c && d.info.id in homes && homes[d.info.id] == d.info
      && d.info.id in l.fates && l.fates[d.info.id] == Frozen(d.at)
  {
    assert ConnectionTied(t, c);
    IndexedIsQueued(homes, l.fates, l.queues, t.heldByConnection, t.heldByConnection[c]);
  }

  /** The session active on `c`. */
  lemma ActiveSession(homes: Homes, l: Ledger, t: Tables, c: string)
    requires Tied(homes, l, t) && c in t.activeByConnection
    ensures var info := t.activeByConnection[c];
      && info.connection == c && info.id in homes && homes[info.id] == info
      && info.id in l.fates && l.fates[info.id].Active? && Seated(t.active, t.activeByConnection, info)
      && c !in t.heldByConnection
  {
    assert ConnectionTied(t, c);
    assert IdTied(homes, l.fates, t, t.activeByConnection[c].id);
  }

  // ---------------------------------------------------------------- credits

  lemma DurationAdded(t: Tables, account: string, amount: int)
    ensures CreditTotal(Credit(t, account, amount).durations) == CreditTotal(t.durations) + amount
  {
    var durations := Credit(t, account, amount).durations;
    SumChange(t.durations.Keys, DurationOf(t.durations), DurationOf(durations), account);
    assert durations.Keys == t.durations.Keys + {account};
  }

  lemma ClosedAdded(homes: Homes, fates: map<string, Fate>, id: string, fate: Fate)
    requires id in homes && (id in fates ==> !fates[id].Closed?)
    ensures ClosedTotal(homes, fates[id := fate])
      == ClosedTotal(homes, fates) + (if fate.Closed? then fate.end - homes[id].start else 0)
  {
    var after := fates[id := fate];
    SumChange(fates.Keys, ClosedWorth(homes, fates), ClosedWorth(homes, after), id);
    assert after.Keys == fates.Keys + {id};
  }

  // ---------------------------------------------------------------- one fate changes

  /** The active session `info` gets up: its fate becomes `fate`, and `t'` differs in what
      that takes. */
  lemma GetUp(homes: Homes, l: Ledger, t: Tables, info: Info, fate: Fate, after: map<string, Fate>, t': Tables)
    requires Tied(homes, l, t) && info.connection in t.activeByConnection && t.activeByConnection[info.connection] == info
    requires !fate.Active? && after == l.fates[info.id := fate]
    requires t'.active == t.active - {info.id} && t'.activeByConnection == t.activeByConnection - {info.connection}
    requires t'.frozen == if fate.Frozen? then t.frozen[info.id := SpanOf(info, fate.at)] else t.frozen
    ensures forall id :: IdTied(homes, after, t', id)
    ensures forall c :: c in t'.activeByConnection ==>
      t'.activeByConnection[c].connection == c && Seated(t'.active, t'.activeByConnection, t'.activeByConnection[c])
  {
    ActiveSession(homes, l, t, info.connection);
    assert IdTied(homes, l.fates, t, info.id);
    forall id ensures IdTied(homes, after, t', id) {
      assert IdTied(homes, l.fates, t, id);
    }
    forall c | c in t'.activeByConnection
      ensures t'.activeByConnection[c].connection == c && Seated(t'.active, t'.activeByConnection, t'.activeByConnection[c])
    {
      assert ConnectionTied(t, c);
      assert ConnectionTied(t, info.connection);
    }
  }

  lemma SeatVacated(homes: Homes, l: Ledger, t: Tables, id: string)
    requires Tied(homes, l, t) && id in homes && (id in l.fates ==> l.fates[id].Displaced?)
    requires homes[id].connection !in t.activeByConnection && homes[id].connection !in t.heldByConnection
    ensures Tied(homes, l.(fates := l.fates[id := Active]), Seat(t, homes[id]))
  {
    var (after, t') := (l.fates[id := Active], Seat(t, homes[id]));
    forall x ensures IdTied(homes, after, t', x) {
      assert IdTied(homes, l.fates, t, x);
    }
    forall c ensures ConnectionTied(t', c) {
      assert ConnectionTied(t, c);
      assert IdTied(homes, l.fates, t, id);
    }
    ClosedAdded(homes, l.fates, id, Active);
    QueuesAfter(homes, l.fates, after, t.queues, t.heldByConnection);
  }

  // ---------------------------------------------------------------- each event

  lemma VacateFates(homes: Homes, l: Ledger, t: Tables, c: string)
    requires Tied(homes, l, t)
    ensures Vacate(homes, l, c).fates ==
      if c in t.activeByConnection then l.fates[t.activeByConnection[c].id := Displaced]
      else if c in t.heldByConnection then l.fates[t.heldByConnection[c].info.id := Displaced]
      else l.fates
  {
    forall x | x in l.fates
      ensures (homes[x].connection == c && (l.fates[x].Active? || Holds(l.queues, homes[x].account, x))) <==>
        ((c in t.activeByConnection && t.activeByConnection[c].id == x) ||
         (c in t.heldByConnection && t.heldByConnection[c].info.id == x))
    {
      ActiveAt(homes, l, t, c, x);
      HeldAt(homes, l, t, c, x);
    }
    if c in t.activeByConnection {
      ActiveSession(homes, l, t, c);
    } else if c in t.heldByConnection {
      HeldSession(homes, l, t, c);
    }
  }

  lemma VacateActive(homes: Homes, l: Ledger, t: Tables, c: string)
    requires Tied(homes, l, t) && c in t.activeByConnection
    ensures Tied(homes, Vacate(homes, l, c), VacateTables(t, c))
  {
    var info := t.activeByConnection[c];
    var (after, t') := (l.fates[info.id := Displaced], VacateTables(t, c));
    VacateFates(homes, l, t, c);
    ActiveSession(homes, l, t, c);
    RemoveHeldIsRelease(homes, l.fates, RemoveActive(t, info), c);
    GetUp(homes, l, t, info, Displaced, after, t');
    forall x ensures ConnectionTied(t', x) { assert ConnectionTied(t, x); }
    ClosedAdded(homes, l.fates, info.id, Displaced);
    ReleaseTied(homes, l.fates, after, l.queues, t.heldByConnection, c);
  }

  lemma VacateHeld(homes: Homes, l: Ledger, t: Tables, c: string)
    requires Tied(homes, l, t) && c in t.heldByConnection
    ensures Tied(homes, Vacate(homes, l, c), VacateTables(t, c))
  {
    var id := t.heldByConnection[c].info.id;
    var (after, t') := (l.fates[id := Displaced], VacateTables(t, c));
    assert ConnectionTied(t, c);
    VacateFates(homes, l, t, c);
    HeldSession(homes, l, t, c);
    RemoveHeldIsRelease(homes, l.fates, t, c);
    forall x ensures IdTied(homes, after, t', x) { assert IdTied(homes, l.fates, t, x); }
    forall x ensures ConnectionTied(t', x) { assert ConnectionTied(t, x); }
    ClosedAdded(homes, l.fates, id, Displaced);
    ReleaseTied(homes, l.fates, after, l.queues, t.heldByConnection, c);
  }

  lemma VacateTied(homes: Homes, l: Ledger, t: Tables, c: string)
    requires Tied(homes, l, t)
    ensures Tied(homes, Vacate(homes, l, c), VacateTables(t, c))
    ensures c !in VacateTables(t, c).activeByConnection && c !in VacateTables(t, c).heldByConnection
  {
    assert ConnectionTied(t, c);
    if c in t.activeByConnection {
      VacateActive(homes, l, t, c);
    } else if c in t.heldByConnection {
      VacateHeld(homes, l, t, c);
    } else {
      VacateFates(homes, l, t, c);
      ReleaseUnindexed(homes, l.fates, l.queues, t.heldByConnection, c);
    }
  }

  /** What a session that may start has been so far, once its connection is vacated. */
  lemma VacatedFate(homes: Homes, l: Ledger, t: Tables, id: string)
    requires Tied(homes, l, t) && id in homes && MayStart(homes, l, id)
    ensures var v := Vacate(homes, l, homes[id].connection); id in v.fates ==> v.fates[id].Displaced?
  {
    VacateFates(homes, l, t, homes[id].connection);
    ActiveAt(homes, l, t, homes[id].connection, id);
    HeldAt(homes, l, t, homes[id].connection, id);
  }

  lemma StartTied(homes: Homes, l: Ledger, t: Tables, id: string)
    requires Tied(homes, l, t) && id in homes && MayStart(homes, l, id)
    ensures Tied(homes, Start(homes, l, id, homes[id].connection), StartTables(t, homes[id]))
  {
    var c := homes[id].connection;
    VacateTied(homes, l, t, c);
    VacatedFate(homes, l, t, id);
    SeatVacated(homes, Vacate(homes, l, c), VacateTables(t, c), id);
  }

  lemma ReconnectFates(homes: Homes, l: Ledger, t: Tables, c: string)
    requires Tied(homes, l, t)
    ensures Reconnect(homes, l, c).fates ==
      if c in t.heldByConnection then l.fates[t.heldByConnection[c].info.id := Active] else l.fates
  {
    forall x | x in l.fates
      ensures (homes[x].connection == c && Holds(l.queues, homes[x].account, x)) <==>
        (c in t.heldByConnection && t.heldByConnection[c].info.id == x)
    {
      HeldAt(homes, l, t, c, x);
    }
    if c in t.heldByConnection { HeldSession(homes, l, t, c); }
  }

  /** A reconnect seats the session held on the connection, as a start of it would. */
  lemma ReconnectIsStart(homes: Homes, l: Ledger, t: Tables, c: string)
    requires Tied(homes, l, t) && c in t.heldByConnection
    ensures var info := t.heldByConnection[c].info;
      && info.id in homes && homes[info.id] == info && info.connection == c && MayStart(homes, l, info.id)
      && Reconnect(homes, l, c) == Start(homes, l, info.id, c)
      && ReconnectTables(t, c) == StartTables(t, info)
  {
    HeldSession(homes, l, t, c);
    HeldAt(homes, l, t, c, t.heldByConnection[c].info.id);
    ReconnectFates(homes, l, t, c);
    VacateFates(homes, l, t, c);
    assert ConnectionTied(t, c);
  }

  lemma ReconnectTied(homes: Homes, l: Ledger, t: Tables, c: string)
    requires Tied(homes, l, t)
    ensures Tied(homes, Reconnect(homes, l, c), ReconnectTables(t, c))
  {
    if c in t.heldByConnection {
      ReconnectIsStart(homes, l, t, c);
      StartTied(homes, l, t, t.heldByConnection[c].info.id);
    } else {
      ReconnectFates(homes, l, t, c);
      ReleaseUnindexed(homes, l.fates, l.queues, t.heldByConnection, c);
    }
  }

  /** Who is found active on `c` in the ledger. */
  lemma FoundActive(homes: Homes, l: Ledger, t: Tables, c: string, at: int)
    requires Tied(homes, l, t)
    ensures c in t.activeByConnection ==>
      var info := t.activeByConnection[c];
      && CloseOn(homes, l, c, at) == l.(fates := l.fates[info.id := Closed(at)])
      && Freeze(homes, l, c, at) == Ledger(l.fates[info.id := Frozen(at)], Hold(l.queues, Parked(info, at)))
    ensures c !in t.activeByConnection ==> CloseOn(homes, l, c, at) == Freeze(homes, l, c, at) == l
  {
    forall id ensures ActiveOn(homes, l, id, c) <==> c in t.activeByConnection && t.activeByConnection[c].id == id {
      ActiveAt(homes, l, t, c, id);
    }
    if c in t.activeByConnection {
      ActiveSession(homes, l, t, c);
      assert ActiveOn(homes, l, t.activeByConnection[c].id, c);
    }
  }

  lemma CreditTied(homes: Homes, fates: map<string, Fate>, t: Tables, account: string, info: Info, end: int)
    requires Credited(homes, fates, t.durations) && info.id in homes && homes[info.id] == info
    requires info.id in fates && !fates[info.id].Closed?
    ensures Credited(homes, fates[info.id := Closed(end)], Credit(t, account, end - info.start).durations)
  {
    var (amount, after) := (end - info.start, fates[info.id := Closed(end)]);
    assert CreditTotal(Credit(t, account, amount).durations) == CreditTotal(t.durations) + amount by {
      DurationAdded(t, account, amount);
    }
    assert ClosedTotal(homes, after) == ClosedTotal(homes, fates) + amount by {
      ClosedAdded(homes, fates, info.id, Closed(end));
    }
  }

  lemma CloseActive(homes: Homes, l: Ledger, t: Tables, account: string, info: Info, at: int)
    requires Tied(homes, l, t) && info.connection in t.activeByConnection && t.activeByConnection[info.connection] == info
    ensures Tied(homes, l.(fates := l.fates[info.id := Closed(at)]), RemoveActive(Credit(t, account, at - info.start), info))
  {
    var (after, t') := (l.fates[info.id := Closed(at)], RemoveActive(Credit(t, account, at - info.start), info));
    CloseSeats(homes, l, t, info, at, after, t');
    ActiveSession(homes, l, t, info.connection);
    CreditTied(homes, l.fates, t, account, info, at);
    QueuesAfter(homes, l.fates, after, t.queues, t.heldByConnection);
  }

  lemma CloseSeats(homes: Homes, l: Ledger, t: Tables, info: Info, end: int, after: map<string, Fate>, t': Tables)
    requires Tied(homes, l, t) && info.connection in t.activeByConnection && t.activeByConnection[info.connection] == info
    requires after == l.fates[info.id := Closed(end)] && t' == RemoveActive(t, info).(durations := t'.durations)
    ensures after.Keys <= homes.Keys
    ensures (forall id :: IdTied(homes, after, t', id)) && (forall c :: ConnectionTied(t', c))
  {
    ActiveSession(homes, l, t, info.connection);
    GetUp(homes, l, t, info, Closed(end), after, t');
    forall x ensures ConnectionTied(t', x) { assert ConnectionTied(t, x); }
  }

  lemma CloseOnTied(homes: Homes, l: Ledger, t: Tables, account: string, c: string, at: int)
    requires Tied(homes, l, t)
    ensures Tied(homes, CloseOn(homes, l, c, at), DisconnectTables(t, account, c, true, at))
  {
    if c in t.activeByConnection {
      var info := t.activeByConnection[c];
      assert info.connection == c by { ActiveSession(homes, l, t, c); }
      assert CloseOn(homes, l, c, at) == l.(fates := l.fates[info.id := Closed(at)]) by { FoundActive(homes, l, t, c, at); }
      CloseActive(homes, l, t, account, info, at);
    } else {
      FoundActive(homes, l, t, c, at);
    }
  }

  lemma TrackTied(homes: Homes, l: Ledger, t: Tables, info: Info, at: int)
    requires Tied(homes, l, t) && info.connection in t.activeByConnection && t.activeByConnection[info.connection] == info
    ensures Tied(homes, Ledger(l.fates[info.id := Frozen(at)], Hold(l.queues, Parked(info, at))), Track(t, info, at))
  {
    TrackSeats(homes, l, t, info, at);
    TrackQueues(homes, l, t, info, at);
  }

  lemma TrackSeats(homes: Homes, l: Ledger, t: Tables, info: Info, at: int)
    requires Tied(homes, l, t) && info.connection in t.activeByConnection && t.activeByConnection[info.connection] == info
    ensures var (after, t') := (l.fates[info.id := Frozen(at)], Track(t, info, at));
      && after.Keys <= homes.Keys
      && (forall id :: IdTied(homes, after, t', id))
      && (forall c :: ConnectionTied(t', c))
  {
    var (t', after) := (Track(t, info, at), l.fates[info.id := Frozen(at)]);
    ActiveSession(homes, l, t, info.connection);
    TrackIsHold(homes, l, t, info, at);
    GetUp(homes, l, t, info, Frozen(at), after, t');
    forall c ensures ConnectionTied(t', c) { assert ConnectionTied(t, c); }
  }

  lemma TrackQueues(homes: Homes, l: Ledger, t: Tables, info: Info, at: int)
    requires Tied(homes, l, t) && info.connection in t.activeByConnection && t.activeByConnection[info.connection] == info
    ensures var (after, t') := (l.fates[info.id := Frozen(at)], Track(t, info, at));
      && t'.queues == Hold(l.queues, Parked(info, at))
      && QueuesTied(homes, after, t'.queues, t'.heldByConnection)
      && Credited(homes, after, t'.durations)
  {
    ActiveSession(homes, l, t, info.connection);
    TrackIsHold(homes, l, t, info, at);
    HoldTied(homes, l.fates, l.queues, t.heldByConnection, Parked(info, at));
    ClosedAdded(homes, l.fates, info.id, Frozen(at));
  }

  lemma TrackIsHold(homes: Homes, l: Ledger, t: Tables, info: Info, at: int)
    requires Tied(homes, l, t) && info.connection !in t.heldByConnection
    ensures var d := Parked(info, at);
      Track(t, info, at) == RemoveActive(t, info).(
        frozen := t.frozen[info.id := SpanOf(info, at)],
        queues := Hold(t.queues, d), heldByConnection := IndexAfterHold(t.queues, t.heldByConnection, d))
  {
    assert QueueTied(homes, l.fates, t.queues, info.account);
    var queue := QueueOf(t.queues, info.account) + [Parked(info, at)];
    if |queue| > HELD_PER_ACCOUNT { assert LastHeld(queue) == queue[1..]; }
  }

  lemma FreezeTied(homes: Homes, l: Ledger, t: Tables, account: string, c: string, at: int)
    requires Tied(homes, l, t)
    ensures Tied(homes, Freeze(homes, l, c, at), DisconnectTables(t, account, c, false, at))
  {
    FoundActive(homes, l, t, c, at);
    if c in t.activeByConnection {
      var info := t.activeByConnection[c];
      assert info.connection == c by { ActiveSession(homes, l, t, c); }
      TrackTied(homes, l, t, info, at);
    }
  }

  // ---------------------------------------------------------------- session.ended

  lemma PutSame(homes: Homes, l: Ledger, t: Tables, account: string)
    requires Tied(homes, l, t)
    ensures PutQueue(l.queues, account, QueueOf(l.queues, account)) == l.queues
  {
    assert QueueTied(homes, l.fates, t.queues, account);
  }

  lemma NotHeld(homes: Homes, l: Ledger, t: Tables, id: string, account: string)
    requires Tied(homes, l, t) && !Holds(l.queues, account, id)
    ensures RemoveHeldId(t, account, id) == t
    ensures PutQueue(l.queues, account, Off(QueueOf(l.queues, account), IdOf, id)) == l.queues
  {
    OffNothing(QueueOf(l.queues, account), IdOf, id);
    PutSame(homes, l, t, account);
  }

  /** A held session's entry is the one on its connection. */
  lemma HeldEntry(homes: Homes, l: Ledger, t: Tables, id: string, account: string)
    requires Tied(homes, l, t) && id in homes && homes[id].account == account && Holds(l.queues, account, id)
    ensures account in t.queues
    ensures var c := homes[id].connection;
      && id in l.fates && l.fates[id].Frozen? && c in t.heldByConnection && t.heldByConnection[c].info == homes[id]
      && (forall d :: d in t.queues[account] ==> (d.info.id == id <==> d.info.connection == c))
  {
    var c := homes[id].connection;
    var queue := t.queues[account];
    var e :| e in queue && e.info.id == id;
    QueuedIsIndexed(homes, l.fates, t.queues, t.heldByConnection, account, e);
    forall d | d in queue ensures d.info.id == id <==> d.info.connection == c {
      QueuedIsIndexed(homes, l.fates, t.queues, t.heldByConnection, account, d);
    }
  }

  /** Cutting the entry out by id, or dropping its connection from every queue. */
  lemma CutReleases(queues: map<string, seq<Parked>>, account: string, id: string, c: string)
    requires account in queues && Distinct(queues[account], ConnectionOf)
    requires forall d :: d in queues[account] ==> (d.info.id == id <==> d.info.connection == c)
    requires forall b :: b != account ==> Untouched(queues, c, b)
    requires IndexOf(queues[account], IdOf, id) < |queues[account]|
    ensures var (queue, i) := (queues[account], IndexOf(queues[account], IdOf, id));
      && queue[i].info.connection == c
      && PutQueue(queues, account, queue[..i] + queue[i + 1..]) == Release(queues, c)
      && PutQueue(queues, account, Off(queue, IdOf, id)) == Release(queues, c)
  {
    var (queue, i) := (queues[account], IndexOf(queues[account], IdOf, id));
    assert queue[i] in queue;
    CutIsOff(queue, ConnectionOf, i);
    SameOff(queue, IdOf, id, ConnectionOf, c);
    PutIsRelease(queues, account, c);
  }

  lemma CutHeldId(t: Tables, account: string, id: string, c: string)
    requires account in t.queues && Distinct(t.queues[account], ConnectionOf)
    requires forall d :: d in t.queues[account] ==> (d.info.id == id <==> d.info.connection == c)
    requires forall b :: b != account ==> Untouched(t.queues, c, b)
    requires IndexOf(t.queues[account], IdOf, id) < |t.queues[account]|
    ensures RemoveHeldId(t, account, id) == t.(heldByConnection := t.heldByConnection - {c}, queues := Release(t.queues, c))
    ensures PutQueue(t.queues, account, Off(QueueOf(t.queues, account), IdOf, id)) == Release(t.queues, c)
  {
    CutReleases(t.queues, account, id, c);
  }

  /** What cutting a held session's entry out needs. */
  lemma HeldReady(homes: Homes, l: Ledger, t: Tables, id: string, account: string)
    requires Tied(homes, l, t) && id in homes && homes[id].account == account && Holds(l.queues, account, id)
    ensures account in t.queues && Distinct(t.queues[account], ConnectionOf)
    ensures forall d :: d in t.queues[account] ==> (d.info.id == id <==> d.info.connection == homes[id].connection)
    ensures IndexOf(t.queues[account], IdOf, id) < |t.queues[account]|
  {
    HeldEntry(homes, l, t, id, account);
    assert Distinct(t.queues[account], ConnectionOf) by { assert QueueTied(homes, l.fates, t.queues, account); }
    var d :| d in QueueOf(l.queues, account) && d.info.id == id;
    IndexInside(t.queues[account], IdOf, d);
  }

  /** No other account has an entry on its connection. */
  lemma HeldOnlyHere(homes: Homes, l: Ledger, t: Tables, id: string, account: string, b: string)
    requires Tied(homes, l, t) && id in homes && homes[id].account == account && Holds(l.queues, account, id)
    requires b != account
    ensures Untouched(t.queues, homes[id].connection, b)
  {
    HeldEntry(homes, l, t, id, account);
    OthersUntouched(homes, l.fates, t.queues, t.heldByConnection, homes[id].connection, b);
  }

  lemma HeldIdIsRelease(homes: Homes, l: Ledger, t: Tables, id: string, account: string)
    requires Tied(homes, l, t) && id in homes && homes[id].account == account && Holds(l.queues, account, id)
    ensures var c := homes[id].connection;
      && RemoveHeldId(t, account, id) == t.(heldByConnection := t.heldByConnection - {c}, queues := Release(t.queues, c))
      && PutQueue(l.queues, account, Off(QueueOf(l.queues, account), IdOf, id)) == Release(t.queues, c)
  {
    var c := homes[id].connection;
    assert forall b :: b != account ==> Untouched(t.queues, c, b) by {
      forall b | b != account ensures Untouched(t.queues, c, b) { HeldOnlyHere(homes, l, t, id, account, b); }
    }
    HeldReady(homes, l, t, id, account);
    CutHeldId(t, account, id, c);
  }

  /** The end of a frozen session, held or not. */
  lemma EndFrozen(homes: Homes, l: Ledger, t: Tables, id: string, account: string, at: int)
    requires Tied(homes, l, t) && id in homes && homes[id].account == account && id in t.frozen
    ensures Tied(homes, End(l, id, account, at), EndTables(t, id, account, at))
  {
    assert id in l.fates && l.fates[id].Frozen? by { assert IdTied(homes, l.fates, t, id); }
    EndFrozenSeats(homes, l, t, id, account, at);
    EndFrozenRest(homes, l, t, id, account, at);
    EndFrozenCredit(homes, l, t, id, account, at);
  }

  /** What the end does to the tables of a session that is not active. */
  lemma EndFrozenShape(t: Tables, id: string, account: string, start: int, at: int)
    requires id !in t.active && id in t.frozen && t.frozen[id].account == account && t.frozen[id].start == start
    ensures var removed := RemoveHeldId(t, account, id);
      EndTables(t, id, account, at) == Credit(t, account, at - start).(
        frozen := t.frozen - {id}, heldByConnection := removed.heldByConnection, queues := removed.queues)
  {
  }

  lemma EndFrozenSeats(homes: Homes, l: Ledger, t: Tables, id: string, account: string, at: int)
    requires Tied(homes, l, t) && id in homes && homes[id].account == account && id in t.frozen
    ensures var (after, t') := (l.fates[id := Closed(at)], EndTables(t, id, account, at));
      after.Keys <= homes.Keys && (forall x :: IdTied(homes, after, t', x)) && (forall c :: ConnectionTied(t', c))
  {
    var (after, t') := (l.fates[id := Closed(at)], EndTables(t, id, account, at));
    assert IdTied(homes, l.fates, t, id);
    EndFrozenShape(t, id, account, homes[id].start, at);
    var removed := RemoveHeldId(t, account, id);
    assert removed.heldByConnection.Keys <= t.heldByConnection.Keys
        && forall c :: c in removed.heldByConnection ==> removed.heldByConnection[c] == t.heldByConnection[c] by {
      EndFrozenQueues(homes, l, t, id, account, at);
    }
    CloseFrozen(homes, l.fates, t, id, at, after, t');
  }

  lemma EndFrozenRest(homes: Homes, l: Ledger, t: Tables, id: string, account: string, at: int)
    requires Tied(homes, l, t) && id in homes && homes[id].account == account && id in t.frozen
    ensures var (after, t') := (l.fates[id := Closed(at)], EndTables(t, id, account, at));
      && t'.queues == End(l, id, account, at).queues
      && QueuesTied(homes, after, t'.queues, t'.heldByConnection)
  {
    assert IdTied(homes, l.fates, t, id);
    EndFrozenShape(t, id, account, homes[id].start, at);
    EndFrozenQueues(homes, l, t, id, account, at);
  }

  lemma EndFrozenCredit(homes: Homes, l: Ledger, t: Tables, id: string, account: string, at: int)
    requires Tied(homes, l, t) && id in homes && homes[id].account == account && id in t.frozen
    ensures Credited(homes, l.fates[id := Closed(at)], EndTables(t, id, account, at).durations)
  {
    assert IdTied(homes, l.fates, t, id);
    EndFrozenShape(t, id, account, homes[id].start, at);
    CreditTied(homes, l.fates, t, account, homes[id], at);
  }

  /** A frozen session leaves; the seats stay. */
  lemma CloseFrozen(homes: Homes, fates: map<string, Fate>, t: Tables, id: string, end: int, after: map<string, Fate>, t': Tables)
    requires (forall x :: IdTied(homes, fates, t, x)) && (forall c :: ConnectionTied(t, c))
    requires id in t.frozen && after == fates[id := Closed(end)] && t'.frozen == t.frozen - {id}
    requires t'.active == t.active && t'.activeByConnection == t.activeByConnection
    requires t'.heldByConnection.Keys <= t.heldByConnection.Keys
    requires forall c :: c in t'.heldByConnection ==> t'.heldByConnection[c] == t.heldByConnection[c]
    ensures forall x :: IdTied(homes, after, t', x)
    ensures forall c :: ConnectionTied(t', c)
  {
    assert IdTied(homes, fates, t, id);
    forall x ensures IdTied(homes, after, t', x) { assert IdTied(homes, fates, t, x); }
    forall c ensures ConnectionTied(t', c) { assert ConnectionTied(t, c); }
  }

  lemma EndFrozenQueues(homes: Homes, l: Ledger, t: Tables, id: string, account: string, at: int)
    requires Tied(homes, l, t) && id in homes && homes[id].account == account && id in l.fates && l.fates[id].Frozen?
    ensures var t' := RemoveHeldId(t, account, id);
      && t'.queues == End(l, id, account, at).queues
      && QueuesTied(homes, l.fates[id := Closed(at)], t'.queues, t'.heldByConnection)
      && t'.heldByConnection.Keys <= t.heldByConnection.Keys
      && forall c :: c in t'.heldByConnection ==> t'.heldByConnection[c] == t.heldByConnection[c]
  {
    var after := l.fates[id := Closed(at)];
    if Holds(l.queues, account, id) {
      HeldIdIsRelease(homes, l, t, id, account);
      ReleaseTied(homes, l.fates, after, t.queues, t.heldByConnection, homes[id].connection);
    } else {
      NotHeld(homes, l, t, id, account);
      forall a ensures QueueTied(homes, after, t.queues, a) {
        assert QueueTied(homes, l.fates, t.queues, a);
        if a in t.queues {
          forall d | d in t.queues[a] ensures EntryTied(homes, after, a, d) {
            assert EntryTied(homes, l.fates, a, d);
          }
        }
      }
    }
  }

  lemma EndTied(homes: Homes, l: Ledger, t: Tables, id: string, account: string, at: int)
    requires Tied(homes, l, t) && (id in homes ==> homes[id].account == account)
    ensures Tied(homes, End(l, id, account, at), EndTables(t, id, account, at))
  {
    assert IdTied(homes, l.fates, t, id);
    if id in t.active {
      EndActive(homes, l, t, id, account, at);
    } else if id in t.frozen {
      EndFrozen(homes, l, t, id, account, at);
    }
  }

  lemma EndActive(homes: Homes, l: Ledger, t: Tables, id: string, account: string, at: int)
    requires Tied(homes, l, t) && id in t.active && id in homes && homes[id].account == account
    ensures Tied(homes, End(l, id, account, at), EndTables(t, id, account, at))
  {
    var info := homes[id];
    assert id in l.fates && l.fates[id].Active? && Seated(t.active, t.activeByConnection, info) by {
      assert IdTied(homes, l.fates, t, id);
    }
    assert End(l, id, account, at) == l.(fates := l.fates[id := Closed(at)]) by { ActiveNotHeld(homes, l, t, id, account); }
    assert EndTables(t, id, account, at) == RemoveActive(Credit(t, account, at - info.start), info);
    CloseActive(homes, l, t, account, info, at);
  }

  lemma ActiveNotHeld(homes: Homes, l: Ledger, t: Tables, id: string, account: string)
    requires Tied(homes, l, t) && id in homes && homes[id].account == account && id in l.fates && l.fates[id].Active?
    ensures PutQueue(l.queues, account, Off(QueueOf(l.queues, account), IdOf, id)) == l.queues
  {
    if Holds(l.queues, account, id) { HeldEntry(homes, l, t, id, account); }
    NotHeld(homes, l, t, id, account);
  }

  // ---------------------------------------------------------------- every run

  lemma {:induction false} FreezeAllTied(homes: Homes, l: Ledger, t: Tables, order: seq<string>, at: int)
    requires Tied(homes, l, t)
    ensures Tied(homes, FreezeAll(homes, l, order, at), TrackAll(t, order, at))
    decreases |order|
  {
    if order != [] {
      var (front, c) := (order[..|order| - 1], order[|order| - 1]);
      FreezeAllTied(homes, l, t, front, at);
      FreezeTied(homes, FreezeAll(homes, l, front, at), TrackAll(t, front, at), "", c, at);
    }
  }

  lemma ApplyTied(homes: Homes, l: Ledger, t: Tables, e: Event, order: seq<string>)
    requires Tied(homes, l, t) && Expected(homes, l, e)
    ensures Tied(homes, Apply(homes, l, e, order), ApplyTables(t, e, order))
  {
    match e.data
    case ServerStarted => FreezeAllTied(homes, l, t, order, e.at);
    case SessionStarted(id, _, _, _) => StartTied(homes, l, t, id);
    case SessionEnded(id) => EndTied(homes, l, t, id, e.accountId, e.at);
    case ClientConnected(_, c, _) => ReconnectTied(homes, l, t, c);
    case ClientDisconnected(_, c, _, _, code) =>
      if Clean(code) { CloseOnTied(homes, l, t, e.accountId, c, e.at); }
      else { FreezeTied(homes, l, t, e.accountId, c, e.at); }
    case _ =>
  }

  /** An event, and the order in which the map of active connections is visited for it. */
  datatype Visit = Visit(event: Event, order: seq<string>)

  ghost function RunLedger(homes: Homes, trace: seq<Visit>): Ledger
    decreases |trace|
  {
    if trace == [] then Ledger(map[], map[])
    else
      var last := trace[|trace| - 1];
      Apply(homes, RunLedger(homes, trace[..|trace| - 1]), last.event, last.order)
  }

  function RunTables(trace: seq<Visit>): Tables
    decreases |trace|
  {
    if trace == [] then EMPTY
    else
      var last := trace[|trace| - 1];
      ApplyTables(RunTables(trace[..|trace| - 1]), last.event, last.order)
  }

  /** Every event of the trace keeps to A1 and A3. */
  ghost predicate ExpectedTrace(homes: Homes, trace: seq<Visit>)
    decreases |trace|
  {
    trace == [] ||
    (var front := trace[..|trace| - 1];
     ExpectedTrace(homes, front) && Expected(homes, RunLedger(homes, front), trace[|trace| - 1].event))
  }

  lemma {:induction false} RunTied(homes: Homes, trace: seq<Visit>)
    requires ProperHomes(homes) && ExpectedTrace(homes, trace)
    ensures Tied(homes, RunLedger(homes, trace), RunTables(trace))
    decreases |trace|
  {
    if trace == [] {
      EmptyTied(homes);
    } else {
      var (front, last) := (trace[..|trace| - 1], trace[|trace| - 1]);
      RunTied(homes, front);
      ApplyTied(homes, RunLedger(homes, front), RunTables(front), last.event, last.order);
    }
  }

  lemma EmptyTied(homes: Homes)
    requires ProperHomes(homes)
    ensures Tied(homes, Ledger(map[], map[]), EMPTY)
  {
    forall id ensures IdTied(homes, map[], EMPTY, id) {}
    forall c ensures ConnectionTied(EMPTY, c) {}
    forall a ensures QueueTied(homes, map[], EMPTY.queues, a) {}
    forall d ensures EntryIndexed(map[], EMPTY.queues, d) {}
  }

  /** A seat is listed under its own connection. */
  predicate KeyedSeats(t: Tables) {
    forall c :: c in t.activeByConnection ==> t.activeByConnection[c].connection == c
  }

  lemma {:induction false} TrackAllKeyed(t: Tables, order: seq<string>, at: int)
    requires KeyedSeats(t)
    ensures KeyedSeats(TrackAll(t, order, at))
    decreases |order|
  {
    if order != [] { TrackAllKeyed(t, order[..|order| - 1], at); }
  }

  lemma VacateSeats(t: Tables, c: string)
    ensures VacateTables(t, c).activeByConnection ==
      if c in t.activeByConnection then t.activeByConnection - {t.activeByConnection[c].connection}
      else t.activeByConnection
  {
  }

  lemma DisconnectSeats(t: Tables, account: string, c: string, clean: bool, at: int)
    ensures DisconnectTables(t, account, c, clean, at).activeByConnection ==
      if c in t.activeByConnection then t.activeByConnection - {t.activeByConnection[c].connection}
      else t.activeByConnection
  {
  }

  lemma ApplyKeyed(t: Tables, e: Event, order: seq<string>)
    requires KeyedSeats(t)
    ensures KeyedSeats(ApplyTables(t, e, order))
  {
    match e.data
    case ServerStarted => TrackAllKeyed(t, order, e.at);
    case SessionStarted(_, _, c, _) => VacateSeats(t, c);
    case ClientDisconnected(_, c, _, _, code) => DisconnectSeats(t, e.accountId, c, Clean(code), e.at);
    case SessionEnded(_) =>
    case ClientConnected(_, _, _) =>
    case _ =>
  }

  lemma {:induction false} RunKeyed(trace: seq<Visit>)
    ensures KeyedSeats(RunTables(trace))
    decreases |trace|
  {
    if trace != [] {
      var (front, last) := (trace[..|trace| - 1], trace[|trace| - 1]);
      RunKeyed(front);
      ApplyKeyed(RunTables(front), last.event, last.order);
    }
  }

  // ---------------------------------------------------------------- the total

  ghost function ActiveDuration(t: Tables, now: int): string -> int {
    (id: string) => if id in t.active then now - t.active[id].start else 0
  }

  ghost function FrozenDuration(t: Tables): string -> int {
    (id: string) => if id in t.frozen then t.frozen[id].at - t.frozen[id].start else 0
  }

  /** What GetTotalDuration adds up from the tables. */
  ghost function TotalDuration(t: Tables, now: int): int {
    CreditTotal(t.durations) + Sum(t.active.Keys, ActiveDuration(t, now)) + Sum(t.frozen.Keys, FrozenDuration(t))
  }

  lemma WorthSplits(homes: Homes, l: Ledger, t: Tables, now: int, id: string)
    requires Tied(homes, l, t)
    ensures id in t.active <==> id in l.fates && l.fates[id].Active?
    ensures id in t.frozen <==> id in l.fates && l.fates[id].Frozen?
    ensures WorthOf(homes, l, now)(id)
      == ActiveDuration(t, now)(id) + FrozenDuration(t)(id) + ClosedWorth(homes, l.fates)(id)
  {
    assert IdTied(homes, l.fates, t, id);
    if id in l.fates {
      assert id in homes && homes[id].id == id;
    }
  }

  lemma TotalsAgree(homes: Homes, l: Ledger, t: Tables, now: int)
    requires Tied(homes, l, t)
    ensures TotalDuration(t, now) == Total(homes, l, now)
  {
    forall id: string
      ensures id in t.active ==> id in l.fates
      ensures id in t.frozen ==> id in l.fates
      ensures WorthOf(homes, l, now)(id)
        == ActiveDuration(t, now)(id) + FrozenDuration(t)(id) + ClosedWorth(homes, l.fates)(id)
    {
      WorthSplits(homes, l, t, now, id);
    }
    SumParts(t, l.fates.Keys, ActiveDuration(t, now), FrozenDuration(t), ClosedWorth(homes, l.fates), WorthOf(homes, l, now));
  }

  lemma SumParts(t: Tables, ids: set<string>, active: string -> int, frozen: string -> int, closed: string -> int,
                 worth: string -> int)
    requires t.active.Keys <= ids && t.frozen.Keys <= ids
    requires forall id :: id !in t.active ==> active(id) == 0
    requires forall id :: id !in t.frozen ==> frozen(id) == 0
    requires forall id :: worth(id) == active(id) + frozen(id) + closed(id)
    ensures Sum(ids, worth) == Sum(t.active.Keys, active) + Sum(t.frozen.Keys, frozen) + Sum(ids, closed)
  {
    var either := (id: string) => active(id) + frozen(id);
    SumPart(t.active.Keys, ids, active);
    SumPart(t.frozen.Keys, ids, frozen);
    SumPlus(ids, active, frozen, either);
    SumPlus(ids, either, closed, worth);
  }

  /** The usage ledger: after any trace that keeps to A1 and A3, at any time, the total is
      the ledger's. */
  lemma UsageLedgerHolds(homes: Homes, trace: seq<Visit>, now: int)
    requires ProperHomes(homes) && ExpectedTrace(homes, trace)
    ensures TotalDuration(RunTables(trace), now) == Total(homes, RunLedger(homes, trace), now)
  {
    RunTied(homes, trace);
    TotalsAgree(homes, RunLedger(homes, trace), RunTables(trace), now);
  }

  // ---------------------------------------------------------------- finished sessions

  lemma ClosedStays(homes: Homes, l: Ledger, t: Tables, e: Event, order: seq<string>, id: string)
    requires Tied(homes, l, t) && Expected(homes, l, e) && id in l.fates && l.fates[id].Closed?
    ensures var l' := Apply(homes, l, e, order); id in l'.fates && l'.fates[id] == l.fates[id]
  {
    match e.data
    case ServerStarted => FreezeAllFates(homes, l, t, order, e.at, id);
    case SessionStarted(_, _, c, _) => NotDisplaced(homes, l, t, c, id);
    case ClientConnected(_, c, _) => NotRevived(homes, l, t, c, id);
    case ClientDisconnected(_, c, _, _, _) =>
      FoundActive(homes, l, t, c, e.at);
      ActiveAt(homes, l, t, c, id);
    case _ =>
  }

  lemma NotDisplaced(homes: Homes, l: Ledger, t: Tables, c: string, id: string)
    requires Tied(homes, l, t) && id in l.fates && l.fates[id].Closed?
    ensures var fates := Vacate(homes, l, c).fates; id in fates && fates[id] == l.fates[id]
  {
    VacateFates(homes, l, t, c);
    ActiveAt(homes, l, t, c, id);
    if c in t.heldByConnection { HeldSession(homes, l, t, c); }
  }

  lemma NotRevived(homes: Homes, l: Ledger, t: Tables, c: string, id: string)
    requires Tied(homes, l, t) && id in l.fates && l.fates[id].Closed?
    ensures var fates := Reconnect(homes, l, c).fates; id in fates && fates[id] == l.fates[id]
  {
    ReconnectFates(homes, l, t, c);
    if c in t.heldByConnection { HeldSession(homes, l, t, c); }
  }

  lemma {:induction false} ClosedForever(homes: Homes, trace: seq<Visit>, after: seq<Visit>, id: string)
    requires ProperHomes(homes) && ExpectedTrace(homes, trace + after)
    requires id in RunLedger(homes, trace).fates && RunLedger(homes, trace).fates[id].Closed?
    ensures var l := RunLedger(homes, trace + after);
      id in l.fates && l.fates[id] == RunLedger(homes, trace).fates[id]
    decreases |after|
  {
    if after == [] {
      assert trace + after == trace;
    } else {
      var (front, last) := (trace + after[..|after| - 1], after[|after| - 1]);
      assert (trace + after)[..|trace + after| - 1] == front;
      ClosedForever(homes, trace, after[..|after| - 1], id);
      RunTied(homes, front);
      ClosedStays(homes, RunLedger(homes, front), RunTables(front), last.event, last.order, id);
    }
  }

  /** A session active or frozen when it ends is worth end minus start, whatever drops and
      reconnects came before, and stays so whatever comes after. */
  lemma FinishedSession(homes: Homes, before: seq<Visit>, end: Visit, after: seq<Visit>, id: string, now: int)
    requires ProperHomes(homes) && ExpectedTrace(homes, before) && ExpectedTrace(homes, before + [end] + after)
    requires end.event.data == SessionEnded(id) && id in RunLedger(homes, before).fates
    requires RunLedger(homes, before).fates[id].Active? || RunLedger(homes, before).fates[id].Frozen?
    ensures id in homes && WorthOf(homes, RunLedger(homes, before + [end] + after), now)(id)
      == end.event.at - homes[id].start
  {
    assert id in homes by { RunTied(homes, before); }
    assert (before + [end])[..|before|] == before;
    assert RunLedger(homes, before + [end]).fates[id] == Closed(end.event.at);
    ClosedForever(homes, before + [end], after, id);
  }

  // ---------------------------------------------------------------- order independence

  /** server.started freezes whoever is active on a visited connection, and nobody else. */
  lemma {:induction false} FreezeAllFates(homes: Homes, l: Ledger, t: Tables, order: seq<string>, at: int, id: string)
    requires Tied(homes, l, t)
    ensures var fates := FreezeAll(homes, l, order, at).fates;
      && (id in fates <==> id in l.fates)
      && (id in l.fates ==>
          fates[id] == if l.fates[id].Active? && homes[id].connection in order then Frozen(at) else l.fates[id])
    decreases |order|
  {
    if order != [] {
      var (front, c) := (order[..|order| - 1], order[|order| - 1]);
      var (l1, t1) := (FreezeAll(homes, l, front, at), TrackAll(t, front, at));
      FreezeAllFates(homes, l, t, front, at, id);
      assert Tied(homes, l1, t1) by { FreezeAllTied(homes, l, t, front, at); }
      FreezeFate(homes, l1, t1, c, at, id);
      assert order == front + [c];
    }
  }

  lemma FreezeFate(homes: Homes, l: Ledger, t: Tables, c: string, at: int, id: string)
    requires Tied(homes, l, t)
    ensures var fates := Freeze(homes, l, c, at).fates;
      && (id in fates <==> id in l.fates)
      && (id in l.fates ==> fates[id] == if ActiveOn(homes, l, id, c) then Frozen(at) else l.fates[id])
  {
    FoundActive(homes, l, t, c, at);
    ActiveAt(homes, l, t, c, id);
    if c in t.activeByConnection { ActiveSession(homes, l, t, c); }
  }

  lemma {:induction false} TrackAllCredits(t: Tables, order: seq<string>, at: int)
    ensures TrackAll(t, order, at).durations == t.durations
    decreases |order|
  {
    if order != [] { TrackAllCredits(t, order[..|order| - 1], at); }
  }

  /** An order that visits every active connection. */
  predicate VisitsAll(t: Tables, order: seq<string>) {
    forall c :: c in t.activeByConnection ==> c in order
  }

  lemma AfterServerStarted(homes: Homes, l: Ledger, t: Tables, order: seq<string>, at: int)
    requires Tied(homes, l, t) && VisitsAll(t, order)
    ensures var t' := TrackAll(t, order, at);
      && t'.active == map[] && t'.activeByConnection == map[]
      && t'.frozen == map id | id in t.active.Keys + t.frozen.Keys ::
           if id in t.active then SpanOf(t.active[id], at) else t.frozen[id]
  {
    var (l', t') := (FreezeAll(homes, l, order, at), TrackAll(t, order, at));
    FreezeAllTied(homes, l, t, order, at);
    forall id ensures Stopped(t, at, t', id) { StoppedId(homes, l, t, order, at, id); }
    AllStopped(t, at, t');
  }

  /** Session `id` is not active any more, and frozen if it was active or frozen. */
  ghost predicate Stopped(t: Tables, at: int, t': Tables, id: string) {
    && id !in t'.active
    && (id in t'.frozen <==> id in t.active || id in t.frozen)
    && (id in t'.frozen ==> t'.frozen[id] == if id in t.active then SpanOf(t.active[id], at) else t.frozen[id])
  }

  lemma AllStopped(t: Tables, at: int, t': Tables)
    requires (forall id :: Stopped(t, at, t', id)) && (forall c :: ConnectionTied(t', c))
    ensures t'.active == map[] && t'.activeByConnection == map[]
    ensures t'.frozen == map id | id in t.active.Keys + t.frozen.Keys ::
      if id in t.active then SpanOf(t.active[id], at) else t.frozen[id]
  {
    forall id ensures id !in t'.active { assert Stopped(t, at, t', id); }
    forall id ensures id in t'.frozen <==> id in t.active.Keys + t.frozen.Keys { assert Stopped(t, at, t', id); }
    forall id | id in t'.frozen
      ensures t'.frozen[id] == if id in t.active then SpanOf(t.active[id], at) else t.frozen[id]
    {
      assert Stopped(t, at, t', id);
    }
    forall c ensures c !in t'.activeByConnection { assert ConnectionTied(t', c); }
  }

  lemma StoppedId(homes: Homes, l: Ledger, t: Tables, order: seq<string>, at: int, id: string)
    requires Tied(homes, l, t) && VisitsAll(t, order)
    ensures Stopped(t, at, TrackAll(t, order, at), id)
  {
    var (l', t') := (FreezeAll(homes, l, order, at), TrackAll(t, order, at));
    FreezeAllFates(homes, l, t, order, at, id);
    assert IdTied(homes, l'.fates, t', id) by { FreezeAllTied(homes, l, t, order, at); }
    assert IdTied(homes, l.fates, t, id);
  }

  /** Order independence: whatever order the map yields the sessions in, none stays active,
      the frozen sessions are the same and so is the total, evictions or not. */
  lemma OrderIndependence(homes: Homes, l: Ledger, t: Tables, one: seq<string>, other: seq<string>, at: int, now: int)
    requires Tied(homes, l, t) && VisitsAll(t, one) && VisitsAll(t, other)
    ensures var (a, b) := (TrackAll(t, one, at), TrackAll(t, other, at));
      && a.active == b.active == map[] && a.activeByConnection == b.activeByConnection == map[]
      && a.frozen == b.frozen && a.durations == b.durations
      && TotalDuration(a, now) == TotalDuration(b, now)
  {
    AfterServerStarted(homes, l, t, one, at);
    AfterServerStarted(homes, l, t, other, at);
    TrackAllCredits(t, one, at);
    TrackAllCredits(t, other, at);
    SumSame(TrackAll(t, one, at).frozen.Keys, FrozenDuration(TrackAll(t, one, at)), FrozenDuration(TrackAll(t, other, at)));
  }

  // ---------------------------------------------------------------- why A1 and A3 are needed

  /** Without A3: a session restarted after its eviction is counted twice, as active and as
      frozen. */
  lemma RestartCountsTwice(homes: Homes, l: Ledger, t: Tables, id: string, now: int)
    requires Tied(homes, l, t) && id in t.frozen && id in homes
    requires homes[id].connection !in t.activeByConnection && homes[id].connection !in t.heldByConnection
    ensures !MayStart(homes, l, id)
    ensures var t' := StartTables(t, homes[id]);
      && id in t'.active && id in t'.frozen
      && TotalDuration(t', now) == TotalDuration(t, now) + (now - homes[id].start)
  {
    assert IdTied(homes, l.fates, t, id);
    HeldAt(homes, l, t, homes[id].connection, id);
    assert StartTables(t, homes[id]) == Seat(t, homes[id]);
    SeatAdds(t, homes[id], now);
  }

  lemma SeatAdds(t: Tables, info: Info, now: int)
    requires info.id !in t.active
    ensures TotalDuration(Seat(t, info), now) == TotalDuration(t, now) + (now - info.start)
  {
    var t' := Seat(t, info);
    SumChange(t.active.Keys, ActiveDuration(t, now), ActiveDuration(t', now), info.id);
    assert t'.active.Keys == t.active.Keys + {info.id};
    SumSame(t.frozen.Keys, FrozenDuration(t), FrozenDuration(t'));
  }

  lemma ActivateWorth(homes: Homes, l: Ledger, id: string, now: int)
    requires id in homes
    ensures Total(homes, l.(fates := l.fates[id := Active]), now)
      == Total(homes, l, now) + (now - homes[id].start)
         - (if id in l.fates then Worth(l.fates[id], homes[id].start, now) else 0)
  {
    var l' := l.(fates := l.fates[id := Active]);
    SumChange(l.fates.Keys, WorthOf(homes, l, now), WorthOf(homes, l', now), id);
    assert l'.fates.Keys == l.fates.Keys + {id};
  }

  /** A session that may not start is not on the connection that is vacated for it. */
  lemma NotVacated(homes: Homes, l: Ledger, t: Tables, id: string)
    requires Tied(homes, l, t) && id in homes && !MayStart(homes, l, id)
    ensures var v := Vacate(homes, l, homes[id].connection); id in v.fates && v.fates[id] == l.fates[id]
  {
    var c := homes[id].connection;
    VacateFates(homes, l, t, c);
    ActiveAt(homes, l, t, c, id);
    HeldAt(homes, l, t, c, id);
    if c in t.heldByConnection { HeldSession(homes, l, t, c); }
  }

  lemma StartInTotal(homes: Homes, l: Ledger, t: Tables, id: string, now: int)
    requires Tied(homes, l, t) && id in homes && MayStart(homes, l, id)
    ensures TotalDuration(StartTables(t, homes[id]), now) == Total(homes, Start(homes, l, id, homes[id].connection), now)
  {
    StartTied(homes, l, t, id);
    TotalsAgree(homes, Start(homes, l, id, homes[id].connection), StartTables(t, homes[id]), now);
  }

  /** What is left behind is counted on top. */
  lemma StartOnTop(homes: Homes, l: Ledger, t: Tables, id: string, now: int)
    requires Tied(homes, l, t) && id in homes && !MayStart(homes, l, id)
    ensures TotalDuration(StartTables(t, homes[id]), now)
      == Total(homes, Start(homes, l, id, homes[id].connection), now) + Worth(l.fates[id], homes[id].start, now)
  {
    var c := homes[id].connection;
    var (l1, t1) := (Vacate(homes, l, c), VacateTables(t, c));
    NotVacated(homes, l, t, id);
    assert TotalDuration(t1, now) == Total(homes, l1, now) && id !in t1.active by {
      VacateTied(homes, l, t, c);
      TotalsAgree(homes, l1, t1, now);
      assert IdTied(homes, l1.fates, t1, id);
    }
    SeatAdds(t1, homes[id], now);
    ActivateWorth(homes, l1, id, now);
  }

  /** A3 is exactly what a start needs: the total stays the ledger's if and only if the
      session may start, or what it would leave behind is worth nothing. */
  lemma StartExactly(homes: Homes, l: Ledger, t: Tables, id: string, now: int)
    requires Tied(homes, l, t) && id in homes
    ensures TotalDuration(StartTables(t, homes[id]), now) == Total(homes, Start(homes, l, id, homes[id].connection), now)
      <==> MayStart(homes, l, id) || Worth(l.fates[id], homes[id].start, now) == 0
  {
    var (told, total) := (TotalDuration(StartTables(t, homes[id]), now), Total(homes, Start(homes, l, id, homes[id].connection), now));
    assert told == total + LeftBehind(homes, l, id, now) by { StartDifference(homes, l, t, id, now); }
    assert LeftBehind(homes, l, id, now) == 0 <==> MayStart(homes, l, id) || Worth(l.fates[id], homes[id].start, now) == 0;
  }

  /** What a start that A3 does not allow would count on top. */
  ghost function LeftBehind(homes: Homes, l: Ledger, id: string, now: int): int
    requires id in homes
  {
    if MayStart(homes, l, id) then 0 else Worth(l.fates[id], homes[id].start, now)
  }

  lemma StartDifference(homes: Homes, l: Ledger, t: Tables, id: string, now: int)
    requires Tied(homes, l, t) && id in homes
    ensures TotalDuration(StartTables(t, homes[id]), now)
      == Total(homes, Start(homes, l, id, homes[id].connection), now) + LeftBehind(homes, l, id, now)
  {
    if MayStart(homes, l, id) {
      StartInTotal(homes, l, t, id, now);
    } else {
      StartOnTop(homes, l, t, id, now);
    }
  }

  /** A1 is exactly what an end needs: the tables stay tied to the ledger if and only if it
      comes from the session's own account, or the session is not held. */
  lemma EndExactly(homes: Homes, l: Ledger, t: Tables, id: string, account: string, at: int)
    requires Tied(homes, l, t) && id in homes
    ensures Tied(homes, End(l, id, account, at), EndTables(t, id, account, at))
      <==> homes[id].account == account || !Holds(l.queues, homes[id].account, id)
  {
    var home := homes[id].account;
    if home == account {
      EndTied(homes, l, t, id, account, at);
    } else if Holds(l.queues, home, id) {
      HeldEntry(homes, l, t, id, home);
      EndElsewhere(homes, l, t, id, account, at);
      NotTiedAfter(homes, End(l, id, account, at), EndTables(t, id, account, at), id, home);
    } else {
      NotQueuedElsewhere(homes, l, t, id, account);
      NotHeld(homes, l, t, id, account);
      NotHeld(homes, l, t, id, home);
      assert End(l, id, account, at) == End(l, id, home, at);
      assert EndTables(t, id, account, at) == EndTables(t, id, home, at) by { SameEnd(homes, l, t, id, account, home, at); }
      EndTied(homes, l, t, id, home, at);
    }
  }

  /** Where no queue has the session, it does not matter whose is searched. */
  lemma SameEnd(homes: Homes, l: Ledger, t: Tables, id: string, account: string, home: string, at: int)
    requires t.queues == l.queues && !Holds(l.queues, account, id) && !Holds(l.queues, home, id)
    ensures EndTables(t, id, account, at) == EndTables(t, id, home, at)
  {
    assert IndexOf(QueueOf(t.queues, account), IdOf, id) == |QueueOf(t.queues, account)|;
    assert IndexOf(QueueOf(t.queues, home), IdOf, id) == |QueueOf(t.queues, home)|;
  }

  /** A closed session that is still queued. */
  lemma NotTiedAfter(homes: Homes, l: Ledger, t: Tables, id: string, account: string)
    requires id in l.fates && l.fates[id].Closed? && Holds(t.queues, account, id)
    ensures !Tied(homes, l, t)
  {
    var d :| d in QueueOf(t.queues, account) && d.info.id == id;
    assert !EntryTied(homes, l.fates, account, d);
    assert !QueueTied(homes, l.fates, t.queues, account);
  }

  /** Without A1: a session.ended from another account credits a held session but leaves it
      held, so that a reconnect makes the closed session active again. */
  lemma EndElsewhereRevives(homes: Homes, l: Ledger, t: Tables, id: string, account: string, at: int)
    requires Tied(homes, l, t) && id in homes && homes[id].account != account
    requires homes[id].connection in t.heldByConnection && t.heldByConnection[homes[id].connection].info.id == id
    ensures var ended := EndTables(t, id, account, at);
      && CreditTotal(ended.durations) == CreditTotal(t.durations) + (at - homes[id].start)
      && id in ReconnectTables(ended, homes[id].connection).active
  {
    var home := homes[id];
    EndElsewhere(homes, l, t, id, account, at);
    CreditedAndRevived(t, EndTables(t, id, account, at), id, home.connection, home.account, at - home.start);
  }

  lemma CreditedAndRevived(t: Tables, ended: Tables, id: string, c: string, account: string, amount: int)
    requires c in t.heldByConnection && t.heldByConnection[c].info.id == id
    requires ended == Credit(t, account, amount).(frozen := t.frozen - {id})
    ensures CreditTotal(ended.durations) == CreditTotal(t.durations) + amount
    ensures id in ReconnectTables(ended, c).active
  {
    DurationAdded(t, account, amount);
  }

  lemma EndElsewhere(homes: Homes, l: Ledger, t: Tables, id: string, account: string, at: int)
    requires Tied(homes, l, t) && id in homes && homes[id].account != account
    requires homes[id].connection in t.heldByConnection && t.heldByConnection[homes[id].connection].info.id == id
    ensures EndTables(t, id, account, at)
      == Credit(t, homes[id].account, at - homes[id].start).(frozen := t.frozen - {id})
  {
    HeldSession(homes, l, t, homes[id].connection);
    assert IdTied(homes, l.fates, t, id);
    NotQueuedElsewhere(homes, l, t, id, account);
  }

  lemma NotQueuedElsewhere(homes: Homes, l: Ledger, t: Tables, id: string, account: string)
    requires Tied(homes, l, t) && id in homes && homes[id].account != account
    ensures RemoveHeldId(t, account, id) == t && !Holds(l.queues, account, id)
  {
    forall d | d in QueueOf(t.queues, account) ensures d.info.id != id {
      QueuedIsIndexed(homes, l.fates, t.queues, t.heldByConnection, account, d);
    }
  }
}
