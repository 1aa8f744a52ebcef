/** What usage is worth, told session by session: a session is active, frozen at its last
    disconnect, closed, or displaced by another session on its connection; and each
    account holds on to its last four frozen sessions. */
module UsageLedger {
  import opened Events
  import opened DroppedQueues
  import opened Sums

  datatype Info = Info(id: string, account: string, connection: string, start: int)

  /** A frozen session that a reconnect can still revive. */
  datatype Parked = Parked(info: Info, at: int)

  datatype Fate = Active | Frozen(at: int) | Closed(end: int) | Displaced

  datatype Ledger = Ledger(fates: map<string, Fate>, queues: map<string, seq<Parked>>)

  /** Assumption A1, as a directory: the account, host connection and start time that a
      session id always comes with. */
  type Homes = map<string, Info>

  ghost predicate ProperHomes(homes: Homes) {
    forall id :: id in homes ==> homes[id].id == id
  }

  function ConnectionOf(d: Parked): string { d.info.connection }

  function IdOf(d: Parked): string { d.info.id }

  predicate Clean(closeCode: int) { closeCode == 1000 || closeCode == 1001 }

  ghost predicate Holds(queues: map<string, seq<Parked>>, account: string, id: string) {
    exists d :: d in QueueOf(queues, account) && d.info.id == id
  }

  function Release(queues: map<string, seq<Parked>>, c: string): map<string, seq<Parked>> {
    map account | account in queues && Off(queues[account], ConnectionOf, c) != [] :: Off(queues[account], ConnectionOf, c)
  }

  function Hold(queues: map<string, seq<Parked>>, d: Parked): map<string, seq<Parked>> {
    queues[d.info.account := LastHeld(QueueOf(queues, d.info.account) + [d])]
  }

  // ---------------------------------------------------------------- events

  /** Whatever session is active or held on `c` gives way. */
  ghost function Vacate(homes: Homes, l: Ledger, c: string): Ledger {
    Ledger(map x | x in l.fates ::
             if x in homes && homes[x].connection == c && (l.fates[x].Active? || Holds(l.queues, homes[x].account, x)) then Displaced
             else l.fates[x],
           Release(l.queues, c))
  }

  ghost function Start(homes: Homes, l: Ledger, id: string, c: string): Ledger {
    var vacated := Vacate(homes, l, c);
    vacated.(fates := vacated.fates[id := Active])
  }

  ghost function End(l: Ledger, id: string, account: string, at: int): Ledger {
    if id in l.fates && (l.fates[id].Active? || l.fates[id].Frozen?) then
      Ledger(l.fates[id := Closed(at)], PutQueue(l.queues, account, Off(QueueOf(l.queues, account), IdOf, id)))
    else l
  }

  ghost function Reconnect(homes: Homes, l: Ledger, c: string): Ledger {
    Ledger(map x | x in l.fates ::
             if x in homes && homes[x].connection == c && Holds(l.queues, homes[x].account, x) then Active else l.fates[x],
           Release(l.queues, c))
  }

  predicate ActiveOn(homes: Homes, l: Ledger, id: string, c: string) {
    id in l.fates && l.fates[id].Active? && id in homes && homes[id].connection == c
  }

  /** The session active on `c`, if any, freezes at `at` and is held. */
  ghost function Freeze(homes: Homes, l: Ledger, c: string, at: int): Ledger {
    if exists id :: ActiveOn(homes, l, id, c) then
      var id :| ActiveOn(homes, l, id, c);
      Ledger(l.fates[id := Frozen(at)], Hold(l.queues, Parked(homes[id], at)))
    else l
  }

  ghost function CloseOn(homes: Homes, l: Ledger, c: string, at: int): Ledger {
    if exists id :: ActiveOn(homes, l, id, c) then
      var id :| ActiveOn(homes, l, id, c);
      l.(fates := l.fates[id := Closed(at)])
    else l
  }

  /** All sessions freeze, in the order their connections are visited. */
  ghost function FreezeAll(homes: Homes, l: Ledger, order: seq<string>, at: int): Ledger
    decreases |order|
  {
    if order == [] then l
    else Freeze(homes, FreezeAll(homes, l, order[..|order| - 1], at), order[|order| - 1], at)
  }

  /** One event; `order` is the order in which the active connections are visited, which
      matters to server.started only. */
  ghost function Apply(homes: Homes, l: Ledger, e: Event, order: seq<string>): Ledger {
    match e.data
    case ServerStarted => FreezeAll(homes, l, order, e.at)
    case SessionStarted(id, _, c, _) => Start(homes, l, id, c)
    case SessionEnded(id) => End(l, id, e.accountId, e.at)
    case ClientConnected(_, c, _) => Reconnect(homes, l, c)
    case ClientDisconnected(_, c, _, _, code) =>
      if Clean(code) then CloseOn(homes, l, c, e.at) else Freeze(homes, l, c, e.at)
    case _ => l
  }

  /** A3: a session is not started again once closed, or once frozen and no longer held. */
  ghost predicate MayStart(homes: Homes, l: Ledger, id: string) {
    id in l.fates && id in homes ==>
      !l.fates[id].Closed? && (l.fates[id].Frozen? ==> Holds(l.queues, homes[id].account, id))
  }

  /** What A1 and A3 ask of the next event. */
  ghost predicate Expected(homes: Homes, l: Ledger, e: Event) {
    match e.data
    case SessionStarted(id, _, c, start) =>
      id in homes && homes[id] == Info(id, e.accountId, c, start) && MayStart(homes, l, id)
    case SessionEnded(id) => id in homes ==> homes[id].account == e.accountId
    case _ => true
  }

  // ---------------------------------------------------------------- worth

  function Worth(fate: Fate, start: int, now: int): int {
    match fate
    case Active => now - start
    case Frozen(at) => at - start
    case Closed(end) => end - start
    case Displaced => 0
  }

  ghost function WorthOf(homes: Homes, l: Ledger, now: int): string -> int {
    (id: string) => if id in l.fates && id in homes then Worth(l.fates[id], homes[id].start, now) else 0
  }

  /** Closed sessions count end minus start, active ones now minus start, frozen ones
      disconnect minus start, and displaced ones nothing. */
  ghost function Total(homes: Homes, l: Ledger, now: int): int {
    Sum(l.fates.Keys, WorthOf(homes, l, now))
  }
}
