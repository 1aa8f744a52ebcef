/** What becomes of one session in the usage statistics, told from the log's events alone and
    with the close codes spelled out: when it counts on, when it stands still, when it comes
    back, and when it is over. */
module UsageStories {
  import opened Events
  import opened DroppedQueues
  import opened Sums
  import opened UsageLedger
  import opened UsageTables
  import opened StatusMessages

  /** An event that is not about this session or its connection; not a server start. */
  predicate Others(info: Info, e: Event) {
    match e.data
    case ServerStarted => false
    case SessionStarted(id, _, c, _) => id != info.id && c != info.connection
    case SessionEnded(id) => id != info.id
    case ClientConnected(_, c, _) => c != info.connection
    case ClientDisconnected(_, c, _, _, _) => c != info.connection
    case _ => true
  }

  ghost predicate AllOthers(info: Info, between: seq<Visit>) {
    forall i :: 0 <= i < |between| ==> Others(info, between[i].event)
  }

  function Drops(trace: seq<Visit>): nat
    decreases |trace|
  {
    if trace == [] then 0
    else Drops(trace[..|trace| - 1]) + (if trace[|trace| - 1].event.data.ClientDisconnected? then 1 else 0)
  }

  /** The session is counted from its start to now. */
  ghost predicate Counts(t: Tables, info: Info) {
    info.id in t.active && t.active[info.id] == info && info.id !in t.frozen
  }

  /** The session is counted from its start to `at`. */
  ghost predicate StandsStill(t: Tables, info: Info, at: int) {
    info.id in t.frozen && t.frozen[info.id] == Span(info.id, info.account, info.start, at) && info.id !in t.active
  }

  /** The session is not counted beyond what its account was credited. */
  ghost predicate Over(t: Tables, id: string) {
    id !in t.active && id !in t.frozen
  }

  // ---------------------------------------------------------------- what a session is worth

  lemma {:induction false} WorthOfCounting(t: Tables, info: Info, now: int)
    requires Counts(t, info)
    ensures TotalDuration(t, now) == TotalDuration(t.(active := t.active - {info.id}), now) + (now - info.start)
  {
    var rest := t.(active := t.active - {info.id});
    SumTake(t.active.Keys, ActiveDuration(t, now), info.id);
    SumSame(t.active.Keys - {info.id}, ActiveDuration(t, now), ActiveDuration(rest, now));
    assert rest.active.Keys == t.active.Keys - {info.id};
    SumSame(t.frozen.Keys, FrozenDuration(t), FrozenDuration(rest));
  }

  lemma {:induction false} WorthOfStill(t: Tables, info: Info, at: int, now: int)
    requires StandsStill(t, info, at)
    ensures TotalDuration(t, now) == TotalDuration(t.(frozen := t.frozen - {info.id}), now) + (at - info.start)
  {
    var rest := t.(frozen := t.frozen - {info.id});
    SumTake(t.frozen.Keys, FrozenDuration(t), info.id);
    SumSame(t.frozen.Keys - {info.id}, FrozenDuration(t), FrozenDuration(rest));
    assert rest.frozen.Keys == t.frozen.Keys - {info.id};
    SumSame(t.active.Keys, ActiveDuration(t, now), ActiveDuration(rest, now));
  }

  // ---------------------------------------------------------------- the ledger under other events

  lemma {:induction false} FateKept(homes: Homes, l: Ledger, e: Event, order: seq<string>, info: Info)
    requires info.id in homes && homes[info.id] == info && info.id in l.fates && Others(info, e)
    ensures info.id in Apply(homes, l, e, order).fates && Apply(homes, l, e, order).fates[info.id] == l.fates[info.id]
  {
  }

  /** The entry is in its queue with at most `later` entries behind it. */
  ghost predicate Held(queues: map<string, seq<Parked>>, d: Parked, later: nat) {
    HeldBefore(QueueOf(queues, d.info.account), d, later)
  }

  lemma {:induction false} ReleaseKeeps(queues: map<string, seq<Parked>>, c: string, d: Parked, later: nat)
    requires Held(queues, d, later) && d.info.connection != c
    ensures Held(Release(queues, c), d, later)
  {
    OffHeld(QueueOf(queues, d.info.account), ConnectionOf, c, d, later);
    assert QueueOf(Release(queues, c), d.info.account) == Off(QueueOf(queues, d.info.account), ConnectionOf, c);
  }

  lemma {:induction false} EndKeeps(queues: map<string, seq<Parked>>, account: string, id: string, d: Parked, later: nat)
    requires Held(queues, d, later) && d.info.id != id
    ensures Held(PutQueue(queues, account, Off(QueueOf(queues, account), IdOf, id)), d, later)
  {
    OffHeld(QueueOf(queues, d.info.account), IdOf, id, d, later);
  }

  lemma {:induction false} HoldKeeps(queues: map<string, seq<Parked>>, x: Parked, d: Parked, later: nat)
    requires Held(queues, d, later) && later < 3 && |QueueOf(queues, d.info.account)| <= 4
    ensures Held(Hold(queues, x), d, later + 1)
  {
    Weaker(QueueOf(queues, d.info.account), d, later, later + 1);
    JoinHeld(QueueOf(queues, d.info.account), x, d, later);
  }

  lemma {:induction false} DropKeeps(homes: Homes, l: Ledger, c: string, at: int, d: Parked, later: nat)
    requires Held(l.queues, d, later) && later < 3 && |QueueOf(l.queues, d.info.account)| <= 4
    ensures Held(CloseOn(homes, l, c, at).queues, d, later + 1)
    ensures Held(Freeze(homes, l, c, at).queues, d, later + 1)
  {
    Weaker(QueueOf(l.queues, d.info.account), d, later, later + 1);
    if exists id :: ActiveOn(homes, l, id, c) {
      var id :| ActiveOn(homes, l, id, c) && Freeze(homes, l, c, at).queues == Hold(l.queues, Parked(homes[id], at));
      HoldKeeps(l.queues, Parked(homes[id], at), d, later);
    }
  }

  /** Every other event leaves the entry held, with one more behind it if it is a drop. */
  lemma {:induction false} HeldKept(homes: Homes, l: Ledger, e: Event, order: seq<string>, d: Parked, later: nat)
    requires Others(d.info, e) && Held(l.queues, d, later) && |QueueOf(l.queues, d.info.account)| <= 4
    requires e.data.ClientDisconnected? ==> later < 3
    ensures Held(Apply(homes, l, e, order).queues, d, later + (if e.data.ClientDisconnected? then 1 else 0))
  {
    match e.data
    case SessionStarted(_, _, c, _) => ReleaseKeeps(l.queues, c, d, later);
    case ClientConnected(_, c, _) => ReleaseKeeps(l.queues, c, d, later);
    case SessionEnded(id) => EndKeeps(l.queues, e.accountId, id, d, later);
    case ClientDisconnected(_, c, _, _, _) => DropKeeps(homes, l, c, e.at, d, later);
    case _ =>
  }

  lemma {:induction false} FourAtMost(homes: Homes, trace: seq<Visit>, account: string)
    requires ProperHomes(homes) && ExpectedTrace(homes, trace)
    ensures |QueueOf(RunLedger(homes, trace).queues, account)| <= 4
  {
    RunTied(homes, trace);
    var (l, t) := (RunLedger(homes, trace), RunTables(trace));
    assert QueueTied(homes, l.fates, t.queues, account);
  }

  // ---------------------------------------------------------------- one step of a trace

  lemma {:induction false} OneMore(homes: Homes, trace: seq<Visit>, v: Visit)
    requires ExpectedTrace(homes, trace + [v])
    ensures ExpectedTrace(homes, trace) && Expected(homes, RunLedger(homes, trace), v.event)
    ensures RunLedger(homes, trace + [v]) == Apply(homes, RunLedger(homes, trace), v.event, v.order)
  {
    assert (trace + [v])[..|trace|] == trace;
  }

  lemma {:induction false} Front(homes: Homes, trace: seq<Visit>, between: seq<Visit>)
    requires ExpectedTrace(homes, trace + between)
    ensures ExpectedTrace(homes, trace)
    decreases |between|
  {
    if between == [] {
      assert trace + between == trace;
    } else {
      var front := between[..|between| - 1];
      assert trace + between == trace + front + [between[|between| - 1]];
      OneMore(homes, trace + front, between[|between| - 1]);
      Front(homes, trace, front);
    }
  }

  /** What the tables show of a session, by its fate. */
  lemma {:induction false} Shown(homes: Homes, trace: seq<Visit>, info: Info)
    requires ProperHomes(homes) && ExpectedTrace(homes, trace) && info.id in homes && homes[info.id] == info
    ensures var (l, t) := (RunLedger(homes, trace), RunTables(trace));
      && (Counts(t, info) <==> info.id in l.fates && l.fates[info.id].Active?)
      && (info.id in l.fates && l.fates[info.id].Frozen? ==> StandsStill(t, info, l.fates[info.id].at))
      && (forall at :: StandsStill(t, info, at) ==> info.id in l.fates && l.fates[info.id] == Frozen(at))
      && (Over(t, info.id) <==> info.id !in l.fates || l.fates[info.id].Closed? || l.fates[info.id].Displaced?)
  {
    RunTied(homes, trace);
    assert IdTied(homes, RunLedger(homes, trace).fates, RunTables(trace), info.id);
  }

  /** The session that counts on a connection is the one found there. */
  lemma {:induction false} FoundOn(homes: Homes, trace: seq<Visit>, info: Info, at: int)
    requires ProperHomes(homes) && ExpectedTrace(homes, trace) && info.id in homes && homes[info.id] == info
    requires Counts(RunTables(trace), info)
    ensures var l := RunLedger(homes, trace);
      && CloseOn(homes, l, info.connection, at) == l.(fates := l.fates[info.id := Closed(at)])
      && Freeze(homes, l, info.connection, at) == Ledger(l.fates[info.id := Frozen(at)], Hold(l.queues, Parked(info, at)))
  {
    var (l, t) := (RunLedger(homes, trace), RunTables(trace));
    RunTied(homes, trace);
    assert IdTied(homes, l.fates, t, info.id);
    FoundActive(homes, l, t, info.connection, at);
  }

  // ---------------------------------------------------------------- the stories

  /** A started session counts, from the start that its event names. */
  lemma {:induction false} StartCounts(homes: Homes, trace: seq<Visit>, v: Visit, id: string, name: string, c: string,
                                       start: int)
    requires ProperHomes(homes) && ExpectedTrace(homes, trace + [v]) && v.event.data == SessionStarted(id, name, c, start)
    ensures Counts(RunTables(trace + [v]), Info(id, v.event.accountId, c, start))
  {
    OneMore(homes, trace, v);
    Shown(homes, trace + [v], Info(id, v.event.accountId, c, start));
  }

  /** And whatever else counted on its connection is over, with no credit. */
  lemma {:induction false} StartDisplaces(homes: Homes, trace: seq<Visit>, v: Visit, info: Info)
    requires ProperHomes(homes) && ExpectedTrace(homes, trace + [v]) && v.event.data.SessionStarted?
    requires info.id in homes && homes[info.id] == info && info.connection == v.event.data.hostConnectionId
    requires v.event.data.id != info.id && Counts(RunTables(trace), info)
    ensures Over(RunTables(trace + [v]), info.id)
    ensures RunTables(trace + [v]).durations == RunTables(trace).durations
  {
    OneMore(homes, trace, v);
    Shown(homes, trace, info);
    Shown(homes, trace + [v], info);
    assert (trace + [v])[..|trace|] == trace;
  }

  /** So is whatever else was held on it. */
  lemma {:induction false} StartDisplacesHeld(homes: Homes, trace: seq<Visit>, v: Visit, info: Info, at: int, later: nat)
    requires ProperHomes(homes) && ExpectedTrace(homes, trace + [v]) && v.event.data.SessionStarted?
    requires info.id in homes && homes[info.id] == info && info.connection == v.event.data.hostConnectionId
    requires v.event.data.id != info.id && ExpectedTrace(homes, trace) && StandsStill(RunTables(trace), info, at)
    requires Held(RunLedger(homes, trace).queues, Parked(info, at), later)
    ensures Over(RunTables(trace + [v]), info.id)
  {
    OneMore(homes, trace, v);
    IsHeld(RunLedger(homes, trace).queues, info, at, later);
    Shown(homes, trace, info);
    Shown(homes, trace + [v], info);
  }

  lemma {:induction false} IsHeld(queues: map<string, seq<Parked>>, info: Info, at: int, later: nat)
    requires Held(queues, Parked(info, at), later)
    ensures Holds(queues, info.account, info.id)
  {
    var i: nat :| Behind(QueueOf(queues, info.account), i, Parked(info, at), later);
    assert Parked(info, at) in QueueOf(queues, info.account);
  }

  /** It counts on while other things happen. */
  lemma {:induction false} CountsOn(homes: Homes, trace: seq<Visit>, between: seq<Visit>, info: Info)
    requires ProperHomes(homes) && ExpectedTrace(homes, trace + between) && info.id in homes && homes[info.id] == info
    requires ExpectedTrace(homes, trace) && Counts(RunTables(trace), info) && AllOthers(info, between)
    ensures Counts(RunTables(trace + between), info)
    decreases |between|
  {
    if between == [] {
      assert trace + between == trace;
    } else {
      var (front, last) := (between[..|between| - 1], between[|between| - 1]);
      assert trace + between == trace + front + [last];
      OneMore(homes, trace + front, last);
      CountsOn(homes, trace, front, info);
      Shown(homes, trace + front, info);
      FateKept(homes, RunLedger(homes, trace + front), last.event, last.order, info);
      Shown(homes, trace + between, info);
    }
  }

  /** A disconnect with any close code but 1000 and 1001 stops it where it is, and it is held. */
  lemma {:induction false} UncleanStops(homes: Homes, trace: seq<Visit>, v: Visit, info: Info)
    requires ProperHomes(homes) && ExpectedTrace(homes, trace + [v]) && info.id in homes && homes[info.id] == info
    requires ExpectedTrace(homes, trace) && Counts(RunTables(trace), info)
    requires v.event.data.ClientDisconnected? && v.event.data.connectionId == info.connection
    requires v.event.data.closeCode != 1000 && v.event.data.closeCode != 1001
    ensures StandsStill(RunTables(trace + [v]), info, v.event.at)
    ensures Held(RunLedger(homes, trace + [v]).queues, Parked(info, v.event.at), 0)
  {
    OneMore(homes, trace, v);
    FoundOn(homes, trace, info, v.event.at);
    FourAtMost(homes, trace, info.account);
    Shown(homes, trace + [v], info);
    JoinedLast(QueueOf(RunLedger(homes, trace).queues, info.account), Parked(info, v.event.at));
  }

  /** Through fewer than four further drops it is held where it stopped. */
  lemma {:induction false} StaysHeld(homes: Homes, trace: seq<Visit>, between: seq<Visit>, info: Info, at: int)
    requires ProperHomes(homes) && ExpectedTrace(homes, trace + between) && info.id in homes && homes[info.id] == info
    requires ExpectedTrace(homes, trace) && StandsStill(RunTables(trace), info, at)
    requires Held(RunLedger(homes, trace).queues, Parked(info, at), 0)
    requires AllOthers(info, between) && Drops(between) < 4
    ensures StandsStill(RunTables(trace + between), info, at)
    ensures Held(RunLedger(homes, trace + between).queues, Parked(info, at), Drops(between))
    decreases |between|
  {
    if between == [] {
      assert trace + between == trace;
    } else {
      var (front, last) := (between[..|between| - 1], between[|between| - 1]);
      assert trace + between == trace + front + [last];
      OneMore(homes, trace + front, last);
      StaysHeld(homes, trace, front, info, at);
      Shown(homes, trace + front, info);
      FourAtMost(homes, trace + front, info.account);
      FateKept(homes, RunLedger(homes, trace + front), last.event, last.order, info);
      HeldKept(homes, RunLedger(homes, trace + front), last.event, last.order, Parked(info, at), Drops(front));
      Shown(homes, trace + between, info);
    }
  }

  /** A client that comes back on the connection of a held session sets it counting again. */
  lemma {:induction false} BackCounts(homes: Homes, trace: seq<Visit>, v: Visit, info: Info, at: int, later: nat)
    requires ProperHomes(homes) && ExpectedTrace(homes, trace + [v]) && info.id in homes && homes[info.id] == info
    requires ExpectedTrace(homes, trace) && StandsStill(RunTables(trace), info, at)
    requires Held(RunLedger(homes, trace).queues, Parked(info, at), later)
    requires v.event.data.ClientConnected? && v.event.data.connectionId == info.connection
    ensures Counts(RunTables(trace + [v]), info)
  {
    var l := RunLedger(homes, trace);
    OneMore(homes, trace, v);
    Shown(homes, trace, info);
    IsHeld(l.queues, info, at, later);
    Shown(homes, trace + [v], info);
  }

  /** Drop and back: a session that counts, drops with a close code other than 1000 and 1001
      and comes back before four others of any account dropped, counts from its start to now,
      as if it had never been away. */
  lemma {:induction false} DropAndBack(homes: Homes, trace: seq<Visit>, drop: Visit, between: seq<Visit>, back: Visit,
                                       info: Info, now: int)
    requires ProperHomes(homes) && ExpectedTrace(homes, trace + [drop] + between + [back])
    requires info.id in homes && homes[info.id] == info && ExpectedTrace(homes, trace) && Counts(RunTables(trace), info)
    requires drop.event.data.ClientDisconnected? && drop.event.data.connectionId == info.connection
    requires drop.event.data.closeCode != 1000 && drop.event.data.closeCode != 1001
    requires AllOthers(info, between) && Drops(between) < 4
    requires back.event.data.ClientConnected? && back.event.data.connectionId == info.connection
    ensures StandsStill(RunTables(trace + [drop] + between), info, drop.event.at)
    ensures var t := RunTables(trace + [drop] + between + [back]);
      && Counts(t, info)
      && TotalDuration(t, now) == TotalDuration(t.(active := t.active - {info.id}), now) + (now - info.start)
  {
    OneMore(homes, trace + [drop] + between, back);
    Front(homes, trace + [drop], between);
    UncleanStops(homes, trace, drop, info);
    StaysHeld(homes, trace + [drop], between, info, drop.event.at);
    BackCounts(homes, trace + [drop] + between, back, info, drop.event.at, Drops(between));
    WorthOfCounting(RunTables(trace + [drop] + between + [back]), info, now);
  }

  /** Once a session is closed it is over for good. */
  lemma {:induction false} OverForGood(homes: Homes, trace: seq<Visit>, after: seq<Visit>, info: Info)
    requires ProperHomes(homes) && ExpectedTrace(homes, trace + after) && info.id in homes && homes[info.id] == info
    requires info.id in RunLedger(homes, trace).fates && RunLedger(homes, trace).fates[info.id].Closed?
    ensures Over(RunTables(trace + after), info.id)
  {
    ClosedForever(homes, trace, after, info.id);
    Shown(homes, trace + after, info);
  }

  ghost function CreditOf(t: Tables, account: string): int {
    if account in t.durations then t.durations[account] else 0
  }

  /** A disconnect with close code 1000 or 1001 credits the session from its start to the event,
      and no later event sets it counting again. */
  lemma {:induction false} CleanCloses(homes: Homes, trace: seq<Visit>, v: Visit, after: seq<Visit>, info: Info)
    requires ProperHomes(homes) && ExpectedTrace(homes, trace + [v] + after) && info.id in homes && homes[info.id] == info
    requires ExpectedTrace(homes, trace) && Counts(RunTables(trace), info)
    requires v.event.data.ClientDisconnected? && v.event.data.connectionId == info.connection
    requires v.event.data.closeCode == 1000 || v.event.data.closeCode == 1001
    ensures Over(RunTables(trace + [v] + after), info.id)
    ensures CreditOf(RunTables(trace + [v]), v.event.accountId) == CreditOf(RunTables(trace), v.event.accountId) + (v.event.at - info.start)
  {
    Front(homes, trace + [v], after);
    OneMore(homes, trace, v);
    FoundOn(homes, trace, info, v.event.at);
    OverForGood(homes, trace + [v], after, info);
    CleanCredits(homes, trace, v, info);
  }

  lemma {:induction false} CleanCredits(homes: Homes, trace: seq<Visit>, v: Visit, info: Info)
    requires ProperHomes(homes) && info.id in homes && homes[info.id] == info
    requires ExpectedTrace(homes, trace) && Counts(RunTables(trace), info)
    requires v.event.data.ClientDisconnected? && v.event.data.connectionId == info.connection
    requires v.event.data.closeCode == 1000 || v.event.data.closeCode == 1001
    ensures CreditOf(RunTables(trace + [v]), v.event.accountId) == CreditOf(RunTables(trace), v.event.accountId) + (v.event.at - info.start)
  {
    RunTied(homes, trace);
    assert IdTied(homes, RunLedger(homes, trace).fates, RunTables(trace), info.id);
    assert (trace + [v])[..|trace|] == trace;
  }

  /** The end of a session that counts or stands still credits it from its start to the event,
      and it is over for good. */
  lemma {:induction false} EndCloses(homes: Homes, trace: seq<Visit>, v: Visit, after: seq<Visit>, info: Info)
    requires ProperHomes(homes) && ExpectedTrace(homes, trace + [v] + after) && info.id in homes && homes[info.id] == info
    requires ExpectedTrace(homes, trace) && !Over(RunTables(trace), info.id) && v.event.data == SessionEnded(info.id)
    ensures Over(RunTables(trace + [v] + after), info.id)
    ensures CreditOf(RunTables(trace + [v]), info.account) == CreditOf(RunTables(trace), info.account) + (v.event.at - info.start)
  {
    Front(homes, trace + [v], after);
    OneMore(homes, trace, v);
    Shown(homes, trace, info);
    OverForGood(homes, trace + [v], after, info);
    EndCredits(homes, trace, v, info);
  }

  lemma {:induction false} EndCredits(homes: Homes, trace: seq<Visit>, v: Visit, info: Info)
    requires ProperHomes(homes) && info.id in homes && homes[info.id] == info
    requires ExpectedTrace(homes, trace) && !Over(RunTables(trace), info.id) && v.event.data == SessionEnded(info.id)
    ensures CreditOf(RunTables(trace + [v]), info.account) == CreditOf(RunTables(trace), info.account) + (v.event.at - info.start)
  {
    RunTied(homes, trace);
    assert IdTied(homes, RunLedger(homes, trace).fates, RunTables(trace), info.id);
    assert (trace + [v])[..|trace|] == trace;
  }

  // ---------------------------------------------------------------- a restart

  /** Every session that was to be visited is held, with the later ones behind it. */
  lemma {:induction false} FreezeAllHolds(homes: Homes, l: Ledger, t: Tables, order: seq<string>, at: int, info: Info)
    requires Tied(homes, l, t) && Counts(t, info) && info.id in homes && homes[info.id] == info
    requires info.connection in order && |order| <= 4
    ensures Held(FreezeAll(homes, l, order, at).queues, Parked(info, at), |order| - 1)
    decreases |order|
  {
    var (front, c) := (order[..|order| - 1], order[|order| - 1]);
    assert order == front + [c];
    if info.connection in front {
      FreezeAllHolds(homes, l, t, front, at, info);
      HeldThrough(homes, l, t, front, c, at, info);
    } else {
      HeldAtLast(homes, l, t, front, at, info);
      Weaker(QueueOf(FreezeAll(homes, l, order, at).queues, info.account), Parked(info, at), 0, |order| - 1);
    }
  }

  lemma {:induction false} HeldThrough(homes: Homes, l: Ledger, t: Tables, front: seq<string>, c: string, at: int,
                                       info: Info)
    requires Tied(homes, l, t) && 0 < |front| < 4
    requires Held(FreezeAll(homes, l, front, at).queues, Parked(info, at), |front| - 1)
    ensures Held(Freeze(homes, FreezeAll(homes, l, front, at), c, at).queues, Parked(info, at), |front|)
  {
    FreezeAllTied(homes, l, t, front, at);
    var (l1, t1) := (FreezeAll(homes, l, front, at), TrackAll(t, front, at));
    assert QueueTied(homes, l1.fates, t1.queues, info.account);
    DropKeeps(homes, l1, c, at, Parked(info, at), |front| - 1);
  }

  lemma {:induction false} HeldAtLast(homes: Homes, l: Ledger, t: Tables, front: seq<string>, at: int, info: Info)
    requires Tied(homes, l, t) && Counts(t, info) && info.id in homes && homes[info.id] == info && info.connection !in front
    ensures Held(Freeze(homes, FreezeAll(homes, l, front, at), info.connection, at).queues, Parked(info, at), 0)
  {
    FreezeAllTied(homes, l, t, front, at);
    assert IdTied(homes, l.fates, t, info.id);
    FreezeAllFates(homes, l, t, front, at, info.id);
    HeldNow(homes, FreezeAll(homes, l, front, at), TrackAll(t, front, at), info, at);
  }

  lemma {:induction false} HeldNow(homes: Homes, l: Ledger, t: Tables, info: Info, at: int)
    requires Tied(homes, l, t) && info.id in homes && homes[info.id] == info
    requires info.id in l.fates && l.fates[info.id].Active?
    ensures Held(Freeze(homes, l, info.connection, at).queues, Parked(info, at), 0)
  {
    assert IdTied(homes, l.fates, t, info.id);
    assert QueueTied(homes, l.fates, t.queues, info.account);
    FoundActive(homes, l, t, info.connection, at);
    JoinedLast(QueueOf(l.queues, info.account), Parked(info, at));
  }

  /** A restart of the server stops a session that counts at the time of the restart, and if
      no more than four connections were active, a client that comes back on its connection
      sets it counting again. */
  lemma {:induction false} RestartAndBack(homes: Homes, trace: seq<Visit>, restart: Visit, back: Visit, info: Info)
    requires ProperHomes(homes) && ExpectedTrace(homes, trace + [restart] + [back])
    requires info.id in homes && homes[info.id] == info && ExpectedTrace(homes, trace) && Counts(RunTables(trace), info)
    requires restart.event.data.ServerStarted? && VisitsAll(RunTables(trace), restart.order)
    requires back.event.data.ClientConnected? && back.event.data.connectionId == info.connection
    ensures StandsStill(RunTables(trace + [restart]), info, restart.event.at)
    ensures |restart.order| <= 4 ==> Counts(RunTables(trace + [restart] + [back]), info)
  {
    var (l, t, at) := (RunLedger(homes, trace), RunTables(trace), restart.event.at);
    OneMore(homes, trace + [restart], back);
    OneMore(homes, trace, restart);
    RunTied(homes, trace);
    assert IdTied(homes, l.fates, t, info.id);
    FreezeAllFates(homes, l, t, restart.order, at, info.id);
    Shown(homes, trace + [restart], info);
    if |restart.order| <= 4 {
      FreezeAllHolds(homes, l, t, restart.order, at, info);
      BackCounts(homes, trace + [restart], back, info, at, |restart.order| - 1);
    }
  }

  // ---------------------------------------------------------------- close code 0

  /** Session "s" of account "a" starts at 0, its client's disconnect is logged at 10 from the
      status message, and the client is back at 20: at 30 the session counts 30. The logged
      event has close code 0. */
  function Started(): Event { Event(1, "a", 0, SessionStarted("s", "nursery", "c", 0)) }

  function Logged(): seq<Event> { LogDisconnected([Started()], Message("a", "k", "c", "r"), "unexpected", 10) }

  function WithBack(orders: (seq<string>, seq<string>, seq<string>)): seq<Visit>
    requires |Logged()| == 2
  {
    [Visit(Logged()[0], orders.0), Visit(Logged()[1], orders.1), Visit(Event(3, "a", 20, ClientConnected("k", "c", "r'")), orders.2)]
  }

  lemma {:induction false} LoggedEvents()
    ensures Logged() == [Started(), Event(2, "a", 10, ClientDisconnected("k", "c", "r", "unexpected", 0))]
  {
    assert [Started()][..0] == [];
    assert CountDisconnects([Started()], GetKey(Message("a", "k", "c", "r"))) == 0;
  }

  lemma {:induction false} TrackAlone(info: Info, at: int)
    ensures Track(EMPTY.(active := map[info.id := info], activeByConnection := map[info.connection := info]), info, at)
      == Tables(map[], map[], map[info.id := SpanOf(info, at)], map[info.connection := Parked(info, at)],
                map[info.account := [Parked(info, at)]], map[])
  {
    var t := EMPTY.(active := map[info.id := info], activeByConnection := map[info.connection := info]);
    var freed := RemoveActive(t, info);
    assert freed.active == map[] && freed.activeByConnection == map[];
    assert RemoveHeldOn(freed, info.connection) == freed;
    assert QueueOf(freed.queues, info.account) + [Parked(info, at)] == [Parked(info, at)];
  }

  lemma {:induction false} BackAlone(info: Info, at: int, now: int)
    ensures TotalDuration(ReconnectTables(Tables(map[], map[], map[info.id := SpanOf(info, at)], map[info.connection := Parked(info, at)],
                map[info.account := [Parked(info, at)]], map[]), info.connection), now) == now - info.start
  {
    var t := ReconnectTables(Tables(map[], map[], map[info.id := SpanOf(info, at)], map[info.connection := Parked(info, at)],
                map[info.account := [Parked(info, at)]], map[]), info.connection);
    assert t.active == map[info.id := info] && t.frozen == map[] && t.durations == map[];
    WorthOfCounting(t, info, now);
    assert t.active - {info.id} == map[];
  }

  lemma {:induction false} LoggedDropAndBack(orders: (seq<string>, seq<string>, seq<string>))
    ensures |Logged()| == 2 && Logged()[1].data.closeCode == 0
    ensures TotalDuration(RunTables(WithBack(orders)), 30) == 30
  {
    LoggedEvents();
    var info := Info("s", "a", "c", 0);
    var trace := WithBack(orders);
    var (one, two) := ([trace[0]], [trace[0]] + [trace[1]]);
    assert trace[..2] == two && two[..1] == one && one[..0] == [];
    assert RunTables(one) == EMPTY.(active := map["s" := info], activeByConnection := map["c" := info]);
    assert RunTables(two) == Track(RunTables(one), info, 10);
    TrackAlone(info, 10);
    assert RunTables(trace) == ReconnectTables(RunTables(two), "c");
    BackAlone(info, 10, 30);
  }
}
