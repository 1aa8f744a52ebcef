/** Runs that reach the inputs on which the code misses its promises: what the assumptions
    on ids and clocks, and the re-arming of a follower, are for. */
module FailingRuns {
  import opened Options
  import opened Events
  import EventLog
  import Follow
  import L = UsageLedger
  import U = UsageTables
  import B = SessionBoard
  import Q = DroppedQueues
  import R = SessionRoster

  // ---------------------------------------------------------------- one id in two accounts

  function StartIn(account: string): Event {
    Event(1, account, 0, SessionStarted("s", "nursery", "c", 0))
  }

  function SessionIn(account: string): B.Session {
    B.Session(account, "s", "nursery", "c", 0, B.Online(0, "TODO"))
  }

  /** A session id started in account "b" and then in account "a": the list loses b's session. */
  lemma LostAcrossAccounts()
    ensures R.RunRoster([StartIn("b")]).sessions == [SessionIn("b")]
    ensures R.RunRoster([StartIn("b"), StartIn("a")]).sessions == [SessionIn("a")]
  {
    var (one, two) := ([StartIn("b")], [StartIn("b"), StartIn("a")]);
    R.RunStep([], StartIn("b"));
    assert [] + one == one;
    var r := R.RunRoster(one);
    assert r.sessions == [SessionIn("b")] && r.held == map[] && r.live == map[];
    R.RunStep(one, StartIn("a"));
    assert one + [StartIn("a")] == two;
    Overwritten(r);
  }

  lemma Overwritten(r: R.Roster)
    requires r.sessions == [SessionIn("b")] && r.held == map[] && r.live == map[]
    ensures R.ApplyRoster(r, StartIn("a")).sessions == [SessionIn("a")]
  {
    assert !R.Precedes(SessionIn("b"), "a", "s");
    assert R.FindConnection(r.sessions, "a", "c") == 1;
  }

  // ---------------------------------------------------------------- usage

  /** A name for each number. */
  function Name(n: nat): (name: string)
    ensures |name| == n
  {
    seq(n, _ => 'x')
  }

  /** Session `n` of account "a", on a connection of its own. */
  function InfoOf(n: nat): L.Info { L.Info(Name(n), "a", Name(n), 0) }

  function StartOf(info: L.Info): U.Visit {
    U.Visit(Event(1, info.account, info.start, SessionStarted(info.id, "nursery", info.connection, info.start)), [])
  }

  function DropOf(info: L.Info, at: int): U.Visit {
    U.Visit(Event(1, info.account, at, ClientDisconnected("client", info.connection, "r", "unexpected", 1006)), [])
  }

  lemma RunOn(trace: seq<U.Visit>, v: U.Visit)
    ensures U.RunTables(trace + [v]) == U.ApplyTables(U.RunTables(trace), v.event, v.order)
  {
    assert (trace + [v])[..|trace|] == trace;
  }

  /** Sessions 1 to `n`, each started and then dropped. */
  function StartedAndDropped(n: nat): seq<U.Visit> {
    if n == 0 then [] else StartedAndDropped(n - 1) + [StartOf(InfoOf(n))] + [DropOf(InfoOf(n), n)]
  }

  /** What a start and a drop leave, where nothing else is active. */
  lemma StartAndDrop(t: U.Tables, info: L.Info, at: int)
    requires t.active == map[] && t.activeByConnection == map[] && info.connection !in t.heldByConnection
    ensures var t' := U.DisconnectTables(U.StartTables(t, info), info.account, info.connection, false, at);
      && t'.active == map[] && t'.activeByConnection == map[]
      && t'.frozen == t.frozen[info.id := U.SpanOf(info, at)]
      && var queue := Q.QueueOf(t.queues, info.account) + [L.Parked(info, at)];
         && t'.queues == t.queues[info.account := if |queue| > Q.HELD_PER_ACCOUNT then queue[1..] else queue]
         && t'.heldByConnection == (if |queue| > Q.HELD_PER_ACCOUNT then t.heldByConnection - {queue[0].info.connection}
                                    else t.heldByConnection)[info.connection := L.Parked(info, at)]
  {
  }

  lemma OneMore(n: nat)
    requires n > 0
    ensures var (t, t', info) := (U.RunTables(StartedAndDropped(n - 1)), U.RunTables(StartedAndDropped(n)), InfoOf(n));
      t' == U.DisconnectTables(U.StartTables(t, info), info.account, info.connection, false, n)
  {
    var (before, info) := (StartedAndDropped(n - 1), InfoOf(n));
    var started := before + [StartOf(info)];
    assert U.RunTables(started) == U.StartTables(U.RunTables(before), info) by {
      RunOn(before, StartOf(info));
      StartApplies(U.RunTables(before), info);
    }
    assert StartedAndDropped(n) == started + [DropOf(info, n)];
    RunOn(started, DropOf(info, n));
    DropApplies(U.RunTables(started), info, n);
  }

  lemma StartApplies(t: U.Tables, info: L.Info)
    ensures U.ApplyTables(t, StartOf(info).event, []) == U.StartTables(t, info)
  {
  }

  lemma DropApplies(t: U.Tables, info: L.Info, at: int)
    ensures U.ApplyTables(t, DropOf(info, at).event, []) == U.DisconnectTables(t, info.account, info.connection, false, at)
  {
  }

  /** Nothing is active, sessions are held on the connections up to `n` only, and the first
      session is frozen. */
  ghost predicate AllDropped(t: U.Tables, n: nat) {
    && t.active == map[] && t.activeByConnection == map[]
    && (forall c :: c in t.heldByConnection ==> |c| <= n)
    && (n > 0 ==> Name(1) in t.frozen && t.frozen[Name(1)] == U.SpanOf(InfoOf(1), 1))
  }

  lemma DropOneMore(t: U.Tables, n: nat)
    requires n > 0 && AllDropped(t, n - 1)
    ensures var t' := U.DisconnectTables(U.StartTables(t, InfoOf(n)), "a", Name(n), false, n);
      && AllDropped(t', n)
      && var queue := Q.QueueOf(t.queues, "a") + [L.Parked(InfoOf(n), n)];
         && Q.QueueOf(t'.queues, "a") == (if |queue| > Q.HELD_PER_ACCOUNT then queue[1..] else queue)
         && (|queue| > Q.HELD_PER_ACCOUNT && queue[0].info.connection != Name(n) ==> queue[0].info.connection !in t'.heldByConnection)
  {
    assert |Name(n)| == n && |Name(1)| == 1;
    StartAndDrop(t, InfoOf(n), n);
    assert n > 1 ==> Name(n) != Name(1);
  }

  /** All `n` are held, the first in front. */
  ghost predicate AllHeld(t: U.Tables, n: nat) {
    && AllDropped(t, n) && |Q.QueueOf(t.queues, "a")| == n
    && (n > 0 ==> Q.QueueOf(t.queues, "a")[0] == L.Parked(InfoOf(1), 1))
  }

  lemma HoldOneMore(t: U.Tables, n: nat)
    requires 0 < n <= 4 && AllHeld(t, n - 1)
    ensures AllHeld(U.DisconnectTables(U.StartTables(t, InfoOf(n)), "a", Name(n), false, n), n)
  {
    DropOneMore(t, n);
  }

  lemma {:induction false} FirstFour(n: nat)
    requires n <= 4
    ensures AllHeld(U.RunTables(StartedAndDropped(n)), n)
  {
    if n > 0 {
      FirstFour(n - 1);
      OneMore(n);
      HoldOneMore(U.RunTables(StartedAndDropped(n - 1)), n);
    }
  }

  /** Five sessions started and dropped in one account: the first is frozen and no longer held. */
  lemma FirstEvicted()
    ensures var t := U.RunTables(StartedAndDropped(5));
      AllDropped(t, 5) && Name(1) !in t.heldByConnection
  {
    FirstFour(4);
    OneMore(5);
    assert |Name(1)| == 1 && |Name(5)| == 5;
    DropOneMore(U.RunTables(StartedAndDropped(4)), 5);
  }

  /** The first of them started again is active and frozen, and counted twice. */
  lemma CountedTwice(now: int)
    ensures var (t, t') := (U.RunTables(StartedAndDropped(5)), U.RunTables(StartedAndDropped(5) + [StartOf(InfoOf(1))]));
      && Name(1) in t'.active && Name(1) in t'.frozen
      && U.TotalDuration(t', now) == U.TotalDuration(t, now) + now
  {
    FirstEvicted();
    var t := U.RunTables(StartedAndDropped(5));
    RunOn(StartedAndDropped(5), StartOf(InfoOf(1)));
    assert U.StartTables(t, InfoOf(1)) == U.Seat(t, InfoOf(1));
    U.SeatAdds(t, InfoOf(1), now);
  }

  function EndIn(account: string, at: int): U.Visit { U.Visit(Event(1, account, at, SessionEnded(Name(1))), []) }

  function BackOn(connection: string): U.Visit {
    U.Visit(Event(1, "a", 9, ClientConnected("client", connection, "r")), [])
  }

  /** The end from another account credits the session and leaves its entry on the index. */
  lemma EndHeldElsewhere(t: U.Tables)
    requires t.active == map[] && t.queues.Keys == {"a"} && t.durations == map[]
    requires Name(1) in t.frozen && t.frozen[Name(1)] == U.SpanOf(InfoOf(1), 5)
    ensures U.EndTables(t, Name(1), "b", 7) == t.(frozen := t.frozen - {Name(1)}, durations := map["a" := 7])
  {
    assert Q.QueueOf(t.queues, "b") == [];
    assert Q.IndexOf([], L.IdOf, Name(1)) == 0;
  }

  /** A session starts, drops, is ended from another account, and its client reconnects: the
      session is credited and active. */
  lemma EndedAndBack()
    ensures var t := U.RunTables([StartOf(InfoOf(1)), DropOf(InfoOf(1), 5), EndIn("b", 7), BackOn(Name(1))]);
      Name(1) in t.active && t.durations == map["a" := 7]
  {
    var (one, two) := ([StartOf(InfoOf(1))], [StartOf(InfoOf(1)), DropOf(InfoOf(1), 5)]);
    var three := two + [EndIn("b", 7)];
    RunOn([], StartOf(InfoOf(1)));
    assert [] + one == one;
    RunOn(one, DropOf(InfoOf(1), 5));
    assert one + [DropOf(InfoOf(1), 5)] == two;
    StartAndDrop(U.EMPTY, InfoOf(1), 5);
    var dropped := U.RunTables(two);
    assert dropped == U.DisconnectTables(U.StartTables(U.EMPTY, InfoOf(1)), "a", Name(1), false, 5);
    EndHeldElsewhere(dropped);
    RunOn(two, EndIn("b", 7));
    RunOn(three, BackOn(Name(1)));
    assert three + [BackOn(Name(1))] == [StartOf(InfoOf(1)), DropOf(InfoOf(1), 5), EndIn("b", 7), BackOn(Name(1))];
  }

  // ---------------------------------------------------------------- the log

  lemma RunCut(cut: EventLog.Act)
    requires cut.AppendCutShort?
    ensures EventLog.Run([EventLog.Open, cut]) == EventLog.World([Event(1, cut.accountId, cut.at, cut.data)], 0, None)
  {
    var open := EventLog.Open;
    var e := Event(1, cut.accountId, cut.at, cut.data);
    assert [open, cut][..1] == [open] && [open][..0] == [];
    assert EventLog.Run([open]) == EventLog.World([], 0, Some(0));
    assert [] + [e] == [e];
  }

  lemma LoadOne(e: Event)
    requires e.clock > 0
    ensures EventLog.Load([e]) == [e]
  {
    assert [e][..0] == [];
  }

  lemma CacheOneMore(loaded: seq<Event>, metadata: nat, next: Event)
    ensures EventLog.CacheAfter(loaded, metadata, [next]) == loaded + [next.(clock := metadata + 1)]
  {
    assert [next][..0] == [];
  }

  /** A process that stops between line and metadata leaves one event to load and metadata 0;
      with the next append the cache holds clock 1 twice. */
  lemma LoadedAhead(accountId: string, at: int, data: Data, next: Event)
    ensures var w := EventLog.Run([EventLog.Open, EventLog.AppendCutShort(accountId, at, data)]);
      && EventLog.Load(w.lines) == [Event(1, accountId, at, data)] && w.metadata == 0
      && EventLog.CacheAfter(EventLog.Load(w.lines), w.metadata, [next]) == [Event(1, accountId, at, data), next.(clock := 1)]
      && !EventLog.Dense(EventLog.CacheAfter(EventLog.Load(w.lines), w.metadata, [next]))
  {
    var (e, again) := (Event(1, accountId, at, data), next.(clock := 1));
    RunCut(EventLog.AppendCutShort(accountId, at, data));
    LoadOne(e);
    CacheOneMore([e], 0, next);
    assert [e] + [again] == [e, again];
    assert [e, again][1].clock == 1;
  }

  // ---------------------------------------------------------------- the follower

  /** An append between a new follower's snapshot and its channel: the follower is stuck. */
  lemma StuckFromTheStart(e: Event)
    ensures Follow.Stuck(Follow.Run(Follow.Begin([], 0), [Follow.TakeFirstSnapshot, Follow.Grow(e), Follow.TakeFirstChannel]))
  {
    var acts := [Follow.TakeFirstSnapshot, Follow.Grow(e), Follow.TakeFirstChannel];
    assert acts[..2] == [Follow.TakeFirstSnapshot, Follow.Grow(e)];
    assert acts[..2][..1] == [Follow.TakeFirstSnapshot] && [Follow.TakeFirstSnapshot][..0] == [];
    var begin := Follow.Begin([], 0);
    assert Follow.Run(begin, [Follow.TakeFirstSnapshot]) == begin.(phase := Follow.Opening([]));
    assert Follow.Run(begin, acts[..2]) == begin.(phase := Follow.Opening([]), log := [e.(clock := 1)]);
    assert Follow.Run(begin, acts).phase == Follow.Reading([], -1, 1, false);
  }
}
