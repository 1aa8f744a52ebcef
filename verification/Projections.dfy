/** The four projections read the log by cursor: for each, whatever appends and catch-ups were
    mixed before, a catch-up leaves what one replay of the whole log computes. */
module Projections {
  import opened Events
  import opened Projection
  import S = SessionRoster
  import U = UsageTables
  import B = BabyStations
  import M = StatusMessages

  predicate Moves(e: Event) { e.data.ClientConnected? || e.data.ClientDisconnected? }

  function RosterRules(): Rules<S.Roster, Event> {
    Rules(S.EMPTY, (r, e) => S.ApplyRoster(r, e), _ => true)
  }

  /** Each event with the order in which the map of active sessions was visited for it. */
  function UsageRules(): Rules<U.Tables, U.Visit> {
    Rules(U.EMPTY, (t, v: U.Visit) => U.ApplyTables(t, v.event, v.order), _ => true)
  }

  ghost function StationRules(): Rules<B.Snapshots, Event> {
    Rules(map[], (all, e) => B.Apply(all, e), _ => true)
  }

  /** The connected keys and the disconnected keys. */
  datatype Keys = Keys(connected: set<string>, disconnected: set<string>)

  function ApplyKeys(keys: Keys, e: Event): Keys {
    match e.data
    case ClientConnected(_, _, _) => keys.(connected := keys.connected + {M.GetKey(M.MessageOf(e))})
    case ClientDisconnected(_, _, _, _, _) => keys.(disconnected := keys.disconnected + {M.GetKey(M.MessageOf(e))})
    case _ => keys
  }

  /** Only the events that the decider applies move its cursor. */
  function KeyRules(): Rules<Keys, Event> {
    Rules(Keys({}, {}), (keys, e) => ApplyKeys(keys, e), e => Moves(e))
  }

  lemma {:induction false} FoldRoster(log: seq<Event>)
    ensures Fold(RosterRules(), S.EMPTY, log) == S.RunRoster(log)
    decreases |log|
  {
    if log != [] { FoldRoster(log[..|log| - 1]); }
  }

  lemma {:induction false} FoldUsage(log: seq<U.Visit>)
    ensures Fold(UsageRules(), U.EMPTY, log) == U.RunTables(log)
    decreases |log|
  {
    if log != [] { FoldUsage(log[..|log| - 1]); }
  }

  lemma {:induction false} FoldStations(log: seq<Event>)
    ensures Fold(StationRules(), map[], log) == B.Run(log)
    decreases |log|
  {
    if log != [] { FoldStations(log[..|log| - 1]); }
  }

  /** The keys a log holds. */
  lemma {:induction false} FoldKeys(log: seq<Event>, key: string)
    ensures key in Fold(KeyRules(), Keys({}, {}), log).connected <==> M.CountConnects(log, key) > 0
    ensures key in Fold(KeyRules(), Keys({}, {}), log).disconnected <==> M.CountDisconnects(log, key) > 0
    decreases |log|
  {
    if log != [] {
      var (front, last) := (log[..|log| - 1], log[|log| - 1]);
      FoldKeys(front, key);
      assert Fold(KeyRules(), Keys({}, {}), log) == ApplyKeys(Fold(KeyRules(), Keys({}, {}), front), last);
    }
  }

  lemma RosterReplay(log: seq<Event>, acts: seq<Act<Event>>)
    ensures var w := Run(RosterRules(), log, acts + [Read]);
      w.consumer.state == S.RunRoster(w.log)
  {
    forall r, e ensures Harmless(RosterRules(), r, e) {}
    IncrementalIsReplay(RosterRules(), log, acts);
    FoldRoster(Run(RosterRules(), log, acts + [Read]).log);
  }

  lemma UsageReplay(log: seq<U.Visit>, acts: seq<Act<U.Visit>>)
    ensures var w := Run(UsageRules(), log, acts + [Read]);
      w.consumer.state == U.RunTables(w.log)
  {
    forall t, v ensures Harmless(UsageRules(), t, v) {}
    IncrementalIsReplay(UsageRules(), log, acts);
    FoldUsage(Run(UsageRules(), log, acts + [Read]).log);
  }

  lemma StationReplay(log: seq<Event>, acts: seq<Act<Event>>)
    ensures var w := Run(StationRules(), log, acts + [Read]);
      w.consumer.state == B.Run(w.log)
  {
    forall all, e ensures Harmless(StationRules(), all, e) {}
    IncrementalIsReplay(StationRules(), log, acts);
    FoldStations(Run(StationRules(), log, acts + [Read]).log);
  }

  /** The decider re-reads what did not move its cursor, and still knows exactly the keys
      that the log holds. */
  lemma DeciderReplay(log: seq<Event>, acts: seq<Act<Event>>, key: string)
    ensures var w := Run(KeyRules(), log, acts + [Read]);
      && (key in w.consumer.state.connected <==> M.CountConnects(w.log, key) > 0)
      && (key in w.consumer.state.disconnected <==> M.CountDisconnects(w.log, key) > 0)
  {
    forall keys, e ensures Harmless(KeyRules(), keys, e) {}
    IncrementalIsReplay(KeyRules(), log, acts);
    FoldKeys(Run(KeyRules(), log, acts + [Read]).log, key);
  }
}
