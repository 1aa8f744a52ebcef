/** The backend's handling of status messages and announcements: which events reach the log,
    and which reconnect timeouts. Each step is what one lock guards, so every interleaving
    of handlers and timer goroutines is a sequence of these steps. */
module StatusSync {
  import opened Options
  import opened Events
  import opened StatusMessages

  datatype ClientKey = ClientKey(account: string, client: string)

  datatype Timer = Timer(connection: string, request: string)

  /** What happened to a client's timer. */
  datatype Note = Scheduled(key: ClientKey, timer: Timer) | Cancelled(key: ClientKey) | TimedOut(key: ClientKey, timer: Timer)

  datatype Notes = Blank | Then(earlier: Notes, last: Note)

  /** A goroutine started by Schedule; it may fire once, cancelled or not. */
  datatype Goroutine = Goroutine(key: ClientKey, timer: Timer)

  datatype Backend = Backend(
    log: seq<Event>,
    timers: map<ClientKey, Timer>,
    goroutines: seq<Goroutine>,
    finished: set<nat>,
    notes: Notes)

  const START := Backend([], map[], [], {}, Blank)

  /** A restart loses the timers and their goroutines. The log loads back entirely, which is
      A4, and the key sets are read from it again. */
  datatype Act =
    | PutConnected(m: Message, at: int)
    | PutDisconnected(m: Message, reason: string, at: int)
    | CancelClient(key: ClientKey)
    | Schedule(key: ClientKey, timer: Timer)
    | Fire(goroutine: nat, at: int)
    | OtherAppend(accountId: string, at: int, data: Data)
    | Restart

  /** Status and timeout events have no other writer. */
  predicate Foreign(data: Data) {
    !data.ClientConnected? && !data.ClientDisconnected? && !data.ReconnectTimeout?
  }

  function Cancel(b: Backend, key: ClientKey): Backend {
    b.(timers := b.timers - {key}, notes := Then(b.notes, Cancelled(key)))
  }

  /** The goroutine gives up unless the timer registered for its client names the same
      connection and request. */
  function FireTimer(b: Backend, i: nat, at: int): Backend {
    if i >= |b.goroutines| || i in b.finished then b
    else
      var g := b.goroutines[i];
      var done := b.(finished := b.finished + {i});
      if g.key !in b.timers || b.timers[g.key] != g.timer then done
      else
        done.(timers := b.timers - {g.key}, notes := Then(b.notes, TimedOut(g.key, g.timer)),
              log := b.log + [Event(|b.log| + 1, g.key.account, at,
                                    ReconnectTimeout(g.key.client, g.timer.connection, g.timer.request))])
  }

  function Step(b: Backend, act: Act): Backend {
    match act
    case PutConnected(m, at) => b.(log := LogConnected(b.log, m, at))
    case PutDisconnected(m, reason, at) => b.(log := LogDisconnected(b.log, m, reason, at))
    case CancelClient(key) => Cancel(b, key)
    case Schedule(key, timer) =>
      b.(timers := b.timers[key := timer], goroutines := b.goroutines + [Goroutine(key, timer)],
         notes := Then(b.notes, Scheduled(key, timer)))
    case Fire(i, at) => FireTimer(b, i, at)
    case OtherAppend(accountId, at, data) =>
      if Foreign(data) then b.(log := b.log + [Event(|b.log| + 1, accountId, at, data)]) else b
    case Restart => b.(timers := map[], goroutines := [], finished := {})
  }

  function Steps(b: Backend, acts: seq<Act>): Backend
    decreases |acts|
  {
    if acts == [] then b else Step(Steps(b, acts[..|acts| - 1]), acts[|acts| - 1])
  }

  function Run(acts: seq<Act>): Backend { Steps(START, acts) }

  // ---------------------------------------------------------------- the handlers

  function KeyOf(m: Message): ClientKey { ClientKey(m.account, m.client) }

  function HandleConnected(m: Message, at: int): seq<Act> {
    [CancelClient(KeyOf(m)), PutConnected(m, at)]
  }

  function HandleDisconnected(m: Message, reason: string, at: int): seq<Act> {
    [PutDisconnected(m, reason, at)]
      + (if reason == "clean" then [] else [Schedule(KeyOf(m), Timer(m.connection, m.request))])
  }

  function HandleAnnouncement(account: string, client: string, session: Data, at: int): seq<Act> {
    [CancelClient(ClientKey(account, client)), OtherAppend(account, at, session)]
  }

  // ---------------------------------------------------------------- exactly once

  predicate HandledConnected(acts: seq<Act>, key: string)
    decreases |acts|
  {
    acts != [] &&
    (HandledConnected(acts[..|acts| - 1], key) || (acts[|acts| - 1].PutConnected? && GetKey(acts[|acts| - 1].m) == key))
  }

  predicate HandledDisconnected(acts: seq<Act>, key: string)
    decreases |acts|
  {
    acts != [] &&
    (HandledDisconnected(acts[..|acts| - 1], key) || (acts[|acts| - 1].PutDisconnected? && GetKey(acts[|acts| - 1].m) == key))
  }

  lemma FireCounts(b: Backend, i: nat, at: int, key: string)
    ensures CountConnects(FireTimer(b, i, at).log, key) == CountConnects(b.log, key)
    ensures CountDisconnects(FireTimer(b, i, at).log, key) == CountDisconnects(b.log, key)
  {
    if i < |b.goroutines| {
      var g := b.goroutines[i];
      CountOneMore(b.log, Event(|b.log| + 1, g.key.account, at,
                                ReconnectTimeout(g.key.client, g.timer.connection, g.timer.request)), key);
    }
  }

  /** A step that is not a put leaves the counts as they are. */
  lemma OtherCounts(b: Backend, act: Act, key: string)
    requires !act.PutConnected? && !act.PutDisconnected?
    ensures CountConnects(Step(b, act).log, key) == CountConnects(b.log, key)
    ensures CountDisconnects(Step(b, act).log, key) == CountDisconnects(b.log, key)
  {
    match act
    case OtherAppend(accountId, at, data) => CountOneMore(b.log, Event(|b.log| + 1, accountId, at, data), key);
    case Fire(i, at) => FireCounts(b, i, at, key);
    case _ =>
  }

  /** At least once in, exactly once out: whatever messages are delivered, again or out of
      order, and whatever else is appended, the log has one connected event for each key a
      connected message came with, one disconnected event for each disconnected key, and
      no others. */
  lemma {:induction false} ExactlyOnce(acts: seq<Act>, key: string)
    ensures CountConnects(Run(acts).log, key) == if HandledConnected(acts, key) then 1 else 0
    ensures CountDisconnects(Run(acts).log, key) == if HandledDisconnected(acts, key) then 1 else 0
    decreases |acts|
  {
    if acts != [] {
      var (front, act) := (acts[..|acts| - 1], acts[|acts| - 1]);
      ExactlyOnce(front, key);
      match act
      case PutConnected(m, at) => LogConnectedCounts(Run(front).log, m, at, key);
      case PutDisconnected(m, reason, at) => LogDisconnectedCounts(Run(front).log, m, reason, at, key);
      case _ => OtherCounts(Run(front), act, key);
    }
  }

  // ---------------------------------------------------------------- firing

  /** Goroutine `i` has yet to fire, and the timer registered for its client is its own. */
  predicate Due(b: Backend, i: nat) {
    && i < |b.goroutines| && i !in b.finished
    && b.goroutines[i].key in b.timers && b.timers[b.goroutines[i].key] == b.goroutines[i].timer
  }

  /** A firing appends one event exactly when it is due. The event is a reconnect timeout of
      that client with that connection and request, and its timer is gone afterwards, so that
      neither this goroutine nor another of that timer is due again. */
  lemma {:induction false} FiresExactly(acts: seq<Act>, i: nat, at: int)
    ensures var (b, t) := (Run(acts), Run(acts + [Fire(i, at)]));
      && (Due(b, i) <==> |t.log| > |b.log|) && (!Due(b, i) <==> t.log == b.log)
      && (Due(b, i) ==>
          var g := b.goroutines[i];
          && t.log == b.log + [Event(|b.log| + 1, g.key.account, at, ReconnectTimeout(g.key.client, g.timer.connection, g.timer.request))]
          && t.timers.Keys == b.timers.Keys - {g.key}
          && forall j: nat :: j < |t.goroutines| && t.goroutines[j].key == g.key ==> !Due(t, j))
      && (!Due(b, i) ==> t.timers == b.timers)
      && !Due(t, i) && t.goroutines == b.goroutines
  {
    assert (acts + [Fire(i, at)])[..|acts|] == acts;
  }

  // ---------------------------------------------------------------- timers

  /** The last note about a client. */
  function Latest(notes: Notes, key: ClientKey): Option<Note> {
    match notes
    case Blank => None
    case Then(earlier, last) => if last.key == key then Some(last) else Latest(earlier, key)
  }

  predicate Prefix(shorter: Notes, notes: Notes) {
    shorter == notes || (notes.Then? && Prefix(shorter, notes.earlier))
  }

  predicate Justified(notes: Notes) {
    match notes
    case Blank => true
    case Then(earlier, last) =>
      Justified(earlier) && (last.TimedOut? ==> Latest(earlier, last.key) == Some(Scheduled(last.key, last.timer)))
  }

  ghost predicate TimerNoted(b: Backend, key: ClientKey) {
    key in b.timers ==> Latest(b.notes, key) == Some(Scheduled(key, b.timers[key]))
  }

  ghost predicate Timely(b: Backend) {
    Justified(b.notes) && forall key :: TimerNoted(b, key)
  }

  lemma StepTimely(b: Backend, act: Act)
    requires Timely(b)
    ensures Timely(Step(b, act))
  {
    var t := Step(b, act);
    if act.Fire? && act.goroutine < |b.goroutines| {
      assert TimerNoted(b, b.goroutines[act.goroutine].key);
    }
    forall key ensures TimerNoted(t, key) { assert TimerNoted(b, key); }
  }

  lemma {:induction false} RunTimely(acts: seq<Act>)
    ensures Timely(Run(acts))
    decreases |acts|
  {
    if acts == [] {
      forall key ensures TimerNoted(START, key) {}
    } else {
      RunTimely(acts[..|acts| - 1]);
      StepTimely(Run(acts[..|acts| - 1]), acts[|acts| - 1]);
    }
  }

  lemma {:induction false} JustifiedAt(notes: Notes, earlier: Notes, key: ClientKey, timer: Timer)
    requires Justified(notes) && Prefix(Then(earlier, TimedOut(key, timer)), notes)
    ensures Latest(earlier, key) == Some(Scheduled(key, timer))
  {
    if notes != Then(earlier, TimedOut(key, timer)) { JustifiedAt(notes.earlier, earlier, key, timer); }
  }

  /** Reconnect timer: whenever a timeout is appended, late firings of cancelled goroutines
      included, what last happened to the client is the scheduling of a timer for that very
      connection and request: no message or announcement has cancelled it, no later
      disconnect has replaced it, and it has not timed out before. */
  lemma TimeoutsJustified(acts: seq<Act>, earlier: Notes, key: ClientKey, timer: Timer)
    requires Prefix(Then(earlier, TimedOut(key, timer)), Run(acts).notes)
    ensures Latest(earlier, key) == Some(Scheduled(key, timer))
  {
    RunTimely(acts);
    JustifiedAt(Run(acts).notes, earlier, key, timer);
  }

  function CountNotes(notes: Notes, key: ClientKey, scheduled: bool): nat {
    match notes
    case Blank => 0
    case Then(earlier, last) =>
      CountNotes(earlier, key, scheduled)
        + (if last.key == key && (if scheduled then last.Scheduled? else last.TimedOut?) then 1 else 0)
  }

  lemma {:induction false} TimeoutsSpent(notes: Notes, key: ClientKey)
    requires Justified(notes)
    ensures CountNotes(notes, key, false)
        + (if Latest(notes, key).Some? && Latest(notes, key).value.Scheduled? then 1 else 0)
      <= CountNotes(notes, key, true)
  {
    if notes.Then? { TimeoutsSpent(notes.earlier, key); }
  }

  /** A client never times out more often than a timer was scheduled for it. */
  lemma TimeoutsBounded(acts: seq<Act>, key: ClientKey)
    ensures CountNotes(Run(acts).notes, key, false) <= CountNotes(Run(acts).notes, key, true)
  {
    RunTimely(acts);
    TimeoutsSpent(Run(acts).notes, key);
  }

  function LoggedTimeouts(log: seq<Event>): seq<(ClientKey, Timer)>
    decreases |log|
  {
    if log == [] then []
    else
      var (before, e) := (LoggedTimeouts(log[..|log| - 1]), log[|log| - 1]);
      if e.data.ReconnectTimeout?
      then before + [(ClientKey(e.accountId, e.data.clientId), Timer(e.data.connectionId, e.data.requestId))] else before
  }

  function NotedTimeouts(notes: Notes): seq<(ClientKey, Timer)> {
    match notes
    case Blank => []
    case Then(earlier, last) => if last.TimedOut? then NotedTimeouts(earlier) + [(last.key, last.timer)] else NotedTimeouts(earlier)
  }

  lemma LoggedOneMore(log: seq<Event>, e: Event)
    ensures LoggedTimeouts(log + [e]) ==
      LoggedTimeouts(log) + (if e.data.ReconnectTimeout?
        then [(ClientKey(e.accountId, e.data.clientId), Timer(e.data.connectionId, e.data.requestId))] else [])
  {
    assert (log + [e])[..|log|] == log;
  }

  lemma FireLogged(b: Backend, i: nat, at: int)
    requires LoggedTimeouts(b.log) == NotedTimeouts(b.notes)
    ensures LoggedTimeouts(FireTimer(b, i, at).log) == NotedTimeouts(FireTimer(b, i, at).notes)
  {
    if i < |b.goroutines| {
      var g := b.goroutines[i];
      LoggedOneMore(b.log, Event(|b.log| + 1, g.key.account, at,
                                 ReconnectTimeout(g.key.client, g.timer.connection, g.timer.request)));
    }
  }

  lemma StepLogged(b: Backend, act: Act)
    requires LoggedTimeouts(b.log) == NotedTimeouts(b.notes)
    ensures LoggedTimeouts(Step(b, act).log) == NotedTimeouts(Step(b, act).notes)
  {
    if act.Fire? {
      FireLogged(b, act.goroutine, act.at);
    } else {
      OtherLogged(b, act);
      OtherNoted(b, act);
    }
  }

  lemma OtherNoted(b: Backend, act: Act)
    requires !act.Fire?
    ensures NotedTimeouts(Step(b, act).notes) == NotedTimeouts(b.notes)
  {
  }

  lemma OtherLogged(b: Backend, act: Act)
    requires !act.Fire?
    ensures LoggedTimeouts(Step(b, act).log) == LoggedTimeouts(b.log)
  {
    match act
    case PutConnected(m, at) => PutLogged(b.log, m, at);
    case PutDisconnected(m, reason, at) => PutDisconnectedLogged(b.log, m, reason, at);
    case OtherAppend(accountId, at, data) => LoggedOneMore(b.log, Event(|b.log| + 1, accountId, at, data));
    case _ =>
  }

  lemma PutLogged(log: seq<Event>, m: Message, at: int)
    ensures LoggedTimeouts(LogConnected(log, m, at)) == LoggedTimeouts(log)
  {
    LoggedOneMore(log, Event(|log| + 1, m.account, at, ClientConnected(m.client, m.connection, m.request)));
  }

  lemma PutDisconnectedLogged(log: seq<Event>, m: Message, reason: string, at: int)
    ensures LoggedTimeouts(LogDisconnected(log, m, reason, at)) == LoggedTimeouts(log)
  {
    LoggedOneMore(log, Event(|log| + 1, m.account, at, ClientDisconnected(m.client, m.connection, m.request, reason, 0)));
  }

  /** The timeouts noted are the reconnect_timeout events of the log, in order. */
  lemma {:induction false} TimeoutsLogged(acts: seq<Act>)
    ensures LoggedTimeouts(Run(acts).log) == NotedTimeouts(Run(acts).notes)
    decreases |acts|
  {
    if acts != [] {
      TimeoutsLogged(acts[..|acts| - 1]);
      StepLogged(Run(acts[..|acts| - 1]), acts[|acts| - 1]);
    }
  }
}
