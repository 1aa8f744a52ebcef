/** The backend's handling of status messages and announcements, message by message: what the
    log says of the messages that arrived, however often each did, across restarts. */
module StatusTraces {
  import opened Options
  import opened Events
  import opened StatusMessages
  import opened StatusSync

  datatype Delivery =
    | Connected(m: Message, at: int)
    | Disconnected(m: Message, reason: string, at: int)
    | Announced(account: string, client: string, session: Data, at: int)

  /** A delivery handled to the end, or cut short by a restart after its first step; a timer's
      goroutine whose wait is over; anything else appended; a restart in between. */
  datatype Input =
    | Handled(delivery: Delivery)
    | CutShort(delivery: Delivery)
    | Fired(goroutine: nat, at: int)
    | Appended(accountId: string, at: int, data: Data)
    | Restarted

  function Handling(d: Delivery): (acts: seq<Act>)
    ensures acts != []
  {
    match d
    case Connected(m, at) => HandleConnected(m, at)
    case Disconnected(m, reason, at) => HandleDisconnected(m, reason, at)
    case Announced(account, client, session, at) => HandleAnnouncement(account, client, session, at)
  }

  function ActsOf(input: Input): seq<Act> {
    match input
    case Handled(d) => Handling(d)
    case CutShort(d) => [Handling(d)[0], Restart]
    case Fired(i, at) => [Fire(i, at)]
    case Appended(accountId, at, data) => [OtherAppend(accountId, at, data)]
    case Restarted => [Restart]
  }

  function Flatten(inputs: seq<Input>): seq<Act>
    decreases |inputs|
  {
    if inputs == [] then [] else Flatten(inputs[..|inputs| - 1]) + ActsOf(inputs[|inputs| - 1])
  }

  /** The state after more inputs. */
  function Play(b: Backend, inputs: seq<Input>): Backend
    decreases |inputs|
  {
    if inputs == [] then b else Steps(Play(b, inputs[..|inputs| - 1]), ActsOf(inputs[|inputs| - 1]))
  }

  function After(inputs: seq<Input>): Backend { Play(START, inputs) }

  lemma {:induction false} StepsSplit(b: Backend, acts: seq<Act>, more: seq<Act>)
    ensures Steps(b, acts + more) == Steps(Steps(b, acts), more)
    decreases |more|
  {
    if more == [] {
      assert acts + more == acts;
    } else {
      var front := more[..|more| - 1];
      assert (acts + more)[..|acts + more| - 1] == acts + front;
      StepsSplit(b, acts, front);
    }
  }

  lemma {:induction false} PlaySplit(b: Backend, inputs: seq<Input>, more: seq<Input>)
    ensures Play(b, inputs + more) == Play(Play(b, inputs), more)
    decreases |more|
  {
    if more == [] {
      assert inputs + more == inputs;
    } else {
      var front := more[..|more| - 1];
      assert (inputs + more)[..|inputs + more| - 1] == inputs + front;
      PlaySplit(b, inputs, front);
    }
  }

  lemma AfterInput(inputs: seq<Input>, input: Input)
    ensures After(inputs + [input]) == Steps(After(inputs), ActsOf(input))
  {
    assert (inputs + [input])[..|inputs|] == inputs;
  }

  /** Message by message is step by step. */
  lemma {:induction false} AfterSteps(inputs: seq<Input>)
    ensures After(inputs) == Run(Flatten(inputs))
    decreases |inputs|
  {
    if inputs != [] {
      var front := inputs[..|inputs| - 1];
      AfterSteps(front);
      StepsSplit(START, Flatten(front), ActsOf(inputs[|inputs| - 1]));
    }
  }

  // ---------------------------------------------------------------- exactly once

  /** The messages whose handling reaches the log; that of a connected message cut short after
      its first step does not. */
  predicate LogsConnect(input: Input, key: string) {
    input.Handled? && input.delivery.Connected? && GetKey(input.delivery.m) == key
  }

  predicate LogsDisconnect(input: Input, key: string) {
    (input.Handled? || input.CutShort?) && input.delivery.Disconnected? && GetKey(input.delivery.m) == key
  }

  ghost predicate ConnectArrived(inputs: seq<Input>, key: string) {
    exists i :: 0 <= i < |inputs| && LogsConnect(inputs[i], key)
  }

  ghost predicate DisconnectArrived(inputs: seq<Input>, key: string) {
    exists i :: 0 <= i < |inputs| && LogsDisconnect(inputs[i], key)
  }

  lemma ArrivedOneMore(inputs: seq<Input>, key: string)
    requires inputs != []
    ensures var (front, last) := (inputs[..|inputs| - 1], inputs[|inputs| - 1]);
      && (ConnectArrived(inputs, key) <==> ConnectArrived(front, key) || LogsConnect(last, key))
      && (DisconnectArrived(inputs, key) <==> DisconnectArrived(front, key) || LogsDisconnect(last, key))
  {
    var (front, last) := (inputs[..|inputs| - 1], inputs[|inputs| - 1]);
    assert inputs == front + [last];
    if ConnectArrived(front, key) {
      var i :| 0 <= i < |front| && LogsConnect(front[i], key);
      assert LogsConnect(inputs[i], key);
    }
    if DisconnectArrived(front, key) {
      var i :| 0 <= i < |front| && LogsDisconnect(front[i], key);
      assert LogsDisconnect(inputs[i], key);
    }
  }

  lemma {:induction false} HandledSplit(acts: seq<Act>, more: seq<Act>, key: string)
    ensures HandledConnected(acts + more, key) <==> HandledConnected(acts, key) || HandledConnected(more, key)
    ensures HandledDisconnected(acts + more, key) <==> HandledDisconnected(acts, key) || HandledDisconnected(more, key)
    decreases |more|
  {
    if more == [] {
      assert acts + more == acts;
    } else {
      var front := more[..|more| - 1];
      assert (acts + more)[..|acts + more| - 1] == acts + front;
      HandledSplit(acts, front, key);
    }
  }

  predicate Connects(act: Act, key: string) { act.PutConnected? && GetKey(act.m) == key }

  predicate Disconnects(act: Act, key: string) { act.PutDisconnected? && GetKey(act.m) == key }

  lemma HandledFew(acts: seq<Act>, key: string)
    requires 0 < |acts| <= 2
    ensures HandledConnected(acts, key) <==> Connects(acts[0], key) || (|acts| == 2 && Connects(acts[1], key))
    ensures HandledDisconnected(acts, key) <==> Disconnects(acts[0], key) || (|acts| == 2 && Disconnects(acts[1], key))
  {
    var front := acts[..|acts| - 1];
    if |acts| == 1 {
      assert front == [];
    } else {
      assert front[..0] == [];
      HandledFew(front, key);
    }
  }

  lemma HandledOne(input: Input, key: string)
    ensures HandledConnected(ActsOf(input), key) <==> LogsConnect(input, key)
    ensures HandledDisconnected(ActsOf(input), key) <==> LogsDisconnect(input, key)
  {
    var acts := ActsOf(input);
    HandledFew(acts, key);
  }

  lemma {:induction false} HandledMessages(inputs: seq<Input>, key: string)
    ensures HandledConnected(Flatten(inputs), key) <==> ConnectArrived(inputs, key)
    ensures HandledDisconnected(Flatten(inputs), key) <==> DisconnectArrived(inputs, key)
    decreases |inputs|
  {
    if inputs != [] {
      var (front, last) := (inputs[..|inputs| - 1], inputs[|inputs| - 1]);
      HandledMessages(front, key);
      HandledSplit(Flatten(front), ActsOf(last), key);
      HandledOne(last, key);
      ArrivedOneMore(inputs, key);
    }
  }

  /** At least once in, exactly once out: whatever messages arrive, again or out of order, cut
      short by restarts or not, the log has one connected event for each key that a connected
      message came with, one disconnected event for each disconnected key, and no others. */
  lemma MessagesExactlyOnce(inputs: seq<Input>, key: string)
    ensures CountConnects(After(inputs).log, key) == if ConnectArrived(inputs, key) then 1 else 0
    ensures CountDisconnects(After(inputs).log, key) == if DisconnectArrived(inputs, key) then 1 else 0
  {
    AfterSteps(inputs);
    ExactlyOnce(Flatten(inputs), key);
    HandledMessages(inputs, key);
  }

  // ---------------------------------------------------------------- timeouts

  predicate Arrives(input: Input) { input.Handled? || input.CutShort? }

  /** An unclean disconnected message of the client. */
  predicate Drops(input: Input, key: ClientKey) {
    Arrives(input) && input.delivery.Disconnected? && KeyOf(input.delivery.m) == key && input.delivery.reason != "clean"
  }

  /** A connected message or an announcement of the client. */
  predicate Returns(input: Input, key: ClientKey) {
    Arrives(input) &&
    match input.delivery
    case Connected(m, _) => KeyOf(m) == key
    case Announced(account, client, _, _) => ClientKey(account, client) == key
    case _ => false
  }

  function TimerOf(m: Message): Timer { Timer(m.connection, m.request) }

  /** The client's latest unclean disconnect is input `j`, it names `timer`, and nothing that
      arrived since says that the client is back. */
  ghost predicate DroppedAt(inputs: seq<Input>, j: nat, key: ClientKey, timer: Timer) {
    && j < |inputs| && Drops(inputs[j], key) && TimerOf(inputs[j].delivery.m) == timer
    && forall l :: j < l < |inputs| ==> !Drops(inputs[l], key) && !Returns(inputs[l], key)
  }

  ghost predicate Dropped(inputs: seq<Input>, key: ClientKey, timer: Timer) {
    exists j: nat :: DroppedAt(inputs, j, key, timer)
  }

  /** A registered timer is that of the client's latest unclean disconnect. */
  ghost predicate TimerDropped(b: Backend, inputs: seq<Input>, key: ClientKey) {
    key in b.timers ==> Dropped(inputs, key, b.timers[key])
  }

  lemma StillDropped(inputs: seq<Input>, key: ClientKey, timer: Timer)
    requires inputs != [] && Dropped(inputs[..|inputs| - 1], key, timer)
    requires !Drops(inputs[|inputs| - 1], key) && !Returns(inputs[|inputs| - 1], key)
    ensures Dropped(inputs, key, timer)
  {
    var j: nat :| DroppedAt(inputs[..|inputs| - 1], j, key, timer);
    assert DroppedAt(inputs, j, key, timer);
  }

  lemma StepsOne(b: Backend, acts: seq<Act>)
    ensures |acts| == 1 ==> Steps(b, acts) == Step(b, acts[0])
    ensures |acts| == 2 ==> Steps(b, acts) == Step(Step(b, acts[0]), acts[1])
  {
    if |acts| == 1 {
      assert acts[..0] == [];
    } else if |acts| == 2 {
      assert acts[..1][..0] == [];
    }
  }

  /** What one input leaves registered for a client. */
  lemma TimersAfter(b: Backend, input: Input, key: ClientKey)
    ensures var t := Steps(b, ActsOf(input));
      key in t.timers ==>
        && !Returns(input, key)
        && if Drops(input, key) then t.timers[key] == TimerOf(input.delivery.m) else key in b.timers && t.timers[key] == b.timers[key]
  {
    StepsOne(b, ActsOf(input));
  }

  lemma {:induction false} TimersDropped(inputs: seq<Input>, key: ClientKey)
    ensures TimerDropped(After(inputs), inputs, key)
    decreases |inputs|
  {
    if inputs != [] {
      var (front, last) := (inputs[..|inputs| - 1], inputs[|inputs| - 1]);
      TimersDropped(front, key);
      TimersAfter(After(front), last, key);
      if key in After(inputs).timers {
        if Drops(last, key) {
          assert DroppedAt(inputs, |front|, key, After(inputs).timers[key]);
        } else {
          StillDropped(inputs, key, After(inputs).timers[key]);
        }
      }
    }
  }

  function KeyOfTimeout(e: Event): ClientKey
    requires e.data.ReconnectTimeout?
  {
    ClientKey(e.accountId, e.data.clientId)
  }

  function TimerOfTimeout(e: Event): Timer
    requires e.data.ReconnectTimeout?
  {
    Timer(e.data.connectionId, e.data.requestId)
  }

  lemma StepAdds(b: Backend, act: Act)
    ensures var t := Step(b, act);
      && b.log <= t.log && |t.log| <= |b.log| + 1
      && (|t.log| > |b.log| && t.log[|b.log|].data.ReconnectTimeout? ==>
        var e := t.log[|b.log|];
        act.Fire? && KeyOfTimeout(e) in b.timers && b.timers[KeyOfTimeout(e)] == TimerOfTimeout(e))
  {
  }

  /** An input adds to the log, and a timeout only by a firing, for a registered timer. */
  lemma LogAfter(b: Backend, input: Input)
    ensures var t := Steps(b, ActsOf(input));
      && b.log <= t.log
      && forall x :: |b.log| <= x < |t.log| && t.log[x].data.ReconnectTimeout? ==>
           && input.Fired? && x == |b.log|
           && KeyOfTimeout(t.log[x]) in b.timers && b.timers[KeyOfTimeout(t.log[x])] == TimerOfTimeout(t.log[x])
  {
    var acts := ActsOf(input);
    StepsOne(b, acts);
    StepAdds(b, acts[0]);
    if |acts| == 2 { StepAdds(Step(b, acts[0]), acts[1]); }
  }

  /** Input `k` is the firing that appended event `x`, and the event names the connection and
      request with which its client had then last dropped. */
  ghost predicate Justifies(inputs: seq<Input>, k: nat, x: nat, e: Event) {
    && k < |inputs| && inputs[k].Fired? && |After(inputs[..k]).log| == x
    && e.data.ReconnectTimeout? && Dropped(inputs[..k], KeyOfTimeout(e), TimerOfTimeout(e))
  }

  lemma JustifiesLater(inputs: seq<Input>, k: nat, x: nat, e: Event)
    requires inputs != [] && Justifies(inputs[..|inputs| - 1], k, x, e)
    ensures Justifies(inputs, k, x, e)
  {
    assert inputs[..|inputs| - 1][..k] == inputs[..k];
  }

  /** Events of the last input. */
  lemma JustifiedNow(inputs: seq<Input>, x: nat)
    requires inputs != [] && |After(inputs[..|inputs| - 1]).log| <= x < |After(inputs).log|
    requires After(inputs).log[x].data.ReconnectTimeout?
    ensures Justifies(inputs, |inputs| - 1, x, After(inputs).log[x])
  {
    var (front, e) := (inputs[..|inputs| - 1], After(inputs).log[x]);
    LogAfter(After(front), inputs[|inputs| - 1]);
    TimersDropped(front, KeyOfTimeout(e));
  }

  lemma LogGrows(inputs: seq<Input>)
    requires inputs != []
    ensures After(inputs[..|inputs| - 1]).log <= After(inputs).log
  {
    LogAfter(After(inputs[..|inputs| - 1]), inputs[|inputs| - 1]);
  }

  /** Reconnect timer, in terms of messages: every reconnect timeout in the log, late firings
      of cancelled goroutines included, carries the connection and request of the latest
      unclean disconnected message of its client at the time, and no connected message or
      announcement of that client came after it. */
  lemma {:induction false} TimeoutsNameLatestDrop(inputs: seq<Input>, x: nat)
    requires x < |After(inputs).log| && After(inputs).log[x].data.ReconnectTimeout?
    ensures exists k: nat :: Justifies(inputs, k, x, After(inputs).log[x])
    decreases |inputs|
  {
    assert inputs != [];
    var (front, e) := (inputs[..|inputs| - 1], After(inputs).log[x]);
    LogGrows(inputs);
    if x < |After(front).log| {
      TimeoutsNameLatestDrop(front, x);
      var k: nat :| Justifies(front, k, x, e);
      JustifiesLater(inputs, k, x, e);
    } else {
      JustifiedNow(inputs, x);
    }
  }

  // ---------------------------------------------------------------- that timeouts happen

  lemma {:induction false} AfterFiring(inputs: seq<Input>, g: nat, at: int)
    ensures After(inputs + [Fired(g, at)]) == Step(After(inputs), Fire(g, at))
  {
    AfterInput(inputs, Fired(g, at));
    StepsOne(After(inputs), [Fire(g, at)]);
  }

  /** Goroutine `g` was started for this client and timer, and it is due, or the timeout has
      been logged since the log was `n` long. */
  ghost predicate Awaited(b: Backend, n: nat, g: nat, key: ClientKey, timer: Timer) {
    g < |b.goroutines| && b.goroutines[g] == Goroutine(key, timer) && n <= |b.log| && (Due(b, g) || TimedOutSince(b.log, n, key, timer))
  }

  predicate TimeoutOf(e: Event, key: ClientKey, timer: Timer) {
    e.accountId == key.account && e.data == ReconnectTimeout(key.client, timer.connection, timer.request)
  }

  ghost predicate TimedOutSince(log: seq<Event>, n: nat, key: ClientKey, timer: Timer) {
    exists x: nat :: n <= x < |log| && TimeoutOf(log[x], key, timer)
  }

  lemma {:induction false} StillTimedOut(log: seq<Event>, longer: seq<Event>, n: nat, key: ClientKey, timer: Timer)
    requires log <= longer && TimedOutSince(log, n, key, timer)
    ensures TimedOutSince(longer, n, key, timer)
  {
    var x: nat :| n <= x < |log| && TimeoutOf(log[x], key, timer);
    assert TimeoutOf(longer[x], key, timer);
  }

  /** What leaves a client waiting: neither it nor the server is heard of. */
  predicate Silent(input: Input, key: ClientKey) {
    !Drops(input, key) && !Returns(input, key) && !input.Restarted? && !input.CutShort?
  }

  ghost predicate AllSilent(inputs: seq<Input>, key: ClientKey) {
    forall i :: 0 <= i < |inputs| ==> Silent(inputs[i], key)
  }

  lemma {:induction false} FireAwaited(b: Backend, i: nat, at: int, n: nat, g: nat, key: ClientKey, timer: Timer)
    requires Awaited(b, n, g, key, timer)
    ensures Awaited(Step(b, Fire(i, at)), n, g, key, timer)
    ensures i == g ==> TimedOutSince(Step(b, Fire(i, at)).log, n, key, timer)
  {
    var t := Step(b, Fire(i, at));
    assert b.log <= t.log;
    if TimedOutSince(b.log, n, key, timer) {
      StillTimedOut(b.log, t.log, n, key, timer);
    } else if Due(b, i) && b.goroutines[i].key == key {
      assert TimeoutOf(t.log[|b.log|], key, timer);
    }
  }

  lemma {:induction false} ActAwaited(b: Backend, act: Act, n: nat, g: nat, key: ClientKey, timer: Timer)
    requires Awaited(b, n, g, key, timer) && !act.Fire? && !act.Restart?
    requires (act.CancelClient? || act.Schedule?) ==> act.key != key
    ensures Awaited(Step(b, act), n, g, key, timer)
  {
    StepAdds(b, act);
    if TimedOutSince(b.log, n, key, timer) { StillTimedOut(b.log, Step(b, act).log, n, key, timer); }
  }

  lemma {:induction false} InputAwaited(b: Backend, input: Input, n: nat, g: nat, key: ClientKey, timer: Timer)
    requires Awaited(b, n, g, key, timer) && Silent(input, key)
    ensures Awaited(Steps(b, ActsOf(input)), n, g, key, timer)
  {
    var acts := ActsOf(input);
    StepsOne(b, acts);
    match input
    case Fired(i, at) => FireAwaited(b, i, at, n, g, key, timer);
    case Appended(_, _, _) => ActAwaited(b, acts[0], n, g, key, timer);
    case Handled(_) =>
      ActAwaited(b, acts[0], n, g, key, timer);
      if |acts| == 2 { ActAwaited(Step(b, acts[0]), acts[1], n, g, key, timer); }
  }

  lemma {:induction false} DropAwaited(inputs: seq<Input>, m: Message, reason: string, at: int)
    requires reason != "clean"
    ensures var (b, t) := (After(inputs), After(inputs + [Handled(Disconnected(m, reason, at))]));
      && Awaited(t, |t.log|, |b.goroutines|, KeyOf(m), TimerOf(m)) && Due(t, |b.goroutines|)
  {
    var input := Handled(Disconnected(m, reason, at));
    AfterInput(inputs, input);
    StepsOne(After(inputs), ActsOf(input));
    AfterSteps(inputs);
    FinishedStarted(Flatten(inputs));
  }

  /** Only goroutines that were started have finished. */
  ghost predicate Started(b: Backend) {
    forall i :: i in b.finished ==> i < |b.goroutines|
  }

  lemma {:induction false} StepStarted(b: Backend, act: Act)
    requires Started(b)
    ensures Started(Step(b, act))
  {
  }

  lemma {:induction false} FinishedStarted(acts: seq<Act>)
    ensures Started(Run(acts))
    decreases |acts|
  {
    if acts != [] {
      FinishedStarted(acts[..|acts| - 1]);
      StepStarted(Run(acts[..|acts| - 1]), acts[|acts| - 1]);
    }
  }

  lemma {:induction false} SilenceAwaited(b: Backend, between: seq<Input>, n: nat, g: nat, key: ClientKey, timer: Timer)
    requires Awaited(b, n, g, key, timer) && AllSilent(between, key)
    ensures Awaited(Play(b, between), n, g, key, timer)
    decreases |between|
  {
    if between != [] {
      var (front, last) := (between[..|between| - 1], between[|between| - 1]);
      SilenceAwaited(b, front, n, g, key, timer);
      assert Silent(last, key);
      InputAwaited(Play(b, front), last, n, g, key, timer);
    }
  }

  /** A client that drops and stays away times out: an unclean disconnected message handled to
      the end starts a goroutine, and if no message or announcement of the client and no
      restart follows, then once that goroutine has fired the log has, since the message, a
      reconnect timeout that names it. */
  lemma {:induction false} SilentTimesOut(inputs: seq<Input>, m: Message, reason: string, at: int, between: seq<Input>,
                                          later: int)
    requires reason != "clean" && AllSilent(between, KeyOf(m))
    ensures var (b, t) := (After(inputs), After(inputs + [Handled(Disconnected(m, reason, at))]));
      TimedOutSince(After(inputs + [Handled(Disconnected(m, reason, at))] + between + [Fired(|b.goroutines|, later)]).log,
                    |t.log|, KeyOf(m), TimerOf(m))
  {
    var (g, dropped) := (|After(inputs).goroutines|, inputs + [Handled(Disconnected(m, reason, at))]);
    var n := |After(dropped).log|;
    DropAwaited(inputs, m, reason, at);
    SilenceAwaited(After(dropped), between, n, g, KeyOf(m), TimerOf(m));
    PlaySplit(START, dropped, between);
    var b := After(dropped + between);
    AfterFiring(dropped + between, g, later);
    FireAwaited(b, g, later, n, g, KeyOf(m), TimerOf(m));
  }

  /** Nothing in `between` fires for the client. */
  ghost predicate FiresElsewhere(b: Backend, between: seq<Input>, key: ClientKey) {
    forall l :: 0 <= l < |between| ==> FiresForOther(Play(b, between[..l]), between[l], key)
  }

  predicate FiresForOther(b: Backend, input: Input, key: ClientKey) {
    input.Fired? && input.goroutine < |b.goroutines| ==> b.goroutines[input.goroutine].key != key
  }

  lemma {:induction false} InputDue(b: Backend, input: Input, g: nat, key: ClientKey)
    requires Due(b, g) && b.goroutines[g].key == key && Silent(input, key) && FiresForOther(b, input, key)
    ensures Due(Steps(b, ActsOf(input)), g) && Steps(b, ActsOf(input)).goroutines[g] == b.goroutines[g]
  {
    StepsOne(b, ActsOf(input));
  }

  lemma {:induction false} SilenceDue(b: Backend, between: seq<Input>, g: nat, key: ClientKey)
    requires Due(b, g) && b.goroutines[g].key == key && AllSilent(between, key) && FiresElsewhere(b, between, key)
    ensures Due(Play(b, between), g) && Play(b, between).goroutines[g] == b.goroutines[g]
    decreases |between|
  {
    if between != [] {
      var (front, last) := (between[..|between| - 1], between[|between| - 1]);
      FrontElsewhere(b, between, key);
      SilenceDue(b, front, g, key);
      assert Silent(last, key);
      InputDue(Play(b, front), last, g, key);
    }
  }

  lemma {:induction false} FrontElsewhere(b: Backend, between: seq<Input>, key: ClientKey)
    requires between != [] && FiresElsewhere(b, between, key)
    ensures FiresElsewhere(b, between[..|between| - 1], key)
    ensures FiresForOther(Play(b, between[..|between| - 1]), between[|between| - 1], key)
  {
    var front := between[..|between| - 1];
    forall l | 0 <= l < |front| ensures FiresForOther(Play(b, front[..l]), front[l], key) {
      assert FiresForOther(Play(b, between[..l]), between[l], key);
      assert front[..l] == between[..l];
    }
  }

  /** If meanwhile no goroutine fires for the client, it is this very firing that logs the
      timeout. */
  lemma {:induction false} FiringTimesOut(inputs: seq<Input>, m: Message, reason: string, at: int, between: seq<Input>,
                                          later: int)
    requires reason != "clean" && AllSilent(between, KeyOf(m))
    requires FiresElsewhere(After(inputs + [Handled(Disconnected(m, reason, at))]), between, KeyOf(m))
    ensures var waiting := inputs + [Handled(Disconnected(m, reason, at))] + between;
      var (n, log) := (|After(waiting).log|, After(waiting + [Fired(|After(inputs).goroutines|, later)]).log);
      log == After(waiting).log + [Event(n + 1, m.account, later, ReconnectTimeout(m.client, m.connection, m.request))]
  {
    var (g, dropped) := (|After(inputs).goroutines|, inputs + [Handled(Disconnected(m, reason, at))]);
    DropAwaited(inputs, m, reason, at);
    SilenceDue(After(dropped), between, g, KeyOf(m));
    PlaySplit(START, dropped, between);
    AfterFiring(dropped + between, g, later);
  }

  /** A restart forgets every timer: until another client drops, no firing is due. */
  lemma {:induction false} RestartForgets(inputs: seq<Input>, restart: Input, g: nat)
    requires restart.Restarted? || restart.CutShort?
    ensures !Due(After(inputs + [restart]), g) && After(inputs + [restart]).timers == map[]
  {
    AfterInput(inputs, restart);
    StepsOne(After(inputs), ActsOf(restart));
  }

  // ---------------------------------------------------------------- what the events say

  /** What event `x` of the log says is what the input that appended it brought. */
  predicate Says(input: Input, e: Event) {
    match e.data
    case ClientConnected(client, connection, request) =>
      input.Handled? && input.delivery == Connected(Message(e.accountId, client, connection, request), e.at)
    case ClientDisconnected(client, connection, request, reason, closeCode) =>
      && Arrives(input) && input.delivery == Disconnected(Message(e.accountId, client, connection, request), reason, e.at)
      && closeCode == 0
    case ReconnectTimeout(_, _, _) => input.Fired? && input.at == e.at
    case _ =>
      || (input.Appended? && input.accountId == e.accountId && input.at == e.at && input.data == e.data)
      || (input.Handled? && input.delivery.Announced? && input.delivery.account == e.accountId
          && input.delivery.at == e.at && input.delivery.session == e.data)
  }

  lemma {:induction false} StepSays(b: Backend, act: Act)
    ensures var t := Step(b, act);
      |t.log| > |b.log| ==>
        var e := t.log[|b.log|];
        && t.log == b.log + [e] && e.clock == |b.log| + 1
        && match act
           case PutConnected(m, at) => e.accountId == m.account && e.at == at && e.data == ClientConnected(m.client, m.connection, m.request)
           case PutDisconnected(m, reason, at) =>
             e.accountId == m.account && e.at == at && e.data == ClientDisconnected(m.client, m.connection, m.request, reason, 0)
           case OtherAppend(accountId, at, data) => e.accountId == accountId && e.at == at && e.data == data && Foreign(data)
           case Fire(_, at) => e.at == at && e.data.ReconnectTimeout?
           case _ => false
  {
  }

  lemma {:induction false} InputSays(b: Backend, input: Input)
    ensures var t := Steps(b, ActsOf(input));
      && b.log <= t.log && |t.log| <= |b.log| + 1
      && (|t.log| > |b.log| ==> t.log[|b.log|].clock == |b.log| + 1 && Says(input, t.log[|b.log|]))
  {
    var acts := ActsOf(input);
    StepsOne(b, acts);
    StepSays(b, acts[0]);
    StepAdds(b, acts[0]);
    if |acts| == 2 {
      StepSays(Step(b, acts[0]), acts[1]);
      StepAdds(Step(b, acts[0]), acts[1]);
    }
  }

  ghost predicate Said(inputs: seq<Input>, k: nat, x: nat, e: Event) {
    k < |inputs| && |After(inputs[..k]).log| == x && e.clock == x + 1 && Says(inputs[k], e)
  }

  /** Nothing in the log is made up: each event carries its place in the log, and everything
      else in it, the reason of a disconnect included, is what a message, an announcement or
      another append brought; a logged disconnect has close code 0. */
  lemma {:induction false} NothingMadeUp(inputs: seq<Input>, x: nat)
    requires x < |After(inputs).log|
    ensures exists k: nat :: Said(inputs, k, x, After(inputs).log[x])
    decreases |inputs|
  {
    assert inputs != [];
    var (front, e) := (inputs[..|inputs| - 1], After(inputs).log[x]);
    var (b, t, last) := (After(front), After(inputs), inputs[|inputs| - 1]);
    InputSays(b, last);
    if x < |b.log| {
      NothingMadeUp(front, x);
      var k: nat :| Said(front, k, x, e);
      SaidLater(inputs, k, x, e);
    } else {
      assert Said(inputs, |front|, x, e);
    }
  }

  lemma {:induction false} SaidLater(inputs: seq<Input>, k: nat, x: nat, e: Event)
    requires inputs != [] && Said(inputs[..|inputs| - 1], k, x, e)
    ensures Said(inputs, k, x, e)
  {
    assert inputs[..|inputs| - 1][..k] == inputs[..k];
  }

  /** An announcement, and whatever else the other writers append, does reach the log. */
  lemma {:induction false} AppendsReachTheLog(inputs: seq<Input>, accountId: string, client: string, at: int, data: Data)
    requires Foreign(data)
    ensures var (log, e) := (After(inputs).log, Event(|After(inputs).log| + 1, accountId, at, data));
      && After(inputs + [Appended(accountId, at, data)]).log == log + [e]
      && After(inputs + [Handled(Announced(accountId, client, data, at))]).log == log + [e]
  {
    var (one, two) := (Appended(accountId, at, data), Handled(Announced(accountId, client, data, at)));
    AfterInput(inputs, one);
    AfterInput(inputs, two);
    StepsOne(After(inputs), ActsOf(one));
    StepsOne(After(inputs), ActsOf(two));
  }
}
