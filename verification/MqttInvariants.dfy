/** What every run of the MQTT client service keeps: which filters the broker has been
    asked for, which publishes are still owed, and how statuses and publishes are ordered. */
module MqttInvariants {
  import opened Options
  import opened MqttMachine

  // ---------------------------------------------------------------- the invariant

  ghost predicate AllBelow(ids: set<Uuid>, bound: Uuid) {
    forall id :: id in ids ==> id < bound
  }

  /** Each count is the number of open subscriptions on its filter, and is never zero. */
  ghost predicate CountsOpen(subscriptions: map<Uuid, string>, refs: map<string, nat>) {
    && (forall filter :: filter in refs <==> OpenSubscriptions(subscriptions, filter) != {})
    && (forall filter :: filter in refs ==> refs[filter] == |OpenSubscriptions(subscriptions, filter)|)
  }

  /** The live client is the one that connected last, and it has been asked for exactly
      the counted filters. */
  ghost predicate Covered(s: Service) {
    && (s.state.Live() ==>
        && Read(s.record).connected == Some(s.state.link.connectionId)
        && Read(s.record).net == s.refs.Keys)
    && (s.state.Subscribing() ==> {} < s.state.pending <= s.refs.Keys)
  }

  /** Nothing accepted since the last drop is lost, repeated or reordered. */
  ghost predicate Conserved(s: Service) {
    Read(s.record).accepted == Read(s.record).handed + Items(s.state.Queue())
  }

  /** Entry `e` is allowed after what was read so far: a connected status is the first
      since the last accepted connect and has a new request id, a publish comes after it,
      and every call is made on the client that connected last. */
  predicate MayFollow(r: Reading, e: Entry) {
    match e
    case ConnectedStatus(link) =>
      r.statuses == 0 && r.connected == Some(link.connectionId) && link.requestId !in r.requests
    case Published(id, _, _) => r.statuses == 1 && r.connected == Some(id)
    case Subscribed(id, _, _) => r.connected == Some(id)
    case Unsubscribed(id, _, _) => r.connected == Some(id)
    case _ => true
  }

  predicate InOrder(record: Record) {
    match record
    case Blank => true
    case Then(earlier, last) => InOrder(earlier) && MayFollow(Read(earlier), last)
  }

  ghost predicate Fresh(s: Service) {
    && InOrder(s.record)
    && AllBelow(Read(s.record).requests, s.next)
    && (s.state.HasLink() ==> s.state.link.connectionId < s.next && s.state.link.requestId < s.next)
    && (s.state.Live() ==> Read(s.record).statuses == if s.state.SubscribingOnConnect? then 0 else 1)
    && (s.state.AwaitsConnect() || s.state.SubscribingOnConnect? ==>
        s.state.link.requestId !in Read(s.record).requests)
  }

  /** What holds of a service whatever its queue and what it was asked to publish. */
  ghost predicate InvButQueue(s: Service) {
    && AllBelow(s.subscriptions.Keys, s.next) && CountsOpen(s.subscriptions, s.refs)
    && Covered(s) && Fresh(s)
  }

  ghost predicate Inv(s: Service) {
    InvButQueue(s) && Conserved(s)
  }

  // ---------------------------------------------------------------- the building blocks

  lemma {:induction false} ItemsSplit(a: seq<Command>, b: seq<Command>)
    ensures Items(a + b) == Items(a) + Items(b)
  {
    if a != [] {
      assert (a + b)[1..] == a[1..] + b;
      ItemsSplit(a[1..], b);
    } else {
      assert a + b == b;
    }
  }

  lemma {:induction false} ReplayReads(s: Service, link: Link, commands: seq<Command>)
    ensures var t := Replay(s, link, commands);
      && t == s.(record := t.record)
      && Read(t.record) == Read(s.record).(handed := Read(s.record).handed + Items(commands))
    decreases |commands|
  {
    if commands != [] {
      if commands[0].PublishCommand? {
        var (e, r) := (Published(link.connectionId, link.account, commands[0].item), Read(s.record));
        assert Read(Emit(s, e).record) == r.(handed := r.handed + [commands[0].item]);
        ReplayReads(Emit(s, e), link, commands[1..]);
        assert r.handed + [commands[0].item] + Items(commands[1..]) == r.handed + Items(commands);
      } else {
        ReplayReads(s, link, commands[1..]);
      }
    }
  }

  lemma {:induction false} ReplayInOrder(s: Service, link: Link, commands: seq<Command>)
    requires Read(s.record).statuses == 1 && Read(s.record).connected == Some(link.connectionId) && InOrder(s.record)
    ensures InOrder(Replay(s, link, commands).record)
    decreases |commands|
  {
    if commands != [] {
      ReplayInOrder(if commands[0].PublishCommand?
                    then Emit(s, Published(link.connectionId, link.account, commands[0].item)) else s,
                    link, commands[1..]);
    }
  }

  lemma ReplayKeeps(s: Service, link: Link, commands: seq<Command>)
    requires Read(s.record).statuses == 1 && Read(s.record).connected == Some(link.connectionId) && InOrder(s.record)
    ensures var t := Replay(s, link, commands);
      && t == s.(record := t.record)
      && Read(t.record) == Read(s.record).(handed := Read(s.record).handed + Items(commands))
      && InOrder(t.record)
  {
    ReplayReads(s, link, commands);
    ReplayInOrder(s, link, commands);
  }

  /** A queue leaves with the connected status in front of it. */
  lemma FinishConnectKeeps(s: Service, link: Link, commands: seq<Command>)
    requires InOrder(s.record)
    requires Read(s.record).statuses == 0 && Read(s.record).connected == Some(link.connectionId)
    requires link.requestId !in Read(s.record).requests
    ensures var (r, t) := (Read(s.record), FinishConnect(s, link, commands));
      && t == s.(state := Connected(link), record := t.record)
      && InOrder(t.record)
      && Read(t.record) == r.(statuses := 1, requests := r.requests + {link.requestId},
                              handed := r.handed + Items(commands))
  {
    var told := Emit(s, ConnectedStatus(link));
    ReplayKeeps(told, link, commands);
    var replayed := Replay(told, link, commands);
  }

  lemma ChangeKeeps(s: Service, after: State)
    ensures InOrder(SetState(s, after).record) == InOrder(s.record)
    ensures Read(SetState(s, after).record) ==
      if after.Ready? || after.AwaitingLogin? then Read(s.record).(accepted := [], handed := [])
      else Read(s.record)
  {
  }

  lemma ConnectMqttKeeps(s: Service, account: string, commands: seq<Command>)
    requires Inv(s) && !s.state.Live() && s.state.Queue() == commands
    ensures Inv(ConnectMqtt(s, account, commands))
  {
    var link := Link(account, s.next, s.next + 1);
    ChangeKeeps(Emit(s, Opened(link)), Connecting(link, commands));
  }

  /** Received, when it is not an accepted publish or connect, is read as nothing. */
  lemma ReceivedKeeps(s: Service, input: Input, accepted: bool)
    requires Inv(s) && !(accepted && (input.CallPublish? || input.OnConnect?))
    ensures Inv(Emit(s, Received(input, accepted)))
    ensures Read(Emit(s, Received(input, accepted)).record) == Read(s.record)
  {
  }

  // ---------------------------------------------------------------- each step

  lemma AuthorizationKeeps(s: Service, login: bool, token: bool, account: Option<string>)
    requires Inv(s)
    ensures Inv(StepAuthorization(s, login, token, account))
  {
    var t := StepAuthorization(s, login, token, account);
    if s.state.WaitingForAccessTokenToConnect? && !login && token && account.Some? {
      ConnectMqttKeeps(s, account.value, s.state.commands);
    } else if t != s {
      ChangeKeeps(s, t.state);
    }
  }

  lemma ConnectCallKeeps(s: Service)
    requires Inv(s)
    ensures Inv(StepConnectCall(s))
  {
    if s.state.Ready? {
      ConnectMqttKeeps(s, s.state.account, []);
    } else {
      ChangeKeeps(s, WaitingForAccessTokenToConnect([]));
    }
  }

  lemma DisconnectCallKeeps(s: Service)
    requires Inv(s)
    ensures Inv(StepDisconnectCall(s))
  {
    if s.state.HasLink() {
      var told := if s.state.Connected? then Emit(s, DisconnectedStatus(s.state.link)) else s;
      ChangeKeeps(Emit(told, Ended(s.state.link.connectionId)), Ready(s.state.link.account));
    }
  }

  lemma ReconnectKeeps(s: Service, id: Uuid)
    requires Inv(s)
    ensures Inv(StepReconnectEvent(s, id))
  {
    if !s.state.Connecting? && s.state.IsFor(id) {
      var link := s.state.link.(requestId := s.next);
      ChangeKeeps(s.(next := s.next + 1), OfflineAndReconnecting(link, s.state.Queue()));
    }
  }

  lemma DropKeeps(s: Service, id: Uuid)
    requires Inv(s)
    ensures Inv(StepDropEvent(s, id))
  {
    if !s.state.Connecting? && !s.state.Offline? && s.state.IsFor(id) {
      ChangeKeeps(s, Offline(s.state.link, s.state.Queue()));
    }
  }

  lemma QueueKeeps(s: Service, queue: seq<Command>)
    requires InvButQueue(s) && s.state.TakesPublishes() && !s.state.Connected?
    ensures var t := SetState(s, s.state.WithQueue(queue));
      InvButQueue(t) && Read(t.record) == Read(s.record) && t.state.Queue() == queue
  {
  }

  /** An accepted publish joins the queue or goes to the client at once. */
  lemma PublishKeeps(s: Service, item: Item)
    requires Inv(s)
    ensures Inv(Step(s, CallPublish(item)))
  {
    var received := Emit(s, Received(CallPublish(item), s.state.TakesPublishes()));
    assert InvButQueue(received);
    if s.state.TakesPublishes() && !s.state.Connected? {
      QueueKeeps(received, s.state.Queue() + [PublishCommand(item)]);
      ItemsSplit(s.state.Queue(), [PublishCommand(item)]);
      assert Items([PublishCommand(item)]) == [item];
    }
  }

  lemma ConnectEventKeeps(s: Service, id: Uuid)
    requires Inv(s)
    ensures Inv(Step(s, OnConnect(id)))
  {
    var e := Received(OnConnect(id), Accepts(s, OnConnect(id)));
    if Accepts(s, OnConnect(id)) {
      var received := Emit(s, e);
      var (link, commands) := (s.state.link, s.state.commands);
      if s.refs.Keys == {} {
        FinishConnectKeeps(received, link, commands);
      } else {
        var on := SubscribingOnConnect(link, commands, s.refs.Keys);
        ChangeKeeps(received, on);
      }
    }
  }

  lemma ShrinkKeeps(s: Service, pending: set<string>)
    requires AllBelow(s.subscriptions.Keys, s.next) && CountsOpen(s.subscriptions, s.refs)
    requires Conserved(s) && Fresh(s) && s.state.Subscribing()
    requires Read(s.record).connected == Some(s.state.link.connectionId)
    requires pending <= Read(s.record).net == s.refs.Keys
    ensures Inv(ShrinkPending(s, pending))
  {
    var (link, commands) := (s.state.link, s.state.commands);
    if pending != {} {
      ChangeKeeps(s, KeepSubscribing(s, commands, pending).state);
    } else if s.state.SubscribingOnConnect? {
      FinishConnectKeeps(s, link, commands);
    } else {
      ReplayKeeps(s, link, commands);
      ChangeKeeps(Replay(s, link, commands), Connected(link));
    }
  }

  lemma CallbackKeeps(s: Service, filters: set<string>)
    requires Inv(s)
    ensures Inv(StepCallback(s, filters))
  {
    if s.state.Subscribing() && s.state.pending - filters != s.state.pending {
      ShrinkKeeps(s, s.state.pending - filters);
    }
  }

  lemma CountsAfterAdding(subscriptions: map<Uuid, string>, refs: map<string, nat>, id: Uuid, filter: string)
    requires CountsOpen(subscriptions, refs) && id !in subscriptions
    ensures CountsOpen(subscriptions[id := filter], Increment(refs, filter))
    ensures Increments(refs, filter) <==> filter !in refs
  {
    var after := subscriptions[id := filter];
    assert OpenSubscriptions(after, filter) == OpenSubscriptions(subscriptions, filter) + {id};
    forall other | other != filter ensures OpenSubscriptions(after, other) == OpenSubscriptions(subscriptions, other) {
    }
    if filter in refs { assert OpenSubscriptions(subscriptions, filter) != {}; }
  }

  lemma CountsAfterRemoving(subscriptions: map<Uuid, string>, refs: map<string, nat>, id: Uuid)
    requires CountsOpen(subscriptions, refs) && id in subscriptions
    ensures CountsOpen(subscriptions - {id}, Decrement(refs, subscriptions[id]))
    ensures subscriptions[id] in refs
  {
    var filter := subscriptions[id];
    var after := subscriptions - {id};
    var was := OpenSubscriptions(subscriptions, filter);
    assert id in was;
    assert OpenSubscriptions(after, filter) == was - {id};
    assert refs[filter] == |was|;
    if refs[filter] <= 1 { assert |was - {id}| == 0; } else { assert |was - {id}| > 0; }
    forall other | other != filter ensures OpenSubscriptions(after, other) == OpenSubscriptions(subscriptions, other) {
    }
  }

  /** A filter is asked for when its first subscription opens; a refused subscription
      leaves the counts and the subscriptions as they were. */
  lemma SubscribeKeeps(s: Service, filter: string)
    requires Inv(s)
    ensures Inv(StepSubscribe(s, filter))
  {
    if Accepts(s, CallSubscribe(filter)) {
      CountsAfterAdding(s.subscriptions, s.refs, s.next, filter);
      if Increments(s.refs, filter) {
        StateSubscribeKeeps(s, filter);
      } else {
        assert Increment(s.refs, filter).Keys == s.refs.Keys;
      }
    }
  }

  lemma StateSubscribeKeeps(s: Service, filter: string)
    requires Inv(s) && s.state.TakesPublishes() && Increments(s.refs, filter)
    requires CountsOpen(s.subscriptions[s.next := filter], Increment(s.refs, filter)) && filter !in s.refs
    ensures Inv(StepSubscribe(s, filter))
  {
    var added := s.(next := s.next + 1, subscriptions := s.subscriptions[s.next := filter],
                    refs := Increment(s.refs, filter));
    assert added.refs.Keys == s.refs.Keys + {filter};
    assert AllBelow(added.subscriptions.Keys, added.next);
    if s.state.Live() {
      LiveSubscribeKeeps(added, filter);
    } else {
      assert Inv(added);
      if !s.state.Offline? && !s.state.OfflineAndReconnecting? {
        QueueKeeps(added, s.state.Queue() + [SubscribeCommand(filter)]);
        ItemsSplit(s.state.Queue(), [SubscribeCommand(filter)]);
        assert Items([SubscribeCommand(filter)]) == [];
      }
    }
  }

  lemma LiveSubscribeKeeps(s: Service, filter: string)
    requires AllBelow(s.subscriptions.Keys, s.next) && CountsOpen(s.subscriptions, s.refs)
    requires Conserved(s) && Fresh(s) && s.state.Live()
    requires Read(s.record).connected == Some(s.state.link.connectionId)
    requires s.refs.Keys == Read(s.record).net + {filter}
    requires s.state.Subscribing() ==> {} < s.state.pending <= s.refs.Keys && filter !in s.state.pending
    ensures Inv(LiveSubscribe(s, filter))
  {
    if s.state.Connected? {
      SubscribedKeeps(s, SubscribingAfterConnected(s.state.link, [], {filter}), filter);
    } else {
      SubscribedKeeps(s, KeepSubscribing(s, s.state.commands, s.state.pending + {filter}).state, filter);
    }
  }

  /** The change of state, then the call on the client. */
  lemma SubscribedKeeps(s: Service, after: State, filter: string)
    requires AllBelow(s.subscriptions.Keys, s.next) && CountsOpen(s.subscriptions, s.refs)
    requires Conserved(s) && Fresh(s) && s.state.Live()
    requires Read(s.record).connected == Some(s.state.link.connectionId)
    requires s.refs.Keys == Read(s.record).net + {filter}
    requires after.Subscribing() && after.link == s.state.link && after.Queue() == s.state.Queue()
    requires after.SubscribingOnConnect? <==> s.state.SubscribingOnConnect?
    requires {} < after.pending <= s.refs.Keys
    ensures Inv(Emit(SetState(s, after), Subscribed(after.link.connectionId, after.link.account, {filter})))
  {
    ChangeKeeps(s, after);
  }

  lemma CloseKeeps(s: Service, id: Uuid)
    requires Inv(s)
    ensures Inv(StepClose(s, id))
  {
    if id in s.subscriptions {
      var filter := s.subscriptions[id];
      var removed := s.(subscriptions := s.subscriptions - {id}, refs := Decrement(s.refs, filter));
      CountsAfterRemoving(s.subscriptions, s.refs, id);
      if DropsLast(s.refs, filter) {
        assert removed.refs.Keys == s.refs.Keys - {filter};
        if s.state.Live() {
          var e := Unsubscribed(s.state.link.connectionId, s.state.link.account, filter);
          if s.state.Subscribing() { ShrinkKeeps(Emit(removed, e), s.state.pending - {filter}); }
        }
      } else {
        assert removed.refs.Keys == s.refs.Keys;
      }
    }
  }

  // ---------------------------------------------------------------- every run

  lemma StepKeeps(s: Service, input: Input)
    requires Inv(s)
    ensures Inv(Step(s, input))
  {
    match input
    case CallPublish(item) => PublishKeeps(s, item);
    case OnConnect(id) => ConnectEventKeeps(s, id);
    case _ =>
      ReceivedKeeps(s, input, Accepts(s, input));
      OtherKeeps(s, input, Emit(s, Received(input, Accepts(s, input))));
  }

  lemma OtherKeeps(s: Service, input: Input, received: Service)
    requires Inv(received) && !input.CallPublish? && !input.OnConnect?
    requires received == Emit(s, Received(input, Accepts(s, input)))
    ensures Inv(Step(s, input))
  {
    match input
    case CallConnect => ConnectCallKeeps(received);
    case CallDisconnect => DisconnectCallKeeps(received);
    case CallSubscribe(filter) => SubscribeKeeps(received, filter);
    case CallClose(id) => CloseKeeps(received, id);
    case AuthorizationChanged(login, token, account) => AuthorizationKeeps(received, login, token, account);
    case OnReconnect(id) => ReconnectKeeps(received, id);
    case OnClose(id) => DropKeeps(received, id);
    case OnOffline(id) => DropKeeps(received, id);
    case OnSubscribeCallback(filters) => CallbackKeeps(received, filters);
    case _ =>
  }

  ghost predicate Reachable(s: Service) {
    exists login, token, account, inputs :: s == Run(Initial(login, token, account), inputs)
  }

  lemma {:induction false} RunKeeps(s: Service, inputs: seq<Input>)
    requires Inv(s)
    ensures Inv(Run(s, inputs))
    decreases |inputs|
  {
    if inputs != [] {
      RunKeeps(s, inputs[..|inputs| - 1]);
      StepKeeps(Run(s, inputs[..|inputs| - 1]), inputs[|inputs| - 1]);
    }
  }

  lemma ReachableInv(s: Service)
    requires Reachable(s)
    ensures Inv(s)
  {
    var login, token, account, inputs :| s == Run(Initial(login, token, account), inputs);
    RunKeeps(Initial(login, token, account), inputs);
  }

  /** Subscription coverage: whatever happened before, a client that is connected has been
      asked, since its last accepted connect event, for exactly the filters with a count;
      each count is the number of open subscriptions; and while subscribing, what is
      still pending is a non-empty part of those filters. */
  lemma SubscriptionCoverage(s: Service)
    requires Reachable(s)
    ensures s.state.Live() ==>
      Read(s.record).connected == Some(s.state.link.connectionId) && Read(s.record).net == s.refs.Keys
    ensures s.state.Subscribing() ==> {} < s.state.pending <= s.refs.Keys
    ensures forall filter :: filter in s.refs <==> exists id :: id in OpenSubscriptions(s.subscriptions, filter)
    ensures forall filter :: filter in s.refs ==> s.refs[filter] == |OpenSubscriptions(s.subscriptions, filter)| > 0
  {
    ReachableInv(s);
    forall filter | filter in s.refs ensures |OpenSubscriptions(s.subscriptions, filter)| > 0 {
      assert OpenSubscriptions(s.subscriptions, filter) != {};
    }
  }

  /** Queue conservation. */
  lemma QueueConservation(s: Service)
    requires Reachable(s)
    ensures Read(s.record).accepted == Read(s.record).handed + Items(s.state.Queue())
    ensures s.state.Connected? ==> Read(s.record).accepted == Read(s.record).handed
  {
    ReachableInv(s);
  }

  /** Status freshness, at every point of the record of every run: a connected status is
      the first since the last accepted connect and carries a request id no earlier status
      carried; each publish follows the one status of its connect; and all of them are
      made on the client that connected last. */
  lemma StatusFreshness(s: Service, earlier: Record, e: Entry)
    requires Reachable(s) && Prefix(Then(earlier, e), s.record)
    ensures match e
      case ConnectedStatus(link) =>
        && Read(earlier).statuses == 0 && Read(earlier).connected == Some(link.connectionId)
        && link.requestId !in Read(earlier).requests
      case Published(id, _, _) => Read(earlier).statuses == 1 && Read(earlier).connected == Some(id)
      case _ => true
  {
    ReachableInv(s);
    InOrderAt(s.record, earlier, e);
  }

  predicate Prefix(shorter: Record, record: Record) {
    shorter == record || (record.Then? && Prefix(shorter, record.earlier))
  }

  lemma {:induction false} InOrderAt(record: Record, earlier: Record, e: Entry)
    requires InOrder(record) && Prefix(Then(earlier, e), record)
    ensures MayFollow(Read(earlier), e)
  {
    if record != Then(earlier, e) { InOrderAt(record.earlier, earlier, e); }
  }

  lemma {:induction false} RequestsOf(record: Record, earlier: Record, link: Link)
    requires Prefix(Then(earlier, ConnectedStatus(link)), record)
    ensures link.requestId in Read(record).requests
  {
    if record != Then(earlier, ConnectedStatus(link)) { RequestsOf(record.earlier, earlier, link); }
  }

  /** No two connected statuses of a run carry the same request id. */
  lemma RequestIdsDistinct(s: Service, first: Record, link: Link, second: Record, other: Link)
    requires Reachable(s) && Prefix(Then(second, ConnectedStatus(other)), s.record)
    requires Prefix(Then(first, ConnectedStatus(link)), second)
    ensures link.requestId != other.requestId
  {
    StatusFreshness(s, second, ConnectedStatus(other));
    RequestsOf(second, first, link);
  }

  /** Nothing happens but that the event is received. */
  predicate Ignored(s: Service, input: Input) {
    Step(s, input) == Emit(s, Received(input, Accepts(s, input)))
  }

  lemma IgnoredNow(s: Service, id: Uuid)
    requires !s.state.IsFor(id)
    ensures Ignored(s, OnConnect(id)) && Ignored(s, OnReconnect(id)) && Ignored(s, OnClose(id)) && Ignored(s, OnOffline(id))
  {
  }

  /** Once a client is not the current one, its events change nothing, then or later. */
  lemma {:induction false} OlderClientIgnored(s: Service, inputs: seq<Input>, id: Uuid)
    requires id < s.next && !s.state.IsFor(id)
    ensures var later := Run(s, inputs);
      && id < later.next && !later.state.IsFor(id)
      && Ignored(later, OnConnect(id)) && Ignored(later, OnReconnect(id)) && Ignored(later, OnClose(id)) && Ignored(later, OnOffline(id))
    decreases |inputs|
  {
    if inputs != [] {
      var front := inputs[..|inputs| - 1];
      OlderClientIgnored(s, front, id);
      LinkOnlyGrows(Run(s, front), inputs[|inputs| - 1]);
    }
    IgnoredNow(Run(s, inputs), id);
  }

  /** A step keeps the client, lets it go, or makes one with a connection id never drawn before. */
  lemma LinkOnlyGrows(s: Service, input: Input)
    ensures var t := Step(s, input);
      && s.next <= t.next
      && (t.state.HasLink() ==> s.state.IsFor(t.state.link.connectionId) || t.state.link.connectionId >= s.next)
  {
    var received := Emit(s, Received(input, Accepts(s, input)));
    if s.state.HasLink() {
      forall r: Service, commands: seq<Command> { ReplayFrame(r, s.state.link, commands); }
    }
  }

  lemma ReplayFrame(s: Service, link: Link, commands: seq<Command>)
    ensures var t := Replay(s, link, commands);
      t == s.(record := t.record) && Read(t.record).promised == Read(s.record).promised
  {
    ReplayReads(s, link, commands);
  }
}
