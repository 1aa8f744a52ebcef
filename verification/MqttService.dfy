/** The service as an object whose handlers replace its state, draw uuids, update the
    subscription maps and call the MQTT client (each call is noted in `record`). Every
    handler is one step of MqttMachine, so all of MqttInvariants holds of it. */
module MqttService {
  import opened Options
  import opened MqttMachine
  import opened MqttInvariants

  class Service {
    var state: State
    var subscriptions: map<Uuid, string>
    var topicFilterRefCounts: map<string, nat>
    var nextUuid: Uuid
    var record: Record

    ghost function Model(): MqttMachine.Service
      reads this
    {
      MqttMachine.Service(state, subscriptions, topicFilterRefCounts, nextUuid, record)
    }

    ghost predicate Valid()
      reads this
    {
      Inv(Model())
    }

    constructor (loginRequired: bool, tokenAvailable: bool, account: string)
      ensures Valid() && Model() == Initial(loginRequired, tokenAvailable, account)
    {
      if loginRequired {
        state := AwaitingLogin;
      } else if tokenAvailable {
        state := State.Ready(account);
      } else {
        state := WaitingForAccessTokenToBeReady;
      }
      subscriptions, topicFilterRefCounts, nextUuid, record := map[], map[], 0, Blank;
    }

    method Note(e: Entry)
      modifies this`record
      ensures Model() == Emit(old(Model()), e)
    {
      record := Then(record, e);
    }

    method NewUuid() returns (id: Uuid)
      modifies this`nextUuid
      ensures id == old(nextUuid) && nextUuid == id + 1
    {
      id := nextUuid;
      nextUuid := nextUuid + 1;
    }

    method ReplaceState(after: State)
      modifies this`state, this`record
      ensures Model() == SetState(old(Model()), after)
    {
      Note(Changed(state, after));
      state := after;
    }

    // -------------------------------------------------------------- shared transitions

    method OpenClient(account: string, commands: seq<Command>)
      modifies this
      ensures Model() == ConnectMqtt(old(Model()), account, commands)
    {
      var connectionId := NewUuid();
      var requestId := NewUuid();
      var link := Link(account, connectionId, requestId);
      Note(Opened(link));
      ReplaceState(Connecting(link, commands));
    }

    method ReplayPublishCommands(link: Link, commands: seq<Command>)
      modifies this`record
      ensures Model() == Replay(old(Model()), link, commands)
    {
      var i := 0;
      while i < |commands|
        invariant i <= |commands|
        invariant Replay(Model(), link, commands[i..]) == Replay(old(Model()), link, commands)
        invariant Model() == old(Model()).(record := record)
      {
        if commands[i].PublishCommand? {
          Note(Published(link.connectionId, link.account, commands[i].item));
        }
        assert commands[i..][1..] == commands[i + 1..];
        i := i + 1;
      }
    }

    method BecomeConnected(link: Link, commands: seq<Command>, announce: bool)
      modifies this`state, this`record
      ensures Model() == if announce then FinishConnect(old(Model()), link, commands)
                         else SetState(Replay(old(Model()), link, commands), Connected(link))
    {
      if announce {
        Note(ConnectedStatus(link));
      }
      ReplayPublishCommands(link, commands);
      ReplaceState(Connected(link));
    }

    method SetSubscribingState(commands: seq<Command>, pending: set<string>)
      requires state.Subscribing()
      modifies this`state, this`record
      ensures Model() == KeepSubscribing(old(Model()), commands, pending)
    {
      if state.SubscribingOnConnect? {
        ReplaceState(SubscribingOnConnect(state.link, commands, pending));
      } else {
        ReplaceState(SubscribingAfterConnected(state.link, commands, pending));
      }
    }

    method SetPending(pending: set<string>)
      requires state.Subscribing()
      modifies this`state, this`record
      ensures Model() == ShrinkPending(old(Model()), pending)
    {
      if pending != {} {
        SetSubscribingState(state.commands, pending);
        return;
      }
      BecomeConnected(state.link, state.commands, state.SubscribingOnConnect?);
    }

    // -------------------------------------------------------------- calls

    method Connect()
      requires Valid()
      modifies this
      ensures Valid() && Model() == Step(old(Model()), CallConnect)
    {
      StepKeeps(Model(), CallConnect);
      Note(Received(CallConnect, true));
      match state {
        case WaitingForAccessTokenToBeReady => ReplaceState(WaitingForAccessTokenToConnect([]));
        case Ready(account) => OpenClient(account, []);
        case _ =>
      }
    }

    method Disconnect()
      requires Valid()
      modifies this
      ensures Valid() && Model() == Step(old(Model()), CallDisconnect)
    {
      StepKeeps(Model(), CallDisconnect);
      Note(Received(CallDisconnect, true));
      if state.HasLink() {
        if state.Connected? {
          Note(DisconnectedStatus(state.link));
        }
        Note(Ended(state.link.connectionId));
        ReplaceState(State.Ready(state.link.account));
      }
    }

    method Publish(item: Item) returns (ok: bool)
      requires Valid()
      modifies this
      ensures Valid() && Model() == Step(old(Model()), CallPublish(item))
      ensures ok == Accepts(old(Model()), CallPublish(item))
    {
      StepKeeps(Model(), CallPublish(item));
      ok := state.TakesPublishes();
      Note(Received(CallPublish(item), ok));
      var command := PublishCommand(item);
      match state {
        case WaitingForAccessTokenToConnect(commands) => ReplaceState(WaitingForAccessTokenToConnect(commands + [command]));
        case Connecting(link, commands) => ReplaceState(Connecting(link, commands + [command]));
        case Offline(link, commands) => ReplaceState(Offline(link, commands + [command]));
        case OfflineAndReconnecting(link, commands) => ReplaceState(OfflineAndReconnecting(link, commands + [command]));
        case SubscribingOnConnect(_, commands, pending) => SetSubscribingState(commands + [command], pending);
        case SubscribingAfterConnected(_, commands, pending) => SetSubscribingState(commands + [command], pending);
        case Connected(link) => Note(Published(link.connectionId, link.account, item));
        case _ =>
      }
    }

    method IncrementTopicFilterRefCount(filter: string) returns (first: bool)
      modifies this`topicFilterRefCounts
      ensures topicFilterRefCounts == Increment(old(topicFilterRefCounts), filter)
      ensures first == Increments(old(topicFilterRefCounts), filter)
    {
      var current := if filter in topicFilterRefCounts then topicFilterRefCounts[filter] else 0;
      topicFilterRefCounts := topicFilterRefCounts[filter := current + 1];
      first := current == 0;
    }

    method DecrementTopicFilterRefCount(filter: string) returns (last: bool)
      modifies this`topicFilterRefCounts
      ensures topicFilterRefCounts == Decrement(old(topicFilterRefCounts), filter)
      ensures last == DropsLast(old(topicFilterRefCounts), filter)
    {
      if filter !in topicFilterRefCounts {
        return false;
      }
      var current := topicFilterRefCounts[filter];
      if current <= 1 {
        topicFilterRefCounts := topicFilterRefCounts - {filter};
        return true;
      }
      topicFilterRefCounts := topicFilterRefCounts[filter := current - 1];
      return false;
    }

    /** Opens a subscription; None stands for the error thrown to the caller. */
    method SubscribeWithCallback(filter: string) returns (subscription: Option<Uuid>)
      requires Valid()
      modifies this
      ensures Valid() && Model() == Step(old(Model()), CallSubscribe(filter))
      ensures subscription == if Accepts(old(Model()), CallSubscribe(filter)) then Some(old(nextUuid)) else None
    {
      StepKeeps(Model(), CallSubscribe(filter));
      CountsAfterAdding(subscriptions, topicFilterRefCounts, nextUuid, filter);
      Note(Received(CallSubscribe(filter),
                    (filter in topicFilterRefCounts && topicFilterRefCounts[filter] > 0) || state.TakesPublishes()));
      subscription := AddSubscription(filter);
    }

    /** Adds the subscription first, and takes it back if subscribing throws. */
    method AddSubscription(filter: string) returns (subscription: Option<Uuid>)
      requires nextUuid !in subscriptions && (Increments(topicFilterRefCounts, filter) <==> filter !in topicFilterRefCounts)
      modifies this
      ensures Model() == StepSubscribe(old(Model()), filter)
      ensures subscription == if Accepts(old(Model()), CallSubscribe(filter)) then Some(old(nextUuid)) else None
    {
      var id := NewUuid();
      subscriptions := subscriptions[id := filter];
      var thrown := Subscribe(filter);
      if thrown {
        subscriptions := subscriptions - {id};
        assert subscriptions == old(subscriptions);
        return None;
      }
      return Some(id);
    }

    /** Counts the subscription first, and takes the count back if the state throws. */
    method Subscribe(filter: string) returns (thrown: bool)
      requires Increments(topicFilterRefCounts, filter) <==> filter !in topicFilterRefCounts
      modifies this
      ensures thrown == !Accepts(old(Model()), CallSubscribe(filter))
      ensures var counted := old(Model()).(refs := Increment(old(topicFilterRefCounts), filter));
        Model() == if thrown then old(Model())
                   else if Increments(old(topicFilterRefCounts), filter) then StateSubscribe(counted, filter)
                   else counted
    {
      var first := IncrementTopicFilterRefCount(filter);
      if !first {
        return false;
      }
      thrown := SubscribeInState(filter);
      if thrown {
        var _ := DecrementTopicFilterRefCount(filter);
        assert topicFilterRefCounts == old(topicFilterRefCounts);
      }
    }

    method SubscribeInState(filter: string) returns (thrown: bool)
      modifies this`state, this`record
      ensures thrown == !old(state).TakesPublishes()
      ensures Model() == if thrown then old(Model()) else StateSubscribe(old(Model()), filter)
    {
      thrown := false;
      var command := SubscribeCommand(filter);
      match state {
        case WaitingForAccessTokenToConnect(commands) => ReplaceState(WaitingForAccessTokenToConnect(commands + [command]));
        case Connecting(link, commands) => ReplaceState(Connecting(link, commands + [command]));
        case Offline(_, _) =>
        case OfflineAndReconnecting(_, _) =>
        case SubscribingOnConnect(link, commands, pending) => SubscribeOneMore(filter);
        case SubscribingAfterConnected(link, commands, pending) => SubscribeOneMore(filter);
        case Connected(link) =>
          ReplaceState(SubscribingAfterConnected(link, [], {filter}));
          Note(Subscribed(link.connectionId, link.account, {filter}));
        case _ => thrown := true;
      }
    }

    method SubscribeOneMore(filter: string)
      requires state.Subscribing()
      modifies this`state, this`record
      ensures Model() == LiveSubscribe(old(Model()), filter)
    {
      if filter in state.pending {
        return;
      }
      SetSubscribingState(state.commands, state.pending + {filter});
      Note(Subscribed(state.link.connectionId, state.link.account, {filter}));
    }

    /** Closing a subscription; one already closed is gone from the map. */
    method Close(id: Uuid)
      requires Valid()
      modifies this
      ensures Valid() && Model() == Step(old(Model()), CallClose(id))
    {
      StepKeeps(Model(), CallClose(id));
      Note(Received(CallClose(id), true));
      if id !in subscriptions {
        return;
      }
      var filter := subscriptions[id];
      subscriptions := subscriptions - {id};
      var last := DecrementTopicFilterRefCount(filter);
      if last {
        UnsubscribeInState(filter);
      }
    }

    method UnsubscribeInState(filter: string)
      modifies this`state, this`record
      ensures Model() == StateUnsubscribe(old(Model()), filter)
    {
      if state.Connected? {
        Note(Unsubscribed(state.link.connectionId, state.link.account, filter));
      } else if state.Subscribing() {
        Note(Unsubscribed(state.link.connectionId, state.link.account, filter));
        SetPending(state.pending - {filter});
      }
    }

    // -------------------------------------------------------------- events

    method HandleAuthorizationChanged(loginRequired: bool, tokenAvailable: bool, account: Option<string>)
      requires Valid()
      modifies this
      ensures Valid() && Model() == Step(old(Model()), AuthorizationChanged(loginRequired, tokenAvailable, account))
    {
      StepKeeps(Model(), AuthorizationChanged(loginRequired, tokenAvailable, account));
      Note(Received(AuthorizationChanged(loginRequired, tokenAvailable, account), true));
      match state {
        case AwaitingLogin =>
          if loginRequired { return; }
          if !tokenAvailable {
            ReplaceState(WaitingForAccessTokenToBeReady);
            return;
          }
          if account.Some? { ReplaceState(State.Ready(account.value)); }
        case WaitingForAccessTokenToBeReady =>
          if loginRequired {
            ReplaceState(AwaitingLogin);
            return;
          }
          if !tokenAvailable { return; }
          if account.Some? { ReplaceState(State.Ready(account.value)); }
        case WaitingForAccessTokenToConnect(commands) =>
          if loginRequired {
            ReplaceState(AwaitingLogin);
            return;
          }
          if !tokenAvailable { return; }
          if account.Some? { OpenClient(account.value, commands); }
        case _ =>
      }
    }

    method HandleConnect(id: Uuid)
      requires Valid()
      modifies this
      ensures Valid() && Model() == Step(old(Model()), OnConnect(id))
    {
      StepKeeps(Model(), OnConnect(id));
      var accepted := state.AwaitsConnect() && state.IsFor(id);
      Note(Received(OnConnect(id), accepted));
      if !accepted {
        return;
      }
      var link, commands, filters := state.link, state.commands, topicFilterRefCounts.Keys;
      if filters != {} {
        ReplaceState(SubscribingOnConnect(link, commands, filters));
        Note(Subscribed(link.connectionId, link.account, filters));
        return;
      }
      BecomeConnected(link, commands, true);
    }

    method HandleReconnect(id: Uuid)
      requires Valid()
      modifies this
      ensures Valid() && Model() == Step(old(Model()), OnReconnect(id))
    {
      StepKeeps(Model(), OnReconnect(id));
      Note(Received(OnReconnect(id), true));
      if !state.IsFor(id) {
        return;
      }
      var link, queue := state.link, state.Queue();
      if !state.Connecting? {
        var requestId := NewUuid();
        ReplaceState(OfflineAndReconnecting(link.(requestId := requestId), queue));
      }
    }

    method GoOffline(id: Uuid)
      modifies this
      ensures Model() == StepDropEvent(old(Model()), id)
    {
      if !state.IsFor(id) {
        return;
      }
      match state {
        case OfflineAndReconnecting(link, commands) => ReplaceState(Offline(link, commands));
        case SubscribingOnConnect(link, commands, _) => ReplaceState(Offline(link, commands));
        case SubscribingAfterConnected(link, commands, _) => ReplaceState(Offline(link, commands));
        case Connected(link) => ReplaceState(Offline(link, []));
        case _ =>
      }
    }

    method HandleClose(id: Uuid)
      requires Valid()
      modifies this
      ensures Valid() && Model() == Step(old(Model()), OnClose(id))
    {
      StepKeeps(Model(), OnClose(id));
      Note(Received(OnClose(id), true));
      GoOffline(id);
    }

    method HandleOffline(id: Uuid)
      requires Valid()
      modifies this
      ensures Valid() && Model() == Step(old(Model()), OnOffline(id))
    {
      StepKeeps(Model(), OnOffline(id));
      Note(Received(OnOffline(id), true));
      GoOffline(id);
    }

    method HandleSubscribeCallback(filters: set<string>)
      requires Valid()
      modifies this
      ensures Valid() && Model() == Step(old(Model()), OnSubscribeCallback(filters))
    {
      StepKeeps(Model(), OnSubscribeCallback(filters));
      Note(Received(OnSubscribeCallback(filters), true));
      if !state.Subscribing() {
        return;
      }
      var pending := state.pending - filters;
      if pending == state.pending {
        return;
      }
      SetPending(pending);
    }
  }
}
