/** The MQTT client service: its ten states, what a caller or the MQTT client can make
    happen to it, and one atomic step for each. `record` is everything an observer of
    the service could write down: each call or client event with whether it was
    accepted, each call made on the MQTT client, each change of state. */
module MqttMachine {
  import opened Options

  /** uuids are drawn from a counter, so no two draws are equal. */
  type Uuid = nat

  datatype Announcement = Announcement(connectionId: Uuid, sessionId: Uuid, name: string, startedAtMillis: int)

  datatype Payload = Opaque(text: string) | BabyStation(announcement: Announcement)

  /** What a caller asks to publish: a message, or this client's parent station
      announcement, whose payload names the connection it is finally sent on. */
  datatype Item = Message(topic: string, payload: Payload) | ParentStation

  datatype Command = SubscribeCommand(filter: string) | PublishCommand(item: Item)

  /** One MQTT client object, known by the connection id it was created with. */
  datatype Link = Link(account: string, connectionId: Uuid, requestId: Uuid)

  datatype State =
    | AwaitingLogin
    | WaitingForAccessTokenToBeReady
    | WaitingForAccessTokenToConnect(commands: seq<Command>)
    | Ready(account: string)
    | Connecting(link: Link, commands: seq<Command>)
    | Offline(link: Link, commands: seq<Command>)
    | OfflineAndReconnecting(link: Link, commands: seq<Command>)
    | SubscribingOnConnect(link: Link, commands: seq<Command>, pending: set<string>)
    | SubscribingAfterConnected(link: Link, commands: seq<Command>, pending: set<string>)
    | Connected(link: Link)
  {
    predicate HasLink() {
      Connecting? || Offline? || OfflineAndReconnecting? || Subscribing() || Connected?
    }

    predicate Subscribing() { SubscribingOnConnect? || SubscribingAfterConnected? }

    /** A connect event of the current client is acted on only here. */
    predicate AwaitsConnect() { Connecting? || OfflineAndReconnecting? }

    /** Connected to the broker, as far as the service knows. */
    predicate Live() { Subscribing() || Connected? }

    predicate TakesPublishes() { WaitingForAccessTokenToConnect? || HasLink() }

    predicate IsFor(connectionId: Uuid) { HasLink() && link.connectionId == connectionId }

    function Queue(): seq<Command> {
      match this
      case WaitingForAccessTokenToConnect(commands) => commands
      case Connecting(_, commands) => commands
      case Offline(_, commands) => commands
      case OfflineAndReconnecting(_, commands) => commands
      case SubscribingOnConnect(_, commands, _) => commands
      case SubscribingAfterConnected(_, commands, _) => commands
      case _ => []
    }

    /** The same state, holding another queue. */
    function WithQueue(queue: seq<Command>): State
      requires TakesPublishes() && !Connected?
    {
      match this
      case WaitingForAccessTokenToConnect(_) => WaitingForAccessTokenToConnect(queue)
      case Connecting(_, _) => Connecting(link, queue)
      case Offline(_, _) => Offline(link, queue)
      case OfflineAndReconnecting(_, _) => OfflineAndReconnecting(link, queue)
      case SubscribingOnConnect(_, _, _) => SubscribingOnConnect(link, queue, pending)
      case SubscribingAfterConnected(_, _, _) => SubscribingAfterConnected(link, queue, pending)
    }
  }

  datatype Input =
    | CallConnect
    | CallDisconnect
    | CallPublish(item: Item)
    | CallSubscribe(filter: string)
    | CallClose(subscription: Uuid)
    | AuthorizationChanged(loginRequired: bool, tokenAvailable: bool, account: Option<string>)
    | OnConnect(connectionId: Uuid)
    | OnReconnect(connectionId: Uuid)
    | OnClose(connectionId: Uuid)
    | OnOffline(connectionId: Uuid)
    | OnError(connectionId: Uuid)
    | OnSubscribeCallback(filters: set<string>)

  datatype Entry =
    | Received(input: Input, accepted: bool)
    | Opened(link: Link)
    | Subscribed(connectionId: Uuid, account: string, filters: set<string>)
    | Unsubscribed(connectionId: Uuid, account: string, filter: string)
    | ConnectedStatus(link: Link)
    | DisconnectedStatus(link: Link)
    | Published(connectionId: Uuid, account: string, item: Item)
    | Ended(connectionId: Uuid)
    | Changed(before: State, after: State)

  /** A record, its newest entry last. */
  datatype Record = Blank | Then(earlier: Record, last: Entry)

  datatype Service = Service(
    state: State,
    subscriptions: map<Uuid, string>,
    refs: map<string, nat>,
    next: Uuid,
    record: Record)

  function Initial(loginRequired: bool, tokenAvailable: bool, account: string): Service {
    Service(if loginRequired then AwaitingLogin
            else if tokenAvailable then Ready(account)
            else WaitingForAccessTokenToBeReady,
            map[], map[], 0, Blank)
  }

  // ---------------------------------------------------------------- building blocks

  function Emit(s: Service, e: Entry): Service {
    s.(record := Then(s.record, e))
  }

  function SetState(s: Service, after: State): Service {
    Emit(s, Changed(s.state, after)).(state := after)
  }

  function ConnectMqtt(s: Service, account: string, commands: seq<Command>): Service {
    var link := Link(account, s.next, s.next + 1);
    SetState(Emit(s, Opened(link)).(next := s.next + 2), Connecting(link, commands))
  }

  /** The queued publishes, in order, on the now connected client; queued subscribe
      commands are skipped, because the reference counts are replayed instead. */
  function Replay(s: Service, link: Link, commands: seq<Command>): Service
    decreases |commands|
  {
    if commands == [] then s
    else
      var first := if commands[0].PublishCommand?
                   then Emit(s, Published(link.connectionId, link.account, commands[0].item)) else s;
      Replay(first, link, commands[1..])
  }

  function FinishConnect(s: Service, link: Link, commands: seq<Command>): Service {
    SetState(Replay(Emit(s, ConnectedStatus(link)), link, commands), Connected(link))
  }

  function FinishSubscribing(s: Service): Service
    requires s.state.Subscribing()
  {
    var (link, commands) := (s.state.link, s.state.commands);
    if s.state.SubscribingOnConnect? then FinishConnect(s, link, commands)
    else SetState(Replay(s, link, commands), Connected(link))
  }

  /** The same kind of subscribing state, with another queue or pending set. */
  function KeepSubscribing(s: Service, commands: seq<Command>, pending: set<string>): Service
    requires s.state.Subscribing()
  {
    SetState(s, if s.state.SubscribingOnConnect? then SubscribingOnConnect(s.state.link, commands, pending)
                else SubscribingAfterConnected(s.state.link, commands, pending))
  }

  /** The pending set shrinks to `pending`; an empty one means connected. */
  function ShrinkPending(s: Service, pending: set<string>): Service
    requires s.state.Subscribing()
  {
    if pending == {} then FinishSubscribing(s) else KeepSubscribing(s, s.state.commands, pending)
  }

  // ---------------------------------------------------------------- reference counts

  predicate Increments(refs: map<string, nat>, filter: string) {
    filter !in refs || refs[filter] == 0
  }

  function Increment(refs: map<string, nat>, filter: string): map<string, nat> {
    refs[filter := (if filter in refs then refs[filter] else 0) + 1]
  }

  predicate DropsLast(refs: map<string, nat>, filter: string) {
    filter in refs && refs[filter] <= 1
  }

  function Decrement(refs: map<string, nat>, filter: string): map<string, nat> {
    if filter !in refs then refs
    else if refs[filter] <= 1 then refs - {filter}
    else refs[filter := refs[filter] - 1]
  }

  // ---------------------------------------------------------------- one step per input

  /** Whether a call returns normally, or a client event is acted on as a connect. */
  predicate Accepts(s: Service, input: Input) {
    match input
    case CallPublish(_) => s.state.TakesPublishes()
    case CallSubscribe(filter) => !Increments(s.refs, filter) || s.state.TakesPublishes()
    case OnConnect(id) => s.state.AwaitsConnect() && s.state.IsFor(id)
    case _ => true
  }

  function StepPublish(s: Service, item: Item): Service {
    if !s.state.TakesPublishes() then s // throws
    else if s.state.Connected? then Emit(s, Published(s.state.link.connectionId, s.state.link.account, item))
    else SetState(s, s.state.WithQueue(s.state.Queue() + [PublishCommand(item)]))
  }

  /** The state's own part of a subscription that raised a count from zero. */
  function StateSubscribe(s: Service, filter: string): Service
    requires s.state.TakesPublishes()
  {
    if s.state.Live() then LiveSubscribe(s, filter)
    else if s.state.WaitingForAccessTokenToConnect? || s.state.Connecting? then
      SetState(s, s.state.WithQueue(s.state.Queue() + [SubscribeCommand(filter)]))
    else s
  }

  /** A live client is asked at once, unless the filter is already pending. */
  function LiveSubscribe(s: Service, filter: string): Service
    requires s.state.Live()
  {
    var link := s.state.link;
    if s.state.Connected? then
      Emit(SetState(s, SubscribingAfterConnected(link, [], {filter})),
           Subscribed(link.connectionId, link.account, {filter}))
    else if filter in s.state.pending then s
    else
      Emit(KeepSubscribing(s, s.state.commands, s.state.pending + {filter}),
           Subscribed(link.connectionId, link.account, {filter}))
  }

  /** Adds the subscription and its count first, and takes both back if the state throws. */
  function StepSubscribe(s: Service, filter: string): Service {
    var id := s.next;
    if !Accepts(s, CallSubscribe(filter)) then s.(next := id + 1)
    else
      var added := s.(next := id + 1, subscriptions := s.subscriptions[id := filter], refs := Increment(s.refs, filter));
      if Increments(s.refs, filter) then StateSubscribe(added, filter) else added
  }

  function StateUnsubscribe(s: Service, filter: string): Service {
    if !s.state.Live() then s
    else
      var told := Emit(s, Unsubscribed(s.state.link.connectionId, s.state.link.account, filter));
      if s.state.Connected? then told else ShrinkPending(told, s.state.pending - {filter})
  }

  function StepClose(s: Service, id: Uuid): Service {
    if id !in s.subscriptions then s
    else
      var filter := s.subscriptions[id];
      var removed := s.(subscriptions := s.subscriptions - {id}, refs := Decrement(s.refs, filter));
      if DropsLast(s.refs, filter) then StateUnsubscribe(removed, filter) else removed
  }

  function StepConnectCall(s: Service): Service {
    match s.state
    case WaitingForAccessTokenToBeReady => SetState(s, WaitingForAccessTokenToConnect([]))
    case Ready(account) => ConnectMqtt(s, account, [])
    case _ => s
  }

  function StepDisconnectCall(s: Service): Service {
    if !s.state.HasLink() then s
    else
      var told := if s.state.Connected? then Emit(s, DisconnectedStatus(s.state.link)) else s;
      SetState(Emit(told, Ended(s.state.link.connectionId)), Ready(s.state.link.account))
  }

  function StepAuthorization(s: Service, loginRequired: bool, tokenAvailable: bool, account: Option<string>): Service {
    match s.state
    case AwaitingLogin =>
      if loginRequired then s
      else if !tokenAvailable then SetState(s, WaitingForAccessTokenToBeReady)
      else if account.None? then s // throws
      else SetState(s, Ready(account.value))
    case WaitingForAccessTokenToBeReady =>
      if loginRequired then SetState(s, AwaitingLogin)
      else if !tokenAvailable || account.None? then s
      else SetState(s, Ready(account.value))
    case WaitingForAccessTokenToConnect(commands) =>
      if loginRequired then SetState(s, AwaitingLogin)
      else if !tokenAvailable || account.None? then s
      else ConnectMqtt(s, account.value, commands)
    case _ => s
  }

  function StepConnectEvent(s: Service, id: Uuid): Service {
    if !Accepts(s, OnConnect(id)) then s
    else
      var (link, commands) := (s.state.link, s.state.commands);
      if s.refs.Keys == {} then FinishConnect(s, link, commands)
      else Emit(SetState(s, SubscribingOnConnect(link, commands, s.refs.Keys)),
                Subscribed(link.connectionId, link.account, s.refs.Keys))
  }

  function StepReconnectEvent(s: Service, id: Uuid): Service {
    if s.state.Connecting? || !s.state.IsFor(id) then s
    else
      var link := s.state.link.(requestId := s.next);
      SetState(s.(next := s.next + 1), OfflineAndReconnecting(link, s.state.Queue()))
  }

  /** Both a close and an offline event. */
  function StepDropEvent(s: Service, id: Uuid): Service {
    if s.state.Connecting? || s.state.Offline? || !s.state.IsFor(id) then s
    else SetState(s, Offline(s.state.link, s.state.Queue()))
  }

  function StepCallback(s: Service, filters: set<string>): Service {
    if !s.state.Subscribing() || s.state.pending - filters == s.state.pending then s
    else ShrinkPending(s, s.state.pending - filters)
  }

  function Step(service: Service, input: Input): Service {
    var s := Emit(service, Received(input, Accepts(service, input)));
    match input
    case CallConnect => StepConnectCall(s)
    case CallDisconnect => StepDisconnectCall(s)
    case CallPublish(item) => StepPublish(s, item)
    case CallSubscribe(filter) => StepSubscribe(s, filter)
    case CallClose(id) => StepClose(s, id)
    case AuthorizationChanged(login, token, account) => StepAuthorization(s, login, token, account)
    case OnConnect(id) => StepConnectEvent(s, id)
    case OnReconnect(id) => StepReconnectEvent(s, id)
    case OnClose(id) => StepDropEvent(s, id)
    case OnOffline(id) => StepDropEvent(s, id)
    case OnError(_) => s
    case OnSubscribeCallback(filters) => StepCallback(s, filters)
  }

  function Run(s: Service, inputs: seq<Input>): Service
    decreases |inputs|
  {
    if inputs == [] then s else Step(Run(s, inputs[..|inputs| - 1]), inputs[|inputs| - 1])
  }

  // ---------------------------------------------------------------- reading the record

  /** What an observer can tell from a record. */
  datatype Reading = Reading(
    accepted: seq<Item>,        // publishes accepted since the last drop
    handed: seq<Item>,          // publishes made on a client since the last drop
    connected: Option<Uuid>,    // the client of the last accepted connect event
    net: set<string>,           // the net effect of the calls made on that client since then
    statuses: nat,              // connected statuses since then
    promised: seq<Item>,        // publishes accepted since then
    requests: set<Uuid>)        // request ids of all connected statuses

  /** Reaching Ready or AwaitingLogin is what drops a queue: by a disconnect, or by a
      logout while waiting for a token. */
  predicate IsDrop(e: Entry) {
    e.Changed? && (e.after.Ready? || e.after.AwaitingLogin?)
  }

  function ReadEntry(r: Reading, e: Entry): Reading {
    match e
    case Received(CallPublish(item), true) => r.(accepted := r.accepted + [item], promised := r.promised + [item])
    case Received(OnConnect(id), true) => r.(connected := Some(id), net := {}, statuses := 0, promised := [])
    case Subscribed(id, _, filters) => if r.connected == Some(id) then r.(net := r.net + filters) else r
    case Unsubscribed(id, _, filter) => if r.connected == Some(id) then r.(net := r.net - {filter}) else r
    case ConnectedStatus(link) => r.(statuses := r.statuses + 1, requests := r.requests + {link.requestId})
    case Published(_, _, item) => r.(handed := r.handed + [item])
    case Changed(_, _) => if IsDrop(e) then r.(accepted := [], handed := []) else r
    case _ => r
  }

  function Read(record: Record): Reading {
    match record
    case Blank => Reading([], [], None, {}, 0, [], {})
    case Then(earlier, last) => ReadEntry(Read(earlier), last)
  }

  function Items(commands: seq<Command>): seq<Item> {
    if commands == [] then []
    else (if commands[0].PublishCommand? then [commands[0].item] else []) + Items(commands[1..])
  }

  function OpenSubscriptions(subscriptions: map<Uuid, string>, filter: string): set<Uuid> {
    set id | id in subscriptions && subscriptions[id] == filter
  }
}
