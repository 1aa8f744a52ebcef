/** What an observer of the MQTT client service can tell of its connection from the inputs alone,
    and that the service behaves accordingly: when it opens a client, on which client it may
    make calls, when it is silent, and how it says goodbye. */
module MqttConnection {
  import opened Options
  import opened MqttMachine
  import opened MqttInvariants

  datatype Client = Client(id: Uuid, account: string)

  /** The connection as the inputs tell it. Opening and Leaving last only while an input is
      being answered. */
  datatype Seen =
    | LoginNeeded
    | NoToken
    | Wanted
    | Idle(account: string)
    | Opening(account: string)
    | Fresh(client: Client)
    | Up(client: Client)
    | Lost(client: Client)
    | Retrying(client: Client)
    | Leaving(client: Client, wasUp: bool)
  {
    /** A client that has been connected. */
    predicate Known(id: Uuid) { (Up? || Lost? || Retrying?) && client.id == id }

    predicate Connects(id: Uuid) { (Fresh? || Retrying?) && client.id == id }

    predicate Takes() { Wanted? || Fresh? || Up? || Lost? || Retrying? }
  }

  function Authorized(seen: Seen, login: bool, token: bool, account: Option<string>): Seen {
    match seen
    case LoginNeeded =>
      if login then seen else if !token then NoToken else if account.None? then seen else Idle(account.value)
    case NoToken =>
      if login then LoginNeeded else if !token || account.None? then seen else Idle(account.value)
    case Wanted =>
      if login then LoginNeeded else if !token || account.None? then seen else Opening(account.value)
    case _ => seen
  }

  function SeeInput(seen: Seen, input: Input): Seen {
    match input
    case AuthorizationChanged(login, token, account) => Authorized(seen, login, token, account)
    case CallConnect => if seen.NoToken? then Wanted else if seen.Idle? then Opening(seen.account) else seen
    case CallDisconnect => if seen.Fresh? || seen.Up? || seen.Lost? || seen.Retrying? then Leaving(seen.client, seen.Up?) else seen
    case OnConnect(id) => if seen.Connects(id) then Up(seen.client) else seen
    case OnReconnect(id) => if seen.Known(id) then Retrying(seen.client) else seen
    case OnClose(id) => if seen.Known(id) then Lost(seen.client) else seen
    case OnOffline(id) => if seen.Known(id) then Lost(seen.client) else seen
    case _ => seen
  }

  function See(seen: Seen, e: Entry): Seen {
    match e
    case Received(input, _) => SeeInput(seen, input)
    case Opened(link) => Fresh(Client(link.connectionId, link.account))
    case Ended(_) => if seen.Leaving? then Idle(seen.client.account) else seen
    case _ => seen
  }

  function Observed(start: Seen, record: Record): Seen {
    match record
    case Blank => start
    case Then(earlier, last) => See(Observed(start, earlier), last)
  }

  function Started(login: bool, token: bool, account: string): Seen {
    if login then LoginNeeded else if token then Idle(account) else NoToken
  }

  function ClientOf(link: Link): Client { Client(link.connectionId, link.account) }

  predicate FitsInput(seen: Seen, input: Input, accepted: bool) {
    match input
    case CallPublish(_) => accepted == seen.Takes()
    case OnConnect(id) => accepted == seen.Connects(id)
    case _ => true
  }

  /** What the service may do next, and which inputs it accepts; nothing is heard before the
      last input is answered. */
  predicate Fits(seen: Seen, e: Entry) {
    match e
    case Received(input, accepted) => !seen.Opening? && !seen.Leaving? && FitsInput(seen, input, accepted)
    case Opened(link) => seen == Opening(link.account)
    case Subscribed(id, account, _) => seen == Up(Client(id, account))
    case Unsubscribed(id, account, _) => seen == Up(Client(id, account))
    case Published(id, account, _) => seen == Up(Client(id, account))
    case ConnectedStatus(link) => seen == Up(ClientOf(link))
    case DisconnectedStatus(link) => seen == Leaving(ClientOf(link), true)
    case Ended(id) => seen.Leaving? && seen.client.id == id
    case _ => true
  }

  predicate AllFit(start: Seen, record: Record) {
    match record
    case Blank => true
    case Then(earlier, last) => AllFit(start, earlier) && Fits(Observed(start, earlier), last)
  }

  /** The state is the one that the inputs call for. */
  predicate Matches(state: State, seen: Seen) {
    match state
    case AwaitingLogin => seen == LoginNeeded
    case WaitingForAccessTokenToBeReady => seen == NoToken
    case WaitingForAccessTokenToConnect(_) => seen == Wanted
    case Ready(account) => seen == Idle(account)
    case Connecting(link, _) => seen == Fresh(ClientOf(link))
    case Offline(link, _) => seen == Lost(ClientOf(link))
    case OfflineAndReconnecting(link, _) => seen == Retrying(ClientOf(link))
    case SubscribingOnConnect(link, _, _) => seen == Up(ClientOf(link))
    case SubscribingAfterConnected(link, _, _) => seen == Up(ClientOf(link))
    case Connected(link) => seen == Up(ClientOf(link))
  }

  predicate Good(start: Seen, s: Service) {
    Matches(s.state, Observed(start, s.record)) && AllFit(start, s.record)
  }

  // ---------------------------------------------------------------- every step

  /** Calls on the client that is up are seen as nothing new. */
  lemma {:induction false} ReplayFits(start: Seen, s: Service, link: Link, commands: seq<Command>)
    requires AllFit(start, s.record) && Observed(start, s.record) == Up(ClientOf(link))
    ensures var t := Replay(s, link, commands);
      t == s.(record := t.record) && AllFit(start, t.record) && Observed(start, t.record) == Up(ClientOf(link))
    decreases |commands|
  {
    if commands != [] {
      ReplayFits(start, if commands[0].PublishCommand?
                        then Emit(s, Published(link.connectionId, link.account, commands[0].item)) else s,
                 link, commands[1..]);
    }
  }

  lemma FinishFits(start: Seen, s: Service, link: Link, commands: seq<Command>)
    requires AllFit(start, s.record) && Observed(start, s.record) == Up(ClientOf(link))
    ensures Good(start, FinishConnect(s, link, commands))
    ensures Good(start, SetState(Replay(s, link, commands), Connected(link)))
  {
    ReplayFits(start, Emit(s, ConnectedStatus(link)), link, commands);
    ReplayFits(start, s, link, commands);
  }

  lemma ShrinkFits(start: Seen, s: Service, pending: set<string>)
    requires Good(start, s) && s.state.Subscribing()
    ensures Good(start, ShrinkPending(s, pending))
  {
    FinishFits(start, s, s.state.link, s.state.commands);
  }

  lemma ConnectFits(start: Seen, s: Service, account: string, commands: seq<Command>)
    requires AllFit(start, s.record) && Observed(start, s.record) == Opening(account)
    ensures Good(start, ConnectMqtt(s, account, commands))
  {
  }

  /** A step in two parts: the input is received, and answered. */
  predicate Hears(start: Seen, s: Service, input: Input, received: Service) {
    && Good(start, s) && received == Emit(s, Received(input, Accepts(s, input)))
    && AllFit(start, received.record) && Observed(start, received.record) == SeeInput(Observed(start, s.record), input)
  }

  lemma ReceivedFits(start: Seen, s: Service, input: Input)
    requires Good(start, s)
    ensures Hears(start, s, input, Emit(s, Received(input, Accepts(s, input))))
  {
  }

  lemma AuthorizationFits(start: Seen, s: Service, login: bool, token: bool, account: Option<string>, received: Service)
    requires Hears(start, s, AuthorizationChanged(login, token, account), received)
    ensures Good(start, StepAuthorization(received, login, token, account))
  {
    var t := StepAuthorization(received, login, token, account);
    if s.state.WaitingForAccessTokenToConnect? && !login && token && account.Some? {
      ConnectFits(start, received, account.value, s.state.commands);
    } else if t != received {
      ChangeFits(start, received, t.state);
    }
  }

  lemma ConnectCallFits(start: Seen, s: Service, received: Service)
    requires Hears(start, s, CallConnect, received)
    ensures Good(start, StepConnectCall(received))
  {
    if s.state.Ready? { ConnectFits(start, received, s.state.account, []); }
  }

  lemma DisconnectCallFits(start: Seen, s: Service, received: Service)
    requires Hears(start, s, CallDisconnect, received)
    ensures Good(start, StepDisconnectCall(received))
  {
    if s.state.HasLink() {
      var link := s.state.link;
      var told := if s.state.Connected? then Emit(received, DisconnectedStatus(link)) else received;
      assert AllFit(start, told.record) && Observed(start, told.record) == Leaving(ClientOf(link), s.state.Live());
      var ended := Emit(told, Ended(link.connectionId));
      assert AllFit(start, ended.record) && Observed(start, ended.record) == Idle(link.account);
      ChangeFits(start, ended, Ready(link.account));
    }
  }

  lemma ChangeFits(start: Seen, s: Service, after: State)
    ensures Observed(start, SetState(s, after).record) == Observed(start, s.record)
    ensures AllFit(start, SetState(s, after).record) == AllFit(start, s.record)
  {
  }

  lemma PublishFits(start: Seen, s: Service, item: Item, received: Service)
    requires Hears(start, s, CallPublish(item), received)
    ensures Good(start, StepPublish(received, item))
  {
    if s.state.TakesPublishes() && !s.state.Connected? {
      ChangeFits(start, received, s.state.WithQueue(s.state.Queue() + [PublishCommand(item)]));
    }
  }

  lemma StateSubscribeFits(start: Seen, s: Service, filter: string)
    requires Good(start, s) && s.state.TakesPublishes() && !s.state.Live()
    ensures Good(start, StateSubscribe(s, filter))
  {
    if s.state.WaitingForAccessTokenToConnect? || s.state.Connecting? {
      ChangeFits(start, s, s.state.WithQueue(s.state.Queue() + [SubscribeCommand(filter)]));
    }
  }

  lemma LiveSubscribeFits(start: Seen, s: Service, filter: string)
    requires Good(start, s) && s.state.Live()
    ensures Good(start, LiveSubscribe(s, filter))
  {
    if s.state.Connected? {
      ChangeFits(start, s, SubscribingAfterConnected(s.state.link, [], {filter}));
    } else if filter !in s.state.pending {
      ChangeFits(start, s, KeepSubscribing(s, s.state.commands, s.state.pending + {filter}).state);
    }
  }

  lemma SubscribeFits(start: Seen, s: Service, filter: string, received: Service)
    requires Hears(start, s, CallSubscribe(filter), received)
    ensures Good(start, StepSubscribe(received, filter))
  {
    var added := received.(next := s.next + 1, subscriptions := s.subscriptions[s.next := filter], refs := Increment(s.refs, filter));
    assert Good(start, added);
    if Accepts(s, CallSubscribe(filter)) && Increments(s.refs, filter) {
      if s.state.Live() { LiveSubscribeFits(start, added, filter); } else { StateSubscribeFits(start, added, filter); }
    }
  }

  lemma CloseFits(start: Seen, s: Service, id: Uuid, received: Service)
    requires Hears(start, s, CallClose(id), received)
    ensures Good(start, StepClose(received, id))
  {
    if id in s.subscriptions && s.state.Subscribing() {
      var filter := s.subscriptions[id];
      var removed := received.(subscriptions := s.subscriptions - {id}, refs := Decrement(s.refs, filter));
      var told := Emit(removed, Unsubscribed(s.state.link.connectionId, s.state.link.account, filter));
      ShrinkFits(start, told, s.state.pending - {filter});
    }
  }

  lemma ConnectEventFits(start: Seen, s: Service, id: Uuid, received: Service)
    requires Hears(start, s, OnConnect(id), received)
    ensures Good(start, StepConnectEvent(received, id))
  {
    if Accepts(s, OnConnect(id)) {
      FinishFits(start, received, s.state.link, s.state.commands);
    }
  }

  lemma ReconnectEventFits(start: Seen, s: Service, id: Uuid, received: Service)
    requires Hears(start, s, OnReconnect(id), received)
    ensures Good(start, StepReconnectEvent(received, id))
  {
  }

  lemma DropEventFits(start: Seen, s: Service, input: Input, id: Uuid, received: Service)
    requires Hears(start, s, input, received) && input in {OnClose(id), OnOffline(id)}
    ensures Good(start, StepDropEvent(received, id))
  {
    if s.state.IsFor(id) { ChangeFits(start, received, Offline(s.state.link, s.state.Queue())); }
  }

  lemma CallbackFits(start: Seen, s: Service, filters: set<string>, received: Service)
    requires Hears(start, s, OnSubscribeCallback(filters), received)
    ensures Good(start, StepCallback(received, filters))
  {
    if s.state.Subscribing() { ShrinkFits(start, received, s.state.pending - filters); }
  }

  lemma StepFits(start: Seen, s: Service, input: Input)
    requires Good(start, s)
    ensures Good(start, Step(s, input))
  {
    var received := Emit(s, Received(input, Accepts(s, input)));
    ReceivedFits(start, s, input);
    match input
    case CallConnect => ConnectCallFits(start, s, received);
    case CallDisconnect => DisconnectCallFits(start, s, received);
    case CallPublish(item) => PublishFits(start, s, item, received);
    case CallSubscribe(filter) => SubscribeFits(start, s, filter, received);
    case CallClose(id) => CloseFits(start, s, id, received);
    case AuthorizationChanged(login, token, account) => AuthorizationFits(start, s, login, token, account, received);
    case OnConnect(id) => ConnectEventFits(start, s, id, received);
    case OnReconnect(id) => ReconnectEventFits(start, s, id, received);
    case OnClose(id) => DropEventFits(start, s, input, id, received);
    case OnOffline(id) => DropEventFits(start, s, input, id, received);
    case OnError(_) =>
    case OnSubscribeCallback(filters) => CallbackFits(start, s, filters, received);
  }

  /** In every run the state is the one that the inputs call for: which of the ten kinds, for
      which client and account. So connecting opens a client, a token that arrives opens the
      one that waits, a close or offline event takes a connected client offline, and a
      reconnect event lets it connect again. And every call is made on the client that is up
      then, and what is accepted is what the inputs so far allow. */
  lemma {:induction false} RunFits(login: bool, token: bool, account: string, inputs: seq<Input>)
    ensures Good(Started(login, token, account), Run(Initial(login, token, account), inputs))
    decreases |inputs|
  {
    if inputs != [] {
      RunFits(login, token, account, inputs[..|inputs| - 1]);
      StepFits(Started(login, token, account), Run(Initial(login, token, account), inputs[..|inputs| - 1]), inputs[|inputs| - 1]);
    }
  }

  // ---------------------------------------------------------------- silence while down

  /** Whether the client that connected last has closed, gone offline or begun to reconnect
      since its last accepted connect event. */
  predicate Down(record: Record) {
    match record
    case Blank => false
    case Then(earlier, Received(OnConnect(_), true)) => false
    case Then(earlier, Received(OnClose(id), _)) => Read(earlier).connected == Some(id) || Down(earlier)
    case Then(earlier, Received(OnOffline(id), _)) => Read(earlier).connected == Some(id) || Down(earlier)
    case Then(earlier, Received(OnReconnect(id), _)) => Read(earlier).connected == Some(id) || Down(earlier)
    case Then(earlier, _) => Down(earlier)
  }

  predicate IsCall(e: Entry) {
    e.Published? || e.Subscribed? || e.Unsubscribed? || e.ConnectedStatus? || e.DisconnectedStatus?
  }

  /** A client that is up connected last and is not down. */
  lemma {:induction false} UpIsNotDown(start: Seen, record: Record)
    requires AllFit(start, record) && (start.LoginNeeded? || start.NoToken? || start.Idle?)
    ensures var seen := Observed(start, record);
      seen.Up? || (seen.Leaving? && seen.wasUp) ==> !Down(record) && Read(record).connected == Some(seen.client.id)
    decreases record
  {
    if record.Then? { UpIsNotDown(start, record.earlier); }
  }

  lemma {:induction false} FitsAt(start: Seen, record: Record, earlier: Record, e: Entry)
    requires AllFit(start, record) && Prefix(Then(earlier, e), record)
    ensures AllFit(start, earlier) && Fits(Observed(start, earlier), e)
  {
    if record != Then(earlier, e) { FitsAt(start, record.earlier, earlier, e); }
  }

  /** Silence: in every run, while a client is down nothing is published, subscribed or
      unsubscribed on it, and no status is handed to it. */
  lemma SilentWhileDown(login: bool, token: bool, account: string, inputs: seq<Input>, earlier: Record, e: Entry)
    requires Prefix(Then(earlier, e), Run(Initial(login, token, account), inputs).record) && Down(earlier)
    ensures !IsCall(e)
  {
    var start := Started(login, token, account);
    RunFits(login, token, account, inputs);
    FitsAt(start, Run(Initial(login, token, account), inputs).record, earlier, e);
    UpIsNotDown(start, earlier);
  }

  /** A publish or announcement accepted meanwhile joins the end of the queue, and nothing is
      handed over. */
  lemma QueuedWhileDown(login: bool, token: bool, account: string, inputs: seq<Input>, item: Item)
    ensures var s := Run(Initial(login, token, account), inputs);
      Down(s.record) && Accepts(s, CallPublish(item)) ==> Queued(s, item)
  {
    var s := Run(Initial(login, token, account), inputs);
    if Down(s.record) {
      assert !s.state.Connected? by {
        RunFits(login, token, account, inputs);
        UpIsNotDown(Started(login, token, account), s.record);
      }
      if Accepts(s, CallPublish(item)) { NotConnectedQueues(s, item); }
    }
  }

  /** The publish is accepted, at the end of the queue, and not handed over. */
  predicate Queued(s: Service, item: Item) {
    var t := Step(s, CallPublish(item));
    && t.state.Queue() == s.state.Queue() + [PublishCommand(item)]
    && Read(t.record).handed == Read(s.record).handed
    && Read(t.record).accepted == Read(s.record).accepted + [item]
  }

  lemma NotConnectedQueues(s: Service, item: Item)
    requires s.state.TakesPublishes() && !s.state.Connected?
    ensures Queued(s, item)
  {
    ChangeKeeps(Emit(s, Received(CallPublish(item), true)), s.state.WithQueue(s.state.Queue() + [PublishCommand(item)]));
  }

  /** A publish on a connected client is handed over at once. */
  lemma HandedWhenConnected(s: Service, item: Item)
    requires s.state.Connected?
    ensures var t := Step(s, CallPublish(item));
      t.state == s.state && Read(t.record).handed == Read(s.record).handed + [item]
  {
  }

  // ---------------------------------------------------------------- the clean goodbye

  function LastStatus(record: Record): Option<Link> {
    match record
    case Blank => None
    case Then(earlier, ConnectedStatus(link)) => Some(link)
    case Then(earlier, _) => LastStatus(earlier)
  }

  /** A client that is past its connected status said it with the request id it has now. */
  predicate Greeted(s: Service) {
    (s.state.SubscribingAfterConnected? || s.state.Connected?) ==> LastStatus(s.record) == Some(s.state.link)
  }

  lemma {:induction false} ReplayGreets(s: Service, link: Link, commands: seq<Command>)
    ensures var t := Replay(s, link, commands); t == s.(record := t.record) && LastStatus(t.record) == LastStatus(s.record)
    decreases |commands|
  {
    if commands != [] {
      ReplayGreets(if commands[0].PublishCommand?
                   then Emit(s, Published(link.connectionId, link.account, commands[0].item)) else s,
                   link, commands[1..]);
    }
  }

  lemma ShrinkGreets(s: Service, pending: set<string>)
    requires s.state.Subscribing() && Greeted(s)
    ensures Greeted(ShrinkPending(s, pending))
  {
    ReplayGreets(Emit(s, ConnectedStatus(s.state.link)), s.state.link, s.state.commands);
    ReplayGreets(s, s.state.link, s.state.commands);
  }

  lemma CloseGreets(s: Service, id: Uuid)
    requires Greeted(s)
    ensures Greeted(StepClose(s, id))
  {
    if id in s.subscriptions && s.state.Subscribing() {
      var filter := s.subscriptions[id];
      var removed := s.(subscriptions := s.subscriptions - {id}, refs := Decrement(s.refs, filter));
      ShrinkGreets(Emit(removed, Unsubscribed(s.state.link.connectionId, s.state.link.account, filter)),
                   s.state.pending - {filter});
    }
  }

  lemma SubscribeGreets(s: Service, filter: string)
    requires Greeted(s)
    ensures Greeted(StepSubscribe(s, filter))
  {
  }

  lemma StepGreets(s: Service, input: Input)
    requires Greeted(s)
    ensures Greeted(Step(s, input))
  {
    var received := Emit(s, Received(input, Accepts(s, input)));
    match input
    case CallSubscribe(filter) => SubscribeGreets(received, filter);
    case CallClose(id) => CloseGreets(received, id);
    case OnConnect(_) =>
      if Accepts(s, input) {
        ReplayGreets(Emit(received, ConnectedStatus(s.state.link)), s.state.link, s.state.commands);
      }
    case OnSubscribeCallback(filters) =>
      if s.state.Subscribing() { ShrinkGreets(received, s.state.pending - filters); }
    case _ =>
  }

  lemma {:induction false} RunGreets(login: bool, token: bool, account: string, inputs: seq<Input>)
    ensures Greeted(Run(Initial(login, token, account), inputs))
    decreases |inputs|
  {
    if inputs != [] {
      RunGreets(login, token, account, inputs[..|inputs| - 1]);
      StepGreets(Run(Initial(login, token, account), inputs[..|inputs| - 1]), inputs[|inputs| - 1]);
    }
  }

  /** Clean goodbye: disconnecting a connected client hands it one disconnected status, with
      the connection and request ids of its connected status, and then ends it. */
  lemma CleanGoodbye(login: bool, token: bool, account: string, inputs: seq<Input>)
    ensures var s := Run(Initial(login, token, account), inputs);
      s.state.Connected? ==>
        var link := s.state.link;
        && LastStatus(s.record) == Some(link)
        && Step(s, CallDisconnect).state == Ready(link.account)
        && Step(s, CallDisconnect).record ==
             Then(Then(Then(Then(s.record, Received(CallDisconnect, true)), DisconnectedStatus(link)),
                       Ended(link.connectionId)),
                  Changed(Connected(link), Ready(link.account)))
  {
    RunGreets(login, token, account, inputs);
  }

  // ---------------------------------------------------------------- acknowledgements

  function Acknowledged(inputs: seq<Input>): set<string>
    decreases |inputs|
  {
    if inputs == [] then {}
    else
      var last := inputs[|inputs| - 1];
      Acknowledged(inputs[..|inputs| - 1]) + (if last.OnSubscribeCallback? then last.filters else {})
  }

  ghost predicate AllCallbacks(inputs: seq<Input>) {
    forall i :: 0 <= i < |inputs| ==> inputs[i].OnSubscribeCallback?
  }

  /** The same subscribing state but for what is pending. */
  function StillPending(state: State, pending: set<string>): State
    requires state.Subscribing()
  {
    if state.SubscribingOnConnect? then SubscribingOnConnect(state.link, state.commands, pending)
    else SubscribingAfterConnected(state.link, state.commands, pending)
  }

  /** A subscribing phase ends as soon as everything pending is acknowledged, in whatever
      portions and order, and not before; then the client is connected and the queue gone. */
  lemma {:induction false} AcknowledgedExactly(s: Service, inputs: seq<Input>)
    requires s.state.Subscribing() && s.state.pending != {} && AllCallbacks(inputs)
    ensures Run(s, inputs).state ==
      if s.state.pending <= Acknowledged(inputs) then Connected(s.state.link)
      else StillPending(s.state, s.state.pending - Acknowledged(inputs))
    decreases |inputs|
  {
    if inputs == [] {
      assert s.state.pending - {} == s.state.pending;
    } else {
      var (front, last) := (inputs[..|inputs| - 1], inputs[|inputs| - 1]);
      AcknowledgedExactly(s, front);
      var t := Run(s, front);
      Leftover(s.state.pending, Acknowledged(front));
      Leftover(s.state.pending, Acknowledged(inputs));
      if t.state.Subscribing() {
        CallbackShrinks(t, last.filters);
        Leftover(t.state.pending, last.filters);
        assert s.state.pending - Acknowledged(front) - last.filters == s.state.pending - Acknowledged(inputs);
      }
    }
  }

  lemma {:induction false} CallbackShrinks(s: Service, filters: set<string>)
    requires s.state.Subscribing() && s.state.pending != {}
    ensures Step(s, OnSubscribeCallback(filters)).state ==
      if s.state.pending <= filters then Connected(s.state.link) else StillPending(s.state, s.state.pending - filters)
  {
    Leftover(s.state.pending, filters);
  }

  lemma {:induction false} Leftover(some: set<string>, others: set<string>)
    ensures some <= others <==> some - others == {}
  {
    forall x | x in some && x !in others ensures x in some - others {}
  }

  // ---------------------------------------------------------------- subscriptions

  lemma {:induction false} ShrinkSubscriptions(s: Service, pending: set<string>)
    requires s.state.Subscribing()
    ensures ShrinkPending(s, pending).subscriptions == s.subscriptions
  {
    ReplayReads(Emit(s, ConnectedStatus(s.state.link)), s.state.link, s.state.commands);
    ReplayReads(s, s.state.link, s.state.commands);
  }

  lemma {:induction false} CloseSubscriptions(s: Service, id: Uuid)
    ensures StepClose(s, id).subscriptions == s.subscriptions - {id}
  {
    if id in s.subscriptions && s.state.Subscribing() {
      var filter := s.subscriptions[id];
      var removed := s.(subscriptions := s.subscriptions - {id}, refs := Decrement(s.refs, filter));
      ShrinkSubscriptions(Emit(removed, Unsubscribed(s.state.link.connectionId, s.state.link.account, filter)),
                          s.state.pending - {filter});
    }
  }

  lemma {:induction false} ConnectSubscriptions(s: Service, id: Uuid)
    ensures StepConnectEvent(s, id).subscriptions == s.subscriptions
  {
    if s.state.AwaitsConnect() { ReplayReads(Emit(s, ConnectedStatus(s.state.link)), s.state.link, s.state.commands); }
  }

  /** Open subscriptions change by the caller's hand only: an accepted subscription is open from
      then on, a closed one no longer, and no other input opens or closes any. */
  lemma {:induction false} SubscriptionsByHand(s: Service, input: Input)
    ensures Step(s, input).subscriptions ==
      match input
      case CallSubscribe(filter) => if Accepts(s, input) then s.subscriptions[s.next := filter] else s.subscriptions
      case CallClose(id) => s.subscriptions - {id}
      case _ => s.subscriptions
  {
    var received := Emit(s, Received(input, Accepts(s, input)));
    match input
    case CallClose(id) => CloseSubscriptions(received, id);
    case OnConnect(id) => ConnectSubscriptions(received, id);
    case OnSubscribeCallback(filters) =>
      if s.state.Subscribing() { ShrinkSubscriptions(received, s.state.pending - filters); }
    case _ =>
  }

  /** In every run a subscription is accepted exactly if its filter is open already or publishes
      are taken too. */
  lemma {:induction false} SubscribesExactly(login: bool, token: bool, account: string, inputs: seq<Input>, filter: string)
    ensures var s := Run(Initial(login, token, account), inputs);
      Accepts(s, CallSubscribe(filter)) <==>
        (exists id :: id in OpenSubscriptions(s.subscriptions, filter)) || Observed(Started(login, token, account), s.record).Takes()
  {
    var s := Run(Initial(login, token, account), inputs);
    RunFits(login, token, account, inputs);
    assert Reachable(s);
    SubscriptionCoverage(s);
  }

  // ---------------------------------------------------------------- waiting for acknowledgements

  /** What the client that connected last was asked for and has neither acknowledged nor been
      asked to drop. */
  function Awaited(record: Record): set<string> {
    match record
    case Blank => {}
    case Then(earlier, Received(OnConnect(_), true)) => {}
    case Then(earlier, Subscribed(_, _, filters)) => Awaited(earlier) + filters
    case Then(earlier, Unsubscribed(_, _, filter)) => Awaited(earlier) - {filter}
    case Then(earlier, Received(OnSubscribeCallback(filters), _)) => Awaited(earlier) - filters
    case Then(earlier, _) => Awaited(earlier)
  }

  /** Nothing is published, and no connected status handed over, while something is awaited. */
  predicate Waits(record: Record) {
    match record
    case Blank => true
    case Then(earlier, last) => Waits(earlier) && (last.Published? || last.ConnectedStatus? ==> Awaited(earlier) == {})
  }

  predicate Patient(s: Service) {
    && Waits(s.record)
    && (s.state.Subscribing() ==> s.state.pending == Awaited(s.record))
    && (s.state.Connected? ==> Awaited(s.record) == {})
  }

  lemma {:induction false} ReplayWaits(s: Service, link: Link, commands: seq<Command>)
    requires Waits(s.record) && Awaited(s.record) == {}
    ensures var t := Replay(s, link, commands); t == s.(record := t.record) && Waits(t.record) && Awaited(t.record) == {}
    decreases |commands|
  {
    if commands != [] {
      ReplayWaits(if commands[0].PublishCommand?
                  then Emit(s, Published(link.connectionId, link.account, commands[0].item)) else s,
                  link, commands[1..]);
    }
  }

  lemma {:induction false} FinishWaits(s: Service, link: Link, commands: seq<Command>)
    requires Waits(s.record) && Awaited(s.record) == {}
    ensures Patient(FinishConnect(s, link, commands)) && Patient(SetState(Replay(s, link, commands), Connected(link)))
  {
    ReplayWaits(Emit(s, ConnectedStatus(link)), link, commands);
    ReplayWaits(s, link, commands);
  }

  lemma {:induction false} ShrinkWaits(s: Service, pending: set<string>)
    requires s.state.Subscribing() && Waits(s.record) && Awaited(s.record) == pending
    ensures Patient(ShrinkPending(s, pending))
  {
    if pending == {} { FinishWaits(s, s.state.link, s.state.commands); }
  }

  lemma {:induction false} SubscribeWaits(s: Service, filter: string)
    requires Patient(s)
    ensures Patient(StepSubscribe(s, filter))
  {
    if Accepts(s, CallSubscribe(filter)) && Increments(s.refs, filter) {
      var added := s.(next := s.next + 1, subscriptions := s.subscriptions[s.next := filter], refs := Increment(s.refs, filter));
      if s.state.Live() { LiveSubscribeWaits(added, filter); }
    }
  }

  lemma {:induction false} LiveSubscribeWaits(s: Service, filter: string)
    requires Patient(s) && s.state.Live()
    ensures Patient(LiveSubscribe(s, filter))
  {
    if s.state.Connected? {
      assert Awaited(SetState(s, SubscribingAfterConnected(s.state.link, [], {filter})).record) == {};
      assert {} + {filter} == {filter};
    } else if filter !in s.state.pending {
      assert Awaited(KeepSubscribing(s, s.state.commands, s.state.pending + {filter}).record) == s.state.pending;
    }
  }

  lemma {:induction false} CloseWaits(s: Service, id: Uuid)
    requires Patient(s)
    ensures Patient(StepClose(s, id))
  {
    if id in s.subscriptions && DropsLast(s.refs, s.subscriptions[id]) && s.state.Live() {
      var filter := s.subscriptions[id];
      var removed := s.(subscriptions := s.subscriptions - {id}, refs := Decrement(s.refs, filter));
      var told := Emit(removed, Unsubscribed(s.state.link.connectionId, s.state.link.account, filter));
      assert Awaited(told.record) == Awaited(s.record) - {filter};
      if s.state.Subscribing() { ShrinkWaits(told, s.state.pending - {filter}); }
    }
  }

  lemma {:induction false} ConnectWaits(s: Service, id: Uuid)
    requires Waits(s.record) && Awaited(s.record) == {} && Accepts(s, OnConnect(id))
    ensures Patient(StepConnectEvent(s, id))
  {
    var (link, commands) := (s.state.link, s.state.commands);
    if s.refs.Keys == {} {
      FinishWaits(s, link, commands);
    } else {
      assert Awaited(SetState(s, SubscribingOnConnect(link, commands, s.refs.Keys)).record) == {};
      assert {} + s.refs.Keys == s.refs.Keys;
    }
  }

  lemma {:induction false} CallbackWaits(s: Service, received: Service, filters: set<string>)
    requires Patient(s) && received == Emit(s, Received(OnSubscribeCallback(filters), true))
    ensures Patient(StepCallback(received, filters))
  {
    assert Awaited(received.record) == Awaited(s.record) - filters;
    if s.state.Subscribing() { ShrinkWaits(received, s.state.pending - filters); }
  }

  lemma {:induction false} StepWaits(s: Service, input: Input)
    requires Patient(s)
    ensures Patient(Step(s, input))
  {
    var received := Emit(s, Received(input, Accepts(s, input)));
    match input
    case CallSubscribe(filter) => SubscribeWaits(received, filter);
    case CallClose(id) => CloseWaits(received, id);
    case OnConnect(id) => if Accepts(s, input) { ConnectWaits(received, id); }
    case OnSubscribeCallback(filters) => CallbackWaits(s, received, filters);
    case _ => OtherWaits(s, input);
  }

  lemma {:induction false} OtherWaits(s: Service, input: Input)
    requires Patient(s) && !input.CallSubscribe? && !input.CallClose? && !input.OnConnect? && !input.OnSubscribeCallback?
    ensures Patient(Step(s, input))
  {
    var received := Emit(s, Received(input, Accepts(s, input)));
    assert Patient(received);
  }

  /** In every run what a subscribing client has pending is exactly what it was asked for since
      it connected and has not acknowledged; a client counts as connected exactly when that is
      nothing; and only then is anything published on it or its connected status handed over. */
  lemma {:induction false} RunWaits(login: bool, token: bool, account: string, inputs: seq<Input>)
    ensures var s := Run(Initial(login, token, account), inputs);
      && Waits(s.record)
      && (s.state.Subscribing() ==> s.state.pending == Awaited(s.record))
      && (s.state.Connected? ==> Awaited(s.record) == {})
    decreases |inputs|
  {
    if inputs != [] {
      RunWaits(login, token, account, inputs[..|inputs| - 1]);
      StepWaits(Run(Initial(login, token, account), inputs[..|inputs| - 1]), inputs[|inputs| - 1]);
    }
  }

  /** So a client that is up is connected exactly if nothing is awaited. */
  lemma {:induction false} ConnectedExactly(login: bool, token: bool, account: string, inputs: seq<Input>)
    ensures var s := Run(Initial(login, token, account), inputs);
      s.state.Live() ==> (s.state.Connected? <==> Awaited(s.record) == {})
  {
    RunWaits(login, token, account, inputs);
    assert Reachable(Run(Initial(login, token, account), inputs));
    SubscriptionCoverage(Run(Initial(login, token, account), inputs));
  }
}
