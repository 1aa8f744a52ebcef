/** The baby station's session on top of the MQTT client service. The session hears of
    every change of the service's state and announces itself on the way. */
module BabySession {
  import opened Options
  import opened MqttMachine
  import opened MqttInvariants
  import MqttService

  datatype Session = Idle | Starting(name: string) | Running(announcement: Announcement, subscription: Uuid)

  datatype System = System(service: Service, session: Session)

  /** `now` is the clock when the input arrives. */
  datatype Act = StartSession(name: string) | EndSession(now: int) | Mqtt(input: Input, now: int)

  const PARENT_STATIONS := "parent_stations"

  function AnnouncementItem(a: Announcement): Item {
    Message("baby_stations", BabyStation(a))
  }

  predicate JustConnected(record: Record) {
    record.Then? && record.last.Changed? && record.last.after.Connected?
  }

  /** The service after the session's subscription, before its first announcement. */
  function Subscribing(s: Service): Service {
    Step(s.(next := s.next + 1), CallSubscribe(PARENT_STATIONS))
  }

  /** The session's first announcement, once it has subscribed to the parent stations. */
  function Start(s: Service, a: Announcement): Service {
    Step(Subscribing(s), CallPublish(AnnouncementItem(a)))
  }

  /** The session's listener, after a step of the service. A step changes the state at
      most once, and the change to Connected is the last thing a step does. */
  function React(y: System, now: int): System {
    if !JustConnected(y.service.record) then y
    else
      var (before, link) := (y.service.record.last.before, y.service.record.last.after.link);
      match y.session
      case Idle => y
      case Starting(name) =>
        var a := Announcement(link.connectionId, y.service.next, name, now);
        System(Start(y.service, a), Running(a, y.service.next + 1))
      case Running(a, _) =>
        if before.SubscribingOnConnect? then y.(service := Step(y.service, CallPublish(AnnouncementItem(a)))) else y
  }

  function Deliver(y: System, input: Input, now: int): System {
    React(y.(service := Step(y.service, input)), now)
  }

  function Next(y: System, act: Act): System {
    match act
    case StartSession(name) =>
      if y.session.Idle? then System(Step(y.service, CallConnect), Starting(name)) else y
    case EndSession(now) =>
      if y.session.Running? then
        var closed := Deliver(y, CallClose(y.session.subscription), now);
        Deliver(closed, CallDisconnect, now).(session := Idle)
      else y
    case Mqtt(input, now) => Deliver(y, input, now)
  }

  /** The session keeps its subscription to itself, so nobody else closes it. */
  predicate Allowed(y: System, act: Act) {
    act.Mqtt? && act.input.CallClose? && y.session.Running? ==> act.input.subscription != y.session.subscription
  }

  ghost predicate Reaches(start: System, acts: seq<Act>, end: System)
    decreases |acts|
  {
    if acts == [] then end == start
    else Allowed(start, acts[0]) && Reaches(Next(start, acts[0]), acts[1..], end)
  }

  ghost predicate ReachableSystem(y: System) {
    exists login, token, account, acts :: Reaches(System(Initial(login, token, account), Idle), acts, y)
  }

  // ---------------------------------------------------------------- what every run keeps

  ghost predicate HoldsSubscription(y: System) {
    y.session.Running? ==>
      && y.session.subscription in y.service.subscriptions
      && y.service.subscriptions[y.session.subscription] == PARENT_STATIONS
  }

  predicate PastSubscribing(state: State) {
    state.SubscribingAfterConnected? || state.Connected?
  }

  /** A running session holds its subscription, and once it is connected past the
      subscribing phase its announcement has been accepted since the last connect. */
  ghost predicate Announced(y: System) {
    && HoldsSubscription(y)
    && (y.session.Running? && PastSubscribing(y.service.state) ==>
        AnnouncementItem(y.session.announcement) in Read(y.service.record).promised)
  }

  /** Leaving the subscribing phase touches neither the subscriptions nor what was promised. */
  lemma ShrinkFrame(s: Service, pending: set<string>)
    requires s.state.Subscribing()
    ensures var t := ShrinkPending(s, pending);
      && t == s.(state := t.state, record := t.record)
      && Read(t.record).promised == Read(s.record).promised
      && t.state.Live() && t.state.link == s.state.link
      && (s.state.SubscribingOnConnect? || !t.state.SubscribingOnConnect?)
      && (t.state.Connected? ==> t.record.Then? && t.record.last == Changed(s.state, t.state))
  {
    var told := Emit(s, ConnectedStatus(s.state.link));
    ReplayFrame(told, s.state.link, s.state.commands);
    ReplayFrame(s, s.state.link, s.state.commands);
  }

  lemma SubscriptionsKept(s: Service, input: Input, id: Uuid)
    requires Inv(s) && id in s.subscriptions && input != CallClose(id)
    ensures id in Step(s, input).subscriptions && Step(s, input).subscriptions[id] == s.subscriptions[id]
  {
    var received := Emit(s, Received(input, Accepts(s, input)));
    match input
    case OnConnect(_) =>
      if Accepts(s, input) {
        ReplayFrame(Emit(received, ConnectedStatus(s.state.link)), s.state.link, s.state.commands);
      }
    case OnSubscribeCallback(filters) =>
      if s.state.Subscribing() { ShrinkFrame(received, s.state.pending - filters); }
    case CallClose(other) => CloseFrame(received, other);
    case _ =>
  }

  lemma CloseFrame(s: Service, id: Uuid)
    ensures var t := StepClose(s, id);
      && t.subscriptions == s.subscriptions - {id}
      && Read(t.record).promised == Read(s.record).promised
  {
    if id in s.subscriptions && DropsLast(s.refs, s.subscriptions[id]) && s.state.Subscribing() {
      var filter := s.subscriptions[id];
      var removed := s.(subscriptions := s.subscriptions - {id}, refs := Decrement(s.refs, filter));
      var e := Unsubscribed(s.state.link.connectionId, s.state.link.account, filter);
      ShrinkFrame(Emit(removed, e), s.state.pending - {filter});
    }
  }

  /** The service counts the running session's filter. */
  lemma ParentStationsCounted(y: System)
    requires Inv(y.service) && Announced(y) && y.session.Running?
    ensures PARENT_STATIONS in y.service.refs && y.service.refs[PARENT_STATIONS] > 0
  {
    assert y.session.subscription in OpenSubscriptions(y.service.subscriptions, PARENT_STATIONS);
  }

  lemma DisconnectFrame(s: Service)
    ensures Read(StepDisconnectCall(s).record).promised == Read(s.record).promised
  {
    if s.state.HasLink() {
      var told := if s.state.Connected? then Emit(s, DisconnectedStatus(s.state.link)) else s;
      assert Read(told.record).promised == Read(s.record).promised;
      assert Read(Emit(told, Ended(s.state.link.connectionId)).record).promised == Read(told.record).promised;
    }
  }

  /** What was accepted stays accepted until the next accepted connect event. */
  lemma PromisesKept(s: Service, input: Input)
    requires !(input.OnConnect? && Accepts(s, input))
    ensures forall item :: item in Read(s.record).promised ==> item in Read(Step(s, input).record).promised
  {
    var received := Emit(s, Received(input, Accepts(s, input)));
    assert input.CallPublish? || Read(received.record).promised == Read(s.record).promised;
    match input
    case OnSubscribeCallback(filters) =>
      if s.state.Subscribing() { ShrinkFrame(received, s.state.pending - filters); }
    case CallClose(id) => CloseFrame(received, id);
    case CallDisconnect => DisconnectFrame(received);
    case CallSubscribe(filter) => SubscribeFrame(received, filter);
    case AuthorizationChanged(login, token, account) => AuthorizationFrame(received, login, token, account);
    case OnReconnect(id) => ReconnectFrame(received, id);
    case OnClose(id) => DropFrame(received, id);
    case OnOffline(id) => DropFrame(received, id);
    case CallConnect => ConnectCallFrame(received);
    case _ =>
  }

  lemma ConnectCallFrame(s: Service)
    ensures Read(StepConnectCall(s).record).promised == Read(s.record).promised
  {
  }

  lemma SubscribeFrame(s: Service, filter: string)
    ensures Read(StepSubscribe(s, filter).record).promised == Read(s.record).promised
  {
  }

  lemma AuthorizationFrame(s: Service, login: bool, token: bool, account: Option<string>)
    ensures Read(StepAuthorization(s, login, token, account).record).promised == Read(s.record).promised
  {
  }

  lemma ReconnectFrame(s: Service, id: Uuid)
    ensures Read(StepReconnectEvent(s, id).record).promised == Read(s.record).promised
  {
  }

  lemma DropFrame(s: Service, id: Uuid)
    ensures Read(StepDropEvent(s, id).record).promised == Read(s.record).promised
  {
  }

  /** Past the subscribing phase is reached from past it, from it by a change noted last,
      or straight from a connect event when no filter is counted. */
  lemma HowConnected(s: Service, input: Input)
    ensures var t := Step(s, input);
      PastSubscribing(t.state) ==>
        || PastSubscribing(s.state)
        || (s.state.SubscribingOnConnect? && JustConnected(t.record) && t.record.last.before.SubscribingOnConnect?)
        || (Accepts(s, input) && input.OnConnect? && s.refs.Keys == {})
  {
    var received := Emit(s, Received(input, Accepts(s, input)));
    if s.state.SubscribingOnConnect? {
      match input
      case OnSubscribeCallback(filters) => ShrinkFrame(received, s.state.pending - filters);
      case CallClose(id) =>
        if id in s.subscriptions && DropsLast(s.refs, s.subscriptions[id]) {
          var filter := s.subscriptions[id];
          var removed := received.(subscriptions := s.subscriptions - {id}, refs := Decrement(s.refs, filter));
          ShrinkFrame(Emit(removed, Unsubscribed(s.state.link.connectionId, s.state.link.account, filter)),
                      s.state.pending - {filter});
        }
      case _ =>
    }
  }

  lemma LastChangeHolds(s: Service, input: Input)
    ensures JustConnected(Step(s, input).record) ==> Step(s, input).state.Connected?
  {
  }

  lemma PublishPromises(s: Service, item: Item)
    requires PastSubscribing(s.state) && Inv(s)
    ensures var t := Step(s, CallPublish(item));
      && Inv(t) && item in Read(t.record).promised
      && t.subscriptions == s.subscriptions
  {
    StepKeeps(s, CallPublish(item));
    assert item in Read(Emit(s, Received(CallPublish(item), true)).record).promised;
  }

  lemma DrawKeeps(s: Service)
    requires Inv(s)
    ensures Inv(s.(next := s.next + 1))
  {
    assert AllBelow(s.subscriptions.Keys, s.next + 1);
  }

  lemma SubscribingKeeps(s: Service)
    requires Inv(s)
    ensures Inv(Subscribing(s))
  {
    var drawn := s.(next := s.next + 1);
    DrawKeeps(s);
    StepKeeps(drawn, CallSubscribe(PARENT_STATIONS));
    assert Subscribing(s) == Step(drawn, CallSubscribe(PARENT_STATIONS));
  }

  lemma SubscribingFrame(s: Service)
    requires s.state.Connected?
    ensures Subscribing(s).subscriptions == s.subscriptions[s.next + 1 := PARENT_STATIONS]
    ensures PastSubscribing(Subscribing(s).state)
  {
  }

  lemma StartPromises(s: Service, a: Announcement)
    requires s.state.Connected? && Inv(s)
    ensures Inv(Start(s, a)) && AnnouncementItem(a) in Read(Start(s, a).record).promised
    ensures Start(s, a).subscriptions == s.subscriptions[s.next + 1 := PARENT_STATIONS]
  {
    var subscribing := Subscribing(s);
    assert Inv(subscribing) && PastSubscribing(subscribing.state)
        && subscribing.subscriptions == s.subscriptions[s.next + 1 := PARENT_STATIONS] by {
      SubscribingKeeps(s);
      SubscribingFrame(s);
    }
    PublishPromises(subscribing, AnnouncementItem(a));
  }

  lemma ReactInv(y: System, now: int)
    requires Inv(y.service)
    requires JustConnected(y.service.record) ==> y.service.state.Connected?
    ensures Inv(React(y, now).service)
  {
    if JustConnected(y.service.record) {
      match y.session
      case Idle =>
      case Starting(name) =>
        StartPromises(y.service, Announcement(y.service.record.last.after.link.connectionId, y.service.next, name, now));
      case Running(a, _) => PublishPromises(y.service, AnnouncementItem(a));
    }
  }

  /** The listener keeps the promise where the step before it did, or left it to the listener. */
  lemma ReactAnnounces(y: System, now: int)
    requires Inv(y.service) && HoldsSubscription(y)
    requires JustConnected(y.service.record) ==> y.service.state.Connected?
    requires Announced(y) || (JustConnected(y.service.record) && y.service.record.last.before.SubscribingOnConnect?)
    ensures Announced(React(y, now))
  {
    if JustConnected(y.service.record) {
      match y.session
      case Idle =>
      case Starting(name) =>
        StartPromises(y.service, Announcement(y.service.record.last.after.link.connectionId, y.service.next, name, now));
      case Running(a, _) => PublishPromises(y.service, AnnouncementItem(a));
    }
  }

  lemma DeliverKeeps(y: System, input: Input, now: int)
    requires Inv(y.service) && Announced(y)
    requires y.session.Running? ==> input != CallClose(y.session.subscription)
    ensures Inv(Deliver(y, input, now).service) && Announced(Deliver(y, input, now))
  {
    var s := y.service;
    StepKeeps(s, input);
    LastChangeHolds(s, input);
    if y.session.Running? {
      ParentStationsCounted(y);
      SubscriptionsKept(s, input, y.session.subscription);
      HowConnected(s, input);
      if PastSubscribing(s.state) { PromisesKept(s, input); }
    }
    ReactInv(y.(service := Step(s, input)), now);
    ReactAnnounces(y.(service := Step(s, input)), now);
  }

  lemma NextKeeps(y: System, act: Act)
    requires Inv(y.service) && Announced(y) && Allowed(y, act)
    ensures Inv(Next(y, act).service) && Announced(Next(y, act))
  {
    match act
    case StartSession(_) => StepKeeps(y.service, CallConnect);
    case EndSession(now) =>
      if y.session.Running? {
        var close := CallClose(y.session.subscription);
        StepKeeps(y.service, close);
        LastChangeHolds(y.service, close);
        ReactInv(y.(service := Step(y.service, close)), now);
        var closed := Deliver(y, close, now);
        StepKeeps(closed.service, CallDisconnect);
        LastChangeHolds(closed.service, CallDisconnect);
        ReactInv(closed.(service := Step(closed.service, CallDisconnect)), now);
      }
    case Mqtt(input, now) => DeliverKeeps(y, input, now);
  }

  lemma {:induction false} ReachesKeeps(start: System, acts: seq<Act>, end: System)
    requires Reaches(start, acts, end) && Inv(start.service) && Announced(start)
    ensures Inv(end.service) && Announced(end)
    decreases |acts|
  {
    if acts != [] {
      NextKeeps(start, acts[0]);
      ReachesKeeps(Next(start, acts[0]), acts[1..], end);
    }
  }

  lemma InitialKeeps(login: bool, token: bool, account: string)
    ensures Inv(Initial(login, token, account))
  {
  }

  lemma ConnectSubscribes(s: Service, id: Uuid)
    requires Accepts(s, OnConnect(id)) && PARENT_STATIONS in s.refs
    ensures Step(s, OnConnect(id)).state.SubscribingOnConnect?
  {
    assert PARENT_STATIONS in s.refs.Keys;
  }

  /** Re-announcement. While a session runs, its filter is counted, so an accepted connect
      event leads into SubscribingOnConnect and nowhere else; and wherever the service is
      connected past that phase, the session's announcement has been accepted since the
      last accepted connect event, whichever drops and reconnects came before. */
  lemma Reannouncement(y: System)
    requires ReachableSystem(y) && y.session.Running?
    ensures "parent_stations" in y.service.refs && y.service.refs["parent_stations"] > 0
    ensures forall id :: Accepts(y.service, OnConnect(id)) ==> Step(y.service, OnConnect(id)).state.SubscribingOnConnect?
    ensures y.service.state.SubscribingAfterConnected? || y.service.state.Connected? ==>
      Message("baby_stations", BabyStation(y.session.announcement)) in Read(y.service.record).promised
  {
    var login, token, account, acts :| Reaches(System(Initial(login, token, account), Idle), acts, y);
    InitialKeeps(login, token, account);
    ReachesKeeps(System(Initial(login, token, account), Idle), acts, y);
    ParentStationsCounted(y);
    forall id | Accepts(y.service, OnConnect(id)) ensures Step(y.service, OnConnect(id)).state.SubscribingOnConnect? {
      ConnectSubscribes(y.service, id);
    }
  }

  // ---------------------------------------------------------------- the session as an object

  /** The session service: it replaces its own state and calls the MQTT service it was given. */
  class SessionService {
    const mqtt: MqttService.Service
    var state: Session

    ghost function Model(): System
      reads this, mqtt
    {
      System(mqtt.Model(), state)
    }

    ghost predicate Valid()
      reads this, mqtt
    {
      mqtt.Valid() && Announced(Model())
    }

    constructor (mqtt: MqttService.Service)
      requires mqtt.Valid()
      ensures this.mqtt == mqtt && Model() == System(mqtt.Model(), Idle) && Valid()
    {
      this.mqtt := mqtt;
      state := Idle;
    }

    method Begin(name: string, link: Link, now: int)
      requires mqtt.Valid() && mqtt.state.Connected?
      modifies this, mqtt
      ensures mqtt.Valid()
      ensures var a := Announcement(link.connectionId, old(mqtt.nextUuid), name, now);
        mqtt.Model() == Start(old(mqtt.Model()), a) && state == Running(a, old(mqtt.nextUuid) + 1)
    {
      ghost var was := mqtt.Model();
      DrawKeeps(was);
      var sessionId := mqtt.NewUuid();
      assert mqtt.Model() == was.(next := was.next + 1);
      var announcement := Announcement(link.connectionId, sessionId, name, now);
      assert Accepts(mqtt.Model(), CallSubscribe(PARENT_STATIONS));
      var subscription := mqtt.SubscribeWithCallback(PARENT_STATIONS);
      assert mqtt.Model() == Subscribing(was);
      var _ := mqtt.Publish(AnnouncementItem(announcement));
      assert mqtt.Model() == Start(was, announcement);
      state := Running(announcement, subscription.value);
    }

    /** The listener for the service's state changes. */
    method HandleMqttServiceStateChanged(now: int)
      requires mqtt.Valid()
      requires JustConnected(mqtt.record) ==> mqtt.state.Connected?
      modifies this, mqtt
      ensures mqtt.Valid() && Model() == React(old(Model()), now)
    {
      ReactInv(Model(), now);
      if !JustConnected(mqtt.record) {
        return;
      }
      match state {
        case Idle =>
        case Starting(name) =>
          Begin(name, mqtt.record.last.after.link, now);
        case Running(announcement, _) =>
          if mqtt.record.last.before.SubscribingOnConnect? {
            var _ := mqtt.Publish(AnnouncementItem(announcement));
          }
      }
    }

    method StartSession(name: string)
      requires Valid()
      modifies this, mqtt
      ensures Valid() && Model() == Next(old(Model()), Act.StartSession(name))
    {
      NextKeeps(Model(), Act.StartSession(name));
      if state.Idle? {
        mqtt.Connect();
        state := Starting(name);
      }
    }

    method EndSession(now: int)
      requires Valid()
      modifies this, mqtt
      ensures Valid() && Model() == Next(old(Model()), Act.EndSession(now))
    {
      NextKeeps(Model(), Act.EndSession(now));
      if state.Running? {
        LastChangeHolds(mqtt.Model(), CallClose(state.subscription));
        mqtt.Close(state.subscription);
        HandleMqttServiceStateChanged(now);
        LastChangeHolds(mqtt.Model(), CallDisconnect);
        mqtt.Disconnect();
        HandleMqttServiceStateChanged(now);
        state := Idle;
      }
    }
  }
}
