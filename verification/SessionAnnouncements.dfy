/** What the baby station's session says and when: with which words it announces itself, on
    which connects, and what ending it leaves. */
module SessionAnnouncements {
  import opened MqttMachine
  import opened MqttInvariants
  import opened BabySession

  lemma {:induction false} FinishAccepts(s: Service, link: Link, commands: seq<Command>)
    ensures var t := FinishConnect(s, link, commands);
      && t.state == Connected(link) && t.record.Then? && t.record.last == Changed(s.state, Connected(link))
      && Read(t.record).accepted == Read(s.record).accepted
    ensures var t := SetState(Replay(s, link, commands), Connected(link));
      && t.record.Then? && t.record.last == Changed(s.state, Connected(link))
      && Read(t.record).accepted == Read(s.record).accepted
  {
    ReplayReads(Emit(s, ConnectedStatus(link)), link, commands);
    ReplayReads(s, link, commands);
  }

  lemma {:induction false} ShrinkAccepts(s: Service, pending: set<string>)
    requires s.state.Subscribing()
    ensures Read(ShrinkPending(s, pending).record).accepted == Read(s.record).accepted
    ensures JustConnected(ShrinkPending(s, pending).record) ==>
      ShrinkPending(s, pending).state == Connected(s.state.link) && ShrinkPending(s, pending).record.last.after == Connected(s.state.link)
  {
    FinishAccepts(s, s.state.link, s.state.commands);
  }

  lemma {:induction false} CloseAccepts(s: Service, id: Uuid)
    ensures JustConnected(StepClose(s, id).record) && !JustConnected(s.record) ==>
      && Read(StepClose(s, id).record).accepted == Read(s.record).accepted
      && StepClose(s, id).state.Connected? && StepClose(s, id).record.last.after == StepClose(s, id).state
  {
    if id in s.subscriptions && DropsLast(s.refs, s.subscriptions[id]) && s.state.Subscribing() {
      var filter := s.subscriptions[id];
      var removed := s.(subscriptions := s.subscriptions - {id}, refs := Decrement(s.refs, filter));
      ShrinkAccepts(Emit(removed, Unsubscribed(s.state.link.connectionId, s.state.link.account, filter)), s.state.pending - {filter});
    }
  }

  /** A step that ends in Connected accepts no publish. */
  lemma {:induction false} ConnectingAccepts(s: Service, input: Input)
    requires JustConnected(Step(s, input).record)
    ensures var t := Step(s, input);
      t.state.Connected? && t.record.last.after == t.state && Read(t.record).accepted == Read(s.record).accepted
  {
    var received := Emit(s, Received(input, Accepts(s, input)));
    match input
    case OnConnect(_) => if Accepts(s, input) { FinishAccepts(received, s.state.link, s.state.commands); }
    case OnSubscribeCallback(filters) => if s.state.Subscribing() { ShrinkAccepts(received, s.state.pending - filters); }
    case CallClose(id) => CloseAccepts(received, id);
    case _ =>
  }

  lemma {:induction false} SubscribeAccepts(s: Service, filter: string)
    requires s.state.Connected?
    ensures var t := Step(s, CallSubscribe(filter));
      && Read(t.record).accepted == Read(s.record).accepted && t.state.HasLink() && t.state.link == s.state.link
      && t.subscriptions == s.subscriptions[s.next := filter]
  {
    var received := Emit(s, Received(CallSubscribe(filter), true));
    assert Read(received.record) == Read(s.record);
    if Increments(s.refs, filter) {
      var asked := SetState(received, SubscribingAfterConnected(s.state.link, [], {filter}));
      assert Read(asked.record) == Read(s.record);
      assert Read(Emit(asked, Subscribed(s.state.link.connectionId, s.state.link.account, {filter})).record).accepted
          == Read(s.record).accepted;
    }
  }

  lemma {:induction false} PublishAccepts(s: Service, item: Item)
    requires s.state.HasLink()
    ensures var t := Step(s, CallPublish(item));
      && Read(t.record).accepted == Read(s.record).accepted + [item] && t.state.HasLink() && t.state.link == s.state.link
      && t.subscriptions == s.subscriptions
  {
  }

  /** What the session says of itself. */
  function Words(a: Announcement): Item { Message("baby_stations", BabyStation(a)) }

  /** A session that is starting begins when its client has connected, and not before: it
      subscribes to the parent stations and announces, once, the connection it is on, its name
      and the time. */
  lemma {:induction false} BeginsOnceConnected(y: System, input: Input, now: int)
    requires y.session.Starting?
    ensures var (t, z) := (Step(y.service, input), Next(y, Mqtt(input, now)));
      if JustConnected(t.record) then
        && t.state.Connected? && z.session.Running? && z.service.state.HasLink() && z.service.state.link == t.state.link
        && var a := z.session.announcement;
           && a.connectionId == t.state.link.connectionId && a.name == y.session.name && a.startedAtMillis == now
           && a.sessionId >= t.next
           && Read(z.service.record).accepted == Read(y.service.record).accepted + [Words(a)]
           && z.service.subscriptions == t.subscriptions[z.session.subscription := "parent_stations"]
      else z == y.(service := t)
  {
    var t := Step(y.service, input);
    if JustConnected(t.record) {
      ConnectingAccepts(y.service, input);
      var a := Announcement(t.state.link.connectionId, t.next, y.session.name, now);
      assert Next(y, Mqtt(input, now)) == System(Start(t, a), Running(a, t.next + 1)) by { ReactBegins(t, y.session.name, now); }
      BeginAccepts(t, a);
    }
  }

  lemma {:induction false} ReactBegins(t: Service, name: string, now: int)
    requires JustConnected(t.record) && t.state.Connected? && t.record.last.after == t.state
    ensures var a := Announcement(t.state.link.connectionId, t.next, name, now);
      React(System(t, Starting(name)), now) == System(Start(t, a), Running(a, t.next + 1))
  {
  }

  lemma {:induction false} BeginAccepts(s: Service, a: Announcement)
    requires s.state.Connected?
    ensures var t := Start(s, a);
      && Read(t.record).accepted == Read(s.record).accepted + [Words(a)] && t.state.HasLink() && t.state.link == s.state.link
      && t.subscriptions == s.subscriptions[s.next + 1 := "parent_stations"]
  {
    SubscribeAccepts(s.(next := s.next + 1), "parent_stations");
    PublishAccepts(Subscribing(s), Words(a));
  }

  /** A running session announces itself again, once and in the same words, whenever its client
      has connected through the subscribing phase of a connect, and at no other time. */
  lemma {:induction false} AnnouncesAgain(y: System, input: Input, now: int)
    requires y.session.Running?
    ensures var (t, z) := (Step(y.service, input), Next(y, Mqtt(input, now)));
      && z.session == y.session
      && if JustConnected(t.record) && t.record.last.before.SubscribingOnConnect? then
           Read(z.service.record).accepted == Read(y.service.record).accepted + [Words(y.session.announcement)]
         else z.service == t
  {
    var t := Step(y.service, input);
    if JustConnected(t.record) {
      ConnectingAccepts(y.service, input);
      PublishAccepts(t, Words(y.session.announcement));
    }
  }

  /** Starting a session asks the service to connect, once. */
  lemma {:induction false} StartAsks(y: System, name: string)
    ensures var z := Next(y, StartSession(name));
      && (y.session.Idle? ==> z.session == Starting(name) && z.service.record.Then? && Heard(z.service.record, y.service.record))
      && (!y.session.Idle? ==> z == y)
  {
  }

  /** The first thing since `was` is a call to connect. */
  predicate Heard(record: Record, was: Record) {
    record.Then? && (record == Then(was, Received(CallConnect, true)) || Heard(record.earlier, was))
  }

  lemma {:induction false} DisconnectLeaves(s: Service)
    ensures var t := Step(s, CallDisconnect);
      !t.state.HasLink() && t.subscriptions == s.subscriptions && !JustConnected(t.record)
  {
  }

  lemma {:induction false} CloseRemoves(s: Service, id: Uuid)
    ensures Step(s, CallClose(id)).subscriptions == s.subscriptions - {id}
  {
    CloseFrame(Emit(s, Received(CallClose(id), true)), id);
  }

  lemma {:induction false} PublishKeeps(s: Service, item: Item)
    ensures Step(s, CallPublish(item)).subscriptions == s.subscriptions
  {
  }

  /** Ending a running session closes its subscription and leaves no client. */
  lemma {:induction false} EndLeavesNothing(y: System, now: int)
    requires y.session.Running?
    ensures var z := Next(y, EndSession(now));
      && z.session.Idle? && !z.service.state.HasLink()
      && z.service.subscriptions == y.service.subscriptions - {y.session.subscription}
  {
    var close := CallClose(y.session.subscription);
    CloseRemoves(y.service, y.session.subscription);
    PublishKeeps(Step(y.service, close), AnnouncementItem(y.session.announcement));
    var closed := Deliver(y, close, now);
    assert closed.service.subscriptions == y.service.subscriptions - {y.session.subscription};
    DisconnectLeaves(closed.service);
  }
}
