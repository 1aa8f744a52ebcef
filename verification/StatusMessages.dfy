/** Client status messages, the keys by which they are told apart, and what a log says of
    them. */
module StatusMessages {
  import opened Events

  datatype Message = Message(account: string, client: string, connection: string, request: string)

  function Segment(name: string, id: string, rest: string): string {
    name + (id + ("/" + rest))
  }

  function GetKey(m: Message): string {
    Segment("accounts/", m.account, Segment("clients/", m.client, Segment("connections/", m.connection, "requests/" + m.request)))
  }

  /** The key of an account's client, or of one of its connections, in a map. */
  function AccountKey(account: string, id: string): string {
    account + ("\0" + id)
  }

  // ---------------------------------------------------------------- keys are injective

  /** The text before the first separator, and so what follows it, is determined. */
  lemma {:induction false} SplitOnce(a: string, x: string, b: string, y: string, separator: char)
    requires separator !in a && separator !in b && a + ([separator] + x) == b + ([separator] + y)
    ensures a == b && x == y
  {
    var (s, t) := (a + ([separator] + x), b + ([separator] + y));
    assert s[0] == if a == [] then separator else a[0];
    assert t[0] == if b == [] then separator else b[0];
    if a == [] || b == [] {
      assert s[1..] == x && t[1..] == y;
    } else {
      assert s[1..] == a[1..] + ([separator] + x) && t[1..] == b[1..] + ([separator] + y);
      SplitOnce(a[1..], x, b[1..], y, separator);
      assert a == [a[0]] + a[1..] && b == [b[0]] + b[1..];
    }
  }

  lemma SameTail(prefix: string, x: string, y: string)
    requires prefix + x == prefix + y
    ensures x == y
  {
    assert (prefix + x)[|prefix|..] == x && (prefix + y)[|prefix|..] == y;
  }

  lemma SegmentInjective(name: string, id: string, rest: string, id': string, rest': string)
    requires '/' !in id && '/' !in id' && Segment(name, id, rest) == Segment(name, id', rest')
    ensures id == id' && rest == rest'
  {
    SameTail(name, id + ("/" + rest), id' + ("/" + rest'));
    SplitOnce(id, rest, id', rest', '/');
  }

  // ---------------------------------------------------------------- when keys collide

  /** Account and client come from the topic, which keeps them free of slashes; connection and
      request come from the payload, which does not. */
  predicate FromTopic(m: Message) { '/' !in m.account && '/' !in m.client }

  const REQUESTS := "/requests/"

  /** What the key prints after the connection's label. */
  function Tail(connection: string, request: string): string { connection + REQUESTS + request }

  predicate Starts(part: string, whole: string) { |part| <= |whole| && part == whole[..|part|] }

  lemma KeyPrints(m: Message)
    ensures GetKey(m) == "accounts/" + (m.account + ("/" + ("clients/" + (m.client + ("/" + ("connections/" + Tail(m.connection, m.request)))))))
  {
    assert "/" + ("requests/" + m.request) == REQUESTS + m.request;
    assert m.connection + (REQUESTS + m.request) == Tail(m.connection, m.request);
  }

  /** Two messages share a key exactly if account and client are equal and the two tails are. */
  lemma SameKey(m: Message, n: Message)
    requires FromTopic(m) && FromTopic(n)
    ensures GetKey(m) == GetKey(n) <==>
      m.account == n.account && m.client == n.client && Tail(m.connection, m.request) == Tail(n.connection, n.request)
  {
    KeyPrints(m);
    KeyPrints(n);
    if GetKey(m) == GetKey(n) {
      var (mTail, nTail) := ("connections/" + Tail(m.connection, m.request), "connections/" + Tail(n.connection, n.request));
      SegmentInjective("accounts/", m.account, Segment("clients/", m.client, mTail),
                       n.account, Segment("clients/", n.client, nTail));
      SegmentInjective("clients/", m.client, mTail, n.client, nTail);
      SameTail("connections/", Tail(m.connection, m.request), Tail(n.connection, n.request));
    }
  }

  ghost predicate Collide(account: string, client: string, c: string, d: string) {
    exists r, s :: GetKey(Message(account, client, c, r)) == GetKey(Message(account, client, d, s))
  }

  /** Where one connection id continues the other the way the key continues it. */
  lemma ContinuedCollide(account: string, client: string, c: string, d: string)
    requires Starts(c + REQUESTS, d + REQUESTS)
    ensures Collide(account, client, c, d)
  {
    var rest := (d + REQUESTS)[|c + REQUESTS|..];
    assert c + REQUESTS + rest == d + REQUESTS + "";
    var (m, n) := (Message(account, client, c, rest), Message(account, client, d, ""));
    KeyPrints(m);
    KeyPrints(n);
    assert GetKey(m) == GetKey(n);
  }

  /** Connections `c` and `d` of one client can share a key exactly if one of the two printed
      with "/requests/" after it is the beginning of the other so printed. */
  lemma ConnectionsCollide(account: string, client: string, c: string, d: string)
    requires '/' !in account && '/' !in client
    ensures Collide(account, client, c, d) <==>
      Starts(c + REQUESTS, d + REQUESTS) || Starts(d + REQUESTS, c + REQUESTS)
  {
    if Starts(c + REQUESTS, d + REQUESTS) {
      ContinuedCollide(account, client, c, d);
    } else if Starts(d + REQUESTS, c + REQUESTS) {
      ContinuedCollide(account, client, d, c);
      var s, r :| GetKey(Message(account, client, d, s)) == GetKey(Message(account, client, c, r));
      assert GetKey(Message(account, client, c, r)) == GetKey(Message(account, client, d, s));
    } else {
      forall r, s ensures GetKey(Message(account, client, c, r)) != GetKey(Message(account, client, d, s)) {
        SameKey(Message(account, client, c, r), Message(account, client, d, s));
        if Tail(c, r) == Tail(d, s) { OneStarts(c + REQUESTS, r, d + REQUESTS, s); }
      }
    }
  }

  lemma OneStarts(a: string, x: string, b: string, y: string)
    requires a + x == b + y
    ensures Starts(a, b) || Starts(b, a)
  {
    if |a| <= |b| {
      assert a == (a + x)[..|a|] && b[..|a|] == (b + y)[..|a|];
    } else {
      assert b == (b + y)[..|b|] && a[..|b|] == (a + x)[..|b|];
    }
  }

  predicate OccursElsewhere(tail: string, at: nat, i: nat) {
    i != at && i + |REQUESTS| <= |tail| && tail[i..i + |REQUESTS|] == REQUESTS
  }

  lemma TailParts(connection: string, request: string)
    ensures var (tail, i) := (Tail(connection, request), |connection|);
      && tail[..i] == connection && tail[i..i + |REQUESTS|] == REQUESTS && tail[i + |REQUESTS|..] == request
  {
  }

  /** A message shares its key with another exactly if "/requests/" occurs in its tail at
      another place than after the connection id. */
  lemma MessageCollides(m: Message)
    requires FromTopic(m)
    ensures (exists n :: FromTopic(n) && n != m && GetKey(n) == GetKey(m)) <==>
      exists i: nat :: OccursElsewhere(Tail(m.connection, m.request), |m.connection|, i)
  {
    var tail := Tail(m.connection, m.request);
    if i: nat :| OccursElsewhere(tail, |m.connection|, i) {
      var n := m.(connection := tail[..i], request := tail[i + |REQUESTS|..]);
      assert tail == Tail(n.connection, n.request);
      SameKey(n, m);
    }
    forall n | FromTopic(n) && n != m && GetKey(n) == GetKey(m) ensures OccursElsewhere(tail, |m.connection|, |n.connection|) {
      SameKey(n, m);
      TailParts(n.connection, n.request);
      TailParts(m.connection, m.request);
    }
  }

  lemma SlashTail(connection: string, request: string)
    ensures Tail(connection, request) == connection + (['/'] + ("requests/" + request))
  {
    assert REQUESTS == ['/'] + "requests/";
  }

  /** Without slashes the printed key determines the whole message, whatever its request id. */
  lemma KeyInjective(m: Message, n: Message)
    requires FromTopic(m) && FromTopic(n) && '/' !in m.connection && '/' !in n.connection
    requires GetKey(m) == GetKey(n)
    ensures m == n
  {
    SameKey(m, n);
    SlashTail(m.connection, m.request);
    SlashTail(n.connection, n.request);
    SplitOnce(m.connection, "requests/" + m.request, n.connection, "requests/" + n.request, '/');
    SameTail("requests/", m.request, n.request);
  }

  /** With a slash in a connection id, two messages can share a key. */
  lemma KeysCollide(account: string, client: string)
    ensures GetKey(Message(account, client, "c/requests/d", "e")) == GetKey(Message(account, client, "c", "d/requests/e"))
  {
    assert Segment("connections/", "c/requests/d", "requests/" + "e")
        == Segment("connections/", "c", "requests/" + "d/requests/e");
  }

  /** MQTT topics carry no U+0000, so account ids taken from them cannot blur a map key. */
  lemma AccountKeyInjective(account: string, id: string, account': string, id': string)
    requires '\0' !in account && '\0' !in account' && AccountKey(account, id) == AccountKey(account', id')
    ensures account == account' && id == id'
  {
    SplitOnce(account, id, account', id', '\0');
  }

  // ---------------------------------------------------------------- what a log says

  function MessageOf(e: Event): Message
    requires e.data.ClientConnected? || e.data.ClientDisconnected?
  {
    Message(e.accountId, e.data.clientId, e.data.connectionId, e.data.requestId)
  }

  predicate Connects(e: Event, key: string) {
    e.data.ClientConnected? && GetKey(MessageOf(e)) == key
  }

  predicate Disconnects(e: Event, key: string) {
    e.data.ClientDisconnected? && GetKey(MessageOf(e)) == key
  }

  function CountConnects(log: seq<Event>, key: string): nat
    decreases |log|
  {
    if log == [] then 0
    else CountConnects(log[..|log| - 1], key) + (if Connects(log[|log| - 1], key) then 1 else 0)
  }

  function CountDisconnects(log: seq<Event>, key: string): nat
    decreases |log|
  {
    if log == [] then 0
    else CountDisconnects(log[..|log| - 1], key) + (if Disconnects(log[|log| - 1], key) then 1 else 0)
  }

  /** A connected message is logged unless its key already was. */
  function LogConnected(log: seq<Event>, m: Message, at: int): seq<Event> {
    if CountConnects(log, GetKey(m)) > 0 then log
    else log + [Event(|log| + 1, m.account, at, ClientConnected(m.client, m.connection, m.request))]
  }

  function LogDisconnected(log: seq<Event>, m: Message, reason: string, at: int): seq<Event> {
    if CountDisconnects(log, GetKey(m)) > 0 then log
    else log + [Event(|log| + 1, m.account, at, ClientDisconnected(m.client, m.connection, m.request, reason, 0))]
  }

  lemma CountOneMore(log: seq<Event>, e: Event, key: string)
    ensures CountConnects(log + [e], key) == CountConnects(log, key) + (if Connects(e, key) then 1 else 0)
    ensures CountDisconnects(log + [e], key) == CountDisconnects(log, key) + (if Disconnects(e, key) then 1 else 0)
  {
    assert (log + [e])[..|log|] == log;
  }

  lemma LogConnectedCounts(log: seq<Event>, m: Message, at: int, key: string)
    ensures CountConnects(LogConnected(log, m, at), key)
      == if GetKey(m) == key && CountConnects(log, key) == 0 then 1 else CountConnects(log, key)
    ensures CountDisconnects(LogConnected(log, m, at), key) == CountDisconnects(log, key)
  {
    CountOneMore(log, Event(|log| + 1, m.account, at, ClientConnected(m.client, m.connection, m.request)), key);
  }

  lemma LogDisconnectedCounts(log: seq<Event>, m: Message, reason: string, at: int, key: string)
    ensures CountDisconnects(LogDisconnected(log, m, reason, at), key)
      == if GetKey(m) == key && CountDisconnects(log, key) == 0 then 1 else CountDisconnects(log, key)
    ensures CountConnects(LogDisconnected(log, m, reason, at), key) == CountConnects(log, key)
  {
    CountOneMore(log, Event(|log| + 1, m.account, at, ClientDisconnected(m.client, m.connection, m.request, reason, 0)), key);
  }

  /** Of two messages that share a key, the second is dropped as a duplicate. */
  lemma CollisionDropped(log: seq<Event>, m: Message, n: Message, at: int, later: int)
    requires GetKey(m) == GetKey(n)
    ensures LogConnected(LogConnected(log, m, at), n, later) == LogConnected(log, m, at)
    ensures forall reason, reason' ::
      LogDisconnected(LogDisconnected(log, m, reason, at), n, reason', later) == LogDisconnected(log, m, reason, at)
  {
    LogConnectedCounts(log, m, at, GetKey(m));
    forall reason, reason' ensures
      LogDisconnected(LogDisconnected(log, m, reason, at), n, reason', later) == LogDisconnected(log, m, reason, at)
    {
      LogDisconnectedCounts(log, m, reason, at, GetKey(m));
    }
  }
}
