/** SessionList as an object: binary searches and shifts on its slice, searches through its
    queues, and the catch-up that feeds it the log. */
module SessionList {
  import opened Options
  import opened Events
  import opened Lexicographic
  import opened DroppedQueues
  import opened SessionBoard
  import opened SessionRoster

  class SessionList {
    var cursor: nat
    var sessions: seq<Session>
    var activeConnectionByKey: map<Seat, Live>
    var disconnectedSessionByKey: map<Seat, Session>
    var disconnectedSessionsByAccountId: Queues
    ghost var applied: seq<Event>

    ghost function Model(): Roster
      reads this
    {
      Roster(sessions, disconnectedSessionByKey, disconnectedSessionsByAccountId, activeConnectionByKey)
    }

    /** The roster is the fold of the events applied so far, and its slice is sorted. */
    ghost predicate Valid()
      reads this
    {
      Model() == RunRoster(applied) && |applied| == cursor
    }

    constructor ()
      ensures Valid() && applied == []
    {
      cursor, applied, sessions := 0, [], [];
      activeConnectionByKey, disconnectedSessionByKey, disconnectedSessionsByAccountId := map[], map[], map[];
    }

    // -------------------------------------------------------------- the slice

    method Search(account: string, id: string) returns (index: nat)
      requires Sorted(sessions)
      ensures index == LowerBound(sessions, account, id)
    {
      var low, high := 0, |sessions|;
      var bound := LowerBound(sessions, account, id);
      while low < high
        invariant low <= bound <= high <= |sessions|
      {
        var middle := (low + high) / 2;
        if middle >= bound { AfterLowerBound(sessions, account, id, middle); }
        if !Precedes(sessions[middle], account, id) {
          high := middle;
        } else {
          low := middle + 1;
        }
      }
      index := low;
    }

    method Put(s: Session)
      requires Sorted(sessions)
      modifies this`sessions
      ensures sessions == SessionRoster.Put(old(sessions), s)
    {
      var index := Search(s.account, s.id);
      if index == |sessions| {
        sessions := sessions + [s];
        return;
      }
      if sessions[index].id == s.id {
        sessions := sessions[index := s];
        return;
      }
      sessions := sessions[..index] + [s] + sessions[index..];
    }

    method Delete(account: string, id: string)
      requires Sorted(sessions)
      modifies this`sessions
      ensures sessions == SessionRoster.Delete(old(sessions), account, id)
    {
      var index := Search(account, id);
      if index == |sessions| {
        return;
      }
      if !sessions[index].Is(account, id) {
        return;
      }
      sessions := sessions[..index] + sessions[index + 1..];
    }

    /** The first position of an account's sessions. */
    method SearchAccount(account: string) returns (index: nat)
      requires Sorted(sessions)
      ensures index <= |sessions|
      ensures forall j :: 0 <= j < index ==> Below(sessions[j].account, account)
      ensures forall j :: index <= j < |sessions| ==> !Below(sessions[j].account, account)
    {
      var low, high := 0, |sessions|;
      while low < high
        invariant low <= high <= |sessions|
        invariant forall j :: 0 <= j < low ==> Below(sessions[j].account, account)
        invariant forall j :: high <= j < |sessions| ==> !Below(sessions[j].account, account)
      {
        var middle := (low + high) / 2;
        AccountsSorted(sessions, account, middle);
        if !Below(sessions[middle].account, account) {
          high := middle;
        } else {
          low := middle + 1;
        }
      }
      index := low;
    }

    /** From the account's first position on, until its sessions end. */
    method GetSessionByConnectionId(account: string, c: string) returns (index: nat)
      requires Sorted(sessions)
      ensures index == FindConnection(sessions, account, c)
    {
      index := SearchAccount(account);
      BelowIrreflexive(account);
      while index < |sessions|
        invariant index <= |sessions|
        invariant forall j :: 0 <= j < index ==> !sessions[j].IsAt(account, c)
        invariant forall j :: index <= j < |sessions| ==> !Below(sessions[j].account, account)
      {
        if sessions[index].account != account {
          AccountEnds(sessions, account, index);
          return |sessions|;
        }
        if sessions[index].connection == c {
          return;
        }
        index := index + 1;
      }
    }

    // -------------------------------------------------------------- the dropped sessions

    method StoreQueue(account: string, queue: seq<Session>)
      modifies this`disconnectedSessionsByAccountId
      ensures disconnectedSessionsByAccountId == PutQueue(old(disconnectedSessionsByAccountId), account, queue)
    {
      if |queue| == 0 {
        disconnectedSessionsByAccountId := disconnectedSessionsByAccountId - {account};
      } else {
        disconnectedSessionsByAccountId := disconnectedSessionsByAccountId[account := queue];
      }
    }

    method RemoveDisconnectedSessionByConnectionId(seat: Seat) returns (removed: Option<Session>)
      modifies this`disconnectedSessionByKey, this`disconnectedSessionsByAccountId
      ensures Model() == RemoveHeldOn(old(Model()), seat)
      ensures removed == if seat in old(disconnectedSessionByKey) then Some(old(disconnectedSessionByKey)[seat]) else None
    {
      if seat !in disconnectedSessionByKey {
        return None;
      }
      var session := disconnectedSessionByKey[seat];
      disconnectedSessionByKey := disconnectedSessionByKey - {seat};
      var queue := QueueOf(disconnectedSessionsByAccountId, seat.account);
      var i := 0;
      while i < |queue|
        invariant i <= |queue|
        invariant forall j :: 0 <= j < i ==> queue[j].connection != seat.connection
        invariant Model() == old(Model()).(held := old(disconnectedSessionByKey) - {seat})
      {
        if queue[i].connection == seat.connection {
          RemoveFirstAt(queue, ConnectionOf, seat.connection, i);
          StoreQueue(seat.account, queue[..i] + queue[i + 1..]);
          return Some(session);
        }
        i := i + 1;
      }
      RemoveFirstAt(queue, ConnectionOf, seat.connection, i);
      return Some(session);
    }

    method RemoveDisconnectedSessionById(account: string, id: string)
      modifies this`disconnectedSessionByKey, this`disconnectedSessionsByAccountId
      ensures Model() == RemoveHeldId(old(Model()), account, id)
    {
      var queue := QueueOf(disconnectedSessionsByAccountId, account);
      var i := 0;
      while i < |queue|
        invariant i <= |queue|
        invariant forall j :: 0 <= j < i ==> queue[j].id != id
        invariant Model() == old(Model())
      {
        if queue[i].id == id {
          assert IndexOf(queue, IdOf, id) == i;
          disconnectedSessionByKey := disconnectedSessionByKey - {Seat(account, queue[i].connection)};
          StoreQueue(account, queue[..i] + queue[i + 1..]);
          return;
        }
        i := i + 1;
      }
    }

    method TrackDisconnectedSession(s: Session)
      requires Sorted(sessions)
      modifies this`sessions, this`disconnectedSessionByKey, this`disconnectedSessionsByAccountId
      ensures Model() == Track(old(Model()), s) && Sorted(sessions)
    {
      DeleteLists(sessions, Members(sessions), s.account, s.id);
      Delete(s.account, s.id);
      var _ := RemoveDisconnectedSessionByConnectionId(SeatOf(s));
      var queue := QueueOf(disconnectedSessionsByAccountId, s.account) + [s];
      if |queue| > HELD_PER_ACCOUNT {
        disconnectedSessionByKey := disconnectedSessionByKey - {SeatOf(queue[0])};
        queue := queue[1..];
      }
      disconnectedSessionsByAccountId := disconnectedSessionsByAccountId[s.account := queue];
      disconnectedSessionByKey := disconnectedSessionByKey[SeatOf(s) := s];
    }

    // -------------------------------------------------------------- events

    method ApplySessionStarted(e: Event)
      requires Sorted(sessions) && e.data.SessionStarted?
      modifies this
      ensures Model() == ApplyRoster(old(Model()), e) && cursor == old(cursor) && applied == old(applied)
    {
      var (account, c) := (e.accountId, e.data.hostConnectionId);
      var index := GetSessionByConnectionId(account, c);
      if index < |sessions| {
        DeleteLists(sessions, Members(sessions), account, sessions[index].id);
        Delete(account, sessions[index].id);
      }
      ghost var seated := Model();
      var _ := RemoveDisconnectedSessionByConnectionId(Seat(account, c));
      assert Model() == RemoveHeldOn(seated, Seat(account, c));
      var host := Online(e.at, "TODO");
      if Seat(account, c) in activeConnectionByKey {
        var live := activeConnectionByKey[Seat(account, c)];
        host := Online(live.since, live.requestId);
      }
      Put(Session(account, e.data.id, e.data.name, c, e.data.startedAt, host));
    }

    method ApplySessionEnded(account: string, id: string)
      requires Sorted(sessions)
      modifies this
      ensures Model() == EndRoster(old(Model()), account, id) && cursor == old(cursor) && applied == old(applied)
    {
      Delete(account, id);
      RemoveDisconnectedSessionById(account, id);
    }

    method ApplyClientDisconnected(seat: Seat, requestId: string, at: int)
      requires Sorted(sessions)
      modifies this
      ensures Model() == DropRoster(old(Model()), seat, requestId, at) && cursor == old(cursor) && applied == old(applied)
    {
      activeConnectionByKey := activeConnectionByKey - {seat};
      var index := GetSessionByConnectionId(seat.account, seat.connection);
      if index == |sessions| {
        return;
      }
      var session := sessions[index];
      if !session.host.Online? {
        return;
      }
      if session.host.requestId != requestId {
        return;
      }
      TrackDisconnectedSession(session.(host := Gone(at)));
    }

    method ApplyClientConnected(seat: Seat, requestId: string, at: int)
      requires Sorted(sessions)
      modifies this
      ensures Model() == ReconnectRoster(old(Model()), seat, requestId, at) && cursor == old(cursor) && applied == old(applied)
    {
      activeConnectionByKey := activeConnectionByKey[seat := Live(requestId, at)];
      var index := GetSessionByConnectionId(seat.account, seat.connection);
      if index < |sessions| {
        sessions := sessions[index := sessions[index].(host := Online(at, requestId))];
        return;
      }
      var removed := RemoveDisconnectedSessionByConnectionId(seat);
      if removed.None? {
        return;
      }
      Put(removed.value.(host := Online(at, requestId)));
    }

    method ApplyServerStarted(at: int)
      requires Sorted(sessions)
      modifies this
      ensures Model() == RestartRoster(old(Model()), at) && cursor == old(cursor) && applied == old(applied)
    {
      var snapshot := sessions;
      activeConnectionByKey := map[];
      ghost var start := Model();
      var i := 0;
      while i < |snapshot|
        invariant i <= |snapshot| && Sorted(sessions)
        invariant Model() == TrackAll(start, snapshot[..i], at) && cursor == old(cursor) && applied == old(applied)
      {
        assert snapshot[..i + 1][..i] == snapshot[..i];
        if !snapshot[i].host.Gone? {
          TrackDisconnectedSession(snapshot[i].(host := Gone(at)));
        }
        i := i + 1;
      }
      assert snapshot[..i] == snapshot;
    }

    method Apply(e: Event)
      requires Sorted(sessions)
      modifies this
      ensures Model() == ApplyRoster(old(Model()), e) && cursor == old(cursor) && applied == old(applied)
    {
      match e.data {
        case ServerStarted => ApplyServerStarted(e.at);
        case SessionStarted(_, _, _, _) => ApplySessionStarted(e);
        case SessionEnded(id) => ApplySessionEnded(e.accountId, id);
        case ClientConnected(_, c, requestId) => ApplyClientConnected(Seat(e.accountId, c), requestId, e.at);
        case ClientDisconnected(_, c, requestId, _, _) => ApplyClientDisconnected(Seat(e.accountId, c), requestId, e.at);
        case _ =>
      }
    }

    /** Applies what the log holds past the cursor. */
    method CatchUp(log: seq<Event>)
      requires Valid() && applied <= log
      requires forall i :: 0 <= i < |log| ==> log[i].clock == i + 1
      modifies this
      ensures Valid() && applied == log && cursor == |log|
    {
      var index := cursor;
      while index < |log|
        invariant Valid() && index == cursor <= |log| && applied == log[..cursor]
      {
        Advance(log[index]);
        index := index + 1;
      }
    }

    /** Applies the next event of the log. */
    method Advance(e: Event)
      requires Valid() && e.clock == cursor + 1
      modifies this
      ensures Valid() && cursor == e.clock && applied == old(applied) + [e]
    {
      RunSorted(applied);
      Apply(e);
      RunStep(applied, e);
      applied := applied + [e];
      cursor := e.clock;
    }

    method CollectAccount(account: string) returns (listed: seq<Session>)
      requires Sorted(sessions)
      ensures Lists(listed, set s | s in sessions && s.account == account)
    {
      var index := SearchAccount(account);
      BelowIrreflexive(account);
      ghost var start := index;
      listed := [];
      while index < |sessions|
        invariant start <= index <= |sessions| && listed == sessions[start..index]
        invariant forall j :: start <= j < index ==> sessions[j].account == account
      {
        if sessions[index].account != account {
          AccountEnds(sessions, account, index);
          break;
        }
        listed := listed + [sessions[index]];
        index := index + 1;
      }
      SliceLists(sessions, account, start, index);
    }

    /** Exactly the account's active sessions, in id order: those of the slice, which are
        those of the board if ids keep to their accounts. */
    method List(log: seq<Event>, ghost homes: Homes, account: string) returns (listed: seq<Session>)
      requires Valid() && applied <= log
      requires forall i :: 0 <= i < |log| ==> log[i].clock == i + 1
      modifies this
      ensures Valid() && applied == log && cursor == |log|
      ensures Lists(listed, set s | s in sessions && s.account == account)
      ensures ExpectedAll(homes, log) ==> Lists(listed, set s | s in Run(log).active && s.account == account)
    {
      CatchUp(log);
      RunSorted(log);
      listed := CollectAccount(account);
      if ExpectedAll(homes, log) {
        RunTied(homes, log);
        assert (set s | s in sessions && s.account == account) == (set s | s in Run(log).active && s.account == account);
      }
    }
  }

  /** Accounts do not decrease along a sorted slice. */
  lemma AccountsSorted(sessions: seq<Session>, account: string, middle: nat)
    requires Sorted(sessions) && middle < |sessions|
    ensures Below(sessions[middle].account, account) ==> forall j :: 0 <= j < middle ==> Below(sessions[j].account, account)
    ensures !Below(sessions[middle].account, account) ==>
      forall j :: middle <= j < |sessions| ==> !Below(sessions[j].account, account)
  {
    forall j | 0 <= j < middle && Below(sessions[middle].account, account) ensures Below(sessions[j].account, account) {
      if Below(sessions[j].account, sessions[middle].account) {
        BelowTransitive(sessions[j].account, sessions[middle].account, account);
      }
    }
    forall j | middle < j < |sessions| && Below(sessions[j].account, account) ensures Below(sessions[middle].account, account) {
      if Below(sessions[middle].account, sessions[j].account) {
        BelowTransitive(sessions[middle].account, sessions[j].account, account);
      }
    }
  }

  /** Past an account's last session there are none of it. */
  lemma AccountEnds(sessions: seq<Session>, account: string, index: nat)
    requires Sorted(sessions) && index < |sessions|
    requires sessions[index].account != account && !Below(sessions[index].account, account)
    ensures forall j :: index <= j < |sessions| ==> sessions[j].account != account
  {
    forall j | index < j < |sessions| ensures sessions[j].account != account {
      BelowTotal(sessions[index].account, account);
      assert Before(sessions[index], sessions[j]);
    }
  }

  lemma SliceLists(sessions: seq<Session>, account: string, start: nat, end: nat)
    requires Sorted(sessions) && start <= end <= |sessions|
    requires forall j :: start <= j < end ==> sessions[j].account == account
    requires forall j :: (0 <= j < start || end <= j < |sessions|) ==> sessions[j].account != account
    ensures Lists(sessions[start..end], set s | s in sessions && s.account == account)
  {
    forall s ensures s in sessions[start..end] <==> s in sessions && s.account == account {
      if s in sessions && s.account == account {
        var j :| 0 <= j < |sessions| && sessions[j] == s;
        assert sessions[start..end][j - start] == s;
      }
    }
  }
}
