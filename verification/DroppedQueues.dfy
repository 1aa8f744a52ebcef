/** The bounded queues of dropped sessions, one per account, that the usage statistics and the
    session list keep. What the entries are is left open; `on` gives an entry's connection,
    or its id. */
module DroppedQueues {

  const HELD_PER_ACCOUNT := 4

  function QueueOf<T>(queues: map<string, seq<T>>, account: string): seq<T> {
    if account in queues then queues[account] else []
  }

  /** An empty queue is not kept in the map. */
  function PutQueue<T>(queues: map<string, seq<T>>, account: string, queue: seq<T>): map<string, seq<T>> {
    if queue == [] then queues - {account} else queues[account := queue]
  }

  function LastHeld<T>(queue: seq<T>): seq<T> {
    if |queue| > HELD_PER_ACCOUNT then queue[|queue| - HELD_PER_ACCOUNT..] else queue
  }

  /** Those of a queue that are not on `c`. */
  function Off<T>(queue: seq<T>, on: T -> string, c: string): seq<T> {
    if queue == [] then []
    else (if on(queue[0]) == c then [] else [queue[0]]) + Off(queue[1..], on, c)
  }

  /** The queue without its first entry on `c`. */
  function RemoveFirst<T>(queue: seq<T>, on: T -> string, c: string): seq<T> {
    if queue == [] then []
    else if on(queue[0]) == c then queue[1..]
    else [queue[0]] + RemoveFirst(queue[1..], on, c)
  }

  function IndexOf<T>(queue: seq<T>, on: T -> string, c: string): (i: nat)
    ensures i <= |queue|
    ensures forall j :: 0 <= j < i ==> on(queue[j]) != c
    ensures i < |queue| ==> on(queue[i]) == c
  {
    if queue == [] || on(queue[0]) == c then 0 else 1 + IndexOf(queue[1..], on, c)
  }

  ghost predicate Distinct<T>(queue: seq<T>, on: T -> string) {
    forall i, j :: 0 <= i < j < |queue| ==> on(queue[i]) != on(queue[j])
  }

  lemma {:induction false} RemoveFirstAt<T>(queue: seq<T>, on: T -> string, c: string, i: nat)
    requires i <= |queue| && forall j :: 0 <= j < i ==> on(queue[j]) != c
    requires i < |queue| ==> on(queue[i]) == c
    ensures RemoveFirst(queue, on, c) == if i < |queue| then queue[..i] + queue[i + 1..] else queue
  {
    if i > 0 {
      RemoveFirstAt(queue[1..], on, c, i - 1);
      if i < |queue| { CutFurther(queue, i); }
    }
  }

  lemma CutFurther<T>(queue: seq<T>, i: nat)
    requires 0 < i < |queue|
    ensures [queue[0]] + (queue[1..][..i - 1] + queue[1..][i..]) == queue[..i] + queue[i + 1..]
  {
  }

  lemma IndexInside<T>(queue: seq<T>, on: T -> string, d: T)
    requires d in queue
    ensures IndexOf(queue, on, on(d)) < |queue|
  {
    var j :| 0 <= j < |queue| && queue[j] == d;
    assert on(queue[j]) == on(d);
  }

  lemma {:induction false} OffNothing<T>(queue: seq<T>, on: T -> string, c: string)
    requires forall d :: d in queue ==> on(d) != c
    ensures Off(queue, on, c) == queue
  {
    if queue != [] { OffNothing(queue[1..], on, c); }
  }

  lemma {:induction false} OffKeeps<T>(queue: seq<T>, on: T -> string, c: string)
    ensures forall d :: d in Off(queue, on, c) <==> d in queue && on(d) != c
    ensures |Off(queue, on, c)| <= |queue|
    ensures Distinct(queue, on) ==> Distinct(Off(queue, on, c), on)
  {
    if queue != [] {
      OffKeeps(queue[1..], on, c);
      var (rest, off) := (Off(queue[1..], on, c), Off(queue, on, c));
      if Distinct(queue, on) {
        assert Distinct(queue[1..], on);
        forall i, j | 0 <= i < j < |off| ensures on(off[i]) != on(off[j]) {
          if off != rest && i == 0 { assert rest[j - 1] in queue[1..]; }
        }
      }
    }
  }

  lemma {:induction false} OffShorter<T>(queue: seq<T>, on: T -> string, d: T)
    requires d in queue
    ensures |Off(queue, on, on(d))| < |queue|
  {
    OffKeeps(queue[1..], on, on(d));
    if on(queue[0]) != on(d) { OffShorter(queue[1..], on, d); }
  }

  lemma {:induction false} RemoveFirstIsOff<T>(queue: seq<T>, on: T -> string, c: string)
    requires Distinct(queue, on)
    ensures RemoveFirst(queue, on, c) == Off(queue, on, c)
  {
    if queue != [] {
      assert Distinct(queue[1..], on);
      RemoveFirstIsOff(queue[1..], on, c);
      if on(queue[0]) == c { OffNothing(queue[1..], on, c); }
    }
  }

  /** Cutting out an entry on a connection of its own takes its connection off the queue. */
  lemma CutIsOff<T>(queue: seq<T>, on: T -> string, i: nat)
    requires Distinct(queue, on) && i < |queue|
    ensures Off(queue, on, on(queue[i])) == queue[..i] + queue[i + 1..]
  {
    RemoveFirstAt(queue, on, on(queue[i]), i);
    RemoveFirstIsOff(queue, on, on(queue[i]));
  }

  /** Two keys that single out the same entries take the same off. */
  lemma {:induction false} SameOff<T>(queue: seq<T>, one: T -> string, x: string, other: T -> string, y: string)
    requires forall d :: d in queue ==> (one(d) == x <==> other(d) == y)
    ensures Off(queue, one, x) == Off(queue, other, y)
  {
    if queue != [] { SameOff(queue[1..], one, x, other, y); }
  }

  /** Who is held once `d` has joined: the first leaves if there were four. */
  lemma JoinedMembers<T>(queue: seq<T>, on: T -> string, d: T, x: T)
    requires Distinct(queue + [d], on) && |queue| <= HELD_PER_ACCOUNT
    ensures x in LastHeld(queue + [d]) <==>
      (x in queue || x == d) && (|queue| == HELD_PER_ACCOUNT ==> x != (queue + [d])[0])
  {
    var longer := queue + [d];
    if |queue| == HELD_PER_ACCOUNT {
      assert LastHeld(longer) == longer[1..];
      assert longer == [longer[0]] + longer[1..];
      assert longer[0] !in longer[1..] by {
        forall i | 0 <= i < |longer[1..]| ensures longer[1..][i] != longer[0] {
          assert on(longer[1 + i]) != on(longer[0]);
        }
      }
    }
    assert x in longer <==> x in queue || x == d;
  }

  // ---------------------------------------------------------------- how far from leaving

  predicate Behind<T(==)>(queue: seq<T>, i: nat, d: T, later: nat) {
    i < |queue| && queue[i] == d && |queue| - i - 1 <= later
  }

  /** The entry is held, with at most `later` entries behind it. */
  ghost predicate HeldBefore<T>(queue: seq<T>, d: T, later: nat) {
    exists i: nat :: Behind(queue, i, d, later)
  }

  lemma {:induction false} Weaker<T>(queue: seq<T>, d: T, later: nat, more: nat)
    requires HeldBefore(queue, d, later) && later <= more
    ensures HeldBefore(queue, d, more)
  {
    var i: nat :| Behind(queue, i, d, later);
    assert Behind(queue, i, d, more);
  }

  lemma {:induction false} OffBehind<T>(queue: seq<T>, on: T -> string, c: string, i: nat, d: T, later: nat) returns (j: nat)
    requires Behind(queue, i, d, later) && on(d) != c
    ensures Behind(Off(queue, on, c), j, d, later)
  {
    if i == 0 {
      OffKeeps(queue[1..], on, c);
      j := 0;
    } else {
      j := OffBehind(queue[1..], on, c, i - 1, d, later);
      if on(queue[0]) != c { j := j + 1; }
    }
  }

  /** Taking others off brings it no nearer to leaving. */
  lemma {:induction false} OffHeld<T>(queue: seq<T>, on: T -> string, c: string, d: T, later: nat)
    requires HeldBefore(queue, d, later) && on(d) != c
    ensures HeldBefore(Off(queue, on, c), d, later)
  {
    var i: nat :| Behind(queue, i, d, later);
    var j := OffBehind(queue, on, c, i, d, later);
  }

  lemma {:induction false} RemoveFirstBehind<T>(queue: seq<T>, on: T -> string, c: string, i: nat, d: T,
                                                later: nat) returns (j: nat)
    requires Behind(queue, i, d, later) && on(d) != c
    ensures Behind(RemoveFirst(queue, on, c), j, d, later) && |RemoveFirst(queue, on, c)| <= |queue|
  {
    var first := IndexOf(queue, on, c);
    RemoveFirstAt(queue, on, c, first);
    j := if first < i then i - 1 else i;
  }

  lemma {:induction false} RemoveFirstHeld<T>(queue: seq<T>, on: T -> string, c: string, d: T, later: nat)
    requires HeldBefore(queue, d, later) && on(d) != c
    ensures HeldBefore(RemoveFirst(queue, on, c), d, later)
  {
    var i: nat :| Behind(queue, i, d, later);
    var j := RemoveFirstBehind(queue, on, c, i, d, later);
  }

  /** One that joins brings it one nearer, and it does not leave before a fourth has joined. */
  lemma {:induction false} JoinHeld<T>(queue: seq<T>, x: T, d: T, later: nat)
    requires HeldBefore(queue, d, later) && later < 3 && |queue| <= 4
    ensures HeldBefore(LastHeld(queue + [x]), d, later + 1)
  {
    var i: nat :| Behind(queue, i, d, later);
    if |queue| < 4 {
      assert Behind(LastHeld(queue + [x]), i, d, later + 1);
    } else {
      assert LastHeld(queue + [x]) == (queue + [x])[1..];
      assert Behind(LastHeld(queue + [x]), i - 1, d, later + 1);
    }
  }

  lemma {:induction false} JoinedLast<T>(queue: seq<T>, d: T)
    ensures HeldBefore(LastHeld(queue + [d]), d, 0)
  {
    var after := LastHeld(queue + [d]);
    assert Behind(after, |after| - 1, d, 0);
  }
}
