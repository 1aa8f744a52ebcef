/** The follower: it reads a snapshot of the log, and when that is drained waits on a channel
    that the next append closes. Appends may fall between any two of its steps. */
module Follow {
  import opened Events
  import EventLog

  /** A wait channel is known by the number of appends made when it was handed out; it is
      closed once another append was made. */
  datatype Phase =
    | Starting                      // about to take the first snapshot
    | Opening(snapshot: seq<Event>) // has the first snapshot, about to take a channel
    | Reading(snapshot: seq<Event>, index: int, channel: int, rearmed: bool)
    | Rearming(channel: int)        // has the next channel, about to take a snapshot

  /** `log` starts as `base` events; `delivered` is what Next has returned so far. */
  datatype Watch = Watch(base: nat, log: seq<Event>, cursor: int, delivered: seq<Event>, phase: Phase)
  {
    function Appends(): int { |log| - base }

    predicate Drained() {
      phase.Reading? && phase.index + 1 >= |phase.snapshot|
    }

    predicate ChannelClosed() {
      phase.Reading? && phase.channel < Appends()
    }
  }

  datatype Act = Grow(e: Event) | TakeFirstSnapshot | TakeFirstChannel | Deliver | TakeChannel | TakeSnapshot

  function Step(w: Watch, act: Act): Watch {
    match act
    case Grow(e) => w.(log := w.log + [e.(clock := |w.log| + 1)])
    case TakeFirstSnapshot => if w.phase.Starting? then w.(phase := Opening(w.log)) else w
    case TakeFirstChannel =>
      if w.phase.Opening?
      then w.(phase := Reading(w.phase.snapshot, w.cursor - 1, w.Appends(), false)) else w
    case Deliver =>
      if w.phase.Reading? && 0 <= w.phase.index + 1 < |w.phase.snapshot| then
        var e := w.phase.snapshot[w.phase.index + 1];
        w.(cursor := e.clock, delivered := w.delivered + [e], phase := w.phase.(index := w.phase.index + 1))
      else w
    case TakeChannel => if w.Drained() && w.ChannelClosed() then w.(phase := Rearming(w.Appends())) else w
    case TakeSnapshot =>
      if w.phase.Rearming? then w.(phase := Reading(w.log, w.cursor - 1, w.phase.channel, true)) else w
  }

  function Begin(log: seq<Event>, fromCursor: nat): Watch {
    Watch(|log|, log, fromCursor, [], Starting)
  }

  function Run(w: Watch, acts: seq<Act>): Watch
    decreases |acts|
  {
    if acts == [] then w else Step(Run(w, acts[..|acts| - 1]), acts[|acts| - 1])
  }

  ghost predicate Prefix(part: seq<Event>, log: seq<Event>) {
    |part| <= |log| && part == log[..|part|]
  }

  ghost predicate Inv(w: Watch, from: nat) {
    && EventLog.Dense(w.log) && w.base <= |w.log|
    && w.cursor == from + |w.delivered|
    && (w.delivered != [] ==> w.cursor <= |w.log| && w.delivered == w.log[from..w.cursor])
    && (w.phase.Opening? ==> Prefix(w.phase.snapshot, w.log))
    && (w.phase.Reading? ==>
        && Prefix(w.phase.snapshot, w.log) && w.phase.index == w.cursor - 1
        && w.phase.channel <= w.Appends()
        && (w.phase.rearmed ==> |w.phase.snapshot| >= w.base + w.phase.channel))
    && (w.phase.Rearming? ==> w.phase.channel <= w.Appends())
  }

  lemma StepKeeps(w: Watch, act: Act, from: nat)
    requires Inv(w, from)
    ensures Inv(Step(w, act), from)
  {
    match act
    case Grow(e) => GrowKeeps(w, e, from);
    case Deliver => DeliverKeeps(w, from);
    case _ =>
  }

  lemma StillPrefix(part: seq<Event>, log: seq<Event>, e: Event)
    requires Prefix(part, log)
    ensures Prefix(part, log + [e])
  {
    assert (log + [e])[..|part|] == log[..|part|];
  }

  lemma GrowKeeps(w: Watch, e: Event, from: nat)
    requires Inv(w, from)
    ensures Inv(Step(w, Grow(e)), from)
  {
    var last := e.(clock := |w.log| + 1);
    if w.phase.Opening? || w.phase.Reading? { StillPrefix(w.phase.snapshot, w.log, last); }
    if w.delivered != [] { assert (w.log + [last])[from..w.cursor] == w.log[from..w.cursor]; }
  }

  /** The next event of a snapshot is the log's next. */
  lemma NextInLog(snapshot: seq<Event>, log: seq<Event>, from: nat, cursor: nat)
    requires Prefix(snapshot, log) && from <= cursor < |snapshot|
    ensures snapshot[cursor] == log[cursor]
    ensures log[from..cursor + 1] == log[from..cursor] + [snapshot[cursor]]
  {
  }

  lemma DeliverKeeps(w: Watch, from: nat)
    requires Inv(w, from)
    ensures Inv(Step(w, Deliver), from)
  {
    if w.phase.Reading? && 0 <= w.phase.index + 1 < |w.phase.snapshot| {
      NextInLog(w.phase.snapshot, w.log, from, w.cursor);
    }
  }

  lemma {:induction false} RunKeeps(log: seq<Event>, from: nat, acts: seq<Act>)
    requires EventLog.Dense(log)
    ensures Inv(Run(Begin(log, from), acts), from)
    decreases |acts|
  {
    if acts != [] {
      RunKeeps(log, from, acts[..|acts| - 1]);
      StepKeeps(Run(Begin(log, from), acts[..|acts| - 1]), acts[|acts| - 1], from);
    }
  }

  /** What a follower delivers, however appends fall between its steps, is the block of the
      log that starts right after its cursor: no event twice, none left out. */
  lemma DeliversTheLog(log: seq<Event>, from: nat, acts: seq<Act>)
    requires EventLog.Dense(log)
    ensures var w := Run(Begin(log, from), acts);
      && (w.delivered != [] ==> from + |w.delivered| <= |w.log| && w.delivered == w.log[from..from + |w.delivered|])
      && forall i :: 0 <= i < |w.delivered| ==> w.delivered[i].clock == from + i + 1
  {
    RunKeeps(log, from, acts);
  }

  function Deliveries(n: nat): seq<Act> { seq(n, _ => Deliver) }

  predicate CanDeliver(w: Watch, from: nat, n: nat) {
    w.phase.Reading? && from <= w.cursor && w.cursor + n <= |w.phase.snapshot| <= |w.log|
  }

  /** After `n` deliveries. */
  function Advanced(w: Watch, from: nat, n: nat): Watch
    requires CanDeliver(w, from, n)
  {
    w.(delivered := w.delivered + w.log[w.cursor..w.cursor + n], cursor := w.cursor + n,
       phase := w.phase.(index := w.phase.index + n))
  }

  ghost predicate Reads(w: Watch) {
    EventLog.Dense(w.log) && (w.phase.Reading? ==> Prefix(w.phase.snapshot, w.log) && w.phase.index == w.cursor - 1)
  }

  lemma {:induction false} AdvancedOne(w: Watch, from: nat, n: nat)
    requires n > 0 && CanDeliver(w, from, n) && Reads(w)
    ensures Step(Advanced(w, from, n - 1), Deliver) == Advanced(w, from, n)
  {
    var (t, c) := (Advanced(w, from, n - 1), w.cursor + n - 1);
    assert t.phase.index + 1 == c && w.phase.snapshot[c] == w.log[c];
    assert w.log[w.cursor..c] + [w.log[c]] == w.log[w.cursor..c + 1];
    assert t.delivered + [w.log[c]] == w.delivered + w.log[w.cursor..c + 1];
  }

  lemma {:induction false} DeliverMany(w: Watch, from: nat, n: nat)
    requires CanDeliver(w, from, n) && Reads(w)
    ensures Run(w, Deliveries(n)) == Advanced(w, from, n)
    decreases n
  {
    if n == 0 {
      assert w.delivered + w.log[w.cursor..w.cursor] == w.delivered;
    } else {
      OneMoreDelivery(w, n);
      DeliverMany(w, from, n - 1);
      AdvancedOne(w, from, n);
    }
  }

  lemma {:induction false} OneMoreDelivery(w: Watch, n: nat)
    requires n > 0
    ensures Run(w, Deliveries(n)) == Step(Run(w, Deliveries(n - 1)), Deliver)
  {
    var all := Deliveries(n);
    assert all[..|all| - 1] == Deliveries(n - 1) && all[|all| - 1] == Deliver;
  }

  /** And it does deliver: what is left of a snapshot comes out one event a step, in order. */
  lemma {:induction false} DeliversTheSnapshot(log: seq<Event>, from: nat, acts: seq<Act>, n: nat)
    requires EventLog.Dense(log)
    ensures var w := Run(Begin(log, from), acts);
      w.phase.Reading? && w.cursor + n <= |w.phase.snapshot| ==>
        && 0 <= w.cursor && w.cursor + n <= |w.log|
        && Run(w, Deliveries(n)).delivered == w.delivered + w.log[w.cursor..w.cursor + n]
        && Run(w, Deliveries(n)).cursor == w.cursor + n
  {
    var w := Run(Begin(log, from), acts);
    RunKeeps(log, from, acts);
    if w.phase.Reading? && w.cursor + n <= |w.phase.snapshot| { DeliverMany(w, from, n); }
  }

  /** No wake-up is lost once re-armed: a follower that has drained its snapshot while the
      log is longer holds a closed channel, and its next three steps deliver what follows
      its cursor. */
  lemma NoLostWakeUp(log: seq<Event>, from: nat, acts: seq<Act>)
    requires EventLog.Dense(log)
    ensures var w := Run(Begin(log, from), acts);
      w.phase.Reading? && w.phase.rearmed && w.Drained() && |w.phase.snapshot| < |w.log| ==>
        && w.ChannelClosed()
        && (0 <= w.cursor < |w.log| ==>
            Step(Step(Step(w, TakeChannel), TakeSnapshot), Deliver).delivered == w.delivered + [w.log[w.cursor]])
  {
    RunKeeps(log, from, acts);
  }

  /** Nothing wakes it: it has read its snapshot, the log is longer, its channel is open. */
  predicate Stuck(w: Watch) {
    w.Drained() && |w.phase.snapshot| < |w.log| && !w.ChannelClosed()
  }

  /** Before the first re-arm a wake-up can be lost, because Follow takes its snapshot before
      its channel. A follower that has drained that snapshot is stuck exactly if something was
      appended between the two and nothing since. */
  lemma FirstWakeUp(log: seq<Event>, from: nat, between: seq<Event>, rest: seq<Act>)
    requires forall act :: act in rest ==> act.Grow? || act.Deliver?
    ensures var w := Run(Begin(log, from), [TakeFirstSnapshot] + Appends(between) + [TakeFirstChannel] + rest);
      && w.phase.Reading? && w.phase.snapshot == log
      && (w.Drained() ==> (Stuck(w) <==> between != [] && Grows(rest) == 0))
  {
    var first := [TakeFirstSnapshot] + Appends(between);
    RunAppends(Begin(log, from), [TakeFirstSnapshot], between);
    assert Run(Begin(log, from), [TakeFirstSnapshot]) == Begin(log, from).(phase := Opening(log)) by {
      assert [TakeFirstSnapshot][..0] == [];
    }
    var armed := first + [TakeFirstChannel];
    assert armed[..|first|] == first;
    RunReading(Begin(log, from), armed, rest);
  }

  function Appends(events: seq<Event>): seq<Act> {
    seq(|events|, i requires 0 <= i < |events| => Grow(events[i]))
  }

  function Grows(acts: seq<Act>): nat
    decreases |acts|
  {
    if acts == [] then 0 else Grows(acts[..|acts| - 1]) + (if acts[|acts| - 1].Grow? then 1 else 0)
  }

  lemma {:induction false} RunAppends(w: Watch, acts: seq<Act>, events: seq<Event>)
    ensures var (s, t) := (Run(w, acts), Run(w, acts + Appends(events)));
      t == s.(log := t.log) && |t.log| == |s.log| + |events|
    decreases |events|
  {
    if events == [] {
      assert acts + Appends(events) == acts;
    } else {
      var front := events[..|events| - 1];
      RunAppends(w, acts, front);
      var all := acts + Appends(events);
      assert all[..|all| - 1] == acts + Appends(front);
    }
  }

  /** Deliveries and appends leave the snapshot and the channel as they are. */
  lemma {:induction false} RunReading(w: Watch, acts: seq<Act>, rest: seq<Act>)
    requires Run(w, acts).phase.Reading? && forall act :: act in rest ==> act.Grow? || act.Deliver?
    ensures var (s, t) := (Run(w, acts), Run(w, acts + rest));
      && t.phase.Reading? && t.phase == s.phase.(index := t.phase.index)
      && t.base == s.base && |t.log| == |s.log| + Grows(rest)
    decreases |rest|
  {
    if rest == [] {
      assert acts + rest == acts;
    } else {
      var front := rest[..|rest| - 1];
      RunReading(w, acts, front);
      assert (acts + rest)[..|acts + rest| - 1] == acts + front;
    }
  }

  // ---------------------------------------------------------------- the follower as an object

  class FollowingEventIterator {
    const log: EventLog.CachingDecorator
    ghost const start: nat // the generation it was made in
    var reader: EventLog.SliceEventIterator
    var waitC: nat // the generation its wait channel belongs to
    var cursor: nat
    ghost var delivered: seq<Event>
    ghost var rearmed: bool

    /** The reader stands before the cursor, or has been found drained; the log's generation
        counts its appends. */
    ghost predicate Ready()
      reads this, reader, log, log.decorated
    {
      && EventLog.Dense(log.events) && Prefix(reader.events, log.events)
      && (reader.index == cursor - 1 || (reader.index >= cursor && cursor >= |reader.events|))
      && 0 <= log.decorated.generation - start <= |log.events|
    }

    ghost function Model(): Watch
      requires Ready()
      reads this, reader, log, log.decorated
    {
      Watch(|log.events| - (log.decorated.generation - start), log.events, cursor, delivered,
            Reading(reader.events, cursor - 1, waitC - start, rearmed))
    }

    /** Takes the snapshot and then the channel, here with no append in between. */
    constructor (log: EventLog.CachingDecorator, fromCursor: nat)
      requires EventLog.Dense(log.events)
      ensures this.log == log && fresh(reader) && Ready()
      ensures Model() == Step(Step(Begin(log.events, fromCursor), TakeFirstSnapshot), TakeFirstChannel)
    {
      var r := log.GetEventIterator(fromCursor);
      this.log, reader, waitC, cursor := log, r, log.decorated.generation, fromCursor;
      start, delivered, rearmed := log.decorated.generation, [], false;
    }

    /** The following event of the snapshot, if there is one. */
    method Deliver() returns (more: bool)
      requires Ready()
      modifies this, reader
      ensures Ready() && reader == old(reader) && waitC == old(waitC)
      ensures Model() == Step(old(Model()), Act.Deliver) && more == !old(Model()).Drained()
      ensures delivered == if more then old(delivered) + [log.events[old(cursor)]] else old(delivered)
    {
      more := reader.Next();
      if more {
        cursor := reader.Current().clock;
        delivered := delivered + [reader.Current()];
      }
    }

    /** The next channel and then a snapshot, here with no append in between. */
    method Rearm()
      requires Ready() && Model().Drained() && Model().ChannelClosed()
      modifies this
      ensures Ready() && fresh(reader) && delivered == old(delivered) && cursor == old(cursor)
      ensures Model() == Step(Step(old(Model()), TakeChannel), TakeSnapshot)
    {
      waitC := log.decorated.generation;
      reader := log.GetEventIterator(cursor);
      rearmed := true;
    }

    /** Next, up to where it would block, for any appends since the last call: delivers, or
        re-arms and delivers, or waits. */
    method Next() returns (blocked: bool)
      requires Ready()
      modifies this, reader
      ensures Ready() && (reader == old(reader) || fresh(reader))
      ensures var w := old(Model());
        Model() == if w.Drained() && w.ChannelClosed()
                   then Step(Step(Step(w, TakeChannel), TakeSnapshot), Act.Deliver)
                   else Step(w, Act.Deliver)
      ensures !blocked ==> cursor == old(cursor) + 1 && delivered == old(delivered) + [log.events[old(cursor)]]
      ensures blocked ==> cursor == old(cursor) && delivered == old(delivered)
    {
      var more := Deliver();
      if more {
        return false;
      }
      if waitC >= log.decorated.generation {
        return true;
      }
      Rearm();
      more := Deliver();
      blocked := !more;
    }
  }
}
