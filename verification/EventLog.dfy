/** The event log: a file of events with a metadata counter beside it, and the cache that
    is loaded from the file and read by cursor. */
module EventLog {
  import opened Options
  import opened Events

  /** Clocks 1, 2, 3, ... in order. */
  ghost predicate Dense(events: seq<Event>) {
    forall i :: 0 <= i < |events| ==> events[i].clock == i + 1
  }

  // ---------------------------------------------------------------- loading

  function LastClock(events: seq<Event>): int {
    if events == [] then 0 else events[|events| - 1].clock
  }

  /** What loading keeps: an event whose clock is beyond every clock kept before it. */
  function Load(lines: seq<Event>): seq<Event>
    decreases |lines|
  {
    if lines == [] then []
    else
      var (kept, last) := (Load(lines[..|lines| - 1]), lines[|lines| - 1]);
      if last.clock <= LastClock(kept) then kept else kept + [last]
  }

  // ---------------------------------------------------------------- runs and stops

  /** The disk, and the counter of the process that has the log open, if one has. */
  datatype World = World(lines: seq<Event>, metadata: nat, running: Option<nat>)

  /** A process may stop between syncing an event's line and rewriting the metadata. */
  datatype Act =
    | Open
    | Append(accountId: string, at: int, data: Data)
    | AppendCutShort(accountId: string, at: int, data: Data)
    | Stop

  function Step(w: World, act: Act): World {
    match act
    case Open => if w.running.None? then w.(running := Some(w.metadata)) else w
    case Append(accountId, at, data) =>
      if w.running.None? then w
      else
        var clock := w.running.value + 1;
        World(w.lines + [Event(clock, accountId, at, data)], clock, Some(clock))
    case AppendCutShort(accountId, at, data) =>
      if w.running.None? then w
      else World(w.lines + [Event(w.running.value + 1, accountId, at, data)], w.metadata, None)
    case Stop => w.(running := None)
  }

  function Run(acts: seq<Act>): World
    decreases |acts|
  {
    if acts == [] then World([], 0, None) else Step(Run(acts[..|acts| - 1]), acts[|acts| - 1])
  }

  /** What loads is dense, and at most one event ahead of the metadata. */
  ghost predicate Sound(w: World) {
    && Dense(Load(w.lines))
    && w.metadata <= |Load(w.lines)| <= w.metadata + 1
    && (w.running.Some? ==> w.running.value == w.metadata)
  }

  lemma LoadOneMore(lines: seq<Event>, e: Event)
    ensures Load(lines + [e]) == if e.clock <= LastClock(Load(lines)) then Load(lines) else Load(lines) + [e]
  {
    assert (lines + [e])[..|lines|] == lines;
  }

  lemma StepSound(w: World, act: Act)
    requires Sound(w)
    ensures Sound(Step(w, act))
  {
    if (act.Append? || act.AppendCutShort?) && w.running.Some? {
      NextLoads(w.lines, w.metadata, Event(w.metadata + 1, act.accountId, act.at, act.data));
    }
  }

  /** A line with the next clock is loaded, unless one was written before the metadata was. */
  lemma NextLoads(lines: seq<Event>, metadata: nat, e: Event)
    requires Dense(Load(lines)) && metadata <= |Load(lines)| <= metadata + 1 && e.clock == metadata + 1
    ensures Dense(Load(lines + [e])) && |Load(lines + [e])| == metadata + 1
  {
    LoadOneMore(lines, e);
    LastOfDense(Load(lines));
    if |Load(lines)| == metadata { DenseOneMore(Load(lines), e); }
  }

  lemma LastOfDense(events: seq<Event>)
    requires Dense(events)
    ensures LastClock(events) == |events|
  {
  }

  lemma DenseOneMore(events: seq<Event>, e: Event)
    requires Dense(events) && e.clock == |events| + 1
    ensures Dense(events + [e])
  {
  }

  lemma {:induction false} RunSound(acts: seq<Act>)
    ensures Sound(Run(acts))
    decreases |acts|
  {
    if acts != [] {
      RunSound(acts[..|acts| - 1]);
      StepSound(Run(acts[..|acts| - 1]), acts[|acts| - 1]);
    }
  }

  /** A kept event is the first line of its clock. */
  ghost predicate FirstLine(lines: seq<Event>, e: Event) {
    exists j :: 0 <= j < |lines| && lines[j] == e && forall k :: 0 <= k < j ==> lines[k].clock != e.clock
  }

  lemma {:induction false} LoadFirstLines(lines: seq<Event>, i: nat)
    requires Dense(Load(lines)) && i < |Load(lines)|
    ensures FirstLine(lines, Load(lines)[i])
    decreases |lines|
  {
    var (front, last) := (lines[..|lines| - 1], lines[|lines| - 1]);
    var kept := Load(front);
    assert Dense(kept) by { assert forall k :: 0 <= k < |kept| ==> kept[k] == Load(lines)[k]; }
    if i < |kept| {
      LoadFirstLines(front, i);
      var j :| 0 <= j < |front| && front[j] == kept[i] && forall k :: 0 <= k < j ==> front[k].clock != kept[i].clock;
      assert lines[j] == Load(lines)[i];
      assert forall k :: 0 <= k < j ==> lines[k] == front[k];
    } else {
      forall k | 0 <= k < |front| ensures lines[k].clock != last.clock {
        AllKept(front, k);
      }
      assert lines[|front|] == Load(lines)[i];
    }
  }

  /** No line's clock is beyond what was kept. */
  lemma {:induction false} AllKept(lines: seq<Event>, k: nat)
    requires k < |lines|
    ensures lines[k].clock <= LastClock(Load(lines))
    decreases |lines|
  {
    var front := lines[..|lines| - 1];
    if k < |front| { AllKept(front, k); }
  }

  /** Crash-tolerant load: after any appends and stops, loading keeps exactly one event for
      each clock 1..n, in order, namely the first written; and n is the metadata cursor or
      one more. */
  lemma CrashTolerantLoad(acts: seq<Act>, i: nat)
    ensures var (w, loaded) := (Run(acts), Load(Run(acts).lines));
      && Dense(loaded) && w.metadata <= |loaded| <= w.metadata + 1
      && (i < |loaded| ==> FirstLine(w.lines, loaded[i]))
  {
    RunSound(acts);
    if i < |Load(Run(acts).lines)| { LoadFirstLines(Run(acts).lines, i); }
  }

  lemma {:induction false} LoadNoLonger(lines: seq<Event>)
    ensures |Load(lines)| <= |lines|
    ensures |Load(lines)| == |lines| ==> Load(lines) == lines
    decreases |lines|
  {
    if lines != [] {
      LoadNoLonger(lines[..|lines| - 1]);
      assert lines == lines[..|lines| - 1] + [lines[|lines| - 1]];
    }
  }

  /** A4: with as many lines as the metadata says, everything loads. */
  lemma FullLoad(acts: seq<Act>)
    requires |Run(acts).lines| == Run(acts).metadata
    ensures Load(Run(acts).lines) == Run(acts).lines
  {
    RunSound(acts);
    LoadNoLonger(Run(acts).lines);
  }

  // ---------------------------------------------------------------- what a run keeps, from its acts

  /** A process has the log open. */
  predicate IsOpen(acts: seq<Act>)
    decreases |acts|
  {
    acts != [] &&
    match acts[|acts| - 1]
    case Open => true
    case Append(_, _, _) => IsOpen(acts[..|acts| - 1])
    case AppendCutShort(_, _, _) => false
    case Stop => false
  }

  /** How many appends were completed. */
  function Completed(acts: seq<Act>): nat
    decreases |acts|
  {
    if acts == [] then 0
    else
      var front := acts[..|acts| - 1];
      Completed(front) + (if acts[|acts| - 1].Append? && IsOpen(front) then 1 else 0)
  }

  /** An append was cut short and none has been completed since. */
  predicate CutPending(acts: seq<Act>)
    decreases |acts|
  {
    acts != [] &&
    (var (front, last) := (acts[..|acts| - 1], acts[|acts| - 1]);
     if (last.Append? || last.AppendCutShort?) && IsOpen(front) then last.AppendCutShort? else CutPending(front))
  }

  /** The counter counts the completed appends, and one event more loads exactly if an append
      was cut short since. */
  lemma {:induction false} LoadsAsMany(acts: seq<Act>)
    ensures var w := Run(acts);
      && (w.running.Some? <==> IsOpen(acts))
      && w.metadata == Completed(acts)
      && |Load(w.lines)| == Completed(acts) + (if CutPending(acts) then 1 else 0)
    decreases |acts|
  {
    if acts != [] {
      var (front, act) := (acts[..|acts| - 1], acts[|acts| - 1]);
      var w := Run(front);
      LoadsAsMany(front);
      RunSound(front);
      if (act.Append? || act.AppendCutShort?) && w.running.Some? {
        NextLoads(w.lines, w.metadata, Event(w.metadata + 1, act.accountId, act.at, act.data));
      }
    }
  }

  /** What once loads loads for good, in the same place. */
  lemma {:induction false} LoadsForGood(acts: seq<Act>, more: seq<Act>)
    ensures Load(Run(acts).lines) <= Load(Run(acts + more).lines)
    decreases |more|
  {
    if more == [] {
      assert acts + more == acts;
    } else {
      var (front, act) := (more[..|more| - 1], more[|more| - 1]);
      LoadsForGood(acts, front);
      var (b, t) := (Run(acts + front), Run(acts + more));
      assert t == Step(b, act) by { assert (acts + more)[..|acts + more| - 1] == acts + front; }
      StepLoads(b, act);
    }
  }

  lemma {:induction false} StepLoads(w: World, act: Act)
    ensures Load(w.lines) <= Load(Step(w, act).lines)
  {
    if w.running.Some? {
      match act
      case Append(accountId, at, data) => LoadOneMore(w.lines, Event(w.running.value + 1, accountId, at, data));
      case AppendCutShort(accountId, at, data) => LoadOneMore(w.lines, Event(w.running.value + 1, accountId, at, data));
      case _ =>
    }
  }

  /** Durability: an append completed by a running process loads ever after, with the next clock
      and what was appended, exactly if no cut-short append came since the last completed one or
      that one had cut short the very same event. */
  lemma {:induction false} CompletedLoads(acts: seq<Act>, accountId: string, at: int, data: Data, more: seq<Act>)
    requires IsOpen(acts)
    ensures var (n, e) := (Completed(acts), Event(Completed(acts) + 1, accountId, at, data));
      var (before, after) := (Load(Run(acts).lines), Load(Run(acts + [Append(accountId, at, data)] + more).lines));
      && |after| > n && |before| >= n && after[..n] == before[..n] && CutPending(acts) == (|before| > n)
      && (after[n] == e <==> !CutPending(acts) || before[n] == e)
  {
    var act := Append(accountId, at, data);
    var (w, e, longer) := (Run(acts), Event(Completed(acts) + 1, accountId, at, data), acts + [act]);
    assert longer[..|acts|] == acts;
    LoadsAsMany(acts);
    RunSound(acts);
    LoadOneMore(w.lines, e);
    LastOfDense(Load(w.lines));
    LoadsForGood(longer, more);
  }

  // ---------------------------------------------------------------- the cache within one run

  /** The cache of a process: loaded at the start, then appended to with the file's clocks. */
  function CacheAfter(loaded: seq<Event>, metadata: nat, inputs: seq<Event>): seq<Event>
    decreases |inputs|
  {
    if inputs == [] then loaded
    else
      CacheAfter(loaded, metadata, inputs[..|inputs| - 1])
        + [inputs[|inputs| - 1].(clock := metadata + |inputs|)]
  }

  lemma {:induction false} CacheAt(loaded: seq<Event>, metadata: nat, inputs: seq<Event>, i: nat)
    requires i < |loaded| + |inputs|
    ensures |CacheAfter(loaded, metadata, inputs)| == |loaded| + |inputs|
    ensures CacheAfter(loaded, metadata, inputs)[i].clock
      == if i < |loaded| then loaded[i].clock else metadata + (i - |loaded|) + 1
    decreases |inputs|
  {
    if inputs != [] {
      var front := inputs[..|inputs| - 1];
      if i < |loaded| + |front| {
        CacheAt(loaded, metadata, front, i);
      } else if |loaded| + |front| > 0 {
        CacheAt(loaded, metadata, front, 0);
      }
    }
  }

  /** A4 is exactly what reading by cursor needs: once something is appended, a loaded cache
      stays dense if and only if the metadata cursor equals what was loaded. */
  lemma DenseIffCursorAgrees(loaded: seq<Event>, metadata: nat, inputs: seq<Event>)
    requires Dense(loaded) && inputs != []
    ensures Dense(CacheAfter(loaded, metadata, inputs)) <==> |loaded| == metadata
  {
    var cache := CacheAfter(loaded, metadata, inputs);
    CacheAt(loaded, metadata, inputs, |loaded|);
    assert cache[|loaded|].clock == metadata + 1;
    if |loaded| == metadata {
      forall i | 0 <= i < |cache| ensures cache[i].clock == i + 1 { CacheAt(loaded, metadata, inputs, i); }
    }
  }

  // ---------------------------------------------------------------- the log as objects

  /** The log's folder: the events file and the metadata file. */
  class Disk {
    var lines: seq<Event>
    var metadata: nat

    constructor ()
      ensures lines == [] && metadata == 0
    {
      lines, metadata := [], 0;
    }
  }

  class FileEventLog {
    const disk: Disk
    var cursor: nat
    var generation: nat // which wait channel is the current one

    constructor (disk: Disk)
      ensures this.disk == disk && cursor == disk.metadata && generation == 0
    {
      this.disk := disk;
      cursor, generation := disk.metadata, 0;
    }

    ghost function Model(): World
      reads this, disk
    {
      World(disk.lines, disk.metadata, Some(cursor))
    }

    /** Writes the line, then the counter, then wakes whoever waits. */
    method Append(accountId: string, at: int, data: Data) returns (e: Event)
      modifies this, disk
      ensures Model() == Step(old(Model()), Act.Append(accountId, at, data))
      ensures e == Event(old(cursor) + 1, accountId, at, data) && generation == old(generation) + 1
    {
      cursor := cursor + 1;
      e := Event(cursor, accountId, at, data);
      disk.lines := disk.lines + [e];
      disk.metadata := cursor;
      generation := generation + 1;
    }

    /** The file from a cursor on: skips that many lines, and reads nothing if there are
        fewer or the cursor is negative. */
    method ReadFrom(fromCursor: int) returns (events: seq<Event>)
      ensures events == if 0 <= fromCursor <= |disk.lines| then disk.lines[fromCursor..] else []
    {
      if fromCursor < 0 {
        return [];
      }
      var skipped := 0;
      while skipped < fromCursor
        invariant skipped <= fromCursor && skipped <= |disk.lines|
      {
        if skipped == |disk.lines| {
          return [];
        }
        skipped := skipped + 1;
      }
      events := disk.lines[skipped..];
    }
  }

  class CachingDecorator {
    const decorated: FileEventLog
    var events: seq<Event>

    /** Loads the file, leaving out lines whose clock was already loaded. */
    constructor (decorated: FileEventLog)
      ensures this.decorated == decorated && events == Load(decorated.disk.lines)
    {
      this.decorated := decorated;
      events := [];
      new;
      var lines := decorated.ReadFrom(0);
      var lastLogicalClock := 0;
      var i := 0;
      while i < |lines|
        invariant i <= |lines| && events == Load(lines[..i]) && lastLogicalClock == LastClock(events)
        invariant lines == decorated.disk.lines
      {
        assert Load(lines[..i + 1]) == if lines[i].clock <= LastClock(events) then events else events + [lines[i]] by {
          LoadOneMore(lines[..i], lines[i]);
          assert lines[..i + 1] == lines[..i] + [lines[i]];
        }
        if lines[i].clock > lastLogicalClock {
          events := events + [lines[i]];
          lastLogicalClock := lines[i].clock;
        }
        i := i + 1;
      }
      assert lines[..i] == lines;
    }

    method Append(accountId: string, at: int, data: Data) returns (e: Event)
      modifies this, decorated, decorated.disk
      ensures events == old(events) + [e] && e == Event(old(decorated.cursor) + 1, accountId, at, data)
      ensures decorated.Model() == Step(old(decorated.Model()), Act.Append(accountId, at, data))
      ensures decorated.generation == old(decorated.generation) + 1
    {
      e := decorated.Append(accountId, at, data);
      events := events + [e];
    }

    method GetEventIterator(fromCursor: int) returns (reader: SliceEventIterator)
      ensures fresh(reader) && reader.events == events && reader.index == fromCursor - 1
    {
      reader := new SliceEventIterator(events, fromCursor - 1);
    }
  }

  /** Reads a slice of the cache, taken when the iterator was made. */
  class SliceEventIterator {
    var events: seq<Event>
    var index: int

    constructor (events: seq<Event>, index: int)
      ensures this.events == events && this.index == index
    {
      this.events, this.index := events, index;
    }

    method Next() returns (more: bool)
      modifies this`index
      ensures index == old(index) + 1 && more == (index < |events|)
    {
      index := index + 1;
      more := index < |events|;
    }

    function Current(): Event
      requires 0 <= index < |events|
      reads this
    {
      events[index]
    }
  }
}
