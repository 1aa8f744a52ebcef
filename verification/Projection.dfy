/** Projections that read the log by cursor: whatever appends and catch-ups are mixed, a
    catch-up leaves the fold of the whole log. */
module Projection {

  /** A consumer's state, and the clock of the last event it noted. */
  datatype Consumer<S> = Consumer(state: S, cursor: nat)

  /** How events are folded. `notes` says after which events the cursor moves; an event that
      is not noted is read again by the next catch-up. */
  datatype Rules<!S, !E> = Rules(init: S, apply: (S, E) -> S, notes: E -> bool)

  ghost predicate Sound<S(!new), E(!new)>(rules: Rules<S, E>) {
    forall s, e :: Harmless(rules, s, e)
  }

  /** An event that is not noted changes nothing. */
  ghost predicate Harmless<S, E>(rules: Rules<S, E>, s: S, e: E) {
    !rules.notes(e) ==> rules.apply(s, e) == s
  }

  function Fold<S, E>(rules: Rules<S, E>, s: S, events: seq<E>): S
    decreases |events|
  {
    if events == [] then s else rules.apply(Fold(rules, s, events[..|events| - 1]), events[|events| - 1])
  }

  /** Reads the log from index `i` on; an event's clock is its index plus one. */
  function CatchUp<S, E>(rules: Rules<S, E>, c: Consumer<S>, log: seq<E>, i: nat): Consumer<S>
    requires i <= |log|
    decreases |log| - i
  {
    if i == |log| then c
    else
      var next := Consumer(rules.apply(c.state, log[i]), if rules.notes(log[i]) then i + 1 else c.cursor);
      CatchUp(rules, next, log, i + 1)
  }

  datatype Act<E> = Append(e: E) | Read

  datatype World<S, E> = World(log: seq<E>, consumer: Consumer<S>)

  function Step<S, E>(rules: Rules<S, E>, w: World<S, E>, act: Act<E>): World<S, E> {
    match act
    case Append(e) => w.(log := w.log + [e])
    case Read =>
      if w.consumer.cursor <= |w.log| then w.(consumer := CatchUp(rules, w.consumer, w.log, w.consumer.cursor)) else w
  }

  function Run<S, E>(rules: Rules<S, E>, log: seq<E>, acts: seq<Act<E>>): World<S, E>
    decreases |acts|
  {
    if acts == [] then World(log, Consumer(rules.init, 0))
    else Step(rules, Run(rules, log, acts[..|acts| - 1]), acts[|acts| - 1])
  }

  /** The state folds the log as far as some point at or past the cursor, and nothing
      between the two is noted. */
  ghost predicate Folds<S, E>(rules: Rules<S, E>, c: Consumer<S>, log: seq<E>, read: nat) {
    && c.cursor <= read <= |log|
    && c.state == Fold(rules, rules.init, log[..read])
    && forall k :: c.cursor <= k < read ==> !rules.notes(log[k])
  }

  lemma FoldOneMore<S, E>(rules: Rules<S, E>, log: seq<E>, i: nat)
    requires i < |log|
    ensures Fold(rules, rules.init, log[..i + 1]) == rules.apply(Fold(rules, rules.init, log[..i]), log[i])
  {
    assert log[..i + 1][..i] == log[..i];
  }

  /** Re-reading what was not noted, then reading what is new. */
  lemma {:induction false} CatchUpFolds<S(!new), E(!new)>(rules: Rules<S, E>, c: Consumer<S>, log: seq<E>, read: nat, i: nat)
    requires Sound(rules) && Folds(rules, c, log, read) && c.cursor <= i <= read
    ensures Folds(rules, CatchUp(rules, c, log, i), log, |log|)
    decreases |log| - i
  {
    if i < |log| {
      var next := Consumer(rules.apply(c.state, log[i]), if rules.notes(log[i]) then i + 1 else c.cursor);
      assert Harmless(rules, c.state, log[i]);
      if i < read {
        CatchUpFolds(rules, next, log, read, i + 1);
      } else {
        FoldOneMore(rules, log, i);
        CatchUpFolds(rules, next, log, i + 1, i + 1);
      }
    }
  }

  lemma {:induction false} RunFolds<S(!new), E(!new)>(rules: Rules<S, E>, log: seq<E>, acts: seq<Act<E>>) returns (read: nat)
    requires Sound(rules)
    ensures Folds(rules, Run(rules, log, acts).consumer, Run(rules, log, acts).log, read)
    decreases |acts|
  {
    if acts == [] {
      read := 0;
      assert log[..0] == [];
    } else {
      var (front, act) := (acts[..|acts| - 1], acts[|acts| - 1]);
      read := RunFolds(rules, log, front);
      var w := Run(rules, log, front);
      match act {
        case Append(e) => assert (w.log + [e])[..read] == w.log[..read];
        case Read =>
          CatchUpFolds(rules, w.consumer, w.log, read, w.consumer.cursor);
          read := |w.log|;
      }
    }
  }

  /** Incremental equals replay. */
  lemma IncrementalIsReplay<S(!new), E(!new)>(rules: Rules<S, E>, log: seq<E>, acts: seq<Act<E>>)
    requires Sound(rules)
    ensures var w := Run(rules, log, acts + [Read]);
      w.consumer.state == Fold(rules, rules.init, w.log)
  {
    assert (acts + [Read])[..|acts|] == acts;
    var read := RunFolds(rules, log, acts);
    var w := Run(rules, log, acts);
    CatchUpFolds(rules, w.consumer, w.log, read, w.consumer.cursor);
    assert w.log[..|w.log|] == w.log;
  }
}
