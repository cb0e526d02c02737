/**
 At-least-once delivery. The offset of a message is committed after its handler has returned, so a crash can
 repeat a message, and a consumer can be sent back to the earliest offset. Whatever the schedule, a consumer
 that reaches the end of the log leaves what one exactly-once run leaves, provided that handlers meet two
 conditions on the part of the state they look after.
 */
module Delivery {
  import opened Basics

  /** A handler: the new state, or `Failed` when it throws and changes nothing. */
  type Handler<!S, !M> = (Option<S>, M) -> Result<Option<S>>

  /** The state after a message of an exactly-once run. */
  function Handled<S, M>(f: Handler<S, M>, s: Option<S>, m: M): Option<S> {
    if f(s, m).Ok? then f(s, m).value else s
  }

  /** The state after the first `n` messages, each handled once. */
  function RunTo<S, M>(f: Handler<S, M>, log: seq<M>, n: nat): Option<S>
    requires n <= |log|
  {
    if n == 0 then None else Handled(f, RunTo(f, log, n - 1), log[n - 1])
  }

  /** One event in the life of a consumer: a message is handled and its offset committed or, after a crash,
      not; or all partitions are sent back to the earliest offset. */
  datatype Step = Deliver(commit: bool) | Rewind

  datatype Progress<S> = Progress(state: Option<S>, position: nat)

  function Take<S, M>(f: Handler<S, M>, log: seq<M>, c: Progress<S>, step: Step): Progress<S> {
    match step
    case Rewind => c.(position := 0)
    case Deliver(commit) =>
      if c.position >= |log| || f(c.state, log[c.position]).Failed? then c
      else Progress(f(c.state, log[c.position]).value, if commit then c.position + 1 else c.position)
  }

  function Run<S, M>(f: Handler<S, M>, log: seq<M>, steps: seq<Step>): Progress<S> {
    if steps == [] then Progress(None, 0)
    else Take(f, log, Run(f, log, steps[..|steps| - 1]), steps[|steps| - 1])
  }

  predicate Succeeds<S, M>(f: Handler<S, M>, log: seq<M>, i: nat)
    requires i < |log|
  {
    f(RunTo(f, log, i), log[i]).Ok?
  }

  /** None of the first `n` messages throws. */
  ghost predicate Clean<S(!new), M(!new)>(f: Handler<S, M>, log: seq<M>, n: nat)
    requires n <= |log|
  {
    forall i: nat {:trigger Succeeds(f, log, i)} | i < n :: Succeeds(f, log, i)
  }

  lemma {:induction false} CleanPrefix<S(!new), M(!new)>(f: Handler<S, M>, log: seq<M>, n: nat)
    requires n < |log| && Clean(f, log, n + 1)
    ensures Clean(f, log, n) && f(RunTo(f, log, n), log[n]) == Ok(RunTo(f, log, n + 1))
  {
    assert Succeeds(f, log, n);
  }

  ghost predicate AbsorbedAt<S(!new), M(!new)>(f: Handler<S, M>, log: seq<M>, i: nat, h: nat)
    requires i < h <= |log|
  {
    Clean(f, log, h) && RunTo(f, log, h).Some? ==> f(RunTo(f, log, h), log[i]) == Ok(RunTo(f, log, h))
  }

  /** A present state is not changed by a message that it has seen. */
  ghost predicate Absorbs<S(!new), M(!new)>(f: Handler<S, M>, log: seq<M>) {
    forall i: nat, h: nat {:trigger AbsorbedAt(f, log, i, h)} | i < h <= |log| :: AbsorbedAt(f, log, i, h)
  }

  predicate VanishedAt<S, M>(f: Handler<S, M>, log: seq<M>, i: nat)
    requires i < |log|
  {
    RunTo(f, log, i + 1).None? ==> Handled(f, None, log[i]).None?
  }

  /** A message that leaves nothing leaves nothing a second time. */
  ghost predicate Vanishes<S(!new), M(!new)>(f: Handler<S, M>, log: seq<M>) {
    forall i: nat {:trigger VanishedAt(f, log, i)} | i < |log| :: VanishedAt(f, log, i)
  }

  /** The state of a consumer at `position` is that of the exactly-once run at some `h`: at its position, one
      message ahead of it, or anywhere ahead of it with the state present. */
  ghost predicate AtHeight<S(!new), M(!new)>(f: Handler<S, M>, log: seq<M>, c: Progress<S>, h: nat) {
    && c.position <= h <= |log| && Clean(f, log, h) && c.state == RunTo(f, log, h)
    && (h <= c.position + 1 || c.state.Some?)
  }

  lemma {:induction false} DeliverKeepsHeight<S(!new), M(!new)>(f: Handler<S, M>, log: seq<M>, c: Progress<S>, h: nat,
                                                                commit: bool)
    returns (h': nat)
    requires Absorbs(f, log) && Vanishes(f, log) && AtHeight(f, log, c, h)
    requires c.position < |log| && f(c.state, log[c.position]).Ok?
    ensures AtHeight(f, log, Take(f, log, c, Deliver(commit)), h')
  {
    var n := c.position;
    h' := h;
    if h == n {
      assert Succeeds(f, log, n);
      assert RunTo(f, log, n + 1) == f(c.state, log[n]).value;
      h' := n + 1;
    } else if c.state.None? {
      assert VanishedAt(f, log, n);
    } else {
      assert AbsorbedAt(f, log, n, h);
    }
  }

  lemma {:induction false} RunHasHeight<S(!new), M(!new)>(f: Handler<S, M>, log: seq<M>, steps: seq<Step>)
    returns (h: nat)
    requires Absorbs(f, log) && Vanishes(f, log)
    ensures AtHeight(f, log, Run(f, log, steps), h)
    decreases |steps|
  {
    if steps == [] {
      h := 0;
    } else {
      var n := |steps| - 1;
      var c := Run(f, log, steps[..n]);
      h := RunHasHeight(f, log, steps[..n]);
      if steps[n].Rewind? {
        if c.state.None? { h := 0; }
      } else if c.position < |log| && f(c.state, log[c.position]).Ok? {
        h := DeliverKeepsHeight(f, log, c, h, steps[n].commit);
      }
    }
  }

  /** Delivery independence; a consumer only gets to the end of a log of which no message throws. */
  lemma {:induction false} ScheduleDoesNotMatter<S(!new), M(!new)>(f: Handler<S, M>, log: seq<M>, steps: seq<Step>)
    requires Absorbs(f, log) && Vanishes(f, log)
    ensures Run(f, log, steps).position == |log| ==>
              Run(f, log, steps).state == RunTo(f, log, |log|) && Clean(f, log, |log|)
  {
    var h := RunHasHeight(f, log, steps);
  }
}
