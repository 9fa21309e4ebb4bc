/** The phase runner of the azwi commands (pkg/cmd/serviceaccount/phases/workflow/runner.go). */
module Workflow {
  import opened Common

  /** A phase; its callbacks act on the command's data S and may fail with an E. */
  datatype Phase<!S, E> = Phase(name: string, preRun: S -> (S, Option<E>), run: S -> (S, Option<E>))

  datatype RunError<E> =
    | UnknownPhase(name: string)
    | PreRunFailed(name: string, cause: E)
    | RunFailed(name: string, cause: E)

  /** What the runner did. */
  datatype Event = PreRan(name: string) | Ran(name: string)

  datatype Outcome<S, E> = Outcome(data: S, err: Option<RunError<E>>, trace: seq<Event>)

  function Names<S, E>(phases: seq<Phase<S, E>>): seq<string> {
    seq(|phases|, i requires 0 <= i < |phases| => phases[i].name)
  }

  /** The phases that are not skipped, in order. */
  function Unskipped<S, E>(phases: seq<Phase<S, E>>, skip: set<string>): seq<Phase<S, E>> {
    if phases == [] then []
    else
      var last := phases[|phases| - 1];
      Unskipped(phases[..|phases| - 1], skip) + if last.name in skip then [] else [last]
  }

  function PreRuns<S, E>(phases: seq<Phase<S, E>>, data: S): Outcome<S, E> {
    if phases == [] then Outcome(data, None, [])
    else
      var (data', err) := phases[0].preRun(data);
      if err.Some? then Outcome(data', Some(PreRunFailed(phases[0].name, err.value)), [PreRan(phases[0].name)])
      else
        var rest := PreRuns(phases[1..], data');
        rest.(trace := [PreRan(phases[0].name)] + rest.trace)
  }

  function Runs<S, E>(phases: seq<Phase<S, E>>, data: S): Outcome<S, E> {
    if phases == [] then Outcome(data, None, [])
    else
      var (data', err) := phases[0].run(data);
      if err.Some? then Outcome(data', Some(RunFailed(phases[0].name, err.value)), [Ran(phases[0].name)])
      else
        var rest := Runs(phases[1..], data');
        rest.(trace := [Ran(phases[0].name)] + rest.trace)
  }

  /** All pre-runs, and only if they succeed all runs. */
  function RunAll<S, E>(phases: seq<Phase<S, E>>, data: S): Outcome<S, E> {
    var pre := PreRuns(phases, data);
    if pre.err.Some? then pre
    else
      var run := Runs(phases, pre.data);
      run.(trace := pre.trace + run.trace)
  }

  /** The first skipped name that is not a phase, or the number of skipped names. */
  function UnknownIndex(names: seq<string>, skips: seq<string>): (i: nat)
    ensures i <= |skips|
    ensures i < |skips| ==> skips[i] !in names
    ensures forall k :: 0 <= k < i ==> skips[k] in names
  {
    if skips == [] || skips[0] !in names then 0 else 1 + UnknownIndex(names, skips[1..])
  }

  function ToSet(names: seq<string>): set<string> {
    set n | n in names
  }

  function RunPhases<S, E>(phases: seq<Phase<S, E>>, skips: seq<string>, data: S): Outcome<S, E> {
    var unknown := UnknownIndex(Names(phases), skips);
    if unknown < |skips| then Outcome(data, Some(UnknownPhase(skips[unknown])), [])
    else RunAll(Unskipped(phases, ToSet(skips)), data)
  }

  // ---------------------------------------------------------------------------------------
  // The code

  class Runner<!S, E> {
    var skipPhases: seq<string>
    var phases: seq<Phase<S, E>>

    constructor ()
      ensures skipPhases == [] && phases == []
    {
      skipPhases, phases := [], [];
    }

    method AppendPhases(added: seq<Phase<S, E>>)
      modifies this`phases
      ensures phases == old(phases) + added
    {
      phases := phases + added;
    }

    method AppendSkipPhases(added: seq<Phase<S, E>>)
      modifies this`skipPhases
      ensures skipPhases == old(skipPhases) + Names(added)
    {
      for i := 0 to |added|
        invariant skipPhases == old(skipPhases) + Names(added)[..i]
      {
        skipPhases := skipPhases + [added[i].name];
      }
    }

    method IsPhaseActive(name: string) returns (active: bool)
      ensures active <==> name !in skipPhases
    {
      for i := 0 to |skipPhases|
        invariant name !in skipPhases[..i]
      {
        if skipPhases[i] == name {
          return false;
        }
      }
      active := true;
    }

    method ComputeSkipPhases() returns (skip: set<string>, err: Option<RunError<E>>)
      ensures var unknown := UnknownIndex(Names(phases), skipPhases);
              if unknown < |skipPhases| then err == Some(UnknownPhase(skipPhases[unknown]))
              else err == None && skip == ToSet(skipPhases)
    {
      var currentPhases: set<string> := {};
      for i := 0 to |phases|
        invariant forall n :: n in currentPhases <==> n in Names(phases)[..i]
      {
        currentPhases := currentPhases + {phases[i].name};
        assert Names(phases)[..i + 1] == Names(phases)[..i] + [phases[i].name];
      }
      assert Names(phases)[..|phases|] == Names(phases);
      skip := {};
      for i := 0 to |skipPhases|
        invariant i <= UnknownIndex(Names(phases), skipPhases)
        invariant forall n :: n in skip <==> n in skipPhases[..i]
      {
        if skipPhases[i] !in currentPhases {
          return {}, Some(UnknownPhase(skipPhases[i]));
        }
        skip := skip + {skipPhases[i]};
        assert skipPhases[..i + 1] == skipPhases[..i] + [skipPhases[i]];
      }
      assert skipPhases[..|skipPhases|] == skipPhases;
      err := None;
    }

    method Run(input: S) returns (out: Outcome<S, E>)
      ensures out == RunPhases(phases, skipPhases, input)
    {
      var skip, err := ComputeSkipPhases();
      if err.Some? {
        return Outcome(input, err, []);
      }
      var filtered: seq<Phase<S, E>> := [];
      for i := 0 to |phases|
        invariant filtered == Unskipped(phases[..i], skip)
      {
        assert phases[..i + 1][..i] == phases[..i];
        if phases[i].name in skip {
          continue;
        }
        filtered := filtered + [phases[i]];
      }
      assert phases[..|phases|] == phases;

      // no phase runs unless all of them are ready
      var data, trace: seq<Event> := input, [];
      for i := 0 to |filtered|
        invariant PreRuns(filtered, input) == Prepend(trace, PreRuns(filtered[i..], data))
      {
        PreRunsStep(filtered, i, data, trace);
        var (next, failure) := filtered[i].preRun(data);
        data, trace := next, trace + [PreRan(filtered[i].name)];
        if failure.Some? {
          return Outcome(data, Some(PreRunFailed(filtered[i].name, failure.value)), trace);
        }
      }
      assert trace + [] == trace;
      for i := 0 to |filtered|
        invariant RunAll(filtered, input) == Prepend(trace, Runs(filtered[i..], data))
      {
        RunsStep(filtered, i, data, trace);
        var (next, failure) := filtered[i].run(data);
        data, trace := next, trace + [Ran(filtered[i].name)];
        if failure.Some? {
          return Outcome(data, Some(RunFailed(filtered[i].name, failure.value)), trace);
        }
      }
      out := Outcome(data, None, trace);
    }
  }

  function Prepend<S, E>(trace: seq<Event>, o: Outcome<S, E>): Outcome<S, E> {
    o.(trace := trace + o.trace)
  }

  lemma PreRunsStep<S, E>(phases: seq<Phase<S, E>>, i: nat, data: S, trace: seq<Event>)
    requires i < |phases|
    ensures var (next, failure) := phases[i].preRun(data);
            Prepend(trace, PreRuns(phases[i..], data)) ==
            if failure.Some? then
              Outcome(next, Some(PreRunFailed(phases[i].name, failure.value)), trace + [PreRan(phases[i].name)])
            else Prepend(trace + [PreRan(phases[i].name)], PreRuns(phases[i + 1..], next))
  {
    assert phases[i..][1..] == phases[i + 1..];
    var (next, failure) := phases[i].preRun(data);
    var rest := PreRuns(phases[i + 1..], next).trace;
    assert trace + ([PreRan(phases[i].name)] + rest) == trace + [PreRan(phases[i].name)] + rest;
  }

  lemma RunsStep<S, E>(phases: seq<Phase<S, E>>, i: nat, data: S, trace: seq<Event>)
    requires i < |phases|
    ensures var (next, failure) := phases[i].run(data);
            Prepend(trace, Runs(phases[i..], data)) ==
            if failure.Some? then
              Outcome(next, Some(RunFailed(phases[i].name, failure.value)), trace + [Ran(phases[i].name)])
            else Prepend(trace + [Ran(phases[i].name)], Runs(phases[i + 1..], next))
  {
    assert phases[i..][1..] == phases[i + 1..];
    var (next, failure) := phases[i].run(data);
    var rest := Runs(phases[i + 1..], next).trace;
    assert trace + ([Ran(phases[i].name)] + rest) == trace + [Ran(phases[i].name)] + rest;
  }

  // ---------------------------------------------------------------------------------------
  // What a run does

  function Events<S, E>(phases: seq<Phase<S, E>>): seq<Event> {
    seq(2 * |phases|, i requires 0 <= i < 2 * |phases| =>
      if i < |phases| then PreRan(phases[i].name) else Ran(phases[i - |phases|].name))
  }

  /** One callback: the i-th of the pre-runs followed by the runs. */
  function Callback<S, E>(phases: seq<Phase<S, E>>, i: nat, data: S): (S, Option<E>)
    requires i < 2 * |phases|
  {
    if i < |phases| then phases[i].preRun(data) else phases[i - |phases|].run(data)
  }

  /** The data after the first k callbacks, ignoring failures. */
  function Replay<S, E>(phases: seq<Phase<S, E>>, k: nat, data: S): S
    requires k <= 2 * |phases|
  {
    if k == 0 then data else Callback(phases, k - 1, Replay(phases, k - 1, data)).0
  }

  function FailureAt<S, E>(phases: seq<Phase<S, E>>, i: nat, data: S): Option<E>
    requires i < 2 * |phases|
  {
    Callback(phases, i, Replay(phases, i, data)).1
  }

  function ErrorAt<S, E>(phases: seq<Phase<S, E>>, i: nat, cause: E): RunError<E>
    requires i < 2 * |phases|
  {
    if i < |phases| then PreRunFailed(phases[i].name, cause) else RunFailed(phases[i - |phases|].name, cause)
  }

  /** What is left of RunAll once i callbacks have succeeded. */
  function Continue<S, E>(phases: seq<Phase<S, E>>, i: nat, data: S): Outcome<S, E>
    requires i <= 2 * |phases|
  {
    if i < |phases| then
      var pre := PreRuns(phases[i..], data);
      if pre.err.Some? then pre else Prepend(pre.trace, Runs(phases, pre.data))
    else Runs(phases[i - |phases|..], data)
  }

  lemma ContinueStep<S, E>(phases: seq<Phase<S, E>>, i: nat, data: S)
    requires i < 2 * |phases|
    ensures var (next, failure) := Callback(phases, i, data);
            Continue(phases, i, data) ==
            if failure.Some? then Outcome(next, Some(ErrorAt(phases, i, failure.value)), [Events(phases)[i]])
            else Prepend([Events(phases)[i]], Continue(phases, i + 1, next))
  {
    var n := |phases|;
    if i < n {
      assert phases[i..][1..] == phases[i + 1..];
      var (next, failure) := phases[i].preRun(data);
      var rest := PreRuns(phases[i + 1..], next);
      var after := Runs(phases, rest.data);
      var first := PreRan(phases[i].name);
      assert [first] + rest.trace + after.trace == [first] + (rest.trace + after.trace);
      if i + 1 == n {
        assert phases[n..] == [] && phases[0..] == phases;
        assert rest.trace + after.trace == after.trace;
      }
    } else {
      assert phases[i - n..][1..] == phases[i + 1 - n..];
    }
  }

  /** The callbacks from one up to another all succeed. */
  ghost predicate Succeed<S, E>(phases: seq<Phase<S, E>>, data: S, from: nat, to: nat)
    requires to <= 2 * |phases|
  {
    forall j: nat :: from <= j < to ==> FailureAt(phases, j, data) == None
  }

  /** An outcome after callbacks from..k: all succeeded and none is left, or only the last failed. */
  ghost predicate EndsAt<S, E>(phases: seq<Phase<S, E>>, data: S, from: nat, k: nat, o: Outcome<S, E>) {
    && from <= k <= 2 * |phases|
    && o.data == Replay(phases, k, data)
    && match o.err
       case None => k == 2 * |phases| && Succeed(phases, data, from, k)
       case Some(e) =>
         && from < k && Succeed(phases, data, from, k - 1)
         && FailureAt(phases, k - 1, data).Some?
         && e == ErrorAt(phases, k - 1, FailureAt(phases, k - 1, data).value)
  }

  lemma EndsAtEarlier<S, E>(phases: seq<Phase<S, E>>, data: S, i: nat, k: nat, rest: Outcome<S, E>, o: Outcome<S, E>)
    requires EndsAt(phases, data, i + 1, k, rest) && FailureAt(phases, i, data) == None
    requires o.data == rest.data && o.err == rest.err
    ensures EndsAt(phases, data, i, k, o)
  {
    hide FailureAt;
    hide Replay;
  }

  lemma NothingLeft<S, E>(phases: seq<Phase<S, E>>, data: S)
    ensures Continue(phases, 2 * |phases|, data) == Outcome(data, None, [])
  {
    assert phases[|phases|..] == [];
  }

  lemma {:induction false} ContinueTrace<S, E>(phases: seq<Phase<S, E>>, i: nat, data: S) returns (k: nat)
    requires i <= 2 * |phases|
    ensures EndsAt(phases, data, i, k, Continue(phases, i, Replay(phases, i, data)))
    ensures Continue(phases, i, Replay(phases, i, data)).trace == Events(phases)[i..k]
    decreases 2 * |phases| - i
  {
    hide Continue;
    hide Callback;
    var now := Replay(phases, i, data);
    if i == 2 * |phases| {
      k := i;
      NothingLeft(phases, now);
    } else {
      ContinueStep(phases, i, now);
      if FailureAt(phases, i, data).Some? {
        k := i + 1;
      } else {
        k := ContinueTrace(phases, i + 1, data);
        EndsAtEarlier(phases, data, i, k, Continue(phases, i + 1, Callback(phases, i, now).0),
                      Continue(phases, i, now));
        hide EndsAt;
        assert [Events(phases)[i]] + Events(phases)[i + 1..k] == Events(phases)[i..k];
      }
    }
  }

  /** A run does the first k of all pre-runs followed by all runs of the unskipped phases: all of
      them, or up to the first that fails, whose error it returns.  An unknown skip name does nothing. */
  lemma RunTheorem<S, E>(phases: seq<Phase<S, E>>, skips: seq<string>, data: S) returns (k: nat)
    ensures var o, active := RunPhases(phases, skips, data), Unskipped(phases, ToSet(skips));
            && k <= 2 * |active|
            && ((exists s :: s in skips && s !in Names(phases)) ==>
                  o.err.Some? && o.err.value.UnknownPhase? && o.err.value.name in skips
                      && o.err.value.name !in Names(phases)
                  && o.trace == [] && o.data == data)
            && ((forall s :: s in skips ==> s in Names(phases)) ==>
                  o.trace == Events(active)[..k] && EndsAt(active, data, 0, k, o))
  {
    var active := Unskipped(phases, ToSet(skips));
    k := ContinueTrace(active, 0, data);
    var unknown := UnknownIndex(Names(phases), skips);
    assert Events(active)[0..k] == Events(active)[..k];
    assert active[0..] == active;
    assert Continue(active, 0, data) == RunAll(active, data) by {
      if active == [] { assert PreRuns(active, data).trace + Runs(active, data).trace == []; }
    }
    if s :| s in skips && s !in Names(phases) {
      var i :| 0 <= i < |skips| && skips[i] == s;
      assert unknown < |skips|;
    }
  }

  /** Which phases are active does not depend on how often or in which order names are skipped. */
  lemma {:induction false} UnskippedNames<S, E>(phases: seq<Phase<S, E>>, skip: set<string>, p: Phase<S, E>)
    ensures p in Unskipped(phases, skip) <==> p in phases && p.name !in skip
  {
    if phases != [] {
      UnskippedNames(phases[..|phases| - 1], skip, p);
      assert phases == phases[..|phases| - 1] + [phases[|phases| - 1]];
    }
  }

  // ---------------------------------------------------------------------------------------
  // Runs of a fixed list, phase by phase

  function Callbacks<S, E>(p: Phase<S, E>, pre: bool): S -> (S, Option<E>) {
    if pre then p.preRun else p.run
  }

  /** What follows, unless the phase is skipped or something failed before. */
  function Unless<S, E>(before: (S, Option<E>), name: string, skip: set<string>, next: (S, Option<E>)): (S, Option<E>) {
    if before.1.Some? || name in skip then before else next
  }

  /** One more phase. */
  function Then<S, E>(before: (S, Option<E>), p: Phase<S, E>, skip: set<string>, pre: bool): (S, Option<E>) {
    Unless(before, p.name, skip, Callbacks(p, pre)(before.0))
  }

  /** Four phases, one after another. */
  function ThenAll<S, E>(start: (S, Option<E>), ps: seq<Phase<S, E>>, skip: set<string>, pre: bool): (S, Option<E>)
    requires |ps| == 4
  {
    Then(Then(Then(Then(start, ps[0], skip, pre), ps[1], skip, pre), ps[2], skip, pre), ps[3], skip, pre)
  }

  function InSequence<S, E>(phases: seq<Phase<S, E>>, skip: set<string>, pre: bool, data: S): (S, Option<E>) {
    if phases == [] then (data, None)
    else Then(InSequence(phases[..|phases| - 1], skip, pre, data), phases[|phases| - 1], skip, pre)
  }

  lemma {:induction false} PreRunsAppend<S, E>(phases: seq<Phase<S, E>>, p: Phase<S, E>, data: S)
    ensures var o, all := PreRuns(phases, data), PreRuns(phases + [p], data);
            if o.err.Some? then all.data == o.data && all.err == o.err
            else all.data == p.preRun(o.data).0 && (all.err.Some? <==> p.preRun(o.data).1.Some?)
  {
    if phases == [] {
      assert phases + [p] == [p] && [p][1..] == [];
    } else {
      assert (phases + [p])[1..] == phases[1..] + [p];
      PreRunsAppend(phases[1..], p, phases[0].preRun(data).0);
    }
  }

  lemma {:induction false} RunsAppend<S, E>(phases: seq<Phase<S, E>>, p: Phase<S, E>, data: S)
    ensures var o, all := Runs(phases, data), Runs(phases + [p], data);
            if o.err.Some? then all.data == o.data && all.err == o.err
            else all.data == p.run(o.data).0 && (all.err.Some? <==> p.run(o.data).1.Some?)
  {
    if phases == [] {
      assert phases + [p] == [p] && [p][1..] == [];
    } else {
      assert (phases + [p])[1..] == phases[1..] + [p];
      RunsAppend(phases[1..], p, phases[0].run(data).0);
    }
  }

  lemma {:induction false} SequenceIsPhases<S, E>(phases: seq<Phase<S, E>>, skip: set<string>, data: S)
    ensures var o, q := PreRuns(Unskipped(phases, skip), data), InSequence(phases, skip, true, data);
            o.data == q.0 && (o.err.Some? <==> q.1.Some?)
    ensures var o, q := Runs(Unskipped(phases, skip), data), InSequence(phases, skip, false, data);
            o.data == q.0 && (o.err.Some? <==> q.1.Some?)
  {
    if phases != [] {
      var front, last := phases[..|phases| - 1], phases[|phases| - 1];
      SequenceIsPhases(front, skip, data);
      if last.name in skip {
        assert Unskipped(phases, skip) == Unskipped(front, skip);
      } else {
        PreRunsAppend(Unskipped(front, skip), last, data);
        RunsAppend(Unskipped(front, skip), last, data);
      }
    }
  }

  /** A run with four phases and known skip names. */
  lemma RunOfFour<S, E>(a: Phase<S, E>, b: Phase<S, E>, c: Phase<S, E>, d: Phase<S, E>, skips: seq<string>, data: S)
    requires forall s :: s in skips ==> s in [a.name, b.name, c.name, d.name]
    ensures var skip := ToSet(skips);
            var pre := ThenAll((data, None), [a, b, c, d], skip, true);
            var run := ThenAll((pre.0, None), [a, b, c, d], skip, false);
            var o := RunPhases([a, b, c, d], skips, data);
            if pre.1.Some? then o.err.Some? && o.data == pre.0
            else (o.err.Some? <==> run.1.Some?) && o.data == run.0
  {
    var phases, skip := [a, b, c, d], ToSet(skips);
    assert Names(phases) == [a.name, b.name, c.name, d.name];
    SequenceIsPhases(phases, skip, data);
    SequenceOfFour(a, b, c, d, skip, true, data);
    var ready := PreRuns(Unskipped(phases, skip), data).data;
    SequenceIsPhases(phases, skip, ready);
    SequenceOfFour(a, b, c, d, skip, false, ready);
  }

  lemma SequenceOfFour<S, E>(a: Phase<S, E>, b: Phase<S, E>, c: Phase<S, E>, d: Phase<S, E>, skip: set<string>,
                             pre: bool, data: S)
    ensures InSequence([a, b, c, d], skip, pre, data)
         == ThenAll((data, None), [a, b, c, d], skip, pre)
  {
    assert [a, b, c, d][..3] == [a, b, c] && [a, b, c][..2] == [a, b] && [a, b][..1] == [a] && [a][..0] == [];
    assert InSequence([a], skip, pre, data) == Then((data, None), a, skip, pre);
    assert InSequence([a, b], skip, pre, data) == Then(InSequence([a], skip, pre, data), b, skip, pre);
    assert InSequence([a, b, c], skip, pre, data) == Then(InSequence([a, b], skip, pre, data), c, skip, pre);
  }

  lemma UnknownSkipFails<S, E>(phases: seq<Phase<S, E>>, skips: seq<string>, data: S)
    requires exists s :: s in skips && s !in Names(phases)
    ensures RunPhases(phases, skips, data).err.Some? && RunPhases(phases, skips, data).data == data
  {
    var k := RunTheorem(phases, skips, data);
  }
}
