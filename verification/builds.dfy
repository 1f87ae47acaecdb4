/** Publishing a build (assoc/rebuild.py): staged under a hidden name, renamed when complete, pointed at by
    `current`, and the builds before the previous one pruned; a crash may fall between any two steps. */
module Builds {
  import opened Common

  datatype BuildId = BuildId(name: string)

  /** A directory is whole once its manifest, written last, is there; a directory being filled or removed is
      in parts. */
  datatype Directory = Whole | InParts

  /** Where the one writer is. `prev` is the build it found current and loadable when it began. */
  datatype Phase =
    | Idle
    | Staging(b: BuildId, prev: Option<BuildId>)
    | Sealed(b: BuildId, prev: Option<BuildId>)
    | Renamed(b: BuildId, prev: Option<BuildId>)
    | Pointing(b: BuildId, prev: Option<BuildId>)
    | Swapped(b: BuildId, prev: Option<BuildId>)

  /** The index directory, and the writer's place in its program. */
  datatype State = State(current: Option<BuildId>, tmp: Option<BuildId>, builds: map<BuildId, Directory>,
                         staging: map<BuildId, Directory>, phase: Phase)

  /** Which whole builds a process manages to load. */
  type Loads = BuildId -> bool

  /** The build a reader is given: what `current` names, if it is whole and loads. */
  function CurrentBuild(s: State, loads: Loads): Option<BuildId> {
    if s.current.Some? && s.current.value in s.builds && s.builds[s.current.value] == Whole && loads(s.current.value)
      then s.current else None
  }

  datatype Step = Begin(b: BuildId) | Seal | Rename | WriteTmp | Swap | Unlink(v: BuildId) | Drop(v: BuildId) | Finish
    | Crash

  /** A pruned directory is neither the new build nor the one before it. */
  predicate Prunable(s: State, v: BuildId) {
    s.phase.Swapped? && v in s.builds && v != s.phase.b && s.phase.prev != Some(v)
  }

  predicate Enabled(s: State, step: Step) {
    match step
    case Begin(b) => s.phase.Idle? && b !in s.builds && b !in s.staging
    case Seal => s.phase.Staging?
    case Rename => s.phase.Sealed? && s.phase.b in s.staging
    case WriteTmp => s.phase.Renamed?
    case Swap => s.phase.Pointing? && s.tmp.Some?
    case Unlink(v) => Prunable(s, v)
    case Drop(v) => Prunable(s, v)
    case Finish => s.phase.Swapped?
    case Crash => true
  }

  function Next(s: State, step: Step, loads: Loads): State
    requires Enabled(s, step)
  {
    match step
    case Begin(b) => s.(staging := s.staging[b := InParts], phase := Staging(b, CurrentBuild(s, loads)))
    case Seal => s.(staging := s.staging[s.phase.b := Whole], phase := Sealed(s.phase.b, s.phase.prev))
    case Rename =>
      var b := s.phase.b;
      s.(builds := s.builds[b := s.staging[b]], staging := s.staging - {b}, phase := Renamed(b, s.phase.prev))
    case WriteTmp => s.(tmp := Some(s.phase.b), phase := Pointing(s.phase.b, s.phase.prev))
    case Swap => s.(current := s.tmp, tmp := None, phase := Swapped(s.phase.b, s.phase.prev))
    case Unlink(v) => s.(builds := s.builds[v := InParts])
    case Drop(v) => s.(builds := s.builds - {v})
    case Finish => s.(phase := Idle)
    case Crash => s.(phase := Idle)
  }

  ghost predicate IsWhole(s: State, b: BuildId) {
    b in s.builds && s.builds[b] == Whole
  }

  /** The build the writer will spare is the one a reader is given. */
  ghost predicate Knows(s: State, loads: Loads) {
    s.phase.Staging? || s.phase.Sealed? || s.phase.Renamed? || s.phase.Pointing? ==>
      s.phase.prev == CurrentBuild(s, loads)
  }

  /** `current` is absent or names a whole build; the rest is what that takes at each point. */
  ghost predicate Inv(s: State, loads: Loads) {
    && (s.current.Some? ==> IsWhole(s, s.current.value))
    && (s.phase.Staging? || s.phase.Sealed? ==> s.phase.b in s.staging && s.phase.b !in s.builds)
    && (s.phase.Sealed? ==> s.staging[s.phase.b] == Whole)
    && (s.phase.Renamed? || s.phase.Pointing? ==> IsWhole(s, s.phase.b))
    && (s.phase.Pointing? ==> s.tmp == Some(s.phase.b))
    && (s.phase.Swapped? ==> s.current == Some(s.phase.b))
    && Knows(s, loads)
  }

  /** Every step keeps `current` safe. */
  lemma StepKeepsInv(s: State, step: Step, loads: Loads)
    requires Inv(s, loads) && Enabled(s, step)
    ensures Inv(Next(s, step, loads), loads)
  {
  }

  ghost predicate Run(states: seq<State>, steps: seq<Step>, loads: Loads) {
    && |states| == |steps| + 1
    && forall i :: 0 <= i < |steps| ==>
       Enabled(states[i], steps[i]) && states[i + 1] == Next(states[i], steps[i], loads)
  }

  /** In every state of every run, crashes included, `current` is absent or names a whole build. */
  lemma {:induction false} CurrentIsWhole(states: seq<State>, steps: seq<Step>, loads: Loads, n: nat)
    requires Run(states, steps, loads) && Inv(states[0], loads) && n <= |steps|
    ensures Inv(states[n], loads) && (states[n].current.Some? ==> IsWhole(states[n], states[n].current.value))
  {
    if n > 0 {
      CurrentIsWhole(states, steps, loads, n - 1);
      StepKeepsInv(states[n - 1], steps[n - 1], loads);
    }
  }

  function Swaps(steps: seq<Step>): nat {
    if steps == [] then 0 else Swaps(steps[..|steps| - 1]) + if steps[|steps| - 1].Swap? then 1 else 0
  }

  lemma {:induction false} SwapsConcat(a: seq<Step>, b: seq<Step>)
    ensures Swaps(a + b) == Swaps(a) + Swaps(b)
  {
    if b == [] {
      assert a + b == a;
    } else {
      assert (a + b)[..|a + b| - 1] == a + b[..|b| - 1];
      SwapsConcat(a, b[..|b| - 1]);
    }
  }

  /** What keeps p for a reader that took p while it was current: before the next swap it is the current
      build, after it the previous one. */
  ghost predicate Kept(s: State, loads: Loads, p: BuildId, swaps: nat) {
    && Inv(s, loads) && IsWhole(s, p) && loads(p)
    && (swaps == 0 ==> s.current == Some(p))
    && (swaps == 1 ==> s.phase.Swapped? ==> s.phase.b == p || s.phase.prev == Some(p))
  }

  lemma StepKeeps(s: State, step: Step, loads: Loads, p: BuildId, swaps: nat)
    requires Enabled(s, step) && Kept(s, loads, p, swaps)
    requires swaps + (if step.Swap? then 1 else 0) <= 1
    ensures Kept(Next(s, step, loads), loads, p, swaps + if step.Swap? then 1 else 0)
  {
    StepKeepsInv(s, step, loads);
  }

  /** A reader that took the name in `current` can load that build as long as at most one swap has come
      since: pruning spares the new build and the one before it. */
  lemma {:induction false} ReaderSurvivesOneSwap(states: seq<State>, steps: seq<Step>, loads: Loads, p: BuildId)
    requires Run(states, steps, loads) && Kept(states[0], loads, p, 0)
    requires Swaps(steps) <= 1
    ensures Kept(states[|steps|], loads, p, Swaps(steps)) && IsWhole(states[|steps|], p)
  {
    if steps != [] {
      var n := |steps| - 1;
      assert Run(states[..n + 1], steps[..n], loads);
      ReaderSurvivesOneSwap(states[..n + 1], steps[..n], loads, p);
      StepKeeps(states[n], steps[n], loads, p, Swaps(steps[..n]));
    }
  }

  /** Whoever is given a build has the guarantee, at whatever point of a rebuild. */
  lemma ReaderStarts(s: State, loads: Loads, p: BuildId)
    requires Inv(s, loads) && CurrentBuild(s, loads) == Some(p)
    ensures Kept(s, loads, p, 0)
  {
  }

  /** The state once a rebuild of b has swapped the pointer. */
  function AfterSwap(s: State, b: BuildId, loads: Loads): State
    requires Enabled(s, Begin(b))
  {
    var s1 := Next(s, Begin(b), loads);
    var s2 := Next(s1, Seal, loads);
    var s3 := Next(s2, Rename, loads);
    var s4 := Next(s3, WriteTmp, loads);
    Next(s4, Swap, loads)
  }

  /** The build that was current when a rebuild began may be pruned by it if and only if it did not load. */
  lemma PrunedIffUnloadable(s: State, b: BuildId, loads: Loads, p: BuildId)
    requires Inv(s, loads) && Enabled(s, Begin(b)) && s.current == Some(p)
    ensures Prunable(AfterSwap(s, b, loads), p) <==> !loads(p)
  {
    assert b != p;
  }

  /** A rebuild that begins on a current, whole build that does not load, and removes it. */
  lemma UnloadableIsPruned(p: BuildId, b: BuildId)
    requires p != b
    ensures var none: Loads := _ => false;
            var s := State(Some(p), None, map[p := Whole], map[], Idle);
            && Inv(s, none) && Enabled(s, Begin(b)) && IsWhole(s, p)
            && Enabled(AfterSwap(s, b, none), Unlink(p))
            && !IsWhole(Next(AfterSwap(s, b, none), Unlink(p), none), p)
  {
    var none: Loads := _ => false;
    PrunedIffUnloadable(State(Some(p), None, map[p := Whole], map[], Idle), b, none, p);
  }

  // ----- the program ------------------------------------------------------------------------------------------

  lemma RunAppend(states: seq<State>, steps: seq<Step>, loads: Loads, step: Step)
    requires Run(states, steps, loads) && Inv(states[|steps|], loads) && Enabled(states[|steps|], step)
    ensures Run(states + [Next(states[|steps|], step, loads)], steps + [step], loads)
    ensures Inv(Next(states[|steps|], step, loads), loads)
    ensures Swaps(steps + [step]) == Swaps(steps) + if step.Swap? then 1 else 0
  {
    var next := Next(states[|steps|], step, loads);
    StepKeepsInv(states[|steps|], step, loads);
    assert (steps + [step])[..|steps|] == steps;
    RunMore(states, steps, loads, step, next);
  }

  lemma RunMore(states: seq<State>, steps: seq<Step>, loads: Loads, step: Step, next: State)
    requires Run(states, steps, loads) && Enabled(states[|steps|], step) && next == Next(states[|steps|], step, loads)
    ensures Run(states + [next], steps + [step], loads)
  {
    var states', steps' := states + [next], steps + [step];
    forall i | 0 <= i < |steps'|
      ensures Enabled(states'[i], steps'[i]) && states'[i + 1] == Next(states'[i], steps'[i], loads)
    {
      if i < |steps| {
        assert states'[i] == states[i] && states'[i + 1] == states[i + 1] && steps'[i] == steps[i];
      }
    }
  }

  lemma RunSuffix(states: seq<State>, steps: seq<Step>, loads: Loads, i: nat)
    requires Run(states, steps, loads) && i < |states|
    ensures Run(states[i..], steps[i..], loads)
  {
    forall k | 0 <= k < |steps[i..]|
      ensures Enabled(states[i..][k], steps[i..][k]) && states[i..][k + 1] == Next(states[i..][k], steps[i..][k], loads)
    {
      var m := i + k;
      assert states[i..][k] == states[m] && states[i..][k + 1] == states[m + 1] && steps[i..][k] == steps[m];
    }
  }

  lemma SwapsSince(steps: seq<Step>, i: nat)
    requires i <= |steps|
    ensures Swaps(steps) == Swaps(steps[..i]) + Swaps(steps[i..])
  {
    assert steps == steps[..i] + steps[i..];
    SwapsConcat(steps[..i], steps[i..]);
  }

  /** A build given to a reader at any logged state is still whole when at most one swap has come since. */
  lemma LoggedReader(states: seq<State>, steps: seq<Step>, loads: Loads, i: nat, p: BuildId)
    requires Run(states, steps, loads) && Inv(states[0], loads) && i < |states|
    requires CurrentBuild(states[i], loads) == Some(p) && Swaps(steps) <= Swaps(steps[..i]) + 1
    ensures IsWhole(states[|steps|], p)
  {
    var s := states[i];
    assert Kept(s, loads, p, 0) by {
      CurrentIsWhole(states, steps, loads, i);
      ReaderStarts(s, loads, p);
    }
    SwapsSince(steps, i);
    RunSuffix(states, steps, loads, i);
    assert states[i..][0] == s && states[i..][|steps[i..]|] == states[|steps|];
    ReaderSurvivesOneSwap(states[i..], steps[i..], loads, p);
  }

  /** What pruning keeps: the builds to spare are as they were, and what is left to remove has a price. */
  ghost predicate PruneOk(builds0: map<BuildId, Directory>, keep: set<BuildId>, budget: nat,
                          left: set<BuildId>, used: nat, builds: map<BuildId, Directory>)
  {
    && left !! keep && left <= builds.Keys <= builds0.Keys
    && (forall v :: v in builds0 && v in keep ==> v in builds && builds[v] == builds0[v])
    && used + 2 * |left| == 2 * |builds0.Keys - keep|
    && (budget >= 2 * |builds0.Keys - keep| ==> builds.Keys <= left + keep)
  }

  /** The spared builds are as they were, nothing is new, and with budget enough nothing else is left. */
  ghost predicate Pruned(builds0: map<BuildId, Directory>, keep: set<BuildId>, budget: nat,
                         builds: map<BuildId, Directory>)
  {
    && builds.Keys <= builds0.Keys
    && (forall v :: v in builds0 && v in keep ==> v in builds && builds[v] == builds0[v])
    && (budget >= 2 * |builds0.Keys - keep| ==> builds.Keys <= keep)
  }

  lemma PruneDone(builds0: map<BuildId, Directory>, keep: set<BuildId>, budget: nat,
                  left: set<BuildId>, used: nat, builds: map<BuildId, Directory>)
    requires PruneOk(builds0, keep, budget, left, used, builds) && (left == {} || used >= budget)
    ensures Pruned(builds0, keep, budget, builds)
  {
  }

  lemma PruneStep(builds0: map<BuildId, Directory>, keep: set<BuildId>, budget: nat,
                  left: set<BuildId>, used: nat, builds: map<BuildId, Directory>, v: BuildId)
    requires PruneOk(builds0, keep, budget, left, used, builds) && v in left
    ensures var next := if used + 1 < budget then builds - {v} else builds[v := InParts];
            PruneOk(builds0, keep, budget, left - {v}, used + 2, next)
  {
    assert |left - {v}| == |left| - 1;
  }

  function Only(p: Option<BuildId>): set<BuildId> {
    if p.Some? then {p.value} else {}
  }

  /** The index as a pruning finds it. */
  datatype Found = Found(states: seq<State>, steps: seq<Step>, current: Option<BuildId>,
                         builds: map<BuildId, Directory>)

  class Index {
    const loads: Loads
    var current: Option<BuildId>
    var tmp: Option<BuildId>
    var builds: map<BuildId, Directory>
    var staging: map<BuildId, Directory>
    ghost var phase: Phase
    ghost var states: seq<State>
    ghost var steps: seq<Step>

    constructor (loads: Loads)
      ensures this.loads == loads && Logged() && Contents() == State(None, None, map[], map[], Idle)
    {
      this.loads := loads;
      current, tmp, builds, staging, phase := None, None, map[], map[], Idle;
      states, steps := [State(None, None, map[], map[], Idle)], [];
    }

    ghost function Contents(): State
      reads this
    {
      State(current, tmp, builds, staging, phase)
    }

    /** The directory has come to its contents by a run of the machine, and `current` is safe. */
    ghost predicate Logged()
      reads this
    {
      Run(states, steps, loads) && states[|steps|] == Contents() && Inv(Contents(), loads) && Inv(states[0], loads)
    }

    /** The log has only grown. */
    twostate predicate Grew()
      reads this
    {
      old(states) <= states && old(steps) <= steps
    }

    /** The log has grown without a swap, and what is left to prune is known. */
    ghost predicate Pruning(f: Found, b: BuildId, prev: Option<BuildId>, budget: nat, left: set<BuildId>, used: nat)
      reads this
    {
      && Logged() && f.states <= states && f.steps <= steps && Swaps(steps) == Swaps(f.steps)
      && current == f.current && phase == Swapped(b, prev)
      && PruneOk(f.builds, {b} + Only(prev), budget, left, used, builds)
    }

    /** The machine takes the step. */
    twostate predicate Took(step: Step)
      reads this
    {
      && Enabled(old(Contents()), step) && Contents() == Next(old(Contents()), step, loads)
      && steps == old(steps) + [step] && states == old(states) + [Contents()]
      && Swaps(steps) == Swaps(old(steps)) + if step.Swap? then 1 else 0
    }

    ghost method Log(s: State, step: Step)
      requires Run(states, steps, loads) && Inv(states[0], loads)
      requires states[|steps|] == s && Inv(s, loads) && Enabled(s, step)
      requires Contents() == Next(s, step, loads)
      modifies this`states, this`steps
      ensures Logged() && steps == old(steps) + [step] && states == old(states) + [Contents()]
      ensures Swaps(steps) == Swaps(old(steps)) + if step.Swap? then 1 else 0
    {
      RunAppend(states, steps, loads, step);
      states, steps := states + [Contents()], steps + [step];
    }

    method ReadCurrent() returns (b: Option<BuildId>)
      ensures b == CurrentBuild(Contents(), loads)
      ensures b.Some? ==> IsWhole(Contents(), b.value) && loads(b.value)
    {
      if current.None? {
        return None;
      }
      var id := current.value;
      if id !in builds || builds[id] != Whole || !loads(id) {
        return None;
      }
      b := Some(id);
    }

    method BeginStaging(b: BuildId)
      requires Logged() && phase.Idle? && b !in builds && b !in staging
      modifies this
      ensures Logged() && Took(Begin(b))
    {
      ghost var s := Contents();
      staging := staging[b := InParts];
      phase := Staging(b, CurrentBuild(s, loads));
      Log(s, Begin(b));
    }

    method SealStaging(b: BuildId)
      requires Logged() && phase.Staging? && phase.b == b
      modifies this
      ensures Logged() && Took(Seal)
    {
      ghost var s := Contents();
      staging := staging[b := Whole];
      phase := Sealed(b, phase.prev);
      Log(s, Seal);
    }

    method RenameStaging(b: BuildId)
      requires Logged() && phase.Sealed? && phase.b == b
      modifies this
      ensures Logged() && Took(Rename)
    {
      ghost var s := Contents();
      builds, staging := builds[b := staging[b]], staging - {b};
      phase := Renamed(b, phase.prev);
      Log(s, Rename);
    }

    method WritePointer(b: BuildId)
      requires Logged() && phase.Renamed? && phase.b == b
      modifies this
      ensures Logged() && Took(WriteTmp)
    {
      ghost var s := Contents();
      tmp := Some(b);
      phase := Pointing(b, phase.prev);
      Log(s, WriteTmp);
    }

    method SwapPointer()
      requires Logged() && phase.Pointing?
      modifies this
      ensures Logged() && Took(Swap)
    {
      ghost var s := Contents();
      current, tmp := tmp, None;
      phase := Swapped(phase.b, phase.prev);
      Log(s, Swap);
    }

    method UnlinkBuild(v: BuildId)
      requires Logged() && Prunable(Contents(), v)
      modifies this`builds, this`states, this`steps
      ensures Logged() && Took(Unlink(v))
    {
      ghost var s := Contents();
      builds := builds[v := InParts];
      Log(s, Unlink(v));
    }

    method DropBuild(v: BuildId)
      requires Logged() && Prunable(Contents(), v)
      modifies this`builds, this`states, this`steps
      ensures Logged() && Took(Drop(v))
    {
      ghost var s := Contents();
      builds := builds - {v};
      Log(s, Drop(v));
    }

    /** Empties a pruned directory, then removes it; a crash may come in between. */
    method RemoveBuild(v: BuildId, whole: bool)
      requires Logged() && Prunable(Contents(), v)
      modifies this`builds, this`states, this`steps
      ensures Logged() && Grew() && Swaps(steps) == Swaps(old(steps))
      ensures builds == if whole then old(builds) - {v} else old(builds)[v := InParts]
    {
      UnlinkBuild(v);
      if whole {
        DropBuild(v);
      }
    }

    /** The writer stops: it is finished, or the process dies. */
    ghost method Stop(step: Step)
      requires Logged() && (step.Crash? || (step.Finish? && phase.Swapped?))
      modifies this`phase, this`states, this`steps
      ensures Logged() && phase.Idle? && Grew() && Swaps(steps) == Swaps(old(steps))
    {
      ghost var s := Contents();
      phase := Idle;
      Log(s, step);
    }

    method PruneNext(ghost f: Found, b: BuildId, prev: Option<BuildId>, budget: nat, left: set<BuildId>, used: nat,
                     v: BuildId)
      requires Pruning(f, b, prev, budget, left, used) && v in left
      modifies this`builds, this`states, this`steps
      ensures Pruning(f, b, prev, budget, left - {v}, used + 2)
    {
      PruneStep(f.builds, {b} + Only(prev), budget, left, used, builds, v);
      RemoveBuild(v, used + 1 < budget);
    }

    /** Removes every build but the new one and the one before it, in any order, until the budget is used
        up: those two stay as they are, and with budget enough nothing else stays. */
    method Prune(b: BuildId, prev: Option<BuildId>, budget: nat)
      requires Logged() && phase == Swapped(b, prev)
      modifies this
      ensures Logged() && phase.Idle? && Grew() && Swaps(steps) == Swaps(old(steps)) && current == old(current)
      ensures Pruned(old(builds), {b} + Only(prev), budget, builds)
    {
      var left, used := builds.Keys - ({b} + Only(prev)), 0;
      ghost var f := Found(states, steps, current, builds);
      while left != {} && used < budget
        invariant Pruning(f, b, prev, budget, left, used)
        decreases left
      {
        var v :| v in left;
        PruneNext(f, b, prev, budget, left, used, v);
        left, used := left - {v}, used + 2;
      }
      PruneDone(f.builds, {b} + Only(prev), budget, left, used, builds);
      Stop(if left == {} then Finish else Crash);
    }

    /** The steps up to the rename, cut off after any number of them. */
    method Stage(b: BuildId, budget: nat) returns (done: bool)
      requires Logged() && phase.Idle? && b !in builds && b !in staging
      modifies this
      ensures Logged() && Grew() && current == old(current) && done == (budget >= 3)
      ensures done ==> phase == Renamed(b, old(CurrentBuild(Contents(), loads)))
      ensures builds == if done then old(builds)[b := Whole] else old(builds)
      ensures Swaps(steps) == Swaps(old(steps))
    {
      done := false;
      if budget == 0 {
        return;
      }
      BeginStaging(b);
      if budget == 1 {
        return;
      }
      SealStaging(b);
      if budget == 2 {
        return;
      }
      RenameStaging(b);
      done := true;
    }

    /** The steps up to the swap, cut off after any number of them. */
    method Publish(b: BuildId, budget: nat) returns (done: bool)
      requires Logged() && phase.Idle? && b !in builds && b !in staging
      modifies this
      ensures Logged() && Grew() && done == (budget >= 5)
      ensures done ==> phase == Swapped(b, old(CurrentBuild(Contents(), loads))) && current == Some(b)
      ensures !done ==> current == old(current)
      ensures builds == if budget >= 3 then old(builds)[b := Whole] else old(builds)
      ensures Swaps(steps) == Swaps(old(steps)) + if done then 1 else 0
    {
      done := Stage(b, budget);
      if budget <= 3 {
        return false;
      }
      WritePointer(b);
      if budget == 4 {
        return false;
      }
      SwapPointer();
    }

    /** The steps of a rebuild, from the staging directory to the last pruned build. */
    method RunRebuild(b: BuildId, prev: Option<BuildId>, budget: nat)
      requires Logged() && phase.Idle? && b !in builds && b !in staging && prev == CurrentBuild(Contents(), loads)
      modifies this
      ensures Logged() && phase.Idle? && Grew() && Swaps(steps) <= Swaps(old(steps)) + 1
      ensures current == if budget >= 5 then Some(b) else old(current)
      ensures budget < 5 ==> forall v :: v in old(builds) ==> v in builds && builds[v] == old(builds)[v]
      ensures budget >= 5 + 2 * |old(builds)| ==> builds.Keys <= {b} + Only(prev) && b in builds
    {
      LeftToPrune(builds, b, prev);
      var done := Publish(b, budget);
      if !done {
        Stop(Crash);
        return;
      }
      assert IsWhole(Contents(), b);
      Prune(b, prev, budget - 5);
    }

    /** One rebuild, cut off after any number of steps: whatever the point of the crash, the directory is
        left in a state of the machine, with `current` on the old build or on the new one, and the build a
        reader was given before is still whole. A run that is not cut off leaves only those two. */
    method Rebuild(b: BuildId, budget: nat)
      requires Logged() && phase.Idle? && b !in builds && b !in staging
      modifies this
      ensures Logged() && phase.Idle? && Grew() && Swaps(steps) <= Swaps(old(steps)) + 1
      ensures current == if budget >= 5 then Some(b) else old(current)
      ensures budget < 5 ==> forall v :: v in old(builds) ==> v in builds && builds[v] == old(builds)[v]
      ensures var prev := old(CurrentBuild(Contents(), loads));
              && (prev.Some? ==> IsWhole(Contents(), prev.value))
              && (budget >= 5 + 2 * |old(builds)| ==> builds.Keys == {b} + Only(prev))
    {
      ghost var states0, steps0 := states, steps;
      var prev := ReadCurrent();
      RunRebuild(b, prev, budget);
      assert steps[..|steps0|] == steps0 && states[|states0| - 1] == states0[|states0| - 1];
      if prev.Some? {
        LoggedReader(states, steps, loads, |states0| - 1, prev.value);
      }
    }
  }

  lemma LeftToPrune(builds: map<BuildId, Directory>, b: BuildId, prev: Option<BuildId>)
    requires b !in builds
    ensures |builds[b := Whole].Keys - ({b} + Only(prev))| <= |builds|
  {
    var rest := builds[b := Whole].Keys - ({b} + Only(prev));
    assert builds[b := Whole].Keys == builds.Keys + {b};
    assert rest == builds.Keys - Only(prev);
    SubsetSize(rest, builds.Keys);
  }

  lemma {:induction false} SubsetSize<T>(a: set<T>, b: set<T>)
    requires a <= b
    ensures |a| <= |b|
  {
    if x :| x in a {
      SubsetSize(a - {x}, b - {x});
    }
  }
}
