/**
 The clean flag of a mission over runs of the service functions: which of the flags that were
 set is the one that counts.
 */
module CleanFlags {
  import opened Codes
  import opened Sessions
  import C = Continuation
  import F = FreeInstall
  import opened Trackers

  ghost predicate StepAt(states: seq<Service>, steps: seq<Step>, i: nat)
    requires |states| == |steps| + 1 && i < |steps|
  {
    Possible(states[i], steps[i]) && states[i + 1] == Next(states[i], steps[i])
  }

  /** `states` are the states visited, the first one included. */
  ghost predicate IsRun(states: seq<Service>, steps: seq<Step>) {
    |states| == |steps| + 1 && forall i :: 0 <= i < |steps| ==> StepAt(states, steps, i)
  }

  /** The step asks for a flag. */
  predicate Sets(step: Step, m: int) {
    step.StartContinuation? && step.mission == m && step.want.status == ERR_OK && step.want.flagged &&
      step.want.prepared
  }

  /** Step k takes the callback of the mission out. */
  predicate PopsAt(states: seq<Service>, k: nat, m: int)
    requires k + 1 < |states|
  {
    m in states[k].cont.callbacks && m !in states[k + 1].cont.callbacks
  }

  ghost predicate NoPop(states: seq<Service>, i: nat, n: nat, m: int)
    requires n < |states|
  {
    forall k :: i < k < n ==> !PopsAt(states, k, m)
  }

  /** Step i asked for a flag, the first time since the last pop before n. */
  ghost predicate FirstSetAt(states: seq<Service>, steps: seq<Step>, i: nat, n: nat, m: int)
    requires |states| == |steps| + 1 && n <= |steps|
  {
    && i < n && Sets(steps[i], m) && NoPop(states, i, n, m)
    && forall j :: 0 <= j < i && Sets(steps[j], m) ==> !NoPop(states, j, i, m)
  }

  // ---------------------------------------------------------------- one step

  /** What a step does to the flag of one mission; `asked` is the flag it asks for, if any. */
  predicate FlagMoves(c: C.Cont, c': C.Cont, asks: bool, asked: bool, m: int) {
    if m in c.callbacks && m !in c'.callbacks then !asks && m !in c'.cleanMission
    else if m in c.cleanMission then m in c'.cleanMission && c'.cleanMission[m] == c.cleanMission[m]
    else if asks then m in c'.cleanMission && c'.cleanMission[m] == asked
    else m !in c'.cleanMission
  }

  lemma NotifiedFlag(c: C.Cont, x: int, code: int, m: int)
    ensures FlagMoves(c, C.Notified(c, x, code), false, false, m)
  {
  }

  lemma StartedFlag(s: Service, x: int, want: Want, m: int)
    ensures FlagMoves(s.cont, Started(s, x, want).cont, Sets(StartContinuation(x, want), m), want.clean, m)
  {
    if want.status != ERR_OK {
      NotifiedFlag(s.cont, x, want.status, m);
    }
  }

  lemma InstalledFlag(s: Service, id: int, code: int, m: int)
    ensures FlagMoves(s.cont, Installed(s, id, code).cont, false, false, m)
  {
    NotifiedFlag(s.cont, F.MissionOf(s.tasks, id), CONTINUE_FREE_INSTALL_FAILED, m);
  }

  lemma FlagStep(s: Service, step: Step, m: int)
    ensures FlagMoves(s.cont, Next(s, step).cont, Sets(step, m), Sets(step, m) && step.want.clean, m)
  {
    if step.StartContinuation? {
      StartedFlag(s, step.mission, step.want, m);
    } else if step.InstallCompleted? {
      InstalledFlag(s, step.id, step.code, m);
    } else if step.TaskTimeout? {
      InstalledFlag(s.(tasks := s.tasks.(timers := s.tasks.timers - multiset{step.id})), step.id, step.code, m);
    } else if step.InstallQueried? {
      NotifiedFlag(s.cont, step.mission, CONTINUE_REMOTE_UNINSTALLED_CANNOT_FREEINSTALL, m);
    } else if step.Completed? {
      NotifiedFlag(s.cont, step.mission, if step.success then ERR_OK else NOTIFYCOMPLETECONTINUATION_FAILED, m);
    } else if step.MissionTimeout? {
      NotifiedFlag(C.TimerConsumed(s.cont, step.mission), step.mission, CONTINUE_ABILITY_TIMEOUT_ERR, m);
    }
  }

  // ---------------------------------------------------------------- whole runs

  ghost predicate Flagged(states: seq<Service>, steps: seq<Step>, m: int) {
    && |states| == |steps| + 1
    && forall i :: 0 <= i < |steps| ==>
      FlagMoves(states[i].cont, states[i + 1].cont, Sets(steps[i], m), Sets(steps[i], m) && steps[i].want.clean, m)
  }

  lemma RunFlagged(states: seq<Service>, steps: seq<Step>, m: int)
    requires IsRun(states, steps)
    ensures Flagged(states, steps, m)
  {
    forall i | 0 <= i < |steps|
      ensures FlagMoves(states[i].cont, states[i + 1].cont, Sets(steps[i], m), Sets(steps[i], m) &&
        steps[i].want.clean, m)
    {
      assert StepAt(states, steps, i);
      FlagStep(states[i], steps[i], m);
    }
  }

  lemma SetsDoNotPop(states: seq<Service>, steps: seq<Step>, k: nat, m: int)
    requires Flagged(states, steps, m) && k < |steps| && Sets(steps[k], m)
    ensures !PopsAt(states, k, m)
  {
  }

  lemma {:induction false} FirstExists(states: seq<Service>, steps: seq<Step>, j: nat, n: nat, m: int) returns (i: nat)
    requires Flagged(states, steps, m) && n <= |steps| && j < n && Sets(steps[j], m) && NoPop(states, j, n, m)
    ensures FirstSetAt(states, steps, i, n, m)
    decreases j
  {
    if j' :| 0 <= j' < j && Sets(steps[j'], m) && NoPop(states, j', j, m) {
      SetsDoNotPop(states, steps, j, m);
      i := FirstExists(states, steps, j', n, m);
    } else {
      i := j;
    }
  }

  lemma FirstLater(states: seq<Service>, steps: seq<Step>, i: nat, n: nat, m: int)
    requires |states| == |steps| + 1 && n < |steps| && i < n
    ensures FirstSetAt(states, steps, i, n + 1, m) <==>
      FirstSetAt(states, steps, i, n, m) && !PopsAt(states, n, m)
  {
  }

  lemma NoneBefore(states: seq<Service>, steps: seq<Step>, n: nat, m: int)
    requires |states| == |steps| + 1 && n < |steps| && FirstSetAt(states, steps, n, n + 1, m)
    ensures forall i: nat :: !FirstSetAt(states, steps, i, n, m)
  {
  }

  /** The flag after n steps is what the run says. */
  ghost predicate FlagIs(states: seq<Service>, steps: seq<Step>, n: nat, m: int)
    requires |states| == |steps| + 1 && n <= |steps|
  {
    && (m in states[n].cont.cleanMission <==> exists i: nat :: FirstSetAt(states, steps, i, n, m))
    && (forall i: nat :: FirstSetAt(states, steps, i, n, m) ==>
      m in states[n].cont.cleanMission && states[n].cont.cleanMission[m] == steps[i].want.clean)
  }

  lemma FlagKnown(states: seq<Service>, steps: seq<Step>, n: nat, i: nat, m: int)
    requires Flagged(states, steps, m) && n < |steps| && FlagIs(states, steps, n, m)
    requires FirstSetAt(states, steps, i, n + 1, m)
    ensures m in states[n + 1].cont.cleanMission && states[n + 1].cont.cleanMission[m] == steps[i].want.clean
  {
    if i < n {
      FirstLater(states, steps, i, n, m);
    } else {
      NoneBefore(states, steps, n, m);
      SetsDoNotPop(states, steps, n, m);
    }
  }

  lemma FlagHasSource(states: seq<Service>, steps: seq<Step>, n: nat, m: int) returns (i: nat)
    requires Flagged(states, steps, m) && n < |steps| && FlagIs(states, steps, n, m)
    requires m in states[n + 1].cont.cleanMission
    ensures FirstSetAt(states, steps, i, n + 1, m)
  {
    assert !PopsAt(states, n, m);
    if m in states[n].cont.cleanMission {
      i :| FirstSetAt(states, steps, i, n, m);
      FirstLater(states, steps, i, n, m);
    } else {
      i := FirstExists(states, steps, n, n + 1, m);
    }
  }

  lemma {:induction false} FlagIsAlways(states: seq<Service>, steps: seq<Step>, n: nat, m: int)
    requires Flagged(states, steps, m) && states[0] == START && n <= |steps|
    ensures FlagIs(states, steps, n, m)
  {
    if n > 0 {
      var before: nat := n - 1;
      FlagIsAlways(states, steps, before, m);
      forall i: nat | FirstSetAt(states, steps, i, before + 1, m)
        ensures m in states[n].cont.cleanMission && states[n].cont.cleanMission[m] == steps[i].want.clean
      {
        FlagKnown(states, steps, before, i, m);
      }
      if m in states[n].cont.cleanMission {
        var i := FlagHasSource(states, steps, before, m);
        assert FirstSetAt(states, steps, i, n, m);
      }
    }
  }

  /** In every state of every run: a mission has a flag exactly when one was asked for since its
      callback was last taken out, and then it is the first of those, not the latest. Without a
      flag the mission is cleaned. */
  lemma FirstFlagCounts(states: seq<Service>, steps: seq<Step>, n: nat, m: int)
    requires IsRun(states, steps) && states[0] == START && n <= |steps|
    ensures m in states[n].cont.cleanMission <==> exists i: nat :: FirstSetAt(states, steps, i, n, m)
    ensures forall i: nat :: FirstSetAt(states, steps, i, n, m) ==>
      m in states[n].cont.cleanMission && states[n].cont.cleanMission[m] == steps[i].want.clean
    ensures C.IsCleanMission(states[n].cont, m) <==>
      forall i: nat :: FirstSetAt(states, steps, i, n, m) ==> steps[i].want.clean
  {
    RunFlagged(states, steps, m);
    FlagIsAlways(states, steps, n, m);
  }

  /** A flag left from before: asked for while the mission was not in progress, it counts for
      the next continuation and overrides the flag that this one asks for. */
  lemma StaleFlag(m: int, callback: Remote, device: DeviceId, want: Want) returns (s: Service)
    requires !callback.Null? && want.status == ERR_OK && want.flagged && want.prepared && want.clean
    ensures Runs(START,
      [StartContinuation(m, want.(clean := false)), Continue(m, callback, device), StartContinuation(m, want)], s)
    ensures m in s.cont.callbacks && !C.IsCleanMission(s.cont, m)
  {
    var one, three := StartContinuation(m, want.(clean := false)), StartContinuation(m, want);
    var two := Continue(m, callback, device);
    var s1 := Next(START, one);
    var s2 := Next(s1, two);
    s := Next(s2, three);
    assert [one, two, three][1..] == [two, three] && [two, three][1..] == [three] && [three][1..] == [];
    assert Runs(s2, [three], s);
    assert Runs(s1, [two, three], s);
  }
}
