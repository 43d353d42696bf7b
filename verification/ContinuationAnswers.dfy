/**
 What a mission centre is told, and why, over every interleaving of sections: every answer goes
 back to the result or the timeout that brought its code, and to the push that this took out.
 */
module ContinuationAnswers {
  import opened Sessions
  import C = Continuation
  import opened ContinuationRuns

  // ------------------------------------------------------- from the answer back

  lemma SendingStep(s: State, step: Step, s': State, id: nat)
    requires Enabled(s, step) && s' == Apply(s, step) && id in s'.ops && s'.ops[id].Sending?
    ensures id in s.ops
    ensures if step == Clear(id)
      then s.ops[id].Clearing? && s.ops[id].code == s'.ops[id].code && s.ops[id].held == s'.ops[id].held
      else s.ops[id] == s'.ops[id]
  {
  }

  lemma ClearingStep(s: State, step: Step, s': State, id: nat)
    requires Enabled(s, step) && s' == Apply(s, step)
    requires id in s'.ops && s'.ops[id].Clearing? && s'.ops[id].held.Holding?
    ensures id in s.ops
    ensures if step == Pop(id)
      then
        && s.ops[id] == Popping(s'.ops[id].mission, s'.ops[id].code)
        && s'.ops[id].mission in s.cont.callbacks && s'.ops[id].held.push == s.cont.callbacks[s'.ops[id].mission]
      else s.ops[id] == s'.ops[id]
  {
  }

  /** The step brings the result: it begins with the code, or a timeout fires and the code is 29360153. */
  predicate Brings(step: Step, id: nat, m: int, code: int) {
    step == BeginResult(id, m, code) || (step == Fire(id, m) && code == 29360153)
  }

  predicate Bringing(op: Op, m: int, code: int) {
    op == Looking(m, code) || op == Popping(m, code)
  }

  lemma BringingStep(s: State, step: Step, s': State, id: nat, m: int, code: int)
    requires Enabled(s, step) && s' == Apply(s, step) && id in s'.ops && Bringing(s'.ops[id], m, code)
    ensures Brings(step, id, m, code) || (id in s.ops && Bringing(s.ops[id], m, code))
  {
  }

  lemma {:induction false} ResultBrought(states: seq<State>, steps: seq<Step>, n: nat, id: nat, m: int, code: int)
    returns (i: nat)
    requires IsRun(states, steps) && states[0] == START && n <= |steps|
    requires id in states[n].ops && Bringing(states[n].ops[id], m, code)
    ensures i < n && Brings(steps[i], id, m, code)
  {
    assert StepAt(states, steps, n - 1);
    BringingStep(states[n - 1], steps[n - 1], states[n], id, m, code);
    if Brings(steps[n - 1], id, m, code) {
      i := n - 1;
    } else {
      i := ResultBrought(states, steps, n - 1, id, m, code);
    }
  }

  /** At step k the operation took the push of the mission out of the table. */
  predicate TookAt(states: seq<State>, steps: seq<Step>, k: nat, id: nat, m: int, code: int, p: C.Push)
    requires |states| == |steps| + 1 && k < |steps|
  {
    && steps[k] == Pop(id) && id in states[k].ops && states[k].ops[id] == Popping(m, code)
    && m in states[k].cont.callbacks && states[k].cont.callbacks[m] == p
  }

  lemma {:induction false} PushTaken(states: seq<State>, steps: seq<Step>, n: nat, id: nat) returns (k: nat)
    requires IsRun(states, steps) && states[0] == START && n <= |steps|
    requires id in states[n].ops && states[n].ops[id].Clearing? && states[n].ops[id].held.Holding?
    ensures k < n && var op := states[n].ops[id]; TookAt(states, steps, k, id, op.mission, op.code, op.held.push)
  {
    assert StepAt(states, steps, n - 1);
    ClearingStep(states[n - 1], steps[n - 1], states[n], id);
    if steps[n - 1] == Pop(id) {
      k := n - 1;
    } else {
      k := PushTaken(states, steps, n - 1, id);
    }
  }

  lemma {:induction false} ClearedBefore(states: seq<State>, steps: seq<Step>, n: nat, id: nat) returns (j: nat)
    requires IsRun(states, steps) && states[0] == START && n <= |steps|
    requires id in states[n].ops && states[n].ops[id].Sending?
    ensures j < n && id in states[j].ops && states[j].ops[id].Clearing?
    ensures states[j].ops[id].code == states[n].ops[id].code && states[j].ops[id].held == states[n].ops[id].held
  {
    assert StepAt(states, steps, n - 1);
    SendingStep(states[n - 1], steps[n - 1], states[n], id);
    if steps[n - 1] == Clear(id) {
      j := n - 1;
    } else {
      j := ClearedBefore(states, steps, n - 1, id);
    }
  }

  lemma AnswersStep(s: State, step: Step, s': State)
    requires Enabled(s, step) && s' == Apply(s, step)
    ensures s'.cont.answers == s.cont.answers + if step.Send?
      then [C.Answer(s.ops[step.id].held.push.place, s.ops[step.id].held.push.callback, s.ops[step.id].code)] else []
  {
  }

  /** Over every interleaving: every answer has its cause. An operation began at step i with a
      result for the mission, or because its timeout fired; at step k it took out the push that
      is answered; and the code is the one it was brought, 29360153 for a timeout. */
  lemma {:induction false} AnswerHasCause(states: seq<State>, steps: seq<Step>, n: nat, a: nat)
    returns (i: nat, k: nat, id: nat, m: int)
    requires IsRun(states, steps) && states[0] == START && n <= |steps| && a < |states[n].cont.answers|
    ensures var answer := states[n].cont.answers[a];
      && i < k < n && Brings(steps[i], id, m, answer.code)
      && TookAt(states, steps, k, id, m, answer.code, C.Push(answer.place, answer.callback))
  {
    assert StepAt(states, steps, n - 1);
    AnswersStep(states[n - 1], steps[n - 1], states[n]);
    if a < |states[n - 1].cont.answers| {
      i, k, id, m := AnswerHasCause(states, steps, n - 1, a);
    } else {
      id := steps[n - 1].id;
      var j := ClearedBefore(states, steps, n - 1, id);
      k := PushTaken(states, steps, j, id);
      m := states[j].ops[id].mission;
      i := ResultBrought(states, steps, k, id, m, states[j].ops[id].code);
    }
  }

  // ------------------------------------------------------- pushes and their steps

  /** The step pushes a callback for the mission, for this device, with or without installation. */
  predicate Pushes(step: Step, m: int, callback: Remote, device: DeviceId, install: bool) {
    && (if install then step.BeginInstall? else step.BeginContinue?)
    && step.mission == m && step.callback == callback && step.device == device
  }

  predicate Same(s: C.Cont, s': C.Cont, m: int) {
    && m in s.callbacks && m in s'.callbacks && s.callbacks[m] == s'.callbacks[m]
    && C.TargetDevice(s, m) == C.TargetDevice(s', m) && C.IsFreeInstall(s, m) == C.IsFreeInstall(s', m)
  }

  lemma PushedContents(s: C.Cont, x: int, callback: Remote, device: DeviceId, install: bool, m: int)
    requires C.TablesTogether(s) && m in C.Pushed(s, x, callback, device, install).callbacks
    ensures var s' := C.Pushed(s, x, callback, device, install);
      if m == x && !callback.Null? && x !in s.callbacks
      then s'.callbacks[m].callback == callback && C.TargetDevice(s', m) == device && C.IsFreeInstall(s', m) == install
      else Same(s, s', m)
  {
  }

  lemma PoppedSame(s: C.Cont, x: int, m: int)
    requires m in C.Popped(s, x).callbacks
    ensures Same(s, C.Popped(s, x), m)
  {
  }

  lemma TakesOut(s: State, step: Step, s': State, m: int)
    requires Enabled(s, step) && s' == Apply(s, step) && m in s'.cont.callbacks && (step.Pop? || step.FinishRefusal?)
    ensures Same(s.cont, s'.cont, m)
  {
    PoppedSame(s.cont, s.ops[step.id].mission, m);
  }

  lemma Untouched(s: State, step: Step, s': State)
    requires Enabled(s, step) && s' == Apply(s, step)
    requires !step.BeginContinue? && !step.BeginInstall? && !step.Pop? && !step.FinishRefusal?
    ensures s'.cont.callbacks == s.cont.callbacks
    ensures s'.cont.devices == s.cont.devices && s'.cont.freeInstall == s.cont.freeInstall
  {
  }

  lemma OtherStep(s: State, step: Step, s': State, m: int)
    requires Enabled(s, step) && s' == Apply(s, step) && m in s'.cont.callbacks
    requires !step.BeginContinue? && !step.BeginInstall?
    ensures Same(s.cont, s'.cont, m)
  {
    if step.Pop? || step.FinishRefusal? {
      TakesOut(s, step, s', m);
    } else {
      Untouched(s, step, s');
    }
  }

  lemma SuppliedStep(s: State, step: Step, s': State, m: int)
    requires C.TablesTogether(s.cont) && Enabled(s, step) && s' == Apply(s, step)
    requires m in s'.cont.callbacks && !Same(s.cont, s'.cont, m)
    ensures m !in s.cont.callbacks
    ensures Pushes(step, m, s'.cont.callbacks[m].callback, C.TargetDevice(s'.cont, m), C.IsFreeInstall(s'.cont, m))
  {
    if step.BeginContinue? || step.BeginInstall? {
      PushedContents(s.cont, step.mission, step.callback, step.device, step.BeginInstall?, m);
    } else {
      OtherStep(s, step, s', m);
    }
  }

  /** Over every interleaving: a mission in progress has the callback, the target device and the
      free-install flag that the step which began it gave. */
  lemma {:induction false} PushSupplied(states: seq<State>, steps: seq<Step>, n: nat, m: int) returns (i: nat)
    requires IsRun(states, steps) && states[0] == START && n <= |steps| && m in states[n].cont.callbacks
    ensures var c := states[n].cont;
      i < n && m !in states[i].cont.callbacks &&
      Pushes(steps[i], m, c.callbacks[m].callback, C.TargetDevice(c, m), C.IsFreeInstall(c, m))
  {
    RunOnce(states, steps, n - 1);
    assert StepAt(states, steps, n - 1);
    if Same(states[n - 1].cont, states[n].cont, m) {
      i := PushSupplied(states, steps, n - 1, m);
    } else {
      SuppliedStep(states[n - 1], steps[n - 1], states[n], m);
      i := n - 1;
    }
  }

  // -------------------------------------------------------------------- timeouts

  /** How many timeouts of a mission are pending after a section. */
  function PendingAfter(s: State, step: Step, x: int): int
    requires Enabled(s, step)
  {
    var now: int := s.cont.timers[x];
    match step
    case Arm(id) => if s.ops[id].mission == x then now + 1 else now
    case BeginRequery(_, m) => if m == x then 0 else now
    case BeginRefusal(id) => if s.ops[id].mission == x then 0 else now
    case Clear(id) => if s.ops[id].mission == x then 0 else now
    case Fire(_, m) => if m == x then now - 1 else now
    case _ => now
  }

  /** One section: the pending timeouts are as many as that. */
  lemma TimersStep(s: State, step: Step, s': State, x: int)
    requires Enabled(s, step) && s' == Apply(s, step)
    ensures s'.cont.timers[x] == PendingAfter(s, step, x)
  {
  }
}
