/**
 What is in a free-install task and what is replied for it, over every interleaving of sections:
 everything comes from a step that supplied it.
 */
module InstallTasks {
  import opened Codes
  import opened Sessions
  import F = FreeInstall
  import opened InstallRuns

  // ------------------------------------------------------------- live tasks

  /** A start that was issued an id and has not entered its task yet. */
  lemma {:induction false} StartIssued(states: seq<State>, steps: seq<Step>, n: nat, id: nat) returns (i: nat)
    requires IsRun(states, steps) && states[0] == START && n <= |steps|
    requires id in states[n].ops && states[n].ops[id].Issued?
    ensures var op := states[n].ops[id];
      && i < n && steps[i] == Issue(id, op.callback, op.device, op.launchType, op.session)
      && op.task == states[i].tasks.next
  {
    assert StepAt(states, steps, n - 1);
    if steps[n - 1].Issue? && steps[n - 1].id == id {
      i := n - 1;
    } else {
      IssuedStep(states[n - 1], steps[n - 1], states[n], id);
      i := StartIssued(states, steps, n - 1, id);
    }
  }

  lemma IssuedStep(s: State, step: Step, s': State, id: nat)
    requires Enabled(s, step) && s' == Apply(s, step) && id in s'.ops && s'.ops[id].Issued?
    requires !(step.Issue? && step.id == id)
    ensures id in s.ops && s.ops[id] == s'.ops[id]
  {
  }

  /** The task was issued at step i and entered at step j, with just these contents. */
  predicate Supplied(states: seq<State>, steps: seq<Step>, i: nat, j: nat, n: nat, t: int)
    requires |states| == |steps| + 1 && n <= |steps| && t in states[n].tasks.callbacks
  {
    var item := states[n].tasks.callbacks[t];
    && i < j < n && steps[i].Issue? && steps[j] == Enter(steps[i].id, true)
    && states[i].tasks.next == t == item.taskId
    && steps[i].callback == item.callback && steps[i].device == item.deviceId
    && steps[i].launchType == item.launchType && steps[i].session == item.sessionId
    && item.place == states[j].tasks.pushes
  }

  lemma TaskStep(s: State, step: Step, s': State, t: int)
    requires Enabled(s, step) && s' == Apply(s, step) && t in s'.tasks.callbacks
    ensures
      || (t in s.tasks.callbacks && s.tasks.callbacks[t] == s'.tasks.callbacks[t])
      || (&& step.Enter? && step.sendOk && step.id in s.ops && s.ops[step.id].Issued? && s.ops[step.id].task == t
          && var op := s.ops[step.id];
          s'.tasks.callbacks[t] == F.TaskItem(op.callback, t, op.launchType, op.device, op.session, s.tasks.pushes))
  {
  }

  /** Over every interleaving: a live task holds the callback, the device, the launch type and the
      session that its own start was issued with. */
  lemma {:induction false} TaskSupplied(states: seq<State>, steps: seq<Step>, n: nat, t: int) returns (i: nat, j: nat)
    requires IsRun(states, steps) && states[0] == START && n <= |steps| && t in states[n].tasks.callbacks
    ensures Supplied(states, steps, i, j, n, t)
  {
    assert StepAt(states, steps, n - 1);
    TaskStep(states[n - 1], steps[n - 1], states[n], t);
    if t in states[n - 1].tasks.callbacks && states[n - 1].tasks.callbacks[t] == states[n].tasks.callbacks[t] {
      i, j := TaskSupplied(states, steps, n - 1, t);
    } else {
      j := n - 1;
      i := StartIssued(states, steps, j, steps[j].id);
    }
  }

  /** A start enters its task exactly when the id is positive and free, the timer could be set, and
      a plain start has a callback; it goes on exactly then, to the mission of a continuation. */
  lemma EnterIff(s: State, id: nat, sendOk: bool)
    requires Enabled(s, Enter(id, sendOk))
    ensures var op, s' := s.ops[id], Apply(s, Enter(id, sendOk));
      var entered := op.task > 0 && op.task !in s.tasks.callbacks && sendOk
        && (op.launchType.FREEINSTALL_CONTINUE? || !op.callback.Null?);
      && s'.tasks.pushes == s.tasks.pushes + (if entered then 1 else 0)
      && s'.tasks.timers[op.task] == s.tasks.timers[op.task] + (if entered then 1 else 0)
      && (op.task in s'.tasks.callbacks <==> op.task in s.tasks.callbacks || entered)
      && (id in s'.ops <==> entered)
      && (entered && op.launchType.FREEINSTALL_CONTINUE? ==> s'.ops[id] == Recording(op.task, op.session))
      && (entered && op.launchType.FREEINSTALL_START? ==> s'.ops[id] == Asking(op.task))
  {
  }

  // ------------------------------------------------------------ device offline

  /** A live task on the device has a callback that is told that the device is gone. */
  ghost predicate OfflineReply(s: State, device: DeviceId, r: F.Reply) {
    exists t :: t in s.tasks.callbacks && s.tasks.callbacks[t].deviceId == device
      && !s.tasks.callbacks[t].callback.Null?
      && r == F.Reply(s.tasks.callbacks[t].place, s.tasks.callbacks[t].callback, 29360142)
  }

  lemma OfflineRepliesExactly(s: State, device: DeviceId, r: F.Reply)
    requires RepliesOk(s)
    ensures var s' := Apply(s, Offline(device));
      s'.tasks.replies[r] == s.tasks.replies[r] + if OfflineReply(s, device, r) then 1 else 0
  {
    var added := F.RepliesFor(s.tasks.callbacks, F.TasksOn(s.tasks, device), DEVICE_OFFLINE_ERR);
    assert r in added <==> OfflineReply(s, device, r);
  }

  /** When a device goes offline exactly the live tasks that were started for it go, and exactly
      their callbacks, where they gave one, are told 29360142, once each. */
  lemma OfflineIsExact(states: seq<State>, steps: seq<Step>, n: nat, device: DeviceId, t: int)
    returns (i: nat, j: nat)
    requires IsRun(states, steps) && states[0] == START && n < |steps| && steps[n] == Offline(device)
    requires t in states[n].tasks.callbacks
    ensures Supplied(states, steps, i, j, n, t)
    ensures t !in states[n + 1].tasks.callbacks <==> steps[i].device == device
    ensures var r := F.Reply(states[n].tasks.callbacks[t].place, steps[i].callback, 29360142);
      steps[i].device == device && !steps[i].callback.Null? ==>
        states[n].tasks.replies[r] == 0 && states[n + 1].tasks.replies[r] == 1
    ensures forall r :: r in states[n + 1].tasks.replies && r !in states[n].tasks.replies ==>
      OfflineReply(states[n], device, r)
  {
    i, j := TaskSupplied(states, steps, n, t);
    assert StepAt(states, steps, n);
    RunReplies(states, steps, n);
    RunReplies(states, steps, n + 1);
    TakenIff(states[n], steps[n], t);
    forall r
      ensures states[n + 1].tasks.replies[r] ==
        states[n].tasks.replies[r] + if OfflineReply(states[n], device, r) then 1 else 0
    {
      OfflineRepliesExactly(states[n], device, r);
    }
  }

  // ------------------------------------------------------------ codes of replies

  /** The operation carries a result code. */
  predicate Carries(op: Op, code: int) {
    (op.Refusing? || op.Reading? || op.Taking? || op.Replying?) && op.code == code
  }

  /** The step brings the code: the remote request failed, a completion came, or a timer fired. */
  predicate Brings(step: Step, id: nat, code: int) {
    (step.Refuse? || step.Complete? || step.Fire?) && step.id == id && step.code == code
  }

  lemma CarriesStep(s: State, step: Step, s': State, id: nat, code: int)
    requires Enabled(s, step) && s' == Apply(s, step) && id in s'.ops && Carries(s'.ops[id], code)
    ensures Brings(step, id, code) || (id in s.ops && Carries(s.ops[id], code))
  {
  }

  lemma {:induction false} CodeBrought(states: seq<State>, steps: seq<Step>, n: nat, id: nat, code: int)
    returns (i: nat)
    requires IsRun(states, steps) && states[0] == START && n <= |steps|
    requires id in states[n].ops && Carries(states[n].ops[id], code)
    ensures i < n && Brings(steps[i], id, code)
  {
    assert StepAt(states, steps, n - 1);
    CarriesStep(states[n - 1], steps[n - 1], states[n], id, code);
    if Brings(steps[n - 1], id, code) {
      i := n - 1;
    } else {
      i := CodeBrought(states, steps, n - 1, id, code);
    }
  }

  /** An operation that is about to reply took the task out itself. */
  predicate TookAt(states: seq<State>, steps: seq<Step>, k: nat, id: nat, item: F.TaskItem)
    requires |states| == |steps| + 1 && k < |steps|
  {
    && steps[k] == Take(id) && item.taskId in states[k].tasks.callbacks
    && states[k].tasks.callbacks[item.taskId] == item
  }

  lemma {:induction false} ItemTaken(states: seq<State>, steps: seq<Step>, n: nat, id: nat) returns (k: nat)
    requires IsRun(states, steps) && states[0] == START && n <= |steps|
    requires id in states[n].ops && states[n].ops[id].Replying? && !states[n].ops[id].item.callback.Null?
    ensures k < n && TookAt(states, steps, k, id, states[n].ops[id].item)
  {
    assert StepAt(states, steps, n - 1);
    ReplyingStep(states[n - 1], steps[n - 1], states[n], id);
    if steps[n - 1] == Take(id) {
      k := n - 1;
      RunReplies(states, steps, k);
      assert F.ItemOk(states[k].tasks, states[k].ops[id].task);
    } else {
      k := ItemTaken(states, steps, n - 1, id);
    }
  }

  lemma ReplyingStep(s: State, step: Step, s': State, id: nat)
    requires Enabled(s, step) && s' == Apply(s, step) && id in s'.ops && s'.ops[id].Replying?
    ensures id in s.ops
    ensures if step == Take(id)
      then (s.ops[id].Taking? || s.ops[id].Refusing?) && s'.ops[id].item == F.Item(s.tasks, s.ops[id].task)
      else s.ops[id] == s'.ops[id]
  {
  }

  /** At step k the reply was sent for a reason. */
  ghost predicate SentAt(states: seq<State>, steps: seq<Step>, k: nat, r: F.Reply)
    requires |states| == |steps| + 1 && k < |steps|
  {
    || (steps[k].Offline? && OfflineReply(states[k], steps[k].device, r))
    || (&& steps[k].Reply? && steps[k].id in states[k].ops && states[k].ops[steps[k].id].Replying?
        && !states[k].ops[steps[k].id].item.callback.Null?
        && r == F.Reply(states[k].ops[steps[k].id].item.place, states[k].ops[steps[k].id].item.callback,
          states[k].ops[steps[k].id].code))
  }

  lemma RepliesStep(s: State, step: Step, s': State, r: F.Reply)
    requires RepliesOk(s) && Enabled(s, step) && s' == Apply(s, step) && r in s'.tasks.replies && r !in s.tasks.replies
    ensures
      || (step.Offline? && OfflineReply(s, step.device, r))
      || (&& step.Reply? && step.id in s.ops && s.ops[step.id].Replying? && !s.ops[step.id].item.callback.Null?
          && r == F.Reply(s.ops[step.id].item.place, s.ops[step.id].item.callback, s.ops[step.id].code))
  {
    if step.Offline? {
      OfflineRepliesExactly(s, step.device, r);
    }
  }

  /** Over every interleaving, every reply has its cause. Either the device of the live task went
      offline, and the code is 29360142; or an operation took the task out, and the reply goes
      to the task's callback with the code that a failed request, a completion or a timer
      brought to that operation. */
  lemma {:induction false} ReplyHasCause(states: seq<State>, steps: seq<Step>, n: nat, r: F.Reply) returns (k: nat)
    requires IsRun(states, steps) && states[0] == START && n <= |steps| && r in states[n].tasks.replies
    ensures k < n && SentAt(states, steps, k, r)
  {
    assert StepAt(states, steps, n - 1);
    if r in states[n - 1].tasks.replies {
      k := ReplyHasCause(states, steps, n - 1, r);
    } else {
      RunReplies(states, steps, n - 1);
      RepliesStep(states[n - 1], steps[n - 1], states[n], r);
      k := n - 1;
    }
  }

  lemma ReplyCode(states: seq<State>, steps: seq<Step>, n: nat, id: nat) returns (i: nat, k: nat)
    requires IsRun(states, steps) && states[0] == START && n < |steps| && steps[n] == Reply(id)
    requires id in states[n].ops && states[n].ops[id].Replying? && !states[n].ops[id].item.callback.Null?
    ensures i < n && Brings(steps[i], id, states[n].ops[id].code)
    ensures k < n && TookAt(states, steps, k, id, states[n].ops[id].item)
  {
    i := CodeBrought(states, steps, n, id, states[n].ops[id].code);
    k := ItemTaken(states, steps, n, id);
  }

  // -------------------------------------------------------------- no reply is lost

  /** What follows when a live task is taken out: a refusal, or a completion that read a plain start,
      is about to reply to the task's callback with its code; a completion that read a
      continuation is not. */
  lemma TakeFate(s: State, id: nat)
    requires Enabled(s, Take(id)) && s.ops[id].task in s.tasks.callbacks
    ensures var op, s' := s.ops[id], Apply(s, Take(id));
      && id in s'.ops && op.task !in s'.tasks.callbacks
      && (op.Refusing? || op.launchType.FREEINSTALL_START? ==>
        s'.ops[id] == Replying(s.tasks.callbacks[op.task], op.code))
      && (op.Taking? && op.launchType.FREEINSTALL_CONTINUE? ==>
        s'.ops[id] == if op.code == 0 then Forgetting(op.task) else Resolving(op.task))
  {
  }

  predicate Promised(s: State, id: nat, r: F.Reply) {
    && id in s.ops && s.ops[id].Replying? && !s.ops[id].item.callback.Null?
    && r == F.Reply(s.ops[id].item.place, s.ops[id].item.callback, s.ops[id].code)
  }

  lemma PromiseStep(s: State, step: Step, s': State, id: nat, r: F.Reply)
    requires Enabled(s, step) && s' == Apply(s, step)
    ensures Promised(s, id, r) ==> if step == Reply(id) then r in s'.tasks.replies else Promised(s', id, r)
    ensures r in s.tasks.replies ==> r in s'.tasks.replies
  {
  }

  /** Over every interleaving: a reply that an operation is about to send is still about to be
      sent, or was sent, in every later state; and what was sent stays sent. */
  lemma {:induction false} PromiseKept(states: seq<State>, steps: seq<Step>, i: nat, n: nat, id: nat, r: F.Reply)
    requires IsRun(states, steps) && i <= n <= |steps| && (Promised(states[i], id, r) || r in states[i].tasks.replies)
    ensures Promised(states[n], id, r) || r in states[n].tasks.replies
    decreases n
  {
    if i < n {
      PromiseKept(states, steps, i, n - 1, id, r);
      assert StepAt(states, steps, n - 1);
      PromiseStep(states[n - 1], steps[n - 1], states[n], id, r);
    }
  }
}
