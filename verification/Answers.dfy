/**
 What a mission centre is told, and why, over runs of the service functions: every answer has a
 step that caused it, goes to the callback in the table, and carries the code of its cause.
 */
module Answers {
  import opened Sessions
  import C = Continuation
  import F = FreeInstall
  import opened Trackers
  import opened CleanFlags

  datatype Cause = Nothing | Cause(mission: int, code: int)

  /** The mission that a step reports to, and the code of the report: 0 for success, 29360152 for a
      failure told by the remote device, 29360153 for a timeout, 29360206 when the remote device
      cannot install, 29360205 when an installation failed, and the status of a rejection. */
  function CauseOf(s: Service, step: Step): Cause {
    match step
    case Completed(m, success) => if m <= 0 then Nothing else Cause(m, if success then 0 else 29360152)
    case MissionTimeout(m) => if m <= 0 then Nothing else Cause(m, 29360153)
    case InstallQueried(m, code) => if code == 0 then Nothing else Cause(m, 29360206)
    case StartContinuation(m, want) => if want.status == 0 then Nothing else Cause(m, want.status)
    case InstallCompleted(id, code) => InstallCause(s.tasks, id, code)
    case TaskTimeout(id, code) => InstallCause(s.tasks, id, code)
    case _ => Nothing
  }

  function InstallCause(tasks: F.Tasks, id: int, code: int): Cause {
    if id <= 0 || id !in tasks.callbacks || tasks.callbacks[id].launchType.FREEINSTALL_START? || code == 0 then Nothing
    else Cause(if id in tasks.missions then tasks.missions[id] else 29360128, 29360205)
  }

  /** The answers that a cause makes: one, if the mission is in progress. */
  function Caused(s: C.Cont, cause: Cause): seq<C.Answer> {
    if cause.Nothing? || cause.mission !in s.callbacks then []
    else [C.Answer(s.callbacks[cause.mission].place, s.callbacks[cause.mission].callback, cause.code)]
  }

  lemma NotifiedAnswers(s: C.Cont, m: int, code: int)
    ensures C.Notified(s, m, code).answers == s.answers + Caused(s, Cause(m, code))
  {
  }

  lemma InstalledAnswers(s: Service, id: int, code: int)
    ensures Installed(s, id, code).cont.answers == s.cont.answers + Caused(s.cont, InstallCause(s.tasks, id, code))
  {
    NotifiedAnswers(s.cont, F.MissionOf(s.tasks, id), 29360205);
  }

  /** One step: exactly the answer of its cause is sent, if it has one. */
  lemma StepAnswers(s: Service, step: Step)
    ensures Next(s, step).cont.answers == s.cont.answers + Caused(s.cont, CauseOf(s, step))
  {
    match step
    case Completed(m, success) => NotifiedAnswers(s.cont, m, if success then 0 else 29360152);
    case MissionTimeout(m) => NotifiedAnswers(C.TimerConsumed(s.cont, m), m, 29360153);
    case InstallQueried(m, code) => NotifiedAnswers(s.cont, m, 29360206);
    case StartContinuation(m, want) => NotifiedAnswers(s.cont, m, want.status);
    case InstallCompleted(id, code) => InstalledAnswers(s, id, code);
    case TaskTimeout(id, code) =>
      InstalledAnswers(s.(tasks := s.tasks.(timers := s.tasks.timers - multiset{id})), id, code);
    case _ =>
  }

  /** At step i the answer was sent: its mission was in progress, it goes to that callback, and its
      code is that of the cause. */
  ghost predicate AnsweredAt(states: seq<Service>, steps: seq<Step>, i: nat, a: C.Answer)
    requires |states| == |steps| + 1 && i < |steps|
  {
    var cause := CauseOf(states[i], steps[i]);
    && cause.Cause? && cause.mission in states[i].cont.callbacks && a.code == cause.code
    && states[i].cont.callbacks[cause.mission] == C.Push(a.place, a.callback)
  }

  /** Over every run: every answer has the step that caused it. */
  lemma {:induction false} AnswerHasCause(states: seq<Service>, steps: seq<Step>, n: nat, k: nat) returns (i: nat)
    requires IsRun(states, steps) && states[0] == START && n <= |steps| && k < |states[n].cont.answers|
    ensures i < n && |states[i].cont.answers| == k && AnsweredAt(states, steps, i, states[n].cont.answers[k])
  {
    assert StepAt(states, steps, n - 1);
    StepAnswers(states[n - 1], steps[n - 1]);
    if k < |states[n - 1].cont.answers| {
      i := AnswerHasCause(states, steps, n - 1, k);
    } else {
      i := n - 1;
    }
  }

  // -------------------------------------------------------------------- timeouts

  /** How many timeouts of a mission are pending after a step. */
  function PendingAfter(s: Service, step: Step, x: int): int {
    var now: int := s.cont.timers[x];
    match step
    case Continue(m, callback, _) => if m == x && !callback.Null? && m !in s.cont.callbacks then now + 1 else now
    case ContinueByInstall(m, _, _) => if m == x then now + 1 else now
    case InstallImpossible(m) => if m == x then 0 else now
    case InstallQueried(m, code) => if m == x then (if code == 0 then 1 else 0) else now
    case StartContinuation(m, want) =>
      if m != x then now
      else if want.status != 0 then 0
      else if want.flagged && m !in s.cont.callbacks then now + 1 else now
    case MissionTimeout(m) => if m != x then now else if m <= 0 then now - 1 else 0
    case Completed(m, _) => if m == x && m > 0 then 0 else now
    case _ => if CauseOf(s, step).Cause? && CauseOf(s, step).mission == x then 0 else now
  }

  lemma NotifiedTimers(s: C.Cont, m: int, code: int, x: int)
    ensures C.Notified(s, m, code).timers[x] == if x == m then 0 else s.timers[x]
  {
  }

  lemma InstalledTimers(s: Service, id: int, code: int, x: int)
    ensures Installed(s, id, code).cont.timers[x] ==
      var cause := InstallCause(s.tasks, id, code);
      if cause.Cause? && cause.mission == x then 0 else s.cont.timers[x]
  {
    NotifiedTimers(s.cont, F.MissionOf(s.tasks, id), 29360205, x);
  }

  lemma StartedTimers(s: Service, m: int, want: Want, x: int)
    ensures Started(s, m, want).cont.timers[x] == PendingAfter(s, StartContinuation(m, want), x)
  {
    NotifiedTimers(s.cont, m, want.status, x);
  }

  lemma QueriedTimers(s: Service, m: int, code: int, x: int)
    ensures Queried(s.cont, m, code).timers[x] == PendingAfter(s, InstallQueried(m, code), x)
  {
    NotifiedTimers(s.cont, m, 29360206, x);
  }

  lemma ReportTimers(s: Service, step: Step, x: int)
    requires Possible(s, step)
    requires step.InstallQueried? || step.StartContinuation? || step.Completed? || step.MissionTimeout?
    ensures Next(s, step).cont.timers[x] == PendingAfter(s, step, x)
  {
    match step
    case InstallQueried(m, code) => QueriedTimers(s, m, code, x);
    case StartContinuation(m, want) => StartedTimers(s, m, want, x);
    case Completed(m, success) => NotifiedTimers(s.cont, m, if success then 0 else 29360152, x);
    case MissionTimeout(m) => NotifiedTimers(C.TimerConsumed(s.cont, m), m, 29360153, x);
  }

  /** One step: the pending timeouts are as many as that. */
  lemma StepTimers(s: Service, step: Step, x: int)
    requires Possible(s, step)
    ensures Next(s, step).cont.timers[x] == PendingAfter(s, step, x)
  {
    if step.InstallCompleted? {
      InstalledTimers(s, step.id, step.code, x);
    } else if step.TaskTimeout? {
      InstalledTimers(s.(tasks := s.tasks.(timers := s.tasks.timers - multiset{step.id})), step.id, step.code, x);
    } else if step.InstallQueried? || step.StartContinuation? || step.Completed? || step.MissionTimeout? {
      ReportTimers(s, step, x);
    }
  }

  // ------------------------------------------------------- pushes and their steps

  /** The step pushes a callback for the mission, for this device, with or without installation. */
  predicate Pushes(step: Step, m: int, callback: Remote, device: DeviceId, install: bool) {
    step == (if install then ContinueByInstall(m, callback, device) else Continue(m, callback, device))
  }

  predicate Same(s: C.Cont, s': C.Cont, m: int) {
    && m in s.callbacks && m in s'.callbacks && s.callbacks[m] == s'.callbacks[m]
    && C.TargetDevice(s, m) == C.TargetDevice(s', m) && C.IsFreeInstall(s, m) == C.IsFreeInstall(s', m)
  }

  predicate KeysFit(s: C.Cont) {
    s.devices.Keys == s.callbacks.Keys && s.freeInstall.Keys <= s.callbacks.Keys
  }

  lemma NotifiedPush(s: C.Cont, x: int, code: int, m: int)
    requires m in C.Notified(s, x, code).callbacks
    ensures Same(s, C.Notified(s, x, code), m)
  {
  }

  lemma InstalledPush(s: Service, id: int, code: int, m: int)
    requires m in Installed(s, id, code).cont.callbacks
    ensures Same(s.cont, Installed(s, id, code).cont, m)
  {
    if Installed(s, id, code).cont != s.cont {
      NotifiedPush(s.cont, F.MissionOf(s.tasks, id), 29360205, m);
    }
  }

  lemma PushedHere(s: C.Cont, m: int, callback: Remote, device: DeviceId, install: bool)
    requires KeysFit(s) && !callback.Null? && m !in s.callbacks
    ensures var s' := C.Pushed(s, m, callback, device, install);
      && m in s'.callbacks && s'.callbacks[m].callback == callback
      && C.TargetDevice(s', m) == device && C.IsFreeInstall(s', m) == install
  {
  }

  lemma AbandonedPush(s: C.Cont, x: int, m: int)
    requires m in Abandoned(s, x).callbacks
    ensures Same(s, Abandoned(s, x), m)
  {
  }

  lemma ReportPush(s: Service, step: Step, m: int)
    requires step.InstallQueried? || step.StartContinuation? || step.Completed? || step.MissionTimeout?
    requires m in Next(s, step).cont.callbacks
    ensures Same(s.cont, Next(s, step).cont, m)
  {
    match step
    case InstallQueried(x, code) =>
      if code != 0 {
        NotifiedPush(s.cont, x, 29360206, m);
      }
    case StartContinuation(x, want) =>
      if want.status != 0 {
        NotifiedPush(s.cont, x, want.status, m);
      }
    case Completed(x, success) =>
      if x > 0 {
        NotifiedPush(s.cont, x, if success then 0 else 29360152, m);
      }
    case MissionTimeout(x) =>
      if x > 0 {
        NotifiedPush(C.TimerConsumed(s.cont, x), x, 29360153, m);
      }
  }

  /** A step that does not push leaves what it does not take out. */
  lemma OtherStep(s: Service, step: Step, m: int)
    requires !step.Continue? && !step.ContinueByInstall? && m in Next(s, step).cont.callbacks
    ensures Same(s.cont, Next(s, step).cont, m)
  {
    if step.InstallImpossible? {
      AbandonedPush(s.cont, step.mission, m);
    } else if step.InstallCompleted? {
      InstalledPush(s, step.id, step.code, m);
    } else if step.TaskTimeout? {
      InstalledPush(s.(tasks := s.tasks.(timers := s.tasks.timers - multiset{step.id})), step.id, step.code, m);
    } else if step.InstallQueried? || step.StartContinuation? || step.Completed? || step.MissionTimeout? {
      ReportPush(s, step, m);
    }
  }

  lemma PushStep(s: Service, step: Step, s': Service, m: int)
    requires KeysFit(s.cont) && s' == Next(s, step) && m in s'.cont.callbacks && !Same(s.cont, s'.cont, m)
    ensures m !in s.cont.callbacks
    ensures Pushes(step, m, s'.cont.callbacks[m].callback, C.TargetDevice(s'.cont, m), C.IsFreeInstall(s'.cont, m))
  {
    if step.Continue? || step.ContinueByInstall? {
      OtherPushed(s.cont, step.mission, step.callback, step.device, step.ContinueByInstall?, m);
    } else {
      OtherStep(s, step, m);
    }
  }

  lemma OtherPushed(s: C.Cont, x: int, callback: Remote, device: DeviceId, install: bool, m: int)
    requires KeysFit(s) && m in C.Pushed(s, x, callback, device, install).callbacks
    ensures var s' := C.Pushed(s, x, callback, device, install);
      if m == x && !callback.Null? && x !in s.callbacks
      then s'.callbacks[m].callback == callback && C.TargetDevice(s', m) == device && C.IsFreeInstall(s', m) == install
      else Same(s, s', m)
  {
    if m == x && !callback.Null? && x !in s.callbacks {
      PushedHere(s, x, callback, device, install);
    }
  }

  /** What the mission has in state n is what step i gave it. */
  ghost predicate BegunAt(states: seq<Service>, steps: seq<Step>, i: nat, n: nat, m: int)
    requires |states| == |steps| + 1 && n <= |steps| && m in states[n].cont.callbacks
  {
    var c := states[n].cont;
    && i < n && m !in states[i].cont.callbacks
    && Pushes(steps[i], m, c.callbacks[m].callback, C.TargetDevice(c, m), C.IsFreeInstall(c, m))
  }

  lemma BegunLast(states: seq<Service>, steps: seq<Step>, n: nat, m: int)
    requires IsRun(states, steps) && states[0] == START && 0 < n <= |steps| && m in states[n].cont.callbacks
    requires !Same(states[n - 1].cont, states[n].cont, m)
    ensures BegunAt(states, steps, n - 1, n, m)
  {
    RunFits(states, steps, n - 1);
    var s, step, s' := states[n - 1], steps[n - 1], states[n];
    assert s' == Next(s, step) by {
      assert StepAt(states, steps, n - 1);
    }
    PushStep(s, step, s', m);
  }

  /** Over every run: a mission in progress has the callback, the target device and the
      free-install flag that the step which began it gave. */
  lemma {:induction false} PushSupplied(states: seq<Service>, steps: seq<Step>, n: nat, m: int) returns (i: nat)
    requires IsRun(states, steps) && states[0] == START && n <= |steps| && m in states[n].cont.callbacks
    ensures BegunAt(states, steps, i, n, m)
  {
    if Same(states[n - 1].cont, states[n].cont, m) {
      i := PushSupplied(states, steps, n - 1, m);
    } else {
      BegunLast(states, steps, n, m);
      i := n - 1;
    }
  }

  lemma {:induction false} RunOk(states: seq<Service>, steps: seq<Step>, n: nat)
    requires IsRun(states, steps) && states[0] == START && n <= |steps|
    ensures ContOk(states[n].cont)
  {
    if n > 0 {
      RunOk(states, steps, n - 1);
      assert StepAt(states, steps, n - 1);
      ContStep(states[n - 1], steps[n - 1]);
    }
  }

  lemma RunFits(states: seq<Service>, steps: seq<Step>, n: nat)
    requires IsRun(states, steps) && states[0] == START && n <= |steps|
    ensures KeysFit(states[n].cont)
  {
    RunOk(states, steps, n);
  }

  // ---------------------------------------------------------- tasks and their steps

  /** The step starts an installation with these contents: an application's own, or that of a
      mission that is continued by installation, which has no callback of its own. */
  predicate Starts(s: Service, step: Step, item: F.TaskItem) {
    || (step == BeginInstall(item.callback, item.deviceId, item.launchType, item.sessionId, true, true))
    || (&& step.StartContinuation? && step.mission == item.sessionId && step.want.device == item.deviceId
        && C.IsFreeInstall(s.cont, step.mission) && item.callback.Null? && item.launchType.FREEINSTALL_CONTINUE?)
  }

  lemma BegunTask(
    s: F.Tasks, callback: Remote, device: DeviceId, launchType: F.LaunchType, session: int, sendOk: bool, t: int)
    requires t in F.Begun(s, callback, device, launchType, session, sendOk).callbacks
    ensures var item := F.Begun(s, callback, device, launchType, session, sendOk).callbacks[t];
      || (t in s.callbacks && s.callbacks[t] == item)
      || (sendOk && t == s.next && item == F.TaskItem(callback, t, launchType, device, session, s.pushes))
  {
  }

  lemma TaskStep(s: Service, step: Step, s': Service, t: int)
    requires s' == Next(s, step) && t in s'.tasks.callbacks
    ensures (t in s.tasks.callbacks && s.tasks.callbacks[t] == s'.tasks.callbacks[t])
      || (t == s.tasks.next && Starts(s, step, s'.tasks.callbacks[t]))
  {
    if step.BeginInstall? && step.reachable {
      BegunTask(s.tasks, step.callback, step.to, step.launchType, step.session, step.sendOk, t);
    } else if step.StartContinuation? && s'.tasks != s.tasks {
      BegunTask(s.tasks, Null, step.want.device, F.FREEINSTALL_CONTINUE, step.mission, step.want.sendOk, t);
    }
  }

  /** Over every run: a live task has the contents of the step that started it, under the id that
      was next then. */
  lemma {:induction false} TaskSupplied(states: seq<Service>, steps: seq<Step>, n: nat, t: int) returns (i: nat)
    requires IsRun(states, steps) && states[0] == START && n <= |steps| && t in states[n].tasks.callbacks
    ensures i < n && states[i].tasks.next == t && Starts(states[i], steps[i], states[n].tasks.callbacks[t])
  {
    assert StepAt(states, steps, n - 1);
    TaskStep(states[n - 1], steps[n - 1], states[n], t);
    if t in states[n - 1].tasks.callbacks && states[n - 1].tasks.callbacks[t] == states[n].tasks.callbacks[t] {
      i := TaskSupplied(states, steps, n - 1, t);
    } else {
      i := n - 1;
    }
  }

  // -------------------------------------------------------------- what tasks are told

  predicate RepliesTo(s: F.Tasks, t: int, code: int, r: F.Reply) {
    && t in s.callbacks && !s.callbacks[t].callback.Null?
    && r == F.Reply(s.callbacks[t].place, s.callbacks[t].callback, code)
  }

  predicate PlainStart(s: F.Tasks, t: int) {
    t in s.callbacks && s.callbacks[t].launchType.FREEINSTALL_START?
  }

  /** The step makes this reply: a failed request and the completion of a plain start, by the remote
      device or by the timer, with the code they bring; the loss of the device with 29360142. */
  ghost predicate Tells(s: F.Tasks, step: Step, r: F.Reply) {
    match step
    case InstallRefused(t, code) => RepliesTo(s, t, code, r)
    case InstallCompleted(t, code) => PlainStart(s, t) && RepliesTo(s, t, code, r)
    case TaskTimeout(t, code) => PlainStart(s, t) && RepliesTo(s, t, code, r)
    case DeviceOffline(device) =>
      exists t :: t in s.callbacks && s.callbacks[t].deviceId == device && RepliesTo(s, t, 29360142, r)
    case _ => false
  }

  lemma InstalledReplies(s: Service, t: int, code: int, r: F.Reply)
    requires t in s.tasks.callbacks ==> t > 0
    ensures Installed(s, t, code).tasks.replies[r] ==
      s.tasks.replies[r] + if PlainStart(s.tasks, t) && RepliesTo(s.tasks, t, code, r) then 1 else 0
  {
  }

  lemma OfflineReplies(s: F.Tasks, device: DeviceId, r: F.Reply)
    ensures F.OfflineSwept(s, device).replies[r] ==
      s.replies[r] + if Tells(s, DeviceOffline(device), r) then 1 else 0
  {
    var added := F.RepliesFor(s.callbacks, F.TasksOn(s, device), 29360142);
    assert r in added <==> Tells(s, DeviceOffline(device), r);
  }

  lemma TimedOutReplies(s: Service, t: int, code: int, r: F.Reply)
    requires t in s.tasks.callbacks ==> t > 0
    ensures TaskTimedOut(s, t, code).tasks.replies[r] ==
      s.tasks.replies[r] + if PlainStart(s.tasks, t) && RepliesTo(s.tasks, t, code, r) then 1 else 0
  {
    InstalledReplies(s.(tasks := s.tasks.(timers := s.tasks.timers - multiset{t})), t, code, r);
  }

  lemma RefusedReplies(s: F.Tasks, t: int, code: int, r: F.Reply)
    ensures Refused(s, t, code).replies[r] == s.replies[r] + if RepliesTo(s, t, code, r) then 1 else 0
  {
  }

  /** One step: exactly those replies are sent, once each. */
  lemma StepReplies(s: Service, step: Step, r: F.Reply)
    requires forall t :: t in s.tasks.callbacks ==> t > 0
    ensures Next(s, step).tasks.replies[r] == s.tasks.replies[r] + if Tells(s.tasks, step, r) then 1 else 0
  {
    match step
    case InstallRefused(t, code) => RefusedReplies(s.tasks, t, code, r);
    case InstallCompleted(t, code) => InstalledReplies(s, t, code, r);
    case TaskTimeout(t, code) => TimedOutReplies(s, t, code, r);
    case DeviceOffline(device) => OfflineReplies(s.tasks, device, r);
    case _ =>
  }

  lemma TakenKeys(s: Service, t: int, code: int)
    ensures Installed(s, t, code).tasks.callbacks == s.tasks.callbacks - {t}
    ensures Refused(s.tasks, t, code).callbacks == s.tasks.callbacks - {t}
  {
  }

  lemma TimedOutKeys(s: Service, t: int, code: int)
    requires t > 0
    ensures TaskTimedOut(s, t, code).tasks.callbacks == s.tasks.callbacks - {t}
  {
    TakenKeys(s.(tasks := s.tasks.(timers := s.tasks.timers - multiset{t})), t, code);
  }

  lemma StartedKeys(s: Service, step: Step, t: int)
    requires t in s.tasks.callbacks && (step.BeginInstall? || step.StartContinuation?)
    ensures t in Next(s, step).tasks.callbacks
  {
  }

  /** One step: a live task leaves exactly with its own failed request, completion or timer, or with
      its device. */
  lemma TaskGoesIff(s: Service, step: Step, t: int)
    requires t in s.tasks.callbacks && t > 0
    ensures t !in Next(s, step).tasks.callbacks <==>
      || ((step.InstallRefused? || step.InstallCompleted? || step.TaskTimeout?) && step.id == t)
      || (step.DeviceOffline? && step.device == s.tasks.callbacks[t].deviceId)
  {
    match step
    case InstallRefused(id, code) => TakenKeys(s, id, code);
    case InstallCompleted(id, code) => TakenKeys(s, id, code);
    case TaskTimeout(id, code) =>
      if id > 0 {
        TimedOutKeys(s, id, code);
      }
    case BeginInstall(_, _, _, _, _, _) => StartedKeys(s, step, t);
    case StartContinuation(_, _) => StartedKeys(s, step, t);
    case _ =>
  }
}
