/**
 The service functions that drive the continuation tracker and the free-install tracker,
 each one step, in any order and for any missions, tasks and devices at once.

 A function that waits for another process in its middle is two steps, with anything in
 between: the question whether the remote device can install, and the request that starts
 the remote installation.
 */
module Trackers {
  import opened Codes
  import opened Sessions
  import C = Continuation
  import F = FreeInstall

  datatype Service = Service(cont: C.Cont, tasks: F.Tasks)

  const START: Service := Service(C.START, F.START)

  /** What the environment decides in `StartContinuation`. */
  datatype Want = Want(status: int, flagged: bool, prepared: bool, clean: bool, device: DeviceId, reachable: bool,
    sendOk: bool)

  datatype Step =
    | Continue(mission: int, callback: Remote, device: DeviceId)
    | ContinueByInstall(mission: int, callback: Remote, device: DeviceId)
    | InstallImpossible(mission: int)
    | InstallQueried(mission: int, code: int)
    | StartContinuation(mission: int, want: Want)
    | Completed(mission: int, success: bool)
    | MissionTimeout(mission: int)
    | BeginInstall(callback: Remote, to: DeviceId, launchType: F.LaunchType, session: int, reachable: bool,
      sendOk: bool)
    | InstallRefused(id: int, code: int)
    | InstallCompleted(id: int, code: int)
    | TaskTimeout(id: int, code: int)
    | DeviceOffline(device: DeviceId)

  function Continued(s: C.Cont, m: int, callback: Remote, device: DeviceId): C.Cont {
    if C.PushAllowed(s, m, callback) then C.TimerSet(C.Pushed(s, m, callback, device, false), m) else s
  }

  /** The outcome of the push is not looked at. The check for a continuation in progress comes
      before and under its own lock, so it may be outdated here. */
  function ContinuedByInstall(s: C.Cont, m: int, callback: Remote, device: DeviceId): C.Cont {
    C.TimerSet(C.Pushed(s, m, callback, device, true), m)
  }

  function Abandoned(s: C.Cont, m: int): C.Cont {
    var s1 := C.Popped(C.TimersRemoved(s, m), m);
    if m in s.callbacks then C.Discarded(s1, s.callbacks[m]) else s1
  }

  function Queried(s: C.Cont, m: int, code: int): C.Cont {
    if code != ERR_OK then C.Notified(s, m, CONTINUE_REMOTE_UNINSTALLED_CANNOT_FREEINSTALL)
    else C.TimerSet(C.TimersRemoved(s, m), m)
  }

  function Started(s: Service, m: int, want: Want): Service {
    if want.status != ERR_OK then s.(cont := C.Notified(s.cont, m, want.status))
    else if !want.flagged then s
    else
      var timed := if m in s.cont.callbacks then s.cont else C.TimerSet(s.cont, m);
      if !want.prepared then s.(cont := timed)
      else
        var tasks := if C.IsFreeInstall(timed, m) && want.reachable
          then F.Begun(s.tasks, Null, want.device, F.FREEINSTALL_CONTINUE, m, want.sendOk) else s.tasks;
        Service(C.CleanFlagSet(timed, m, want.clean), tasks)
  }

  /** A report for a mission that is not positive is refused. */
  function CompletedBy(s: C.Cont, m: int, success: bool): C.Cont {
    if m <= 0 then s else C.Notified(s, m, if success then ERR_OK else NOTIFYCOMPLETECONTINUATION_FAILED)
  }

  /** An event whose id is not positive is dropped by the handler. */
  function MissionTimedOut(s: C.Cont, m: int): C.Cont {
    if m <= 0 then C.TimerConsumed(s, m) else C.Notified(C.TimerConsumed(s, m), m, CONTINUE_ABILITY_TIMEOUT_ERR)
  }

  function Installed(s: Service, id: int, code: int): Service {
    var item, popped := F.Item(s.tasks, id), F.Popped(s.tasks, id);
    if F.LaunchTypeOf(s.tasks, id).FREEINSTALL_START? then s.(tasks := F.Replied(popped, item, code))
    else if code == ERR_OK then s.(tasks := F.MissionForgotten(popped, id))
    else
      Service(C.Notified(s.cont, F.MissionOf(s.tasks, id), CONTINUE_FREE_INSTALL_FAILED),
              F.MissionForgotten(popped, id))
  }

  function Refused(s: F.Tasks, id: int, code: int): F.Tasks {
    F.Replied(F.Popped(s, id), F.Item(s, id), code)
  }

  function TaskTimedOut(s: Service, id: int, code: int): Service {
    var consumed := s.(tasks := s.tasks.(timers := s.tasks.timers - multiset{id}));
    if id <= 0 then consumed else Installed(consumed, id, code)
  }

  ghost predicate Possible(s: Service, step: Step) {
    match step
    case MissionTimeout(m) => m in s.cont.timers
    case TaskTimeout(id, code) => id in s.tasks.timers && code != ERR_OK
    case InstallRefused(_, code) => code != ERR_OK
    case _ => true
  }

  ghost function Next(s: Service, step: Step): Service {
    match step
    case Continue(m, callback, device) => s.(cont := Continued(s.cont, m, callback, device))
    case ContinueByInstall(m, callback, device) => s.(cont := ContinuedByInstall(s.cont, m, callback, device))
    case InstallImpossible(m) => s.(cont := Abandoned(s.cont, m))
    case InstallQueried(m, code) => s.(cont := Queried(s.cont, m, code))
    case StartContinuation(m, want) => Started(s, m, want)
    case Completed(m, success) => s.(cont := CompletedBy(s.cont, m, success))
    case MissionTimeout(m) => s.(cont := MissionTimedOut(s.cont, m))
    case BeginInstall(callback, device, launchType, session, reachable, sendOk) =>
      if reachable then s.(tasks := F.Begun(s.tasks, callback, device, launchType, session, sendOk)) else s
    case InstallRefused(id, code) => s.(tasks := Refused(s.tasks, id, code))
    case InstallCompleted(id, code) => Installed(s, id, code)
    case TaskTimeout(id, code) => TaskTimedOut(s, id, code)
    case DeviceOffline(device) => s.(tasks := F.OfflineSwept(s.tasks, device))
  }

  ghost predicate Runs(s: Service, steps: seq<Step>, s': Service)
    decreases |steps|
  {
    if steps == [] then s == s'
    else Possible(s, steps[0]) && Runs(Next(s, steps[0]), steps[1..], s')
  }

  // ------------------------------------------------------- the continuation side

  /** A positive mission in progress has a pending timeout. */
  ghost predicate Armed(s: C.Cont) {
    forall m :: m in s.callbacks && m > 0 ==> m in s.timers
  }

  ghost predicate ContOk(s: C.Cont) {
    C.OnceEach(s) && C.TablesTogether(s) && Armed(s) && s.popped == {}
  }

  lemma PoppedKeeps(s: C.Cont, m: int)
    requires C.OnceEach(s) && C.TablesTogether(s)
    ensures var s1 := C.TimersRemoved(C.Popped(s, m), m); C.OnceEach(s1) && C.TablesTogether(s1)
  {
    C.PopKeeps(s, m);
    C.PopKeepsTables(s, m);
    var s1 := C.Popped(s, m);
    C.AsideKeeps(s1, s1.timers[m := 0], s1.cleanMission);
  }

  lemma NotifiedKeeps(s: C.Cont, m: int, code: int)
    requires C.OnceEach(s) && C.TablesTogether(s) && s.popped == {}
    requires forall x :: x in s.callbacks && x > 0 && x != m ==> x in s.timers
    ensures ContOk(C.Notified(s, m, code))
  {
    PoppedKeeps(s, m);
    if m in s.callbacks {
      C.SendKeeps(C.TimersRemoved(C.Popped(s, m), m), s.callbacks[m], code);
    }
  }

  lemma AbandonedKeeps(s: C.Cont, m: int)
    requires ContOk(s)
    ensures ContOk(Abandoned(s, m))
  {
    PoppedKeeps(s, m);
    if m in s.callbacks {
      C.DiscardKeeps(C.TimersRemoved(C.Popped(s, m), m), s.callbacks[m]);
    }
  }

  lemma PushedKeeps(s: C.Cont, m: int, callback: Remote, device: DeviceId, isFreeInstall: bool)
    requires ContOk(s)
    ensures ContOk(C.TimerSet(C.Pushed(s, m, callback, device, isFreeInstall), m))
  {
    C.PushKeeps(s, m, callback, device, isFreeInstall);
    C.PushKeepsTables(s, m, callback, device, isFreeInstall);
  }

  lemma QueriedKeeps(s: C.Cont, m: int, code: int)
    requires ContOk(s)
    ensures ContOk(Queried(s, m, code))
  {
    if code != ERR_OK {
      NotifiedKeeps(s, m, CONTINUE_REMOTE_UNINSTALLED_CANNOT_FREEINSTALL);
    } else {
      C.AsideKeeps(s, s.timers[m := 0] + multiset{m}, s.cleanMission);
    }
  }

  lemma StartedKeeps(s: Service, m: int, want: Want)
    requires ContOk(s.cont)
    ensures ContOk(Started(s, m, want).cont)
  {
    if want.status != ERR_OK {
      NotifiedKeeps(s.cont, m, want.status);
    } else {
      var s' := Started(s, m, want).cont;
      C.AsideKeeps(s.cont, s'.timers, s'.cleanMission);
    }
  }

  lemma TimedOutKeeps(s: C.Cont, m: int)
    requires ContOk(s)
    ensures ContOk(MissionTimedOut(s, m))
  {
    if m > 0 {
      NotifiedKeeps(C.TimerConsumed(s, m), m, CONTINUE_ABILITY_TIMEOUT_ERR);
    }
  }

  lemma InstalledKeepsCont(s: Service, id: int, code: int)
    requires ContOk(s.cont)
    ensures ContOk(Installed(s, id, code).cont)
  {
    NotifiedKeeps(s.cont, F.MissionOf(s.tasks, id), CONTINUE_FREE_INSTALL_FAILED);
  }

  lemma ContStep(s: Service, step: Step)
    requires ContOk(s.cont) && Possible(s, step)
    ensures ContOk(Next(s, step).cont)
  {
    match step
    case Continue(m, callback, device) => PushedKeeps(s.cont, m, callback, device, false);
    case ContinueByInstall(m, callback, device) => PushedKeeps(s.cont, m, callback, device, true);
    case InstallImpossible(m) => AbandonedKeeps(s.cont, m);
    case InstallQueried(m, code) => QueriedKeeps(s.cont, m, code);
    case StartContinuation(m, want) => StartedKeeps(s, m, want);
    case Completed(m, success) =>
      NotifiedKeeps(s.cont, m, if success then ERR_OK else NOTIFYCOMPLETECONTINUATION_FAILED);
    case MissionTimeout(m) => TimedOutKeeps(s.cont, m);
    case InstallCompleted(id, code) => InstalledKeepsCont(s, id, code);
    case TaskTimeout(id, code) =>
      InstalledKeepsCont(s.(tasks := s.tasks.(timers := s.tasks.timers - multiset{id})), id, code);
    case _ =>
  }

  // -------------------------------------------------------- the free-install side

  lemma BegunKeeps(
    s: F.Tasks, callback: Remote, device: DeviceId, launchType: F.LaunchType, session: int, sendOk: bool)
    requires F.TasksOk(s)
    ensures F.TasksOk(F.Begun(s, callback, device, launchType, session, sendOk))
  {
    var issued := s.(next := F.NextId(s.next));
    assert forall id :: F.ItemOk(s, id) ==> F.ItemOk(issued, id);
    F.PushKeeps(issued, s.next, callback, device, launchType, session, sendOk);
    var pushed := F.Pushed(issued, s.next, callback, device, launchType, session, sendOk);
    MissionsAside(pushed, F.MissionRecorded(pushed, s.next, session).missions);
  }

  lemma MissionsAside(s: F.Tasks, missions: map<int, int>)
    requires F.TasksOk(s)
    ensures F.TasksOk(s.(missions := missions))
  {
    assert forall id :: F.ItemOk(s, id) ==> F.ItemOk(s.(missions := missions), id);
  }

  /** Taking a task out, with or without an answer; nothing happens to one that is not there. */
  lemma RefusedKeeps(s: F.Tasks, id: int, code: int)
    requires F.TasksOk(s)
    ensures F.TasksOk(Refused(s, id, code)) && F.TasksOk(F.Popped(s, id))
  {
    if id in s.callbacks {
      F.AnswerKeeps(s, id, code);
    }
  }

  lemma InstalledKeeps(s: Service, id: int, code: int)
    requires F.TasksOk(s.tasks)
    ensures F.TasksOk(Installed(s, id, code).tasks)
  {
    RefusedKeeps(s.tasks, id, code);
    var popped := F.Popped(s.tasks, id);
    MissionsAside(popped, popped.missions - {id});
  }

  /** A timer that fires was the only one of its task. */
  lemma TimeoutIsCompletion(s: Service, id: int, code: int)
    requires F.TasksOk(s.tasks) && id in s.tasks.timers
    ensures id > 0 && id in s.tasks.callbacks && TaskTimedOut(s, id, code) == Installed(s, id, code)
  {
    assert F.ItemOk(s.tasks, id);
    assert (s.tasks.timers - multiset{id})[id := 0] == s.tasks.timers[id := 0];
  }

  lemma TasksStep(s: Service, step: Step)
    requires F.TasksOk(s.tasks) && Possible(s, step)
    ensures F.TasksOk(Next(s, step).tasks)
  {
    match step
    case StartContinuation(m, want) => BegunKeeps(s.tasks, Null, want.device, F.FREEINSTALL_CONTINUE, m, want.sendOk);
    case BeginInstall(callback, device, launchType, session, reachable, sendOk) =>
      BegunKeeps(s.tasks, callback, device, launchType, session, sendOk);
    case InstallRefused(id, code) => RefusedKeeps(s.tasks, id, code);
    case InstallCompleted(id, code) => InstalledKeeps(s, id, code);
    case TaskTimeout(id, code) =>
      TimeoutIsCompletion(s, id, code);
      InstalledKeeps(s, id, code);
    case DeviceOffline(device) => F.OfflineKeeps(s.tasks, device);
    case _ =>
  }

  // ------------------------------------------------------------------ whole runs

  lemma {:induction false} RunKeeps(s: Service, steps: seq<Step>, s': Service)
    requires ContOk(s.cont) && F.TasksOk(s.tasks) && Runs(s, steps, s')
    ensures ContOk(s'.cont) && F.TasksOk(s'.tasks)
    decreases |steps|
  {
    if steps != [] {
      ContStep(s, steps[0]);
      TasksStep(s, steps[0]);
      RunKeeps(Next(s, steps[0]), steps[1..], s');
    }
  }

  lemma {:induction false} ReachedOk(steps: seq<Step>, s: Service)
    requires Runs(START, steps, s)
    ensures ContOk(s.cont) && F.TasksOk(s.tasks)
  {
    assert forall id :: F.ItemOk(START.tasks, id);
    RunKeeps(START, steps, s);
  }

  /** In every reachable state each push was answered at most once, and to its own callback;
      one still in the table was not answered, and for a positive mission its timeout is
      pending, so it still will be. */
  lemma ContinuationOnce(steps: seq<Step>, s: Service)
    requires Runs(START, steps, s)
    ensures forall i, j :: 0 <= i < j < |s.cont.answers| ==> s.cont.answers[i].place != s.cont.answers[j].place
    ensures forall i :: 0 <= i < |s.cont.answers| ==>
      C.Genuine(s.cont, s.cont.answers[i].place, s.cont.answers[i].callback)
    ensures forall m, i :: m in s.cont.callbacks && 0 <= i < |s.cont.answers| ==>
      s.cont.answers[i].place != s.cont.callbacks[m].place
    ensures forall m :: m in s.cont.callbacks && m > 0 ==> Possible(s, MissionTimeout(m))
  {
    ReachedOk(steps, s);
  }

  /** In every reachable state the live tasks are exactly the ids with a pending timer, which
      is pending once; each item carries its key; no task was answered twice. */
  lemma FreeInstallOnce(steps: seq<Step>, s: Service)
    requires Runs(START, steps, s)
    ensures forall id :: s.tasks.timers[id] == if id in s.tasks.callbacks then 1 else 0
    ensures forall id :: id in s.tasks.callbacks ==> id > 0 && s.tasks.callbacks[id].taskId == id
    ensures forall r :: s.tasks.replies[r] <= 1
    ensures forall r, r' :: r in s.tasks.replies && r' in s.tasks.replies && r != r' ==> r.place != r'.place
    ensures forall r, id :: r in s.tasks.replies && id in s.tasks.callbacks ==>
      s.tasks.callbacks[id].place != r.place
  {
    ReachedOk(steps, s);
    forall id | id in s.tasks.callbacks
      ensures id > 0 && s.tasks.callbacks[id].taskId == id
    {
      assert F.ItemOk(s.tasks, id);
    }
  }

  // ------------------------------------------------------- no callback is lost

  /** Pushes that are neither in the table nor answered. */
  function Unaccounted(s: C.Cont): int {
    |s.history| - |s.callbacks| - |s.answers|
  }

  predicate Abandons(s: Service, step: Step) {
    step.InstallImpossible? && step.mission in s.cont.callbacks
  }

  ghost function Abandonments(s: Service, steps: seq<Step>): nat
    decreases |steps|
  {
    if steps == [] then 0
    else (if Abandons(s, steps[0]) then 1 else 0) + Abandonments(Next(s, steps[0]), steps[1..])
  }

  lemma PopFate(s: C.Cont, m: int)
    ensures Unaccounted(C.Popped(s, m)) == Unaccounted(s) + if m in s.callbacks then 1 else 0
  {
    if m in s.callbacks {
      assert s.callbacks == (s.callbacks - {m})[m := s.callbacks[m]];
    }
  }

  lemma NotifiedFate(s: C.Cont, m: int, code: int)
    ensures Unaccounted(C.Notified(s, m, code)) == Unaccounted(s)
  {
    PopFate(s, m);
  }

  /** Steps that may send a result. */
  lemma ResultFate(s: Service, step: Step)
    requires step.InstallQueried? || step.StartContinuation? || step.Completed? || step.MissionTimeout?
    ensures Unaccounted(Next(s, step).cont) == Unaccounted(s.cont)
  {
    match step
    case InstallQueried(m, code) => NotifiedFate(s.cont, m, CONTINUE_REMOTE_UNINSTALLED_CANNOT_FREEINSTALL);
    case StartContinuation(m, want) => NotifiedFate(s.cont, m, want.status);
    case Completed(m, success) =>
      NotifiedFate(s.cont, m, if success then ERR_OK else NOTIFYCOMPLETECONTINUATION_FAILED);
    case MissionTimeout(m) => NotifiedFate(C.TimerConsumed(s.cont, m), m, CONTINUE_ABILITY_TIMEOUT_ERR);
  }

  lemma InstalledFate(s: Service, id: int, code: int)
    ensures Unaccounted(Installed(s, id, code).cont) == Unaccounted(s.cont)
  {
    NotifiedFate(s.cont, F.MissionOf(s.tasks, id), CONTINUE_FREE_INSTALL_FAILED);
  }

  lemma PushFate(s: C.Cont, m: int, callback: Remote, device: DeviceId, isFreeInstall: bool)
    ensures Unaccounted(C.Pushed(s, m, callback, device, isFreeInstall)) == Unaccounted(s)
  {
  }

  lemma FateStep(s: Service, step: Step)
    ensures Unaccounted(Next(s, step).cont) == Unaccounted(s.cont) + if Abandons(s, step) then 1 else 0
  {
    if step.Continue? || step.ContinueByInstall? {
      PushFate(s.cont, step.mission, step.callback, step.device, step.ContinueByInstall?);
    } else if step.InstallImpossible? {
      PopFate(C.TimersRemoved(s.cont, step.mission), step.mission);
    } else if step.InstallQueried? || step.StartContinuation? || step.Completed? || step.MissionTimeout? {
      ResultFate(s, step);
    } else if step.InstallCompleted? {
      InstalledFate(s, step.id, step.code);
    } else if step.TaskTimeout? {
      InstalledFate(s.(tasks := s.tasks.(timers := s.tasks.timers - multiset{step.id})), step.id, step.code);
    }
  }

  lemma {:induction false} RunFate(s: Service, steps: seq<Step>, s': Service)
    requires Runs(s, steps, s')
    ensures Unaccounted(s'.cont) == Unaccounted(s.cont) + Abandonments(s, steps)
    decreases |steps|
  {
    if steps != [] {
      FateStep(s, steps[0]);
      RunFate(Next(s, steps[0]), steps[1..], s');
    }
  }

  /** Conservation: the successful pushes of a run are those in the table, those answered, and
      those abandoned because the remote device could not be asked. */
  lemma EveryPushAccounted(steps: seq<Step>, s: Service)
    requires Runs(START, steps, s)
    ensures |s.cont.history| == |s.cont.callbacks| + |s.cont.answers| + Abandonments(START, steps)
  {
    RunFate(START, steps, s);
  }

  /** A timeout answers the mission exactly when the mission id is positive. */
  lemma TimeoutAnswersIff(s: Service, m: int)
    requires m in s.cont.callbacks && m in s.cont.timers
    ensures var s' := Next(s, MissionTimeout(m));
      && (m !in s'.cont.callbacks <==> m > 0)
      && s'.cont.answers == s.cont.answers + if m <= 0 then [] else
        [C.Answer(s.cont.callbacks[m].place, s.cont.callbacks[m].callback, CONTINUE_ABILITY_TIMEOUT_ERR)]
  {
  }

  // ------------------------------------------- an installation and its mission

  /** The mission of each live continuation task is the one recorded for it. */
  ghost predicate MissionsOk(s: F.Tasks) {
    && (forall id :: id in s.missions ==> id < s.next)
    && (forall id :: id in s.callbacks ==> id < s.next && MissionKept(s, id))
  }

  predicate MissionKept(s: F.Tasks, id: int)
    requires id in s.callbacks
  {
    var item := s.callbacks[id];
    if item.launchType.FREEINSTALL_CONTINUE? && item.sessionId > 0
    then id in s.missions && s.missions[id] == item.sessionId else id !in s.missions
  }

  lemma BegunMissions(
    s: F.Tasks, callback: Remote, device: DeviceId, launchType: F.LaunchType, session: int, sendOk: bool)
    requires MissionsOk(s) && 0 < s.next < F.INT64_MAX
    ensures MissionsOk(F.Begun(s, callback, device, launchType, session, sendOk))
  {
    var s' := F.Begun(s, callback, device, launchType, session, sendOk);
    forall id | id in s'.callbacks
      ensures id < s'.next && MissionKept(s', id)
    {
      if id != s.next {
        assert MissionKept(s, id);
      }
    }
  }

  /** Tasks that go without their missions do no harm. */
  lemma FewerTasks(s: F.Tasks, s': F.Tasks)
    requires MissionsOk(s) && s'.missions == s.missions && s'.next == s.next
    requires forall id :: id in s'.callbacks ==> id in s.callbacks && s'.callbacks[id] == s.callbacks[id]
    ensures MissionsOk(s')
  {
    forall id | id in s'.callbacks
      ensures MissionKept(s', id)
    {
      assert MissionKept(s, id);
    }
  }

  /** A task that goes may take its mission along. */
  lemma TaskAndMission(s: F.Tasks, s': F.Tasks, id: int)
    requires MissionsOk(s) && s'.next == s.next && s'.callbacks == s.callbacks - {id} &&
      s'.missions == s.missions - {id}
    ensures MissionsOk(s')
  {
    forall x | x in s'.callbacks
      ensures MissionKept(s', x)
    {
      assert MissionKept(s, x);
    }
  }

  lemma InstalledMissions(s: Service, id: int, code: int)
    requires MissionsOk(s.tasks)
    ensures MissionsOk(Installed(s, id, code).tasks) && Installed(s, id, code).tasks.next == s.tasks.next
  {
    var tasks := Installed(s, id, code).tasks;
    if F.LaunchTypeOf(s.tasks, id).FREEINSTALL_START? {
      FewerTasks(s.tasks, tasks);
    } else {
      TaskAndMission(s.tasks, tasks, id);
    }
  }

  lemma StartedMissions(s: Service, m: int, want: Want)
    requires MissionsOk(s.tasks) && 0 < s.tasks.next < F.INT64_MAX
    ensures var tasks := Started(s, m, want).tasks; MissionsOk(tasks) && s.tasks.next <= tasks.next <= s.tasks.next + 1
  {
    BegunMissions(s.tasks, Null, want.device, F.FREEINSTALL_CONTINUE, m, want.sendOk);
  }

  lemma MissionsStep(s: Service, step: Step)
    requires MissionsOk(s.tasks) && 0 < s.tasks.next < F.INT64_MAX && Possible(s, step)
    ensures MissionsOk(Next(s, step).tasks) && s.tasks.next <= Next(s, step).tasks.next <= s.tasks.next + 1
  {
    if step.StartContinuation? {
      StartedMissions(s, step.mission, step.want);
    } else if step.BeginInstall? {
      BegunMissions(s.tasks, step.callback, step.to, step.launchType, step.session, step.sendOk);
    } else if step.InstallCompleted? {
      InstalledMissions(s, step.id, step.code);
    } else if step.TaskTimeout? {
      var consumed := s.(tasks := s.tasks.(timers := s.tasks.timers - multiset{step.id}));
      FewerTasks(s.tasks, consumed.tasks);
      InstalledMissions(consumed, step.id, step.code);
    } else if step.InstallRefused? {
      FewerTasks(s.tasks, Refused(s.tasks, step.id, step.code));
    } else if step.DeviceOffline? {
      FewerTasks(s.tasks, F.OfflineSwept(s.tasks, step.device));
    }
  }

  lemma {:induction false} RunMissions(s: Service, steps: seq<Step>, s': Service)
    requires MissionsOk(s.tasks) && 0 < s.tasks.next && s.tasks.next + |steps| <= F.INT64_MAX && Runs(s, steps, s')
    ensures MissionsOk(s'.tasks)
    decreases |steps|
  {
    if steps != [] {
      MissionsStep(s, steps[0]);
      RunMissions(Next(s, steps[0]), steps[1..], s');
    }
  }

  /** While the task ids have not wrapped: a continuation whose installation fails is answered
      through the mission of its own task. Without a positive session there is none, and the
      error code of the look-up is taken for the mission. */
  lemma FailedInstallAnswers(steps: seq<Step>, s: Service, id: int, code: int)
    requires Runs(START, steps, s) && |steps| < F.INT64_MAX
    requires id in s.tasks.callbacks && s.tasks.callbacks[id].launchType.FREEINSTALL_CONTINUE? && code != ERR_OK
    ensures var session := s.tasks.callbacks[id].sessionId;
      Next(s, InstallCompleted(id, code)).cont ==
        C.Notified(s.cont, if session > 0 then session else INVALID_PARAMETERS_ERR, CONTINUE_FREE_INSTALL_FAILED)
  {
    ReachedOk(steps, s);
    RunMissions(START, steps, s);
    assert F.ItemOk(s.tasks, id);
    assert MissionKept(s.tasks, id);
  }
}
