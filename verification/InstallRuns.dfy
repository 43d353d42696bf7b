/**
 The free-install tracker and the continuation tracker under every interleaving of sections.

 A start issues an id, enters the task, records the mission and asks the remote device. A
 completion, from the remote device or from a timer that fired, reads the launch type, takes
 the task out, and then replies, or looks up the mission, reports to it and forgets the entry.
 Each of these is a section of its own, and anything may come in between; the offline sweep
 is one section. A report is an operation of the continuation tracker, whose own sections
 are the steps of `ContinuationRuns`.

 `sessions` remembers the session of every id that was issued; the code does not keep it.
 */
module InstallRuns {
  import opened Codes
  import opened Sessions
  import CR = ContinuationRuns
  import F = FreeInstall

  datatype Op =
    | Issued(task: int, callback: Remote, device: DeviceId, launchType: F.LaunchType, session: int)
    | Recording(task: int, session: int)
    | Asking(task: int)
    | Refusing(task: int, code: int)
    | Reading(task: int, code: int, fired: bool)
    | Taking(task: int, code: int, fired: bool, launchType: F.LaunchType)
    | Replying(item: F.TaskItem, code: int)
    | Resolving(task: int)
    | Naming(task: int, mission: int)
    | Waiting(task: int, mission: int, report: nat)
    | Forgetting(task: int)

  datatype State = State(cont: CR.State, tasks: F.Tasks, ops: map<nat, Op>, sessions: map<int, int>)

  const START: State := State(CR.START, F.START, map[], map[])

  datatype Step =
    | ContStep(step: CR.Step)
    | Issue(id: nat, callback: Remote, device: DeviceId, launchType: F.LaunchType, session: int)
    | Enter(id: nat, sendOk: bool)
    | Record(id: nat)
    | Agreed(id: nat)
    | Refuse(id: nat, code: int)
    | Complete(id: nat, task: int, code: int)
    | Fire(id: nat, task: int, code: int)
    | Read(id: nat)
    | Take(id: nat)
    | Reply(id: nat)
    | Resolve(id: nat)
    | Report(id: nat, report: nat)
    | Reported(id: nat)
    | Forget(id: nat)
    | Offline(device: DeviceId)

  /** Names of reports under way are not given to new operations of the continuation tracker. */
  predicate ReportOf(s: State, report: nat) {
    exists id :: id in s.ops && s.ops[id].Waiting? && s.ops[id].report == report
  }

  predicate Enabled(s: State, step: Step) {
    match step
    case ContStep(x) => CR.Enabled(s.cont, x) && (CR.Begins(x) ==> !ReportOf(s, x.id))
    case Issue(id, _, _, _, _) => id !in s.ops
    case Enter(id, _) => id in s.ops && s.ops[id].Issued?
    case Record(id) => id in s.ops && s.ops[id].Recording?
    case Agreed(id) => id in s.ops && s.ops[id].Asking?
    case Refuse(id, code) => id in s.ops && s.ops[id].Asking? && code != ERR_OK
    case Complete(id, _, _) => id !in s.ops
    case Fire(id, task, code) => id !in s.ops && task in s.tasks.timers && code != ERR_OK
    case Read(id) => id in s.ops && s.ops[id].Reading?
    case Take(id) => id in s.ops && (s.ops[id].Taking? || s.ops[id].Refusing?)
    case Reply(id) => id in s.ops && s.ops[id].Replying?
    case Resolve(id) => id in s.ops && s.ops[id].Resolving?
    case Report(id, r) => id in s.ops && s.ops[id].Naming? && r !in s.cont.ops && !ReportOf(s, r)
    case Reported(id) => id in s.ops && s.ops[id].Waiting? && s.ops[id].report !in s.cont.ops
    case Forget(id) => id in s.ops && s.ops[id].Forgetting?
    case Offline(_) => true
  }

  function Entered(s: State, id: nat, op: Op, sendOk: bool): State
    requires op.Issued?
  {
    var tasks := F.Pushed(s.tasks, op.task, op.callback, op.device, op.launchType, op.session, sendOk);
    var next := if op.launchType.FREEINSTALL_CONTINUE? then Recording(op.task, op.session) else Asking(op.task);
    s.(tasks := tasks,
       ops := if F.PushAllowed(s.tasks, op.task, op.callback, op.launchType, sendOk) then s.ops[id := next]
         else s.ops - {id})
  }

  /** What follows when the task was taken out, or was not there. */
  function AfterTake(s: State, op: Op): Op
    requires op.Taking? || op.Refusing?
  {
    if op.Refusing? || op.launchType.FREEINSTALL_START? then Replying(F.Item(s.tasks, op.task), op.code)
    else if op.code == ERR_OK then Forgetting(op.task)
    else Resolving(op.task)
  }

  function Taken(s: State, id: nat, op: Op): State
    requires op.Taking? || op.Refusing?
  {
    s.(tasks := F.Popped(s.tasks, op.task), ops := s.ops[id := AfterTake(s, op)])
  }

  function FiredAt(s: State, id: nat, task: int, code: int): State {
    s.(tasks := s.tasks.(timers := s.tasks.timers - multiset{task}),
       ops := if task <= 0 then s.ops else s.ops[id := Reading(task, code, true)])
  }

  function ReportBegun(s: State, id: nat, op: Op, r: nat): State
    requires op.Naming? && r !in s.cont.ops
  {
    s.(cont := CR.Apply(s.cont, CR.BeginResult(r, op.mission, CONTINUE_FREE_INSTALL_FAILED)),
       ops := s.ops[id := Waiting(op.task, op.mission, r)])
  }

  ghost function Apply(s: State, step: Step): State
    requires Enabled(s, step)
  {
    match step
    case ContStep(x) => s.(cont := CR.Apply(s.cont, x))
    case Issue(id, callback, device, launchType, session) =>
      s.(tasks := s.tasks.(next := F.NextId(s.tasks.next)), sessions := s.sessions[s.tasks.next := session],
         ops := s.ops[id := Issued(s.tasks.next, callback, device, launchType, session)])
    case Enter(id, sendOk) => Entered(s, id, s.ops[id], sendOk)
    case Record(id) =>
      s.(tasks := F.MissionRecorded(s.tasks, s.ops[id].task, s.ops[id].session),
         ops := s.ops[id := Asking(s.ops[id].task)])
    case Agreed(id) => s.(ops := s.ops - {id})
    case Refuse(id, code) => s.(ops := s.ops[id := Refusing(s.ops[id].task, code)])
    case Complete(id, task, code) => s.(ops := s.ops[id := Reading(task, code, false)])
    case Fire(id, task, code) => FiredAt(s, id, task, code)
    case Read(id) =>
      var op := s.ops[id];
      s.(ops := s.ops[id := Taking(op.task, op.code, op.fired, F.LaunchTypeOf(s.tasks, op.task))])
    case Take(id) => Taken(s, id, s.ops[id])
    case Reply(id) => s.(tasks := F.Replied(s.tasks, s.ops[id].item, s.ops[id].code), ops := s.ops - {id})
    case Resolve(id) =>
      s.(ops := s.ops[id := Naming(s.ops[id].task, F.MissionOf(s.tasks, s.ops[id].task))])
    case Report(id, r) => ReportBegun(s, id, s.ops[id], r)
    case Reported(id) => s.(ops := s.ops[id := Forgetting(s.ops[id].task)])
    case Forget(id) => s.(tasks := F.MissionForgotten(s.tasks, s.ops[id].task), ops := s.ops - {id})
    case Offline(device) => s.(tasks := F.OfflineSwept(s.tasks, device))
  }

  ghost predicate StepAt(states: seq<State>, steps: seq<Step>, i: nat)
    requires |states| == |steps| + 1 && i < |steps|
  {
    Enabled(states[i], steps[i]) && states[i + 1] == Apply(states[i], steps[i])
  }

  /** `states` are the states visited, the first one included. */
  ghost predicate IsRun(states: seq<State>, steps: seq<Step>) {
    |states| == |steps| + 1 && forall i :: 0 <= i < |steps| ==> StepAt(states, steps, i)
  }

  // ------------------------------------------------------- one reply for each task

  /** An operation is about to reply for the task of this place. */
  predicate Holds(s: State, id: nat, p: int) {
    id in s.ops && s.ops[id].Replying? && !s.ops[id].item.callback.Null? && s.ops[id].item.place == p
  }

  /** What is about to be answered is not in the table, was not answered, and has one operation. */
  ghost predicate HeldApart(s: State) {
    && (forall id, p :: Holds(s, id, p) ==> p < s.tasks.pushes)
    && (forall id, p, t :: Holds(s, id, p) && t in s.tasks.callbacks ==> s.tasks.callbacks[t].place != p)
    && (forall id, p, r :: Holds(s, id, p) && r in s.tasks.replies ==> r.place != p)
    && (forall id, id', p :: Holds(s, id, p) && Holds(s, id', p) ==> id == id')
  }

  ghost predicate RepliesOk(s: State) {
    F.Placed(s.tasks) && HeldApart(s)
  }

  lemma AsidePlaced(s: F.Tasks, s': F.Tasks)
    requires F.Placed(s) && s'.callbacks == s.callbacks && s'.pushes == s.pushes && s'.replies == s.replies
    ensures F.Placed(s')
  {
    assert forall id :: F.ItemOk(s, id) ==> F.ItemOk(s', id);
  }

  /** Nothing changes but timers, missions, the counter and operations that hold nothing. */
  lemma AsideReplies(s: State, s': State)
    requires RepliesOk(s) && s'.tasks.callbacks == s.tasks.callbacks && s'.tasks.pushes == s.tasks.pushes
    requires s'.tasks.replies == s.tasks.replies
    requires forall id, p :: Holds(s', id, p) ==> Holds(s, id, p)
    ensures RepliesOk(s')
  {
    AsidePlaced(s.tasks, s'.tasks);
  }

  lemma EnterReplies(s: State, id: nat, op: Op, sendOk: bool)
    requires RepliesOk(s) && id in s.ops && op.Issued?
    ensures RepliesOk(Entered(s, id, op, sendOk))
  {
    F.PushPlaced(s.tasks, op.task, op.callback, op.device, op.launchType, op.session, sendOk);
    var s' := Entered(s, id, op, sendOk);
    assert forall i, p :: Holds(s', i, p) ==> Holds(s, i, p);
  }

  lemma TakeReplies(s: State, id: nat, op: Op)
    requires RepliesOk(s) && id in s.ops && s.ops[id] == op && (op.Taking? || op.Refusing?)
    ensures RepliesOk(Taken(s, id, op))
  {
    F.PopPlaced(s.tasks, op.task);
    var s' := Taken(s, id, op);
    assert F.ItemOk(s.tasks, op.task);
    forall i, p | Holds(s', i, p)
      ensures if i == id then op.task in s.tasks.callbacks && s.tasks.callbacks[op.task].place == p else Holds(s, i, p)
    {
    }
  }

  lemma ReplyReplies(s: State, id: nat)
    requires RepliesOk(s) && Enabled(s, Reply(id))
    ensures RepliesOk(Apply(s, Reply(id)))
  {
    var s', item := Apply(s, Reply(id)), s.ops[id].item;
    forall x
      ensures F.ItemOk(s'.tasks, x)
    {
      assert F.ItemOk(s.tasks, x);
    }
    if !item.callback.Null? {
      assert Holds(s, id, item.place);
    }
    forall i, p | Holds(s', i, p)
      ensures Holds(s, i, p) && (item.callback.Null? || p != item.place)
    {
      OtherHolds(s, i, p, id);
    }
  }

  lemma OtherHolds(s: State, i: nat, p: int, id: nat)
    requires HeldApart(s) && Holds(s, i, p) && id in s.ops && s.ops[id].Replying? && i != id
    ensures s.ops[id].item.callback.Null? || p != s.ops[id].item.place
  {
    assert Holds(s, id, p) ==> i == id;
  }

  lemma OfflineReplies(s: State, device: DeviceId)
    requires RepliesOk(s)
    ensures RepliesOk(Apply(s, Offline(device)))
  {
    F.OfflinePlaced(s.tasks, device);
    var s' := Apply(s, Offline(device));
    var added := F.RepliesFor(s.tasks.callbacks, F.TasksOn(s.tasks, device), DEVICE_OFFLINE_ERR);
    forall i, p, r | Holds(s', i, p) && r in s'.tasks.replies
      ensures r.place != p
    {
      assert Holds(s, i, p);
      if r in added {
        var t := F.SweptReply(s.tasks, device, r);
      }
    }
    assert forall i, p :: Holds(s', i, p) ==> Holds(s, i, p);
  }

  lemma StepReplies(s: State, step: Step)
    requires RepliesOk(s) && Enabled(s, step)
    ensures RepliesOk(Apply(s, step))
  {
    if step.Enter? {
      EnterReplies(s, step.id, s.ops[step.id], step.sendOk);
    } else if step.Take? {
      TakeReplies(s, step.id, s.ops[step.id]);
    } else if step.Reply? {
      ReplyReplies(s, step.id);
    } else if step.Offline? {
      OfflineReplies(s, step.device);
    } else {
      QuietReplies(s, step);
    }
  }

  lemma QuietHolds(s: State, step: Step)
    requires Enabled(s, step) && !step.Enter? && !step.Take? && !step.Reply? && !step.Offline?
    ensures forall id, p :: Holds(Apply(s, step), id, p) ==> Holds(s, id, p)
  {
  }

  lemma QuietReplies(s: State, step: Step)
    requires RepliesOk(s) && Enabled(s, step) && !step.Enter? && !step.Take? && !step.Reply? && !step.Offline?
    ensures RepliesOk(Apply(s, step))
  {
    QuietHolds(s, step);
    AsideReplies(s, Apply(s, step));
  }

  lemma {:induction false} RunReplies(states: seq<State>, steps: seq<Step>, n: nat)
    requires IsRun(states, steps) && states[0] == START && n <= |steps|
    ensures RepliesOk(states[n])
  {
    if n == 0 {
      assert forall id :: F.ItemOk(START.tasks, id);
    } else {
      RunReplies(states, steps, n - 1);
      assert StepAt(states, steps, n - 1);
      StepReplies(states[n - 1], steps[n - 1]);
    }
  }

  /** Over every interleaving: each task that was entered is answered at most once, and not while
      it is in the table; each item carries its key. */
  lemma RepliedOnce(states: seq<State>, steps: seq<Step>, n: nat)
    requires IsRun(states, steps) && states[0] == START && n <= |steps|
    ensures var s := states[n].tasks;
      && (forall r :: s.replies[r] <= 1)
      && (forall r, r' :: r in s.replies && r' in s.replies && r != r' ==> r.place != r'.place)
      && (forall r, t :: r in s.replies && t in s.callbacks ==> s.callbacks[t].place != r.place)
      && (forall t :: t in s.callbacks ==> t > 0 && s.callbacks[t].taskId == t)
  {
    RunReplies(states, steps, n);
    forall t | t in states[n].tasks.callbacks
      ensures t > 0 && states[n].tasks.callbacks[t].taskId == t
    {
      assert F.ItemOk(states[n].tasks, t);
    }
  }

  // -------------------------------------------------------------------- the timers

  /** The event of the task's timer was fired and will take the task out. */
  ghost predicate FiredFor(s: State, t: int) {
    exists id :: id in s.ops && (s.ops[id].Reading? || s.ops[id].Taking?) && s.ops[id].fired && s.ops[id].task == t
  }

  /** A live task has its one timer pending, or its fired event is under way; others have none. */
  ghost predicate TimerOk(s: State, t: int) {
    && s.tasks.timers[t] <= 1
    && (t in s.tasks.timers ==> t in s.tasks.callbacks)
    && (t in s.tasks.callbacks ==> t > 0 && (t in s.tasks.timers || FiredFor(s, t)))
  }

  lemma StillFired(s: State, s': State, id: nat, t: int)
    requires FiredFor(s, t)
    requires id in s.ops && (s.ops[id].Reading? || s.ops[id].Taking?) ==> s.ops[id].task != t
    requires forall i :: i in s.ops && i != id ==> i in s'.ops && s'.ops[i] == s.ops[i]
    ensures FiredFor(s', t)
  {
    var i :| i in s.ops && (s.ops[i].Reading? || s.ops[i].Taking?) && s.ops[i].fired && s.ops[i].task == t;
    assert s'.ops[i] == s.ops[i];
  }

  lemma FireTimer(s: State, id: nat, task: int, code: int, t: int)
    requires Enabled(s, Fire(id, task, code)) && TimerOk(s, t)
    ensures TimerOk(FiredAt(s, id, task, code), t)
  {
    var s' := FiredAt(s, id, task, code);
    if t == task && t > 0 {
      assert s'.ops[id].Reading? && s'.ops[id].fired && s'.ops[id].task == t;
    } else if FiredFor(s, t) {
      StillFired(s, s', id, t);
    }
  }

  lemma ReadTimer(s: State, id: nat, t: int)
    requires Enabled(s, Read(id)) && TimerOk(s, t)
    ensures TimerOk(Apply(s, Read(id)), t)
  {
    var s' := Apply(s, Read(id));
    if FiredFor(s, t) {
      if s.ops[id].task == t {
        var i :| i in s.ops && (s.ops[i].Reading? || s.ops[i].Taking?) && s.ops[i].fired && s.ops[i].task == t;
        assert i in s'.ops && (s'.ops[i].Reading? || s'.ops[i].Taking?) && s'.ops[i].fired && s'.ops[i].task == t;
      } else {
        StillFired(s, s', id, t);
      }
    }
  }

  lemma TakeTimer(s: State, id: nat, t: int)
    requires Enabled(s, Take(id)) && TimerOk(s, t)
    ensures TimerOk(Apply(s, Take(id)), t)
  {
    if t != s.ops[id].task && FiredFor(s, t) {
      StillFired(s, Apply(s, Take(id)), id, t);
    }
  }

  lemma EnterTimer(s: State, id: nat, sendOk: bool, t: int)
    requires Enabled(s, Enter(id, sendOk)) && TimerOk(s, t)
    ensures TimerOk(Apply(s, Enter(id, sendOk)), t)
  {
    if FiredFor(s, t) {
      StillFired(s, Apply(s, Enter(id, sendOk)), id, t);
    }
  }

  lemma OfflineTimer(s: State, device: DeviceId, t: int)
    requires TimerOk(s, t)
    ensures TimerOk(Apply(s, Offline(device)), t)
  {
    assert FiredFor(s, t) ==> FiredFor(Apply(s, Offline(device)), t);
  }

  lemma OtherTimer(s: State, step: Step, t: int)
    requires Enabled(s, step) && TimerOk(s, t)
    requires !step.Fire? && !step.Read? && !step.Take? && !step.Enter? && !step.Offline?
    ensures TimerOk(Apply(s, step), t)
  {
    if FiredFor(s, t) {
      var s' := Apply(s, step);
      if step.ContStep? {
        assert s'.ops == s.ops;
      } else {
        StillFired(s, s', step.id, t);
      }
    }
  }

  lemma StepTimer(s: State, step: Step, t: int)
    requires Enabled(s, step) && TimerOk(s, t)
    ensures TimerOk(Apply(s, step), t)
  {
    if step.Fire? {
      FireTimer(s, step.id, step.task, step.code, t);
    } else if step.Read? {
      ReadTimer(s, step.id, t);
    } else if step.Take? {
      TakeTimer(s, step.id, t);
    } else if step.Enter? {
      EnterTimer(s, step.id, step.sendOk, t);
    } else if step.Offline? {
      OfflineTimer(s, step.device, t);
    } else {
      OtherTimer(s, step, t);
    }
  }

  /** Over every interleaving: a pending timer is pending once and belongs to a live task, and a
      live task has a pending timer or its fired event is under way. */
  lemma {:induction false} LiveTasksAreTimed(states: seq<State>, steps: seq<Step>, n: nat, t: int)
    requires IsRun(states, steps) && states[0] == START && n <= |steps|
    ensures states[n].tasks.timers[t] <= 1
    ensures t in states[n].tasks.timers ==> t in states[n].tasks.callbacks
    ensures t in states[n].tasks.callbacks ==> t > 0 && (t in states[n].tasks.timers || FiredFor(states[n], t))
  {
    if n > 0 {
      LiveTasksAreTimed(states, steps, n - 1, t);
      assert StepAt(states, steps, n - 1);
      StepTimer(states[n - 1], steps[n - 1], t);
    }
  }

  // ------------------------------------------------------ a task is taken out once

  predicate Live(s: State, t: int, p: nat) {
    t in s.tasks.callbacks && s.tasks.callbacks[t].place == p
  }

  /** The steps that can take a task out. */
  predicate Takes(s: State, step: Step, t: int)
    requires t in s.tasks.callbacks
  {
    || (step.Take? && step.id in s.ops && (s.ops[step.id].Taking? || s.ops[step.id].Refusing?) &&
      s.ops[step.id].task == t)
    || (step.Offline? && step.device == s.tasks.callbacks[t].deviceId)
  }

  /** A live task goes exactly by a take of a completion or refusal for it, or with its device. */
  lemma TakenIff(s: State, step: Step, t: int)
    requires Enabled(s, step) && t in s.tasks.callbacks
    ensures t !in Apply(s, step).tasks.callbacks <==> Takes(s, step, t)
    ensures !Takes(s, step, t) ==> Apply(s, step).tasks.callbacks[t] == s.tasks.callbacks[t]
  {
  }

  lemma PlaceStep(s: State, step: Step, s': State, t: int, p: nat)
    requires Enabled(s, step) && s' == Apply(s, step) && p < s.tasks.pushes && Live(s', t, p)
    ensures Live(s, t, p)
  {
  }

  lemma PushesStep(s: State, step: Step, s': State)
    requires Enabled(s, step) && s' == Apply(s, step)
    ensures s.tasks.pushes <= s'.tasks.pushes
  {
  }

  /** A task that was taken out never comes back: whatever is entered later is another one. */
  lemma {:induction false} TakenForGood(states: seq<State>, steps: seq<Step>, i: nat, n: nat, t: int, p: nat)
    requires IsRun(states, steps) && i <= n <= |steps| && p < states[i].tasks.pushes && !Live(states[i], t, p)
    ensures !Live(states[n], t, p) && states[i].tasks.pushes <= states[n].tasks.pushes
    decreases n
  {
    if i < n {
      TakenForGood(states, steps, i, n - 1, t, p);
      assert StepAt(states, steps, n - 1);
      PushesStep(states[n - 1], steps[n - 1], states[n]);
      if Live(states[n], t, p) {
        PlaceStep(states[n - 1], steps[n - 1], states[n], t, p);
      }
    }
  }
}
