/**
 What completions of a free install report to missions, over every interleaving of sections:
 when one that comes too late reports at all, to which mission, and which push it answers.
 */
module InstallReports {
  import opened Codes
  import opened Sessions
  import C = Continuation
  import CR = ContinuationRuns
  import F = FreeInstall
  import opened InstallRuns

  // ------------------------------------------------ a completion that comes too late

  /** At step i the completion `id`, which is the same operation until n, read that the task was
      there and belongs to a continuation. */
  predicate ReadLive(states: seq<State>, steps: seq<Step>, i: nat, n: nat, id: nat, t: int)
    requires |states| == |steps| + 1 && n <= |steps|
  {
    && i < n && steps[i] == Read(id)
    && t > 0 && t in states[i].tasks.callbacks && states[i].tasks.callbacks[t].launchType.FREEINSTALL_CONTINUE?
    && forall k :: i < k <= n ==> id in states[k].ops && states[k].ops[id].Taking? && states[k].ops[id].task == t
  }

  lemma TakingStep(s: State, step: Step, s': State, id: nat)
    requires Enabled(s, step) && s' == Apply(s, step) && id in s'.ops && s'.ops[id].Taking?
    ensures id in s.ops && if step == Read(id)
      then s.ops[id].Reading? && s'.ops[id].task == s.ops[id].task &&
        s'.ops[id].launchType == F.LaunchTypeOf(s.tasks, s.ops[id].task)
      else s.ops[id] == s'.ops[id]
  {
  }

  /** A completion that holds the launch type of a continuation read it from the live task. */
  lemma {:induction false} ReadBefore(states: seq<State>, steps: seq<Step>, n: nat, id: nat) returns (i: nat)
    requires IsRun(states, steps) && states[0] == START && n <= |steps|
    requires id in states[n].ops && states[n].ops[id].Taking? && states[n].ops[id].launchType.FREEINSTALL_CONTINUE?
    ensures ReadLive(states, steps, i, n, id, states[n].ops[id].task)
  {
    assert n > 0;
    assert StepAt(states, steps, n - 1);
    TakingStep(states[n - 1], steps[n - 1], states[n], id);
    if steps[n - 1] == Read(id) {
      i := n - 1;
    } else {
      i := ReadBefore(states, steps, n - 1, id);
    }
  }

  lemma {:induction false} ReadDecides(states: seq<State>, steps: seq<Step>, i: nat, n: nat, id: nat, t: int)
    requires IsRun(states, steps) && n <= |steps| && ReadLive(states, steps, i, n, id, t)
    ensures states[n].ops[id].launchType.FREEINSTALL_CONTINUE?
    decreases n
  {
    assert StepAt(states, steps, n - 1);
    TakingStep(states[n - 1], steps[n - 1], states[n], id);
    if i < n - 1 {
      ReadDecides(states, steps, i, n - 1, id, t);
    }
  }

  /** The exact condition for a completion that takes nothing out: it goes on to report to a
      mission if and only if its code is an error and it had read, while the task was still
      there, that the task belongs to a continuation. Otherwise it sends nothing. */
  lemma LateReportIff(states: seq<State>, steps: seq<Step>, n: nat, id: nat)
    requires IsRun(states, steps) && states[0] == START && n < |steps| && steps[n] == Take(id)
    requires id in states[n].ops && states[n].ops[id].Taking? && states[n].ops[id].task !in states[n].tasks.callbacks
    ensures var op := states[n].ops[id];
      && states[n + 1].tasks == states[n].tasks && id in states[n + 1].ops
      && (states[n + 1].ops[id].Resolving? <==>
        op.code != ERR_OK && exists i: nat :: ReadLive(states, steps, i, n, id, op.task))
      && (!states[n + 1].ops[id].Resolving? ==>
        states[n + 1].ops[id].Forgetting? || states[n + 1].ops[id] == Replying(F.NO_ITEM, op.code))
  {
    assert StepAt(states, steps, n);
    var op := states[n].ops[id];
    if op.launchType.FREEINSTALL_CONTINUE? {
      var i := ReadBefore(states, steps, n, id);
    }
    if i: nat :| ReadLive(states, steps, i, n, id, op.task) {
      ReadDecides(states, steps, i, n, id, op.task);
    }
  }

  /** And then another step took the task out between the read and the take. */
  lemma {:induction false} TakenBetween(states: seq<State>, steps: seq<Step>, i: nat, n: nat, t: int) returns (k: nat)
    requires IsRun(states, steps) && i < n <= |steps|
    requires t in states[i].tasks.callbacks && t !in states[n].tasks.callbacks
    ensures i <= k < n && t in states[k].tasks.callbacks && Takes(states[k], steps[k], t)
    decreases n - i
  {
    assert StepAt(states, steps, i);
    TakenIff(states[i], steps[i], t);
    if t in states[i + 1].tasks.callbacks {
      k := TakenBetween(states, steps, i + 1, n, t);
    } else {
      k := i;
    }
  }

  // ------------------------------------------------------- what the report answers

  /** The operation of the continuation tracker belongs to a report to this mission. */
  predicate IsReport(op: CR.Op, m: int) {
    match op
    case Looking(m', code) => m' == m && code == CONTINUE_FREE_INSTALL_FAILED
    case Popping(m', code) => m' == m && code == CONTINUE_FREE_INSTALL_FAILED
    case Clearing(m', code, _, _) => m' == m && code == CONTINUE_FREE_INSTALL_FAILED
    case Sending(_, code) => code == CONTINUE_FREE_INSTALL_FAILED
    case _ => false
  }

  ghost predicate ReportsOk(s: State) {
    && (forall id :: id in s.ops && s.ops[id].Waiting? && s.ops[id].report in s.cont.ops ==>
      IsReport(s.cont.ops[s.ops[id].report], s.ops[id].mission))
    && (forall id, id' :: id in s.ops && id' in s.ops && s.ops[id].Waiting? && s.ops[id'].Waiting? && id != id' ==>
      s.ops[id].report != s.ops[id'].report)
  }

  lemma ContOpStep(s: CR.State, step: CR.Step, r: nat, m: int)
    requires CR.Enabled(s, step) && r in s.ops && IsReport(s.ops[r], m) && r in CR.Apply(s, step).ops
    ensures IsReport(CR.Apply(s, step).ops[r], m)
  {
  }

  lemma ContReports(s: State, step: CR.Step)
    requires ReportsOk(s) && Enabled(s, ContStep(step))
    ensures ReportsOk(Apply(s, ContStep(step)))
  {
    var s' := Apply(s, ContStep(step));
    forall id | id in s'.ops && s'.ops[id].Waiting? && s'.ops[id].report in s'.cont.ops
      ensures IsReport(s'.cont.ops[s'.ops[id].report], s'.ops[id].mission)
    {
      assert ReportOf(s, s.ops[id].report);
      ContOpStep(s.cont, step, s.ops[id].report, s.ops[id].mission);
    }
  }

  lemma StepReports(s: State, step: Step)
    requires ReportsOk(s) && Enabled(s, step)
    ensures ReportsOk(Apply(s, step))
  {
    if step.ContStep? {
      ContReports(s, step.step);
    } else if step.Report? {
      assert forall id :: id in s.ops && s.ops[id].Waiting? ==> ReportOf(s, s.ops[id].report);
    }
  }

  lemma StepContOnce(s: State, step: Step)
    requires CR.Once(s.cont) && Enabled(s, step)
    ensures CR.Once(Apply(s, step).cont)
  {
    if step.ContStep? {
      CR.StepOnce(s.cont, step.step);
    } else if step.Report? {
      CR.StepOnce(s.cont, CR.BeginResult(step.report, s.ops[step.id].mission, CONTINUE_FREE_INSTALL_FAILED));
    }
  }

  lemma {:induction false} RunReports(states: seq<State>, steps: seq<Step>, n: nat)
    requires IsRun(states, steps) && states[0] == START && n <= |steps|
    ensures ReportsOk(states[n]) && CR.Once(states[n].cont)
  {
    if n > 0 {
      RunReports(states, steps, n - 1);
      assert StepAt(states, steps, n - 1);
      StepReports(states[n - 1], steps[n - 1]);
      StepContOnce(states[n - 1], steps[n - 1]);
    }
  }

  function Table(s: State): map<int, C.Push> {
    s.cont.cont.callbacks
  }

  lemma PushStep(s: State, step: Step, s': State, m: int)
    requires Enabled(s, step) && s' == Apply(s, step) && m in Table(s')
    ensures (m in Table(s) && Table(s)[m] == Table(s')[m]) || Table(s')[m].place == |s.cont.cont.history|
  {
    if step.ContStep? {
      CR.PushStep(s.cont, step.step, s'.cont, m);
    }
  }

  lemma HistoryStep(s: State, step: Step, s': State)
    requires Enabled(s, step) && s' == Apply(s, step)
    ensures |s.cont.cont.history| <= |s'.cont.cont.history|
  {
    if step.ContStep? {
      CR.HistoryStep(s.cont, step.step, s'.cont);
    }
  }

  lemma {:induction false} HistoryGrows(states: seq<State>, steps: seq<Step>, i: nat, n: nat)
    requires IsRun(states, steps) && i <= n <= |steps|
    ensures |states[i].cont.cont.history| <= |states[n].cont.cont.history|
    decreases n
  {
    if i < n {
      HistoryGrows(states, steps, i, n - 1);
      assert StepAt(states, steps, n - 1);
      HistoryStep(states[n - 1], steps[n - 1], states[n]);
    }
  }

  /** From i to n the table holds one push for the mission. */
  predicate SamePush(states: seq<State>, i: nat, n: nat, m: int)
    requires i <= n < |states| && m in Table(states[n])
  {
    forall j :: i <= j <= n ==> m in Table(states[j]) && Table(states[j])[m] == Table(states[n])[m]
  }

  lemma {:induction false} NeverReturns(states: seq<State>, steps: seq<Step>, i: nat, n: nat, m: int)
    requires IsRun(states, steps) && states[0] == START && i <= n <= |steps|
    requires m in Table(states[i]) && m in Table(states[n]) && Table(states[i])[m] == Table(states[n])[m]
    ensures SamePush(states, i, n, m)
    decreases n
  {
    if i < n {
      RunReports(states, steps, i);
      assert Table(states[i])[m].place < |states[i].cont.cont.history|;
      HistoryGrows(states, steps, i, n - 1);
      assert StepAt(states, steps, n - 1);
      PushStep(states[n - 1], steps[n - 1], states[n], m);
      NeverReturns(states, steps, i, n - 1, m);
    }
  }

  /** Which push a report answers: the one in the table when the report takes it out. That is the
      push that was there at an earlier step a, for instance when the task was begun, if and
      only if it has been there ever since; otherwise the answer goes to a later push. */
  lemma ReportTakesCurrent(states: seq<State>, steps: seq<Step>, a: nat, n: nat, id: nat, m: int)
    requires IsRun(states, steps) && states[0] == START && a <= n < |steps|
    requires id in states[n].ops && states[n].ops[id].Waiting? && states[n].ops[id].mission == m
    requires steps[n] == ContStep(CR.Pop(states[n].ops[id].report))
    requires m in Table(states[a]) && m in Table(states[n])
    ensures var r := states[n].ops[id].report;
      && r in states[n + 1].cont.ops && states[n + 1].cont.ops[r].Clearing?
      && states[n + 1].cont.ops[r].code == CONTINUE_FREE_INSTALL_FAILED
      && states[n + 1].cont.ops[r].held == CR.Holding(Table(states[n])[m])
    ensures Table(states[n])[m] == Table(states[a])[m] <==> SamePush(states, a, n, m)
  {
    RunReports(states, steps, n);
    assert StepAt(states, steps, n);
    if Table(states[n])[m] == Table(states[a])[m] {
      NeverReturns(states, steps, a, n, m);
    }
  }

  // ----------------------------------------------------- the mission that is named

  /** A recorded mission is the positive session that its task was issued with. */
  ghost predicate MissionsOk(s: State) {
    && s.tasks.next > 0
    && (forall t :: t in s.sessions ==> t < s.tasks.next)
    && (forall t :: t in s.tasks.missions ==>
      t in s.sessions && s.tasks.missions[t] == s.sessions[t] && s.sessions[t] > 0)
    && (forall id :: id in s.ops && (s.ops[id].Issued? || s.ops[id].Recording?) ==>
      s.ops[id].task in s.sessions && s.sessions[s.ops[id].task] == s.ops[id].session)
  }

  lemma IssueMissions(s: State, step: Step)
    requires MissionsOk(s) && Enabled(s, step) && step.Issue? && s.tasks.next < F.INT64_MAX
    ensures MissionsOk(Apply(s, step)) && Apply(s, step).tasks.next == s.tasks.next + 1
  {
  }

  lemma RecordMissions(s: State, id: nat)
    requires MissionsOk(s) && Enabled(s, Record(id))
    ensures MissionsOk(Apply(s, Record(id)))
  {
  }

  /** Fewer missions and operations that issue or record nothing new. */
  lemma FewerMissions(s: State, s': State)
    requires MissionsOk(s) && s'.tasks.next == s.tasks.next && s'.sessions == s.sessions
    requires forall t :: t in s'.tasks.missions ==> t in s.tasks.missions && s'.tasks.missions[t] == s.tasks.missions[t]
    requires forall id :: id in s'.ops && (s'.ops[id].Issued? || s'.ops[id].Recording?) ==>
      id in s.ops && (s.ops[id].Issued? || s.ops[id].Recording?)
      && s.ops[id].task == s'.ops[id].task && s.ops[id].session == s'.ops[id].session
    ensures MissionsOk(s')
  {
  }

  lemma OpsIssueNothing(s: State, step: Step)
    requires Enabled(s, step) && !step.Issue?
    ensures var s' := Apply(s, step);
      forall id :: id in s'.ops && (s'.ops[id].Issued? || s'.ops[id].Recording?) ==>
        id in s.ops && (s.ops[id].Issued? || s.ops[id].Recording?)
        && s.ops[id].task == s'.ops[id].task && s.ops[id].session == s'.ops[id].session
  {
  }

  lemma OtherMissions(s: State, step: Step)
    requires MissionsOk(s) && Enabled(s, step) && !step.Issue?
    ensures MissionsOk(Apply(s, step)) && Apply(s, step).tasks.next == s.tasks.next
  {
    if step.Record? {
      RecordMissions(s, step.id);
    } else {
      OpsIssueNothing(s, step);
      FewerMissions(s, Apply(s, step));
    }
  }

  lemma {:induction false} RunMissions(states: seq<State>, steps: seq<Step>, n: nat)
    requires IsRun(states, steps) && states[0] == START && n <= |steps| && n < F.INT64_MAX
    ensures MissionsOk(states[n]) && states[n].tasks.next <= 1 + n
  {
    if n > 0 {
      RunMissions(states, steps, n - 1);
      assert StepAt(states, steps, n - 1);
      if steps[n - 1].Issue? {
        IssueMissions(states[n - 1], steps[n - 1]);
      } else {
        OtherMissions(states[n - 1], steps[n - 1]);
      }
    }
  }

  /** While the ids have not wrapped, a completion names the positive session of its own task if
      the entry of the task is there, and otherwise takes the error code of the look-up, which
      is 29360128, for the mission. */
  lemma NamesOwnMission(states: seq<State>, steps: seq<Step>, n: nat, id: nat)
    requires IsRun(states, steps) && states[0] == START && n < |steps| && n < F.INT64_MAX && steps[n] == Resolve(id)
    requires id in states[n].ops && states[n].ops[id].Resolving? && states[n].ops[id].task > 0
    ensures var t := states[n].ops[id].task;
      && (t in states[n].tasks.missions ==> t in states[n].sessions && states[n].sessions[t] > 0)
      && id in states[n + 1].ops && states[n + 1].ops[id] ==
        Naming(t, if t in states[n].tasks.missions then states[n].sessions[t] else INVALID_PARAMETERS_ERR)
  {
    RunMissions(states, steps, n);
    assert StepAt(states, steps, n);
  }

  // ------------------------------------------------------------- three crossings

  function Last(states: seq<State>): State
    requires states != []
  {
    states[|states| - 1]
  }

  lemma RunExtends(states: seq<State>, steps: seq<Step>, step: Step) returns (states': seq<State>, steps': seq<Step>)
    requires IsRun(states, steps) && Enabled(Last(states), step)
    ensures IsRun(states', steps') && Last(states') == Apply(Last(states), step) && states'[0] == states[0]
    ensures steps' == steps + [step]
  {
    states', steps' := states + [Apply(Last(states), step)], steps + [step];
    forall i | 0 <= i < |steps'|
      ensures StepAt(states', steps', i)
    {
      assert i < |steps| ==> StepAt(states, steps, i);
    }
  }

  /** The state after a report that nothing came into. */
  function ReportSent(s: State, c: nat, r: nat, t: int, m: int): State
    requires m in Table(s)
  {
    var p := Table(s)[m];
    var cont := C.Sent(C.TimersRemoved(C.Popped(s.cont.cont, m), m), p, CONTINUE_FREE_INSTALL_FAILED);
    s.(cont := CR.State(cont, s.cont.ops, s.cont.lost - {m}), ops := s.ops[c := Waiting(t, m, r)])
  }

  /** The sections of a report: it looks, pops, removes the timeouts and sends. */
  lemma ReportSections(s: CR.State, r: nat, m: int)
    returns (s1: CR.State, s2: CR.State, s3: CR.State, s4: CR.State, s5: CR.State)
    requires r !in s.ops && m in s.cont.callbacks
    ensures s1 == CR.Apply(s, CR.BeginResult(r, m, CONTINUE_FREE_INSTALL_FAILED))
    ensures CR.Enabled(s1, CR.Look(r)) && s2 == CR.Apply(s1, CR.Look(r))
    ensures CR.Enabled(s2, CR.Pop(r)) && s3 == CR.Apply(s2, CR.Pop(r))
    ensures CR.Enabled(s3, CR.Clear(r)) && s4 == CR.Apply(s3, CR.Clear(r))
    ensures CR.Enabled(s4, CR.Send(r)) && s5 == CR.Apply(s4, CR.Send(r))
    ensures s5 == CR.State(
      C.Sent(C.TimersRemoved(C.Popped(s.cont, m), m), s.cont.callbacks[m], CONTINUE_FREE_INSTALL_FAILED),
      s.ops, s.lost - {m})
  {
    s1 := CR.Apply(s, CR.BeginResult(r, m, CONTINUE_FREE_INSTALL_FAILED));
    s2 := CR.Apply(s1, CR.Look(r));
    s3 := CR.Apply(s2, CR.Pop(r));
    s4 := CR.Apply(s3, CR.Clear(r));
    s5 := CR.Apply(s4, CR.Send(r));
    assert s4.ops - {r} == s.ops;
  }

  lemma ContExtends(states: seq<State>, steps: seq<Step>, step: CR.Step, next: CR.State)
    returns (states': seq<State>, steps': seq<Step>)
    requires IsRun(states, steps) && CR.Enabled(Last(states).cont, step) && next == CR.Apply(Last(states).cont, step)
    requires !CR.Begins(step)
    ensures IsRun(states', steps') && states'[0] == states[0]
    ensures Last(states') == Last(states).(cont := next)
  {
    states', steps' := RunExtends(states, steps, ContStep(step));
  }

  /** A report goes through. */
  lemma ReportRun(states: seq<State>, steps: seq<Step>, c: nat, r: nat, t: int, m: int)
    returns (states': seq<State>, steps': seq<Step>)
    requires IsRun(states, steps) && c in Last(states).ops && Last(states).ops[c] == Naming(t, m)
    requires r !in Last(states).cont.ops && !ReportOf(Last(states), r) && m in Table(Last(states))
    ensures IsRun(states', steps') && states'[0] == states[0]
    ensures Last(states') == ReportSent(Last(states), c, r, t, m)
  {
    var s1, s2, s3, s4, s5 := ReportSections(Last(states).cont, r, m);
    states', steps' := RunExtends(states, steps, Report(c, r));
    states', steps' := ContExtends(states', steps', CR.Look(r), s2);
    states', steps' := ContExtends(states', steps', CR.Pop(r), s3);
    states', steps' := ContExtends(states', steps', CR.Clear(r), s4);
    states', steps' := ContExtends(states', steps', CR.Send(r), s5);
  }

  /** A live continuation task whose mission is recorded and in progress. */
  predicate Ready(s: State, t: int, m: int) {
    && t > 0 && t in s.tasks.callbacks && s.tasks.callbacks[t].launchType.FREEINSTALL_CONTINUE?
    && t in s.tasks.missions && s.tasks.missions[t] == m && m in Table(s)
  }

  /** Such a state is reached by a continuation that asks for installation and starts it. */
  lemma ReadyIsReached(m: int, callback: Remote, device: DeviceId) returns (states: seq<State>, steps: seq<Step>)
    requires m > 0 && !callback.Null?
    ensures IsRun(states, steps) && states[0] == START && Ready(Last(states), 1, m)
    ensures Table(Last(states))[m] == C.Push(0, callback)
  {
    states, steps := [START], [];
    states, steps := RunExtends(states, steps, ContStep(CR.BeginInstall(0, m, callback, device)));
    states, steps := RunExtends(states, steps, Issue(0, Null, device, F.FREEINSTALL_CONTINUE, m));
    states, steps := RunExtends(states, steps, Enter(0, true));
    states, steps := RunExtends(states, steps, Record(0));
  }

  lemma BeginAndRead(states: seq<State>, steps: seq<Step>, c: nat, t: int, code: int)
    returns (states': seq<State>, steps': seq<Step>)
    requires IsRun(states, steps) && c !in Last(states).ops
    ensures IsRun(states', steps') && states'[0] == states[0]
    ensures var s := Last(states);
      Last(states') == s.(ops := s.ops[c := Taking(t, code, false, F.LaunchTypeOf(s.tasks, t))])
  {
    states', steps' := RunExtends(states, steps, Complete(c, t, code));
    states', steps' := RunExtends(states', steps', Read(c));
  }

  lemma TakeAndName(states: seq<State>, steps: seq<Step>, c: nat, t: int, code: int, m: int)
    returns (states': seq<State>, steps': seq<Step>)
    requires IsRun(states, steps) && code != ERR_OK && t > 0
    requires var s := Last(states);
      && c in s.ops && s.ops[c] == Taking(t, code, false, F.FREEINSTALL_CONTINUE)
      && t in s.tasks.missions && s.tasks.missions[t] == m
    ensures IsRun(states', steps') && states'[0] == states[0]
    ensures var s := Last(states);
      Last(states') == s.(tasks := F.Popped(s.tasks, t), ops := s.ops[c := Naming(t, m)])
  {
    states', steps' := RunExtends(states, steps, Take(c));
    states', steps' := RunExtends(states', steps', Resolve(c));
  }

  /** A completion that read the type of the task takes it out, or finds nothing, and reports. */
  lemma TakeAndReport(states: seq<State>, steps: seq<Step>, c: nat, r: nat, t: int, code: int, m: int)
    returns (states': seq<State>, steps': seq<Step>)
    requires IsRun(states, steps) && code != ERR_OK && t > 0
    requires var s := Last(states);
      && c in s.ops && s.ops[c] == Taking(t, code, false, F.FREEINSTALL_CONTINUE)
      && t in s.tasks.missions && s.tasks.missions[t] == m && m in Table(s)
      && r !in s.cont.ops && !ReportOf(s, r)
    ensures IsRun(states', steps') && states'[0] == states[0]
    ensures Last(states') == ReportSent(Last(states).(tasks := F.Popped(Last(states).tasks, t)), c, r, t, m)
  {
    var s := Last(states);
    states', steps' := TakeAndName(states, steps, c, t, code, m);
    NewReports(s, Last(states'), {});
    states', steps' := ReportRun(states', steps', c, r, t, m);
    assert s.ops[c := Naming(t, m)][c := Waiting(t, m, r)] == s.ops[c := Waiting(t, m, r)];
  }

  /** Crossing with the sweep: the device of the task goes offline between the read and the take.
      The completion takes nothing out, and still sends the mission a failure. */
  lemma SweepCrossesCompletion(states: seq<State>, steps: seq<Step>, c: nat, r: nat, t: int, code: int, m: int)
    returns (states': seq<State>, steps': seq<Step>)
    requires IsRun(states, steps) && states[0] == START && Ready(Last(states), t, m) && code != ERR_OK
    requires c !in Last(states).ops && r !in Last(states).cont.ops && !ReportOf(Last(states), r)
    ensures IsRun(states', steps') && states'[0] == START
    ensures var s, s' := Last(states), Last(states');
      && s'.tasks == F.OfflineSwept(s.tasks, s.tasks.callbacks[t].deviceId) && t !in s'.tasks.callbacks
      && s'.cont.cont.answers == s.cont.cont.answers +
        [C.Answer(Table(s)[m].place, Table(s)[m].callback, CONTINUE_FREE_INSTALL_FAILED)]
  {
    var s := Last(states);
    states', steps' := BeginAndRead(states, steps, c, t, code);
    states', steps' := RunExtends(states', steps', Offline(s.tasks.callbacks[t].deviceId));
    assert t in F.TasksOn(s.tasks, s.tasks.callbacks[t].deviceId);
    NewReports(s, Last(states'), {});
    states', steps' := TakeAndReport(states', steps', c, r, t, code, m);
  }

  /** Crossing of two completions: the first one reports success and takes the task out; the
      second had read the type before, and sends the mission a failure. */
  lemma SuccessCrossesFailure(
    states: seq<State>, steps: seq<Step>, c1: nat, c2: nat, r: nat, t: int, code: int, m: int)
    returns (states': seq<State>, steps': seq<Step>)
    requires IsRun(states, steps) && states[0] == START && Ready(Last(states), t, m) && code != ERR_OK && c1 != c2
    requires c1 !in Last(states).ops && c2 !in Last(states).ops
    requires r !in Last(states).cont.ops && !ReportOf(Last(states), r)
    ensures IsRun(states', steps') && states'[0] == START
    ensures var s, s' := Last(states), Last(states');
      && c1 in s'.ops && s'.ops[c1] == Forgetting(t) && t !in s'.tasks.callbacks
      && s'.cont.cont.answers == s.cont.cont.answers +
        [C.Answer(Table(s)[m].place, Table(s)[m].callback, CONTINUE_FREE_INSTALL_FAILED)]
  {
    var s := Last(states);
    states', steps' := BeginAndRead(states, steps, c1, t, ERR_OK);
    states', steps' := BeginAndRead(states', steps', c2, t, code);
    states', steps' := RunExtends(states', steps', Take(c1));
    NewReports(s, Last(states'), {});
    states', steps' := TakeAndReport(states', steps', c2, r, t, code, m);
  }

  /** A new continuation of the mission begins. */
  lemma BeginAgain(states: seq<State>, steps: seq<Step>, id: nat, m: int, callback: Remote, device: DeviceId)
    returns (states': seq<State>, steps': seq<Step>)
    requires IsRun(states, steps) && id !in Last(states).cont.ops && !ReportOf(Last(states), id)
    requires m !in Table(Last(states)) && !callback.Null?
    ensures IsRun(states', steps') && states'[0] == states[0]
    ensures var s, s' := Last(states), Last(states');
      && s'.tasks == s.tasks && s'.ops == s.ops && s'.cont.ops == s.cont.ops[id := CR.Arming(m)]
      && s'.cont.cont.answers == s.cont.cont.answers
      && m in Table(s') && Table(s')[m] == C.Push(|s.cont.cont.history|, callback)
  {
    var step := CR.BeginContinue(id, m, callback, device);
    states', steps' := RunExtends(states, steps, ContStep(step));
  }

  /** Two completions read the type; the first takes the task out and reports. */
  lemma FirstReports(states: seq<State>, steps: seq<Step>, c1: nat, c2: nat, r: nat, t: int, code: int, m: int)
    returns (states': seq<State>, steps': seq<Step>)
    requires IsRun(states, steps) && Ready(Last(states), t, m) && code != ERR_OK && c1 != c2
    requires c1 !in Last(states).ops && c2 !in Last(states).ops
    requires r !in Last(states).cont.ops && !ReportOf(Last(states), r)
    ensures IsRun(states', steps') && states'[0] == states[0]
    ensures var s, s' := Last(states), Last(states'); var taking := Taking(t, code, false, F.FREEINSTALL_CONTINUE);
      s' == ReportSent(s.(tasks := F.Popped(s.tasks, t), ops := s.ops[c1 := taking][c2 := taking]), c1, r, t, m)
  {
    var s := Last(states);
    states', steps' := BeginAndRead(states, steps, c1, t, code);
    states', steps' := BeginAndRead(states', steps', c2, t, code);
    NewReports(s, Last(states'), {});
    states', steps' := TakeAndReport(states', steps', c1, r, t, code, m);
  }

  /** Crossing with a new continuation: the first completion has answered the mission and not yet
      erased its entry, and the mission is continued again. The second completion, which had
      read the type before, answers the new push. */
  lemma NewContinuationAnswered(
    states: seq<State>, steps: seq<Step>, c1: nat, c2: nat, r1: nat, r2: nat, x: nat, t: int, code: int, m: int,
    callback: Remote, device: DeviceId)
    returns (states': seq<State>, steps': seq<Step>)
    requires IsRun(states, steps) && states[0] == START && Ready(Last(states), t, m) && code != ERR_OK && c1 != c2
    requires c1 !in Last(states).ops && c2 !in Last(states).ops && !callback.Null?
    requires r1 != r2 && r1 != x && r2 != x
    requires forall r :: r in {r1, r2, x} ==> r !in Last(states).cont.ops && !ReportOf(Last(states), r)
    ensures IsRun(states', steps') && states'[0] == START
    ensures var s, s' := Last(states), Last(states');
      s'.cont.cont.answers == s.cont.cont.answers +
        [C.Answer(Table(s)[m].place, Table(s)[m].callback, CONTINUE_FREE_INSTALL_FAILED)] +
        [C.Answer(|s.cont.cont.history|, callback, CONTINUE_FREE_INSTALL_FAILED)]
  {
    var s := Last(states);
    assert r1 in {r1, r2, x} && r2 in {r1, r2, x} && x in {r1, r2, x};
    states', steps' := FirstReports(states, steps, c1, c2, r1, t, code, m);
    NewReports(s, Last(states'), {r1});
    states', steps' := BeginAgain(states', steps', x, m, callback, device);
    NewReports(s, Last(states'), {r1});
    states', steps' := TakeAndReport(states', steps', c2, r2, t, code, m);
  }

  /** The names of reports are those of before and the given ones. */
  lemma NewReports(s: State, s': State, names: set<nat>)
    requires forall id :: id in s'.ops && s'.ops[id].Waiting? ==>
      (id in s.ops && s.ops[id] == s'.ops[id]) || s'.ops[id].report in names
    ensures forall r :: ReportOf(s', r) ==> ReportOf(s, r) || r in names
  {
  }
}
