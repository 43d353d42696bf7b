/**
 The continuation tracker under every interleaving of the sections of the service functions.

 A function that drives the tracker is an operation in flight: between its sections it
 remembers what it will do next. A result first looks whether the mission is in progress. If
 it is, it pops the callback, removes the timeouts and sends; if not, it removes the timeouts.
 Other operations may push and arm in between. `at` is the number of pushes at the time of
 the look or the pop, and `lost` names the missions whose current push was disarmed by such
 a late removal and not armed again; the code keeps neither.
 */
module ContinuationRuns {
  import opened Codes
  import opened Sessions
  import C = Continuation

  datatype Held = Nothing | Holding(push: C.Push)

  datatype Op =
    | Arming(mission: int)
    | ArmingInstall(mission: int, own: Held)
    | Asking(mission: int, own: Held)
    | Refusing(mission: int, own: Held)
    | Looking(mission: int, code: int)
    | Popping(mission: int, code: int)
    | Clearing(mission: int, code: int, at: nat, held: Held)
    | Sending(held: Held, code: int)

  datatype State = State(cont: C.Cont, ops: map<nat, Op>, lost: set<int>)

  const START: State := State(C.START, map[], {})

  datatype Step =
    | BeginContinue(id: nat, mission: int, callback: Remote, device: DeviceId)
    | BeginInstall(id: nat, mission: int, callback: Remote, device: DeviceId)
    | BeginRequery(id: nat, mission: int)
    | BeginStart(id: nat, mission: int)
    | Arm(id: nat)
    | Granted(id: nat)
    | BeginRefusal(id: nat)
    | FinishRefusal(id: nat)
    | BeginResult(id: nat, mission: int, code: int)
    | Fire(id: nat, mission: int)
    | Look(id: nat)
    | Pop(id: nat)
    | Clear(id: nat)
    | Send(id: nat)
    | GiveUp(id: nat)
    | SetFlag(mission: int, clean: bool)

  /** The step gives a name to a new operation. */
  predicate Begins(step: Step) {
    || step.BeginContinue? || step.BeginInstall? || step.BeginRequery? || step.BeginStart?
    || step.BeginResult? || step.Fire?
  }

  predicate Enabled(s: State, step: Step) {
    match step
    case BeginContinue(id, _, _, _) => id !in s.ops
    case BeginInstall(id, _, _, _) => id !in s.ops
    case BeginRequery(id, _) => id !in s.ops
    case BeginStart(id, _) => id !in s.ops
    case Arm(id) => id in s.ops && (s.ops[id].Arming? || s.ops[id].ArmingInstall?)
    case Granted(id) => id in s.ops && s.ops[id].Asking?
    case BeginRefusal(id) => id in s.ops && s.ops[id].Asking?
    case FinishRefusal(id) => id in s.ops && s.ops[id].Refusing?
    case BeginResult(id, _, _) => id !in s.ops
    case Fire(id, m) => id !in s.ops && m in s.cont.timers
    case Look(id) => id in s.ops && s.ops[id].Looking?
    case Pop(id) => id in s.ops && s.ops[id].Popping?
    case Clear(id) => id in s.ops && s.ops[id].Clearing?
    case Send(id) => id in s.ops && s.ops[id].Sending? && s.ops[id].held.Holding?
    case GiveUp(id) => id in s.ops && s.ops[id].Sending?
    case SetFlag(_, _) => true
  }

  /** A request for installation goes on to ask whether the remote device can install. */
  function Armed(s: State, id: nat, op: Op): State
    requires op.Arming? || op.ArmingInstall?
  {
    State(C.TimerSet(s.cont, op.mission),
      if op.Arming? then s.ops - {id} else s.ops[id := Asking(op.mission, op.own)], s.lost - {op.mission})
  }

  /** The request keeps in mind the push that it made, if the push succeeded. */
  function InstallBegun(s: State, id: nat, m: int, callback: Remote, device: DeviceId): State {
    var cont := C.Pushed(s.cont, m, callback, device, true);
    var own := if C.PushAllowed(s.cont, m, callback) then Holding(cont.callbacks[m]) else Nothing;
    s.(cont := cont, ops := s.ops[id := ArmingInstall(m, own)])
  }

  function Refused(s: State, id: nat, m: int): State {
    var popped := C.Popped(s.cont, m);
    State(if m in s.cont.callbacks then C.Discarded(popped, s.cont.callbacks[m])
      else popped, s.ops - {id}, s.lost - {m})
  }

  function Looked(s: State, id: nat, m: int, code: int): State {
    s.(ops := s.ops[id :=
      if m in s.cont.callbacks then Popping(m, code) else Clearing(m, code, |s.cont.history|, Nothing)])
  }

  /** The pop finds nothing if another operation was faster. */
  function Popped(s: State, id: nat, m: int, code: int): State {
    var held := if m in s.cont.callbacks then Holding(s.cont.callbacks[m]) else Nothing;
    State(C.Popped(s.cont, m), s.ops[id := Clearing(m, code, |s.cont.history|, held)], s.lost - {m})
  }

  function Cleared(s: State, id: nat, m: int, code: int, held: Held): State {
    State(C.TimersRemoved(s.cont, m), s.ops[id := Sending(held, code)],
      if m in s.cont.callbacks then s.lost + {m} else s.lost)
  }

  function Apply(s: State, step: Step): State
    requires Enabled(s, step)
  {
    match step
    case BeginContinue(id, m, callback, device) =>
      if C.PushAllowed(s.cont, m, callback)
      then s.(cont := C.Pushed(s.cont, m, callback, device, false), ops := s.ops[id := Arming(m)]) else s
    case BeginInstall(id, m, callback, device) => InstallBegun(s, id, m, callback, device)
    case BeginRequery(id, m) => s.(cont := C.TimersRemoved(s.cont, m), ops := s.ops[id := Arming(m)])
    case BeginStart(id, m) => if m in s.cont.callbacks then s else s.(ops := s.ops[id := Arming(m)])
    case Arm(id) => Armed(s, id, s.ops[id])
    case Granted(id) => s.(ops := s.ops - {id})
    case BeginRefusal(id) =>
      s.(cont := C.TimersRemoved(s.cont, s.ops[id].mission),
         ops := s.ops[id := Refusing(s.ops[id].mission, s.ops[id].own)])
    case FinishRefusal(id) => Refused(s, id, s.ops[id].mission)
    case BeginResult(id, m, code) => s.(ops := s.ops[id := Looking(m, code)])
    case Fire(id, m) =>
      s.(cont := C.TimerConsumed(s.cont, m),
         ops := if m <= 0 then s.ops else s.ops[id := Looking(m, CONTINUE_ABILITY_TIMEOUT_ERR)])
    case Look(id) => Looked(s, id, s.ops[id].mission, s.ops[id].code)
    case Pop(id) => Popped(s, id, s.ops[id].mission, s.ops[id].code)
    case Clear(id) => Cleared(s, id, s.ops[id].mission, s.ops[id].code, s.ops[id].held)
    case Send(id) => s.(cont := C.Sent(s.cont, s.ops[id].held.push, s.ops[id].code), ops := s.ops - {id})
    case GiveUp(id) =>
      State(if s.ops[id].held.Holding? then C.Discarded(s.cont, s.ops[id].held.push) else s.cont, s.ops - {id}, s.lost)
    case SetFlag(m, clean) => s.(cont := C.CleanFlagSet(s.cont, m, clean))
  }

  predicate StepAt(states: seq<State>, steps: seq<Step>, i: nat)
    requires |states| == |steps| + 1 && i < |steps|
  {
    Enabled(states[i], steps[i]) && states[i + 1] == Apply(states[i], steps[i])
  }

  /** `states` are the states visited, the first one included. */
  predicate IsRun(states: seq<State>, steps: seq<Step>) {
    |states| == |steps| + 1 && forall i :: 0 <= i < |steps| ==> StepAt(states, steps, i)
  }

  // ------------------------------------------------------------------- timeouts

  /** The operation will still arm the mission, or pop it. */
  predicate Cares(op: Op, m: int) {
    (op.Arming? || op.ArmingInstall? || op.Refusing? || op.Looking? || op.Popping?) && op.mission == m
  }

  ghost predicate InHand(s: State, m: int) {
    exists id :: id in s.ops && Cares(s.ops[id], m)
  }

  /** A positive mission in the table is armed, was disarmed late, or is being cared for. */
  ghost predicate Watched(s: State, m: int) {
    m in s.cont.callbacks && m > 0 ==> m in s.cont.timers || m in s.lost || InHand(s, m)
  }

  predicate LostIsUnarmed(s: State, m: int) {
    m in s.lost ==> m in s.cont.callbacks && m !in s.cont.timers
  }

  /** An operation that is past its look or pop decided before the current push. */
  predicate DecidedBefore(s: State, id: nat) {
    id in s.ops && s.ops[id].Clearing? ==>
      && s.ops[id].at <= |s.cont.history|
      && (s.ops[id].mission in s.cont.callbacks ==> s.ops[id].at <= s.cont.callbacks[s.ops[id].mission].place)
  }

  lemma OthersInHand(s: State, s': State, id: nat, m: int)
    requires InHand(s, m) && (id in s.ops ==> !Cares(s.ops[id], m))
    requires forall i :: i in s.ops && i != id ==> i in s'.ops && s'.ops[i] == s.ops[i]
    ensures InHand(s', m)
  {
    var i :| i in s.ops && Cares(s.ops[i], m);
    assert i in s'.ops && Cares(s'.ops[i], m);
  }

  lemma BeginWatched(s: State, step: Step, m: int)
    requires Enabled(s, step) && Watched(s, m)
    requires step.BeginContinue? || step.BeginInstall? || step.BeginRequery? || step.BeginStart?
    ensures Watched(Apply(s, step), m)
  {
    var s' := Apply(s, step);
    if step.id in s'.ops && step.mission == m {
      assert Cares(s'.ops[step.id], m);
    } else if InHand(s, m) {
      OthersInHand(s, s', step.id, m);
    }
  }

  lemma ResultWatched(s: State, step: Step, m: int)
    requires Enabled(s, step) && Watched(s, m)
    requires step.BeginResult? || step.Fire?
    ensures Watched(Apply(s, step), m)
  {
    var s' := Apply(s, step);
    if step.mission == m {
      assert m > 0 ==> step.id in s'.ops && Cares(s'.ops[step.id], m);
    } else if InHand(s, m) {
      OthersInHand(s, s', step.id, m);
    }
  }

  lemma NextWatched(s: State, step: Step, m: int)
    requires Enabled(s, step) && Watched(s, m)
    requires step.Arm? || step.BeginRefusal? || step.FinishRefusal? || step.Look? || step.Pop?
    ensures Watched(Apply(s, step), m)
  {
    var s' := Apply(s, step);
    if s.ops[step.id].mission == m {
      assert step.Look? && m in s.cont.callbacks ==> Cares(s'.ops[step.id], m);
      assert step.BeginRefusal? ==> Cares(s'.ops[step.id], m);
    } else if InHand(s, m) {
      OthersInHand(s, s', step.id, m);
    }
  }

  lemma LastWatched(s: State, step: Step, m: int)
    requires Enabled(s, step) && Watched(s, m)
    requires step.Clear? || step.Send? || step.GiveUp? || step.Granted?
    ensures Watched(Apply(s, step), m)
  {
    if InHand(s, m) {
      OthersInHand(s, Apply(s, step), step.id, m);
    }
  }

  lemma StepWatched(s: State, step: Step, m: int)
    requires Enabled(s, step) && Watched(s, m)
    ensures Watched(Apply(s, step), m)
  {
    if step.BeginContinue? || step.BeginInstall? || step.BeginRequery? || step.BeginStart? {
      BeginWatched(s, step, m);
    } else if step.BeginResult? || step.Fire? {
      ResultWatched(s, step, m);
    } else if step.Arm? || step.BeginRefusal? || step.FinishRefusal? || step.Look? || step.Pop? {
      NextWatched(s, step, m);
    } else if step.SetFlag? {
      assert InHand(s, m) ==> InHand(Apply(s, step), m);
    } else {
      LastWatched(s, step, m);
    }
  }

  lemma StepLost(s: State, step: Step, m: int)
    requires Enabled(s, step) && LostIsUnarmed(s, m)
    ensures LostIsUnarmed(Apply(s, step), m)
  {
  }

  lemma PushDecided(s: State, step: Step, id: nat)
    requires Enabled(s, step) && DecidedBefore(s, id) && (step.BeginContinue? || step.BeginInstall?)
    ensures DecidedBefore(Apply(s, step), id)
  {
  }

  lemma PopDecided(s: State, step: Step, id: nat)
    requires Enabled(s, step) && DecidedBefore(s, id) && (step.Look? || step.Pop? || step.FinishRefusal?)
    ensures DecidedBefore(Apply(s, step), id)
  {
  }

  lemma StepDecided(s: State, step: Step, id: nat)
    requires Enabled(s, step) && DecidedBefore(s, id)
    ensures DecidedBefore(Apply(s, step), id)
  {
    if step.BeginContinue? || step.BeginInstall? {
      PushDecided(s, step, id);
    } else if step.Look? || step.Pop? || step.FinishRefusal? {
      PopDecided(s, step, id);
    }
  }

  lemma {:induction false} RunWatched(states: seq<State>, steps: seq<Step>, n: nat)
    requires IsRun(states, steps) && states[0] == START && n <= |steps|
    ensures forall m :: Watched(states[n], m)
    ensures forall m :: LostIsUnarmed(states[n], m)
    ensures forall id :: DecidedBefore(states[n], id)
  {
    if n > 0 {
      RunWatched(states, steps, n - 1);
      assert StepAt(states, steps, n - 1);
      var s, step := states[n - 1], steps[n - 1];
      forall m
        ensures Watched(states[n], m) && LostIsUnarmed(states[n], m)
      {
        assert Watched(s, m) && LostIsUnarmed(s, m);
        StepWatched(s, step, m);
        StepLost(s, step, m);
      }
      forall id
        ensures DecidedBefore(states[n], id)
      {
        assert DecidedBefore(s, id);
        StepDecided(s, step, id);
      }
    }
  }

  predicate ArmsIt(s: State, step: Step, m: int) {
    && step.Arm? && step.id in s.ops && (s.ops[step.id].Arming? || s.ops[step.id].ArmingInstall?)
    && s.ops[step.id].mission == m
  }

  /** From step i on the table holds the push that it holds at n. */
  predicate SamePush(states: seq<State>, i: nat, n: nat, m: int)
    requires i <= n < |states| && m in states[n].cont.callbacks
  {
    forall j :: i <= j <= n ==>
      m in states[j].cont.callbacks && states[j].cont.callbacks[m] == states[n].cont.callbacks[m]
  }

  /** At step i an operation removed the timeouts of the current push, having looked or popped
      before that push, and nobody armed the mission after. */
  predicate DisarmedAt(states: seq<State>, steps: seq<Step>, i: nat, n: nat, m: int)
    requires IsRun(states, steps) && n <= |steps| && m in states[n].cont.callbacks
  {
    && i < n && SamePush(states, i, n, m)
    && steps[i].Clear? && Enabled(states[i], steps[i]) && states[i].ops[steps[i].id].mission == m
    && states[i].ops[steps[i].id].at <= states[n].cont.callbacks[m].place
    && forall j :: i < j < n ==> !ArmsIt(states[j], steps[j], m)
  }

  /** What one step does to the set of disarmed missions. */
  lemma LostStep(s: State, step: Step, m: int)
    requires Enabled(s, step) && m in Apply(s, step).cont.callbacks
    requires m in s.lost ==> m in s.cont.callbacks
    ensures m in Apply(s, step).lost <==>
      || (step.Clear? && s.ops[step.id].mission == m)
      || (m in s.lost && !ArmsIt(s, step, m))
    ensures m in Apply(s, step).lost ==>
      m in s.cont.callbacks && s.cont.callbacks[m] == Apply(s, step).cont.callbacks[m]
  {
  }

  lemma LaterDisarmed(states: seq<State>, steps: seq<Step>, i: nat, n: nat, m: int)
    requires IsRun(states, steps) && 0 < n <= |steps|
    requires m in states[n - 1].cont.callbacks && DisarmedAt(states, steps, i, n - 1, m)
    requires m in states[n].cont.callbacks && states[n].cont.callbacks[m] == states[n - 1].cont.callbacks[m]
    requires !ArmsIt(states[n - 1], steps[n - 1], m)
    ensures DisarmedAt(states, steps, i, n, m)
  {
  }

  lemma EarlierDisarmed(states: seq<State>, steps: seq<Step>, i: nat, n: nat, m: int)
    requires IsRun(states, steps) && i + 1 < n <= |steps|
    requires m in states[n].cont.callbacks && DisarmedAt(states, steps, i, n, m)
    ensures m in states[n - 1].cont.callbacks && DisarmedAt(states, steps, i, n - 1, m)
    ensures !ArmsIt(states[n - 1], steps[n - 1], m)
  {
    assert states[n - 1].cont.callbacks[m] == states[n].cont.callbacks[m];
  }

  lemma {:induction false} LostIff(states: seq<State>, steps: seq<Step>, n: nat, m: int)
    requires IsRun(states, steps) && states[0] == START && n <= |steps| && m in states[n].cont.callbacks
    ensures m in states[n].lost <==> exists i: nat :: DisarmedAt(states, steps, i, n, m)
  {
    if n > 0 {
      var s, step := states[n - 1], steps[n - 1];
      assert StepAt(states, steps, n - 1);
      RunWatched(states, steps, n - 1);
      assert LostIsUnarmed(s, m);
      LostStep(s, step, m);
      if m in states[n].lost {
        if step.Clear? && s.ops[step.id].mission == m {
          assert DecidedBefore(s, step.id);
          assert DisarmedAt(states, steps, n - 1, n, m);
        } else {
          LostIff(states, steps, n - 1, m);
          var i: nat :| DisarmedAt(states, steps, i, n - 1, m);
          LaterDisarmed(states, steps, i, n, m);
        }
      }
      if i: nat :| DisarmedAt(states, steps, i, n, m) {
        if i < n - 1 {
          EarlierDisarmed(states, steps, i, n, m);
          LostIff(states, steps, n - 1, m);
        }
      }
    }
  }

  /** The exact condition for a pending timeout, in every reachable state of every interleaving.
      A positive mission is in the table and no operation is about to arm or pop it. It has no
      pending timeout if and only if, while this push was in the table, an operation that had
      looked or popped before the push removed the timeouts, and nobody armed it after that. */
  lemma ArmedExactly(states: seq<State>, steps: seq<Step>, n: nat, m: int)
    requires IsRun(states, steps) && states[0] == START && n <= |steps|
    requires m > 0 && m in states[n].cont.callbacks && !InHand(states[n], m)
    ensures m !in states[n].cont.timers <==> exists i: nat :: DisarmedAt(states, steps, i, n, m)
  {
    RunWatched(states, steps, n);
    assert Watched(states[n], m) && LostIsUnarmed(states[n], m);
    LostIff(states, steps, n, m);
  }

  // --------------------------------------------------------- answered at most once

  predicate Holds(s: State, id: nat, p: C.Push) {
    id in s.ops && (s.ops[id].Clearing? || s.ops[id].Sending?) && s.ops[id].held == Holding(p)
  }

  /** What an operation holds was popped and belongs to no other operation. */
  ghost predicate HeldApart(s: State) {
    && (forall id, p :: Holds(s, id, p) ==> p in s.cont.popped)
    && (forall id, id', p :: Holds(s, id, p) && Holds(s, id', p) ==> id == id')
  }

  ghost predicate Once(s: State) {
    C.OnceEach(s.cont) && C.TablesTogether(s.cont) && HeldApart(s)
  }

  lemma AsideOnce(s: State, cont: C.Cont, ops: map<nat, Op>, lost: set<int>)
    requires Once(s) && C.OnceEach(cont) && C.TablesTogether(cont) && cont.popped == s.cont.popped
    requires forall id, p :: Holds(State(cont, ops, lost), id, p) ==> Holds(s, id, p)
    ensures Once(State(cont, ops, lost))
  {
  }

  lemma PopOnce(s: State, id: nat, m: int, code: int)
    requires Once(s) && id in s.ops && s.ops[id].Popping?
    ensures Once(Popped(s, id, m, code))
  {
    C.PopKeeps(s.cont, m);
    C.PopKeepsTables(s.cont, m);
    var s' := Popped(s, id, m, code);
    forall i, p | Holds(s', i, p)
      ensures if i == id then m in s.cont.callbacks && p == s.cont.callbacks[m] else Holds(s, i, p)
    {
    }
    forall i, p | Holds(s, i, p)
      ensures m in s.cont.callbacks ==> p != s.cont.callbacks[m]
    {
    }
  }

  lemma RefuseOnce(s: State, id: nat, m: int)
    requires Once(s) && id in s.ops && s.ops[id].Refusing?
    ensures Once(Refused(s, id, m))
  {
    C.PopKeeps(s.cont, m);
    C.PopKeepsTables(s.cont, m);
    var s' := Refused(s, id, m);
    assert s'.cont.popped == s.cont.popped;
    if m in s.cont.callbacks {
      C.DiscardKeeps(C.Popped(s.cont, m), s.cont.callbacks[m]);
    }
    AsideOnce(s, s'.cont, s'.ops, s'.lost);
  }

  lemma HeldByOne(s: State, i: nat, q: C.Push, id: nat, p: C.Push)
    requires HeldApart(s) && Holds(s, i, q) && Holds(s, id, p) && i != id
    ensures q != p
  {
  }

  lemma SendOnce(s: State, id: nat)
    requires Once(s) && Enabled(s, Send(id))
    ensures Once(Apply(s, Send(id)))
  {
    var p := s.ops[id].held.push;
    assert Holds(s, id, p);
    C.SendKeeps(s.cont, p, s.ops[id].code);
    var s' := Apply(s, Send(id));
    forall i, q | Holds(s', i, q)
      ensures Holds(s, i, q) && q != p
    {
      HeldByOne(s, i, q, id, p);
    }
  }

  lemma GiveUpOnce(s: State, id: nat)
    requires Once(s) && Enabled(s, GiveUp(id))
    ensures Once(Apply(s, GiveUp(id)))
  {
    var s' := Apply(s, GiveUp(id));
    if s.ops[id].held.Holding? {
      var p := s.ops[id].held.push;
      assert Holds(s, id, p);
      C.DiscardKeeps(s.cont, p);
      forall i, q | Holds(s', i, q)
        ensures Holds(s, i, q) && q != p
      {
        HeldByOne(s, i, q, id, p);
      }
    } else {
      AsideOnce(s, s'.cont, s'.ops, s'.lost);
    }
  }

  lemma PushOnce(s: State, step: Step)
    requires Once(s) && Enabled(s, step) && (step.BeginContinue? || step.BeginInstall?)
    ensures Once(Apply(s, step))
  {
    C.PushKeeps(s.cont, step.mission, step.callback, step.device, step.BeginInstall?);
    C.PushKeepsTables(s.cont, step.mission, step.callback, step.device, step.BeginInstall?);
    var s' := Apply(s, step);
    AsideOnce(s, s'.cont, s'.ops, s'.lost);
  }

  lemma StepOnce(s: State, step: Step)
    requires Once(s) && Enabled(s, step)
    ensures Once(Apply(s, step))
  {
    if step.Pop? {
      PopOnce(s, step.id, s.ops[step.id].mission, s.ops[step.id].code);
    } else if step.FinishRefusal? {
      RefuseOnce(s, step.id, s.ops[step.id].mission);
    } else if step.Send? {
      SendOnce(s, step.id);
    } else if step.GiveUp? {
      GiveUpOnce(s, step.id);
    } else if step.BeginContinue? || step.BeginInstall? {
      PushOnce(s, step);
    } else {
      QuietOnce(s, step);
    }
  }

  lemma QuietOnce(s: State, step: Step)
    requires Once(s) && Enabled(s, step)
    requires !step.Pop? && !step.FinishRefusal? && !step.Send? && !step.GiveUp? && !step.BeginContinue? &&
      !step.BeginInstall?
    ensures Once(Apply(s, step))
  {
    var s' := Apply(s, step);
    assert s'.cont == s.cont.(timers := s'.cont.timers, cleanMission := s'.cont.cleanMission);
    C.AsideKeeps(s.cont, s'.cont.timers, s'.cont.cleanMission);
    QuietHolds(s, step);
    AsideOnce(s, s'.cont, s'.ops, s'.lost);
  }

  lemma QuietHolds(s: State, step: Step)
    requires Enabled(s, step)
    requires !step.Pop? && !step.FinishRefusal? && !step.Send? && !step.GiveUp? && !step.BeginContinue? &&
      !step.BeginInstall?
    ensures forall id, p :: Holds(Apply(s, step), id, p) ==> Holds(s, id, p)
  {
  }

  lemma {:induction false} RunOnce(states: seq<State>, steps: seq<Step>, n: nat)
    requires IsRun(states, steps) && states[0] == START && n <= |steps|
    ensures Once(states[n])
  {
    if n > 0 {
      RunOnce(states, steps, n - 1);
      assert StepAt(states, steps, n - 1);
      StepOnce(states[n - 1], steps[n - 1]);
    }
  }

  /** Whatever mixes, each push is answered at most once, by its own callback, and not while it
      is in the table. */
  lemma AnsweredOnce(states: seq<State>, steps: seq<Step>, n: nat)
    requires IsRun(states, steps) && states[0] == START && n <= |steps|
    ensures var c := states[n].cont;
      && (forall i, j :: 0 <= i < j < |c.answers| ==> c.answers[i].place != c.answers[j].place)
      && (forall i :: 0 <= i < |c.answers| ==> C.Genuine(c, c.answers[i].place, c.answers[i].callback))
      && (forall m, i :: m in c.callbacks && 0 <= i < |c.answers| ==> c.answers[i].place != c.callbacks[m].place)
  {
    RunOnce(states, steps, n);
  }

  // ------------------------------------------------------- three ways to go wrong

  function After(s: State, steps: seq<Step>): (states: seq<State>)
    requires Executable(s, steps)
    ensures |states| == |steps| + 1 && states[0] == s
    decreases |steps|
  {
    if steps == [] then [s] else [s] + After(Apply(s, steps[0]), steps[1..])
  }

  predicate Executable(s: State, steps: seq<Step>)
    decreases |steps|
  {
    steps == [] || (Enabled(s, steps[0]) && Executable(Apply(s, steps[0]), steps[1..]))
  }

  lemma {:induction false} AfterIsRun(s: State, steps: seq<Step>)
    requires Executable(s, steps)
    ensures IsRun(After(s, steps), steps)
    decreases |steps|
  {
    if steps != [] {
      AfterIsRun(Apply(s, steps[0]), steps[1..]);
      var states, rest := After(s, steps), After(Apply(s, steps[0]), steps[1..]);
      forall i | 0 <= i < |steps|
        ensures StepAt(states, steps, i)
      {
        if i > 0 {
          assert StepAt(rest, steps[1..], i - 1);
        }
      }
    }
  }

  lemma RunOne(s: State, step: Step, rest: seq<Step>)
    requires Enabled(s, step) && Executable(Apply(s, step), rest)
    ensures Executable(s, [step] + rest)
    ensures After(s, [step] + rest)[|rest| + 1] == After(Apply(s, step), rest)[|rest|]
  {
    assert ([step] + rest)[1..] == rest;
    assert After(s, [step] + rest) == [s] + After(Apply(s, step), rest);
  }

  /** A continuation begins and is armed before the late removal of operation i. */
  lemma BegunThenCleared(s: State, i: nat, j: nat, m: int, callback: Remote, device: DeviceId)
    requires i != j && j !in s.ops && m !in s.cont.callbacks && !callback.Null?
    requires i in s.ops && s.ops[i].Clearing? && s.ops[i].mission == m
    ensures var steps := [BeginContinue(j, m, callback, device), Arm(j), Clear(i)];
      && Executable(s, steps)
      && var s' := After(s, steps)[3];
      m in s'.cont.callbacks && m !in s'.cont.timers && s'.ops == s.ops[i := Sending(s.ops[i].held, s.ops[i].code)]
  {
    var s1 := Apply(s, BeginContinue(j, m, callback, device));
    var s2 := Apply(s1, Arm(j));
    var s3 := Apply(s2, Clear(i));
    assert s2.ops == s.ops;
    assert Executable(s3, []) && After(s3, []) == [s3];
    RunOne(s2, Clear(i), []);
    RunOne(s1, Arm(j), [Clear(i)] + []);
    RunOne(s, BeginContinue(j, m, callback, device), [Arm(j)] + ([Clear(i)] + []));
    assert [Arm(j)] + ([Clear(i)] + []) == [Arm(j), Clear(i)];
    assert [BeginContinue(j, m, callback, device)] + [Arm(j), Clear(i)] ==
      [BeginContinue(j, m, callback, device), Arm(j), Clear(i)];
  }

  /** A result that found no callback removes the timeouts in a later section. A continuation
      that begins in between is left with a callback, no timeout, and no operation for it. */
  lemma LateResultDisarms(s: State, i: nat, j: nat, m: int, code: int, callback: Remote, device: DeviceId)
    requires i != j && i !in s.ops && j !in s.ops && m !in s.cont.callbacks && !callback.Null? && !InHand(s, m)
    ensures var steps := [BeginResult(i, m, code), Look(i)] + [BeginContinue(j, m, callback, device), Arm(j), Clear(i)];
      && Executable(s, steps) && IsRun(After(s, steps), steps)
      && var s' := After(s, steps)[5];
      m in s'.cont.callbacks && m !in s'.cont.timers && !InHand(s', m)
  {
    var s1 := Apply(s, BeginResult(i, m, code));
    var s2 := Apply(s1, Look(i));
    var rest := [BeginContinue(j, m, callback, device), Arm(j), Clear(i)];
    BegunThenCleared(s2, i, j, m, callback, device);
    RunOne(s1, Look(i), rest);
    RunOne(s, BeginResult(i, m, code), [Look(i)] + rest);
    assert [BeginResult(i, m, code)] + ([Look(i)] + rest) == [BeginResult(i, m, code), Look(i)] + rest;
    NoneInHand(s, After(s2, rest)[3], i, m);
    AfterIsRun(s, [BeginResult(i, m, code), Look(i)] + [BeginContinue(j, m, callback, device), Arm(j), Clear(i)]);
  }

  /** So is one that begins between the pop of an earlier push and the removal of its timeouts. */
  lemma LatePopDisarms(s: State, i: nat, j: nat, m: int, callback: Remote, device: DeviceId)
    requires i != j && j !in s.ops && i in s.ops && s.ops[i].Popping? && s.ops[i].mission == m && !callback.Null?
    ensures var steps := [Pop(i)] + [BeginContinue(j, m, callback, device), Arm(j), Clear(i)];
      && Executable(s, steps) && IsRun(After(s, steps), steps)
      && var s' := After(s, steps)[4];
      && m in s'.cont.callbacks && m !in s'.cont.timers && s'.ops.Keys == s.ops.Keys
      && forall k :: k in s.ops && k != i ==> s'.ops[k] == s.ops[k]
  {
    var s1 := Apply(s, Pop(i));
    var rest := [BeginContinue(j, m, callback, device), Arm(j), Clear(i)];
    BegunThenCleared(s1, i, j, m, callback, device);
    RunOne(s, Pop(i), rest);
    AfterIsRun(s, [Pop(i)] + [BeginContinue(j, m, callback, device), Arm(j), Clear(i)]);
  }

  lemma NoneInHand(s: State, s': State, i: nat, m: int)
    requires !InHand(s, m) && i in s'.ops && s'.ops[i].Sending?
    requires forall k :: k in s'.ops && k != i ==> k in s.ops && s'.ops[k] == s.ops[k]
    ensures !InHand(s', m)
  {
  }

  lemma RefusedFrom(s: State, j: nat, m: int)
    requires j in s.ops && s.ops[j].Asking? && s.ops[j].mission == m && m in s.cont.callbacks
    ensures var steps := [BeginRefusal(j), FinishRefusal(j)];
      && Executable(s, steps)
      && var s' := After(s, steps)[2];
      && m !in s'.cont.callbacks && s.cont.callbacks[m] !in s'.cont.popped
      && s'.cont.answers == s.cont.answers && s'.ops == s.ops - {j}
  {
    var s1 := Apply(s, BeginRefusal(j));
    var s2 := Apply(s1, FinishRefusal(j));
    assert s2.ops == s.ops - {j};
    assert Executable(s2, []) && After(s2, []) == [s2];
    RunOne(s1, FinishRefusal(j), []);
    RunOne(s, BeginRefusal(j), [FinishRefusal(j)] + []);
    assert [BeginRefusal(j)] + ([FinishRefusal(j)] + []) == [BeginRefusal(j), FinishRefusal(j)];
  }

  /** Two requests for one mission, the second one asking for installation: the refusal of the
      second takes out the callback of the first, which nobody holds then and nobody answered. */
  lemma RefusalTakesOther(s: State, j: nat, m: int, second: Remote, device: DeviceId)
    requires j !in s.ops && m in s.cont.callbacks
    ensures var steps := [BeginInstall(j, m, second, device), Arm(j)] + [BeginRefusal(j), FinishRefusal(j)];
      && Executable(s, steps) && IsRun(After(s, steps), steps)
      && var s' := After(s, steps)[4];
      && m !in s'.cont.callbacks && s.cont.callbacks[m] !in s'.cont.popped
      && s'.cont.answers == s.cont.answers && s'.ops == s.ops
  {
    var s1 := Apply(s, BeginInstall(j, m, second, device));
    var s2 := Apply(s1, Arm(j));
    assert s2.ops - {j} == s.ops;
    var rest := [BeginRefusal(j), FinishRefusal(j)];
    RefusedFrom(s2, j, m);
    RunOne(s1, Arm(j), rest);
    RunOne(s, BeginInstall(j, m, second, device), [Arm(j)] + rest);
    assert [BeginInstall(j, m, second, device)] + ([Arm(j)] + rest) ==
      [BeginInstall(j, m, second, device), Arm(j)] + rest;
    AfterIsRun(s, [BeginInstall(j, m, second, device), Arm(j)] + rest);
  }

  // ------------------------------------------------ whose callback a refusal discards

  /** A push that left the table does not come back. */
  lemma PushStep(s: State, step: Step, s': State, m: int)
    requires Enabled(s, step) && s' == Apply(s, step) && m in s'.cont.callbacks
    ensures var p := s'.cont.callbacks[m];
      (m in s.cont.callbacks && s.cont.callbacks[m] == p) || p.place == |s.cont.history|
  {
  }

  lemma HistoryStep(s: State, step: Step, s': State)
    requires Enabled(s, step) && s' == Apply(s, step)
    ensures |s.cont.history| <= |s'.cont.history|
  {
  }

  lemma {:induction false} HistoryGrows(states: seq<State>, steps: seq<Step>, i: nat, n: nat)
    requires IsRun(states, steps) && i <= n <= |steps|
    ensures |states[i].cont.history| <= |states[n].cont.history|
    decreases n
  {
    if i < n {
      HistoryGrows(states, steps, i, n - 1);
      assert StepAt(states, steps, n - 1);
      HistoryStep(states[n - 1], steps[n - 1], states[n]);
    }
  }

  lemma PushedBefore(states: seq<State>, steps: seq<Step>, i: nat, m: int)
    requires IsRun(states, steps) && states[0] == START && i <= |steps| && m in states[i].cont.callbacks
    ensures states[i].cont.callbacks[m].place < |states[i].cont.history|
  {
    RunOnce(states, steps, i);
  }

  lemma {:induction false} NeverReturns(states: seq<State>, steps: seq<Step>, i: nat, n: nat, m: int)
    requires IsRun(states, steps) && states[0] == START && i <= n <= |steps|
    requires m in states[i].cont.callbacks && m in states[n].cont.callbacks
    requires states[i].cont.callbacks[m] == states[n].cont.callbacks[m]
    ensures forall j :: i <= j <= n ==>
      m in states[j].cont.callbacks && states[j].cont.callbacks[m] == states[n].cont.callbacks[m]
    decreases n
  {
    if i < n {
      PushedBefore(states, steps, i, m);
      HistoryGrows(states, steps, i, n - 1);
      assert StepAt(states, steps, n - 1);
      PushStep(states[n - 1], steps[n - 1], states[n], m);
      NeverReturns(states, steps, i, n - 1, m);
    }
  }

  /** Two states of a run hold the same push exactly when every state between them does. */
  lemma SamePushIff(states: seq<State>, steps: seq<Step>, i: nat, n: nat, m: int)
    requires IsRun(states, steps) && states[0] == START && i <= n <= |steps|
    requires m in states[i].cont.callbacks && m in states[n].cont.callbacks
    ensures states[i].cont.callbacks[m] == states[n].cont.callbacks[m] <==> SamePush(states, i, n, m)
  {
    if states[i].cont.callbacks[m] == states[n].cont.callbacks[m] {
      NeverReturns(states, steps, i, n, m);
    }
  }

  predicate IsRequest(s: State, id: nat) {
    id in s.ops && (s.ops[id].ArmingInstall? || s.ops[id].Asking? || s.ops[id].Refusing?)
  }

  /** The operation `id` belongs to this request. */
  predicate Belongs(s: State, id: nat, m: int, own: Held) {
    IsRequest(s, id) && s.ops[id].mission == m && s.ops[id].own == own
  }

  /** The request that began at step i is still the operation `id` at n. */
  predicate SameRequest(states: seq<State>, i: nat, n: nat, id: nat)
    requires n < |states|
  {
    forall k :: i < k <= n ==> IsRequest(states[k], id)
  }

  function OwnPush(s: State, m: int, callback: Remote): Held {
    if C.PushAllowed(s.cont, m, callback) then Holding(C.Push(|s.cont.history|, callback)) else Nothing
  }

  lemma RequestBegins(s: State, id: nat, m: int, callback: Remote, device: DeviceId)
    requires Enabled(s, BeginInstall(id, m, callback, device))
    ensures Belongs(Apply(s, BeginInstall(id, m, callback, device)), id, m, OwnPush(s, m, callback))
  {
  }

  lemma RequestStep(s: State, step: Step, s': State, id: nat, m: int, own: Held)
    requires Enabled(s, step) && s' == Apply(s, step) && Belongs(s, id, m, own) && IsRequest(s', id)
    ensures Belongs(s', id, m, own)
  {
  }

  lemma {:induction false} RequestKeepsOwn(states: seq<State>, steps: seq<Step>, i: nat, n: nat, id: nat, m: int,
    own: Held)
    requires IsRun(states, steps) && i < n <= |steps| && Belongs(states[i + 1], id, m, own)
    requires SameRequest(states, i, n, id)
    ensures Belongs(states[n], id, m, own)
    decreases n
  {
    if i + 1 < n {
      RequestKeepsOwn(states, steps, i, n - 1, id, m, own);
      assert StepAt(states, steps, n - 1);
      RequestStep(states[n - 1], steps[n - 1], states[n], id, m, own);
    }
  }

  /** Whose callback a refusal discards. A request for installation that began at step i ends at
      step n by taking out the callback in the table. It is the request's own exactly when its
      own push succeeded and has been in the table ever since. */
  lemma RefusalDiscardsOwnIff(
    states: seq<State>, steps: seq<Step>, i: nat, n: nat, id: nat, m: int, callback: Remote, device: DeviceId)
    requires IsRun(states, steps) && states[0] == START && i < n < |steps|
    requires steps[i] == BeginInstall(id, m, callback, device) && SameRequest(states, i, n, id)
    requires steps[n] == FinishRefusal(id) && m in states[n].cont.callbacks
    ensures m !in states[n + 1].cont.callbacks && states[n + 1].cont.answers == states[n].cont.answers
    ensures states[n].ops[id].own == Holding(states[n].cont.callbacks[m]) <==>
      C.PushAllowed(states[i].cont, m, callback) && SamePush(states, i + 1, n, m)
  {
    assert StepAt(states, steps, i) && StepAt(states, steps, n);
    RequestBegins(states[i], id, m, callback, device);
    RequestKeepsOwn(states, steps, i, n, id, m, OwnPush(states[i], m, callback));
    if C.PushAllowed(states[i].cont, m, callback) {
      assert states[i + 1].cont.callbacks[m] == C.Push(|states[i].cont.history|, callback);
      SamePushIff(states, steps, i + 1, n, m);
    }
  }
}
