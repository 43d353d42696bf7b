/**
 Callbacks and registered tokens: exactly when every token that has callbacks is registered,
 over every interleaving of the sections of the registry.
 */
module RegistryCallbacks {
  import opened Codes
  import opened Sessions
  import opened Registry

  /** An operation under way will erase the callbacks of the token. */
  ghost predicate Leaving(s: Reg, t: int) {
    exists id :: id in s.ops && s.ops[id] == Forgetting(t)
  }

  predicate IsRegistered(s: Reg, t: int) {
    Has(Flat(s.apps), t)
  }

  ghost predicate Covered(s: Reg, t: int) {
    t in s.callbacks ==> IsRegistered(s, t) || Leaving(s, t)
  }

  ghost predicate Accounted(s: Reg) {
    forall t :: Covered(s, t)
  }

  /** The sections that do no harm: a callback is entered while its token is registered or about
      to be forgotten; a token is swept while it has no callbacks, or a copy of it stays, or
      another operation is about to forget it. */
  ghost predicate Harmless(s: Reg, step: Step) {
    match step
    case EnterCallback(id) =>
      id in s.ops && s.ops[id].Entering? ==> IsRegistered(s, s.ops[id].token) || Leaving(s, s.ops[id].token)
    case SweepToken(id) =>
      id in s.ops && s.ops[id].Sweeping? ==>
        var t := s.ops[id].token; t !in s.callbacks || Shielded(s.apps, t) || Leaving(s, t)
    case _ => true
  }

  // ------------------------------------------------------------- section by section

  lemma SameLeaving(s: Reg, s': Reg, id: nat, t: int)
    requires id in s.ops ==> !s.ops[id].Forgetting?
    requires id in s'.ops ==> !s'.ops[id].Forgetting?
    requires forall i :: i != id ==> (i in s.ops <==> i in s'.ops) && (i in s.ops ==> s.ops[i] == s'.ops[i])
    ensures Leaving(s, t) <==> Leaving(s', t)
  {
  }

  lemma StillLeaving(s: Reg, s': Reg, id: nat, t: int)
    requires Leaving(s, t) && (id in s.ops ==> s.ops[id] != Forgetting(t))
    requires forall i :: i in s.ops && i != id ==> i in s'.ops && s.ops[i] == s'.ops[i]
    ensures Leaving(s', t)
  {
    var i :| i in s.ops && s.ops[i] == Forgetting(t);
    assert s'.ops[i] == Forgetting(t);
  }

  lemma RegisterCovered(s: Reg, step: Step, s': Reg, t: int)
    requires Covered(s, t) && Moves(s, step, s') && (step.CheckLimit? || step.TakeToken? || step.EnterToken?)
    ensures Covered(s', t)
  {
    assert Leaving(s, t) ==> Leaving(s', t);
    if step.EnterToken? && IsRegistered(s, t) {
      var k := AppendedFlat(s.apps, s.flight[step.id].app, s.flight[step.id].entry);
      InsertedHas(Flat(s.apps), k, s.flight[step.id].entry, t);
    }
  }

  lemma BeginCovered(s: Reg, id: nat, op: Op, allowed: bool, t: int)
    requires Covered(s, t) && id !in s.ops
    ensures Covered(Begun(s, id, op, allowed), t)
  {
    if Leaving(s, t) {
      StillLeaving(s, Begun(s, id, op, allowed), id, t);
    }
  }

  lemma EraseCovered(s: Reg, id: nat, t: int)
    requires Covered(s, t) && id in s.ops && s.ops[id].Forgetting?
    ensures Covered(OpNext(s, id), t)
  {
    if t != s.ops[id].token && Leaving(s, t) {
      StillLeaving(s, OpNext(s, id), id, t);
    }
  }

  /** What the sweep does to the cover of each token, both ways. */
  lemma SweepCovered(s: Reg, id: nat, t: int)
    requires Covered(s, t) && id in s.ops && s.ops[id].Sweeping?
    ensures Covered(OpNext(s, id), t) <==>
      t != s.ops[id].token || t !in s.callbacks || Shielded(s.apps, t) || Leaving(s, t)
  {
    SameLeaving(s, OpNext(s, id), id, t);
    if t == s.ops[id].token {
      SweepLeavesIff(s.apps, t);
    } else {
      SweptHas(s.apps, s.ops[id].token, t);
    }
  }

  lemma EnterCovered(s: Reg, id: nat, t: int)
    requires Covered(s, t) && id in s.ops && s.ops[id].Entering?
    ensures Covered(OpNext(s, id), t) <==> t != s.ops[id].token || IsRegistered(s, t) || Leaving(s, t)
  {
    SameLeaving(s, OpNext(s, id), id, t);
  }

  lemma OtherCovered(s: Reg, id: nat, t: int)
    requires Covered(s, t) && id in s.ops && (s.ops[id].Selecting? || s.ops[id].Unselecting? || s.ops[id].Removing?)
    ensures Covered(OpNext(s, id), t)
  {
    SameLeaving(s, OpNext(s, id), id, t);
  }

  lemma MoveCovered(s: Reg, step: Step, s': Reg, t: int)
    requires Covered(s, t) && Moves(s, step, s') && Harmless(s, step)
    ensures Covered(s', t)
  {
    match step
    case BeginUnregister(id, a, u) => BeginCovered(s, id, Forgetting(u), Has(Listed(s.apps, a), u), t);
    case NotifierDies(id, _, u) => BeginCovered(s, id, Forgetting(u), true, t);
    case BeginSelect(id, a, u, cbType, notifier) =>
      BeginCovered(s, id, Selecting(u, cbType, notifier), Known(cbType) && Has(Listed(s.apps, a), u), t);
    case BeginUnselect(id, a, u, cbType) =>
      BeginCovered(s, id, Unselecting(u, cbType), Known(cbType) && Has(Listed(s.apps, a), u), t);
    case EraseCallbacks(id) => EraseCovered(s, id, t);
    case SweepToken(id) => SweepCovered(s, id, t);
    case EnterCallback(id) => EnterCovered(s, id, t);
    case CheckSelect(id) => OtherCovered(s, id, t);
    case CheckUnselect(id) => OtherCovered(s, id, t);
    case RemoveCallback(id) => OtherCovered(s, id, t);
    case _ => RegisterCovered(s, step, s', t);
  }

  lemma HarmlessKeeps(s: Reg, step: Step, s': Reg)
    requires Accounted(s) && Moves(s, step, s') && Harmless(s, step)
    ensures Accounted(s')
  {
    forall t
      ensures Covered(s', t)
    {
      assert Covered(s, t);
      MoveCovered(s, step, s', t);
    }
  }

  lemma HarmfulBreaks(s: Reg, step: Step, s': Reg)
    requires Accounted(s) && Moves(s, step, s') && !Harmless(s, step)
    ensures !Accounted(s')
  {
    var t := s.ops[step.id].token;
    assert Covered(s, t);
    if step.EnterCallback? {
      EnterCovered(s, step.id, t);
    } else {
      SweepCovered(s, step.id, t);
    }
    assert !Covered(s', t);
  }

  /** One section keeps every token with callbacks covered exactly when it is harmless. */
  lemma AccountedSectionIff(s: Reg, step: Step, s': Reg)
    requires Accounted(s) && Moves(s, step, s')
    ensures Accounted(s') <==> Harmless(s, step)
  {
    if Harmless(s, step) {
      HarmlessKeeps(s, step, s');
    } else {
      HarmfulBreaks(s, step, s');
    }
  }

  // ---------------------------------------------------- what the invariant means

  function Forgetters(s: Reg): set<nat> {
    set id | id in s.ops && s.ops[id].Forgetting?
  }

  predicate OnlyErases(steps: seq<Step>) {
    forall i :: 0 <= i < |steps| ==> steps[i].EraseCallbacks?
  }

  ghost predicate AllRegistered(s: Reg) {
    forall t :: t in s.callbacks ==> IsRegistered(s, t)
  }

  /** Once the callbacks that are about to be erased are erased, all tokens with callbacks are
      registered. */
  ghost predicate Sound(s: Reg) {
    forall states: seq<Reg>, steps: seq<Step> ::
      IsRun(states, steps) && states[0] == s && OnlyErases(steps) && Forgetters(states[|steps|]) == {} ==>
      AllRegistered(states[|steps|])
  }

  lemma {:induction false} ErasesKeep(states: seq<Reg>, steps: seq<Step>, n: nat)
    requires IsRun(states, steps) && OnlyErases(steps) && Accounted(states[0]) && n <= |steps|
    ensures Accounted(states[n])
  {
    if n > 0 {
      ErasesKeep(states, steps, n - 1);
      HarmlessKeeps(states[n - 1], steps[n - 1], states[n]);
    }
  }

  lemma NobodyForgets(s: Reg, t: int)
    requires Forgetters(s) == {} && Covered(s, t)
    ensures t in s.callbacks ==> IsRegistered(s, t)
  {
    assert forall id :: id in s.ops && s.ops[id].Forgetting? ==> id in Forgetters(s);
  }

  lemma FewerLeave(s: Reg, id: nat, t: int)
    requires id in s.ops && s.ops[id].Forgetting?
    ensures Leaving(OpNext(s, id), t) ==> Leaving(s, t)
  {
    var s' := OpNext(s, id);
    if Leaving(s', t) {
      var i :| i in s'.ops && s'.ops[i] == Forgetting(t);
      assert i in s.ops && s.ops[i] == Forgetting(t);
    }
  }

  lemma EraseOne(s: Reg, id: nat, t: int)
    requires id in s.ops && s.ops[id].Forgetting? && !Covered(s, t)
    ensures !Covered(OpNext(s, id), t) && Forgetters(OpNext(s, id)) == Forgetters(s) - {id}
  {
    assert s.ops[id].token != t;
    FewerLeave(s, id, t);
  }

  lemma {:induction false} EraseAll(states: seq<Reg>, steps: seq<Step>, t: int)
    returns (states': seq<Reg>, steps': seq<Step>)
    requires IsRun(states, steps) && OnlyErases(steps) && !Covered(states[|steps|], t)
    ensures IsRun(states', steps') && OnlyErases(steps') && states'[0] == states[0]
    ensures Forgetters(states'[|steps'|]) == {} && !AllRegistered(states'[|steps'|])
    decreases |Forgetters(states[|steps|])|
  {
    var s := states[|steps|];
    if Forgetters(s) == {} {
      states', steps' := states, steps;
    } else {
      var id: nat :| id in Forgetters(s);
      EraseOne(s, id, t);
      RunExtends(states, steps, EraseCallbacks(id), OpNext(s, id));
      states', steps' := EraseAll(states + [OpNext(s, id)], steps + [EraseCallbacks(id)], t);
    }
  }

  /** The invariant says neither too much nor too little: it holds exactly when all tokens with
      callbacks are registered once pending erasures are done, in whatever order. */
  lemma AccountedIff(s: Reg)
    ensures Accounted(s) <==> Sound(s)
  {
    if Accounted(s) {
      forall states: seq<Reg>, steps: seq<Step> |
        IsRun(states, steps) && states[0] == s && OnlyErases(steps) && Forgetters(states[|steps|]) == {}
        ensures AllRegistered(states[|steps|])
      {
        ErasesKeep(states, steps, |steps|);
        forall t | t in states[|steps|].callbacks
          ensures IsRegistered(states[|steps|], t)
        {
          NobodyForgets(states[|steps|], t);
        }
      }
    } else {
      var t :| !Covered(s, t);
      var states, steps := EraseAll([s], [], t);
      assert !AllRegistered(states[|steps|]);
    }
  }

  // ------------------------------------------------------------- the main results

  lemma {:induction false} HarmlessSoFar(states: seq<Reg>, steps: seq<Step>, n: nat)
    requires IsRun(states, steps) && Fresh(states[0]) && n <= |steps|
    ensures (forall i :: 0 <= i <= n ==> Accounted(states[i])) <==>
      forall i :: 0 <= i < n ==> Harmless(states[i], steps[i])
  {
    if n > 0 {
      HarmlessSoFar(states, steps, n - 1);
      if Accounted(states[n - 1]) {
        AccountedSectionIff(states[n - 1], steps[n - 1], states[n]);
      }
      assert (forall i :: 0 <= i <= n ==> Accounted(states[i])) <==>
        (forall i :: 0 <= i <= n - 1 ==> Accounted(states[i])) && Accounted(states[n]);
      assert (forall i :: 0 <= i < n ==> Harmless(states[i], steps[i])) <==>
        (forall i :: 0 <= i < n - 1 ==> Harmless(states[i], steps[i])) && Harmless(states[n - 1], steps[n - 1]);
    }
  }

  /** The exact condition, over every interleaving of sections from a start: in every state of the
      run all tokens with callbacks are registered, once pending erasures are done, exactly
      when every callback entered and every token swept was harmless. */
  lemma CallbacksRegisteredIff(states: seq<Reg>, steps: seq<Step>)
    requires IsRun(states, steps) && Fresh(states[0])
    ensures (forall i :: 0 <= i <= |steps| ==> Sound(states[i])) <==>
      forall i :: 0 <= i < |steps| ==> Harmless(states[i], steps[i])
  {
    forall i | 0 <= i <= |steps|
      ensures Accounted(states[i]) <==> Sound(states[i])
    {
      AccountedIff(states[i]);
    }
    HarmlessSoFar(states, steps, |steps|);
  }

  // --------------------------------------------------- one operation at a time

  /** Operations on callbacks and tokens begin only when no other is under way; registrations may
      mix with them. */
  predicate OneAtATime(s: Reg, step: Step) {
    step.BeginUnregister? || step.NotifierDies? || step.BeginSelect? || step.BeginUnselect? ==> s.ops == map[]
  }

  /** What the only operation under way relies on still holds. */
  predicate Steady(s: Reg, op: Op) {
    && (op.Selecting? || op.Entering? ==> IsRegistered(s, op.token))
    && (op.Sweeping? ==> op.token !in s.callbacks)
  }

  ghost predicate SteadyAlone(s: Reg) {
    && (forall id :: id in s.ops ==> Steady(s, s.ops[id]))
    && (forall id, id' :: id in s.ops && id' in s.ops ==> id == id')
  }

  lemma SteadyEnter(s: Reg, id: nat)
    requires SteadyAlone(s) && id in s.flight && s.flight[id].Numbered?
    ensures SteadyAlone(Entered(s, id, s.flight[id].app, s.flight[id].entry))
  {
    var s' := Entered(s, id, s.flight[id].app, s.flight[id].entry);
    forall i | i in s.ops
      ensures Steady(s', s.ops[i])
    {
      assert Steady(s, s.ops[i]);
      if IsRegistered(s, s.ops[i].token) {
        var k := AppendedFlat(s.apps, s.flight[id].app, s.flight[id].entry);
        InsertedHas(Flat(s.apps), k, s.flight[id].entry, s.ops[i].token);
      }
    }
  }

  lemma SteadyNext(s: Reg, id: nat)
    requires SteadyAlone(s) && id in s.ops
    ensures SteadyAlone(OpNext(s, id))
  {
    assert Steady(s, s.ops[id]);
    assert forall i :: i in OpNext(s, id).ops ==> i == id;
  }

  lemma SteadyStep(s: Reg, step: Step, s': Reg)
    requires SteadyAlone(s) && Moves(s, step, s') && OneAtATime(s, step)
    ensures SteadyAlone(s') && Harmless(s, step)
  {
    if step.EnterToken? {
      SteadyEnter(s, step.id);
    } else if step.CheckLimit? || step.TakeToken? {
      assert forall i :: i in s.ops && Steady(s, s.ops[i]) ==> Steady(s', s.ops[i]);
    } else if step.id in s.ops {
      SteadyNext(s, step.id);
    } else if step.BeginSelect? && Has(Listed(s.apps, step.app), step.token) {
      ListedHas(s.apps, step.app, step.token);
    }
  }

  lemma {:induction false} OneAtATimeSteady(states: seq<Reg>, steps: seq<Step>, n: nat)
    requires IsRun(states, steps) && Fresh(states[0]) && n <= |steps|
    requires forall i :: 0 <= i < n ==> OneAtATime(states[i], steps[i])
    ensures SteadyAlone(states[n]) && forall i :: 0 <= i < n ==> Harmless(states[i], steps[i])
  {
    if n > 0 {
      OneAtATimeSteady(states, steps, n - 1);
      SteadyStep(states[n - 1], steps[n - 1], states[n]);
    }
  }

  /** When each operation is finished before the next one begins, every token with callbacks is
      registered whenever none is giving a token back. */
  lemma OneAtATimeRegistered(states: seq<Reg>, steps: seq<Step>, n: nat, t: int)
    requires IsRun(states, steps) && Fresh(states[0]) && n <= |steps|
    requires forall i :: 0 <= i < n ==> OneAtATime(states[i], steps[i])
    requires Forgetters(states[n]) == {} && t in states[n].callbacks
    ensures IsRegistered(states[n], t)
  {
    OneAtATimeSteady(states, steps, n);
    HarmlessSoFar(states, steps, n);
    assert Covered(states[n], t);
    NobodyForgets(states[n], t);
  }

  // ----------------------------------------------------------------- a crossing

  lemma CrossingSections(s: Reg, i: nat, j: nat, a: nat, t: int, cbType: string, notifier: Remote)
    returns (s2: Reg, s5: Reg)
    requires RegOk(s) && TokensApart(Flat(s.apps)) && SetCode(s, a, t, cbType) == ERR_OK
    requires i != j && i !in s.ops && j !in s.ops
    ensures s2 == s.(ops := s.ops[i := Entering(t, cbType, notifier)])
    ensures s2 == OpNext(Begun(s, i, Selecting(t, cbType, notifier), true), i)
    ensures s5 == OpNext(OpNext(Begun(s2, j, Forgetting(t), true), j), j)
    ensures s5.ops == s2.ops && t !in s5.callbacks && !IsRegistered(s5, t)
  {
    s2 := s.(ops := s.ops[i := Entering(t, cbType, notifier)]);
    s5 := OpNext(OpNext(Begun(s2, j, Forgetting(t), true), j), j);
    assert s5.ops == s2.ops;
    ApartLists(s.apps, t);
    SweepLeavesIff(s.apps, t);
  }

  /** A run: a selection callback has passed its checks, the token is given back in full, and then
      the callback is entered, for a token that nobody holds. */
  lemma SelectionCrossesUnregister(
    states: seq<Reg>, steps: seq<Step>, i: nat, j: nat, a: nat, t: int, cbType: string, notifier: Remote)
    returns (states': seq<Reg>, steps': seq<Step>)
    requires IsRun(states, steps) && Fresh(states[0]) && Recent(Flat(states[|steps|].apps)) && !notifier.Null?
    requires SetCode(states[|steps|], a, t, cbType) == ERR_OK
    requires i != j && i !in states[|steps|].ops && j !in states[|steps|].ops
    ensures IsRun(states', steps') && states'[0] == states[0]
    ensures var s, s' := states[|steps|], states'[|steps'|];
      t in s'.callbacks && !IsRegistered(s', t) && s'.ops == s.ops
  {
    var s := states[|steps|];
    RunKeeps(states, steps, |steps|);
    RecentTokensApart(states, steps, |steps|);
    var s2, s5 := CrossingSections(s, i, j, a, t, cbType, notifier);
    var s1 := Begun(s, i, Selecting(t, cbType, notifier), true);
    states', steps' := Extended(states, steps, BeginSelect(i, a, t, cbType, notifier), s1);
    states', steps' := Extended(states', steps', CheckSelect(i), s2);
    var s3 := Begun(s2, j, Forgetting(t), true);
    states', steps' := Extended(states', steps', BeginUnregister(j, a, t), s3);
    states', steps' := Extended(states', steps', EraseCallbacks(j), OpNext(s3, j));
    states', steps' := Extended(states', steps', SweepToken(j), s5);
    states', steps' := Extended(states', steps', EnterCallback(i), OpNext(s5, i));
    assert OpNext(s5, i).ops == s.ops;
  }

  lemma Extended(states: seq<Reg>, steps: seq<Step>, step: Step, s: Reg) returns (states': seq<Reg>, steps': seq<Step>)
    requires IsRun(states, steps) && Moves(states[|steps|], step, s)
    ensures IsRun(states', steps') && states'[0] == states[0] && states'[|steps'|] == s
  {
    RunExtends(states, steps, step, s);
    states', steps' := states + [s], steps + [step];
  }
}
