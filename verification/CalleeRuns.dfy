/**
 The callee's side under every interleaving of its locked sections.

 A call looks up its wrapper, starts the ability, stores the callee, makes sure of the
 observer of the bundle and records the observer, each in its own section. The end of a call
 erases the callee, drops the observer and then the bundle if nobody else uses it. What an
 operation will do next is in `ops`.
 */
module CalleeRuns {
  import opened Sessions
  import opened CalleeTables

  datatype Op =
    | Found(call: Call, wrapper: Remote)
    | Stored(call: Call, wrapper: Remote)
    | Adding(call: Call, wrapper: Remote, observer: Observer)
    | Ending(wrapper: Remote)
    | Freeing(bundle: string)

  datatype State = State(tables: Callee, ops: map<nat, Op>)

  datatype Section =
    | FindWrapper(id: nat, call: Call)
    | StartFails(id: nat)
    | StoreCallee(id: nat)
    | AddBundle(id: nat)
    | AddObserver(id: nat)
    | EraseCallee(id: nat, connect: Remote)
    | CallerDies(id: nat, connect: Remote)
    | DropObserver(id: nat)
    | DropBundle(id: nat)
    | SetToken(wrapper: Remote, token: Remote)

  predicate Enabled(s: State, section: Section) {
    match section
    case FindWrapper(id, call) => id !in s.ops && !call.newWrapper.Null?
    case StartFails(id) => id in s.ops && s.ops[id].Found?
    case StoreCallee(id) => id in s.ops && s.ops[id].Found?
    case AddBundle(id) => id in s.ops && s.ops[id].Stored?
    case AddObserver(id) => id in s.ops && s.ops[id].Adding?
    case EraseCallee(id, c) => id !in s.ops && c in s.tables.callees
    case CallerDies(id, c) => id !in s.ops && !c.Null?
    case DropObserver(id) => id in s.ops && s.ops[id].Ending?
    case DropBundle(id) => id in s.ops && s.ops[id].Freeing?
    case SetToken(w, _) => w in s.tables.observers
  }

  function BundleSection(s: State, id: nat, call: Call, wrapper: Remote): State {
    var tables := BundleAdded(s.tables, call);
    State(tables,
      if BundleReady(s.tables, call)
      then s.ops[id := Adding(call, wrapper, tables.bundles[call.element.bundleName])] else s.ops - {id})
  }

  /** The wrapper of an ending call is never null: stored wrappers are new objects, and the
      death of a null connect is ignored. */
  function ObserverSection(s: State, id: nat, wrapper: Remote): State {
    if wrapper !in s.tables.observers then s.(ops := s.ops - {id})
    else
      var bundle, tables := s.tables.observers[wrapper].dstBundleName, ObserverDropped(s.tables, wrapper);
      State(tables, if BundleInUse(tables, bundle) then s.ops - {id} else s.ops[id := Freeing(bundle)])
  }

  function Erased(s: State, id: nat, c: Remote): State
    requires c in s.tables.callees
  {
    State(CalleeDropped(s.tables, c), s.ops[id := Ending(s.tables.callees[c].callbackWrapper)])
  }

  function Apply(s: State, section: Section): State
    requires Enabled(s, section)
  {
    match section
    case FindWrapper(id, call) => s.(ops := s.ops[id := Found(call, WrapperFor(s.tables, call))])
    case StartFails(id) => s.(ops := s.ops - {id})
    case StoreCallee(id) =>
      var call, wrapper := s.ops[id].call, s.ops[id].wrapper;
      State(CalleeAdded(s.tables, call, wrapper),
        if WantsObserver(call) then s.ops[id := Stored(call, wrapper)] else s.ops - {id})
    case AddBundle(id) => BundleSection(s, id, s.ops[id].call, s.ops[id].wrapper)
    case AddObserver(id) =>
      State(ObserverAdded(s.tables, s.ops[id].call, s.ops[id].wrapper, s.ops[id].observer), s.ops - {id})
    case EraseCallee(id, c) => Erased(s, id, c)
    case CallerDies(id, c) => if c in s.tables.callees then Erased(s, id, c) else s.(ops := s.ops[id := Ending(c)])
    case DropObserver(id) => ObserverSection(s, id, s.ops[id].wrapper)
    case DropBundle(id) => State(BundleDropped(s.tables, s.ops[id].bundle), s.ops - {id})
    case SetToken(w, token) => s.(tables := TokenSet(s.tables, w, token))
  }

  const START: State := State(Callee(map[], map[], map[]), map[])

  /** `states` are the states visited, the first one included. */
  predicate IsRun(states: seq<State>, sections: seq<Section>) {
    && |states| == |sections| + 1
    && forall i :: 0 <= i < |sections| ==>
      Enabled(states[i], sections[i]) && states[i + 1] == Apply(states[i], sections[i])
  }

  // ------------------------------------------------------------- the invariant

  /** An operation under way will drop the observer of this wrapper. */
  ghost predicate Leaving(s: State, w: Remote) {
    exists id :: id in s.ops && s.ops[id] == Ending(w)
  }

  /** The observer agrees with the other two maps, or is about to go. */
  ghost predicate Covered(s: State, w: Remote) {
    Leaving(s, w) || ObserverOk(s.tables, w)
  }

  ghost predicate Accounted(s: State) {
    forall w :: Covered(s, w)
  }

  /** The sections that do no harm: an observer is recorded while its call runs with that wrapper
      and its bundle still has that observer, or while it is about to be dropped anyway; a
      bundle is freed while all its observers are about to be dropped. */
  ghost predicate Harmless(s: State, section: Section)
    requires Enabled(s, section)
  {
    match section
    case AddObserver(id) =>
      var op := s.ops[id];
      || Leaving(s, op.wrapper)
      || (&& op.call.connect in s.tables.callees && s.tables.callees[op.call.connect].callbackWrapper == op.wrapper
          && op.call.element.bundleName in s.tables.bundles
          && s.tables.bundles[op.call.element.bundleName] == op.observer)
    case DropBundle(id) =>
      forall w :: w in s.tables.observers && s.tables.observers[w].dstBundleName == s.ops[id].bundle ==> Leaving(s, w)
    case _ => true
  }

  lemma SameLeaving(s: State, s': State, id: nat, w: Remote)
    requires id in s.ops ==> !s.ops[id].Ending?
    requires id in s'.ops ==> !s'.ops[id].Ending?
    requires forall i :: i != id ==> (i in s.ops <==> i in s'.ops) && (i in s.ops ==> s.ops[i] == s'.ops[i])
    ensures Leaving(s, w) <==> Leaving(s', w)
  {
  }

  lemma StillLeaving(s: State, s': State, id: nat, w: Remote)
    requires Leaving(s, w) && (id in s.ops ==> s.ops[id] != Ending(w))
    requires forall i :: i in s.ops && i != id ==> i in s'.ops && s.ops[i] == s'.ops[i]
    ensures Leaving(s', w)
  {
    var i :| i in s.ops && s.ops[i] == Ending(w);
    assert s'.ops[i] == Ending(w);
  }

  lemma CallCovered(s: State, section: Section, w: Remote)
    requires Enabled(s, section) && Covered(s, w)
    requires section.FindWrapper? || section.StartFails? || section.StoreCallee? || section.AddBundle?
    ensures Covered(Apply(s, section), w)
  {
    SameLeaving(s, Apply(s, section), section.id, w);
  }

  lemma RecordCovered(s: State, id: nat, w: Remote)
    requires Enabled(s, AddObserver(id)) && Harmless(s, AddObserver(id)) && Covered(s, w)
    ensures Covered(Apply(s, AddObserver(id)), w)
  {
    SameLeaving(s, Apply(s, AddObserver(id)), id, w);
  }

  lemma EraseCovered(s: State, id: nat, c: Remote, w: Remote)
    requires id !in s.ops && c in s.tables.callees && Covered(s, w)
    ensures Covered(Erased(s, id, c), w)
  {
    var s' := Erased(s, id, c);
    if w == s.tables.callees[c].callbackWrapper {
      assert s'.ops[id] == Ending(w);
    } else if Leaving(s, w) {
      StillLeaving(s, s', id, w);
    }
  }

  lemma DieCovered(s: State, id: nat, c: Remote, w: Remote)
    requires id !in s.ops && Covered(s, w)
    ensures Covered(s.(ops := s.ops[id := Ending(c)]), w)
  {
    if Leaving(s, w) {
      StillLeaving(s, s.(ops := s.ops[id := Ending(c)]), id, w);
    }
  }

  lemma DropCovered(s: State, id: nat, w: Remote)
    requires id in s.ops && s.ops[id].Ending? && Covered(s, w)
    ensures Covered(ObserverSection(s, id, s.ops[id].wrapper), w)
  {
    var s' := ObserverSection(s, id, s.ops[id].wrapper);
    if w != s.ops[id].wrapper && Leaving(s, w) {
      StillLeaving(s, s', id, w);
    }
  }

  lemma FreeCovered(s: State, id: nat, w: Remote)
    requires Enabled(s, DropBundle(id)) && Harmless(s, DropBundle(id)) && Covered(s, w)
    ensures Covered(Apply(s, DropBundle(id)), w)
  {
    SameLeaving(s, Apply(s, DropBundle(id)), id, w);
  }

  lemma HarmlessKeeps(s: State, section: Section)
    requires Accounted(s) && Enabled(s, section) && Harmless(s, section)
    ensures Accounted(Apply(s, section))
  {
    forall w
      ensures Covered(Apply(s, section), w)
    {
      assert Covered(s, w);
      if section.AddObserver? {
        RecordCovered(s, section.id, w);
      } else if section.EraseCallee? {
        EraseCovered(s, section.id, section.connect, w);
      } else if section.CallerDies? {
        if section.connect in s.tables.callees {
          EraseCovered(s, section.id, section.connect, w);
        } else {
          DieCovered(s, section.id, section.connect, w);
        }
      } else if section.DropObserver? {
        DropCovered(s, section.id, w);
      } else if section.DropBundle? {
        FreeCovered(s, section.id, w);
      } else if section.SetToken? {
        assert Leaving(s, w) <==> Leaving(Apply(s, section), w);
      } else {
        CallCovered(s, section, w);
      }
    }
  }

  lemma HarmfulBreaks(s: State, section: Section) returns (w: Remote)
    requires Enabled(s, section) && !Harmless(s, section)
    ensures !Covered(Apply(s, section), w)
  {
    if section.AddObserver? {
      w := s.ops[section.id].wrapper;
    } else {
      w :| w in s.tables.observers && s.tables.observers[w].dstBundleName == s.ops[section.id].bundle && !Leaving(s, w);
    }
    SameLeaving(s, Apply(s, section), section.id, w);
  }

  /** One section keeps every observer covered exactly when it is harmless. */
  lemma AccountedSectionIff(s: State, section: Section)
    requires Accounted(s) && Enabled(s, section)
    ensures Accounted(Apply(s, section)) <==> Harmless(s, section)
  {
    if Harmless(s, section) {
      HarmlessKeeps(s, section);
    } else {
      var w := HarmfulBreaks(s, section);
    }
  }

  // ---------------------------------------------------- what the invariant means

  function EndingOps(s: State): set<nat> {
    set id | id in s.ops && s.ops[id].Ending?
  }

  predicate OnlyDrops(sections: seq<Section>) {
    forall i :: 0 <= i < |sections| ==> sections[i].DropObserver?
  }

  /** The three maps agree on every observer. */
  ghost predicate MapsAgree(tables: Callee) {
    forall w :: ObserverOk(tables, w)
  }

  /** Once the observers that are about to be dropped are dropped, the maps agree. */
  ghost predicate Sound(s: State) {
    forall states: seq<State>, sections: seq<Section> ::
      IsRun(states, sections) && states[0] == s && OnlyDrops(sections) && EndingOps(states[|sections|]) == {} ==>
      MapsAgree(states[|sections|].tables)
  }

  lemma {:induction false} DropsKeep(states: seq<State>, sections: seq<Section>, n: nat)
    requires IsRun(states, sections) && OnlyDrops(sections) && Accounted(states[0]) && n <= |sections|
    ensures Accounted(states[n])
  {
    if n > 0 {
      DropsKeep(states, sections, n - 1);
      HarmlessKeeps(states[n - 1], sections[n - 1]);
    }
  }

  lemma NobodyLeaves(s: State, w: Remote)
    requires EndingOps(s) == {} && Covered(s, w)
    ensures ObserverOk(s.tables, w)
  {
    assert forall id :: id in s.ops && s.ops[id].Ending? ==> id in EndingOps(s);
  }

  lemma FewerLeave(s: State, id: nat, w: Remote)
    requires id in s.ops && s.ops[id].Ending?
    ensures Leaving(ObserverSection(s, id, s.ops[id].wrapper), w) ==> Leaving(s, w)
  {
    var s' := ObserverSection(s, id, s.ops[id].wrapper);
    if Leaving(s', w) {
      var i :| i in s'.ops && s'.ops[i] == Ending(w);
      assert i in s.ops && s.ops[i] == Ending(w);
    }
  }

  lemma DropOne(s: State, id: nat, w: Remote)
    requires id in s.ops && s.ops[id].Ending? && !Covered(s, w)
    ensures var s' := ObserverSection(s, id, s.ops[id].wrapper);
      !Covered(s', w) && EndingOps(s') == EndingOps(s) - {id}
  {
    var s' := ObserverSection(s, id, s.ops[id].wrapper);
    assert s.ops[id].wrapper != w;
    FewerLeave(s, id, w);
  }

  lemma RunExtends(states: seq<State>, sections: seq<Section>, section: Section)
    requires IsRun(states, sections) && Enabled(states[|sections|], section)
    ensures IsRun(states + [Apply(states[|sections|], section)], sections + [section])
  {
  }

  lemma {:induction false} DropAll(states: seq<State>, sections: seq<Section>, w: Remote)
    returns (states': seq<State>, sections': seq<Section>)
    requires IsRun(states, sections) && OnlyDrops(sections) && !Covered(states[|sections|], w)
    ensures IsRun(states', sections') && OnlyDrops(sections') && states'[0] == states[0]
    ensures EndingOps(states'[|sections'|]) == {} && !ObserverOk(states'[|sections'|].tables, w)
    decreases |EndingOps(states[|sections|])|
  {
    var s := states[|sections|];
    if EndingOps(s) == {} {
      states', sections' := states, sections;
    } else {
      var id: nat :| id in EndingOps(s);
      DropOne(s, id, w);
      RunExtends(states, sections, DropObserver(id));
      states', sections' := DropAll(states + [Apply(s, DropObserver(id))], sections + [DropObserver(id)], w);
    }
  }

  /** The invariant says neither too much nor too little: it holds exactly when the maps agree
      once the observers that are about to be dropped are dropped, in whatever order. */
  lemma AccountedIff(s: State)
    ensures Accounted(s) <==> Sound(s)
  {
    if Accounted(s) {
      forall states: seq<State>, sections: seq<Section> |
        IsRun(states, sections) && states[0] == s && OnlyDrops(sections) && EndingOps(states[|sections|]) == {}
        ensures MapsAgree(states[|sections|].tables)
      {
        DropsKeep(states, sections, |sections|);
        forall w
          ensures ObserverOk(states[|sections|].tables, w)
        {
          NobodyLeaves(states[|sections|], w);
        }
      }
    } else {
      var w :| !Covered(s, w);
      var states, sections := DropAll([s], [], w);
      assert !MapsAgree(states[|sections|].tables);
    }
  }

  // ------------------------------------------------------------- the main results

  lemma {:induction false} HarmlessSoFar(states: seq<State>, sections: seq<Section>, n: nat)
    requires IsRun(states, sections) && states[0] == START && n <= |sections|
    ensures (forall i :: 0 <= i <= n ==> Accounted(states[i])) <==>
      forall i :: 0 <= i < n ==> Harmless(states[i], sections[i])
  {
    if n > 0 {
      HarmlessSoFar(states, sections, n - 1);
      if Accounted(states[n - 1]) {
        AccountedSectionIff(states[n - 1], sections[n - 1]);
      }
      assert (forall i :: 0 <= i <= n ==> Accounted(states[i])) <==>
        (forall i :: 0 <= i <= n - 1 ==> Accounted(states[i])) && Accounted(states[n]);
      assert (forall i :: 0 <= i < n ==> Harmless(states[i], sections[i])) <==>
        (forall i :: 0 <= i < n - 1 ==> Harmless(states[i], sections[i])) && Harmless(states[n - 1], sections[n - 1]);
    }
  }

  /** The exact condition, over every interleaving of sections from the start: the maps agree in
      every state of the run, once pending drops are done, exactly when every observer recorded
      and every bundle freed was harmless. */
  lemma MapsAgreeIff(states: seq<State>, sections: seq<Section>)
    requires IsRun(states, sections) && states[0] == START
    ensures (forall i :: 0 <= i <= |sections| ==> Sound(states[i])) <==>
      forall i :: 0 <= i < |sections| ==> Harmless(states[i], sections[i])
  {
    forall i | 0 <= i <= |sections|
      ensures Accounted(states[i]) <==> Sound(states[i])
    {
      AccountedIff(states[i]);
    }
    HarmlessSoFar(states, sections, |sections|);
  }

  /** In a harmless run the observer found for a connect is the wrapper of its running call, and
      the only one, whenever no call is ending. */
  lemma HarmlessRunAgrees(states: seq<State>, sections: seq<Section>, n: nat, w: Remote)
    requires IsRun(states, sections) && states[0] == START && n <= |sections|
    requires forall i :: 0 <= i < n ==> Harmless(states[i], sections[i])
    requires EndingOps(states[n]) == {} && w in states[n].tables.observers
    ensures var s := states[n].tables; var o := s.observers[w];
      && o.srcConnect in s.callees && s.callees[o.srcConnect].callbackWrapper == w
      && o.dstBundleName in s.bundles && s.bundles[o.dstBundleName] == o.appStateObserver
      && forall w' :: w' in s.observers && s.observers[w'].srcConnect == o.srcConnect ==> w' == w
  {
    HarmlessSoFar(states, sections, n);
    assert Covered(states[n], w);
    NobodyLeaves(states[n], w);
    forall w' | w' in states[n].tables.observers &&
      states[n].tables.observers[w'].srcConnect == states[n].tables.observers[w].srcConnect
      ensures w' == w
    {
      assert Covered(states[n], w');
      NobodyLeaves(states[n], w');
    }
  }

  // ---------------------------------------------------- which runs are harmless

  predicate Calling(op: Op) {
    op.Found? || op.Stored? || op.Adding?
  }

  /** The section comes between two sections of another operation that it matters to: it erases
      the connect of a call between its look-up and its record, stores the connect that another
      call has looked up, frees the bundle of an observer that is about to be recorded, or
      records an observer for a bundle that is about to be freed. */
  ghost predicate Disturbs(s: State, section: Section)
    requires Enabled(s, section)
  {
    exists i :: i in s.ops && DisturbsOp(s, section, i)
  }

  predicate DisturbsOp(s: State, section: Section, i: nat)
    requires Enabled(s, section) && i in s.ops
  {
    var op := s.ops[i];
    match section
    case EraseCallee(_, c) => Calling(op) && op.call.connect == c
    case CallerDies(_, c) => Calling(op) && op.call.connect == c
    case StoreCallee(id) => i != id && op.Found? && op.call.connect == s.ops[id].call.connect
    case DropBundle(id) => op.Adding? && op.call.element.bundleName == s.ops[id].bundle
    case AddObserver(id) => op.Freeing? && op.bundle == s.ops[id].call.element.bundleName
    case _ => false
  }

  /** What an operation found out is still so. */
  predicate Steady(tables: Callee, op: Op) {
    match op
    case Found(call, w) => call.connect in tables.callees ==> tables.callees[call.connect].callbackWrapper == w
    case Stored(call, w) => call.connect in tables.callees && tables.callees[call.connect].callbackWrapper == w
    case Adding(call, w, observer) =>
      && call.connect in tables.callees && tables.callees[call.connect].callbackWrapper == w
      && call.element.bundleName in tables.bundles && tables.bundles[call.element.bundleName] == observer
    case Ending(_) => true
    case Freeing(bundle) => !BundleInUse(tables, bundle)
  }

  predicate AllSteady(s: State) {
    forall i :: i in s.ops ==> Steady(s.tables, s.ops[i])
  }

  /** The operation that makes the section. */
  predicate Makes(section: Section, i: nat) {
    !section.SetToken? && section.id == i
  }

  lemma OthersSteady(s: State, section: Section, i: nat)
    requires Enabled(s, section) && i in s.ops && Steady(s.tables, s.ops[i])
    requires !DisturbsOp(s, section, i) && !Makes(section, i)
    ensures i in Apply(s, section).ops && Apply(s, section).ops[i] == s.ops[i]
    ensures Steady(Apply(s, section).tables, s.ops[i])
  {
  }

  lemma OwnSteady(s: State, section: Section, i: nat)
    requires Enabled(s, section) && AllSteady(s) && Makes(section, i) && i in Apply(s, section).ops
    ensures Steady(Apply(s, section).tables, Apply(s, section).ops[i])
  {
    assert i in s.ops ==> Steady(s.tables, s.ops[i]);
  }

  lemma UndisturbedStep(s: State, section: Section)
    requires Enabled(s, section) && AllSteady(s) && !Disturbs(s, section)
    ensures AllSteady(Apply(s, section)) && Harmless(s, section)
  {
    forall i | i in Apply(s, section).ops
      ensures Steady(Apply(s, section).tables, Apply(s, section).ops[i])
    {
      if Makes(section, i) {
        OwnSteady(s, section, i);
      } else {
        assert Steady(s.tables, s.ops[i]);
        OthersSteady(s, section, i);
      }
    }
    if section.AddObserver? || section.DropBundle? {
      assert Steady(s.tables, s.ops[section.id]);
    }
  }

  /** A run whose sections disturb no operation under way is harmless. */
  lemma {:induction false} UndisturbedIsHarmless(states: seq<State>, sections: seq<Section>, n: nat)
    requires IsRun(states, sections) && states[0] == START && n <= |sections|
    requires forall i :: 0 <= i < n ==> !Disturbs(states[i], sections[i])
    ensures AllSteady(states[n]) && forall i :: 0 <= i < n ==> Harmless(states[i], sections[i])
  {
    if n > 0 {
      UndisturbedIsHarmless(states, sections, n - 1);
      UndisturbedStep(states[n - 1], sections[n - 1]);
    }
  }

  /** Operations begin only when no other is under way. */
  predicate OneAtATime(s: State, section: Section) {
    section.FindWrapper? || section.EraseCallee? || section.CallerDies? ==> s.ops == map[]
  }

  predicate Alone(s: State) {
    forall i, j :: i in s.ops && j in s.ops ==> i == j
  }

  lemma AloneStep(s: State, section: Section)
    requires Enabled(s, section) && Alone(s) && OneAtATime(s, section)
    ensures Alone(Apply(s, section)) && !Disturbs(s, section)
  {
  }

  /** Runs that finish one operation before the next begins disturb nothing, so they are harmless
      and the maps agree throughout. */
  lemma {:induction false} OneAtATimeIsHarmless(states: seq<State>, sections: seq<Section>, n: nat)
    requires IsRun(states, sections) && states[0] == START && n <= |sections|
    requires forall i :: 0 <= i < n ==> OneAtATime(states[i], sections[i])
    ensures Alone(states[n]) && (forall i :: 0 <= i < n ==> !Disturbs(states[i], sections[i]))
    ensures forall i :: 0 <= i < n ==> Harmless(states[i], sections[i])
  {
    if n > 0 {
      OneAtATimeIsHarmless(states, sections, n - 1);
      AloneStep(states[n - 1], sections[n - 1]);
      UndisturbedIsHarmless(states, sections, n);
    }
  }
}
