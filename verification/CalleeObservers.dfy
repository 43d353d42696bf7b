/**
 What the callee's three maps hold, over every interleaving of sections: everything in them was
 supplied by the call that recorded it, so state changes are reported to the right device.
 */
module CalleeObservers {
  import opened Sessions
  import opened ConnectTables
  import T = CalleeTables
  import opened CalleeRuns

  lemma CallStep(s: State, section: Section, s': State, id: nat)
    requires Enabled(s, section) && s' == Apply(s, section) && id in s'.ops && Calling(s'.ops[id])
    ensures
      || section == FindWrapper(id, s'.ops[id].call)
      || (&& id in s.ops && Calling(s.ops[id]) && s.ops[id].call == s'.ops[id].call
          && s.ops[id].wrapper == s'.ops[id].wrapper)
  {
  }

  /** A call under way is the one that looked up its wrapper. */
  lemma {:induction false} CallFound(states: seq<State>, sections: seq<Section>, n: nat, id: nat) returns (i: nat)
    requires IsRun(states, sections) && states[0] == START && n <= |sections|
    requires id in states[n].ops && Calling(states[n].ops[id])
    ensures i < n && sections[i] == FindWrapper(id, states[n].ops[id].call)
  {
    CallStep(states[n - 1], sections[n - 1], states[n], id);
    if sections[n - 1] == FindWrapper(id, states[n].ops[id].call) {
      i := n - 1;
    } else {
      i := CallFound(states, sections, n - 1, id);
    }
  }

  // ------------------------------------------------------------------- observers

  /** The observer says of its call what the call said. */
  predicate Describes(o: T.ObserverInfo, call: T.Call) {
    && o.srcDeviceId == call.callerInfo.sourceDeviceId && o.connectToken == call.connectToken
    && o.dstBundleName == call.element.bundleName && o.dstAbilityName == call.element.abilityName
    && o.srcConnect == call.connect
  }

  predicate Records(s: State, section: Section, w: Remote) {
    section.AddObserver? && section.id in s.ops && s.ops[section.id].Adding? && s.ops[section.id].wrapper == w
  }

  lemma ObserverStep(s: State, section: Section, s': State, w: Remote)
    requires Enabled(s, section) && s' == Apply(s, section) && w in s'.tables.observers
    ensures if Records(s, section, w)
      then
        && Describes(s'.tables.observers[w], s.ops[section.id].call)
        && s'.tables.observers[w].appStateObserver == s.ops[section.id].observer
        && s'.tables.observers[w].token == Null
      else
        && w in s.tables.observers
        && s'.tables.observers[w] == s.tables.observers[w].(token := s'.tables.observers[w].token)
        && (s'.tables.observers[w].token == s.tables.observers[w].token ||
          section == SetToken(w, s'.tables.observers[w].token))
  {
  }

  /** The observer of the wrapper was recorded at step j, by the call that had looked up the
      wrapper at step i, and nothing was recorded under the wrapper since. */
  predicate RecordedBy(states: seq<State>, sections: seq<Section>, i: nat, j: nat, n: nat, w: Remote, call: T.Call)
    requires |states| == |sections| + 1 && n <= |sections|
  {
    && i < j < n && Records(states[j], sections[j], w) && sections[i] == FindWrapper(sections[j].id, call)
    && states[j].ops[sections[j].id].call == call
    && forall k :: j < k < n ==> !Records(states[k], sections[k], w)
  }

  /** A call that goes on to its observer asked for one. */
  lemma {:induction false} ObserverWanted(states: seq<State>, sections: seq<Section>, n: nat, id: nat)
    requires IsRun(states, sections) && states[0] == START && n <= |sections|
    requires id in states[n].ops && (states[n].ops[id].Stored? || states[n].ops[id].Adding?)
    ensures states[n].ops[id].call.connectToken != -1 && states[n].ops[id].call.appManager
  {
    WantedStep(states[n - 1], sections[n - 1], states[n], id);
    if id in states[n - 1].ops && (states[n - 1].ops[id].Stored? || states[n - 1].ops[id].Adding?) {
      ObserverWanted(states, sections, n - 1, id);
    }
  }

  lemma WantedStep(s: State, section: Section, s': State, id: nat)
    requires Enabled(s, section) && s' == Apply(s, section)
    requires id in s'.ops && (s'.ops[id].Stored? || s'.ops[id].Adding?)
    ensures if id in s.ops && (s.ops[id].Stored? || s.ops[id].Adding?)
      then s.ops[id].call == s'.ops[id].call
      else s'.ops[id].call.connectToken != -1 && s'.ops[id].call.appManager
  {
  }

  /** How a call goes on: from its entry to the bundle exactly when it brings a token other than
      -1 and the application manager is there; from the bundle to the observer exactly when the
      bundle was known or registers; and then the observer is recorded. */
  lemma CallProceeds(s: State, section: Section, s': State)
    requires Enabled(s, section) && s' == Apply(s, section)
    ensures section.StoreCallee? ==>
      var call := s.ops[section.id].call;
      && call.connect in s'.tables.callees
      && (section.id in s'.ops <==> call.connectToken != -1 && call.appManager)
      && (section.id in s'.ops ==> s'.ops[section.id] == Stored(call, s.ops[section.id].wrapper))
    ensures section.AddBundle? ==>
      var call, bundle := s.ops[section.id].call, s.ops[section.id].call.element.bundleName;
      && bundle in s'.tables.bundles
      && (section.id in s'.ops <==> bundle in s.tables.bundles || call.registerOk)
      && (section.id in s'.ops ==>
        s'.ops[section.id] == Adding(call, s.ops[section.id].wrapper, s'.tables.bundles[bundle]))
    ensures section.AddObserver? ==> section.id !in s'.ops && s.ops[section.id].wrapper in s'.tables.observers
  {
  }

  /** Over every interleaving: an observer carries the source device, the connect token, the bundle,
      the ability and the connect of the call last recorded under its wrapper, which asked for
      an observer. */
  lemma {:induction false} ObserverSupplied(states: seq<State>, sections: seq<Section>, n: nat, w: Remote)
    returns (i: nat, j: nat, call: T.Call)
    requires IsRun(states, sections) && states[0] == START && n <= |sections| && w in states[n].tables.observers
    ensures RecordedBy(states, sections, i, j, n, w, call) && Describes(states[n].tables.observers[w], call)
    ensures states[n].tables.observers[w].appStateObserver == states[j].ops[sections[j].id].observer
    ensures call.connectToken != -1 && call.appManager
  {
    ObserverStep(states[n - 1], sections[n - 1], states[n], w);
    if Records(states[n - 1], sections[n - 1], w) {
      j := n - 1;
      call := states[j].ops[sections[j].id].call;
      ObserverWanted(states, sections, j, sections[j].id);
      i := CallFound(states, sections, j, sections[j].id);
    } else {
      i, j, call := ObserverSupplied(states, sections, n - 1, w);
    }
  }

  /** The token of an observer is the latest one that was set for it. */
  lemma {:induction false} TokenSupplied(states: seq<State>, sections: seq<Section>, n: nat, w: Remote) returns (k: nat)
    requires IsRun(states, sections) && states[0] == START && n <= |sections| && w in states[n].tables.observers
    requires !states[n].tables.observers[w].token.Null?
    ensures k < n && sections[k] == SetToken(w, states[n].tables.observers[w].token)
  {
    ObserverStep(states[n - 1], sections[n - 1], states[n], w);
    if sections[n - 1] == SetToken(w, states[n].tables.observers[w].token) {
      k := n - 1;
    } else {
      k := TokenSupplied(states, sections, n - 1, w);
    }
  }

  lemma SetsToken(s: State, w: Remote, token: Remote, v: Remote)
    requires Enabled(s, SetToken(w, token)) && v in s.tables.observers
    ensures var s' := Apply(s, SetToken(w, token));
      && s'.tables.observers.Keys == s.tables.observers.Keys
      && s'.tables.observers[v].token == if v == w then token else s.tables.observers[v].token
  {
  }

  // --------------------------------------------------------------------- callees

  predicate StoresIt(s: State, section: Section, c: Remote) {
    && section.StoreCallee? && section.id in s.ops && s.ops[section.id].Found? && s.ops[section.id].call.connect == c
    && c !in s.tables.callees
  }

  lemma CalleeStep(s: State, section: Section, s': State, c: Remote)
    requires Enabled(s, section) && s' == Apply(s, section) && c in s'.tables.callees
    ensures if StoresIt(s, section, c)
      then s'.tables.callees[c] == ConnectInfo(
        s.ops[section.id].call.callerInfo, s.ops[section.id].wrapper, s.ops[section.id].call.element)
      else c in s.tables.callees && s'.tables.callees[c] == s.tables.callees[c]
  {
  }

  /** Over every interleaving: a running call is entered with the caller, the element and the
      wrapper of the call that stored it. */
  lemma {:induction false} CalleeSupplied(states: seq<State>, sections: seq<Section>, n: nat, c: Remote)
    returns (i: nat, j: nat, call: T.Call)
    requires IsRun(states, sections) && states[0] == START && n <= |sections| && c in states[n].tables.callees
    ensures i < j < n && StoresIt(states[j], sections[j], c) && sections[i] == FindWrapper(sections[j].id, call)
    ensures call.connect == c
    ensures states[n].tables.callees[c] ==
      ConnectInfo(call.callerInfo, states[j].ops[sections[j].id].wrapper, call.element)
  {
    CalleeStep(states[n - 1], sections[n - 1], states[n], c);
    if StoresIt(states[n - 1], sections[n - 1], c) {
      j := n - 1;
      call := states[j].ops[sections[j].id].call;
      i := CallFound(states, sections, j, sections[j].id);
    } else {
      i, j, call := CalleeSupplied(states, sections, n - 1, c);
    }
  }

  // --------------------------------------------------------------------- bundles

  lemma BundleStep(s: State, section: Section, s': State, b: string)
    requires Enabled(s, section) && s' == Apply(s, section) && b in s'.tables.bundles
    ensures
      || (b in s.tables.bundles && s'.tables.bundles[b] == s.tables.bundles[b])
      || (&& section.AddBundle? && section.id in s.ops && Calling(s.ops[section.id])
          && s.ops[section.id].call.element.bundleName == b
          && s'.tables.bundles[b] == s.ops[section.id].call.newObserver)
  {
  }

  /** The observer of a bundle is the new one of the call that added the bundle. */
  lemma {:induction false} BundleSupplied(states: seq<State>, sections: seq<Section>, n: nat, b: string)
    returns (i: nat, call: T.Call)
    requires IsRun(states, sections) && states[0] == START && n <= |sections| && b in states[n].tables.bundles
    ensures i < n && sections[i].FindWrapper? && sections[i].call == call
    ensures call.element.bundleName == b && states[n].tables.bundles[b] == call.newObserver
  {
    BundleStep(states[n - 1], sections[n - 1], states[n], b);
    if b in states[n - 1].tables.bundles && states[n].tables.bundles[b] == states[n - 1].tables.bundles[b] {
      i, call := BundleSupplied(states, sections, n - 1, b);
    } else {
      call := states[n - 1].ops[sections[n - 1].id].call;
      i := CallFound(states, sections, n - 1, sections[n - 1].id);
    }
  }

  // -------------------------------------------------------------- what goes, and when

  /** A running call goes exactly with its end or its caller's death, an observer exactly when the
      end of a call for its wrapper drops it, a bundle exactly when it is freed. */
  lemma GoesIff(s: State, section: Section, s': State, c: Remote, w: Remote, b: string)
    requires Enabled(s, section) && s' == Apply(s, section)
    ensures c in s.tables.callees ==>
      (c !in s'.tables.callees <==> (section.EraseCallee? || section.CallerDies?) && section.connect == c)
    ensures w in s.tables.observers ==>
      (w !in s'.tables.observers <==> section.DropObserver? && s.ops[section.id] == Ending(w))
    ensures b in s.tables.bundles ==>
      (b !in s'.tables.bundles <==> section.DropBundle? && s.ops[section.id] == Freeing(b))
  {
  }

  /** No other observer has the bundle of this one. */
  predicate LastOfBundle(s: State, w: Remote) {
    && w in s.tables.observers
    && forall v :: v in s.tables.observers && v != w ==>
      s.tables.observers[v].dstBundleName != s.tables.observers[w].dstBundleName
  }

  /** What an end goes on to do: drop the observer of the call's wrapper, or of the connect itself
      when no such call runs; and free the bundle exactly when that observer was its last. */
  lemma EndProceeds(s: State, section: Section, s': State)
    requires Enabled(s, section) && s' == Apply(s, section)
    ensures section.EraseCallee? || section.CallerDies? ==>
      section.id in s'.ops && s'.ops[section.id] == Ending(
        if section.connect in s.tables.callees then s.tables.callees[section.connect].callbackWrapper
        else section.connect)
    ensures section.DropObserver? ==>
      var w := s.ops[section.id].wrapper;
      && (section.id in s'.ops <==> LastOfBundle(s, w))
      && (section.id in s'.ops ==> s'.ops[section.id] == Freeing(s.tables.observers[w].dstBundleName))
  {
    if section.DropObserver? && s.ops[section.id].wrapper in s.tables.observers {
      var w := s.ops[section.id].wrapper;
      var bundle := s.tables.observers[w].dstBundleName;
      assert T.BundleInUse(s'.tables, bundle) <==> !LastOfBundle(s, w) by {
        assert forall v :: v in s'.tables.observers <==> v in s.tables.observers && v != w;
      }
    }
  }

  // ----------------------------------------------------------------- state changes

  /** With one caller for each connect, an observer whose call is running reports to the source
      device of that call's entry. */
  lemma ReportsToCaller(
    states: seq<State>, sections: seq<Section>, n: nat, w: Remote, owner: Remote -> CallerInfo)
    requires IsRun(states, sections) && states[0] == START && n <= |sections| && w in states[n].tables.observers
    requires forall i :: 0 <= i < n && sections[i].FindWrapper? ==>
      sections[i].call.callerInfo == owner(sections[i].call.connect)
    requires states[n].tables.observers[w].srcConnect in states[n].tables.callees
    ensures var o := states[n].tables.observers[w];
      o.srcDeviceId == states[n].tables.callees[o.srcConnect].callerInfo.sourceDeviceId ==
        owner(o.srcConnect).sourceDeviceId
  {
    var i, j, call := ObserverSupplied(states, sections, n, w);
    var i', j', call' := CalleeSupplied(states, sections, n, states[n].tables.observers[w].srcConnect);
    assert sections[i].call == call && sections[i'].call == call';
  }

  /** A state change that finds an observer goes to the device that the observed call came from,
      with the token that call brought. */
  lemma StateChangeGoesBack(
    states: seq<State>, sections: seq<Section>, n: nat, w: Remote, bundle: string, ability: string, token: Remote)
    returns (i: nat, j: nat, call: T.Call)
    requires IsRun(states, sections) && states[0] == START && n <= |sections|
    requires T.Observes(states[n].tables, w, bundle, ability, token)
    ensures RecordedBy(states, sections, i, j, n, w, call)
    ensures call.element.bundleName == bundle && call.element.abilityName == ability
    ensures states[n].tables.observers[w].srcDeviceId == call.callerInfo.sourceDeviceId
    ensures states[n].tables.observers[w].connectToken == call.connectToken
  {
    i, j, call := ObserverSupplied(states, sections, n, w);
  }
}
