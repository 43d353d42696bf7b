/**
 The callee's side of a call: the calls it runs, the observers that report the state of the
 called abilities, and one registered observer per bundle.
 */
module CalleeTables {
  import opened Sessions
  import opened ConnectTables

  const DEFAULT_DMS_CONNECT_TOKEN: int := -1

  /** An observer object, as an opaque identity. */
  type Observer = nat

  datatype ObserverInfo = ObserverInfo(
    appStateObserver: Observer, srcDeviceId: DeviceId, connectToken: int, dstBundleName: string, dstAbilityName: string,
    srcConnect: Remote, token: Remote)

  /** The three maps: calls by connect, observers by callback wrapper, observer by bundle. */
  datatype Callee = Callee(
    callees: map<Remote, ConnectInfo>, observers: map<Remote, ObserverInfo>, bundles: map<string, Observer>)

  /** What an incoming call brings, and what the system answers on the way. */
  datatype Call = Call(
    connect: Remote, callerInfo: CallerInfo, element: ElementName, connectToken: int, newWrapper: Remote,
    newObserver: Observer, appManager: bool, registerOk: bool)

  // ----------------------------------------------------------- locked sections

  /** The wrapper of a known connect, or a new one. */
  function WrapperFor(s: Callee, call: Call): Remote {
    if call.connect in s.callees then s.callees[call.connect].callbackWrapper else call.newWrapper
  }

  function CalleeAdded(s: Callee, call: Call, wrapper: Remote): Callee {
    if call.connect in s.callees then s
    else s.(callees := s.callees[call.connect := ConnectInfo(call.callerInfo, wrapper, call.element)])
  }

  predicate WantsObserver(call: Call) {
    call.connectToken != DEFAULT_DMS_CONNECT_TOKEN && call.appManager
  }

  /** A bundle seen for the first time gets a new observer, registered or not. */
  function BundleAdded(s: Callee, call: Call): Callee {
    if call.element.bundleName in s.bundles then s
    else s.(bundles := s.bundles[call.element.bundleName := call.newObserver])
  }

  /** Whether the section above goes on to record the observer. */
  predicate BundleReady(s: Callee, call: Call) {
    call.element.bundleName in s.bundles || call.registerOk
  }

  function ObserverAdded(s: Callee, call: Call, wrapper: Remote, observer: Observer): Callee {
    s.(observers := s.observers[wrapper := ObserverInfo(
      observer, call.callerInfo.sourceDeviceId, call.connectToken, call.element.bundleName, call.element.abilityName,
      call.connect, Null)])
  }

  predicate BundleInUse(s: Callee, bundle: string) {
    exists w :: w in s.observers && s.observers[w].dstBundleName == bundle
  }

  function ObserverDropped(s: Callee, wrapper: Remote): Callee {
    s.(observers := s.observers - {wrapper})
  }

  function BundleDropped(s: Callee, bundle: string): Callee {
    s.(bundles := s.bundles - {bundle})
  }

  function CalleeDropped(s: Callee, c: Remote): Callee {
    s.(callees := s.callees - {c})
  }

  // ---------------------------------------------------------- whole operations

  function Registered(s: Callee, call: Call, wrapper: Remote): Callee {
    if !WantsObserver(call) then s
    else
      var s1 := BundleAdded(s, call);
      if BundleReady(s, call) then ObserverAdded(s1, call, wrapper, s1.bundles[call.element.bundleName]) else s1
  }

  function Started(s: Callee, call: Call): Callee {
    var wrapper := WrapperFor(s, call);
    Registered(CalleeAdded(s, call, wrapper), call, wrapper)
  }

  function Unregistered(s: Callee, wrapper: Remote): Callee {
    if wrapper.Null? || wrapper !in s.observers then s
    else
      var bundle := s.observers[wrapper].dstBundleName;
      var s1 := ObserverDropped(s, wrapper);
      if BundleInUse(s1, bundle) then s1 else BundleDropped(s1, bundle)
  }

  /** A release, or the death of the callee: an unknown connect changes nothing. */
  function Ended(s: Callee, c: Remote): Callee {
    if c !in s.callees then s else Unregistered(CalleeDropped(s, c), s.callees[c].callbackWrapper)
  }

  /** The death of the remote caller: an unknown connect is itself tried as a wrapper. */
  function CallerGone(s: Callee, c: Remote): Callee {
    if c in s.callees then Ended(s, c) else Unregistered(s, c)
  }

  function TokenSet(s: Callee, wrapper: Remote, token: Remote): Callee
    requires wrapper in s.observers
  {
    s.(observers := s.observers[wrapper := s.observers[wrapper].(token := token)])
  }

  /** The observer is the one for a state change of this ability. */
  predicate Observes(s: Callee, w: Remote, bundle: string, ability: string, token: Remote) {
    && w in s.observers && s.observers[w].dstBundleName == bundle
    && s.observers[w].dstAbilityName == ability && s.observers[w].token == token
  }

  // --------------------------------------------------------------- the invariant

  ghost predicate ObserverOk(s: Callee, w: Remote) {
    w in s.observers ==>
      var o := s.observers[w];
      && o.srcConnect in s.callees && s.callees[o.srcConnect].callbackWrapper == w
      && o.dstBundleName in s.bundles && s.bundles[o.dstBundleName] == o.appStateObserver
  }

  /** Every observer belongs to a running call that has its wrapper, and its bundle maps to
      the same observer; two calls never share a wrapper. */
  ghost predicate CalleeOk(s: Callee) {
    && (forall w :: ObserverOk(s, w))
    && (forall c :: c in s.callees ==> !s.callees[c].callbackWrapper.Null?)
    && (forall c, c' :: c in s.callees && c' in s.callees && c != c' ==>
      s.callees[c].callbackWrapper != s.callees[c'].callbackWrapper)
  }

  /** A newly made wrapper is an object that no table knows. */
  predicate NewWrapper(s: Callee, w: Remote) {
    !w.Null? && w !in s.observers && forall c :: c in s.callees ==> s.callees[c].callbackWrapper != w
  }

  lemma RegisteredKeeps(s: Callee, call: Call, wrapper: Remote)
    requires CalleeOk(s) && call.connect in s.callees && s.callees[call.connect].callbackWrapper == wrapper
    ensures CalleeOk(Registered(s, call, wrapper))
  {
    forall w
      ensures ObserverOk(Registered(s, call, wrapper), w)
    {
      assert ObserverOk(s, w);
    }
  }

  lemma StartedKeeps(s: Callee, call: Call)
    requires CalleeOk(s) && (call.connect in s.callees || NewWrapper(s, call.newWrapper))
    ensures CalleeOk(Started(s, call))
  {
    var wrapper := WrapperFor(s, call);
    var s1 := CalleeAdded(s, call, wrapper);
    forall w
      ensures ObserverOk(s1, w)
    {
      assert ObserverOk(s, w);
    }
    RegisteredKeeps(s1, call, wrapper);
  }

  /** Dropping an observer keeps the bundle of every other one. */
  lemma UnregisteredObservers(s: Callee, wrapper: Remote, w: Remote)
    requires w != wrapper && w in s.observers && s.observers[w].dstBundleName in s.bundles
    ensures w in Unregistered(s, wrapper).observers && Unregistered(s, wrapper).observers[w] == s.observers[w]
    ensures s.observers[w].dstBundleName in Unregistered(s, wrapper).bundles
    ensures Unregistered(s, wrapper).bundles[s.observers[w].dstBundleName] == s.bundles[s.observers[w].dstBundleName]
  {
    if !wrapper.Null? && wrapper in s.observers {
      assert w in ObserverDropped(s, wrapper).observers;
    }
  }

  lemma UnregisteredKeeps(s: Callee, wrapper: Remote)
    requires CalleeOk(s)
    ensures CalleeOk(Unregistered(s, wrapper))
  {
    forall w
      ensures ObserverOk(Unregistered(s, wrapper), w)
    {
      assert ObserverOk(s, w);
      if w in s.observers && w != wrapper {
        UnregisteredObservers(s, wrapper, w);
      }
    }
  }

  lemma EndedKeeps(s: Callee, c: Remote)
    requires CalleeOk(s)
    ensures CalleeOk(Ended(s, c))
  {
    if c in s.callees {
      var s1, wrapper := CalleeDropped(s, c), s.callees[c].callbackWrapper;
      forall w
        ensures ObserverOk(Unregistered(s1, wrapper), w)
      {
        assert ObserverOk(s, w);
        if w in s.observers && w != wrapper {
          UnregisteredObservers(s1, wrapper, w);
        }
      }
    }
  }

  /** Ending one call takes away its own observer and no other, and frees a bundle just when
      its last observer went. */
  lemma EndedIsExact(s: Callee, c: Remote)
    requires CalleeOk(s) && c in s.callees
    ensures var w, s' := s.callees[c].callbackWrapper, Ended(s, c);
      && s'.callees == s.callees - {c}
      && s'.observers == s.observers - {w}
      && forall b :: b in s'.bundles <==>
        b in s.bundles && (w !in s.observers || s.observers[w].dstBundleName != b || BundleInUse(s', b))
  {
  }

  /** The death of a caller does the same; for an unknown connect it takes away what is recorded
      under that object as a wrapper. */
  lemma CallerGoneIsExact(s: Callee, c: Remote)
    requires CalleeOk(s)
    ensures var w, s' := (if c in s.callees then s.callees[c].callbackWrapper else c), CallerGone(s, c);
      && s'.callees == s.callees - {c}
      && s'.observers == s.observers - {w}
      && forall b :: b in s'.bundles <==>
        b in s.bundles && (w !in s.observers || s.observers[w].dstBundleName != b || BundleInUse(s', b))
  {
    assert ObserverOk(s, c);
    if c in s.callees {
      EndedIsExact(s, c);
    }
  }

  /** A call gets an observer exactly when it brings a token other than -1, the application
      manager is there, and its bundle is known or registers. The bundle is entered before it
      registers. Nothing else changes. */
  lemma RegisteredContents(s: Callee, call: Call, wrapper: Remote, v: Remote, b: string)
    ensures var s', bundle := Registered(s, call, wrapper), call.element.bundleName;
      var wanted := call.connectToken != -1 && call.appManager;
      var entered := wanted && (bundle in s.bundles || call.registerOk);
      && s'.callees == s.callees
      && (v in s'.observers <==> v in s.observers || (v == wrapper && entered))
      && (v in s.observers && !(v == wrapper && entered) ==> s'.observers[v] == s.observers[v])
      && (b in s'.bundles <==> b in s.bundles || (b == bundle && wanted))
      && (b in s.bundles ==> s'.bundles[b] == s.bundles[b])
      && (v == wrapper && entered ==> s'.observers[v].appStateObserver == s'.bundles[bundle])
  {
  }

  // ---------------------------------------------------------------------- runs

  datatype Step =
    | Start(call: Call)
    | End(connect: Remote)
    | CallerDies(connect: Remote)
    | Result(wrapper: Remote, token: Remote)

  ghost predicate Enabled(s: Callee, step: Step) {
    match step
    case Start(call) => !call.connect.Null? && (call.connect in s.callees || NewWrapper(s, call.newWrapper))
    case End(_) => true
    case CallerDies(_) => true
    case Result(w, _) => w in s.observers
  }

  ghost function Apply(s: Callee, step: Step): Callee
    requires Enabled(s, step)
  {
    match step
    case Start(call) => Started(s, call)
    case End(c) => Ended(s, c)
    case CallerDies(c) => CallerGone(s, c)
    case Result(w, token) => TokenSet(s, w, token)
  }

  ghost predicate Runs(s: Callee, steps: seq<Step>, s': Callee)
    decreases |steps|
  {
    if steps == [] then s == s' else Enabled(s, steps[0]) && Runs(Apply(s, steps[0]), steps[1..], s')
  }

  lemma StepKeeps(s: Callee, step: Step)
    requires CalleeOk(s) && Enabled(s, step)
    ensures CalleeOk(Apply(s, step))
  {
    match step
    case Start(call) => StartedKeeps(s, call);
    case End(c) => EndedKeeps(s, c);
    case CallerDies(c) =>
      EndedKeeps(s, c);
      UnregisteredKeeps(s, c);
    case Result(w, token) =>
      forall w'
        ensures ObserverOk(TokenSet(s, w, token), w')
      {
        assert ObserverOk(s, w');
      }
  }

  lemma {:induction false} RunKeeps(s: Callee, steps: seq<Step>, s': Callee)
    requires CalleeOk(s) && Runs(s, steps, s')
    ensures CalleeOk(s')
    decreases |steps|
  {
    if steps != [] {
      StepKeeps(s, steps[0]);
      RunKeeps(Apply(s, steps[0]), steps[1..], s');
    }
  }

  const START: Callee := Callee(map[], map[], map[])

  /** After any run of whole calls, releases and deaths: each observer's call is running with
      that very wrapper, its bundle maps to the same observer, and so at most one observer
      has a given source connect and none is left when its call has ended. */
  lemma ThreeMapsAgree(steps: seq<Step>, s: Callee, w: Remote)
    requires Runs(START, steps, s) && w in s.observers
    ensures var o := s.observers[w];
      && o.srcConnect in s.callees && s.callees[o.srcConnect].callbackWrapper == w
      && o.dstBundleName in s.bundles && s.bundles[o.dstBundleName] == o.appStateObserver
      && forall w' :: w' in s.observers && s.observers[w'].srcConnect == o.srcConnect ==> w' == w
  {
    RunKeeps(START, steps, s);
    assert ObserverOk(s, w);
    forall w' | w' in s.observers && s.observers[w'].srcConnect == s.observers[w].srcConnect
      ensures w' == w
    {
      assert ObserverOk(s, w');
    }
  }

  // ---------------------------------------------- why a call has to be one step

  /** Two first calls on one connect whose sections mix: both miss the connect and make a
      wrapper, the first to store wins, both record an observer. When the call ends, the
      observer of the loser stays, and nothing can find it any more. */
  lemma MixedCallsStrandObserver(s: Callee, one: Call, two: Call)
    requires one.connect == two.connect && one.connect !in s.callees
    requires NewWrapper(s, one.newWrapper) && NewWrapper(s, two.newWrapper) && one.newWrapper != two.newWrapper
    requires WantsObserver(one) && one.registerOk && WantsObserver(two) && two.registerOk
    ensures var wrapper1, wrapper2 := WrapperFor(s, one), WrapperFor(s, two);
      var stored := CalleeAdded(CalleeAdded(s, one, wrapper1), two, wrapper2);
      var both := Registered(Registered(stored, one, wrapper1), two, wrapper2);
      var ended := Ended(both, one.connect);
      && two.newWrapper in ended.observers && ended.observers[two.newWrapper].srcConnect == one.connect
      && one.connect !in ended.callees && !CalleeOk(ended)
  {
    var w1, w2 := one.newWrapper, two.newWrapper;
    var stored := CalleeAdded(CalleeAdded(s, one, w1), two, w2);
    RegisteredAdds(stored, one, w1);
    RegisteredAdds(Registered(stored, one, w1), two, w2);
    var both := Registered(Registered(stored, one, w1), two, w2);
    UnregisteredLeaves(CalleeDropped(both, one.connect), w1, w2);
    assert !ObserverOk(Ended(both, one.connect), w2);
  }

  lemma RegisteredAdds(s: Callee, call: Call, wrapper: Remote)
    requires WantsObserver(call) && call.registerOk
    ensures var s' := Registered(s, call, wrapper);
      s'.callees == s.callees && wrapper in s'.observers && s'.observers[wrapper].srcConnect == call.connect
  {
  }

  lemma UnregisteredLeaves(s: Callee, wrapper: Remote, other: Remote)
    requires other in s.observers && other != wrapper
    ensures var s' := Unregistered(s, wrapper);
      s'.callees == s.callees && other in s'.observers && s'.observers[other] == s.observers[other]
  {
  }

  /** Even calls on different connects clash through the bundle: one call reads the observer
      of a bundle while another drops the last observer that uses it. The new observer is
      recorded for a bundle that is then unregistered. */
  lemma MixedBundleIsLost(s: Callee, call: Call, wrapper: Remote, last: Remote)
    requires CalleeOk(s) && last in s.observers && s.observers[last].dstBundleName == call.element.bundleName
    requires wrapper != last
    requires forall w :: w in s.observers && w != last ==> s.observers[w].dstBundleName != call.element.bundleName
    ensures var bundle := call.element.bundleName;
      var dropped := ObserverDropped(s, last);
      && BundleReady(s, call) && BundleAdded(s, call) == s
      && bundle in s.bundles && !BundleInUse(dropped, bundle)
      && var clash := BundleDropped(ObserverAdded(dropped, call, wrapper, s.bundles[bundle]), bundle);
      wrapper in clash.observers && clash.observers[wrapper].dstBundleName !in clash.bundles && !CalleeOk(clash)
  {
    assert ObserverOk(s, last);
    var dropped := ObserverDropped(s, last);
    var bundle := call.element.bundleName;
    var clash := BundleDropped(ObserverAdded(dropped, call, wrapper, s.bundles[bundle]), bundle);
    assert !ObserverOk(clash, wrapper);
  }
}

module CalleeService {
  import opened Codes
  import opened Sessions
  import opened ConnectTables
  import opened CalleeTables

  class CalleeSide {
    var calleeMap: map<Remote, ConnectInfo>
    var observerMap: map<Remote, ObserverInfo>
    var bundleNameMap: map<string, Observer>

    function Here(): Callee
      reads this
    {
      Callee(calleeMap, observerMap, bundleNameMap)
    }

    constructor ()
      ensures Here() == START
    {
      calleeMap, observerMap, bundleNameMap := map[], map[], map[];
    }

    method RegisterAppStateObserver(call: Call, callbackWrapper: Remote) returns (done: bool)
      modifies this`observerMap, this`bundleNameMap
      ensures Here() == Registered(old(Here()), call, callbackWrapper)
      ensures done == (WantsObserver(call) && BundleReady(old(Here()), call))
    {
      if call.connectToken == DEFAULT_DMS_CONNECT_TOKEN || !call.appManager {
        return false;
      }
      var bundleName := call.element.bundleName;
      if bundleName !in bundleNameMap {
        bundleNameMap := bundleNameMap[bundleName := call.newObserver];
        if !call.registerOk {
          return false;
        }
      }
      var appStateObserver := bundleNameMap[bundleName];
      observerMap := observerMap[callbackWrapper := ObserverInfo(
        appStateObserver, call.callerInfo.sourceDeviceId, call.connectToken, bundleName, call.element.abilityName,
        call.connect, Null)];
      return true;
    }

    method UnregisterAppStateObserver(callbackWrapper: Remote)
      modifies this`observerMap, this`bundleNameMap
      ensures Here() == Unregistered(old(Here()), callbackWrapper)
    {
      if callbackWrapper.Null? || callbackWrapper !in observerMap {
        return;
      }
      var bundleName := observerMap[callbackWrapper].dstBundleName;
      observerMap := observerMap - {callbackWrapper};
      var unRegisterFlag, todo := true, observerMap.Keys;
      while todo != {} && unRegisterFlag
        invariant todo <= observerMap.Keys
        invariant unRegisterFlag ==>
          forall w :: w in observerMap && w !in todo ==> observerMap[w].dstBundleName != bundleName
        invariant !unRegisterFlag ==> BundleInUse(Here(), bundleName)
        decreases todo
      {
        var w :| w in todo;
        todo := todo - {w};
        if observerMap[w].dstBundleName == bundleName {
          unRegisterFlag := false;
        }
      }
      assert BundleInUse(Here(), bundleName) <==> !unRegisterFlag;
      if unRegisterFlag {
        bundleNameMap := bundleNameMap - {bundleName};
      }
    }

    /** `checked` is the answer of the device and permission checks, `startRet` that of the
        ability manager. */
    method StartAbilityByCallFromRemote(call: Call, checked: int, startRet: int) returns (errCode: int)
      modifies this
      ensures errCode == if call.connect.Null? then INVALID_REMOTE_PARAMETERS_ERR
              else if checked != ERR_OK then checked else startRet
      ensures Here() == if errCode == ERR_OK then Started(old(Here()), call) else old(Here())
    {
      if call.connect.Null? {
        return INVALID_REMOTE_PARAMETERS_ERR;
      }
      if checked != ERR_OK {
        return checked;
      }
      var callbackWrapper := if call.connect in calleeMap then calleeMap[call.connect].callbackWrapper
        else call.newWrapper;
      errCode := startRet;
      if errCode == ERR_OK {
        if call.connect !in calleeMap {
          calleeMap := calleeMap[call.connect := ConnectInfo(call.callerInfo, callbackWrapper, call.element)];
        }
        var done := RegisterAppStateObserver(call, callbackWrapper);
      }
    }

    method ReleaseAbilityFromRemote(connect: Remote, deviceOk: bool, releaseRet: int) returns (result: int)
      modifies this
      ensures result == if connect.Null? || !deviceOk || connect !in old(calleeMap) then INVALID_REMOTE_PARAMETERS_ERR
              else releaseRet
      ensures Here() == if connect.Null? || !deviceOk then old(Here()) else Ended(old(Here()), connect)
    {
      if connect.Null? || !deviceOk || connect !in calleeMap {
        return INVALID_REMOTE_PARAMETERS_ERR;
      }
      var callbackWrapper := calleeMap[connect].callbackWrapper;
      calleeMap := calleeMap - {connect};
      UnregisterAppStateObserver(callbackWrapper);
      return releaseRet;
    }

    /** The death of a remote caller, as the callee's device handles it. */
    method ProcessCallerDied(connect: Remote)
      modifies this
      ensures Here() == if connect.Null? then old(Here()) else CallerGone(old(Here()), connect)
    {
      if connect.Null? {
        return;
      }
      var callbackWrapper := connect;
      if connect in calleeMap {
        callbackWrapper := calleeMap[connect].callbackWrapper;
        calleeMap := calleeMap - {connect};
      }
      UnregisterAppStateObserver(callbackWrapper);
    }

    method ProcessCalleeDied(connect: Remote)
      modifies this
      ensures Here() == if connect.Null? then old(Here()) else Ended(old(Here()), connect)
    {
      if connect.Null? || connect !in calleeMap {
        return;
      }
      var callbackWrapper := calleeMap[connect].callbackWrapper;
      calleeMap := calleeMap - {connect};
      UnregisterAppStateObserver(callbackWrapper);
    }

    /** Stores the ability token with the first observer of the connect, in the order of the
        walk; when the maps agree that is the wrapper of the running call. */
    method ProcessCallResult(callerConnect: Remote, token: Remote) returns (wrapper: Remote)
      requires CalleeOk(Here())
      modifies this`observerMap
      ensures wrapper in old(observerMap) ==>
        && callerConnect in calleeMap && calleeMap[callerConnect].callbackWrapper == wrapper
        && old(observerMap)[wrapper].srcConnect == callerConnect
        && Here() == TokenSet(old(Here()), wrapper, token)
      ensures wrapper !in old(observerMap) ==> Here() == old(Here())
      ensures wrapper !in old(observerMap) && !token.Null? ==>
        forall w :: w in observerMap ==> observerMap[w].srcConnect != callerConnect
    {
      wrapper := Null;
      if token.Null? {
        assert ObserverOk(Here(), Null);
        return;
      }
      var todo := observerMap.Keys;
      while todo != {}
        invariant observerMap == old(observerMap) && todo <= observerMap.Keys
        invariant forall w :: w in observerMap && w !in todo ==> observerMap[w].srcConnect != callerConnect
        decreases todo
      {
        wrapper :| wrapper in todo;
        assert ObserverOk(Here(), wrapper);
        if observerMap[wrapper].srcConnect == callerConnect {
          observerMap := observerMap[wrapper := observerMap[wrapper].(token := token)];
          return;
        }
        todo := todo - {wrapper};
      }
      wrapper := Null;
      assert ObserverOk(Here(), Null);
    }

    /** Where a state change of an ability is reported: the source device and the connect token of
        the first observer for it, in the order of the walk. */
    method FindReportTarget(bundle: string, ability: string, token: Remote)
      returns (wrapper: Remote, srcDeviceId: DeviceId, connectToken: int)
      ensures if exists w :: Observes(Here(), w, bundle, ability, token)
        then Observes(Here(), wrapper, bundle, ability, token)
          && srcDeviceId == observerMap[wrapper].srcDeviceId && connectToken == observerMap[wrapper].connectToken
        else srcDeviceId == "" && connectToken == 0
    {
      wrapper, srcDeviceId, connectToken := Null, "", 0;
      var todo := observerMap.Keys;
      while todo != {}
        invariant todo <= observerMap.Keys && srcDeviceId == "" && connectToken == 0
        invariant forall w :: Observes(Here(), w, bundle, ability, token) ==> w in todo
        decreases todo
      {
        wrapper :| wrapper in todo;
        var info := observerMap[wrapper];
        if info.dstBundleName == bundle && info.dstAbilityName == ability && info.token == token {
          assert Observes(Here(), wrapper, bundle, ability, token);
          return wrapper, info.srcDeviceId, info.connectToken;
        }
        todo := todo - {wrapper};
      }
    }
  }
}
