/**
 What the session of a connect to a device holds, in every run: exactly the elements that were
 committed for that pair since the session began, as the steps of the run tell.
 */
module ConnectElements {
  import opened Sessions
  import opened ConnectTables
  import opened ConnectNet

  /** What a connect was begun with, and how many of its three tries are left. */
  datatype Request = Request(connect: Remote, device: DeviceId, element: ElementName, tries: int)

  /** The requests under way and the elements of one pair, kept from the steps alone. */
  datatype Ledger = Ledger(requests: map<nat, Request>, elements: seq<ElementName>)

  const EMPTY: Ledger := Ledger(map[], [])

  /** The step ends the session of the pair, if there is one. */
  predicate Ends(owner: Owner, step: Step, c: Remote, b: DeviceId) {
    match step
    case CloseConnect(c0) => c0 == c
    case ProcessDies(c0) => owner(c0) == owner(c)
    case LinkLost(one, other) => (Home(owner, c) == one && b == other) || (Home(owner, c) == other && b == one)
    case _ => false
  }

  function OneTryLess(requests: map<nat, Request>, id: nat): map<nat, Request> {
    if id in requests then requests[id := requests[id].(tries := requests[id].tries - 1)] else requests
  }

  function Entry(l: Ledger, owner: Owner, step: Step, c: Remote, b: DeviceId): Ledger {
    match step
    case BeginConnect(id, c0, b0, e) => l.(requests := l.requests[id := Request(c0, b0, e, 3)])
    case RefuseConnect(id) => l.(requests := OneTryLess(l.requests, id))
    case AnswerLost(id, _) => l.(requests := OneTryLess(l.requests, id))
    case DropConnect(id) => l.(requests := l.requests - {id})
    case CommitConnect(id) =>
      Ledger(l.requests - {id},
        if id in l.requests && l.requests[id].connect == c && l.requests[id].device == b
           && l.requests[id].element !in l.elements
        then l.elements + [l.requests[id].element] else l.elements)
    case _ => if Ends(owner, step, c, b) then l.(elements := []) else l
  }

  function Kept(l: Ledger, owner: Owner, steps: seq<Step>, c: Remote, b: DeviceId): Ledger
    decreases |steps|
  {
    if steps == [] then l else Kept(Entry(l, owner, steps[0], c, b), owner, steps[1..], c, b)
  }

  function RequestOf(at: Attempt): Request {
    Request(at.connect, at.device, at.element, at.triesLeft)
  }

  ghost predicate RequestsMatch(attempts: map<nat, Attempt>, requests: map<nat, Request>) {
    requests.Keys == attempts.Keys && forall id :: id in attempts ==> requests[id] == RequestOf(attempts[id])
  }

  ghost predicate ElementsMatch(list: seq<Session>, b: DeviceId, elements: seq<ElementName>) {
    elements == ElementsTo(list, b) && (elements != [] <==> Reaches(list, b))
  }

  /** The ledger agrees with the tables. */
  ghost predicate Matches(w: World, owner: Owner, l: Ledger, c: Remote, b: DeviceId) {
    RequestsMatch(w.attempts, l.requests) && ElementsMatch(SessionsFor(w, owner, c), b, l.elements)
  }

  lemma RequestChanges(attempts: map<nat, Attempt>, requests: map<nat, Request>, id: nat, at: Attempt)
    requires RequestsMatch(attempts, requests)
    ensures RequestsMatch(attempts[id := at], requests[id := RequestOf(at)])
    ensures RequestsMatch(attempts - {id}, requests - {id})
  {
  }

  /** While the remote device is at work the request stays what it was. */
  lemma RequestStays(attempts: map<nat, Attempt>, requests: map<nat, Request>, id: nat, at: Attempt)
    requires RequestsMatch(attempts, requests) && id in attempts && RequestOf(at) == RequestOf(attempts[id])
    ensures RequestsMatch(attempts[id := at], requests)
  {
  }

  lemma RequestsStep(w: World, owner: Owner, l: Ledger, step: Step, c: Remote, b: DeviceId)
    requires RequestsMatch(w.attempts, l.requests) && Enabled(w, owner, step)
    ensures RequestsMatch(Apply(w, owner, step).attempts, Entry(l, owner, step, c, b).requests)
  {
    match step
    case BeginConnect(id, c0, b0, e) =>
      RequestChanges(w.attempts, l.requests, id, Attempt(c0, b0, e, Asked, 3));
    case DropConnect(id) => RequestChanges(w.attempts, l.requests, id, w.attempts[id]);
    case CommitConnect(id) => RequestChanges(w.attempts, l.requests, id, w.attempts[id]);
    case SearchConnect(id) => RequestStays(w.attempts, l.requests, id, Searching(w, id).attempts[id]);
    case RefuseConnect(id) => RequestChanges(w.attempts, l.requests, id, Retrying(w, id).attempts[id]);
    case AcceptConnect(id, wrapper) =>
      RequestStays(w.attempts, l.requests, id, w.attempts[id].(phase := Answered));
    case AnswerLost(id, wrapper) => RequestChanges(w.attempts, l.requests, id, Retrying(w, id).attempts[id]);
    case _ =>
  }

  lemma CommitList(w: World, owner: Owner, id: nat, c: Remote)
    requires id in w.attempts && Home(owner, w.attempts[id].connect) in w.nodes && !w.attempts[id].connect.Null?
    ensures var at := w.attempts[id]; var caller := owner(at.connect); var list := SessionsFor(w, owner, c);
      SessionsFor(Committing(w, owner, id), owner, c) ==
        if c == at.connect then AddSession(list, caller.sourceDeviceId, at.device, at.element, caller) else list
  {
  }

  lemma AddMatches(
    list: seq<Session>, source: DeviceId, device: DeviceId, element: ElementName, caller: CallerInfo, b: DeviceId,
    elements: seq<ElementName>)
    requires ListOk(list) && ElementsMatch(list, b, elements)
    ensures ElementsMatch(AddSession(list, source, device, element, caller), b,
      if b == device && element !in elements then elements + [element] else elements)
  {
    ElementsAdded(list, source, device, element, caller, b);
    AddSessionKeeps(list, source, device, element, caller);
    if b == device {
      var i := FirstTo(list, device);
      AddSessionContents(list, source, device, element, caller);
      assert element in ElementsTo(AddSession(list, source, device, element, caller), b);
    }
  }

  lemma CommitElements(w: World, owner: Owner, l: Ledger, id: nat, c: Remote, b: DeviceId)
    requires Matches(w, owner, l, c, b) && ListOk(SessionsFor(w, owner, c))
    requires id in w.attempts && Home(owner, w.attempts[id].connect) in w.nodes && !w.attempts[id].connect.Null?
    ensures ElementsMatch(
      SessionsFor(Committing(w, owner, id), owner, c), b, Entry(l, owner, CommitConnect(id), c, b).elements)
  {
    var at := w.attempts[id];
    var caller := owner(at.connect);
    CommitList(w, owner, id, c);
    assert l.requests[id] == RequestOf(at);
    if c == at.connect {
      AddMatches(
        SessionsFor(w, owner, c), caller.sourceDeviceId, at.device, at.element, caller, b, l.elements);
    }
  }

  lemma DeathList(w: World, owner: Owner, c0: Remote, c: Remote)
    requires ConnectOk(w, owner, Home(owner, c0), c) && Home(owner, c0) in w.nodes
    ensures SessionsFor(Dying(w, owner, c0), owner, c) ==
      if owner(c0) == owner(c) then [] else SessionsFor(w, owner, c)
  {
    var m := ConnectsAt(w, Home(owner, c0));
    assert c in OwnedBy(m, owner(c0)) <==> c in m && owner(c) == owner(c0);
  }

  lemma CutElements(n: Node, other: DeviceId, c: Remote, b: DeviceId, elements: seq<ElementName>)
    requires MapOk(n.source.connects) && ElementsMatch(SessionsOf(n.source.connects, c), b, elements)
    ensures ElementsMatch(SessionsOf(CutOff(n, other).source.connects, c), b, if b == other then [] else elements)
  {
    DeviceLeftKeeps(n.source.connects, other);
    if c in n.source.connects {
      ElementsDropped(n.source.connects[c], other, b);
    }
  }

  lemma CutList(w: World, owner: Owner, one: DeviceId, other: DeviceId, c: Remote)
    requires one in w.nodes && other in w.nodes && one != other
    ensures var a := Home(owner, c);
      SessionsFor(Cutting(w, one, other), owner, c) ==
        if a == one then SessionsOf(CutOff(w.nodes[one], other).source.connects, c)
        else if a == other then SessionsOf(CutOff(w.nodes[other], one).source.connects, c)
        else SessionsFor(w, owner, c)
  {
  }

  lemma SameMatch(list: seq<Session>, list': seq<Session>, b: DeviceId, e: seq<ElementName>, e': seq<ElementName>)
    requires list == list' && e == e' && ElementsMatch(list, b, e)
    ensures ElementsMatch(list', b, e')
  {
  }

  /** The home of the connect is this end of the link, and `other` the other end. */
  lemma HomeElements(
    w: World, owner: Owner, a: DeviceId, other: DeviceId, c: Remote, b: DeviceId, elements: seq<ElementName>,
    list': seq<Session>)
    requires a in w.nodes && a == Home(owner, c) && MapOk(w.nodes[a].source.connects)
    requires ElementsMatch(SessionsFor(w, owner, c), b, elements)
    requires list' == SessionsOf(CutOff(w.nodes[a], other).source.connects, c)
    ensures ElementsMatch(list', b, if b == other then [] else elements)
  {
    CutElements(w.nodes[a], other, c, b, elements);
  }

  lemma LinkElements(
    w: World, owner: Owner, one: DeviceId, other: DeviceId, c: Remote, b: DeviceId, elements: seq<ElementName>)
    requires ElementsMatch(SessionsFor(w, owner, c), b, elements)
    requires one in w.nodes && other in w.nodes && one != other
    requires MapOk(w.nodes[one].source.connects) && MapOk(w.nodes[other].source.connects)
    ensures ElementsMatch(SessionsFor(Cutting(w, one, other), owner, c), b,
      if Ends(owner, LinkLost(one, other), c, b) then [] else elements)
  {
    CutList(w, owner, one, other, c);
    var list' := SessionsFor(Cutting(w, one, other), owner, c);
    if Home(owner, c) == one {
      HomeElements(w, owner, one, other, c, b, elements, list');
    } else if Home(owner, c) == other {
      HomeElements(w, owner, other, one, c, b, elements, list');
    }
  }

  lemma LinkStep(w: World, owner: Owner, l: Ledger, one: DeviceId, other: DeviceId, c: Remote, b: DeviceId)
    requires WellFormed(w, owner) && ElementsMatch(SessionsFor(w, owner, c), b, l.elements)
    requires one in w.nodes && other in w.nodes && one != other
    ensures ElementsMatch(
      SessionsFor(Cutting(w, one, other), owner, c), b, Entry(l, owner, LinkLost(one, other), c, b).elements)
  {
    NodeFacts(w, owner, one);
    NodeFacts(w, owner, other);
    LinkElements(w, owner, one, other, c, b, l.elements);
  }

  lemma CommitStep(w: World, owner: Owner, l: Ledger, id: nat, c: Remote, b: DeviceId)
    requires WellFormed(w, owner) && Matches(w, owner, l, c, b) && id in w.attempts
    ensures ElementsMatch(
      SessionsFor(Committing(w, owner, id), owner, c), b, Entry(l, owner, CommitConnect(id), c, b).elements)
  {
    assert ConnectOk(w, owner, Home(owner, c), c);
    CommitElements(w, owner, l, id, c, b);
  }

  lemma OtherSessions(w: World, owner: Owner, step: Step, c: Remote)
    requires Enabled(w, owner, step)
    requires !step.CommitConnect? && !step.CloseConnect? && !step.ProcessDies? && !step.LinkLost?
    ensures SessionsFor(Apply(w, owner, step), owner, c) == SessionsFor(w, owner, c)
  {
  }

  lemma GoneStep(w: World, owner: Owner, l: Ledger, step: Step, c: Remote, b: DeviceId)
    requires WellFormed(w, owner) && ElementsMatch(SessionsFor(w, owner, c), b, l.elements)
    requires Enabled(w, owner, step) && (step.CloseConnect? || step.ProcessDies?)
    ensures ElementsMatch(SessionsFor(Apply(w, owner, step), owner, c), b, Entry(l, owner, step, c, b).elements)
  {
    if step.ProcessDies? {
      assert ConnectOk(w, owner, Home(owner, step.connect), c);
      DeathList(w, owner, step.connect, c);
    }
  }

  lemma OtherStep(w: World, owner: Owner, l: Ledger, step: Step, c: Remote, b: DeviceId)
    requires ElementsMatch(SessionsFor(w, owner, c), b, l.elements) && Enabled(w, owner, step)
    requires !step.CommitConnect? && !step.CloseConnect? && !step.ProcessDies? && !step.LinkLost?
    ensures ElementsMatch(SessionsFor(Apply(w, owner, step), owner, c), b, Entry(l, owner, step, c, b).elements)
  {
    OtherSessions(w, owner, step, c);
    SameMatch(SessionsFor(w, owner, c), SessionsFor(Apply(w, owner, step), owner, c), b, l.elements,
      Entry(l, owner, step, c, b).elements);
  }

  lemma StepElements(w: World, owner: Owner, l: Ledger, step: Step, c: Remote, b: DeviceId)
    requires WellFormed(w, owner) && Matches(w, owner, l, c, b) && Enabled(w, owner, step)
    ensures ElementsMatch(SessionsFor(Apply(w, owner, step), owner, c), b, Entry(l, owner, step, c, b).elements)
  {
    if step.CommitConnect? {
      CommitStep(w, owner, l, step.id, c, b);
    } else if step.CloseConnect? || step.ProcessDies? {
      GoneStep(w, owner, l, step, c, b);
    } else if step.LinkLost? {
      LinkStep(w, owner, l, step.one, step.other, c, b);
    } else {
      OtherStep(w, owner, l, step, c, b);
    }
  }

  lemma StepMatches(w: World, owner: Owner, l: Ledger, step: Step, c: Remote, b: DeviceId)
    requires WellFormed(w, owner) && Matches(w, owner, l, c, b) && Enabled(w, owner, step)
    ensures Matches(Apply(w, owner, step), owner, Entry(l, owner, step, c, b), c, b)
  {
    RequestsStep(w, owner, l, step, c, b);
    StepElements(w, owner, l, step, c, b);
  }

  lemma {:induction false} RunMatches(w: World, owner: Owner, l: Ledger, steps: seq<Step>, c: Remote, b: DeviceId)
    requires WellFormed(w, owner) && Matches(w, owner, l, c, b) && Executable(w, owner, steps)
    ensures Matches(After(w, owner, steps), owner, Kept(l, owner, steps, c, b), c, b)
    decreases |steps|
  {
    if steps != [] {
      StepMatches(w, owner, l, steps[0], c, b);
      StepKeepsWellFormed(w, owner, steps[0]);
      RunMatches(Apply(w, owner, steps[0]), owner, Entry(l, owner, steps[0], c, b), steps[1..], c, b);
    }
  }

  /** After any run from the start, the session of connect c to device b holds exactly the
      elements that were begun and committed for that pair since the last step that ended
      such a session, each once and in their order; and there is a session exactly when there
      is such an element. */
  lemma SessionElements(w: World, owner: Owner, steps: seq<Step>, c: Remote, b: DeviceId)
    requires Fresh(w) && Executable(w, owner, steps)
    ensures var list := SessionsFor(After(w, owner, steps), owner, c);
      var elements := Kept(EMPTY, owner, steps, c, b).elements;
      ElementsTo(list, b) == elements && (Reaches(list, b) <==> elements != [])
  {
    FreshIsWellFormed(w, owner);
    assert SessionsFor(w, owner, c) == [];
    RunMatches(w, owner, EMPTY, steps, c, b);
  }

  /** After any run from the start the attempts under way are exactly those begun and neither given
      up nor committed, each for the connect, device and element it was begun with, and with its
      three tries less one for each refusal and each lost answer. */
  lemma AttemptsAreRequests(w: World, owner: Owner, steps: seq<Step>, id: nat)
    requires Fresh(w) && Executable(w, owner, steps)
    ensures var attempts := After(w, owner, steps).attempts;
      var requests := Kept(EMPTY, owner, steps, Null, "").requests;
      && (id in attempts <==> id in requests)
      && (id in attempts ==>
        && attempts[id].connect == requests[id].connect && attempts[id].device == requests[id].device
        && attempts[id].element == requests[id].element && attempts[id].triesLeft == requests[id].tries)
  {
    FreshIsWellFormed(w, owner);
    assert SessionsFor(w, owner, Null) == [];
    RunMatches(w, owner, EMPTY, steps, Null, "");
    assert RequestsMatch(After(w, owner, steps).attempts, Kept(EMPTY, owner, steps, Null, "").requests);
  }

  // ---------------------------------------------------- where a session comes from

  predicate Sourced(list: seq<Session>, a: DeviceId) {
    forall i :: 0 <= i < |list| ==> list[i].sourceDeviceId == a
  }

  lemma AddSourced(list: seq<Session>, device: DeviceId, element: ElementName, caller: CallerInfo)
    requires Sourced(list, caller.sourceDeviceId)
    ensures Sourced(AddSession(list, caller.sourceDeviceId, device, element, caller), caller.sourceDeviceId)
  {
    AddSessionContents(list, caller.sourceDeviceId, device, element, caller);
  }

  lemma CutSourced(n: Node, other: DeviceId, c: Remote, a: DeviceId)
    requires Sourced(SessionsOf(n.source.connects, c), a)
    ensures Sourced(SessionsOf(CutOff(n, other).source.connects, c), a)
  {
  }

  lemma StepSourced(w: World, owner: Owner, step: Step, c: Remote)
    requires WellFormed(w, owner) && Sourced(SessionsFor(w, owner, c), Home(owner, c)) && Enabled(w, owner, step)
    ensures Sourced(SessionsFor(Apply(w, owner, step), owner, c), Home(owner, c))
  {
    if step.CommitConnect? {
      var at := w.attempts[step.id];
      CommitList(w, owner, step.id, c);
      if c == at.connect {
        AddSourced(SessionsFor(w, owner, c), at.device, at.element, owner(c));
      }
    } else if step.ProcessDies? {
      assert ConnectOk(w, owner, Home(owner, step.connect), c);
      DeathList(w, owner, step.connect, c);
    } else if step.LinkLost? {
      CutList(w, owner, step.one, step.other, c);
      if Home(owner, c) == step.one {
        CutSourced(w.nodes[step.one], step.other, c, Home(owner, c));
      } else if Home(owner, c) == step.other {
        CutSourced(w.nodes[step.other], step.one, c, Home(owner, c));
      }
    } else if !step.CloseConnect? {
      OtherSessions(w, owner, step, c);
    }
  }

  lemma {:induction false} RunSourced(w: World, owner: Owner, steps: seq<Step>, c: Remote)
    requires WellFormed(w, owner) && Sourced(SessionsFor(w, owner, c), Home(owner, c)) && Executable(w, owner, steps)
    ensures Sourced(SessionsFor(After(w, owner, steps), owner, c), Home(owner, c))
    ensures WellFormed(After(w, owner, steps), owner)
    decreases |steps|
  {
    if steps != [] {
      StepSourced(w, owner, steps[0], c);
      StepKeepsWellFormed(w, owner, steps[0]);
      RunSourced(Apply(w, owner, steps[0]), owner, steps[1..], c);
    }
  }

  /** After any run from the start every session of a connect names the caller that owns the
      connect, and the device of that caller as its source. */
  lemma SessionOrigin(w: World, owner: Owner, steps: seq<Step>, c: Remote)
    requires Fresh(w) && Executable(w, owner, steps)
    ensures forall s :: s in SessionsFor(After(w, owner, steps), owner, c) ==>
      s.callerInfo == owner(c) && s.sourceDeviceId == owner(c).sourceDeviceId
  {
    FreshIsWellFormed(w, owner);
    assert SessionsFor(w, owner, c) == [];
    RunSourced(w, owner, steps, c);
    assert ConnectOk(After(w, owner, steps), owner, Home(owner, c), c);
  }

  // ------------------------------------------------------- what a device serves

  /** The step accepts connect c at device b, with this wrapper and element for its caller. */
  predicate Offers(w: World, owner: Owner, step: Step, b: DeviceId, c: Remote, info: ConnectInfo) {
    && (step.AcceptConnect? || step.AnswerLost?) && step.id in w.attempts
    && w.attempts[step.id].connect == c && w.attempts[step.id].device == b
    && info == ConnectInfo(owner(c), step.wrapper, w.attempts[step.id].element)
  }

  ghost predicate OfferedIn(w: World, owner: Owner, steps: seq<Step>, b: DeviceId, c: Remote, info: ConnectInfo)
    requires Executable(w, owner, steps)
    decreases |steps|
  {
    && steps != []
    && (Offers(w, owner, steps[0], b, c, info) || OfferedIn(Apply(w, owner, steps[0]), owner, steps[1..], b, c, info))
  }

  lemma ServedStep(w: World, owner: Owner, step: Step, b: DeviceId, c: Remote)
    requires Enabled(w, owner, step) && c in ServedAt(Apply(w, owner, step), b)
    ensures var info := ServedAt(Apply(w, owner, step), b)[c];
      (c in ServedAt(w, b) && ServedAt(w, b)[c] == info) || Offers(w, owner, step, b, c, info)
  {
  }

  lemma {:induction false} RunServed(w: World, owner: Owner, steps: seq<Step>, b: DeviceId, c: Remote)
    requires Executable(w, owner, steps) && c in ServedAt(After(w, owner, steps), b)
    ensures var info := ServedAt(After(w, owner, steps), b)[c];
      (c in ServedAt(w, b) && ServedAt(w, b)[c] == info) || OfferedIn(w, owner, steps, b, c, info)
    decreases |steps|
  {
    if steps != [] {
      var w' := Apply(w, owner, steps[0]);
      RunServed(w', owner, steps[1..], b, c);
      if c in ServedAt(w', b) {
        ServedStep(w, owner, steps[0], b, c);
      }
    }
  }

  /** After any run from the start, whatever a device serves for a connect names the owner of the
      connect, and the wrapper and element with which one of its accepts was made. */
  lemma ServedOrigin(w: World, owner: Owner, steps: seq<Step>, b: DeviceId, c: Remote)
    requires Fresh(w) && Executable(w, owner, steps) && c in ServedAt(After(w, owner, steps), b)
    ensures OfferedIn(w, owner, steps, b, c, ServedAt(After(w, owner, steps), b)[c])
  {
    RunServed(w, owner, steps, b, c);
  }
}
