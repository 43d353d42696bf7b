/**
 Agreement between two devices: a device serves a connect just when the home device of that
 connect has a session to it.

 Between the sections of one operation the two tables differ, so the invariant names what
 may be on its way: an attempt that the remote device accepted and that is not committed
 yet, or a notice that is not delivered yet. When nothing is on its way the tables agree.
 */
module ConnectAgreement {
  import opened Sessions
  import opened ConnectTables
  import opened ConnectNet

  ghost predicate HasSession(w: World, owner: Owner, c: Remote, b: DeviceId) {
    Reaches(SessionsFor(w, owner, c), b)
  }

  predicate Serves(w: World, b: DeviceId, c: Remote) {
    c in ServedAt(w, b)
  }

  predicate AcceptedBy(w: World, id: nat, c: Remote, b: DeviceId) {
    id in w.attempts && w.attempts[id].phase.Answered? && w.attempts[id].connect == c && w.attempts[id].device == b
  }

  /** An attempt to b was accepted and is not committed yet. */
  ghost predicate Accepted(w: World, c: Remote, b: DeviceId) {
    exists id :: AcceptedBy(w, id, c, b)
  }

  /** A notice on its way to b will make it forget the connect. */
  predicate Pending(w: World, owner: Owner, c: Remote, b: DeviceId) {
    DisconnectNotice(b, c) in w.notices || DiedNotice(b, owner(c)) in w.notices
  }

  ghost predicate PairOk(w: World, owner: Owner, c: Remote, b: DeviceId) {
    && (Serves(w, b, c) ==> HasSession(w, owner, c, b) || Accepted(w, c, b) || Pending(w, owner, c, b))
    && (HasSession(w, owner, c, b) || Accepted(w, c, b) ==> Serves(w, b, c) && !Pending(w, owner, c, b))
  }

  ghost predicate Accounted(w: World, owner: Owner) {
    forall c, b :: PairOk(w, owner, c, b)
  }

  /** The steps that do no harm. A connect is accepted only with no notice about it on its way,
      and, if the search had found it, only while it is still served. No notice is sent and no
      link lost while an accepted attempt on that path waits for its commit. An answer may get
      lost if the device served the connect before or has a reason to; a notice may get lost
      if its device serves nothing that only this notice would remove. */
  ghost predicate Harmless(w: World, owner: Owner, step: Step)
    requires Enabled(w, owner, step)
  {
    match step
    case AcceptConnect(id, _) =>
      var at := w.attempts[id];
      !Pending(w, owner, at.connect, at.device) && (at.phase.known ==> Serves(w, at.device, at.connect))
    case AnswerLost(id, _) =>
      var at := w.attempts[id];
      || at.phase.known || HasSession(w, owner, at.connect, at.device)
      || Accepted(w, at.connect, at.device) || Pending(w, owner, at.connect, at.device)
    case NoticeLost(n) =>
      forall c :: Serves(w, n.to, c) && Pending(w, owner, c, n.to) ==> Pending(Losing(w, n), owner, c, n.to)
    case CloseConnect(c) => forall b :: HasSession(w, owner, c, b) ==> !Accepted(w, c, b)
    case ProcessDies(c) =>
      var m := ConnectsAt(w, Home(owner, c));
      forall c', b :: owner(c') == owner(c) && Accepted(w, c', b) ==> b !in Destinations(m, OwnedBy(m, owner(c)))
    case LinkLost(one, other) => forall c, b :: OnLink(owner, one, other, c, b) ==> !Accepted(w, c, b)
    case _ => true
  }

  ghost predicate HarmlessRun(w: World, owner: Owner, steps: seq<Step>)
    requires Executable(w, owner, steps)
    decreases |steps|
  {
    steps == [] || (Harmless(w, owner, steps[0]) && HarmlessRun(Apply(w, owner, steps[0]), owner, steps[1..]))
  }

  function Losing(w: World, n: Notice): World {
    w.(notices := w.notices - {n})
  }

  /** The pair lies on the lost link. */
  predicate OnLink(owner: Owner, one: DeviceId, other: DeviceId, c: Remote, b: DeviceId) {
    (Home(owner, c) == one && b == other) || (Home(owner, c) == other && b == one)
  }

  // ---------------------------------------------------------------- step by step

  lemma SameAccepted(w: World, w': World, c: Remote, b: DeviceId)
    requires forall id :: AcceptedBy(w', id, c, b) <==> AcceptedBy(w, id, c, b)
    ensures Accepted(w', c, b) <==> Accepted(w, c, b)
  {
  }

  /** Attempts that were not accepted come, change and go without effect. */
  lemma WaitingPair(w: World, owner: Owner, id: nat, at: Attempt, c: Remote, b: DeviceId)
    requires PairOk(w, owner, c, b) && !at.phase.Answered? && (id in w.attempts ==> !w.attempts[id].phase.Answered?)
    ensures PairOk(w.(attempts := w.attempts[id := at]), owner, c, b)
  {
    SameAccepted(w, w.(attempts := w.attempts[id := at]), c, b);
  }

  lemma DroppedPair(w: World, owner: Owner, id: nat, c: Remote, b: DeviceId)
    requires PairOk(w, owner, c, b) && id in w.attempts && !w.attempts[id].phase.Answered?
    ensures PairOk(w.(attempts := w.attempts - {id}), owner, c, b)
  {
    SameAccepted(w, w.(attempts := w.attempts - {id}), c, b);
  }

  /** Recording touches no other pair and no session. */
  lemma ServingServes(w: World, owner: Owner, at: Attempt, wrapper: Remote, c: Remote, b: DeviceId)
    requires at.phase.Searched? && at.device in w.nodes
    ensures var w' := Serving(w, owner, at, wrapper);
      && SessionsFor(w', owner, c) == SessionsFor(w, owner, c)
      && (Serves(w', b, c) <==> Serves(w, b, c) || (c == at.connect && b == at.device && !at.phase.known))
  {
  }

  lemma AcceptedAfter(w: World, owner: Owner, id: nat, wrapper: Remote, c: Remote, b: DeviceId)
    requires id in w.attempts && w.attempts[id].phase.Searched?
    ensures Accepted(Accepting(w, owner, id, wrapper), c, b) <==>
      Accepted(w, c, b) || (c == w.attempts[id].connect && b == w.attempts[id].device)
  {
    var w' := Accepting(w, owner, id, wrapper);
    if c == w.attempts[id].connect && b == w.attempts[id].device {
      assert AcceptedBy(w', id, c, b);
    } else {
      SameAccepted(w, w', c, b);
    }
  }

  lemma AcceptPair(w: World, owner: Owner, id: nat, wrapper: Remote, c: Remote, b: DeviceId)
    requires PairOk(w, owner, c, b) && id in w.attempts && w.attempts[id].phase.Searched? &&
      w.attempts[id].device in w.nodes
    requires var at := w.attempts[id];
      !Pending(w, owner, at.connect, at.device) && (at.phase.known ==> Serves(w, at.device, at.connect))
    ensures PairOk(Accepting(w, owner, id, wrapper), owner, c, b)
  {
    ServingServes(w, owner, w.attempts[id], wrapper, c, b);
    AcceptedAfter(w, owner, id, wrapper, c, b);
    assert SessionsFor(Accepting(w, owner, id, wrapper), owner, c) == SessionsFor(w, owner, c);
  }

  lemma AnswerLostPair(w: World, owner: Owner, id: nat, wrapper: Remote, c: Remote, b: DeviceId)
    requires PairOk(w, owner, c, b) && id in w.attempts && w.attempts[id].phase.Searched? &&
      w.attempts[id].device in w.nodes
    requires w.attempts[id].triesLeft > 0
    requires var at := w.attempts[id];
      || at.phase.known || HasSession(w, owner, at.connect, at.device)
      || Accepted(w, at.connect, at.device) || Pending(w, owner, at.connect, at.device)
    ensures PairOk(Retrying(Serving(w, owner, w.attempts[id], wrapper), id), owner, c, b)
  {
    var w' := Retrying(Serving(w, owner, w.attempts[id], wrapper), id);
    ServingServes(w, owner, w.attempts[id], wrapper, c, b);
    SameAccepted(w, w', c, b);
    assert SessionsFor(w', owner, c) == SessionsFor(w, owner, c);
  }

  lemma NoticeLostPair(w: World, owner: Owner, n: Notice, c: Remote, b: DeviceId)
    requires PairOk(w, owner, c, b)
    requires b == n.to && Serves(w, b, c) && Pending(w, owner, c, b) ==> Pending(Losing(w, n), owner, c, b)
    ensures PairOk(Losing(w, n), owner, c, b)
  {
    SameAccepted(w, Losing(w, n), c, b);
    assert SessionsFor(Losing(w, n), owner, c) == SessionsFor(w, owner, c);
    assert b != n.to ==> (Pending(Losing(w, n), owner, c, b) <==> Pending(w, owner, c, b));
  }

  lemma CommitSessions(w: World, owner: Owner, id: nat, c: Remote, b: DeviceId)
    requires WellFormed(w, owner) && id in w.attempts
    ensures HasSession(Committing(w, owner, id), owner, c, b) <==>
      HasSession(w, owner, c, b) || (c == w.attempts[id].connect && b == w.attempts[id].device)
  {
    var at := w.attempts[id];
    var caller := owner(at.connect);
    assert ConnectOk(w, owner, caller.sourceDeviceId, at.connect);
    AddSessionKeeps(SessionsFor(w, owner, at.connect), caller.sourceDeviceId, at.device, at.element, caller);
  }

  lemma CommitPair(w: World, owner: Owner, id: nat, c: Remote, b: DeviceId)
    requires WellFormed(w, owner) && PairOk(w, owner, c, b) && id in w.attempts && w.attempts[id].phase.Answered?
    ensures PairOk(Committing(w, owner, id), owner, c, b)
  {
    CommitSessions(w, owner, id, c, b);
    if c == w.attempts[id].connect && b == w.attempts[id].device {
      assert AcceptedBy(w, id, c, b);
    } else {
      SameAccepted(w, Committing(w, owner, id), c, b);
    }
  }

  lemma CloseSession(w: World, owner: Owner, c0: Remote, c: Remote, b: DeviceId)
    requires Home(owner, c0) in w.nodes
    ensures var w' := Closing(w, owner, c0);
      && (HasSession(w', owner, c, b) <==> c != c0 && HasSession(w, owner, c, b))
      && (Pending(w', owner, c, b) <==> Pending(w, owner, c, b) || (c == c0 && HasSession(w, owner, c0, b)))
  {
    var list := SessionsFor(w, owner, c0);
    ReachesByMember(list, b);
    assert DisconnectNotice(b, c) in CloseNotices(c0, list) <==> c == c0 && Reaches(list, b);
  }

  lemma ClosePair(w: World, owner: Owner, c0: Remote, c: Remote, b: DeviceId)
    requires PairOk(w, owner, c, b) && Home(owner, c0) in w.nodes
    requires HasSession(w, owner, c0, b) ==> !Accepted(w, c0, b)
    ensures PairOk(Closing(w, owner, c0), owner, c, b)
  {
    SameAccepted(w, Closing(w, owner, c0), c, b);
    CloseSession(w, owner, c0, c, b);
  }

  lemma DeathSessions(w: World, owner: Owner, c0: Remote, c: Remote, b: DeviceId)
    requires ConnectOk(w, owner, Home(owner, c0), c) && Home(owner, c0) in w.nodes
    ensures HasSession(Dying(w, owner, c0), owner, c, b) <==> owner(c) != owner(c0) && HasSession(w, owner, c, b)
  {
    var m := ConnectsAt(w, Home(owner, c0));
    assert c in OwnedBy(m, owner(c0)) <==> c in m && owner(c) == owner(c0);
  }

  lemma DeathNotices(w: World, owner: Owner, c0: Remote, c: Remote, b: DeviceId)
    requires ConnectOk(w, owner, Home(owner, c0), c) && Home(owner, c0) in w.nodes
    ensures var m := ConnectsAt(w, Home(owner, c0)); var w' := Dying(w, owner, c0);
      && (Pending(w', owner, c, b) <==>
        Pending(w, owner, c, b) || (owner(c) == owner(c0) && b in Destinations(m, OwnedBy(m, owner(c0)))))
      && (owner(c) == owner(c0) && HasSession(w, owner, c, b) ==> b in Destinations(m, OwnedBy(m, owner(c0))))
  {
    var m := ConnectsAt(w, Home(owner, c0));
    if owner(c) == owner(c0) && HasSession(w, owner, c, b) {
      ReachesByMember(m[c], b);
      assert c in OwnedBy(m, owner(c0));
    }
  }

  lemma DiesPair(w: World, owner: Owner, c0: Remote, c: Remote, b: DeviceId)
    requires ConnectOk(w, owner, Home(owner, c0), c) && PairOk(w, owner, c, b) && Home(owner, c0) in w.nodes
    requires var m := ConnectsAt(w, Home(owner, c0));
      owner(c) == owner(c0) && Accepted(w, c, b) ==> b !in Destinations(m, OwnedBy(m, owner(c0)))
    ensures PairOk(Dying(w, owner, c0), owner, c, b)
  {
    SameAccepted(w, Dying(w, owner, c0), c, b);
    DeathSessions(w, owner, c0, c, b);
    DeathNotices(w, owner, c0, c, b);
  }

  lemma DeliverPair(w: World, owner: Owner, n: Notice, c: Remote, b: DeviceId)
    requires ServedOk(w, owner, b, c) && PairOk(w, owner, c, b) && n in w.notices
    ensures PairOk(Delivering(w, n), owner, c, b)
  {
    var w' := Delivering(w, n);
    SameAccepted(w, w', c, b);
    assert SessionsFor(w', owner, c) == SessionsFor(w, owner, c);
    if n == DisconnectNotice(b, c) || n == DiedNotice(b, owner(c)) {
      assert !Serves(w', b, c);
    } else {
      assert Serves(w', b, c) <==> Serves(w, b, c);
      assert Pending(w', owner, c, b) <==> Pending(w, owner, c, b);
    }
  }

  lemma CutSessions(n: Node, other: DeviceId, c: Remote, b: DeviceId)
    requires MapOk(n.source.connects)
    ensures Reaches(SessionsOf(CutOff(n, other).source.connects, c), b) <==>
      b != other && Reaches(SessionsOf(n.source.connects, c), b)
  {
    DeviceLeftKeeps(n.source.connects, other);
  }

  lemma LinkLostSessions(w: World, owner: Owner, one: DeviceId, other: DeviceId, c: Remote, b: DeviceId)
    requires WellFormed(w, owner) && one in w.nodes && other in w.nodes && one != other
    ensures HasSession(Cutting(w, one, other), owner, c, b) <==>
      !OnLink(owner, one, other, c, b) && HasSession(w, owner, c, b)
  {
    NodeFacts(w, owner, one);
    NodeFacts(w, owner, other);
    CutSessions(w.nodes[one], other, c, b);
    CutSessions(w.nodes[other], one, c, b);
  }

  lemma LinkLostServed(w: World, owner: Owner, one: DeviceId, other: DeviceId, c: Remote, b: DeviceId)
    requires ServedOk(w, owner, b, c) && one in w.nodes && other in w.nodes && one != other
    ensures Serves(Cutting(w, one, other), b, c) <==> !OnLink(owner, one, other, c, b) && Serves(w, b, c)
  {
  }

  lemma LinkLostPair(w: World, owner: Owner, one: DeviceId, other: DeviceId, c: Remote, b: DeviceId)
    requires WellFormed(w, owner) && PairOk(w, owner, c, b) && one in w.nodes && other in w.nodes && one != other
    requires OnLink(owner, one, other, c, b) ==> !Accepted(w, c, b)
    ensures PairOk(Cutting(w, one, other), owner, c, b)
  {
    assert ServedOk(w, owner, b, c);
    SameAccepted(w, Cutting(w, one, other), c, b);
    LinkLostSessions(w, owner, one, other, c, b);
    LinkLostServed(w, owner, one, other, c, b);
  }

  lemma StepPair(w: World, owner: Owner, step: Step, c: Remote, b: DeviceId)
    requires WellFormed(w, owner) && PairOk(w, owner, c, b) && Enabled(w, owner, step) && Harmless(w, owner, step)
    ensures PairOk(Apply(w, owner, step), owner, c, b)
  {
    assert ServedOk(w, owner, b, c);
    match step
    case AcceptConnect(id, wrapper) => AcceptPair(w, owner, id, wrapper, c, b);
    case AnswerLost(id, wrapper) => AnswerLostPair(w, owner, id, wrapper, c, b);
    case NoticeLost(n) => NoticeLostPair(w, owner, n, c, b);
    case CommitConnect(id) => CommitPair(w, owner, id, c, b);
    case CloseConnect(c0) => ClosePair(w, owner, c0, c, b);
    case ProcessDies(c0) =>
      assert ConnectOk(w, owner, Home(owner, c0), c);
      DiesPair(w, owner, c0, c, b);
    case Deliver(n) => DeliverPair(w, owner, n, c, b);
    case LinkLost(one, other) => LinkLostPair(w, owner, one, other, c, b);
    case BeginConnect(id, c0, b0, e) => WaitingPair(w, owner, id, Attempt(c0, b0, e, Asked, 3), c, b);
    case SearchConnect(id) => WaitingPair(w, owner, id, Searching(w, id).attempts[id], c, b);
    case RefuseConnect(id) => WaitingPair(w, owner, id, Retrying(w, id).attempts[id], c, b);
    case DropConnect(id) => DroppedPair(w, owner, id, c, b);
  }

  lemma HarmlessKeeps(w: World, owner: Owner, step: Step)
    requires WellFormed(w, owner) && Accounted(w, owner) && Enabled(w, owner, step) && Harmless(w, owner, step)
    ensures Accounted(Apply(w, owner, step), owner)
  {
    forall c, b
      ensures PairOk(Apply(w, owner, step), owner, c, b)
    {
      assert PairOk(w, owner, c, b);
      StepPair(w, owner, step, c, b);
    }
  }

  // ------------------------------------------------------ what a harmful step does

  lemma HarmfulAccept(w: World, owner: Owner, id: nat, wrapper: Remote)
    requires id in w.attempts && w.attempts[id].phase.Searched? && w.attempts[id].device in w.nodes
    requires var at := w.attempts[id];
      Pending(w, owner, at.connect, at.device) || (at.phase.known && !Serves(w, at.device, at.connect))
    ensures !PairOk(Accepting(w, owner, id, wrapper), owner, w.attempts[id].connect, w.attempts[id].device)
  {
    var at := w.attempts[id];
    ServingServes(w, owner, at, wrapper, at.connect, at.device);
    AcceptedAfter(w, owner, id, wrapper, at.connect, at.device);
  }

  lemma HarmfulAnswerLost(w: World, owner: Owner, id: nat, wrapper: Remote)
    requires id in w.attempts && w.attempts[id].phase.Searched? && w.attempts[id].device in w.nodes
    requires w.attempts[id].triesLeft > 0
    requires var at := w.attempts[id];
      && !at.phase.known && !HasSession(w, owner, at.connect, at.device)
      && !Accepted(w, at.connect, at.device) && !Pending(w, owner, at.connect, at.device)
    ensures !PairOk(Retrying(Serving(w, owner, w.attempts[id], wrapper), id), owner, w.attempts[id].connect,
      w.attempts[id].device)
  {
    var at := w.attempts[id];
    var w' := Retrying(Serving(w, owner, at, wrapper), id);
    ServingServes(w, owner, at, wrapper, at.connect, at.device);
    SameAccepted(w, w', at.connect, at.device);
    assert SessionsFor(w', owner, at.connect) == SessionsFor(w, owner, at.connect);
  }

  lemma HarmfulNoticeLost(w: World, owner: Owner, n: Notice, c: Remote)
    requires PairOk(w, owner, c, n.to) && Serves(w, n.to, c) && Pending(w, owner, c, n.to)
    requires !Pending(Losing(w, n), owner, c, n.to)
    ensures !PairOk(Losing(w, n), owner, c, n.to)
  {
    SameAccepted(w, Losing(w, n), c, n.to);
    assert SessionsFor(Losing(w, n), owner, c) == SessionsFor(w, owner, c);
  }

  lemma HarmfulClose(w: World, owner: Owner, c: Remote, b: DeviceId)
    requires Home(owner, c) in w.nodes && HasSession(w, owner, c, b) && Accepted(w, c, b)
    ensures !PairOk(Closing(w, owner, c), owner, c, b)
  {
    SameAccepted(w, Closing(w, owner, c), c, b);
    CloseSession(w, owner, c, c, b);
  }

  lemma HarmfulDeath(w: World, owner: Owner, c0: Remote, c: Remote, b: DeviceId)
    requires ConnectOk(w, owner, Home(owner, c0), c) && Home(owner, c0) in w.nodes
    requires var m := ConnectsAt(w, Home(owner, c0));
      owner(c) == owner(c0) && Accepted(w, c, b) && b in Destinations(m, OwnedBy(m, owner(c0)))
    ensures !PairOk(Dying(w, owner, c0), owner, c, b)
  {
    SameAccepted(w, Dying(w, owner, c0), c, b);
    DeathNotices(w, owner, c0, c, b);
  }

  lemma HarmfulCut(w: World, owner: Owner, one: DeviceId, other: DeviceId, c: Remote, b: DeviceId)
    requires ServedOk(w, owner, b, c) && one in w.nodes && other in w.nodes && one != other
    requires OnLink(owner, one, other, c, b) && Accepted(w, c, b)
    ensures !PairOk(Cutting(w, one, other), owner, c, b)
  {
    SameAccepted(w, Cutting(w, one, other), c, b);
    LinkLostServed(w, owner, one, other, c, b);
  }

  lemma HarmfulBreaks(w: World, owner: Owner, step: Step) returns (c: Remote, b: DeviceId)
    requires WellFormed(w, owner) && Accounted(w, owner) && Enabled(w, owner, step) && !Harmless(w, owner, step)
    ensures !PairOk(Apply(w, owner, step), owner, c, b)
  {
    if step.AcceptConnect? {
      c, b := w.attempts[step.id].connect, w.attempts[step.id].device;
      HarmfulAccept(w, owner, step.id, step.wrapper);
    } else if step.AnswerLost? {
      c, b := w.attempts[step.id].connect, w.attempts[step.id].device;
      HarmfulAnswerLost(w, owner, step.id, step.wrapper);
    } else if step.NoticeLost? {
      var n := step.notice;
      c :| Serves(w, n.to, c) && Pending(w, owner, c, n.to) && !Pending(Losing(w, n), owner, c, n.to);
      b := n.to;
      assert PairOk(w, owner, c, b);
      HarmfulNoticeLost(w, owner, n, c);
    } else if step.CloseConnect? {
      c := step.connect;
      b :| HasSession(w, owner, c, b) && Accepted(w, c, b);
      HarmfulClose(w, owner, c, b);
    } else if step.ProcessDies? {
      var m := ConnectsAt(w, Home(owner, step.connect));
      c, b :| owner(c) == owner(step.connect) && Accepted(w, c, b) &&
        b in Destinations(m, OwnedBy(m, owner(step.connect)));
      assert ConnectOk(w, owner, Home(owner, step.connect), c);
      HarmfulDeath(w, owner, step.connect, c, b);
    } else {
      c, b :| OnLink(owner, step.one, step.other, c, b) && Accepted(w, c, b);
      assert ServedOk(w, owner, b, c);
      HarmfulCut(w, owner, step.one, step.other, c, b);
    }
  }

  /** One step keeps the account of every pair exactly when it is harmless. */
  lemma AccountedStepIff(w: World, owner: Owner, step: Step)
    requires WellFormed(w, owner) && Accounted(w, owner) && Enabled(w, owner, step)
    ensures Accounted(Apply(w, owner, step), owner) <==> Harmless(w, owner, step)
  {
    if Harmless(w, owner, step) {
      HarmlessKeeps(w, owner, step);
    } else {
      var c, b := HarmfulBreaks(w, owner, step);
    }
  }

  // -------------------------------------------------- finishing what is on its way

  /** Nothing that concerns this connect and this device is on its way. */
  ghost predicate Quiet(w: World, owner: Owner, c: Remote, b: DeviceId) {
    !Accepted(w, c, b) && !Pending(w, owner, c, b)
  }

  /** Wherever nothing is on its way, the two devices agree. */
  ghost predicate Agrees(w: World, owner: Owner) {
    forall c, b :: Quiet(w, owner, c, b) ==> (Serves(w, b, c) <==> HasSession(w, owner, c, b))
  }

  /** Commits and deliveries: they only finish what was begun. */
  predicate Finishes(steps: seq<Step>) {
    forall i :: 0 <= i < |steps| ==> steps[i].CommitConnect? || steps[i].Deliver?
  }

  /** The devices agree, now and after whatever is on its way is finished, in any order. */
  ghost predicate Sound(w: World, owner: Owner) {
    forall steps :: Executable(w, owner, steps) && Finishes(steps) ==> Agrees(After(w, owner, steps), owner)
  }

  lemma {:induction false} FinishingKeeps(w: World, owner: Owner, steps: seq<Step>)
    requires WellFormed(w, owner) && Accounted(w, owner) && Executable(w, owner, steps) && Finishes(steps)
    ensures Accounted(After(w, owner, steps), owner)
    decreases |steps|
  {
    if steps != [] {
      HarmlessKeeps(w, owner, steps[0]);
      StepKeepsWellFormed(w, owner, steps[0]);
      FinishingKeeps(Apply(w, owner, steps[0]), owner, steps[1..]);
    }
  }

  /** A pair that will end with a session that is not served. */
  ghost predicate Doomed(w: World, owner: Owner, c: Remote, b: DeviceId) {
    (HasSession(w, owner, c, b) || Accepted(w, c, b)) && (!Serves(w, b, c) || Pending(w, owner, c, b))
  }

  ghost predicate Disagree(w: World, owner: Owner, c: Remote, b: DeviceId) {
    Quiet(w, owner, c, b) && (Serves(w, b, c) <==> !HasSession(w, owner, c, b))
  }

  lemma CommitStaysDoomed(w: World, owner: Owner, id: nat, c: Remote, b: DeviceId)
    requires WellFormed(w, owner) && Doomed(w, owner, c, b) && AcceptedBy(w, id, c, b)
    ensures Enabled(w, owner, CommitConnect(id)) && Doomed(Apply(w, owner, CommitConnect(id)), owner, c, b)
  {
    assert AttemptOk(w, owner, w.attempts[id]);
    CommitSessions(w, owner, id, c, b);
  }

  lemma DeliveryStaysDoomed(w: World, owner: Owner, n: Notice, c: Remote, b: DeviceId)
    requires ServedOk(w, owner, b, c) && HasSession(w, owner, c, b) && n in w.notices
    requires n == DisconnectNotice(b, c) || n == DiedNotice(b, owner(c))
    ensures Doomed(Delivering(w, n), owner, c, b)
  {
    var w' := Delivering(w, n);
    assert SessionsFor(w', owner, c) == SessionsFor(w, owner, c);
  }

  /** Committing what was accepted and then delivering what is pending ends in a disagreement. */
  lemma {:induction false} DoomedEnds(w: World, owner: Owner, c: Remote, b: DeviceId) returns (steps: seq<Step>)
    requires WellFormed(w, owner) && Doomed(w, owner, c, b)
    ensures Executable(w, owner, steps) && Finishes(steps) && Disagree(After(w, owner, steps), owner, c, b)
    decreases |w.attempts| + |w.notices|
  {
    if Accepted(w, c, b) {
      var id :| AcceptedBy(w, id, c, b);
      CommitStaysDoomed(w, owner, id, c, b);
      steps := DoomedAfter(w, owner, CommitConnect(id), c, b);
    } else if Pending(w, owner, c, b) {
      var n := if DisconnectNotice(b, c) in w.notices then DisconnectNotice(b, c) else DiedNotice(b, owner(c));
      assert ServedOk(w, owner, b, c);
      DeliveryStaysDoomed(w, owner, n, c, b);
      steps := DoomedAfter(w, owner, Deliver(n), c, b);
    } else {
      RunNone(w, owner);
      steps := [];
    }
  }

  lemma FewerLeft(w: World, owner: Owner, step: Step)
    requires Enabled(w, owner, step) && (step.CommitConnect? || step.Deliver?)
    ensures var w' := Apply(w, owner, step); |w'.attempts| + |w'.notices| < |w.attempts| + |w.notices|
  {
    if step.CommitConnect? {
      assert w.attempts == (w.attempts - {step.id})[step.id := w.attempts[step.id]];
    }
  }

  lemma {:induction false} DoomedAfter(w: World, owner: Owner, step: Step, c: Remote, b: DeviceId)
    returns (steps: seq<Step>)
    requires WellFormed(w, owner) && Enabled(w, owner, step) && (step.CommitConnect? || step.Deliver?)
    requires Doomed(Apply(w, owner, step), owner, c, b)
    ensures Executable(w, owner, steps) && Finishes(steps) && Disagree(After(w, owner, steps), owner, c, b)
    decreases |w.attempts| + |w.notices|, 0
  {
    FewerLeft(w, owner, step);
    StepKeepsWellFormed(w, owner, step);
    var rest := DoomedEnds(Apply(w, owner, step), owner, c, b);
    RunCons(w, owner, step, rest);
    steps := [step] + rest;
  }

  lemma BrokenEnds(w: World, owner: Owner, c: Remote, b: DeviceId) returns (steps: seq<Step>)
    requires WellFormed(w, owner) && !PairOk(w, owner, c, b)
    ensures Executable(w, owner, steps) && Finishes(steps) && Disagree(After(w, owner, steps), owner, c, b)
  {
    if Doomed(w, owner, c, b) {
      steps := DoomedEnds(w, owner, c, b);
    } else {
      RunNone(w, owner);
      steps := [];
    }
  }

  lemma AccountedAgrees(w: World, owner: Owner)
    requires Accounted(w, owner)
    ensures Agrees(w, owner)
  {
    forall c, b | Quiet(w, owner, c, b)
      ensures Serves(w, b, c) <==> HasSession(w, owner, c, b)
    {
      assert PairOk(w, owner, c, b);
    }
  }

  /** The invariant says neither too much nor too little: it holds exactly when the devices
      agree after every way to finish what is on its way. */
  lemma AccountedIff(w: World, owner: Owner)
    requires WellFormed(w, owner)
    ensures Accounted(w, owner) <==> Sound(w, owner)
  {
    if Accounted(w, owner) {
      forall steps | Executable(w, owner, steps) && Finishes(steps)
        ensures Agrees(After(w, owner, steps), owner)
      {
        FinishingKeeps(w, owner, steps);
        AccountedAgrees(After(w, owner, steps), owner);
      }
    } else {
      var c, b :| !PairOk(w, owner, c, b);
      var steps := BrokenEnds(w, owner, c, b);
      assert !Agrees(After(w, owner, steps), owner);
    }
  }

  /** Every harmful step, whatever its kind, has a continuation of commits and deliveries that
      ends with two devices disagreeing and nothing on its way between them. */
  lemma HarmfulDisagrees(w: World, owner: Owner, step: Step) returns (rest: seq<Step>, c: Remote, b: DeviceId)
    requires WellFormed(w, owner) && Accounted(w, owner) && Enabled(w, owner, step) && !Harmless(w, owner, step)
    ensures Executable(w, owner, [step] + rest) && Finishes(rest)
    ensures Disagree(After(w, owner, [step] + rest), owner, c, b)
  {
    c, b := HarmfulBreaks(w, owner, step);
    StepKeepsWellFormed(w, owner, step);
    rest := BrokenEnds(Apply(w, owner, step), owner, c, b);
    RunCons(w, owner, step, rest);
  }

  // ------------------------------------------------------------- the main results

  lemma {:induction false} RunKeepsAccounted(w: World, owner: Owner, steps: seq<Step>)
    requires WellFormed(w, owner) && Accounted(w, owner)
    requires Executable(w, owner, steps) && HarmlessRun(w, owner, steps)
    ensures Accounted(After(w, owner, steps), owner)
    decreases |steps|
  {
    if steps != [] {
      HarmlessKeeps(w, owner, steps[0]);
      StepKeepsWellFormed(w, owner, steps[0]);
      RunKeepsAccounted(Apply(w, owner, steps[0]), owner, steps[1..]);
    }
  }

  lemma FreshIsAccounted(w: World, owner: Owner)
    requires Fresh(w)
    ensures Accounted(w, owner)
  {
    forall c, b
      ensures PairOk(w, owner, c, b)
    {
      assert SessionsFor(w, owner, c) == [];
    }
  }

  /** Cross-device agreement. After any harmless run from the start, of any number of devices,
      for every connect and device that nothing on its way concerns: device b serves c for
      device a just when a has a session for c to b. */
  lemma Agreement(w: World, owner: Owner, steps: seq<Step>, a: DeviceId, b: DeviceId, c: Remote)
    requires Fresh(w) && Executable(w, owner, steps) && HarmlessRun(w, owner, steps)
    requires Quiet(After(w, owner, steps), owner, c, b)
    ensures var w' := After(w, owner, steps);
      (c in ServedAt(w', b) && ServedAt(w', b)[c].callerInfo.sourceDeviceId == a) <==>
        Reaches(SessionsOf(ConnectsAt(w', a), c), b)
  {
    FreshIsWellFormed(w, owner);
    FreshIsAccounted(w, owner);
    RunKeepsAccounted(w, owner, steps);
    RunKeepsWellFormed(w, owner, steps);
    var w' := After(w, owner, steps);
    assert PairOk(w', owner, c, b) && ServedOk(w', owner, b, c) && ConnectOk(w', owner, a, c);
    assert Reaches(SessionsOf(ConnectsAt(w', a), c), b) ==> c in ConnectsAt(w', a);
  }

  /** The devices agree in every state of the run and after every way to finish from there. */
  ghost predicate SoundRun(w: World, owner: Owner, steps: seq<Step>)
    requires Executable(w, owner, steps)
    decreases |steps|
  {
    Sound(w, owner) && (steps != [] ==> SoundRun(Apply(w, owner, steps[0]), owner, steps[1..]))
  }

  lemma {:induction false} SoundRunIff(w: World, owner: Owner, steps: seq<Step>)
    requires WellFormed(w, owner) && Accounted(w, owner) && Executable(w, owner, steps)
    ensures SoundRun(w, owner, steps) <==> HarmlessRun(w, owner, steps)
    decreases |steps|
  {
    AccountedIff(w, owner);
    if steps != [] {
      var w' := Apply(w, owner, steps[0]);
      StepKeepsWellFormed(w, owner, steps[0]);
      AccountedStepIff(w, owner, steps[0]);
      AccountedIff(w', owner);
      if Harmless(w, owner, steps[0]) {
        SoundRunIff(w', owner, steps[1..]);
      }
    }
  }

  /** The exact condition. Of all runs from the start, the harmless ones are exactly those in
      which the devices agree throughout, whatever is then finished. */
  lemma AgreementIff(w: World, owner: Owner, steps: seq<Step>)
    requires Fresh(w) && Executable(w, owner, steps)
    ensures SoundRun(w, owner, steps) <==> HarmlessRun(w, owner, steps)
  {
    FreshIsWellFormed(w, owner);
    FreshIsAccounted(w, owner);
    SoundRunIff(w, owner, steps);
  }

  /** One operation at a time: nothing is searched or accepted while a notice is on its way, and
      nothing is closed, delivered or lost while a connect is in flight. */
  predicate OneAtATime(w: World, step: Step) {
    match step
    case SearchConnect(_) => w.notices == {}
    case AcceptConnect(_, _) => w.notices == {}
    case AnswerLost(_, _) => false
    case NoticeLost(_) => false
    case CloseConnect(_) => w.attempts == map[]
    case ProcessDies(_) => w.attempts == map[]
    case Deliver(_) => w.attempts == map[]
    case LinkLost(_, _) => w.attempts == map[]
    case _ => true
  }

  ghost predicate OneAtATimeRun(w: World, owner: Owner, steps: seq<Step>)
    requires Executable(w, owner, steps)
    decreases |steps|
  {
    steps == [] || (OneAtATime(w, steps[0]) && OneAtATimeRun(Apply(w, owner, steps[0]), owner, steps[1..]))
  }

  /** What a search found is still there. */
  predicate SearchesHold(w: World) {
    forall id :: id in w.attempts ==>
      w.attempts[id].phase.Searched? && w.attempts[id].phase.known ==>
        Serves(w, w.attempts[id].device, w.attempts[id].connect)
  }

  lemma SearchesStillHold(w: World, owner: Owner, step: Step)
    requires SearchesHold(w) && Enabled(w, owner, step) && OneAtATime(w, step)
    ensures SearchesHold(Apply(w, owner, step))
  {
  }

  lemma {:induction false} OneAtATimeIsHarmless(w: World, owner: Owner, steps: seq<Step>)
    requires SearchesHold(w) && Executable(w, owner, steps) && OneAtATimeRun(w, owner, steps)
    ensures HarmlessRun(w, owner, steps)
    decreases |steps|
  {
    if steps != [] {
      assert Harmless(w, owner, steps[0]);
      SearchesStillHold(w, owner, steps[0]);
      OneAtATimeIsHarmless(Apply(w, owner, steps[0]), owner, steps[1..]);
    }
  }

  // ----------------------------------------------------- harmful runs, spelled out

  lemma TwoSteps(w: World, owner: Owner, one: Step, two: Step)
    requires Enabled(w, owner, one) && Enabled(Apply(w, owner, one), owner, two)
    ensures Executable(w, owner, [one, two])
    ensures After(w, owner, [one, two]) == Apply(Apply(w, owner, one), owner, two)
  {
    var w1 := Apply(w, owner, one);
    RunNone(Apply(w1, owner, two), owner);
    RunCons(w1, owner, two, []);
    assert [two] + [] == [two] && [one] + [two] == [one, two];
    RunCons(w, owner, one, [two]);
  }

  lemma TwoThenTwo(w: World, owner: Owner, one: Step, two: Step, three: Step, four: Step)
    requires Enabled(w, owner, one) && Enabled(Apply(w, owner, one), owner, two)
    requires var w2 := Apply(Apply(w, owner, one), owner, two);
      Enabled(w2, owner, three) && Enabled(Apply(w2, owner, three), owner, four)
    ensures var w2 := Apply(Apply(w, owner, one), owner, two);
      && Executable(w, owner, [one, two, three, four])
      && After(w, owner, [one, two, three, four]) == Apply(Apply(w2, owner, three), owner, four)
  {
    var w1 := Apply(w, owner, one);
    TwoSteps(Apply(w1, owner, two), owner, three, four);
    RunCons(w1, owner, two, [three, four]);
    RunCons(w, owner, one, [two] + [three, four]);
    assert [one] + ([two] + [three, four]) == [one, two, three, four];
  }

  /** The home device has a session that the other device does not serve. */
  ghost predicate Unserved(w: World, owner: Owner, at: Attempt) {
    HasSession(w, owner, at.connect, at.device) && !Serves(w, at.device, at.connect)
  }

  lemma CutThenCommit(w: World, owner: Owner, id: nat)
    requires WellFormed(w, owner) && id in w.attempts
    ensures var at := w.attempts[id]; var a := Home(owner, at.connect);
      a in w.nodes && at.device in w.nodes && Unserved(Committing(Cutting(w, a, at.device), owner, id), owner, at)
  {
    var at := w.attempts[id];
    var a := Home(owner, at.connect);
    var w1 := Cutting(w, a, at.device);
    CutKeeps(w, owner, a, at.device);
    assert ServedOk(w, owner, at.device, at.connect);
    LinkLostServed(w, owner, a, at.device, at.connect, at.device);
    CommitSessions(w1, owner, id, at.connect, at.device);
  }

  /** A link lost between acceptance and commit always leaves a session that the other
      device does not serve. */
  lemma LinkLostCrossesCommit(w: World, owner: Owner, id: nat)
    requires WellFormed(w, owner) && id in w.attempts && w.attempts[id].phase.Answered?
    ensures var at := w.attempts[id];
      var steps := [LinkLost(Home(owner, at.connect), at.device), CommitConnect(id)];
      Executable(w, owner, steps) && Unserved(After(w, owner, steps), owner, at)
  {
    var at := w.attempts[id];
    var lost, commit := LinkLost(Home(owner, at.connect), at.device), CommitConnect(id);
    CutThenCommit(w, owner, id);
    TwoSteps(w, owner, lost, commit);
  }

  lemma AcceptCommitForget(w: World, owner: Owner, id: nat, wrapper: Remote)
    requires WellFormed(w, owner) && id in w.attempts && w.attempts[id].phase.Searched?
    ensures var at := w.attempts[id];
      var w2 := Committing(Accepting(w, owner, id, wrapper), owner, id);
      Unserved(Delivering(w2, DisconnectNotice(at.device, at.connect)), owner, at)
  {
    var at := w.attempts[id];
    AcceptKeeps(w, owner, id, wrapper);
    CommitSessions(Accepting(w, owner, id, wrapper), owner, id, at.connect, at.device);
    var w2 := Committing(Accepting(w, owner, id, wrapper), owner, id);
    var w3 := Delivering(w2, DisconnectNotice(at.device, at.connect));
    assert SessionsFor(w3, owner, at.connect) == SessionsFor(w2, owner, at.connect);
  }

  /** A connect accepted while the notice of an earlier disconnect is on its way always ends
      in a session that the other device does not serve. */
  lemma NoticeCrossesAccept(w: World, owner: Owner, id: nat, wrapper: Remote)
    requires WellFormed(w, owner) && Enabled(w, owner, AcceptConnect(id, wrapper))
    requires DisconnectNotice(w.attempts[id].device, w.attempts[id].connect) in w.notices
    ensures var at := w.attempts[id];
      var steps := [AcceptConnect(id, wrapper), CommitConnect(id), Deliver(DisconnectNotice(at.device, at.connect))];
      Executable(w, owner, steps) && Unserved(After(w, owner, steps), owner, at)
  {
    var at := w.attempts[id];
    var accept, commit, deliver :=
      AcceptConnect(id, wrapper), CommitConnect(id), Deliver(DisconnectNotice(at.device, at.connect));
    AcceptCommitForget(w, owner, id, wrapper);
    TwoSteps(Apply(w, owner, accept), owner, commit, deliver);
    RunCons(w, owner, accept, [commit, deliver]);
    assert [accept] + [commit, deliver] == [accept, commit, deliver];
  }

  /** A lost answer leaves the other device serving a connect that has no session there. */
  lemma AnswerLostStrands(w: World, owner: Owner, id: nat, wrapper: Remote)
    requires WellFormed(w, owner) && Enabled(w, owner, AnswerLost(id, wrapper)) && !w.attempts[id].phase.known
    requires !HasSession(w, owner, w.attempts[id].connect, w.attempts[id].device)
    ensures var at := w.attempts[id];
      var steps := [AnswerLost(id, wrapper), DropConnect(id)];
      && Executable(w, owner, steps)
      && var w' := After(w, owner, steps);
      !HasSession(w', owner, at.connect, at.device) && Serves(w', at.device, at.connect)
  {
    var at := w.attempts[id];
    ServingServes(w, owner, at, wrapper, at.connect, at.device);
    TwoSteps(w, owner, AnswerLost(id, wrapper), DropConnect(id));
  }

  /** The connect is closed, and forgotten by the other device, after that device found it. */
  function Overtaken(w: World, owner: Owner, at: Attempt): World
    requires Home(owner, at.connect) in w.nodes
  {
    Delivering(Closing(w, owner, at.connect), DisconnectNotice(at.device, at.connect))
  }

  lemma OvertakenAccept(w: World, owner: Owner, id: nat, wrapper: Remote)
    requires WellFormed(w, owner) && id in w.attempts && w.attempts[id].phase == Searched(true)
    ensures var at := w.attempts[id];
      && Home(owner, at.connect) in w.nodes && Overtaken(w, owner, at).attempts == w.attempts
      && Unserved(Committing(Accepting(Overtaken(w, owner, at), owner, id, wrapper), owner, id), owner, at)
  {
    var at := w.attempts[id];
    assert AttemptOk(w, owner, at);
    CloseKeeps(w, owner, at.connect);
    var w1 := Closing(w, owner, at.connect);
    var w2 := Overtaken(w, owner, at);
    ServedShrinks(w1, owner, at.device, {at.connect}, w2);
    ServingServes(w2, owner, at, wrapper, at.connect, at.device);
    AcceptKeeps(w2, owner, id, wrapper);
    CommitSessions(Accepting(w2, owner, id, wrapper), owner, id, at.connect, at.device);
  }

  lemma ClosedInTime(w: World, owner: Owner, id: nat)
    requires WellFormed(w, owner) && id in w.attempts && (forall b :: !Accepted(w, w.attempts[id].connect, b))
    requires var at := w.attempts[id]; HasSession(w, owner, at.connect, at.device)
    ensures var at := w.attempts[id];
      var steps := [CloseConnect(at.connect), Deliver(DisconnectNotice(at.device, at.connect))];
      Executable(w, owner, steps) && HarmlessRun(w, owner, steps)
  {
    var at := w.attempts[id];
    var close, deliver := CloseConnect(at.connect), Deliver(DisconnectNotice(at.device, at.connect));
    ReachesByMember(SessionsFor(w, owner, at.connect), at.device);
    TwoSteps(w, owner, close, deliver);
    assert [close, deliver][1..] == [deliver] && [deliver][1..] == [];
  }

  /** A close that comes between the two sections of the remote device, with its notice. By
      themselves both are harmless (`ClosedInTime`), but the device had found the connect, so it does
      not record it again, and the commit leaves a session that is not served. */
  lemma CloseCrossesSearch(w: World, owner: Owner, id: nat, wrapper: Remote)
    requires WellFormed(w, owner) && id in w.attempts && w.attempts[id].phase == Searched(true)
    requires var at := w.attempts[id]; HasSession(w, owner, at.connect, at.device)
    ensures var at := w.attempts[id];
      var steps := [CloseConnect(at.connect), Deliver(DisconnectNotice(at.device, at.connect)),
        AcceptConnect(id, wrapper), CommitConnect(id)];
      Executable(w, owner, steps) && Unserved(After(w, owner, steps), owner, at)
  {
    var at := w.attempts[id];
    var close, deliver := CloseConnect(at.connect), Deliver(DisconnectNotice(at.device, at.connect));
    var accept, commit := AcceptConnect(id, wrapper), CommitConnect(id);
    OvertakenAccept(w, owner, id, wrapper);
    ReachesByMember(SessionsFor(w, owner, at.connect), at.device);
    assert Apply(w, owner, close) == Closing(w, owner, at.connect);
    assert Apply(Closing(w, owner, at.connect), owner, deliver) == Overtaken(w, owner, at);
    TwoThenTwo(w, owner, close, deliver, accept, commit);
  }
}
