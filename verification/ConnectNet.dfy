/**
 The connect protocol between any number of devices, one step per locked section.

 A connect is an attempt from its limit check to its commit; between the two the remote
 device is asked. That device searches its table in one section, connects the local ability,
 and records the connect in another section. A disconnect and a process death first change the local table and then
 send notices, which are delivered one by one. The loss of a link is one step at both ends.
 An answer or a notice can get lost: the remote device then did its part, or nothing, and
 the sender goes on.

 Every connect object belongs to one caller, given by `owner`: the code reads only the front
 session of a connect to find its uid and its caller.
 */
module ConnectNet {
  import opened Codes
  import opened Sessions
  import opened ConnectTables

  datatype Node = Node(source: Source, served: ServedMap)

  /** How far the remote device is: asked, past its search, or done with success. */
  datatype Phase = Asked | Searched(known: bool) | Answered

  datatype Attempt = Attempt(connect: Remote, device: DeviceId, element: ElementName, phase: Phase, triesLeft: nat)

  datatype Notice =
    | DisconnectNotice(to: DeviceId, connect: Remote)
    | DiedNotice(to: DeviceId, caller: CallerInfo)

  datatype World = World(nodes: map<DeviceId, Node>, attempts: map<nat, Attempt>, notices: set<Notice>)

  type Owner = Remote -> CallerInfo

  datatype Step =
    | BeginConnect(id: nat, connect: Remote, device: DeviceId, element: ElementName)
    | SearchConnect(id: nat)
    | AcceptConnect(id: nat, wrapper: Remote)
    | AnswerLost(id: nat, wrapper: Remote)
    | RefuseConnect(id: nat)
    | DropConnect(id: nat)
    | CommitConnect(id: nat)
    | CloseConnect(connect: Remote)
    | ProcessDies(connect: Remote)
    | Deliver(notice: Notice)
    | NoticeLost(notice: Notice)
    | LinkLost(one: DeviceId, other: DeviceId)

  function Home(owner: Owner, c: Remote): DeviceId {
    owner(c).sourceDeviceId
  }

  function ConnectsAt(w: World, a: DeviceId): SessionMap {
    if a in w.nodes then w.nodes[a].source.connects else map[]
  }

  function ServedAt(w: World, b: DeviceId): ServedMap {
    if b in w.nodes then w.nodes[b].served else map[]
  }

  /** The sessions that the home device of a connect keeps for it. */
  function SessionsFor(w: World, owner: Owner, c: Remote): seq<Session> {
    SessionsOf(ConnectsAt(w, Home(owner, c)), c)
  }

  // -------------------------------------------------------------------- steps

  predicate Enabled(w: World, owner: Owner, step: Step) {
    match step
    case BeginConnect(id, c, b, _) =>
      && id !in w.attempts && !c.Null? && Home(owner, c) in w.nodes && b in w.nodes && b != Home(owner, c)
      && CheckConnect(w.nodes[Home(owner, c)].source, owner(c)) == ERR_OK
    case SearchConnect(id) => id in w.attempts && w.attempts[id].phase.Asked? && w.attempts[id].triesLeft > 0
    case AcceptConnect(id, _) => id in w.attempts && w.attempts[id].phase.Searched?
    case AnswerLost(id, _) => id in w.attempts && w.attempts[id].phase.Searched? && w.attempts[id].triesLeft > 0
    case RefuseConnect(id) => id in w.attempts && !w.attempts[id].phase.Answered? && w.attempts[id].triesLeft > 0
    case DropConnect(id) => id in w.attempts && w.attempts[id].phase.Asked?
    case CommitConnect(id) =>
      id in w.attempts && w.attempts[id].phase.Answered? && Home(owner, w.attempts[id].connect) in w.nodes
    case CloseConnect(c) => Home(owner, c) in w.nodes && c in ConnectsAt(w, Home(owner, c))
    case ProcessDies(c) => Home(owner, c) in w.nodes && c in ConnectsAt(w, Home(owner, c))
    case Deliver(n) => n in w.notices
    case NoticeLost(n) => n in w.notices
    case LinkLost(a, b) => a in w.nodes && b in w.nodes && a != b
  }

  function WithSource(w: World, a: DeviceId, s: Source): World
    requires a in w.nodes
  {
    w.(nodes := w.nodes[a := w.nodes[a].(source := s)])
  }

  function WithServed(w: World, b: DeviceId, served: ServedMap): World {
    if b in w.nodes then w.(nodes := w.nodes[b := w.nodes[b].(served := served)]) else w
  }

  function Searching(w: World, id: nat): World
    requires id in w.attempts
  {
    var at := w.attempts[id];
    w.(attempts := w.attempts[id := at.(phase := Searched(at.connect in ServedAt(w, at.device)))])
  }

  /** The asked device records the connect. */
  function Serving(w: World, owner: Owner, at: Attempt, wrapper: Remote): World
    requires at.phase.Searched?
  {
    WithServed(w, at.device,
      Recorded(ServedAt(w, at.device), at.connect, ConnectInfo(owner(at.connect), wrapper, at.element), at.phase.known))
  }

  /** One end of a lost link: no session to the other device and nothing served for it. */
  function CutOff(n: Node, other: DeviceId): Node {
    Node(Offline(n.source, other), n.served - ServedFrom(n.served, other))
  }

  function Accepting(w: World, owner: Owner, id: nat, wrapper: Remote): World
    requires id in w.attempts && w.attempts[id].phase.Searched?
  {
    Serving(w, owner, w.attempts[id], wrapper).(attempts := w.attempts[id := w.attempts[id].(phase := Answered)])
  }

  /** One of the tries failed. */
  function Retrying(w: World, id: nat): World
    requires id in w.attempts && w.attempts[id].triesLeft > 0
  {
    w.(attempts := w.attempts[id := w.attempts[id].(phase := Asked, triesLeft := w.attempts[id].triesLeft - 1)])
  }

  function Committing(w: World, owner: Owner, id: nat): World
    requires id in w.attempts && Home(owner, w.attempts[id].connect) in w.nodes
  {
    var at := w.attempts[id];
    var a := Home(owner, at.connect);
    WithSource(w, a, Mapped(w.nodes[a].source, at.connect, at.device, at.element, owner(at.connect)))
    .(attempts := w.attempts - {id})
  }

  function CloseNotices(c: Remote, list: seq<Session>): set<Notice> {
    set s | s in list :: DisconnectNotice(s.destinationDeviceId, c)
  }

  function Closing(w: World, owner: Owner, c: Remote): World
    requires Home(owner, c) in w.nodes
  {
    var a := Home(owner, c);
    WithSource(w, a, Disconnected(w.nodes[a].source, c))
    .(notices := w.notices + CloseNotices(c, SessionsFor(w, owner, c)))
  }

  ghost function DiedNotices(caller: CallerInfo, m: SessionMap): set<Notice> {
    set d | d in Destinations(m, OwnedBy(m, caller)) :: DiedNotice(d, caller)
  }

  ghost function Dying(w: World, owner: Owner, c: Remote): World
    requires Home(owner, c) in w.nodes
  {
    var a, caller := Home(owner, c), owner(c);
    WithSource(w, a, CallerDied(w.nodes[a].source, caller))
    .(notices := w.notices + DiedNotices(caller, ConnectsAt(w, a)))
  }

  function Forgotten(served: ServedMap, n: Notice): set<Remote> {
    if n.DisconnectNotice? then {n.connect} else ServedFor(served, n.caller)
  }

  function Delivering(w: World, n: Notice): World {
    WithServed(w, n.to, ServedAt(w, n.to) - Forgotten(ServedAt(w, n.to), n)).(notices := w.notices - {n})
  }

  function Cutting(w: World, a: DeviceId, b: DeviceId): World
    requires a in w.nodes && b in w.nodes
  {
    w.(nodes := w.nodes[a := CutOff(w.nodes[a], b)][b := CutOff(w.nodes[b], a)])
  }

  ghost function Apply(w: World, owner: Owner, step: Step): World
    requires Enabled(w, owner, step)
  {
    match step
    case BeginConnect(id, c, b, e) => w.(attempts := w.attempts[id := Attempt(c, b, e, Asked, 3)])
    case SearchConnect(id) => Searching(w, id)
    case AcceptConnect(id, wrapper) => Accepting(w, owner, id, wrapper)
    case AnswerLost(id, wrapper) => Retrying(Serving(w, owner, w.attempts[id], wrapper), id)
    case RefuseConnect(id) => Retrying(w, id)
    case DropConnect(id) => w.(attempts := w.attempts - {id})
    case CommitConnect(id) => Committing(w, owner, id)
    case CloseConnect(c) => Closing(w, owner, c)
    case ProcessDies(c) => Dying(w, owner, c)
    case Deliver(n) => Delivering(w, n)
    case NoticeLost(n) => w.(notices := w.notices - {n})
    case LinkLost(a, b) => Cutting(w, a, b)
  }

  ghost predicate Executable(w: World, owner: Owner, steps: seq<Step>)
    decreases |steps|
  {
    steps == [] || (Enabled(w, owner, steps[0]) && Executable(Apply(w, owner, steps[0]), owner, steps[1..]))
  }

  ghost function After(w: World, owner: Owner, steps: seq<Step>): World
    requires Executable(w, owner, steps)
    decreases |steps|
  {
    if steps == [] then w else After(Apply(w, owner, steps[0]), owner, steps[1..])
  }

  lemma RunNone(w: World, owner: Owner)
    ensures Executable(w, owner, []) && After(w, owner, []) == w
  {
  }

  lemma RunCons(w: World, owner: Owner, step: Step, rest: seq<Step>)
    requires Enabled(w, owner, step) && Executable(Apply(w, owner, step), owner, rest)
    ensures Executable(w, owner, [step] + rest)
    ensures After(w, owner, [step] + rest) == After(Apply(w, owner, step), owner, rest)
  {
    assert ([step] + rest)[1..] == rest;
  }

  /** Devices that have just started. */
  predicate Fresh(w: World) {
    w.attempts == map[] && w.notices == {} && forall a :: a in w.nodes ==>
      w.nodes[a] == Node(Source(map[], map[]), map[])
  }

  // --------------------------------------------------- what every step preserves

  ghost predicate ConnectOk(w: World, owner: Owner, a: DeviceId, c: Remote) {
    c in ConnectsAt(w, a) ==>
      && !c.Null? && Home(owner, c) == a && owner(c).uid >= 0
      && ConnectsAt(w, a)[c] != [] && ListOk(ConnectsAt(w, a)[c]) && AllFrom(ConnectsAt(w, a)[c], owner(c))
      && forall d :: Reaches(ConnectsAt(w, a)[c], d) ==> d in w.nodes && d != a
  }

  ghost predicate ServedOk(w: World, owner: Owner, b: DeviceId, c: Remote) {
    c in ServedAt(w, b) ==>
      ServedAt(w, b)[c].callerInfo == owner(c) && Home(owner, c) in w.nodes && Home(owner, c) != b
  }

  predicate AttemptOk(w: World, owner: Owner, at: Attempt) {
    && !at.connect.Null? && owner(at.connect).uid >= 0
    && Home(owner, at.connect) in w.nodes && at.device in w.nodes && at.device != Home(owner, at.connect)
  }

  /** The tables of every device are well formed and every leak counter is exact. */
  ghost predicate WellFormed(w: World, owner: Owner) {
    && (forall a, c :: ConnectOk(w, owner, a, c))
    && (forall b, c :: ServedOk(w, owner, b, c))
    && (forall id :: id in w.attempts ==> AttemptOk(w, owner, w.attempts[id]))
    && (forall a :: a in w.nodes ==> Exact(w.nodes[a].source))
  }

  lemma NodeFacts(w: World, owner: Owner, a: DeviceId)
    requires WellFormed(w, owner) && a in w.nodes
    ensures var m := w.nodes[a].source.connects; MapOk(m) && OneCaller(m) && UidsValid(m) && Exact(w.nodes[a].source)
    ensures forall c :: c in w.nodes[a].source.connects ==> w.nodes[a].source.connects[c][0].callerInfo == owner(c)
  {
    var m := w.nodes[a].source.connects;
    forall c | c in m
      ensures !c.Null? && m[c] != [] && ListOk(m[c]) && AllFrom(m[c], owner(c)) && m[c][0].callerInfo == owner(c)
      ensures FrontUid(m[c]) >= 0
    {
      assert ConnectOk(w, owner, a, c);
    }
  }

  /** A new source side whose lists are taken from the old ones keeps everything. */
  lemma SourceShrinks(w: World, owner: Owner, a: DeviceId, s: Source, w': World)
    requires WellFormed(w, owner) && a in w.nodes && Exact(s)
    requires forall c :: c in s.connects ==>
      && c in w.nodes[a].source.connects && s.connects[c] != [] && ListOk(s.connects[c])
      && AllFrom(s.connects[c], owner(c))
      && forall d :: Reaches(s.connects[c], d) ==> Reaches(w.nodes[a].source.connects[c], d)
    requires w'.nodes == WithSource(w, a, s).nodes && w'.attempts == w.attempts
    ensures WellFormed(w', owner)
  {
    forall b, c
      ensures ConnectOk(w', owner, b, c) && ServedOk(w', owner, b, c)
    {
      assert ConnectOk(w, owner, b, c) && ServedOk(w, owner, b, c);
    }
  }

  lemma ServedShrinks(w: World, owner: Owner, b: DeviceId, gone: set<Remote>, w': World)
    requires WellFormed(w, owner)
    requires w'.nodes == WithServed(w, b, ServedAt(w, b) - gone).nodes && w'.attempts == w.attempts
    ensures WellFormed(w', owner)
  {
    forall a, c
      ensures ConnectOk(w', owner, a, c) && ServedOk(w', owner, a, c)
    {
      assert ConnectOk(w, owner, a, c) && ServedOk(w, owner, a, c);
    }
  }

  lemma ServingKeeps(w: World, owner: Owner, at: Attempt, wrapper: Remote)
    requires WellFormed(w, owner) && AttemptOk(w, owner, at) && at.phase.Searched?
    ensures WellFormed(Serving(w, owner, at, wrapper), owner)
  {
    var w' := Serving(w, owner, at, wrapper);
    forall a, c
      ensures ConnectOk(w', owner, a, c) && ServedOk(w', owner, a, c)
    {
      assert ConnectOk(w, owner, a, c) && ServedOk(w, owner, a, c);
    }
  }

  /** Other attempts and other notices keep everything. */
  lemma AsideKeeps(w: World, owner: Owner, w': World)
    requires WellFormed(w, owner) && w'.nodes == w.nodes
    requires forall id :: id in w'.attempts ==> AttemptOk(w, owner, w'.attempts[id])
    ensures WellFormed(w', owner)
  {
    forall a, c
      ensures ConnectOk(w', owner, a, c) && ServedOk(w', owner, a, c)
    {
      assert ConnectOk(w, owner, a, c) && ServedOk(w, owner, a, c);
    }
  }

  lemma AcceptKeeps(w: World, owner: Owner, id: nat, wrapper: Remote)
    requires WellFormed(w, owner) && id in w.attempts && w.attempts[id].phase.Searched?
    ensures WellFormed(Accepting(w, owner, id, wrapper), owner)
    ensures WellFormed(Serving(w, owner, w.attempts[id], wrapper), owner)
  {
    ServingKeeps(w, owner, w.attempts[id], wrapper);
    AsideKeeps(Serving(w, owner, w.attempts[id], wrapper), owner, Accepting(w, owner, id, wrapper));
  }

  lemma SearchKeeps(w: World, owner: Owner, id: nat)
    requires WellFormed(w, owner) && id in w.attempts
    ensures WellFormed(Searching(w, id), owner)
  {
    AsideKeeps(w, owner, Searching(w, id));
  }

  lemma RetryKeeps(w: World, owner: Owner, id: nat)
    requires WellFormed(w, owner) && id in w.attempts && w.attempts[id].triesLeft > 0
    ensures WellFormed(Retrying(w, id), owner)
  {
    AsideKeeps(w, owner, Retrying(w, id));
  }

  /** A source side in which one list changed. */
  lemma SourceChanges(w: World, owner: Owner, c0: Remote, s: Source, w': World)
    requires WellFormed(w, owner) && Home(owner, c0) in w.nodes && Exact(s)
    requires forall c :: c in s.connects && c != c0 ==>
      c in w.nodes[Home(owner, c0)].source.connects && s.connects[c] == w.nodes[Home(owner, c0)].source.connects[c]
    requires w' == WithSource(w, Home(owner, c0), s) && ConnectOk(w', owner, Home(owner, c0), c0)
    ensures WellFormed(w', owner)
  {
    forall a, c
      ensures ConnectOk(w', owner, a, c) && ServedOk(w', owner, a, c)
    {
      assert ConnectOk(w, owner, a, c) && ServedOk(w, owner, a, c);
    }
  }

  lemma CommittedList(w: World, owner: Owner, at: Attempt, w': World)
    requires WellFormed(w, owner) && AttemptOk(w, owner, at)
    requires var a := Home(owner, at.connect);
      w' == WithSource(w, a, Mapped(w.nodes[a].source, at.connect, at.device, at.element, owner(at.connect)))
    ensures ConnectOk(w', owner, Home(owner, at.connect), at.connect)
  {
    var caller := owner(at.connect);
    assert ConnectOk(w, owner, caller.sourceDeviceId, at.connect);
    AddSessionKeeps(SessionsFor(w, owner, at.connect), caller.sourceDeviceId, at.device, at.element, caller);
  }

  lemma CommitKeeps(w: World, owner: Owner, id: nat)
    requires WellFormed(w, owner) && id in w.attempts
    ensures WellFormed(Committing(w, owner, id), owner)
  {
    var at := w.attempts[id];
    var a, caller := Home(owner, at.connect), owner(at.connect);
    var s := Mapped(w.nodes[a].source, at.connect, at.device, at.element, caller);
    NodeFacts(w, owner, a);
    MappedExact(w.nodes[a].source, at.connect, at.device, at.element, caller);
    var w1 := WithSource(w, a, s);
    CommittedList(w, owner, at, w1);
    SourceChanges(w, owner, at.connect, s, w1);
    AsideKeeps(w1, owner, Committing(w, owner, id));
  }

  lemma CloseKeeps(w: World, owner: Owner, c0: Remote)
    requires WellFormed(w, owner) && Home(owner, c0) in w.nodes
    ensures WellFormed(Closing(w, owner, c0), owner)
  {
    var a := Home(owner, c0);
    var s := w.nodes[a].source;
    NodeFacts(w, owner, a);
    ShrunkExact(s, s.connects - {c0});
    SourceShrinks(w, owner, a, Disconnected(s, c0), Closing(w, owner, c0));
  }

  lemma DiesKeeps(w: World, owner: Owner, c0: Remote)
    requires WellFormed(w, owner) && Home(owner, c0) in w.nodes
    ensures WellFormed(Dying(w, owner, c0), owner)
  {
    var a := Home(owner, c0);
    var s := w.nodes[a].source;
    NodeFacts(w, owner, a);
    ShrunkExact(s, s.connects - OwnedBy(s.connects, owner(c0)));
    SourceShrinks(w, owner, a, CallerDied(s, owner(c0)), Dying(w, owner, c0));
  }

  lemma CutOffKeeps(w: World, owner: Owner, a: DeviceId, other: DeviceId) returns (w': World)
    requires WellFormed(w, owner) && a in w.nodes
    ensures w' == w.(nodes := w.nodes[a := CutOff(w.nodes[a], other)]) && WellFormed(w', owner)
  {
    var s := w.nodes[a].source;
    NodeFacts(w, owner, a);
    OfflineExact(s, other);
    forall c | c in Offline(s, other).connects
      ensures ListOk(Offline(s, other).connects[c]) && AllFrom(Offline(s, other).connects[c], owner(c))
      ensures forall d :: Reaches(Offline(s, other).connects[c], d) ==> Reaches(s.connects[c], d)
    {
      DropToKeeps(s.connects[c], other);
      assert ConnectOk(w, owner, a, c);
    }
    var w1 := WithSource(w, a, Offline(s, other));
    SourceShrinks(w, owner, a, Offline(s, other), w1);
    w' := WithServed(w1, a, ServedAt(w1, a) - ServedFrom(ServedAt(w1, a), other));
    ServedShrinks(w1, owner, a, ServedFrom(ServedAt(w1, a), other), w');
  }

  lemma CutKeeps(w: World, owner: Owner, a: DeviceId, b: DeviceId)
    requires WellFormed(w, owner) && a in w.nodes && b in w.nodes && a != b
    ensures WellFormed(Cutting(w, a, b), owner)
  {
    var w1 := CutOffKeeps(w, owner, a, b);
    var w2 := CutOffKeeps(w1, owner, b, a);
    assert w2 == Cutting(w, a, b);
  }

  /** Every step of every device keeps the tables well formed and the counters exact. */
  lemma StepKeepsWellFormed(w: World, owner: Owner, step: Step)
    requires WellFormed(w, owner) && Enabled(w, owner, step)
    ensures WellFormed(Apply(w, owner, step), owner)
  {
    match step
    case AcceptConnect(id, wrapper) => AcceptKeeps(w, owner, id, wrapper);
    case AnswerLost(id, wrapper) =>
      AcceptKeeps(w, owner, id, wrapper);
      RetryKeeps(Serving(w, owner, w.attempts[id], wrapper), owner, id);
    case SearchConnect(id) => SearchKeeps(w, owner, id);
    case RefuseConnect(id) => RetryKeeps(w, owner, id);
    case CommitConnect(id) => CommitKeeps(w, owner, id);
    case CloseConnect(c) => CloseKeeps(w, owner, c);
    case ProcessDies(c) => DiesKeeps(w, owner, c);
    case Deliver(n) => ServedShrinks(w, owner, n.to, Forgotten(ServedAt(w, n.to), n), Delivering(w, n));
    case LinkLost(a, b) => CutKeeps(w, owner, a, b);
    case _ => AsideKeeps(w, owner, Apply(w, owner, step));
  }

  lemma FreshIsWellFormed(w: World, owner: Owner)
    requires Fresh(w)
    ensures WellFormed(w, owner)
  {
    forall a | a in w.nodes
      ensures Exact(w.nodes[a].source)
    {
      assert forall uid :: OwnedByUid(w.nodes[a].source.connects, uid) == {};
    }
  }

  lemma {:induction false} RunKeepsWellFormed(w: World, owner: Owner, steps: seq<Step>)
    requires WellFormed(w, owner) && Executable(w, owner, steps)
    ensures WellFormed(After(w, owner, steps), owner)
    decreases |steps|
  {
    if steps != [] {
      StepKeepsWellFormed(w, owner, steps[0]);
      RunKeepsWellFormed(Apply(w, owner, steps[0]), owner, steps[1..]);
    }
  }

  /** Conservation of the leak counter, and the shape of the session lists: after any run
      from the start, on every device and for every uid, the stored number is the number of
      connects whose front session has that uid, with a key just when there is one; and every
      connect has a non-empty list with one session per destination and no element twice. */
  lemma EveryRunIsExact(w: World, owner: Owner, steps: seq<Step>, a: DeviceId)
    requires Fresh(w) && Executable(w, owner, steps) && a in After(w, owner, steps).nodes
    ensures var s := After(w, owner, steps).nodes[a].source;
      && MapOk(s.connects)
      && forall uid ::
        && (uid in s.tracking <==> OwnedByUid(s.connects, uid) != {})
        && Tracked(s.tracking, uid) == |OwnedByUid(s.connects, uid)|
  {
    FreshIsWellFormed(w, owner);
    RunKeepsWellFormed(w, owner, steps);
    NodeFacts(After(w, owner, steps), owner, a);
  }
}
