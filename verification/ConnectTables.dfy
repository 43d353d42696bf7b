/**
 The connect bookkeeping of one device: the sessions it opened, the per-uid leak counter,
 and the connections it serves for other devices.

 The functions give the effect of each locked section on values; the class in
 ConnectService.dfy runs the code's own loops and is proved to have that effect.
 */
module ConnectTables {
  import opened Codes
  import opened Sessions

  const MAX_DISTRIBUTED_CONNECT_NUM: nat := 600

  type SessionMap = map<Remote, seq<Session>>
  type Counter = map<int, nat>

  /** What the source side of a device keeps. */
  datatype Source = Source(connects: SessionMap, tracking: Counter)

  /** One connection served for another device. */
  datatype ConnectInfo = ConnectInfo(callerInfo: CallerInfo, callbackWrapper: Remote, element: ElementName)

  type ServedMap = map<Remote, ConnectInfo>

  // -------------------------------------------------------------- leak counter

  function Tracked(tracking: Counter, uid: int): nat {
    if uid in tracking then tracking[uid] else 0
  }

  function Decrease(tracking: Counter, uid: int): Counter {
    if uid < 0 || uid !in tracking then tracking
    else if tracking[uid] <= 1 then tracking - {uid}
    else tracking[uid := tracking[uid] - 1]
  }

  /** The connects whose front session belongs to a uid. */
  function OwnedByUid(m: SessionMap, uid: int): set<Remote> {
    set c | c in m && FrontUid(m[c]) == uid
  }

  /** The connects of a uid that were erased, when `left` are the keys that stay. */
  function Gone(m: SessionMap, left: set<Remote>, uid: int): set<Remote> {
    OwnedByUid(m, uid) - left
  }

  /** The counter after every connect outside `left` was counted down once. */
  function Settled(tracking: Counter, m: SessionMap, left: set<Remote>): Counter {
    map uid | uid in tracking && (uid < 0 || Gone(m, left, uid) == {} || tracking[uid] > |Gone(m, left, uid)|)
      :: if uid < 0 then tracking[uid] else tracking[uid] - |Gone(m, left, uid)|
  }

  /** The counter is exact: a uid has a key just when it owns a connect, and the number
      stored is the number of connects it owns. */
  ghost predicate Exact(s: Source) {
    forall uid ::
      && (uid in s.tracking <==> OwnedByUid(s.connects, uid) != {})
      && Tracked(s.tracking, uid) == |OwnedByUid(s.connects, uid)|
  }

  lemma GoneStep(m: SessionMap, left: set<Remote>, c: Remote, uid: int)
    requires c in m && c in left
    ensures Gone(m, left - {c}, uid) ==
      if FrontUid(m[c]) == uid then Gone(m, left, uid) + {c} else Gone(m, left, uid)
    ensures |Gone(m, left - {c}, uid)| == |Gone(m, left, uid)| + if FrontUid(m[c]) == uid then 1 else 0
  {
    assert c !in Gone(m, left, uid);
    if FrontUid(m[c]) == uid {
      assert Gone(m, left - {c}, uid) == Gone(m, left, uid) + {c};
    } else {
      assert Gone(m, left - {c}, uid) == Gone(m, left, uid);
    }
  }

  /** Erasing one connect more counts its front uid down once. */
  lemma SettledStep(tracking: Counter, m: SessionMap, left: set<Remote>, c: Remote)
    requires c in m && c in left
    ensures Settled(tracking, m, left - {c}) == Decrease(Settled(tracking, m, left), FrontUid(m[c]))
  {
    var before, after := Settled(tracking, m, left), Settled(tracking, m, left - {c});
    var counted := Decrease(before, FrontUid(m[c]));
    forall uid
      ensures uid in after <==> uid in counted
      ensures uid in after ==> after[uid] == counted[uid]
    {
      SettledStepAt(tracking, m, left, c, uid);
    }
  }

  lemma SettledStepAt(tracking: Counter, m: SessionMap, left: set<Remote>, c: Remote, uid: int)
    requires c in m && c in left
    ensures var after := Settled(tracking, m, left - {c});
      var counted := Decrease(Settled(tracking, m, left), FrontUid(m[c]));
      (uid in after <==> uid in counted) && (uid in after ==> after[uid] == counted[uid])
  {
    GoneStep(m, left, c, uid);
    var gone, gone' := Gone(m, left, uid), Gone(m, left - {c}, uid);
    assert gone == {} <==> |gone| == 0;
    assert gone' == {} <==> |gone'| == 0;
  }

  lemma SettledNothing(tracking: Counter, m: SessionMap)
    ensures Settled(tracking, m, m.Keys) == tracking
  {
    forall uid
      ensures Gone(m, m.Keys, uid) == {}
    {
    }
  }

  // ----------------------------------------------------------- locked sections

  function CheckConnect(s: Source, caller: CallerInfo): int {
    if caller.uid < 0 then BIND_ABILITY_UID_INVALID_ERR
    else if Tracked(s.tracking, caller.uid) >= MAX_DISTRIBUTED_CONNECT_NUM then BIND_ABILITY_LEAK_ERR
    else ERR_OK
  }

  function SessionsOf(m: SessionMap, c: Remote): seq<Session> {
    if c in m then m[c] else []
  }

  function Mapped(s: Source, c: Remote, device: DeviceId, element: ElementName, caller: CallerInfo): Source {
    if c.Null? then s
    else
      Source(
        s.connects[c := AddSession(SessionsOf(s.connects, c), caller.sourceDeviceId, device, element, caller)],
        if c in s.connects then s.tracking else s.tracking[caller.uid := Tracked(s.tracking, caller.uid) + 1])
  }

  /** The source side after some connects were erased, or lost sessions, in one section. */
  function Shrunk(s: Source, left: SessionMap): Source {
    Source(left, Settled(s.tracking, s.connects, left.Keys))
  }

  function Disconnected(s: Source, c: Remote): Source {
    Shrunk(s, s.connects - {c})
  }

  /** Every list loses its first session to the device; a list left empty goes. */
  function DeviceLeft(m: SessionMap, device: DeviceId): SessionMap {
    map c | c in m && DropTo(m[c], device) != [] :: DropTo(m[c], device)
  }

  function Offline(s: Source, device: DeviceId): Source {
    Shrunk(s, DeviceLeft(s.connects, device))
  }

  predicate FrontIs(list: seq<Session>, caller: CallerInfo) {
    list != [] && list[0].callerInfo == caller
  }

  /** The connects whose front session has this caller. */
  function OwnedBy(m: SessionMap, caller: CallerInfo): set<Remote> {
    set c | c in m && FrontIs(m[c], caller)
  }

  function CallerDied(s: Source, caller: CallerInfo): Source {
    Shrunk(s, s.connects - OwnedBy(s.connects, caller))
  }

  /** The devices that the sessions of these connects go to. */
  ghost function Destinations(m: SessionMap, cs: set<Remote>): set<DeviceId> {
    set c, s | c in cs && c in m && s in m[c] :: s.destinationDeviceId
  }

  function ServedAfterConnect(served: ServedMap, c: Remote, info: ConnectInfo): ServedMap {
    if c in served then served else served[c := info]
  }

  /** The second section of an accepted connect. It enters the connect only if the search of
      the first section had not found it, and never over an entry that came in between. */
  function Recorded(served: ServedMap, c: Remote, info: ConnectInfo, known: bool): ServedMap {
    if known then served else ServedAfterConnect(served, c, info)
  }

  function ServedFor(served: ServedMap, caller: CallerInfo): set<Remote> {
    set c | c in served && served[c].callerInfo == caller
  }

  function ServedFrom(served: ServedMap, device: DeviceId): set<Remote> {
    set c | c in served && served[c].callerInfo.sourceDeviceId == device
  }

  /** The refusals of the limit check, each with its code. */
  lemma CheckCodes(s: Source, caller: CallerInfo)
    ensures CheckConnect(s, caller) == 29360159 <==> caller.uid < 0
    ensures CheckConnect(s, caller) == 29360160 <==> caller.uid >= 0 && Tracked(s.tracking, caller.uid) >= 600
    ensures CheckConnect(s, caller) == 0 <==> caller.uid >= 0 && Tracked(s.tracking, caller.uid) < 600
  {
  }

  /** A connect that is served keeps its wrapper and its element through every further accept; a
      new one gets those of the accept; nobody else is touched. */
  lemma RecordedContents(served: ServedMap, c: Remote, info: ConnectInfo, known: bool, d: Remote)
    ensures var served' := Recorded(served, c, info, known);
      && (d in served ==> d in served' && served'[d] == served[d])
      && (d !in served ==> (d in served' <==> d == c && !known) && (d in served' ==> served'[d] == info))
  {
  }

  // -------------------------------------------------- what the sections preserve

  /** The representation of the session map, whoever calls. */
  ghost predicate MapOk(m: SessionMap) {
    forall c :: c in m ==> !c.Null? && m[c] != [] && ListOk(m[c])
  }

  /** All sessions of a connect belong to one caller. */
  ghost predicate OneCaller(m: SessionMap) {
    forall c :: c in m && m[c] != [] ==> AllFrom(m[c], m[c][0].callerInfo)
  }

  ghost predicate UidsValid(m: SessionMap) {
    forall c :: c in m ==> FrontUid(m[c]) >= 0
  }

  lemma MappedOwners(s: Source, c: Remote, device: DeviceId, element: ElementName, caller: CallerInfo, uid: int)
    requires MapOk(s.connects) && !c.Null?
    ensures var m := Mapped(s, c, device, element, caller).connects;
      OwnedByUid(m, uid) == OwnedByUid(s.connects, uid) + if c !in s.connects && uid == caller.uid then {c} else {}
  {
    AddSessionKeeps(SessionsOf(s.connects, c), caller.sourceDeviceId, device, element, caller);
  }

  /** Committing a connect keeps the counter exact, whoever the caller is. */
  lemma MappedExact(s: Source, c: Remote, device: DeviceId, element: ElementName, caller: CallerInfo)
    requires MapOk(s.connects) && Exact(s)
    ensures Exact(Mapped(s, c, device, element, caller))
  {
    if !c.Null? {
      var s' := Mapped(s, c, device, element, caller);
      forall uid
        ensures uid in s'.tracking <==> OwnedByUid(s'.connects, uid) != {}
        ensures Tracked(s'.tracking, uid) == |OwnedByUid(s'.connects, uid)|
      {
        MappedOwners(s, c, device, element, caller, uid);
        assert c !in s.connects ==> c !in OwnedByUid(s.connects, uid);
      }
    }
  }

  /** What a shrinking section does to the counter: each uid keeps the number of its
      connects that survived, counted by the front session they had before. */
  lemma ShrunkCounts(s: Source, left: SessionMap, uid: int)
    requires Exact(s) && UidsValid(s.connects) && left.Keys <= s.connects.Keys
    ensures var kept := OwnedByUid(s.connects, uid) * left.Keys;
      && Tracked(Shrunk(s, left).tracking, uid) == |kept|
      && (uid in Shrunk(s, left).tracking <==> kept != {})
  {
    var all, gone := OwnedByUid(s.connects, uid), Gone(s.connects, left.Keys, uid);
    var kept := all * left.Keys;
    assert all == kept + gone && kept * gone == {};
    assert |all| == |kept| + |gone|;
    if uid < 0 {
      assert all == {};
    }
  }

  /** A shrinking section leaves the counter exact just when, for every uid, as many
      surviving connects had it at the front before as have it there after. */
  lemma ShrunkExactIff(s: Source, left: SessionMap)
    requires Exact(s) && UidsValid(s.connects) && left.Keys <= s.connects.Keys
    ensures Exact(Shrunk(s, left)) <==>
      forall uid :: |OwnedByUid(s.connects, uid) * left.Keys| == |OwnedByUid(left, uid)|
  {
    forall uid
      ensures Tracked(Shrunk(s, left).tracking, uid) == |OwnedByUid(s.connects, uid) * left.Keys|
      ensures uid in Shrunk(s, left).tracking <==> |OwnedByUid(s.connects, uid) * left.Keys| > 0
      ensures OwnedByUid(left, uid) != {} <==> |OwnedByUid(left, uid)| > 0
    {
      ShrunkCounts(s, left, uid);
      assert OwnedByUid(left, uid) != {} ==> |OwnedByUid(left, uid)| > 0;
    }
  }

  /** Removing whole connects, or sessions of connects that have one caller, is exact. */
  lemma ShrunkExact(s: Source, left: SessionMap)
    requires Exact(s) && UidsValid(s.connects) && left.Keys <= s.connects.Keys
    requires forall c :: c in left ==> FrontUid(left[c]) == FrontUid(s.connects[c])
    ensures Exact(Shrunk(s, left))
  {
    forall uid
      ensures |OwnedByUid(s.connects, uid) * left.Keys| == |OwnedByUid(left, uid)|
    {
      assert OwnedByUid(s.connects, uid) * left.Keys == OwnedByUid(left, uid);
    }
    ShrunkExactIff(s, left);
  }

  lemma DeviceLeftKeeps(m: SessionMap, device: DeviceId)
    requires MapOk(m)
    ensures MapOk(DeviceLeft(m, device))
    ensures forall c, d :: Reaches(SessionsOf(DeviceLeft(m, device), c), d) <==>
      d != device && Reaches(SessionsOf(m, c), d)
    ensures OneCaller(m) ==> OneCaller(DeviceLeft(m, device))
    ensures OneCaller(m) ==>
      forall c :: c in DeviceLeft(m, device) ==> FrontUid(DeviceLeft(m, device)[c]) == FrontUid(m[c])
  {
    forall c | c in m
      ensures ListOk(DropTo(m[c], device))
      ensures forall d :: Reaches(DropTo(m[c], device), d) <==> d != device && Reaches(m[c], d)
      ensures OneCaller(m) ==> AllFrom(DropTo(m[c], device), m[c][0].callerInfo)
    {
      DropToKeeps(m[c], device);
    }
  }

  /** The offline section is exact when each connect has one caller. */
  lemma OfflineExact(s: Source, device: DeviceId)
    requires MapOk(s.connects) && OneCaller(s.connects) && Exact(s) && UidsValid(s.connects)
    ensures Exact(Offline(s, device))
  {
    DeviceLeftKeeps(s.connects, device);
    ShrunkExact(s, DeviceLeft(s.connects, device));
  }

  /** Without one caller per connect the counter goes wrong: when the front session of a
      connect goes offline and the next one has another uid, the counter is no longer exact. */
  lemma OfflineLeaks(s: Source, device: DeviceId, c: Remote)
    requires MapOk(s.connects) && Exact(s) && UidsValid(s.connects)
    requires var left := DeviceLeft(s.connects, device);
      && c in left && FrontUid(left[c]) != FrontUid(s.connects[c])
      && forall c' :: c' in left && c' != c ==> FrontUid(left[c']) == FrontUid(s.connects[c'])
    ensures !Exact(Offline(s, device))
  {
    var left := DeviceLeft(s.connects, device);
    var uid := FrontUid(s.connects[c]);
    assert OwnedByUid(s.connects, uid) * left.Keys == OwnedByUid(left, uid) + {c};
    assert c !in OwnedByUid(left, uid);
    ShrunkExactIff(s, left);
  }
}
