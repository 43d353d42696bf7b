/**
 Remote objects, callers and the session lists that the connect and the call bookkeeping
 share: one list per remote object, one session per destination device.
 */
module Sessions {

  /** A remote object is an opaque identity. */
  datatype Remote = Null | Object(id: nat)

  type DeviceId = string

  datatype ElementName = ElementName(deviceId: DeviceId, bundleName: string, abilityName: string)

  /** The fields of a caller that identify a process. */
  datatype CallerInfo = CallerInfo(uid: int, pid: int, callerType: int, sourceDeviceId: DeviceId)

  datatype Session = Session(
    sourceDeviceId: DeviceId, destinationDeviceId: DeviceId, elements: seq<ElementName>, callerInfo: CallerInfo)

  const INVALID_CALLER_UID: int := -1

  /** The position of the first session to a device, or the length of the list. */
  function FirstTo(list: seq<Session>, device: DeviceId): (i: nat)
    ensures i <= |list|
    ensures i < |list| ==> list[i].destinationDeviceId == device
    ensures forall j :: 0 <= j < i ==> list[j].destinationDeviceId != device
  {
    if list == [] || list[0].destinationDeviceId == device then 0 else 1 + FirstTo(list[1..], device)
  }

  ghost predicate Reaches(list: seq<Session>, device: DeviceId) {
    exists i :: 0 <= i < |list| && list[i].destinationDeviceId == device
  }

  function WithElement(session: Session, element: ElementName): Session {
    if element in session.elements then session else session.(elements := session.elements + [element])
  }

  function AddSession(list: seq<Session>, source: DeviceId, device: DeviceId, element: ElementName, caller: CallerInfo)
    : seq<Session>
  {
    var i := FirstTo(list, device);
    if i < |list| then list[i := WithElement(list[i], element)]
    else list + [Session(source, device, [element], caller)]
  }

  /** The list without its first session to a device. */
  function DropTo(list: seq<Session>, device: DeviceId): seq<Session> {
    var i := FirstTo(list, device);
    if i < |list| then list[..i] + list[i + 1..] else list
  }

  function FrontUid(list: seq<Session>): int {
    if list == [] then INVALID_CALLER_UID else list[0].callerInfo.uid
  }

  // ----------------------------------------------------------- representation

  ghost predicate NoRepeats<T>(s: seq<T>) {
    forall i, j :: 0 <= i < j < |s| ==> s[i] != s[j]
  }

  ghost predicate DistinctDestinations(list: seq<Session>) {
    forall i, j :: 0 <= i < j < |list| ==> list[i].destinationDeviceId != list[j].destinationDeviceId
  }

  /** At most one session per destination, and no element twice in a session. */
  ghost predicate ListOk(list: seq<Session>) {
    DistinctDestinations(list) && forall i :: 0 <= i < |list| ==> NoRepeats(list[i].elements)
  }

  ghost predicate AllFrom(list: seq<Session>, caller: CallerInfo) {
    forall i :: 0 <= i < |list| ==> list[i].callerInfo == caller
  }

  /** Adding a session keeps the list well formed, reaches one device more and no other, and
      never changes who is at the front of a list that had sessions. */
  lemma AddSessionKeeps(
    list: seq<Session>, source: DeviceId, device: DeviceId, element: ElementName, caller: CallerInfo)
    requires ListOk(list)
    ensures var r := AddSession(list, source, device, element, caller);
      && r != [] && ListOk(r)
      && (forall d :: Reaches(r, d) <==> d == device || Reaches(list, d))
      && FrontUid(r) == (if list == [] then caller.uid else FrontUid(list))
      && (AllFrom(list, caller) ==> AllFrom(r, caller))
  {
    var i := FirstTo(list, device);
    var r := AddSession(list, source, device, element, caller);
    if i < |list| {
      assert forall j :: 0 <= j < |list| ==> r[j].destinationDeviceId == list[j].destinationDeviceId;
    } else {
      assert r[|list|].destinationDeviceId == device;
      assert forall j :: 0 <= j < |list| ==> r[j] == list[j];
    }
  }

  /** The other sessions stay, in the same order. */
  lemma DropToMembers(list: seq<Session>, device: DeviceId)
    requires DistinctDestinations(list)
    ensures forall s :: s in DropTo(list, device) <==> s in list && s.destinationDeviceId != device
  {
    var i := FirstTo(list, device);
    if i < |list| {
      assert list == list[..i] + [list[i]] + list[i + 1..];
    }
  }

  lemma DropToShape(list: seq<Session>, device: DeviceId)
    requires ListOk(list)
    ensures ListOk(DropTo(list, device))
    ensures forall caller :: AllFrom(list, caller) ==> AllFrom(DropTo(list, device), caller)
  {
    var i := FirstTo(list, device);
    var r := DropTo(list, device);
    if i < |list| {
      assert forall j :: 0 <= j < |r| ==> r[j] == list[if j < i then j else j + 1];
    }
  }

  lemma ReachesByMember(list: seq<Session>, device: DeviceId)
    ensures Reaches(list, device) <==> exists s :: s in list && s.destinationDeviceId == device
  {
    if s :| s in list && s.destinationDeviceId == device {
      var i :| 0 <= i < |list| && list[i] == s;
    }
    if Reaches(list, device) {
      var i :| 0 <= i < |list| && list[i].destinationDeviceId == device;
      assert list[i] in list;
    }
  }

  /** In a well-formed list, dropping the first session to a device drops every session to
      it, keeps the others, and empties the list exactly when that session was the only one. */
  lemma DropToKeeps(list: seq<Session>, device: DeviceId)
    requires ListOk(list)
    ensures var r := DropTo(list, device);
      && ListOk(r)
      && (forall d :: Reaches(r, d) <==> d != device && Reaches(list, d))
      && (forall s :: s in r <==> s in list && s.destinationDeviceId != device)
      && (r == [] <==> list == [] || (|list| == 1 && list[0].destinationDeviceId == device))
      && (forall caller :: AllFrom(list, caller) ==> AllFrom(r, caller))
  {
    DropToMembers(list, device);
    DropToShape(list, device);
    var r := DropTo(list, device);
    forall d
      ensures Reaches(r, d) <==> d != device && Reaches(list, d)
    {
      ReachesByMember(r, d);
      ReachesByMember(list, d);
    }
  }

  // ----------------------------------------------------------------- contents

  /** What each session holds after an element was added for a device: the session to the device
      has the new element and all earlier ones in front of it, a new session carries the source
      and the caller, and every other session is as it was. */
  lemma AddSessionContents(
    list: seq<Session>, source: DeviceId, device: DeviceId, element: ElementName, caller: CallerInfo)
    ensures var r, i := AddSession(list, source, device, element, caller), FirstTo(list, device);
      && |r| == (if i < |list| then |list| else |list| + 1)
      && (forall j :: 0 <= j < |list| && j != i ==> r[j] == list[j])
      && r[i].destinationDeviceId == device
      && (forall e :: e in r[i].elements <==> e == element || (i < |list| && e in list[i].elements))
      && (i < |list| ==> list[i].elements <= r[i].elements && r[i].(elements := []) == list[i].(elements := []))
      && (i == |list| ==> r[i].sourceDeviceId == source && r[i].callerInfo == caller)
  {
  }

  /** The elements of the session to a device, in the order in which they came. */
  function ElementsTo(list: seq<Session>, device: DeviceId): seq<ElementName> {
    if FirstTo(list, device) < |list| then list[FirstTo(list, device)].elements else []
  }

  lemma FirstToIs(list: seq<Session>, device: DeviceId, k: nat)
    requires k <= |list| && (k < |list| ==> list[k].destinationDeviceId == device)
    requires forall j :: 0 <= j < k ==> list[j].destinationDeviceId != device
    ensures FirstTo(list, device) == k
  {
  }

  /** Adding for one device adds to its elements, once, and leaves those of other devices. */
  lemma ElementsAdded(
    list: seq<Session>, source: DeviceId, device: DeviceId, element: ElementName, caller: CallerInfo, d: DeviceId)
    ensures var before, after := ElementsTo(list, d), ElementsTo(AddSession(list, source, device, element, caller), d);
      after == if d != device || element in before then before else before + [element]
  {
    var i, k := FirstTo(list, device), FirstTo(list, d);
    var r := AddSession(list, source, device, element, caller);
    AddSessionContents(list, source, device, element, caller);
    forall j | 0 <= j < |list|
      ensures r[j].destinationDeviceId == list[j].destinationDeviceId
    {
      assert j != i ==> r[j] == list[j];
    }
    if d == device {
      FirstToIs(r, d, i);
    } else if k < |list| {
      FirstToIs(r, d, k);
    } else {
      FirstToIs(r, d, |r|);
    }
  }

  /** Dropping the session to one device leaves the elements of the others. */
  lemma ElementsDropped(list: seq<Session>, device: DeviceId, d: DeviceId)
    requires DistinctDestinations(list)
    ensures ElementsTo(DropTo(list, device), d) == if d == device then [] else ElementsTo(list, d)
  {
    var i, k := FirstTo(list, device), FirstTo(list, d);
    if i < |list| {
      FirstDropped(list, i, d, if d == device then |list| else k);
    }
  }

  /** The first session to a device, when another session is taken out. */
  lemma FirstDropped(list: seq<Session>, i: nat, d: DeviceId, k: nat)
    requires i < |list| && k <= |list| && i != k
    requires forall j :: 0 <= j < k && j != i ==> list[j].destinationDeviceId != d
    requires k < |list| ==> list[k].destinationDeviceId == d
    ensures FirstTo(list[..i] + list[i + 1..], d) == if k < i then k else k - 1
  {
    FirstToIs(list[..i] + list[i + 1..], d, if k < i then k else k - 1);
  }

  // ------------------------------------------------------------ the code paths

  /** Adds an element unless it is already there. */
  method AddElement(session: Session, element: ElementName) returns (updated: Session)
    ensures updated == WithElement(session, element)
    ensures updated == session.(elements := session.elements + if element in session.elements then [] else [element])
  {
    var i := 0;
    while i < |session.elements|
      invariant i <= |session.elements| && element !in session.elements[..i]
    {
      if session.elements[i] == element {
        return session;
      }
      i := i + 1;
    }
    updated := session.(elements := session.elements + [element]);
  }

  /** The search and append that the connect table and the caller table both run. */
  method PlaceSession(list: seq<Session>, source: DeviceId, device: DeviceId, element: ElementName, caller: CallerInfo)
    returns (updated: seq<Session>)
    ensures updated == AddSession(list, source, device, element, caller)
  {
    var i := 0;
    while i < |list|
      invariant i <= |list| && forall j :: 0 <= j < i ==> list[j].destinationDeviceId != device
    {
      if list[i].destinationDeviceId == device {
        var session := AddElement(list[i], element);
        return list[i := session];
      }
      i := i + 1;
    }
    var session := AddElement(Session(source, device, [], caller), element);
    assert session.elements == [element];
    updated := list + [session];
  }

  /** The position that a search for a device finds. */
  method FindSession(list: seq<Session>, device: DeviceId) returns (i: nat)
    ensures i == FirstTo(list, device)
  {
    i := 0;
    while i < |list| && list[i].destinationDeviceId != device
      invariant i <= |list| && forall j :: 0 <= j < i ==> list[j].destinationDeviceId != device
    {
      i := i + 1;
    }
  }
}
