/**
 The connect bookkeeping as the service runs it: fields changed in place, loops that erase
 while they iterate, and a bounded retry loop. The maps are walked in any order.
 */
module ConnectService {
  import opened Codes
  import opened Sessions
  import opened ConnectTables

  const BIND_CONNECT_RETRY_TIMES: nat := 3
  const BIND_CONNECT_TIMEOUT: int := 500

  datatype ProcessDiedNotifyInfo = ProcessDiedNotifyInfo(remoteDeviceId: DeviceId, callerInfo: CallerInfo)

  /** One answer of the remote side: its result code and how long it took. */
  datatype Reply = Reply(code: int, elapsed: int)

  /** Whether another try may follow: the answer is neither success nor one of the two final
      errors, and it came within half a second. */
  predicate TriesAgain(reply: Reply) {
    reply.code !in {0, 29360131, 29360132} && reply.elapsed <= 500
  }

  ghost predicate DistinctRemotes(list: seq<ProcessDiedNotifyInfo>) {
    forall i, j :: 0 <= i < j < |list| ==> list[i].remoteDeviceId != list[j].remoteDeviceId
  }

  /** The devices in a notify list. */
  ghost function Notified(list: seq<ProcessDiedNotifyInfo>): set<DeviceId> {
    set n | n in list :: n.remoteDeviceId
  }

  class DistributedSchedService {
    var distributedConnectAbilityMap: SessionMap
    var trackingUidMap: Counter
    var connectAbilityMap: ServedMap

    /** The source side as a value. */
    ghost function Here(): Source
      reads this
    {
      Source(distributedConnectAbilityMap, trackingUidMap)
    }

    constructor ()
      ensures Here() == Source(map[], map[]) && connectAbilityMap == map[]
    {
      distributedConnectAbilityMap := map[];
      trackingUidMap := map[];
      connectAbilityMap := map[];
    }

    method CheckDistributedConnectLocked(caller: CallerInfo) returns (code: int)
      ensures code == CheckConnect(Here(), caller)
    {
      if caller.uid < 0 {
        return BIND_ABILITY_UID_INVALID_ERR;
      }
      if caller.uid in trackingUidMap && trackingUidMap[caller.uid] >= MAX_DISTRIBUTED_CONNECT_NUM {
        return BIND_ABILITY_LEAK_ERR;
      }
      return ERR_OK;
    }

    method RemoteConnectAbilityMappingLocked(connect: Remote, device: DeviceId, element: ElementName,
      caller: CallerInfo)
      modifies this`distributedConnectAbilityMap, this`trackingUidMap
      ensures Here() == Mapped(old(Here()), connect, device, element, caller)
    {
      if connect.Null? {
        return;
      }
      if connect !in distributedConnectAbilityMap {
        var number := if caller.uid in trackingUidMap then trackingUidMap[caller.uid] else 0;
        trackingUidMap := trackingUidMap[caller.uid := number + 1];
      }
      var list := if connect in distributedConnectAbilityMap then distributedConnectAbilityMap[connect] else [];
      list := PlaceSession(list, caller.sourceDeviceId, device, element, caller);
      distributedConnectAbilityMap := distributedConnectAbilityMap[connect := list];
    }

    method DecreaseConnectLocked(uid: int)
      modifies this`trackingUidMap
      ensures trackingUidMap == Decrease(old(trackingUidMap), uid)
    {
      if uid < 0 {
        return;
      }
      if uid in trackingUidMap {
        var conns := trackingUidMap[uid];
        if conns > 0 {
          conns := conns - 1;
        }
        trackingUidMap := trackingUidMap[uid := conns];
        if conns == 0 {
          trackingUidMap := trackingUidMap - {uid};
        }
      }
    }

    /** Asks the remote device at most three times and commits at the first success. The
        replies are what the device would answer to each attempt. */
    method TryConnectRemoteAbility(
      connect: Remote, device: DeviceId, element: ElementName, caller: CallerInfo, remoteDms: bool, accountRet: int,
      replies: seq<Reply>)
      returns (result: int, attempts: nat)
      requires |replies| >= BIND_CONNECT_RETRY_TIMES
      modifies this`distributedConnectAbilityMap, this`trackingUidMap
      ensures !remoteDms || connect.Null? ==> result == INVALID_PARAMETERS_ERR && attempts == 0
      ensures remoteDms && !connect.Null? && accountRet != ERR_OK ==> result == accountRet && attempts == 0
      ensures attempts <= 3
      ensures attempts > 0 ==> result == replies[attempts - 1].code
      ensures forall i :: 0 <= i < attempts - 1 ==> TriesAgain(replies[i])
      ensures 0 < attempts < 3 ==> !TriesAgain(replies[attempts - 1])
      ensures Here() == if attempts > 0 && result == ERR_OK
              then Mapped(old(Here()), connect, device, element, caller) else old(Here())
    {
      attempts := 0;
      if !remoteDms || connect.Null? {
        return INVALID_PARAMETERS_ERR, 0;
      }
      if accountRet != ERR_OK {
        return accountRet, 0;
      }
      var retryTimes := BIND_CONNECT_RETRY_TIMES;
      result := REMOTE_DEVICE_BIND_ABILITY_ERR;
      while retryTimes > 0
        invariant attempts + retryTimes == BIND_CONNECT_RETRY_TIMES
        invariant forall i :: 0 <= i < attempts ==> TriesAgain(replies[i])
        invariant attempts > 0 ==> result == replies[attempts - 1].code
        invariant Here() == old(Here())
      {
        retryTimes := retryTimes - 1;
        var reply := replies[attempts];
        result := reply.code;
        attempts := attempts + 1;
        if result == ERR_OK {
          RemoteConnectAbilityMappingLocked(connect, device, element, caller);
          break;
        }
        if result == INVALID_REMOTE_PARAMETERS_ERR || result == REMOTE_DEVICE_BIND_ABILITY_ERR {
          break;
        }
        if reply.elapsed > BIND_CONNECT_TIMEOUT {
          break;
        }
      }
    }

    /** The locked section of a disconnect; the remote devices to tell are those of the
        returned sessions. */
    method DisconnectRemoteAbility(connect: Remote) returns (code: int, sessions: seq<Session>)
      modifies this`distributedConnectAbilityMap, this`trackingUidMap
      ensures connect.Null? ==> Here() == old(Here()) && code == INVALID_PARAMETERS_ERR && sessions == []
      ensures !connect.Null? && connect in old(distributedConnectAbilityMap) ==>
        && Here() == Disconnected(old(Here()), connect) && sessions == old(distributedConnectAbilityMap)[connect]
      ensures !connect.Null? && connect !in old(distributedConnectAbilityMap) ==>
        Here() == old(Here()) && sessions == []
      ensures !connect.Null? ==> code == if sessions == [] then NO_CONNECT_CALLBACK_ERR else ERR_OK
    {
      if connect.Null? {
        return INVALID_PARAMETERS_ERR, [];
      }
      sessions := [];
      if connect in distributedConnectAbilityMap {
        ghost var m := distributedConnectAbilityMap;
        sessions := distributedConnectAbilityMap[connect];
        SettledNothing(trackingUidMap, m);
        SettledStep(trackingUidMap, m, m.Keys, connect);
        var uid := if sessions == [] then INVALID_CALLER_UID else sessions[0].callerInfo.uid;
        DecreaseConnectLocked(uid);
        distributedConnectAbilityMap := distributedConnectAbilityMap - {connect};
        assert distributedConnectAbilityMap.Keys == m.Keys - {connect};
      }
      code := if sessions == [] then NO_CONNECT_CALLBACK_ERR else ERR_OK;
    }

    /** One turn of the offline sweep: the connect loses its first session to the device, and
        goes with a count down if that was its last. */
    method SweepOne(c: Remote, device: DeviceId)
      requires c in distributedConnectAbilityMap
      modifies this`distributedConnectAbilityMap, this`trackingUidMap
      ensures var m := old(distributedConnectAbilityMap);
        var list := DropTo(m[c], device);
        && distributedConnectAbilityMap == (if list == [] then m - {c} else m[c := list])
        && trackingUidMap == (if list == [] then Decrease(old(trackingUidMap), FrontUid(m[c])) else old(trackingUidMap))
    {
      var list := distributedConnectAbilityMap[c];
      var uid := if list == [] then INVALID_CALLER_UID else list[0].callerInfo.uid;
      var i := FindSession(list, device);
      if i < |list| {
        list := list[..i] + list[i + 1..];
      }
      if list == [] {
        DecreaseConnectLocked(uid);
        distributedConnectAbilityMap := distributedConnectAbilityMap - {c};
      } else {
        distributedConnectAbilityMap := distributedConnectAbilityMap[c := list];
      }
    }

    /** The offline sweep over the device's own connects. */
    method RemoveSessionsTo(device: DeviceId)
      modifies this`distributedConnectAbilityMap, this`trackingUidMap
      ensures Here() == Offline(old(Here()), device)
    {
      ghost var m, tracking := distributedConnectAbilityMap, trackingUidMap;
      var todo := distributedConnectAbilityMap.Keys;
      SettledNothing(tracking, m);
      while todo != {}
        invariant Swept(m, device, todo, distributedConnectAbilityMap)
        invariant trackingUidMap == Settled(tracking, m, distributedConnectAbilityMap.Keys)
        decreases todo
      {
        var c :| c in todo;
        ghost var now := distributedConnectAbilityMap;
        SettledStep(tracking, m, now.Keys, c);
        SweptStep(m, device, todo, now, c);
        SweepOne(c, device);
        todo := todo - {c};
      }
      assert distributedConnectAbilityMap == DeviceLeft(m, device);
    }

    /** The offline sweep over the connections served for the lost device. */
    method RemoveServedFrom(device: DeviceId)
      modifies this`connectAbilityMap
      ensures connectAbilityMap == old(connectAbilityMap) - ServedFrom(old(connectAbilityMap), device)
    {
      ghost var m := connectAbilityMap;
      var todo := connectAbilityMap.Keys;
      while todo != {}
        invariant todo <= connectAbilityMap.Keys
        invariant connectAbilityMap == m - (ServedFrom(m, device) - todo)
        decreases todo
      {
        var c :| c in todo;
        todo := todo - {c};
        if connectAbilityMap[c].callerInfo.sourceDeviceId == device {
          connectAbilityMap := connectAbilityMap - {c};
        }
      }
    }

    /** The sweep after a local process died: one walk over all its connects, and one
        notification per remote device. */
    method ProcessConnectDied(connect: Remote) returns (notifyList: seq<ProcessDiedNotifyInfo>)
      modifies this`distributedConnectAbilityMap, this`trackingUidMap
      ensures var m := old(distributedConnectAbilityMap);
        if connect.Null? || connect !in m || m[connect] == [] then
          Here() == old(Here()) && notifyList == []
        else
          var caller := m[connect][0].callerInfo;
          && Here() == CallerDied(old(Here()), caller)
          && DistinctRemotes(notifyList)
          && Notified(notifyList) == Destinations(m, OwnedBy(m, caller))
          && forall n :: n in notifyList ==> n.callerInfo == caller
    {
      notifyList := [];
      if connect.Null? || connect !in distributedConnectAbilityMap || distributedConnectAbilityMap[connect] == [] {
        return;
      }
      ghost var m, tracking := distributedConnectAbilityMap, trackingUidMap;
      var callerInfo := distributedConnectAbilityMap[connect][0].callerInfo;
      var processedDeviceSet: set<string> := {};
      var todo := distributedConnectAbilityMap.Keys;
      ghost var swept: set<Remote> := {};
      SettledNothing(tracking, m);
      while todo != {}
        invariant todo <= distributedConnectAbilityMap.Keys
        invariant swept == OwnedBy(m, callerInfo) - todo
        invariant distributedConnectAbilityMap == m - swept
        invariant trackingUidMap == Settled(tracking, m, distributedConnectAbilityMap.Keys)
        invariant NotifyListOk(notifyList, callerInfo, processedDeviceSet)
        invariant Notified(notifyList) == Destinations(m, swept)
        decreases todo
      {
        var c :| c in todo;
        todo := todo - {c};
        var list := distributedConnectAbilityMap[c];
        if list != [] && list[0].callerInfo == callerInfo {
          notifyList, processedDeviceSet := AddRemotes(notifyList, processedDeviceSet, list, callerInfo);
          SettledStep(tracking, m, distributedConnectAbilityMap.Keys, c);
          DecreaseConnectLocked(callerInfo.uid);
          ghost var keys := distributedConnectAbilityMap.Keys;
          distributedConnectAbilityMap := distributedConnectAbilityMap - {c};
          assert distributedConnectAbilityMap.Keys == keys - {c};
          swept := swept + {c};
          assert Destinations(m, swept) == Destinations(m, swept - {c}) + set s | s in list :: s.destinationDeviceId;
          assert swept - {c} == OwnedBy(m, callerInfo) - (todo + {c});
        } else {
          assert c !in OwnedBy(m, callerInfo);
          assert swept == OwnedBy(m, callerInfo) - todo;
        }
      }
      assert swept == OwnedBy(m, callerInfo);
    }

    /** Serving side, first section: is the connect known, and under which wrapper. */
    method FindServed(connect: Remote, newWrapper: Remote) returns (known: bool, callbackWrapper: Remote)
      ensures known <==> connect in connectAbilityMap
      ensures callbackWrapper == if known then connectAbilityMap[connect].callbackWrapper else newWrapper
    {
      known := connect in connectAbilityMap;
      callbackWrapper := if known then connectAbilityMap[connect].callbackWrapper else newWrapper;
    }

    /** Serving side, second section: `known` is what the first one found, which may be
        outdated. */
    method RecordServed(connect: Remote, caller: CallerInfo, callbackWrapper: Remote, element: ElementName, known: bool)
      modifies this`connectAbilityMap
      ensures connectAbilityMap ==
        Recorded(old(connectAbilityMap), connect, ConnectInfo(caller, callbackWrapper, element), known)
    {
      if !known && connect !in connectAbilityMap {
        connectAbilityMap := connectAbilityMap[connect := ConnectInfo(caller, callbackWrapper, element)];
      }
    }

    /** Both sections around the call to the local ability, with nothing in between. */
    method ConnectAbilityFromRemote(
      connect: Remote, caller: CallerInfo, element: ElementName, checked: int, newWrapper: Remote, connectRet: int)
      returns (errCode: int)
      modifies this`connectAbilityMap
      ensures errCode == if connect.Null? then INVALID_REMOTE_PARAMETERS_ERR
        else if checked != ERR_OK then checked else connectRet
      ensures connectAbilityMap == if errCode == ERR_OK
              then ServedAfterConnect(old(connectAbilityMap), connect, ConnectInfo(caller, newWrapper, element))
              else old(connectAbilityMap)
    {
      if connect.Null? {
        return INVALID_REMOTE_PARAMETERS_ERR;
      }
      if checked != ERR_OK {
        return checked;
      }
      var known, callbackWrapper := FindServed(connect, newWrapper);
      errCode := connectRet;
      if errCode == ERR_OK {
        RecordServed(connect, caller, callbackWrapper, element, known);
      }
    }

    method DisconnectAbilityFromRemote(connect: Remote, deviceOk: bool, localCalling: bool, disconnectRet: int)
      returns (code: int)
      modifies this`connectAbilityMap
      ensures connect.Null? || !deviceOk ==>
        code == INVALID_REMOTE_PARAMETERS_ERR && connectAbilityMap == old(connectAbilityMap)
      ensures !connect.Null? && deviceOk ==> connectAbilityMap == old(connectAbilityMap) - {connect}
      ensures !connect.Null? && deviceOk ==>
        code == if connect in old(connectAbilityMap) || localCalling then disconnectRet
          else INVALID_REMOTE_PARAMETERS_ERR
    {
      if connect.Null? || !deviceOk {
        return INVALID_REMOTE_PARAMETERS_ERR;
      }
      if connect in connectAbilityMap {
        connectAbilityMap := connectAbilityMap - {connect};
      } else if !localCalling {
        return INVALID_REMOTE_PARAMETERS_ERR;
      }
      return disconnectRet;
    }

    method NotifyProcessDiedFromRemote(caller: CallerInfo)
      modifies this`connectAbilityMap
      ensures connectAbilityMap == old(connectAbilityMap) - ServedFor(old(connectAbilityMap), caller)
    {
      ghost var m := connectAbilityMap;
      var todo := connectAbilityMap.Keys;
      while todo != {}
        invariant todo <= connectAbilityMap.Keys
        invariant connectAbilityMap == m - (ServedFor(m, caller) - todo)
        decreases todo
      {
        var c :| c in todo;
        todo := todo - {c};
        if connectAbilityMap[c].callerInfo == caller {
          connectAbilityMap := connectAbilityMap - {c};
        }
      }
    }
  }

  // --------------------------------------------------------------- the offline sweep

  /** The map in the middle of the sweep: the connects in `todo` are as they were. */
  ghost predicate Swept(m: SessionMap, device: DeviceId, todo: set<Remote>, now: SessionMap) {
    && todo <= now.Keys <= m.Keys
    && (forall c :: c in todo ==> now[c] == m[c])
    && (forall c :: c in m && c !in todo ==> (c in now <==> DropTo(m[c], device) != []))
    && (forall c :: c in now && c !in todo ==> now[c] == DropTo(m[c], device))
  }

  lemma SweptStep(m: SessionMap, device: DeviceId, todo: set<Remote>, now: SessionMap, c: Remote)
    requires Swept(m, device, todo, now) && c in todo
    ensures now[c] == m[c]
    ensures var list := DropTo(m[c], device);
      var next := if list == [] then now - {c} else now[c := list];
      Swept(m, device, todo - {c}, next) && next.Keys == if list == [] then now.Keys - {c} else now.Keys
  {
  }

  // ------------------------------------------------------- building the notify list

  /** The key under which a device counts as told: its id followed by the number of the
      target component, of which there is one kind. */
  function DeviceKey(device: DeviceId): string {
    device + "0"
  }

  /** No device twice, and a device is in the list just when its key is in the set. */
  ghost predicate NotifyListOk(list: seq<ProcessDiedNotifyInfo>, caller: CallerInfo, processed: set<string>) {
    && DistinctRemotes(list)
    && (forall n :: n in list ==> n.callerInfo == caller)
    && (forall d :: DeviceKey(d) in processed <==> d in Notified(list))
  }

  lemma KeysDiffer(d: DeviceId, e: DeviceId)
    requires DeviceKey(d) == DeviceKey(e)
    ensures d == e
  {
    assert d == DeviceKey(d)[..|DeviceKey(d)| - 1];
  }

  lemma NotifySnoc(list: seq<ProcessDiedNotifyInfo>, caller: CallerInfo, processed: set<string>, device: DeviceId)
    requires NotifyListOk(list, caller, processed) && DeviceKey(device) !in processed
    ensures var list' := list + [ProcessDiedNotifyInfo(device, caller)];
      && NotifyListOk(list', caller, processed + {DeviceKey(device)})
      && Notified(list') == Notified(list) + {device}
  {
    var list' := list + [ProcessDiedNotifyInfo(device, caller)];
    assert Notified(list') == Notified(list) + {device};
    forall i | 0 <= i < |list|
      ensures list'[i].remoteDeviceId != device
    {
      assert list[i] in list && list[i].remoteDeviceId in Notified(list);
    }
    forall d
      ensures DeviceKey(d) in processed + {DeviceKey(device)} <==> d in Notified(list')
    {
      if DeviceKey(d) == DeviceKey(device) {
        KeysDiffer(d, device);
      }
    }
  }

  /** Adds the devices of one session list that were not told yet. */
  method AddRemotes(
    notifyList: seq<ProcessDiedNotifyInfo>, processed: set<string>, list: seq<Session>, caller: CallerInfo)
    returns (notifyList': seq<ProcessDiedNotifyInfo>, processed': set<string>)
    requires NotifyListOk(notifyList, caller, processed)
    ensures NotifyListOk(notifyList', caller, processed')
    ensures Notified(notifyList') == Notified(notifyList) + set s | s in list :: s.destinationDeviceId
  {
    notifyList', processed' := notifyList, processed;
    var i := 0;
    while i < |list|
      invariant i <= |list|
      invariant NotifyListOk(notifyList', caller, processed')
      invariant Notified(notifyList') == Notified(notifyList) + set s | s in list[..i] :: s.destinationDeviceId
    {
      var device := list[i].destinationDeviceId;
      var key := DeviceKey(device);
      assert list[..i + 1] == list[..i] + [list[i]];
      if key !in processed' {
        NotifySnoc(notifyList', caller, processed', device);
        processed' := processed' + {key};
        notifyList' := notifyList' + [ProcessDiedNotifyInfo(device, caller)];
      }
      i := i + 1;
    }
    assert list[..i] == list;
  }
}
