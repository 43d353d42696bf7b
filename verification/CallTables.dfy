/**
 The caller's side of a call: the sessions of every caller object, and the token under which
 a callee reports state changes. Tokens run from 1 to 100000000 and start again.
 */
module CallTables {
  import opened Sessions
  import opened ConnectTables

  const MAX_TOKEN_NUM: int := 100000000

  datatype CallInfo = CallInfo(connectToken: int, remoteDeviceId: DeviceId)

  type CallMap = map<Remote, CallInfo>

  function NextToken(token: int): int {
    if token + 1 > MAX_TOKEN_NUM then 1 else token + 1
  }

  /** The token of the n-th issue, counted from 1. */
  function TokenOf(n: nat): nat {
    if n == 0 then 0 else (n - 1) % MAX_TOKEN_NUM + 1
  }

  lemma TokenStep(n: nat)
    ensures NextToken(TokenOf(n)) == TokenOf(n + 1)
    ensures 1 <= TokenOf(n + 1) <= 100000000
  {
    if n > 0 {
      var q, r := (n - 1) / MAX_TOKEN_NUM, (n - 1) % MAX_TOKEN_NUM;
      assert n == MAX_TOKEN_NUM * q + (r + 1);
      if r + 1 == MAX_TOKEN_NUM {
        assert n == MAX_TOKEN_NUM * (q + 1);
      }
    }
  }

  /** Two issues get the same token just when they are a whole number of cycles apart. */
  lemma SameTokenIff(m: nat, n: nat)
    requires 1 <= m <= n
    ensures TokenOf(m) == TokenOf(n) <==> (n - m) % 100000000 == 0
  {
    var p, q := (m - 1) / MAX_TOKEN_NUM, (n - 1) / MAX_TOKEN_NUM;
    var r, s := (m - 1) % MAX_TOKEN_NUM, (n - 1) % MAX_TOKEN_NUM;
    assert n - m == MAX_TOKEN_NUM * (q - p) + (s - r);
  }

  function CallsTo(calls: CallMap, device: DeviceId): set<Remote> {
    set c | c in calls && calls[c].remoteDeviceId == device
  }

  function CallerSaved(callers: SessionMap, c: Remote, device: DeviceId, element: ElementName, caller: CallerInfo)
    : SessionMap
  {
    if c.Null? then callers
    else callers[c := AddSession(SessionsOf(callers, c), caller.sourceDeviceId, device, element, caller)]
  }

  lemma CallerSavedKeeps(callers: SessionMap, c: Remote, device: DeviceId, element: ElementName, caller: CallerInfo)
    requires MapOk(callers) && !c.Null?
    ensures var callers' := CallerSaved(callers, c, device, element, caller);
      && MapOk(callers')
      && forall c', d :: Reaches(SessionsOf(callers', c'), d) <==>
        Reaches(SessionsOf(callers, c'), d) || (c' == c && d == device)
  {
    AddSessionKeeps(SessionsOf(callers, c), caller.sourceDeviceId, device, element, caller);
  }
}

module CallService {
  import opened Codes
  import opened Sessions
  import opened ConnectTables
  import opened CallTables

  class CallerSide {
    var callerMap: SessionMap
    var callMap: CallMap
    var token: int

    constructor ()
      ensures callerMap == map[] && callMap == map[] && token == 0
    {
      callerMap, callMap, token := map[], map[], 0;
    }

    method SaveConnectToken(connect: Remote, device: DeviceId) returns (tToken: int)
      modifies this`token, this`callMap
      ensures tToken == NextToken(old(token)) && token == tToken
      ensures callMap == old(callMap)[connect := CallInfo(tToken, device)]
    {
      tToken := token + 1;
      if tToken > MAX_TOKEN_NUM {
        tToken := 1;
      }
      token := tToken;
      callMap := callMap[connect := CallInfo(tToken, device)];
    }

    method SaveCallerComponent(connect: Remote, device: DeviceId, element: ElementName, caller: CallerInfo)
      modifies this`callerMap
      ensures callerMap == CallerSaved(old(callerMap), connect, device, element, caller)
    {
      if connect.Null? {
        return;
      }
      var list := if connect in callerMap then callerMap[connect] else [];
      list := PlaceSession(list, caller.sourceDeviceId, device, element, caller);
      callerMap := callerMap[connect := list];
    }

    /** Walks the call map up to the connect and erases its entry. */
    method EraseCall(connect: Remote)
      modifies this`callMap
      ensures callMap == old(callMap) - {connect}
    {
      var todo := callMap.Keys;
      while todo != {}
        invariant callMap == old(callMap) && todo <= callMap.Keys
        invariant connect in callMap ==> connect in todo
        decreases todo
      {
        var c :| c in todo;
        if c == connect {
          callMap := callMap - {c};
          return;
        }
        todo := todo - {c};
      }
    }

    /** Release and the death of the local caller: both tables forget the connect. */
    method RemoveCallerComponent(connect: Remote)
      modifies this`callerMap, this`callMap
      ensures connect.Null? ==> callerMap == old(callerMap) && callMap == old(callMap)
      ensures !connect.Null? ==> callerMap == old(callerMap) - {connect} && callMap == old(callMap) - {connect}
    {
      if connect.Null? {
        return;
      }
      callerMap := callerMap - {connect};
      EraseCall(connect);
    }

    /** Both sweeps of a device that went offline. */
    method ProcessCalleeOffline(device: DeviceId)
      modifies this`callerMap, this`callMap
      ensures callerMap == DeviceLeft(old(callerMap), device)
      ensures forall c :: c in callMap <==> c in old(callMap) && old(callMap)[c].remoteDeviceId != device
      ensures forall c :: c in callMap ==> callMap[c] == old(callMap)[c]
    {
      SweepCallers(device);
      SweepCalls(device);
    }

    method SweepCallers(device: DeviceId)
      modifies this`callerMap
      ensures callerMap == DeviceLeft(old(callerMap), device)
    {
      ghost var m := callerMap;
      var todo := callerMap.Keys;
      while todo != {}
        invariant todo <= callerMap.Keys <= m.Keys
        invariant forall c :: c in todo ==> callerMap[c] == m[c]
        invariant forall c :: c in m && c !in todo ==> (c in callerMap <==> DropTo(m[c], device) != [])
        invariant forall c :: c in callerMap && c !in todo ==> callerMap[c] == DropTo(m[c], device)
        decreases todo
      {
        var c :| c in todo;
        todo := todo - {c};
        var list := callerMap[c];
        var i := FindSession(list, device);
        if i < |list| {
          list := list[..i] + list[i + 1..];
        }
        callerMap := if list == [] then callerMap - {c} else callerMap[c := list];
      }
    }

    method SweepCalls(device: DeviceId)
      modifies this`callMap
      ensures callMap == old(callMap) - CallsTo(old(callMap), device)
      ensures forall c :: c in callMap <==> c in old(callMap) && old(callMap)[c].remoteDeviceId != device
    {
      ghost var m := callMap;
      var todo := callMap.Keys;
      while todo != {}
        invariant todo <= callMap.Keys && callMap == m - (CallsTo(m, device) - todo)
        decreases todo
      {
        var c :| c in todo;
        todo := todo - {c};
        if callMap[c].remoteDeviceId == device {
          callMap := callMap - {c};
        }
      }
    }

    /** A call: the token is saved, the remote device is asked, and the answer decides
        whether the session is saved or the token is erased again. A call `rejected` by the
        first checks changes nothing; an `early` failure, before the token is saved, erases
        an older token of the same connect. */
    method StartRemoteAbilityByCall(
      connect: Remote, device: DeviceId, element: ElementName, caller: CallerInfo, foreground: bool, rejected: int,
      early: int, remoteRet: int)
      returns (ret: int)
      modifies this
      ensures ret == if !foreground then DMS_NOT_FOREGROUND_USER else if connect.Null? then INVALID_PARAMETERS_ERR
              else if rejected != ERR_OK then rejected else if early != ERR_OK then early else remoteRet
      ensures !foreground || connect.Null? || rejected != ERR_OK ==> unchanged(this)
      ensures foreground && !connect.Null? && rejected == ERR_OK ==>
        token == if early != ERR_OK then old(token) else NextToken(old(token))
      ensures foreground && !connect.Null? && rejected == ERR_OK && ret != ERR_OK ==>
        callerMap == old(callerMap) && callMap == old(callMap) - {connect}
      ensures ret == ERR_OK ==>
        && callerMap == CallerSaved(old(callerMap), connect, device, element, caller)
        && callMap == old(callMap)[connect := CallInfo(token, device)]
    {
      if !foreground {
        return DMS_NOT_FOREGROUND_USER;
      }
      if connect.Null? {
        return INVALID_PARAMETERS_ERR;
      }
      if rejected != ERR_OK {
        return rejected;
      }
      ret := early;
      if ret == ERR_OK {
        var tToken := SaveConnectToken(connect, device);
        ret := remoteRet;
        if ret == ERR_OK {
          SaveCallerComponent(connect, device, element, caller);
        }
      }
      if ret != ERR_OK {
        callMap := callMap - {connect};
      }
    }

    /** The connect of the first entry with this token, in the order of the walk. */
    method FindConnect(connectToken: int) returns (connect: Remote)
      ensures connect.Null? && Null !in callMap ==> forall c :: c in callMap ==> callMap[c].connectToken != connectToken
      ensures !connect.Null? ==> connect in callMap && callMap[connect].connectToken == connectToken
    {
      var todo := callMap.Keys;
      while todo != {}
        invariant todo <= callMap.Keys
        invariant forall c :: c in callMap && c !in todo ==> callMap[c].connectToken != connectToken
        decreases todo
      {
        connect :| connect in todo;
        if callMap[connect].connectToken == connectToken {
          return;
        }
        todo := todo - {connect};
      }
      connect := Null;
    }
  }
}
