/**
 The registry functions on their tables. The table of tokens is ordered by access token, as
 the ordered map of the service is.
 */
module RegistryService {
  import opened Codes
  import opened Collections
  import opened Sessions
  import opened CallTables
  import opened Registry

  class DistributedAbilityManagerService {
    var token: int
    var tokenMap: seq<App>
    var callbackMap: map<int, Notifiers>
    var issued: nat

    ghost predicate Valid()
      reads this
    {
      token == TokenOf(issued)
    }

    ghost function Here(): Reg
      reads this
    {
      Reg(tokenMap, callbackMap, issued, map[], map[])
    }

    /** A start with the last token that was stored. */
    constructor (stored: nat)
      requires stored <= MAX_TOKEN_NUM
      ensures Valid() && Fresh(Here()) && token == stored
    {
      token, tokenMap, callbackMap, issued := stored, [], map[], stored;
    }

    method FindApp(accessToken: nat) returns (entries: seq<Entry>)
      ensures entries == Listed(tokenMap, accessToken)
    {
      var i := 0;
      while i < |tokenMap|
        invariant i <= |tokenMap| && Listed(tokenMap, accessToken) == Listed(tokenMap[i..], accessToken)
      {
        if tokenMap[i].accessToken == accessToken {
          return tokenMap[i].entries;
        }
        assert tokenMap[i..][1..] == tokenMap[i + 1..];
        i := i + 1;
      }
      return [];
    }

    method IsExceededRegisterMaxNum(accessToken: nat) returns (exceeded: bool)
      ensures exceeded <==> |Listed(tokenMap, accessToken)| >= MAX_REGISTER_NUM
    {
      var entries := FindApp(accessToken);
      return |entries| >= MAX_REGISTER_NUM;
    }

    method IsTokenRegistered(accessToken: nat, t: int) returns (registered: bool)
      ensures registered <==> Has(Listed(tokenMap, accessToken), t)
    {
      var entries := FindApp(accessToken);
      for i := 0 to |entries|
        invariant !Has(entries[..i], t)
      {
        if entries[i].token == t {
          return true;
        }
        HasSplit(entries[..i], [entries[i]], t);
        assert entries[..i] + [entries[i]] == entries[..i + 1];
      }
      assert entries[..|entries|] == entries;
      return false;
    }

    /** Adds to the list of the application, which is made where there is none. */
    method AppendToken(accessToken: nat, e: Entry)
      modifies this`tokenMap
      ensures tokenMap == Appended(old(tokenMap), accessToken, e)
    {
      var i := 0;
      while i < |tokenMap| && tokenMap[i].accessToken < accessToken
        invariant i <= |tokenMap| && forall k :: 0 <= k < i ==> tokenMap[k].accessToken < accessToken
      {
        i := i + 1;
      }
      if i < |tokenMap| && tokenMap[i].accessToken == accessToken {
        AppendedInto(tokenMap, i, accessToken, e);
        tokenMap := tokenMap[i := App(accessToken, tokenMap[i].entries + [e])];
      } else {
        AppendedBefore(tokenMap, i, accessToken, e);
        tokenMap := tokenMap[..i] + [App(accessToken, [e])] + tokenMap[i..];
      }
    }

    method Register(accessToken: nat, modeOk: bool) returns (code: int, tToken: int)
      requires Valid()
      modifies this`token, this`tokenMap, this`issued
      ensures Valid() && Here() == Registered(old(Here()), accessToken, modeOk)
      ensures code == RegisterCode(old(Here()), accessToken, modeOk)
      ensures code == ERR_OK ==> tToken == TokenOf(old(issued) + 1)
    {
      tToken := -1;
      if !modeOk {
        return INVALID_CONTINUATION_MODE, tToken;
      }
      var exceeded := IsExceededRegisterMaxNum(accessToken);
      if exceeded {
        return REGISTER_EXCEED_MAX_TIMES, tToken;
      }
      TokenStep(issued);
      tToken := token + 1;
      if tToken > MAX_TOKEN_NUM {
        tToken := 1;
      }
      token := tToken;
      issued := issued + 1;
      AppendToken(accessToken, Entry(tToken, issued));
      return ERR_OK, tToken;
    }

    method RemoveFrom(entries: seq<Entry>, t: int) returns (left: seq<Entry>)
      ensures left == Without(entries, t)
    {
      left := [];
      for i := 0 to |entries|
        invariant left == Without(entries[..i], t)
      {
        WithoutSplit(entries[..i], [entries[i]], t);
        assert [entries[i]][1..] == [];
        assert entries[..i] + [entries[i]] == entries[..i + 1];
        if entries[i].token != t {
          left := left + [entries[i]];
        }
      }
      assert entries[..|entries|] == entries;
    }

    /** The removal loop with its early break. */
    method RemoveToken(t: int)
      modifies this`tokenMap
      ensures tokenMap == Swept(old(tokenMap), t)
    {
      var i := 0;
      ghost var all, done := tokenMap, [];
      while i < |tokenMap|
        invariant i == |done| <= |all| && tokenMap == done + all[i..]
        invariant Swept(all, t) == done + Swept(all[i..], t)
      {
        SweepNext(all, done, i, t);
        var left := RemoveFrom(tokenMap[i].entries, t);
        var app := App(tokenMap[i].accessToken, left);
        ReplaceNext(tokenMap, all, done, i, app);
        if left == [] {
          tokenMap := tokenMap[..i] + tokenMap[i + 1..];
          return;
        }
        tokenMap, done := tokenMap[i := app], done + [app];
        i := i + 1;
      }
    }

    /** Drops the callbacks of a token and then the token. */
    method ForgetToken(t: int)
      modifies this`tokenMap, this`callbackMap
      ensures Here() == Forgotten(old(Here()), t)
    {
      assert t !in callbackMap ==> callbackMap - {t} == callbackMap;
      if t in callbackMap {
        callbackMap := callbackMap - {t};
      }
      RemoveToken(t);
    }

    method Unregister(accessToken: nat, t: int) returns (code: int)
      requires Valid()
      modifies this`tokenMap, this`callbackMap
      ensures Valid() && Here() == Unregistered(old(Here()), accessToken, t)
      ensures code == if Has(Listed(old(tokenMap), accessToken), t) then ERR_OK else TOKEN_HAS_NOT_REGISTERED
    {
      var registered := IsTokenRegistered(accessToken, t);
      if !registered {
        return TOKEN_HAS_NOT_REGISTERED;
      }
      ForgetToken(t);
      return ERR_OK;
    }

    method RegisterDeviceSelectionCallback(accessToken: nat, t: int, cbType: string, notifier: Remote)
      returns (code: int)
      requires Valid() && !notifier.Null?
      modifies this`callbackMap
      ensures Valid() && Here() == CallbackSet(old(Here()), accessToken, t, cbType, notifier)
      ensures code == SetCode(old(Here()), accessToken, t, cbType)
    {
      if cbType != EVENT_CONNECT && cbType != EVENT_DISCONNECT {
        return UNKNOWN_CALLBACK_TYPE;
      }
      var registered := IsTokenRegistered(accessToken, t);
      if !registered {
        return TOKEN_HAS_NOT_REGISTERED;
      }
      if t in callbackMap && cbType in callbackMap[t] {
        return CALLBACK_HAS_REGISTERED;
      }
      if t in callbackMap {
        callbackMap := callbackMap[t := callbackMap[t][cbType := notifier]];
      } else {
        callbackMap := callbackMap[t := map[cbType := notifier]];
      }
      return ERR_OK;
    }

    method UnregisterDeviceSelectionCallback(accessToken: nat, t: int, cbType: string) returns (code: int)
      requires Valid()
      modifies this`callbackMap
      ensures Valid() && Here() == CallbackUnset(old(Here()), accessToken, t, cbType)
      ensures code == UnsetCode(old(Here()), accessToken, t, cbType)
    {
      if cbType != EVENT_CONNECT && cbType != EVENT_DISCONNECT {
        return UNKNOWN_CALLBACK_TYPE;
      }
      var registered := IsTokenRegistered(accessToken, t);
      if !registered {
        return TOKEN_HAS_NOT_REGISTERED;
      }
      if t !in callbackMap || cbType !in callbackMap[t] {
        return CALLBACK_HAS_NOT_REGISTERED;
      }
      callbackMap := callbackMap[t := callbackMap[t] - {cbType}];
      if callbackMap[t] == map[] {
        callbackMap := callbackMap - {t};
      }
      return ERR_OK;
    }

    /** The least token whose callbacks include the notifier, as the ascending walk finds it. */
    method QueryTokenByNotifier(notifier: Remote) returns (found: bool, t: int)
      ensures found ==> FirstHolder(callbackMap, notifier, t)
      ensures !found ==> forall u :: !Holds(callbackMap, u, notifier)
    {
      found, t := false, -1;
      var todo := callbackMap.Keys;
      while todo != {}
        invariant todo <= callbackMap.Keys
        invariant found ==> Holds(callbackMap, t, notifier)
        invariant forall u :: Holds(callbackMap, u, notifier) ==> u in todo || (found && t <= u)
        decreases todo
      {
        HasMember(todo);
        var u :| u in todo;
        if notifier in callbackMap[u].Values && (!found || u < t) {
          found, t := true, u;
        }
        todo := todo - {u};
      }
    }

    method HandleNotifierDied(notifier: Remote)
      requires Valid()
      modifies this`tokenMap, this`callbackMap
      ensures Valid() && AfterDeath(old(Here()), notifier, Here())
    {
      var found, t := QueryTokenByNotifier(notifier);
      if !found {
        return;
      }
      ForgetToken(t);
    }
  }
}
