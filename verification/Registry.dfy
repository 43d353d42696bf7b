/**
 The continuation-manager registry: each application holds a list of tokens, and a token may
 have notifiers for the two device selection events.

 The applications are kept in the ascending order of their access tokens, which is the order
 in which the removal loop visits them. An entry carries the number of its issue, which the
 code does not keep. A registration checks the limit, takes a token and enters it in three
 sections; those under way are in `flight`. Giving a token back, setting or removing a
 callback and the death of a notifier are several sections too; those under way are in `ops`.
 */
module Registry {
  import opened Codes
  import opened Sessions
  import opened CallTables

  const MAX_REGISTER_NUM: int := 600
  const EVENT_CONNECT: string := "deviceSelected"
  const EVENT_DISCONNECT: string := "deviceUnselected"

  datatype Entry = Entry(token: int, issue: nat)

  datatype App = App(accessToken: nat, entries: seq<Entry>)

  type Notifiers = map<string, Remote>

  /** A registration past its check, or with its token. */
  datatype Registering = Passed(app: nat) | Numbered(app: nat, entry: Entry)

  /** What an operation will do next. */
  datatype Op =
    | Selecting(token: int, cbType: string, notifier: Remote)
    | Entering(token: int, cbType: string, notifier: Remote)
    | Unselecting(token: int, cbType: string)
    | Removing(token: int, cbType: string)
    | Forgetting(token: int)
    | Sweeping(token: int)

  datatype Reg = Reg(
    apps: seq<App>, callbacks: map<int, Notifiers>, issued: nat, flight: map<nat, Registering>, ops: map<nat, Op>)

  // ---------------------------------------------------------------- operations

  function Listed(apps: seq<App>, a: nat): seq<Entry> {
    if apps == [] then []
    else if apps[0].accessToken == a then apps[0].entries
    else Listed(apps[1..], a)
  }

  predicate Has(entries: seq<Entry>, t: int) {
    exists i :: 0 <= i < |entries| && entries[i].token == t
  }

  function Appended(apps: seq<App>, a: nat, e: Entry): seq<App> {
    if apps == [] || a < apps[0].accessToken then [App(a, [e])] + apps
    else if apps[0].accessToken == a then [App(a, apps[0].entries + [e])] + apps[1..]
    else [apps[0]] + Appended(apps[1..], a, e)
  }

  function Without(entries: seq<Entry>, t: int): seq<Entry> {
    if entries == [] then []
    else if entries[0].token == t then Without(entries[1..], t)
    else [entries[0]] + Without(entries[1..], t)
  }

  /** The removal loop: it stops at the first list that it empties. */
  function Swept(apps: seq<App>, t: int): seq<App> {
    if apps == [] then []
    else if Without(apps[0].entries, t) == [] then apps[1..]
    else [App(apps[0].accessToken, Without(apps[0].entries, t))] + Swept(apps[1..], t)
  }

  function Forgotten(s: Reg, t: int): Reg {
    s.(apps := Swept(s.apps, t), callbacks := s.callbacks - {t})
  }

  function RegisterCode(s: Reg, a: nat, modeOk: bool): int {
    if !modeOk then INVALID_CONTINUATION_MODE
    else if |Listed(s.apps, a)| >= MAX_REGISTER_NUM then REGISTER_EXCEED_MAX_TIMES
    else ERR_OK
  }

  function Checked(s: Reg, id: nat, a: nat, modeOk: bool): Reg {
    if RegisterCode(s, a, modeOk) != ERR_OK then s else s.(flight := s.flight[id := Passed(a)])
  }

  function NextEntry(s: Reg): Entry {
    Entry(TokenOf(s.issued + 1), s.issued + 1)
  }

  function TokenTaken(s: Reg, id: nat, a: nat): Reg {
    s.(issued := s.issued + 1, flight := s.flight[id := Numbered(a, NextEntry(s))])
  }

  function Entered(s: Reg, id: nat, a: nat, e: Entry): Reg {
    s.(apps := Appended(s.apps, a, e), flight := s.flight - {id})
  }

  /** The three sections with nothing in between. */
  function Registered(s: Reg, a: nat, modeOk: bool): Reg {
    if RegisterCode(s, a, modeOk) != ERR_OK then s
    else s.(apps := Appended(s.apps, a, NextEntry(s)), issued := s.issued + 1)
  }

  function Unregistered(s: Reg, a: nat, t: int): Reg {
    if Has(Listed(s.apps, a), t) then Forgotten(s, t) else s
  }

  predicate HasNotifier(s: Reg, t: int, cbType: string) {
    t in s.callbacks && cbType in s.callbacks[t]
  }

  predicate Known(cbType: string) {
    cbType == EVENT_CONNECT || cbType == EVENT_DISCONNECT
  }

  function SetCode(s: Reg, a: nat, t: int, cbType: string): int {
    if !Known(cbType) then UNKNOWN_CALLBACK_TYPE
    else if !Has(Listed(s.apps, a), t) then TOKEN_HAS_NOT_REGISTERED
    else if HasNotifier(s, t, cbType) then CALLBACK_HAS_REGISTERED
    else ERR_OK
  }

  function CallbackEntered(s: Reg, t: int, cbType: string, notifier: Remote): Reg {
    var info := if t in s.callbacks then s.callbacks[t] else map[];
    s.(callbacks := s.callbacks[t := info[cbType := notifier]])
  }

  function CallbackSet(s: Reg, a: nat, t: int, cbType: string, notifier: Remote): Reg {
    if SetCode(s, a, t, cbType) != ERR_OK then s else CallbackEntered(s, t, cbType, notifier)
  }

  function UnsetCode(s: Reg, a: nat, t: int, cbType: string): int {
    if !Known(cbType) then UNKNOWN_CALLBACK_TYPE
    else if !Has(Listed(s.apps, a), t) then TOKEN_HAS_NOT_REGISTERED
    else if !HasNotifier(s, t, cbType) then CALLBACK_HAS_NOT_REGISTERED
    else ERR_OK
  }

  /** A record goes with its last notifier. */
  function CallbackRemoved(s: Reg, t: int, cbType: string): Reg {
    if t !in s.callbacks then s
    else if s.callbacks[t] - {cbType} == map[] then s.(callbacks := s.callbacks - {t})
    else s.(callbacks := s.callbacks[t := s.callbacks[t] - {cbType}])
  }

  function CallbackUnset(s: Reg, a: nat, t: int, cbType: string): Reg {
    if UnsetCode(s, a, t, cbType) != ERR_OK then s else CallbackRemoved(s, t, cbType)
  }

  predicate Holds(callbacks: map<int, Notifiers>, t: int, notifier: Remote) {
    t in callbacks && notifier in callbacks[t].Values
  }

  /** The walk over the callbacks in ascending order finds the least token. */
  ghost predicate FirstHolder(callbacks: map<int, Notifiers>, notifier: Remote, t: int) {
    Holds(callbacks, t, notifier) && forall u :: Holds(callbacks, u, notifier) ==> t <= u
  }

  ghost predicate AfterDeath(s: Reg, notifier: Remote, s': Reg) {
    || ((forall t :: !Holds(s.callbacks, t, notifier)) && s' == s)
    || (exists t :: FirstHolder(s.callbacks, notifier, t) && s' == Forgotten(s, t))
  }

  // ---------------------------------------------------------------------- runs

  datatype Step =
    | CheckLimit(id: nat, app: nat, modeOk: bool)
    | TakeToken(id: nat)
    | EnterToken(id: nat)
    | BeginUnregister(id: nat, app: nat, token: int)
    | NotifierDies(id: nat, notifier: Remote, token: int)
    | EraseCallbacks(id: nat)
    | SweepToken(id: nat)
    | BeginSelect(id: nat, app: nat, token: int, cbType: string, notifier: Remote)
    | CheckSelect(id: nat)
    | EnterCallback(id: nat)
    | BeginUnselect(id: nat, app: nat, token: int, cbType: string)
    | CheckUnselect(id: nat)
    | RemoveCallback(id: nat)

  /** The next section of an operation under way. */
  function OpNext(s: Reg, id: nat): Reg
    requires id in s.ops
  {
    match s.ops[id]
    case Selecting(t, cbType, notifier) =>
      s.(ops := if HasNotifier(s, t, cbType) then s.ops - {id} else s.ops[id := Entering(t, cbType, notifier)])
    case Entering(t, cbType, notifier) => CallbackEntered(s, t, cbType, notifier).(ops := s.ops - {id})
    case Unselecting(t, cbType) =>
      s.(ops := if HasNotifier(s, t, cbType) then s.ops[id := Removing(t, cbType)] else s.ops - {id})
    case Removing(t, cbType) => CallbackRemoved(s, t, cbType).(ops := s.ops - {id})
    case Forgetting(t) => s.(callbacks := s.callbacks - {t}, ops := s.ops[id := Sweeping(t)])
    case Sweeping(t) => s.(apps := Swept(s.apps, t), ops := s.ops - {id})
  }

  function Begun(s: Reg, id: nat, op: Op, allowed: bool): Reg {
    if allowed then s.(ops := s.ops[id := op]) else s
  }

  ghost predicate Moves(s: Reg, step: Step, s': Reg) {
    match step
    case CheckLimit(id, a, modeOk) => id !in s.flight && s' == Checked(s, id, a, modeOk)
    case TakeToken(id) => id in s.flight && s.flight[id].Passed? && s' == TokenTaken(s, id, s.flight[id].app)
    case EnterToken(id) =>
      id in s.flight && s.flight[id].Numbered? && s' == Entered(s, id, s.flight[id].app, s.flight[id].entry)
    case BeginUnregister(id, a, t) => id !in s.ops && s' == Begun(s, id, Forgetting(t), Has(Listed(s.apps, a), t))
    case NotifierDies(id, notifier, t) =>
      id !in s.ops && FirstHolder(s.callbacks, notifier, t) && s' == Begun(s, id, Forgetting(t), true)
    case EraseCallbacks(id) => id in s.ops && s.ops[id].Forgetting? && s' == OpNext(s, id)
    case SweepToken(id) => id in s.ops && s.ops[id].Sweeping? && s' == OpNext(s, id)
    case BeginSelect(id, a, t, cbType, notifier) =>
      && id !in s.ops && !notifier.Null?
      && s' == Begun(s, id, Selecting(t, cbType, notifier), Known(cbType) && Has(Listed(s.apps, a), t))
    case CheckSelect(id) => id in s.ops && s.ops[id].Selecting? && s' == OpNext(s, id)
    case EnterCallback(id) => id in s.ops && s.ops[id].Entering? && s' == OpNext(s, id)
    case BeginUnselect(id, a, t, cbType) =>
      id !in s.ops && s' == Begun(s, id, Unselecting(t, cbType), Known(cbType) && Has(Listed(s.apps, a), t))
    case CheckUnselect(id) => id in s.ops && s.ops[id].Unselecting? && s' == OpNext(s, id)
    case RemoveCallback(id) => id in s.ops && s.ops[id].Removing? && s' == OpNext(s, id)
  }

  /** `states` are the states visited, the first one included. */
  ghost predicate IsRun(states: seq<Reg>, steps: seq<Step>) {
    && |states| == |steps| + 1
    && forall i :: 0 <= i < |steps| ==> Moves(states[i], steps[i], states[i + 1])
  }

  /** The last token handed out before a restart is stored; the lists are not. */
  predicate Fresh(s: Reg) {
    s.apps == [] && s.callbacks == map[] && s.issued <= MAX_TOKEN_NUM && s.flight == map[] && s.ops == map[]
  }

  // ------------------------------------------------------------- the invariant

  function Flat(apps: seq<App>): seq<Entry> {
    if apps == [] then [] else apps[0].entries + Flat(apps[1..])
  }

  predicate Sorted(apps: seq<App>) {
    forall i, j :: 0 <= i < j < |apps| ==> apps[i].accessToken < apps[j].accessToken
  }

  predicate Lists(apps: seq<App>) {
    forall i :: 0 <= i < |apps| ==> apps[i].entries != []
  }

  predicate Apart(entries: seq<Entry>) {
    forall i, j :: 0 <= i < j < |entries| ==> entries[i].issue != entries[j].issue
  }

  predicate Issued(entries: seq<Entry>, issued: nat) {
    forall i :: 0 <= i < |entries| ==> 1 <= entries[i].issue <= issued && entries[i].token == TokenOf(entries[i].issue)
  }

  predicate Records(callbacks: map<int, Notifiers>) {
    forall t :: t in callbacks ==> callbacks[t] != map[]
  }

  ghost predicate RegOk(s: Reg) {
    && Sorted(s.apps) && Lists(s.apps)
    && Apart(Flat(s.apps)) && Issued(Flat(s.apps), s.issued)
    && Records(s.callbacks) && FlightOk(s.flight, Flat(s.apps), s.issued)
  }

  predicate Unused(entries: seq<Entry>, issue: nat) {
    forall i :: 0 <= i < |entries| ==> entries[i].issue != issue
  }

  /** Tokens under way are genuine, in no list, and no two have the same issue. */
  predicate FlightOk(flight: map<nat, Registering>, entries: seq<Entry>, issued: nat) {
    && (forall id :: id in flight && flight[id].Numbered? ==>
      && 1 <= flight[id].entry.issue <= issued && flight[id].entry.token == TokenOf(flight[id].entry.issue)
      && Unused(entries, flight[id].entry.issue))
    && (forall id, id' :: id in flight && id' in flight && id != id' ==>
      flight[id].Numbered? && flight[id'].Numbered? ==> flight[id].entry.issue != flight[id'].entry.issue)
  }

  // --- one more entry

  /** Position i is where the entry goes. */
  lemma {:induction false} AppendedInto(apps: seq<App>, i: nat, a: nat, e: Entry)
    requires i < |apps| && apps[i].accessToken == a && forall k :: 0 <= k < i ==> apps[k].accessToken < a
    ensures Appended(apps, a, e) == apps[i := App(a, apps[i].entries + [e])]
  {
    if i > 0 {
      AppendedInto(apps[1..], i - 1, a, e);
      assert apps[i := App(a, apps[i].entries + [e])] == [apps[0]] + apps[1..][i - 1 := App(a, apps[i].entries + [e])];
    }
  }

  lemma {:induction false} AppendedBefore(apps: seq<App>, i: nat, a: nat, e: Entry)
    requires i <= |apps| && (i < |apps| ==> a < apps[i].accessToken)
    requires forall k :: 0 <= k < i ==> apps[k].accessToken < a
    ensures Appended(apps, a, e) == apps[..i] + [App(a, [e])] + apps[i..]
  {
    if i > 0 {
      AppendedBefore(apps[1..], i - 1, a, e);
      assert [apps[0]] + apps[1..][..i - 1] == apps[..i];
    }
  }

  lemma {:induction false} AppendedFlat(apps: seq<App>, a: nat, e: Entry) returns (k: nat)
    ensures k <= |Flat(apps)| && Flat(Appended(apps, a, e)) == Flat(apps)[..k] + [e] + Flat(apps)[k..]
  {
    if apps == [] || a < apps[0].accessToken {
      k := 0;
      assert ([App(a, [e])] + apps)[1..] == apps;
    } else if apps[0].accessToken == a {
      k := |apps[0].entries|;
      assert ([App(a, apps[0].entries + [e])] + apps[1..])[1..] == apps[1..];
    } else {
      var n := AppendedFlat(apps[1..], a, e);
      k := |apps[0].entries| + n;
      assert ([apps[0]] + Appended(apps[1..], a, e))[1..] == Appended(apps[1..], a, e);
      assert Flat(apps)[..k] == apps[0].entries + Flat(apps[1..])[..n];
    }
  }

  lemma {:induction false} AppendedShape(apps: seq<App>, a: nat, e: Entry)
    requires Sorted(apps) && Lists(apps)
    ensures Sorted(Appended(apps, a, e)) && Lists(Appended(apps, a, e))
    ensures forall i :: 0 <= i < |Appended(apps, a, e)| ==>
      Appended(apps, a, e)[i].accessToken >= if apps != [] && apps[0].accessToken < a then apps[0].accessToken else a
  {
    if apps != [] && apps[0].accessToken < a {
      AppendedShape(apps[1..], a, e);
    }
  }

  /** The list of the application grows by the new entry; the other lists stay. */
  lemma {:induction false} AppendedListed(apps: seq<App>, a: nat, e: Entry, b: nat)
    requires Sorted(apps)
    ensures Listed(Appended(apps, a, e), b) == Listed(apps, b) + if a == b then [e] else []
  {
    if apps == [] || a < apps[0].accessToken {
      assert ([App(a, [e])] + apps)[1..] == apps;
      if a == b {
        NotListed(apps, a);
      }
    } else if apps[0].accessToken == a {
      assert ([App(a, apps[0].entries + [e])] + apps[1..])[1..] == apps[1..];
    } else {
      assert ([apps[0]] + Appended(apps[1..], a, e))[1..] == Appended(apps[1..], a, e);
      AppendedListed(apps[1..], a, e, b);
    }
  }

  lemma {:induction false} NotListed(apps: seq<App>, a: nat)
    requires forall i :: 0 <= i < |apps| ==> apps[i].accessToken != a
    ensures Listed(apps, a) == []
  {
    if apps != [] {
      NotListed(apps[1..], a);
    }
  }

  lemma InsertedApart(entries: seq<Entry>, k: nat, e: Entry, issued: nat)
    requires k <= |entries| && Apart(entries) && Issued(entries, issued)
    requires 1 <= e.issue <= issued && e.token == TokenOf(e.issue) && Unused(entries, e.issue)
    ensures var more := entries[..k] + [e] + entries[k..]; Apart(more) && Issued(more, issued)
  {
  }

  lemma InsertedHas(entries: seq<Entry>, k: nat, e: Entry, t: int)
    requires k <= |entries| && Has(entries, t)
    ensures Has(entries[..k] + [e] + entries[k..], t)
  {
    var i :| 0 <= i < |entries| && entries[i].token == t;
    var more := entries[..k] + [e] + entries[k..];
    assert more[if i < k then i else i + 1] == entries[i];
  }

  lemma InsertedFlight(flight: map<nat, Registering>, entries: seq<Entry>, issued: nat, k: nat, id: nat)
    requires FlightOk(flight, entries, issued) && id in flight && flight[id].Numbered? && k <= |entries|
    ensures FlightOk(flight - {id}, entries[..k] + [flight[id].entry] + entries[k..], issued)
  {
    var more := entries[..k] + [flight[id].entry] + entries[k..];
    forall x | x in flight && x != id && flight[x].Numbered?
      ensures Unused(more, flight[x].entry.issue)
    {
      assert Unused(entries, flight[x].entry.issue);
    }
  }

  lemma EnterKeeps(s: Reg, id: nat)
    requires RegOk(s) && id in s.flight && s.flight[id].Numbered?
    ensures RegOk(Entered(s, id, s.flight[id].app, s.flight[id].entry))
  {
    var a, e := s.flight[id].app, s.flight[id].entry;
    AppendedShape(s.apps, a, e);
    var k := AppendedFlat(s.apps, a, e);
    InsertedApart(Flat(s.apps), k, e, s.issued);
    InsertedFlight(s.flight, Flat(s.apps), s.issued, k, id);
  }

  lemma TakeKeeps(s: Reg, id: nat, a: nat)
    requires RegOk(s) && id in s.flight && s.flight[id].Passed?
    ensures RegOk(TokenTaken(s, id, a))
  {
    assert Issued(Flat(s.apps), s.issued + 1);
    assert Unused(Flat(s.apps), s.issued + 1);
  }

  // --- the removal loop

  /** What stays are the other tokens, all of them and in their order. */
  lemma {:induction false} WithoutHas(entries: seq<Entry>, t: int, u: int)
    ensures Has(Without(entries, t), u) <==> Has(entries, u) && u != t
  {
    if entries != [] {
      WithoutHas(entries[1..], t, u);
      HasCons(entries, u);
      if entries[0].token != t {
        var kept := Without(entries, t);
        assert kept[1..] == Without(entries[1..], t);
        HasCons(kept, u);
      }
    }
  }

  lemma HasCons(entries: seq<Entry>, u: int)
    requires entries != []
    ensures Has(entries, u) <==> entries[0].token == u || Has(entries[1..], u)
  {
    if Has(entries, u) && entries[0].token != u {
      var i :| 0 <= i < |entries| && entries[i].token == u;
      assert entries[1..][i - 1].token == u;
    }
    if Has(entries[1..], u) {
      var i :| 0 <= i < |entries[1..]| && entries[1..][i].token == u;
      assert entries[i + 1].token == u;
    }
  }

  lemma HasSplit(front: seq<Entry>, back: seq<Entry>, u: int)
    ensures Has(front + back, u) <==> Has(front, u) || Has(back, u)
  {
    if Has(front, u) {
      var i :| 0 <= i < |front| && front[i].token == u;
      assert (front + back)[i].token == u;
    }
    if Has(back, u) {
      var i :| 0 <= i < |back| && back[i].token == u;
      assert (front + back)[|front| + i].token == u;
    }
  }

  lemma {:induction false} WithoutNothing(entries: seq<Entry>, t: int)
    requires !Has(entries, t)
    ensures Without(entries, t) == entries
  {
    if entries != [] {
      HasCons(entries, t);
      WithoutNothing(entries[1..], t);
    }
  }

  lemma {:induction false} WithoutLength(entries: seq<Entry>, t: int)
    ensures |Without(entries, t)| <= |entries|
  {
    if entries != [] {
      WithoutLength(entries[1..], t);
    }
  }

  lemma {:induction false} WithoutSplit(front: seq<Entry>, back: seq<Entry>, t: int)
    ensures Without(front + back, t) == Without(front, t) + Without(back, t)
  {
    if front == [] {
      assert front + back == back;
    } else {
      assert (front + back)[1..] == front[1..] + back;
      WithoutSplit(front[1..], back, t);
    }
  }

  /** One turn of the loop: `done` is behind it, `all[i..]` ahead. */
  lemma SweepNext(all: seq<App>, done: seq<App>, i: nat, t: int)
    requires i < |all| && Swept(all, t) == done + Swept(all[i..], t)
    ensures var left := Without(all[i].entries, t);
      Swept(all, t) == if left == [] then done + all[i + 1..]
        else (done + [App(all[i].accessToken, left)]) + Swept(all[i + 1..], t)
  {
    assert all[i..][1..] == all[i + 1..];
  }

  lemma ReplaceNext(now: seq<App>, all: seq<App>, done: seq<App>, i: nat, app: App)
    requires i == |done| < |all| && now == done + all[i..]
    ensures now[i] == all[i] && now[i := app] == (done + [app]) + all[i + 1..]
    ensures now[..i] + now[i + 1..] == done + all[i + 1..]
  {
  }

  /** The loop filters the lists up to some point and leaves those after it alone. */
  lemma {:induction false} SweptFlat(apps: seq<App>, t: int) returns (k: nat)
    ensures k <= |Flat(apps)| && Flat(Swept(apps, t)) == Without(Flat(apps)[..k], t) + Flat(apps)[k..]
  {
    if apps == [] {
      k := 0;
    } else {
      var first := apps[0].entries;
      if Without(first, t) == [] {
        k := |first|;
        assert Flat(apps)[..k] == first && Flat(apps)[k..] == Flat(apps[1..]);
      } else {
        var n := SweptFlat(apps[1..], t);
        k := |first| + n;
        assert Swept(apps, t)[1..] == Swept(apps[1..], t);
        assert Flat(apps)[..k] == first + Flat(apps[1..])[..n];
        WithoutSplit(first, Flat(apps[1..])[..n], t);
      }
    }
  }

  lemma {:induction false} SweptShape(apps: seq<App>, t: int)
    requires Sorted(apps) && Lists(apps)
    ensures Sorted(Swept(apps, t)) && Lists(Swept(apps, t))
    ensures forall i :: 0 <= i < |Swept(apps, t)| ==> apps != [] && Swept(apps, t)[i].accessToken >= apps[0].accessToken
  {
    if apps != [] && Without(apps[0].entries, t) != [] {
      WithoutLength(apps[0].entries, t);
      SweptShape(apps[1..], t);
    }
  }

  lemma {:induction false} WithoutMembers(entries: seq<Entry>, t: int, e: Entry)
    requires e in Without(entries, t)
    ensures e in entries
  {
    if entries[0].token == t || e != entries[0] {
      WithoutMembers(entries[1..], t, e);
    }
  }

  lemma WithoutIssued(entries: seq<Entry>, t: int, issued: nat)
    requires Issued(entries, issued)
    ensures Issued(Without(entries, t), issued)
  {
    var left := Without(entries, t);
    forall i | 0 <= i < |left|
      ensures 1 <= left[i].issue <= issued && left[i].token == TokenOf(left[i].issue)
    {
      WithoutMembers(entries, t, left[i]);
    }
  }

  lemma {:induction false} WithoutApart(entries: seq<Entry>, t: int)
    requires Apart(entries)
    ensures Apart(Without(entries, t))
  {
    if entries != [] {
      WithoutApart(entries[1..], t);
      if entries[0].token != t {
        var left := Without(entries[1..], t);
        forall i | 0 <= i < |left|
          ensures left[i].issue != entries[0].issue
        {
          WithoutMembers(entries[1..], t, left[i]);
        }
      }
    }
  }

  lemma FilteredFront(entries: seq<Entry>, k: nat, t: int, issued: nat)
    requires k <= |entries| && Apart(entries) && Issued(entries, issued)
    ensures var left := Without(entries[..k], t) + entries[k..]; Apart(left) && Issued(left, issued)
  {
    WithoutApart(entries[..k], t);
    WithoutIssued(entries[..k], t, issued);
    var front, back := Without(entries[..k], t), entries[k..];
    forall i, j | 0 <= i < |front| && 0 <= j < |back|
      ensures front[i].issue != back[j].issue
    {
      WithoutMembers(entries[..k], t, front[i]);
      var n :| 0 <= n < k && entries[..k][n] == front[i];
      assert entries[n].issue != entries[k + j].issue;
    }
  }

  lemma SweptHas(apps: seq<App>, t: int, u: int)
    requires u != t
    ensures Has(Flat(Swept(apps, t)), u) <==> Has(Flat(apps), u)
  {
    var k := SweptFlat(apps, t);
    var front, back := Flat(apps)[..k], Flat(apps)[k..];
    assert Flat(apps) == front + back;
    HasSplit(front, back, u);
    HasSplit(Without(front, t), back, u);
    WithoutHas(front, t, u);
  }

  lemma SweptUnused(apps: seq<App>, t: int, issue: nat)
    requires Unused(Flat(apps), issue)
    ensures Unused(Flat(Swept(apps, t)), issue)
  {
    var k := SweptFlat(apps, t);
    var front, left := Flat(apps)[..k], Flat(Swept(apps, t));
    forall i | 0 <= i < |left|
      ensures left[i].issue != issue
    {
      if i < |Without(front, t)| {
        WithoutMembers(front, t, left[i]);
      }
    }
  }

  lemma SweepKeeps(s: Reg, t: int)
    requires RegOk(s)
    ensures RegOk(s.(apps := Swept(s.apps, t)))
  {
    SweptShape(s.apps, t);
    var k := SweptFlat(s.apps, t);
    FilteredFront(Flat(s.apps), k, t, s.issued);
    forall id | id in s.flight && s.flight[id].Numbered?
      ensures Unused(Flat(Swept(s.apps, t)), s.flight[id].entry.issue)
    {
      SweptUnused(s.apps, t, s.flight[id].entry.issue);
    }
  }

  lemma {:induction false} ListedHas(apps: seq<App>, a: nat, t: int)
    requires Has(Listed(apps, a), t)
    ensures Has(Flat(apps), t)
  {
    if apps[0].accessToken != a {
      ListedHas(apps[1..], a, t);
    }
    HasSplit(apps[0].entries, Flat(apps[1..]), t);
  }

  lemma RecordsKept(s: Reg, t: int, cbType: string, notifier: Remote)
    requires Records(s.callbacks)
    ensures Records(CallbackEntered(s, t, cbType, notifier).callbacks)
    ensures Records(CallbackRemoved(s, t, cbType).callbacks)
  {
    var info := if t in s.callbacks then s.callbacks[t] else map[];
    assert cbType in info[cbType := notifier];
  }

  lemma OpKeeps(s: Reg, id: nat)
    requires RegOk(s) && id in s.ops
    ensures RegOk(OpNext(s, id))
  {
    var op := s.ops[id];
    if op.Sweeping? {
      SweepKeeps(s, op.token);
    } else if op.Entering? {
      RecordsKept(s, op.token, op.cbType, op.notifier);
    } else if op.Removing? {
      RecordsKept(s, op.token, op.cbType, Null);
    }
  }

  lemma MoveKeeps(s: Reg, step: Step, s': Reg)
    requires RegOk(s) && Moves(s, step, s')
    ensures RegOk(s')
  {
    if step.TakeToken? {
      TakeKeeps(s, step.id, s.flight[step.id].app);
    } else if step.EnterToken? {
      EnterKeeps(s, step.id);
    } else if step.id in s.ops {
      OpKeeps(s, step.id);
    }
  }

  lemma {:induction false} RunKeeps(states: seq<Reg>, steps: seq<Step>, n: nat)
    requires IsRun(states, steps) && Fresh(states[0]) && n <= |steps|
    ensures RegOk(states[n])
  {
    if n > 0 {
      RunKeeps(states, steps, n - 1);
      MoveKeeps(states[n - 1], steps[n - 1], states[n]);
    }
  }

  // ------------------------------------------------------------- main results

  /** In every reachable state: every token is in range, no list is empty, and no callback record
      is empty. */
  lemma EveryRun(states: seq<Reg>, steps: seq<Step>, n: nat)
    requires IsRun(states, steps) && Fresh(states[0]) && n <= |steps|
    ensures var s := states[n];
      && (forall i :: 0 <= i < |Flat(s.apps)| ==> 1 <= Flat(s.apps)[i].token <= MAX_TOKEN_NUM)
      && (forall i :: 0 <= i < |s.apps| ==> s.apps[i].entries != [])
      && (forall t :: t in s.callbacks ==> s.callbacks[t] != map[])
  {
    RunKeeps(states, steps, n);
    var entries := Flat(states[n].apps);
    forall i | 0 <= i < |entries|
      ensures 1 <= entries[i].token <= MAX_TOKEN_NUM
    {
      TokenStep(entries[i].issue - 1);
    }
  }

  // --- the limit

  /** The registrations of an application that are past their check. */
  function InFlight(s: Reg, a: nat): set<nat> {
    set id | id in s.flight && s.flight[id].app == a
  }

  lemma {:induction false} SweptListed(apps: seq<App>, t: int, a: nat)
    requires Sorted(apps)
    ensures |Listed(Swept(apps, t), a)| <= |Listed(apps, a)|
  {
    if apps != [] {
      if Without(apps[0].entries, t) == [] {
        if apps[0].accessToken == a {
          NotListed(apps[1..], a);
        }
      } else {
        WithoutLength(apps[0].entries, t);
        assert Swept(apps, t)[1..] == Swept(apps[1..], t);
        SweptListed(apps[1..], t, a);
      }
    }
  }

  /** What an application holds and has under way. */
  function Load(s: Reg, a: nat): nat {
    |Listed(s.apps, a)| + |InFlight(s, a)|
  }

  lemma CheckLoad(s: Reg, id: nat, b: nat, modeOk: bool, a: nat)
    requires id !in s.flight
    ensures var s' := Checked(s, id, b, modeOk);
      if RegisterCode(s, b, modeOk) == ERR_OK && a == b
      then InFlight(s', a) == InFlight(s, a) + {id} && |Listed(s.apps, a)| < MAX_REGISTER_NUM
      else InFlight(s', a) == InFlight(s, a)
  {
  }

  lemma EnterLoad(s: Reg, id: nat, a: nat)
    requires Sorted(s.apps) && id in s.flight && s.flight[id].Numbered?
    ensures Load(Entered(s, id, s.flight[id].app, s.flight[id].entry), a) == Load(s, a)
  {
    var s' := Entered(s, id, s.flight[id].app, s.flight[id].entry);
    AppendedListed(s.apps, s.flight[id].app, s.flight[id].entry, a);
    if s.flight[id].app == a {
      assert InFlight(s, a) == InFlight(s', a) + {id} && id !in InFlight(s', a);
    } else {
      assert InFlight(s, a) == InFlight(s', a);
    }
  }

  lemma SweepLoad(s: Reg, t: int, ops: map<nat, Op>, a: nat)
    requires Sorted(s.apps)
    ensures Load(s.(apps := Swept(s.apps, t), ops := ops), a) <= Load(s, a)
  {
    SweptListed(s.apps, t, a);
    assert InFlight(s.(apps := Swept(s.apps, t), ops := ops), a) == InFlight(s, a);
  }

  lemma MoveLoad(s: Reg, step: Step, s': Reg, a: nat, k: nat)
    requires Sorted(s.apps) && Moves(s, step, s')
    requires Load(s, a) <= MAX_REGISTER_NUM - 1 + k && |InFlight(s', a)| <= k
    ensures Load(s', a) <= MAX_REGISTER_NUM - 1 + k
  {
    if step.CheckLimit? {
      CheckLoad(s, step.id, step.app, step.modeOk, a);
    } else if step.EnterToken? {
      EnterLoad(s, step.id, a);
    } else if step.SweepToken? {
      SweepLoad(s, s.ops[step.id].token, s.ops - {step.id}, a);
    } else {
      assert InFlight(s', a) == InFlight(s, a);
    }
  }

  /** Interleaved limit: in every run in which an application has at most k registrations under
      way at a time, what it holds and has under way never exceeds 599 + k; registering one at
      a time it never holds more than 600 tokens. */
  lemma {:induction false} RegisterBound(states: seq<Reg>, steps: seq<Step>, n: nat, a: nat, k: nat)
    requires IsRun(states, steps) && Fresh(states[0]) && n <= |steps|
    requires forall i :: 0 <= i <= n ==> |InFlight(states[i], a)| <= k
    ensures |Listed(states[n].apps, a)| + |InFlight(states[n], a)| <= MAX_REGISTER_NUM - 1 + k
    ensures k == 1 ==> |Listed(states[n].apps, a)| <= MAX_REGISTER_NUM
  {
    if n > 0 {
      RegisterBound(states, steps, n - 1, a, k);
      RunKeeps(states, steps, n - 1);
      MoveLoad(states[n - 1], steps[n - 1], states[n], a, k);
    } else {
      assert InFlight(states[0], a) == {};
    }
  }

  predicate TokensApart(entries: seq<Entry>) {
    forall i, j :: 0 <= i < j < |entries| ==> entries[i].token != entries[j].token
  }

  function Between(m: nat, n: nat): nat {
    if m <= n then n - m else m - n
  }

  /** In every reachable state two registered tokens are equal exactly when a positive whole
      number of cycles of issues lies between them. */
  lemma SameTokenExactly(states: seq<Reg>, steps: seq<Step>, n: nat, i: nat, j: nat)
    requires IsRun(states, steps) && Fresh(states[0]) && n <= |steps|
    requires i < j < |Flat(states[n].apps)|
    ensures var x, y := Flat(states[n].apps)[i], Flat(states[n].apps)[j];
      && x.issue != y.issue
      && (x.token == y.token <==> Between(x.issue, y.issue) % MAX_TOKEN_NUM == 0)
  {
    RunKeeps(states, steps, n);
    var x, y := Flat(states[n].apps)[i], Flat(states[n].apps)[j];
    if x.issue <= y.issue {
      SameTokenIff(x.issue, y.issue);
    } else {
      SameTokenIff(y.issue, x.issue);
    }
  }

  /** Any two registered tokens were issued less than one cycle apart. */
  predicate Recent(entries: seq<Entry>) {
    forall i, j :: 0 <= i < j < |entries| ==> Between(entries[i].issue, entries[j].issue) < MAX_TOKEN_NUM
  }

  lemma RecentTokensApart(states: seq<Reg>, steps: seq<Step>, n: nat)
    requires IsRun(states, steps) && Fresh(states[0]) && n <= |steps| && Recent(Flat(states[n].apps))
    ensures TokensApart(Flat(states[n].apps))
  {
    var entries := Flat(states[n].apps);
    forall i, j | 0 <= i < j < |entries|
      ensures entries[i].token != entries[j].token
    {
      SameTokenExactly(states, steps, n, i, j);
    }
  }

  // --- what the early break leaves behind

  predicate Only(entries: seq<Entry>, t: int) {
    forall i :: 0 <= i < |entries| ==> entries[i].token == t
  }

  lemma {:induction false} WithoutEmptyIff(entries: seq<Entry>, t: int)
    ensures Without(entries, t) == [] <==> Only(entries, t)
  {
    if entries != [] {
      WithoutEmptyIff(entries[1..], t);
      assert Only(entries, t) <==> entries[0].token == t && Only(entries[1..], t) by {
        assert forall i :: 0 < i < |entries| ==> entries[i] == entries[1..][i - 1];
      }
    }
  }

  /** Some list holds the token alone and a list after it holds it too. */
  ghost predicate Shielded(apps: seq<App>, t: int) {
    exists i, j :: 0 <= i < j < |apps| && Only(apps[i].entries, t) && Has(apps[j].entries, t)
  }

  lemma {:induction false} FlatHas(apps: seq<App>, t: int)
    ensures Has(Flat(apps), t) <==> exists i :: 0 <= i < |apps| && Has(apps[i].entries, t)
  {
    if apps != [] {
      FlatHas(apps[1..], t);
      HasSplit(apps[0].entries, Flat(apps[1..]), t);
      assert forall i :: 0 < i < |apps| ==> apps[i] == apps[1..][i - 1];
      if exists i :: 0 <= i < |apps[1..]| && Has(apps[1..][i].entries, t) {
        var i :| 0 <= i < |apps[1..]| && Has(apps[1..][i].entries, t);
        assert Has(apps[i + 1].entries, t);
      }
    }
  }

  lemma ShieldedCons(apps: seq<App>, t: int)
    requires apps != []
    ensures Shielded(apps, t) <==> (Only(apps[0].entries, t) && Has(Flat(apps[1..]), t)) || Shielded(apps[1..], t)
  {
    FlatHas(apps[1..], t);
    if Shielded(apps, t) {
      var i, j :| 0 <= i < j < |apps| && Only(apps[i].entries, t) && Has(apps[j].entries, t);
      assert Has(apps[1..][j - 1].entries, t);
      if i > 0 {
        assert Only(apps[1..][i - 1].entries, t);
      }
    }
    if Only(apps[0].entries, t) && Has(Flat(apps[1..]), t) {
      var j :| 0 <= j < |apps[1..]| && Has(apps[1..][j].entries, t);
      assert Has(apps[j + 1].entries, t);
    }
    if Shielded(apps[1..], t) {
      var i, j :| 0 <= i < j < |apps[1..]| && Only(apps[1..][i].entries, t) && Has(apps[1..][j].entries, t);
      assert Only(apps[i + 1].entries, t) && Has(apps[j + 1].entries, t);
    }
  }

  /** The loop leaves a copy of the token behind exactly when a list that holds the token alone
      comes before another list that holds it. */
  lemma {:induction false} SweepLeavesIff(apps: seq<App>, t: int)
    ensures Has(Flat(Swept(apps, t)), t) <==> Shielded(apps, t)
  {
    if apps != [] {
      ShieldedCons(apps, t);
      WithoutEmptyIff(apps[0].entries, t);
      if Without(apps[0].entries, t) == [] {
        if Shielded(apps[1..], t) {
          FlatHas(apps[1..], t);
        }
      } else {
        SweepLeavesIff(apps[1..], t);
        var left := Without(apps[0].entries, t);
        assert Swept(apps, t)[1..] == Swept(apps[1..], t);
        HasSplit(left, Flat(Swept(apps[1..], t)), t);
        WithoutHas(apps[0].entries, t, t);
      }
    }
  }

  lemma {:induction false} ApartLists(apps: seq<App>, t: int)
    requires TokensApart(Flat(apps)) && Lists(apps)
    ensures !Shielded(apps, t)
  {
    if apps != [] {
      var first, rest := apps[0].entries, Flat(apps[1..]);
      assert forall i :: 0 <= i < |rest| ==> rest[i] == Flat(apps)[|first| + i];
      ApartLists(apps[1..], t);
      ShieldedCons(apps, t);
      assert first[0] == Flat(apps)[0];
    }
  }

  /** With all tokens different, the loop removes the token and nothing else: every
      application keeps its other tokens in their order. */
  lemma {:induction false} SweepExact(apps: seq<App>, t: int, a: nat)
    requires TokensApart(Flat(apps)) && Sorted(apps) && Lists(apps)
    ensures Listed(Swept(apps, t), a) == Without(Listed(apps, a), t)
  {
    if apps != [] {
      var first, rest := apps[0].entries, Flat(apps[1..]);
      assert forall i :: 0 <= i < |rest| ==> rest[i] == Flat(apps)[|first| + i];
      if Without(first, t) == [] {
        WithoutEmptyIff(first, t);
        assert Flat(apps)[0].token == t;
        assert !Has(rest, t);
        RestUnchanged(apps[1..], t, a);
        if a == apps[0].accessToken {
          NotListed(apps[1..], a);
        }
      } else {
        SweepExact(apps[1..], t, a);
        assert Swept(apps, t)[1..] == Swept(apps[1..], t);
      }
    }
  }

  lemma {:induction false} RestUnchanged(apps: seq<App>, t: int, a: nat)
    requires !Has(Flat(apps), t)
    ensures Without(Listed(apps, a), t) == Listed(apps, a)
  {
    if Has(Listed(apps, a), t) {
      ListedHas(apps, a, t);
    }
    WithoutNothing(Listed(apps, a), t);
  }

  /** In every run, while the registered tokens are less than one cycle of issues apart, an
      application that gives a token back loses that token only, no copy of it is left anywhere,
      it has no callbacks, and nobody else loses anything. An application that does not hold the
      token changes nothing. */
  lemma UnregisterIsExact(states: seq<Reg>, steps: seq<Step>, n: nat, a: nat, t: int, b: nat)
    requires IsRun(states, steps) && Fresh(states[0]) && n <= |steps| && Recent(Flat(states[n].apps))
    ensures var s' := Unregistered(states[n], a, t);
      if Has(Listed(states[n].apps, a), t)
      then
        && !Has(Flat(s'.apps), t) && t !in s'.callbacks
        && Listed(s'.apps, b) == Without(Listed(states[n].apps, b), t)
      else s' == states[n]
  {
    RunKeeps(states, steps, n);
    RecentTokensApart(states, steps, n);
    ApartLists(states[n].apps, t);
    SweepLeavesIff(states[n].apps, t);
    SweepExact(states[n].apps, t, b);
  }

  // --- codes and callbacks

  /** The results of a registration. */
  lemma RegisterCodes(s: Reg, a: nat, modeOk: bool)
    ensures RegisterCode(s, a, modeOk) == 29360216 <==> !modeOk
    ensures RegisterCode(s, a, modeOk) == 29360207 <==> modeOk && |Listed(s.apps, a)| >= 600
    ensures RegisterCode(s, a, modeOk) == 0 <==> modeOk && |Listed(s.apps, a)| < 600
  {
  }

  /** The results of setting and of removing a callback. */
  lemma CallbackCodes(s: Reg, a: nat, t: int, ev: string)
    ensures var known, held := ev == "deviceSelected" || ev == "deviceUnselected", Has(Listed(s.apps, a), t);
      var present := t in s.callbacks && ev in s.callbacks[t];
      && (SetCode(s, a, t, ev) == 29360214 <==> !known) && (UnsetCode(s, a, t, ev) == 29360214 <==> !known)
      && (SetCode(s, a, t, ev) == 29360208 <==> known && !held)
      && (UnsetCode(s, a, t, ev) == 29360208 <==> known && !held)
      && (SetCode(s, a, t, ev) == 29360209 <==> known && held && present)
      && (UnsetCode(s, a, t, ev) == 29360210 <==> known && held && !present)
      && (SetCode(s, a, t, ev) == 0 <==> known && held && !present)
      && (UnsetCode(s, a, t, ev) == 0 <==> known && held && present)
  {
  }

  /** Who is told of an event of a token; nobody when none was set. */
  function NotifierOf(s: Reg, t: int, ev: string): Remote {
    if t in s.callbacks && ev in s.callbacks[t] then s.callbacks[t][ev] else Null
  }

  /** Setting one event of a token leaves the other event and all other tokens; so does removing
      one; forgetting a token leaves all other tokens. */
  lemma NotifiersChange(s: Reg, t: int, ev: string, notifier: Remote, u: int, ev': string)
    ensures NotifierOf(CallbackEntered(s, t, ev, notifier), u, ev') ==
      if u == t && ev' == ev then notifier else NotifierOf(s, u, ev')
    ensures NotifierOf(CallbackRemoved(s, t, ev), u, ev') == if u == t && ev' == ev then Null else NotifierOf(s, u, ev')
    ensures NotifierOf(Forgotten(s, t), u, ev') == if u == t then Null else NotifierOf(s, u, ev')
  {
    if t in s.callbacks && ev' != ev {
      assert ev' in s.callbacks[t] <==> ev' in s.callbacks[t] - {ev};
    }
  }

  /** What a section does to the notifier of one event: it is set, or gone, or as it was. */
  lemma NotifierStep(s: Reg, step: Step, s': Reg, t: int, ev: string)
    requires Moves(s, step, s')
    ensures NotifierOf(s', t, ev) ==
      if step.EnterCallback? && s.ops[step.id].token == t && s.ops[step.id].cbType == ev then s.ops[step.id].notifier
      else if step.RemoveCallback? && s.ops[step.id].token == t && s.ops[step.id].cbType == ev then Null
      else if step.EraseCallbacks? && s.ops[step.id].token == t then Null
      else NotifierOf(s, t, ev)
  {
    if step.EnterCallback? || step.RemoveCallback? {
      var op := s.ops[step.id];
      NotifiersChange(s, op.token, op.cbType, if op.Entering? then op.notifier else Null, t, ev);
    }
  }

  // --- who began what is under way

  /** The step begins to give back the token: for an application that holds it, or because the
      notifier died for which it is the least token. */
  ghost predicate BeginsForgetting(s: Reg, step: Step, id: nat, t: int) {
    || (exists a :: step == BeginUnregister(id, a, t) && Has(Listed(s.apps, a), t))
    || (exists n :: step == NotifierDies(id, n, t) && FirstHolder(s.callbacks, n, t))
  }

  /** The step begins to set a callback, for one of the two events and an application that holds
      the token. */
  ghost predicate BeginsSelecting(s: Reg, step: Step, id: nat, t: int, ev: string, notifier: Remote) {
    exists a :: step == BeginSelect(id, a, t, ev, notifier) && Has(Listed(s.apps, a), t)
      && (ev == "deviceSelected" || ev == "deviceUnselected")
  }

  lemma ForgettingStep(s: Reg, step: Step, s': Reg, id: nat, t: int)
    requires Moves(s, step, s') && id in s'.ops && (s'.ops[id] == Forgetting(t) || s'.ops[id] == Sweeping(t))
    ensures BeginsForgetting(s, step, id, t) ||
      (id in s.ops && (s.ops[id] == Forgetting(t) || s.ops[id] == Sweeping(t)))
  {
  }

  lemma SelectingStep(s: Reg, step: Step, s': Reg, id: nat, t: int, ev: string, n: Remote)
    requires Moves(s, step, s') && id in s'.ops
    requires s'.ops[id] == Selecting(t, ev, n) || s'.ops[id] == Entering(t, ev, n)
    ensures BeginsSelecting(s, step, id, t, ev, n) ||
      (id in s.ops && (s.ops[id] == Selecting(t, ev, n) || s.ops[id] == Entering(t, ev, n)))
  {
  }

  /** Over every run: a token is being given back only because an application that held it asked for
      that, or its notifier died. */
  lemma {:induction false} ForgettingBegun(states: seq<Reg>, steps: seq<Step>, n: nat, id: nat, t: int)
    returns (i: nat)
    requires IsRun(states, steps) && Fresh(states[0]) && n <= |steps|
    requires id in states[n].ops && (states[n].ops[id] == Forgetting(t) || states[n].ops[id] == Sweeping(t))
    ensures i < n && BeginsForgetting(states[i], steps[i], id, t)
  {
    ForgettingStep(states[n - 1], steps[n - 1], states[n], id, t);
    if BeginsForgetting(states[n - 1], steps[n - 1], id, t) {
      i := n - 1;
    } else {
      i := ForgettingBegun(states, steps, n - 1, id, t);
    }
  }

  /** Over every run: a callback is entered only for an application that held the token when it
      asked, for one of the two events, and with the notifier it gave. */
  lemma {:induction false} SelectingBegun(
    states: seq<Reg>, steps: seq<Step>, n: nat, id: nat, t: int, ev: string, notifier: Remote) returns (i: nat)
    requires IsRun(states, steps) && Fresh(states[0]) && n <= |steps| && id in states[n].ops
    requires states[n].ops[id] == Selecting(t, ev, notifier) || states[n].ops[id] == Entering(t, ev, notifier)
    ensures i < n && BeginsSelecting(states[i], steps[i], id, t, ev, notifier)
  {
    SelectingStep(states[n - 1], steps[n - 1], states[n], id, t, ev, notifier);
    if BeginsSelecting(states[n - 1], steps[n - 1], id, t, ev, notifier) {
      i := n - 1;
    } else {
      i := SelectingBegun(states, steps, n - 1, id, t, ev, notifier);
    }
  }

  // --- a dead notifier

  /** The death of a notifier leaves none of its callbacks exactly when it served at most one
      token: the query stops at the first. */
  lemma DeathCleansIff(s: Reg, notifier: Remote, s': Reg)
    requires AfterDeath(s, notifier, s')
    ensures (forall t :: !Holds(s'.callbacks, t, notifier)) <==>
      forall t, u :: Holds(s.callbacks, t, notifier) && Holds(s.callbacks, u, notifier) ==> t == u
  {
    if exists t :: Holds(s.callbacks, t, notifier) {
      var t :| FirstHolder(s.callbacks, notifier, t) && s' == Forgotten(s, t);
      assert forall u :: Holds(s'.callbacks, u, notifier) <==> Holds(s.callbacks, u, notifier) && u != t;
    }
  }

  // --- tokens do come back

  lemma RunExtends(states: seq<Reg>, steps: seq<Step>, step: Step, s: Reg)
    requires IsRun(states, steps) && Moves(states[|steps|], step, s)
    ensures IsRun(states + [s], steps + [step])
  {
  }

  /** The first application holds token 1 alone and `k` further tokens came and went. */
  function Churned(k: nat): Reg {
    Reg([App(1, [Entry(1, 1)])], map[], k + 1, map[], map[])
  }

  /** A second application takes a token and gives it back. */
  lemma TwoApps(e: Entry, a: nat)
    requires a > 1
    ensures var one := [App(1, [Entry(1, 1)])]; var two := one + [App(a, [e])];
      && Listed(one, a) == [] && Appended(one, a, e) == two
      && Listed(two, 1) == [Entry(1, 1)] && Listed(two, a) == [e]
  {
    var one := [App(1, [Entry(1, 1)])];
    var two := one + [App(a, [e])];
    assert one[1..] == [] && two[1..] == [App(a, [e])];
    assert Listed(two, a) == Listed(two[1..], a);
  }

  lemma GiveBackSecond(e: Entry, a: nat)
    requires e.token != 1
    ensures var one := [App(1, [Entry(1, 1)])]; Swept(one + [App(a, [e])], e.token) == one
  {
    var one := [App(1, [Entry(1, 1)])];
    var two := one + [App(a, [e])];
    assert two[1..] == [App(a, [e])];
    assert Without([Entry(1, 1)], e.token) == [Entry(1, 1)];
    assert Without([e], e.token) == Without([e][1..], e.token) == [];
    assert Swept(two[1..], e.token) == [];
  }

  lemma OneRound(k: nat)
    requires k + 1 < MAX_TOKEN_NUM
    ensures RegisterCode(Churned(k), 3, true) == ERR_OK
    ensures Unregistered(Registered(Churned(k), 3, true), 3, k + 2) == Churned(k + 1)
    ensures Has(Listed(Registered(Churned(k), 3, true).apps, 3), k + 2)
  {
    assert TokenOf(k + 2) == k + 2;
    var e := Entry(k + 2, k + 2);
    TwoApps(e, 3);
    GiveBackSecond(e, 3);
    assert [e][0].token == k + 2;
  }

  /** A run goes on with the three sections of a registration. */
  lemma RegisterNext(states: seq<Reg>, steps: seq<Step>, a: nat) returns (states': seq<Reg>, steps': seq<Step>)
    requires IsRun(states, steps) && states[|steps|].flight == map[]
    requires RegisterCode(states[|steps|], a, true) == ERR_OK
    ensures IsRun(states', steps') && states'[0] == states[0]
    ensures states'[|steps'|] == Registered(states[|steps|], a, true)
  {
    var s := states[|steps|];
    var s1 := Checked(s, 0, a, true);
    var s2 := TokenTaken(s1, 0, a);
    var s3 := Entered(s2, 0, a, NextEntry(s1));
    RunExtends(states, steps, CheckLimit(0, a, true), s1);
    states', steps' := states + [s1], steps + [CheckLimit(0, a, true)];
    RunExtends(states', steps', TakeToken(0), s2);
    states', steps' := states' + [s2], steps' + [TakeToken(0)];
    RunExtends(states', steps', EnterToken(0), s3);
    states', steps' := states' + [s3], steps' + [EnterToken(0)];
    assert s3.flight == map[];
  }

  /** A run goes on with the three sections of giving a token back. */
  lemma UnregisterNext(states: seq<Reg>, steps: seq<Step>, a: nat, t: int)
    returns (states': seq<Reg>, steps': seq<Step>)
    requires IsRun(states, steps) && states[|steps|].ops == map[] && Has(Listed(states[|steps|].apps, a), t)
    ensures IsRun(states', steps') && states'[0] == states[0]
    ensures states'[|steps'|] == Unregistered(states[|steps|], a, t)
  {
    var s := states[|steps|];
    var s1 := Begun(s, 0, Forgetting(t), true);
    var s2 := OpNext(s1, 0);
    var s3 := OpNext(s2, 0);
    RunExtends(states, steps, BeginUnregister(0, a, t), s1);
    states', steps' := states + [s1], steps + [BeginUnregister(0, a, t)];
    RunExtends(states', steps', EraseCallbacks(0), s2);
    states', steps' := states' + [s2], steps' + [EraseCallbacks(0)];
    RunExtends(states', steps', SweepToken(0), s3);
    states', steps' := states' + [s3], steps' + [SweepToken(0)];
    assert s3.ops == map[];
  }

  lemma {:induction false} ManyRounds(k: nat) returns (states: seq<Reg>, steps: seq<Step>)
    requires k < MAX_TOKEN_NUM
    ensures IsRun(states, steps) && states[0] == Reg([], map[], 0, map[], map[]) && states[|steps|] == Churned(k)
    decreases k
  {
    if k == 0 {
      states, steps := [Reg([], map[], 0, map[], map[])], [];
      assert Appended([], 1, Entry(1, 1)) == [App(1, [Entry(1, 1)])];
      assert Registered(Reg([], map[], 0, map[], map[]), 1, true) == Churned(0);
      states, steps := RegisterNext(states, steps, 1);
    } else {
      states, steps := ManyRounds(k - 1);
      OneRound(k - 1);
      states, steps := RegisterNext(states, steps, 3);
      states, steps := UnregisterNext(states, steps, 3, k + 1);
    }
  }

  lemma SharedToken(e: Entry)
    requires e.token == 1
    ensures var s := Reg([App(1, [Entry(1, 1)]), App(2, [e])], map[], MAX_TOKEN_NUM + 1, map[], map[]);
      var s' := Unregistered(s, 1, 1);
      && Has(Listed(s.apps, 1), 1) && Has(Listed(s.apps, 2), 1)
      && !Has(Listed(s'.apps, 1), 1) && Has(Listed(s'.apps, 2), 1)
  {
    TwoApps(e, 2);
    var apps := [App(1, [Entry(1, 1)]), App(2, [e])];
    assert apps == [App(1, [Entry(1, 1)])] + [App(2, [e])];
    assert [Entry(1, 1)][0].token == 1 && [e][0].token == 1;
    assert Without([Entry(1, 1)], 1) == Without([Entry(1, 1)][1..], 1) == [];
    assert Swept(apps, 1) == [App(2, [e])];
    assert Listed([App(2, [e])], 1) == Listed([App(2, [e])][1..], 1) == [];
  }

  /** Without the condition the promise fails: a run leads to two applications with token 1, and
      when the first gives it back the loop leaves the copy of the second, without callbacks. */
  lemma TokenComesBack() returns (states: seq<Reg>, steps: seq<Step>)
    ensures IsRun(states, steps) && Fresh(states[0])
    ensures var s := states[|steps|]; var s' := Unregistered(s, 1, 1);
      && Has(Listed(s.apps, 1), 1) && Has(Listed(s.apps, 2), 1)
      && !Has(Listed(s'.apps, 1), 1) && Has(Listed(s'.apps, 2), 1)
  {
    states, steps := ManyRounds(MAX_TOKEN_NUM - 1);
    var e := Entry(1, MAX_TOKEN_NUM + 1);
    assert TokenOf(MAX_TOKEN_NUM + 1) == 1;
    TwoApps(e, 2);
    SharedToken(e);
    states, steps := RegisterNext(states, steps, 2);
    assert [App(1, [Entry(1, 1)])] + [App(2, [e])] == [App(1, [Entry(1, 1)]), App(2, [e])];
  }
}
